# E-Auctionhub app: auction list and premium checkout, in Dafny

This project models two screens of the E-Auctionhub mobile app.

- **The auction list screen** (`app/auctions.tsx`) pages through auction
  search results. Its state is `page`, `lastPage`, the accumulated
  `auctions`, and the flags `loading` and `refreshing`. Four handlers change
  that state: `fetchAuctions` (a start and, later, a completion), `loadMore`,
  `onRefresh`, and the effect that runs on mount and on every filter change.
  The search URL is built from the filters, the page and a fixed `LIMIT` of 10.
- **The premium screen** (`app/premium.tsx`) contributes pure data
  derivations: the title shown for a plan's `durationInDays`, the
  create-order request built from a plan's amount, and the options record
  passed to the payment checkout.

Files:

- `wrappers.dfy`: `Option`.
- `decimal.dfy`: the decimal text of an integer, as a template literal or
  `JSON.stringify` writes it, with the parser that reads it back.
- `json.dfy`: JavaScript primitive values, and `JSON.stringify({ amount })`
  including string escaping. A parser is proved to invert it.
- `auctions.dfy`: the auction list. Each handler is first a function on a
  `State` value. The `AuctionScreen` class then holds the same state in
  fields, one method per handler, and each method is proved to act as its
  function says. Lemmas cover runs of several handlers.
- `premium.dfy`: plan titles, the create-order request and the checkout
  options.

A fetch is asynchronous, so it is split in two. `FetchAuctions` is the part
before the `await`: it returns the request it sent, or `None`. `FinishFetch`
is the rest: it receives that request and how it ended. The ending is either
a decoded envelope or an exception from `fetch` or `response.json()`. A
`Request` remembers whether it was a refresh, as the source's closure does.
`BACKEND_API` comes from `constants/api`, which is not part of this model. It
is a parameter (`base`, or the class's `backendApi`).

Behaviour the code has, which the model keeps and proves:

- The filter effect runs only when `cityId` or `assetTypeId` changes
  (`AuctionScreen.ChangeFilters`).
- A filter change does not reset the list or `page`. The effect changes no
  state at all and only sends a page-1 refresh request
  (`FiltersEffectStep`). The reply then replaces the list, but `page` still
  counts the old filters' pages. When the new filters have no more pages
  than that count, `loadMore` never fetches their later pages
  (`FilterChangeStrandsLaterPages`).
- A refresh fetch never raises `loading`. Nothing in the code stops a
  second fetch from starting while a refresh is in flight: a second refresh,
  or a `loadMore` once a later page is known (`RefreshFetchesCanOverlap`).
- `onRefresh` while a `loadMore` fetch is in flight still sets `refreshing`
  and `page := 1`, but sends no request. The in-flight completion then
  appends the later page and never clears `refreshing`
  (`RefreshDuringLoadMore`).
- A filter change while a `loadMore` fetch is in flight sends nothing for the
  new filters. The old filters' page is appended instead
  (`FilterChangeDuringLoadMore`).
- `loadMore` advances `page` even when the fetch fails, so that page is
  skipped (`LoadMoreRunStopsAtLastPage`).
- Take a backend whose last page is 3. After the initial load, two
  `loadMore` calls fetch pages 2 and 3, and the third sends nothing. The
  list ends with three pages (`ThreePagesBackend`). Because of the guard
  `page < lastPage`, three calls give three pages, not four.
- The checkout `amount` is always 500 and the currency always "INR". The
  plan's amount goes only into the create-order body
  (`PlanAmountReachesOrderButNotCheckout`). The checkout does not receive
  the plan's amount.
- `durationInDays` is compared loosely (`==`) with "90", "180" and "365". A
  number and its decimal string get the same title
  (`NumberAndNumeralSameLabel`), but the string "090" does not match
  (`PaddedNumeralNotNamed`).

## Model

| member | source | states |
|---|---|---|
| `Decimal.NatToString` | app/auctions.tsx:28 | the decimal text of a page number is non-empty, all digits, and has no leading zero unless it is "0" |
| `Decimal.IntToString` | app/auctions.tsx:28 | an integer's text starts with a digit or a minus sign |
| `Decimal.DigitsValueOfNatToString` | app/auctions.tsx:28 | reading the digits of a natural number's text gives the number back |
| `Decimal.NatToStringInjective` | app/auctions.tsx:28 | different natural numbers have different decimal texts |
| `Decimal.IntToStringRoundTrip` | app/auctions.tsx:28 | parsing an integer's text gives the integer back |
| `Decimal.IntToStringInjective` | app/auctions.tsx:28 | different integers have different decimal texts |
| `Decimal.NatToStringOfDigitsValue` | app/premium.tsx:148-152 | a numeral without a leading zero is the decimal text of its own value |
| `Auctions.SearchUrl` | app/auctions.tsx:21-28 | the search URL is the base, `auction/search?assetTypeId=`, the asset type, `&cityId=`, the city, `&page=`, the page in decimal and `&limit=10` (LIMIT is 10) |
| `Auctions.SearchUrlRequestsPage` | app/auctions.tsx:28 | the page parameter of the URL built for page n reads back as exactly n |
| `Auctions.SearchUrlInjective` | app/auctions.tsx:28 | for fixed filters, different pages give different URLs |
| `Auctions.StartFetch` | app/auctions.tsx:23-29 | while `loading` is set, nothing changes and nothing is sent; otherwise the request for the URL of `pageNumber` is sent, `loading` becomes true unless it is a refresh, and nothing else changes |
| `Auctions.Complete` | app/auctions.tsx:30-44 | a status-200 envelope replaces the list with its data on a refresh, appends its data in order otherwise, and sets `lastPage`; a non-200 envelope or an exception leaves list and `lastPage` alone; `loading` ends false; `refreshing` ends false after a refresh and is untouched otherwise; `page` never changes |
| `Auctions.LoadMoreStep` | app/auctions.tsx:51-58 | a no-op unless `!loading && page < lastPage`; when it fires, `page` grows by exactly 1, `loading` is set, and a non-refresh request for the new page is sent, so `page <= lastPage` afterwards |
| `Auctions.RefreshStep` | app/auctions.tsx:61-65 | `refreshing` becomes true and `page` becomes 1 in every case; a page-1 refresh request is sent exactly when `loading` is false |
| `Auctions.FiltersEffectStep` | app/auctions.tsx:47-49 | the state is left exactly as it was, `page` included; a page-1 refresh request is sent exactly when `loading` is false |
| `Auctions.FiltersEffectIsRefreshWithoutReset` | app/auctions.tsx:47-65 | the filter effect sends the same request as `onRefresh`, but keeps `page` where `onRefresh` sets it to 1 |
| `Auctions.SettledLoadMore` | app/auctions.tsx:23-58 | one `loadMore` plus its completion, when the response's `lastPage` is the known one: nothing changes at the last page; before it, `page` grows by one and the list gains the page's items |
| `Auctions.LoadMoreRunAtLastPage` | app/auctions.tsx:51-58 | at the last page, any number of `loadMore` calls change nothing |
| `Auctions.LoadMoreRunStopsAtLastPage` | app/auctions.tsx:23-58 | when every response reports the same `lastPage`, n `loadMore` calls end at page min(page + n, lastPage), failed fetches included; the list is the old list followed, in order, by the items of the pages fetched; flags and `lastPage` are unchanged |
| `Auctions.ThreePagesBackend` | app/auctions.tsx:47-58 | with three pages, the mount load and three `loadMore` calls end at page 3 with pages 1 to 3 in order, and a further `loadMore` sends nothing |
| `Auctions.RefreshFetchesCanOverlap` | app/auctions.tsx:23-65 | since a refresh does not raise `loading`, a second refresh right after the first also sends a request, and so does a `loadMore` when `lastPage` is above 1 |
| `Auctions.RefreshDuringLoadMore` | app/auctions.tsx:23-65 | a refresh during a `loadMore` fetch sends nothing, yet `page` is 1 and `refreshing` stays true after that fetch completes, and a 200 response is appended |
| `Auctions.FilterChangeDuringLoadMore` | app/auctions.tsx:23-58 | a filter change during a `loadMore` fetch sends nothing; the in-flight request is for the old filters and its 200 data is appended |
| `Auctions.FilterChangeStrandsLaterPages` | app/auctions.tsx:23-58 | after a filter change, the page-1 refresh for the new filters replaces the list but keeps the old `page`; when its `lastPage` is not above that `page`, a following `loadMore` sends nothing |
| `Auctions.AuctionScreen.constructor` | app/auctions.tsx:15-20 | the screen starts with page 1, lastPage 0, an empty list and both flags false, for the given filters |
| `Auctions.AuctionScreen.FetchAuctions` | app/auctions.tsx:23-29 | updates the fields and returns the request exactly as `StartFetch` says; the filters are unchanged |
| `Auctions.AuctionScreen.FinishFetch` | app/auctions.tsx:30-44 | updates the fields exactly as `Complete` says |
| `Auctions.AuctionScreen.LoadMore` | app/auctions.tsx:51-58 | updates the fields and returns the request exactly as `LoadMoreStep` says |
| `Auctions.AuctionScreen.OnRefresh` | app/auctions.tsx:61-65 | updates the fields and returns the request exactly as `RefreshStep` says |
| `Auctions.AuctionScreen.RunFiltersEffect` | app/auctions.tsx:47-49 | leaves the state as `FiltersEffectStep` says and returns its request for the current filters |
| `Auctions.AuctionScreen.ChangeFilters` | app/auctions.tsx:15-49 | installs the new route filters; when they equal the current ones, nothing else changes and nothing is sent; otherwise the effect runs for them, as `FiltersEffectStep` says |
| `Json.EscapeChar` | app/premium.tsx:59-61 | one character's JSON text is 1 to 6 characters with no control character; it is the character itself exactly when that is not a quote, a backslash or a control character, and a backslash starts every longer escape |
| `Json.Escape` | app/premium.tsx:59-61 | a string's escaped form is at least as long as the string and at most six times longer, holds no control character, and is the string itself when nothing in it needs escaping |
| `Json.Quote` | app/premium.tsx:59-61 | a string's JSON text is enclosed in double quotes |
| `Json.ValueText` | app/premium.tsx:59-61 | a defined value's JSON text is non-empty; it is `null` exactly for null, and starts with a quote exactly for a string |
| `Json.AmountBody` | app/premium.tsx:59-61 | the body is `{}` exactly when the amount is undefined, and otherwise the object text `{"amount":` … `}` |
| `Json.UnescapeEscape` | app/premium.tsx:59-61 | reading back the escaped form of any string gives that string |
| `Json.ParseValueText` | app/premium.tsx:59-61 | the JSON text of null, a boolean, an integer or a string reads back as that value |
| `Json.AmountBodyRoundTrip` | app/premium.tsx:59-61 | the body `JSON.stringify({ amount })` reads back as exactly `amount`; for an undefined amount the body is `{}` |
| `Json.AmountBodyInjective` | app/premium.tsx:59-61 | different amounts give different bodies |
| `Premium.LooselyEquals` | app/premium.tsx:148-152 | a non-negative number loosely equals a numeral without a leading zero exactly when that numeral is the number's decimal text |
| `Premium.PlanLabel` | app/premium.tsx:148-154 | "Quarterly Plan" exactly when the duration loosely equals "90", "Half Year Plan" for "180", "Yearly Plan" for "365", and "N/A" exactly when it equals none of them |
| `Premium.NumericLabel` | app/premium.tsx:148-154 | a numeric duration gets its title from the table 90, 180, 365, and "N/A" otherwise |
| `Premium.NumberAndNumeralSameLabel` | app/premium.tsx:148-154 | the number n and the string of its decimal digits get the same title |
| `Premium.PaddedNumeralNotNamed` | app/premium.tsx:148-154 | the string "090" gets "N/A" while the number 90 gets "Quarterly Plan" |
| `Premium.TokenText` | app/premium.tsx:57 | a stored token is written as itself; the text is "null" exactly when there is no token or the token is the string "null" |
| `Premium.CreateOrderRequest` | app/premium.tsx:46-62 | a POST to `subscribe/create-order` with a JSON content type and `Bearer <token>` (`Bearer null` with no token); its body reads back as exactly the amount given |
| `Premium.BuyNowOrder` | app/premium.tsx:172 | the order sent for a plan's Buy Now button carries that plan's amount |
| `Premium.Checkout` | app/premium.tsx:67-81 | options exist exactly when there is a user; currency is "INR" and amount is 500; `order_id` is the reply's `data.id`, or undefined when the reply has no data; `prefill.contact` is the user's phone; the image, description, key, name, pre-filled name and e-mail and theme colour are the merchant's |
| `Premium.PlanAmountReachesOrderButNotCheckout` | app/premium.tsx:59-74 | two plans with different amounts send different order bodies, but the checkout charges 500 for either |

## Left out

- Network I/O: `fetch`, `response.json()` and the backend endpoints. A
  search response is an input to `FinishFetch`. The create-order reply is an
  input to `Checkout`.
- The premium screen's plan loading (`getPremiumPlan`, lines 29-44). It is a
  GET whose result is stored as-is, with no rule to state.
- The payment SDK (`RazorpayCheckout.open`) and its callbacks, `alert`,
  `console.log`, and the token read from `AsyncStorage`. The token is a
  parameter of `CreateOrderRequest`.
- The `isProcessing` flag, which is set and never cleared, and the commented
  out payment confirmation call (premium.tsx lines 90-114).
- React's batching of state updates, stale closures and re-running of
  updater functions. Events are applied one at a time, each to the state the
  previous one left. A completion may still come after later events, as the
  interleaving lemmas show.
- JavaScript numbers are modelled as unbounded integers. Fractions, and the
  exponent notation JavaScript uses for integers of 10^21 and more, are not
  modelled. This affects the page number in the URL and a numeric plan
  amount in the order body.
- Malformed envelopes. A missing `statusCode` is any value other than 200.
  A 200 envelope whose `data` is not an array is not modelled: appending it
  would throw inside the state updater. Nor is a `lastPage` that is not a
  number.
- A route parameter that is absent is written as "undefined" in the URL.
  Filters are plain text here, so a caller passes that text.
- Rendering: list items, footer and empty components, skeletons, headings,
  styles, and the `dayjs` and `toLocaleString` formatting.
- `Json.Unescape` reads JSON string contents except `\u` escapes of
  surrogate halves, which Dafny characters cannot hold.
- Object and array values of `durationInDays`, `amount`, `data.id` and
  `phone`. A value is a primitive here, so loose equality on an array
  (`[90] == "90"` is true) and `JSON.stringify` of a nested object are not
  modelled.
- The literal merchant details of the checkout options (logo URL,
  description, API key, merchant name, pre-filled name and e-mail, theme
  colour). They are a `Merchant` parameter of `Checkout`, whose contract
  says each reaches its option unchanged.
