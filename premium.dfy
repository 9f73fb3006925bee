/** The premium screen's data derivations: the label shown for a plan's
    duration, the create-order request sent when a plan is bought, and the
    options handed to the checkout. */
module Premium {
  import opened Wrappers
  import opened Json
  import Decimal

  /** A subscription plan as the plans endpoint returns it. */
  datatype Plan = Plan(id: JsValue, durationInDays: JsValue, amount: JsValue)

  /** JavaScript's loose equality `v == lit` between a value and a string of
      decimal digits: a string compares as text, a number or a boolean with
      the number the digits denote, and null and undefined equal no
      string. Against a numeral without a leading zero, a non-negative
      number is equal exactly when its own decimal text is that numeral. */
  predicate LooselyEquals(v: JsValue, lit: string)
    requires |lit| > 0 && Decimal.AllDigits(lit)
    ensures v.JsNum? && v.n >= 0 && (|lit| == 1 || lit[0] != '0') ==>
              (LooselyEquals(v, lit) <==> Decimal.NatToString(v.n) == lit)
  {
    if v.JsNum? && v.n >= 0 && (|lit| == 1 || lit[0] != '0') then
      Decimal.NatToStringOfDigitsValue(lit);
      Decimal.DigitsValueOfNatToString(v.n);
      v.n == Decimal.DigitsValue(lit)
    else match v
    case JsStr(s) => s == lit
    case JsNum(n) => n == Decimal.DigitsValue(lit)
    case JsBool(b) => (if b then 1 else 0) == Decimal.DigitsValue(lit)
    case JsNull => false
    case JsUndefined => false
  }

  lemma LiteralValues()
    ensures Decimal.DigitsValue("90") == 90
    ensures Decimal.DigitsValue("180") == 180
    ensures Decimal.DigitsValue("365") == 365
  {
    assert "90"[..1] == "9" && "9"[..0] == "";
    assert "180"[..2] == "18" && "18"[..1] == "1" && "1"[..0] == "";
    assert "365"[..2] == "36" && "36"[..1] == "3" && "3"[..0] == "";
  }

  /** The plan title: 90, 180 and 365 days have their own names, compared
      loosely with the strings "90", "180" and "365"; anything else is
      "N/A". */
  function PlanLabel(durationInDays: JsValue): (title: string)
    ensures title == "Quarterly Plan" <==> LooselyEquals(durationInDays, "90")
    ensures title == "Half Year Plan" <==> LooselyEquals(durationInDays, "180")
    ensures title == "Yearly Plan" <==> LooselyEquals(durationInDays, "365")
    ensures title == "N/A" <==>
              !LooselyEquals(durationInDays, "90") && !LooselyEquals(durationInDays, "180") &&
              !LooselyEquals(durationInDays, "365")
  {
    LiteralValues();
    if LooselyEquals(durationInDays, "90") then "Quarterly Plan"
    else if LooselyEquals(durationInDays, "180") then "Half Year Plan"
    else if LooselyEquals(durationInDays, "365") then "Yearly Plan"
    else "N/A"
  }

  /** The named plans by their length in days. */
  const NamedDurations: map<int, string> :=
    map[90 := "Quarterly Plan", 180 := "Half Year Plan", 365 := "Yearly Plan"]

  /** A numeric duration is labelled by the table of named plans. */
  lemma NumericLabel(n: int)
    ensures PlanLabel(JsNum(n)) == if n in NamedDurations then NamedDurations[n] else "N/A"
  {
    LiteralValues();
  }

  /** Because the comparison is loose, a duration sent as a number and the
      same duration sent as its decimal string get the same label. */
  lemma NumberAndNumeralSameLabel(n: nat)
    ensures PlanLabel(JsNum(n)) == PlanLabel(JsStr(Decimal.NatToString(n)))
  {
    assert Decimal.AllDigits("90") && Decimal.AllDigits("180") && Decimal.AllDigits("365");
  }

  /** A string duration is compared as text, so a zero-padded "090" is not
      a quarterly plan while the number 90 is. */
  lemma PaddedNumeralNotNamed()
    ensures PlanLabel(JsStr("090")) == "N/A"
    ensures PlanLabel(JsNum(90)) == "Quarterly Plan"
  {
    LiteralValues();
  }

  // ---------------------------------------------------------------------
  // Buying a plan

  /** The create-order request. */
  datatype OrderRequest = OrderRequest(
    url: string,
    httpMethod: string,
    contentType: string,
    authorization: string,
    body: string)

  /** The stored token as a template literal writes it: a missing token
      (`null`) becomes the text "null", the same text as a stored token
      "null". */
  function TokenText(token: Option<string>): (r: string)
    ensures token.Some? ==> r == token.value
    ensures r == "null" <==> token.None? || token == Some("null")
  {
    match token
    case Some(t) => t
    case None => "null"
  }

  /** The request `handlePayment(amount)` sends: a POST to the create-order
      endpoint, with the stored token as bearer credential and a JSON body
      whose only property is the amount it was given. */
  function CreateOrderRequest(base: string, token: Option<string>, amount: JsValue): (r: OrderRequest)
    ensures r.url == base + "subscribe/create-order" && r.httpMethod == "POST"
    ensures r.contentType == "application/json"
    ensures token.Some? ==> r.authorization == "Bearer " + token.value
    ensures token.None? ==> r.authorization == "Bearer null"
    ensures ParseAmountBody(r.body) == Some(amount)
  {
    AmountBodyRoundTrip(amount);
    OrderRequest(base + "subscribe/create-order", "POST", "application/json", "Bearer " + TokenText(token), AmountBody(amount))
  }

  /** The "Buy Now" button of a plan card calls `handlePayment` with the
      plan's own amount, so the order body carries exactly that amount. */
  function BuyNowOrder(base: string, token: Option<string>, plan: Plan): (r: OrderRequest)
    ensures ParseAmountBody(r.body) == Some(plan.amount)
  {
    CreateOrderRequest(base, token, plan.amount)
  }

  /** What the create-order endpoint answered, as far as `orderData?.data?.id`
      looks at it: either no `data` at all (the reply or its `data` is null or
      undefined), or a `data` whose `id` is the given value (undefined when
      absent). */
  datatype OrderReply = ReplyWithoutData | ReplyData(id: JsValue)

  /** The signed-in user from the user context, whose `phone` the checkout
      pre-fills. */
  datatype User = User(phone: JsValue)

  datatype Prefill = Prefill(name: string, email: string, contact: JsValue)

  /** The merchant details the screen writes as literals into every checkout:
      logo, description, API key, merchant name, pre-filled name and e-mail,
      and theme colour. */
  datatype Merchant = Merchant(
    image: string,
    description: string,
    key: string,
    name: string,
    prefillName: string,
    prefillEmail: string,
    themeColor: string)

  /** The options record given to the checkout SDK. */
  datatype CheckoutOptions = CheckoutOptions(
    image: string,
    description: string,
    currency: string,
    key: string,
    amount: int,
    name: string,
    orderId: JsValue,
    prefill: Prefill,
    themeColor: string)

  /** The checkout options built from the merchant details, the order reply
      and the user. Reading `user.phone` throws when there is no user
      (`None`). The amount is the constant 500 and the currency "INR",
      whatever was ordered. */
  function Checkout(merchant: Merchant, reply: OrderReply, user: Option<User>): (r: Option<CheckoutOptions>)
    ensures r.Some? <==> user.Some?
    ensures r.Some? ==>
              r.value.image == merchant.image && r.value.description == merchant.description &&
              r.value.key == merchant.key && r.value.name == merchant.name &&
              r.value.prefill.name == merchant.prefillName && r.value.prefill.email == merchant.prefillEmail &&
              r.value.themeColor == merchant.themeColor
    ensures r.Some? ==> r.value.currency == "INR" && r.value.amount == 500
    ensures r.Some? && reply.ReplyData? ==> r.value.orderId == reply.id
    ensures r.Some? && reply.ReplyWithoutData? ==> r.value.orderId == JsUndefined
    ensures r.Some? ==> r.value.prefill.contact == user.value.phone
  {
    match user
    case None => None
    case Some(u) =>
      var orderId := match reply
        case ReplyWithoutData => JsUndefined
        case ReplyData(id) => id;
      Some(CheckoutOptions(
        merchant.image,
        merchant.description,
        "INR",
        merchant.key,
        500,
        merchant.name,
        orderId,
        Prefill(merchant.prefillName, merchant.prefillEmail, u.phone),
        merchant.themeColor))
  }

  /** Buying two plans with different amounts sends different order bodies,
      each carrying its plan's amount, but opens the checkout with the same
      options, charging 500 in both cases. */
  lemma PlanAmountReachesOrderButNotCheckout(
    base: string, token: Option<string>, p: Plan, q: Plan, merchant: Merchant, reply: OrderReply, user: User)
    requires p.amount != q.amount
    ensures CreateOrderRequest(base, token, p.amount).body != CreateOrderRequest(base, token, q.amount).body
    ensures Checkout(merchant, reply, Some(user)).value.amount == 500
  {
    AmountBodyInjective(p.amount, q.amount);
  }
}
