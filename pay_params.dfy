/**
 * The parameter array `process_payment` builds from a WooCommerce order for
 * the `pay` and `hold` operations. The order's texts arrive already cleaned
 * by the host (`sanitize_text_field`, `sanitize_email`, `esc_url` and the
 * nonce on the return URLs are the host's); the builder applies the byte
 * truncations and the two-decimal rounding of every amount.
 */
module PayParams {
  import opened PhpValue
  import MaibApi

  /** An exact decimal amount `mantissa / 10^scale`, as WooCommerce stores prices and totals. */
  datatype Decimal = Decimal(mantissa: int, scale: nat)

  /** One order line: product id, name, unit price, quantity. */
  datatype Line = Line(productId: nat, name: string, price: Decimal, quantity: int)

  /** What `process_payment` reads from the order and the request. */
  datatype Checkout = Checkout(
    orderId: nat,
    total: Decimal,
    shippingTotal: Decimal,
    currency: string,
    firstName: string,
    lastName: string,
    email: string,
    phone: string,
    description: string,
    clientIp: string,
    language: string,
    okUrl: string,
    failUrl: string,
    callbackUrl: string,
    lines: seq<Line>)

  /** `a / 10^k` rounded to the nearest integer, halves upward. */
  function RoundHalfUp(a: nat, k: nat): nat
  {
    if k == 0 then a else WholePart(a + 5 * Pow10(k - 1), k)
  }

  /**
   * `number_format($x, 2, '.', '')` as a number of cents: rounded to two
   * places, halves away from zero.
   */
  function Cents(d: Decimal): int
  {
    if d.scale == 0 then d.mantissa * 100
    else if d.scale == 1 then d.mantissa * 10
    else if d.scale == 2 then d.mantissa
    else if d.mantissa < 0 then 0 - RoundHalfUp(-d.mantissa, d.scale - 2) as int
    else RoundHalfUp(d.mantissa, d.scale - 2)
  }

  /** An amount with at most two decimals is kept exactly. */
  lemma CentsExact(d: Decimal)
    requires d.scale <= 2
    ensures RealOf(Cents(d), 2) == RealOf(d.mantissa, d.scale)
  {
    assert Pow10(1) == 10 && Pow10(2) == 100;
  }

  /** Rounding is symmetric about zero, so a refund of `-x` is the negation of a refund of `x`. */
  lemma CentsNegate(d: Decimal)
    ensures Cents(Decimal(-d.mantissa, d.scale)) == -Cents(d)
  {
    if d.mantissa == 0 && d.scale > 2 {
      WholePartBelow(5 * Pow10(d.scale - 3), d.scale - 2);
    }
  }

  /** Less than one unit at the kept precision rounds down to nothing. */
  lemma {:induction false} WholePartBelow(a: nat, k: nat)
    requires a < Pow10(k)
    ensures WholePart(a, k) == 0
  {
    if k > 0 {
      WholePartBelow(a / 10, k - 1);
    }
  }

  /** A number of cents as PHP `float`, the value `(float)number_format($x, 2, '.', '')` yields. */
  function Money(d: Decimal): (v: Value)
    ensures v.VNum? && v.scale == 2
  {
    VNum(Cents(d), 2)
  }

  /** `number_format($x, 2, '.', '')`: the rounded amount as text with two decimals. */
  function MoneyText(d: Decimal): (v: Value)
    ensures v.VStr?
  {
    VStr(RenderFixed(Cents(d), 2))
  }

  /** `substr($s, 0, $n)`. */
  function Substr(s: string, n: nat): (r: string)
    ensures |r| <= n && (|s| <= n ==> r == s) && (|s| > n ==> r == s[..n])
  {
    if |s| <= n then s else s[..n]
  }

  /** A list of values as PHP builds it with `$a[] = ...`: keys "0", "1", ... */
  function ListOf(vs: seq<Value>): (v: Value)
    ensures v.VArray? && |v.entries| == |vs|
    ensures forall i :: 0 <= i < |vs| ==> v.entries[i].val == vs[i]
  {
    VArray(seq(|vs|, i requires 0 <= i < |vs| => Entry(NatToString(i), vs[i])))
  }

  function ItemValue(l: Line, price: Value): Value
  {
    VArray([
      Entry("id", VStr(NatToString(l.productId))),
      Entry("name", VStr(Substr(l.name, 128))),
      Entry("price", price),
      Entry("quantity", VNum(l.quantity, 0))])
  }

  /** The parameter array, given how amounts are rendered. */
  function BuildParams(c: Checkout, money: Decimal -> Value): Value
  {
    VArray([
      Entry("amount", money(c.total)),
      Entry("currency", VStr(c.currency)),
      Entry("clientIp", VStr(c.clientIp)),
      Entry("language", VStr(c.language)),
      Entry("description", VStr(Substr(c.description, 124))),
      Entry("orderId", VStr(NatToString(c.orderId))),
      Entry("clientName", VStr(Substr(c.firstName + " " + c.lastName, 128))),
      Entry("email", VStr(c.email)),
      Entry("phone", VStr(Substr(c.phone, 40))),
      Entry("delivery", money(c.shippingTotal)),
      Entry("okUrl", VStr(c.okUrl)),
      Entry("failUrl", VStr(c.failUrl)),
      Entry("callbackUrl", VStr(c.callbackUrl)),
      Entry("items", ListOf(seq(|c.lines|, i requires 0 <= i < |c.lines| => ItemValue(c.lines[i], money(c.lines[i].price)))))])
  }

  /** The parameters with every amount a number, as the SDK demands. */
  function Params(c: Checkout): Value
  {
    BuildParams(c, Money)
  }

  /** The current plugin's parameters as written: every amount is the text `number_format` returns. */
  function ParamsAsWritten(c: Checkout): Value
  {
    BuildParams(c, MoneyText)
  }

  /** What a checkout must satisfy for the SDK to accept its parameters for `pay` or `hold`. */
  predicate Acceptable(c: Checkout, f: MaibApi.Filters)
  {
    FieldsAcceptable(c, f) && forall i :: 0 <= i < |c.lines| ==> LineAcceptable(c.lines[i])
  }

  /** The conditions on the top-level fields. */
  predicate FieldsAcceptable(c: Checkout, f: MaibApi.Filters)
  {
    Cents(c.total) >= 100
    && c.currency in MaibApi.Currencies
    && f.isIp(c.clientIp)
    && |c.language| == 2
    && f.isEmail(c.email)
    && |NatToString(c.orderId)| <= 36
    && Cents(c.shippingTotal) >= 0
    && c.lines != []
  }

  predicate LineAcceptable(l: Line)
  {
    |NatToString(l.productId)| <= 36 && Cents(l.price) >= 0 && l.quantity >= 0
  }

  lemma AtLeastCents(m: int, bound: int)
    ensures RealOf(m, 2) >= bound as real <==> m >= 100 * bound
  {
    assert Pow10(2) == 100;
  }

  /** The entry found for a key is its first occurrence. */
  lemma FieldAt(es: seq<Entry>, k: string, i: nat)
    requires i < |es| && es[i].key == k
    requires forall j :: 0 <= j < i ==> es[j].key != k
    ensures Field(VArray(es), k) == es[i].val
  {
    var n := IndexOf(es, k);
    assert n <= i;
  }

  /** A key no entry carries reads as not set. */
  lemma FieldAbsent(es: seq<Entry>, k: string)
    requires k !in Keys(es)
    ensures !Isset(VArray(es), k)
  {
    assert forall j :: 0 <= j < |es| ==> Keys(es)[j] != k;
  }

  /** The keys of the parameter array, in the order `process_payment` sets them. */
  const ParamKeys: seq<string> := ["amount", "currency", "clientIp", "language", "description", "orderId",
    "clientName", "email", "phone", "delivery", "okUrl", "failUrl", "callbackUrl", "items"]

  /** The fields that belong to other operations are not among them. */
  lemma OtherFieldsNotParamKeys()
    ensures "billerId" !in ParamKeys && "billerExpiry" !in ParamKeys && "payId" !in ParamKeys
    ensures "confirmAmount" !in ParamKeys && "refundAmount" !in ParamKeys
  {
  }

  /** An item has no field named like a URL parameter. */
  lemma UrlFieldsNotItemKeys()
    ensures "callbackUrl" !in MaibApi.ItemFields && "okUrl" !in MaibApi.ItemFields && "failUrl" !in MaibApi.ItemFields
  {
  }

  lemma ParamsKeys(c: Checkout, money: Decimal -> Value)
    ensures Keys(BuildParams(c, money).entries) == ParamKeys
  {
    var ks := Keys(BuildParams(c, money).entries);
    assert |ks| == |ParamKeys|;
    forall i | 0 <= i < |ks|
      ensures ks[i] == ParamKeys[i]
    {
    }
  }

  /** Where the parameters the operation insists on sit in the array. */
  lemma ParamsRequired(c: Checkout, money: Decimal -> Value)
    ensures Field(BuildParams(c, money), "amount") == money(c.total)
    ensures Field(BuildParams(c, money), "currency") == VStr(c.currency)
    ensures Field(BuildParams(c, money), "clientIp") == VStr(c.clientIp)
  {
    var es := BuildParams(c, money).entries;
    FieldAt(es, "amount", 0);
    FieldAt(es, "currency", 1);
    FieldAt(es, "clientIp", 2);
  }

  lemma ParamsTexts(c: Checkout, money: Decimal -> Value)
    ensures Field(BuildParams(c, money), "language") == VStr(c.language)
    ensures Field(BuildParams(c, money), "description") == VStr(Substr(c.description, 124))
    ensures Field(BuildParams(c, money), "orderId") == VStr(NatToString(c.orderId))
  {
    var es := BuildParams(c, money).entries;
    FieldAt(es, "language", 3);
    FieldAt(es, "description", 4);
    FieldAt(es, "orderId", 5);
  }

  lemma ParamsContact(c: Checkout, money: Decimal -> Value)
    ensures Field(BuildParams(c, money), "clientName") == VStr(Substr(c.firstName + " " + c.lastName, 128))
    ensures Field(BuildParams(c, money), "email") == VStr(c.email)
    ensures Field(BuildParams(c, money), "phone") == VStr(Substr(c.phone, 40))
  {
    var es := BuildParams(c, money).entries;
    FieldAt(es, "clientName", 6);
    FieldAt(es, "email", 7);
    FieldAt(es, "phone", 8);
  }

  lemma ParamsDelivery(c: Checkout, money: Decimal -> Value)
    ensures Field(BuildParams(c, money), "delivery") == money(c.shippingTotal)
  {
    FieldAt(BuildParams(c, money).entries, "delivery", 9);
  }

  lemma ParamsItems(c: Checkout, money: Decimal -> Value)
    ensures Field(BuildParams(c, money), "items") == BuildParams(c, money).entries[13].val
  {
    FieldAt(BuildParams(c, money).entries, "items", 13);
  }

  /** The array carries none of the validated fields that belong to other operations. */
  lemma ParamsAbsent(c: Checkout, money: Decimal -> Value)
    ensures !Isset(BuildParams(c, money), "billerId") && !Isset(BuildParams(c, money), "billerExpiry")
    ensures !Isset(BuildParams(c, money), "payId") && !Isset(BuildParams(c, money), "confirmAmount")
    ensures !Isset(BuildParams(c, money), "refundAmount")
  {
    var es := BuildParams(c, money).entries;
    ParamsKeys(c, money);
    OtherFieldsNotParamKeys();
    FieldAbsent(es, "billerId");
    FieldAbsent(es, "billerExpiry");
    FieldAbsent(es, "payId");
    FieldAbsent(es, "confirmAmount");
    FieldAbsent(es, "refundAmount");
  }

  /** The first failing format rule is the one `FirstBadField` reports. */
  lemma FirstBadFieldAt(data: Value, names: seq<string>, f: MaibApi.Filters, i: nat)
    requires i < |names| && !MaibApi.FieldPasses(data, names[i], f)
    requires forall j :: 0 <= j < i ==> MaibApi.FieldPasses(data, names[j], f)
    ensures MaibApi.FirstBadField(data, names, f) == i
  {
    var n := MaibApi.FirstBadField(data, names, f);
    assert n <= i;
  }

  /**
   * Any array that sets the required `pay` parameters, carries none of the
   * fields checked before `amount`, and holds a string amount fails on
   * `amount`.
   */
  lemma StringAmountRejected(data: Value, f: MaibApi.Filters)
    requires Isset(data, "amount") && Isset(data, "currency") && Isset(data, "clientIp")
    requires !Isset(data, "billerId") && !Isset(data, "billerExpiry")
    requires !Isset(data, "payId") && !Isset(data, "confirmAmount")
    requires Field(data, "amount").VStr?
    ensures MaibApi.ValidatePayParams(data, ["amount", "currency", "clientIp"], f) == Some(MaibApi.InvalidParam("amount"))
  {
    var required := ["amount", "currency", "clientIp"];
    assert MaibApi.FirstMissing(data, required) == 3;
    var fs := MaibApi.FormatFields;
    assert fs[0] == "billerId" && fs[1] == "billerExpiry" && fs[2] == "payId" && fs[3] == "confirmAmount";
    assert fs[4] == "amount";
    FirstBadFieldAt(data, fs, f, 4);
  }

  /**
   * The current plugin's array as written is refused by the bundled SDK
   * for `pay` and `hold` whatever the order: its amount is a string, and
   * the SDK accepts only numbers there.
   */
  lemma ParamsAsWrittenRejected(c: Checkout, op: MaibApi.Operation, f: MaibApi.Filters)
    requires op == MaibApi.Pay || op == MaibApi.Hold
    ensures MaibApi.ValidatePayParams(ParamsAsWritten(c), MaibApi.RequiredParams(op), f) == Some(MaibApi.InvalidParam("amount"))
  {
    ParamsRequired(c, MoneyText);
    ParamsAbsent(c, MoneyText);
    StringAmountRejected(ParamsAsWritten(c), f);
  }

  /** Where each field of an item sits; an item carries no URL field. */
  lemma ItemFieldsAt(l: Line, price: Value)
    ensures Field(ItemValue(l, price), "id") == VStr(NatToString(l.productId))
    ensures Field(ItemValue(l, price), "name") == VStr(Substr(l.name, 128))
    ensures Field(ItemValue(l, price), "price") == price
    ensures Field(ItemValue(l, price), "quantity") == VNum(l.quantity, 0)
    ensures !Isset(ItemValue(l, price), "callbackUrl") && !Isset(ItemValue(l, price), "okUrl")
    ensures !Isset(ItemValue(l, price), "failUrl")
  {
    var es := ItemValue(l, price).entries;
    FieldAt(es, "id", 0);
    FieldAt(es, "name", 1);
    FieldAt(es, "price", 2);
    FieldAt(es, "quantity", 3);
    assert Keys(es) == MaibApi.ItemFields;
    UrlFieldsNotItemKeys();
    FieldAbsent(es, "callbackUrl");
    FieldAbsent(es, "okUrl");
    FieldAbsent(es, "failUrl");
  }

  /** An item passes the SDK's item rules exactly when its line is acceptable. */
  lemma ItemOkIff(l: Line)
    ensures MaibApi.ItemOk(ItemValue(l, Money(l.price))) <==> LineAcceptable(l)
  {
    var item := ItemValue(l, Money(l.price));
    ItemFieldsAt(l, Money(l.price));
    AtLeastCents(Cents(l.price), 0);
    assert Pow10(0) == 1;
    var fs := MaibApi.ItemFields;
    assert fs[0] == "id" && fs[1] == "name" && fs[2] == "price" && fs[3] == "quantity";
    if LineAcceptable(l) {
      forall k | 0 <= k < |fs|
        ensures MaibApi.ItemFieldPasses(item, fs[k])
      {
      }
    } else {
      assert !MaibApi.ItemFieldPasses(item, fs[0]) || !MaibApi.ItemFieldPasses(item, fs[2])
        || !MaibApi.ItemFieldPasses(item, fs[3]);
    }
  }

  /** The items of the array are the order lines, one item per line, in order. */
  lemma ParamsItemsOf(c: Checkout)
    ensures |MaibApi.ItemsOf(Params(c))| == |c.lines|
    ensures forall j :: 0 <= j < |c.lines| ==> MaibApi.ItemsOf(Params(c))[j].val == ItemValue(c.lines[j], Money(c.lines[j].price))
  {
    ParamsItems(c, Money);
  }

  /** The format rules of `validatePayParams`, field by field. */
  predicate FormatsPass(data: Value, f: MaibApi.Filters)
  {
    MaibApi.FieldPasses(data, "billerId", f) && MaibApi.FieldPasses(data, "billerExpiry", f)
    && MaibApi.FieldPasses(data, "payId", f) && MaibApi.FieldPasses(data, "confirmAmount", f)
    && MaibApi.FieldPasses(data, "amount", f) && MaibApi.FieldPasses(data, "refundAmount", f)
    && MaibApi.FieldPasses(data, "currency", f) && MaibApi.FieldPasses(data, "clientIp", f)
    && MaibApi.FieldPasses(data, "language", f) && MaibApi.FieldPasses(data, "description", f)
    && MaibApi.FieldPasses(data, "clientName", f) && MaibApi.FieldPasses(data, "email", f)
    && MaibApi.FieldPasses(data, "phone", f) && MaibApi.FieldPasses(data, "orderId", f)
    && MaibApi.FieldPasses(data, "delivery", f) && MaibApi.FieldPasses(data, "items", f)
  }

  lemma FormatsPassIff(data: Value, f: MaibApi.Filters)
    ensures (forall i :: 0 <= i < |MaibApi.FormatFields| ==> MaibApi.FieldPasses(data, MaibApi.FormatFields[i], f))
      <==> FormatsPass(data, f)
  {
    var fs := MaibApi.FormatFields;
    assert fs[0] == "billerId" && fs[1] == "billerExpiry" && fs[2] == "payId" && fs[3] == "confirmAmount";
    assert fs[4] == "amount" && fs[5] == "refundAmount" && fs[6] == "currency" && fs[7] == "clientIp";
    assert fs[8] == "language" && fs[9] == "description" && fs[10] == "clientName" && fs[11] == "email";
    assert fs[12] == "phone" && fs[13] == "orderId" && fs[14] == "delivery" && fs[15] == "items";
    if FormatsPass(data, f) {
      forall i | 0 <= i < |fs|
        ensures MaibApi.FieldPasses(data, fs[i], f)
      {
        if i < 8 {
          assert fs[i] in ["billerId", "billerExpiry", "payId", "confirmAmount", "amount", "refundAmount", "currency", "clientIp"];
        } else {
          assert fs[i] in ["language", "description", "clientName", "email", "phone", "orderId", "delivery", "items"];
        }
      }
    }
  }

  lemma AmountRule(data: Value, d: Decimal, name: string, bound: int, f: MaibApi.Filters)
    requires (name == "amount" && bound == 100) || (name == "delivery" && bound == 0)
    requires Field(data, name) == Money(d)
    ensures MaibApi.FieldPasses(data, name, f) <==> Cents(d) >= bound
  {
    AtLeastCents(Cents(d), bound / 100);
  }

  lemma TextRules(data: Value, c: Checkout, f: MaibApi.Filters)
    requires Field(data, "currency") == VStr(c.currency) && Field(data, "clientIp") == VStr(c.clientIp)
    requires Field(data, "language") == VStr(c.language) && Field(data, "email") == VStr(c.email)
    ensures MaibApi.FieldPasses(data, "currency", f) <==> c.currency in MaibApi.Currencies
    ensures MaibApi.FieldPasses(data, "clientIp", f) <==> f.isIp(c.clientIp)
    ensures MaibApi.FieldPasses(data, "language", f) <==> |c.language| == 2
    ensures MaibApi.FieldPasses(data, "email", f) <==> f.isEmail(c.email)
  {
  }

  lemma TruncatedRules(data: Value, c: Checkout, f: MaibApi.Filters)
    requires Field(data, "description") == VStr(Substr(c.description, 124))
    requires Field(data, "clientName") == VStr(Substr(c.firstName + " " + c.lastName, 128))
    requires Field(data, "phone") == VStr(Substr(c.phone, 40))
    requires Field(data, "orderId") == VStr(NatToString(c.orderId))
    ensures MaibApi.FieldPasses(data, "description", f) && MaibApi.FieldPasses(data, "clientName", f)
    ensures MaibApi.FieldPasses(data, "phone", f)
    ensures MaibApi.FieldPasses(data, "orderId", f) <==> |NatToString(c.orderId)| <= 36
  {
  }

  lemma AbsentRules(data: Value, c: Checkout, f: MaibApi.Filters)
    requires !Isset(data, "billerId") && !Isset(data, "billerExpiry")
    requires !Isset(data, "payId") && !Isset(data, "confirmAmount") && !Isset(data, "refundAmount")
    requires Field(data, "items").VArray? && |Field(data, "items").entries| == |c.lines|
    ensures MaibApi.FieldPasses(data, "billerId", f) && MaibApi.FieldPasses(data, "billerExpiry", f)
    ensures MaibApi.FieldPasses(data, "payId", f) && MaibApi.FieldPasses(data, "confirmAmount", f)
    ensures MaibApi.FieldPasses(data, "refundAmount", f)
    ensures MaibApi.FieldPasses(data, "items", f) <==> c.lines != []
  {
  }

  /**
   * The corrected array is accepted by the SDK for `pay` and `hold` exactly
   * when the order is acceptable: the truncated texts always fit, and every
   * amount is a number.
   */
  lemma ParamsAccepted(c: Checkout, op: MaibApi.Operation, f: MaibApi.Filters)
    requires op == MaibApi.Pay || op == MaibApi.Hold
    ensures MaibApi.ValidatePayParams(Params(c), MaibApi.RequiredParams(op), f).None? <==> Acceptable(c, f)
  {
    var p := Params(c);
    var required := MaibApi.RequiredParams(op);
    assert required == ["amount", "currency", "clientIp"];
    ParamsRequired(c, Money);
    ParamsFormats(c, f);
    FormatsPassIff(p, f);
    ParamsItemRules(c);
    ParamsUrlRules(c, f);
  }

  lemma ParamsFormats(c: Checkout, f: MaibApi.Filters)
    ensures FormatsPass(Params(c), f) <==> FieldsAcceptable(c, f)
  {
    var p := Params(c);
    ParamsRequired(c, Money);
    ParamsTexts(c, Money);
    ParamsContact(c, Money);
    ParamsDelivery(c, Money);
    ParamsAbsent(c, Money);
    ParamsItems(c, Money);
    AmountRule(p, c.total, "amount", 100, f);
    AmountRule(p, c.shippingTotal, "delivery", 0, f);
    TextRules(p, c, f);
    TruncatedRules(p, c, f);
    AbsentRules(p, c, f);
  }

  lemma ParamsItemRules(c: Checkout)
    ensures (forall j :: 0 <= j < |MaibApi.ItemsOf(Params(c))| ==> MaibApi.ItemOk(MaibApi.ItemsOf(Params(c))[j].val))
      <==> forall i :: 0 <= i < |c.lines| ==> LineAcceptable(c.lines[i])
  {
    ParamsItemsOf(c);
    var items := MaibApi.ItemsOf(Params(c));
    forall j | 0 <= j < |items|
      ensures MaibApi.ItemOk(items[j].val) <==> LineAcceptable(c.lines[j])
    {
      ItemOkIff(c.lines[j]);
    }
  }

  /** No item carries a URL field, so the URL rule as written never rejects the array. */
  lemma ParamsUrlRules(c: Checkout, f: MaibApi.Filters)
    ensures forall i :: 0 <= i < |MaibApi.UrlFields| ==> MaibApi.UrlPasses(Params(c), MaibApi.UrlFields[i], f)
  {
    ParamsItemsOf(c);
    var items := MaibApi.ItemsOf(Params(c));
    if items != [] {
      var l := c.lines[|items| - 1];
      ItemFieldsAt(l, Money(l.price));
    }
  }
}
