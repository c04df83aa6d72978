/**
 * `MaibApi`: the payment operations of the maib SDK. Every operation first
 * validates its arguments and the access token, and only then builds a
 * request; the reply is classified by `handleResponse`. The checks PHP
 * delegates to `filter_var` (IP address, e-mail address, URL) are given as
 * host predicates.
 */
module MaibApi {
  import opened PhpValue
  import MaibSdk

  datatype Operation =
    | Pay | Hold | Complete | Refund | PayInfo | DeleteCard
    | SaveRecurring | ExecuteRecurring | SaveOneclick | ExecuteOneclick
  {
    /** `payInfo` and `deleteCard` take an id; the others take a parameter array. */
    predicate TakesId()
    {
      this == PayInfo || this == DeleteCard
    }
  }

  /** `filter_var` with `FILTER_VALIDATE_IP`, `FILTER_VALIDATE_EMAIL` and `FILTER_VALIDATE_URL`. */
  datatype Filters = Filters(isIp: string -> bool, isEmail: string -> bool, isUrl: string -> bool)

  function Endpoint(op: Operation): (uri: string)
    ensures MaibSdk.IsEndpoint(uri)
  {
    match op
    case Pay => MaibSdk.DirectPay
    case Hold => MaibSdk.Hold
    case Complete => MaibSdk.Complete
    case Refund => MaibSdk.Refund
    case PayInfo => MaibSdk.PayInfo
    case DeleteCard => MaibSdk.DeleteCard
    case SaveRecurring => MaibSdk.SaveRecurring
    case ExecuteRecurring => MaibSdk.ExecuteRecurring
    case SaveOneclick => MaibSdk.SaveOneclick
    case ExecuteOneclick => MaibSdk.ExecuteOneclick
  }

  /** The parameters each array-taking operation insists on, in the order they are checked. */
  function RequiredParams(op: Operation): seq<string>
    requires !op.TakesId()
  {
    match op
    case Pay => ["amount", "currency", "clientIp"]
    case Hold => ["amount", "currency", "clientIp"]
    case Complete => ["payId"]
    case Refund => ["payId"]
    case SaveRecurring => ["billerExpiry", "currency", "clientIp"]
    case ExecuteRecurring => ["billerId", "amount", "currency"]
    case SaveOneclick => ["billerExpiry", "currency", "clientIp"]
    case ExecuteOneclick => ["billerId", "amount", "currency", "clientIp"]
  }

  datatype ValidationError =
    | MissingParam(name: string)
    | InvalidParam(name: string)
    | InvalidItemParam(name: string)

  /** Why an operation refused to send anything. */
  datatype RequestError =
    | Params(error: ValidationError)
    | MissingId
    | InvalidId
    | InvalidToken

  /** How an operation fails. */
  datatype ApiError =
    | Refused(reason: RequestError)
    | Client(error: MaibSdk.ClientError)
    | MissingResult
    | Declined(message: Value, code: Value)
    | MalformedResponse

  /** The top-level fields with a format rule, in the order `validatePayParams` checks them. */
  const FormatFields: seq<string> := ["billerId", "billerExpiry", "payId", "confirmAmount", "amount",
    "refundAmount", "currency", "clientIp", "language", "description", "clientName", "email", "phone",
    "orderId", "delivery", "items"]

  /** The per-item fields with a format rule, in checking order. */
  const ItemFields: seq<string> := ["id", "name", "price", "quantity"]

  /** The URL fields, in checking order. */
  const UrlFields: seq<string> := ["callbackUrl", "okUrl", "failUrl"]

  const Currencies: seq<string> := ["MDL", "EUR", "USD"]

  predicate StringOfLength(v: Value, n: nat)
  {
    v.VStr? && |v.s| == n
  }

  predicate StringAtMost(v: Value, n: nat)
  {
    v.VStr? && |v.s| <= n
  }

  /**
   * `is_numeric($v) && !($v < $bound) && !is_string($v)`: only a PHP int or
   * float passes; a numeric string is refused.
   */
  predicate NumberAtLeast(v: Value, bound: int)
  {
    v.VNum? && RealOf(v.mantissa, v.scale) >= bound as real
  }

  /** The format rule of a top-level field. */
  predicate FieldValid(name: string, v: Value, f: Filters)
  {
    if name == "billerId" then StringOfLength(v, 36)
    else if name == "billerExpiry" then StringOfLength(v, 4)
    else if name == "payId" then StringAtMost(v, 36)
    else if name == "confirmAmount" then NumberAtLeast(v, 0)
    else if name == "amount" then NumberAtLeast(v, 1)
    else if name == "refundAmount" then NumberAtLeast(v, 0)
    else if name == "currency" then v.VStr? && v.s in Currencies
    else if name == "clientIp" then v.VStr? && f.isIp(v.s)
    else if name == "language" then StringOfLength(v, 2)
    else if name == "description" then StringAtMost(v, 124)
    else if name == "clientName" then StringAtMost(v, 128)
    else if name == "email" then !v.VArray? && f.isEmail(StrCast(v))
    else if name == "phone" then StringAtMost(v, 40)
    else if name == "orderId" then StringAtMost(v, 36)
    else if name == "delivery" then NumberAtLeast(v, 0)
    else if name == "items" then v.VArray? && v.entries != []
    else true
  }

  /** The format rule of a field of one item. */
  predicate ItemFieldValid(name: string, v: Value)
  {
    if name == "id" then StringAtMost(v, 36)
    else if name == "name" then StringAtMost(v, 128)
    else if name == "price" || name == "quantity" then NumberAtLeast(v, 0)
    else true
  }

  /** A field that is not set is not checked. */
  predicate FieldPasses(data: Value, name: string, f: Filters)
  {
    Isset(data, name) ==> FieldValid(name, Field(data, name), f)
  }

  predicate ItemFieldPasses(item: Value, name: string)
  {
    Isset(item, name) ==> ItemFieldValid(name, Field(item, name))
  }

  /** The entries of `$data['items']` when that is an array. */
  function ItemsOf(data: Value): seq<Entry>
  {
    if Isset(data, "items") && Field(data, "items").VArray? then Field(data, "items").entries else []
  }

  /**
   * The URL rule as written: the field is checked in `$data`, but only when
   * the last item of the `items` loop (`$item`, still bound after the loop)
   * has a field of that name.
   */
  predicate UrlPasses(data: Value, name: string, f: Filters)
  {
    var items := ItemsOf(data);
    var v := Field(data, name);
    items == [] || !Isset(items[|items| - 1].val, name) || (v.VStr? && f.isUrl(v.s))
  }

  function FirstMissing(data: Value, required: seq<string>): (i: nat)
    ensures i <= |required|
    ensures i < |required| ==> !Isset(data, required[i])
    ensures forall j :: 0 <= j < i ==> Isset(data, required[j])
  {
    if required == [] then 0
    else if !Isset(data, required[0]) then 0
    else 1 + FirstMissing(data, required[1..])
  }

  function FirstBadField(data: Value, names: seq<string>, f: Filters): (i: nat)
    ensures i <= |names|
    ensures i < |names| ==> !FieldPasses(data, names[i], f)
    ensures forall j :: 0 <= j < i ==> FieldPasses(data, names[j], f)
  {
    if names == [] then 0
    else if !FieldPasses(data, names[0], f) then 0
    else 1 + FirstBadField(data, names[1..], f)
  }

  function FirstBadItemField(item: Value, names: seq<string>): (i: nat)
    ensures i <= |names|
    ensures i < |names| ==> !ItemFieldPasses(item, names[i])
    ensures forall j :: 0 <= j < i ==> ItemFieldPasses(item, names[j])
  {
    if names == [] then 0
    else if !ItemFieldPasses(item, names[0]) then 0
    else 1 + FirstBadItemField(item, names[1..])
  }

  ghost predicate ItemOk(item: Value)
  {
    forall k :: 0 <= k < |ItemFields| ==> ItemFieldPasses(item, ItemFields[k])
  }

  function FirstBadItem(items: seq<Entry>): (i: nat)
    ensures i <= |items|
    ensures i < |items| ==> FirstBadItemField(items[i].val, ItemFields) < |ItemFields|
    ensures forall j :: 0 <= j < i ==> ItemOk(items[j].val)
  {
    if items == [] then 0
    else if FirstBadItemField(items[0].val, ItemFields) < |ItemFields| then 0
    else 1 + FirstBadItem(items[1..])
  }

  function FirstBadUrl(data: Value, names: seq<string>, f: Filters): (i: nat)
    ensures i <= |names|
    ensures i < |names| ==> !UrlPasses(data, names[i], f)
    ensures forall j :: 0 <= j < i ==> UrlPasses(data, names[j], f)
  {
    if names == [] then 0
    else if !UrlPasses(data, names[0], f) then 0
    else 1 + FirstBadUrl(data, names[1..], f)
  }

  /** Every rule of `validatePayParams`, stated independently of the order of checking. */
  ghost predicate AllRulesHold(data: Value, required: seq<string>, f: Filters)
  {
    (forall i :: 0 <= i < |required| ==> Isset(data, required[i]))
    && (forall i :: 0 <= i < |FormatFields| ==> FieldPasses(data, FormatFields[i], f))
    && (forall j :: 0 <= j < |ItemsOf(data)| ==> ItemOk(ItemsOf(data)[j].val))
    && (forall i :: 0 <= i < |UrlFields| ==> UrlPasses(data, UrlFields[i], f))
  }

  /**
   * `validatePayParams`: the first failure in checking order, `None` when
   * the parameters pass. Required parameters come first, then the
   * top-level formats, then the items, then the URLs.
   */
  function ValidatePayParams(data: Value, required: seq<string>, f: Filters): (r: Option<ValidationError>)
    ensures r.None? <==> AllRulesHold(data, required, f)
    ensures r.Some? && r.value.MissingParam? ==> r.value.name in required && !Isset(data, r.value.name)
    ensures r.Some? && r.value.InvalidParam? ==>
      (r.value.name in FormatFields && !FieldPasses(data, r.value.name, f))
      || (r.value.name in UrlFields && !UrlPasses(data, r.value.name, f))
    ensures r.Some? && r.value.InvalidItemParam? ==>
      r.value.name in ItemFields
      && exists j :: 0 <= j < |ItemsOf(data)| && !ItemFieldPasses(ItemsOf(data)[j].val, r.value.name)
           && forall i :: 0 <= i < j ==> ItemOk(ItemsOf(data)[i].val)
  {
    var m := FirstMissing(data, required);
    if m < |required| then Some(MissingParam(required[m]))
    else
      var k := FirstBadField(data, FormatFields, f);
      if k < |FormatFields| then Some(InvalidParam(FormatFields[k]))
      else
        var items := ItemsOf(data);
        var b := FirstBadItem(items);
        if b < |items| then Some(InvalidItemParam(ItemFields[FirstBadItemField(items[b].val, ItemFields)]))
        else
          var u := FirstBadUrl(data, UrlFields, f);
          if u < |UrlFields| then Some(InvalidParam(UrlFields[u])) else None
  }

  /**
   * A missing required parameter is reported, naming the first missing one,
   * whatever the formats of the other parameters are.
   */
  lemma MissingReportedFirst(data: Value, required: seq<string>, f: Filters, i: nat)
    requires i < |required| && !Isset(data, required[i])
    ensures ValidatePayParams(data, required, f).Some?
    ensures ValidatePayParams(data, required, f).value.MissingParam?
    ensures var n := ValidatePayParams(data, required, f).value.name;
      exists j :: 0 <= j <= i && required[j] == n && !Isset(data, n) && forall k :: 0 <= k < j ==> Isset(data, required[k])
  {
    var j := FirstMissing(data, required);
    assert j <= i;
    assert required[j] == ValidatePayParams(data, required, f).value.name;
  }

  /** `validateIdParam`: present, then a string of exactly 36 bytes. */
  function ValidateId(id: Value): (r: Option<RequestError>)
    ensures r.None? <==> StringOfLength(id, 36)
    ensures id == VNull ==> r == Some(MissingId)
  {
    if id == VNull then Some(MissingId)
    else if !StringOfLength(id, 36) then Some(InvalidId)
    else None
  }

  /** `validateAccessToken`: a string that is not empty in PHP's sense, so neither "" nor "0". */
  predicate ValidToken(token: Value)
  {
    token.VStr? && Truthy(token)
  }

  /** `handleResponse`: the result of an ok response, otherwise one of three errors. */
  function HandleResponse(response: Value): (r: Result<Value, ApiError>)
    ensures r.Ok? <==> Truthy(Field(response, "ok")) && Isset(response, "result")
    ensures r.Ok? ==> r.value == Field(response, "result") && r.value != VNull
    ensures r == Err(MissingResult) <==> Truthy(Field(response, "ok")) && !Isset(response, "result")
    ensures r.Err? && r.error.Declined? <==> !Truthy(Field(response, "ok")) && Isset(response, "errors")
    ensures r.Err? && r.error.Declined? ==>
      r.error.message == Field(Field(Field(response, "errors"), "0"), "errorMessage")
      && r.error.code == Field(Field(Field(response, "errors"), "0"), "errorCode")
    ensures r == Err(MalformedResponse) <==> !Truthy(Field(response, "ok")) && !Isset(response, "errors")
  {
    if Isset(response, "ok") && Truthy(Field(response, "ok")) then
      if Isset(response, "result") then Ok(Field(response, "result")) else Err(MissingResult)
    else if Isset(response, "errors") then
      var e := Field(Field(response, "errors"), "0");
      Err(Declined(Field(e, "errorMessage"), Field(e, "errorCode")))
    else Err(MalformedResponse)
  }

  /** The argument checks of an operation: `validateIdParam` or `validatePayParams`. */
  function CheckArgs(op: Operation, arg: Value, f: Filters): (r: Option<RequestError>)
    ensures r.None? <==> if op.TakesId() then StringOfLength(arg, 36) else AllRulesHold(arg, RequiredParams(op), f)
    ensures !op.TakesId() && r.Some? ==> r.value == Params(ValidatePayParams(arg, RequiredParams(op), f).value)
  {
    if op.TakesId() then ValidateId(arg)
    else match ValidatePayParams(arg, RequiredParams(op), f)
      case Some(e) => Some(Params(e))
      case None => None
  }

  /**
   * The request a validated call sends: POST with the parameters as body,
   * or GET/DELETE with the id as the last path segment; always with the
   * bearer token.
   */
  function BuildRequest(op: Operation, arg: Value, token: string): (req: MaibSdk.HttpRequest)
    requires op.TakesId() ==> arg.VStr?
    ensures MaibSdk.SplitUrl(req.url) == Some((Endpoint(op), if op.TakesId() then Some(arg.s) else None))
    ensures req.headers != [] && req.headers[|req.headers| - 1] == MaibSdk.Bearer(token)
    ensures req.verb == MaibSdk.Post <==> !op.TakesId()
    ensures !op.TakesId() ==> req.body == Some(arg)
    ensures op.TakesId() ==> req.body.None?
  {
    MaibSdk.EndpointsHaveNoSlash(Endpoint(op));
    if op.TakesId() then
      MaibSdk.RequestForms(Endpoint(op), VNull, arg.s, Some(token));
      if op == PayInfo then MaibSdk.GetRequest(Endpoint(op), arg.s, Some(token))
      else MaibSdk.DeleteRequest(Endpoint(op), arg.s, Some(token))
    else
      MaibSdk.RequestForms(Endpoint(op), arg, "", Some(token));
      MaibSdk.PostRequest(Endpoint(op), arg, Some(token))
  }

  /**
   * The request an operation sends, or why it sends none: arguments are
   * validated first, the token second, and only then is a request built.
   */
  function Prepare(op: Operation, arg: Value, token: Value, f: Filters): (r: Result<MaibSdk.HttpRequest, ApiError>)
    ensures r.Ok? <==> CheckArgs(op, arg, f).None? && ValidToken(token)
    ensures r.Err? ==> r.error.Refused?
    ensures CheckArgs(op, arg, f).Some? ==> r == Err(Refused(CheckArgs(op, arg, f).value))
    ensures CheckArgs(op, arg, f).None? && !ValidToken(token) ==> r == Err(Refused(InvalidToken))
    ensures r.Ok? ==> r.value == BuildRequest(op, arg, token.s)
  {
    match CheckArgs(op, arg, f)
    case Some(e) => Err(Refused(e))
    case None =>
      if !ValidToken(token) then Err(Refused(InvalidToken))
      else Ok(BuildRequest(op, arg, token.s))
  }

  /**
   * What becomes of a sent request: the client's exceptions pass through
   * unchanged (the `catch` clauses name an exception class that does not
   * exist), a decoded response goes through `handleResponse`.
   */
  function Conclude(reply: MaibSdk.Reply): (r: Result<Value, ApiError>)
    ensures r.Ok? <==>
      reply.Received? && reply.status < 400 && reply.decoded.Some?
      && Truthy(Field(reply.decoded.value, "ok")) && Isset(reply.decoded.value, "result")
    ensures reply.Received? && reply.status >= 400 ==> r.Err? && r.error.Client? && r.error.error.HttpFailed?
  {
    match MaibSdk.ReceiveReply(reply)
    case Err(e) => Err(Client(e))
    case Ok(response) => HandleResponse(response)
  }

  /** One operation end to end, given how the server answers each request. */
  function Call(op: Operation, arg: Value, token: Value, f: Filters, respond: MaibSdk.HttpRequest -> MaibSdk.Reply): (r: Result<Value, ApiError>)
  {
    match Prepare(op, arg, token, f)
    case Err(e) => Err(e)
    case Ok(req) => Conclude(respond(req))
  }

  /**
   * An operation succeeds exactly when its arguments and token pass and the
   * server answers below 400 with a decodable, ok response carrying a result.
   */
  lemma CallSucceedsIff(op: Operation, arg: Value, token: Value, f: Filters, respond: MaibSdk.HttpRequest -> MaibSdk.Reply)
    ensures Call(op, arg, token, f, respond).Ok? <==>
      Prepare(op, arg, token, f).Ok?
      && var reply := respond(Prepare(op, arg, token, f).value);
      reply.Received? && reply.status < 400 && reply.decoded.Some?
      && Truthy(Field(reply.decoded.value, "ok")) && Isset(reply.decoded.value, "result")
  {
  }

  /** Parameters passing validation never hold a string where a number is required. */
  lemma NumericFieldsAreNumbers(data: Value, required: seq<string>, f: Filters)
    requires ValidatePayParams(data, required, f).None?
    ensures Isset(data, "confirmAmount") ==> Field(data, "confirmAmount").VNum?
    ensures Isset(data, "amount") ==> Field(data, "amount").VNum?
    ensures Isset(data, "refundAmount") ==> Field(data, "refundAmount").VNum?
    ensures Isset(data, "delivery") ==> Field(data, "delivery").VNum?
    ensures forall j :: 0 <= j < |ItemsOf(data)| ==>
      (Isset(ItemsOf(data)[j].val, "price") ==> Field(ItemsOf(data)[j].val, "price").VNum?)
  {
    assert AllRulesHold(data, required, f);
    assert FormatFields[3] == "confirmAmount" && FieldPasses(data, FormatFields[3], f);
    assert FormatFields[4] == "amount" && FieldPasses(data, FormatFields[4], f);
    assert FormatFields[5] == "refundAmount" && FieldPasses(data, FormatFields[5], f);
    assert FormatFields[14] == "delivery" && FieldPasses(data, FormatFields[14], f);
    forall j | 0 <= j < |ItemsOf(data)|
      ensures Isset(ItemsOf(data)[j].val, "price") ==> Field(ItemsOf(data)[j].val, "price").VNum?
    {
      assert ItemFieldPasses(ItemsOf(data)[j].val, ItemFields[2]);
    }
  }
}
