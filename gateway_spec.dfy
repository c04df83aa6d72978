/**
 * The payment lifecycle of the maib gateway as functions of the order, the
 * token cache and the settings: what each handler of `MaibPaymentGateway`
 * does to the order, the cart and the transients, and which requests it
 * sends. Both plugin files are covered; where they differ the settings
 * name the variant.
 */
module GatewaySpec {
  import opened PhpValue
  import opened Orders
  import opened Transients
  import MaibSdk
  import MaibApi
  import MaibAuth
  import Signature
  import PayParams

  /** `maib-payment-gateway-for-woocommerce.php` (Current) or `wc-maib.php` (Legacy). */
  datatype Variant = Current | Legacy

  /** The gateway options, as `get_option` returns them. */
  datatype Settings = Settings(
    variant: Variant,
    projectId: string,
    projectSecret: string,
    signatureKey: string,
    transactionType: string,
    completedStatus: string,
    holdStatus: string,
    failedStatus: string)

  /**
   * What the gateway depends on outside PHP: how the maib server answers,
   * the `filter_var` checks, and `base64_encode(hash('sha256', $s, true))`.
   */
  datatype Env = Env(respond: MaibSdk.HttpRequest -> MaibSdk.Reply, filters: MaibApi.Filters, digest: string -> string)

  const Direct: string := "direct"
  const TwoStep: string := "twostep"
  const DefaultStatus: string := "default"
  const AccessTokenKey: string := "maib_access_token"
  const RefreshTokenKey: string := "maib_refresh_token"
  const MethodId: string := "maib"
  const CompleteAction: string := "maib_complete_transaction"

  /** The request an SDK operation sends, if its checks let it send one. */
  function SentBy(op: MaibApi.Operation, arg: Value, token: Value, f: MaibApi.Filters): (sent: seq<MaibSdk.HttpRequest>)
    ensures |sent| <= 1
    ensures sent != [] <==> MaibApi.Prepare(op, arg, token, f).Ok?
  {
    match MaibApi.Prepare(op, arg, token, f)
    case Ok(req) => [req]
    case Err(_) => []
  }

  /** The token request `generateToken` sends, if its arguments let it send one. */
  function TokenSentBy(idOrRefresh: Value, secret: Value): (sent: seq<MaibSdk.HttpRequest>)
    ensures |sent| <= 1
    ensures sent != [] <==> MaibAuth.TokenRequestBody(idOrRefresh, secret).Ok?
  {
    match MaibAuth.TokenRequestBody(idOrRefresh, secret)
    case Ok(body) => [MaibAuth.TokenRequest(body)]
    case Err(_) => []
  }

  // ---------------------------------------------------------------------
  // Access token cache: get_access_token, generateAccessToken, clear_transients
  // ---------------------------------------------------------------------

  datatype TokenOutcome = TokenOutcome(token: Value, store: map<string, Transient>, sent: seq<MaibSdk.HttpRequest>)

  /**
   * `generateAccessToken`: the SDK's token call; any exception is logged
   * and becomes `null`.
   */
  function GenerateAccessToken(idOrRefresh: Value, secret: Value, env: Env): Value
  {
    match MaibAuth.GenerateToken(idOrRefresh, secret, env.respond)
    case Ok(v) => v
    case Err(_) => VNull
  }

  /**
   * `get_access_token`: both transients are read; a cached access token is
   * returned as is; otherwise a token is generated from the refresh token
   * when one is cached, else from the project id and secret, and on success
   * both tokens are cached with the lifetimes the server gave.
   */
  function AccessToken(s: Settings, env: Env, m: map<string, Transient>, now: int): TokenOutcome
  {
    var (access, m1) := GetTransient(m, AccessTokenKey, now);
    var (refresh, m2) := GetTransient(m1, RefreshTokenKey, now);
    if access != VBool(false) then TokenOutcome(access, m2, [])
    else
      var a := if refresh == VBool(false) then VStr(s.projectId) else refresh;
      var b := if refresh == VBool(false) then VStr(s.projectSecret) else VNull;
      var response := GenerateAccessToken(a, b, env);
      if Truthy(response) && Isset(response, "accessToken") && Isset(response, "expiresIn") then
        var m3 := SetTransient(m2, AccessTokenKey, Field(response, "accessToken"), Field(response, "expiresIn"), now);
        var m4 := SetTransient(m3, RefreshTokenKey, Field(response, "refreshToken"), Field(response, "refreshExpiresIn"), now);
        TokenOutcome(Field(response, "accessToken"), m4, TokenSentBy(a, b))
      else TokenOutcome(VBool(false), m2, TokenSentBy(a, b))
  }

  /** A live cached access token is used without any request. */
  lemma CachedTokenUsed(s: Settings, env: Env, m: map<string, Transient>, now: int)
    requires AccessTokenKey in m && Live(m[AccessTokenKey], now) && m[AccessTokenKey].value != VBool(false)
    ensures AccessToken(s, env, m, now).token == m[AccessTokenKey].value
    ensures AccessToken(s, env, m, now).sent == []
  {
  }

  /**
   * Without a live access token but with a live refresh token, the only
   * request is a token request carrying that refresh token: the project
   * secret is not sent.
   */
  lemma RefreshTokenPreferred(s: Settings, env: Env, m: map<string, Transient>, now: int)
    requires !(AccessTokenKey in m && Live(m[AccessTokenKey], now) && m[AccessTokenKey].value != VBool(false))
    requires RefreshTokenKey in m && Live(m[RefreshTokenKey], now) && m[RefreshTokenKey].value != VBool(false)
    ensures var r := m[RefreshTokenKey].value;
      AccessToken(s, env, m, now).sent ==
        (if r.VStr? then [MaibAuth.TokenRequest(VArray([Entry("refreshToken", r)]))] else [])
  {
    var m1 := GetTransient(m, AccessTokenKey, now).1;
    assert RefreshTokenKey in m1 && m1[RefreshTokenKey] == m[RefreshTokenKey];
  }

  /** With neither token cached, exactly one token request is sent, carrying the project id and secret. */
  lemma CredentialsUsed(s: Settings, env: Env, m: map<string, Transient>, now: int)
    requires AccessTokenKey !in m && RefreshTokenKey !in m
    ensures AccessToken(s, env, m, now).sent ==
      [MaibAuth.TokenRequest(VArray([Entry("projectId", VStr(s.projectId)), Entry("projectSecret", VStr(s.projectSecret))]))]
  {
    assert GetTransient(m, AccessTokenKey, now) == (VBool(false), m);
    assert GetTransient(m, RefreshTokenKey, now) == (VBool(false), m);
    var body := MaibAuth.TokenRequestBody(VStr(s.projectId), VStr(s.projectSecret));
    assert body == Ok(VArray([Entry("projectId", VStr(s.projectId)), Entry("projectSecret", VStr(s.projectSecret))]));
    assert TokenSentBy(VStr(s.projectId), VStr(s.projectSecret)) == [MaibAuth.TokenRequest(body.value)];
  }

  /**
   * A token obtained by a call is what the cache then holds, and a later
   * call that still finds it live returns the same token without sending
   * anything.
   */
  lemma TokenReused(s: Settings, env: Env, env2: Env, m: map<string, Transient>, now: int, later: int)
    requires AccessToken(s, env, m, now).token != VBool(false)
    ensures var t := AccessToken(s, env, m, now);
      AccessTokenKey in t.store && t.store[AccessTokenKey].value == t.token
    ensures var t := AccessToken(s, env, m, now);
      Live(t.store[AccessTokenKey], later) ==>
        AccessToken(s, env2, t.store, later).token == t.token && AccessToken(s, env2, t.store, later).sent == []
  {
    var t := AccessToken(s, env, m, now);
    var (access, m1) := GetTransient(m, AccessTokenKey, now);
    if access != VBool(false) {
      assert AccessTokenKey in m1;
      assert AccessTokenKey in t.store && t.store[AccessTokenKey] == m1[AccessTokenKey];
    }
    if Live(t.store[AccessTokenKey], later) {
      CachedTokenUsed(s, env2, t.store, later);
    }
  }

  /**
   * A freshly generated token comes from the server's answer to the token
   * request sent: the `result` of that reply holds the access token
   * returned, and both tokens are cached from it with the lifetimes
   * `expiresIn` and `refreshExpiresIn`. A lifetime of 0 keeps the expiry of
   * an entry that was still live before the call, and is permanent otherwise.
   */
  lemma TokenLifetime(s: Settings, env: Env, m: map<string, Transient>, now: int)
    requires AccessToken(s, env, m, now).sent != []
    requires AccessToken(s, env, m, now).token != VBool(false)
    ensures var t := AccessToken(s, env, m, now);
      var reply := env.respond(t.sent[0]);
      reply.Received? && reply.decoded.Some?
      && var answer := Field(reply.decoded.value, "result");
      t.token == Field(answer, "accessToken")
      && AccessTokenKey in t.store && t.store[AccessTokenKey].value == Field(answer, "accessToken")
      && RefreshTokenKey in t.store && t.store[RefreshTokenKey].value == Field(answer, "refreshToken")
      && t.store[AccessTokenKey].expiresAt ==
           (if IntCast(Field(answer, "expiresIn")) == 0 && AccessTokenKey in m && Live(m[AccessTokenKey], now)
            then m[AccessTokenKey].expiresAt else Expiry(Field(answer, "expiresIn"), now))
      && t.store[RefreshTokenKey].expiresAt ==
           (if IntCast(Field(answer, "refreshExpiresIn")) == 0 && RefreshTokenKey in m && Live(m[RefreshTokenKey], now)
            then m[RefreshTokenKey].expiresAt else Expiry(Field(answer, "refreshExpiresIn"), now))
  {
    var t := AccessToken(s, env, m, now);
    var (access, m1) := GetTransient(m, AccessTokenKey, now);
    var (refresh, m2) := GetTransient(m1, RefreshTokenKey, now);
    assert access == VBool(false);
    var a := if refresh == VBool(false) then VStr(s.projectId) else refresh;
    var b := if refresh == VBool(false) then VStr(s.projectSecret) else VNull;
    var response := GenerateAccessToken(a, b, env);
    var body := MaibAuth.TokenRequestBody(a, b);
    assert t.sent == TokenSentBy(a, b) && body.Ok?;
    assert t.sent[0] == MaibAuth.TokenRequest(body.value);
    var reply := env.respond(t.sent[0]);
    assert MaibAuth.GenerateToken(a, b, env.respond).Ok?;
    assert reply.Received? && reply.decoded.Some?;
    assert response == Field(reply.decoded.value, "result");
    assert (AccessTokenKey in m2) == (AccessTokenKey in m && Live(m[AccessTokenKey], now));
    assert (RefreshTokenKey in m2) == (RefreshTokenKey in m && Live(m[RefreshTokenKey], now));
    assert AccessTokenKey in m2 ==> m2[AccessTokenKey] == m[AccessTokenKey];
    assert RefreshTokenKey in m2 ==> m2[RefreshTokenKey] == m[RefreshTokenKey];
  }

  /** `clear_transients`: both cached tokens are dropped. */
  function ClearTransients(m: map<string, Transient>): (r: map<string, Transient>)
    ensures AccessTokenKey !in r && RefreshTokenKey !in r
    ensures forall k :: k != AccessTokenKey && k != RefreshTokenKey ==> (k in r <==> k in m) && (k in r ==> r[k] == m[k])
  {
    m - {AccessTokenKey} - {RefreshTokenKey}
  }

  /** After the settings are saved, the next token is obtained with the (new) project credentials. */
  lemma ClearedCacheUsesCredentials(s: Settings, env: Env, m: map<string, Transient>, now: int)
    ensures AccessToken(s, env, ClearTransients(m), now).sent ==
      [MaibAuth.TokenRequest(VArray([Entry("projectId", VStr(s.projectId)), Entry("projectSecret", VStr(s.projectSecret))]))]
  {
    CredentialsUsed(s, env, ClearTransients(m), now);
  }

  /** The decoded response of one SDK operation, or null when the SDK threw. */
  function OperationResponse(op: MaibApi.Operation, arg: Value, token: Value, env: Env): Value
  {
    var o := MaibApi.Call(op, arg, token, env.filters, env.respond);
    if o.Ok? then o.value else VNull
  }

  /** One SDK operation with a freshly looked-up token; an exception leaves `$response` unset (null). */
  datatype ApiOutcome = ApiOutcome(response: Value, store: map<string, Transient>, sent: seq<MaibSdk.HttpRequest>)

  function ApiCall(s: Settings, env: Env, m: map<string, Transient>, now: int, op: MaibApi.Operation, arg: Value): (r: ApiOutcome)
    ensures r.sent == AccessToken(s, env, m, now).sent + SentBy(op, arg, AccessToken(s, env, m, now).token, env.filters)
  {
    var t := AccessToken(s, env, m, now);
    ApiOutcome(OperationResponse(op, arg, t.token, env), t.store, t.sent + SentBy(op, arg, t.token, env.filters))
  }

  /** The steps of one operation call: the token, then the request only if the SDK's checks let it through. */
  lemma ApiCallSteps(s: Settings, env: Env, m: map<string, Transient>, now: int, op: MaibApi.Operation, arg: Value)
    ensures var t := AccessToken(s, env, m, now);
      var p := MaibApi.Prepare(op, arg, t.token, env.filters);
      var c := ApiCall(s, env, m, now, op, arg);
      c.store == t.store
      && (p.Err? ==> c.response == VNull && c.sent == t.sent)
      && (p.Ok? ==>
            var o := MaibApi.Conclude(env.respond(p.value));
            c.response == (if o.Ok? then o.value else VNull) && c.sent == t.sent + [p.value])
  {
  }

  /** An operation call is the token lookup followed by the SDK call with that token. */
  lemma ApiCallComposed(s: Settings, env: Env, m: map<string, Transient>, now: int, op: MaibApi.Operation, arg: Value,
                        t: TokenOutcome, response: Value, log: seq<MaibSdk.HttpRequest>)
    requires t == AccessToken(s, env, m, now)
    requires response == OperationResponse(op, arg, t.token, env)
    ensures ApiCall(s, env, m, now, op, arg) == ApiOutcome(response, t.store, t.sent + SentBy(op, arg, t.token, env.filters))
    ensures log + t.sent + SentBy(op, arg, t.token, env.filters) == log + ApiCall(s, env, m, now, op, arg).sent
  {
    AppendAssociative(log, t.sent, SentBy(op, arg, t.token, env.filters));
  }

  lemma AppendAssociative<T>(a: seq<T>, b: seq<T>, c: seq<T>)
    ensures a + b + c == a + (b + c)
  {
  }

  // ---------------------------------------------------------------------
  // Order transitions: payment_complete, payment_hold, payment_failed
  // ---------------------------------------------------------------------

  /** What a transition returns, the order after it, and whether it emptied the cart. */
  datatype Transition = Transition(ok: bool, order: OrderState, cartEmptied: bool)

  function HoldTarget(s: Settings): string
  {
    if s.holdStatus != DefaultStatus then s.holdStatus else "on-hold"
  }

  function FailTarget(s: Settings): string
  {
    if s.failedStatus != DefaultStatus then s.failedStatus else "failed"
  }

  function CompletedTarget(s: Settings): string
  {
    if s.completedStatus != DefaultStatus then s.completedStatus else "processing"
  }

  /**
   * `payment_complete`: only when the host marks the payment complete for
   * the first time; then the cart is emptied and the configured status set
   * with the success note, or, with the default setting, only the note is
   * added.
   */
  function CompleteSpec(s: Settings, o: OrderState, payId: Value): (t: Transition)
    ensures t.ok <==> !o.paid
    ensures !t.ok ==> t.order == o && !t.cartEmptied
    ensures t.ok ==> t.order.paid
    ensures t.cartEmptied <==> t.ok && s.completedStatus != DefaultStatus
    ensures t.ok && s.completedStatus != DefaultStatus ==> t.order.status == s.completedStatus
  {
    var (done, o1) := HostPaymentComplete(o);
    if !done then Transition(false, o, false)
    else if s.completedStatus != DefaultStatus then
      Transition(true, WithStatus(o1, s.completedStatus, Some(PaymentSuccessful(payId))), true)
    else Transition(true, WithNote(o1, PaymentSuccessful(payId)), false)
  }

  /** `payment_hold`: on the first completion, the hold status (default `on-hold`) with the hold note. */
  function HoldSpec(s: Settings, o: OrderState, payId: Value): (t: Transition)
    ensures t.ok <==> !o.paid
    ensures !t.ok ==> t.order == o
    ensures t.ok ==> t.order.paid && t.order.status == HoldTarget(s)
    ensures !t.cartEmptied
  {
    var (done, o1) := HostPaymentComplete(o);
    if !done then Transition(false, o, false)
    else Transition(true, WithStatus(o1, HoldTarget(s), Some(PaymentOnHold(payId))), false)
  }

  /**
   * `payment_failed`: an order already failed only gets the failure note;
   * any other order is moved to the failed status (default `failed`).
   */
  function FailSpec(s: Settings, o: OrderState, payId: Value): (t: Transition)
    ensures t.ok && !t.cartEmptied && t.order.paid == o.paid
    ensures o.status == "failed" ==> t.order == WithNote(o, PaymentFailed(payId))
    ensures o.status != "failed" ==> t.order == WithStatus(o, FailTarget(s), Some(PaymentFailed(payId)))
  {
    if o.status == "failed" then Transition(true, WithNote(o, PaymentFailed(payId)), false)
    else Transition(true, WithStatus(o, FailTarget(s), Some(PaymentFailed(payId))), false)
  }

  /** A second `payment_complete` or `payment_hold` after either one is a no-op reporting false. */
  lemma CompletionExactlyOnce(s: Settings, o: OrderState, p1: Value, p2: Value)
    ensures CompleteSpec(s, CompleteSpec(s, o, p1).order, p2) == Transition(false, CompleteSpec(s, o, p1).order, false)
    ensures HoldSpec(s, CompleteSpec(s, o, p1).order, p2) == Transition(false, CompleteSpec(s, o, p1).order, false)
    ensures CompleteSpec(s, HoldSpec(s, o, p1).order, p2) == Transition(false, HoldSpec(s, o, p1).order, false)
    ensures HoldSpec(s, HoldSpec(s, o, p1).order, p2) == Transition(false, HoldSpec(s, o, p1).order, false)
  {
  }

  /** Repeating `payment_failed` never changes the status again. */
  lemma FailureStatusStable(s: Settings, o: OrderState, p1: Value, p2: Value)
    ensures FailSpec(s, FailSpec(s, o, p1).order, p2).order.status == FailSpec(s, o, p1).order.status
  {
  }

  // ---------------------------------------------------------------------
  // route_callback
  // ---------------------------------------------------------------------

  /** The request method and the JSON-decoded body (`VNull` when the body is not JSON). */
  datatype CallbackRequest = CallbackRequest(httpMethod: string, data: Value)

  /** What the caller sees: a redirect, a silent exit, a fatal error after some output, or a text. */
  datatype CallbackReply = RedirectedToCart | Ignored | Crashed(echoed: string) | Answered(text: string)

  datatype CallbackOutcome = CallbackOutcome(reply: CallbackReply, orders: map<int, OrderState>, cartEmptied: bool)

  /** The current plugin only accepts POST; the legacy one anything but GET. */
  predicate MethodAccepted(v: Variant, httpMethod: string)
  {
    if v == Current then httpMethod == "POST" else httpMethod != "GET"
  }

  /** The statuses in which a callback may still move an order. */
  predicate GuardAllows(v: Variant, status: string)
  {
    if v == Current then status == "pending" || status == "failed" else status == "pending"
  }

  /** The argument of `wc_get_order`: `(int)` of the result's `orderId`, or `false` (`None`). */
  function CallbackOrderKey(result: Value): Option<int>
  {
    if Isset(result, "orderId") then Some(IntCast(Field(result, "orderId"))) else None
  }

  /** `wc_get_order($order_id)`: no order for `false`, for 0, or for an unknown id. */
  function Lookup(orders: map<int, OrderState>, key: Option<int>): Option<int>
  {
    if key.Some? && key.value != 0 && key.value in orders then Some(key.value) else None
  }

  /** `$data_result[$k]` when set, `false` otherwise. */
  function ResultField(result: Value, k: string): Value
  {
    if Isset(result, k) then Field(result, k) else VBool(false)
  }

  /** The signature the gateway expects for a result. */
  function ExpectedSignature(s: Settings, env: Env, result: seq<Entry>): string
  {
    env.digest(Signature.SignedText(result, s.signatureKey))
  }

  /** The callback carries an array result and the signature computed from it. */
  predicate SignatureValid(s: Settings, env: Env, data: Value)
  {
    Field(data, "result").VArray?
    && Field(data, "signature") == VStr(ExpectedSignature(s, env, Field(data, "result").entries))
  }

  /**
   * The transition a verified callback asks for: with status "OK" the
   * configured transaction type decides between completion and hold (an
   * unknown type changes nothing); any other status is a failure.
   */
  function Dispatch(s: Settings, o: OrderState, status: Value, payId: Value): Transition
  {
    if status == VStr("OK") then
      if s.transactionType == Direct then CompleteSpec(s, o, payId)
      else if s.transactionType == TwoStep then HoldSpec(s, o, payId)
      else Transition(false, o, false)
    else FailSpec(s, o, payId)
  }

  /** The transition a verified callback runs on its order: none outside the guarded statuses. */
  function Step(s: Settings, o: OrderState, result: Value): Transition
  {
    if GuardAllows(s.variant, o.status) then Dispatch(s, o, ResultField(result, "status"), ResultField(result, "payId"))
    else Transition(false, o, false)
  }

  /**
   * `route_callback`. The method gate comes first; a body without
   * signature or result is ignored; a result that is not an array stops
   * the handler with a type error. A signature mismatch answers "ERROR" and
   * notes it on the named order (with no such order the note call fails).
   * A verified callback answers "OK"; it needs an order id, a status and an
   * existing order; the transition runs only in a guarded status, and the
   * transaction details are always noted.
   */
  function CallbackSpec(s: Settings, env: Env, req: CallbackRequest, orders: map<int, OrderState>): CallbackOutcome
  {
    if !MethodAccepted(s.variant, req.httpMethod) then CallbackOutcome(RedirectedToCart, orders, false)
    else if !Isset(req.data, "signature") || !Isset(req.data, "result") then CallbackOutcome(Ignored, orders, false)
    else
      var result := Field(req.data, "result");
      if !result.VArray? then CallbackOutcome(Crashed(""), orders, false)
      else
        var key := CallbackOrderKey(result);
        var found := Lookup(orders, key);
        if !SignatureValid(s, env, req.data) then
          if found.None? then CallbackOutcome(Crashed("ERROR"), orders, false)
          else CallbackOutcome(Answered("ERROR"), orders[found.value := WithNote(orders[found.value], SignatureInvalid)], false)
        else
          var status := ResultField(result, "status");
          if key.None? || key.value == 0 || !Truthy(status) || found.None? then CallbackOutcome(Answered("OK"), orders, false)
          else
            var o := orders[found.value];
            var t := Step(s, o, result);
            CallbackOutcome(Answered("OK"), orders[found.value := WithNote(t.order, TransactionDetails(result))], t.cartEmptied)
  }

  /**
   * Authenticity: a callback whose signature does not verify changes no
   * order's status or completion marker and leaves the cart alone; at most
   * the named order gets the "signature invalid" note.
   */
  lemma ForgedCallbackHarmless(s: Settings, env: Env, req: CallbackRequest, orders: map<int, OrderState>)
    requires !SignatureValid(s, env, req.data)
    ensures var r := CallbackSpec(s, env, req, orders);
      !r.cartEmptied && r.orders.Keys == orders.Keys
      && forall k :: k in orders ==> r.orders[k] == orders[k] || r.orders[k] == WithNote(orders[k], SignatureInvalid)
  {
  }

  /** Only a callback for an order in a guarded status, with status "OK", can mark it paid. */
  lemma PaidOnlyByOkCallback(s: Settings, env: Env, req: CallbackRequest, orders: map<int, OrderState>, k: int)
    requires k in orders && !orders[k].paid
    requires CallbackSpec(s, env, req, orders).orders[k].paid
    ensures SignatureValid(s, env, req.data)
    ensures GuardAllows(s.variant, orders[k].status)
    ensures ResultField(Field(req.data, "result"), "status") == VStr("OK")
    ensures s.transactionType == Direct || s.transactionType == TwoStep
  {
  }

  /**
   * Outside the guarded statuses a verified callback only adds the
   * transaction details note: status, marker and cart are untouched.
   */
  lemma GuardBlocksTransition(s: Settings, env: Env, req: CallbackRequest, orders: map<int, OrderState>, k: int)
    requires SignatureValid(s, env, req.data) && MethodAccepted(s.variant, req.httpMethod)
    requires Isset(req.data, "signature")
    requires Lookup(orders, CallbackOrderKey(Field(req.data, "result"))) == Some(k)
    requires Truthy(ResultField(Field(req.data, "result"), "status"))
    requires !GuardAllows(s.variant, orders[k].status)
    ensures CallbackSpec(s, env, req, orders) ==
      CallbackOutcome(Answered("OK"), orders[k := WithNote(orders[k], TransactionDetails(Field(req.data, "result")))], false)
  {
  }

  /** The callback passes the method gate, carries both fields, and its signature verifies. */
  predicate Verified(s: Settings, env: Env, req: CallbackRequest)
  {
    MethodAccepted(s.variant, req.httpMethod) && Isset(req.data, "signature") && Isset(req.data, "result")
    && SignatureValid(s, env, req.data)
  }

  /** The order a callback names, if it exists. */
  function Target(req: CallbackRequest, orders: map<int, OrderState>): Option<int>
  {
    Lookup(orders, CallbackOrderKey(Field(req.data, "result")))
  }

  /** `route_callback` case by case, in the order its checks run. */
  lemma CallbackCases(s: Settings, env: Env, req: CallbackRequest, orders: map<int, OrderState>)
    ensures var r := CallbackSpec(s, env, req, orders);
      !MethodAccepted(s.variant, req.httpMethod) ==> r == CallbackOutcome(RedirectedToCart, orders, false)
    ensures var r := CallbackSpec(s, env, req, orders);
      MethodAccepted(s.variant, req.httpMethod) && (!Isset(req.data, "signature") || !Isset(req.data, "result")) ==>
        r == CallbackOutcome(Ignored, orders, false)
    ensures var r := CallbackSpec(s, env, req, orders);
      MethodAccepted(s.variant, req.httpMethod) && Isset(req.data, "signature") && Isset(req.data, "result")
      && !Field(req.data, "result").VArray? ==>
        r == CallbackOutcome(Crashed(""), orders, false)
    ensures var r := CallbackSpec(s, env, req, orders);
      var f := Target(req, orders);
      MethodAccepted(s.variant, req.httpMethod) && Isset(req.data, "signature") && Isset(req.data, "result")
      && Field(req.data, "result").VArray? && !SignatureValid(s, env, req.data) ==>
        r == (if f.None? then CallbackOutcome(Crashed("ERROR"), orders, false)
              else CallbackOutcome(Answered("ERROR"), orders[f.value := WithNote(orders[f.value], SignatureInvalid)], false))
    ensures var r := CallbackSpec(s, env, req, orders);
      var result := Field(req.data, "result");
      var f := Target(req, orders);
      Verified(s, env, req) ==>
        r == (if f.None? || !Truthy(ResultField(result, "status")) then CallbackOutcome(Answered("OK"), orders, false)
              else
                var t := Step(s, orders[f.value], result);
                CallbackOutcome(Answered("OK"), orders[f.value := WithNote(t.order, TransactionDetails(result))], t.cartEmptied))
  {
  }

  /** Only the named order can change, no order appears or disappears, and without one the cart is kept. */
  lemma CallbackFrame(s: Settings, env: Env, req: CallbackRequest, orders: map<int, OrderState>)
    ensures var r := CallbackSpec(s, env, req, orders);
      r.orders.Keys == orders.Keys
      && (forall k :: k in orders && Target(req, orders) != Some(k) ==> r.orders[k] == orders[k])
      && (Target(req, orders).None? ==> !r.cartEmptied)
  {
  }

  /** The three ways a callback can affect the order it names. */
  lemma CallbackAtTarget(s: Settings, env: Env, req: CallbackRequest, orders: map<int, OrderState>, f: int)
    requires Target(req, orders) == Some(f)
    ensures var r := CallbackSpec(s, env, req, orders);
      !Verified(s, env, req) ==>
        !r.cartEmptied && (r.orders[f] == orders[f] || r.orders[f] == WithNote(orders[f], SignatureInvalid))
    ensures var r := CallbackSpec(s, env, req, orders);
      var result := Field(req.data, "result");
      Verified(s, env, req) && !Truthy(ResultField(result, "status")) ==> r.orders == orders && !r.cartEmptied
    ensures var r := CallbackSpec(s, env, req, orders);
      var result := Field(req.data, "result");
      var t := Step(s, orders[f], result);
      Verified(s, env, req) && Truthy(ResultField(result, "status")) ==>
        r == CallbackOutcome(Answered("OK"), orders[f := WithNote(t.order, TransactionDetails(result))], t.cartEmptied)
  {
  }

  /**
   * What a repeated callback may do to an order: nothing, one note (the
   * signature or the details note), or, in the current plugin, a repeated
   * failure note before the details.
   */
  predicate Replayed(v: Variant, o1: OrderState, o2: OrderState, result: Value)
  {
    o2 == o1 || o2 == WithNote(o1, SignatureInvalid) || o2 == WithNote(o1, TransactionDetails(result))
    || (v == Current && o2 == WithNote(WithNote(o1, PaymentFailed(ResultField(result, "payId"))), TransactionDetails(result)))
  }

  /** A verified callback's transition, repeated on the order it produced, changes at most the notes. */
  lemma StepReplay(s: Settings, o: OrderState, result: Value)
    ensures var o1 := WithNote(Step(s, o, result).order, TransactionDetails(result));
      var t2 := Step(s, o1, result);
      !t2.cartEmptied
      && (t2.order == o1 || (s.variant == Current && t2.order == WithNote(o1, PaymentFailed(ResultField(result, "payId")))))
  {
    var status := ResultField(result, "status");
    var t1 := Step(s, o, result);
    var o1 := WithNote(t1.order, TransactionDetails(result));
    if !GuardAllows(s.variant, o.status) {
      assert o1.status == o.status;
    } else if status == VStr("OK") {
      if s.transactionType == Direct || s.transactionType == TwoStep {
        assert o1.paid;
      }
    } else if o.status == "failed" {
      assert o1.status == "failed";
    } else {
      assert o1.status == FailTarget(s);
    }
  }

  /**
   * Replay protection: delivering the same callback a second time changes
   * no order's status or completion marker and does not empty the cart
   * again; each order gains at most the replay notes (in the legacy
   * plugin at most one note).
   */
  lemma CallbackReplayHarmless(s: Settings, env: Env, req: CallbackRequest, orders: map<int, OrderState>)
    ensures var r1 := CallbackSpec(s, env, req, orders);
      var r2 := CallbackSpec(s, env, req, r1.orders);
      !r2.cartEmptied && r2.orders.Keys == r1.orders.Keys
      && forall k :: k in r1.orders ==> Replayed(s.variant, r1.orders[k], r2.orders[k], Field(req.data, "result"))
  {
    var r1 := CallbackSpec(s, env, req, orders);
    CallbackFrame(s, env, req, orders);
    CallbackFrame(s, env, req, r1.orders);
    var f := Target(req, orders);
    assert Target(req, r1.orders) == f;
    if f.Some? {
      CallbackAtTarget(s, env, req, orders, f.value);
      CallbackAtTarget(s, env, req, r1.orders, f.value);
      var result := Field(req.data, "result");
      if Verified(s, env, req) && Truthy(ResultField(result, "status")) {
        StepReplay(s, orders[f.value], result);
      }
    }
  }

  // ---------------------------------------------------------------------
  // process_payment
  // ---------------------------------------------------------------------

  datatype PaymentResult = Redirect(url: Value) | NoRedirect

  datatype PaymentOutcome = PaymentOutcome(result: PaymentResult, order: OrderState, store: map<string, Transient>, sent: seq<MaibSdk.HttpRequest>)

  /** The settings the gateway cannot work without are all non-empty in PHP's sense. */
  predicate Configured(s: Settings)
  {
    Truthy(VStr(s.projectId)) && Truthy(VStr(s.projectSecret)) && Truthy(VStr(s.signatureKey))
  }

  /**
   * `process_payment`: missing credentials or an unsupported currency stop
   * before any request; the configured type chooses `pay` or `hold` (an
   * unknown type sends nothing); a response with a payment id stores it
   * with the transaction type, notes it, and redirects to the payment page.
   */
  function ProcessPaymentSpec(s: Settings, env: Env, c: PayParams.Checkout, o: OrderState, m: map<string, Transient>, now: int): PaymentOutcome
  {
    if !Configured(s) || c.currency !in MaibApi.Currencies then PaymentOutcome(NoRedirect, o, m, [])
    else
      var call :=
        if s.transactionType == Direct then ApiCall(s, env, m, now, MaibApi.Pay, PayParams.Params(c))
        else if s.transactionType == TwoStep then ApiCall(s, env, m, now, MaibApi.Hold, PayParams.Params(c))
        else ApiOutcome(VNull, m, []);
      var response := call.response;
      if !Truthy(response) || !Isset(response, "payId") then PaymentOutcome(NoRedirect, o, call.store, call.sent)
      else
        var payId := Field(response, "payId");
        var o1 := o.(transactionId := StrCast(payId), transactionType := s.transactionType);
        PaymentOutcome(Redirect(Field(response, "payUrl")), WithNote(o1, PaymentIdNote(payId)), call.store, call.sent)
  }

  /** Misconfiguration and unsupported currencies are refused before any request, the token included. */
  lemma PaymentGuardsFirst(s: Settings, env: Env, c: PayParams.Checkout, o: OrderState, m: map<string, Transient>, now: int)
    requires !Configured(s) || c.currency !in MaibApi.Currencies
    ensures ProcessPaymentSpec(s, env, c, o, m, now) == PaymentOutcome(NoRedirect, o, m, [])
  {
  }

  /**
   * A payment redirects exactly when the guards pass and the `pay` or
   * `hold` response carries a `payId`; it then redirects to the response's
   * `payUrl`, and the order has stored that `payId` (as text) and the
   * transaction type and noted the id. One that does not redirect leaves the
   * order as it was.
   */
  lemma PaymentRecordsPayId(s: Settings, env: Env, c: PayParams.Checkout, o: OrderState, m: map<string, Transient>, now: int)
    ensures var r := ProcessPaymentSpec(s, env, c, o, m, now);
      r.result.NoRedirect? ==> r.order == o
    ensures var r := ProcessPaymentSpec(s, env, c, o, m, now);
      var op := if s.transactionType == Direct then MaibApi.Pay else MaibApi.Hold;
      var response := ApiCall(s, env, m, now, op, PayParams.Params(c)).response;
      r.result.Redirect? <==>
        Configured(s) && c.currency in MaibApi.Currencies && (s.transactionType == Direct || s.transactionType == TwoStep)
        && Truthy(response) && Isset(response, "payId")
    ensures var r := ProcessPaymentSpec(s, env, c, o, m, now);
      var op := if s.transactionType == Direct then MaibApi.Pay else MaibApi.Hold;
      var response := ApiCall(s, env, m, now, op, PayParams.Params(c)).response;
      var payId := Field(response, "payId");
      r.result.Redirect? ==>
        r.result.url == Field(response, "payUrl")
        && r.order == WithNote(o.(transactionId := StrCast(payId), transactionType := s.transactionType), PaymentIdNote(payId))
  {
  }

  /** Every payment request sent is a `pay` or `hold` POST (following any token request), as the type says. */
  lemma PaymentRequestMatchesType(s: Settings, env: Env, c: PayParams.Checkout, o: OrderState, m: map<string, Transient>, now: int)
    requires Configured(s) && c.currency in MaibApi.Currencies
    requires s.transactionType == Direct || s.transactionType == TwoStep
    ensures var r := ProcessPaymentSpec(s, env, c, o, m, now);
      var t := AccessToken(s, env, m, now);
      var op := if s.transactionType == Direct then MaibApi.Pay else MaibApi.Hold;
      r.sent == t.sent + SentBy(op, PayParams.Params(c), t.token, env.filters)
  {
  }

  /** With the current plugin's string amounts, the payment request is never sent, whatever the token. */
  lemma AsWrittenPaymentNeverSent(c: PayParams.Checkout, op: MaibApi.Operation, token: Value, f: MaibApi.Filters)
    requires op == MaibApi.Pay || op == MaibApi.Hold
    ensures SentBy(op, PayParams.ParamsAsWritten(c), token, f) == []
  {
    PayParams.ParamsAsWrittenRejected(c, op, f);
  }

  // ---------------------------------------------------------------------
  // process_refund and complete_transaction
  // ---------------------------------------------------------------------

  datatype ActionResult = Done | NoPaymentId | ActionFailed | AlreadyRefunded

  datatype ActionOutcome = ActionOutcome(result: ActionResult, order: OrderState, store: map<string, Transient>, sent: seq<MaibSdk.HttpRequest>)

  /** The refund amount sent: the rounded amount, or 0 when none is given. */
  function RefundAmount(amount: Option<PayParams.Decimal>): (v: Value)
    ensures v.VNum? && v.scale == 2
    ensures amount.None? ==> v.mantissa == 0
  {
    match amount
    case Some(d) => PayParams.Money(d)
    case None => PayParams.Money(PayParams.Decimal(0, 0))
  }

  function RefundParams(o: OrderState, amount: Option<PayParams.Decimal>): Value
  {
    VArray([Entry("payId", VStr(o.transactionId)), Entry("refundAmount", RefundAmount(amount))])
  }

  /**
   * `process_refund`: refused without a payment id; a response without a
   * status is a failure, status REVERSED means the payment was already
   * refunded, anything else is noted as done.
   */
  function RefundSpec(s: Settings, env: Env, o: OrderState, amount: Option<PayParams.Decimal>, m: map<string, Transient>, now: int): ActionOutcome
  {
    if !Truthy(VStr(o.transactionId)) then ActionOutcome(NoPaymentId, o, m, [])
    else
      var call := ApiCall(s, env, m, now, MaibApi.Refund, RefundParams(o, amount));
      var response := call.response;
      if !Isset(response, "status") then ActionOutcome(ActionFailed, o, call.store, call.sent)
      else if Field(response, "status") == VStr("REVERSED") then ActionOutcome(AlreadyRefunded, o, call.store, call.sent)
      else ActionOutcome(Done, WithNote(o, Refunded(response)), call.store, call.sent)
  }

  /**
   * `complete_transaction`: refused without a payment id; only a response
   * with status "OK" moves the order to the completed status (default
   * `processing`) and notes the details.
   */
  function CompleteTransactionSpec(s: Settings, env: Env, o: OrderState, m: map<string, Transient>, now: int): ActionOutcome
  {
    if !Truthy(VStr(o.transactionId)) then ActionOutcome(NoPaymentId, o, m, [])
    else
      var call := ApiCall(s, env, m, now, MaibApi.Complete, VArray([Entry("payId", VStr(o.transactionId))]));
      var response := call.response;
      if !Isset(response, "status") || Field(response, "status") != VStr("OK") then ActionOutcome(ActionFailed, o, call.store, call.sent)
      else ActionOutcome(Done, WithNote(WithStatus(o, CompletedTarget(s), None), TwoStepCompleted(response)), call.store, call.sent)
  }

  /** Without a payment id neither action sends anything, not even a token request, nor changes anything. */
  lemma NoPaymentIdNoRequest(s: Settings, env: Env, o: OrderState, amount: Option<PayParams.Decimal>, m: map<string, Transient>, now: int)
    requires !Truthy(VStr(o.transactionId))
    ensures RefundSpec(s, env, o, amount, m, now) == ActionOutcome(NoPaymentId, o, m, [])
    ensures CompleteTransactionSpec(s, env, o, m, now) == ActionOutcome(NoPaymentId, o, m, [])
  {
  }

  /**
   * A refund changes the order only when it is done, and then by exactly
   * one note; status and marker never change.
   */
  lemma RefundOnlyNotes(s: Settings, env: Env, o: OrderState, amount: Option<PayParams.Decimal>, m: map<string, Transient>, now: int)
    ensures var r := RefundSpec(s, env, o, amount, m, now);
      (r.result == Done <==> exists details :: r.order == WithNote(o, Refunded(details)))
      && (r.result != Done ==> r.order == o)
  {
    var r := RefundSpec(s, env, o, amount, m, now);
    if Truthy(VStr(o.transactionId)) {
      var response := ApiCall(s, env, m, now, MaibApi.Refund, RefundParams(o, amount)).response;
      if Isset(response, "status") && Field(response, "status") != VStr("REVERSED") {
        assert r.result == Done && r.order == WithNote(o, Refunded(response));
        return;
      }
    }
    assert r.result != Done && r.order == o;
    NotedDiffers(o);
  }

  /** Adding a note always changes the order. */
  lemma NotedDiffers(o: OrderState)
    ensures forall n :: WithNote(o, n) != o
  {
    forall n
      ensures WithNote(o, n) != o
    {
      assert |WithNote(o, n).notes| == |o.notes| + 1;
    }
  }

  /** Completion succeeds only on an "OK" answer, and then ends in the completed status with the details noted last. */
  lemma CompleteTransactionOutcome(s: Settings, env: Env, o: OrderState, m: map<string, Transient>, now: int)
    ensures var r := CompleteTransactionSpec(s, env, o, m, now);
      r.result == Done ==>
        r.order.status == CompletedTarget(s) && r.order.paid == o.paid
        && r.order.notes[|r.order.notes| - 1].TwoStepCompleted?
    ensures var r := CompleteTransactionSpec(s, env, o, m, now);
      r.result != Done ==> r.order == o
    ensures var r := CompleteTransactionSpec(s, env, o, m, now);
      var call := ApiCall(s, env, m, now, MaibApi.Complete, VArray([Entry("payId", VStr(o.transactionId))]));
      r.result == Done <==> Truthy(VStr(o.transactionId)) && Field(call.response, "status") == VStr("OK")
  {
    var r := CompleteTransactionSpec(s, env, o, m, now);
    if Truthy(VStr(o.transactionId)) {
      var response := ApiCall(s, env, m, now, MaibApi.Complete, VArray([Entry("payId", VStr(o.transactionId))])).response;
      if Isset(response, "status") && Field(response, "status") == VStr("OK") {
        var o2 := WithStatus(o, CompletedTarget(s), None);
        assert r.order == WithNote(o2, TwoStepCompleted(response));
        assert o2.status == CompletedTarget(s) && o2.paid == o.paid;
      } else {
        assert r == ActionOutcome(ActionFailed, o, r.store, r.sent);
      }
    } else {
      assert r == ActionOutcome(NoPaymentId, o, m, []);
    }
  }

  // ---------------------------------------------------------------------
  // order_actions
  // ---------------------------------------------------------------------

  /** `$actions[$k] = $v` on an array: replaced in place when present, appended otherwise. */
  function SetEntry(es: seq<Entry>, k: string, v: Value): (r: seq<Entry>)
    ensures IndexOf(r, k) < |r| && r[IndexOf(r, k)].val == v
    ensures forall e :: e in es && e.key != k ==> e in r
    ensures forall e :: e in r ==> e in es || e == Entry(k, v)
  {
    var i := IndexOf(es, k);
    if i < |es| then
      var r := es[i := Entry(k, v)];
      assert IndexOf(r, k) == i by { IndexOfFirst(r, k, i); }
      assert forall e :: e in es && e.key != k ==> e in r by {
        forall e | e in es && e.key != k
          ensures e in r
        {
          var j :| 0 <= j < |es| && es[j] == e;
          assert r[j] == e;
        }
      }
      r
    else
      assert IndexOf(es + [Entry(k, v)], k) == |es| by { IndexOfFirst(es + [Entry(k, v)], k, |es|); }
      es + [Entry(k, v)]
  }

  lemma IndexOfFirst(es: seq<Entry>, k: string, i: nat)
    requires i < |es| && es[i].key == k
    requires forall j :: 0 <= j < i ==> es[j].key != k
    ensures IndexOf(es, k) == i
  {
    var n := IndexOf(es, k);
    assert n <= i;
  }

  /**
   * `order_actions` for the order being edited: a maib order paid in two
   * steps gets the "Complete Two-Step Payment" action.
   */
  function OrderActions(o: OrderState, actions: seq<Entry>): seq<Entry>
  {
    if o.paymentMethod != MethodId then actions
    else if o.transactionType == TwoStep then SetEntry(actions, CompleteAction, VStr("Complete Two-Step Payment"))
    else actions
  }

  /** The action is offered exactly for maib two-step orders, and no other action is lost. */
  lemma CompleteActionOffered(o: OrderState, actions: seq<Entry>)
    requires IndexOf(actions, CompleteAction) == |actions|
    ensures IndexOf(OrderActions(o, actions), CompleteAction) < |OrderActions(o, actions)|
      <==> o.paymentMethod == MethodId && o.transactionType == TwoStep
    ensures forall e :: e in actions ==> e in OrderActions(o, actions)
  {
  }

  /**
   * The current plugin's `order_actions` as written: it reads the global
   * `$maib_order`, which nothing assigns, so it always sees no order.
   */
  function OrderActionsAsWritten(maibOrder: Option<OrderState>, actions: seq<Entry>): seq<Entry>
  {
    match maibOrder
    case None => actions
    case Some(o) => OrderActions(o, actions)
  }

  /** With the global never assigned, the action is missing even for a maib two-step order. */
  lemma CompleteActionNeverOffered(o: OrderState, actions: seq<Entry>)
    requires o.paymentMethod == MethodId && o.transactionType == TwoStep
    requires IndexOf(actions, CompleteAction) == |actions|
    ensures IndexOf(OrderActionsAsWritten(None, actions), CompleteAction) == |actions|
    ensures IndexOf(OrderActions(o, actions), CompleteAction) < |OrderActions(o, actions)|
  {
    CompleteActionOffered(o, actions);
  }
}
