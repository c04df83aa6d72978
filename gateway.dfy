/**
 * The gateway object itself: `MaibPaymentGateway` with its transient store,
 * the connection to the maib server, the shopper's cart and the orders it
 * is handed. Each handler updates those objects step by step and is proved
 * to end in the state the lifecycle functions of `GatewaySpec` describe,
 * having sent exactly the requests they list.
 */
module MaibGateway {
  import opened PhpValue
  import opened Orders
  import opened Transients
  import MaibApi
  import MaibAuth
  import Signature
  import PayParams
  import opened GatewaySpec

  /** The connection to the maib server: every request sent is logged, and the answer depends on the request only. */
  class Http {
    const respond: MaibSdk.HttpRequest -> MaibSdk.Reply
    var log: seq<MaibSdk.HttpRequest>

    constructor (respond: MaibSdk.HttpRequest -> MaibSdk.Reply)
      ensures this.respond == respond && log == []
    {
      this.respond := respond;
      log := [];
    }

    method Send(req: MaibSdk.HttpRequest) returns (reply: MaibSdk.Reply)
      modifies this
      ensures log == old(log) + [req]
      ensures reply == respond(req)
    {
      log := log + [req];
      reply := respond(req);
    }
  }

  /** The orders the host holds, as values. */
  function StatesOf(orders: map<int, Order>): (r: map<int, OrderState>)
    reads set k | k in orders :: orders[k]
    ensures r.Keys == orders.Keys
    ensures forall k :: k in orders ==> r[k] == orders[k].State()
  {
    map k | k in orders :: orders[k].State()
  }

  /** Each order id names its own order object. */
  predicate DistinctOrders(orders: map<int, Order>)
  {
    forall j, k :: j in orders && k in orders && j != k ==> orders[j] != orders[k]
  }

  /** After a change to one order object, the orders differ from before at that id only. */
  lemma UpdatedOne(orders: map<int, Order>, before: map<int, OrderState>, f: int)
    requires f in orders && before.Keys == orders.Keys
    requires forall k :: k in orders && k != f ==> before[k] == orders[k].State()
    ensures StatesOf(orders) == before[f := orders[f].State()]
  {
  }

  class MaibPaymentGateway {
    const settings: Settings
    const env: Env
    const store: TransientStore
    const http: Http
    const cart: Cart

    constructor (settings: Settings, env: Env, store: TransientStore, cart: Cart)
      ensures this.settings == settings && this.env == env && this.store == store && this.cart == cart
      ensures fresh(http) && http.log == [] && Valid()
    {
      this.settings := settings;
      this.env := env;
      this.store := store;
      this.cart := cart;
      http := new Http(env.respond);
    }

    /** The connection answers as the environment says the server does. */
    ghost predicate Valid()
    {
      http.respond == env.respond
    }

    /** `generateAccessToken`. */
    method GenerateAccessToken(idOrRefresh: Value, secret: Value) returns (response: Value)
      requires Valid()
      modifies http
      ensures response == GatewaySpec.GenerateAccessToken(idOrRefresh, secret, env)
      ensures http.log == old(http.log) + TokenSentBy(idOrRefresh, secret)
    {
      var body := MaibAuth.TokenRequestBody(idOrRefresh, secret);
      if body.Err? {
        return VNull;
      }
      var reply := http.Send(MaibAuth.TokenRequest(body.value));
      var outcome := MaibApi.Conclude(reply);
      response := if outcome.Ok? then outcome.value else VNull;
    }

    /** `get_access_token`. */
    method GetAccessToken(now: int) returns (token: Value)
      requires Valid()
      modifies store, http
      ensures var t := AccessToken(settings, env, old(store.entries), now);
        token == t.token && store.entries == t.store && http.log == old(http.log) + t.sent
    {
      var access := store.Get(AccessTokenKey, now);
      var refresh := store.Get(RefreshTokenKey, now);
      if access != VBool(false) {
        return access;
      }
      var response;
      if refresh == VBool(false) {
        response := GenerateAccessToken(VStr(settings.projectId), VStr(settings.projectSecret));
      } else {
        response := GenerateAccessToken(refresh, VNull);
      }
      if Truthy(response) && Isset(response, "accessToken") && Isset(response, "expiresIn") {
        store.Set(AccessTokenKey, Field(response, "accessToken"), Field(response, "expiresIn"), now);
        store.Set(RefreshTokenKey, Field(response, "refreshToken"), Field(response, "refreshExpiresIn"), now);
        token := Field(response, "accessToken");
      } else {
        token := VBool(false);
      }
    }

    /** `clear_transients`. */
    method ClearTransients()
      modifies store
      ensures store.entries == GatewaySpec.ClearTransients(old(store.entries))
    {
      store.Delete(AccessTokenKey);
      store.Delete(RefreshTokenKey);
    }

    /** `MaibApiRequest::create()->$op($params, $this->get_access_token())`; an exception leaves `null`. */
    method Call(op: MaibApi.Operation, arg: Value, now: int) returns (response: Value)
      requires Valid()
      modifies store, http
      ensures var c := ApiCall(settings, env, old(store.entries), now, op, arg);
        response == c.response && store.entries == c.store && http.log == old(http.log) + c.sent
    {
      ghost var m, log := store.entries, http.log;
      ghost var t := AccessToken(settings, env, m, now);
      var token := GetAccessToken(now);
      response := Invoke(op, arg, token);
      ApiCallComposed(settings, env, m, now, op, arg, t, response, log);
    }

    /** The SDK call itself, once the token is at hand. */
    method Invoke(op: MaibApi.Operation, arg: Value, token: Value) returns (response: Value)
      requires Valid()
      modifies http
      ensures response == OperationResponse(op, arg, token, env)
      ensures http.log == old(http.log) + SentBy(op, arg, token, env.filters)
    {
      var prepared := MaibApi.Prepare(op, arg, token, env.filters);
      if prepared.Err? {
        return VNull;
      }
      var reply := http.Send(prepared.value);
      var outcome := MaibApi.Conclude(reply);
      response := if outcome.Ok? then outcome.value else VNull;
    }

    /** `process_payment`. */
    method ProcessPayment(c: PayParams.Checkout, order: Order, now: int) returns (result: PaymentResult)
      requires Valid()
      modifies order, store, http
      ensures var r := ProcessPaymentSpec(settings, env, c, old(order.State()), old(store.entries), now);
        result == r.result && order.State() == r.order && store.entries == r.store && http.log == old(http.log) + r.sent
    {
      if !Configured(settings) || c.currency !in MaibApi.Currencies {
        return NoRedirect;
      }
      var response := VNull;
      if settings.transactionType == Direct {
        response := Call(MaibApi.Pay, PayParams.Params(c), now);
      } else if settings.transactionType == TwoStep {
        response := Call(MaibApi.Hold, PayParams.Params(c), now);
      }
      if !Truthy(response) || !Isset(response, "payId") {
        return NoRedirect;
      }
      var payId := Field(response, "payId");
      order.SetTransaction(StrCast(payId), settings.transactionType);
      order.AddNote(PaymentIdNote(payId));
      result := Redirect(Field(response, "payUrl"));
    }

    /** `process_refund`. */
    method ProcessRefund(order: Order, amount: Option<PayParams.Decimal>, now: int) returns (result: ActionResult)
      requires Valid()
      modifies order, store, http
      ensures var r := RefundSpec(settings, env, old(order.State()), amount, old(store.entries), now);
        result == r.result && order.State() == r.order && store.entries == r.store && http.log == old(http.log) + r.sent
    {
      if !Truthy(VStr(order.transactionId)) {
        return NoPaymentId;
      }
      var response := Call(MaibApi.Refund, RefundParams(order.State(), amount), now);
      if !Isset(response, "status") {
        return ActionFailed;
      }
      if Field(response, "status") == VStr("REVERSED") {
        return AlreadyRefunded;
      }
      order.AddNote(Refunded(response));
      result := Done;
    }

    /** `complete_transaction`. */
    method CompleteTransaction(order: Order, now: int) returns (result: ActionResult)
      requires Valid()
      modifies order, store, http
      ensures var r := CompleteTransactionSpec(settings, env, old(order.State()), old(store.entries), now);
        result == r.result && order.State() == r.order && store.entries == r.store && http.log == old(http.log) + r.sent
    {
      if !Truthy(VStr(order.transactionId)) {
        return NoPaymentId;
      }
      var response := Call(MaibApi.Complete, VArray([Entry("payId", VStr(order.transactionId))]), now);
      if !Isset(response, "status") || Field(response, "status") != VStr("OK") {
        return ActionFailed;
      }
      order.UpdateStatus(CompletedTarget(settings), None);
      order.AddNote(TwoStepCompleted(response));
      result := Done;
    }

    /**
     * `action_complete_transaction`, the handler of the order action: both
     * plugin files read the order id and complete the two-step payment.
     */
    method ActionCompleteTransaction(order: Order, now: int) returns (result: ActionResult)
      requires Valid()
      modifies order, store, http
      ensures var r := CompleteTransactionSpec(settings, env, old(order.State()), old(store.entries), now);
        result == r.result && order.State() == r.order && store.entries == r.store && http.log == old(http.log) + r.sent
    {
      result := CompleteTransaction(order, now);
    }

    /** `payment_complete`. */
    method PaymentComplete(order: Order, payId: Value) returns (ok: bool)
      modifies order, cart
      ensures var t := CompleteSpec(settings, old(order.State()), payId);
        ok == t.ok && order.State() == t.order
        && cart.lines == (if t.cartEmptied then [] else old(cart.lines))
    {
      ok := order.PaymentComplete();
      if ok {
        if settings.completedStatus != DefaultStatus {
          cart.Empty();
          order.UpdateStatus(settings.completedStatus, Some(PaymentSuccessful(payId)));
        } else {
          order.AddNote(PaymentSuccessful(payId));
        }
      }
    }

    /** `payment_hold`. */
    method PaymentHold(order: Order, payId: Value) returns (ok: bool)
      modifies order
      ensures var t := HoldSpec(settings, old(order.State()), payId);
        ok == t.ok && order.State() == t.order
    {
      ok := order.PaymentComplete();
      if ok {
        order.UpdateStatus(HoldTarget(settings), Some(PaymentOnHold(payId)));
      }
    }

    /** `payment_failed`. */
    method PaymentFailed(order: Order, payId: Value) returns (ok: bool)
      modifies order
      ensures var t := FailSpec(settings, old(order.State()), payId);
        ok == t.ok && order.State() == t.order
    {
      if order.status == "failed" {
        order.AddNote(Orders.PaymentFailed(payId));
      } else {
        order.UpdateStatus(FailTarget(settings), Some(Orders.PaymentFailed(payId)));
      }
      ok := true;
    }

    /** The transition a verified callback runs on its order. */
    method Step(order: Order, result: Value)
      modifies order, cart
      ensures var t := GatewaySpec.Step(settings, old(order.State()), result);
        order.State() == t.order && cart.lines == (if t.cartEmptied then [] else old(cart.lines))
    {
      if !GuardAllows(settings.variant, order.status) {
        return;
      }
      var payId := ResultField(result, "payId");
      var ok;
      if ResultField(result, "status") == VStr("OK") {
        if settings.transactionType == Direct {
          ok := PaymentComplete(order, payId);
        } else if settings.transactionType == TwoStep {
          ok := PaymentHold(order, payId);
        }
      } else {
        ok := PaymentFailed(order, payId);
      }
    }

    /** The signature `route_callback` computes for a result array. */
    method Sign(result: seq<Entry>) returns (sign: string)
      ensures sign == ExpectedSignature(settings, env, result)
    {
      var sorted := Signature.SortByKeyRecursive(VArray(result));
      var signString := Signature.ImplodeRecursive(Signature.Push(sorted.entries, VStr(settings.signatureKey)));
      sign := env.digest(signString);
    }

    /** `route_callback`, given the request and the orders `wc_get_order` can find. */
    method RouteCallback(req: CallbackRequest, orders: map<int, Order>) returns (reply: CallbackReply)
      requires DistinctOrders(orders)
      modifies (set k | k in orders :: orders[k]), cart
      ensures var r := CallbackSpec(settings, env, req, old(StatesOf(orders)));
        reply == r.reply && StatesOf(orders) == r.orders
        && cart.lines == (if r.cartEmptied then [] else old(cart.lines))
    {
      if !MethodAccepted(settings.variant, req.httpMethod) {
        return RedirectedToCart;
      }
      if !Isset(req.data, "signature") || !Isset(req.data, "result") {
        return Ignored;
      }
      var result := Field(req.data, "result");
      if !result.VArray? {
        return Crashed("");
      }
      var sign := Sign(result.entries);
      if Field(req.data, "signature") != VStr(sign) {
        reply := RejectForged(req, orders);
      } else {
        reply := AcceptVerified(req, orders);
      }
    }

    /** The signature mismatch branch: the named order is told, a missing one is a fatal error. */
    method RejectForged(req: CallbackRequest, orders: map<int, Order>) returns (reply: CallbackReply)
      requires DistinctOrders(orders)
      requires MethodAccepted(settings.variant, req.httpMethod)
      requires Isset(req.data, "signature") && Isset(req.data, "result") && Field(req.data, "result").VArray?
      requires !SignatureValid(settings, env, req.data)
      modifies set k | k in orders :: orders[k]
      ensures var r := CallbackSpec(settings, env, req, old(StatesOf(orders)));
        reply == r.reply && StatesOf(orders) == r.orders && !r.cartEmptied
    {
      ghost var before := StatesOf(orders);
      var key := CallbackOrderKey(Field(req.data, "result"));
      if key.None? || key.value == 0 || key.value !in orders {
        return Crashed("ERROR");
      }
      var order := orders[key.value];
      order.AddNote(SignatureInvalid);
      UpdatedOne(orders, before, key.value);
      reply := Answered("ERROR");
    }

    /** A verified callback: the guarded transition and the details note on the named order. */
    method AcceptVerified(req: CallbackRequest, orders: map<int, Order>) returns (reply: CallbackReply)
      requires DistinctOrders(orders)
      requires Verified(settings, env, req)
      modifies (set k | k in orders :: orders[k]), cart
      ensures var r := CallbackSpec(settings, env, req, old(StatesOf(orders)));
        reply == r.reply && StatesOf(orders) == r.orders
        && cart.lines == (if r.cartEmptied then [] else old(cart.lines))
    {
      ghost var before := StatesOf(orders);
      var result := Field(req.data, "result");
      var key := CallbackOrderKey(result);
      if key.None? || key.value == 0 || !Truthy(ResultField(result, "status")) || key.value !in orders {
        return Answered("OK");
      }
      var order := orders[key.value];
      Step(order, result);
      order.AddNote(TransactionDetails(result));
      UpdatedOne(orders, before, key.value);
      reply := Answered("OK");
    }
  }
}
