/**
 * The WooCommerce order as the gateway sees it: a status, the host's
 * "payment completed" marker, the notes log, the stored maib payment id and
 * the transaction-type meta. The host calls the gateway relies on
 * (`payment_complete`, `update_status`, `add_order_note`, post meta) are
 * modelled by what they do to that state.
 */
module Orders {
  import opened PhpValue

  /** The notes the gateway and the host write to an order. */
  datatype Note =
    | PaymentIdNote(payId: Value)
    | PaymentSuccessful(payId: Value)
    | PaymentOnHold(payId: Value)
    | PaymentFailed(payId: Value)
    | SignatureInvalid
    | TransactionDetails(result: Value)
    | Refunded(details: Value)
    | TwoStepCompleted(details: Value)
    | StatusChanged(from: string, to: string, note: Option<Note>)

  datatype OrderState = OrderState(
    status: string,
    paid: bool,
    notes: seq<Note>,
    transactionId: string,
    transactionType: string,
    paymentMethod: string,
    needsProcessing: bool)

  /** The statuses from which the host's `payment_complete` moves an order on. */
  const PayableStatuses: set<string> := {"on-hold", "pending", "failed", "cancelled"}

  /** `$order->add_order_note($note)`. */
  function WithNote(o: OrderState, n: Note): (r: OrderState)
    ensures r.notes == o.notes + [n]
    ensures r.(notes := o.notes) == o
  {
    o.(notes := o.notes + [n])
  }

  /**
   * `$order->update_status($to, $note)`: a real change of status is logged
   * as one note carrying the optional text; setting the status an order
   * already has changes nothing, and its text is dropped.
   */
  function WithStatus(o: OrderState, to: string, note: Option<Note>): (r: OrderState)
    ensures r.status == to
    ensures o.status == to ==> r == o
    ensures o.status != to ==> r.notes == o.notes + [StatusChanged(o.status, to, note)]
    ensures r.(status := o.status, notes := o.notes) == o
  {
    if o.status == to then o
    else o.(status := to, notes := o.notes + [StatusChanged(o.status, to, note)])
  }

  /**
   * The host's `$order->payment_complete()`, used as an exactly-once
   * marker: the first call sets the marker (and moves a payable order to
   * processing, or completed when it needs no processing) and returns true;
   * every later call returns false and changes nothing.
   */
  function HostPaymentComplete(o: OrderState): (r: (bool, OrderState))
    ensures r.0 <==> !o.paid
    ensures !r.0 ==> r.1 == o
    ensures r.0 ==> r.1.paid
    ensures r.0 && o.status in PayableStatuses ==>
      r.1 == WithStatus(o, if o.needsProcessing then "processing" else "completed", None).(paid := true)
    ensures r.0 && o.status !in PayableStatuses ==> r.1 == o.(paid := true)
  {
    if o.paid then (false, o)
    else if o.status in PayableStatuses then
      (true, WithStatus(o, if o.needsProcessing then "processing" else "completed", None).(paid := true))
    else (true, o.(paid := true))
  }

  /** The marker makes a second `payment_complete` a no-op that reports false. */
  lemma HostPaymentCompleteOnce(o: OrderState)
    ensures var (first, o1) := HostPaymentComplete(o);
      HostPaymentComplete(o1) == (false, o1)
  {
  }

  /** Setting a status twice is setting it once. */
  lemma UpdateStatusIdempotent(o: OrderState, to: string, n1: Option<Note>, n2: Option<Note>)
    ensures WithStatus(WithStatus(o, to, n1), to, n2) == WithStatus(o, to, n1)
  {
  }

  /** An order whose notes are those of `o` followed by `extra`, all else unchanged. */
  predicate NotesAppended(o: OrderState, o2: OrderState, extra: seq<Note>)
  {
    o2 == o.(notes := o.notes + extra)
  }

  /** The WooCommerce order object. */
  class Order {
    const id: int
    const paymentMethod: string
    const needsProcessing: bool
    var status: string
    var paid: bool
    var notes: seq<Note>
    var transactionId: string
    var transactionType: string

    constructor (id: int, paymentMethod: string, needsProcessing: bool, status: string)
      ensures State() == OrderState(status, false, [], "", "", paymentMethod, needsProcessing)
      ensures this.id == id
    {
      this.id := id;
      this.paymentMethod := paymentMethod;
      this.needsProcessing := needsProcessing;
      this.status := status;
      paid := false;
      notes := [];
      transactionId := "";
      transactionType := "";
    }

    function State(): OrderState
      reads this
    {
      OrderState(status, paid, notes, transactionId, transactionType, paymentMethod, needsProcessing)
    }

    method AddNote(n: Note)
      modifies this
      ensures State() == WithNote(old(State()), n)
    {
      notes := notes + [n];
    }

    method UpdateStatus(to: string, note: Option<Note>)
      modifies this
      ensures State() == WithStatus(old(State()), to, note)
    {
      if status != to {
        notes := notes + [StatusChanged(status, to, note)];
        status := to;
      }
    }

    method PaymentComplete() returns (ok: bool)
      modifies this
      ensures (ok, State()) == HostPaymentComplete(old(State()))
    {
      if paid {
        return false;
      }
      if status in PayableStatuses {
        UpdateStatus(if needsProcessing then "processing" else "completed", None);
      }
      paid := true;
      ok := true;
    }

    /** The `_transaction_id` and transaction-type metas, stored as text. */
    method SetTransaction(payId: string, transactionType: string)
      modifies this
      ensures State() == old(State()).(transactionId := payId, transactionType := transactionType)
    {
      this.transactionId := payId;
      this.transactionType := transactionType;
    }
  }

  /** The shopper's cart, which the completion path empties. */
  class Cart {
    var lines: seq<string>

    constructor (lines: seq<string>)
      ensures this.lines == lines
    {
      this.lines := lines;
    }

    method Empty()
      modifies this
      ensures lines == []
    {
      lines := [];
    }
  }
}
