/** The order-confirmation sheet (components/OrderConfirmationModal.tsx): the 60-second cancel window
    driven by a once-a-second tick, the one-way `cancelled` flag, the `cancel_water_delivery` call and
    the "Call Supplier" guard. The tick is a method the caller runs once per interval firing; the
    backend answers are handler parameters. */
module OrderConfirmation {
  import opened Wrappers

  /** The initial `timeLeft`, in ticks. */
  const Window: int := 60

  const CancelFailedMessage := "Failed to cancel order"

  /** The condition under which the effect keeps an interval running. */
  predicate TimerRuns(visible: bool, cancelled: bool, timeLeft: int) {
    visible && !cancelled && timeLeft > 0
  }

  /** `timeLeft` after `k` firings of the interval while the sheet stays visible and not cancelled:
      the effect stops the interval once the value reaches zero. */
  function Countdown(t: int, k: nat): int {
    if k == 0 || t <= 0 then t else Countdown(t - 1, k - 1)
  }

  /** From a non-negative start, `k` ticks take `k` off, but never below zero. */
  lemma {:induction false} CountdownValue(t: int, k: nat)
    requires 0 <= t
    ensures Countdown(t, k) == if k <= t then t - k else 0
  {
    if k != 0 && t > 0 {
      CountdownValue(t - 1, k - 1);
    }
  }

  /** The cancel section: shown while not cancelled and time remains. */
  predicate ShowCancelSection(cancelled: bool, timeLeft: int) {
    !cancelled && timeLeft > 0
  }

  /** The heading of the sheet. */
  function Title(cancelled: bool): (r: string)
    ensures r == "Order Cancelled" <==> cancelled
    ensures r == "Order Confirmed" <==> !cancelled
  {
    if cancelled then "Order Cancelled" else "Order Confirmed"
  }

  /** On an uncancelled, visible sheet the cancel section is offered from opening until the 60th tick
      and never after it, counting down from 60, and the remaining time never goes below zero. */
  lemma CancelWindow(k: nat)
    ensures 0 <= Countdown(Window, k) <= Window
    ensures ShowCancelSection(false, Countdown(Window, k)) <==> k < Window
    ensures k <= Window ==> Countdown(Window, k) == Window - k
  {
    CountdownValue(Window, k);
  }

  /** The `tel:` URL `handleCall` opens, or `None` when there is no supplier contact (`null` or ""). */
  function CallTarget(contact: Option<string>): (r: Option<string>)
    ensures r.None? <==> !Truthy(contact)
    ensures r.Some? ==> |r.value| > 4 && r.value[..4] == "tel:" && r.value[4..] == contact.value
  {
    if Truthy(contact) then Some("tel:" + contact.value) else None
  }

  /** The answer of `cancel_water_delivery`: success, or what it threw, with the message when the
      thrown value is an `Error` and `None` otherwise. */
  datatype CancelOutcome = CancelOk | CancelFailed(message: Option<string>)

  /** The message `handleCancel` shows for a failure. */
  function CancelErrorText(message: Option<string>): (r: string)
    ensures message.None? ==> r == CancelFailedMessage
    ensures message.Some? ==> r == message.value
  {
    if message.Some? then message.value else CancelFailedMessage
  }

  /** What leaves the sheet: the cancel RPC and the dial request. */
  datatype Event = CancelRequested(orderId: string) | Dial(url: string)

  class OrderConfirmationModal {
    const orderId: string
    var timeLeft: int
    var loading: bool
    var error: Option<string>
    var cancelled: bool
    var showChat: bool
    var supplierContact: Option<string>
    var events: seq<Event>

    /** The countdown stays within the window. */
    predicate Valid()
      reads this`timeLeft
    {
      0 <= timeLeft <= Window
    }

    constructor (orderId: string)
      ensures this.orderId == orderId && timeLeft == Window && Valid()
      ensures !loading && error == None && !cancelled && !showChat && supplierContact == None && events == []
    {
      this.orderId := orderId;
      timeLeft, loading, error, cancelled := Window, false, None, false;
      showChat, supplierContact, events := false, None, [];
    }

    /** One firing of the interval: `setTimeLeft(prev => prev - 1)`, which only runs while the effect
        keeps the interval alive. */
    method Tick(visible: bool)
      requires Valid()
      modifies this`timeLeft
      ensures Valid()
      ensures TimerRuns(visible, cancelled, old(timeLeft)) ==> timeLeft == Countdown(old(timeLeft), 1)
      ensures !TimerRuns(visible, cancelled, old(timeLeft)) ==> timeLeft == old(timeLeft)
      ensures cancelled ==> timeLeft == old(timeLeft)
    {
      if TimerRuns(visible, cancelled, timeLeft) {
        timeLeft := timeLeft - 1;
      }
    }

    /** `handleCancel`. `cancelled` only ever becomes true; a failure keeps it and shows the error. */
    method HandleCancel(outcome: CancelOutcome)
      modifies this`loading, this`error, this`cancelled, this`events
      ensures !loading
      ensures events == old(events) + [CancelRequested(orderId)]
      ensures old(cancelled) ==> cancelled
      ensures outcome.CancelOk? ==> cancelled && error == None
      ensures outcome.CancelFailed? ==>
        cancelled == old(cancelled) && error == Some(CancelErrorText(outcome.message))
    {
      loading := true;
      error := None;
      events := events + [CancelRequested(orderId)];
      match outcome {
        case CancelOk => cancelled := true;
        case CancelFailed(message) => error := Some(CancelErrorText(message));
      }
      loading := false;
    }

    /** `fetchSupplierContact`. `row` is the `contact_number` of the row read, `None` when the query
        failed or returned nothing; a failure keeps the previous contact. */
    method FetchSupplierContact(row: Option<Option<string>>)
      modifies this`supplierContact
      ensures supplierContact == if row.Some? then row.value else old(supplierContact)
    {
      if row.Some? {
        supplierContact := row.value;
      }
    }

    /** `handleCall`: nothing without a contact, else a dial request for `tel:<contact>`. */
    method HandleCall()
      modifies this`events
      ensures CallTarget(supplierContact).None? ==> events == old(events)
      ensures CallTarget(supplierContact).Some? ==> events == old(events) + [Dial(CallTarget(supplierContact).value)]
    {
      var target := CallTarget(supplierContact);
      if target.Some? {
        events := events + [Dial(target.value)];
      }
    }

    /** The "Chat" button. */
    method OpenChat()
      modifies this`showChat
      ensures showChat
    {
      showChat := true;
    }
  }
}
