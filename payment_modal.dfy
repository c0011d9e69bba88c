/** The payment sheet (components/PaymentModal.tsx): choosing a method, the ordered checks that run
    before a payment-link request, the hand-off to the payment page and the confirmation reply.
    Every awaited call (stored user data, the payment-link service) is a parameter of the handler
    that awaits it; the calls the sheet makes outward are appended to `events`. */
module Payment {
  import opened Wrappers
  import UpiId

  const SelectMethodMessage := "Please select a payment method"
  const InsufficientMessage := "Insufficient wallet balance"
  const InvalidUpiMessage := "Please enter a valid UPI ID"
  const PaymentFailedAlert := "Payment failed"

  /** `validateUpiId`: accepts exactly the ids `X@Y` with X and Y non-empty runs of `[A-Za-z0-9_.-]`. */
  function ValidateUpiId(id: string): (ok: bool)
    ensures ok <==> UpiId.WellFormed(id)
  {
    UpiId.MatchesIff(id);
    UpiId.Matches(id)
  }

  /** `!selectedMethod`: no method chosen (null, or the empty string). */
  predicate NoMethod(m: Option<string>) {
    !Truthy(m)
  }

  /** The validation prefix of `handlePayment`: the message of the first check that fails, in the
      order the handler runs them, or `None` when all pass. */
  function FirstError(m: Option<string>, balance: real, amount: real, upiId: string): (e: Option<string>)
    ensures NoMethod(m) ==> e == Some(SelectMethodMessage)
    ensures e == Some(InsufficientMessage) <==> m == Some("wallet") && balance < amount
    ensures e == Some(InvalidUpiMessage) <==> m == Some("upi") && !UpiId.WellFormed(upiId)
    ensures e == None <==>
      !NoMethod(m) && (m.value == "wallet" ==> amount <= balance) && (m.value == "upi" ==> UpiId.WellFormed(upiId))
  {
    if NoMethod(m) then Some(SelectMethodMessage)
    else if m.value == "wallet" && balance < amount then Some(InsufficientMessage)
    else if m.value == "upi" && !ValidateUpiId(upiId) then Some(InvalidUpiMessage)
    else None
  }

  /** `disabled={!selectedMethod || loading}` on the Pay button. */
  predicate PayDisabled(m: Option<string>, loading: bool) {
    NoMethod(m) || loading
  }

  /** While the Pay button is enabled, the first check of `handlePayment` cannot fail. */
  lemma EnabledPayHasMethod(m: Option<string>, loading: bool, balance: real, amount: real, upiId: string)
    requires !PayDisabled(m, loading)
    ensures FirstError(m, balance, amount, upiId) != Some(SelectMethodMessage)
  {
  }

  /** The balance is never loaded (the effect that would fetch it is commented out), so it stays at
      its initial 0 and a wallet payment of any positive amount is refused. */
  lemma UnloadedWalletRefuses(amount: real, upiId: string)
    requires 0.0 < amount
    ensures FirstError(Some("wallet"), 0.0, amount, upiId) == Some(InsufficientMessage)
  {
  }

  /** What leaves the sheet: requests to the payment-link service, the parent's callbacks, alerts. */
  datatype Event =
    | LinkRequested(linkId: string, amount: real, phone: string)
    | ConfirmRequested(storedLinkId: Option<string>)
    | PaymentCompleted(methodName: string, upiId: string)
    | Closed
    | AlertShown(message: string)

  /** The reply of the payment-link service: `link_url` (absent or possibly empty) and `link_id`
      (`None` when the reply lacks it, which stores `undefined`). */
  datatype LinkReply = LinkReply(linkUrl: Option<string>, linkId: Option<string>)

  /** The reply of the confirmation endpoint: the request or its JSON failed, or it carried `status`. */
  datatype ConfirmReply = ConfirmFailed | Replied(status: Option<string>)

  /** What `confirmPayment` does after its request: complete and close on `status == "success"`,
      alert on any other reply, nothing when the request itself failed. */
  function ConfirmOutcome(reply: ConfirmReply, upiId: string): (r: seq<Event>)
    ensures PaymentCompleted("upi", upiId) in r <==> reply == Replied(Some("success"))
    ensures PaymentCompleted("upi", upiId) in r ==> r == [PaymentCompleted("upi", upiId), Closed]
    ensures reply.Replied? && reply.status != Some("success") ==> r == [AlertShown(PaymentFailedAlert)]
    ensures reply.ConfirmFailed? ==> r == []
  {
    match reply
    case ConfirmFailed => []
    case Replied(status) =>
      if status == Some("success") then [PaymentCompleted("upi", upiId), Closed]
      else [AlertShown(PaymentFailedAlert)]
  }

  class PaymentModal {
    const amount: real
    var selectedMethod: Option<string>
    var loading: bool
    var error: Option<string>
    var walletBalance: real
    var webviewVisible: bool
    var paymentUrl: Option<string>
    var upiId: string
    /** `None` stands for the `undefined` a reply without `link_id` stores. */
    var linkId: Option<string>
    var showUpiInput: bool
    var events: seq<Event>

    constructor (amount: real)
      ensures this.amount == amount
      ensures selectedMethod == None && !loading && error == None && walletBalance == 0.0
      ensures !webviewVisible && paymentUrl == None && upiId == "" && linkId == Some("") && !showUpiInput
      ensures events == []
    {
      this.amount := amount;
      selectedMethod, loading, error, walletBalance := None, false, None, 0.0;
      webviewVisible, paymentUrl, upiId, linkId, showUpiInput := false, None, "", Some(""), false;
      events := [];
    }

    /** `handleMethodSelect`: remembers the method, clears the error, shows the UPI field iff UPI. */
    method HandleMethodSelect(m: string)
      modifies this`selectedMethod, this`error, this`showUpiInput
      ensures selectedMethod == Some(m) && error == None
      ensures showUpiInput <==> m == "upi"
    {
      selectedMethod := Some(m);
      error := None;
      showUpiInput := m == "upi";
    }

    /** The UPI text field's `onChangeText`. */
    method SetUpiId(text: string)
      modifies this`upiId
      ensures upiId == text
    {
      upiId := text;
    }

    /** `handlePayment`. `userdata` is the phone read from stored user data, or the message of what
        reading it threw; `generatedId` is the random link id; `reply` is the payment-link service's
        answer, `None` when the request or its JSON failed. */
    method HandlePayment(userdata: Result<string, string>, generatedId: string, reply: Option<LinkReply>)
      modifies this`loading, this`error, this`linkId, this`paymentUrl, this`webviewVisible, this`events
      ensures !loading
      ensures var e := FirstError(selectedMethod, walletBalance, amount, upiId);
        e.Some? ==> error == e && events == old(events) && linkId == old(linkId)
                    && paymentUrl == old(paymentUrl) && webviewVisible == old(webviewVisible)
      ensures FirstError(selectedMethod, walletBalance, amount, upiId).None? && selectedMethod != Some("upi") ==>
        error == None && events == old(events) && linkId == old(linkId)
        && paymentUrl == old(paymentUrl) && webviewVisible == old(webviewVisible)
      ensures FirstError(selectedMethod, walletBalance, amount, upiId).None? && selectedMethod == Some("upi")
              && userdata.Failure? ==>
        error == Some(userdata.error) && events == old(events) && linkId == old(linkId)
        && paymentUrl == old(paymentUrl) && webviewVisible == old(webviewVisible)
      ensures FirstError(selectedMethod, walletBalance, amount, upiId).None? && selectedMethod == Some("upi")
              && userdata.Success? ==>
        && error == None
        && events == old(events) + [LinkRequested(generatedId, amount, userdata.value)]
        && linkId == (if reply.Some? then reply.value.linkId else Some(generatedId))
        && (if reply.Some? && Truthy(reply.value.linkUrl)
            then paymentUrl == reply.value.linkUrl && webviewVisible
            else paymentUrl == old(paymentUrl) && webviewVisible == old(webviewVisible))
    {
      loading := true;
      error := None;
      var e := FirstError(selectedMethod, walletBalance, amount, upiId);
      if e.Some? {
        error := e;
      } else if selectedMethod == Some("upi") {
        match userdata {
          case Failure(message) =>
            error := Some(message);
          case Success(phone) =>
            linkId := Some(generatedId);
            events := events + [LinkRequested(generatedId, amount, phone)];
            if reply.Some? {
              linkId := reply.value.linkId;
              if Truthy(reply.value.linkUrl) {
                paymentUrl := reply.value.linkUrl;
                webviewVisible := true;
              }
            }
        }
      }
      loading := false;
    }

    /** `confirmPayment`, run by the "Payment Completed" button under the payment page. */
    method ConfirmPayment(reply: ConfirmReply)
      modifies this`events
      ensures events == old(events) + [ConfirmRequested(linkId)] + ConfirmOutcome(reply, upiId)
    {
      events := events + [ConfirmRequested(linkId)] + ConfirmOutcome(reply, upiId);
    }
  }
}
