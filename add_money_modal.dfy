/** The wallet top-up sheet (components/AddMoneyModal.tsx): quick amounts, the amount bounds, and the
    two-stage "Proceed to Pay", then "Pay Now" flow that ends in the `add_money_to_wallet` call. */
module AddMoney {
  import opened Wrappers
  import opened Numbers
  import UpiId
  import Payment

  /** `QUICK_AMOUNTS`. */
  const QuickAmounts: seq<nat> := [100, 200, 500, 1000, 2000, 5000]

  /** The largest top-up the sheet lets through, in rupees. */
  const MaxAmount: real := 50000.0

  /** The verdict of `validateAmount`: accepted, or which of its two alerts it raises. */
  datatype AmountCheck = AmountOk | InvalidAmount | AmountTooHigh

  /** `validateAmount` on the number `Number(amount)` (`None` for NaN): NaN and anything not above
      zero are invalid, anything above 50000 is too high, and exactly `0 < n <= 50000` passes. */
  function CheckAmount(n: Option<real>): (c: AmountCheck)
    ensures c == AmountOk <==> n.Some? && 0.0 < n.value <= MaxAmount
    ensures c == InvalidAmount <==> n.None? || n.value <= 0.0
    ensures c == AmountTooHigh <==> n.Some? && MaxAmount < n.value
  {
    if n.None? || n.value <= 0.0 then InvalidAmount
    else if n.value > MaxAmount then AmountTooHigh
    else AmountOk
  }

  /** `validateAmount` on the text of the amount field: it passes exactly when the text reads as a
      number in (0, 50000], and text that is not a number is an invalid amount. */
  function ValidateAmount(amount: string): (c: AmountCheck)
    ensures c == AmountOk <==> Number(amount).Some? && 0.0 < Number(amount).value <= MaxAmount
    ensures Number(amount).None? ==> c == InvalidAmount
  {
    CheckAmount(Number(amount))
  }

  /** A whole amount written as its decimal string passes exactly when it lies in 1..50000, and a
      larger one is refused as too high. */
  lemma ValidateDecimalIff(n: nat)
    ensures ValidateAmount(ToDecimal(n)) == AmountOk <==> 0 < n <= 50000
    ensures ValidateAmount(ToDecimal(n)) == AmountTooHigh <==> 50000 < n
  {
    NumberOfDecimal(n);
  }

  /** `validateUpiId` of the top-up sheet: the same rule as the payment sheet's. */
  function ValidateUpiId(id: string): (ok: bool)
    ensures ok <==> UpiId.WellFormed(id)
    ensures ok == Payment.ValidateUpiId(id)
  {
    UpiId.MatchesIff(id);
    UpiId.Matches(id)
  }

  /** Every quick amount, written as its decimal string, passes `validateAmount`. */
  lemma QuickAmountsValid()
    ensures forall v :: v in QuickAmounts ==> ValidateAmount(ToDecimal(v)) == AmountOk
  {
    forall v | v in QuickAmounts ensures ValidateAmount(ToDecimal(v)) == AmountOk {
      NumberOfDecimal(v);
    }
  }

  /** What leaves the sheet: alerts (title, message), the wallet RPC, and the parent's callbacks. */
  datatype Event =
    | AlertShown(title: string, message: string)
    | AddMoneyToWallet(userId: string, amount: real)
    | Succeeded
    | Closed

  /** The alert `validateAmount` raises for a rejected amount. */
  function AmountAlert(c: AmountCheck): (e: Event)
    requires c != AmountOk
    ensures e.AlertShown?
  {
    if c == InvalidAmount then AlertShown("Invalid Amount", "Please enter a valid amount")
    else AlertShown("Amount Too High", "Maximum amount allowed is ₹50,000")
  }

  const InvalidUpiAlert := AlertShown("Invalid UPI ID", "Please enter a valid UPI ID")
  const SuccessAlert := AlertShown("Success", "Money added to wallet successfully")
  const FailureAlert := AlertShown("Error", "Failed to add money to wallet")

  /** What the paying stage of `handleAddMoney` sends out once both checks pass: the wallet call with
      `p_amount`, then the success alert and the parent's `onSuccess` and `onClose`, or the failure
      alert when there is no user or the call fails. */
  function TopUpEvents(userId: Option<string>, amount: real, rpcOk: bool): (r: seq<Event>)
    ensures userId.None? ==> r == [FailureAlert]
    ensures userId.Some? ==> |r| > 1 && r[0] == AddMoneyToWallet(userId.value, amount)
    ensures Succeeded in r <==> userId.Some? && rpcOk
    ensures FailureAlert in r <==> !(userId.Some? && rpcOk)
    ensures Succeeded in r ==> r[|r| - 2..] == [Succeeded, Closed]
    ensures userId.Some? && rpcOk ==>
      r == [AddMoneyToWallet(userId.value, amount), SuccessAlert, Succeeded, Closed]
    ensures userId.Some? && !rpcOk ==> r == [AddMoneyToWallet(userId.value, amount), FailureAlert]
  {
    match userId
    case None => [FailureAlert]
    case Some(id) =>
      [AddMoneyToWallet(id, amount)] + (if rpcOk then [SuccessAlert, Succeeded, Closed] else [FailureAlert])
  }

  class AddMoneyModal {
    var amount: string
    var loading: bool
    var showUpiInput: bool
    var upiId: string
    var events: seq<Event>

    constructor ()
      ensures amount == "" && !loading && !showUpiInput && upiId == "" && events == []
    {
      amount, loading, showUpiInput, upiId, events := "", false, false, "", [];
    }

    /** `handleQuickAmount`: the amount field becomes the decimal string of the chosen amount. */
    method HandleQuickAmount(v: nat)
      modifies this`amount
      ensures amount == ToDecimal(v)
      ensures v in QuickAmounts ==> ValidateAmount(amount) == AmountOk
    {
      amount := ToDecimal(v);
      QuickAmountsValid();
    }

    /** The amount field's `onChangeText`. */
    method SetAmount(text: string)
      modifies this`amount
      ensures amount == text
    {
      amount := text;
    }

    /** The UPI field's `onChangeText`. */
    method SetUpiId(text: string)
      modifies this`upiId
      ensures upiId == text
    {
      upiId := text;
    }

    /** `handleAddMoney`. `userId` is the signed-in user (`None` when there is none or the lookup
        threw); `rpcOk` says whether `add_money_to_wallet` returned without error. */
    method HandleAddMoney(userId: Option<string>, rpcOk: bool)
      modifies this`loading, this`showUpiInput, this`events
      // an invalid amount is refused first, in either stage, and nothing else happens
      ensures ValidateAmount(amount) != AmountOk ==>
        events == old(events) + [AmountAlert(ValidateAmount(amount))]
        && showUpiInput == old(showUpiInput) && loading == old(loading)
      // first stage: a valid amount only reveals the UPI field
      ensures ValidateAmount(amount) == AmountOk && !old(showUpiInput) ==>
        showUpiInput && events == old(events) && loading == old(loading)
      // second stage: an invalid UPI id alerts and makes no call
      ensures ValidateAmount(amount) == AmountOk && old(showUpiInput) && !UpiId.WellFormed(upiId) ==>
        events == old(events) + [InvalidUpiAlert] && showUpiInput && loading == old(loading)
      // both checks pass: the wallet call carries Number(amount), and loading ends false
      ensures ValidateAmount(amount) == AmountOk && old(showUpiInput) && UpiId.WellFormed(upiId) ==>
        showUpiInput && !loading && Number(amount).Some? &&
        events == old(events) + TopUpEvents(userId, Number(amount).value, rpcOk)
    {
      var check := ValidateAmount(amount);
      if check != AmountOk {
        events := events + [AmountAlert(check)];
      } else if !showUpiInput {
        showUpiInput := true;
      } else if !ValidateUpiId(upiId) {
        events := events + [InvalidUpiAlert];
      } else {
        loading := true;
        events := events + TopUpEvents(userId, Number(amount).value, rpcOk);
        loading := false;
      }
    }
  }
}
