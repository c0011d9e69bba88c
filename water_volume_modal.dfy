/** The order sheet for a water container (components/WaterVolumeModal.tsx): what opening it resets,
    when it prompts for a wallet top-up, and when "Confirm Order" is enabled. The source of this
    component lacks its handlers, so only the open effect, the gates and the inline setters appear. */
module WaterVolume {
  import opened Wrappers

  /** `selectedContainer`, with the `selectedRate` the gates read. */
  datatype Container = Container(id: string, name: string, volume: real, price: real)

  /** `defaultAddress`, as displayed. */
  datatype Address = Address(title: string, address: string)

  /** The "Add Money to Wallet" prompt: paying from the wallet and the balance is below the price. */
  predicate ShowAddMoneyPrompt(paymentMethod: string, walletBalance: real, price: real) {
    paymentMethod == "wallet" && walletBalance < price
  }

  /** `disabled` on "Confirm Order". */
  predicate ConfirmDisabled(loading: bool, defaultAddress: Option<Address>, paymentMethod: string,
                            walletBalance: real, price: real) {
    loading || defaultAddress.None? || ShowAddMoneyPrompt(paymentMethod, walletBalance, price)
  }

  /** An order can be confirmed exactly when nothing is in flight, there is a default address, and a
      wallet payment is covered by the balance; whenever the top-up prompt shows, it cannot. */
  lemma ConfirmEnabledIff(loading: bool, defaultAddress: Option<Address>, paymentMethod: string,
                          walletBalance: real, price: real)
    ensures !ConfirmDisabled(loading, defaultAddress, paymentMethod, walletBalance, price) <==>
      !loading && defaultAddress.Some? && (paymentMethod == "wallet" ==> price <= walletBalance)
    ensures ShowAddMoneyPrompt(paymentMethod, walletBalance, price) ==>
      ConfirmDisabled(loading, defaultAddress, paymentMethod, walletBalance, price)
  {
  }

  /** "Add Delivery Address" is offered in place of an address card. */
  predicate ShowAddAddressButton(defaultAddress: Option<Address>) {
    defaultAddress.None?
  }

  /** While the sheet offers "Add Delivery Address" instead of an address card, the order cannot be
      confirmed. */
  lemma NoAddressBlocksConfirm(loading: bool, defaultAddress: Option<Address>, paymentMethod: string,
                               walletBalance: real, price: real)
    ensures ShowAddAddressButton(defaultAddress) ==>
      ConfirmDisabled(loading, defaultAddress, paymentMethod, walletBalance, price)
    ensures !ShowAddAddressButton(defaultAddress) && !loading && paymentMethod != "wallet" ==>
      !ConfirmDisabled(loading, defaultAddress, paymentMethod, walletBalance, price)
  {
  }

  /** The loads the open effect starts; their handlers are not part of this model. */
  datatype Event = WalletBalanceRequested | DefaultAddressRequested

  class WaterVolumeModal {
    var step: int
    var loading: bool
    var scheduledDate: int
    var showDatePicker: bool
    var walletBalance: real
    var paymentMethod: string
    var defaultAddress: Option<Address>
    var showAddMoney: bool
    var moneyAmount: string
    var showAddAddress: bool
    var events: seq<Event>

    /** The initial state; `now` is the time `new Date()` reads. */
    constructor (now: int)
      ensures step == 1 && !loading && scheduledDate == now && !showDatePicker && walletBalance == 0.0
      ensures paymentMethod == "wallet" && defaultAddress == None && !showAddMoney && moneyAmount == ""
      ensures !showAddAddress && events == []
    {
      step, loading, scheduledDate, showDatePicker, walletBalance := 1, false, now, false, 0.0;
      paymentMethod, defaultAddress, showAddMoney, moneyAmount := "wallet", None, false, "";
      showAddAddress, events := false, [];
    }

    /** The effect on `[visible, selectedContainer]`: with a container, it starts both loads and
        resets the step, the date and the two inline forms; the payment method and the typed top-up
        amount survive. Without one, or while hidden, nothing happens. */
    method Open(visible: bool, selectedContainer: Option<Container>, now: int)
      modifies this`step, this`scheduledDate, this`showAddMoney, this`showAddAddress, this`events
      ensures visible && selectedContainer.Some? ==>
        step == 1 && scheduledDate == now && !showAddMoney && !showAddAddress
        && events == old(events) + [WalletBalanceRequested, DefaultAddressRequested]
      ensures !(visible && selectedContainer.Some?) ==>
        step == old(step) && scheduledDate == old(scheduledDate) && showAddMoney == old(showAddMoney)
        && showAddAddress == old(showAddAddress) && events == old(events)
    {
      if visible && selectedContainer.Some? {
        events := events + [WalletBalanceRequested, DefaultAddressRequested];
        step := 1;
        scheduledDate := now;
        showAddMoney := false;
        showAddAddress := false;
      }
    }

    /** The wallet option's `onPress`. */
    method SelectWallet()
      modifies this`paymentMethod
      ensures paymentMethod == "wallet"
    {
      paymentMethod := "wallet";
    }

    /** "Add Money to Wallet": opens the inline top-up form. */
    method OpenAddMoney()
      modifies this`showAddMoney
      ensures showAddMoney
    {
      showAddMoney := true;
    }

    /** The top-up amount field's `onChangeText`. */
    method SetMoneyAmount(text: string)
      modifies this`moneyAmount
      ensures moneyAmount == text
    {
      moneyAmount := text;
    }

    /** "Add Delivery Address": opens the inline address form. */
    method OpenAddAddress()
      modifies this`showAddAddress
      ensures showAddAddress
    {
      showAddAddress := true;
    }
  }
}
