/** The `RentModal` component: a rental duration chosen by preset buttons or a
    slider, the derived total cost, and a simulated rental whose outcome is a
    parameter. The two-second transaction delay and the three-second
    auto-close timer are separate steps. `onClose` calls are counted. */
module RentModalComponent {
  import opened Types
  import JsText

  const MIN_DAYS: int := 1
  const MAX_DAYS: int := 30
  const DEFAULT_DAYS: int := 7
  /** The preset buttons, in display order. */
  const PRESETS: seq<int> := [1, 3, 7, 30]
  const FAILURE_ALERT: string := "Transaction failed. Please try again."

  /** The value a range input with min 1, max 30 and step 1 takes for a
      requested position: clamped into [1, 30], as the HTML value sanitization
      of `<input type="range">` does. */
  function RangeValue(position: int): (v: int)
    ensures MIN_DAYS <= v <= MAX_DAYS
    ensures MIN_DAYS <= position <= MAX_DAYS ==> v == position
    ensures position < MIN_DAYS ==> v == MIN_DAYS
    ensures position > MAX_DAYS ==> v == MAX_DAYS
  {
    if position < MIN_DAYS then MIN_DAYS
    else if position > MAX_DAYS then MAX_DAYS
    else position
  }

  /** The account line of the form: `account?.address?.slice(0, 16)`, `'...'`,
      `account?.address?.slice(-8)`; without an account only the dots remain. */
  function AccountLine(account: Option<Account>): (line: string)
    ensures account.None? ==> line == "..."
    ensures account.Some? ==>
              var a := account.value.address;
              line == a[..Min(16, |a|)] + "..." + a[|a| - Min(8, |a|)..]
  {
    match account
    case None => "..."
    case Some(acc) =>
      var a := acc.address;
      JsText.SliceHead(a, 16);
      JsText.SliceTail(a, 8);
      JsText.Slice(a, 0, 16) + "..." + JsText.SliceFrom(a, -8)
  }

  /** What the modal renders: the form, or the success message naming the
      agent and the duration. */
  datatype ModalView =
    | Form(pricePerDay: nat, days: int, totalCost: int, busy: bool, accountLine: string)
    | Succeeded(agentName: string, days: int)

  /** The controls that call `onClose`. */
  datatype CloseControl = CancelButton | CloseIcon | Backdrop

  class RentModal {
    const agent: Agent
    const account: Option<Account>
    var duration: int
    var isRenting: bool
    var success: bool
    /** The auto-close timer started after a successful rental has not fired yet. */
    var autoClosePending: bool
    /** How many times `onClose` has been called. */
    var closeRequests: nat
    /** Messages passed to `alert`. */
    var alerts: seq<string>

    ghost predicate Valid()
      reads this
    {
      && MIN_DAYS <= duration <= MAX_DAYS
      && !(isRenting && success)
      && (autoClosePending ==> success)
    }

    constructor (agent: Agent, account: Option<Account>)
      ensures Valid()
      ensures this.agent == agent && this.account == account
      ensures duration == DEFAULT_DAYS && !isRenting && !success
      ensures !autoClosePending && closeRequests == 0 && alerts == []
    {
      this.agent := agent;
      this.account := account;
      duration := DEFAULT_DAYS;
      isRenting := false;
      success := false;
      autoClosePending := false;
      closeRequests := 0;
      alerts := [];
    }

    /** `totalCost`: the price per day times the number of days, so between one
        day's and thirty days' price. */
    function TotalCost(): (cost: int)
      reads this
      requires Valid()
      ensures agent.price <= cost <= MAX_DAYS * agent.price
      ensures cost == 0 <==> agent.price == 0
    {
      agent.price * duration
    }

    /** The Rent button exists only in the form (not in the success view) and
        is disabled while renting. */
    predicate RentEnabled()
      reads this
      requires Valid()
      ensures RentEnabled() <==> View().Form? && !View().busy
    {
      !success && !isRenting
    }

    /** Where each close control is and when it is disabled: Cancel is in the
        form and disabled while renting; the x icon is in the form's header; the
        backdrop calls `onClose` in both views. */
    predicate CloseEnabled(via: CloseControl)
      reads this
      requires Valid()
      ensures via == CancelButton ==> (CloseEnabled(via) <==> View().Form? && !View().busy)
      ensures via == CloseIcon ==> (CloseEnabled(via) <==> View().Form?)
      ensures via == Backdrop ==> CloseEnabled(via)
    {
      match via
      case CancelButton => !success && !isRenting
      case CloseIcon => !success
      case Backdrop => true
    }

    /** While a rental is in flight neither Rent nor Cancel can be pressed. */
    lemma RentingLocksForm()
      requires Valid() && isRenting
      ensures !RentEnabled() && !CloseEnabled(CancelButton)
      ensures CloseEnabled(CloseIcon) && CloseEnabled(Backdrop)
    {
    }

    function View(): (v: ModalView)
      reads this
      requires Valid()
      ensures v.Succeeded? <==> success
      ensures v.Succeeded? ==> v.agentName == agent.name && v.days == duration
      ensures v.Form? ==> v.days == duration && v.totalCost == TotalCost() && (v.busy <==> isRenting)
    {
      if success then Succeeded(agent.name, duration)
      else Form(agent.price, duration, TotalCost(), isRenting, AccountLine(account))
    }

    /** A preset button (`setDuration(days)`); the buttons stay clickable while
        renting. */
    method SelectPreset(days: int)
      requires Valid() && !success
      requires days in PRESETS
      modifies this
      ensures Valid()
      ensures duration == days
      ensures isRenting == old(isRenting) && success == old(success)
      ensures autoClosePending == old(autoClosePending)
      ensures closeRequests == old(closeRequests) && alerts == old(alerts)
    {
      duration := days;
    }

    /** The slider's `onChange`: the browser reports the sanitized position as
        a decimal string and the handler parses it back with `parseInt`. */
    method SlideTo(position: int)
      requires Valid() && !success
      modifies this
      ensures Valid()
      ensures duration == RangeValue(position)
      ensures isRenting == old(isRenting) && success == old(success)
      ensures autoClosePending == old(autoClosePending)
      ensures closeRequests == old(closeRequests) && alerts == old(alerts)
    {
      var value := RangeValue(position);
      var text := JsText.Decimal(value as nat);
      JsText.ParseDecimal(value as nat);
      duration := JsText.ParseInt(text).value;
    }

    /** The synchronous start of `handleRent`, from the enabled Rent button. */
    method BeginRent()
      requires Valid() && RentEnabled()
      modifies this
      ensures Valid()
      ensures isRenting && !success
      ensures duration == old(duration) && autoClosePending == old(autoClosePending)
      ensures closeRequests == old(closeRequests) && alerts == old(alerts)
    {
      isRenting := true;
    }

    /** The rest of `handleRent` once the simulated transaction settles: on
        completion the success view and the auto-close timer, on failure an
        alert and back to the form; `isRenting` is cleared either way. */
    method SettleRent(completed: bool)
      requires Valid() && isRenting
      modifies this
      ensures Valid()
      ensures !isRenting
      ensures success == completed && autoClosePending == completed
      ensures alerts == if completed then old(alerts) else old(alerts) + [FAILURE_ALERT]
      ensures duration == old(duration) && closeRequests == old(closeRequests)
    {
      if completed {
        success := true;
        autoClosePending := true;
      } else {
        alerts := alerts + [FAILURE_ALERT];
      }
      isRenting := false;
    }

    /** `handleRent` as a whole: ends not renting, succeeded exactly when the
        transaction completed, with the duration unchanged, so the success
        message reports the days chosen; a completed rental has started the
        auto-close timer and raised no alert. */
    method HandleRent(completed: bool)
      requires Valid() && RentEnabled()
      modifies this
      ensures Valid()
      ensures !isRenting && success == completed
      ensures duration == old(duration)
      ensures completed ==> View() == Succeeded(agent.name, old(duration))
      ensures !completed ==> RentEnabled()
      ensures autoClosePending == completed
      ensures alerts == if completed then old(alerts) else old(alerts) + [FAILURE_ALERT]
      ensures closeRequests == old(closeRequests)
    {
      BeginRent();
      SettleRent(completed);
    }

    /** The three-second timer after a successful rental calls `onClose`. */
    method AutoClose()
      requires Valid() && autoClosePending
      modifies this
      ensures Valid()
      ensures !autoClosePending && closeRequests == old(closeRequests) + 1
      ensures duration == old(duration) && isRenting == old(isRenting) && success == old(success)
      ensures alerts == old(alerts)
    {
      autoClosePending := false;
      closeRequests := closeRequests + 1;
    }

    /** A click on Cancel, the x icon or the backdrop calls `onClose`. */
    method Close(via: CloseControl)
      requires Valid() && CloseEnabled(via)
      modifies this
      ensures Valid()
      ensures closeRequests == old(closeRequests) + 1
      ensures duration == old(duration) && isRenting == old(isRenting) && success == old(success)
      ensures autoClosePending == old(autoClosePending) && alerts == old(alerts)
    {
      closeRequests := closeRequests + 1;
    }
  }
}
