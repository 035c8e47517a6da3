/** The `AgentCard` component: the "Rent Now" button opens the rent modal only
    when the parent has passed a connected account; the modal's `onClose`
    hides it again. */
module AgentCardComponent {
  import opened Types

  const CONNECT_FIRST_ALERT: string := "Please connect your wallet first"

  /** The props the card passes to `RentModal`. */
  datatype ModalProps = ModalProps(agent: Agent, account: Option<Account>)

  class AgentCard {
    const agent: Agent
    /** The `account` prop; the parent may pass a new one on any render. */
    var account: Option<Account>
    var showModal: bool
    /** Messages passed to `alert`. */
    var alerts: seq<string>

    constructor (agent: Agent, account: Option<Account>)
      ensures this.agent == agent && this.account == account
      ensures !showModal && alerts == []
    {
      this.agent := agent;
      this.account := account;
      showModal := false;
      alerts := [];
    }

    /** `handleRentClick`: without an account, an alert and nothing else;
        with one, the modal is shown. */
    method HandleRentClick()
      modifies this
      ensures account == old(account)
      ensures old(account).None? ==> showModal == old(showModal) && alerts == old(alerts) + [CONNECT_FIRST_ALERT]
      ensures old(account).Some? ==> showModal && alerts == old(alerts)
      ensures showModal && !old(showModal) ==> account.Some?
    {
      if account.None? {
        alerts := alerts + [CONNECT_FIRST_ALERT];
        return;
      }
      showModal := true;
    }

    /** The `onClose` callback handed to the modal. */
    method CloseModal()
      modifies this
      ensures !showModal
      ensures account == old(account) && alerts == old(alerts)
    {
      showModal := false;
    }

    /** A re-render with a new `account` prop keeps the card's own state. */
    method ReceiveAccount(newAccount: Option<Account>)
      modifies this
      ensures account == newAccount
      ensures showModal == old(showModal) && alerts == old(alerts)
    {
      account := newAccount;
    }

    /** The modal is rendered exactly when `showModal` is set, with the card's
        own agent and its current account. */
    function Modal(): (m: Option<ModalProps>)
      reads this
      ensures m.Some? <==> showModal
      ensures m.Some? ==> m.value.agent == agent && m.value.account == account
    {
      if showModal then Some(ModalProps(agent, account)) else None
    }
  }
}
