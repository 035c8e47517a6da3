/** The `WalletConnect` component: it enables the Polkadot.js extension
    bridge, takes the first account it offers, shows a placeholder balance and
    reports account and balance to its parent through two callbacks.
    The bridge's answers (`web3Enable`, `web3Accounts`), resolved or rejected,
    are inputs here. */
module WalletConnectComponent {
  import opened Types
  import JsText

  const EXTENSION_MISSING_MESSAGE: string := "Please install Polkadot.js extension"
  const NO_ACCOUNTS_MESSAGE: string := "No accounts found in extension"
  /** The balance shown after connecting; no chain query is made. */
  const MOCK_BALANCE: string := "12.5 DOT"
  const ZERO_BALANCE: string := "0"

  /** A handle granted by `web3Enable('PolkaAgent')`; only how many there are matters. */
  datatype Extension = Extension(name: string)

  /** What `connectWallet` catches and displays: its own two errors, or the
      message of a rejection from `web3Enable` or `web3Accounts`. */
  datatype ConnectError = ExtensionMissing | NoAccountsFound | Thrown(message: string)

  /** `err.message` of the caught error. */
  function Message(e: ConnectError): (m: string)
    ensures e == ExtensionMissing ==> m == EXTENSION_MISSING_MESSAGE
    ensures e == NoAccountsFound ==> m == NO_ACCOUNTS_MESSAGE
    ensures !e.Thrown? ==> m != ""
    ensures e.Thrown? ==> m == e.message
  {
    match e
    case ExtensionMissing => EXTENSION_MISSING_MESSAGE
    case NoAccountsFound => NO_ACCOUNTS_MESSAGE
    case Thrown(message) => message
  }

  /** The decision `connectWallet` makes from how the bridge answered: `enabled`
      is what `web3Enable` resolved to or the message it rejected with, and
      `accounts` likewise for `web3Accounts`, which is only consulted once an
      extension has been granted. */
  function SelectAccount(enabled: Result<seq<Extension>, string>, accounts: Result<seq<Account>, string>): (r: Result<Account, ConnectError>)
    ensures enabled.Failure? ==> r == Failure(Thrown(enabled.error))
    ensures r == Failure(ExtensionMissing) <==> enabled.Success? && |enabled.value| == 0
    ensures enabled.Success? && |enabled.value| > 0 && accounts.Failure? ==> r == Failure(Thrown(accounts.error))
    ensures r == Failure(NoAccountsFound) <==>
              enabled.Success? && |enabled.value| > 0 && accounts.Success? && |accounts.value| == 0
    ensures r.Success? <==>
              enabled.Success? && |enabled.value| > 0 && accounts.Success? && |accounts.value| > 0
    ensures r.Success? ==> r.value == accounts.value[0]
  {
    match enabled
    case Failure(m) => Failure(Thrown(m))
    case Success(extensions) =>
      if |extensions| == 0 then Failure(ExtensionMissing)
      else match accounts
        case Failure(m) => Failure(Thrown(m))
        case Success(found) =>
          if |found| == 0 then Failure(NoAccountsFound)
          else Success(found[0])
  }

  /** `truncateAddress`: empty for an absent or empty address, otherwise
      `address.slice(0, 6) + '...' + address.slice(-4)`, which is the first six
      and the last four characters (all of them for shorter addresses). */
  function TruncateAddress(address: Option<string>): (r: string)
    ensures address.None? || address == Some("") ==> r == ""
    ensures address.Some? && address.value != "" ==>
              var a := address.value;
              r == a[..Min(6, |a|)] + "..." + a[|a| - Min(4, |a|)..]
    ensures address.Some? && |address.value| >= 10 ==>
              var a := address.value;
              |r| == 13 && a == r[..6] + a[6..|a| - 4] + r[9..]
  {
    match address
    case None => ""
    case Some(a) =>
      if a == "" then ""
      else
        JsText.SliceHead(a, 6);
        JsText.SliceTail(a, 4);
        JsText.Slice(a, 0, 6) + "..." + JsText.SliceFrom(a, -4)
  }

  /** A call the component makes to its parent: `onAccountChange` or `onBalanceChange`. */
  datatype Notice = AccountChanged(account: Option<Account>) | BalanceChanged(balance: string)

  /** The account the parent holds after receiving `ns`, starting from `null`. */
  function ParentAccount(ns: seq<Notice>): (r: Option<Account>)
    ensures r.Some? ==> AccountChanged(r) in ns
    ensures (forall i :: 0 <= i < |ns| ==> ns[i].BalanceChanged?) ==> r == None
  {
    if |ns| == 0 then None
    else match ns[|ns| - 1]
      case AccountChanged(a) => a
      case BalanceChanged(_) => ParentAccount(ns[..|ns| - 1])
  }

  /** The balance the parent holds after receiving `ns`, starting from `'0'`. */
  function ParentBalance(ns: seq<Notice>): (r: string)
    ensures r == ZERO_BALANCE || BalanceChanged(r) in ns
    ensures (forall i :: 0 <= i < |ns| ==> ns[i].AccountChanged?) ==> r == ZERO_BALANCE
  {
    if |ns| == 0 then ZERO_BALANCE
    else match ns[|ns| - 1]
      case BalanceChanged(b) => b
      case AccountChanged(_) => ParentBalance(ns[..|ns| - 1])
  }

  /** Whatever the parent was told before, a notice pair leaves it holding the pair's values. */
  lemma ParentAfterPair(ns: seq<Notice>, a: Option<Account>, b: string)
    ensures ParentAccount(ns + [AccountChanged(a), BalanceChanged(b)]) == a
    ensures ParentBalance(ns + [AccountChanged(a), BalanceChanged(b)]) == b
  {
    var ns' := ns + [AccountChanged(a), BalanceChanged(b)];
    assert ns'[..|ns'| - 1] == ns + [AccountChanged(a)];
  }

  /** What the component renders. */
  datatype WalletView =
    | ConnectedView(balance: string, shortAddress: string)
    | ConnectView(error: Option<string>, buttonEnabled: bool, caption: string)

  class WalletConnect {
    var account: Option<Account>
    var balance: string
    var isConnecting: bool
    var error: Option<string>
    /** Calls made to the parent's callbacks, oldest first. */
    var notices: seq<Notice>

    /** Disconnected means balance '0', connected means the placeholder balance;
        the parent holds the same account and balance as the component; while
        connecting no account is set and no error shown; and no error is
        pending while connected. */
    ghost predicate Valid()
      reads this
    {
      && (account.None? ==> balance == ZERO_BALANCE)
      && (account.Some? ==> balance == MOCK_BALANCE)
      && ParentAccount(notices) == account
      && ParentBalance(notices) == balance
      && (isConnecting ==> account.None? && error.None?)
      && (account.Some? ==> error.None?)
    }

    constructor ()
      ensures Valid()
      ensures account == None && balance == ZERO_BALANCE
      ensures !isConnecting && error == None && notices == []
    {
      account := None;
      balance := ZERO_BALANCE;
      isConnecting := false;
      error := None;
      notices := [];
    }

    /** The synchronous start of `connectWallet`, when the "Connect Wallet"
        button (rendered only while disconnected, disabled while connecting)
        is clicked. */
    method BeginConnect()
      requires Valid() && account.None? && !isConnecting
      modifies this
      ensures Valid()
      ensures isConnecting && error == None
      ensures account == old(account) && balance == old(balance) && notices == old(notices)
    {
      isConnecting := true;
      error := None;
    }

    /** The rest of `connectWallet`, once the bridge has answered: the first
        account and the placeholder balance, each reported to the parent, or the
        caught error's message with nothing else changed; `isConnecting` is
        cleared in every case. */
    method FinishConnect(enabled: Result<seq<Extension>, string>, accounts: Result<seq<Account>, string>)
      requires Valid() && isConnecting
      modifies this
      ensures Valid()
      ensures !isConnecting
      ensures match SelectAccount(enabled, accounts)
        case Success(a) =>
          && account == Some(a) && balance == MOCK_BALANCE && error == None
          && notices == old(notices) + [AccountChanged(Some(a)), BalanceChanged(MOCK_BALANCE)]
        case Failure(e) =>
          && account == old(account) && balance == old(balance)
          && error == Some(Message(e)) && notices == old(notices)
    {
      var caught: Option<ConnectError> := None;
      match enabled {
        case Failure(m) =>
          caught := Some(Thrown(m));
        case Success(extensions) =>
          if |extensions| == 0 {
            caught := Some(ExtensionMissing);
          } else {
            match accounts {
              case Failure(m) =>
                caught := Some(Thrown(m));
              case Success(found) =>
                if |found| == 0 {
                  caught := Some(NoAccountsFound);
                } else {
                  var selected := found[0];
                  account := Some(selected);
                  notices := notices + [AccountChanged(Some(selected))];
                  balance := MOCK_BALANCE;
                  notices := notices + [BalanceChanged(MOCK_BALANCE)];
                  ParentAfterPair(old(notices), Some(selected), MOCK_BALANCE);
                }
            }
          }
      }
      if caught.Some? {
        error := Some(Message(caught.value));
      }
      isConnecting := false;
    }

    /** `connectWallet` as a whole, the bridge answering between the two steps. */
    method ConnectWallet(enabled: Result<seq<Extension>, string>, accounts: Result<seq<Account>, string>)
      requires Valid() && account.None? && !isConnecting
      modifies this
      ensures Valid()
      ensures !isConnecting
      ensures match SelectAccount(enabled, accounts)
        case Success(a) =>
          && account == Some(a) && balance == MOCK_BALANCE && error == None
          && notices == old(notices) + [AccountChanged(Some(a)), BalanceChanged(MOCK_BALANCE)]
        case Failure(e) =>
          && account == None && balance == ZERO_BALANCE
          && error == Some(Message(e)) && notices == old(notices)
    {
      BeginConnect();
      FinishConnect(enabled, accounts);
    }

    /** `disconnectWallet`: unconditionally back to no account and balance '0',
        reported to the parent; the error and the connecting flag are left alone. */
    method DisconnectWallet()
      requires Valid()
      modifies this
      ensures Valid()
      ensures account == None && balance == ZERO_BALANCE
      ensures notices == old(notices) + [AccountChanged(None), BalanceChanged(ZERO_BALANCE)]
      ensures error == old(error) && isConnecting == old(isConnecting)
      ensures old(account).Some? ==> error == None
    {
      account := None;
      balance := ZERO_BALANCE;
      notices := notices + [AccountChanged(None), BalanceChanged(ZERO_BALANCE)];
      ParentAfterPair(old(notices), None, ZERO_BALANCE);
    }

    /** The rendered view: balance, shortened address and "Disconnect" while an
        account is set; otherwise the error, if any, and the connect button,
        disabled and labelled "Connecting..." while connecting. */
    function View(): (v: WalletView)
      reads this
      ensures v.ConnectedView? <==> account.Some?
      ensures v.ConnectedView? ==> v.balance == balance && |v.shortAddress| <= 13
      ensures v.ConnectView? ==> (v.buttonEnabled <==> !isConnecting)
      ensures v.ConnectView? ==> v.error == if error == Some("") then None else error
    {
      match account
      case Some(a) => ConnectedView(balance, TruncateAddress(Some(a.address)))
      case None =>
        // `{error && ...}`: an empty message is falsy and shows no error box
        var shown := if error == Some("") then None else error;
        ConnectView(shown, !isConnecting, if isConnecting then "Connecting..." else "Connect Wallet")
    }
  }
}
