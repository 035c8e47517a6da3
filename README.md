# PolkaAgent core, modelled in Dafny

PolkaAgent is a marketplace front end for renting "AI agents" on Polkadot, plus a
small ink! smart contract. This project models the parts that hold logic, and proves
properties about them:

- **`AgentRegistry` (ink! contract)** — `agent_registry.dfy`. The contract is a class
  with a `u32` counter `totalAgents` and an `owner`. `new` takes the caller as a
  parameter. `register_agent` hands out the current count as the new id and bumps the
  count with `u32::saturating_add`. The `AgentRegistered` events go into a ghost log.
  The spec functions `CountAfter(n)` and `Emitted(n)` give the counter and the event
  log after `n` registrations. The lemmas prove:
  - ids are 0, 1, 2, … and all distinct below the cap;
  - the counter saturates at `u32::MAX` and never wraps;
  - each event carries exactly the id that was returned.
- **`WalletConnect`** — `wallet_connect.dfy`. This file holds:
  - the pure decision `SelectAccount` (a rejection from the bridge, no extension, no
    account, or the first account);
  - the imperative `connectWallet`, split into its synchronous start and the step
    after the bridge answers, plus `disconnectWallet`;
  - `truncateAddress`, written with JavaScript `slice` semantics.

  The parent callbacks are a log of notices. The object invariant proves four things.
  The parent always holds the same account and balance as the component. Balance `'0'`
  goes with "no account", and `'12.5 DOT'` with "connected". While connecting, no
  account is set and no error is shown. While connected, no error is pending, so the
  Disconnect button is never shown beside an old error.
- **`RentModal`** — `rent_modal.dfy`. The class covers:
  - the duration, kept in [1, 30] by the preset buttons and by the slider;
  - `totalCost`;
  - the rental as two steps, with the transaction outcome as a parameter;
  - the auto-close timer as its own step;
  - which controls are enabled.

  The slider goes through the range input's clamping, the decimal rendering of the
  value, and `parseInt`. The lemma `JsText.ParseDecimal` proves that this round trip
  is the identity.
- **`AgentCard`** — `agent_card.dfy`. The wallet-gated `showModal` flag, the modal's
  close callback, and the props passed to the modal.

`js_text.dfy` holds the ECMAScript string operations the components use:
`String.prototype.slice`, `parseInt` and `String(n)`. `types.dfy` holds the shared
values.

Three points of the code that the model keeps as written:

- `SettleRent(false)` models the `catch` branch of `handleRent` (`RentModal.jsx:27-29`): an
  alert, then back to the form. The simulated transaction (`RentModal.jsx:15`) is a
  promise that always resolves, so the branch cannot be reached today. It is there for
  the contract call that is commented out at `RentModal.jsx:17-18`.
- While renting, only Cancel and Rent are disabled (`RentModal.jsx:144,150`). The preset
  buttons, the slider, the × icon and the backdrop stay active. `SelectPreset`, `SlideTo`
  and `Close` allow this.
- `disconnectWallet` does not clear a previous error message. `DisconnectWallet`
  keeps `error` unchanged.

## Model

| member | source | states |
|---|---|---|
| AgentRegistryContract.SaturatingAdd | agent_registry/lib.rs:31 | `u32::saturating_add`: the exact sum when it fits, otherwise `u32::MAX`; the result is never below either operand (no wrap-around) |
| AgentRegistryContract.Emitted | agent_registry/lib.rs:29-36 | the event log after n registrations has exactly n `AgentRegistered` events |
| AgentRegistryContract.CountAfter | agent_registry/lib.rs:29-31 | the counter after n registrations on a fresh contract: never more than n, and non-zero once anything was registered |
| AgentRegistryContract.CountAfterClosedForm | agent_registry/lib.rs:29-31 | after n registrations on a fresh contract the count is n if n ≤ u32::MAX, else u32::MAX (saturates, never wraps to 0) |
| AgentRegistryContract.EmittedIds | agent_registry/lib.rs:30-35 | the i-th registration is given (and emits) id i, or u32::MAX once saturated: ids 0, 1, 2, … |
| AgentRegistryContract.IdsDistinctBelowCap | agent_registry/lib.rs:30-31 | below the cap no two registrations get the same id |
| AgentRegistryContract.SaturatedIdsRepeat | agent_registry/lib.rs:31 | every registration from the cap on returns u32::MAX again |
| AgentRegistryContract.AgentRegistry.constructor | agent_registry/lib.rs:20-26 | `new`: count 0, owner is the constructing caller, no events |
| AgentRegistryContract.AgentRegistry.RegisterAgent | agent_registry/lib.rs:28-36 | returns the count before the call; count +1 below u32::MAX and unchanged at u32::MAX; owner unchanged; emits an event with the returned id; name and price affect nothing |
| AgentRegistryContract.AgentRegistry.GetTotalAgents | agent_registry/lib.rs:38-41 | reads the counter without changing state; it equals min(registrations, u32::MAX) |
| AgentRegistryContract.AgentRegistry.GetOwner | agent_registry/lib.rs:43-46 | reads the owner without changing state |
| AgentRegistryContract.ItWorks | agent_registry/lib.rs:53-65 | the unit test: fresh count 0, first id 0, count 1 afterwards |
| JsText.RelativeIndex | frontend/src/components/WalletConnect.jsx:58 | `slice` index resolution: a negative index counts from the end, and the result is clamped into [0, length] |
| JsText.Slice | frontend/src/components/WalletConnect.jsx:58 | `slice(start, end)` is the substring between the resolved indices, or empty when they cross |
| JsText.SliceFrom | frontend/src/components/WalletConnect.jsx:58 | `slice(start)` with the end defaulting to the length: the suffix from `start`, counted from the end when negative, the whole string below `-length`, empty past the end |
| JsText.SliceHead | frontend/src/components/WalletConnect.jsx:58 | `slice(0, n)` is the first min(n, length) characters |
| JsText.SliceTail | frontend/src/components/WalletConnect.jsx:58 | `slice(-n)` for n > 0 is the last min(n, length) characters |
| JsText.LeadingDigits | frontend/src/components/RentModal.jsx:104 | the longest all-digit prefix, which `parseInt` reads |
| JsText.ParseInt | frontend/src/components/RentModal.jsx:104 | `parseInt` is NaN exactly when the string does not start with a digit |
| JsText.Decimal | frontend/src/components/RentModal.jsx:103 | `String(n)` for n below 10^21 (every slider value): non-empty, all digits, no leading zero |
| JsText.DecimalValue | frontend/src/components/RentModal.jsx:103-104 | the digits of `String(n)` denote n |
| JsText.ParseDecimal | frontend/src/components/RentModal.jsx:103-104 | `parseInt(String(n)) === n` for n below 10^21: the slider value survives its string round trip |
| WalletConnectComponent.Message | frontend/src/components/WalletConnect.jsx:20-28 | the two errors thrown by `connectWallet` have their fixed, non-empty messages; a rejection from the bridge shows its own message |
| WalletConnectComponent.SelectAccount | frontend/src/components/WalletConnect.jsx:18-32 | a rejection from `web3Enable` or (once an extension was granted) `web3Accounts` is caught with its message; ExtensionMissing iff no extension; NoAccountsFound iff extensions but no accounts; success with `accounts[0]` iff both lists are non-empty |
| WalletConnectComponent.TruncateAddress | frontend/src/components/WalletConnect.jsx:56-59 | `''` for an absent or empty address; otherwise the first 6 chars, `'...'` and the last 4 chars (JS `slice` semantics for short addresses); for 10+ chars the result has 13 chars and hides exactly the middle |
| WalletConnectComponent.ParentAccount | frontend/src/App.js:50-52 | the parent's `account` after the notices: `null` until an account notice arrives, and otherwise a value it was told |
| WalletConnectComponent.ParentBalance | frontend/src/App.js:54-56 | the parent's `balance` after the notices: `'0'` until a balance notice arrives, and otherwise a value it was told |
| WalletConnectComponent.ParentAfterPair | frontend/src/components/WalletConnect.jsx:32-39 | after an account notice and a balance notice, the parent holds those two values, whatever came before |
| WalletConnectComponent.WalletConnect.constructor | frontend/src/components/WalletConnect.jsx:4-7 | initial state: no account, balance `'0'`, not connecting, no error, parent not notified |
| WalletConnectComponent.WalletConnect.BeginConnect | frontend/src/components/WalletConnect.jsx:9-11 | the click on the enabled connect button sets `isConnecting` and clears the error |
| WalletConnectComponent.WalletConnect.FinishConnect | frontend/src/components/WalletConnect.jsx:13-46 | success: account = `accounts[0]`, balance `'12.5 DOT'`, error null, both reported to the parent; failure (either thrown error or a bridge rejection): the error's message, account, balance and parent untouched; `isConnecting` false either way; the invariant (parent mirrors component) is kept |
| WalletConnectComponent.WalletConnect.ConnectWallet | frontend/src/components/WalletConnect.jsx:9-47 | the whole `connectWallet` from the disconnected state, with the same outcomes, ending not connecting |
| WalletConnectComponent.WalletConnect.DisconnectWallet | frontend/src/components/WalletConnect.jsx:49-54 | always ends with no account and balance `'0'`, and tells the parent `null` and `'0'`; account and balance do not depend on the prior state (idempotent), while `error` and `isConnecting` are carried over, and no error is left when disconnecting from the connected state |
| WalletConnectComponent.WalletConnect.View | frontend/src/components/WalletConnect.jsx:61-113 | connected view iff an account is set, showing the balance and a shortened address of at most 13 chars; otherwise the error (none for an empty message, which is falsy), and a connect button enabled iff not connecting |
| RentModalComponent.RangeValue | frontend/src/components/RentModal.jsx:99-104 | the slider only yields values in [1, 30]; in-range positions are kept as they are |
| RentModalComponent.AccountLine | frontend/src/components/RentModal.jsx:135 | first 16 chars, `...`, last 8 chars of the address; only `...` without an account |
| RentModalComponent.RentModal.constructor | frontend/src/components/RentModal.jsx:3-6 | initial state: duration 7, not renting, not succeeded, no close requested |
| RentModalComponent.RentModal.TotalCost | frontend/src/components/RentModal.jsx:8 | price × duration lies between one day's and thirty days' price, and is zero only for a free agent |
| RentModalComponent.RentModal.RentEnabled | frontend/src/components/RentModal.jsx:148-150 | the Rent button can be pressed iff the form is shown and not busy |
| RentModalComponent.RentModal.CloseEnabled | frontend/src/components/RentModal.jsx:53-147 | Cancel can be pressed iff the form is shown and not busy; the × icon iff the form is shown; the backdrop always |
| RentModalComponent.RentModal.RentingLocksForm | frontend/src/components/RentModal.jsx:141-150 | while renting, neither Rent nor Cancel is enabled; the × icon and the backdrop still are |
| RentModalComponent.RentModal.View | frontend/src/components/RentModal.jsx:35-173 | success view iff `success`, naming the agent and the current duration; otherwise the form, with the duration, the total cost and a busy flag that equals `isRenting` |
| RentModalComponent.RentModal.SelectPreset | frontend/src/components/RentModal.jsx:83-86 | a preset from {1, 3, 7, 30} sets the duration to exactly that value; nothing else changes |
| RentModalComponent.RentModal.SlideTo | frontend/src/components/RentModal.jsx:99-104 | the slider sets the duration to the clamped position, after the string round trip; duration stays in [1, 30] |
| RentModalComponent.RentModal.BeginRent | frontend/src/components/RentModal.jsx:10-11 | the enabled Rent button moves editing → renting |
| RentModalComponent.RentModal.SettleRent | frontend/src/components/RentModal.jsx:13-32 | completed: success and the auto-close timer pending; failed: an alert and back to editing; never renting afterwards; duration unchanged |
| RentModalComponent.RentModal.HandleRent | frontend/src/components/RentModal.jsx:10-33 | ends not renting, with success iff the transaction completed; the duration is unchanged, so the success view reports the chosen days; a completed rental leaves the auto-close timer pending and raises no alert, a failed one raises the failure alert and returns to the enabled form |
| RentModalComponent.RentModal.AutoClose | frontend/src/components/RentModal.jsx:22-25 | the timer after success calls `onClose` once |
| RentModalComponent.RentModal.Close | frontend/src/components/RentModal.jsx:53-147 | an enabled close control calls `onClose` once, and nothing else changes |
| AgentCardComponent.AgentCard.constructor | frontend/src/components/AgentCard.jsx:4-5 | `showModal` starts false |
| AgentCardComponent.AgentCard.HandleRentClick | frontend/src/components/AgentCard.jsx:7-13 | no account: an alert, and `showModal` unchanged; with an account: `showModal` true; the modal is never opened without an account |
| AgentCardComponent.AgentCard.CloseModal | frontend/src/components/AgentCard.jsx:81 | the modal's close callback sets `showModal` false |
| AgentCardComponent.AgentCard.ReceiveAccount | frontend/src/components/AgentCard.jsx:4 | a new `account` prop leaves `showModal` unchanged |
| AgentCardComponent.AgentCard.Modal | frontend/src/components/AgentCard.jsx:77-83 | the modal is present iff `showModal`, and it gets the card's own agent and account |

## Left out

- JsText.ParseInt: only handles strings that start with their digits. `parseInt`'s skipping of leading whitespace, its sign and its `0x` prefix are not modelled, because the range input's value never contains them.
- JavaScript strings are sequences of UTF-16 code units. They are modelled as sequences of characters. Addresses are ASCII, so `slice` behaves the same.
- The dynamic `import('@polkadot/extension-dapp')` and the `web3Enable('PolkaAgent')`/`web3Accounts()` calls. What each resolved to, or the message it rejected with, is an input of `FinishConnect`. A failure of the import itself is not modelled. A rejection whose value has no `message` (which would leave `error` undefined) is not modelled.
- JavaScript numbers are doubles; the model uses unbounded integers. `JsText.Decimal` and `JsText.ParseDecimal` hold as JavaScript only below 10^21, where `String` stops using exponent notation, and for integers exact as doubles (up to 2^53). The slider's values 1..30 are far inside that range. `RentModal.TotalCost` is `agent.price * duration` without rounding, which is exact for the catalog's whole-number prices.
- `Self::env().caller()` is a constructor parameter, and `emit_event` appends to a ghost log. The ink! storage layout, gas and the rest of the contract environment are not modelled.
- Time and asynchrony: the 2000 ms simulated transaction, the 3000 ms auto-close timer, and the promise scheduling. Each is a discrete step: `BeginConnect`/`FinishConnect`, `BeginRent`/`SettleRent`, `AutoClose`. The model does not capture these interleavings:
  - a timer firing after the modal has unmounted;
  - React's batching of state updates within one step.
- Rendering and presentation: markup, styles, spinners, and the display-only agent fields (icon, description, rating, rentals, creator, features). `alert` calls are kept as a message log. `console.error` is not modelled.
- `App.js` and `AgentList.jsx`: the hard-coded catalog, its statistics, and the composition of cards. `App`'s two state setters appear only as the parent that `ParentAccount`/`ParentBalance` describe.
- `ai_agents/yield_optimizer.py` is not part of this model. It is a console demo over floating-point values.
