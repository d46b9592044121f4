# Wallet registry and Zcash adapter, modelled in Dafny

This project models two parts of a multi-coin wallet application.

**The wallet registry** (`WalletManager`) holds the list of wallets. Each wallet is a coin
paired with the adapter that synchronises it. `initWallets` rebuilds the list from the
requested coins:

- A coin the old list already holds keeps that very wallet.
- Any other coin gets a new adapter from the external adapter factory.
- A coin the factory refuses is left out.

The new list is published once. Then only the adapters built in this call are started.
`clearWallets` calls `clear()` on every held adapter and empties the list.

**The Zcash adapter** (`ZСashAdapter`) covers these parts:

- its synchronisation state machine (`statusUpdated`, `sync`, `start`, `refresh`);
- block-height and pending-transaction bookkeeping, and the change events it emits;
- the zatoshi/ZEC amount arithmetic: a fixed scale of 10^8 and a fee of 0.0001 ZEC;
- address validation;
- how a transaction record is built;
- the key check and amount conversion of `sendSingle`;
- construction: the account check and the initial state.

Files:

- `wrappers.dfy`: `Option`, `Result`, `Outcome`.
- `wallet_manager.dfy`: module `Wallets`. It holds the pure specification `Reconcile` of a rebuild, its lemmas, and the class `WalletManager`, whose methods are proved against `Reconcile`.
- `zcash_adapter.dfy`: module `ZcashAdapter`. It holds the pure amount, record and validation functions with their lemmas, and the class `ZcashAdapter`, whose methods update `state`, `lastBlockHeight` and the emitted-event log.

Modelling choices:

- An adapter is known only by its identity, `AdapterId`.
- The factory's answer for a coin is the parameter `builds: Coin -> bool`: true when it returns an adapter, false when it returns nil. The `authData` it is also given is folded into that answer.
- An adapter the factory returns is a new object. It gets the next identity the registry has never handed out (`nextAdapterId`, which stands for allocation).
- Published snapshots and `start()` and `clear()` calls are recorded in a ghost event log.
- Engine queries and outcomes are parameters. These cover status, progress percent, balances, the address predicates, the receive address, spending keys, latest height, the transaction pool's deltas, a failed `start()` and the send completion.
- Events emitted through the Rx subjects are recorded in the adapter's `events` field.
- `AdapterState` equality is `SameState`: the same tag and, while syncing, the same progress and block date. Two `notSynced` states are equal whatever their errors, since a Swift `Error` has no equality of its own. Swift's `==` for `AdapterState` is not part of this model, and `SameState` is the assumed definition. A consequence: a "stopped" status right after a "disconnected" one keeps the `noConnection` error and emits nothing (`DisconnectThenStop`).
- Clearing the registry is intended to publish an empty snapshot, but `WalletManager.swift:38-43` publishes nothing. The model follows the code: `ClearWallets` publishes nothing, and `ClearEffects` proves it.

## Model

| member | source | states |
|---|---|---|
| `Wallets.FirstWithCoin` | BankWallet/BankWallet/Core/Managers/WalletManager.swift:20 | The result is nothing exactly when no wallet has the coin. Otherwise it is a wallet with that coin, and no earlier wallet has the coin. |
| `Wallets.Reconcile` | BankWallet/BankWallet/Core/Managers/WalletManager.swift:19-31 | The rebuilt list is never longer than `coins`. Every wallet's coin was requested. The wallets built in this call are in the list. The i-th built one has identity `nextId + i`, so they are distinct and new. |
| `Wallets.ReconcileProvenance` | BankWallet/BankWallet/Core/Managers/WalletManager.swift:19-31 | Each wallet of the new list either is the first old wallet for its coin, unchanged, or was built in this call. A built wallet is only for a coin the old list lacks and the factory accepts. |
| `Wallets.ReconcileCoverage` | BankWallet/BankWallet/Core/Managers/WalletManager.swift:19-31 | A coin is in the new list iff it was requested and either the old list holds it or the factory builds an adapter for it. So a coin the factory refuses is absent, and unrequested coins are dropped. |
| `Wallets.ReconcileReuses` | BankWallet/BankWallet/Core/Managers/WalletManager.swift:20-22 | For a requested coin the old list holds, the first old wallet is in the new list and is not among the built ones. Its adapter is not rebuilt. |
| `Wallets.ReconcileFreshIds` | BankWallet/BankWallet/Core/Managers/WalletManager.swift:24-29 | After a rebuild, every adapter identity is below the new counter. No built adapter has the identity of an adapter the old list held. |
| `Wallets.ReconcileFollowsCoins` | BankWallet/BankWallet/Core/Managers/WalletManager.swift:19-31 | The new list is in request order: its wallets map to strictly increasing positions of `coins` with the same coin. A position is among them iff its coin is held by the old list or built by the factory, so every kept position yields exactly one wallet, duplicates included. |
| `Wallets.ReconcileOnePerCoin` | BankWallet/BankWallet/Core/Managers/WalletManager.swift:19-31 | If `coins` has no duplicates, the new list holds at most one wallet per coin. |
| `Wallets.DuplicateCoinBuildsTwice` | BankWallet/BankWallet/Core/Managers/WalletManager.swift:19-31 | Lookups go to the old list. So the same coin requested twice, with no old wallet, yields two wallets over two new adapters. |
| `Wallets.ReplaceExample` | BankWallet/BankWallet/Core/Managers/WalletManager.swift:16-36 | Start with wallets for X and Y, and request Y and Z. The result keeps Y's wallet unchanged, builds exactly one wallet, for Z, and drops X. |
| `Wallets.ReconcileBuildsInOrder` | BankWallet/BankWallet/Core/Managers/WalletManager.swift:24-29 | Each request position the factory serves gets its own new adapter. Along the new list, the built wallets carry strictly increasing identities. With `ReconcileProvenance` and the numbering of `created`, `created` is exactly the built wallets of the new list, in request order, so a coin requested twice is built twice. |
| `Wallets.RebuildEffects` | BankWallet/BankWallet/Core/Managers/WalletManager.swift:33-35 | A rebuild's events publish exactly one snapshot, the new list. They start exactly the built adapters, each once, in creation order. |
| `Wallets.ClearEffects` | BankWallet/BankWallet/Core/Managers/WalletManager.swift:38-43 | Clearing publishes no snapshot and starts no adapter. |
| `Wallets.WalletManager.constructor` | BankWallet/BankWallet/Core/Managers/WalletManager.swift:6-11 | A new registry holds no wallets and has emitted nothing. |
| `Wallets.WalletManager.PlanFor` | BankWallet/BankWallet/Core/Managers/WalletManager.swift:17-31 | The mapping loop over `coins` computes exactly `Reconcile` of the current list and changes nothing. |
| `Wallets.WalletManager.InitWallets` | BankWallet/BankWallet/Core/Managers/WalletManager.swift:16-36 | The new list is `Reconcile` of the old one. The log gains one published snapshot, the new list, followed by one start per built adapter in creation order. Nothing is stopped or cleared. The invariant that all identities are below the counter is kept. |
| `Wallets.WalletManager.StartAll` | BankWallet/BankWallet/Core/Managers/WalletManager.swift:35 | `start()` is called on each given adapter once, in order. |
| `Wallets.WalletManager.ClearWallets` | BankWallet/BankWallet/Core/Managers/WalletManager.swift:38-43 | `clear()` is called once per entry of the old list, in list order (an adapter listed twice is cleared twice). The list becomes empty and nothing is published. |
| `ZcashAdapter.ToCoins` | UnstoppableWallet/UnstoppableWallet/Core/Adapters/ZCashAdapter.swift:184 | The ZEC amount times 10^8 is the zatoshi count exactly. Its sign follows the count. |
| `ZcashAdapter.ToZatoshi` | UnstoppableWallet/UnstoppableWallet/Core/Adapters/ZCashAdapter.swift:318 | The send amount is amount·10^8 cut toward zero. The result is the integer within 1 of the scaled amount, on the zero side. |
| `ZcashAdapter.FeeInZatoshi` | UnstoppableWallet/UnstoppableWallet/Core/Adapters/ZCashAdapter.swift:9-10 | The 0.0001 ZEC fee is 10_000 zatoshi in both directions. |
| `ZcashAdapter.ToZatoshiInvertsToCoins` | UnstoppableWallet/UnstoppableWallet/Core/Adapters/ZCashAdapter.swift:318 | Converting a zatoshi count to ZEC and back gives the same count. |
| `ZcashAdapter.SendAmountExamples` | UnstoppableWallet/UnstoppableWallet/Core/Adapters/ZCashAdapter.swift:318 | 1.5 ZEC sends 150_000_000 zatoshi. 1.500000005 ZEC also sends 150_000_000: the amount is cut, not rounded. |
| `ZcashAdapter.Balance` | UnstoppableWallet/UnstoppableWallet/Core/Adapters/ZCashAdapter.swift:276-280 | The displayed balance times 10^8 is exactly the engine's zatoshi balance, and it converts back to that count. |
| `ZcashAdapter.BalanceLocked` | UnstoppableWallet/UnstoppableWallet/Core/Adapters/ZCashAdapter.swift:282-288 | The result is nothing exactly when the balance equals the verified balance. Otherwise it is a non-zero value equal to (balance − verified)/10^8. |
| `ZcashAdapter.BalanceLockedExamples` | UnstoppableWallet/UnstoppableWallet/Core/Adapters/ZCashAdapter.swift:282-288 | 150_000_000 against 150_000_000 verified gives nothing. Against 100_000_000 verified it gives 0.5. |
| `ZcashAdapter.AvailableBalance` | UnstoppableWallet/UnstoppableWallet/Core/Adapters/ZCashAdapter.swift:303-305 | The result is never negative, and it is zero iff the verified balance is at most the fee. Otherwise it is (verified − 10_000)/10^8. For a non-negative verified balance, it never exceeds the verified balance. |
| `ZcashAdapter.Validate` | UnstoppableWallet/UnstoppableWallet/Core/Adapters/ZCashAdapter.swift:307-311 | An address passes iff the engine accepts it as shielded or as transparent. Otherwise the error is `wrongParameters`. |
| `ZcashAdapter.RecordFrom` | UnstoppableWallet/UnstoppableWallet/Core/Adapters/ZCashAdapter.swift:170-194 | A record is outgoing iff the transaction names a recipient other than the receive address. Its uid and hash are the transaction hash. Its amount is value/10^8 and converts back to the value. The fee is 0.0001, the threshold is 10, and height, recipient, date, index and failure are carried over. There is no sender and no conflicting hash, the inner index is 0 and the raw transaction is not shown. |
| `ZcashAdapter.RecordsFrom` | UnstoppableWallet/UnstoppableWallet/Core/Adapters/ZCashAdapter.swift:117-119 | There is one record per transaction, in order, each built by `RecordFrom`. |
| `ZcashAdapter.RecordUidsDistinct` | UnstoppableWallet/UnstoppableWallet/Core/Adapters/ZCashAdapter.swift:177 | Transactions with distinct hashes give records with distinct uids. |
| `ZcashAdapter.StateFor` | UnstoppableWallet/UnstoppableWallet/Core/Adapters/ZCashAdapter.swift:86-91 | Disconnected gives not-synced with no connection, and stopped gives not-synced with an unknown error. Synced gives synced. Syncing gives syncing at the given percent with no block date. |
| `ZcashAdapter.SameState` | UnstoppableWallet/UnstoppableWallet/Core/Adapters/ZCashAdapter.swift:93 | The assumed definition of `AdapterState`'s `==`, whose Swift definition is not part of this model. Equal states are the same. Two states are the same only if they are equal or the first is not-synced, since errors carry no equality. |
| `ZcashAdapter.SameStateIsEquivalence` | UnstoppableWallet/UnstoppableWallet/Core/Adapters/ZCashAdapter.swift:93 | The state equality is an equivalence that holds of equal states. It holds iff both states are synced, both are not-synced, or both are the same syncing state. |
| `ZcashAdapter.StateForDistinguishes` | UnstoppableWallet/UnstoppableWallet/Core/Adapters/ZCashAdapter.swift:86-93 | Two notifications ask for the same state iff both are disconnected-or-stopped, or they have the same status and, while syncing, the same progress. This is what the change check compares. |
| `ZcashAdapter.CheckAccount` | UnstoppableWallet/UnstoppableWallet/Core/Adapters/ZCashAdapter.swift:28-30 | The check succeeds iff the account is a mnemonic, and yields its words. Otherwise the error is `unsupportedAccount`. |
| `ZcashAdapter.PendingEvents` | UnstoppableWallet/UnstoppableWallet/Core/Adapters/ZCashAdapter.swift:139-143 | Records are emitted iff the pool's delta is not empty, and then exactly one batch holds the delta's records. |
| `ZcashAdapter.ZcashAdapter.constructor` | UnstoppableWallet/UnstoppableWallet/Core/Adapters/ZCashAdapter.swift:49-56 | The initial state is syncing at 0% with no block date. The last height is the one the engine reports, or nothing. Nothing has been emitted. |
| `ZcashAdapter.ZcashAdapter.Create` | UnstoppableWallet/UnstoppableWallet/Core/Adapters/ZCashAdapter.swift:27-59 | A non-mnemonic account fails with `unsupportedAccount`. An engine setup error is passed on. Otherwise the result is a new adapter in the initial state. |
| `ZcashAdapter.ZcashAdapter.StatusUpdated` | UnstoppableWallet/UnstoppableWallet/Core/Adapters/ZCashAdapter.swift:82-99 | If `StateFor(status, progress)` is the same state as the current one, nothing changes and nothing is emitted. Otherwise it replaces the state and one state event is emitted. |
| `ZcashAdapter.RepeatedStatusIsSilent` | UnstoppableWallet/UnstoppableWallet/Core/Adapters/ZCashAdapter.swift:65-98 | The same notification delivered twice (the disconnected notification is registered twice) has exactly the effect of one delivery: if the candidate state is the same as the old one, nothing changes; otherwise the state becomes the candidate and one state event is emitted. The second delivery changes nothing. |
| `ZcashAdapter.DisconnectThenStop` | UnstoppableWallet/UnstoppableWallet/Core/Adapters/ZCashAdapter.swift:86-98 | Disconnected then stopped leaves the state not-synced with `noConnection` (or the earlier not-synced state) and emits at most one state event. |
| `ZcashAdapter.ZcashAdapter.Sync` | UnstoppableWallet/UnstoppableWallet/Core/Adapters/ZCashAdapter.swift:218-225 | If the engine's start fails, the state becomes not-synced with that error and a state event is always emitted, with no equality check. Otherwise nothing changes. |
| `ZcashAdapter.ZcashAdapter.Start` | UnstoppableWallet/UnstoppableWallet/Core/Adapters/ZCashAdapter.swift:206-208 | Same effect as `sync`. |
| `ZcashAdapter.ZcashAdapter.Refresh` | UnstoppableWallet/UnstoppableWallet/Core/Adapters/ZCashAdapter.swift:214-216 | Same effect as `sync`. |
| `ZcashAdapter.ZcashAdapter.BlockHeightUpdated` | UnstoppableWallet/UnstoppableWallet/Core/Adapters/ZCashAdapter.swift:124-134 | A reported height replaces the last height and emits a last-block event. A balance event follows in every case. Without a height, the last height is unchanged. |
| `ZcashAdapter.ZcashAdapter.TransactionsUpdated` | UnstoppableWallet/UnstoppableWallet/Core/Adapters/ZCashAdapter.swift:101-122 | When the notification carries confirmed transactions, the pool's delta is emitted as records, even when it is empty. Otherwise nothing is emitted. |
| `ZcashAdapter.ZcashAdapter.SyncPending` | UnstoppableWallet/UnstoppableWallet/Core/Adapters/ZCashAdapter.swift:136-144 | The log gains `PendingEvents` of the pool's delta: one record batch iff the delta is non-empty. |
| `ZcashAdapter.ZcashAdapter.SendSingle` | UnstoppableWallet/UnstoppableWallet/Core/Adapters/ZCashAdapter.swift:313-334 | Without a spending key, the single outcome is `unsupportedAccount`, nothing is sent and nothing is emitted. Otherwise the engine is asked to send `ToZatoshi(amount)` with the first key. Pending transactions are synced on success and on failure, and the engine's outcome is the one outcome. |
| `ZcashAdapter.ZcashAdapter.LastBlock` | UnstoppableWallet/UnstoppableWallet/Core/Adapters/ZCashAdapter.swift:240-242 | The info is present iff a last height is known. It then carries that height and no timestamp. |

## Left out

- ToZatoshi: does not model `int64Value` overflow or `Decimal`'s 38-digit precision. Amounts are exact; the conversion is stated as truncation toward zero.
- `stop()` only stops the engine and changes no adapter state, so it is not modelled.
- The transaction pool (`ZCashTransactionPool`) is not part of this model. Its store, its `sync(transactions:)` merge and its `transactionsSingle(from:limit:)` paging are opaque. The deltas the pool returns are parameters, and a page becomes records as in `RecordsFrom`.
- Engine setup is left out. This covers the `Initializer` and `SDKSynchronizer` construction, the endpoint and birthday constants, and seed and key derivation. Its result, or the error it throws, is the parameter `setup` of `Create`.
- Non-mnemonic account kinds are collapsed into one case, `NonMnemonic`.
- The database and parameter URL helpers, `deinit`, `debugInfo`, the `rawTransaction` stub, the empty `clear(except:)`, the logger and all printing are left out. They are plumbing or diagnostics.
- Notification observer registration is left out. The same "disconnected" notification is registered twice, so `statusUpdated` can run twice for one event. `StatusUpdated`'s change check makes the second run silent.
- The conversion of the engine's floating-point progress to a whole percent is left out. The percent is an integer input.
- RxSwift is replaced:
  - Subjects become the event log.
  - A `Single` becomes a returned outcome.
  - The model does not capture that the send starts only on subscription.
  - The model does not capture that a released adapter (the weak `self`) skips the pending sync.
- `lockInfo` of a transaction record is always nil for this adapter and is not represented.
- Concurrency of notification delivery and of lifecycle calls is not modelled.
- `TransactionsViewController.swift` (UI table updates) and `ManageWalletsRouter.swift` (module assembly) are user interface code and are not part of this model.
