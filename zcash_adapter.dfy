/**
 * The Zcash adapter: the per-coin facade over the Zcash light-client engine.
 *
 * Amounts: the engine counts zatoshi (integers); the application shows ZEC, a
 * zatoshi count divided by the fixed scale 10^8, as an exact decimal (`real` here).
 * The engine itself (its status, progress, balances, address predicates, address,
 * keys, the transaction pool's deltas and the outcome of a send) is outside the
 * model: what it answers is passed in as parameters.
 */
module ZcashAdapter {
  import opened Wrappers

  /** Zatoshi per ZEC. */
  const CoinRate: int := 100_000_000
  /** The flat fee the adapter reports and reserves, in ZEC. */
  const Fee: real := 0.0001
  /** The same fee in zatoshi. */
  const FeeZatoshi: int := 10_000
  /** Confirmations after which a transaction record counts as confirmed. */
  const ConfirmationsThreshold: int := 10

  // ---------------------------------------------------------------- amounts

  /** A zatoshi count as ZEC: `Decimal(zatoshi) / coinRate`, exactly. */
  function ToCoins(zatoshi: int): (r: real)
    ensures r * CoinRate as real == zatoshi as real
    ensures r >= 0.0 <==> zatoshi >= 0
  {
    zatoshi as real / CoinRate as real
  }

  /** The send amount in zatoshi: `amount * coinRate`, cut to an integer toward zero. */
  function ToZatoshi(amount: real): (r: int)
    ensures amount >= 0.0 ==> 0 <= r && r as real <= amount * CoinRate as real < r as real + 1.0
    ensures amount < 0.0 ==> r <= 0 && r as real - 1.0 < amount * CoinRate as real <= r as real
  {
    var scaled := amount * CoinRate as real;
    if scaled >= 0.0 then scaled.Floor else -((-scaled).Floor)
  }

  /** The fee constants agree: 0.0001 ZEC is 10_000 zatoshi. */
  lemma FeeInZatoshi()
    ensures ToCoins(FeeZatoshi) == Fee && ToZatoshi(Fee) == FeeZatoshi
  {
  }

  /** Converting a zatoshi count to ZEC and back for sending gives the same count. */
  lemma ToZatoshiInvertsToCoins(zatoshi: int)
    ensures ToZatoshi(ToCoins(zatoshi)) == zatoshi
  {
    var scaled := ToCoins(zatoshi) * CoinRate as real;
    assert scaled == zatoshi as real;
  }

  /** Sending 1.5 ZEC sends 150_000_000 zatoshi; a ninth decimal is cut, not rounded. */
  lemma SendAmountExamples()
    ensures ToZatoshi(1.5) == 150_000_000
    ensures ToZatoshi(1.500000005) == 150_000_000
  {
    assert 1.5 * CoinRate as real == 150_000_000.0;
    assert 1.500000005 * CoinRate as real == 150_000_000.5;
  }

  /** `balance`: the engine's total balance in ZEC. */
  function Balance(balanceZatoshi: int): (r: real)
    ensures r * CoinRate as real == balanceZatoshi as real
    ensures ToZatoshi(r) == balanceZatoshi
  {
    ToZatoshiInvertsToCoins(balanceZatoshi);
    ToCoins(balanceZatoshi)
  }

  /** `balanceLocked`: the part of the balance not yet verified, or nothing when all
      of it is verified (nothing, not zero). */
  function BalanceLocked(balanceZatoshi: int, verifiedZatoshi: int): (r: Option<real>)
    ensures r.None? <==> balanceZatoshi == verifiedZatoshi
    ensures r.Some? ==> r.value * CoinRate as real == (balanceZatoshi - verifiedZatoshi) as real
    ensures r.Some? ==> r.value != 0.0
  {
    var diff := balanceZatoshi - verifiedZatoshi;
    if diff != 0 then Some(ToCoins(diff)) else None
  }

  /** A balance of 1.5 ZEC is locked by nothing when fully verified and by 0.5 ZEC
      when one ZEC of it is verified. */
  lemma BalanceLockedExamples()
    ensures BalanceLocked(150_000_000, 150_000_000) == None
    ensures BalanceLocked(150_000_000, 100_000_000) == Some(0.5)
  {
  }

  /** `availableBalance`: the verified balance less the fee, never below zero. */
  function AvailableBalance(verifiedZatoshi: int): (r: real)
    ensures r >= 0.0
    ensures r == 0.0 <==> verifiedZatoshi <= FeeZatoshi
    ensures r > 0.0 ==> r * CoinRate as real == (verifiedZatoshi - FeeZatoshi) as real
    ensures verifiedZatoshi >= 0 ==> r <= ToCoins(verifiedZatoshi)
  {
    var spendable := ToCoins(verifiedZatoshi) - Fee;
    if spendable > 0.0 then spendable else 0.0
  }

  // ---------------------------------------------------------------- addresses

  datatype AdapterError = UnsupportedAccount | WrongParameters | EngineFailure(code: int)

  /** `validate(address:)`: accepted when the engine recognises the address as a
      shielded or as a transparent address; otherwise `wrongParameters`. */
  function Validate(address: string, isValidShielded: string -> bool, isValidTransparent: string -> bool)
    : (r: Outcome<AdapterError>)
    ensures r.Pass? <==> isValidShielded(address) || isValidTransparent(address)
    ensures r.Fail? ==> r.error == WrongParameters
  {
    if isValidShielded(address) || isValidTransparent(address) then Pass else Fail(WrongParameters)
  }

  // ---------------------------------------------------------------- records

  /** A transaction as the adapter's pool hands it out (confirmed or pending). */
  datatype ZcashTransaction = ZcashTransaction(
    transactionHash: string,
    transactionIndex: int,
    toAddress: Option<string>,
    minedHeight: Option<int>,
    value: int,          // zatoshi
    timestamp: real,     // seconds since 1970
    failed: bool)

  datatype TransactionType = Incoming | Outgoing

  /** The application's view of a transaction. */
  datatype TransactionRecord = TransactionRecord(
    uid: string,
    transactionHash: string,
    transactionIndex: int,
    interTransactionIndex: int,
    kind: TransactionType,
    blockHeight: Option<int>,
    confirmationsThreshold: int,
    amount: real,        // ZEC
    fee: real,           // ZEC
    date: real,          // seconds since 1970
    failed: bool,
    from: Option<string>,
    to: Option<string>,
    conflictingHash: Option<string>,
    showRawTransaction: bool)

  /** `transactionRecord(fromTransaction:)`: a transaction is outgoing exactly when it
      names a recipient other than this wallet's own address. */
  function RecordFrom(tx: ZcashTransaction, receiveAddress: string): (r: TransactionRecord)
    ensures r.kind == Outgoing <==> tx.toAddress.Some? && tx.toAddress.value != receiveAddress
    ensures r.uid == tx.transactionHash && r.transactionHash == tx.transactionHash
    ensures r.amount * CoinRate as real == tx.value as real && ToZatoshi(r.amount) == tx.value
    ensures r.fee == Fee && r.confirmationsThreshold == ConfirmationsThreshold
    ensures r.blockHeight == tx.minedHeight && r.to == tx.toAddress && r.from == None
    ensures r.date == tx.timestamp && r.failed == tx.failed && r.transactionIndex == tx.transactionIndex
    ensures r.interTransactionIndex == 0 && r.conflictingHash == None && !r.showRawTransaction
  {
    var incoming := !(tx.toAddress.Some? && tx.toAddress.value != receiveAddress);
    ToZatoshiInvertsToCoins(tx.value);
    TransactionRecord(
      tx.transactionHash, tx.transactionHash, tx.transactionIndex, 0,
      if incoming then Incoming else Outgoing,
      tx.minedHeight, ConfirmationsThreshold, ToCoins(tx.value), Fee, tx.timestamp,
      tx.failed, None, tx.toAddress, None, false)
  }

  /** Records for a list of transactions: one per transaction, in the same order. */
  function RecordsFrom(txs: seq<ZcashTransaction>, receiveAddress: string): (r: seq<TransactionRecord>)
    ensures |r| == |txs|
    ensures forall i :: 0 <= i < |txs| ==> r[i] == RecordFrom(txs[i], receiveAddress)
  {
    if txs == [] then [] else [RecordFrom(txs[0], receiveAddress)] + RecordsFrom(txs[1..], receiveAddress)
  }

  /** Record uids are the transaction hashes, so transactions with distinct hashes give
      records with distinct uids. */
  lemma {:induction false} RecordUidsDistinct(txs: seq<ZcashTransaction>, receiveAddress: string)
    requires forall a, b :: 0 <= a < b < |txs| ==> txs[a].transactionHash != txs[b].transactionHash
    ensures var rs := RecordsFrom(txs, receiveAddress);
      forall a, b :: 0 <= a < b < |rs| ==> rs[a].uid != rs[b].uid
  {
    var rs := RecordsFrom(txs, receiveAddress);
    forall a, b | 0 <= a < b < |rs| ensures rs[a].uid != rs[b].uid {
      assert rs[a].uid == txs[a].transactionHash && rs[b].uid == txs[b].transactionHash;
    }
  }

  // ---------------------------------------------------------------- sync state

  /** What went wrong while not synced. `EngineError` is an error the engine threw. */
  datatype SyncError = NoConnection | UnknownError | EngineError(code: int)

  /** The adapter's state. Which states count as equal is `SameState`, not `==`. */
  datatype AdapterState =
    | Synced
    | Syncing(progress: int, lastBlockDate: Option<real>)
    | NotSynced(error: SyncError)

  /** The engine's status as the synchronizer reports it. */
  datatype EngineStatus = Disconnected | Stopped | EngineSynced | EngineSyncing

  /** The state a status notification asks for; `progressPercent` is the engine's
      progress already scaled to whole percent. */
  function StateFor(status: EngineStatus, progressPercent: int): (r: AdapterState)
    ensures r.NotSynced? <==> status == Disconnected || status == Stopped
    ensures r.NotSynced? ==> r.error == (if status == Disconnected then NoConnection else UnknownError)
    ensures r.Synced? <==> status == EngineSynced
    ensures r.Syncing? <==> status == EngineSyncing
    ensures r.Syncing? ==> r.progress == progressPercent && r.lastBlockDate == None
  {
    match status
    case Disconnected => NotSynced(NoConnection)
    case Stopped => NotSynced(UnknownError)
    case EngineSynced => Synced
    case EngineSyncing => Syncing(progressPercent, None)
  }

  /** The adapter state's equality: same tag and, while syncing, the same progress and
      block date. Two not-synced states are equal whatever their errors, since an error
      has no equality of its own. */
  predicate SameState(a: AdapterState, b: AdapterState)
    ensures a == b ==> SameState(a, b)
    ensures SameState(a, b) ==> a.NotSynced? || a == b
  {
    match (a, b)
    case (Synced, Synced) => true
    case (Syncing(p1, d1), Syncing(p2, d2)) => p1 == p2 && d1 == d2
    case (NotSynced(_), NotSynced(_)) => true
    case _ => false
  }

  /** `SameState` is an equivalence, and structurally equal states are the same. */
  lemma SameStateIsEquivalence(a: AdapterState, b: AdapterState, c: AdapterState)
    ensures a == b ==> SameState(a, b)
    ensures SameState(a, b) ==> SameState(b, a)
    ensures SameState(a, b) && SameState(b, c) ==> SameState(a, c)
    ensures SameState(a, b) <==> (a.Synced? && b.Synced?) || (a.NotSynced? && b.NotSynced?) || (a.Syncing? && a == b)
  {
  }

  /** Two notifications ask for the same state exactly when both are disconnected-or-
      stopped, or they carry the same status and, while syncing, the same progress. */
  lemma StateForDistinguishes(s1: EngineStatus, p1: int, s2: EngineStatus, p2: int)
    ensures SameState(StateFor(s1, p1), StateFor(s2, p2))
        <==> (|| ((s1 == Disconnected || s1 == Stopped) && (s2 == Disconnected || s2 == Stopped))
              || (s1 == s2 && (s1 == EngineSyncing ==> p1 == p2)))
  {
  }

  // ---------------------------------------------------------------- construction

  /** The kind of account a wallet holds; only a mnemonic account can back this adapter. */
  datatype AccountType = Mnemonic(words: seq<string>, salt: string) | NonMnemonic

  /** What setting up the engine for the account yields: the spending keys derived from
      the seed, the address of account 0 and the latest height if the engine knows one. */
  datatype EngineSetup = EngineSetup(spendingKeys: seq<string>, receiveAddress: string, latestHeight: Option<int>)

  /** The account check of construction: the mnemonic's words, or `unsupportedAccount`. */
  function CheckAccount(account: AccountType): (r: Result<seq<string>, AdapterError>)
    ensures r.Success? <==> account.Mnemonic?
    ensures r.Success? ==> r.value == account.words
    ensures r.Failure? ==> r.error == UnsupportedAccount
  {
    match account
    case Mnemonic(words, _) => Success(words)
    case NonMnemonic => Failure(UnsupportedAccount)
  }

  datatype LastBlockInfo = LastBlockInfo(height: int, timestamp: Option<real>)

  /** Change notifications the adapter emits, in order. */
  datatype AdapterEvent =
    | StateUpdated
    | BalanceUpdated
    | LastBlockUpdated
    | RecordsUpdated(records: seq<TransactionRecord>)

  /** What the engine is asked to send. */
  datatype SendRequest = SendRequest(spendingKey: string, zatoshi: int, toAddress: string, memo: Option<string>)

  /** The events `syncPending` emits for the pool's delta: one batch of records, or
      nothing when the delta is empty. */
  function PendingEvents(delta: seq<ZcashTransaction>, receiveAddress: string): (r: seq<AdapterEvent>)
    ensures r == [] <==> delta == []
    ensures r != [] ==> r == [RecordsUpdated(RecordsFrom(delta, receiveAddress))]
  {
    if delta == [] then [] else [RecordsUpdated(RecordsFrom(delta, receiveAddress))]
  }

  class ZcashAdapter {
    const spendingKeys: seq<string>
    /** The address of account 0, the only account used. */
    const receiveAddress: string
    var lastBlockHeight: Option<int>
    var state: AdapterState
    /** Every change notification emitted so far. */
    var events: seq<AdapterEvent>

    /** Construction after the account check: the state starts as syncing at 0% with
        no block date, since the engine may already hold data from a previous run. */
    constructor (setup: EngineSetup)
      ensures spendingKeys == setup.spendingKeys && receiveAddress == setup.receiveAddress
      ensures lastBlockHeight == setup.latestHeight
      ensures state == Syncing(0, None) && events == []
    {
      spendingKeys := setup.spendingKeys;
      receiveAddress := setup.receiveAddress;
      lastBlockHeight := setup.latestHeight;
      state := Syncing(0, None);
      events := [];
    }

    /** `init`: throws `unsupportedAccount` for a non-mnemonic account, rethrows an
        engine setup error, and otherwise yields a new adapter. */
    static method Create(account: AccountType, setup: Result<EngineSetup, int>) returns (r: Result<ZcashAdapter, AdapterError>)
      ensures !account.Mnemonic? ==> r == Failure(UnsupportedAccount)
      ensures account.Mnemonic? && setup.Failure? ==> r == Failure(EngineFailure(setup.error))
      ensures account.Mnemonic? && setup.Success? ==>
        && r.Success? && fresh(r.value)
        && r.value.state == Syncing(0, None) && r.value.events == []
        && r.value.spendingKeys == setup.value.spendingKeys
        && r.value.receiveAddress == setup.value.receiveAddress
        && r.value.lastBlockHeight == setup.value.latestHeight
    {
      match CheckAccount(account) {
        case Failure(e) =>
          r := Failure(e);
        case Success(_) =>
          match setup {
            case Failure(code) =>
              r := Failure(EngineFailure(code));
            case Success(s) =>
              var adapter := new ZcashAdapter(s);
              r := Success(adapter);
          }
      }
    }

    /** A status notification: when `StateFor(status, progressPercent)` is not the same
        state as the current one, it replaces it and one `StateUpdated` is emitted;
        otherwise nothing changes. So a repeated notification changes nothing, and a
        stop right after a disconnect keeps the disconnect's error and emits nothing. */
    method StatusUpdated(status: EngineStatus, progressPercent: int)
      modifies this`state, this`events
      ensures var candidate := StateFor(status, progressPercent);
        if SameState(candidate, old(state))
        then state == old(state) && events == old(events)
        else state == candidate && events == old(events) + [StateUpdated]
    {
      var newState := StateFor(status, progressPercent);
      if !SameState(newState, state) {
        state := newState;
        events := events + [StateUpdated];
      }
    }

    /** `sync`: the engine is started; if starting throws, the state becomes not synced
        with that error and `StateUpdated` is emitted, whether or not the state changed. */
    method Sync(startError: Option<SyncError>)
      modifies this`state, this`events
      ensures startError.None? ==> state == old(state) && events == old(events)
      ensures startError.Some? ==> state == NotSynced(startError.value) && events == old(events) + [StateUpdated]
    {
      if startError.Some? {
        state := NotSynced(startError.value);
        events := events + [StateUpdated];
      }
    }

    /** `start`: the same as `sync`. */
    method Start(startError: Option<SyncError>)
      modifies this`state, this`events
      ensures startError.None? ==> state == old(state) && events == old(events)
      ensures startError.Some? ==> state == NotSynced(startError.value) && events == old(events) + [StateUpdated]
    {
      Sync(startError);
    }

    /** `refresh`: the same as `sync`. */
    method Refresh(startError: Option<SyncError>)
      modifies this`state, this`events
      ensures startError.None? ==> state == old(state) && events == old(events)
      ensures startError.Some? ==> state == NotSynced(startError.value) && events == old(events) + [StateUpdated]
    {
      Sync(startError);
    }

    /** A block-processor notification: a reported height replaces the last one and
        emits `LastBlockUpdated`; a balance update is emitted in every case. */
    method BlockHeightUpdated(height: Option<int>)
      modifies this`lastBlockHeight, this`events
      ensures lastBlockHeight == if height.Some? then height else old(lastBlockHeight)
      ensures events == old(events) + (if height.Some? then [LastBlockUpdated] else []) + [BalanceUpdated]
    {
      if height.Some? {
        lastBlockHeight := height;
        events := events + [LastBlockUpdated];
      }
      events := events + [BalanceUpdated];
    }

    /** A found-transactions notification: when it carries confirmed transactions, the
        pool's delta for them (`delta`) is emitted as records, even when empty. */
    method TransactionsUpdated(delta: Option<seq<ZcashTransaction>>)
      modifies this`events
      ensures events == old(events) + (if delta.Some? then [RecordsUpdated(RecordsFrom(delta.value, receiveAddress))] else [])
    {
      if delta.Some? {
        events := events + [RecordsUpdated(RecordsFrom(delta.value, receiveAddress))];
      }
    }

    /** `syncPending`: the pool's delta for the engine's pending transactions is emitted
        as records only when it is not empty. */
    method SyncPending(delta: seq<ZcashTransaction>)
      modifies this`events
      ensures events == old(events) + PendingEvents(delta, receiveAddress)
    {
      if |delta| > 0 {
        events := events + [RecordsUpdated(RecordsFrom(delta, receiveAddress))];
      }
    }

    /** `sendSingle`: without a spending key the single outcome is `unsupportedAccount`
        and the engine is not asked. Otherwise the engine is asked to send the amount
        in zatoshi (cut toward zero) with the first key; when it completes, pending
        transactions are synced (`pendingDelta` is the pool's delta then) and its
        outcome is the single outcome. */
    method SendSingle(amount: real, address: string, memo: Option<string>,
                      engineOutcome: Outcome<int>, pendingDelta: seq<ZcashTransaction>)
      returns (outcome: Outcome<AdapterError>, request: Option<SendRequest>)
      modifies this`events
      ensures request.None? <==> spendingKeys == []
      ensures spendingKeys == [] ==> outcome == Fail(UnsupportedAccount) && events == old(events)
      ensures spendingKeys != [] ==>
        && request == Some(SendRequest(spendingKeys[0], ToZatoshi(amount), address, memo))
        && outcome == (if engineOutcome.Pass? then Pass else Fail(EngineFailure(engineOutcome.error)))
        && events == old(events) + PendingEvents(pendingDelta, receiveAddress)
    {
      if spendingKeys == [] {
        outcome, request := Fail(UnsupportedAccount), None;
        return;
      }
      var spendingKey := spendingKeys[0];
      var zatoshi := ToZatoshi(amount);
      request := Some(SendRequest(spendingKey, zatoshi, address, memo));
      SyncPending(pendingDelta);
      match engineOutcome {
        case Pass => outcome := Pass;
        case Fail(code) => outcome := Fail(EngineFailure(code));
      }
    }

    /** `lastBlockInfo`: the last known height, with no timestamp; nothing when no
        height is known. */
    function LastBlock(): (r: Option<LastBlockInfo>)
      reads this
      ensures r.Some? <==> lastBlockHeight.Some?
      ensures r.Some? ==> r.value == LastBlockInfo(lastBlockHeight.value, None)
    {
      match lastBlockHeight
      case Some(h) => Some(LastBlockInfo(h, None))
      case None => None
    }
  }

  /** The same status notification delivered twice (the Swift adapter registers the
      disconnected notification twice): the second delivery changes nothing, so the
      pair has exactly the effect of one delivery. */
  method RepeatedStatusIsSilent(adapter: ZcashAdapter, status: EngineStatus, progressPercent: int)
    modifies adapter`state, adapter`events
    ensures var candidate := StateFor(status, progressPercent);
      if SameState(candidate, old(adapter.state)) then
        adapter.state == old(adapter.state) && adapter.events == old(adapter.events)
      else
        adapter.state == candidate && adapter.events == old(adapter.events) + [StateUpdated]
  {
    adapter.StatusUpdated(status, progressPercent);
    ghost var state, events := adapter.state, adapter.events;
    adapter.StatusUpdated(status, progressPercent);
    assert adapter.state == state && adapter.events == events;
  }

  /** Disconnected followed by stopped: both ask for not-synced, so the second keeps the
      first's `noConnection` error and emits nothing. */
  method DisconnectThenStop(adapter: ZcashAdapter)
    modifies adapter`state, adapter`events
    ensures adapter.state == (if old(adapter.state).NotSynced? then old(adapter.state) else NotSynced(NoConnection))
    ensures adapter.events == old(adapter.events) + (if old(adapter.state).NotSynced? then [] else [StateUpdated])
  {
    adapter.StatusUpdated(Disconnected, 0);
    adapter.StatusUpdated(Stopped, 0);
  }
}
