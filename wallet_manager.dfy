/**
 * The wallet registry: the list of (coin, adapter) pairs the application tracks.
 *
 * `InitWallets` rebuilds the list from the requested coins, reusing the wallet the
 * old list holds for a coin and asking the adapter factory for a new adapter
 * otherwise; `ClearWallets` tears every held adapter down and forgets the list.
 *
 * Adapters are objects in the application; here an adapter is known by its identity
 * only (an `AdapterId`). The factory is external: what it answers for a coin is the
 * parameter `builds` (true when it returns an adapter, false when it returns nil),
 * and the adapter it returns is a new object, so it gets the next identity the
 * registry has never handed out (`nextAdapterId`, which stands for allocation).
 */
module Wallets {
  import opened Wrappers

  /** Identity of an adapter object: two wallets share an adapter exactly when their ids are equal. */
  type AdapterId = nat

  datatype Wallet<Coin> = Wallet(coin: Coin, adapter: AdapterId)

  /** Observable side effects of the registry, in the order they happen. */
  datatype Event<Coin> =
    | Published(snapshot: seq<Wallet<Coin>>)  // the wallets subject emits a list
    | Started(adapter: AdapterId)             // `start()` is called on an adapter
    | Cleared(adapter: AdapterId)             // `clear()` is called on an adapter

  /** What one rebuild produces: the new list, the wallets built in this call (in
      creation order) and the next unused adapter identity. */
  datatype Plan<Coin> = Plan(wallets: seq<Wallet<Coin>>, created: seq<Wallet<Coin>>, nextId: AdapterId)

  ghost predicate HasCoin<Coin>(ws: seq<Wallet<Coin>>, coin: Coin) {
    exists k :: 0 <= k < |ws| && ws[k].coin == coin
  }

  ghost predicate AtMostOnePerCoin<Coin>(ws: seq<Wallet<Coin>>) {
    forall a, b :: 0 <= a < b < |ws| ==> ws[a].coin != ws[b].coin
  }

  ghost predicate NoDuplicates<T>(s: seq<T>) {
    forall a, b :: 0 <= a < b < |s| ==> s[a] != s[b]
  }

  /** Every adapter in `ws` was handed out before identity `bound`. */
  ghost predicate IdsBelow<Coin>(ws: seq<Wallet<Coin>>, bound: AdapterId) {
    forall w :: w in ws ==> w.adapter < bound
  }

  /** The first wallet of `ws` whose coin equals `coin` (Swift's `first(where:)`). */
  function FirstWithCoin<Coin(==)>(ws: seq<Wallet<Coin>>, coin: Coin): (r: Option<Wallet<Coin>>)
    ensures r.None? <==> !HasCoin(ws, coin)
    ensures r.Some? ==> r.value.coin == coin
    ensures r.Some? ==> exists k :: 0 <= k < |ws| && ws[k] == r.value && forall j :: 0 <= j < k ==> ws[j].coin != coin
  {
    if |ws| == 0 then None
    else if ws[0].coin == coin then Some(ws[0])
    else
      var r := FirstWithCoin(ws[1..], coin);
      assert r.None? ==> forall k :: 0 <= k < |ws| ==> ws[k].coin != coin by {
        if r.None? {
          forall k | 0 <= k < |ws| ensures ws[k].coin != coin {
            if k > 0 { assert ws[k] == ws[1..][k - 1]; }
          }
        }
      }
      r
  }

  /**
   * The list `initWallets` computes for `coins`, walking them in order: the first
   * wallet of `current` with the coin if there is one; otherwise a wallet over a
   * new adapter if the factory builds one; otherwise nothing for that coin.
   * Lookups always go to `current`, the list as it was before the call.
   */
  function Reconcile<Coin(==)>(current: seq<Wallet<Coin>>, coins: seq<Coin>, builds: Coin -> bool, nextId: AdapterId)
    : (p: Plan<Coin>)
    ensures |p.wallets| <= |coins|
    ensures p.nextId == nextId + |p.created|
    ensures forall i :: 0 <= i < |p.created| ==> p.created[i].adapter == nextId + i
    ensures forall w :: w in p.created ==> w in p.wallets
    ensures forall w :: w in p.wallets ==> w.coin in coins
    decreases |coins|
  {
    if coins == [] then Plan([], [], nextId)
    else
      var rest := coins[..|coins| - 1];
      var coin := coins[|coins| - 1];
      var p := Reconcile(current, rest, builds, nextId);
      assert forall c :: c in rest ==> c in coins;
      match FirstWithCoin(current, coin)
      case Some(w) => p.(wallets := p.wallets + [w])
      case None =>
        if builds(coin) then
          var w := Wallet(coin, p.nextId);
          Plan(p.wallets + [w], p.created + [w], p.nextId + 1)
        else p
  }

  /** Every wallet of the new list is either the first old wallet for its coin (reused,
      the very same wallet) or was built in this call; a built one is for a coin with
      no old wallet, and the factory returned an adapter for it. */
  lemma {:induction false} ReconcileProvenance<Coin>(current: seq<Wallet<Coin>>, coins: seq<Coin>, builds: Coin -> bool, nextId: AdapterId)
    ensures var p := Reconcile(current, coins, builds, nextId);
      forall w :: w in p.wallets ==> FirstWithCoin(current, w.coin) == Some(w) || w in p.created
    ensures var p := Reconcile(current, coins, builds, nextId);
      forall w :: w in p.created ==> !HasCoin(current, w.coin) && builds(w.coin)
    decreases |coins|
  {
    if coins != [] {
      ReconcileProvenance(current, coins[..|coins| - 1], builds, nextId);
    }
  }

  /** A coin ends up in the new list exactly when it was requested and either the old
      list holds a wallet for it or the factory builds one; so a coin the factory
      refuses and the old list lacks is dropped, and so is every unrequested coin. */
  lemma {:induction false} ReconcileCoverage<Coin>(current: seq<Wallet<Coin>>, coins: seq<Coin>, builds: Coin -> bool, nextId: AdapterId, coin: Coin)
    ensures HasCoin(Reconcile(current, coins, builds, nextId).wallets, coin)
        <==> coin in coins && (HasCoin(current, coin) || builds(coin))
    decreases |coins|
  {
    if coins != [] {
      var rest := coins[..|coins| - 1];
      var last := coins[|coins| - 1];
      ReconcileCoverage(current, rest, builds, nextId, coin);
      var p := Reconcile(current, rest, builds, nextId);
      var q := Reconcile(current, coins, builds, nextId);
      assert coins == rest + [last];
      if HasCoin(p.wallets, coin) {
        var k :| 0 <= k < |p.wallets| && p.wallets[k].coin == coin;
        assert q.wallets[k] == p.wallets[k];
      }
      if HasCoin(q.wallets, coin) && !HasCoin(p.wallets, coin) {
        var k :| 0 <= k < |q.wallets| && q.wallets[k].coin == coin;
        assert k == |p.wallets|;
      }
      if last == coin && (HasCoin(current, coin) || builds(coin)) {
        assert q.wallets[|q.wallets| - 1].coin == coin;
      }
    }
  }

  /** For every requested coin that the old list holds, the new list holds the first
      old wallet for it: same coin, same adapter, not rebuilt. */
  lemma {:induction false} ReconcileReuses<Coin>(current: seq<Wallet<Coin>>, coins: seq<Coin>, builds: Coin -> bool, nextId: AdapterId, w: Wallet<Coin>)
    requires w.coin in coins && FirstWithCoin(current, w.coin) == Some(w)
    ensures w in Reconcile(current, coins, builds, nextId).wallets
    ensures w !in Reconcile(current, coins, builds, nextId).created
    decreases |coins|
  {
    var rest := coins[..|coins| - 1];
    if w.coin in rest {
      ReconcileReuses(current, rest, builds, nextId, w);
    }
  }

  /** Identities after a rebuild: every wallet's adapter was handed out before the new
      counter, and no adapter built in this call is one the old list already held. */
  lemma ReconcileFreshIds<Coin>(current: seq<Wallet<Coin>>, coins: seq<Coin>, builds: Coin -> bool, nextId: AdapterId)
    requires IdsBelow(current, nextId)
    ensures var p := Reconcile(current, coins, builds, nextId);
      IdsBelow(p.wallets, p.nextId)
    ensures var p := Reconcile(current, coins, builds, nextId);
      forall w, v :: w in current && v in p.created ==> w.adapter != v.adapter
  {
    var p := Reconcile(current, coins, builds, nextId);
    ReconcileProvenance(current, coins, builds, nextId);
    forall w | w in p.wallets ensures w.adapter < p.nextId {
      if w !in p.created {
        var k :| 0 <= k < |current| && current[k] == w;
      } else {
        var i :| 0 <= i < |p.created| && p.created[i] == w;
      }
    }
    forall w, v | w in current && v in p.created ensures w.adapter != v.adapter {
      var i :| 0 <= i < |p.created| && p.created[i] == v;
    }
  }

  /** `idx` tells, for each wallet of a list, the position of the coin it was made for. */
  ghost predicate Follows<Coin>(wallets: seq<Wallet<Coin>>, coins: seq<Coin>, idx: seq<nat>) {
    && |idx| == |wallets|
    && (forall k :: 0 <= k < |idx| ==> idx[k] < |coins| && coins[idx[k]] == wallets[k].coin)
    && (forall a, b :: 0 <= a < b < |idx| ==> idx[a] < idx[b])
  }

  /** One more request position: the list either gains one wallet for the last coin
      (when the old list holds it or the factory builds it) or stays as it was. */
  lemma ReconcileStep<Coin>(current: seq<Wallet<Coin>>, coins: seq<Coin>, builds: Coin -> bool, nextId: AdapterId)
    requires coins != []
    ensures var p := Reconcile(current, coins[..|coins| - 1], builds, nextId).wallets;
      var q := Reconcile(current, coins, builds, nextId).wallets;
      var last := coins[|coins| - 1];
      if HasCoin(current, last) || builds(last)
      then |q| == |p| + 1 && q[..|p|] == p && q[|p|].coin == last
      else q == p
  {
  }

  lemma FollowsExtend<Coin>(ws: seq<Wallet<Coin>>, coins: seq<Coin>, idx: seq<nat>, c: Coin, keep: bool, w: Wallet<Coin>)
    requires Follows(ws, coins, idx) && w.coin == c
    ensures Follows(if keep then ws + [w] else ws, coins + [c], if keep then idx + [|coins|] else idx)
  {
    assert forall k :: 0 <= k < |idx| ==> (coins + [c])[idx[k]] == coins[idx[k]];
  }

  /** A request position whose coin the old list holds or the factory builds. */
  ghost predicate Kept<Coin>(current: seq<Wallet<Coin>>, builds: Coin -> bool, coin: Coin) {
    HasCoin(current, coin) || builds(coin)
  }

  /** The positions kept so far, extended by the last request position. */
  ghost function KeptPositions<Coin>(current: seq<Wallet<Coin>>, builds: Coin -> bool, coins: seq<Coin>, prev: seq<nat>): seq<nat>
    requires coins != []
  {
    if Kept(current, builds, coins[|coins| - 1]) then prev + [|coins| - 1] else prev
  }

  lemma FollowsStep<Coin>(current: seq<Wallet<Coin>>, coins: seq<Coin>, builds: Coin -> bool, nextId: AdapterId, prev: seq<nat>)
    requires coins != []
    requires Follows(Reconcile(current, coins[..|coins| - 1], builds, nextId).wallets, coins[..|coins| - 1], prev)
    ensures Follows(Reconcile(current, coins, builds, nextId).wallets, coins, KeptPositions(current, builds, coins, prev))
  {
    var rest := coins[..|coins| - 1];
    var last := coins[|coins| - 1];
    var p := Reconcile(current, rest, builds, nextId).wallets;
    var q := Reconcile(current, coins, builds, nextId).wallets;
    ReconcileStep(current, coins, builds, nextId);
    assert coins == rest + [last];
    if Kept(current, builds, last) {
      FollowsExtend(p, rest, prev, last, true, q[|p|]);
      assert q == p + [q[|p|]];
    } else {
      FollowsExtend(p, rest, prev, last, false, Wallet(last, 0));
    }
  }

  lemma KeptPositionsStep<Coin>(current: seq<Wallet<Coin>>, builds: Coin -> bool, coins: seq<Coin>, prev: seq<nat>)
    requires coins != []
    requires forall k :: 0 <= k < |prev| ==> prev[k] < |coins| - 1
    requires forall i :: 0 <= i < |coins| - 1 ==> (i in prev <==> Kept(current, builds, coins[i]))
    ensures var idx := KeptPositions(current, builds, coins, prev);
      forall i :: 0 <= i < |coins| ==> (i in idx <==> Kept(current, builds, coins[i]))
  {
    var n := |coins| - 1;
    assert n !in prev;
  }

  /** The new list is in the order of `coins`: its wallets stand for strictly increasing
      positions of the request, and a position is kept exactly when its coin is held by
      the old list or built by the factory, so each kept position yields one wallet. */
  lemma {:induction false} ReconcileFollowsCoins<Coin>(current: seq<Wallet<Coin>>, coins: seq<Coin>, builds: Coin -> bool, nextId: AdapterId)
    returns (idx: seq<nat>)
    ensures Follows(Reconcile(current, coins, builds, nextId).wallets, coins, idx)
    ensures forall i :: 0 <= i < |coins| ==> (i in idx <==> Kept(current, builds, coins[i]))
    decreases |coins|
  {
    if coins == [] {
      idx := [];
    } else {
      var rest := coins[..|coins| - 1];
      var prev := ReconcileFollowsCoins(current, rest, builds, nextId);
      FollowsStep(current, coins, builds, nextId, prev);
      assert forall i :: 0 <= i < |rest| ==> rest[i] == coins[i];
      KeptPositionsStep(current, builds, coins, prev);
      idx := KeptPositions(current, builds, coins, prev);
    }
  }

  /** Every built wallet of the new list is over an adapter older than the counter the plan
      ends with. */
  lemma BuiltBelowNext<Coin>(current: seq<Wallet<Coin>>, coins: seq<Coin>, builds: Coin -> bool, nextId: AdapterId)
    ensures var p := Reconcile(current, coins, builds, nextId);
      forall a :: 0 <= a < |p.wallets| && !HasCoin(current, p.wallets[a].coin) ==> p.wallets[a].adapter < p.nextId
  {
    var p := Reconcile(current, coins, builds, nextId);
    ReconcileProvenance(current, coins, builds, nextId);
    forall a | 0 <= a < |p.wallets| && !HasCoin(current, p.wallets[a].coin)
      ensures p.wallets[a].adapter < p.nextId
    {
      assert p.wallets[a] in p.wallets;
      var i :| 0 <= i < |p.created| && p.created[i] == p.wallets[a];
    }
  }

  /** Each request position the factory serves gets its own adapter, in request order:
      along the new list, the built wallets carry strictly increasing identities. With
      `ReconcileProvenance` and the numbering of `created`, this makes `created` exactly
      the built wallets of the new list, in the order of `coins`. */
  lemma {:induction false} ReconcileBuildsInOrder<Coin>(current: seq<Wallet<Coin>>, coins: seq<Coin>, builds: Coin -> bool, nextId: AdapterId)
    ensures var ws := Reconcile(current, coins, builds, nextId).wallets;
      forall a, b :: 0 <= a < b < |ws| && !HasCoin(current, ws[a].coin) && !HasCoin(current, ws[b].coin)
        ==> ws[a].adapter < ws[b].adapter
    decreases |coins|
  {
    if coins != [] {
      var rest := coins[..|coins| - 1];
      var last := coins[|coins| - 1];
      var p := Reconcile(current, rest, builds, nextId);
      var ws := Reconcile(current, coins, builds, nextId).wallets;
      ReconcileBuildsInOrder(current, rest, builds, nextId);
      ReconcileStep(current, coins, builds, nextId);
      BuiltBelowNext(current, rest, builds, nextId);
      assert coins == rest + [last];
      if HasCoin(current, last) || builds(last) {
        forall a, b | 0 <= a < b < |ws| && !HasCoin(current, ws[a].coin) && !HasCoin(current, ws[b].coin)
          ensures ws[a].adapter < ws[b].adapter
        {
          assert ws[a] == p.wallets[a];
          if b < |p.wallets| {
            assert ws[b] == p.wallets[b];
          } else {
            assert FirstWithCoin(current, last).None?;
            assert ws[b].adapter == p.nextId;
          }
        }
      }
    }
  }

  /** When `coins` has no duplicates, the new list holds at most one wallet per coin. */
  lemma ReconcileOnePerCoin<Coin>(current: seq<Wallet<Coin>>, coins: seq<Coin>, builds: Coin -> bool, nextId: AdapterId)
    requires NoDuplicates(coins)
    ensures AtMostOnePerCoin(Reconcile(current, coins, builds, nextId).wallets)
  {
    var ws := Reconcile(current, coins, builds, nextId).wallets;
    var idx := ReconcileFollowsCoins(current, coins, builds, nextId);
    forall a, b | 0 <= a < b < |ws| ensures ws[a].coin != ws[b].coin {
      assert coins[idx[a]] == ws[a].coin && coins[idx[b]] == ws[b].coin;
    }
  }

  /** Without the no-duplicates premise the invariant fails: lookups go to the old list,
      so a coin requested twice and not held before yields two new wallets. */
  lemma DuplicateCoinBuildsTwice()
    ensures Reconcile([], ["ZEC", "ZEC"], c => true, 0).wallets == [Wallet("ZEC", 0), Wallet("ZEC", 1)]
  {
    var p1 := Reconcile([], ["ZEC"], c => true, 0);
    assert ["ZEC", "ZEC"][..1] == ["ZEC"];
    assert p1 == Plan([Wallet("ZEC", 0)], [Wallet("ZEC", 0)], 1);
  }

  /** Holding X and Y and requesting Y and Z keeps Y's wallet, builds one for Z, drops X. */
  lemma ReplaceExample()
    ensures var p := Reconcile([Wallet("X", 0), Wallet("Y", 1)], ["Y", "Z"], c => true, 2);
      p.wallets == [Wallet("Y", 1), Wallet("Z", 2)] && p.created == [Wallet("Z", 2)]
  {
    assert ["Y", "Z"][..1] == ["Y"];
    assert ["Y"][..0] == [];
  }

  /** The `start()` calls for `ws`, one per wallet, in order. */
  function StartEvents<Coin>(ws: seq<Wallet<Coin>>): (r: seq<Event<Coin>>)
    ensures |r| == |ws|
    ensures forall i :: 0 <= i < |ws| ==> r[i] == Started(ws[i].adapter)
  {
    if ws == [] then [] else StartEvents(ws[..|ws| - 1]) + [Started(ws[|ws| - 1].adapter)]
  }

  /** The `clear()` calls for `ws`, one per wallet, in order. */
  function ClearEvents<Coin>(ws: seq<Wallet<Coin>>): (r: seq<Event<Coin>>)
    ensures |r| == |ws|
    ensures forall i :: 0 <= i < |ws| ==> r[i] == Cleared(ws[i].adapter)
  {
    if ws == [] then [] else ClearEvents(ws[..|ws| - 1]) + [Cleared(ws[|ws| - 1].adapter)]
  }

  /** The snapshots published in a stretch of events. */
  function Snapshots<Coin>(log: seq<Event<Coin>>): seq<seq<Wallet<Coin>>> {
    if log == [] then []
    else Snapshots(log[..|log| - 1]) + (if log[|log| - 1].Published? then [log[|log| - 1].snapshot] else [])
  }

  /** The adapters started in a stretch of events, in order. */
  function StartedIds<Coin>(log: seq<Event<Coin>>): seq<AdapterId> {
    if log == [] then []
    else StartedIds(log[..|log| - 1]) + (if log[|log| - 1].Started? then [log[|log| - 1].adapter] else [])
  }

  lemma {:induction false} SnapshotsAppend<Coin>(a: seq<Event<Coin>>, b: seq<Event<Coin>>)
    ensures Snapshots(a + b) == Snapshots(a) + Snapshots(b)
    ensures StartedIds(a + b) == StartedIds(a) + StartedIds(b)
    decreases |b|
  {
    if b == [] {
      assert a + b == a;
    } else {
      assert (a + b)[..|a + b| - 1] == a + b[..|b| - 1];
      assert (a + b)[|a + b| - 1] == b[|b| - 1];
      SnapshotsAppend(a, b[..|b| - 1]);
    }
  }

  /** The events of one rebuild publish exactly one snapshot, the new list, and start
      exactly the adapters built in this call, each once, in creation order. */
  lemma {:induction false} RebuildEffects<Coin>(snapshot: seq<Wallet<Coin>>, created: seq<Wallet<Coin>>)
    ensures Snapshots([Published(snapshot)] + StartEvents(created)) == [snapshot]
    ensures |StartedIds([Published(snapshot)] + StartEvents(created))| == |created|
    ensures forall i :: 0 <= i < |created| ==> StartedIds([Published(snapshot)] + StartEvents(created))[i] == created[i].adapter
    decreases |created|
  {
    if created != [] {
      var init := created[..|created| - 1];
      RebuildEffects(snapshot, init);
      assert [Published(snapshot)] + StartEvents(created)
          == ([Published(snapshot)] + StartEvents(init)) + [Started(created[|created| - 1].adapter)];
      SnapshotsAppend([Published(snapshot)] + StartEvents(init), [Started(created[|created| - 1].adapter)]);
    } else {
      assert [Published(snapshot)] + StartEvents(created) == [Published(snapshot)];
      assert [Published(snapshot)][..0] == [];
    }
  }

  /** Clearing publishes nothing and starts nothing. */
  lemma {:induction false} ClearEffects<Coin>(ws: seq<Wallet<Coin>>)
    ensures Snapshots(ClearEvents(ws)) == [] && StartedIds(ClearEvents(ws)) == []
    decreases |ws|
  {
    if ws != [] {
      ClearEffects(ws[..|ws| - 1]);
      assert ClearEvents(ws)[..|ws| - 1] == ClearEvents(ws[..|ws| - 1]);
    }
  }

  class WalletManager<Coin(==)> {
    /** The wallets currently held, as last published. */
    var wallets: seq<Wallet<Coin>>
    /** The identity the next adapter the factory returns will get. */
    var nextAdapterId: AdapterId
    /** Everything published, started and cleared so far. */
    ghost var events: seq<Event<Coin>>

    ghost predicate Valid()
      reads this
    {
      IdsBelow(wallets, nextAdapterId)
    }

    constructor ()
      ensures Valid()
      ensures wallets == [] && nextAdapterId == 0 && events == []
    {
      wallets := [];
      nextAdapterId := 0;
      events := [];
    }

    /** The mapping step of `initWallets`: walks `coins` once, looking each coin up in
        the list as it stands and asking the factory otherwise; changes nothing yet. */
    method PlanFor(coins: seq<Coin>, builds: Coin -> bool) returns (p: Plan<Coin>)
      ensures p == Reconcile(wallets, coins, builds, nextAdapterId)
    {
      var newWallets: seq<Wallet<Coin>> := [];
      var result: seq<Wallet<Coin>> := [];
      var next := nextAdapterId;
      var i := 0;
      while i < |coins|
        invariant 0 <= i <= |coins|
        invariant Reconcile(wallets, coins[..i], builds, nextAdapterId) == Plan(result, newWallets, next)
      {
        var coin := coins[i];
        ghost var before := Reconcile(wallets, coins[..i], builds, nextAdapterId);
        assert coins[..i + 1][..i] == coins[..i];
        assert coins[..i + 1][i] == coin;
        match FirstWithCoin(wallets, coin) {
          case Some(w) =>
            result := result + [w];
          case None =>
            if builds(coin) {
              var w := Wallet(coin, next);
              next := next + 1;
              newWallets := newWallets + [w];
              result := result + [w];
            }
        }
        i := i + 1;
      }
      assert coins[..|coins|] == coins;
      p := Plan(result, newWallets, next);
    }

    /** Rebuilds the list for `coins`: the result is `Reconcile` of the old list; the
        new list is published once, then the adapters built in this call are started
        in creation order. Nothing is stopped or cleared. */
    method InitWallets(coins: seq<Coin>, builds: Coin -> bool)
      requires Valid()
      modifies this
      ensures Valid()
      ensures var p := Reconcile(old(wallets), coins, builds, old(nextAdapterId));
        && wallets == p.wallets
        && nextAdapterId == p.nextId
        && events == old(events) + [Published(p.wallets)] + StartEvents(p.created)
    {
      var p := PlanFor(coins, builds);
      ReconcileFreshIds(wallets, coins, builds, nextAdapterId);
      wallets, nextAdapterId := p.wallets, p.nextId;
      events := events + [Published(wallets)];
      StartAll(p.created);
    }

    /** Calls `start()` on the adapter of each of `ws`, in order. */
    method StartAll(ws: seq<Wallet<Coin>>)
      modifies this`events
      ensures events == old(events) + StartEvents(ws)
    {
      var j := 0;
      while j < |ws|
        invariant 0 <= j <= |ws|
        invariant events == old(events) + StartEvents(ws[..j])
      {
        assert ws[..j + 1][..j] == ws[..j];
        events := events + [Started(ws[j].adapter)];
        j := j + 1;
      }
      assert ws[..|ws|] == ws;
    }

    /** Calls `clear()` on every held adapter, in list order, and empties the list.
        Nothing is published. */
    method ClearWallets()
      requires Valid()
      modifies this
      ensures Valid()
      ensures wallets == [] && nextAdapterId == old(nextAdapterId)
      ensures events == old(events) + ClearEvents(old(wallets))
    {
      var i := 0;
      while i < |wallets|
        invariant 0 <= i <= |wallets|
        invariant events == old(events) + ClearEvents(wallets[..i])
        invariant wallets == old(wallets) && nextAdapterId == old(nextAdapterId)
      {
        assert wallets[..i + 1][..i] == wallets[..i];
        events := events + [Cleared(wallets[i].adapter)];
        i := i + 1;
      }
      assert wallets[..|wallets|] == wallets;
      wallets := [];
    }
  }
}
