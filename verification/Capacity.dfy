/** The allocator, its ledger and the reconciler in place. */
module Capacity {
  import opened Prelude
  import opened BerthTable
  import opened CapacityBook
  import B = CapacityBook
  import BerthStore

  class Ledger {
    var items: seq<LedgerRecord>

    constructor ()
      ensures items == []
    {
      items := [];
    }

    method Append(a: Allocation) returns (fp: string)
      modifies this
      ensures items == old(items) + [Opened(a)] && fp == Fingerprint(a)
    {
      fp := Fingerprint(a);
      items := items + [LedgerRecord(a, fp, None)];
    }

    /** Closes the first open record with the allocation's fingerprint, if there is one. */
    method Close(a: Allocation, now: Time) returns (fp: string)
      modifies this
      ensures items == CloseFirst(old(items), Fingerprint(a), now) && fp == Fingerprint(a)
    {
      hide Fingerprint;
      fp := Fingerprint(a);
      var i := 0;
      while i < |items|
        invariant i <= |items| && items == old(items)
        invariant forall j :: 0 <= j < i ==> !(items[j].fingerprint == fp && Open(items[j]))
      {
        if items[i].fingerprint == fp && items[i].closedAt.None? {
          items := items[i := items[i].(closedAt := Some(now))];
          break;
        }
        i := i + 1;
      }
    }
  }

  class Allocator {
    const store: BerthStore.Store
    const shore: real
    var used: map<string, real>
    var allocs: map<string, Allocation>
    const ledger: Ledger

    ghost function View(): Cap
      reads this, ledger
    {
      Cap(shore, used, allocs, ledger.items)
    }

    ghost predicate Valid()
      reads this, ledger, store, store.cache
    {
      store.Valid() && CapInv(View())
    }

    constructor (store: BerthStore.Store, shore: real)
      requires store.Valid()
      ensures this.store == store && fresh(ledger)
      ensures Valid() && View() == Fresh(shore)
    {
      this.store, this.shore := store, shore;
      used, allocs := map[], map[];
      ledger := new Ledger();
      new;
      FreshSafe(shore);
    }

    /** The sum of the demand column, whatever order the map is walked in. */
    method UsedTotal() returns (total: real)
      ensures total == Total(used)
    {
      total := 0.0;
      var todo := used.Keys;
      assert used - todo == map[];
      while todo != {}
        invariant todo <= used.Keys
        invariant total == Total(used - todo)
      {
        var b :| b in todo;
        total := total + used[b];
        assert used - (todo - {b}) == (used - todo)[b := used[b]];
        TotalAdd(used - todo, b, used[b]);
        todo := todo - {b};
      }
      assert used - {} == used;
    }

    method Remain() returns (r: real)
      ensures r == B.Remain(View())
    {
      var total := UsedTotal();
      r := shore - total;
    }

    method Release(berthID: string, now: Time) returns (e: Option<Error>)
      requires Valid()
      modifies this, ledger
      ensures Valid()
      ensures (View(), e) == B.Release(old(View()), berthID, now)
    {
      hide CapInv, Fingerprint, CloseFirst;
      ReleaseSafe(View(), berthID, now);
      if berthID !in allocs {
        return Some(NoAllocation);
      }
      var alloc := allocs[berthID];
      used := used - {berthID};
      allocs := allocs - {berthID};
      var _ := ledger.Close(alloc, now);
      return None;
    }

    /** Drops an allocation left on an idle berth. */
    method Refresh(berthID: string, now: Time) returns (e: Option<Error>)
      requires Valid()
      modifies this, ledger
      ensures Valid()
      ensures e == if berthID in store.berths then None else Some(NotFound)
      ensures View() == if berthID in store.berths && store.berths[berthID].state.Idle?
                        then B.Release(old(View()), berthID, now).0 else old(View())
    {
      hide CapInv, Fingerprint, CloseFirst;
      ReleaseSafe(View(), berthID, now);
      var st := store.State(berthID);
      if st.None? {
        return Some(NotFound);
      }
      if !st.value.Idle? {
        return None;
      }
      if berthID in allocs {
        var alloc := allocs[berthID];
        used := used - {berthID};
        allocs := allocs - {berthID};
        var _ := ledger.Close(alloc, now);
      }
      return None;
    }

    method Allocate(berthID: string, vessel: string, needKVA: real, now: Time) returns (r: Result<Allocation>)
      requires Valid() && NulFreeIds(store.berths)
      modifies this, ledger
      ensures Valid()
      ensures (View(), r) == B.Allocate(store.berths, old(View()), berthID, vessel, needKVA, now)
    {
      hide CapInv, Fingerprint, CloseFirst, AllocID;
      var e := Refresh(berthID, now);
      if e.Some? {
        return Err(e.value);
      }
      var st := store.CachedState(berthID);
      if st.None? {
        return Err(NotFound);
      }
      if !st.value.Idle? {
        return Err(NotIdle);
      }
      if needKVA <= 0.0 {
        return Err(DemandNotPositive);
      }
      ghost var c1 := View();
      TryAllocateSafe(c1, berthID, vessel, needKVA, now);
      if berthID in allocs {
        return Ok(allocs[berthID]);
      }
      var left := Remain();
      if needKVA > left {
        return Err(CapacityShort);
      }
      var alloc := Allocation(AllocID(berthID, vessel, needKVA), berthID, vessel, needKVA, now);
      used := used[berthID := needKVA];
      allocs := allocs[berthID := alloc];
      var _ := ledger.Append(alloc);
      assert View() == WithClaim(c1, alloc);
      return Ok(alloc);
    }

    method AllocationOf(berthID: string) returns (a: Option<Allocation>)
      ensures a == if berthID in allocs then Some(allocs[berthID]) else None
    {
      return if berthID in allocs then Some(allocs[berthID]) else None;
    }

    /** Every live allocation, in an arbitrary order. */
    method Allocations() returns (l: seq<Allocation>)
      ensures Held(l, allocs)
    {
      l := [];
      var todo := allocs.Keys;
      while todo != {}
        invariant todo <= allocs.Keys
        invariant forall i :: 0 <= i < |l| ==> l[i] in allocs.Values
        invariant forall b :: b in allocs && b !in todo ==> allocs[b] in l
      {
        var b :| b in todo;
        ghost var before := l;
        l := l + [allocs[b]];
        assert forall x :: x in before ==> x in l;
        assert l[|before|] == allocs[b];
        todo := todo - {b};
      }
    }

    /** Releasing one listed berth after another amounts to releasing the idle ones at once. */
    method SyncFromStore(now: Time) returns (released: nat)
      requires Valid() && Keyed(store.berths)
      modifies this, ledger
      ensures Valid()
      ensures (View(), released) == Sync(store.berths, old(View()), now)
    {
      hide CapInv, Fingerprint, ReleaseSet, CloseFirst, B.Release;
      ghost var start := View();
      ghost var stale := Stale(store.berths, allocs);
      released := 0;
      var l, keys := store.List();
      ghost var gone: set<string> := {};
      ReleaseSetEmpty(start, now);
      for i := 0 to |l|
        invariant Valid() && View() == ReleaseSet(start, gone, now)
        invariant gone <= stale
        invariant forall k :: 0 <= k < i && keys[k] in stale ==> keys[k] in gone
        invariant forall k :: i <= k < |keys| ==> keys[k] !in gone
        invariant released == |gone|
      {
        assert l[i].id == keys[i];
        if l[i].state.Idle? {
          HeldAfter(start, gone, keys[i], now);
          var held := AllocationOf(l[i].id);
          if held.Some? {
            assert keys[i] !in gone && keys[i] in stale;
            ReleaseSetStep(start, gone, keys[i], now);
            var e := Release(l[i].id, now);
            assert e.None?;
            released := released + 1;
            gone := gone + {keys[i]};
          }
        }
      }
      assert gone == stale;
    }
  }

  /** A listing of the live allocations. */
  ghost predicate Held(l: seq<Allocation>, allocs: map<string, Allocation>) {
    && (forall i :: 0 <= i < |l| ==> l[i] in allocs.Values)
    && (forall b :: b in allocs ==> allocs[b] in l)
  }

  lemma HeldAfter(c: Cap, d: set<string>, b: string, now: Time)
    ensures b in ReleaseSet(c, d, now).allocs <==> b in c.allocs && b !in d
  {
  }

  // Counting along a listing.

  /** The unbacked berths among the first `n` of a listing. */
  ghost function UnbackedAmong(rows: Rows, allocs: map<string, Allocation>, keys: seq<string>, n: nat): set<string>
    requires n <= |keys|
  {
    set i | 0 <= i < n && keys[i] in Unbacked(rows, allocs) :: keys[i]
  }

  lemma CountStart(rows: Rows, allocs: map<string, Allocation>)
    ensures forall keys :: UnbackedAmong(rows, allocs, keys, 0) == {}
  {
  }

  lemma CountStep(rows: Rows, allocs: map<string, Allocation>, l: seq<Berth>, keys: seq<string>, n: nat)
    requires Keyed(rows) && Listing(l, keys, rows) && n < |l| == |keys|
    ensures |UnbackedAmong(rows, allocs, keys, n + 1)| ==
            |UnbackedAmong(rows, allocs, keys, n)| + if l[n].state.Settled? && l[n].id !in allocs then 1 else 0
  {
    var before, after := UnbackedAmong(rows, allocs, keys, n), UnbackedAmong(rows, allocs, keys, n + 1);
    assert l[n] == rows[keys[n]] && l[n].id == keys[n];
    assert keys[n] !in before;
    assert after == if keys[n] in Unbacked(rows, allocs) then before + {keys[n]} else before;
  }

  lemma CountEnd(rows: Rows, allocs: map<string, Allocation>, l: seq<Berth>, keys: seq<string>)
    requires Listing(l, keys, rows)
    ensures |l| == |keys| && UnbackedAmong(rows, allocs, keys, |l|) == Unbacked(rows, allocs)
  {
    forall b | b in Unbacked(rows, allocs) ensures b in UnbackedAmong(rows, allocs, keys, |keys|) {
      var i :| 0 <= i < |keys| && keys[i] == b;
    }
  }

  class Reconciler {
    const alloc: Allocator
    var last: Report
    var runs: nat

    constructor (alloc: Allocator)
      ensures this.alloc == alloc && runs == 0
    {
      this.alloc := alloc;
      last := Report(0.0, 0, 0, false);
      runs := 0;
    }

    /** The counting loop of Reconcile: settled berths without capacity. */
    method CountUnbacked() returns (mismatches: nat)
      requires Keyed(alloc.store.berths)
      ensures mismatches == |Unbacked(alloc.store.berths, alloc.allocs)|
    {
      hide Keyed, Listing, Unbacked;
      mismatches := 0;
      var l, keys := alloc.store.List();
      CountStart(alloc.store.berths, alloc.allocs);
      for i := 0 to |l|
        invariant |keys| == |l| && mismatches == |UnbackedAmong(alloc.store.berths, alloc.allocs, keys, i)|
      {
        CountStep(alloc.store.berths, alloc.allocs, l, keys, i);
        var held := alloc.AllocationOf(l[i].id);
        if l[i].state.Settled? && held.None? {
          mismatches := mismatches + 1;
        }
      }
      CountEnd(alloc.store.berths, alloc.allocs, l, keys);
    }

    method Reconcile(now: Time) returns (report: Report)
      requires alloc.Valid() && Keyed(alloc.store.berths)
      modifies this, alloc, alloc.ledger
      ensures alloc.Valid() && last == report && runs == old(runs) + 1
      ensures (alloc.View(), report) == B.Reconcile(alloc.store.berths, old(alloc.View()), now)
    {
      hide CapInv, ReleaseSet, Unbacked;
      runs := runs + 1;
      var remain := alloc.Remain();
      var released := alloc.SyncFromStore(now);
      var mismatches := CountUnbacked();
      if released > 0 {
        mismatches := mismatches + released;
      }
      report := Report(remain, mismatches, released, mismatches > 0);
      last := report;
    }
  }
}
