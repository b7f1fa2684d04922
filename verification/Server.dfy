/** The request handlers in place, over the stores they share. */
module Server {
  import opened Prelude
  import opened BerthTable
  import opened CapacityBook
  import opened AtMostOnce
  import T = BerthTable
  import B = CapacityBook
  import opened Safety
  import opened Sessions
  import V = Service
  import W = Switching
  import M = Metering
  import BerthStore
  import Capacity
  import GridControl
  import GridState
  import MeterService
  import C = Connector

  class App {
    const store: BerthStore.Store
    const alloc: Capacity.Allocator
    const ctrl: GridControl.Controller
    const conn: C.Connector
    const meter: MeterService.Meter
    const billing: MeterService.Billing

    ghost function View(): V.World
      reads conn, conn.berths, conn.alloc, conn.alloc.ledger, conn.grid, conn.grid.breaker, conn.grid.queue
      reads conn.meter, conn.meter.store, billing
    {
      V.World(conn.View(), billing.View())
    }

    ghost predicate Wired() {
      && conn.berths == store && conn.alloc == alloc && conn.grid == ctrl
      && conn.meter == meter && billing.meter == meter
      && alloc.store == store && ctrl.berths == store
    }

    ghost predicate Valid()
      reads conn, store, store.cache, alloc, alloc.ledger, ctrl, ctrl.queue
    {
      && Wired() && store.Valid() && store.Indexed() && Keyed(store.berths) && NulFreeIds(store.berths)
      && alloc.Valid() && ctrl.Valid() && OnceInv(conn.Table())
    }

    /** Everything is built on one store and one allocator, and the live state is rebuilt once. */
    constructor (seed: seq<Berth>, shore: real, matches: GridState.Phase -> bool, rate: M.Rate, now: Time)
      requires DistinctSeed(seed) && forall i :: 0 <= i < |seed| ==> NulFree(seed[i].id)
      ensures Valid() && billing.rate == rate
      ensures var w0 := Initial(Seeded(seed), shore, matches);
              View() == w0.(core := V.Rebuild(w0.core, now).0)
    {
      hide OnceInv, CapInv, IndexOf, Seeded, V.Rebuild, NulFreeIds, Keyed, DistinctSeed, Fresh, GridState.NewGrid;
      hide M.BillInv, M.MeterInv, States, Initial;
      var store0 := new BerthStore.Store(seed);
      var alloc0 := new Capacity.Allocator(store0, shore);
      var ctrl0 := new GridControl.Controller(matches, store0);
      var meter0 := new MeterService.Meter();
      var billing0 := new MeterService.Billing(meter0, rate);
      SeededFrom(seed);
      SeedIds(seed);
      var conn0 := new C.Connector(ctrl0, alloc0, store0, meter0);
      store, alloc, ctrl, meter, billing, conn := store0, alloc0, ctrl0, meter0, billing0, conn0;
      new;
      StartsAs(Seeded(seed), shore, matches);
      assert View() == Initial(Seeded(seed), shore, matches);
      var _ := RebuildLiveState(now);
    }

    /** The berth a request names, by id or by code. */
    method Resolve(code: string, berthID: string) returns (b: string)
      requires Valid()
      ensures V.Resolves(store.berths, berthID, code, b)
    {
      b := berthID;
      if berthID == "" && code != "" {
        var found := store.ByCode(code);
        if found.Some? {
          b := found.value.id;
          assert found.value in store.berths.Values;
        }
      }
    }

    method HandleOccupy(code: string, berthID: string, vessel: string, needKVA: real, now: Time)
      returns (e: Option<Error>, ghost b: string)
      requires Valid()
      modifies store`berths, store`version, store.cache, alloc, alloc.ledger
      ensures Valid() && V.Resolves(old(store.berths), berthID, code, b)
      ensures View().bills == old(View().bills)
      ensures (View().core, e) == V.Occupy(old(View().core), b, vessel, needKVA, now)
    {
      hide OnceInv, CapInv, Allocate, IndexOf, T.MarkOccupied, T.CheckReady, V.Resolves;
      var id := Resolve(code, berthID);
      b := id;
      MarkOccupiedKeeps(store.View(), id, vessel, now);
      if id == "" {
        return Some(BerthRequired), b;
      }
      e := store.CheckReady(id, needKVA);
      if e.Some? {
        return;
      }
      var a := alloc.Allocate(id, vessel, needKVA, now);
      if a.Err? {
        return Some(a.error), b;
      }
      e := store.MarkOccupied(id, vessel, now);
    }

    /** The three steps that free an occupied berth. */
    method Leave(berthID: string, now: Time) returns (e: Option<Error>)
      requires Valid()
      modifies store`berths, store`version, store.cache, alloc, alloc.ledger
      ensures Valid() && View().bills == old(View().bills)
      ensures (View().core, e) == V.Leave(old(View().core), berthID, now)
    {
      hide OnceInv, CapInv, CloseFirst, Fingerprint, IndexOf, T.MarkIdle;
      hide B.Release, T.MarkReleasing, Keyed, NulFreeIds, OnlyRow;
      ReleaseRefused(alloc.View(), berthID, now);
      KeepsIds(store.View(), berthID);
      e := store.MarkReleasing(berthID);
      if e.Some? {
        return;
      }
      KeepsIds(store.View(), berthID);
      e := alloc.Release(berthID, now);
      if e.Some? {
        return;
      }
      e := store.MarkIdle(berthID);
    }

    method HandleDepart(berthID: string, hour: int, now: Time) returns (e: Option<Error>)
      requires Valid()
      modifies store`berths, store`version, store.cache, alloc, alloc.ledger, meter, billing
      ensures Valid()
      ensures (View(), e) == V.Depart(old(View()), billing.rate, berthID, hour, now)
    {
      hide OnceInv, CapInv, M.Settle, V.Leave, IndexOf;
      var vessel := store.OccupiedBy(berthID);
      if vessel.None? {
        return Some(NotOccupied);
      }
      var st := meter.StateOf(vessel.value);
      if st == M.Metering {
        var bill := billing.Settle(vessel.value, hour, now);
        if bill.Err? {
          NoBill(old(View()), billing.rate, vessel.value, hour, now);
          return Some(bill.error);
        }
      }
      e := Leave(berthID, now);
    }

    method HandleSwitch(berthID: string, vessel: string, onGrid: bool, now: Time) returns (e: Option<Error>)
      requires Valid()
      modifies store`berths, store`version, store.cache, ctrl, ctrl.breaker
      ensures Valid() && View().bills == old(View().bills)
      ensures (View().core, e) == V.Switch(old(View().core), onGrid, berthID, vessel, now)
    {
      hide OnceInv, CapInv, W.ApplySequence, IndexOf;
      var steps: seq<W.SeqStep> := [];
      if onGrid {
        steps := steps + [W.SeqStep(W.SetGridState, GridState.Syncing, "", Idle, "")];
        steps := steps + [W.SeqStep(W.SetBerthState, GridState.Off, berthID, Settled, vessel)];
        steps := steps + [W.SeqStep(W.CloseBreaker, GridState.Off, "", Idle, "")];
      } else {
        steps := steps + [W.SeqStep(W.OpenBreaker, GridState.Off, "", Idle, "")];
        steps := steps + [W.SeqStep(W.SetBerthState, GridState.Off, berthID, Idle, "")];
        steps := steps + [W.SeqStep(W.SetGridState, GridState.Off, "", Idle, "")];
      }
      assert steps == W.SwitchSteps(onGrid, berthID, vessel);
      V.SwitchKeepsBerths(conn.View(), onGrid, berthID, vessel, now);
      SameIndex(store.berths, V.Switch(conn.View(), onGrid, berthID, vessel, now).0.tbl.rows, store.codeIdx);
      e := ctrl.ApplySequence(steps, W.Constantly(now));
    }

    /** The berths that capacity is held for. */
    method Backed() returns (backed: set<string>)
      requires alloc.Valid()
      ensures backed == alloc.allocs.Keys
    {
      hide CapInv;
      backed := {};
      var held := alloc.Allocations();
      for i := 0 to |held|
        invariant forall k :: 0 <= k < i ==> held[k].berthID in backed
        invariant forall b :: b in backed ==> exists k :: 0 <= k < i && held[k].berthID == b
      {
        ghost var before := backed;
        backed := backed + {held[i].berthID};
        forall b | b in backed ensures exists k :: 0 <= k < i + 1 && held[k].berthID == b {
          if b in before {
            var k :| 0 <= k < i && held[k].berthID == b;
            assert held[k].berthID == b;
          } else {
            assert held[i].berthID == b;
          }
        }
      }
      HeldBerths(alloc.View(), held, backed);
    }

    /** The rows a recovery puts back: settled where capacity is held, otherwise idle. */
    method LiveRows() returns (live: Rows)
      requires alloc.Valid() && Keyed(store.berths)
      ensures live == V.RebuiltRows(store.berths, alloc.allocs)
    {
      hide CapInv;
      live := map[];
      var backed := Backed();
      var l, keys := store.List();
      for n := 0 to |l|
        invariant forall id :: id in live ==>
                    id in store.berths && live[id] == V.RebuiltRow(store.berths[id], id, alloc.allocs)
        invariant forall k :: 0 <= k < n ==> keys[k] in live
      {
        assert l[n].id == keys[n];
        var b := LiveRow(l[n], backed);
        live := live[b.id := b];
      }
    }

    /** One row of the recovery. */
    method LiveRow(listed: Berth, backed: set<string>) returns (b: Berth)
      requires listed.id in store.berths && store.berths[listed.id] == listed && backed == alloc.allocs.Keys
      ensures b == V.RebuiltRow(listed, listed.id, alloc.allocs)
    {
      b := listed;
      if b.id in backed {
        b := b.(state := Settled);
        var vessel := store.OccupiedBy(b.id);
        if vessel.Some? {
          b := b.(vessel := vessel.value);
        }
      } else {
        b := b.(state := Idle);
        b := b.(vessel := "");
        b := b.(occupiedAt := None);
      }
    }

    method RebuildLiveState(now: Time) returns (released: nat)
      requires Valid()
      modifies store, store.cache, alloc, alloc.ledger
      ensures Valid() && View().bills == old(View().bills)
      ensures (View().core, released) == V.Rebuild(old(View().core), now)
    {
      hide OnceInv, CapInv, V.RebuiltRows, Sync;
      V.RebuildConverges(conn.View(), now, now);
      IndexExists(store.berths, store.codeIdx);
      var live := LiveRows();
      SameCodes(store.berths, live);
      store.RebuildFromLive(live);
      released := alloc.SyncFromStore(now);
    }
  }

  lemma SameIndex(a: Rows, b: Rows, idx: map<string, string>)
    requires SameBerths(a, b)
    ensures IndexOf(a, idx) ==> IndexOf(b, idx)
    ensures Keyed(a) ==> Keyed(b)
    ensures NulFreeIds(a) ==> NulFreeIds(b)
  {
  }

  lemma SameCodes(a: Rows, b: Rows)
    requires SameBerths(a, b)
    ensures DistinctCodes(a) ==> DistinctCodes(b)
    ensures Keyed(a) ==> Keyed(b)
    ensures NulFreeIds(a) ==> NulFreeIds(b)
  {
  }

  lemma HeldBerths(c: Cap, held: seq<Allocation>, backed: set<string>)
    requires CapInv(c) && Capacity.Held(held, c.allocs)
    requires forall k :: 0 <= k < |held| ==> held[k].berthID in backed
    requires forall b :: b in backed ==> exists k :: 0 <= k < |held| && held[k].berthID == b
    ensures backed == c.allocs.Keys
  {
    hide Total, LedgerMatches;
    forall b | b in c.allocs ensures b in backed {
      assert c.allocs[b] in held;
    }
  }

  lemma StartsAs(rows: Rows, shore: real, matches: GridState.Phase -> bool)
    ensures var core := Core(Table(rows, 0), Fresh(shore), GridState.NewGrid(matches), M.NO_METERS, NO_SESSIONS);
            Initial(rows, shore, matches) == V.World(core, M.NO_BILLS)
  {
  }

  lemma SeedIds(seed: seq<Berth>)
    requires forall i :: 0 <= i < |seed| ==> NulFree(seed[i].id)
    ensures NulFreeIds(Seeded(seed))
  {
    hide Seeded;
    SeededFrom(seed);
  }

  lemma KeepsIds(t: Table, id: string)
    requires Keyed(t.rows) && NulFreeIds(t.rows)
    ensures var (t1, e) := T.MarkReleasing(t, id); Keyed(t1.rows) && NulFreeIds(t1.rows) && (e.Some? ==> t1 == t)
    ensures var t1 := T.MarkIdle(t, id).0; Keyed(t1.rows) && NulFreeIds(t1.rows)
  {
  }

  lemma ReleaseRefused(c: Cap, b: string, now: Time)
    ensures Release(c, b, now).1.Some? ==> Release(c, b, now).0 == c
  {
  }

  lemma NoBill(w: V.World, r: M.Rate, vessel: string, hour: int, now: Time)
    ensures var (m, bills, bill) := M.Settle(w.core.met, w.bills, r, vessel, hour, now);
        bill.Err? ==> m == w.core.met && bills == w.bills
  {
  }
}
