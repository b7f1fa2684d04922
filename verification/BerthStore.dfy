/** The berth store in place: table, state cache and code index, each operation proved against the
    value it computes. */
module BerthStore {
  import opened Prelude
  import opened BerthTable
  import T = BerthTable

  class Cache {
    var entries: map<string, BState>

    constructor ()
      ensures entries == map[]
    {
      entries := map[];
    }

    method Put(id: string, st: BState)
      modifies this
      ensures entries == old(entries)[id := st]
    {
      entries := entries[id := st];
    }

    method Get(id: string) returns (st: Option<BState>)
      ensures st == if id in entries then Some(entries[id]) else None
    {
      return if id in entries then Some(entries[id]) else None;
    }

    method Reset(states: map<string, BState>)
      modifies this
      ensures entries == states
    {
      entries := map[];
      var todo := states.Keys;
      while todo != {}
        invariant todo <= states.Keys
        invariant entries.Keys == states.Keys - todo
        invariant forall id :: id in entries ==> entries[id] == states[id]
      {
        var id :| id in todo;
        entries := entries[id := states[id]];
        todo := todo - {id};
      }
    }
  }

  class Store {
    var berths: Rows
    var codeIdx: map<string, string>
    const cache: Cache
    var snapshot: Rows
    var version: nat

    /** The cache is the state column of the table, for exactly its keys. */
    ghost predicate Valid()
      reads this, cache
    {
      cache.entries == States(berths)
    }

    ghost predicate Indexed()
      reads this
    {
      IndexOf(berths, codeIdx)
    }

    ghost function View(): Table
      reads this
    {
      Table(berths, version)
    }

    constructor (seed: seq<Berth>)
      ensures Valid() && fresh(cache)
      ensures View() == Table(Seeded(seed), 0) && Keyed(berths)
      ensures DistinctSeed(seed) ==> Indexed()
    {
      berths, codeIdx, snapshot, version := map[], map[], map[], 0;
      cache := new Cache();
      new;
      for n := 0 to |seed|
        invariant Valid() && View() == Table(Seeded(seed[..n]), 0)
        invariant DistinctSeed(seed) ==> Indexed()
      {
        var b := seed[n];
        SeedStep(seed, n);
        StatesPut(berths, b.id, b);
        if DistinctSeed(seed) {
          IndexExtended(berths, codeIdx, b);
        }
        berths := berths[b.id := b];
        if b.code != "" {
          codeIdx := codeIdx[b.code := b.id];
        }
        cache.Put(b.id, b.state);
      }
      SeededFrom(seed);
      assert seed[..|seed|] == seed;
    }

    method Get(id: string) returns (b: Option<Berth>)
      ensures b == if id in berths then Some(berths[id]) else None
    {
      return if id in berths then Some(berths[id]) else None;
    }

    /** With a faithful index, lookup by code is exactly search by code. */
    method ByCode(code: string) returns (b: Option<Berth>)
      ensures b.Some? && Indexed() ==> code != "" && b.value.code == code && b.value in berths.Values
      ensures b.None? && Indexed() ==> code == "" || forall id :: id in berths ==> berths[id].code != code
    {
      if code !in codeIdx || codeIdx[code] !in berths {
        return None;
      }
      return Some(berths[codeIdx[code]]);
    }

    /** Every row once, in an arbitrary order. */
    method List() returns (l: seq<Berth>, ghost keys: seq<string>)
      ensures Listing(l, keys, berths)
    {
      l, keys := [], [];
      var todo := berths.Keys;
      while todo != {}
        invariant todo <= berths.Keys && |l| == |keys|
        invariant forall i :: 0 <= i < |keys| ==> keys[i] in berths && keys[i] !in todo && l[i] == berths[keys[i]]
        invariant forall i, j :: 0 <= i < j < |keys| ==> keys[i] != keys[j]
        invariant forall id :: id in berths ==> id in keys || id in todo
      {
        var id :| id in todo;
        ghost var before := keys;
        l, keys := l + [berths[id]], keys + [id];
        assert forall x :: x in before ==> x in keys;
        assert keys[|before|] == id;
        todo := todo - {id};
      }
    }

    method State(id: string) returns (st: Option<BState>)
      ensures st == if id in berths then Some(berths[id].state) else None
    {
      return if id in berths then Some(berths[id].state) else None;
    }

    /** The fast form of `State`: with a valid cache the two agree on every id. */
    method CachedState(id: string) returns (st: Option<BState>)
      requires Valid()
      ensures st == if id in berths then Some(berths[id].state) else None
    {
      st := cache.Get(id);
    }

    method MarkOccupied(id: string, vessel: string, now: Time) returns (e: Option<Error>)
      requires Valid()
      modifies this`berths, this`version, cache
      ensures Valid() && (old(Indexed()) ==> Indexed())
      ensures (View(), e) == T.MarkOccupied(old(View()), id, vessel, now)
    {
      hide Stamp;
      if id !in berths {
        return Some(NotFound);
      }
      var b := berths[id];
      if !b.state.Idle? && !b.state.Allocating? {
        return Some(Busy);
      }
      if vessel == "" {
        return Some(VesselRequired);
      }
      b := b.(state := Settled);
      b := b.(vessel := vessel);
      b := b.(occupiedAt := Some(now));
      b := b.(fingerprint := Stamp(id, now));
      berths := berths[id := b];
      cache.Put(id, Settled);
      version := version + 1;
      return None;
    }

    method MarkIdle(id: string) returns (e: Option<Error>)
      requires Valid()
      modifies this`berths, this`version, cache
      ensures Valid() && (old(Indexed()) ==> Indexed())
      ensures (View(), e) == T.MarkIdle(old(View()), id)
    {
      if id !in berths {
        return Some(NotFound);
      }
      if berths[id].state.Idle? {
        return None;
      }
      berths := berths[id := Vacated(berths[id])];
      cache.Put(id, Idle);
      version := version + 1;
      return None;
    }

    method MarkAllocating(id: string) returns (e: Option<Error>)
      requires Valid()
      modifies this`berths, this`version, cache
      ensures Valid() && (old(Indexed()) ==> Indexed())
      ensures (View(), e) == T.MarkAllocating(old(View()), id)
    {
      if id !in berths {
        return Some(NotFound);
      }
      if !berths[id].state.Idle? {
        return Some(Busy);
      }
      berths := berths[id := berths[id].(state := Allocating)];
      cache.Put(id, Allocating);
      version := version + 1;
      return None;
    }

    method MarkReleasing(id: string) returns (e: Option<Error>)
      requires Valid()
      modifies this`berths, this`version, cache
      ensures Valid() && (old(Indexed()) ==> Indexed())
      ensures (View(), e) == T.MarkReleasing(old(View()), id)
    {
      if id !in berths {
        return Some(NotFound);
      }
      if !berths[id].state.Settled? {
        return Some(BadState);
      }
      berths := berths[id := berths[id].(state := Releasing)];
      cache.Put(id, Releasing);
      version := version + 1;
      return None;
    }

    method CheckReady(id: string, needKVA: real) returns (e: Option<Error>)
      ensures e == T.CheckReady(berths, id, needKVA)
      ensures e.None? <==> id in berths && berths[id].state.Idle? && 0.0 < needKVA <= berths[id].capacityKVA
    {
      if id !in berths {
        return Some(NotFound);
      }
      if !berths[id].state.Idle? {
        return Some(Busy);
      }
      if needKVA <= 0.0 {
        return Some(DemandNotPositive);
      }
      if needKVA > berths[id].capacityKVA {
        return Some(DemandExceedsBerth);
      }
      return None;
    }

    method OccupiedBy(id: string) returns (v: Option<string>)
      ensures v == T.OccupiedBy(berths, id)
    {
      if id !in berths || berths[id].vessel == "" {
        return None;
      }
      return Some(berths[id].vessel);
    }

    method PersistSnapshot()
      modifies this`snapshot
      ensures snapshot == berths
    {
      snapshot := map[];
      var todo := berths.Keys;
      while todo != {}
        invariant todo <= berths.Keys
        invariant snapshot.Keys == berths.Keys - todo
        invariant forall id :: id in snapshot ==> snapshot[id] == berths[id]
      {
        var id :| id in todo;
        snapshot := snapshot[id := berths[id]];
        todo := todo - {id};
      }
    }

    /** Copies of the rows and of their states. */
    method CopyLive(live: Rows) returns (next: Rows, states: map<string, BState>)
      ensures next == live && states == States(live)
    {
      next, states := map[], map[];
      var todo := live.Keys;
      while todo != {}
        invariant todo <= live.Keys
        invariant next.Keys == states.Keys == live.Keys - todo
        invariant forall id :: id in next ==> next[id] == live[id] && states[id] == live[id].state
      {
        var id :| id in todo;
        next, states := next[id := live[id]], states[id := live[id].state];
        todo := todo - {id};
      }
    }

    /** The index is built anew; of rows that share a code the last one visited keeps it. */
    method IndexLive(live: Rows)
      modifies this`codeIdx
      ensures IndexOf(live, codeIdx) <==> DistinctCodes(live)
    {
      codeIdx := map[];
      var todo := live.Keys;
      while todo != {}
        invariant todo <= live.Keys
        invariant forall c :: c in codeIdx ==> c != "" && codeIdx[c] in live && live[codeIdx[c]].code == c
        invariant forall id :: id in live && id !in todo && live[id].code != "" ==> live[id].code in codeIdx
      {
        var id :| id in todo;
        if live[id].code != "" {
          codeIdx := codeIdx[live[id].code := id];
        }
        todo := todo - {id};
      }
      if IndexOf(live, codeIdx) {
        IndexExists(live, codeIdx);
      }
    }

    /** Replaces table, cache and index together. The new index inverts the codes exactly when
        they are distinct. */
    method RebuildFromLive(live: Rows)
      requires Valid()
      modifies this, cache
      ensures Valid() && View() == Table(live, old(version) + 1)
      ensures Indexed() <==> DistinctCodes(live)
    {
      hide IndexOf, DistinctCodes;
      var next, states := CopyLive(live);
      berths := next;
      cache.Reset(states);
      IndexLive(live);
      version := version + 1;
    }

    method RestoreOne(b: Berth) returns (e: Option<Error>)
      requires Valid()
      modifies this`berths, this`version, cache
      ensures Valid() && (View(), e) == T.RestoreOne(old(View()), b)
      ensures e.None? && old(Indexed()) ==> (Indexed() <==> b.code == old(berths)[b.id].code)
      ensures e.Some? ==> (Indexed() <==> old(Indexed()))
    {
      if b.id !in berths {
        return Some(NotFound);
      }
      if Indexed() {
        IndexKept(berths, codeIdx, b.id, b);
      }
      berths := berths[b.id := b];
      cache.Put(b.id, b.state);
      version := version + 1;
      return None;
    }
  }
}
