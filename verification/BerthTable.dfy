/** The berth table as a value: its rows, the transitions of one row, and what the cached state
    column and the code index have to agree with. */
module BerthTable {
  import opened Prelude
  import Decimal

  datatype BState = Idle | Allocating | Settled | Releasing

  datatype Berth = Berth(
    id: string, code: string, voltageKV: real, capacityKVA: real,
    state: BState, vessel: string, occupiedAt: Option<Time>, fingerprint: string)

  type Rows = map<string, Berth>

  /** The table as its callers see it. Cache and code index are determined by the rows. */
  datatype Table = Table(rows: Rows, version: nat)

  function Put(t: Table, id: string, b: Berth): Table {
    Table(t.rows[id := b], t.version + 1)
  }

  ghost predicate Keyed(rows: Rows) {
    forall id :: id in rows ==> rows[id].id == id
  }

  ghost predicate NulFreeIds(rows: Rows) {
    forall id :: id in rows ==> NulFree(id)
  }

  function States(rows: Rows): map<string, BState> {
    map id | id in rows :: rows[id].state
  }

  /** `idx` is the inverse of the non-empty codes of the rows. */
  ghost predicate IndexOf(rows: Rows, idx: map<string, string>) {
    && (forall id :: id in rows && rows[id].code != "" ==> rows[id].code in idx && idx[rows[id].code] == id)
    && (forall c :: c in idx ==> c != "" && idx[c] in rows && rows[idx[c]].code == c)
  }

  ghost predicate DistinctCodes(rows: Rows) {
    forall i, j :: i in rows && j in rows && rows[i].code != "" && rows[i].code == rows[j].code ==> i == j
  }

  // The transitions of one row.

  function Stamp(id: string, now: Time): string {
    id + "@" + Decimal.Dec(now)
  }

  /** A stamp names the berth and the time of the stay. */
  lemma StampReads(id: string, now: Time)
    ensures var s := Stamp(id, now); id + "@" <= s && Decimal.ParseInt(s[|id| + 1..]) == Some(now)
  {
    hide Decimal.ParseInt, Decimal.Dec;
    Decimal.PrintThenRead(now);
    assert Stamp(id, now) == (id + "@") + Decimal.Dec(now);
  }

  /** Two stays at a berth are told apart by their stamps. */
  lemma StampTells(id: string, a: Time, b: Time)
    ensures Stamp(id, a) == Stamp(id, b) <==> a == b
  {
    assert Stamp(id, a)[|id| + 1..] == Decimal.Dec(a) && Stamp(id, b)[|id| + 1..] == Decimal.Dec(b);
    Decimal.PrintThenRead(a);
    Decimal.PrintThenRead(b);
  }

  function Occupied(b: Berth, id: string, who: string, now: Time): Berth {
    b.(state := Settled, vessel := who, occupiedAt := Some(now), fingerprint := Stamp(id, now))
  }

  function Vacated(b: Berth): Berth {
    b.(state := Idle, vessel := "", occupiedAt := None)
  }

  function MarkOccupied(t: Table, id: string, vessel: string, now: Time): (Table, Option<Error>) {
    if id !in t.rows then (t, Some(NotFound))
    else if !t.rows[id].state.Idle? && !t.rows[id].state.Allocating? then (t, Some(Busy))
    else if vessel == "" then (t, Some(VesselRequired))
    else (Put(t, id, Occupied(t.rows[id], id, vessel, now)), None)
  }

  /** Both `MarkIdle` and `ResetState` of the program. */
  function MarkIdle(t: Table, id: string): (Table, Option<Error>) {
    if id !in t.rows then (t, Some(NotFound))
    else if t.rows[id].state.Idle? then (t, None)
    else (Put(t, id, Vacated(t.rows[id])), None)
  }

  function MarkAllocating(t: Table, id: string): (Table, Option<Error>) {
    if id !in t.rows then (t, Some(NotFound))
    else if !t.rows[id].state.Idle? then (t, Some(Busy))
    else (Put(t, id, t.rows[id].(state := Allocating)), None)
  }

  function MarkReleasing(t: Table, id: string): (Table, Option<Error>) {
    if id !in t.rows then (t, Some(NotFound))
    else if !t.rows[id].state.Settled? then (t, Some(BadState))
    else (Put(t, id, t.rows[id].(state := Releasing)), None)
  }

  function RestoreOne(t: Table, b: Berth): (Table, Option<Error>) {
    if b.id !in t.rows then (t, Some(NotFound)) else (Put(t, b.id, b), None)
  }

  function CheckReady(rows: Rows, id: string, needKVA: real): Option<Error> {
    if id !in rows then Some(NotFound)
    else if !rows[id].state.Idle? then Some(Busy)
    else if needKVA <= 0.0 then Some(DemandNotPositive)
    else if needKVA > rows[id].capacityKVA then Some(DemandExceedsBerth)
    else None
  }

  function OccupiedBy(rows: Rows, id: string): Option<string> {
    if id in rows && rows[id].vessel != "" then Some(rows[id].vessel) else None
  }

  /** The same berths with the same fixed data; occupancy may differ. */
  ghost predicate SameBerths(a: Rows, b: Rows) {
    && a.Keys == b.Keys
    && forall id :: id in a ==>
         && a[id].id == b[id].id && a[id].code == b[id].code
         && a[id].voltageKV == b[id].voltageKV && a[id].capacityKVA == b[id].capacityKVA
  }

  /** At most the row of `id` differs, and its fixed data is kept. */
  ghost predicate OnlyRow(a: Rows, b: Rows, id: string) {
    SameBerths(a, b) && forall x :: x in a && x != id ==> b[x] == a[x]
  }

  lemma OnlyRowSelf(a: Rows, id: string)
    ensures OnlyRow(a, a, id)
  {
  }

  /** Marking a berth touches no other row, keeps the row's fixed data, and is all or nothing. */
  lemma MarkOccupiedKeeps(t: Table, id: string, vessel: string, now: Time)
    ensures var (t1, e) := MarkOccupied(t, id, vessel, now); OnlyRow(t.rows, t1.rows, id) && (e.Some? ==> t1 == t)
  {
    hide Stamp;
  }

  lemma MarkIdleKeeps(t: Table, id: string)
    ensures var (t1, e) := MarkIdle(t, id);
            OnlyRow(t.rows, t1.rows, id) && (e.Some? ==> t1 == t) && (e.None? <==> id in t.rows)
  {
  }

  /** A listing of the rows in some order: `keys` names each row once. */
  ghost predicate Listing(l: seq<Berth>, keys: seq<string>, rows: Rows) {
    && |l| == |keys|
    && (forall i :: 0 <= i < |keys| ==> keys[i] in rows && l[i] == rows[keys[i]])
    && (forall i, j :: 0 <= i < j < |keys| ==> keys[i] != keys[j])
    && (forall id :: id in rows ==> id in keys)
  }

  /** The rows of a seed list; a repeated id keeps its last entry. */
  function Seeded(seed: seq<Berth>): Rows {
    if seed == [] then map[]
    else var last := seed[|seed| - 1]; Seeded(seed[..|seed| - 1])[last.id := last]
  }

  ghost predicate DistinctSeed(seed: seq<Berth>) {
    forall i, j :: 0 <= i < j < |seed| ==>
      seed[i].id != seed[j].id && (seed[i].code == "" || seed[i].code != seed[j].code)
  }

  /** Seeded rows come from the list, under their own ids. */
  lemma {:induction false} SeededFrom(seed: seq<Berth>)
    ensures Keyed(Seeded(seed))
    ensures forall id :: id in Seeded(seed) ==> Seeded(seed)[id] in seed
  {
    if seed != [] {
      SeededFrom(seed[..|seed| - 1]);
    }
  }

  lemma SeedStep(seed: seq<Berth>, n: nat)
    requires n < |seed|
    ensures Seeded(seed[..n + 1]) == Seeded(seed[..n])[seed[n].id := seed[n]]
    ensures DistinctSeed(seed) ==> seed[n].id !in Seeded(seed[..n])
    ensures DistinctSeed(seed) && seed[n].code != "" ==>
              forall id :: id in Seeded(seed[..n]) ==> Seeded(seed[..n])[id].code != seed[n].code
  {
    SeededFrom(seed[..n]);
    assert seed[..n + 1][..n] == seed[..n];
  }

  lemma StatesPut(rows: Rows, id: string, b: Berth)
    ensures States(rows[id := b]) == States(rows)[id := b.state]
  {
  }

  /** A new row with an unused id and code keeps the index faithful. */
  lemma IndexExtended(rows: Rows, idx: map<string, string>, b: Berth)
    requires IndexOf(rows, idx) && b.id !in rows
    requires b.code != "" ==> forall id :: id in rows ==> rows[id].code != b.code
    ensures IndexOf(rows[b.id := b], if b.code != "" then idx[b.code := b.id] else idx)
  {
  }

  /** An index stays the inverse of the codes under a row change exactly when the code is kept. */
  lemma IndexKept(rows: Rows, idx: map<string, string>, id: string, b: Berth)
    requires IndexOf(rows, idx) && id in rows
    ensures IndexOf(rows[id := b], idx) <==> b.code == rows[id].code
  {
    var after := rows[id := b];
    assert after[id] == b;
    if IndexOf(after, idx) {
      if rows[id].code != "" {
        assert after[idx[rows[id].code]].code == rows[id].code;
      }
      if b.code != "" {
        assert rows[idx[after[id].code]].code == b.code;
      }
    }
  }

  /** A rebuilt index exists exactly when no two rows share a non-empty code. */
  lemma IndexExists(rows: Rows, idx: map<string, string>)
    requires IndexOf(rows, idx)
    ensures DistinctCodes(rows)
  {
    forall i, j | i in rows && j in rows && rows[i].code != "" && rows[i].code == rows[j].code ensures i == j {
      assert idx[rows[i].code] == i && idx[rows[j].code] == j;
    }
  }
}
