/** The capacity plan: berths in code order with what each has allocated. */
module Plan {
  import opened BerthTable
  import opened CapacityBook
  import Capacity

  datatype PlanItem = PlanItem(
    berthID: string, code: string, voltageKV: real, capacityKVA: real, state: BState, vessel: string,
      allocatedKVA: real)

  datatype CapacityPlan = CapacityPlan(shoreKVA: real, usedKVA: real, remainKVA: real, items: seq<PlanItem>)

  /** Byte-wise order of texts. */
  predicate TextLess(a: string, b: string) {
    b != [] && (a == [] || a[0] < b[0] || (a[0] == b[0] && TextLess(a[1..], b[1..])))
  }

  /** One text comes before another exactly if it is a proper beginning of it, or if they first differ in a
      smaller byte. */
  lemma {:induction false} TextLessMeans(a: string, b: string)
    ensures TextLess(a, b) <==>
              || a < b
              || exists k :: 0 <= k < |a| && k < |b| && a[..k] == b[..k] && a[k] < b[k]
  {
    if a != [] && b != [] && a[0] == b[0] {
      TextLessMeans(a[1..], b[1..]);
      if k :| 0 <= k < |a| && k < |b| && a[..k] == b[..k] && a[k] < b[k] {
        assert k > 0 && a[1..][..k - 1] == a[..k][1..] && b[1..][..k - 1] == b[..k][1..];
        assert a[1..][k - 1] < b[1..][k - 1];
      }
      if k :| 0 <= k < |a[1..]| && k < |b[1..]| && a[1..][..k] == b[1..][..k] && a[1..][k] < b[1..][k] {
        assert a[..k + 1] == [a[0]] + a[1..][..k] && b[..k + 1] == [b[0]] + b[1..][..k];
        assert a[k + 1] < b[k + 1];
      }
      assert a < b <==> a[1..] < b[1..] by {
        if a[1..] < b[1..] {
          assert a == [a[0]] + a[1..] && b[..|a|] == [b[0]] + b[1..][..|a| - 1];
        }
        if a < b {
          assert a[1..] == b[..|a|][1..] && b[..|a|][1..] == b[1..][..|a| - 1];
        }
      }
    } else if a != [] && b != [] {
      assert a[..0] == b[..0];
    }
  }

  lemma {:induction false} TextLessTransitive(a: string, b: string, c: string)
    requires !TextLess(b, a) && !TextLess(c, b)
    ensures !TextLess(c, a)
    decreases |a| + |b| + |c|
  {
    if a != [] && b != [] && c != [] && a[0] == b[0] == c[0] {
      TextLessTransitive(a[1..], b[1..], c[1..]);
    }
  }

  lemma {:induction false} TextLessTotal(a: string, b: string)
    ensures !(TextLess(a, b) && TextLess(b, a))
    decreases |a| + |b|
  {
    if a != [] && b != [] && a[0] == b[0] {
      TextLessTotal(a[1..], b[1..]);
    }
  }

  ghost predicate ByCode(l: seq<Berth>) {
    forall i, j :: 0 <= i < j < |l| ==> !TextLess(l[j].code, l[i].code)
  }

  function Demand(allocs: map<string, Allocation>, b: Berth): real {
    if b.id in allocs then allocs[b.id].kva else 0.0
  }

  function ItemFor(allocs: map<string, Allocation>, b: Berth): PlanItem {
    PlanItem(b.id, b.code, b.voltageKV, b.capacityKVA, b.state, b.vessel, Demand(allocs, b))
  }

  function SumDemand(allocs: map<string, Allocation>, l: seq<Berth>): real {
    if l == [] then 0.0 else SumDemand(allocs, l[..|l| - 1]) + Demand(allocs, l[|l| - 1])
  }

  function SumItems(items: seq<PlanItem>): real {
    if items == [] then 0.0 else SumItems(items[..|items| - 1]) + items[|items| - 1].allocatedKVA
  }

  function Ids(l: seq<Berth>): (ids: seq<string>)
    ensures |ids| == |l| && forall i :: 0 <= i < |l| ==> ids[i] == l[i].id
  {
    seq(|l|, i requires 0 <= i < |l| => l[i].id)
  }

  /** A listing of rows under their own ids. */
  ghost predicate Lists(l: seq<Berth>, rows: Rows) {
    Listing(l, Ids(l), rows)
  }

  /** Where the insertion sort puts a berth among sorted ones. */
  method Insert(l: seq<Berth>, b: Berth) returns (r: seq<Berth>, k: nat)
    requires ByCode(l)
    ensures k <= |l| && r == l[..k] + [b] + l[k..] && ByCode(r)
  {
    k := |l|;
    while k > 0 && TextLess(b.code, l[k - 1].code)
      invariant k <= |l|
      invariant forall i :: k <= i < |l| ==> TextLess(b.code, l[i].code)
    {
      k := k - 1;
    }
    r := l[..k] + [b] + l[k..];
    forall i | 0 <= i < k ensures !TextLess(b.code, l[i].code) {
      if i < k - 1 {
        TextLessTransitive(l[i].code, l[k - 1].code, b.code);
      }
    }
    forall i | k <= i < |l| ensures !TextLess(l[i].code, b.code) {
      TextLessTotal(b.code, l[i].code);
    }
  }

  lemma InsertedHas(l: seq<Berth>, b: Berth, k: nat, id: string)
    requires k <= |l| && (id == b.id || id in Ids(l))
    ensures id in Ids(l[..k] + [b] + l[k..])
  {
    var r := l[..k] + [b] + l[k..];
    if id == b.id {
      assert Ids(r)[k] == id;
    } else {
      var i :| 0 <= i < |l| && Ids(l)[i] == id;
      assert Ids(r)[if i < k then i else i + 1] == id;
    }
  }

  lemma InsertLists(l: seq<Berth>, b: Berth, k: nat, rows: Rows)
    requires Lists(l, rows) && k <= |l| && b.id !in rows
    ensures Lists(l[..k] + [b] + l[k..], rows[b.id := b])
  {
    forall id | id in rows[b.id := b] ensures id in Ids(l[..k] + [b] + l[k..]) {
      InsertedHas(l, b, k, id);
    }
  }

  /** The demands of all rows add up to the whole of what is used, when every allocation is for a
      berth of the table. */
  lemma {:induction false} DemandsAddUp(allocs: map<string, Allocation>, used: map<string, real>, l: seq<Berth>,
    rows: Rows)
    requires Lists(l, rows) && used.Keys == allocs.Keys <= rows.Keys
    requires forall b :: b in allocs ==> used[b] == allocs[b].kva
    ensures SumDemand(allocs, l) == Total(used)
    decreases |l|
  {
    hide Total;
    if l == [] {
      assert rows == map[] && used == map[];
      EmptyTotal();
    } else {
      var b, rest := l[|l| - 1], l[..|l| - 1];
      ShorterLists(l, rows);
      DemandsAddUp(allocs - {b.id}, used - {b.id}, rest, rows - {b.id});
      SameDemand(allocs, rest, b.id);
      if b.id in used {
        TotalRemove(used, b.id);
      } else {
        assert used - {b.id} == used;
      }
    }
  }

  lemma EmptyTotal()
    ensures Total(map[]) == 0.0
  {
  }

  lemma ShorterLists(l: seq<Berth>, rows: Rows)
    requires Lists(l, rows) && l != []
    ensures Lists(l[..|l| - 1], rows - {l[|l| - 1].id})
  {
    var rest, last := l[..|l| - 1], l[|l| - 1];
    forall id | id in rows - {last.id} ensures id in Ids(rest) {
      var i :| 0 <= i < |l| && Ids(l)[i] == id;
      assert Ids(rest)[i] == id;
    }
  }

  lemma {:induction false} SameDemand(allocs: map<string, Allocation>, l: seq<Berth>, id: string)
    requires forall i :: 0 <= i < |l| ==> l[i].id != id
    ensures SumDemand(allocs - {id}, l) == SumDemand(allocs, l)
  {
    if l != [] {
      SameDemand(allocs, l[..|l| - 1], id);
    }
  }

  /** The plan lists every berth once in code order with its allocation; its figures balance, and
      unless some allocation is for a berth the table lost, the items account for all that is used. */
  method BuildPlan(alloc: Capacity.Allocator) returns (p: CapacityPlan, ghost berths: seq<Berth>)
    requires alloc.Valid() && Keyed(alloc.store.berths)
    ensures Lists(berths, alloc.store.berths) && ByCode(berths)
    ensures |p.items| == |berths| && forall i :: 0 <= i < |berths| ==> p.items[i] == ItemFor(alloc.allocs, berths[i])
    ensures forall i :: 0 <= i < |berths| ==>
              var (item, b) := (p.items[i], berths[i]);
              && item.berthID == b.id && item.code == b.code && item.state == b.state && item.vessel == b.vessel
              && item.voltageKV == b.voltageKV && item.capacityKVA == b.capacityKVA
              && item.allocatedKVA == if b.id in alloc.allocs then alloc.allocs[b.id].kva else 0.0
    ensures p.shoreKVA == alloc.shore && p.usedKVA == Total(alloc.used) && p.usedKVA + p.remainKVA == p.shoreKVA
    ensures alloc.allocs.Keys <= alloc.store.berths.Keys ==> SumItems(p.items) == p.usedKVA
  {
    hide Total, CapInv, Lists, ByCode;
    var used := alloc.UsedTotal();
    var remain := alloc.Remain();
    var sorted := SortedList(alloc);
    var items := Items(alloc, sorted);
    berths := sorted;
    p := CapacityPlan(alloc.shore, used, remain, items);
    DemandColumn(alloc.View());
    if alloc.allocs.Keys <= alloc.store.berths.Keys {
      DemandsAddUp(alloc.allocs, alloc.used, sorted, alloc.store.berths);
    }
  }

  /** One item for each listed berth. */
  method Items(alloc: Capacity.Allocator, sorted: seq<Berth>) returns (items: seq<PlanItem>)
    ensures |items| == |sorted| && forall i :: 0 <= i < |sorted| ==> items[i] == ItemFor(alloc.allocs, sorted[i])
    ensures SumItems(items) == SumDemand(alloc.allocs, sorted)
  {
    items := [];
    for n := 0 to |sorted|
      invariant |items| == n && SumItems(items) == SumDemand(alloc.allocs, sorted[..n])
      invariant forall i :: 0 <= i < n ==> items[i] == ItemFor(alloc.allocs, sorted[i])
    {
      var b := sorted[n];
      var item := PlanItem(b.id, b.code, b.voltageKV, b.capacityKVA, b.state, b.vessel, 0.0);
      var held := alloc.AllocationOf(b.id);
      if held.Some? {
        item := item.(allocatedKVA := held.value.kva);
      }
      SumsNext(alloc.allocs, sorted, n, items, item);
      items := items + [item];
    }
    assert sorted[..|sorted|] == sorted;
  }

  lemma SumsNext(allocs: map<string, Allocation>, l: seq<Berth>, n: nat, items: seq<PlanItem>, item: PlanItem)
    requires n < |l|
    ensures SumItems(items + [item]) == SumItems(items) + item.allocatedKVA
    ensures SumDemand(allocs, l[..n + 1]) == SumDemand(allocs, l[..n]) + Demand(allocs, l[n])
  {
    assert l[..n + 1][..n] == l[..n] && (items + [item])[..|items|] == items;
  }

  lemma DemandColumn(c: Cap)
    requires CapInv(c)
    ensures c.used.Keys == c.allocs.Keys && forall b :: b in c.allocs ==> c.used[b] == c.allocs[b].kva
  {
  }

  /** The rows that the first `n` keys of a listing name. */
  ghost function RowsAt(rows: Rows, keys: seq<string>, n: nat): Rows
    requires n <= |keys| && forall i :: 0 <= i < |keys| ==> keys[i] in rows
  {
    if n == 0 then map[] else RowsAt(rows, keys, n - 1)[keys[n - 1] := rows[keys[n - 1]]]
  }

  lemma {:induction false} RowsAtKeys(rows: Rows, keys: seq<string>, n: nat)
    requires n <= |keys| && forall i :: 0 <= i < |keys| ==> keys[i] in rows
    ensures forall id :: id in RowsAt(rows, keys, n) <==> exists i :: 0 <= i < n && keys[i] == id
    ensures forall id :: id in RowsAt(rows, keys, n) ==> RowsAt(rows, keys, n)[id] == rows[id]
  {
    if n > 0 {
      RowsAtKeys(rows, keys, n - 1);
    }
  }

  lemma ListingKeys(l: seq<Berth>, keys: seq<string>, rows: Rows)
    requires Listing(l, keys, rows) && Keyed(rows)
    ensures |keys| == |l|
    ensures forall i :: 0 <= i < |keys| ==> keys[i] in rows && l[i] == rows[keys[i]] && l[i].id == keys[i]
  {
  }

  lemma NextNew(l: seq<Berth>, keys: seq<string>, rows: Rows, n: nat)
    requires Listing(l, keys, rows) && n < |l|
    ensures keys[n] !in RowsAt(rows, keys, n)
  {
    RowsAtKeys(rows, keys, n);
  }

  lemma RowsAtAll(l: seq<Berth>, keys: seq<string>, rows: Rows)
    requires Listing(l, keys, rows)
    ensures RowsAt(rows, keys, |l|) == rows
  {
    RowsAtKeys(rows, keys, |l|);
  }

  /** The berths of the table sorted by code. */
  method SortedList(alloc: Capacity.Allocator) returns (sorted: seq<Berth>)
    requires Keyed(alloc.store.berths)
    ensures Lists(sorted, alloc.store.berths) && ByCode(sorted)
  {
    hide Listing, ByCode, Keyed;
    var l, keys := alloc.store.List();
    ghost var rows := alloc.store.berths;
    sorted := [];
    ListingKeys(l, keys, rows);
    NothingSorted();
    for n := 0 to |l|
      invariant Lists(sorted, RowsAt(rows, keys, n)) && ByCode(sorted)
    {
      var k;
      ghost var before := sorted;
      sorted, k := Insert(sorted, l[n]);
      NextNew(l, keys, rows, n);
      InsertLists(before, l[n], k, RowsAt(rows, keys, n));
    }
    RowsAtAll(l, keys, rows);
  }

  lemma NothingSorted()
    ensures Lists([], map[]) && ByCode([])
  {
  }
}
