/** Shore capacity as a value: live allocations, their demand column and the allocation ledger. */
module CapacityBook {
  import opened Prelude
  import opened BerthTable
  import Decimal

  datatype Allocation = Allocation(id: string, berthID: string, vessel: string, kva: real, at: Time)

  datatype LedgerRecord = LedgerRecord(allocation: Allocation, fingerprint: string, closedAt: Option<Time>)

  datatype Cap = Cap(shore: real, used: map<string, real>, allocs: map<string, Allocation>, items: seq<LedgerRecord>)

  // Sums over maps, independent of iteration order.

  ghost function Pick<V>(m: map<string, V>): string
    requires m != map[]
    ensures Pick(m) in m
  {
    var k :| k in m; k
  }

  ghost function Total(m: map<string, real>): real
    decreases m.Keys
  {
    if m == map[] then 0.0 else m[Pick(m)] + Total(m - {Pick(m)})
  }

  /** Any key may be taken out first. */
  lemma {:induction false} TotalRemove(m: map<string, real>, k: string)
    requires k in m
    ensures Total(m) == m[k] + Total(m - {k})
    decreases m.Keys
  {
    var j := Pick(m);
    if j != k {
      TotalRemove(m - {j}, k);
      TotalRemove(m - {k}, j);
      assert m - {j} - {k} == m - {k} - {j};
    }
  }

  lemma TotalAdd(m: map<string, real>, k: string, v: real)
    requires k !in m
    ensures Total(m[k := v]) == Total(m) + v
  {
    TotalRemove(m[k := v], k);
    assert m[k := v] - {k} == m;
  }

  function Restrict(m: map<string, real>, d: set<string>): map<string, real> {
    map k | k in m && k in d :: m[k]
  }

  lemma {:induction false} TotalSplit(m: map<string, real>, d: set<string>)
    ensures Total(m) == Total(m - d) + Total(Restrict(m, d))
    decreases m.Keys
  {
    if m != map[] {
      var k := Pick(m);
      TotalSplit(m - {k}, d);
      if k in d {
        assert m - {k} - d == m - d;
        TotalRemove(Restrict(m, d), k);
        assert Restrict(m, d) - {k} == Restrict(m - {k}, d);
      } else {
        TotalRemove(m - d, k);
        assert m - d - {k} == m - {k} - d;
        assert Restrict(m, d) == Restrict(m - {k}, d);
      }
    } else {
      assert m - d == map[] && Restrict(m, d) == map[];
    }
  }

  lemma {:induction false} TotalNonNegative(m: map<string, real>)
    requires forall k :: k in m ==> m[k] > 0.0
    ensures Total(m) >= 0.0
    decreases m.Keys
  {
    if m != map[] {
      TotalNonNegative(m - {Pick(m)});
    }
  }

  ghost function Remain(c: Cap): real {
    c.shore - Total(c.used)
  }

  // Texts.

  /** Nearest integer, ties to even. */
  function Round(x: real): int {
    var f := x.Floor;
    var rest := x - f as real;
    if rest < 0.5 || (rest == 0.5 && f % 2 == 0) then f else f + 1
  }

  /** Two decimals. */
  function Fixed2(x: real): string {
    var c := Round(x * 100.0);
    var n: nat := if c < 0 then -c else c;
    (if c < 0 then "-" else "") + Decimal.Digits(n / 100) + "." + Decimal.Digits(n % 100 / 10) + Decimal.Digits(n % 10)
  }

  function AllocID(berthID: string, vessel: string, kva: real): string {
    "all-" + berthID + "-" + vessel + "-" + Decimal.Dec(Round(kva))
  }

  /** The text whose hash is a ledger record's fingerprint. */
  function Fingerprint(a: Allocation): string {
    a.berthID + [NUL] + (a.vessel + [NUL] + Fixed2(a.kva) + [NUL] + Decimal.Dec(a.at))
  }

  /** Equal fingerprints belong to the same berth, whatever the vessels are called. */
  lemma FingerprintBerth(a: Allocation, b: Allocation)
    requires NulFree(a.berthID) && NulFree(b.berthID)
    requires Fingerprint(a) == Fingerprint(b)
    ensures a.berthID == b.berthID
  {
    FirstFieldOf(a.berthID, a.vessel + [NUL] + Fixed2(a.kva) + [NUL] + Decimal.Dec(a.at));
    FirstFieldOf(b.berthID, b.vessel + [NUL] + Fixed2(b.kva) + [NUL] + Decimal.Dec(b.at));
  }

  /** Rounding is to the nearest integer, and to the even one of two equally near. */
  lemma RoundNearest(x: real)
    ensures var d := x - Round(x) as real; -0.5 <= d <= 0.5 && ((d == 0.5 || d == -0.5) ==> Round(x) % 2 == 0)
  {
  }

  /** Leaving out the point before the last two digits, the text reads as the hundredths it was rounded to. */
  lemma Fixed2Reads(x: real)
    ensures var s := Fixed2(x);
            && |s| >= 4 && s[|s| - 3] == '.'
            && Decimal.ParseInt(s[..|s| - 3] + s[|s| - 2..]) == Some(Round(x * 100.0))
  {
    hide Round, Decimal.Digits, Decimal.ParseInt, Decimal.Value, Decimal.AllDigits;
    var c := Round(x * 100.0);
    var n: nat := if c < 0 then -c else c;
    var (whole, tens, ones) := HundredthsOf(n);
    LastDigits(n);
    Decimal.ParseSigned(c < 0, whole + tens + ones, n);
    PointOut(if c < 0 then "-" else "", whole, tens, ones);
  }

  lemma PointOut(sign: string, whole: string, tens: string, ones: string)
    requires |tens| == |ones| == 1 && |whole| >= 1
    ensures var s := sign + whole + "." + tens + ones;
            s[|s| - 3] == '.' && s[..|s| - 3] + s[|s| - 2..] == sign + (whole + tens + ones)
  {
    var s := sign + whole + "." + tens + ones;
    assert s[..|s| - 3] == sign + whole && s[|s| - 2..] == tens + ones;
    assert sign + whole + (tens + ones) == sign + (whole + tens + ones);
  }

  function HundredthsOf(n: nat): (string, string, string) {
    (Decimal.Digits(n / 100), Decimal.Digits(n % 100 / 10), Decimal.Digits(n % 10))
  }

  lemma LastDigits(n: nat)
    ensures var (whole, tens, ones) := HundredthsOf(n);
            && |tens| == |ones| == 1 && |whole| >= 1
            && Decimal.AllDigits(whole + tens + ones) && Decimal.Value(whole + tens + ones) == n
  {
    hide Decimal.Digits, Decimal.Value;
    Decimal.DigitsRead(n / 100);
    Decimal.ValueSnoc(Decimal.Digits(n / 100), n % 100 / 10);
    Decimal.ValueSnoc(Decimal.Digits(n / 100) + Decimal.Digits(n % 100 / 10), n % 10);
  }

  /** An allocation's id names its berth and vessel and ends in the rounded demand. */
  lemma AllocIDReads(b: string, vessel: string, kva: real)
    ensures var (s, front) := (AllocID(b, vessel, kva), "all-" + b + "-" + vessel + "-");
            front <= s && Decimal.ParseInt(s[|front|..]) == Some(Round(kva))
  {
    hide Round, Decimal.ParseInt, Decimal.Dec;
    Decimal.PrintThenRead(Round(kva));
    var front := "all-" + b + "-" + vessel + "-";
    assert AllocID(b, vessel, kva) == front + Decimal.Dec(Round(kva));
  }

  /** For berth ids without separators two records have one fingerprint exactly if they agree on berth,
      vessel, time and the demand to two decimals, whatever the vessels are called. */
  lemma LedgerFingerprintTells(a: Allocation, b: Allocation)
    requires NulFree(a.berthID) && NulFree(b.berthID)
    ensures Fingerprint(a) == Fingerprint(b) <==>
              a.berthID == b.berthID && a.vessel == b.vessel && Fixed2(a.kva) == Fixed2(b.kva) && a.at == b.at
  {
    hide Fixed2, FirstField, LastField, Decimal.Dec;
    if Fingerprint(a) == Fingerprint(b) {
      FingerprintBerth(a, b);
      assert Fingerprint(a)[|a.berthID| + 1..] == a.vessel + [NUL] + Fixed2(a.kva) + [NUL] + Decimal.Dec(a.at);
      assert Fingerprint(b)[|b.berthID| + 1..] == b.vessel + [NUL] + Fixed2(b.kva) + [NUL] + Decimal.Dec(b.at);
      LastTwo(a.vessel, a.kva, a.at, b.vessel, b.kva, b.at);
    }
  }

  lemma LastTwo(v: string, x: real, s: Time, w: string, y: real, t: Time)
    requires v + [NUL] + Fixed2(x) + [NUL] + Decimal.Dec(s) == w + [NUL] + Fixed2(y) + [NUL] + Decimal.Dec(t)
    ensures v == w && Fixed2(x) == Fixed2(y) && s == t
  {
    hide Fixed2, LastField, Decimal.Dec;
    Decimal.DecNulFree(s);
    Decimal.DecNulFree(t);
    Fixed2NulFree(x);
    Fixed2NulFree(y);
    LastFieldOf(v + [NUL] + Fixed2(x), Decimal.Dec(s));
    LastFieldOf(w + [NUL] + Fixed2(y), Decimal.Dec(t));
    Decimal.DecInjective(s, t);
    LastFieldOf(v, Fixed2(x));
    LastFieldOf(w, Fixed2(y));
  }

  lemma Fixed2NulFree(x: real)
    ensures NulFree(Fixed2(x))
  {
    hide Round, Decimal.Digits;
    var c := Round(x * 100.0);
    var n: nat := if c < 0 then -c else c;
    Decimal.DigitsRead(n / 100);
    Decimal.DigitsRead(n % 100 / 10);
    Decimal.DigitsRead(n % 10);
  }

  // Ledger.

  predicate Open(r: LedgerRecord) {
    r.closedAt.None?
  }

  function Opened(a: Allocation): LedgerRecord {
    LedgerRecord(a, Fingerprint(a), None)
  }

  /** Position of the first open record with a fingerprint, or the length. */
  function FindOpen(items: seq<LedgerRecord>, fp: string): (k: nat)
    ensures k <= |items|
    ensures k < |items| ==> items[k].fingerprint == fp && Open(items[k])
    ensures forall i :: 0 <= i < k ==> !(items[i].fingerprint == fp && Open(items[i]))
  {
    if items == [] then 0
    else if items[0].fingerprint == fp && Open(items[0]) then 0
    else 1 + FindOpen(items[1..], fp)
  }

  function CloseFirst(items: seq<LedgerRecord>, fp: string, now: Time): seq<LedgerRecord> {
    var k := FindOpen(items, fp);
    if k < |items| then items[k := items[k].(closedAt := Some(now))] else items
  }

  /** Closing every open record of a set of berths at once. */
  function CloseFor(items: seq<LedgerRecord>, d: set<string>, now: Time): seq<LedgerRecord> {
    seq(|items|, i requires 0 <= i < |items| =>
      if Open(items[i]) && items[i].allocation.berthID in d then items[i].(closedAt := Some(now)) else items[i])
  }

  function SumOpen(items: seq<LedgerRecord>): real {
    if items == [] then 0.0
    else var last := items[|items| - 1];
      SumOpen(items[..|items| - 1]) + if Open(last) then last.allocation.kva else 0.0
  }

  /** History only grows: records keep their place and content, and a closed one never reopens. */
  ghost predicate Grows(before: seq<LedgerRecord>, after: seq<LedgerRecord>) {
    && |before| <= |after|
    && forall i :: 0 <= i < |before| ==>
         && after[i].allocation == before[i].allocation
         && after[i].fingerprint == before[i].fingerprint
         && (!Open(before[i]) ==> after[i] == before[i])
  }

  ghost predicate HasOpen(items: seq<LedgerRecord>, b: string) {
    exists i :: 0 <= i < |items| && Open(items[i]) && items[i].allocation.berthID == b
  }

  /** Open records and live allocations correspond one to one. */
  ghost predicate LedgerMatches(allocs: map<string, Allocation>, items: seq<LedgerRecord>) {
    && (forall i :: 0 <= i < |items| ==> items[i].fingerprint == Fingerprint(items[i].allocation))
    && (forall i :: 0 <= i < |items| && Open(items[i]) ==>
          items[i].allocation.berthID in allocs && allocs[items[i].allocation.berthID] == items[i].allocation)
    && (forall i, j :: 0 <= i < j < |items| && Open(items[i]) && Open(items[j]) ==>
          items[i].allocation.berthID != items[j].allocation.berthID)
    && (forall b :: b in allocs ==> HasOpen(items, b))
  }

  ghost predicate CapInv(c: Cap) {
    && c.used.Keys == c.allocs.Keys
    && (forall b :: b in c.allocs ==>
          c.allocs[b].berthID == b && NulFree(b) && c.used[b] == c.allocs[b].kva > 0.0)
    && (Total(c.used) <= c.shore || c.allocs == map[])
    && LedgerMatches(c.allocs, c.items)
    && SumOpen(c.items) == Total(c.used)
  }

  // The allocator's critical sections.

  function WithClaim(c: Cap, a: Allocation): Cap {
    Cap(c.shore, c.used[a.berthID := a.kva], c.allocs[a.berthID := a], c.items + [Opened(a)])
  }

  /** The locked part of Allocate: an existing allocation wins, then the remaining capacity decides. */
  function TryAllocate(c: Cap, b: string, vessel: string, kva: real, remain: real, now: Time)
    : (Cap, Result<Allocation>)
  {
    if b in c.allocs then (c, Ok(c.allocs[b]))
    else if kva > remain then (c, Err(CapacityShort))
    else
      var a := Allocation(AllocID(b, vessel, kva), b, vessel, kva, now);
      (WithClaim(c, a), Ok(a))
  }

  function Release(c: Cap, b: string, now: Time): (Cap, Option<Error>) {
    if b !in c.allocs then (c, Some(NoAllocation))
    else (Cap(c.shore, c.used - {b}, c.allocs - {b}, CloseFirst(c.items, Fingerprint(c.allocs[b]), now)), None)
  }

  /** The whole of Allocate as one sequential call: Refresh, the cached state test, the demand test
      and the locked part. */
  ghost function Allocate(rows: Rows, c: Cap, b: string, vessel: string, kva: real, now: Time)
    : (Cap, Result<Allocation>)
  {
    if b !in rows then (c, Err(NotFound))
    else
      var c1 := if rows[b].state.Idle? then Release(c, b, now).0 else c;
      if !rows[b].state.Idle? then (c1, Err(NotIdle))
      else if kva <= 0.0 then (c1, Err(DemandNotPositive))
      else TryAllocate(c1, b, vessel, kva, Remain(c1), now)
  }

  lemma {:induction false} SumOpenUpdate(items: seq<LedgerRecord>, k: nat, now: Time)
    requires k < |items| && Open(items[k])
    ensures SumOpen(items[k := items[k].(closedAt := Some(now))]) == SumOpen(items) - items[k].allocation.kva
  {
    var last := |items| - 1;
    var after := items[k := items[k].(closedAt := Some(now))];
    if k == last {
      assert after[..last] == items[..last];
    } else {
      SumOpenUpdate(items[..last], k, now);
      assert after[..last] == items[..last][k := items[k].(closedAt := Some(now))];
    }
  }

  /** A live allocation's fingerprint finds the one open record of its berth, and no other. */
  lemma OwnRecord(allocs: map<string, Allocation>, items: seq<LedgerRecord>, b: string)
    requires LedgerMatches(allocs, items) && b in allocs && allocs[b].berthID == b
    requires forall x :: x in allocs ==> NulFree(x)
    ensures var k := FindOpen(items, Fingerprint(allocs[b]));
            && k < |items| && items[k].allocation == allocs[b]
            && forall i :: 0 <= i < |items| && Open(items[i]) && items[i].allocation.berthID == b ==> i == k
  {
    hide Fingerprint;
    var fp := Fingerprint(allocs[b]);
    var k := FindOpen(items, fp);
    var i :| 0 <= i < |items| && Open(items[i]) && items[i].allocation.berthID == b;
    assert items[i].fingerprint == fp;
    assert k <= i;
    FingerprintBerth(items[k].allocation, allocs[b]);
  }

  /** A release closes exactly the one open record of its berth. */
  lemma CloseOwn(allocs: map<string, Allocation>, items: seq<LedgerRecord>, b: string, now: Time)
    requires LedgerMatches(allocs, items) && b in allocs && allocs[b].berthID == b
    requires forall x :: x in allocs ==> NulFree(x)
    ensures var after := CloseFirst(items, Fingerprint(allocs[b]), now);
            && after == CloseFor(items, {b}, now)
            && SumOpen(after) == SumOpen(items) - allocs[b].kva
  {
    hide Fingerprint;
    OwnRecord(allocs, items, b);
    var k := FindOpen(items, Fingerprint(allocs[b]));
    SumOpenUpdate(items, k, now);
  }

  lemma LedgerAfterClose(allocs: map<string, Allocation>, items: seq<LedgerRecord>, d: set<string>, now: Time)
    requires LedgerMatches(allocs, items)
    ensures LedgerMatches(allocs - d, CloseFor(items, d, now))
    ensures Grows(items, CloseFor(items, d, now))
  {
    hide Fingerprint;
    var after := CloseFor(items, d, now);
    forall x | x in allocs - d ensures HasOpen(after, x) {
      var i :| 0 <= i < |items| && Open(items[i]) && items[i].allocation.berthID == x;
      assert after[i] == items[i];
    }
  }

  lemma LedgerAfterAppend(allocs: map<string, Allocation>, items: seq<LedgerRecord>, a: Allocation)
    requires LedgerMatches(allocs, items) && a.berthID !in allocs
    ensures LedgerMatches(allocs[a.berthID := a], items + [Opened(a)])
    ensures Grows(items, items + [Opened(a)])
    ensures SumOpen(items + [Opened(a)]) == SumOpen(items) + a.kva
  {
    hide Fingerprint;
    var after := items + [Opened(a)];
    assert after[..|items|] == items && after[|items|] == Opened(a);
    forall x | x in allocs[a.berthID := a] ensures HasOpen(after, x) {
      if x == a.berthID {
        assert Open(after[|items|]);
      } else {
        var i :| 0 <= i < |items| && Open(items[i]) && items[i].allocation.berthID == x;
        assert after[i] == items[i];
      }
    }
  }

  lemma ClaimSafe(c: Cap, a: Allocation)
    requires CapInv(c) && a.berthID !in c.allocs && NulFree(a.berthID) && 0.0 < a.kva <= Remain(c)
    ensures CapInv(WithClaim(c, a)) && Grows(c.items, WithClaim(c, a).items)
    ensures Remain(WithClaim(c, a)) == Remain(c) - a.kva
  {
    hide Fingerprint, Total, SumOpen, LedgerMatches, Grows;
    LedgerAfterAppend(c.allocs, c.items, a);
    TotalAdd(c.used, a.berthID, a.kva);
  }

  lemma TryAllocateSafe(c: Cap, b: string, vessel: string, kva: real, now: Time)
    requires CapInv(c) && NulFree(b) && kva > 0.0
    ensures var (c1, r) := TryAllocate(c, b, vessel, kva, Remain(c), now);
            && CapInv(c1) && Grows(c.items, c1.items) && c1.shore == c.shore
            && (b !in c.allocs && r.Ok? ==> Remain(c1) == Remain(c) - kva)
  {
    hide CapInv, AllocID, Total;
    if b !in c.allocs && kva <= Remain(c) {
      var a := Allocation(AllocID(b, vessel, kva), b, vessel, kva, now);
      ClaimSafe(c, a);
      assert TryAllocate(c, b, vessel, kva, Remain(c), now) == (WithClaim(c, a), Ok(a));
    }
  }

  /** Of two overlapping claims of one berth the second is given the first one's allocation, whatever it asked
      for, and nothing more is taken. */
  lemma SecondClaim(
    c: Cap, b: string, vessel: string, kva: real, vessel': string, kva': real, remain: real, now: Time, later: Time)
    requires b !in c.allocs && kva <= Remain(c)
    ensures var (c1, r) := TryAllocate(c, b, vessel, kva, Remain(c), now);
            r.Ok? && r.value.vessel == vessel && r.value.kva == kva
            && TryAllocate(c1, b, vessel', kva', remain, later) == (c1, r)
  {
    hide AllocID, Fingerprint, Remain;
  }

  lemma ReleaseSafe(c: Cap, b: string, now: Time)
    requires CapInv(c)
    ensures var c1 := Release(c, b, now).0;
            && CapInv(c1) && Grows(c.items, c1.items) && c1.shore == c.shore
            && (b in c.allocs ==> Remain(c1) == Remain(c) + c.allocs[b].kva && c1.items == CloseFor(c.items, {b}, now))
  {
    hide Fingerprint, Total, SumOpen, LedgerMatches, CloseFirst;
    if b in c.allocs {
      CloseOwn(c.allocs, c.items, b, now);
      LedgerAfterClose(c.allocs, c.items, {b}, now);
      TotalRemove(c.used, b);
      TotalNonNegative(c.used - {b});
    }
  }

  /** Allocate on a berth the table has: it succeeds exactly when the berth is idle and the demand
      is positive and fits what remains once a stale allocation of that berth is returned. It then
      holds a fresh allocation of exactly the demand, never an old one. */
  lemma AllocateFresh(rows: Rows, c: Cap, b: string, vessel: string, kva: real, now: Time)
    requires CapInv(c) && NulFreeIds(rows)
    ensures var (c1, r) := Allocate(rows, c, b, vessel, kva, now);
            var stale := if b in c.allocs then c.allocs[b].kva else 0.0;
            && CapInv(c1) && Grows(c.items, c1.items) && c1.shore == c.shore
            && (r.Ok? <==> b in rows && rows[b].state.Idle? && 0.0 < kva <= Remain(c) + stale)
            && (r.Ok? ==> r.value == Allocation(AllocID(b, vessel, kva), b, vessel, kva, now))
            && (r.Ok? ==> c1.allocs == c.allocs[b := r.value] && Remain(c1) == Remain(c) + stale - kva)
            && (r.Err? && !(b in rows && rows[b].state.Idle? && b in c.allocs) ==> c1 == c)
  {
    hide CapInv, AllocID, Total, Fingerprint, CloseFirst;
    if b in rows && rows[b].state.Idle? {
      var c0 := Release(c, b, now).0;
      var a := Allocation(AllocID(b, vessel, kva), b, vessel, kva, now);
      ReleaseSafe(c, b, now);
      assert c0.allocs[b := a] == c.allocs[b := a];
      if kva > 0.0 {
        TryAllocateSafe(c0, b, vessel, kva, now);
      }
    }
  }

  // Every interleaving of the allocator's sections.

  datatype Section =
    | Claim(berthID: string, vessel: string, kva: real, at: Time)
    | Free(berthID: string, at: Time)

  ghost predicate Callable(s: Section) {
    NulFree(s.berthID) && (s.Claim? ==> s.kva > 0.0)
  }

  ghost function After(c: Cap, s: Section): Cap {
    match s
    case Claim(b, vessel, kva, at) => TryAllocate(c, b, vessel, kva, Remain(c), at).0
    case Free(b, at) => Release(c, b, at).0
  }

  ghost function AfterAll(c: Cap, ss: seq<Section>): Cap
    decreases |ss|
  {
    if ss == [] then c else AfterAll(After(c, ss[0]), ss[1..])
  }

  function Fresh(shore: real): Cap {
    Cap(shore, map[], map[], [])
  }

  lemma FreshSafe(shore: real)
    ensures CapInv(Fresh(shore))
  {
  }

  /** Capacity safety in whatever order the sections of concurrent calls take the lock: the books
      agree, nothing is over-allocated, and history only grows. */
  lemma {:induction false} CapacitySafety(c: Cap, ss: seq<Section>)
    requires CapInv(c) && forall s :: s in ss ==> Callable(s)
    ensures var e := AfterAll(c, ss); CapInv(e) && Grows(c.items, e.items) && e.shore == c.shore
    decreases |ss|
  {
    hide CapInv, Total, AllocID, Fingerprint, CloseFirst;
    if ss != [] {
      assert ss[0] in ss && Callable(ss[0]);
      match ss[0] {
        case Claim(b, vessel, kva, at) => TryAllocateSafe(c, b, vessel, kva, at);
        case Free(b, at) => ReleaseSafe(c, b, at);
      }
      CapacitySafety(After(c, ss[0]), ss[1..]);
    }
  }

  lemma NeverOwed(c: Cap)
    requires CapInv(c) && c.shore >= 0.0
    ensures 0.0 <= Remain(c) <= c.shore
  {
    hide LedgerMatches, SumOpen;
    TotalNonNegative(c.used);
    if c.allocs == map[] {
      assert c.used.Keys == {};
      assert c.used == map[];
    }
  }

  /** From a new allocator with shore capacity left over, the remainder is never negative. */
  lemma NeverOverAllocated(shore: real, ss: seq<Section>)
    requires shore >= 0.0 && forall s :: s in ss ==> Callable(s)
    ensures 0.0 <= Remain(AfterAll(Fresh(shore), ss)) <= shore
  {
    FreshSafe(shore);
    CapacitySafety(Fresh(shore), ss);
    NeverOwed(AfterAll(Fresh(shore), ss));
  }

  // Releasing many berths.

  function ReleaseSet(c: Cap, d: set<string>, now: Time): Cap {
    Cap(c.shore, c.used - d, c.allocs - d, CloseFor(c.items, d, now))
  }

  /** Releasing one more berth extends the set: the order of releases does not matter. */
  lemma ReleaseSetStep(c: Cap, d: set<string>, b: string, now: Time)
    requires CapInv(c) && CapInv(ReleaseSet(c, d, now)) && b in c.allocs && b !in d
    ensures Release(ReleaseSet(c, d, now), b, now) == (ReleaseSet(c, d + {b}, now), None)
    ensures CapInv(ReleaseSet(c, d + {b}, now))
  {
    hide CapInv, Total, Fingerprint, CloseFirst;
    var c1 := ReleaseSet(c, d, now);
    ReleaseSafe(c1, b, now);
    assert c1.used - {b} == c.used - (d + {b}) && c1.allocs - {b} == c.allocs - (d + {b});
    assert CloseFor(c1.items, {b}, now) == CloseFor(c.items, d + {b}, now);
  }

  lemma ReleaseSetEmpty(c: Cap, now: Time)
    ensures ReleaseSet(c, {}, now) == c
  {
    assert c.used - {} == c.used && c.allocs - {} == c.allocs;
    assert CloseFor(c.items, {}, now) == c.items;
  }

  lemma {:induction false} ReleaseSetSafe(c: Cap, d: set<string>, now: Time)
    requires CapInv(c) && d <= c.allocs.Keys
    ensures CapInv(ReleaseSet(c, d, now))
    decreases d
  {
    hide CapInv, ReleaseSet;
    if d == {} {
      ReleaseSetEmpty(c, now);
    } else {
      var b :| b in d;
      var rest := d - {b};
      ReleaseSetSafe(c, rest, now);
      ReleaseSetStep(c, rest, b, now);
      assert rest + {b} == d;
    }
  }

  lemma ReleaseSetRemain(c: Cap, d: set<string>, now: Time)
    ensures Remain(ReleaseSet(c, d, now)) == Remain(c) + Total(Restrict(c.used, d))
  {
    hide Total;
    TotalSplit(c.used, d);
  }

  // Synchronising with the berth table.

  /** Berths that are idle yet still hold capacity. */
  function Stale(rows: Rows, allocs: map<string, Allocation>): set<string> {
    set b | b in rows && rows[b].state.Idle? && b in allocs
  }

  function Sync(rows: Rows, c: Cap, now: Time): (Cap, nat) {
    (ReleaseSet(c, Stale(rows, c.allocs), now), |Stale(rows, c.allocs)|)
  }

  function Unbacked(rows: Rows, allocs: map<string, Allocation>): set<string> {
    set b | b in rows && rows[b].state.Settled? && b !in allocs
  }

  datatype Report = Report(remainKVA: real, mismatches: nat, released: nat, drift: bool)

  ghost function Reconcile(rows: Rows, c: Cap, now: Time): (Cap, Report) {
    var (c1, released) := Sync(rows, c, now);
    var mismatches := |Unbacked(rows, c1.allocs)| + released;
    (c1, Report(Remain(c), mismatches, released, mismatches > 0))
  }

  /** Reconcile returns exactly the capacity of idle berths, accounts for it, and finds nothing more
      to do when repeated at once. */
  lemma ReconcileRepairs(rows: Rows, c: Cap, now: Time, later: Time)
    requires CapInv(c)
    ensures var (c1, report) := Reconcile(rows, c, now);
            var idle := Stale(rows, c.allocs);
            && CapInv(c1) && Grows(c.items, c1.items) && c1.shore == c.shore
            && (forall b :: b in rows && rows[b].state.Idle? ==> b !in c1.allocs)
            && (forall b :: b in c.allocs && b !in idle ==> b in c1.allocs && c1.allocs[b] == c.allocs[b])
            && c1.allocs.Keys <= c.allocs.Keys
            && report.released == |idle| && (report.drift <==> report.mismatches > 0)
            && Remain(c1) == report.remainKVA + Total(Restrict(c.used, idle))
            && report.mismatches == report.released + |Unbacked(rows, c.allocs)|
            && Reconcile(rows, c1, later) ==
               (c1, Report(Remain(c1), |Unbacked(rows, c.allocs)|, 0, Unbacked(rows, c.allocs) != {}))
  {
    hide Total, CapInv, Fingerprint;
    var (c1, report) := Reconcile(rows, c, now);
    var idle := Stale(rows, c.allocs);
    ReleaseSetSafe(c, idle, now);
    ReleaseSetRemain(c, idle, now);
    assert Unbacked(rows, c1.allocs) == Unbacked(rows, c.allocs);
    assert Stale(rows, c1.allocs) == {};
    ReleaseSetEmpty(c1, later);
  }
}
