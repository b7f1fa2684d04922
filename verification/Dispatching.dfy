/** Dispatching every eligible session at once: what one pass can and cannot do. */
module Dispatching {
  import opened Prelude
  import opened BerthTable
  import opened CapacityBook
  import opened GridState
  import opened Sessions
  import opened Ownership
  import Metering

  predicate IsTarget(order: seq<string>, id: string) {
    exists i :: 0 <= i < |order| && order[i] == id
  }

  ghost predicate TargetBerth(w: Core, order: seq<string>, b: string) {
    exists id :: IsTarget(order, id) && VerifyingOn(w.conn.sessions, id, b)
  }

  /** The session's connection was attempted: it is connected and keeps what it held, or it failed
      and gave everything back. */
  ghost predicate Tried(w: Core, w1: Core, id: string) {
    && id in w.conn.sessions && id in w1.conn.sessions
    && w1.conn.sessions[id].berthID == w.conn.sessions[id].berthID
    && w1.conn.sessions[id].vessel == w.conn.sessions[id].vessel
    && var b := w.conn.sessions[id].berthID;
       && b in w1.tbl.rows && b in w.cap.allocs
       && (w1.conn.sessions[id].state.Connected? || w1.conn.sessions[id].state.Failed?)
       && (w1.conn.sessions[id].state.Failed? ==>
             w1.tbl.rows[b].state.Idle? && w1.tbl.rows[b].vessel == "" && b !in w1.cap.allocs)
       && (w1.conn.sessions[id].state.Connected? ==>
             && w1.tbl.rows[b].state.Settled? && w1.tbl.rows[b].vessel == w.conn.sessions[id].vessel
             && b in w1.cap.allocs && w1.cap.allocs[b] == w.cap.allocs[b])
  }

  /** Everything that is not a target, or the berth of one, is as it was. */
  ghost predicate Untouched(w: Core, w1: Core, order: seq<string>) {
    && w1.conn.sessions.Keys == w.conn.sessions.Keys && w1.conn.over == w.conn.over
    && SameBerths(w.tbl.rows, w1.tbl.rows)
    && (forall id :: id in w.conn.sessions && !IsTarget(order, id) ==> w1.conn.sessions[id] == w.conn.sessions[id])
    && (forall b :: b in w.tbl.rows && !TargetBerth(w, order, b) ==> w1.tbl.rows[b] == w.tbl.rows[b])
    && (forall b :: !TargetBerth(w, order, b) ==> (b in w1.cap.allocs <==> b in w.cap.allocs))
    && (forall b :: !TargetBerth(w, order, b) && b in w.cap.allocs ==> w1.cap.allocs[b] == w.cap.allocs[b])
  }

  predicate ConnectedTarget(c: Conn, order: seq<string>, id: string) {
    IsTarget(order, id) && id in c.sessions && c.sessions[id].state.Connected?
  }

  /** `n` of the targets are connected: none, or exactly one. */
  ghost predicate ConnectedCount(c: Conn, order: seq<string>, n: nat) {
    && n <= 1
    && (n == 0 ==> forall id :: !ConnectedTarget(c, order, id))
    && (n == 1 ==> exists one :: ConnectedTarget(c, order, one))
    && (forall a, b :: ConnectedTarget(c, order, a) && ConnectedTarget(c, order, b) ==> a == b)
  }

  /** The grid is closed at most once, and only if it was off and ends on. */
  ghost predicate ClosedAtMostOnce(g: Grid, g1: Grid, n: nat) {
    && g1.execs == g.execs + (if !g.state.OnGrid? && g1.state.OnGrid? then 1 else 0)
    && (g.state.OnGrid? ==> n == 0 && g1 == g)
    && (n > 0 ==> g1.state.OnGrid?)
    && g1.mode == g.mode && g1.queue.seen == g.queue.seen
  }

  ghost predicate AllVerifying(w: Core, order: seq<string>) {
    && (forall i :: 0 <= i < |order| ==> order[i] in w.conn.sessions && w.conn.sessions[order[i]].state.Verifying?)
    && (forall i, j :: 0 <= i < j < |order| ==> order[i] != order[j])
  }

  lemma TargetsSnoc(order: seq<string>)
    requires order != []
    ensures forall id :: IsTarget(order, id) <==> IsTarget(order[..|order| - 1], id) || id == order[|order| - 1]
  {
    var init := order[..|order| - 1];
    forall id ensures IsTarget(order, id) <==> IsTarget(init, id) || id == order[|order| - 1] {
      if IsTarget(init, id) {
        var i :| 0 <= i < |init| && init[i] == id;
        assert order[i] == id;
      }
      if IsTarget(order, id) && id != order[|order| - 1] {
        var i :| 0 <= i < |order| && order[i] == id;
        assert init[i] == id;
      }
    }
  }

  /** One more confirmation leaves earlier targets as they ended up. */
  lemma StillTried(w: Core, mid: Core, w1: Core, id: string, last: string)
    requires Tried(w, mid, id) && id != last
    requires id in w1.conn.sessions && w1.conn.sessions[id] == mid.conn.sessions[id]
    requires last in w.conn.sessions && w.conn.sessions[last].berthID != w.conn.sessions[id].berthID
    requires OnlyRow(mid.tbl.rows, w1.tbl.rows, w.conn.sessions[last].berthID)
    requires w1.cap.allocs == mid.cap.allocs || w1.cap.allocs == mid.cap.allocs - {w.conn.sessions[last].berthID}
    ensures Tried(w, w1, id)
  {
  }

  /** What confirming one more target does, in the terms used here. */
  lemma ConfirmTried(w: Core, id: string, now: Time)
    requires CoreOwns(w) && CapInv(w.cap) && id in w.conn.sessions && w.conn.sessions[id].state.Verifying?
    ensures var (w1, e) := Confirm(w, id, now);
            var b := w.conn.sessions[id].berthID;
            && CoreOwns(w1) && CapInv(w1.cap) && Tried(w, w1, id)
            && (e.None? <==> w1.conn.sessions[id].state.Connected?)
            && w1.grid == GridAfter(w.grid, w.conn.sessions[id].phase)
            && (e.None? ==> Closable(w.grid, w.conn.sessions[id].phase))
            && OnlyRow(w.tbl.rows, w1.tbl.rows, b)
            && w1.cap.allocs == (if e.None? then w.cap.allocs else w.cap.allocs - {b})
            && w1.conn.sessions == w.conn.sessions[id := w1.conn.sessions[id]] && w1.conn.over == w.conn.over
  {
    hide OwnInv, CapInv, Confirm, OnlyRow, Remain, Metering.Start, Closable, GridAfter;
    ConfirmOutcome(w, id, now);
    OwnedSession(w, id);
    var (w1, e) := Confirm(w, id, now);
    SameRow(w.tbl.rows, w1.tbl.rows, w.conn.sessions[id].berthID);
    assert w1.conn.sessions == w.conn.sessions[id := w1.conn.sessions[id]];
  }

  lemma GridStep(g: Grid, mid: Grid, p: Phase, n: nat, ok: bool)
    requires ClosedAtMostOnce(g, mid, n) && n <= 1 && (ok ==> Closable(mid, p))
    ensures ClosedAtMostOnce(g, GridAfter(mid, p), if ok then n + 1 else n)
    ensures ok ==> n == 0
  {
  }

  lemma MoreTargets(w: Core, order: seq<string>)
    requires order != [] && AllVerifying(w, order)
    ensures forall b :: !TargetBerth(w, order, b) ==>
              !TargetBerth(w, order[..|order| - 1], b) && b != w.conn.sessions[order[|order| - 1]].berthID
  {
    var init, last := order[..|order| - 1], order[|order| - 1];
    hide IsTarget;
    TargetsSnoc(order);
    forall b | !TargetBerth(w, order, b) ensures !TargetBerth(w, init, b) && b != w.conn.sessions[last].berthID {
      assert VerifyingOn(w.conn.sessions, last, w.conn.sessions[last].berthID);
    }
  }

  lemma UntouchedStep(w: Core, mid: Core, w1: Core, order: seq<string>)
    requires order != [] && AllVerifying(w, order)
    requires Untouched(w, mid, order[..|order| - 1])
    requires var last := order[|order| - 1];
             var b := w.conn.sessions[last].berthID;
             && last in mid.conn.sessions && last in w1.conn.sessions
             && w1.conn.sessions == mid.conn.sessions[last := w1.conn.sessions[last]] && w1.conn.over == mid.conn.over
             && OnlyRow(mid.tbl.rows, w1.tbl.rows, b)
             && (w1.cap.allocs == mid.cap.allocs || w1.cap.allocs == mid.cap.allocs - {b})
    ensures Untouched(w, w1, order)
  {
    hide IsTarget, TargetBerth;
    TargetsSnoc(order);
    MoreTargets(w, order);
  }

  lemma CountStep(mid: Core, w1: Core, order: seq<string>, n: nat, ok: bool)
    requires order != [] && ConnectedCount(mid.conn, order[..|order| - 1], n)
    requires var last := order[|order| - 1];
             && !IsTarget(order[..|order| - 1], last) && last in w1.conn.sessions && last in mid.conn.sessions
             && w1.conn.sessions == mid.conn.sessions[last := w1.conn.sessions[last]]
             && (ok <==> w1.conn.sessions[last].state.Connected?) && (ok ==> n == 0)
    ensures ConnectedCount(w1.conn, order, if ok then n + 1 else n)
  {
    TargetsSnoc(order);
    var init, last := order[..|order| - 1], order[|order| - 1];
    hide IsTarget;
    forall id ensures ConnectedTarget(w1.conn, order, id)
      <==> ConnectedTarget(mid.conn, init, id) || (ok && id == last) {
    }
    if !ok && n == 1 {
      var one :| ConnectedTarget(mid.conn, init, one);
      assert ConnectedTarget(w1.conn, order, one);
    }
    if ok {
      assert ConnectedTarget(w1.conn, order, last);
    }
  }

  /** Confirming targets one after another, in any order. */
  lemma {:induction false} ConfirmAllOutcome(w: Core, order: seq<string>, now: Time)
    requires CoreOwns(w) && CapInv(w.cap) && AllVerifying(w, order)
    ensures var (w1, n) := ConfirmAll(w, order, now);
            && CoreOwns(w1) && CapInv(w1.cap) && Untouched(w, w1, order)
            && n <= 1 && ConnectedCount(w1.conn, order, n) && ClosedAtMostOnce(w.grid, w1.grid, n)
            && (forall id :: IsTarget(order, id) ==> Tried(w, w1, id))
  {
    hide OwnInv, CapInv, Confirm, Untouched, ConnectedCount, ClosedAtMostOnce, GridAfter, Closable, OnlyRow;
    if order == [] {
      NothingDone(w);
    } else {
      var init, last := order[..|order| - 1], order[|order| - 1];
      var (mid, n) := ConfirmAll(w, init, now);
      ConfirmAllOutcome(w, init, now);
      NotYet(w, mid, order);
      ConfirmTried(mid, last, now);
      var (w1, e) := Confirm(mid, last, now);
      UntouchedStep(w, mid, w1, order);
      GridStep(w.grid, mid.grid, mid.conn.sessions[last].phase, n, e.None?);
      CountStep(mid, w1, order, n, e.None?);
      TargetsSnoc(order);
      forall id | IsTarget(order, id) ensures Tried(w, w1, id) {
        if id == last {
          LastTried(w, mid, w1, last);
        } else {
          OtherBerth(w, order, id, last);
          StillTried(w, mid, w1, id, last);
        }
      }
    }
  }

  lemma NothingDone(w: Core)
    ensures Untouched(w, w, []) && ConnectedCount(w.conn, [], 0) && ClosedAtMostOnce(w.grid, w.grid, 0)
  {
  }

  /** The next target is still as it was at the start. */
  lemma NotYet(w: Core, mid: Core, order: seq<string>)
    requires order != [] && AllVerifying(w, order) && Untouched(w, mid, order[..|order| - 1])
    requires CoreOwns(w)
    ensures var last := order[|order| - 1];
            && !IsTarget(order[..|order| - 1], last)
            && last in mid.conn.sessions && mid.conn.sessions[last] == w.conn.sessions[last]
            && var b := w.conn.sessions[last].berthID;
               b in mid.cap.allocs && b in w.cap.allocs && mid.cap.allocs[b] == w.cap.allocs[b]
  {
    var init, last := order[..|order| - 1], order[|order| - 1];
    var b := w.conn.sessions[last].berthID;
    hide OwnInv;
    OwnedSession(w, last);
    Owners(w.tbl.rows, w.cap.allocs, w.conn.sessions, b);
    assert VerifyingOn(w.conn.sessions, last, b);
    assert !IsTarget(init, last);
    assert !TargetBerth(w, init, b);
  }

  lemma LastTried(w: Core, mid: Core, w1: Core, last: string)
    requires Tried(mid, w1, last) && last in w.conn.sessions && mid.conn.sessions[last] == w.conn.sessions[last]
    requires var b := w.conn.sessions[last].berthID;
             b in mid.cap.allocs && b in w.cap.allocs && mid.cap.allocs[b] == w.cap.allocs[b]
    ensures Tried(w, w1, last)
  {
  }

  lemma OtherBerth(w: Core, order: seq<string>, id: string, last: string)
    requires CoreOwns(w) && AllVerifying(w, order) && IsTarget(order, id) && IsTarget(order, last) && id != last
    ensures id in w.conn.sessions && last in w.conn.sessions
    ensures w.conn.sessions[last].berthID != w.conn.sessions[id].berthID
  {
    var b := w.conn.sessions[id].berthID;
    hide OwnInv;
    Owners(w.tbl.rows, w.cap.allocs, w.conn.sessions, b);
    assert VerifyingOn(w.conn.sessions, id, b);
    assert w.conn.sessions[last].berthID == b ==> VerifyingOn(w.conn.sessions, last, b);
  }

  /** A dispatch pass, whatever order the sessions are visited in: it closes the breaker at most once
      and connects at most one session, none if the grid was on already; no eligible session is left
      verifying; each target but the connected one has failed with its berth idle and its capacity
      returned; overridden sessions and their berths are not touched. */
  lemma AutoDispatchOutcome(w: Core, order: seq<string>, now: Time)
    requires CoreOwns(w) && CapInv(w.cap) && Ordering(w.conn, order)
    ensures var (w1, n) := AutoDispatch(w, order, now);
            && CoreOwns(w1) && CapInv(w1.cap)
            && n <= 1 && (w.grid.state.OnGrid? ==> n == 0)
            && w1.grid.execs == w.grid.execs + (if !w.grid.state.OnGrid? && w1.grid.state.OnGrid? then 1 else 0)
            && ConnectedCount(w1.conn, order, n)
            && (forall id :: !Target(w1.conn, id))
            && (forall id :: Target(w.conn, id) ==> Tried(w, w1, id))
            && (forall id :: id in w.conn.sessions && !Target(w.conn, id) ==> Spared(w, w1, id))
  {
    hide OwnInv, CapInv, ConfirmAll, Tried;
    var (mid, n) := ConfirmAll(w, order, now);
    ConfirmAllOutcome(w, order, now);
    var w1 := AutoDispatch(w, order, now).0;
    forall id | id in w.conn.sessions && !Target(w.conn, id) ensures Spared(w, w1, id) {
      NotTargeted(w, order, id);
    }
    forall id ensures !Target(w1.conn, id) {
      TriedOrNot(w, mid, order, id);
    }
    forall id | Target(w.conn, id) ensures Tried(w, w1, id) {
      assert IsTarget(order, id);
      GridAside(w, mid, w1, id);
    }
  }

  // Exactly when a pass connects a session.

  /** The position of the first session in the order whose phase matches the shore supply, or the length. */
  function FirstMatch(w: Core, order: seq<string>): (k: nat)
    requires forall i :: 0 <= i < |order| ==> order[i] in w.conn.sessions
    ensures k <= |order|
    ensures k < |order| ==> w.grid.matches(w.conn.sessions[order[k]].phase)
    ensures forall i :: 0 <= i < k ==> !w.grid.matches(w.conn.sessions[order[i]].phase)
  {
    if order == [] then 0
    else
      var init, last := order[..|order| - 1], order[|order| - 1];
      var k := FirstMatch(w, init);
      assert forall i :: 0 <= i < |init| ==> init[i] == order[i];
      if k < |init| || w.grid.matches(w.conn.sessions[last].phase) then k else |order|
  }

  /** The first session whose phase matches closes the grid if anything can; it connects unless its
      vessel has been metered before, and no other does. */
  lemma {:induction false} ConfirmAllConnects(w: Core, order: seq<string>, now: Time)
    requires CoreOwns(w) && CapInv(w.cap) && AllVerifying(w, order)
    ensures var (w1, n) := ConfirmAll(w, order, now);
            var k := FirstMatch(w, order);
            var closes := !w.grid.state.OnGrid? && !w.grid.fault && k < |order|;
            && (n == 1 <==> closes && w.conn.sessions[order[k]].vessel !in w.met.active)
            && w1.grid.matches == w.grid.matches && w1.grid.fault == w.grid.fault
            && (if closes then w1.grid.state.OnGrid? else w1.grid.state == w.grid.state && w1.met == w.met)
  {
    hide OwnInv, CapInv, Confirm, OnlyRow, Remain, Metering.Start, Untouched, ConnectedCount, ClosedAtMostOnce;
    hide Tried, GaveBack;
    if order != [] {
      var init, last := order[..|order| - 1], order[|order| - 1];
      var (mid, n) := ConfirmAll(w, init, now);
      ConfirmAllConnects(w, init, now);
      ConfirmAllOutcome(w, init, now);
      NotYet(w, mid, order);
      ConfirmOutcome(mid, last, now);
      var (w1, e) := Confirm(mid, last, now);
      assert ConfirmAll(w, order, now) == (w1, if e.None? then n + 1 else n);
      var closes := !w.grid.state.OnGrid? && !w.grid.fault && FirstMatch(w, order) < |order|;
      assert e.None? ==> closes;
      assert !closes ==> w1.met == mid.met;
      assert mid.conn.sessions[last] == w.conn.sessions[last];
      assert FirstMatch(w, order) < |order|
        <==> FirstMatch(w, init) < |init| || w.grid.matches(w.conn.sessions[last].phase);
      assert FirstMatch(w, init) < |init| ==> order[FirstMatch(w, order)] == init[FirstMatch(w, init)];
    }
  }

  /** A dispatch pass connects a session exactly when the grid is off, the breaker closes, some
      eligible phase matches, and the first vessel in the order whose phase does was never metered. */
  lemma AutoDispatchConnects(w: Core, order: seq<string>, now: Time)
    requires CoreOwns(w) && CapInv(w.cap) && Ordering(w.conn, order)
    ensures var k := FirstMatch(w, order);
            AutoDispatch(w, order, now).1 == 1 <==>
              && !w.grid.state.OnGrid? && !w.grid.fault && k < |order|
              && w.conn.sessions[order[k]].vessel !in w.met.active
  {
    hide OwnInv, CapInv, ConfirmAll;
    ConfirmAllConnects(w, order, now);
  }

  /** A session that was not a target is unchanged, and so is a berth it is verifying on. */
  ghost predicate Spared(w: Core, w1: Core, id: string) {
    && id in w.conn.sessions && id in w1.conn.sessions && w1.conn.sessions[id] == w.conn.sessions[id]
    && var b := w.conn.sessions[id].berthID;
       w.conn.sessions[id].state.Verifying? ==>
         && b in w.tbl.rows && b in w1.tbl.rows && w1.tbl.rows[b] == w.tbl.rows[b]
         && b in w.cap.allocs && b in w1.cap.allocs && w1.cap.allocs[b] == w.cap.allocs[b]
  }

  lemma GridAside(w: Core, mid: Core, w1: Core, id: string)
    requires Tried(w, mid, id) && w1.conn == mid.conn && w1.tbl == mid.tbl && w1.cap == mid.cap
    ensures Tried(w, w1, id)
  {
  }

  lemma NotTargeted(w: Core, order: seq<string>, id: string)
    requires CoreOwns(w) && Ordering(w.conn, order) && id in w.conn.sessions && !Target(w.conn, id)
    ensures !IsTarget(order, id)
    ensures w.conn.sessions[id].state.Verifying? ==>
              var b := w.conn.sessions[id].berthID;
              !TargetBerth(w, order, b) && b in w.tbl.rows && b in w.cap.allocs
  {
    hide OwnInv;
    if w.conn.sessions[id].state.Verifying? {
      var b := w.conn.sessions[id].berthID;
      OwnedSession(w, id);
      Owners(w.tbl.rows, w.cap.allocs, w.conn.sessions, b);
      assert VerifyingOn(w.conn.sessions, id, b);
    }
  }

  lemma TriedOrNot(w: Core, w1: Core, order: seq<string>, id: string)
    requires Ordering(w.conn, order) && Untouched(w, w1, order)
    requires forall x :: IsTarget(order, x) ==> Tried(w, w1, x)
    ensures !Target(w1.conn, id)
  {
    if id in w.conn.sessions {
      if IsTarget(order, id) {
        assert Tried(w, w1, id);
      } else {
        assert id !in order;
        assert w1.conn.sessions[id] == w.conn.sessions[id];
      }
    }
  }

  // Who is dispatched under an override, and what becomes of the command queue.

  /** An override spares everyone if it names no vessel, otherwise the sessions of its vessel. */
  lemma WhoIsTarget(c: Conn, id: string)
    ensures Target(c, id) <==>
              && id in c.sessions && c.sessions[id].state.Verifying?
              && (!c.over.active || (c.over.vessel != "" && c.over.vessel != c.sessions[id].vessel))
  {
  }

  /** Under an active override without a vessel a pass does nothing at all. Under one for a vessel exactly
      the verifying sessions of that vessel are spared. Without one every verifying session is tried. */
  lemma OverrideSpares(w: Core, order: seq<string>, now: Time)
    requires CoreOwns(w) && CapInv(w.cap) && Ordering(w.conn, order)
    ensures var (w1, n) := AutoDispatch(w, order, now);
            var (sessions, over) := (w.conn.sessions, w.conn.over);
            && (over.active && over.vessel == "" ==> n == 0 && w1 == w)
            && (over.active && over.vessel != "" ==>
                  forall id :: id in sessions && sessions[id].state.Verifying? ==>
                    if sessions[id].vessel == over.vessel then Spared(w, w1, id) else Tried(w, w1, id))
            && (!over.active ==> forall id :: id in sessions && sessions[id].state.Verifying? ==> Tried(w, w1, id))
  {
    hide OwnInv, CapInv, Spared, Tried, ConnectedCount, AutoDispatch;
    AutoDispatchOutcome(w, order, now);
    if w.conn.over.active && w.conn.over.vessel == "" {
      HarbourOverride(w, order, now);
    }
  }

  /** A harbour-wide override leaves nothing to dispatch, whatever state the stores are in. */
  lemma HarbourOverride(w: Core, order: seq<string>, now: Time)
    requires Ordering(w.conn, order) && w.conn.over.active && w.conn.over.vessel == ""
    ensures AutoDispatch(w, order, now) == (w, 0)
  {
    if order != [] {
      WhoIsTarget(w.conn, order[0]);
    }
  }

  lemma ConfirmKeepsQueue(w: Core, id: string, now: Time)
    ensures var g := Confirm(w, id, now).0.grid; g.queue == w.grid.queue && g.mode == w.grid.mode
  {
    hide MarkOccupied, Metering.Start, MarkIdle, Release, Gated, Finished, Closed;
    if id in w.conn.sessions {
      GatedFirst(w.conn, id);
    }
  }

  lemma GatedFirst(c: Conn, id: string)
    requires id in c.sessions
    ensures id in Gated(c, id).sessions
  {
  }

  lemma {:induction false} ConfirmAllKeepsQueue(w: Core, order: seq<string>, now: Time)
    ensures var g := ConfirmAll(w, order, now).0.grid; g.queue == w.grid.queue && g.mode == w.grid.mode
  {
    hide Confirm;
    if order != [] {
      ConfirmAllKeepsQueue(w, order[..|order| - 1], now);
      ConfirmKeepsQueue(ConfirmAll(w, order[..|order| - 1], now).0, order[|order| - 1], now);
    }
  }

  /** A pass drains the command queue exactly if it connected a session and the grid is in automatic mode;
      the ids of drained commands stay remembered. */
  lemma DispatchQueue(w: Core, order: seq<string>, now: Time)
    ensures var (w1, n) := AutoDispatch(w, order, now);
            && w1.grid.queue.items == (if n > 0 && w.grid.mode.Auto? then [] else w.grid.queue.items)
            && w1.grid.queue.seen == w.grid.queue.seen && w1.grid.mode == w.grid.mode
  {
    hide ConfirmAll, Drain;
    ConfirmAllKeepsQueue(w, order, now);
    DrainByMode(ConfirmAll(w, order, now).0.grid);
  }
}
