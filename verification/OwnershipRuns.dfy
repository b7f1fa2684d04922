/** Ownership over whole runs: which requests keep berths, allocations and sessions in agreement, and
    exactly when the others break it. */
module OwnershipRuns {
  import opened Prelude
  import opened BerthTable
  import opened CapacityBook
  import opened GridState
  import opened Switching
  import opened Sessions
  import opened AtMostOnce
  import opened Ownership
  import opened Dispatching
  import opened Service
  import opened Safety
  import M = Metering
  import Decimal

  /** A berth nobody verifies on may change hands on its own. */
  lemma Rearranged(
    rows: Rows, allocs: map<string, Allocation>, sessions: map<string, Session>,
    rows': Rows, allocs': map<string, Allocation>, b: string)
    requires OwnInv(rows, allocs, sessions) && b in rows && !rows[b].state.Allocating?
    requires OnlyRow(rows, rows', b) && !rows'[b].state.Allocating? && RowOk(rows'[b], b, allocs')
    requires allocs' - {b} == allocs - {b}
    ensures OwnInv(rows', allocs', sessions)
  {
    hide OwnInv, HasOwner, RowOk;
    Owners(rows, allocs, sessions, b);
    forall x | x != b ensures (x in allocs' <==> x in allocs) && (x in allocs ==> allocs'[x] == allocs[x]) {
      assert x in allocs' - {b} <==> x in allocs - {b};
      if x in allocs {
        assert (allocs' - {b})[x] == (allocs - {b})[x];
      }
    }
    Local(rows, allocs, sessions, rows', allocs', sessions, b);
  }

  // Occupying and departing.

  /** Occupying for a nameless vessel: capacity is taken before the missing name is noticed. */
  ghost predicate OccupyLeaks(w: Core, b: string, vessel: string, kva: real) {
    vessel == "" && b != "" && CheckReady(w.tbl.rows, b, kva).None? && kva <= Remain(w.cap)
  }

  /** What occupying a berth comes to: it needs an idle berth that can carry the demand and enough
      capacity left. For a named vessel it then settles the berth, and otherwise changes nothing. */
  lemma OccupyOutcome(w: Core, b: string, vessel: string, kva: real, now: Time)
    requires CoreOwns(w) && CapInv(w.cap)
    ensures var (w1, e) := Occupy(w, b, vessel, kva, now);
            var a := Allocation(AllocID(b, vessel, kva), b, vessel, kva, now);
            var fits := b != "" && CheckReady(w.tbl.rows, b, kva).None? && kva <= Remain(w.cap);
            && CapInv(w1.cap) && (e.None? <==> fits && vessel != "")
            && (!fits ==> w1 == w)
            && (fits ==> w1.cap.allocs == w.cap.allocs[b := a] && Remain(w1.cap) == Remain(w.cap) - kva)
            && (fits && vessel == "" ==> w1.tbl == w.tbl)
            && (e.None? ==> w1.tbl.rows == w.tbl.rows[b := Occupied(w.tbl.rows[b], b, vessel, now)])
            && w1.conn == w.conn && w1.grid == w.grid && w1.met == w.met
  {
    hide OwnInv, CapInv, Allocate, Stamp, AllocID, Remain, Grows;
    OwnedRow(w.tbl.rows, w.cap.allocs, w.conn.sessions, b);
    AllocateFresh(w.tbl.rows, w.cap, b, vessel, kva, now);
    assert b in w.tbl.rows && w.tbl.rows[b].state.Idle? ==> b !in w.cap.allocs;
    var (c1, r) := Allocate(w.tbl.rows, w.cap, b, vessel, kva, now);
    assert CheckReady(w.tbl.rows, b, kva).None? ==> (r.Ok? <==> kva <= Remain(w.cap));
  }

  /** Occupying keeps ownership exactly when it does not leak. */
  lemma OccupyOwns(w: Core, b: string, vessel: string, kva: real, now: Time)
    requires CoreOwns(w) && CapInv(w.cap)
    ensures CoreOwns(Occupy(w, b, vessel, kva, now).0) <==> !OccupyLeaks(w, b, vessel, kva)
  {
    hide OwnInv, CapInv, Occupy, Stamp, AllocID, Remain;
    OccupyOutcome(w, b, vessel, kva, now);
    var (w1, e) := Occupy(w, b, vessel, kva, now);
    if e.None? {
      assert w1.cap.allocs - {b} == w.cap.allocs - {b};
      Rearranged(w.tbl.rows, w.cap.allocs, w.conn.sessions, w1.tbl.rows, w1.cap.allocs, b);
    } else if OccupyLeaks(w, b, vessel, kva) && CoreOwns(w1) {
      OwnedRow(w1.tbl.rows, w1.cap.allocs, w1.conn.sessions, b);
    }
  }

  /** A leak lasts until the next reconciliation, which restores ownership and the capacity. */
  lemma LeakRepaired(w: Core, b: string, kva: real, now: Time, later: Time)
    requires CoreOwns(w) && CapInv(w.cap) && OccupyLeaks(w, b, "", kva)
    ensures var w1 := Occupy(w, b, "", kva, now).0;
            var (cap, report) := Reconcile(w1.tbl.rows, w1.cap, later);
            && !CoreOwns(w1) && report.released == 1 && report.drift
            && cap.allocs == w.cap.allocs && Remain(cap) == Remain(w.cap)
            && CoreOwns(w1.(cap := cap))
  {
    hide OwnInv, CapInv, Occupy, Stamp, AllocID, Total;
    OccupyOutcome(w, b, "", kva, now);
    OccupyOwns(w, b, "", kva, now);
    var w1 := Occupy(w, b, "", kva, now).0;
    NoneStale(w);
    OwnedRow(w.tbl.rows, w.cap.allocs, w.conn.sessions, b);
    assert Stale(w1.tbl.rows, w1.cap.allocs) == {b};
    ReconcileRepairs(w1.tbl.rows, w1.cap, later, later);
    assert w1.cap.allocs - {b} == w.cap.allocs;
    TotalOne(w1.cap, b);
  }

  lemma TotalOne(c: Cap, b: string)
    requires CapInv(c) && b in c.allocs
    ensures Total(Restrict(c.used, {b})) == c.allocs[b].kva
  {
    hide LedgerMatches;
    var m := Restrict(c.used, {b});
    TotalRemove(m, b);
    assert m - {b} == map[];
  }

  /** While ownership holds, reconciliation finds nothing to repair. */
  lemma NoneStale(w: Core)
    requires CoreOwns(w)
    ensures Stale(w.tbl.rows, w.cap.allocs) == {} && Unbacked(w.tbl.rows, w.cap.allocs) == {}
  {
  }

  lemma ReconcileIdle(w: Core, now: Time)
    requires CoreOwns(w)
    ensures Reconcile(w.tbl.rows, w.cap, now) == (w.cap, Report(Remain(w.cap), 0, 0, false))
  {
    hide OwnInv, Total;
    NoneStale(w);
    ReleaseSetEmpty(w.cap, now);
  }

  /** Under ownership an occupied berth can always be left, all three steps of it. */
  lemma LeaveOutcome(w: Core, b: string, now: Time)
    requires CoreOwns(w) && CapInv(w.cap) && OccupiedBy(w.tbl.rows, b).Some?
    ensures var (w1, e) := Leave(w, b, now);
            && e.None? && CoreOwns(w1) && CapInv(w1.cap) && GaveBack(w, w1, b)
            && w1.conn == w.conn && w1.grid == w.grid && w1.met == w.met
  {
    hide OwnInv, CapInv, Remain, Grows, CloseFirst, Fingerprint;
    OwnedRow(w.tbl.rows, w.cap.allocs, w.conn.sessions, b);
    ReleaseSafe(w.cap, b, now);
    var w1 := Leave(w, b, now).0;
    assert w1.tbl.rows == w.tbl.rows[b := BerthTable.Vacated(w.tbl.rows[b])];
    Rearranged(w.tbl.rows, w.cap.allocs, w.conn.sessions, w1.tbl.rows, w1.cap.allocs, b);
  }

  predicate Metered(w: World, vessel: string) {
    M.StateOf(w.core.met, vessel) == M.Metering
  }

  /** A running meter must have something to bill. */
  predicate Billable(w: World, vessel: string) {
    Metered(w, vessel) ==> M.Samples(w.core.met, vessel) != []
  }

  /** What departing comes to in any state. Each refusal has its exact condition; a running meter with
      samples is billed before the berth is looked at, and a berth that is settled but holds no capacity
      is left Releasing. Any other refusal leaves table and books alone. */
  lemma DepartOutcome(w: World, r: M.Rate, b: string, hour: int, now: Time)
    ensures var (w1, e) := Depart(w, r, b, hour, now);
            var (rows, vessel) := (w.core.tbl.rows, OccupiedBy(w.core.tbl.rows, b));
            && (e == Some(NotOccupied) <==> vessel.None?)
            && (e == Some(NoSamples) <==> vessel.Some? && !Billable(w, vessel.value))
            && (e == Some(BadState) <==> vessel.Some? && Billable(w, vessel.value) && !rows[b].state.Settled?)
            && (e == Some(NoAllocation) <==>
                  vessel.Some? && Billable(w, vessel.value) && rows[b].state.Settled? && b !in w.core.cap.allocs)
            && (e.None? <==>
                  vessel.Some? && Billable(w, vessel.value) && rows[b].state.Settled? && b in w.core.cap.allocs)
            && w1.core.conn == w.core.conn && w1.core.grid == w.core.grid
            && w1.core.cap == (if e.None? then Release(w.core.cap, b, now).0 else w.core.cap)
            && w1.core.tbl.rows == (if e.None? then rows[b := BerthTable.Vacated(rows[b])]
                                    else if e == Some(NoAllocation) then rows[b := rows[b].(state := Releasing)]
                                    else rows)
            && Charged(w, w1, b)
  {
    hide CloseFirst, Fingerprint, M.BillFor;
    var rows := w.core.tbl.rows;
    if b in rows {
      var left := rows[b].(state := Releasing);
      assert rows[b := left][b := BerthTable.Vacated(left)] == rows[b := BerthTable.Vacated(rows[b])];
    }
  }

  /** Exactly a running meter with samples is billed, once, and stopped. */
  ghost predicate Charged(w: World, w1: World, b: string) {
    var vessel := OccupiedBy(w.core.tbl.rows, b);
    if vessel.Some? && Metered(w, vessel.value) && Billable(w, vessel.value) then
      && M.StateOf(w1.core.met, vessel.value) == M.Settled
      && |M.BillsOf(w1.bills, vessel.value)| == |M.BillsOf(w.bills, vessel.value)| + 1
    else w1.core.met == w.core.met && w1.bills == w.bills
  }

  /** A berth left Releasing cannot be departed from: every later attempt is refused and the berth stays
      as it is. */
  lemma NeverLeft(w: World, r: M.Rate, b: string, hour: int, now: Time)
    requires b in w.core.tbl.rows && w.core.tbl.rows[b].state.Releasing?
    ensures var (w1, e) := Depart(w, r, b, hour, now);
            e.Some? && w1.core.tbl.rows == w.core.tbl.rows && w1.core.cap == w.core.cap
  {
    hide Depart, Billable, Charged;
    DepartOutcome(w, r, b, hour, now);
  }

  /** Under ownership a departure is all or nothing: it succeeds exactly when the berth is occupied and a
      running meter has something to bill. */
  lemma DepartOwned(w: World, r: M.Rate, b: string, hour: int, now: Time)
    requires CoreOwns(w.core) && CapInv(w.core.cap)
    ensures var (w1, e) := Depart(w, r, b, hour, now);
            var vessel := OccupiedBy(w.core.tbl.rows, b);
            && CoreOwns(w1.core) && CapInv(w1.core.cap)
            && (e.None? <==> vessel.Some? && Billable(w, vessel.value))
            && (e.Some? ==> w1 == w)
            && (e.None? ==> GaveBack(w.core, w1.core, b))
  {
    hide OwnInv, CapInv, Remain, Leave, M.BillFor;
    var vessel := OccupiedBy(w.core.tbl.rows, b);
    if vessel.Some? {
      LeaveOutcome(w.core, b, now);
      var m := M.Settle(w.core.met, w.bills, r, vessel.value, hour, now).0;
      LeaveOutcome(w.core.(met := m), b, now);
    }
  }

  // What one call undoes of another.

  /** Cancelling a session just applied for gives back exactly what applying took: the same capacity
      is left, the same allocations are held, and the berth is as it was. */
  lemma ApplyThenCancel(w: Core, req: Request, now: Time, later: Time)
    requires CoreOwns(w) && CapInv(w.cap) && OnceInv(w.conn) && !Answered(w.conn, req) && Acceptable(w, req)
    ensures var id := SessionID(w.conn.number + 1);
            var (w2, e) := Cancel(Apply(w, req, now).0, id, later);
            && e.None? && CoreOwns(w2) && CapInv(w2.cap) && w2.grid == w.grid && w2.met == w.met
            && w2.cap.allocs == w.cap.allocs && Remain(w2.cap) == Remain(w.cap)
            && w2.tbl.rows == w.tbl.rows[req.berthID := w.tbl.rows[req.berthID].(occupiedAt := None)]
            && id in w2.conn.sessions && w2.conn.sessions - {id} == w.conn.sessions
            && w2.conn.sessions[id].state.Cancelled? && w2.conn.sessions[id].berthID == req.berthID
  {
    hide Cancel, OwnInv, CapInv, OnceInv, Apply, SessionID, AllocID, FindLive, Remain, Acceptable;
    var id, b := SessionID(w.conn.number + 1), req.berthID;
    ApplyOutcome(w, req, now);
    ApplyOwns(w, req, now);
    RoomAt(w, req);
    var w1 := Apply(w, req, now).0;
    CancelReturns(w1, id, later);
    CancelledRow(w1, id, later);
    var w2 := Cancel(w1, id, later).0;
    assert w2.tbl.rows[b] == w.tbl.rows[b].(occupiedAt := None);
    assert w.cap.allocs[b := Granting(req, now)] - {b} == w.cap.allocs;
  }

  lemma CancelledRow(w: Core, id: string, now: Time)
    requires id in w.conn.sessions && !w.conn.sessions[id].state.Connected?
    ensures var b := w.conn.sessions[id].berthID;
            b in w.tbl.rows && !w.tbl.rows[b].state.Idle? ==>
              Cancel(w, id, now).0.tbl.rows == w.tbl.rows[b := BerthTable.Vacated(w.tbl.rows[b])]
  {
    hide Release;
  }

  lemma RoomAt(w: Core, req: Request)
    requires CoreOwns(w) && Acceptable(w, req)
    ensures req.berthID in w.tbl.rows && w.tbl.rows[req.berthID].state.Idle? && w.tbl.rows[req.berthID].vessel == ""
    ensures req.berthID !in w.cap.allocs
  {
  }

  /** A vessel that occupies a berth and departs unmetered leaves everything as it found it, but for
      the stamp of its stay. */
  lemma OccupyThenDepart(w: World, r: M.Rate, b: string, vessel: string, kva: real, hour: int, now: Time, later: Time)
    requires CoreOwns(w.core) && CapInv(w.core.cap) && M.StateOf(w.core.met, vessel) != M.Metering
    requires Occupy(w.core, b, vessel, kva, now).1.None?
    ensures var (w2, e) := Depart(w.(core := Occupy(w.core, b, vessel, kva, now).0), r, b, hour, later);
            && e.None? && CoreOwns(w2.core) && w2.bills == w.bills && w2.core.met == w.core.met
            && w2.core.cap.allocs == w.core.cap.allocs && Remain(w2.core.cap) == Remain(w.core.cap)
            && b in w.core.tbl.rows
            && var row := w.core.tbl.rows[b].(occupiedAt := None, fingerprint := Stamp(b, now));
               w2.core.tbl.rows == w.core.tbl.rows[b := row]
  {
    hide OwnInv, CapInv, Occupy, AllocID, Remain, Stamp;
    OccupyOutcome(w.core, b, vessel, kva, now);
    OccupyOwns(w.core, b, vessel, kva, now);
    OwnedRow(w.core.tbl.rows, w.core.cap.allocs, w.core.conn.sessions, b);
    var w1 := w.(core := Occupy(w.core, b, vessel, kva, now).0);
    DepartOwned(w1, r, b, hour, later);
    DepartOutcome(w1, r, b, hour, later);
    var w2 := Depart(w1, r, b, hour, later).0;
    assert w1.core.cap.allocs - {b} == w.core.cap.allocs;
  }

  // Switching and recovering.

  /** A switch that does not change any row: refused, or an idle berth switched off. */
  predicate SwitchHarmless(w: Core, onGrid: bool, b: string, vessel: string) {
    || w.grid.state.OnGrid?
    || b !in w.tbl.rows
    || (if onGrid then w.grid.fault || vessel == "" || w.tbl.rows[b].state.Settled? || w.tbl.rows[b].state.Releasing?
        else w.tbl.rows[b].state.Idle?)
  }

  /** A switching sequence knows nothing of the allocator: it keeps ownership exactly when it leaves
      the rows alone. */
  lemma SwitchOwns(w: Core, onGrid: bool, b: string, vessel: string, now: Time)
    requires CoreOwns(w)
    ensures var w1 := Switch(w, onGrid, b, vessel, now).0;
            && (CoreOwns(w1) <==> SwitchHarmless(w, onGrid, b, vessel))
            && (SwitchHarmless(w, onGrid, b, vessel) ==> w1.tbl.rows == w.tbl.rows)
            && w1.cap == w.cap && w1.conn == w.conn && w1.met == w.met
  {
    hide OwnInv, ApplySequence, Stamp;
    SwitchOutcome(w.grid, w.tbl, onGrid, b, vessel, Constantly(now));
    if !SwitchHarmless(w, onGrid, b, vessel) {
      var w1 := Switch(w, onGrid, b, vessel, now).0;
      SwitchedRow(w, onGrid, b, vessel, now);
      OwnedRow(w.tbl.rows, w.cap.allocs, w.conn.sessions, b);
      if CoreOwns(w1) {
        OwnedRow(w1.tbl.rows, w1.cap.allocs, w1.conn.sessions, b);
        if w.tbl.rows[b].state.Allocating? {
          AllocatingOwner(w.tbl.rows, w.cap.allocs, w.conn.sessions, b);
          Owners(w1.tbl.rows, w1.cap.allocs, w1.conn.sessions, b);
        }
      }
    }
  }

  lemma SwitchedRow(w: Core, onGrid: bool, b: string, vessel: string, now: Time)
    requires !SwitchHarmless(w, onGrid, b, vessel)
    ensures var w1 := Switch(w, onGrid, b, vessel, now).0;
            b in w1.tbl.rows && if onGrid then w1.tbl.rows[b].state.Settled? else w1.tbl.rows[b].state.Idle?
  {
    hide ApplySequence, Stamp;
    SwitchOutcome(w.grid, w.tbl, onGrid, b, vessel, Constantly(now));
  }

  ghost predicate NoneAllocating(rows: Rows) {
    forall b :: b in rows ==> !rows[b].state.Allocating?
  }

  /** Recovery keeps ownership exactly when no connection is under way: a berth being allocated comes
      back settled for a vessel without a name. */
  lemma RebuildOwns(w: Core, now: Time)
    requires CoreOwns(w)
    ensures CoreOwns(Rebuild(w, now).0) <==> NoneAllocating(w.tbl.rows)
  {
    hide Rebuild, RowOk, HasOwner;
    RebuildConverges(w, now, now);
    RebuildKeepsRest(w, now);
    var w1 := Rebuild(w, now).0;
    if NoneAllocating(w.tbl.rows) {
      forall b | b in w1.tbl.rows ensures RowOk(w1.tbl.rows[b], b, w1.cap.allocs) && !w1.tbl.rows[b].state.Allocating? {
        RecoveredRow(w, w1, b);
      }
    } else {
      var b :| b in w.tbl.rows && w.tbl.rows[b].state.Allocating?;
      RecoveredRow(w, w1, b);
    }
  }

  lemma RecoveredRow(w: Core, w1: Core, b: string)
    requires b in w.tbl.rows && RowOk(w.tbl.rows[b], b, w.cap.allocs) && w1.cap == w.cap
    requires SameBerths(w.tbl.rows, w1.tbl.rows)
    requires if b in w.cap.allocs
             then w1.tbl.rows[b].state.Settled? && w1.tbl.rows[b].vessel == w.tbl.rows[b].vessel
             else w1.tbl.rows[b].state.Idle? && w1.tbl.rows[b].vessel == ""
    ensures RowOk(w1.tbl.rows[b], b, w1.cap.allocs) <==> !w.tbl.rows[b].state.Allocating?
    ensures !w1.tbl.rows[b].state.Allocating?
  {
  }

  // Any step, any run.

  /** The condition under which a request leaves ownership intact, readable before it is served. */
  ghost predicate Orderly(w: Core, op: Op) {
    match op
    case OpCancel(id) => Cancellable(w, id)
    case OpOccupy(b, vessel, kva) => !OccupyLeaks(w, b, vessel, kva)
    case OpSwitch(onGrid, b, vessel) => SwitchHarmless(w, onGrid, b, vessel)
    case OpRebuild => NoneAllocating(w.tbl.rows)
    case _ => true
  }

  lemma CoreStepOwns(w: Core, op: Op, now: Time)
    requires CoreOwns(w) && CapInv(w.cap) && OnceInv(w.conn)
    requires op.OpDispatch? ==> Ordering(w.conn, op.order)
    ensures CoreOwns(CoreStep(w, op, now)) <==> Orderly(w, op)
  {
    hide OwnInv, CapInv, OnceInv, Apply, Confirm, Cancel, Wait, AutoDispatch, Occupy, Switch, Rebuild, Reconcile;
    hide Cancellable, OccupyLeaks, SwitchHarmless, NoneAllocating, Ordering;
    match op {
      case OpApply(req) => ApplyOwns(w, req, now);
      case OpConfirm(id) => ConfirmOwns(w, id, now);
      case OpCancel(id) => CancelOwns(w, id, now);
      case OpWait(id) => WaitOwns(w, id, now);
      case OpDispatch(order) => DispatchOwns(w, order, now);
      case OpOccupy(b, vessel, kva) => OccupyOwns(w, b, vessel, kva, now);
      case OpSwitch(onGrid, b, vessel) => SwitchOwns(w, onGrid, b, vessel, now);
      case OpRebuild => RebuildOwns(w, now);
      case OpReconcile => ReconcileIdle(w, now);
      case _ =>
    }
  }

  lemma DispatchOwns(w: Core, order: seq<string>, now: Time)
    requires CoreOwns(w) && CapInv(w.cap) && Ordering(w.conn, order)
    ensures CoreOwns(AutoDispatch(w, order, now).0)
  {
    hide OwnInv, CapInv, Ordering, AutoDispatch, Target, Tried, Spared, ConnectedCount;
    AutoDispatchOutcome(w, order, now);
  }

  /** One request, whatever it is, keeps ownership exactly when it is orderly. */
  lemma StepOwns(w: World, r: M.Rate, op: Op, now: Time)
    requires CoreOwns(w.core) && Safe(w, r) && Possible(w, op)
    ensures CoreOwns(Serve(w, r, op, now).core) <==> Orderly(w.core, op)
  {
    hide OwnInv, CapInv, OnceInv, M.MeterInv, M.BillInv, GridSafe, CoreStep, Depart, M.Settle, Ordering;
    match op {
      case OpDepart(b, hour) => DepartOwned(w, r, b, hour, now);
      case OpSettle(_, _) =>
      case _ => CoreStepOwns(w.core, op, now);
    }
  }

  ghost predicate OrderlyRun(w: World, r: M.Rate, es: seq<Event>)
    decreases |es|
  {
    es == [] ||
    (&& Possible(w, es[0].op) && Orderly(w.core, es[0].op)
     && OrderlyRun(Serve(w, r, es[0].op, es[0].at), r, es[1..]))
  }

  /** Over every orderly run each berth, its allocation and its session stay in agreement. */
  lemma {:induction false} RunsOwn(w: World, r: M.Rate, es: seq<Event>)
    requires CoreOwns(w.core) && Safe(w, r) && OrderlyRun(w, r, es)
    ensures CoreOwns(Runs(w, r, es).core) && Safe(Runs(w, r, es), r)
    decreases |es|
  {
    hide CoreOwns, Safe, Serve, Possible, Orderly, Continues, OnGridBit, Separations;
    if es != [] {
      StepSafe(w, r, es[0].op, es[0].at);
      StepOwns(w, r, es[0].op, es[0].at);
      RunsOwn(Serve(w, r, es[0].op, es[0].at), r, es[1..]);
    }
  }

  /** An unoccupied table, as the service seeds it. */
  ghost predicate Unoccupied(rows: Rows) {
    Keyed(rows) && NulFreeIds(rows) && forall b :: b in rows ==> rows[b].state.Idle? && rows[b].vessel == ""
  }

  /** From an unoccupied harbour, after any orderly run: idle berths are exactly those without
      capacity, settled ones carry the vessel their capacity was given to, and those being allocated
      belong to exactly one verifying session, which holds their capacity. */
  lemma HarbourInOrder(rows: Rows, shore: real, matches: Phase -> bool, r: M.Rate, es: seq<Event>, b: string)
    requires Unoccupied(rows) && OrderlyRun(Initial(rows, shore, matches), r, es)
    ensures var w := Runs(Initial(rows, shore, matches), r, es).core;
            && (b in w.tbl.rows <==> b in rows)
            && (b in rows ==>
                  && !w.tbl.rows[b].state.Releasing?
                  && (w.tbl.rows[b].state.Idle? <==> b !in w.cap.allocs)
                  && (w.tbl.rows[b].state.Settled? ==> w.tbl.rows[b].vessel == w.cap.allocs[b].vessel != "")
                  && (b in w.cap.allocs ==> w.cap.allocs[b].kva <= rows[b].capacityKVA)
                  && (w.tbl.rows[b].state.Allocating? <==> HasOwner(w.conn.sessions, b)))
            && (forall id :: VerifyingOn(w.conn.sessions, id, b)
                 ==> b in w.cap.allocs && w.cap.allocs[b] == w.conn.sessions[id].allocation)
            && (forall id, id' :: VerifyingOn(w.conn.sessions, id, b) && VerifyingOn(w.conn.sessions, id', b)
                 ==> id == id')
  {
    var w0 := Initial(rows, shore, matches);
    InitialSafe(rows, shore, matches, r);
    RunsOwn(w0, r, es);
    RunsSafe(w0, r, es);
    var w := Runs(w0, r, es).core;
    hide OwnInv, CapInv, OnceInv, GridSafe, M.MeterInv, M.BillInv, Runs, Grows, M.RunsGrow, OrderlyRun, SeparationsIn;
    OwnedRow(w.tbl.rows, w.cap.allocs, w.conn.sessions, b);
    Owners(w.tbl.rows, w.cap.allocs, w.conn.sessions, b);
    if b in rows && w.tbl.rows[b].state.Allocating? {
      AllocatingOwner(w.tbl.rows, w.cap.allocs, w.conn.sessions, b);
    }
  }

  /** The berths the service starts with, B01 to B08. */
  function Harbour(): seq<Berth> {
    [Vacant(1, 10.0, 3000.0), Vacant(2, 10.0, 2500.0), Vacant(3, 10.0, 2000.0), Vacant(4, 6.0, 1500.0),
     Vacant(5, 6.0, 1200.0), Vacant(6, 6.0, 1000.0), Vacant(7, 6.0, 800.0), Vacant(8, 10.0, 2200.0)]
  }

  function BerthName(n: nat): string
    requires n < 10
  {
    ['B', '0', Decimal.DigitChar(n)]
  }

  function Vacant(n: nat, voltageKV: real, capacityKVA: real): Berth
    requires n < 10
  {
    Berth(BerthName(n), BerthName(n), voltageKV, capacityKVA, Idle, "", None, "")
  }

  lemma BerthNames(i: nat, j: nat)
    requires i < j < 10
    ensures BerthName(i) != BerthName(j) && NulFree(BerthName(i)) && NulFree(BerthName(j))
  {
    assert BerthName(i)[2] != BerthName(j)[2];
  }

  lemma HarbourRows(i: nat)
    requires i < 8
    ensures var b := Harbour()[i]; b.id == b.code == BerthName(i + 1) && b.state.Idle? && b.vessel == ""
  {
    hide BerthName;
  }

  /** They are distinct and unoccupied, so the results for runs apply to the service as shipped. */
  lemma HarbourUnoccupied()
    ensures DistinctSeed(Harbour()) && Unoccupied(Seeded(Harbour()))
  {
    hide Seeded, Harbour, BerthName;
    var seed := Harbour();
    HarbourSize();
    forall i | 0 <= i < 8 ensures seed[i].id == seed[i].code == BerthName(i + 1) && seed[i].state.Idle?
        && seed[i].vessel == "" && NulFree(seed[i].id) {
      HarbourRows(i);
      BerthNames(i + 1, 9);
    }
    forall i, j | 0 <= i < j < 8 ensures seed[i].id != seed[j].id && seed[i].code != seed[j].code {
      BerthNames(i + 1, j + 1);
    }
    SeededFrom(seed);
  }

  lemma HarbourSize()
    ensures |Harbour()| == 8
  {
  }
}
