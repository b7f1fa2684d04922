/** What every run of requests keeps, whatever the requests are: the books of the allocator, the
    sessions, the grid and the meters stay consistent. */
module Safety {
  import opened Prelude
  import opened BerthTable
  import opened CapacityBook
  import opened GridState
  import opened Switching
  import opened Sessions
  import opened AtMostOnce
  import opened Service
  import M = Metering
  import Plan
  import S = Sessions

  /** Capacity is held only for berths that exist. */
  predicate Known(w: Core) {
    w.cap.allocs.Keys <= w.tbl.rows.Keys
  }

  ghost predicate CoreSafe(w: Core) {
    && Keyed(w.tbl.rows) && NulFreeIds(w.tbl.rows) && Known(w)
    && CapInv(w.cap) && OnceInv(w.conn) && GridSafe(w.grid) && M.MeterInv(w.met)
  }

  ghost predicate Safe(w: World, r: M.Rate) {
    CoreSafe(w.core) && M.BillInv(w.core.met, w.bills, r)
  }

  /** What a step keeps besides safety: the berths themselves, the runs of the meters, the shore
      capacity, and the ledger's history. */
  ghost predicate Continues(w: Core, w1: Core) {
    && SameBerths(w.tbl.rows, w1.tbl.rows)
    && M.RunsGrow(w.met.active, w1.met.active)
    && Grows(w.cap.items, w1.cap.items) && w1.cap.shore == w.cap.shore
  }

  lemma ReleaseKnown(c: Cap, b: string, now: Time)
    ensures Release(c, b, now).0.allocs.Keys <= c.allocs.Keys
  {
    hide CloseFirst, Fingerprint;
  }

  lemma AllocateKnown(rows: Rows, c: Cap, b: string, vessel: string, kva: real, now: Time)
    ensures Allocate(rows, c, b, vessel, kva, now).0.allocs.Keys <= c.allocs.Keys + rows.Keys
  {
    hide CloseFirst, Fingerprint, AllocID, Remain;
  }

  lemma ClaimKeeps(w: Core, req: Request, now: Time)
    requires CapInv(w.cap) && NulFreeIds(w.tbl.rows) && Known(w)
    ensures var w1 := S.Claim(w, req, now).0;
            && CapInv(w1.cap) && Grows(w.cap.items, w1.cap.items) && w1.cap.shore == w.cap.shore
            && SameBerths(w.tbl.rows, w1.tbl.rows) && Known(w1)
            && w1.grid == w.grid && w1.met == w.met
  {
    hide CapInv, Allocate, Release, Registered, AllocID, SessionID;
    AllocateFresh(w.tbl.rows, w.cap, req.berthID, req.vessel, req.needKVA, now);
    AllocateKnown(w.tbl.rows, w.cap, req.berthID, req.vessel, req.needKVA, now);
    var cap := Allocate(w.tbl.rows, w.cap, req.berthID, req.vessel, req.needKVA, now).0;
    ReleaseSafe(cap, req.berthID, now);
    ReleaseKnown(cap, req.berthID, now);
  }

  lemma ApplySafe(w: Core, req: Request, now: Time)
    requires CoreSafe(w)
    ensures var w1 := Apply(w, req, now).0; CoreSafe(w1) && Continues(w, w1) && w1.grid == w.grid
  {
    hide CapInv, OnceInv, GridSafe, M.MeterInv, M.RunsGrow, S.Claim, Refusal, FindLive;
    ApplyOnce(w, req, now);
    RunsSame(w.met.active);
    ClaimKeeps(w, req, now);
  }

  lemma VacateSafe(w: Core, b: string, now: Time)
    requires CapInv(w.cap) && Known(w)
    ensures var w1 := Vacate(w, b, now);
            && CapInv(w1.cap) && Grows(w.cap.items, w1.cap.items) && w1.cap.shore == w.cap.shore
            && SameBerths(w.tbl.rows, w1.tbl.rows) && Known(w1)
            && w1.grid == w.grid && w1.met == w.met && w1.conn == w.conn
  {
    hide CapInv, MarkIdle, Release, Grows;
    ReleaseSafe(w.cap, b, now);
    ReleaseKnown(w.cap, b, now);
    MarkIdleKeeps(w.tbl, b);
  }

  lemma AbandonSafe(w: Core, id: string, st: SState, why: Reason, now: Time)
    requires CapInv(w.cap) && Known(w) && id in w.conn.sessions
    ensures var w1 := Abandon(w, id, st, why, now);
            && CapInv(w1.cap) && Grows(w.cap.items, w1.cap.items) && w1.cap.shore == w.cap.shore
            && SameBerths(w.tbl.rows, w1.tbl.rows) && Known(w1)
            && w1.grid == w.grid && w1.met == w.met
  {
    hide CapInv, Vacate, Closed;
    VacateSafe(w.(conn := Closed(w.conn, id, st, why)), w.conn.sessions[id].berthID, now);
  }

  lemma GridCallsSafe(g: Grid, p: Phase)
    requires GridSafe(g)
    ensures GridSafe(PhaseCheck(g, p).0) && GridSafe(SyncAndClose(PhaseCheck(g, p).0, p).0)
    ensures var g1 := SyncAndClose(PhaseCheck(g, p).0, p).0; g1.execs + OnGridBit(g) == g.execs + OnGridBit(g1)
    ensures var g1 := PhaseCheck(g, p).0; g1.execs + OnGridBit(g) == g.execs + OnGridBit(g1)
  {
  }

  lemma ConnectSafe(w: Core, s: Session, now: Time)
    requires Keyed(w.tbl.rows) && NulFreeIds(w.tbl.rows) && GridSafe(w.grid) && M.MeterInv(w.met)
    ensures var w1 := Connect(w, s, now).0;
            && GridSafe(w1.grid) && M.MeterInv(w1.met) && M.RunsGrow(w.met.active, w1.met.active)
            && SameBerths(w.tbl.rows, w1.tbl.rows) && w1.cap == w.cap && w1.conn == w.conn
            && w1.grid.execs + OnGridBit(w.grid) == w.grid.execs + OnGridBit(w1.grid)
  {
    hide GridSafe, M.MeterInv, M.RunsGrow, MarkOccupied, M.Start, PhaseCheck, SyncAndClose, OnGridBit;
    GridCallsSafe(w.grid, s.phase);
    MarkOccupiedKeeps(w.tbl, s.berthID, s.vessel, now);
    MarkOccupiedKnown(w.tbl, s.berthID, s.vessel, now);
    RunsSame(w.met.active);
    if s.berthID in w.tbl.rows {
      M.StartSafe(w.met, s.vessel, s.berthID, now);
    }
  }

  lemma RunsSame(a: map<string, M.Run>)
    ensures M.RunsGrow(a, a)
  {
  }

  lemma MarkOccupiedKnown(t: Table, b: string, vessel: string, now: Time)
    ensures MarkOccupied(t, b, vessel, now).1.None? ==> b in t.rows
  {
  }

  lemma ConfirmSafe(w: Core, id: string, now: Time)
    requires CoreSafe(w)
    ensures var w1 := Confirm(w, id, now).0;
            CoreSafe(w1) && Continues(w, w1) && w1.grid.execs + OnGridBit(w.grid) == w.grid.execs + OnGridBit(w1.grid)
  {
    hide CapInv, OnceInv, GridSafe, M.MeterInv, M.RunsGrow, Connect, Abandon, Closed, Finished, OnGridBit;
    ConfirmOnce(w, id, now);
    RunsSame(w.met.active);
    if id in w.conn.sessions && w.conn.sessions[id].state.Verifying? {
      var g := w.(conn := Gated(w.conn, id));
      var (w1, e) := Connect(g, w.conn.sessions[id], now);
      GatedKeys(w.conn, id);
      ConnectSafe(g, w.conn.sessions[id], now);
      if e.Some? {
        AbandonSafe(w1, id, Failed, Because(e.value), now);
      }
    }
  }

  lemma CancelSafe(w: Core, id: string, now: Time)
    requires CoreSafe(w)
    ensures var w1 := Cancel(w, id, now).0; CoreSafe(w1) && Continues(w, w1) && w1.grid == w.grid
  {
    hide CapInv, OnceInv, GridSafe, M.MeterInv, M.RunsGrow, Abandon;
    CancelOnce(w, id, now);
    RunsSame(w.met.active);
    if id in w.conn.sessions {
      AbandonSafe(w, id, Cancelled, ByOperator, now);
    }
  }

  lemma WaitSafe(w: Core, id: string, now: Time)
    requires CoreSafe(w)
    ensures var w1 := Wait(w, id, now).0; CoreSafe(w1) && Continues(w, w1) && w1.grid == w.grid
  {
    hide CapInv, OnceInv, GridSafe, M.MeterInv, M.RunsGrow, Abandon;
    WaitOnce(w, id, now);
    RunsSame(w.met.active);
    if id in w.conn.sessions {
      AbandonSafe(w, id, Lapsed, WaitExpired, now);
    }
  }

  lemma ContinuesTransitive(a: Core, b: Core, c: Core)
    requires Continues(a, b) && Continues(b, c)
    ensures Continues(a, c)
  {
  }

  lemma ContinuesSelf(a: Core)
    ensures Continues(a, a)
  {
  }

  lemma DrainSafe(g: Grid)
    requires GridSafe(g)
    ensures var g1 := Drain(g).0; GridSafe(g1) && g1.execs + OnGridBit(g) == g.execs + OnGridBit(g1)
  {
  }

  lemma {:induction false} ConfirmAllSafe(w: Core, order: seq<string>, now: Time)
    requires CoreSafe(w)
    ensures var w1 := ConfirmAll(w, order, now).0;
            CoreSafe(w1) && Continues(w, w1) && w1.grid.execs + OnGridBit(w.grid) == w.grid.execs + OnGridBit(w1.grid)
  {
    hide CoreSafe, Continues, Confirm, OnGridBit;
    if order == [] {
      ContinuesSelf(w);
    } else {
      var mid := ConfirmAll(w, order[..|order| - 1], now).0;
      ConfirmAllSafe(w, order[..|order| - 1], now);
      ConfirmSafe(mid, order[|order| - 1], now);
      ContinuesTransitive(w, mid, Confirm(mid, order[|order| - 1], now).0);
    }
  }

  lemma DispatchSafe(w: Core, order: seq<string>, now: Time)
    requires CoreSafe(w)
    ensures var w1 := AutoDispatch(w, order, now).0;
            CoreSafe(w1) && Continues(w, w1) && w1.grid.execs + OnGridBit(w.grid) == w.grid.execs + OnGridBit(w1.grid)
  {
    hide CapInv, OnceInv, GridSafe, M.MeterInv, M.RunsGrow, ConfirmAll, OnGridBit, Drain;
    ConfirmAllSafe(w, order, now);
    DrainSafe(ConfirmAll(w, order, now).0.grid);
  }

  lemma OccupySafe(w: Core, b: string, vessel: string, kva: real, now: Time)
    requires CoreSafe(w)
    ensures var w1 := Occupy(w, b, vessel, kva, now).0;
            CoreSafe(w1) && Continues(w, w1) && w1.grid == w.grid && w1.conn == w.conn
  {
    hide CapInv, OnceInv, GridSafe, M.MeterInv, Allocate, CheckReady, MarkOccupied;
    AllocateFresh(w.tbl.rows, w.cap, b, vessel, kva, now);
    AllocateKnown(w.tbl.rows, w.cap, b, vessel, kva, now);
    MarkOccupiedKeeps(w.tbl, b, vessel, now);
  }

  lemma LeaveTable(t: Table, b: string)
    requires Keyed(t.rows) && NulFreeIds(t.rows)
    ensures var (t1, t2) := (MarkReleasing(t, b).0, MarkIdle(MarkReleasing(t, b).0, b).0);
            && SameBerths(t.rows, t1.rows) && Keyed(t1.rows) && NulFreeIds(t1.rows)
            && SameBerths(t.rows, t2.rows) && Keyed(t2.rows) && NulFreeIds(t2.rows) && t2.rows.Keys == t.rows.Keys
  {
    hide NulFree;
  }

  lemma LeaveSafe(w: Core, b: string, now: Time)
    requires CoreSafe(w)
    ensures var w1 := Leave(w, b, now).0;
            CoreSafe(w1) && Continues(w, w1) && w1.grid == w.grid && w1.met == w.met && w1.conn == w.conn
  {
    hide CapInv, OnceInv, GridSafe, M.MeterInv, Release, MarkIdle, Keyed, NulFreeIds, Grows, M.RunsGrow;
    ContinuesSelf(w);
    ReleaseSafe(w.cap, b, now);
    ReleaseKnown(w.cap, b, now);
    LeaveTable(w.tbl, b);
  }

  lemma SwitchKeepsSafe(w: Core, onGrid: bool, b: string, vessel: string, now: Time)
    requires CoreSafe(w)
    ensures var w1 := Switch(w, onGrid, b, vessel, now).0;
            CoreSafe(w1) && Continues(w, w1) && OnGridBit(w1.grid) == OnGridBit(w.grid) && w1.grid.execs == w.grid.execs
  {
    hide CapInv, OnceInv, GridSafe, M.MeterInv, ApplySequence, MarkOccupied, MarkIdle, OnGridBit;
    SwitchSafe(w.grid, w.tbl, onGrid, b, vessel, Constantly(now));
    SwitchOutcome(w.grid, w.tbl, onGrid, b, vessel, Constantly(now));
    MarkOccupiedKeeps(w.tbl, b, vessel, now);
    MarkIdleKeeps(w.tbl, b);
  }

  lemma RebuildSafe(w: Core, now: Time)
    requires CoreSafe(w)
    ensures var w1 := Rebuild(w, now).0; CoreSafe(w1) && Continues(w, w1) && w1.grid == w.grid
  {
    hide CapInv, OnceInv, GridSafe, M.MeterInv, Rebuild;
    RebuildConverges(w, now, now);
    RebuildKeepsRest(w, now);
  }

  lemma RebuildKeepsRest(w: Core, now: Time)
    ensures var w1 := Rebuild(w, now).0; w1.grid == w.grid && w1.met == w.met && w1.conn == w.conn
  {
  }

  lemma ReconcileSafe(w: Core, now: Time)
    requires CoreSafe(w)
    ensures var w1 := CoreStep(w, OpReconcile, now); CoreSafe(w1) && Continues(w, w1)
  {
    hide CapInv, OnceInv, GridSafe, M.MeterInv, Reconcile;
    ReconcileRepairs(w.tbl.rows, w.cap, now, now);
  }

  /** How a step moves the count of breaker closings against the grid state. */
  function Separations(w: World, op: Op): nat {
    if op.OpSeparate? && w.core.grid.state.OnGrid? then 1 else 0
  }

  lemma CoreStepSafe(w: Core, op: Op, now: Time)
    requires CoreSafe(w)
    ensures var w1 := CoreStep(w, op, now);
            && CoreSafe(w1) && Continues(w, w1)
            && w1.grid.execs + OnGridBit(w.grid) ==
               w.grid.execs + OnGridBit(w1.grid) + (if op.OpSeparate? && w.grid.state.OnGrid? then 1 else 0)
  {
    hide CapInv, OnceInv, M.MeterInv, Apply, Confirm, Cancel, Wait, AutoDispatch, Occupy, Switch, Rebuild, Reconcile;
    hide Drain, M.TakeSample, M.Suspend, M.Resume, Grows, SameBerths, M.RunsGrow;
    ContinuesSelf(w);
    match op {
      case OpApply(req) => ApplySafe(w, req, now);
      case OpConfirm(id) => ConfirmSafe(w, id, now);
      case OpCancel(id) => CancelSafe(w, id, now);
      case OpWait(id) => WaitSafe(w, id, now);
      case OpDispatch(order) => DispatchSafe(w, order, now);
      case OpOverride(o) => OverrideOnce(w.conn, o);
      case OpOccupy(b, vessel, kva) => OccupySafe(w, b, vessel, kva, now);
      case OpSwitch(onGrid, b, vessel) => SwitchKeepsSafe(w, onGrid, b, vessel, now);
      case OpRebuild => RebuildSafe(w, now);
      case OpReconcile => ReconcileSafe(w, now);
      case OpDrain => DrainSafe(w.grid);
      case OpSample(v) => M.TakeSampleSafe(w.met, v, now);
      case OpSuspend(v) => M.SuspendSafe(w.met, v);
      case OpResume(v) => M.ResumeSafe(w.met, v);
      case _ =>
    }
  }

  lemma DepartSafe(w: World, r: M.Rate, b: string, hour: int, now: Time)
    requires Safe(w, r)
    ensures var w1 := Depart(w, r, b, hour, now).0;
            Safe(w1, r) && Continues(w.core, w1.core) && w1.core.grid == w.core.grid
  {
    hide CapInv, OnceInv, GridSafe, M.MeterInv, M.BillInv, M.Settle, Leave, Grows, SameBerths, M.RunsGrow;
    ContinuesSelf(w.core);
    var vessel := OccupiedBy(w.core.tbl.rows, b);
    if vessel.Some? {
      M.SettleSafe(w.core.met, w.bills, r, vessel.value, hour, now);
      var (m, bills, bill) := M.Settle(w.core.met, w.bills, r, vessel.value, hour, now);
      LeaveSafe(w.core, b, now);
      LeaveSafe(w.core.(met := m), b, now);
      ContinuesTransitive(w.core, w.core.(met := m), Leave(w.core.(met := m), b, now).0);
    }
  }

  lemma StepSafe(w: World, r: M.Rate, op: Op, now: Time)
    requires Safe(w, r)
    ensures var w1 := Serve(w, r, op, now);
            && Safe(w1, r) && Continues(w.core, w1.core)
            && w1.core.grid.execs + OnGridBit(w.core.grid) ==
               w.core.grid.execs + OnGridBit(w1.core.grid) + Separations(w, op)
  {
    hide CoreSafe, M.BillInv, CoreStep, Depart, M.Settle, OnGridBit, Grows, SameBerths, M.RunsGrow;
    match op {
      case OpDepart(b, hour) => DepartSafe(w, r, b, hour, now);
      case OpSettle(v, hour) => SettleStepSafe(w, r, v, hour, now);
      case _ =>
        CoreStepSafe(w.core, op, now);
        M.BillsSurvive(w.core.met, CoreStep(w.core, op, now).met, w.bills, r);
    }
  }

  lemma SettleStepSafe(w: World, r: M.Rate, v: string, hour: int, now: Time)
    requires Safe(w, r)
    ensures var w1 := Serve(w, r, OpSettle(v, hour), now);
            Safe(w1, r) && Continues(w.core, w1.core) && w1.core.grid == w.core.grid
  {
    hide CapInv, OnceInv, GridSafe, M.MeterInv, M.BillInv, M.Settle, M.RunsGrow;
    M.SettleSafe(w.core.met, w.bills, r, v, hour, now);
  }

  ghost function SeparationsIn(w: World, r: M.Rate, es: seq<Event>): nat
    decreases |es|
  {
    if es == [] then 0 else Separations(w, es[0].op) + SeparationsIn(Serve(w, r, es[0].op, es[0].at), r, es[1..])
  }

  /** Over every run of requests, of any kind and in any order: the allocator's books, the sessions'
      at-most-once execution, the grid and the meters stay consistent, and closings of the breaker
      exceed separations by one exactly while the grid is on. */
  lemma {:induction false} RunsSafe(w: World, r: M.Rate, es: seq<Event>)
    requires Safe(w, r)
    ensures var w1 := Runs(w, r, es);
            && Safe(w1, r) && Continues(w.core, w1.core)
            && w1.core.grid.execs + OnGridBit(w.core.grid) ==
               w.core.grid.execs + OnGridBit(w1.core.grid) + SeparationsIn(w, r, es)
    decreases |es|
  {
    hide Safe, Serve, Continues, OnGridBit, Separations;
    if es == [] {
      ContinuesSelf(w.core);
    } else {
      var mid := Serve(w, r, es[0].op, es[0].at);
      StepSafe(w, r, es[0].op, es[0].at);
      RunsSafe(mid, r, es[1..]);
      ContinuesTransitive(w.core, mid.core, Runs(mid, r, es[1..]).core);
    }
  }

  /** The service as it starts, with a table of distinct, separator-free berth ids. */
  ghost function Initial(rows: Rows, shore: real, matches: Phase -> bool): World {
    World(Core(Table(rows, 0), Fresh(shore), NewGrid(matches), M.NO_METERS, NO_SESSIONS), M.NO_BILLS)
  }

  lemma InitialSafe(rows: Rows, shore: real, matches: Phase -> bool, r: M.Rate)
    requires Keyed(rows) && NulFreeIds(rows)
    ensures Safe(Initial(rows, shore, matches), r)
  {
    hide CapInv, OnceInv;
    FreshSafe(shore);
    NoSessionsOnce();
  }

  /** At-most-once execution from the start of the service: whatever was requested, no request id is
      executed twice, and the breaker closed as often as it separated, plus once if the grid is on. */
  lemma FromTheStart(rows: Rows, shore: real, matches: Phase -> bool, r: M.Rate, es: seq<Event>, requestID: string)
    requires Keyed(rows) && NulFreeIds(rows)
    ensures var w0 := Initial(rows, shore, matches);
            var w := Runs(w0, r, es).core;
            && (requestID != "" ==> Executed(w.conn, requestID) <= 1)
            && |w.conn.sessions| == w.conn.number
            && w.grid.execs == SeparationsIn(w0, r, es) + OnGridBit(w.grid)
            && GridSafe(w.grid)
            && (shore >= 0.0 ==> Remain(w.cap) >= 0.0)
            && w.cap.allocs.Keys <= w.tbl.rows.Keys && w.tbl.rows.Keys == rows.Keys
  {
    hide CapInv, OnceInv, M.MeterInv, M.BillInv, Runs, SeparationsIn, GridSafe;
    var w0 := Initial(rows, shore, matches);
    InitialSafe(rows, shore, matches, r);
    RunsSafe(w0, r, es);
    var w := Runs(w0, r, es).core;
    if requestID != "" {
      OnceMeans(w, Request(requestID, "", "", 0.0, NO_PHASE), "", 0);
    }
    OnceMeans(w, Request("r", "", "", 0.0, NO_PHASE), "", 0);
    if shore >= 0.0 {
      NeverOwed(w.cap);
    }
  }

  /** So the plan always accounts for all the capacity in use, whatever was requested before it. */
  lemma PlanAddsUp(
    rows: Rows, shore: real, matches: Phase -> bool, r: M.Rate, es: seq<Event>, listed: seq<Berth>)
    requires Keyed(rows) && NulFreeIds(rows)
    requires Plan.Lists(listed, Runs(Initial(rows, shore, matches), r, es).core.tbl.rows)
    ensures var cap := Runs(Initial(rows, shore, matches), r, es).core.cap;
            Plan.SumDemand(cap.allocs, listed) + Remain(cap) == shore
  {
    hide CapInv, OnceInv, M.MeterInv, M.BillInv, Runs, GridSafe, Total, Plan.Lists, Plan.SumDemand, SeparationsIn;
    var w0 := Initial(rows, shore, matches);
    InitialSafe(rows, shore, matches, r);
    RunsSafe(w0, r, es);
    var w := Runs(w0, r, es).core;
    Plan.DemandColumn(w.cap);
    Plan.DemandsAddUp(w.cap.allocs, w.cap.used, listed, w.tbl.rows);
  }
}
