/** Every sequential run of requests is one of the interleavings: it is what one thread does alone. */
module Refinement {
  import opened Prelude
  import opened BerthTable
  import opened CapacityBook
  import opened GridState
  import opened Switching
  import opened Sessions
  import opened AtMostOnce
  import opened Service
  import opened Safety
  import opened Interleaving
  import opened Overlap
  import B = CapacityBook
  import M = Metering
  import S = Sessions
  import V = Service

  // Other users of the allocator.

  lemma ElsewhereNext(s: System, t: Thread, section: Section)
    requires Callable(section)
    ensures Act(s, t, Elsewhere(section)) == s.(cap := B.After(s.cap, section))
  {
    hide Move, B.After, Callable;
  }

  /** Releasing berth by berth, in some order. */
  ghost function FreeAll(d: set<string>, now: Time): seq<Action> {
    if d == {} then [] else
    var b :| b in d;
    FreeAll(d - {b}, now) + [Elsewhere(B.Free(b, now))]
  }

  lemma {:induction false} FreeAllAlone(s: System, t: Thread, d: set<string>, now: Time)
    requires CapInv(s.cap) && d <= s.cap.allocs.Keys
    ensures Alone(s, t, FreeAll(d, now)) == s.(cap := ReleaseSet(s.cap, d, now))
    decreases d
  {
    hide CapInv, Alone, Act, ReleaseSet, Release, NulFree;
    if d == {} {
      NoMore(s, t);
      ReleaseSetEmpty(s.cap, now);
    } else {
      var b :| b in d && FreeAll(d, now) == FreeAll(d - {b}, now) + [Elsewhere(B.Free(b, now))];
      var rest := d - {b};
      var mid := s.(cap := ReleaseSet(s.cap, rest, now));
      FreeAllAlone(s, t, rest, now);
      AloneJoin(s, t, FreeAll(rest, now), [Elsewhere(B.Free(b, now))]);
      Last(mid, t, Elsewhere(B.Free(b, now)));
      HeldNulFree(s.cap, b);
      ElsewhereNext(mid, t, B.Free(b, now));
      ReleaseSetSafe(s.cap, rest, now);
      ReleaseSetStep(s.cap, rest, b, now);
      assert rest + {b} == d;
    }
  }

  lemma HeldNulFree(c: Cap, b: string)
    requires CapInv(c) && b in c.allocs
    ensures NulFree(b)
  {
  }

  function OccupyActions(w: Core, b: string, vessel: string, kva: real, now: Time): seq<Action> {
    if b == "" || CheckReady(w.tbl.rows, b, kva).Some? then []
    else [Elsewhere(B.Free(b, now))] + [Elsewhere(B.Claim(b, vessel, kva, now))]
  }

  lemma OccupyAlone(s: System, w: Core, t: Thread, b: string, vessel: string, kva: real, now: Time)
    requires Mirrors(s, w) && NulFreeIds(w.tbl.rows) && At(s, t).Ready?
    ensures var s1 := Alone(s, t, OccupyActions(w, b, vessel, kva, now));
            Mirrors(s1, V.Occupy(w, b, vessel, kva, now).0) && At(s1, t).Ready?
  {
    hide Alone, Act, Shows, Release, TryAllocate, Remain, NulFree, MarkOccupied;
    if b == "" || CheckReady(w.tbl.rows, b, kva).Some? {
      NoMore(s, t);
    } else {
      var (free, claim) := (B.Free(b, now), B.Claim(b, vessel, kva, now));
      var s1 := s.(cap := Release(s.cap, b, now).0);
      Then(s, t, Elsewhere(free), [Elsewhere(claim)]);
      ElsewhereNext(s, t, free);
      Last(s1, t, Elsewhere(claim));
      ElsewhereNext(s1, t, claim);
      SameShown(s, Alone(s, t, OccupyActions(w, b, vessel, kva, now)), w.conn);
    }
  }

  function LeaveActions(w: Core, b: string, now: Time): seq<Action> {
    if MarkReleasing(w.tbl, b).1.Some? then [] else [Elsewhere(B.Free(b, now))]
  }

  lemma LeaveAlone(s: System, w: Core, t: Thread, b: string, now: Time)
    requires Mirrors(s, w) && NulFreeIds(w.tbl.rows) && At(s, t).Ready?
    ensures var s1 := Alone(s, t, LeaveActions(w, b, now)); Mirrors(s1, Leave(w, b, now).0) && At(s1, t).Ready?
  {
    hide Alone, Act, Shows, CloseFirst, B.Fingerprint, NulFree, MarkIdle;
    if MarkReleasing(w.tbl, b).1.Some? {
      NoMore(s, t);
    } else {
      Last(s, t, Elsewhere(B.Free(b, now)));
      ElsewhereNext(s, t, B.Free(b, now));
      SameShown(s, Alone(s, t, LeaveActions(w, b, now)), w.conn);
    }
  }

  lemma ReconcileAlone(s: System, w: Core, t: Thread, now: Time)
    requires Mirrors(s, w) && CapInv(w.cap) && At(s, t).Ready?
    ensures var s1 := Alone(s, t, FreeAll(Stale(w.tbl.rows, w.cap.allocs), now));
            Mirrors(s1, w.(cap := Reconcile(w.tbl.rows, w.cap, now).0)) && At(s1, t).Ready?
  {
    hide Alone, Shows, CapInv, ReleaseSet, FreeAll;
    FreeAllAlone(s, t, Stale(w.tbl.rows, w.cap.allocs), now);
    SameShown(s, Alone(s, t, FreeAll(Stale(w.tbl.rows, w.cap.allocs), now)), w.conn);
  }

  // Any request.

  /** The sections one request comes to. Requests that touch neither sessions nor capacity have none. */
  ghost function CoreActions(w: Core, op: Op, now: Time): seq<Action> {
    match op
    case OpApply(req) => ApplyActions(w, req, now)
    case OpConfirm(id) => ConfirmActions(w, id, now)
    case OpCancel(id) => [CancelCall(id)] + Tail(now)
    case OpWait(id) => WaitActions(id, now)
    case OpDispatch(order) => DispatchActions(w, order, now)
    case OpOccupy(b, vessel, kva) => OccupyActions(w, b, vessel, kva, now)
    case OpReconcile => FreeAll(Stale(w.tbl.rows, w.cap.allocs), now)
    case OpDrain => DrainActions(w.grid)
    case _ => []
  }

  ghost function OpActions(w: World, r: M.Rate, op: Op, now: Time): seq<Action> {
    match op
    case OpDepart(b, hour) =>
      var vessel := OccupiedBy(w.core.tbl.rows, b);
      if vessel.None? then []
      else if M.StateOf(w.core.met, vessel.value) == M.Metering
        && M.Settle(w.core.met, w.bills, r, vessel.value, hour, now).2.Err?
      then []
      else LeaveActions(w.core, b, now)
    case _ => CoreActions(w.core, op, now)
  }

  /** What the shared state does not show: the override, the table, and the grid and the meter but for
      closings and the vessels with a run. */
  predicate Hidden(w: Core, w1: Core) {
    && w1.conn == w.conn.(over := w1.conn.over) && w1.cap == w.cap && w1.grid.execs == w.grid.execs
    && w1.met.active.Keys == w.met.active.Keys
  }

  lemma MirrorsRest(s: System, w: Core, w1: Core)
    requires Mirrors(s, w) && Hidden(w, w1)
    ensures Mirrors(s, w1)
  {
  }

  /** Requests without sections. */
  predicate Sectionless(op: Op) {
    || op.OpOverride? || op.OpSwitch? || op.OpRebuild? || op.OpSeparate? || op.OpEnqueue? || op.OpFault?
    || op.OpSample? || op.OpSuspend? || op.OpResume? || op.OpDepart? || op.OpSettle?
  }

  /** Sampling, suspending and resuming start no run and end none; nor does billing. */
  lemma SameRuns(m: M.Meters, v: string, now: Time)
    ensures M.TakeSample(m, v, now).0.active.Keys == m.active.Keys
    ensures M.Suspend(m, v).0.active.Keys == m.active.Keys && M.Resume(m, v).0.active.Keys == m.active.Keys
  {
  }

  lemma BilledRuns(m: M.Meters, b: M.Bills, r: M.Rate, v: string, hour: int, now: Time)
    ensures M.Settle(m, b, r, v, hour, now).0.active.Keys == m.active.Keys
  {
  }

  lemma QuietOp(w: Core, op: Op, now: Time)
    requires CapInv(w.cap) && GridSafe(w.grid) && Sectionless(op)
    ensures Hidden(w, CoreStep(w, op, now))
  {
    hide CapInv, ApplySequence, Rebuild, M.TakeSample, M.Suspend, M.Resume, Push;
    hide S.Apply, S.Confirm, S.Cancel, S.Wait, AutoDispatch, V.Occupy, Reconcile, Drain, GridSafe;
    match op {
      case OpSwitch(onGrid, b, vessel) => SwitchSafe(w.grid, w.tbl, onGrid, b, vessel, Constantly(now));
      case OpRebuild => RebuildConverges(w, now, now); RebuildKeepsRest(w, now);
      case OpSample(v) => SameRuns(w.met, v, now);
      case OpSuspend(v) => SameRuns(w.met, v, now);
      case OpResume(v) => SameRuns(w.met, v, now);
      case _ =>
    }
  }

  lemma QuietAlone(s: System, w: Core, t: Thread, op: Op, now: Time)
    requires Mirrors(s, w) && CapInv(w.cap) && GridSafe(w.grid) && At(s, t).Ready? && Sectionless(op)
    ensures CoreActions(w, op, now) == []
    ensures Alone(s, t, []) == s && Mirrors(s, CoreStep(w, op, now))
  {
    hide Mirrors, CoreStep, CapInv, GridSafe, Hidden;
    NoMore(s, t);
    QuietOp(w, op, now);
    MirrorsRest(s, w, CoreStep(w, op, now));
  }

  lemma CoreOpAlone(s: System, w: Core, t: Thread, op: Op, now: Time)
    requires Mirrors(s, w) && Inv(s) && CoreSafe(w) && At(s, t).Ready?
    ensures var s1 := Alone(s, t, CoreActions(w, op, now)); Mirrors(s1, CoreStep(w, op, now)) && At(s1, t).Ready?
  {
    hide Mirrors, Inv, Alone, CapInv, GridSafe, S.Apply, S.Confirm, S.Cancel, S.Wait, AutoDispatch, V.Occupy;
    hide Switch, Rebuild;
    hide SetOverride, Separate, Push, M.TakeSample, M.Suspend, M.Resume, M.MeterInv, OnceInv, Keyed, NulFreeIds;
    hide Reconcile, Drain, ApplyActions, ConfirmActions, DispatchActions, OccupyActions, FreeAll, DrainActions;
    hide Tail, WaitActions;
    if Sectionless(op) {
      hide CoreActions, CoreStep;
      QuietAlone(s, w, t, op, now);
      return;
    }
    match op {
      case OpApply(req) => ApplyAlone(s, w, t, req, now);
      case OpConfirm(id) => SessionsPart(s); ConfirmAlone(s, w, t, id, now);
      case OpCancel(id) => CancelAlone(s, w, t, id, now);
      case OpWait(id) => WaitAlone(s, w, t, id, now);
      case OpDispatch(order) => DispatchAlone(s, w, t, order, now);
      case OpOccupy(b, vessel, kva) => OccupyAlone(s, w, t, b, vessel, kva, now);
      case OpReconcile => ReconcileAlone(s, w, t, now);
      case OpDrain => DrainAlone(s, w, t);
      case _ =>
    }
  }

  /** One request served without interference is some sections of one thread. */
  lemma OpAlone(s: System, w: World, r: M.Rate, t: Thread, op: Op, now: Time)
    requires Mirrors(s, w.core) && Inv(s) && Safe(w, r) && At(s, t).Ready?
    ensures var s1 := Alone(s, t, OpActions(w, r, op, now));
            Mirrors(s1, Serve(w, r, op, now).core) && At(s1, t).Ready? && Inv(s1)
  {
    hide Mirrors, Inv, Alone, CoreActions, CoreStep, M.Settle, CapInv, M.BillInv, M.MeterInv, GridSafe;
    hide LeaveActions, Leave;
    AloneSafe(s, t, OpActions(w, r, op, now));
    match op {
      case OpDepart(b, hour) => DepartAlone(s, w, r, t, b, hour, now);
      case OpSettle(v, hour) => SettleAlone(s, w, r, t, v, hour, now);
      case _ => CoreOpAlone(s, w.core, t, op, now);
    }
  }

  lemma SettleAlone(s: System, w: World, r: M.Rate, t: Thread, v: string, hour: int, now: Time)
    requires Mirrors(s, w.core) && At(s, t).Ready?
    ensures var op := OpSettle(v, hour);
            var s1 := Alone(s, t, OpActions(w, r, op, now));
            Mirrors(s1, Serve(w, r, op, now).core) && At(s1, t).Ready?
  {
    hide Mirrors, Alone, M.Settle;
    NoMore(s, t);
    BilledRuns(w.core.met, w.bills, r, v, hour, now);
    MirrorsRest(s, w.core, Serve(w, r, OpSettle(v, hour), now).core);
  }

  lemma DepartAlone(s: System, w: World, r: M.Rate, t: Thread, b: string, hour: int, now: Time)
    requires Mirrors(s, w.core) && NulFreeIds(w.core.tbl.rows) && At(s, t).Ready?
    ensures var op := OpDepart(b, hour);
            var s1 := Alone(s, t, OpActions(w, r, op, now));
            Mirrors(s1, Serve(w, r, op, now).core) && At(s1, t).Ready?
  {
    hide Mirrors, Alone, M.Settle, LeaveActions, Leave;
    NoMore(s, t);
    var vessel := OccupiedBy(w.core.tbl.rows, b);
    if vessel.Some? {
      var m := M.Settle(w.core.met, w.bills, r, vessel.value, hour, now).0;
      var metered := w.core.(met := m);
      BilledRuns(w.core.met, w.bills, r, vessel.value, hour, now);
      MirrorsRest(s, w.core, metered);
      LeaveAlone(s, metered, t, b, now);
      LeaveAlone(s, w.core, t, b, now);
      SameLeaving(w.core, m, b, now);
    }
  }

  lemma SameLeaving(w: Core, m: M.Meters, b: string, now: Time)
    ensures LeaveActions(w.(met := m), b, now) == LeaveActions(w, b, now)
  {
  }

  // Any run.

  ghost function RunTurns(w: World, r: M.Rate, es: seq<Event>): seq<Turn>
    decreases |es|
  {
    if es == [] then []
    else By(0, OpActions(w, r, es[0].op, es[0].at)) + RunTurns(Serve(w, r, es[0].op, es[0].at), r, es[1..])
  }

  lemma {:induction false} RunAlone(s: System, w: World, r: M.Rate, es: seq<Event>)
    requires Mirrors(s, w.core) && Inv(s) && Safe(w, r) && At(s, 0).Ready?
    ensures Mirrors(Interleaved(s, RunTurns(w, r, es)), Runs(w, r, es).core)
    decreases |es|
  {
    hide Mirrors, Inv, Safe, Serve, Interleaved, By, OpActions, Alone, Continues, OnGridBit, Separations;
    if es == [] {
      NoTurns(s);
    } else {
      var (op, now) := (es[0].op, es[0].at);
      var (acts, w1) := (OpActions(w, r, op, now), Serve(w, r, op, now));
      OpAlone(s, w, r, 0, op, now);
      StepSafe(w, r, op, now);
      AloneTurns(s, 0, acts);
      InterleavedJoin(s, By(0, acts), RunTurns(w1, r, es[1..]));
      RunAlone(Interleaved(s, By(0, acts)), w1, r, es[1..]);
    }
  }

  lemma NoTurns(s: System)
    ensures Interleaved(s, []) == s
  {
  }

  /** From the start of the service, any run of requests, of any kind and with any outcome, is an
      interleaving with the same sessions, the same books and as many closings of the grid. */
  lemma SequentialIsInterleaved(rows: Rows, shore: real, matches: Phase -> bool, r: M.Rate, es: seq<Event>)
    requires Keyed(rows) && NulFreeIds(rows)
    ensures var w := Initial(rows, shore, matches);
            Mirrors(Interleaved(Start(shore), RunTurns(w, r, es)), Runs(w, r, es).core)
  {
    hide Inv, Safe, Runs, RunTurns, Interleaved;
    InitialSafe(rows, shore, matches, r);
    StartSafe(shore);
    RunAlone(Start(shore), Initial(rows, shore, matches), r, es);
  }
}
