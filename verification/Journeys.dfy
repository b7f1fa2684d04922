/** Calls that follow one another: what one request sets up and the next one sees. */
module Journeys {
  import opened Prelude
  import opened BerthTable
  import opened CapacityBook
  import opened GridState
  import opened Switching
  import opened Sessions
  import opened AtMostOnce
  import opened Ownership
  import opened Dispatching
  import opened Service
  import opened Safety
  import opened OwnershipRuns
  import opened Answers
  import M = Metering

  // Applying and confirming.

  /** Confirming the session just applied for succeeds exactly if the grid is off, the supply matches the
      phase that was asked for, the breaker closes and the vessel was never metered. The vessel is then
      connected as asked; otherwise everything that applying took is given back. */
  lemma ApplyThenConfirm(w: Core, req: Request, now: Time, later: Time)
    requires CoreOwns(w) && CapInv(w.cap) && OnceInv(w.conn) && !Answered(w.conn, req) && Acceptable(w, req)
    ensures var id := SessionID(w.conn.number + 1);
            var w1 := Apply(w, req, now).0;
            var (w2, e) := Confirm(w1, id, later);
            && (e.None? <==>
                  !w.grid.state.OnGrid? && w.grid.matches(req.phase) && !w.grid.fault && req.vessel !in w.met.active)
            && CoreOwns(w2) && CapInv(w2.cap) && id in w2.conn.sessions && id !in w2.conn.pending
            && (e.None? ==> Connected(w, w2, req, id, later))
            && (e.Some? ==>
                  && w2.conn.sessions[id].state.Failed? && w2.conn.sessions[id].reason == Because(e.value)
                  && w2.cap.allocs == w.cap.allocs && Remain(w2.cap) == Remain(w.cap)
                  && req.berthID in w2.tbl.rows && w2.tbl.rows[req.berthID].state.Idle?
                  && w2.tbl.rows[req.berthID].vessel == "" && w2.met == w.met)
  {
    hide OwnInv, CapInv, OnceInv, Apply, Confirm, SessionID, AllocID, FindLive, Remain, Acceptable;
    var id := SessionID(w.conn.number + 1);
    ApplyOutcome(w, req, now);
    ApplyOwns(w, req, now);
    ApplyRegisters(w, req, now);
    RoomAt(w, req);
    var w1 := Apply(w, req, now).0;
    ConfirmOutcome(w1, id, later);
    ConfirmAnswers(w1, id, later);
    assert w.cap.allocs[req.berthID := Granting(req, now)] - {req.berthID} == w.cap.allocs;
  }

  /** The request's vessel is connected at the request's berth. */
  ghost predicate Connected(w: Core, w2: Core, req: Request, id: string, at: Time) {
    && id in w2.conn.sessions && AsAsked(w2.conn.sessions[id], req)
    && Executed(w2.conn, req.requestID) == Executed(w.conn, req.requestID) + 1
    && req.berthID in w2.tbl.rows && w2.tbl.rows[req.berthID].state.Settled?
    && w2.tbl.rows[req.berthID].vessel == req.vessel && w2.tbl.rows[req.berthID].occupiedAt == Some(at)
    && req.berthID in w2.cap.allocs && w2.cap.allocs[req.berthID].kva == req.needKVA
    && w2.cap.allocs - {req.berthID} == w.cap.allocs && Remain(w2.cap) == Remain(w.cap) - req.needKVA
    && M.StateOf(w2.met, req.vessel) == M.Metering && req.vessel in w2.met.active
    && w2.met.active[req.vessel].berthID == req.berthID && w2.met.active[req.vessel].samples == 0
    && w2.grid.state.OnGrid? && w2.grid.closed && w2.grid.phase == req.phase && w2.grid.execs == w.grid.execs + 1
  }

  predicate AsAsked(s: Session, req: Request) {
    && s.state.Connected? && s.progress == [StepVerify, StepPhaseCheck, StepLink, StepClose]
    && s.requestID == req.requestID && s.vessel == req.vessel && s.berthID == req.berthID && s.phase == req.phase
  }

  // A whole visit.

  lemma {:induction false} RunsJoin(w: World, r: M.Rate, a: seq<Event>, b: seq<Event>)
    ensures Runs(w, r, a + b) == Runs(Runs(w, r, a), r, b)
    decreases |a|
  {
    hide Serve;
    if a == [] {
      assert a + b == b;
    } else {
      RunsJoin(Serve(w, r, a[0].op, a[0].at), r, a[1..], b);
      assert (a + b)[1..] == a[1..] + b;
    }
  }

  function Reading(vessel: string, times: seq<Time>): seq<Event> {
    seq(|times|, i requires 0 <= i < |times| => Event(OpSample(vessel), times[i]))
  }

  /** Reading the meter of a running vessel any number of times adds as many samples, and touches nothing
      else. */
  lemma {:induction false} ReadingRun(w: World, r: M.Rate, vessel: string, times: seq<Time>)
    requires M.MeterInv(w.core.met) && M.StateOf(w.core.met, vessel) == M.Metering
    ensures var w1 := Runs(w, r, Reading(vessel, times));
            && w1 == w.(core := w.core.(met := w1.core.met)) && M.MeterInv(w1.core.met)
            && M.StateOf(w1.core.met, vessel) == M.Metering && vessel in w1.core.met.active
            && w1.core.met.active[vessel].berthID == w.core.met.active[vessel].berthID
            && |M.Samples(w1.core.met, vessel)| == |M.Samples(w.core.met, vessel)| + |times|
    decreases |times|
  {
    hide M.MeterInv, M.TakeSample;
    if times == [] {
    } else {
      var w1 := Serve(w, r, OpSample(vessel), times[0]);
      M.TakeSampleSafe(w.core.met, vessel, times[0]);
      M.SampleKeepsState(w.core.met, vessel, times[0]);
      ReadingRun(w1, r, vessel, times[1..]);
      assert Reading(vessel, times)[1..] == Reading(vessel, times[1..]);
    }
  }

  /** Apply, confirm, and read the meter now and then. */
  function Visiting(req: Request, id: string, now: Time, later: Time, times: seq<Time>): seq<Event> {
    [Event(OpApply(req), now)] + [Event(OpConfirm(id), later)] + Reading(req.vessel, times)
  }

  /** Up to the departure: the vessel is connected, and its meter has been read. */
  lemma VisitUntilDeparture(w: World, r: M.Rate, req: Request, times: seq<Time>, now: Time, later: Time)
    requires CoreOwns(w.core) && Safe(w, r) && !Answered(w.core.conn, req) && Acceptable(w.core, req)
    requires !w.core.grid.state.OnGrid? && w.core.grid.matches(req.phase) && !w.core.grid.fault
    requires req.vessel !in w.core.met.active
    ensures var id := SessionID(w.core.conn.number + 1);
            var core := Confirm(Apply(w.core, req, now).0, id, later).0;
            var w1 := Runs(w, r, Visiting(req, id, now, later, times));
            && w1 == World(core.(met := w1.core.met), w.bills) && Connected(w.core, core, req, id, later)
            && CoreOwns(w1.core) && Safe(w1, r)
            && M.StateOf(w1.core.met, req.vessel) == M.Metering && |M.Samples(w1.core.met, req.vessel)| == |times|
            && req.vessel in w1.core.met.active && w1.core.met.active[req.vessel].berthID == req.berthID
  {
    hide OwnInv, CapInv, OnceInv, GridSafe, M.MeterInv, M.BillInv, Runs, Apply, Confirm, SessionID, Remain, Acceptable;
    hide FindLive, Reading, Connected, Keyed, NulFreeIds, Continues, SeparationsIn, Known;
    var id := SessionID(w.core.conn.number + 1);
    var es := [Event(OpApply(req), now)] + [Event(OpConfirm(id), later)];
    var wa := Serve(w, r, OpApply(req), now);
    RunsThen(w, r, Event(OpApply(req), now), [Event(OpConfirm(id), later)]);
    RunsLast(wa, r, Event(OpConfirm(id), later));
    ApplyThenConfirm(w.core, req, now, later);
    RunsJoin(w, r, es, Reading(req.vessel, times));
    RunsSafe(w, r, es);
    RunsSafe(w, r, Visiting(req, id, now, later, times));
    var wc := Runs(w, r, es);
    PluggedIn(w.core, wc.core, req, id, later);
    ReadingRun(wc, r, req.vessel, times);
  }

  lemma PluggedIn(w: Core, w2: Core, req: Request, id: string, at: Time)
    requires Connected(w, w2, req, id, at) && M.MeterInv(w2.met)
    ensures M.StateOf(w2.met, req.vessel) == M.Metering && M.Samples(w2.met, req.vessel) == []
    ensures req.vessel in w2.met.active && w2.met.active[req.vessel].berthID == req.berthID
  {
    hide M.MeterInv, SessionID, Remain;
    M.HistoryOf(w2.met, req.vessel);
  }

  /** A visit from end to end. A vessel that applies, is confirmed and metered can depart exactly if its meter
      was read at least once. It is then billed once, a tenth of a kilowatt hour for each reading at the
      prices of the hour it leaves, and berth and capacity are free again; the session stays connected. */
  lemma Visit(
    w: World, r: M.Rate, req: Request, times: seq<Time>, now: Time, later: Time, hour: int, end: Time)
    requires CoreOwns(w.core) && Safe(w, r) && !Answered(w.core.conn, req) && Acceptable(w.core, req)
    requires !w.core.grid.state.OnGrid? && w.core.grid.matches(req.phase) && !w.core.grid.fault
    requires req.vessel !in w.core.met.active
    ensures var id := SessionID(w.core.conn.number + 1);
            var w1 := Runs(w, r, Visiting(req, id, now, later, times));
            var (w2, e) := Depart(w1, r, req.berthID, hour, end);
            && e == (if times == [] then Some(NoSamples) else None) && (e.Some? ==> w2 == w1)
            && CoreOwns(w2.core) && id in w2.core.conn.sessions && w2.core.conn.sessions[id].state.Connected?
            && (e.None? ==>
                  && w2.core.cap.allocs == w.core.cap.allocs && Remain(w2.core.cap) == Remain(w.core.cap)
                  && req.berthID in w2.core.tbl.rows && w2.core.tbl.rows[req.berthID].state.Idle?
                  && BilledOnce(w2.bills, r, req, |times|, hour, end))
  {
    hide OwnInv, Safe, Runs, Visiting, Reading, Depart, SessionID, Remain, Acceptable, FindLive, BilledOnce;
    hide Apply, Confirm, CapInv;
    var id := SessionID(w.core.conn.number + 1);
    var w1 := Runs(w, r, Visiting(req, id, now, later, times));
    Named(w.core, req);
    VisitUntilDeparture(w, r, req, times, now, later);
    SafeBooks(w1, r);
    DepartOwned(w1, r, req.berthID, hour, end);
    DepartOutcome(w1, r, req.berthID, hour, end);
    if times != [] {
      VisitBill(w, w1, r, req, hour, end);
    }
  }

  lemma Named(w: Core, req: Request)
    requires Acceptable(w, req)
    ensures req.vessel != "" && req.berthID != ""
  {
  }

  lemma SafeBooks(w: World, r: M.Rate)
    requires Safe(w, r)
    ensures CapInv(w.core.cap) && M.MeterInv(w.core.met) && M.BillInv(w.core.met, w.bills, r)
  {
  }

  /** The bill of a departure is that of a settlement. */
  lemma DepartBills(w: World, r: M.Rate, b: string, hour: int, now: Time)
    requires Depart(w, r, b, hour, now).1.None?
    ensures var vessel := OccupiedBy(w.core.tbl.rows, b);
            && vessel.Some?
            && (Metered(w, vessel.value) ==>
                  Depart(w, r, b, hour, now).0.bills ==
                  M.Settle(w.core.met, w.bills, r, vessel.value, hour, now).1)
  {
    hide M.Settle, Leave;
  }

  lemma VisitBill(w: World, w1: World, r: M.Rate, req: Request, hour: int, end: Time)
    requires Safe(w, r) && Safe(w1, r) && w1.bills == w.bills && req.vessel !in w.core.met.active
    requires OccupiedBy(w1.core.tbl.rows, req.berthID) == Some(req.vessel) && Metered(w1, req.vessel)
    requires req.vessel in w1.core.met.active && w1.core.met.active[req.vessel].berthID == req.berthID
    requires Depart(w1, r, req.berthID, hour, end).1.None? && M.Samples(w1.core.met, req.vessel) != []
    ensures var w2 := Depart(w1, r, req.berthID, hour, end).0;
            BilledOnce(w2.bills, r, req, |M.Samples(w1.core.met, req.vessel)|, hour, end)
  {
    hide Safe, Depart, M.Settle, M.MeterInv, M.BillInv, BilledOnce, Metered;
    SafeBooks(w, r);
    SafeBooks(w1, r);
    DepartBills(w1, r, req.berthID, hour, end);
    Unbilled(w.core.met, w.bills, r, req.vessel);
    FirstBill(w1.core.met, w1.bills, r, req, hour, end);
  }

  lemma FirstBill(m: M.Meters, b: M.Bills, r: M.Rate, req: Request, hour: int, end: Time)
    requires M.MeterInv(m) && M.BillInv(m, b, r) && M.BillsOf(b, req.vessel) == []
    requires req.vessel in m.active && m.active[req.vessel].berthID == req.berthID && M.Samples(m, req.vessel) != []
    ensures BilledOnce(M.Settle(m, b, r, req.vessel, hour, end).1, r, req, |M.Samples(m, req.vessel)|, hour, end)
  {
    hide M.MeterInv, M.BillInv, M.Settle, M.TierAt, M.EnergyPrice, M.ServicePrice;
    M.SettleCharges(m, b, r, req.vessel, hour, end);
    M.SettleSafe(m, b, r, req.vessel, hour, end);
    M.HistoryOf(m, req.vessel);
  }

  lemma Unbilled(m: M.Meters, b: M.Bills, r: M.Rate, vessel: string)
    requires M.BillInv(m, b, r) && vessel !in m.active
    ensures M.BillsOf(b, vessel) == []
  {
  }

  /** The last bill of the vessel is its only one, and what it charges. */
  ghost predicate BilledOnce(b: M.Bills, r: M.Rate, req: Request, readings: nat, hour: int, at: Time) {
    var bills := M.BillsOf(b, req.vessel);
    && |bills| == 1
    && var bill := bills[0];
       && bill.vessel == req.vessel && bill.berthID == req.berthID && bill.settledAt == at
       && bill.tier == M.TierAt(r, hour) && bill.kwh == readings as real * 0.10
       && bill.energy == bill.kwh * M.EnergyPrice(r, bill.tier)
       && bill.service == bill.kwh * M.ServicePrice(r, bill.tier) && bill.total == bill.energy + bill.service
  }

  // Overrides.

  /** Under an active override the command queue is not drained, under an inactive one it is, and under one for
      the whole harbour a dispatch pass does nothing, over whatever sessions there are. */
  lemma OverrideThenDispatch(w: Core, o: Override, order: seq<string>, now: Time)
    ensures var w1 := SetOverride(w, o);
            var (g, n) := Drain(w1.grid);
            var possible := w.grid.checked && !w.grid.state.OnGrid? && w.grid.matches(w.grid.phase) && !w.grid.fault;
            && (o.active ==> n == 0 && g == w1.grid && g.queue == w.grid.queue)
            && (!o.active ==> g.queue.items == [] && n == if w.grid.queue.items != [] && possible then 1 else 0)
            && (o.active && o.vessel == "" && Ordering(w1.conn, order) ==> AutoDispatch(w1, order, now) == (w1, 0))
            && w1.conn.over == o && w1.conn.sessions == w.conn.sessions
            && w1.tbl == w.tbl && w1.cap == w.cap && w1.met == w.met
  {
    hide Drain, AutoDispatch, Ordering;
    var w1 := SetOverride(w, o);
    DrainByMode(w1.grid);
    if o.active && o.vessel == "" && Ordering(w1.conn, order) {
      HarbourOverride(w1, order, now);
    }
  }

  /** The grid is in manual mode exactly while an override is active. */
  predicate ModeFollows(w: Core) {
    w.grid.mode.Manual? <==> w.conn.over.active
  }

  /** Neither the mode nor the override is touched. */
  predicate SameMode(w: Core, w1: Core) {
    w1.grid.mode == w.grid.mode && w1.conn.over == w.conn.over
  }

  lemma EndingsKeepMode(w: Core, id: string, now: Time)
    ensures SameMode(w, Cancel(w, id, now).0) && SameMode(w, Wait(w, id, now).0)
  {
    hide MarkIdle, Release;
  }

  lemma ConfirmKeepsMode(w: Core, id: string, now: Time)
    ensures SameMode(w, Confirm(w, id, now).0)
  {
    hide MarkOccupied, MarkIdle, Release, M.Start;
  }

  lemma {:induction false} ConfirmAllKeepsMode(w: Core, order: seq<string>, now: Time)
    ensures SameMode(w, ConfirmAll(w, order, now).0)
  {
    hide Confirm;
    if order != [] {
      ConfirmAllKeepsMode(w, order[..|order| - 1], now);
      ConfirmKeepsMode(ConfirmAll(w, order[..|order| - 1], now).0, order[|order| - 1], now);
    }
  }

  lemma ApplyKeepsMode(w: Core, req: Request, now: Time)
    ensures SameMode(w, Apply(w, req, now).0)
  {
    hide Allocate, MarkAllocating, Release, Refusal, FindLive, SessionID;
  }

  lemma StoresKeepMode(w: Core, b: string, vessel: string, kva: real, onGrid: bool, now: Time)
    ensures SameMode(w, Occupy(w, b, vessel, kva, now).0) && SameMode(w, Leave(w, b, now).0)
    ensures SameMode(w, Rebuild(w, now).0) && SameMode(w, Switch(w, onGrid, b, vessel, now).0)
  {
    hide Allocate, MarkOccupied, MarkReleasing, MarkIdle, Release, RebuiltRows, ApplySequence;
    SwitchOutcome(w.grid, w.tbl, onGrid, b, vessel, Constantly(now));
  }

  lemma GridKeepsMode(w: Core, order: seq<string>, now: Time)
    ensures SameMode(w, AutoDispatch(w, order, now).0) && SameMode(w, w.(grid := Drain(w.grid).0))
  {
    hide ConfirmAll, Drain;
    ConfirmAllKeepsMode(w, order, now);
    DrainByMode(ConfirmAll(w, order, now).0.grid);
    DrainByMode(w.grid);
  }

  lemma CoreStepMode(w: Core, op: Op, now: Time)
    ensures if op.OpOverride? then ModeFollows(CoreStep(w, op, now)) else SameMode(w, CoreStep(w, op, now))
  {
    hide Apply, Confirm, Cancel, Wait, AutoDispatch, Occupy, Switch, Rebuild, Reconcile, Drain, M.TakeSample, M.Suspend;
    hide M.Resume, Push;
    match op {
      case OpApply(req) => ApplyKeepsMode(w, req, now);
      case OpConfirm(id) => ConfirmKeepsMode(w, id, now);
      case OpCancel(id) => EndingsKeepMode(w, id, now);
      case OpWait(id) => EndingsKeepMode(w, id, now);
      case OpDispatch(order) => GridKeepsMode(w, order, now);
      case OpOccupy(b, vessel, kva) => StoresKeepMode(w, b, vessel, kva, false, now);
      case OpSwitch(onGrid, b, vessel) => StoresKeepMode(w, b, vessel, 0.0, onGrid, now);
      case OpRebuild => StoresKeepMode(w, "", "", 0.0, false, now);
      case OpDrain => GridKeepsMode(w, [], now);
      case _ =>
    }
  }

  lemma StepMode(w: World, r: M.Rate, op: Op, now: Time)
    requires ModeFollows(w.core)
    ensures ModeFollows(Serve(w, r, op, now).core)
  {
    hide CoreStep, M.Settle, Leave;
    match op {
      case OpDepart(b, hour) =>
        var vessel := OccupiedBy(w.core.tbl.rows, b);
        if vessel.Some? {
          var m := M.Settle(w.core.met, w.bills, r, vessel.value, hour, now).0;
          StoresKeepMode(w.core, b, "", 0.0, false, now);
          StoresKeepMode(w.core.(met := m), b, "", 0.0, false, now);
        }
      case OpSettle(_, _) =>
      case _ => CoreStepMode(w.core, op, now);
    }
  }

  lemma {:induction false} RunsKeepMode(w: World, r: M.Rate, es: seq<Event>)
    requires ModeFollows(w.core)
    ensures ModeFollows(Runs(w, r, es).core)
    decreases |es|
  {
    hide Serve, ModeFollows;
    if es != [] {
      StepMode(w, r, es[0].op, es[0].at);
      RunsKeepMode(Serve(w, r, es[0].op, es[0].at), r, es[1..]);
    }
  }

  /** Over every run of requests from the start of the service: while an override is active, for whatever
      vessel, draining the command queue does nothing, and while none is it empties the queue. */
  lemma DrainsUnlessOverridden(
    rows: Rows, shore: real, matches: Phase -> bool, r: M.Rate, es: seq<Event>)
    ensures var w := Runs(Initial(rows, shore, matches), r, es).core;
            if w.conn.over.active then Drain(w.grid) == (w.grid, 0) else Drain(w.grid).0.queue.items == []
  {
    hide Runs, Drain;
    RunsKeepMode(Initial(rows, shore, matches), r, es);
    DrainByMode(Runs(Initial(rows, shore, matches), r, es).core.grid);
  }
}
