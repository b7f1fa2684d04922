/** The service's request handlers as values, on top of the connection calls. */
module Service {
  import opened Prelude
  import opened BerthTable
  import opened CapacityBook
  import opened GridState
  import opened Switching
  import opened Sessions
  import M = Metering

  datatype World = World(core: Core, bills: M.Bills)

  /** The berth a request means: the id it names, else the berth with the code it names. */
  ghost predicate Resolves(rows: Rows, berthID: string, code: string, b: string) {
    if berthID != "" || code == "" then b == berthID
    else (b in rows && rows[b].code == code) || (b == "" && forall id :: id in rows ==> rows[id].code != code)
  }

  ghost function Occupy(w: Core, b: string, vessel: string, needKVA: real, now: Time): (Core, Option<Error>) {
    if b == "" then (w, Some(BerthRequired))
    else if CheckReady(w.tbl.rows, b, needKVA).Some? then (w, CheckReady(w.tbl.rows, b, needKVA))
    else
      var (cap, a) := Allocate(w.tbl.rows, w.cap, b, vessel, needKVA, now);
      if a.Err? then (w.(cap := cap), Some(a.error))
      else
        var (t, e) := MarkOccupied(w.tbl, b, vessel, now);
        (w.(cap := cap, tbl := t), e)
  }

  /** Releasing an occupied berth: marked, freed, idle; each step may refuse. */
  function Leave(w: Core, b: string, now: Time): (Core, Option<Error>) {
    var (t1, e1) := MarkReleasing(w.tbl, b);
    if e1.Some? then (w, e1)
    else
      var (cap, e2) := Release(w.cap, b, now);
      if e2.Some? then (w.(tbl := t1), e2)
      else var (t2, e3) := MarkIdle(t1, b); (w.(tbl := t2, cap := cap), e3)
  }

  function Depart(w: World, r: M.Rate, b: string, hour: int, now: Time): (World, Option<Error>) {
    var vessel := OccupiedBy(w.core.tbl.rows, b);
    if vessel.None? then (w, Some(NotOccupied))
    else
      var metering := M.StateOf(w.core.met, vessel.value) == M.Metering;
      var (m, bills, bill) := M.Settle(w.core.met, w.bills, r, vessel.value, hour, now);
      if metering && bill.Err? then (w, Some(bill.error))
      else
        var w1 := if metering then World(w.core.(met := m), bills) else w;
        var (core, e) := Leave(w1.core, b, now);
        (w1.(core := core), e)
  }

  function Switch(w: Core, onGrid: bool, b: string, vessel: string, now: Time): (Core, Option<Error>) {
    var (g, t, e) := ApplySequence(w.grid, w.tbl, SwitchSteps(onGrid, b, vessel), Constantly(now));
    (w.(grid := g, tbl := t), e)
  }

  /** Switching changes at most the row of its berth, and no fixed data. */
  lemma SwitchKeepsBerths(w: Core, onGrid: bool, b: string, vessel: string, now: Time)
    ensures OnlyRow(w.tbl.rows, Switch(w, onGrid, b, vessel, now).0.tbl.rows, b)
  {
    hide ApplySequence, MarkOccupied, MarkIdle;
    SwitchOutcome(w.grid, w.tbl, onGrid, b, vessel, Constantly(now));
    MarkOccupiedKeeps(w.tbl, b, vessel, now);
    MarkIdleKeeps(w.tbl, b);
  }

  function RebuiltRow(row: Berth, id: string, allocs: map<string, Allocation>): Berth {
    if id in allocs then row.(state := Settled) else BerthTable.Vacated(row)
  }

  /** The rows a recovery rebuilds: settled where capacity is held, otherwise idle. */
  function RebuiltRows(rows: Rows, allocs: map<string, Allocation>): Rows {
    map id | id in rows :: RebuiltRow(rows[id], id, allocs)
  }

  function Rebuild(w: Core, now: Time): (Core, nat) {
    var t := Table(RebuiltRows(w.tbl.rows, w.cap.allocs), w.tbl.version + 1);
    var (cap, released) := Sync(t.rows, w.cap, now);
    (w.(tbl := t, cap := cap), released)
  }

  /** Recovery converges: afterwards a berth is settled exactly when capacity is held for it and
      otherwise idle without a vessel; fixed data and allocations are kept, nothing is released, and
      recovering again changes only the version. */
  lemma RebuildConverges(w: Core, now: Time, later: Time)
    ensures var (w1, released) := Rebuild(w, now);
            && SameBerths(w.tbl.rows, w1.tbl.rows)
            && (forall b :: b in w1.tbl.rows ==>
                  if b in w.cap.allocs
                  then w1.tbl.rows[b].state.Settled? && w1.tbl.rows[b].vessel == w.tbl.rows[b].vessel
                       && w1.tbl.rows[b].occupiedAt == w.tbl.rows[b].occupiedAt
                  else w1.tbl.rows[b].state.Idle? && w1.tbl.rows[b].vessel == "" && w1.tbl.rows[b].occupiedAt.None?)
            && (forall b :: b in w1.tbl.rows ==> w1.tbl.rows[b].fingerprint == w.tbl.rows[b].fingerprint)
            && w1.cap == w.cap && released == 0
            && Rebuild(w1, later) == (w1.(tbl := Table(w1.tbl.rows, w1.tbl.version + 1)), 0)
  {
    var w1 := Rebuild(w, now).0;
    var rows := RebuiltRows(w.tbl.rows, w.cap.allocs);
    assert Stale(rows, w.cap.allocs) == {};
    ReleaseSetEmpty(w.cap, now);
    assert RebuiltRows(rows, w.cap.allocs) == rows;
    ReleaseSetEmpty(w.cap, later);
  }

  datatype Op =
    | OpApply(req: Request)
    | OpConfirm(id: string)
    | OpCancel(id: string)
    | OpWait(id: string)
    | OpDispatch(order: seq<string>)
    | OpOverride(o: Override)
    | OpOccupy(berthID: string, vessel: string, needKVA: real)
    | OpDepart(berthID: string, hour: int)
    | OpSwitch(onGrid: bool, berthID: string, vessel: string)
    | OpRebuild
    | OpReconcile
    | OpSeparate
    | OpDrain
    | OpEnqueue(cmd: Command)
    | OpFault(fault: bool)
    | OpSample(vessel: string)
    | OpSuspend(vessel: string)
    | OpResume(vessel: string)
    | OpSettle(vessel: string, hour: int)

  /** One request served without interference. */
  ghost function CoreStep(w: Core, op: Op, now: Time): Core {
    match op
    case OpApply(req) => Apply(w, req, now).0
    case OpConfirm(id) => Confirm(w, id, now).0
    case OpCancel(id) => Cancel(w, id, now).0
    case OpWait(id) => Wait(w, id, now).0
    case OpDispatch(order) => AutoDispatch(w, order, now).0
    case OpOverride(o) => SetOverride(w, o)
    case OpOccupy(b, vessel, kva) => Occupy(w, b, vessel, kva, now).0
    case OpSwitch(onGrid, b, vessel) => Switch(w, onGrid, b, vessel, now).0
    case OpRebuild => Rebuild(w, now).0
    case OpReconcile => w.(cap := Reconcile(w.tbl.rows, w.cap, now).0)
    case OpSeparate => w.(grid := Separate(w.grid).0)
    case OpDrain => w.(grid := Drain(w.grid).0)
    case OpEnqueue(cmd) => w.(grid := w.grid.(queue := Push(w.grid.queue, cmd).0))
    case OpFault(fault) => w.(grid := w.grid.(fault := fault))
    case OpSample(v) => w.(met := M.TakeSample(w.met, v, now).0)
    case OpSuspend(v) => w.(met := M.Suspend(w.met, v).0)
    case OpResume(v) => w.(met := M.Resume(w.met, v).0)
    case _ => w
  }

  ghost function Serve(w: World, r: M.Rate, op: Op, now: Time): World {
    match op
    case OpDepart(b, hour) => Depart(w, r, b, hour, now).0
    case OpSettle(v, hour) =>
      var (m, bills, _) := M.Settle(w.core.met, w.bills, r, v, hour, now);
      World(w.core.(met := m), bills)
    case _ => w.(core := CoreStep(w.core, op, now))
  }

  datatype Event = Event(op: Op, at: Time)

  ghost function Runs(w: World, r: M.Rate, es: seq<Event>): World
    decreases |es|
  {
    if es == [] then w else Runs(Serve(w, r, es[0].op, es[0].at), r, es[1..])
  }

  lemma RunsThen(w: World, r: M.Rate, e: Event, rest: seq<Event>)
    ensures Runs(w, r, [e] + rest) == Runs(Serve(w, r, e.op, e.at), r, rest)
  {
    hide Serve;
    assert ([e] + rest)[1..] == rest;
  }

  lemma RunsLast(w: World, r: M.Rate, e: Event)
    ensures Runs(w, r, [e]) == Serve(w, r, e.op, e.at)
  {
    hide Serve;
    assert [e][1..] == [];
  }

  /** A dispatch visits exactly the eligible sessions. */
  ghost predicate Possible(w: World, op: Op) {
    op.OpDispatch? ==> Ordering(w.core.conn, op.order)
  }
}
