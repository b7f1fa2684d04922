/** The grid controller as a value: breaker, phase check and command queue. */
module GridState {
  import opened Prelude

  datatype Phase = Phase(voltageKV: real, freqHz: real, degree: real)

  const NO_PHASE: Phase := Phase(0.0, 0.0, 0.0)

  predicate ValidPhase(p: Phase) {
    p.voltageKV > 0.0 && p.freqHz > 0.0
  }

  datatype GState = Off | Syncing | OnGrid | Separating

  datatype Mode = Auto | Manual

  datatype Command = Command(id: string, kind: string, vessel: string, berthID: string)

  datatype Queue = Queue(items: seq<Command>, seen: set<string>)

  /** `matches` is the syncer's test of a phase against the shore supply; it does not depend on time,
      so waiting for it succeeds at once or times out. `fault` makes closing the breaker fail. */
  datatype Grid = Grid(
    matches: Phase -> bool, state: GState, closed: bool, fault: bool, checked: bool, phase: Phase,
    mode: Mode, queue: Queue, execs: nat)

  function NewGrid(matches: Phase -> bool): Grid {
    Grid(matches, Off, false, false, false, NO_PHASE, Auto, Queue([], {}), 0)
  }

  function PhaseCheck(g: Grid, p: Phase): (Grid, Option<Error>) {
    if g.state.OnGrid? then (g, Some(AlreadyOnGrid)) else (g.(checked := true, phase := p), None)
  }

  function SyncAndClose(g: Grid, p: Phase): (Grid, Option<Error>) {
    if g.state.OnGrid? then (g, Some(AlreadyOnGrid))
    else if !g.checked then (g, Some(PhaseNotChecked))
    else if !g.matches(p) then (g, Some(SyncTimeout))
    else if g.fault then (g, Some(CloseFault))
    else (g.(closed := true, state := OnGrid, execs := g.execs + 1), None)
  }

  function Separate(g: Grid): (Grid, Option<Error>) {
    if !g.state.OnGrid? then (g, Some(NotOnGrid))
    else (g.(closed := false, state := Off, checked := false, phase := NO_PHASE), None)
  }

  // Command queue.

  function Push(q: Queue, c: Command): (Queue, bool) {
    if c.id == "" || c.id in q.seen then (q, false) else (Queue(q.items + [c], q.seen + {c.id}), true)
  }

  function Pop(q: Queue): (Queue, Option<Command>) {
    if q.items == [] then (q, None) else (Queue(q.items[1..], q.seen), Some(q.items[0]))
  }

  datatype QueueOp = Pushing(c: Command) | Popping

  /** A queue together with everything it ever accepted and handed out. */
  datatype QueueRun = QueueRun(q: Queue, accepted: seq<Command>, popped: seq<Command>)

  function QueueStep(r: QueueRun, op: QueueOp): QueueRun {
    match op
    case Pushing(c) =>
      var (q, took) := Push(r.q, c);
      QueueRun(q, if took then r.accepted + [c] else r.accepted, r.popped)
    case Popping =>
      var (q, c) := Pop(r.q);
      QueueRun(q, r.accepted, if c.Some? then r.popped + [c.value] else r.popped)
  }

  function QueueRuns(r: QueueRun, ops: seq<QueueOp>): QueueRun {
    if ops == [] then r else QueueStep(QueueRuns(r, ops[..|ops| - 1]), ops[|ops| - 1])
  }

  ghost predicate DistinctIds(cs: seq<Command>) {
    && (forall i :: 0 <= i < |cs| ==> cs[i].id != "")
    && (forall i, j :: 0 <= i < j < |cs| ==> cs[i].id != cs[j].id)
  }

  /** What was handed out followed by what is still queued is what was accepted, in order; no id was
      accepted twice; and exactly the accepted ids are remembered. */
  ghost predicate Logged(r: QueueRun) {
    && r.popped + r.q.items == r.accepted && DistinctIds(r.accepted)
    && (forall i :: 0 <= i < |r.accepted| ==> r.accepted[i].id in r.q.seen)
    && (forall id :: id in r.q.seen ==> exists i :: 0 <= i < |r.accepted| && r.accepted[i].id == id)
  }

  lemma PushLogged(r: QueueRun, c: Command)
    requires Logged(r)
    ensures Logged(QueueStep(r, Pushing(c)))
  {
    var (q, took) := Push(r.q, c);
    if took {
      var accepted := r.accepted + [c];
      assert r.popped + (r.q.items + [c]) == accepted;
      forall id | id in q.seen ensures exists i :: 0 <= i < |accepted| && accepted[i].id == id {
        if id in r.q.seen {
          var i :| 0 <= i < |r.accepted| && r.accepted[i].id == id;
          assert accepted[i].id == id;
        } else {
          assert accepted[|r.accepted|].id == id;
        }
      }
    }
  }

  /** First in, first out, each command id at most once, over any run of pushes and pops. */
  lemma {:induction false} QueueHistory(ops: seq<QueueOp>)
    ensures Logged(QueueRuns(QueueRun(Queue([], {}), [], []), ops))
  {
    if ops != [] {
      var r := QueueRuns(QueueRun(Queue([], {}), [], []), ops[..|ops| - 1]);
      QueueHistory(ops[..|ops| - 1]);
      match ops[|ops| - 1]
      case Pushing(c) => PushLogged(r, c);
      case Popping =>
        if r.q.items != [] {
          assert r.popped + [r.q.items[0]] + r.q.items[1..] == r.popped + r.q.items;
        }
    }
  }

  /** After any run of pushes and pops, a command is taken exactly if it has an id that was never accepted
      before, and a pop gives the oldest accepted command that was not handed out yet. */
  lemma QueueAnswers(ops: seq<QueueOp>, c: Command)
    ensures var r := QueueRuns(QueueRun(Queue([], {}), [], []), ops);
            && |r.popped| <= |r.accepted|
            && (Push(r.q, c).1 <==> c.id != "" && forall i :: 0 <= i < |r.accepted| ==> r.accepted[i].id != c.id)
            && Pop(r.q).1 == (if |r.popped| < |r.accepted| then Some(r.accepted[|r.popped|]) else None)
  {
    hide QueueRuns;
    QueueHistory(ops);
    var r := QueueRuns(QueueRun(Queue([], {}), [], []), ops);
    assert |r.accepted| == |r.popped| + |r.q.items|;
    if r.q.items != [] {
      assert r.accepted[|r.popped|] == r.q.items[0];
    }
  }

  /** What draining the queue comes to: in automatic mode it is emptied, and the grid is closed once
      exactly when there was something to dispatch and closing is possible. */
  function Drain(g: Grid): (Grid, nat) {
    if g.mode.Manual? then (g, 0)
    else
      var emptied := g.(queue := Queue([], g.queue.seen));
      if g.queue.items != [] && g.checked && SyncAndClose(g, g.phase).1.None?
      then (SyncAndClose(emptied, g.phase).0, 1) else (emptied, 0)
  }

  /** In manual mode a drain does nothing. In automatic mode it empties the queue, remembers the ids, and
      closes the grid, once, exactly if there was a command, the phase was checked and matches, the grid was
      not on and the breaker closes. */
  lemma DrainByMode(g: Grid)
    ensures var (g1, n) := Drain(g);
            var possible := g.checked && !g.state.OnGrid? && g.matches(g.phase) && !g.fault;
            && (g.mode.Manual? ==> n == 0 && g1 == g)
            && (g.mode.Auto? ==> g1.queue.items == [] && g1.queue.seen == g.queue.seen)
            && (g.mode.Auto? ==> n == if g.queue.items != [] && possible then 1 else 0)
            && (n == 1 ==> g1.state.OnGrid? && g1.closed && g1.execs == g.execs + 1)
            && (n == 0 ==> g1.state == g.state && g1.closed == g.closed && g1.execs == g.execs)
            && g1.mode == g.mode && g1.checked == g.checked && g1.phase == g.phase && g1.fault == g.fault
  {
  }

  /** Draining again at once finds nothing to do. */
  lemma DrainAgain(g: Grid)
    ensures Drain(Drain(g).0) == (Drain(g).0, 0)
  {
  }

  /** Once the grid has been separated neither a direct close nor a drain can close it before the phase
      has been checked again. */
  lemma SeparateForgets(g: Grid, p: Phase)
    requires g.state.OnGrid?
    ensures var g1 := Separate(g).0;
            && !g1.closed && SyncAndClose(g1, p) == (g1, Some(PhaseNotChecked))
            && Drain(g1).1 == 0 && Drain(g1).0.state.Off? && !Drain(g1).0.closed
            && g1.phase == NO_PHASE && g1.mode == g.mode && g1.queue == g.queue && g1.execs == g.execs
            && (SyncAndClose(PhaseCheck(g1, p).0, p).1.None? <==> g.matches(p) && !g.fault)
  {
  }

  // Grid safety.

  ghost predicate GridSafe(g: Grid) {
    && (g.state.OnGrid? ==> g.closed && g.checked && g.matches(g.phase))
    && (g.state.Off? ==> !g.closed)
    && !g.state.Separating?
  }

  function OnGridBit(g: Grid): nat {
    if g.state.OnGrid? then 1 else 0
  }
}
