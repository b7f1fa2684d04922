/** The grid controller in place: breaker, command queue, phase check, closing, separating, draining
    and switching sequences. */
module GridControl {
  import opened Prelude
  import opened BerthTable
  import opened GridState
  import opened Switching
  import G = GridState
  import W = Switching
  import BerthStore

  class SimpleBreaker {
    var closed: bool
    var failClose: bool

    constructor ()
      ensures !closed && !failClose
    {
      closed, failClose := false, false;
    }

    method Close() returns (e: Option<Error>)
      modifies this`closed
      ensures e == if failClose then Some(CloseFault) else None
      ensures closed == (old(closed) || !failClose)
    {
      if failClose {
        return Some(CloseFault);
      }
      closed := true;
      return None;
    }

    method Open() returns (e: Option<Error>)
      modifies this`closed
      ensures e.None? && !closed
    {
      closed := false;
      return None;
    }

    method SetCloseFault(fault: bool)
      modifies this`failClose
      ensures failClose == fault
    {
      failClose := fault;
    }
  }

  class CommandQueue {
    var items: seq<Command>
    var seen: map<string, bool>

    ghost function View(): Queue
      reads this
    {
      Queue(items, seen.Keys)
    }

    /** Only `true` is ever stored under an id. */
    ghost predicate Valid()
      reads this
    {
      forall id :: id in seen ==> seen[id]
    }

    constructor ()
      ensures Valid() && View() == Queue([], {})
    {
      items, seen := [], map[];
    }

    method Push(cmd: Command) returns (took: bool)
      requires Valid()
      modifies this
      ensures Valid() && (View(), took) == G.Push(old(View()), cmd)
    {
      if cmd.id == "" {
        return false;
      }
      if cmd.id in seen && seen[cmd.id] {
        return false;
      }
      assert seen[cmd.id := true].Keys == seen.Keys + {cmd.id};
      seen := seen[cmd.id := true];
      items := items + [cmd];
      return true;
    }

    method Pop() returns (cmd: Option<Command>)
      requires Valid()
      modifies this
      ensures Valid() && (View(), cmd) == G.Pop(old(View()))
      ensures cmd.Some? ==> |items| < |old(items)|
    {
      if |items| == 0 {
        return None;
      }
      cmd := Some(items[0]);
      items := items[1..];
    }
  }

  class Controller {
    const breaker: SimpleBreaker
    const matches: Phase -> bool
    const berths: BerthStore.Store
    const queue: CommandQueue
    var state: GState
    var phaseChecked: bool
    var lastPhase: Phase
    var mode: Mode
    var execCount: nat

    ghost predicate Valid()
      reads this, queue, berths, berths.cache
    {
      queue.Valid() && berths.Valid()
    }

    ghost function View(): Grid
      reads this, breaker, queue
    {
      Grid(matches, state, breaker.closed, breaker.failClose, phaseChecked, lastPhase, mode, queue.View(), execCount)
    }

    constructor (matches: Phase -> bool, berths: BerthStore.Store)
      requires berths.Valid()
      ensures Valid() && this.berths == berths && fresh(breaker) && fresh(queue)
      ensures View() == NewGrid(matches)
      ensures state.Off? && !breaker.closed && !phaseChecked && mode.Auto? && queue.items == [] && execCount == 0
    {
      this.matches, this.berths := matches, berths;
      breaker := new SimpleBreaker();
      queue := new CommandQueue();
      state, phaseChecked, lastPhase, mode, execCount := Off, false, NO_PHASE, Auto, 0;
    }

    method PhaseCheck(phase: Phase) returns (e: Option<Error>)
      modifies this
      ensures (View(), e) == G.PhaseCheck(old(View()), phase)
      ensures e.None? <==> !old(state).OnGrid?
      ensures e.None? ==> phaseChecked && lastPhase == phase && state == old(state)
    {
      if state.OnGrid? {
        return Some(AlreadyOnGrid);
      }
      phaseChecked := true;
      lastPhase := phase;
      return None;
    }

    method SyncAndClose(phase: Phase) returns (e: Option<Error>)
      modifies this, breaker
      ensures (View(), e) == G.SyncAndClose(old(View()), phase)
      ensures e.None? <==> !old(state).OnGrid? && old(phaseChecked) && matches(phase) && !old(breaker.failClose)
      ensures if e.None? then state.OnGrid? && breaker.closed && execCount == old(execCount) + 1
              else View() == old(View())
    {
      if state.OnGrid? {
        return Some(AlreadyOnGrid);
      }
      if !phaseChecked {
        return Some(PhaseNotChecked);
      }
      if !matches(phase) {
        return Some(SyncTimeout);
      }
      var fault := breaker.Close();
      if fault.Some? {
        return fault;
      }
      state := OnGrid;
      execCount := execCount + 1;
      return None;
    }

    method Separate() returns (e: Option<Error>)
      modifies this, breaker
      ensures (View(), e) == G.Separate(old(View()))
      ensures e == if old(state).OnGrid? then None else Some(NotOnGrid)
      ensures e.None? ==> state.Off? && !breaker.closed && !phaseChecked && lastPhase == NO_PHASE
      ensures execCount == old(execCount) && mode == old(mode)
    {
      if !state.OnGrid? {
        return Some(NotOnGrid);
      }
      state := Separating;
      var fault := breaker.Open();
      assert fault.None?;
      state := Off;
      phaseChecked := false;
      lastPhase := NO_PHASE;
      return None;
    }

    method SetControlMode(m: Mode)
      modifies this`mode
      ensures mode == m
    {
      mode := m;
    }

    method Enqueue(cmd: Command) returns (took: bool)
      requires queue.Valid()
      modifies queue
      ensures queue.Valid() && (queue.View(), took) == G.Push(old(queue.View()), cmd)
    {
      took := queue.Push(cmd);
    }

    /** Popping and trying one command after another comes to the one-shot drain: the first command
        to close the grid is the only one that can. */
    method AutoDispatch() returns (dispatched: nat)
      requires queue.Valid()
      modifies this, breaker, queue
      ensures queue.Valid()
      ensures (View(), dispatched) == Drain(old(View()))
      ensures old(mode).Manual? ==> dispatched == 0 && View() == old(View())
      ensures old(mode).Auto? ==>
                && queue.items == [] && queue.View().seen == old(queue.View().seen)
                && dispatched == if old(queue.items != [] && phaseChecked && !state.OnGrid? && matches(lastPhase)
                                        && !breaker.failClose) then 1 else 0
    {
      DrainByMode(View());
      if mode.Manual? {
        return 0;
      }
      dispatched := 0;
      ghost var start := View();
      ghost var possible := phaseChecked && G.SyncAndClose(start, lastPhase).1.None?;
      while true
        invariant queue.Valid() && queue.seen == old(queue.seen) && |queue.items| <= |start.queue.items|
        invariant dispatched == if possible && |queue.items| < |start.queue.items| then 1 else 0
        invariant var reached := if dispatched == 1 then G.SyncAndClose(start, start.phase).0 else start;
                  View() == reached.(queue := queue.View())
        decreases |queue.items|
      {
        var cmd := queue.Pop();
        if cmd.None? {
          break;
        }
        if !phaseChecked {
          continue;
        }
        var e := SyncAndClose(lastPhase);
        if e.Some? {
          continue;
        }
        dispatched := dispatched + 1;
      }
    }

    /** Restoring in an arbitrary order puts every saved row back and nothing else. */
    method RestoreAll(applied: Rows)
      requires berths.Valid() && Keyed(applied) && applied.Keys <= berths.berths.Keys
      modifies berths`berths, berths`version, berths.cache
      ensures berths.Valid()
      ensures berths.berths == old(berths.berths) + applied && berths.version == old(berths.version) + |applied|
    {
      hide IndexOf, States;
      var todo := applied.Keys;
      ghost var rows, version := berths.berths, berths.version;
      while todo != {}
        invariant todo <= applied.Keys && berths.Valid()
        invariant berths.version + |todo| == version + |applied|
        invariant berths.berths.Keys == rows.Keys
        invariant forall id :: id in rows ==>
                    berths.berths[id] == if id in applied && id !in todo then applied[id] else rows[id]
      {
        var id :| id in todo;
        var e := berths.RestoreOne(applied[id]);
        todo := todo - {id};
      }
    }

    /** Compensation: the rows and the grid state go back, the breaker does not. */
    method Rollback(gridState: GState, applied: Rows)
      requires Valid() && Restorable(Stage(View(), berths.View(), applied))
      modifies this`state, berths`berths, berths`version, berths.cache
      ensures Valid()
      ensures (View(), berths.View()) == RolledBack(Stage(old(View()), old(berths.View()), applied), gridState)
    {
      hide States;
      RestoreAll(applied);
      state := gridState;
    }

    method ApplySequence(steps: seq<SeqStep>, clock: Clock) returns (e: Option<Error>)
      requires Valid() && Keyed(berths.berths)
      modifies this`state, breaker, berths`berths, berths`version, berths.cache
      ensures Valid()
      ensures (View(), berths.View(), e) == W.ApplySequence(old(View()), old(berths.View()), steps, clock)
    {
      hide W.Run, Restorable, Keyed, States, RolledBack;
      if state.OnGrid? {
        return Some(AlreadyOnGrid);
      }
      if |steps| == 0 {
        return Some(EmptySequence);
      }
      var previousGrid := state;
      var applied: Rows;
      e, applied := RunSteps(steps, clock);
      if e.Some? {
        Rollback(previousGrid, applied);
      }
    }

    /** The sequence loop up to its first failure, with the rows saved on the way. */
    method RunSteps(steps: seq<SeqStep>, clock: Clock) returns (e: Option<Error>, applied: Rows)
      requires Valid() && Keyed(berths.berths)
      modifies this`state, breaker, berths`berths, berths`version, berths.cache
      ensures Valid() && Restorable(Stage(View(), berths.View(), applied))
      ensures (Stage(View(), berths.View(), applied), e) ==
              W.Run(Stage(old(View()), old(berths.View()), map[]), steps, clock)
    {
      hide W.Run, W.Step, Restorable, Keyed, States;
      ghost var start := Stage(View(), berths.View(), map[]);
      NothingSaved(start);
      RunNone(start, steps, clock);
      e, applied := None, map[];
      var index := 0;
      while index < |steps|
        invariant index <= |steps| && e.None? && Valid()
        invariant Restorable(Stage(View(), berths.View(), applied))
        invariant W.Run(start, steps[..index], clock) == (Stage(View(), berths.View(), applied), None)
      {
        StepRestorable(Stage(View(), berths.View(), applied), steps[index], clock(index));
        RunNext(start, steps, index, clock);
        e, applied := ApplyStep(steps[index], applied, clock(index));
        if e.Some? {
          FailureStops(start, steps, index + 1, clock);
          return;
        }
        index := index + 1;
      }
    }

    /** One pass of the sequence loop, before any compensation. */
    method ApplyStep(step: SeqStep, applied: Rows, now: Time) returns (e: Option<Error>, saved: Rows)
      requires Valid()
      modifies this`state, breaker, berths`berths, berths`version, berths.cache
      ensures Valid()
      ensures (Stage(View(), berths.View(), saved), e) ==
              W.Step(Stage(old(View()), old(berths.View()), applied), step, now)
    {
      hide MarkOccupied, MarkIdle;
      e, saved := None, applied;
      match step.kind
      case SetGridState =>
        state := step.gridState;
      case CloseBreaker =>
        e := breaker.Close();
      case OpenBreaker =>
        e := breaker.Open();
      case SetBerthState =>
        var before := berths.Get(step.berthID);
        if before.None? {
          return Some(NotFound), saved;
        }
        saved := saved[step.berthID := before.value];
        match step.berthState {
          case Settled => e := berths.MarkOccupied(step.berthID, step.vessel, now);
          case Idle => e := berths.MarkIdle(step.berthID);
          case _ => e := Some(UnsupportedBerthState);
        }
      case OtherStep =>
        e := Some(UnsupportedStep);
    }
  }
}
