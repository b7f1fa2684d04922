/** Switching sequences as values: a transaction over the grid state, the breaker and the berths that
    is compensated when a step fails. */
module Switching {
  import opened Prelude
  import opened BerthTable
  import opened GridState

  datatype StepKind = SetGridState | SetBerthState | CloseBreaker | OpenBreaker | OtherStep

  datatype SeqStep = SeqStep(kind: StepKind, gridState: GState, berthID: string, berthState: BState, vessel: string)

  /** A sequence under way: the grid, the table, and the rows saved for compensation. */
  datatype Stage = Stage(grid: Grid, tbl: Table, saved: Rows)

  function SetBerth(s: Stage, step: SeqStep, now: Time): (Stage, Option<Error>) {
    if step.berthID !in s.tbl.rows then (s, Some(NotFound))
    else
      var saved := s.saved[step.berthID := s.tbl.rows[step.berthID]];
      match step.berthState
      case Settled => var (t, e) := MarkOccupied(s.tbl, step.berthID, step.vessel, now);
        (s.(tbl := t, saved := saved), e)
      case Idle => var (t, e) := MarkIdle(s.tbl, step.berthID); (s.(tbl := t, saved := saved), e)
      case _ => (s.(saved := saved), Some(UnsupportedBerthState))
  }

  function Step(s: Stage, step: SeqStep, now: Time): (Stage, Option<Error>) {
    match step.kind
    case SetGridState => (s.(grid := s.grid.(state := step.gridState)), None)
    case CloseBreaker => if s.grid.fault then (s, Some(CloseFault)) else (s.(grid := s.grid.(closed := true)), None)
    case OpenBreaker => (s.(grid := s.grid.(closed := false)), None)
    case SetBerthState => SetBerth(s, step, now)
    case OtherStep => (s, Some(UnsupportedStep))
  }

  /** The clock as each step of a sequence reads it. */
  type Clock = nat -> Time

  function Constantly(now: Time): Clock {
    (_: nat) => now
  }

  /** The steps up to and including the first that fails. */
  function Run(s: Stage, steps: seq<SeqStep>, clock: Clock): (Stage, Option<Error>) {
    if steps == [] then (s, None)
    else
      var (mid, e) := Run(s, steps[..|steps| - 1], clock);
      if e.Some? then (mid, e) else Step(mid, steps[|steps| - 1], clock(|steps| - 1))
  }

  lemma RunNext(s: Stage, steps: seq<SeqStep>, n: nat, clock: Clock)
    requires n < |steps| && Run(s, steps[..n], clock).1.None?
    ensures Run(s, steps[..n + 1], clock) == Step(Run(s, steps[..n], clock).0, steps[n], clock(n))
  {
    hide Step;
    assert steps[..n + 1][..n] == steps[..n];
  }

  lemma RunNone(s: Stage, steps: seq<SeqStep>, clock: Clock)
    ensures Run(s, steps[..0], clock) == (s, None) && Run(s, steps[..|steps|], clock) == Run(s, steps, clock)
  {
    assert steps[..|steps|] == steps;
  }

  /** Compensation: every saved row goes back and so does the grid state; the breaker stays. */
  function RolledBack(s: Stage, state: GState): (Grid, Table) {
    (s.grid.(state := state), Table(s.tbl.rows + s.saved, s.tbl.version + |s.saved|))
  }

  function ApplySequence(g: Grid, t: Table, steps: seq<SeqStep>, clock: Clock): (Grid, Table, Option<Error>) {
    if g.state.OnGrid? then (g, t, Some(AlreadyOnGrid))
    else if steps == [] then (g, t, Some(EmptySequence))
    else
      var (s, e) := Run(Stage(g, t, map[]), steps, clock);
      if e.None? then (s.grid, s.tbl, None)
      else var (g1, t1) := RolledBack(s, g.state); (g1, t1, e)
  }

  predicate Names(step: SeqStep, id: string) {
    step.kind.SetBerthState? && step.berthID == id
  }

  ghost predicate NoRepeat(steps: seq<SeqStep>) {
    forall i, j :: 0 <= i < j < |steps| && steps[i].kind.SetBerthState? && steps[j].kind.SetBerthState? ==>
      steps[i].berthID != steps[j].berthID
  }

  /** The last position that sets a berth, or -1. */
  function LastNamed(steps: seq<SeqStep>, id: string): (k: int)
    ensures -1 <= k < |steps|
    ensures k >= 0 ==> Names(steps[k], id)
    ensures forall i :: k < i < |steps| ==> !Names(steps[i], id)
  {
    if steps == [] then -1
    else if Names(steps[|steps| - 1], id) then |steps| - 1
    else LastNamed(steps[..|steps| - 1], id)
  }

  /** Once a step fails the rest are not looked at. */
  lemma {:induction false} FailureStops(s: Stage, steps: seq<SeqStep>, n: nat, clock: Clock)
    requires n <= |steps| && Run(s, steps[..n], clock).1.Some?
    ensures Run(s, steps, clock) == Run(s, steps[..n], clock)
    decreases |steps|
  {
    if n < |steps| {
      assert steps[..|steps| - 1][..n] == steps[..n];
      FailureStops(s, steps[..|steps| - 1], n, clock);
    } else {
      assert steps[..n] == steps;
    }
  }

  /** How many steps were attempted. */
  function Attempted(s: Stage, steps: seq<SeqStep>, clock: Clock): (n: nat)
    ensures n <= |steps|
    ensures Run(s, steps[..n], clock) == Run(s, steps, clock)
    ensures Run(s, steps, clock).1.Some? ==> n > 0 && Run(s, steps[..n - 1], clock).1.None?
    ensures Run(s, steps, clock).1.None? ==> n == |steps|
  {
    assert steps[..|steps|] == steps;
    if steps == [] then 0
    else if Run(s, steps[..|steps| - 1], clock).1.Some? then
      var n := Attempted(s, steps[..|steps| - 1], clock);
      assert steps[..|steps| - 1][..n] == steps[..n];
      assert n > 0 ==> steps[..|steps| - 1][..n - 1] == steps[..n - 1];
      n
    else |steps|
  }

  lemma StepKeeps(s: Stage, step: SeqStep, now: Time)
    ensures var (s1, e) := Step(s, step, now);
            && OnlyRow(s.tbl.rows, s1.tbl.rows, step.berthID)
            && (!step.kind.SetBerthState? ==> s1.tbl == s.tbl)
            && s1.saved == (if step.kind.SetBerthState? && step.berthID in s.tbl.rows
                            then s.saved[step.berthID := s.tbl.rows[step.berthID]] else s.saved)
            && s1.grid == s.grid.(state := s1.grid.state, closed := s1.grid.closed)
            && (e.Some? ==> s1.grid == s.grid && s1.tbl == s.tbl)
  {
    hide MarkOccupied, MarkIdle, OnlyRow;
    MarkOccupiedKeeps(s.tbl, step.berthID, step.vessel, now);
    MarkIdleKeeps(s.tbl, step.berthID);
    OnlyRowSelf(s.tbl.rows, step.berthID);
  }

  /** Saved rows are rows of the table, under their own ids. */
  ghost predicate Restorable(s: Stage) {
    Keyed(s.tbl.rows) && Keyed(s.saved) && s.saved.Keys <= s.tbl.rows.Keys
  }

  lemma NothingSaved(s: Stage)
    requires Keyed(s.tbl.rows) && s.saved == map[]
    ensures Restorable(s)
  {
  }

  lemma StepRestorable(s: Stage, step: SeqStep, now: Time)
    requires Restorable(s)
    ensures Restorable(Step(s, step, now).0)
  {
    hide Step;
    StepKeeps(s, step, now);
  }

  /** Steps never add, drop, rename or recode a berth, and only touch rows they name. */
  lemma {:induction false} RunKeeps(s: Stage, steps: seq<SeqStep>, clock: Clock)
    requires s.saved.Keys <= s.tbl.rows.Keys
    ensures var s1 := Run(s, steps, clock).0;
            && SameBerths(s.tbl.rows, s1.tbl.rows) && s1.saved.Keys <= s.tbl.rows.Keys
            && (forall id :: id in s.tbl.rows && LastNamed(steps, id) < 0 ==> s1.tbl.rows[id] == s.tbl.rows[id])
            && s1.grid == s.grid.(state := s1.grid.state, closed := s1.grid.closed)
  {
    hide Step;
    if steps != [] {
      RunKeeps(s, steps[..|steps| - 1], clock);
      StepKeeps(Run(s, steps[..|steps| - 1], clock).0, steps[|steps| - 1], clock(|steps| - 1));
    }
  }

  /** A saved row is the row as it was just before the last attempted step on its berth. */
  lemma {:induction false} SavedRows(s: Stage, steps: seq<SeqStep>, clock: Clock, id: string)
    requires s.saved == map[]
    requires steps != [] ==> Run(s, steps[..|steps| - 1], clock).1.None?
    ensures var k := LastNamed(steps, id);
            var saved := Run(s, steps, clock).0.saved;
            && (id in saved <==> k >= 0 && id in s.tbl.rows)
            && (id in saved ==>
                  var before := Run(s, steps[..k], clock).0.tbl.rows;
                  id in before && saved[id] == before[id])
  {
    hide Step;
    if steps != [] {
      var init, last := steps[..|steps| - 1], steps[|steps| - 1];
      var mid := Run(s, init, clock).0;
      var k := LastNamed(steps, id);
      SavedRows(s, init, clock, id);
      RunKeeps(s, init, clock);
      SameKeys(s.tbl.rows, mid.tbl.rows);
      StepKeeps(mid, last, clock(|steps| - 1));
      assert !Names(last, id) && k >= 0 ==> init[..k] == steps[..k];
    }
  }

  lemma SameKeys(a: Rows, b: Rows)
    requires SameBerths(a, b)
    ensures a.Keys == b.Keys
  {
  }

  /** The row a failed sequence leaves for a berth, given how many steps were attempted. */
  ghost function RowLeft(s: Stage, tried: seq<SeqStep>, clock: Clock, id: string): Berth
    requires s.saved == map[] && id in s.tbl.rows
  {
    var k := LastNamed(tried, id);
    if k < 0 then s.tbl.rows[id]
    else
      assert id in Run(s, tried[..k], clock).0.tbl.rows by {
        RunKeeps(s, tried[..k], clock);
      }
      Run(s, tried[..k], clock).0.tbl.rows[id]
  }

  lemma RowsLeft(s: Stage, tried: seq<SeqStep>, clock: Clock, id: string)
    requires s.saved == map[] && id in s.tbl.rows
    requires tried != [] && Run(s, tried[..|tried| - 1], clock).1.None?
    ensures var s1 := Run(s, tried, clock).0;
            (id in s1.saved || id in s1.tbl.rows) && (s1.tbl.rows + s1.saved)[id] == RowLeft(s, tried, clock, id)
  {
    hide Run, SameBerths;
    var s1 := Run(s, tried, clock).0;
    SavedRows(s, tried, clock, id);
    RunKeeps(s, tried, clock);
    SameKeys(s.tbl.rows, s1.tbl.rows);
  }

  lemma FailedRows(s: Stage, steps: seq<SeqStep>, n: nat, clock: Clock)
    requires s.saved == map[] && 0 < n <= |steps| && Run(s, steps[..n - 1], clock).1.None?
    ensures var s1 := Run(s, steps[..n], clock).0;
            && (s1.tbl.rows + s1.saved).Keys == s.tbl.rows.Keys
            && forall id :: id in s.tbl.rows ==> (s1.tbl.rows + s1.saved)[id] == RowLeft(s, steps[..n], clock, id)
  {
    hide Run, SameBerths, RowLeft;
    var tried := steps[..n];
    assert tried[..n - 1] == steps[..n - 1];
    RunKeeps(s, tried, clock);
    SameKeys(s.tbl.rows, Run(s, tried, clock).0.tbl.rows);
    forall id | id in s.tbl.rows
      ensures var s1 := Run(s, tried, clock).0; (s1.tbl.rows + s1.saved)[id] == RowLeft(s, tried, clock, id)
    {
      RowsLeft(s, tried, clock, id);
    }
  }

  /** What a failed sequence leaves: the old grid state, the breaker as the completed steps left it,
      untouched rows as they were, and every touched row as it was just before the last attempted
      step on it. */
  lemma FailedSequence(g: Grid, t: Table, steps: seq<SeqStep>, clock: Clock)
    requires ApplySequence(g, t, steps, clock).2.Some? && !g.state.OnGrid? && steps != []
    ensures var s := Stage(g, t, map[]);
            var n := Attempted(s, steps, clock);
            var (g1, t1, e) := ApplySequence(g, t, steps, clock);
            && n > 0 && Run(s, steps[..n - 1], clock).1.None?
            && g1 == g.(closed := Run(s, steps[..n - 1], clock).0.grid.closed)
            && t1.rows.Keys == t.rows.Keys
            && forall id :: id in t.rows ==> t1.rows[id] == RowLeft(s, steps[..n], clock, id)
  {
    hide Run, Step, SameBerths, RowLeft;
    var s := Stage(g, t, map[]);
    var n := Attempted(s, steps, clock);
    RunNext(s, steps, n - 1, clock);
    RunKeeps(s, steps[..n - 1], clock);
    StepKeeps(Run(s, steps[..n - 1], clock).0, steps[n - 1], clock(n - 1));
    FailedRows(s, steps, n, clock);
  }

  /** A failed sequence that sets no berth twice leaves the whole table as it found it. */
  lemma FailedSequenceRestores(g: Grid, t: Table, steps: seq<SeqStep>, clock: Clock)
    requires ApplySequence(g, t, steps, clock).2.Some? && NoRepeat(steps)
    ensures ApplySequence(g, t, steps, clock).1.rows == t.rows
    ensures ApplySequence(g, t, steps, clock).0.state == g.state
  {
    hide Step;
    if !g.state.OnGrid? && steps != [] {
      var s := Stage(g, t, map[]);
      var n := Attempted(s, steps, clock);
      FailedSequence(g, t, steps, clock);
      forall id | id in t.rows ensures RowLeft(s, steps[..n], clock, id) == t.rows[id] {
        var k := LastNamed(steps[..n], id);
        if k >= 0 {
          assert steps[..n][..k] == steps[..k];
          assert LastNamed(steps[..k], id) < 0;
          RunKeeps(s, steps[..k], clock);
        }
      }
    }
  }

  // An independent reading of a successful sequence: for each thing it sets, the last setting wins.

  function LastGridState(steps: seq<SeqStep>, initial: GState): GState {
    if steps == [] then initial
    else if steps[|steps| - 1].kind.SetGridState? then steps[|steps| - 1].gridState
    else LastGridState(steps[..|steps| - 1], initial)
  }

  function LastBreaker(steps: seq<SeqStep>, initial: bool): bool {
    if steps == [] then initial
    else if steps[|steps| - 1].kind.CloseBreaker? then true
    else if steps[|steps| - 1].kind.OpenBreaker? then false
    else LastBreaker(steps[..|steps| - 1], initial)
  }

  lemma StepSucceeds(s: Stage, step: SeqStep, now: Time)
    requires Step(s, step, now).1.None?
    ensures var s1 := Step(s, step, now).0;
            && s1.grid ==
               s.grid.(state := LastGridState([step], s.grid.state), closed := LastBreaker([step], s.grid.closed))
            && (step.kind.SetBerthState? ==> SetAs(s1.tbl.rows, step))
  {
    hide Stamp;
  }

  /** The row a berth step asks for. A berth that is idle already is left alone. */
  ghost predicate SetAs(rows: Rows, step: SeqStep) {
    && step.berthID in rows && rows[step.berthID].state == step.berthState
    && (step.berthState.Settled? || step.berthState.Idle?)
    && (step.berthState.Settled? ==> rows[step.berthID].vessel == step.vessel && step.vessel != "")
  }

  /** A sequence that succeeds has done every step: the last grid state and breaker position it names
      hold, and each berth it names is as its last step says, settled for the named vessel or idle. */
  lemma {:induction false} SucceededRun(g: Grid, t: Table, steps: seq<SeqStep>, clock: Clock)
    requires Run(Stage(g, t, map[]), steps, clock).1.None?
    ensures var s := Run(Stage(g, t, map[]), steps, clock).0;
            && s.grid == g.(state := LastGridState(steps, g.state), closed := LastBreaker(steps, g.closed))
            && s.tbl.rows.Keys == t.rows.Keys
            && (forall id :: LastNamed(steps, id) >= 0 ==> SetAs(s.tbl.rows, steps[LastNamed(steps, id)]))
            && (forall id :: id in t.rows && LastNamed(steps, id) < 0 ==> s.tbl.rows[id] == t.rows[id])
  {
    hide Step, SetAs, SameBerths;
    var s := Stage(g, t, map[]);
    RunKeeps(s, steps, clock);
    SameKeys(t.rows, Run(s, steps, clock).0.tbl.rows);
    if steps != [] {
      var init, last := steps[..|steps| - 1], steps[|steps| - 1];
      var mid, end := Run(s, init, clock).0, Run(s, steps, clock).0;
      SucceededRun(g, t, init, clock);
      StepKeeps(mid, last, clock(|steps| - 1));
      StepSucceeds(mid, last, clock(|steps| - 1));
      forall id | LastNamed(steps, id) >= 0 ensures SetAs(end.tbl.rows, steps[LastNamed(steps, id)]) {
        if !Names(last, id) {
          SetAsKept(mid.tbl.rows, end.tbl.rows, init[LastNamed(init, id)], last.berthID);
        }
      }
    }
  }

  lemma SetAsKept(a: Rows, b: Rows, step: SeqStep, other: string)
    requires SetAs(a, step) && (b == a || (OnlyRow(a, b, other) && step.berthID != other))
    ensures SetAs(b, step)
  {
  }

  lemma RunThree(s: Stage, a: SeqStep, b: SeqStep, c: SeqStep, clock: Clock)
    ensures var (s1, e1) := Step(s, a, clock(0));
            var (s2, e2) := Step(s1, b, clock(1));
            Run(s, [a, b, c], clock) ==
              if e1.Some? then (s1, e1) else if e2.Some? then (s2, e2) else Step(s2, c, clock(2))
  {
    hide Step;
    assert [a][..0] == [] && [a, b][..1] == [a] && [a, b, c][..2] == [a, b];
    assert Run(s, [a], clock) == Step(s, a, clock(0));
    assert Run(s, [a, b], clock).1
      == if Step(s, a, clock(0)).1.Some? then Step(s, a, clock(0)).1 else Step(Step(s, a, clock(0)).0, b, clock(1)).1;
  }

  // Which steps are refused, read off the sequence.

  /** Whether a berth can be settled after some steps: the last of them on it did not settle it, or if
      there is none it was idle or being allocated. */
  predicate CanSettle(rows: Rows, before: seq<SeqStep>, id: string)
    requires id in rows
  {
    var k := LastNamed(before, id);
    if k >= 0 then !before[k].berthState.Settled? else rows[id].state.Idle? || rows[id].state.Allocating?
  }

  predicate Refused(fault: bool, rows: Rows, before: seq<SeqStep>, step: SeqStep) {
    match step.kind
    case SetGridState => false
    case OpenBreaker => false
    case CloseBreaker => fault
    case OtherStep => true
    case SetBerthState =>
      step.berthID !in rows ||
      match step.berthState
      case Idle => false
      case Settled => step.vessel == "" || !CanSettle(rows, before, step.berthID)
      case _ => true
  }

  /** The position of the first step that will be refused, or the length. */
  function FirstRefused(fault: bool, rows: Rows, steps: seq<SeqStep>): (n: nat)
    ensures n <= |steps|
    ensures n < |steps| ==> Refused(fault, rows, steps[..n], steps[n])
    ensures forall i :: 0 <= i < n ==> !Refused(fault, rows, steps[..i], steps[i])
  {
    if steps == [] then 0
    else
      var init := steps[..|steps| - 1];
      var n := FirstRefused(fault, rows, init);
      assert forall i :: 0 <= i < |steps| ==> init[..if i < |init| then i else |init|] == steps[..i];
      if n < |init| then n else if Refused(fault, rows, init, steps[|init|]) then |init| else |steps|
  }

  lemma RefusedStep(g: Grid, t: Table, before: seq<SeqStep>, step: SeqStep, clock: Clock, now: Time)
    requires Run(Stage(g, t, map[]), before, clock).1.None?
    ensures Step(Run(Stage(g, t, map[]), before, clock).0, step, now).1.Some?
      <==> Refused(g.fault, t.rows, before, step)
  {
    hide Run, Stamp;
    SucceededRun(g, t, before, clock);
    var s := Run(Stage(g, t, map[]), before, clock).0;
    if step.kind.SetBerthState? && LastNamed(before, step.berthID) >= 0 {
      assert SetAs(s.tbl.rows, before[LastNamed(before, step.berthID)]);
    }
  }

  /** A sequence runs to its end exactly when no step is refused. */
  lemma {:induction false} RunsThrough(g: Grid, t: Table, steps: seq<SeqStep>, clock: Clock)
    ensures Run(Stage(g, t, map[]), steps, clock).1.None? <==> FirstRefused(g.fault, t.rows, steps) == |steps|
  {
    hide Step, Refused;
    if steps != [] {
      var init := steps[..|steps| - 1];
      RunsThrough(g, t, init, clock);
      if Run(Stage(g, t, map[]), init, clock).1.None? {
        RefusedStep(g, t, init, steps[|init|], clock, clock(|init|));
      }
    }
  }

  lemma {:induction false} FirstRefusedPrefix(fault: bool, rows: Rows, steps: seq<SeqStep>, k: nat)
    requires k <= |steps|
    ensures FirstRefused(fault, rows, steps[..k]) ==
            if FirstRefused(fault, rows, steps) < k then FirstRefused(fault, rows, steps) else k
  {
    hide Refused;
    if k < |steps| {
      var init := steps[..|steps| - 1];
      assert init[..k] == steps[..k];
      FirstRefusedPrefix(fault, rows, init, k);
    } else {
      assert steps[..k] == steps;
    }
  }

  /** Exactly when a sequence succeeds. */
  lemma SequenceSucceeds(g: Grid, t: Table, steps: seq<SeqStep>, clock: Clock)
    ensures ApplySequence(g, t, steps, clock).2.None? <==>
            !g.state.OnGrid? && steps != [] && FirstRefused(g.fault, t.rows, steps) == |steps|
  {
    hide Run, FirstRefused;
    RunsThrough(g, t, steps, clock);
  }

  /** The first refused step is the last one attempted. */
  lemma SequenceFails(g: Grid, t: Table, steps: seq<SeqStep>, clock: Clock)
    requires !g.state.OnGrid? && FirstRefused(g.fault, t.rows, steps) < |steps|
    ensures ApplySequence(g, t, steps, clock).2.Some?
    ensures Attempted(Stage(g, t, map[]), steps, clock) == FirstRefused(g.fault, t.rows, steps) + 1
    ensures Run(Stage(g, t, map[]), steps[..FirstRefused(g.fault, t.rows, steps)], clock).1.None?
  {
    hide Run, Refused, FirstRefused, ApplySequence, Attempted;
    var s := Stage(g, t, map[]);
    var n := Attempted(s, steps, clock);
    SequenceSucceeds(g, t, steps, clock);
    RunsThrough(g, t, steps, clock);
    RunsThrough(g, t, steps[..n - 1], clock);
    RunsThrough(g, t, steps[..n], clock);
    FirstRefusedPrefix(g.fault, t.rows, steps, n - 1);
    FirstRefusedPrefix(g.fault, t.rows, steps, n);
  }

  lemma StepError(g: Grid, t: Table, before: seq<SeqStep>, step: SeqStep, clock: Clock, now: Time)
    requires Run(Stage(g, t, map[]), before, clock).1.None? && Refused(g.fault, t.rows, before, step)
    ensures var e := Step(Run(Stage(g, t, map[]), before, clock).0, step, now).1;
            var setting := step.kind.SetBerthState? && step.berthID in t.rows;
            && (e == Some(CloseFault) <==> step.kind.CloseBreaker?)
            && (e == Some(UnsupportedStep) <==> step.kind.OtherStep?)
            && (e == Some(NotFound) <==> step.kind.SetBerthState? && !setting)
            && (e == Some(UnsupportedBerthState) <==> setting && !step.berthState.Settled?)
            && (e == Some(Busy) <==> setting && step.berthState.Settled? && !CanSettle(t.rows, before, step.berthID))
            && (e == Some(VesselRequired) <==>
                  setting && step.berthState.Settled? && CanSettle(t.rows, before, step.berthID))
  {
    hide Run, Stamp;
    SucceededRun(g, t, before, clock);
    var s := Run(Stage(g, t, map[]), before, clock).0;
    if step.kind.SetBerthState? && LastNamed(before, step.berthID) >= 0 {
      assert SetAs(s.tbl.rows, before[LastNamed(before, step.berthID)]);
    }
  }

  /** Why a sequence fails: it is refused outright if the grid is on or there is nothing to do, and otherwise
      for what its first refused step asks. */
  lemma SequenceError(g: Grid, t: Table, steps: seq<SeqStep>, clock: Clock)
    ensures var e := ApplySequence(g, t, steps, clock).2;
            && (e == Some(AlreadyOnGrid) <==> g.state.OnGrid?)
            && (e == Some(EmptySequence) <==> !g.state.OnGrid? && steps == [])
            && (!g.state.OnGrid? && FirstRefused(g.fault, t.rows, steps) < |steps| ==>
                  var n := FirstRefused(g.fault, t.rows, steps);
                  var setting := steps[n].kind.SetBerthState? && steps[n].berthID in t.rows;
                  && (e == Some(CloseFault) <==> steps[n].kind.CloseBreaker?)
                  && (e == Some(UnsupportedStep) <==> steps[n].kind.OtherStep?)
                  && (e == Some(NotFound) <==> steps[n].kind.SetBerthState? && !setting)
                  && (e == Some(UnsupportedBerthState) <==> setting && !steps[n].berthState.Settled?)
                  && (e == Some(Busy) <==>
                        setting && steps[n].berthState.Settled? && !CanSettle(t.rows, steps[..n], steps[n].berthID))
                  && (e == Some(VesselRequired) <==>
                        setting && steps[n].berthState.Settled? && CanSettle(t.rows, steps[..n], steps[n].berthID)))
  {
    var n := FirstRefused(g.fault, t.rows, steps);
    if !g.state.OnGrid? && n < |steps| {
      hide Run, Refused, FirstRefused, Step, CanSettle;
      var s := Stage(g, t, map[]);
      SequenceFails(g, t, steps, clock);
      StepError(g, t, steps[..n], steps[n], clock, clock(n));
      RunNext(s, steps, n, clock);
    } else if !g.state.OnGrid? {
      SequenceSucceeds(g, t, steps, clock);
    }
  }

  // When compensation is complete.

  predicate IdleStep(rows: Rows, step: SeqStep) {
    step.berthState.Idle? && step.berthID in rows && rows[step.berthID].state.Idle?
  }

  /** All the steps on a berth so far were idle requests for a berth that was idle anyway. */
  ghost predicate Quiet(rows: Rows, steps: seq<SeqStep>, id: string) {
    forall i :: 0 <= i < |steps| && Names(steps[i], id) ==> IdleStep(rows, steps[i])
  }

  /** No berth is set again after a step that changed it. */
  ghost predicate Undoable(rows: Rows, steps: seq<SeqStep>) {
    forall i, j ::
      && 0 <= i < j < |steps| && steps[i].kind.SetBerthState? && steps[i].berthID in rows
      && Names(steps[j], steps[i].berthID)
      ==> IdleStep(rows, steps[i])
  }

  /** The clock has moved on since any berth was last occupied. */
  ghost predicate Later(rows: Rows, clock: Clock) {
    forall id, i: nat :: id in rows ==> rows[id].fingerprint != Stamp(id, clock(i))
  }

  ghost predicate Stamped(b: Berth, id: string, clock: Clock) {
    exists i: nat :: b.fingerprint == Stamp(id, clock(i))
  }

  /** A row that was changed does not come back: its stamp is new, or it has become idle. */
  ghost predicate Marked(before: Berth, after: Berth, id: string, clock: Clock) {
    Stamped(after, id, clock) || (after.state.Idle? && !before.state.Idle?)
  }

  lemma StepMarks(s: Stage, step: SeqStep, clock: Clock, k: nat, id: string, first: Berth)
    requires id in s.tbl.rows && Step(s, step, clock(k)).1.None?
    requires s.tbl.rows[id] == first || Marked(first, s.tbl.rows[id], id, clock)
    ensures id in Step(s, step, clock(k)).0.tbl.rows
    ensures var before, after := s.tbl.rows[id], Step(s, step, clock(k)).0.tbl.rows[id];
            && (!Names(step, id) || (before.state.Idle? && step.berthState.Idle?) ==> after == before)
            && (Names(step, id) && !(before.state.Idle? && step.berthState.Idle?) ==> Marked(first, after, id, clock))
  {
    hide Stamp;
    if Names(step, id) && step.berthState.Settled? {
      assert Step(s, step, clock(k)).0.tbl.rows[id].fingerprint == Stamp(id, clock(k));
    }
  }

  /** After steps that all succeeded a row is as at first exactly when the steps on it were quiet. */
  lemma {:induction false} QuietRows(s: Stage, steps: seq<SeqStep>, clock: Clock, id: string)
    requires s.saved == map[] && id in s.tbl.rows && !Stamped(s.tbl.rows[id], id, clock)
    requires Run(s, steps, clock).1.None?
    ensures id in Run(s, steps, clock).0.tbl.rows
    ensures var first, row := s.tbl.rows[id], Run(s, steps, clock).0.tbl.rows[id];
            if Quiet(s.tbl.rows, steps, id) then row == first else row != first && Marked(first, row, id, clock)
  {
    hide Step, Stamped;
    if steps != [] {
      var init, last := steps[..|steps| - 1], steps[|steps| - 1];
      QuietRows(s, init, clock, id);
      StepMarks(Run(s, init, clock).0, last, clock, |steps| - 1, id, s.tbl.rows[id]);
      QuietSnoc(s.tbl.rows, init, last, id);
      assert steps == init + [last];
    }
  }

  lemma QuietSnoc(rows: Rows, init: seq<SeqStep>, last: SeqStep, id: string)
    ensures Quiet(rows, init + [last], id) <==> Quiet(rows, init, id) && (Names(last, id) ==> IdleStep(rows, last))
  {
    var steps := init + [last];
    assert forall i :: 0 <= i < |init| ==> steps[i] == init[i];
    assert steps[|init|] == last;
  }

  /** A failed sequence restores the whole table exactly when no berth was set again after a step that
      had changed it; otherwise the compensation brings back a later row. */
  lemma FailedSequenceRestoresWhen(g: Grid, t: Table, steps: seq<SeqStep>, clock: Clock)
    requires !g.state.OnGrid? && Later(t.rows, clock) && FirstRefused(g.fault, t.rows, steps) < |steps|
    ensures var n := FirstRefused(g.fault, t.rows, steps);
            ApplySequence(g, t, steps, clock).1.rows == t.rows <==> Undoable(t.rows, steps[..n + 1])
  {
    hide Run, Step, Stamp, ApplySequence, SameBerths, Refused;
    var s := Stage(g, t, map[]);
    SequenceFails(g, t, steps, clock);
    var n := Attempted(s, steps, clock);
    var tried := steps[..n];
    FailedSequence(g, t, steps, clock);
    forall id | id in t.rows ensures RowLeft(s, tried, clock, id) == t.rows[id] <==> QuietBefore(t.rows, tried, id) {
      LeftQuiet(s, steps, n, clock, id);
    }
    UndoableMeans(t.rows, tried);
    var rows := ApplySequence(g, t, steps, clock).1.rows;
    if Undoable(t.rows, tried) {
      assert rows == t.rows;
    }
  }

  ghost predicate QuietBefore(rows: Rows, tried: seq<SeqStep>, id: string) {
    LastNamed(tried, id) < 0 || Quiet(rows, tried[..LastNamed(tried, id)], id)
  }

  lemma LeftQuiet(s: Stage, steps: seq<SeqStep>, n: nat, clock: Clock, id: string)
    requires s.saved == map[] && id in s.tbl.rows && !Stamped(s.tbl.rows[id], id, clock)
    requires 0 < n <= |steps| && Run(s, steps[..n - 1], clock).1.None?
    ensures RowLeft(s, steps[..n], clock, id) == s.tbl.rows[id] <==> QuietBefore(s.tbl.rows, steps[..n], id)
  {
    hide Step, Stamped, SameBerths, Quiet;
    var k := LastNamed(steps[..n], id);
    if k >= 0 {
      assert steps[..n][..k] == steps[..k] == steps[..n - 1][..k];
      PrefixSucceeds(s, steps[..n - 1], k, clock);
      QuietRows(s, steps[..k], clock, id);
    }
  }

  lemma PrefixSucceeds(s: Stage, steps: seq<SeqStep>, k: nat, clock: Clock)
    requires k <= |steps| && Run(s, steps, clock).1.None?
    ensures Run(s, steps[..k], clock).1.None?
  {
    if Run(s, steps[..k], clock).1.Some? {
      FailureStops(s, steps, k, clock);
    }
  }

  lemma UndoableMeans(rows: Rows, tried: seq<SeqStep>)
    ensures Undoable(rows, tried) <==> forall id :: id in rows ==> QuietBefore(rows, tried, id)
  {
    if Undoable(rows, tried) {
      forall id | id in rows ensures QuietBefore(rows, tried, id) {
        var k := LastNamed(tried, id);
        forall i | 0 <= i < k && Names(tried[i], id) ensures IdleStep(rows, tried[i]) {
          assert Names(tried[k], tried[i].berthID);
        }
      }
    }
    if forall id :: id in rows ==> QuietBefore(rows, tried, id) {
      forall i, j | 0 <= i < j < |tried| && tried[i].kind.SetBerthState? && Names(tried[j], tried[i].berthID)
          && tried[i].berthID in rows
        ensures IdleStep(rows, tried[i])
      {
        var id := tried[i].berthID;
        assert QuietBefore(rows, tried, id);
        var k := LastNamed(tried, id);
        assert tried[..k][i] == tried[i];
      }
    }
  }

  /** A failed sequence leaves the breaker as the last breaker step before the first refused one put
      it: the grid is restored entirely exactly when that is where it was. */
  lemma FailedSequenceBreaker(g: Grid, t: Table, steps: seq<SeqStep>, clock: Clock)
    requires !g.state.OnGrid? && FirstRefused(g.fault, t.rows, steps) < |steps|
    ensures var done := steps[..FirstRefused(g.fault, t.rows, steps)];
            && ApplySequence(g, t, steps, clock).0 == g.(closed := LastBreaker(done, g.closed))
            && (ApplySequence(g, t, steps, clock).0 == g <==> LastBreaker(done, g.closed) == g.closed)
  {
    hide Run, Step, ApplySequence, SetAs, Refused;
    SequenceFails(g, t, steps, clock);
    FailedSequence(g, t, steps, clock);
    SucceededRun(g, t, steps[..FirstRefused(g.fault, t.rows, steps)], clock);
  }

  // Grid safety of arbitrary sequences.

  /** What grid state and breaker a sequence must leave for the grid to be safe. */
  predicate SafeAt(g: Grid, st: GState, closed: bool) {
    && (st.OnGrid? ==> closed && g.checked && g.matches(g.phase))
    && (st.Off? ==> !closed)
    && !st.Separating?
  }

  /** A sequence leaves the grid safe exactly when the last grid state it names agrees with the last
      breaker step, or, if a step is refused, when the old grid state agrees with the last breaker step
      before that. */
  lemma SequenceSafe(g: Grid, t: Table, steps: seq<SeqStep>, clock: Clock)
    requires !g.state.OnGrid? && steps != []
    ensures var n := FirstRefused(g.fault, t.rows, steps);
            var (g1, t1, e) := ApplySequence(g, t, steps, clock);
            if n == |steps|
            then e.None? && (GridSafe(g1) <==> SafeAt(g, LastGridState(steps, g.state), LastBreaker(steps, g.closed)))
            else e.Some? && (GridSafe(g1) <==> SafeAt(g, g.state, LastBreaker(steps[..n], g.closed)))
  {
    hide Run, Refused;
    SequenceSucceeds(g, t, steps, clock);
    if FirstRefused(g.fault, t.rows, steps) == |steps| {
      SucceededRun(g, t, steps, clock);
    } else {
      FailedSequenceBreaker(g, t, steps, clock);
    }
  }

  /** For instance: settle an idle berth, free it again, then fail to close the breaker. The berth is
      left settled, as it was between the two. */
  lemma SettledAndFreed(g: Grid, t: Table, id: string, vessel: string, clock: Clock)
    requires !g.state.OnGrid? && g.fault && id in t.rows && t.rows[id].state.Idle? && vessel != ""
    ensures var steps := [SeqStep(SetBerthState, Off, id, Settled, vessel), SeqStep(SetBerthState, Off, id, Idle, ""),
                          SeqStep(CloseBreaker, Off, "", Idle, "")];
            var (g1, t1, e) := ApplySequence(g, t, steps, clock);
            e == Some(CloseFault) && g1 == g && t1.rows == t.rows[id := Occupied(t.rows[id], id, vessel, clock(0))]
  {
    hide Run, Stamp;
    var steps := [SeqStep(SetBerthState, Off, id, Settled, vessel), SeqStep(SetBerthState, Off, id, Idle, ""),
                  SeqStep(CloseBreaker, Off, "", Idle, "")];
    var row := Occupied(t.rows[id], id, vessel, clock(0));
    var s0 := Stage(g, t, map[]);
    var s1 := Stage(g, Put(t, id, row), map[id := t.rows[id]]);
    var s2 := Stage(g, Put(Put(t, id, row), id, BerthTable.Vacated(row)), map[id := row]);
    assert Step(s0, steps[0], clock(0)) == (s1, None);
    assert map[id := t.rows[id]][id := row] == map[id := row];
    assert Step(s1, steps[1], clock(1)) == (s2, None);
    RunThree(s0, steps[0], steps[1], steps[2], clock);
    assert s2.tbl.rows + s2.saved == t.rows[id := row];
  }

  // The sequences the service itself builds.

  function SwitchSteps(onGrid: bool, berthID: string, vessel: string): seq<SeqStep> {
    if onGrid then
      [SeqStep(SetGridState, Syncing, "", Idle, ""),
       SeqStep(SetBerthState, Off, berthID, Settled, vessel),
       SeqStep(CloseBreaker, Off, "", Idle, "")]
    else
      [SeqStep(OpenBreaker, Off, "", Idle, ""),
       SeqStep(SetBerthState, Off, berthID, Idle, ""),
       SeqStep(SetGridState, Off, "", Idle, "")]
  }

  /** Where switching on gets to before any compensation. */
  function SwitchingOn(g: Grid, t: Table, id: string, vessel: string, now: Time): (Stage, Option<Error>) {
    var syncing := g.(state := Syncing);
    if id !in t.rows then (Stage(syncing, t, map[]), Some(NotFound))
    else
      var (t1, e) := MarkOccupied(t, id, vessel, now);
      var saved := map[id := t.rows[id]];
      if e.Some? then (Stage(syncing, t1, saved), e)
      else if g.fault then (Stage(syncing, t1, saved), Some(CloseFault))
      else (Stage(syncing.(closed := true), t1, saved), None)
  }

  lemma SwitchOnRun(g: Grid, t: Table, id: string, vessel: string, clock: Clock)
    ensures Run(Stage(g, t, map[]), SwitchSteps(true, id, vessel), clock) == SwitchingOn(g, t, id, vessel, clock(1))
  {
    hide Run, MarkOccupied;
    var (s, steps) := (Stage(g, t, map[]), SwitchSteps(true, id, vessel));
    RunThree(s, steps[0], steps[1], steps[2], clock);
    var s1 := Stage(g.(state := Syncing), t, map[]);
    assert Step(s, steps[0], clock(0)) == (s1, None);
    if id in t.rows {
      assert s1.saved[id := t.rows[id]] == map[id := t.rows[id]];
    }
  }

  lemma SwitchOn(g: Grid, t: Table, id: string, vessel: string, clock: Clock)
    requires !g.state.OnGrid?
    ensures var (g1, t1, e) := ApplySequence(g, t, SwitchSteps(true, id, vessel), clock);
            var (t2, e2) := MarkOccupied(t, id, vessel, clock(1));
            && (e.None? <==> e2.None? && !g.fault)
            && (e.None? ==> g1 == g.(state := Syncing, closed := true) && t1 == t2)
            && (e.Some? ==> g1 == g && t1.rows == t.rows)
  {
    hide Run, MarkOccupied;
    SwitchOnRun(g, t, id, vessel, clock);
    if id in t.rows {
      PutBack(t, id, vessel, clock(1));
    } else {
      NothingToOccupy(t, id, vessel, clock(1));
      assert t.rows + map[] == t.rows;
    }
  }

  /** Restoring the saved row undoes the occupation of a berth, and an occupation that was refused. */
  lemma PutBack(t: Table, id: string, vessel: string, now: Time)
    requires id in t.rows
    ensures t.rows + map[id := t.rows[id]] == t.rows
    ensures MarkOccupied(t, id, vessel, now).0.rows + map[id := t.rows[id]] == t.rows
  {
    hide MarkOccupied;
    MarkOccupiedKeeps(t, id, vessel, now);
  }

  lemma NothingToOccupy(t: Table, id: string, vessel: string, now: Time)
    requires id !in t.rows
    ensures MarkOccupied(t, id, vessel, now) == (t, Some(NotFound))
  {
  }

  lemma SwitchOff(g: Grid, t: Table, id: string, vessel: string, clock: Clock)
    requires !g.state.OnGrid?
    ensures var (g1, t1, e) := ApplySequence(g, t, SwitchSteps(false, id, vessel), clock);
            && (e.None? <==> id in t.rows)
            && (e.None? ==> g1 == g.(state := Off, closed := false) && t1 == MarkIdle(t, id).0)
            && (e.Some? ==> g1 == g.(closed := false) && t1.rows == t.rows)
  {
    hide Run, MarkOccupied, MarkIdle, OnlyRow;
    MarkIdleKeeps(t, id);
    var steps := SwitchSteps(false, id, vessel);
    RunThree(Stage(g, t, map[]), steps[0], steps[1], steps[2], clock);
    assert t.rows + map[] == t.rows;
  }

  /** Exactly what a switch request does to grid and table. */
  lemma SwitchOutcome(g: Grid, t: Table, onGrid: bool, id: string, vessel: string, clock: Clock)
    ensures var (g1, t1, e) := ApplySequence(g, t, SwitchSteps(onGrid, id, vessel), clock);
            var accepted := if onGrid then MarkOccupied(t, id, vessel, clock(1)).1.None? && !g.fault else id in t.rows;
            && (e.None? <==> !g.state.OnGrid? && accepted)
            && (g.state.OnGrid? ==> g1 == g && t1 == t)
            && (e.None? && onGrid ==> g1 == g.(state := Syncing, closed := true))
            && (e.None? && !onGrid ==> g1 == g.(state := Off, closed := false))
            && (e.None? ==> t1 == if onGrid then MarkOccupied(t, id, vessel, clock(1)).0 else MarkIdle(t, id).0)
            && (e.Some? && !g.state.OnGrid? ==> g1 == (if onGrid then g else g.(closed := false)) && t1.rows == t.rows)
  {
    hide Run, MarkOccupied, MarkIdle;
    if !g.state.OnGrid? {
      if onGrid {
        SwitchOn(g, t, id, vessel, clock);
      } else {
        SwitchOff(g, t, id, vessel, clock);
      }
    }
  }

  /** The switching sequences keep the grid safe, whether they succeed or fail. */
  lemma SwitchSafe(g: Grid, t: Table, onGrid: bool, id: string, vessel: string, clock: Clock)
    requires GridSafe(g)
    ensures var g1 := ApplySequence(g, t, SwitchSteps(onGrid, id, vessel), clock).0;
            GridSafe(g1) && OnGridBit(g1) == OnGridBit(g) && g1.execs == g.execs
  {
    SwitchOutcome(g, t, onGrid, id, vessel, clock);
  }

  /** A failed switch leaves the breaker as it was exactly when it was a switch to the grid or the
      breaker was open anyway: a failed switch off has already opened it. */
  lemma FailedSwitchBreaker(g: Grid, t: Table, onGrid: bool, id: string, vessel: string, clock: Clock)
    requires !g.state.OnGrid? && ApplySequence(g, t, SwitchSteps(onGrid, id, vessel), clock).2.Some?
    ensures ApplySequence(g, t, SwitchSteps(onGrid, id, vessel), clock).0 == g <==> onGrid || !g.closed
  {
    SwitchOutcome(g, t, onGrid, id, vessel, clock);
    if !onGrid && g.closed {
      assert g.(closed := false).closed != g.closed;
    }
  }

  /** A general sequence can put the grid on with the breaker open, so safety needs the service's
      own sequences. */
  lemma ArbitrarySequenceUnsafe(matches: Phase -> bool, clock: Clock)
    ensures var g := NewGrid(matches);
            var t := Table(map[], 0);
            GridSafe(g) && !GridSafe(ApplySequence(g, t, [SeqStep(SetGridState, OnGrid, "", Idle, "")], clock).0)
  {
    var g := NewGrid(matches);
    var step := SeqStep(SetGridState, OnGrid, "", Idle, "");
    assert [step][..0] == [];
    var s := Stage(g, Table(map[], 0), map[]);
    assert Run(s, [step], clock) == Step(s, step, clock(0));
  }
}
