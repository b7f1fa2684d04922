/** At-most-once execution when calls overlap: exactly which steps can give one request two live
    sessions, or let it be executed again. */
module Duplicates {
  import opened Prelude
  import opened CapacityBook
  import opened Sessions
  import opened Interleaving

  /** No named request has two live sessions. */
  ghost predicate OneLive(s: System) {
    forall id, id', r :: r != "" && LiveIn(s, id, r) && LiveIn(s, id', r) ==> id == id'
  }

  /** Ending session `id` with a live verdict would bring it back beside another session of its request. */
  ghost predicate Revives(s: System, id: string) {
    && id in s.sessions && !Alive(s.sessions[id].state)
    && s.sessions[id].requestID != "" && HasLive(s, s.sessions[id].requestID)
  }

  /** The three sections that act on what an earlier section of their call saw: Apply registers although
      its request got a live session meanwhile; a confirmation finishes, or a wait runs out, although its
      session was ended and replaced meanwhile. */
  ghost predicate Doubles(s: System, t: Thread, a: Action) {
    var p := At(s, t);
    || (a.Register? && p.Marked? && p.req.requestID != "" && HasLive(s, p.req.requestID))
    || (a.Finish? && p.Occupied? && Revives(s, p.id))
    || (a.Lapse? && p.Expiring? && Revives(s, p.id))
  }

  // What is alive after each kind of section.

  lemma SameLive(s: System, s1: System)
    requires forall id :: id in s1.sessions <==> id in s.sessions
    requires forall id :: id in s.sessions ==>
               && s1.sessions[id].requestID == s.sessions[id].requestID
               && (Alive(s1.sessions[id].state) <==> Alive(s.sessions[id].state))
    ensures forall id, r :: LiveIn(s1, id, r) <==> LiveIn(s, id, r)
    ensures OneLive(s1) <==> OneLive(s)
  {
  }

  lemma SameSessions(s: System, s1: System)
    requires s1.sessions == s.sessions
    ensures OneLive(s1) <==> OneLive(s)
  {
    hide OneLive;
    SameLive(s, s1);
  }

  lemma GatedLive(s: System, t: Thread, id: string)
    ensures OneLive(Gating(s, t, id)) <==> OneLive(s)
  {
    hide OneLive;
    SameLive(s, Gating(s, t, id));
  }

  lemma RegisterDoubles(s: System, t: Thread, req: Request)
    requires SessionsOk(s) && OneLive(s)
    ensures OneLive(Registering(s, t, req)) <==> !(req.requestID != "" && HasLive(s, req.requestID))
  {
    hide SessionID, SessionsOk;
    RegisteredSessions(s, t, req);
    var id, s1 := SessionID(s.number + 1), Registering(s, t, req);
    assert forall x, r :: LiveIn(s1, x, r) <==> LiveIn(s, x, r) || (x == id && r == req.requestID);
    if req.requestID != "" && HasLive(s, req.requestID) {
      var other :| LiveIn(s, other, req.requestID);
      assert LiveIn(s1, other, req.requestID) && LiveIn(s1, id, req.requestID);
    }
  }

  lemma SettleDoubles(s: System, t: Thread, id: string, st: SState)
    requires OneLive(s)
    ensures OneLive(Ended(s, t, id, st)) <==> !(Alive(st) && Revives(s, id))
  {
    var s1 := Ended(s, t, id, st);
    assert forall x, r :: x != id ==> (LiveIn(s1, x, r) <==> LiveIn(s, x, r));
    if Alive(st) && Revives(s, id) {
      var r := s.sessions[id].requestID;
      var other :| LiveIn(s, other, r);
      assert LiveIn(s1, other, r) && LiveIn(s1, id, r);
    } else {
      forall x, x', r | r != "" && LiveIn(s1, x, r) && LiveIn(s1, x', r) ensures x == x' {
        OnlySelf(s, s1, id, x, r);
        OnlySelf(s, s1, id, x', r);
      }
    }
  }

  lemma OnlySelf(s: System, s1: System, id: string, x: string, r: string)
    requires LiveIn(s1, x, r) && r != ""
    requires x != id ==> LiveIn(s, x, r)
    requires x == id ==> id in s.sessions && s1.sessions[id].requestID == s.sessions[id].requestID
    requires x == id ==> !Revives(s, id)
    ensures LiveIn(s, x, r) || (x == id && !HasLive(s, r))
  {
  }

  lemma StillOneLive(s: System, t: Thread, a: Action)
    requires Inv(s) && OneLive(s) && !(a.Register? && At(s, t).Marked?)
    requires !(a.Finish? && At(s, t).Occupied?) && !(a.Lapse? && At(s, t).Expiring?)
    ensures OneLive(Act(s, t, a))
  {
    hide Inv, OneLive, Registering, Gating, Closing, Starting, Finishing, Ended, Signalled, Move, MoveOk, After;
    hide Callable;
    var p := At(s, t);
    if IsMove(a) {
      Moves(s, t, a);
      SameSessions(s, Move(s, t, a));
    } else {
      match a
      case Gate(id) => GatedLive(s, t, id);
      case CloseGrid(_) => if p.PastGate? { ClosedLive(s, t, p.id); }
      case Fail => if p.Failing? { SettleDoubles(s, t, p.id, Failed); }
      case CancelCall(id) => SettleDoubles(s, t, id, Cancelled);
      case Signal => if p.Signalling? { SignalledLive(s, t, p.ch, p.vacates); }
      case StartMeter => if p.Berthed? { StartingSame(s, t, p.id); SameSessions(s, Work(s, t, a)); }
      case _ => SameSessions(s, Work(s, t, a));
    }
  }

  /** One step keeps one live session per request exactly when it is none of the three. */
  lemma OneLiveStep(s: System, t: Thread, a: Action)
    requires Inv(s) && OneLive(s)
    ensures OneLive(Act(s, t, a)) <==> !Doubles(s, t, a)
  {
    hide Inv, OneLive, Registering, Finishing, Ended, Move, HasLive, Revives;
    SessionsPart(s);
    var p := At(s, t);
    if a.Register? && p.Marked? {
      RegisterDoubles(s, t, p.req);
    } else if a.Finish? && p.Occupied? {
      FinishDoubles(s, t, p.id);
    } else if a.Lapse? && p.Expiring? {
      SettleDoubles(s, t, p.id, Lapsed);
    } else {
      hide Act;
      StillOneLive(s, t, a);
    }
  }

  lemma ClosedLive(s: System, t: Thread, id: string)
    ensures OneLive(Closing(s, t, id)) <==> OneLive(s)
  {
    hide OneLive;
    SameSessions(s, Closing(s, t, id));
  }

  lemma SignalledLive(s: System, t: Thread, ch: Option<Channel>, vacates: Option<string>)
    ensures OneLive(Signalled(s, t, ch, vacates)) <==> OneLive(s)
  {
    hide OneLive;
    SameSessions(s, Signalled(s, t, ch, vacates));
  }

  lemma FinishDoubles(s: System, t: Thread, id: string)
    requires OneLive(s)
    ensures OneLive(Finishing(s, t, id)) <==> !Revives(s, id)
  {
    hide OneLive, Ended, HasLive;
    SettleDoubles(s, t, id, Connected);
    if id in s.sessions {
      SameLive(Ended(s, t, id, Connected), Finishing(s, t, id));
    }
  }

  // Executions.

  /** Every session that was executed still answers its request. */
  ghost predicate ExecutedLive(s: System) {
    forall id :: id in s.finished ==> id in s.sessions && Alive(s.sessions[id].state)
  }

  ghost predicate OnceSoFar(s: System) {
    OneLive(s) && ExecutedLive(s)
  }

  /** Cancel ends a session that was executed: a late timer has made it look unfinished. */
  predicate Forgets(s: System, t: Thread, a: Action) {
    && a.CancelCall? && At(s, t).Ready? && a.id in s.finished
    && a.id in s.sessions && !s.sessions[a.id].state.Connected?
  }

  lemma SameExecuted(s: System, s1: System)
    requires ExecutedLive(s) && s1.finished == s.finished
    requires forall id :: id in s.sessions ==>
      id in s1.sessions && (id in s.finished && Alive(s.sessions[id].state) ==> Alive(s1.sessions[id].state))
    ensures ExecutedLive(s1)
  {
  }

  lemma SessionsExecuted(s: System, s1: System)
    requires ExecutedLive(s) && s1.finished == s.finished && s1.sessions == s.sessions
    ensures ExecutedLive(s1)
  {
    SameExecuted(s, s1);
  }

  lemma RegisterExecuted(s: System, t: Thread, req: Request)
    requires SessionsOk(s) && ExecutedLive(s)
    ensures ExecutedLive(Registering(s, t, req))
  {
    hide SessionID, SessionsOk;
    RegisteredSessions(s, t, req);
    SameExecuted(s, Registering(s, t, req));
  }

  lemma GatedExecuted(s: System, t: Thread, id: string)
    requires ExecutedLive(s)
    ensures ExecutedLive(Gating(s, t, id))
  {
    SameExecuted(s, Gating(s, t, id));
  }

  lemma SettleExecuted(s: System, t: Thread, id: string, st: SState)
    requires ExecutedLive(s)
    ensures ExecutedLive(Ended(s, t, id, st)) <==> Alive(st) || id !in s.finished
    ensures id in s.sessions ==> ExecutedLive(Ended(s, t, id, Connected).(finished := s.finished + {id}))
  {
    var s1 := Ended(s, t, id, st);
    if id in s.finished && !Alive(st) {
      assert s1.sessions[id].state == st;
    }
  }

  lemma FinishExecuted(s: System, t: Thread, id: string)
    requires ExecutedLive(s)
    ensures ExecutedLive(Finishing(s, t, id))
  {
    hide ExecutedLive, Ended;
    SettleExecuted(s, t, id, Connected);
    if id in s.sessions {
      var s1 := Ended(s, t, id, Connected).(finished := s.finished + {id});
      SameExecuted(s1, s1.(executed := Finishing(s, t, id).executed));
    }
  }

  lemma FailingUnfinished(s: System, t: Thread)
    requires Inv(s) && At(s, t).Failing?
    ensures At(s, t).id !in s.finished
  {
    hide SessionsOk, ChannelsOk, CountsOk, CapacityOk, Past, OneCarrier;
    assert KnowsSession(s, s.threads[t]);
  }

  lemma StillExecuted(s: System, t: Thread, a: Action)
    requires Inv(s) && ExecutedLive(s) && !a.CancelCall?
    ensures ExecutedLive(Act(s, t, a))
  {
    hide Inv, ExecutedLive, Registering, Gating, Closing, Starting, Finishing, Ended, Signalled, Move, MoveOk, After;
    hide Callable;
    SessionsPart(s);
    var p := At(s, t);
    if IsMove(a) {
      Moves(s, t, a);
      SessionsExecuted(s, Move(s, t, a));
    } else {
      match a
      case Register => if p.Marked? { RegisterExecuted(s, t, p.req); }
      case Gate(id) => GatedExecuted(s, t, id);
      case CloseGrid(_) => if p.PastGate? { ClosedExecuted(s, t, p.id); }
      case Finish => if p.Occupied? { FinishExecuted(s, t, p.id); }
      case Fail => if p.Failing? { FailingUnfinished(s, t); SettleExecuted(s, t, p.id, Failed); }
      case Lapse => if p.Expiring? { SettleExecuted(s, t, p.id, Lapsed); }
      case Signal => if p.Signalling? { SignalledExecuted(s, t, p.ch, p.vacates); }
      case StartMeter => if p.Berthed? { StartingSame(s, t, p.id); SessionsExecuted(s, Work(s, t, a)); }
      case _ => SessionsExecuted(s, Work(s, t, a));
    }
  }

  /** Executed sessions stay alive under every step but one. */
  lemma ExecutedStep(s: System, t: Thread, a: Action)
    requires Inv(s) && ExecutedLive(s)
    ensures ExecutedLive(Act(s, t, a)) <==> !Forgets(s, t, a)
  {
    hide Inv, ExecutedLive, Ended, Move;
    if a.CancelCall? {
      SettleExecuted(s, t, a.id, Cancelled);
    } else {
      hide Act;
      StillExecuted(s, t, a);
    }
  }

  lemma ClosedExecuted(s: System, t: Thread, id: string)
    requires ExecutedLive(s)
    ensures ExecutedLive(Closing(s, t, id))
  {
    SameExecuted(s, Closing(s, t, id));
  }

  lemma SignalledExecuted(s: System, t: Thread, ch: Option<Channel>, vacates: Option<string>)
    requires ExecutedLive(s)
    ensures ExecutedLive(Signalled(s, t, ch, vacates))
  {
    SameExecuted(s, Signalled(s, t, ch, vacates));
  }

  /** One live session per request and executed sessions that stay alive: both survive a step exactly
      when the step is none of the four. */
  lemma OnceStep(s: System, t: Thread, a: Action)
    requires Inv(s) && OnceSoFar(s)
    ensures OnceSoFar(Act(s, t, a)) <==> !Doubles(s, t, a) && !Forgets(s, t, a)
  {
    hide Inv, OneLive, ExecutedLive, Act, Doubles, Forgets;
    OneLiveStep(s, t, a);
    ExecutedStep(s, t, a);
  }

  /** While it lasts no named request is executed twice. */
  lemma ExecutedOnce(s: System, requestID: string)
    requires Inv(s) && OnceSoFar(s) && requestID != ""
    ensures ExecutionsOf(s, requestID) <= 1
  {
    hide SessionsOk, ChannelsOk, GatesOk, CapacityOk, Sum;
    var done := FinishedFor(s, requestID);
    assert ExecutionsOf(s, requestID) == |done|;
    if done != {} {
      var x :| x in done;
      forall y | y in done ensures y == x {
        assert LiveIn(s, x, requestID) && LiveIn(s, y, requestID);
      }
      assert done == {x};
    }
  }

  /** No named request has been executed twice. */
  ghost predicate NoneTwice(s: System) {
    forall r :: r != "" ==> ExecutionsOf(s, r) <= 1
  }

  /** A confirmation finishes although its request was executed before. */
  predicate Repeats(s: System, t: Thread, a: Action) {
    var p := At(s, t);
    && a.Finish? && p.Occupied? && p.id in s.sessions && s.sessions[p.id].requestID != ""
    && ExecutionsOf(s, s.sessions[p.id].requestID) == 1
  }

  /** The counters alone: a step keeps every named request at one execution exactly when it does not
      finish a session of a request that was executed before. */
  lemma CountStep(s: System, t: Thread, a: Action)
    requires NoneTwice(s)
    ensures NoneTwice(Act(s, t, a)) <==> !Repeats(s, t, a)
  {
    hide Move, Work, NoneTwice;
    var p, s1 := At(s, t), Act(s, t, a);
    if IsMove(a) {
      MovedCounts(s, t, a);
      SameCounts(s, s1);
    } else if a.Finish? && p.Occupied? {
      FinishCounts(s, t, p.id);
      FinishActs(s, t);
    } else {
      WorkCounts(s, t, a);
      SameCounts(s, s1);
    }
  }

  lemma MovedCounts(s: System, t: Thread, a: Action)
    requires IsMove(a)
    ensures Move(s, t, a).executed == s.executed
  {
    hide Move;
    Moves(s, t, a);
  }

  lemma FinishActs(s: System, t: Thread)
    requires At(s, t).Occupied?
    ensures Work(s, t, Finish) == Finishing(s, t, At(s, t).id)
  {
    hide Finishing;
  }

  lemma WorkCounts(s: System, t: Thread, a: Action)
    requires !(a.Finish? && At(s, t).Occupied?)
    ensures Work(s, t, a).executed == s.executed
  {
    hide Registering, Gating, Closing, Starting, Finishing, Ended, Signalled, After, Callable;
    var p := At(s, t);
    match a
    case Register => if p.Marked? { RegisteringCounts(s, t, p.req); }
    case CloseGrid(_) => if p.PastGate? { ClosingCounts(s, t, p.id); }
    case Gate(id) => GatingCounts(s, t, id);
    case Fail => if p.Failing? { EndedCounts(s, t, p.id, Failed); }
    case CancelCall(id) => EndedCounts(s, t, id, Cancelled);
    case Lapse => if p.Expiring? { EndedCounts(s, t, p.id, Lapsed); }
    case Signal => if p.Signalling? { SignalledSame(s, t, p.ch, p.vacates); }
    case StartMeter => if p.Berthed? { StartingSame(s, t, p.id); }
    case _ =>
  }

  lemma RegisteringCounts(s: System, t: Thread, req: Request)
    ensures Registering(s, t, req).executed == s.executed
  {
    hide SessionID;
  }

  lemma ClosingCounts(s: System, t: Thread, id: string)
    ensures Closing(s, t, id).executed == s.executed
  {
  }

  lemma GatingCounts(s: System, t: Thread, id: string)
    ensures Gating(s, t, id).executed == s.executed
  {
  }

  lemma EndedCounts(s: System, t: Thread, id: string, st: SState)
    ensures Ended(s, t, id, st).executed == s.executed
  {
  }

  lemma SameCounts(s: System, s1: System)
    requires s1.executed == s.executed && NoneTwice(s)
    ensures NoneTwice(s1)
  {
    forall r | r != "" ensures ExecutionsOf(s1, r) <= 1 {
      assert ExecutionsOf(s, r) <= 1;
    }
  }

  lemma FinishCounts(s: System, t: Thread, id: string)
    requires NoneTwice(s)
    ensures NoneTwice(Finishing(s, t, id)) <==>
            id !in s.sessions || s.sessions[id].requestID == "" || ExecutionsOf(s, s.sessions[id].requestID) != 1
  {
    if id !in s.sessions {
      return;
    }
    hide Finishing, ExecutionsOf;
    var (r, s1) := (s.sessions[id].requestID, Finishing(s, t, id));
    forall x ensures ExecutionsOf(s1, x) == ExecutionsOf(s, x) + if r == x then 1 else 0 {
      FinishedRuns(s, t, id, x);
    }
    if r != "" {
      assert ExecutionsOf(s, r) <= 1;
    }
  }

  /** Such a step is about another vessel than the one that was executed. */
  lemma RepeatsForAnother(s: System, t: Thread, a: Action)
    requires Inv(s) && Repeats(s, t, a)
    ensures var x := s.sessions[At(s, t).id];
            exists id :: id in FinishedFor(s, x.requestID) && s.sessions[id].vessel != x.vessel
  {
    hide Inv;
    RepeatParts(s, t);
    var id, r := At(s, t).id, s.sessions[At(s, t).id].requestID;
    assert FinishedFor(s, r) != {};
    var other :| other in FinishedFor(s, r);
    assert s.metered[s.sessions[other].vessel] == other;
  }

  lemma RepeatParts(s: System, t: Thread)
    requires Inv(s) && At(s, t).Occupied?
    ensures At(s, t).id !in s.finished && Started(s, At(s, t).id)
    ensures forall id :: id in s.finished ==> Started(s, id)
    ensures forall r :: ExecutionsOf(s, r) == |FinishedFor(s, r)|
  {
    hide SessionsOk, ChannelsOk, CapacityOk, Past, OneCarrier, FinishedFor, ExecutionsOf, Sum;
    assert KnowsSession(s, s.threads[t]);
  }

  ghost predicate Undisturbed(s: System, turns: seq<Turn>) {
    turns == [] ||
    var (before, last) := (turns[..|turns| - 1], turns[|turns| - 1]);
    && Undisturbed(s, before)
    && !Doubles(Interleaved(s, before), last.t, last.a) && !Forgets(Interleaved(s, before), last.t, last.a)
  }

  /** So over every interleaving in which none of the four steps occurs, each request is executed at
      most once. */
  lemma {:induction false} UndisturbedOnce(shore: real, turns: seq<Turn>, requestID: string)
    requires Undisturbed(Start(shore), turns)
    ensures OnceSoFar(Interleaved(Start(shore), turns))
    ensures requestID != "" ==> ExecutionsOf(Interleaved(Start(shore), turns), requestID) <= 1
  {
    hide Inv, OneLive, ExecutedLive, Act, Doubles, Forgets, ExecutionsOf;
    InterleavedSafe(shore, turns);
    if turns == [] {
      NothingYet(shore);
    } else {
      var before, last := turns[..|turns| - 1], turns[|turns| - 1];
      UndisturbedOnce(shore, before, requestID);
      InterleavedSafe(shore, before);
      OnceStep(Interleaved(Start(shore), before), last.t, last.a);
    }
    if requestID != "" {
      ExecutedOnce(Interleaved(Start(shore), turns), requestID);
    }
  }

  lemma NothingYet(shore: real)
    ensures OnceSoFar(Start(shore))
  {
  }
}
