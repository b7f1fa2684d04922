/** The critical sections set against the sequential calls: a call whose sections are not interleaved is
    the sequential call, whatever its outcome. */
module Overlap {
  import opened Prelude
  import opened BerthTable
  import opened CapacityBook
  import opened GridState
  import opened Sessions
  import opened AtMostOnce
  import opened Ownership
  import opened Interleaving
  import S = Sessions
  import I = Interleaving

  // A call by itself.

  /** What the shared state shows of a session. */
  function Tracked(x: Session): Track {
    Track(x.requestID, x.berthID, x.vessel, x.state)
  }

  /** The connection table as the shared state shows it. */
  ghost predicate Shows(s: System, c: Conn) {
    && s.sessions.Keys == c.sessions.Keys && s.pending.Keys == c.pending
    && s.executed == c.executed && s.number == c.number
    && forall id :: id in c.sessions ==> s.sessions[id] == Tracked(c.sessions[id])
  }

  lemma ShowsEnded(s: System, c: Conn, t: Thread, id: string, st: SState, why: Reason)
    requires Shows(s, c) && id in c.sessions
    ensures Shows(Ended(s, t, id, st), Closed(c, id, st, why))
  {
  }

  lemma ShowsGated(s: System, c: Conn, t: Thread, id: string)
    requires Shows(s, c) && id in c.sessions && c.sessions[id].state.Verifying?
    ensures Shows(Gating(s, t, id), Gated(c, id))
  {
  }

  lemma ShowsFinished(s: System, c: Conn, t: Thread, id: string)
    requires Shows(s, c) && id in c.sessions
    ensures Shows(Finishing(s, t, id), Finished(c, id))
  {
  }

  lemma ShowsRegistered(s: System, c: Conn, t: Thread, req: Request, a: Allocation, now: Time)
    requires Shows(s, c)
    ensures Shows(Registering(s, t, req), Registered(c, req, a, now))
  {
    hide SessionID;
  }

  lemma SameShown(s: System, s1: System, c: Conn)
    requires Shows(s, c) && s1.sessions == s.sessions && s1.pending == s.pending
    requires s1.executed == s.executed && s1.number == s.number
    ensures Shows(s1, c)
  {
  }

  lemma ShownState(s: System, c: Conn, id: string)
    requires Shows(s, c)
    ensures id in s.sessions <==> id in c.sessions
    ensures id in c.sessions ==> s.sessions[id] == Tracked(c.sessions[id])
    ensures id in s.pending <==> id in c.pending
  {
  }

  lemma LiveShown(s: System, c: Conn, requestID: string)
    requires Shows(s, c)
    ensures HasLive(s, requestID) <==> FindLive(c, requestID).Some?
  {
    if HasLive(s, requestID) {
      var id :| LiveIn(s, id, requestID);
      assert LiveFor(c, id, requestID);
    }
    if FindLive(c, requestID).Some? {
      var id := FindLive(c, requestID).value;
      assert LiveIn(s, id, requestID);
    }
  }

  // Several sections of one thread.

  function By(t: Thread, acts: seq<Action>): seq<Turn> {
    seq(|acts|, i requires 0 <= i < |acts| => Turn(t, acts[i]))
  }

  ghost function Alone(s: System, t: Thread, acts: seq<Action>): System
    decreases |acts|
  {
    if acts == [] then s else Alone(Act(s, t, acts[0]), t, acts[1..])
  }

  lemma Then(s: System, t: Thread, a: Action, rest: seq<Action>)
    ensures Alone(s, t, [a] + rest) == Alone(Act(s, t, a), t, rest)
  {
    hide Act;
    assert ([a] + rest)[1..] == rest;
  }

  lemma Last(s: System, t: Thread, a: Action)
    ensures Alone(s, t, [a]) == Act(s, t, a)
  {
    hide Act;
    assert [a][1..] == [];
  }

  lemma {:induction false} AloneJoin(s: System, t: Thread, a: seq<Action>, b: seq<Action>)
    ensures Alone(s, t, a + b) == Alone(Alone(s, t, a), t, b)
    decreases |a|
  {
    hide Act;
    if a == [] {
      assert a + b == b;
    } else {
      AloneJoin(Act(s, t, a[0]), t, a[1..], b);
      assert (a + b)[1..] == a[1..] + b;
    }
  }

  /** Acting alone is one way of interleaving. */
  lemma {:induction false} AloneTurns(s: System, t: Thread, acts: seq<Action>)
    ensures Interleaved(s, By(t, acts)) == Alone(s, t, acts)
  {
    hide Act;
    if acts != [] {
      var init, last := acts[..|acts| - 1], acts[|acts| - 1];
      AloneTurns(s, t, init);
      assert By(t, acts)[..|acts| - 1] == By(t, init);
      assert acts == init + [last];
      AloneJoin(s, t, init, [last]);
      Last(Alone(s, t, init), t, last);
    }
  }

  // What each section does where it applies.

  lemma GateNext(s: System, t: Thread, id: string)
    requires At(s, t).Ready?
    ensures Act(s, t, Gate(id)) == Gating(s, t, id)
    ensures id in s.sessions && s.sessions[id].state.Verifying? ==> At(Gating(s, t, id), t) == PastGate(id)
    ensures !(id in s.sessions && s.sessions[id].state.Verifying?) ==> Gating(s, t, id) == s
  {
    hide Move;
  }

  lemma CloseNext(s: System, t: Thread, id: string, ok: bool)
    requires At(s, t) == PastGate(id)
    ensures Act(s, t, CloseGrid(ok)) == if ok then Closing(s, t, id) else Goto(s, t, Failing(id))
    ensures At(Closing(s, t, id), t) == GridClosed(id)
  {
  }

  lemma OccupyNext(s: System, t: Thread, id: string, ok: bool)
    requires At(s, t) == GridClosed(id)
    ensures Act(s, t, Occupy(ok)) == Goto(s, t, if ok then Berthed(id) else Failing(id))
  {
    hide Work;
  }

  lemma MeterNext(s: System, t: Thread, id: string)
    requires At(s, t) == Berthed(id)
    ensures Act(s, t, StartMeter) == Starting(s, t, id)
  {
    hide Move, Starting;
  }

  lemma FinishNext(s: System, t: Thread, id: string)
    requires At(s, t) == I.Occupied(id) && id in s.sessions && id in s.pending
    ensures Act(s, t, Finish) == Finishing(s, t, id)
    ensures At(Finishing(s, t, id), t) == Signalling(Some(s.pending[id]), None)
  {
    hide Move, ExecutionsOf;
  }

  lemma FailNext(s: System, t: Thread, id: string)
    requires At(s, t) == Failing(id)
    ensures Act(s, t, Fail) == Ended(s, t, id, Failed)
  {
    hide Move, Ended;
  }

  lemma CancelNext(s: System, t: Thread, id: string)
    requires At(s, t).Ready?
    ensures Act(s, t, CancelCall(id)) ==
            if id in s.sessions && !s.sessions[id].state.Connected? then Ended(s, t, id, Cancelled) else s
  {
    hide Move, Ended;
  }

  lemma WaitNext(s: System, t: Thread, id: string)
    requires At(s, t).Ready?
    ensures var s1 := Act(s, t, I.Wait(id));
            if id in s.sessions && s.sessions[id].state.Verifying?
            then s1 == Goto(s, t, Waiting(id, if id in s.pending then Some(s.pending[id]) else None)) else s1 == s
  {
    hide Work, Release, TryAllocate, HasLive, Remain;
  }

  lemma WakeNext(s: System, t: Thread)
    requires At(s, t).Waiting? && At(s, t).ch.Some? && At(s, t).ch.value in s.closed
    ensures Act(s, t, Wake) == Goto(s, t, Ready)
  {
    hide Work, Release, TryAllocate, HasLive, Remain;
  }

  lemma ExpireNext(s: System, t: Thread)
    ensures Act(s, t, Expire) == if At(s, t).Waiting? then Goto(s, t, Expiring(At(s, t).id)) else s
    ensures Act(s, t, Lapse) == if At(s, t).Expiring? then Ended(s, t, At(s, t).id, Lapsed) else s
  {
    hide Ended, Release, TryAllocate, HasLive, Remain;
  }

  lemma SignalNext(s: System, t: Thread)
    ensures Act(s, t, Signal) ==
            if At(s, t).Signalling? then Signalled(s, t, At(s, t).ch, At(s, t).vacates) else s
  {
    hide Move, Signalled;
  }

  lemma FreeNext(s: System, t: Thread, now: Time)
    ensures Act(s, t, I.Free(now)) ==
            if At(s, t).Freeing? then Goto(s, t, Ready).(cap := Release(s.cap, At(s, t).berthID, now).0) else s
  {
    hide Work, Release, TryAllocate, HasLive, Remain;
  }

  lemma LookNext(s: System, t: Thread, req: Request)
    requires At(s, t).Ready?
    ensures Act(s, t, Look(req)) ==
            if req.requestID == "" || !HasLive(s, req.requestID) then Goto(s, t, Checked(req)) else s
  {
    hide HasLive, Work, Release, TryAllocate, Remain;
  }

  lemma RegisterNext(s: System, t: Thread, req: Request)
    requires At(s, t) == Marked(req)
    ensures Act(s, t, Register) == Registering(s, t, req)
  {
    hide Move, SessionID;
  }

  lemma Overtaken(s: System, t: Thread, p: Position, q: Position)
    ensures Goto(Goto(s, t, p), t, q) == Goto(s, t, q)
  {
  }

  // How a call that ends a session ends.

  function Tail(now: Time): seq<Action> {
    [Signal] + [I.Free(now)]
  }

  lemma TailIdle(s: System, t: Thread, now: Time)
    requires At(s, t).Ready?
    ensures Alone(s, t, Tail(now)) == s
  {
    hide Act, Alone;
    Then(s, t, Signal, [I.Free(now)]);
    SignalNext(s, t);
    Last(s, t, I.Free(now));
    FreeNext(s, t, now);
  }

  lemma TailEnds(s: System, t: Thread, now: Time)
    requires At(s, t).Signalling?
    ensures var (p, s1) := (At(s, t), Alone(s, t, Tail(now)));
            && At(s1, t).Ready? && s1 == s.(threads := s.threads[t := Ready], cap := s1.cap, closed := s1.closed)
            && s1.cap == (if p.vacates.Some? then Release(s.cap, p.vacates.value, now).0 else s.cap)
            && s1.closed == (if p.ch.Some? then s.closed + multiset{p.ch.value} else s.closed)
  {
    hide Act, Alone, Release;
    Then(s, t, Signal, [I.Free(now)]);
    SignalNext(s, t);
    var mid := Act(s, t, Signal);
    Last(mid, t, I.Free(now));
    FreeNext(mid, t, now);
  }

  // The calls.

  /** The shared state is that of a sequential service, as far as connection calls go. */
  ghost predicate Mirrors(s: System, w: Core) {
    Shows(s, w.conn) && s.cap == w.cap && s.execs == w.grid.execs && s.metered.Keys == w.met.active.Keys
  }

  /** Ending a session and cleaning up after it is abandoning it. */
  lemma EndAlone(s: System, w: Core, t: Thread, id: string, st: SState, why: Reason, now: Time)
    requires Mirrors(s, w) && id in w.conn.sessions && !st.Connected?
    ensures var s1 := Alone(Ended(s, t, id, st), t, Tail(now));
            Mirrors(s1, Abandon(w, id, st, why, now)) && At(s1, t).Ready?
  {
    hide Shows, Alone, Tail, Closed, Release, MarkIdle;
    var mid := Ended(s, t, id, st);
    ShownState(s, w.conn, id);
    ShowsEnded(s, w.conn, t, id, st, why);
    TailEnds(mid, t, now);
    SameShown(mid, Alone(mid, t, Tail(now)), Closed(w.conn, id, st, why));
  }

  /** Cancel alone, refused or not. */
  lemma CancelAlone(s: System, w: Core, t: Thread, id: string, now: Time)
    requires Mirrors(s, w) && At(s, t).Ready?
    ensures var s1 := Alone(s, t, [CancelCall(id)] + Tail(now)); Mirrors(s1, S.Cancel(w, id, now).0) && At(s1, t).Ready?
  {
    hide Mirrors, Alone, Tail, Abandon, Ended;
    Then(s, t, CancelCall(id), Tail(now));
    CancelNext(s, t, id);
    MirroredState(s, w, id);
    if id in w.conn.sessions && !w.conn.sessions[id].state.Connected? {
      EndAlone(s, w, t, id, Cancelled, ByOperator, now);
    } else {
      TailIdle(s, t, now);
    }
  }

  lemma MirroredState(s: System, w: Core, id: string)
    requires Mirrors(s, w)
    ensures id in s.sessions <==> id in w.conn.sessions
    ensures id in w.conn.sessions ==> s.sessions[id].state == w.conn.sessions[id].state
  {
    ShownState(s, w.conn, id);
  }

  function WaitActions(id: string, now: Time): seq<Action> {
    [I.Wait(id)] + ([Expire] + ([Lapse] + Tail(now)))
  }

  predicate Waitable(s: System, id: string) {
    id in s.sessions && s.sessions[id].state.Verifying?
  }

  lemma WaitReaches(s: System, t: Thread, id: string, rest: seq<Action>)
    requires At(s, t).Ready?
    ensures Alone(s, t, [I.Wait(id)] + ([Expire] + ([Lapse] + rest))) ==
            Alone(if Waitable(s, id) then Ended(Goto(s, t, Expiring(id)), t, id, Lapsed) else s, t, rest)
  {
    hide Alone, Ended, Act;
    var s1 := Act(s, t, I.Wait(id));
    var s2 := Act(s1, t, Expire);
    Then(s, t, I.Wait(id), [Expire] + ([Lapse] + rest));
    Then(s1, t, Expire, [Lapse] + rest);
    Then(s2, t, Lapse, rest);
    WaitNext(s, t, id);
    ExpireNext(s1, t);
    ExpireNext(s2, t);
    if Waitable(s, id) {
      Overtaken(s, t, At(s1, t), Expiring(id));
    }
  }

  /** A wait that is refused, or that runs out with nothing else happening. */
  lemma WaitAlone(s: System, w: Core, t: Thread, id: string, now: Time)
    requires Mirrors(s, w) && At(s, t).Ready?
    ensures var s1 := Alone(s, t, WaitActions(id, now)); Mirrors(s1, S.Wait(w, id, now).0) && At(s1, t).Ready?
  {
    hide Mirrors, Alone, Tail, Abandon, Ended, Act;
    WaitReaches(s, t, id, Tail(now));
    MirroredState(s, w, id);
    if Waitable(s, id) {
      var s2 := Goto(s, t, Expiring(id));
      MirrorsAside(s, s2, w);
      EndAlone(s2, w, t, id, Lapsed, WaitExpired, now);
    } else {
      TailIdle(s, t, now);
    }
  }

  lemma MirrorsAside(s: System, s1: System, w: Core)
    requires Mirrors(s, w) && s1 == s.(threads := s1.threads)
    ensures Mirrors(s1, w)
  {
    SameShown(s, s1, w.conn);
  }

  // Confirming.

  /** A confirmation that is not refused. */
  function Confirming(id: string): seq<Action> {
    [Gate(id)] + ([CloseGrid(true)] + ([Occupy(true)] + ([StartMeter] + ([Finish] + [Signal]))))
  }

  function Connecting(w: Core, id: string, now: Time): (Core, Option<Error>)
    requires id in w.conn.sessions
  {
    Connect(w.(conn := Gated(w.conn, id)), w.conn.sessions[id], now)
  }

  predicate Berthable(w: Core, x: Session, now: Time) {
    MarkOccupied(w.tbl, x.berthID, x.vessel, now).1.None?
  }

  /** The sections of a confirmation, by how far it gets. */
  function ConfirmActions(w: Core, id: string, now: Time): seq<Action> {
    if id !in w.conn.sessions || !w.conn.sessions[id].state.Verifying? then [Gate(id)]
    else if !Closable(w.grid, w.conn.sessions[id].phase) then [Gate(id)] + ([CloseGrid(false)] + ([Fail] + Tail(now)))
    else if !Berthable(w, w.conn.sessions[id], now)
    then [Gate(id)] + ([CloseGrid(true)] + ([Occupy(false)] + ([Fail] + Tail(now))))
    else if Connecting(w, id, now).1.Some?
    then [Gate(id)] + ([CloseGrid(true)] + ([Occupy(true)] + ([StartMeter] + ([Fail] + Tail(now)))))
    else Confirming(id)
  }

  predicate Meterable(w: Core, x: Session) {
    x.vessel != "" && x.berthID != "" && x.vessel !in w.met.active
  }

  lemma ConnectingGrid(w: Core, id: string, now: Time)
    requires id in w.conn.sessions
    ensures var (w1, e) := Connecting(w, id, now);
            var x := w.conn.sessions[id];
            && w1.conn == Gated(w.conn, id) && w1.cap == w.cap
            && w1.grid.execs == w.grid.execs + (if Closable(w.grid, x.phase) then 1 else 0)
            && (e.None? <==> Closable(w.grid, x.phase) && Berthable(w, x, now) && Meterable(w, x))
            && w1.met.active.Keys == w.met.active.Keys + (if e.None? then {x.vessel} else {})
  {
    hide MarkOccupied, Gated;
  }

  lemma FailAlone(s: System, w: Core, t: Thread, id: string, why: Error, now: Time)
    requires Mirrors(s, w) && At(s, t) == Failing(id) && id in w.conn.sessions
    ensures var s1 := Alone(s, t, [Fail] + Tail(now));
            Mirrors(s1, Abandon(w, id, Failed, Because(why), now)) && At(s1, t).Ready?
  {
    hide Mirrors, Alone, Tail, Abandon, Ended, Act;
    Then(s, t, Fail, Tail(now));
    FailNext(s, t, id);
    EndAlone(s, w, t, id, Failed, Because(why), now);
  }

  /** A confirmation past the gate, at position `p`, with the grid closed or not. */
  lemma GatedMirrors(
    s: System, w: Core, w1: Core, t: Thread, id: string, p: Position, metered: map<string, string>)
    requires Mirrors(s, w) && id in w.conn.sessions && w.conn.sessions[id].state.Verifying?
    requires w1.conn == Gated(w.conn, id) && w1.cap == w.cap && w1.met.active.Keys == metered.Keys
    ensures w1.grid.execs == w.grid.execs ==> Mirrors(Goto(Gating(s, t, id), t, p).(metered := metered), w1)
    ensures w1.grid.execs == w.grid.execs + 1
            ==> Mirrors(Goto(Closing(Gating(s, t, id), t, id), t, p).(metered := metered), w1)
  {
    hide Shows, Gated;
    ShownState(s, w.conn, id);
    ShowsGated(s, w.conn, t, id);
    SameShown(Gating(s, t, id), Goto(Gating(s, t, id), t, p).(metered := metered), w1.conn);
    SameShown(Gating(s, t, id), Goto(Closing(Gating(s, t, id), t, id), t, p).(metered := metered), w1.conn);
  }

  function GridOn(s: System, t: Thread, id: string): System {
    Closing(Gating(s, t, id), t, id)
  }

  /** The state once the meter has taken the session's vessel. */
  function Running(s: System, t: Thread, id: string): System
    requires id in s.sessions
  {
    Goto(GridOn(s, t, id), t, I.Occupied(id)).(metered := s.metered[s.sessions[id].vessel := id])
  }

  /** The first sections of a confirmation that passes the gate. */
  lemma PassesGate(s: System, t: Thread, id: string, ok: bool, rest: seq<Action>)
    requires At(s, t).Ready? && id in s.sessions && s.sessions[id].state.Verifying?
    ensures Alone(s, t, [Gate(id)] + ([CloseGrid(false)] + rest)) ==
            Alone(Goto(Gating(s, t, id), t, Failing(id)), t, rest)
    ensures Alone(s, t, [Gate(id)] + ([CloseGrid(true)] + ([Occupy(ok)] + rest))) ==
            Alone(Goto(GridOn(s, t, id), t, if ok then Berthed(id) else Failing(id)), t, rest)
  {
    hide Alone, Act, Gating, Closing, Goto;
    var s1 := Gating(s, t, id);
    GateNext(s, t, id);
    Then(s, t, Gate(id), [CloseGrid(false)] + rest);
    Then(s, t, Gate(id), [CloseGrid(true)] + ([Occupy(ok)] + rest));
    CloseNext(s1, t, id, false);
    CloseNext(s1, t, id, true);
    Then(s1, t, CloseGrid(false), rest);
    Then(s1, t, CloseGrid(true), [Occupy(ok)] + rest);
    OccupyNext(Closing(s1, t, id), t, id, ok);
    Then(Closing(s1, t, id), t, Occupy(ok), rest);
  }

  /** Up to the meter's answer. */
  lemma ReachesMeter(s: System, t: Thread, id: string, rest: seq<Action>)
    requires At(s, t).Ready? && id in s.sessions && s.sessions[id].state.Verifying?
    ensures Alone(s, t, [Gate(id)] + ([CloseGrid(true)] + ([Occupy(true)] + ([StartMeter] + rest)))) ==
            Alone(if Takes(s, id) then Running(s, t, id) else Goto(GridOn(s, t, id), t, Failing(id)), t, rest)
  {
    hide Alone, Act, Takes, Starting, Running, GridOn;
    var b := Goto(GridOn(s, t, id), t, Berthed(id));
    PassesGate(s, t, id, true, [StartMeter] + rest);
    MeterNext(b, t, id);
    Then(b, t, StartMeter, rest);
    BerthFields(s, t, id);
  }

  lemma BerthFields(s: System, t: Thread, id: string)
    requires id in s.sessions && s.sessions[id].state.Verifying?
    ensures Starting(Goto(GridOn(s, t, id), t, Berthed(id)), t, id) ==
            if Takes(s, id) then Running(s, t, id) else Goto(GridOn(s, t, id), t, Failing(id))
  {
    Overtaken(GridOn(s, t, id), t, Berthed(id), Failing(id));
    Overtaken(GridOn(s, t, id), t, Berthed(id), I.Occupied(id));
  }

  /** What a confirmation that is not refused leaves. */
  lemma ConfirmingEnds(s: System, t: Thread, id: string)
    requires At(s, t).Ready? && id in s.sessions && s.sessions[id].state.Verifying? && id in s.pending && Takes(s, id)
    ensures var s3 := Running(s, t, id);
            && id in s3.pending && s3.pending[id] == s.pending[id]
            && Alone(s, t, Confirming(id)) == Signalled(Finishing(s3, t, id), t, Some(s.pending[id]), None)
  {
    hide Alone, Act, Running, Finishing, Signalled, Takes, GridOn;
    var s3 := Running(s, t, id);
    ReachesMeter(s, t, id, [Finish] + [Signal]);
    RunningFields(s, t, id);
    Then(s3, t, Finish, [Signal]);
    FinishNext(s3, t, id);
    Last(Finishing(s3, t, id), t, Signal);
    SignalNext(Finishing(s3, t, id), t);
  }

  lemma RunningFields(s: System, t: Thread, id: string)
    requires id in s.sessions && s.sessions[id].state.Verifying? && id in s.pending
    ensures var s3 := Running(s, t, id);
            && id in s3.sessions && id in s3.pending && s3.pending[id] == s.pending[id] && At(s3, t) == I.Occupied(id)
  {
  }

  lemma TakesShown(s: System, w: Core, id: string)
    requires Mirrors(s, w) && id in w.conn.sessions
    ensures id in s.sessions && s.sessions[id] == Tracked(w.conn.sessions[id])
    ensures Takes(s, id) <==> Meterable(w, w.conn.sessions[id])
  {
    ShownState(s, w.conn, id);
  }

  lemma ConfirmingMirrors(s: System, w: Core, t: Thread, id: string, now: Time)
    requires Mirrors(s, w) && SessionsOk(s) && At(s, t).Ready?
    requires id in w.conn.sessions && w.conn.sessions[id].state.Verifying? && Connecting(w, id, now).1.None?
    ensures var s1 := Alone(s, t, Confirming(id)); Mirrors(s1, S.Confirm(w, id, now).0) && At(s1, t).Ready?
  {
    hide Alone, Confirming, Shows, Connect, Gating, Closing, Gated, Finished, Finishing, IDs, Takes, Closable;
    hide Berthable;
    var w1 := Connecting(w, id, now).0;
    TakesShown(s, w, id);
    var s3 := Running(s, t, id);
    Decided(s, id);
    ConnectingGrid(w, id, now);
    GatedMirrors(s, w, w1, t, id, I.Occupied(id), s.metered[s.sessions[id].vessel := id]);
    GatedKeys(w.conn, id);
    ConfirmingEnds(s, t, id);
    ShowsFinished(s3, w1.conn, t, id);
    FinishingAside(s3, t, id);
    SameShown(Finishing(s3, t, id), Alone(s, t, Confirming(id)), Finished(w1.conn, id));
  }

  lemma FinishingAside(s: System, t: Thread, id: string)
    ensures var s1 := Finishing(s, t, id); s1.cap == s.cap && s1.execs == s.execs && s1.metered == s.metered
  {
  }

  lemma Decided(s: System, id: string)
    requires SessionsOk(s)
    ensures id in s.sessions && s.sessions[id].state.Verifying? ==> id in s.pending
  {
  }

  /** A confirmation that fails behind the gate, by how far it gets. */
  lemma RefusedMirrors(s: System, w: Core, t: Thread, id: string, now: Time)
    requires Mirrors(s, w) && At(s, t).Ready?
    requires id in w.conn.sessions && w.conn.sessions[id].state.Verifying? && Connecting(w, id, now).1.Some?
    ensures var (w1, e) := Connecting(w, id, now);
            var s1 := Alone(s, t, ConfirmActions(w, id, now));
            id in w1.conn.sessions && Mirrors(s1, Abandon(w1, id, Failed, Because(e.value), now)) && At(s1, t).Ready?
  {
    hide Mirrors, Alone, Act, Tail, Abandon, Closable, Berthable, Confirming, Connect, Gating, Closing, Gated, Takes;
    var (w1, e) := Connecting(w, id, now);
    var rest := [Fail] + Tail(now);
    TakesShown(s, w, id);
    MeteredKeys(s, w);
    ConnectingGrid(w, id, now);
    GatedKeys(w.conn, id);
    GatedMirrors(s, w, w1, t, id, Failing(id), s.metered);
    GateAside(s, t, id);
    if !Closable(w.grid, w.conn.sessions[id].phase) {
      PassesGate(s, t, id, false, rest);
      FailAlone(Goto(Gating(s, t, id), t, Failing(id)), w1, t, id, e.value, now);
    } else {
      PassesGate(s, t, id, false, rest);
      ReachesMeter(s, t, id, rest);
      FailAlone(Goto(GridOn(s, t, id), t, Failing(id)), w1, t, id, e.value, now);
    }
  }

  lemma MeteredKeys(s: System, w: Core)
    requires Mirrors(s, w)
    ensures s.metered.Keys == w.met.active.Keys
  {
  }

  lemma GateAside(s: System, t: Thread, id: string)
    ensures Gating(s, t, id).metered == s.metered && Closing(Gating(s, t, id), t, id).metered == s.metered
  {
  }

  /** Confirming alone, whatever comes of it. */
  lemma ConfirmAlone(s: System, w: Core, t: Thread, id: string, now: Time)
    requires Mirrors(s, w) && SessionsOk(s) && At(s, t).Ready?
    ensures var s1 := Alone(s, t, ConfirmActions(w, id, now)); Mirrors(s1, S.Confirm(w, id, now).0) && At(s1, t).Ready?
  {
    hide Mirrors, SessionsOk, Alone, Act, Tail, Abandon, Closable, Berthable, Meterable, Confirming, Connect, Gated;
    hide Gating;
    MirroredState(s, w, id);
    if id !in w.conn.sessions || !w.conn.sessions[id].state.Verifying? {
      Last(s, t, Gate(id));
      GateNext(s, t, id);
    } else {
      ConnectingGrid(w, id, now);
      if Connecting(w, id, now).1.Some? {
        RefusedMirrors(s, w, t, id, now);
      } else {
        ConfirmingMirrors(s, w, t, id, now);
      }
    }
  }

  // Applying.

  lemma RefuseNext(s: System, t: Thread)
    requires At(s, t).Checked?
    ensures Act(s, t, Refuse) == Goto(s, t, Ready)
  {
    hide Work, Release, TryAllocate, HasLive, Remain;
  }

  lemma RefreshNext(s: System, t: Thread, req: Request, stale: bool, now: Time)
    requires At(s, t) == Checked(req) && Passes(req)
    ensures Act(s, t, Refresh(stale, now)) ==
            Goto(s, t, Refreshed(req)).(cap := if stale then Release(s.cap, req.berthID, now).0 else s.cap)
  {
    hide Work, Release, TryAllocate, HasLive, Remain, Passes;
  }

  lemma AllocateNext(s: System, t: Thread, req: Request, now: Time)
    requires At(s, t) == Refreshed(req)
    ensures var (cap, r) := TryAllocate(s.cap, req.berthID, req.vessel, req.needKVA, Remain(s.cap), now);
            Act(s, t, I.Allocating(now)) == Goto(s, t, if r.Ok? then Granted(req) else Ready).(cap := cap)
  {
    hide Work, Release, TryAllocate, HasLive, Remain;
  }

  lemma MarkNext(s: System, t: Thread, req: Request)
    requires At(s, t) == Granted(req)
    ensures Act(s, t, Marking(true)) == Goto(s, t, Marked(req))
  {
    hide Work, Release, TryAllocate, HasLive, Remain;
  }

  /** The sections of an Apply, by how far it gets. */
  ghost function ApplyActions(w: Core, req: Request, now: Time): seq<Action> {
    if Answered(w.conn, req) then [Look(req)]
    else if Refusal(w.tbl.rows, req).Some? then [Look(req)] + [Refuse]
    else if Allocate(w.tbl.rows, w.cap, req.berthID, req.vessel, req.needKVA, now).1.Err?
    then [Look(req)] + ([Refresh(true, now)] + [I.Allocating(now)])
    else [Look(req)] + ([Refresh(true, now)] + ([I.Allocating(now)] + ([Marking(true)] + [Register])))
  }

  /** What Allocate comes to for a request that passed the checks. */
  lemma AllocateSections(w: Core, req: Request, now: Time)
    requires Refusal(w.tbl.rows, req).None?
    ensures req.needKVA > 0.0
    ensures var c := Release(w.cap, req.berthID, now).0;
            Allocate(w.tbl.rows, w.cap, req.berthID, req.vessel, req.needKVA, now) ==
            TryAllocate(c, req.berthID, req.vessel, req.needKVA, Remain(c), now)
    ensures MarkAllocating(w.tbl, req.berthID).1.None?
  {
    hide Release, TryAllocate, Remain;
  }

  lemma ReachesAllocation(s: System, t: Thread, req: Request, now: Time, rest: seq<Action>)
    requires At(s, t).Ready? && (req.requestID == "" || !HasLive(s, req.requestID))
    requires Passes(req)
    ensures var c := Release(s.cap, req.berthID, now).0;
            var (cap, r) := TryAllocate(c, req.berthID, req.vessel, req.needKVA, Remain(c), now);
            Alone(s, t, [Look(req)] + ([Refresh(true, now)] + ([I.Allocating(now)] + rest))) ==
            Alone(Goto(s, t, if r.Ok? then Granted(req) else Ready).(cap := cap), t, rest)
  {
    hide Alone, Act, Release, TryAllocate, Remain, HasLive, Passes;
    var s1 := Goto(s, t, Checked(req));
    var s2 := Goto(s1, t, Refreshed(req)).(cap := Release(s.cap, req.berthID, now).0);
    LookNext(s, t, req);
    Then(s, t, Look(req), [Refresh(true, now)] + ([I.Allocating(now)] + rest));
    RefreshNext(s1, t, req, true, now);
    Then(s1, t, Refresh(true, now), [I.Allocating(now)] + rest);
    AllocateNext(s2, t, req, now);
    Then(s2, t, I.Allocating(now), rest);
    var (cap, r) := TryAllocate(s2.cap, req.berthID, req.vessel, req.needKVA, Remain(s2.cap), now);
    Overtaken(s1, t, Refreshed(req), if r.Ok? then Granted(req) else Ready);
    Overtaken(s, t, Checked(req), if r.Ok? then Granted(req) else Ready);
    assert Act(s2, t, I.Allocating(now)) == Goto(s, t, if r.Ok? then Granted(req) else Ready).(cap := cap);
  }

  lemma RegisterAlone(s: System, t: Thread, req: Request)
    requires At(s, t) == Granted(req)
    ensures Alone(s, t, [Marking(true)] + [Register]) == Registering(Goto(s, t, Marked(req)), t, req)
  {
    hide Alone, Act, Registering;
    Then(s, t, Marking(true), [Register]);
    MarkNext(s, t, req);
    Last(Goto(s, t, Marked(req)), t, Register);
    RegisterNext(Goto(s, t, Marked(req)), t, req);
  }

  /** Applying alone: answered, refused, short of capacity, or registered; sessions, books and
      executions are those of the sequential call. */
  lemma ApplyAlone(s: System, w: Core, t: Thread, req: Request, now: Time)
    requires Mirrors(s, w) && NulFreeIds(w.tbl.rows) && At(s, t).Ready?
    ensures var s1 := Alone(s, t, ApplyActions(w, req, now)); Mirrors(s1, S.Apply(w, req, now).0) && At(s1, t).Ready?
  {
    hide Alone, Act, Shows, Release, TryAllocate, Remain, HasLive, FindLive, Refusal, Allocate, Registered;
    hide Registering, MarkAllocating;
    LiveShown(s, w.conn, req.requestID);
    LookNext(s, t, req);
    Last(s, t, Look(req));
    Then(s, t, Look(req), [Refuse]);
    var s1 := Goto(s, t, Checked(req));
    Last(s1, t, Refuse);
    if Answered(w.conn, req) {
      assert S.Apply(w, req, now).0 == w && Act(s, t, Look(req)) == s;
    } else if Refusal(w.tbl.rows, req).Some? {
      RefuseNext(s1, t);
      SameShown(s, Goto(s1, t, Ready), w.conn);
      assert S.Apply(w, req, now).0 == w;
      assert Alone(s, t, [Look(req)] + [Refuse]) == Goto(s1, t, Ready);
    } else {
      AllocatedAlone(s, w, t, req, now);
    }
  }

  lemma KnownBerth(rows: Rows, req: Request)
    requires NulFreeIds(rows) && Refusal(rows, req).None?
    ensures Passes(req)
  {
  }

  lemma AllocatedAlone(s: System, w: Core, t: Thread, req: Request, now: Time)
    requires Mirrors(s, w) && NulFreeIds(w.tbl.rows) && At(s, t).Ready?
    requires !Answered(w.conn, req) && Refusal(w.tbl.rows, req).None?
    ensures var s1 := Alone(s, t, ApplyActions(w, req, now)); Mirrors(s1, S.Apply(w, req, now).0) && At(s1, t).Ready?
  {
    hide Alone, Mirrors, Release, TryAllocate, Remain, HasLive, FindLive, Refusal, Allocate, Passes, NulFreeIds;
    KnownBerth(w.tbl.rows, req);
    AllocateSections(w, req, now);
    Unanswered(s, w, req);
    var (cap, r) := Allocate(w.tbl.rows, w.cap, req.berthID, req.vessel, req.needKVA, now);
    if r.Err? {
      ReachesAllocation(s, t, req, now, []);
      assert [I.Allocating(now)] + [] == [I.Allocating(now)];
      NoMore(Goto(s, t, Ready).(cap := cap), t);
      ShortMirrors(s, w, t, cap);
    } else {
      ReachesAllocation(s, t, req, now, [Marking(true)] + [Register]);
      RegisterAlone(Goto(s, t, Granted(req)).(cap := cap), t, req);
      TakenMirrors(s, w, t, req, cap, r.value, now);
    }
  }

  lemma Unanswered(s: System, w: Core, req: Request)
    requires Mirrors(s, w) && !Answered(w.conn, req)
    ensures (req.requestID == "" || !HasLive(s, req.requestID)) && s.cap == w.cap
  {
    hide HasLive, FindLive, Shows;
    LiveShown(s, w.conn, req.requestID);
  }

  lemma ShortMirrors(s: System, w: Core, t: Thread, cap: Cap)
    requires Mirrors(s, w)
    ensures Mirrors(Goto(s, t, Ready).(cap := cap), w.(cap := cap))
  {
    hide Shows;
    SameShown(s, Goto(s, t, Ready).(cap := cap), w.conn);
  }

  lemma TakenMirrors(s: System, w: Core, t: Thread, req: Request, cap: Cap, a: Allocation, now: Time)
    requires Mirrors(s, w)
    ensures var s1 := Goto(Goto(s, t, Granted(req)).(cap := cap), t, Marked(req));
            var (tbl, conn) := (MarkAllocating(w.tbl, req.berthID).0, Registered(w.conn, req, a, now));
            var w1 := w.(tbl := tbl, cap := cap, conn := conn);
            Mirrors(Registering(s1, t, req), w1) && At(Registering(s1, t, req), t).Ready?
  {
    hide Shows, SessionID, Registered, MarkAllocating;
    var s1 := Goto(Goto(s, t, Granted(req)).(cap := cap), t, Marked(req));
    SameShown(s, s1, w.conn);
    ShowsRegistered(s1, w.conn, t, req, a, now);
  }

  lemma NoMore(s: System, t: Thread)
    ensures Alone(s, t, []) == s
  {
  }

  // Dispatching.

  lemma AloneSafe(s: System, t: Thread, acts: seq<Action>)
    requires Inv(s)
    ensures Inv(Alone(s, t, acts))
    decreases |acts|
  {
    hide Inv, Act;
    if acts != [] {
      ActSafe(s, t, acts[0]);
      AloneSafe(Act(s, t, acts[0]), t, acts[1..]);
    }
  }

  function ConfirmAllActions(w: Core, order: seq<string>, now: Time): seq<Action> {
    if order == [] then []
    else
      var init := order[..|order| - 1];
      ConfirmAllActions(w, init, now) + ConfirmActions(ConfirmAll(w, init, now).0, order[|order| - 1], now)
  }

  lemma {:induction false} ConfirmAllAlone(s: System, w: Core, t: Thread, order: seq<string>, now: Time)
    requires Mirrors(s, w) && Inv(s) && At(s, t).Ready?
    ensures var s1 := Alone(s, t, ConfirmAllActions(w, order, now));
            Mirrors(s1, ConfirmAll(w, order, now).0) && At(s1, t).Ready? && Inv(s1)
  {
    hide Mirrors, Inv, Alone, ConfirmActions, S.Confirm;
    if order == [] {
      NoMore(s, t);
    } else {
      var init := order[..|order| - 1];
      var (s1, w1) := (Alone(s, t, ConfirmAllActions(w, init, now)), ConfirmAll(w, init, now).0);
      ConfirmAllAlone(s, w, t, init, now);
      SessionsPart(s1);
      ConfirmAlone(s1, w1, t, order[|order| - 1], now);
      AloneSafe(s1, t, ConfirmActions(w1, order[|order| - 1], now));
      AloneJoin(s, t, ConfirmAllActions(w, init, now), ConfirmActions(w1, order[|order| - 1], now));
    }
  }

  /** Draining the command queue counts at most one closing. */
  function DrainActions(g: Grid): seq<Action> {
    if Drain(g).1 > 0 then [CommandCloses] else []
  }

  lemma DrainAlone(s: System, w: Core, t: Thread)
    requires Mirrors(s, w) && At(s, t).Ready?
    ensures var s1 := Alone(s, t, DrainActions(w.grid)); Mirrors(s1, w.(grid := Drain(w.grid).0)) && At(s1, t).Ready?
  {
    hide Alone, Shows;
    if Drain(w.grid).1 > 0 {
      Last(s, t, CommandCloses);
      SameShown(s, Act(s, t, CommandCloses), w.conn);
    } else {
      NoMore(s, t);
    }
  }

  function DispatchActions(w: Core, order: seq<string>, now: Time): seq<Action> {
    var (w1, n) := ConfirmAll(w, order, now);
    ConfirmAllActions(w, order, now) + (if n > 0 then DrainActions(w1.grid) else [])
  }

  /** A dispatch pass alone, over any order. */
  lemma DispatchAlone(s: System, w: Core, t: Thread, order: seq<string>, now: Time)
    requires Mirrors(s, w) && Inv(s) && At(s, t).Ready?
    ensures var s1 := Alone(s, t, DispatchActions(w, order, now));
            Mirrors(s1, S.AutoDispatch(w, order, now).0) && At(s1, t).Ready?
  {
    hide Mirrors, Inv, Alone, ConfirmAll, ConfirmAllActions, DrainActions, Drain;
    var (w1, n) := ConfirmAll(w, order, now);
    var s1 := Alone(s, t, ConfirmAllActions(w, order, now));
    ConfirmAllAlone(s, w, t, order, now);
    AloneJoin(s, t, ConfirmAllActions(w, order, now), if n > 0 then DrainActions(w1.grid) else []);
    if n > 0 {
      DrainAlone(s1, w1, t);
    } else {
      NoMore(s1, t);
    }
  }

  // Overlapping calls.

  lemma {:induction false} InterleavedJoin(s: System, a: seq<Turn>, b: seq<Turn>)
    ensures Interleaved(s, a + b) == Interleaved(Interleaved(s, a), b)
  {
    hide Act;
    if b == [] {
      assert a + b == a;
    } else {
      InterleavedJoin(s, a, b[..|b| - 1]);
      assert (a + b)[..|a + b| - 1] == a + b[..|b| - 1];
    }
  }
}
