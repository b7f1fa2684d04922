/** What overlapping calls can do that calls one after the other cannot: runs of critical sections in which
    a request gets two live sessions, is executed twice, or loses the session that was executed. */
module Races {
  import opened Prelude
  import opened CapacityBook
  import opened GridState
  import opened Sessions
  import opened AtMostOnce
  import opened Ownership
  import opened Interleaving
  import opened Overlap
  import opened Duplicates
  import I = Interleaving

  // Taking a request on.

  /** What an Apply past its check does when it finds room. */
  function Claiming(): seq<Action> {
    [Refresh(false, 0)] + ([I.Allocating(0)] + ([Marking(true)] + [Register]))
  }

  /** One more session, and its capacity held. */
  ghost predicate TakenOn(s: System, s1: System, t: Thread, req: Request) {
    && s1.sessions == s.sessions[SessionID(s.number + 1) := Track(req.requestID, req.berthID, req.vessel, Verifying)]
    && s1.number == s.number + 1 && s1.executed == s.executed && s1.metered == s.metered && s1.finished == s.finished
    && s1.cap.shore == s.cap.shore && s1.cap.used == s.cap.used[req.berthID := req.needKVA]
    && s1.cap.allocs.Keys == s.cap.allocs.Keys + {req.berthID}
    && At(s1, t).Ready? && forall u :: u != t ==> At(s1, u) == At(s, u)
  }

  /** Once past its check an Apply that finds room registers a session, whatever has happened since. */
  lemma CheckedRegisters(s: System, t: Thread, req: Request)
    requires At(s, t) == Checked(req) && Passes(req)
    requires req.needKVA <= Remain(s.cap) && req.berthID !in s.cap.allocs
    ensures TakenOn(s, Alone(s, t, Claiming()), t, req)
  {
    hide Alone, Act, Remain, AllocID, SessionID, Opened, Release, NulFree, ValidPhase;
    var s1 := Goto(s, t, Refreshed(req));
    RefreshNext(s, t, req, false, 0);
    Then(s, t, Refresh(false, 0), [I.Allocating(0)] + ([Marking(true)] + [Register]));
    AllocateNext(s1, t, req, 0);
    Then(s1, t, I.Allocating(0), [Marking(true)] + [Register]);
    var s2 := Goto(s1, t, Granted(req)).(cap := WithClaim(s.cap, Granting(req, 0)));
    RegisterAlone(s2, t, req);
  }

  /** A whole Apply that finds room. */
  function Applying(req: Request): seq<Action> {
    [Look(req)] + Claiming()
  }

  lemma AppliedAlone(s: System, t: Thread, req: Request)
    requires At(s, t).Ready? && (req.requestID == "" || !HasLive(s, req.requestID)) && Passes(req)
    requires req.needKVA <= Remain(s.cap) && req.berthID !in s.cap.allocs
    ensures TakenOn(s, Interleaved(s, By(t, Applying(req))), t, req)
  {
    hide Alone, Act, Remain, SessionID, Passes, HasLive, Interleaved, By, Claiming;
    AloneTurns(s, t, Applying(req));
    Then(s, t, Look(req), Claiming());
    LookNext(s, t, req);
    CheckedRegisters(Goto(s, t, Checked(req)), t, req);
  }

  // Two live sessions.

  /** Two calls for one request: both look before either registers. */
  function Overlapping(a: Request, b: Request): seq<Turn> {
    [Turn(0, Look(a)), Turn(1, Look(b))] + By(0, Claiming()) + By(1, Claiming())
  }

  ghost predicate Rivals(a: Request, b: Request, shore: real) {
    && a.requestID == b.requestID && a.berthID != b.berthID && Passes(a) && Passes(b)
    && a.needKVA + b.needKVA <= shore
  }

  /** At this granularity one request can have two live sessions at once, on any two berths with room. */
  lemma DuplicateRequest(a: Request, b: Request, shore: real)
    requires Rivals(a, b, shore)
    ensures var s := Interleaved(Start(shore), Overlapping(a, b));
            && SessionID(1) != SessionID(2)
            && s.sessions == map[SessionID(1) := Track(a.requestID, a.berthID, a.vessel, Verifying),
                                 SessionID(2) := Track(b.requestID, b.berthID, b.vessel, Verifying)]
            && s.executed == map[] && s.metered == map[] && forall t :: At(s, t).Ready?
  {
    hide SessionID, Claiming, By, Alone, Interleaved, NulFree, ValidPhase, Total;
    var s0 := Start(shore);
    var looked := [Turn(0, Look(a)), Turn(1, Look(b))];
    InterleavedJoin(s0, looked + By(0, Claiming()), By(1, Claiming()));
    InterleavedJoin(s0, looked, By(0, Claiming()));
    BothLook(a, b, shore);
    var s1 := Interleaved(s0, looked);
    AloneTurns(s1, 0, Claiming());
    CheckedRegisters(s1, 0, a);
    var s2 := Interleaved(s1, By(0, Claiming()));
    TotalAdd(map[], a.berthID, a.needKVA);
    assert s2.cap.used == map[a.berthID := a.needKVA];
    AloneTurns(s2, 1, Claiming());
    CheckedRegisters(s2, 1, b);
    if SessionID(1) == SessionID(2) {
      SessionIDInjective(1, 2);
    }
  }

  lemma BothLook(a: Request, b: Request, shore: real)
    ensures var s := Interleaved(Start(shore), [Turn(0, Look(a)), Turn(1, Look(b))]);
            && At(s, 0) == Checked(a) && At(s, 1) == Checked(b) && (forall t :: t != 0 && t != 1 ==> At(s, t).Ready?)
            && s.sessions == map[] && s.number == 0 && s.executed == map[] && s.metered == map[]
            && s.cap == Fresh(shore) && Remain(s.cap) == shore
  {
    hide Release, TryAllocate, Work, Passes;
    var ts := [Turn(0, Look(a)), Turn(1, Look(b))];
    assert ts[..1] == [Turn(0, Look(a))] && ts[..1][..0] == [];
    assert Interleaved(Start(shore), ts[..1][..0]) == Start(shore);
    var s1 := Interleaved(Start(shore), ts[..1]);
    assert ts[..1][0] == Turn(0, Look(a));
    assert s1 == Act(Start(shore), 0, Look(a));
    assert Interleaved(Start(shore), ts) == Act(s1, 1, Look(b));
    assert !HasLive(Start(shore), a.requestID) && !HasLive(s1, b.requestID);
  }

  // Two executions.

  /** A confirmation that is not refused, in terms of the shared state. */
  lemma ConfirmingFields(s: System, t: Thread, id: string)
    requires SessionsOk(s) && At(s, t).Ready? && id in s.sessions && s.sessions[id].state.Verifying? && Takes(s, id)
    ensures var s1 := Alone(s, t, Confirming(id));
            var r := s.sessions[id].requestID;
            && s1.sessions == s.sessions[id := s.sessions[id].(state := Connected)] && s1.pending == s.pending - {id}
            && s1.executed == s.executed[r := ExecutionsOf(s, r) + 1]
            && s1.finished == s.finished + {id} && s1.execs == s.execs + 1
            && s1.metered == s.metered[s.sessions[id].vessel := id] && s1.number == s.number && s1.cap == s.cap
            && At(s1, t).Ready? && forall u :: u != t ==> At(s1, u) == At(s, u)
  {
    hide Alone, Confirming, IDs, Takes;
    Decided(s, id);
    ConfirmingEnds(s, t, id);
  }

  /** The same steps for a vessel the meter already has: the confirmation stops before it finishes. */
  lemma ConfirmingStops(s: System, t: Thread, id: string)
    requires At(s, t).Ready? && id in s.sessions && s.sessions[id].state.Verifying? && !Takes(s, id)
    ensures Alone(s, t, Confirming(id)).executed == s.executed
  {
    hide Alone, Act, Takes, Running, GridOn;
    var s3 := Goto(GridOn(s, t, id), t, Failing(id));
    ReachesMeter(s, t, id, [Finish] + [Signal]);
    Then(s3, t, Finish, [Signal]);
    Last(s3, t, Signal);
    SignalNext(s3, t);
    Idle(s3, t, id);
    GridOnCounts(s, t, id);
  }

  lemma Idle(s: System, t: Thread, id: string)
    requires At(s, t) == Failing(id)
    ensures Act(s, t, Finish) == s
  {
    hide Move;
  }

  lemma GridOnCounts(s: System, t: Thread, id: string)
    ensures GridOn(s, t, id).executed == s.executed
  {
  }

  /** If both sessions are confirmed, the grid having been separated in between, the request is executed
      twice, unless both calls named one vessel: the meter takes that only once. */
  lemma DoubleExecution(a: Request, b: Request, shore: real)
    requires Rivals(a, b, shore)
    ensures var turns := Overlapping(a, b) + By(7, Confirming(SessionID(1))) + By(8, Confirming(SessionID(2)));
            ExecutionsOf(Interleaved(Start(shore), turns), a.requestID) == if a.vessel == b.vessel then 1 else 2
  {
    hide SessionID, Confirming, By, Overlapping, Interleaved, NulFree, ValidPhase, Total, Inv;
    var s0 := Start(shore);
    var (one, two) := (By(7, Confirming(SessionID(1))), By(8, Confirming(SessionID(2))));
    DuplicateRequest(a, b, shore);
    InterleavedJoin(s0, Overlapping(a, b) + one, two);
    InterleavedJoin(s0, Overlapping(a, b), one);
    var s1 := Interleaved(s0, Overlapping(a, b));
    InterleavedSafe(shore, Overlapping(a, b));
    SessionsPart(s1);
    AloneTurns(s1, 7, Confirming(SessionID(1)));
    ConfirmingFields(s1, 7, SessionID(1));
    var s2 := Interleaved(s1, one);
    InterleavedSafe(shore, Overlapping(a, b) + one);
    SessionsPart(s2);
    AloneTurns(s2, 8, Confirming(SessionID(2)));
    if a.vessel == b.vessel {
      ConfirmingStops(s2, 8, SessionID(2));
    } else {
      ConfirmingFields(s2, 8, SessionID(2));
    }
  }

  // Late timers.

  /** A wait that begins, a confirmation by another thread, and then the timer. */
  function LateTimer(t: Thread, u: Thread, id: string): seq<Turn> {
    By(t, [I.Wait(id)]) + By(u, Confirming(id)) + By(t, [Expire] + [Lapse])
  }

  /** The timer may fire after the session has been connected, and then turns it into a lapsed one: the
      request counts as executed but has no connected session. No run of sequential calls ends so. The
      vessel must not have been metered before, or the confirmation would have failed. */
  lemma LateTimerLapses(s: System, c: Conn, t: Thread, u: Thread, id: string)
    requires Inv(s) && Shows(s, c) && OnceInv(c) && t != u && At(s, t).Ready? && At(s, u).Ready?
    requires id in c.sessions && c.sessions[id].state.Verifying? && Takes(s, id)
    ensures var s1 := Interleaved(s, LateTimer(t, u, id));
            var c1 := Closed(Finished(Gated(c, id), id), id, Lapsed, WaitExpired);
            Shows(s1, c1) && !OnceInv(c1) && id in s1.finished && c1.sessions[id].state.Lapsed?
  {
    hide Inv, Shows, OnceInv, Interleaved, By, Alone, Act, Confirming, Gated, Finished, Gating, Closing, Takes;
    GatedKeys(c, id);
    var c0 := Finished(Gated(c, id), id);
    ShownState(s, c, id);
    SessionsPart(s);
    LateTimerFields(s, t, u, id);
    ConnectedNow(c, id);
    FinishedOnce(c, id);
    LateTimeout(c0, id);
    LapsedShown(s, Interleaved(s, LateTimer(t, u, id)), c, id);
  }

  lemma ConnectedNow(c: Conn, id: string)
    requires id in c.sessions
    ensures id in Finished(Gated(c, id), id).sessions && Finished(Gated(c, id), id).sessions[id].state.Connected?
  {
  }

  lemma LapsedShown(s: System, s1: System, c: Conn, id: string)
    requires Shows(s, c) && id in c.sessions && id in s.sessions
    requires s1.sessions == s.sessions[id := s.sessions[id].(state := Lapsed)] && s1.pending == s.pending - {id}
    requires var r := s.sessions[id].requestID; s1.executed == s.executed[r := ExecutionsOf(s, r) + 1]
    requires s1.number == s.number
    ensures Shows(s1, Closed(Finished(Gated(c, id), id), id, Lapsed, WaitExpired))
  {
  }

  /** The same in terms of the shared state. */
  lemma LateTimerFields(s: System, t: Thread, u: Thread, id: string)
    requires SessionsOk(s) && t != u && At(s, t).Ready? && At(s, u).Ready?
    requires id in s.sessions && s.sessions[id].state.Verifying? && Takes(s, id)
    ensures var s1 := Interleaved(s, LateTimer(t, u, id));
            var r := s.sessions[id].requestID;
            && s1.sessions == s.sessions[id := s.sessions[id].(state := Lapsed)] && s1.pending == s.pending - {id}
            && s1.executed == s.executed[r := ExecutionsOf(s, r) + 1] && s1.finished == s.finished + {id}
            && s1.metered == s.metered[s.sessions[id].vessel := id] && s1.number == s.number && s1.cap == s.cap
            && forall v :: v != t ==> At(s1, v) == At(s, v)
  {
    hide SessionsOk, Interleaved, By, Confirming, ExecutionsOf, Takes, Goto, Ended;
    InterleavedJoin(s, By(t, [I.Wait(id)]) + By(u, Confirming(id)), By(t, [Expire] + [Lapse]));
    InterleavedJoin(s, By(t, [I.Wait(id)]), By(u, Confirming(id)));
    Decided(s, id);
    WaitBegins(s, t, id);
    var s1 := Interleaved(s, By(t, [I.Wait(id)]));
    GotoAside(s, t, Waiting(id, Some(s.pending[id])));
    SessionsOnly(s, s1);
    SameTakes(s, s1, id);
    SameExecutions(s, s1, s.sessions[id].requestID);
    AloneTurns(s1, u, Confirming(id));
    ConfirmingFields(s1, u, id);
    var s2 := Interleaved(s1, By(u, Confirming(id)));
    TimerFires(s2, t, id);
    LapsedFields(s2, t, id);
    var lapsed := s.sessions[id].(state := Lapsed);
    assert s2.sessions[id := lapsed] == s.sessions[id := lapsed];
  }

  lemma SameTakes(s: System, s1: System, id: string)
    requires s1.sessions == s.sessions && s1.metered == s.metered
    ensures Takes(s1, id) <==> Takes(s, id)
  {
  }

  lemma SameExecutions(s: System, s1: System, r: string)
    requires s1.executed == s.executed
    ensures ExecutionsOf(s1, r) == ExecutionsOf(s, r)
  {
  }

  lemma GotoAside(s: System, t: Thread, p: Position)
    ensures var s1 := Goto(s, t, p);
            s1 == s.(threads := s1.threads) && At(s1, t) == p && forall u :: u != t ==> At(s1, u) == At(s, u)
  {
  }

  lemma WaitBegins(s: System, t: Thread, id: string)
    requires At(s, t).Ready? && id in s.sessions && s.sessions[id].state.Verifying?
    ensures var ch := if id in s.pending then Some(s.pending[id]) else None;
            Interleaved(s, By(t, [I.Wait(id)])) == Goto(s, t, Waiting(id, ch))
  {
    hide Interleaved, By, Alone, Act;
    AloneTurns(s, t, [I.Wait(id)]);
    Last(s, t, I.Wait(id));
    WaitNext(s, t, id);
  }

  lemma TimerFires(s: System, t: Thread, id: string)
    requires At(s, t).Waiting? && At(s, t).id == id
    ensures Interleaved(s, By(t, [Expire] + [Lapse])) == Ended(Goto(s, t, Expiring(id)), t, id, Lapsed)
  {
    hide Interleaved, By, Alone, Act, Ended;
    AloneTurns(s, t, [Expire] + [Lapse]);
    Then(s, t, Expire, [Lapse]);
    ExpireNext(s, t);
    Last(Goto(s, t, Expiring(id)), t, Lapse);
    ExpireNext(Goto(s, t, Expiring(id)), t);
  }

  lemma LapsedFields(s: System, t: Thread, id: string)
    requires id in s.sessions
    ensures var s1 := Ended(Goto(s, t, Expiring(id)), t, id, Lapsed);
            && s1 == s.(sessions := s1.sessions, pending := s1.pending, threads := s1.threads)
            && s1.sessions == s.sessions[id := s.sessions[id].(state := Lapsed)] && s1.pending == s.pending - {id}
            && forall u :: u != t ==> At(s1, u) == At(s, u)
  {
  }

  // Sessions that are ended and replaced behind a call's back.

  /** A whole Cancel. */
  function Cancelling(id: string): seq<Action> {
    [CancelCall(id)] + Tail(0)
  }

  lemma CancelledFields(s: System, t: Thread, id: string)
    requires At(s, t).Ready? && id in s.sessions && !s.sessions[id].state.Connected?
    ensures var s1 := Interleaved(s, By(t, Cancelling(id)));
            && (id in s.pending ==> s1.closed == s.closed + multiset{s.pending[id]})
            && s1.sessions == s.sessions[id := s.sessions[id].(state := Cancelled)]
            && s1.number == s.number && s1.executed == s.executed && s1.metered == s.metered
            && s1.finished == s.finished && s1.cap == Release(s.cap, s.sessions[id].berthID, 0).0
            && At(s1, t).Ready? && forall u :: u != t ==> At(s1, u) == At(s, u)
  {
    hide Interleaved, By, Alone, Act, Tail, Release;
    AloneTurns(s, t, Cancelling(id));
    Then(s, t, CancelCall(id), Tail(0));
    CancelNext(s, t, id);
    TailEnds(Ended(s, t, id, Cancelled), t, 0);
  }

  /** A wait reports success as soon as its channel is closed, which a cancel does, too. */
  lemma WokenByCancel(s: System, t: Thread, u: Thread, id: string)
    requires SessionsOk(s) && t != u && At(s, t).Ready? && At(s, u).Ready?
    requires id in s.sessions && s.sessions[id].state.Verifying?
    ensures var s1 := Interleaved(s, By(t, [I.Wait(id)]) + By(u, Cancelling(id)));
            var s2 := Act(s1, t, Wake);
            && At(s1, t).Waiting? && At(s1, t).id == id && At(s2, t).Ready?
            && id in s2.sessions && s2.sessions[id].state.Cancelled?
  {
    hide SessionsOk, Interleaved, By, Cancelling, Act, Goto, Release;
    InterleavedJoin(s, By(t, [I.Wait(id)]), By(u, Cancelling(id)));
    Decided(s, id);
    WaitBegins(s, t, id);
    var s0 := Goto(s, t, Waiting(id, Some(s.pending[id])));
    GotoAside(s, t, Waiting(id, Some(s.pending[id])));
    CancelledFields(s0, u, id);
    var s1 := Interleaved(s0, By(u, Cancelling(id)));
    WakeNext(s1, t);
    GotoAside(s1, t, Ready);
  }

  /** One session, which holds its capacity and nothing else is held. */
  ghost predicate OnlySession(s: System, req: Request, st: SState) {
    && s.sessions == map[SessionID(1) := Track(req.requestID, req.berthID, req.vessel, st)] && s.number == 1
    && s.cap.used == map[req.berthID := req.needKVA] && s.cap.allocs.Keys == {req.berthID}
  }

  lemma FirstApplied(req: Request, shore: real)
    requires Passes(req) && req.needKVA <= shore
    ensures var s := Interleaved(Start(shore), By(0, Applying(req)));
            && OnlySession(s, req, Verifying) && s.executed == map[] && s.metered == map[] && s.cap.shore == shore
            && forall t :: At(s, t).Ready?
  {
    hide Interleaved, By, Applying, Passes, SessionID;
    assert !HasLive(Start(shore), req.requestID);
    AppliedAlone(Start(shore), 0, req);
  }

  lemma ReleasedRoom(c: Cap, b: string, kva: real)
    requires c.used == map[b := kva] && c.allocs.Keys == {b}
    ensures var c1 := Release(c, b, 0).0; c1.allocs == map[] && Remain(c1) == c.shore && c1.shore == c.shore
  {
    hide CloseFirst, Fingerprint;
    assert c.used - {b} == map[];
  }

  /** Cancel, and apply for the request again. */
  function Replacing(req: Request): seq<Turn> {
    By(2, Cancelling(SessionID(1))) + By(3, Applying(req))
  }

  lemma Replaced(s: System, a: Request, b: Request, st: SState)
    requires OnlySession(s, a, st) && !st.Connected? && At(s, 2).Ready? && At(s, 3).Ready?
    requires a.requestID == b.requestID && Passes(b) && b.needKVA <= s.cap.shore
    ensures var s1 := Interleaved(s, Replacing(b));
            && SessionID(1) != SessionID(2)
            && s1.sessions == map[SessionID(1) := Track(a.requestID, a.berthID, a.vessel, Cancelled),
                                  SessionID(2) := Track(b.requestID, b.berthID, b.vessel, Verifying)]
            && s1.executed == s.executed && s1.metered == s.metered && s1.finished == s.finished
            && forall u :: u != 2 && u != 3 ==> At(s1, u) == At(s, u)
  {
    hide Interleaved, By, Cancelling, Applying, Passes, SessionID, Release, Remain, HasLive;
    InterleavedJoin(s, By(2, Cancelling(SessionID(1))), By(3, Applying(b)));
    CancelledFields(s, 2, SessionID(1));
    ReleasedRoom(s.cap, a.berthID, a.needKVA);
    var s1 := Interleaved(s, By(2, Cancelling(SessionID(1))));
    NoneLive(s1, a);
    AppliedAlone(s1, 3, b);
    if SessionID(1) == SessionID(2) {
      SessionIDInjective(1, 2);
    }
  }

  lemma NoneLive(s: System, a: Request)
    requires s.sessions == map[SessionID(1) := Track(a.requestID, a.berthID, a.vessel, Cancelled)]
    ensures !HasLive(s, a.requestID)
  {
    hide SessionID;
  }

  /** One live session, and reviving the first makes it two. */
  lemma Revival(s: System, s1: System, a: Request, st: SState)
    requires SessionID(1) != SessionID(2) && a.requestID != "" && Alive(st)
    requires s.sessions == map[SessionID(1) := Track(a.requestID, a.berthID, a.vessel, Cancelled),
                               SessionID(2) := Track(a.requestID, a.berthID, a.vessel, Verifying)]
    requires s1.sessions == s.sessions[SessionID(1) := s.sessions[SessionID(1)].(state := st)]
    ensures OneLive(s) && !OneLive(s1)
  {
    hide SessionID;
    assert LiveIn(s1, SessionID(1), a.requestID) && LiveIn(s1, SessionID(2), a.requestID);
  }

  /** A confirmation up to the meter's answer. */
  function Metering(id: string): seq<Action> {
    [Gate(id)] + ([CloseGrid(true)] + ([Occupy(true)] + ([StartMeter] + [])))
  }

  lemma MeteringAlone(s: System, t: Thread, id: string)
    requires At(s, t).Ready? && id in s.sessions && s.sessions[id].state.Verifying? && Takes(s, id)
    ensures var s1 := Interleaved(s, By(t, Metering(id)));
            && s1.sessions == s.sessions[id := s.sessions[id].(state := Connecting)]
            && s1.number == s.number && s1.cap == s.cap && At(s1, t) == I.Occupied(id)
            && forall u :: u != t ==> At(s1, u) == At(s, u)
  {
    hide Interleaved, By, Alone, Takes;
    AloneTurns(s, t, Metering(id));
    ReachesMeter(s, t, id, []);
    NoMore(Running(s, t, id), t);
  }

  /** A confirmation finishes although its session was cancelled and its request applied for again
      meanwhile: the cancelled session comes back beside the new one. */
  lemma FinishRevives(req: Request, shore: real)
    requires Passes(req) && req.requestID != "" && req.needKVA <= shore
    ensures var turns := By(0, Applying(req)) + By(1, Metering(SessionID(1))) + Replacing(req);
            var s := Interleaved(Start(shore), turns);
            OneLive(s) && !OneLive(Act(s, 1, Finish))
  {
    hide Interleaved, By, Applying, Metering, Replacing, Act, SessionID, Passes, OneLive;
    var s0, id := Start(shore), SessionID(1);
    InterleavedJoin(s0, By(0, Applying(req)) + By(1, Metering(id)), Replacing(req));
    InterleavedJoin(s0, By(0, Applying(req)), By(1, Metering(id)));
    FirstApplied(req, shore);
    var s1 := Interleaved(s0, By(0, Applying(req)));
    Named(req);
    MeteringAlone(s1, 1, id);
    var s2 := Interleaved(s1, By(1, Metering(id)));
    Replaced(s2, req, req, Connecting);
    var s := Interleaved(s2, Replacing(req));
    FinishedSession(s, 1, id);
    Revival(s, Act(s, 1, Finish), req, Connected);
  }

  lemma Named(req: Request)
    requires Passes(req)
    ensures req.vessel != "" && req.berthID != ""
  {
  }

  lemma FinishedSession(s: System, t: Thread, id: string)
    requires At(s, t) == I.Occupied(id) && id in s.sessions
    ensures Act(s, t, Finish).sessions == s.sessions[id := s.sessions[id].(state := Connected)]
  {
    hide Move;
  }

  /** So does a wait whose timer fires late. */
  lemma LapseRevives(req: Request, shore: real)
    requires Passes(req) && req.requestID != "" && req.needKVA <= shore
    ensures var turns := By(0, Applying(req)) + By(1, [I.Wait(SessionID(1))] + [Expire]) + Replacing(req);
            var s := Interleaved(Start(shore), turns);
            OneLive(s) && !OneLive(Act(s, 1, Lapse))
  {
    hide Interleaved, By, Applying, Replacing, Act, SessionID, Passes, OneLive, Goto, Ended;
    var s0, id := Start(shore), SessionID(1);
    var waits := [I.Wait(id)] + [Expire];
    InterleavedJoin(s0, By(0, Applying(req)) + By(1, waits), Replacing(req));
    InterleavedJoin(s0, By(0, Applying(req)), By(1, waits));
    FirstApplied(req, shore);
    var s1 := Interleaved(s0, By(0, Applying(req)));
    TimerSet(s1, 1, id);
    var s2 := Interleaved(s1, By(1, waits));
    GotoAside(s1, 1, Expiring(id));
    Replaced(s2, req, req, Verifying);
    var s := Interleaved(s2, Replacing(req));
    ExpireNext(s, 1);
    EndedSession(s, 1, id, Lapsed);
    Revival(s, Act(s, 1, Lapse), req, Lapsed);
  }

  lemma EndedSession(s: System, t: Thread, id: string, st: SState)
    requires id in s.sessions
    ensures Ended(s, t, id, st).sessions == s.sessions[id := s.sessions[id].(state := st)]
  {
  }

  lemma TimerSet(s: System, t: Thread, id: string)
    requires At(s, t).Ready? && id in s.sessions && s.sessions[id].state.Verifying?
    ensures Interleaved(s, By(t, [I.Wait(id)] + [Expire])) == Goto(s, t, Expiring(id))
  {
    hide Interleaved, By, Alone, Act;
    AloneTurns(s, t, [I.Wait(id)] + [Expire]);
    Then(s, t, I.Wait(id), [Expire]);
    WaitNext(s, t, id);
    var s1 := Act(s, t, I.Wait(id));
    Last(s1, t, Expire);
    ExpireNext(s1, t);
    Overtaken(s, t, At(s1, t), Expiring(id));
  }

  function Forgetting(a: Request, b: Request): seq<Turn> {
    By(0, Applying(a)) + LateTimer(1, 4, SessionID(1)) + Replacing(b)
  }

  lemma Forgotten(a: Request, b: Request, shore: real)
    requires a.requestID == b.requestID && Passes(a) && Passes(b) && a.needKVA <= shore && b.needKVA <= shore
    ensures var s := Interleaved(Start(shore), Forgetting(a, b));
            && SessionID(1) != SessionID(2) && SessionID(1) in s.finished && At(s, 5).Ready?
            && s.sessions == map[SessionID(1) := Track(a.requestID, a.berthID, a.vessel, Cancelled),
                                 SessionID(2) := Track(b.requestID, b.berthID, b.vessel, Verifying)]
            && s.executed == map[a.requestID := 1] && s.metered == map[a.vessel := SessionID(1)]
  {
    hide Interleaved, By, Applying, LateTimer, Replacing, SessionID, Passes, Inv, SessionsOk;
    var s0, id := Start(shore), SessionID(1);
    InterleavedJoin(s0, By(0, Applying(a)) + LateTimer(1, 4, id), Replacing(b));
    InterleavedJoin(s0, By(0, Applying(a)), LateTimer(1, 4, id));
    FirstApplied(a, shore);
    Named(a);
    var s1 := Interleaved(s0, By(0, Applying(a)));
    InterleavedSafe(shore, By(0, Applying(a)));
    SessionsPart(s1);
    LateTimerFields(s1, 1, 4, id);
    var s2 := Interleaved(s1, LateTimer(1, 4, id));
    Replaced(s2, a, b, Lapsed);
  }

  /** One live session of two, and whether the one that was executed is still alive. */
  lemma OneOfTwo(s: System, a: Request, b: Request, st: SState)
    requires SessionID(1) != SessionID(2)
    requires s.sessions == map[SessionID(1) := Track(a.requestID, a.berthID, a.vessel, Cancelled),
                               SessionID(2) := Track(b.requestID, b.berthID, b.vessel, st)]
    ensures OneLive(s) && (SessionID(1) in s.finished ==> !ExecutedLive(s))
  {
    hide SessionID;
  }

  /** A late timer and then a cancel: the session that was executed is forgotten, and the request can be
      executed again for another vessel. Before and after it has one live session. */
  lemma ForgottenExecution(a: Request, b: Request, shore: real)
    requires a.requestID == b.requestID && a.vessel != b.vessel && Passes(a) && Passes(b)
    requires a.needKVA <= shore && b.needKVA <= shore
    ensures var s := Interleaved(Start(shore), Forgetting(a, b));
            var s1 := Interleaved(Start(shore), Forgetting(a, b) + By(5, Confirming(SessionID(2))));
            OneLive(s) && !ExecutedLive(s) && OneLive(s1) && ExecutionsOf(s1, a.requestID) == 2
  {
    hide Interleaved, By, Forgetting, Confirming, SessionID, Passes, Inv, SessionsOk, OneLive, ExecutedLive;
    var id := SessionID(2);
    InterleavedJoin(Start(shore), Forgetting(a, b), By(5, Confirming(id)));
    Forgotten(a, b, shore);
    Named(b);
    var s := Interleaved(Start(shore), Forgetting(a, b));
    InterleavedSafe(shore, Forgetting(a, b));
    SessionsPart(s);
    AloneTurns(s, 5, Confirming(id));
    ConfirmingFields(s, 5, id);
    OneOfTwo(s, a, b, Verifying);
    OneOfTwo(Alone(s, 5, Confirming(id)), a, b, Connected);
  }
}
