/** Connection calls at the granularity of their critical sections: any number of threads, each section
    one step, in any order. What the grid and the berth store answer between two sections is left open;
    the allocator and the meter answer for themselves. */
module Interleaving {
  import opened Prelude
  import opened CapacityBook
  import opened GridState
  import opened Sessions
  import opened AtMostOnce

  type Channel = nat
  type Thread = nat

  datatype Track = Track(requestID: string, berthID: string, vessel: string, state: SState)

  /** Where a thread stands between two steps. */
  datatype Position =
    | Ready
    | Checked(req: Request)                                 // Apply found no live session
    | Refreshed(req: Request)                               // Allocate passed its tests
    | Granted(req: Request)                                 // capacity is held
    | Undoing(berthID: string)                              // the berth could not be marked
    | Marked(req: Request)                                  // capacity and berth are held
    | PastGate(id: string)                                  // ConfirmVerification, before the grid closes
    | GridClosed(id: string)                                // and after it
    | Berthed(id: string)                                   // the berth is settled, the meter is next
    | Occupied(id: string)                                  // the vessel is metered
    | Failing(id: string)
    | Waiting(id: string, ch: Option<Channel>)
    | Expiring(id: string)
    | Signalling(ch: Option<Channel>, vacates: Option<string>) // took the channel out of pending
    | Freeing(berthID: string)

  /** The shared state, and a record of which sessions passed the gate, closed the grid and finished.
      `metered` gives for each vessel with a run the session whose confirmation started it. */
  datatype System = System(
    sessions: map<string, Track>, pending: map<string, Channel>, executed: map<string, nat>, number: nat,
    execs: nat, cap: Cap, made: nat, closed: multiset<Channel>, threads: map<Thread, Position>,
    metered: map<string, string>, gates: multiset<string>, closers: set<string>, finished: set<string>)

  function Start(shore: real): System {
    System(map[], map[], map[], 0, 0, Fresh(shore), 0, multiset{}, map[], map[], multiset{}, {}, {})
  }

  datatype Action =
    | Look(req: Request)
    | Refuse
    | Refresh(stale: bool, at: Time)
    | Allocating(at: Time)
    | Marking(ok: bool)
    | Undo(at: Time)
    | Register
    | Gate(id: string)
    | CloseGrid(ok: bool)
    | Occupy(ok: bool)
    | StartMeter
    | Finish
    | Fail
    | CancelCall(id: string)
    | Wait(id: string)
    | Wake
    | Expire
    | Lapse
    | Signal
    | Free(at: Time)
    | Elsewhere(section: Section)                           // another user of the allocator
    | CommandCloses                                         // the grid's own dispatch closes the grid

  function At(s: System, t: Thread): Position {
    if t in s.threads then s.threads[t] else Ready
  }

  function Goto(s: System, t: Thread, p: Position): System {
    s.(threads := s.threads[t := p])
  }

  predicate Alive(st: SState) {
    !st.Failed? && !st.Cancelled?
  }

  predicate LiveIn(s: System, id: string, requestID: string) {
    id in s.sessions && s.sessions[id].requestID == requestID && Alive(s.sessions[id].state)
  }

  ghost predicate HasLive(s: System, requestID: string) {
    exists id :: LiveIn(s, id, requestID)
  }

  /** The locked section that ends a session: its verdict is set and its channel taken out. */
  function Ended(s: System, t: Thread, id: string, st: SState): System {
    var ch := if id in s.pending then Some(s.pending[id]) else None;
    var known := id in s.sessions;
    var vacates := if known && !st.Connected? && (st.Cancelled? || s.sessions[id].berthID != "")
                   then Some(s.sessions[id].berthID) else None;
    s.(sessions := if known then s.sessions[id := s.sessions[id].(state := st)] else s.sessions,
       pending := s.pending - {id}, threads := s.threads[t := Signalling(ch, vacates)])
  }

  function Registering(s: System, t: Thread, req: Request): System {
    var id := SessionID(s.number + 1);
    s.(sessions := s.sessions[id := Track(req.requestID, req.berthID, req.vessel, Verifying)],
       pending := s.pending[id := s.made], made := s.made + 1, number := s.number + 1,
       threads := s.threads[t := Ready])
  }

  function Gating(s: System, t: Thread, id: string): System {
    if id in s.sessions && s.sessions[id].state.Verifying?
    then s.(sessions := s.sessions[id := s.sessions[id].(state := Connecting)],
            gates := s.gates + multiset{id}, threads := s.threads[t := PastGate(id)])
    else s
  }

  function ExecutionsOf(s: System, requestID: string): nat {
    if requestID in s.executed then s.executed[requestID] else 0
  }

  function Finishing(s: System, t: Thread, id: string): System {
    if id !in s.sessions then s
    else
      var r := s.sessions[id].requestID;
      Ended(s, t, id, Connected).(executed := s.executed[r := ExecutionsOf(s, r) + 1], finished := s.finished + {id})
  }

  /** Closing the channel that was taken out, if there was one. */
  function Signalled(s: System, t: Thread, ch: Option<Channel>, vacates: Option<string>): System {
    s.(closed := if ch.Some? then s.closed + multiset{ch.value} else s.closed,
       threads := s.threads[t := if vacates.Some? then Freeing(vacates.value) else Ready])
  }

  function Closing(s: System, t: Thread, id: string): System {
    Goto(s, t, GridClosed(id)).(execs := s.execs + 1, closers := s.closers + {id})
  }

  predicate Takes(s: System, id: string) {
    && id in s.sessions && s.sessions[id].vessel != "" && s.sessions[id].berthID != ""
    && s.sessions[id].vessel !in s.metered
  }

  /** The meter takes a vessel exactly if it has no run. */
  function Starting(s: System, t: Thread, id: string): System {
    if Takes(s, id)
    then Goto(s, t, Occupied(id)).(metered := s.metered[s.sessions[id].vessel := id])
    else Goto(s, t, Failing(id))
  }

  /** What Apply and the allocator have checked of a request before capacity is taken. */
  predicate Passes(req: Request) {
    req.vessel != "" && req.berthID != "" && ValidPhase(req.phase) && req.needKVA > 0.0 && NulFree(req.berthID)
  }

  /** Steps that only move their thread on, and perhaps touch the allocator. */
  predicate IsMove(a: Action) {
    || a.Look? || a.Refuse? || a.Refresh? || a.Allocating? || a.Marking? || a.Undo? || a.Wait? || a.Wake?
    || a.Expire? || a.Free? || a.Occupy? || (a.CloseGrid? && !a.ok)
  }

  ghost function Move(s: System, t: Thread, a: Action): System {
    var p := At(s, t);
    match a
    case Look(req) =>
      if p.Ready? && (req.requestID == "" || !HasLive(s, req.requestID)) then Goto(s, t, Checked(req)) else s
    case Refuse => if p.Checked? || p.Refreshed? then Goto(s, t, Ready) else s
    case Refresh(stale, at) =>
      if p.Checked? && Passes(p.req)
      then Goto(s, t, Refreshed(p.req)).(cap := if stale then Release(s.cap, p.req.berthID, at).0 else s.cap) else s
    case Allocating(at) =>
      if p.Refreshed? then
        var (cap, r) := TryAllocate(s.cap, p.req.berthID, p.req.vessel, p.req.needKVA, Remain(s.cap), at);
        Goto(s, t, if r.Ok? then Granted(p.req) else Ready).(cap := cap)
      else s
    case Marking(ok) => if p.Granted? then Goto(s, t, if ok then Marked(p.req) else Undoing(p.req.berthID)) else s
    case Undo(at) => if p.Undoing? then Goto(s, t, Ready).(cap := Release(s.cap, p.berthID, at).0) else s
    case CloseGrid(_) => if p.PastGate? then Goto(s, t, Failing(p.id)) else s
    case Occupy(ok) => if p.GridClosed? then Goto(s, t, if ok then Berthed(p.id) else Failing(p.id)) else s
    case Wait(id) =>
      if p.Ready? && id in s.sessions && s.sessions[id].state.Verifying?
      then Goto(s, t, Waiting(id, if id in s.pending then Some(s.pending[id]) else None)) else s
    case Wake => if p.Waiting? && p.ch.Some? && p.ch.value in s.closed then Goto(s, t, Ready) else s
    case Expire => if p.Waiting? then Goto(s, t, Expiring(p.id)) else s
    case Free(at) => if p.Freeing? then Goto(s, t, Ready).(cap := Release(s.cap, p.berthID, at).0) else s
    case _ => s
  }

  /** Steps that change sessions, channels or counters, and those of other components. */
  ghost function Work(s: System, t: Thread, a: Action): System {
    var p := At(s, t);
    match a
    case Register => if p.Marked? then Registering(s, t, p.req) else s
    case Gate(id) => if p.Ready? then Gating(s, t, id) else s
    case CloseGrid(_) => if p.PastGate? then Closing(s, t, p.id) else s
    case StartMeter => if p.Berthed? then Starting(s, t, p.id) else s
    case Finish => if p.Occupied? then Finishing(s, t, p.id) else s
    case Fail => if p.Failing? then Ended(s, t, p.id, Failed) else s
    case CancelCall(id) =>
      if p.Ready? && id in s.sessions && !s.sessions[id].state.Connected? then Ended(s, t, id, Cancelled) else s
    case Lapse => if p.Expiring? then Ended(s, t, p.id, Lapsed) else s
    case Signal => if p.Signalling? then Signalled(s, t, p.ch, p.vacates) else s
    case Elsewhere(section) => if Callable(section) then s.(cap := After(s.cap, section)) else s
    case CommandCloses => s.(execs := s.execs + 1)
    case _ => s
  }

  /** A step of thread `t`; a step it is not ready for does nothing. */
  ghost function Act(s: System, t: Thread, a: Action): System {
    if IsMove(a) then Move(s, t, a) else Work(s, t, a)
  }

  datatype Turn = Turn(t: Thread, a: Action)

  ghost function Interleaved(s: System, turns: seq<Turn>): System {
    if turns == [] then s
    else var last := turns[|turns| - 1]; Act(Interleaved(s, turns[..|turns| - 1]), last.t, last.a)
  }

  // What every interleaving keeps.

  predicate Undecided(st: SState) {
    st.Verifying? || st.Connecting?
  }

  /** No session is lost, and exactly the undecided ones have a channel. */
  ghost predicate SessionsOk(s: System) {
    && s.sessions.Keys == IDs(s.number)
    && (forall id :: id in s.pending <==> id in s.sessions && Undecided(s.sessions[id].state))
  }

  predicate Holds(p: Position, c: Channel) {
    p.Signalling? && p.ch == Some(c)
  }

  /** What a thread knows of channels: one that has taken a channel is alone in having it, and one
      that waits does so on its session's own channel. */
  ghost predicate KnowsChannel(s: System, p: Position) {
    match p
    case Signalling(Some(c), _) => c < s.made && c !in s.closed && forall id :: id in s.pending ==> s.pending[id] != c
    case Waiting(id, ch) => id in s.sessions && ch.Some? && (id in s.pending ==> s.pending[id] == ch.value)
    case _ => true
  }

  ghost predicate OneHolder(threads: map<Thread, Position>) {
    forall t, u, c :: t in threads && u in threads && Holds(threads[t], c) && Holds(threads[u], c) ==> t == u
  }

  ghost predicate InHand(threads: map<Thread, Position>, c: Channel) {
    exists t :: t in threads && Holds(threads[t], c)
  }

  ghost predicate Homes(s: System) {
    && (forall id :: id in s.pending ==> s.pending[id] < s.made && s.pending[id] !in s.closed)
    && (forall i, j :: i in s.pending && j in s.pending && s.pending[i] == s.pending[j] ==> i == j)
    && (forall c :: c in s.closed ==> c < s.made && s.closed[c] == 1)
  }

  ghost predicate Informed(s: System) {
    forall t :: t in s.threads ==> KnowsChannel(s, s.threads[t])
  }

  /** Every channel is in one place: pending for one session, in the hands of one thread, or closed
      once. */
  ghost predicate ChannelsOk(s: System) {
    Homes(s) && Informed(s) && OneHolder(s.threads)
  }

  predicate Carries(p: Position, id: string) {
    (p.PastGate? || p.GridClosed? || p.Berthed? || p.Occupied? || p.Failing?) && p.id == id
  }

  ghost predicate KnowsSession(s: System, p: Position) {
    match p
    case PastGate(id) => id in s.gates && id !in s.closers
    case GridClosed(id) => id in s.closers && id !in s.finished
    case Berthed(id) => id in s.closers && id !in s.finished
    case Occupied(id) => id in s.closers && id !in s.finished
    case Failing(id) => id in s.gates && id !in s.finished
    case _ => true
  }

  ghost predicate Past(s: System) {
    && (forall id :: id in s.gates ==> s.gates[id] == 1 && id in s.sessions && !s.sessions[id].state.Verifying?)
    && (forall id :: id in s.closers ==> id in s.gates)
    && s.finished <= s.closers && |s.closers| <= s.execs
  }

  ghost predicate Knowing(s: System) {
    forall t :: t in s.threads ==> KnowsSession(s, s.threads[t])
  }

  ghost predicate OneCarrier(threads: map<Thread, Position>) {
    forall t, u, id :: t in threads && u in threads && Carries(threads[t], id) && Carries(threads[u], id) ==> t == u
  }

  /** Each session passes the gate at most once, is carried on by one thread, closes the grid before
      it finishes, and finishes at most once. */
  ghost predicate GatesOk(s: System) {
    Past(s) && Knowing(s) && OneCarrier(s.threads)
  }

  ghost function FinishedFor(s: System, requestID: string): set<string> {
    set id | id in s.finished && id in s.sessions && s.sessions[id].requestID == requestID
  }

  /** The counters count finished sessions. */
  ghost predicate CountsOk(s: System) {
    && s.finished <= s.sessions.Keys
    && (forall r :: ExecutionsOf(s, r) == |FinishedFor(s, r)|)
    && Sum(s.executed) == |s.finished|
  }

  /** The session's confirmation started its vessel's meter. */
  predicate Started(s: System, id: string) {
    id in s.sessions && s.sessions[id].vessel in s.metered && s.metered[s.sessions[id].vessel] == id
  }

  /** Whoever finishes has started a meter, and each vessel's meter is started once. */
  ghost predicate MetersOk(s: System) {
    && (forall id :: id in s.finished ==> Started(s, id))
    && (forall t :: t in s.threads && s.threads[t].Occupied? ==> Started(s, s.threads[t].id))
    && (forall v :: v in s.metered ==> Started(s, s.metered[v]) && s.sessions[s.metered[v]].vessel == v)
  }

  predicate Tested(p: Position) {
    p.Refreshed? ==> Passes(p.req)
  }

  /** The allocator's books are in order, and whoever is about to allocate has tested the demand. */
  ghost predicate CapacityOk(s: System) {
    CapInv(s.cap) && forall t :: t in s.threads ==> Tested(s.threads[t])
  }

  ghost predicate Inv(s: System) {
    SessionsOk(s) && ChannelsOk(s) && GatesOk(s) && CountsOk(s) && MetersOk(s) && CapacityOk(s)
  }

  // Sums of counters.

  ghost function Sum(m: map<string, nat>): nat
    decreases m.Keys
  {
    if m == map[] then 0 else m[Pick(m)] + Sum(m - {Pick(m)})
  }

  lemma {:induction false} SumRemove(m: map<string, nat>, k: string)
    requires k in m
    ensures Sum(m) == m[k] + Sum(m - {k})
    decreases m.Keys
  {
    var j := Pick(m);
    if j != k {
      SumRemove(m - {j}, k);
      SumRemove(m - {k}, j);
      assert m - {j} - {k} == m - {k} - {j};
    }
  }

  lemma SumBump(m: map<string, nat>, k: string)
    ensures Sum(m[k := (if k in m then m[k] else 0) + 1]) == Sum(m) + 1
  {
    var after := m[k := (if k in m then m[k] else 0) + 1];
    SumRemove(after, k);
    assert after - {k} == m - {k};
    if k in m {
      SumRemove(m, k);
    } else {
      assert m - {k} == m;
    }
  }

  // What a move can do.

  ghost predicate MoveOk(s: System, p: Position, q: Position) {
    && !q.Signalling? && !q.PastGate? && !q.GridClosed? && !q.Occupied?
    && (q.Berthed? ==> p.GridClosed? && p.id == q.id)
    && (q.Failing? ==> (p.PastGate? || p.GridClosed?) && p.id == q.id)
    && (q.Waiting? ==> q.id in s.sessions && s.sessions[q.id].state.Verifying?
                       && q.ch == if q.id in s.pending then Some(s.pending[q.id]) else None)
    && Tested(q)
  }

  ghost predicate Moved(s: System, s1: System, t: Thread) {
    s1 == s || (s1 == s.(threads := s.threads[t := At(s1, t)], cap := s1.cap) && MoveOk(s, At(s, t), At(s1, t)))
  }

  lemma Moves(s: System, t: Thread, a: Action)
    requires IsMove(a)
    ensures Moved(s, Move(s, t, a), t)
  {
    hide Release, TryAllocate, HasLive, Passes, Remain;
  }

  // Sessions.

  lemma RegisteredSessions(s: System, t: Thread, req: Request)
    requires SessionsOk(s)
    ensures SessionsOk(Registering(s, t, req)) && SessionID(s.number + 1) !in s.sessions
  {
    hide IDs, SessionID;
    NextIDFresh(s.number);
  }

  lemma SettledSessions(s: System, t: Thread, id: string, st: SState)
    requires SessionsOk(s) && !Undecided(st)
    ensures SessionsOk(Ended(s, t, id, st))
  {
    hide IDs;
  }

  lemma GatedSessions(s: System, t: Thread, id: string)
    requires SessionsOk(s)
    ensures SessionsOk(Gating(s, t, id))
  {
    hide IDs;
  }

  /** Sessions and pending channels are all the invariant speaks of. */
  lemma SessionsOnly(s: System, s1: System)
    requires SessionsOk(s) && s1.sessions == s.sessions && s1.pending == s.pending && s1.number == s.number
    ensures SessionsOk(s1)
  {
  }

  lemma FinishedSessions(s: System, t: Thread, id: string)
    requires SessionsOk(s)
    ensures SessionsOk(Finishing(s, t, id))
  {
    hide SessionsOk;
    SettledSessions(s, t, id, Connected);
    if id in s.sessions {
      SessionsOnly(Ended(s, t, id, Connected), Finishing(s, t, id));
    }
  }

  lemma ActSessions(s: System, t: Thread, a: Action)
    requires SessionsOk(s)
    ensures SessionsOk(Act(s, t, a))
  {
    hide SessionsOk, SessionID, Registering, Gating, Ended, Signalled, Starting, After, Callable, Move, MoveOk;
    var p := At(s, t);
    if IsMove(a) {
      Moves(s, t, a);
      SessionsOnly(s, Move(s, t, a));
    } else {
      match a
      case Register => if p.Marked? { RegisteredSessions(s, t, p.req); }
      case Gate(id) => GatedSessions(s, t, id);
      case Finish => if p.Occupied? { FinishedSessions(s, t, p.id); }
      case Fail => if p.Failing? { SettledSessions(s, t, p.id, Failed); }
      case CancelCall(id) => SettledSessions(s, t, id, Cancelled);
      case Lapse => if p.Expiring? { SettledSessions(s, t, p.id, Lapsed); }
      case Signal =>
        if p.Signalling? {
          SignalledSame(s, t, p.ch, p.vacates);
          SessionsOnly(s, Work(s, t, a));
        }
      case StartMeter =>
        if p.Berthed? {
          StartingSame(s, t, p.id);
          SessionsOnly(s, Work(s, t, a));
        }
      case _ => SessionsOnly(s, Work(s, t, a));
    }
  }

  lemma StartingSame(s: System, t: Thread, id: string)
    ensures var s1 := Starting(s, t, id);
            && s1 == s.(threads := s.threads[t := At(s1, t)], metered := s1.metered)
            && (At(s1, t) == Occupied(id) || At(s1, t) == Failing(id))
  {
  }

  lemma SignalledSame(s: System, t: Thread, ch: Option<Channel>, vacates: Option<string>)
    ensures var s1 := Signalled(s, t, ch, vacates); s1 == s.(threads := s1.threads, closed := s1.closed)
  {
  }

  // Channels.

  lemma HolderMoves(threads: map<Thread, Position>, t: Thread, p: Position)
    requires OneHolder(threads) && forall c :: Holds(p, c) ==> !InHand(threads, c)
    ensures OneHolder(threads[t := p])
  {
    var after := threads[t := p];
    forall u, v, c | u in after && v in after && Holds(after[u], c) && Holds(after[v], c) ensures u == v {
      assert InHand(threads, c) || (u == t && v == t);
    }
  }

  /** A pending channel is in nobody's hands. */
  lemma PendingFree(s: System, id: string)
    requires Informed(s) && id in s.pending
    ensures !InHand(s.threads, s.pending[id])
  {
    forall t | t in s.threads ensures !Holds(s.threads[t], s.pending[id]) {
      assert KnowsChannel(s, s.threads[t]);
    }
  }

  lemma SettledChannels(s: System, t: Thread, id: string, st: SState)
    requires ChannelsOk(s)
    ensures ChannelsOk(Ended(s, t, id, st))
  {
    hide OneHolder, InHand;
    var s1 := Ended(s, t, id, st);
    if id in s.pending {
      PendingFree(s, id);
    }
    HolderMoves(s.threads, t, s1.threads[t]);
    forall u | u in s1.threads ensures KnowsChannel(s1, s1.threads[u]) {
      assert u != t ==> KnowsChannel(s, s.threads[u]);
    }
  }

  lemma RegisteredChannels(s: System, t: Thread, req: Request)
    requires ChannelsOk(s) && SessionID(s.number + 1) !in s.sessions
    ensures ChannelsOk(Registering(s, t, req))
  {
    hide SessionID, OneHolder, InHand, KnowsChannel;
    var s1 := Registering(s, t, req);
    HolderMoves(s.threads, t, s1.threads[t]);
    StillKnows(s, t, req, Ready);
    forall u | u in s1.threads ensures KnowsChannel(s1, s1.threads[u]) {
      if u != t {
        StillKnows(s, t, req, s.threads[u]);
      }
    }
  }

  lemma StillKnows(s: System, t: Thread, req: Request, p: Position)
    requires SessionID(s.number + 1) !in s.sessions
    ensures KnowsChannel(s, p) || p.Ready? ==> KnowsChannel(Registering(s, t, req), p)
  {
    hide SessionID;
    var s1 := Registering(s, t, req);
    if p.Waiting? && KnowsChannel(s, p) {
      assert p.id != SessionID(s.number + 1);
    }
  }

  lemma SignalledChannels(s: System, t: Thread, ch: Option<Channel>, vacates: Option<string>)
    requires ChannelsOk(s) && t in s.threads && s.threads[t] == Signalling(ch, vacates)
    ensures ChannelsOk(Signalled(s, t, ch, vacates))
  {
    hide InHand, KnowsChannel, Homes;
    var s1 := Signalled(s, t, ch, vacates);
    HolderMoves(s.threads, t, s1.threads[t]);
    assert KnowsChannel(s, s.threads[t]);
    ClosedHomes(s, t, ch, vacates);
    forall u | u in s1.threads ensures KnowsChannel(s1, s1.threads[u]) {
      if u != t {
        OtherChannel(s.threads, t, u);
      }
      KnowsAfterSignal(s, t, ch, vacates, s1.threads[u]);
    }
  }

  lemma ClosedHomes(s: System, t: Thread, ch: Option<Channel>, vacates: Option<string>)
    requires Homes(s) && KnowsChannel(s, Signalling(ch, vacates))
    ensures Homes(Signalled(s, t, ch, vacates))
  {
  }

  lemma KnowsAfterSignal(s: System, t: Thread, ch: Option<Channel>, vacates: Option<string>, p: Position)
    requires KnowsChannel(s, p) || p.Ready? || p.Freeing?
    requires ch.Some? ==> !Holds(p, ch.value)
    ensures KnowsChannel(Signalled(s, t, ch, vacates), p)
  {
  }

  lemma OtherChannel(threads: map<Thread, Position>, t: Thread, u: Thread)
    requires OneHolder(threads) && t in threads && u in threads && t != u
    ensures forall c :: Holds(threads[t], c) ==> !Holds(threads[u], c)
  {
  }

  lemma GatedChannels(s: System, t: Thread, id: string)
    requires ChannelsOk(s)
    ensures ChannelsOk(Gating(s, t, id))
  {
    hide OneHolder, InHand;
    var s1 := Gating(s, t, id);
    HolderMoves(s.threads, t, PastGate(id));
    if s1 != s {
      forall u | u in s1.threads ensures KnowsChannel(s1, s1.threads[u]) {
        assert u != t ==> KnowsChannel(s, s.threads[u]);
      }
    }
  }

  /** A step that leaves the channels alone, by a thread that has none in hand afterwards. */
  lemma ChannelsAside(s: System, s1: System, t: Thread)
    requires ChannelsOk(s) && t in s1.threads && s1.threads == s.threads[t := s1.threads[t]]
    requires s1.sessions == s.sessions && s1.pending == s.pending && s1.made == s.made && s1.closed == s.closed
    requires !s1.threads[t].Signalling? && KnowsChannel(s1, s1.threads[t])
    ensures ChannelsOk(s1)
  {
    hide OneHolder, InHand;
    HolderMoves(s.threads, t, s1.threads[t]);
    forall u | u in s1.threads ensures KnowsChannel(s1, s1.threads[u]) {
      assert u != t ==> KnowsChannel(s, s.threads[u]);
    }
  }

  lemma MovedChannels(s: System, s1: System, t: Thread)
    requires ChannelsOk(s) && SessionsOk(s) && Moved(s, s1, t)
    ensures ChannelsOk(s1)
  {
    hide ChannelsOk, IDs;
    if s1 != s {
      assert s1.threads[t] == At(s1, t);
      ChannelsAside(s, s1, t);
    }
  }

  /** Channels do not depend on counters, capacity or the gate's history. */
  lemma ChannelsOnly(s: System, s1: System)
    requires ChannelsOk(s) && s1.sessions == s.sessions && s1.pending == s.pending && s1.made == s.made
    requires s1.closed == s.closed && s1.threads == s.threads
    ensures ChannelsOk(s1)
  {
    forall u | u in s1.threads ensures KnowsChannel(s1, s1.threads[u]) {
      assert KnowsChannel(s, s.threads[u]);
    }
  }

  lemma FinishedChannels(s: System, t: Thread, id: string)
    requires ChannelsOk(s)
    ensures ChannelsOk(Finishing(s, t, id))
  {
    hide ChannelsOk;
    SettledChannels(s, t, id, Connected);
    if id in s.sessions {
      ChannelsOnly(Ended(s, t, id, Connected), Finishing(s, t, id));
    }
  }

  lemma ActChannels(s: System, t: Thread, a: Action)
    requires SessionsOk(s) && ChannelsOk(s)
    ensures ChannelsOk(Act(s, t, a))
  {
    hide SessionsOk, ChannelsOk, SessionID, Registering, Gating, Ended, Signalled, Starting, Finishing, Closing;
    hide After, Callable, Move, Moved;
    var p := At(s, t);
    if IsMove(a) {
      Moves(s, t, a);
      MovedChannels(s, Move(s, t, a), t);
    } else {
      match a
      case Register => if p.Marked? { RegisteredSessions(s, t, p.req); RegisteredChannels(s, t, p.req); }
      case Gate(id) => GatedChannels(s, t, id);
      case Finish => if p.Occupied? { FinishedChannels(s, t, p.id); }
      case Fail => if p.Failing? { SettledChannels(s, t, p.id, Failed); }
      case CancelCall(id) => SettledChannels(s, t, id, Cancelled);
      case Lapse => if p.Expiring? { SettledChannels(s, t, p.id, Lapsed); }
      case Signal => if p.Signalling? { SignalledChannels(s, t, p.ch, p.vacates); }
      case CloseGrid(_) => if p.PastGate? { GridClosedChannels(s, t, p.id); }
      case StartMeter => if p.Berthed? { StartingChannels(s, t, p.id); }
      case _ => ChannelsOnly(s, Work(s, t, a));
    }
  }

  lemma GridClosedChannels(s: System, t: Thread, id: string)
    requires ChannelsOk(s)
    ensures ChannelsOk(Closing(s, t, id))
  {
    hide ChannelsOk;
    ChannelsAside(s, Closing(s, t, id), t);
  }

  lemma StartingChannels(s: System, t: Thread, id: string)
    requires ChannelsOk(s)
    ensures ChannelsOk(Starting(s, t, id))
  {
    hide ChannelsOk, Starting;
    StartingSame(s, t, id);
    ChannelsAside(s, Starting(s, t, id), t);
  }

  // The gate.

  /** Nobody else carries what thread `t` is about to carry. */
  ghost predicate Unshared(threads: map<Thread, Position>, t: Thread, p: Position) {
    forall u, id :: u in threads && u != t && Carries(threads[u], id) ==> !Carries(p, id)
  }

  lemma CarrierMoves(threads: map<Thread, Position>, t: Thread, p: Position)
    requires OneCarrier(threads) && Unshared(threads, t, p)
    ensures OneCarrier(threads[t := p])
  {
  }

  lemma CarriesOn(threads: map<Thread, Position>, t: Thread, p: Position)
    requires OneCarrier(threads) && t in threads && forall id :: Carries(p, id) ==> Carries(threads[t], id)
    ensures Unshared(threads, t, p)
  {
  }

  /** A step that leaves the gate's history alone. */
  lemma GatesAside(s: System, s1: System, t: Thread)
    requires GatesOk(s) && t in s1.threads && s1.threads == s.threads[t := s1.threads[t]]
    requires s1.gates == s.gates && s1.closers == s.closers && s1.finished == s.finished && s1.execs >= s.execs
    requires forall id :: id in s.sessions ==>
               id in s1.sessions && (s1.sessions[id].state.Verifying? ==> s.sessions[id].state.Verifying?)
    requires KnowsSession(s, s1.threads[t]) && Unshared(s.threads, t, s1.threads[t])
    ensures GatesOk(s1)
  {
    hide OneCarrier, Unshared;
    CarrierMoves(s.threads, t, s1.threads[t]);
    forall u | u in s1.threads ensures KnowsSession(s1, s1.threads[u]) {
      assert u != t ==> KnowsSession(s, s.threads[u]);
    }
  }

  lemma MovedGates(s: System, s1: System, t: Thread)
    requires GatesOk(s) && Moved(s, s1, t)
    ensures GatesOk(s1)
  {
    hide OneCarrier, Unshared;
    if s1 != s {
      assert s1.threads[t] == At(s1, t);
      if At(s1, t).Berthed? || At(s1, t).Failing? {
        assert KnowsSession(s, s.threads[t]);
        CarriesOn(s.threads, t, At(s1, t));
      } else {
        CarriesNothing(s.threads, t, At(s1, t));
      }
      GatesAside(s, s1, t);
    }
  }

  lemma CarriesNothing(threads: map<Thread, Position>, t: Thread, p: Position)
    requires forall id :: !Carries(p, id)
    ensures Unshared(threads, t, p)
  {
  }

  lemma SettledGates(s: System, t: Thread, id: string, st: SState)
    requires GatesOk(s) && !st.Verifying?
    ensures GatesOk(Ended(s, t, id, st))
  {
    hide Past, Knowing, OneCarrier, Unshared;
    var s1 := Ended(s, t, id, st);
    CarriesNothing(s.threads, t, s1.threads[t]);
    GatesAside(s, s1, t);
  }

  lemma SignalledGates(s: System, t: Thread, ch: Option<Channel>, vacates: Option<string>)
    requires GatesOk(s)
    ensures GatesOk(Signalled(s, t, ch, vacates))
  {
    hide Past, Knowing, OneCarrier, Unshared;
    var s1 := Signalled(s, t, ch, vacates);
    CarriesNothing(s.threads, t, s1.threads[t]);
    GatesAside(s, s1, t);
  }

  lemma RegisteredGates(s: System, t: Thread, req: Request)
    requires GatesOk(s) && SessionID(s.number + 1) !in s.sessions
    ensures GatesOk(Registering(s, t, req))
  {
    hide Past, Knowing, OneCarrier, Unshared, SessionID;
    var s1 := Registering(s, t, req);
    CarriesNothing(s.threads, t, s1.threads[t]);
    GatesAside(s, s1, t);
  }

  /** Nobody carries a session that is still verifying. */
  lemma NotCarried(s: System, t: Thread, id: string)
    requires Past(s) && Knowing(s) && id in s.sessions && s.sessions[id].state.Verifying?
    ensures Unshared(s.threads, t, PastGate(id))
  {
    forall u, x | u in s.threads && Carries(s.threads[u], x) ensures x != id {
      assert KnowsSession(s, s.threads[u]);
    }
  }

  lemma GatedGates(s: System, t: Thread, id: string)
    requires GatesOk(s)
    ensures GatesOk(Gating(s, t, id))
  {
    hide OneCarrier, Unshared;
    var s1 := Gating(s, t, id);
    if s1 != s {
      NotCarried(s, t, id);
      CarrierMoves(s.threads, t, PastGate(id));
      forall u | u in s1.threads ensures KnowsSession(s1, s1.threads[u]) {
        assert u != t ==> KnowsSession(s, s.threads[u]);
      }
    }
  }

  /** Closing the grid for a session counts one execution. */
  lemma ClosedGates(s: System, t: Thread, id: string)
    requires GatesOk(s) && t in s.threads && s.threads[t] == PastGate(id)
    ensures GatesOk(Closing(s, t, id))
  {
    hide OneCarrier, Unshared;
    var s1 := Closing(s, t, id);
    assert KnowsSession(s, s.threads[t]);
    CarriesOn(s.threads, t, GridClosed(id));
    CarrierMoves(s.threads, t, GridClosed(id));
    forall u | u in s1.threads ensures KnowsSession(s1, s1.threads[u]) {
      if u != t {
        assert KnowsSession(s, s.threads[u]);
        OtherSession(s.threads, t, u, id);
      }
    }
  }

  lemma OtherSession(threads: map<Thread, Position>, t: Thread, u: Thread, id: string)
    requires OneCarrier(threads) && t in threads && u in threads && t != u && Carries(threads[t], id)
    ensures !Carries(threads[u], id)
  {
  }

  lemma FinishedGates(s: System, t: Thread, id: string)
    requires GatesOk(s) && t in s.threads && s.threads[t] == Occupied(id)
    ensures GatesOk(Finishing(s, t, id))
  {
    hide OneCarrier, Unshared;
    var s1 := Finishing(s, t, id);
    assert KnowsSession(s, s.threads[t]);
    if s1 != s {
      CarriesNothing(s.threads, t, s1.threads[t]);
      CarrierMoves(s.threads, t, s1.threads[t]);
      forall u | u in s1.threads ensures KnowsSession(s1, s1.threads[u]) {
        if u != t {
          assert KnowsSession(s, s.threads[u]);
          OtherSession(s.threads, t, u, id);
        }
      }
    }
  }

  lemma StartingGates(s: System, t: Thread, id: string)
    requires GatesOk(s) && t in s.threads && s.threads[t] == Berthed(id)
    ensures GatesOk(Starting(s, t, id))
  {
    hide OneCarrier, Unshared, Starting;
    var s1 := Starting(s, t, id);
    StartingSame(s, t, id);
    assert KnowsSession(s, s.threads[t]);
    CarriesOn(s.threads, t, s1.threads[t]);
    GatesAside(s, s1, t);
  }

  lemma GatesOnly(s: System, s1: System)
    requires GatesOk(s) && s1 == s.(cap := s1.cap, execs := s1.execs) && s1.execs >= s.execs
    ensures GatesOk(s1)
  {
    forall u | u in s1.threads ensures KnowsSession(s1, s1.threads[u]) {
      assert KnowsSession(s, s.threads[u]);
    }
  }

  lemma ActGates(s: System, t: Thread, a: Action)
    requires SessionsOk(s) && GatesOk(s)
    ensures GatesOk(Act(s, t, a))
  {
    hide SessionsOk, GatesOk, SessionID, Registering, Gating, Ended, Signalled, Starting, Finishing, Closing;
    hide After, Callable, Move, Moved;
    var p := At(s, t);
    if IsMove(a) {
      Moves(s, t, a);
      MovedGates(s, Move(s, t, a), t);
    } else {
      match a
      case Register => if p.Marked? { RegisteredSessions(s, t, p.req); RegisteredGates(s, t, p.req); }
      case Gate(id) => GatedGates(s, t, id);
      case Finish => if p.Occupied? { FinishedGates(s, t, p.id); }
      case Fail => if p.Failing? { SettledGates(s, t, p.id, Failed); }
      case CancelCall(id) => SettledGates(s, t, id, Cancelled);
      case Lapse => if p.Expiring? { SettledGates(s, t, p.id, Lapsed); }
      case Signal => if p.Signalling? { SignalledGates(s, t, p.ch, p.vacates); }
      case CloseGrid(_) => if p.PastGate? { ClosedGates(s, t, p.id); }
      case StartMeter => if p.Berthed? { StartingGates(s, t, p.id); }
      case _ => GatesOnly(s, Work(s, t, a));
    }
  }

  // The counters.

  lemma CountsAside(s: System, s1: System)
    requires CountsOk(s) && s1.executed == s.executed && s1.finished == s.finished
    requires forall id :: id in s.sessions ==>
               id in s1.sessions && s1.sessions[id].requestID == s.sessions[id].requestID
    ensures CountsOk(s1)
  {
    forall r ensures ExecutionsOf(s1, r) == |FinishedFor(s1, r)| {
      assert FinishedFor(s1, r) == FinishedFor(s, r);
    }
  }

  lemma RegisteredCounts(s: System, t: Thread, req: Request)
    requires CountsOk(s) && SessionID(s.number + 1) !in s.sessions
    ensures CountsOk(Registering(s, t, req))
  {
    hide CountsOk, SessionID;
    CountsAside(s, Registering(s, t, req));
  }

  lemma GatedCounts(s: System, t: Thread, id: string)
    requires CountsOk(s)
    ensures CountsOk(Gating(s, t, id))
  {
    hide CountsOk;
    CountsAside(s, Gating(s, t, id));
  }

  lemma SettledCounts(s: System, t: Thread, id: string, st: SState)
    requires CountsOk(s)
    ensures CountsOk(Ended(s, t, id, st))
  {
    hide CountsOk;
    CountsAside(s, Ended(s, t, id, st));
  }

  lemma FinishedCount(s: System, t: Thread, id: string, r: string)
    requires id in s.sessions && id !in s.finished && ExecutionsOf(s, r) == |FinishedFor(s, r)|
    ensures var s1 := Finishing(s, t, id); ExecutionsOf(s1, r) == |FinishedFor(s1, r)|
  {
    hide ExecutionsOf, FinishedFor;
    var s1 := Finishing(s, t, id);
    FinishedRuns(s, t, id, r);
    FinishedSet(s, s1, id, r);
  }

  lemma FinishedRuns(s: System, t: Thread, id: string, r: string)
    requires id in s.sessions
    ensures ExecutionsOf(Finishing(s, t, id), r) == ExecutionsOf(s, r) + if s.sessions[id].requestID == r then 1 else 0
  {
  }

  lemma FinishedSet(s: System, s1: System, id: string, r: string)
    requires id in s.sessions && id !in s.finished && s1.finished == s.finished + {id}
    requires s1.sessions.Keys == s.sessions.Keys
        && forall x :: x in s.sessions ==> s1.sessions[x].requestID == s.sessions[x].requestID
    ensures |FinishedFor(s1, r)| == |FinishedFor(s, r)| + if s.sessions[id].requestID == r then 1 else 0
  {
    assert FinishedFor(s1, r) == if r == s.sessions[id].requestID then FinishedFor(s, r) + {id} else FinishedFor(s, r);
  }

  lemma FinishedCounts(s: System, t: Thread, id: string)
    requires CountsOk(s) && id !in s.finished
    ensures CountsOk(Finishing(s, t, id))
  {
    hide Sum, FinishedFor;
    var s1 := Finishing(s, t, id);
    if s1 != s {
      SumBump(s.executed, s.sessions[id].requestID);
      forall r ensures ExecutionsOf(s1, r) == |FinishedFor(s1, r)| {
        FinishedCount(s, t, id, r);
      }
    }
  }

  lemma ActCounts(s: System, t: Thread, a: Action)
    requires SessionsOk(s) && GatesOk(s) && CountsOk(s)
    ensures CountsOk(Act(s, t, a))
  {
    hide SessionsOk, GatesOk, CountsOk, SessionID, Registering, Gating, Ended, Signalled, Starting, Finishing;
    hide After, Callable, Move, MoveOk;
    var p := At(s, t);
    if IsMove(a) {
      Moves(s, t, a);
      CountsAside(s, Move(s, t, a));
    } else {
      match a
      case Register => if p.Marked? { RegisteredSessions(s, t, p.req); RegisteredCounts(s, t, p.req); }
      case Gate(id) => GatedCounts(s, t, id);
      case Finish =>
        if p.Occupied? {
          CarriedUnfinished(s, t, p.id);
          FinishedCounts(s, t, p.id);
        }
      case Fail => if p.Failing? { SettledCounts(s, t, p.id, Failed); }
      case CancelCall(id) => SettledCounts(s, t, id, Cancelled);
      case Lapse => if p.Expiring? { SettledCounts(s, t, p.id, Lapsed); }
      case Signal =>
        if p.Signalling? {
          SignalledSame(s, t, p.ch, p.vacates);
          CountsAside(s, Work(s, t, a));
        }
      case StartMeter =>
        if p.Berthed? {
          StartingSame(s, t, p.id);
          CountsAside(s, Work(s, t, a));
        }
      case _ => CountsAside(s, Work(s, t, a));
    }
  }

  lemma CarriedUnfinished(s: System, t: Thread, id: string)
    requires GatesOk(s) && t in s.threads && s.threads[t] == Occupied(id)
    ensures id !in s.finished
  {
    assert KnowsSession(s, s.threads[t]);
  }

  // The meter.

  /** A step that leaves the meter and the vessels of sessions alone. */
  lemma MetersAside(s: System, s1: System, t: Thread)
    requires MetersOk(s) && s1.metered == s.metered && s1.finished == s.finished
    requires forall id :: id in s.sessions ==> id in s1.sessions && s1.sessions[id].vessel == s.sessions[id].vessel
    requires forall u :: u in s1.threads && u != t ==> u in s.threads && s1.threads[u] == s.threads[u]
    requires t in s1.threads && s1.threads[t].Occupied? ==> Started(s, s1.threads[t].id)
    ensures MetersOk(s1)
  {
  }

  lemma EndedMeters(s: System, t: Thread, id: string, st: SState)
    requires MetersOk(s)
    ensures MetersOk(Ended(s, t, id, st))
  {
    hide MetersOk, Started;
    MetersAside(s, Ended(s, t, id, st), t);
  }

  lemma RegisteredMeters(s: System, t: Thread, req: Request)
    requires MetersOk(s) && SessionID(s.number + 1) !in s.sessions
    ensures MetersOk(Registering(s, t, req))
  {
    hide MetersOk, Started, SessionID;
    MetersAside(s, Registering(s, t, req), t);
  }

  lemma GatedMeters(s: System, t: Thread, id: string)
    requires MetersOk(s)
    ensures MetersOk(Gating(s, t, id))
  {
    hide MetersOk, Started;
    if Gating(s, t, id) != s {
      MetersAside(s, Gating(s, t, id), t);
    }
  }

  lemma SignalledMeters(s: System, t: Thread, ch: Option<Channel>, vacates: Option<string>)
    requires MetersOk(s)
    ensures MetersOk(Signalled(s, t, ch, vacates))
  {
    hide MetersOk, Started;
    MetersAside(s, Signalled(s, t, ch, vacates), t);
  }

  lemma ClosedMeters(s: System, t: Thread, id: string)
    requires MetersOk(s)
    ensures MetersOk(Closing(s, t, id))
  {
    hide MetersOk, Started;
    MetersAside(s, Closing(s, t, id), t);
  }

  lemma MovedMeters(s: System, s1: System, t: Thread)
    requires MetersOk(s) && Moved(s, s1, t)
    ensures MetersOk(s1)
  {
    hide MetersOk, Started;
    if s1 != s {
      MetersAside(s, s1, t);
    }
  }

  /** A newly metered vessel is nobody else's. */
  lemma StartingMeters(s: System, t: Thread, id: string)
    requires MetersOk(s)
    ensures MetersOk(Starting(s, t, id))
  {
    hide Started;
    var s1 := Starting(s, t, id);
    StillStarted(s, t, id);
    if At(s1, t) == Failing(id) {
      MetersAside(s, s1, t);
    } else {
      var vessel := s.sessions[id].vessel;
      forall v | v in s1.metered
        ensures var x := s1.metered[v]; Started(s1, x) && x in s1.sessions && s1.sessions[x].vessel == v
      {
        if v != vessel {
          MeterOwner(s, v);
        }
      }
    }
  }

  lemma MeterOwner(s: System, v: string)
    requires MetersOk(s) && v in s.metered
    ensures var x := s.metered[v]; Started(s, x) && x in s.sessions && s.sessions[x].vessel == v
  {
  }

  lemma StillStarted(s: System, t: Thread, id: string)
    ensures var s1 := Starting(s, t, id);
            && (forall x :: Started(s, x) ==> Started(s1, x))
            && (At(s1, t) == Failing(id) || (At(s1, t) == Occupied(id) && Started(s1, id)))
            && (At(s1, t) == Failing(id) ==> s1 == Goto(s, t, Failing(id)))
            && (At(s1, t) == Occupied(id) ==> id in s.sessions && s1.metered == s.metered[s.sessions[id].vessel := id])
  {
  }

  lemma FinishedMeters(s: System, t: Thread, id: string)
    requires MetersOk(s) && t in s.threads && s.threads[t] == Occupied(id)
    ensures MetersOk(Finishing(s, t, id))
  {
    hide Started;
    EndedMeters(s, t, id, Connected);
    VesselsKept(s, t, id);
  }

  lemma VesselsKept(s: System, t: Thread, id: string)
    ensures forall x :: Started(Finishing(s, t, id), x) <==> Started(s, x)
    ensures forall x :: Started(Ended(s, t, id, Connected), x) <==> Started(s, x)
  {
  }

  lemma MetersOnly(s: System, s1: System)
    requires MetersOk(s) && s1 == s.(cap := s1.cap, execs := s1.execs)
    ensures MetersOk(s1)
  {
    hide MetersOk, Started;
    MeteredThread(s, 0);
    MetersAside(s, s1, 0);
  }

  lemma MeteredThread(s: System, t: Thread)
    requires MetersOk(s)
    ensures t in s.threads && s.threads[t].Occupied? ==> Started(s, s.threads[t].id)
  {
  }

  lemma ActMeters(s: System, t: Thread, a: Action)
    requires SessionsOk(s) && MetersOk(s)
    ensures MetersOk(Act(s, t, a))
  {
    hide SessionsOk, MetersOk, SessionID, Registering, Gating, Ended, Signalled, Starting, Finishing, Closing;
    hide After, Callable, Move, Moved;
    var p := At(s, t);
    if IsMove(a) {
      Moves(s, t, a);
      MovedMeters(s, Move(s, t, a), t);
    } else {
      match a
      case Register => if p.Marked? { RegisteredSessions(s, t, p.req); RegisteredMeters(s, t, p.req); }
      case Gate(id) => GatedMeters(s, t, id);
      case CloseGrid(_) => if p.PastGate? { ClosedMeters(s, t, p.id); }
      case StartMeter => if p.Berthed? { StartingMeters(s, t, p.id); }
      case Finish => if p.Occupied? { FinishedMeters(s, t, p.id); }
      case Fail => if p.Failing? { EndedMeters(s, t, p.id, Failed); }
      case CancelCall(id) => EndedMeters(s, t, id, Cancelled);
      case Lapse => if p.Expiring? { EndedMeters(s, t, p.id, Lapsed); }
      case Signal => if p.Signalling? { SignalledMeters(s, t, p.ch, p.vacates); }
      case _ => MetersOnly(s, Work(s, t, a));
    }
  }

  // Capacity.

  lemma ReleasedCapacity(c: Cap, b: string, now: Time)
    requires CapInv(c)
    ensures CapInv(Release(c, b, now).0) && Release(c, b, now).0.shore == c.shore
  {
    hide CapInv, Release;
    ReleaseSafe(c, b, now);
  }

  /** Only thread `t` stands elsewhere, and it is not about to allocate. */
  ghost predicate Stepped(s: System, s1: System, t: Thread) {
    s1.threads == s.threads || (s1.threads == s.threads[t := At(s1, t)] && !At(s1, t).Refreshed?)
  }

  lemma RegisteredPosition(s: System, t: Thread, req: Request)
    ensures Stepped(s, Registering(s, t, req), t)
  {
    hide SessionID;
  }

  lemma GatedPosition(s: System, t: Thread, id: string)
    ensures Stepped(s, Gating(s, t, id), t)
  {
  }

  lemma ClosedPosition(s: System, t: Thread, id: string)
    ensures Stepped(s, Closing(s, t, id), t)
  {
  }

  lemma EndedPosition(s: System, t: Thread, id: string, st: SState)
    ensures Stepped(s, Ended(s, t, id, st), t) && Stepped(s, Finishing(s, t, id), t)
  {
  }

  lemma SignalledPosition(s: System, t: Thread, ch: Option<Channel>, vacates: Option<string>)
    ensures Stepped(s, Signalled(s, t, ch, vacates), t)
  {
  }

  /** A step moves at most its own thread, and never to an untested allocation. */
  lemma ActPosition(s: System, t: Thread, a: Action)
    ensures var s1 := Act(s, t, a);
            s1.threads == s.threads || (s1.threads == s.threads[t := At(s1, t)] && Tested(At(s1, t)))
  {
    hide Registering, Gating, Ended, Signalled, Starting, Finishing, Closing, After, Callable, Move;
    var p := At(s, t);
    if IsMove(a) {
      Moves(s, t, a);
    } else {
      match a
      case Register => if p.Marked? { RegisteredPosition(s, t, p.req); }
      case Gate(id) => GatedPosition(s, t, id);
      case CloseGrid(_) => if p.PastGate? { ClosedPosition(s, t, p.id); }
      case Finish => if p.Occupied? { EndedPosition(s, t, p.id, Connected); }
      case Fail => if p.Failing? { EndedPosition(s, t, p.id, Failed); }
      case CancelCall(id) => EndedPosition(s, t, id, Cancelled);
      case Lapse => if p.Expiring? { EndedPosition(s, t, p.id, Lapsed); }
      case Signal => if p.Signalling? { SignalledPosition(s, t, p.ch, p.vacates); }
      case StartMeter => if p.Berthed? { StartingSame(s, t, p.id); }
      case _ =>
    }
  }

  lemma ActCapacity(s: System, t: Thread, a: Action)
    requires CapacityOk(s)
    ensures CapacityOk(Act(s, t, a)) && Act(s, t, a).cap.shore == s.cap.shore
  {
    hide Tested, Act;
    ActPosition(s, t, a);
    ActBooks(s, t, a);
  }

  lemma ActBooks(s: System, t: Thread, a: Action)
    requires CapacityOk(s)
    ensures CapInv(Act(s, t, a).cap) && Act(s, t, a).cap.shore == s.cap.shore
  {
    hide CapInv, SessionID, HasLive, Release, TryAllocate, NulFree, Remain, ValidPhase;
    var p := At(s, t);
    if IsMove(a) {
      hide Work;
      match a
      case Refresh(stale, at) => if p.Checked? { ReleasedCapacity(s.cap, p.req.berthID, at); }
      case Allocating(at) => if p.Refreshed? { TryAllocateSafe(s.cap, p.req.berthID, p.req.vessel, p.req.needKVA, at); }
      case Undo(at) => if p.Undoing? { ReleasedCapacity(s.cap, p.berthID, at); }
      case Free(at) => if p.Freeing? { ReleasedCapacity(s.cap, p.berthID, at); }
      case _ =>
    } else if a.Elsewhere? && Callable(a.section) {
      match a.section
      case Claim(b, vessel, kva, at) => TryAllocateSafe(s.cap, b, vessel, kva, at);
      case Free(b, at) => ReleasedCapacity(s.cap, b, at);
    }
  }

  // The results.

  lemma ActSafe(s: System, t: Thread, a: Action)
    requires Inv(s)
    ensures Inv(Act(s, t, a)) && Act(s, t, a).cap.shore == s.cap.shore
  {
    hide SessionsOk, ChannelsOk, GatesOk, CountsOk, MetersOk, CapacityOk, Act;
    ActSessions(s, t, a);
    ActChannels(s, t, a);
    ActGates(s, t, a);
    ActCounts(s, t, a);
    ActMeters(s, t, a);
    ActCapacity(s, t, a);
  }

  lemma StartSafe(shore: real)
    ensures Inv(Start(shore))
  {
    hide CapInv, SessionID;
    FreshSafe(shore);
    assert IDs(0) == {};
    assert forall r :: FinishedFor(Start(shore), r) == {};
  }

  lemma {:induction false} InterleavedSafe(shore: real, turns: seq<Turn>)
    ensures var s := Interleaved(Start(shore), turns); Inv(s) && s.cap.shore == shore
  {
    hide Inv, Act;
    if turns == [] {
      StartSafe(shore);
    } else {
      var last := turns[|turns| - 1];
      InterleavedSafe(shore, turns[..|turns| - 1]);
      ActSafe(Interleaved(Start(shore), turns[..|turns| - 1]), last.t, last.a);
    }
  }

  ghost function SessionsFor(s: System, requestID: string): set<string> {
    set id | id in s.sessions && s.sessions[id].requestID == requestID
  }

  /** No session is lost, a session is undecided exactly while it has a channel, and each session gets
      through the gate at most once. */
  lemma SessionsMean(s: System, id: string)
    requires Inv(s)
    ensures |s.sessions| == s.number
    ensures id in s.pending <==> id in s.sessions && Undecided(s.sessions[id].state)
    ensures s.gates[id] <= 1
  {
    hide IDs;
    IDCount(s.number);
    assert |s.sessions| == |s.sessions.Keys|;
  }

  ghost function VesselsFor(s: System, requestID: string): set<string> {
    set id | id in s.sessions && s.sessions[id].requestID == requestID :: s.sessions[id].vessel
  }

  ghost function VesselsOf(s: System, ids: set<string>): set<string>
    requires ids <= s.sessions.Keys
  {
    set id | id in ids :: s.sessions[id].vessel
  }

  /** No two sessions of one vessel are ever executed. */
  lemma VesselsDistinct(s: System, a: string, b: string)
    requires Inv(s) && a in s.finished && b in s.finished
    ensures a in s.sessions && b in s.sessions && (s.sessions[a].vessel == s.sessions[b].vessel ==> a == b)
  {
    hide SessionsOk, ChannelsOk, GatesOk, CapacityOk, Sum, FinishedFor;
    assert Started(s, a) && Started(s, b);
  }

  lemma {:induction false} AsManyVessels(s: System, ids: set<string>)
    requires Inv(s) && ids <= s.finished && s.finished <= s.sessions.Keys
    ensures |VesselsOf(s, ids)| == |ids|
    decreases ids
  {
    hide Inv;
    if ids != {} {
      var id :| id in ids;
      var rest := ids - {id};
      AsManyVessels(s, rest);
      forall x | x in rest ensures s.sessions[x].vessel != s.sessions[id].vessel {
        VesselsDistinct(s, x, id);
      }
      assert VesselsOf(s, ids) == VesselsOf(s, rest) + {s.sessions[id].vessel};
    } else {
      assert VesselsOf(s, ids) == {};
    }
  }

  /** A request is executed at most as often as it names different vessels, which is at most as often as
      it has sessions; and all executions together are no more than the closings of the grid, and no
      more than the vessels that were metered. */
  lemma ExecutionsMean(s: System, requestID: string)
    requires Inv(s)
    ensures ExecutionsOf(s, requestID) <= |VesselsFor(s, requestID)|
    ensures ExecutionsOf(s, requestID) <= |SessionsFor(s, requestID)|
    ensures Sum(s.executed) <= s.execs && Sum(s.executed) <= |s.metered|
  {
    var done := FinishedFor(s, requestID);
    CountsPart(s, requestID);
    hide Inv, Sum, ExecutionsOf;
    AsManyVessels(s, done);
    Fewer(VesselsOf(s, done), VesselsFor(s, requestID));
    Fewer(done, SessionsFor(s, requestID));
    Fewer(s.finished, s.closers);
    AsManyVessels(s, s.finished);
    Fewer(VesselsOf(s, s.finished), s.metered.Keys);
  }

  lemma CountsPart(s: System, requestID: string)
    requires Inv(s)
    ensures s.finished <= s.sessions.Keys && s.finished <= s.closers && |s.closers| <= s.execs
    ensures ExecutionsOf(s, requestID) == |FinishedFor(s, requestID)| && Sum(s.executed) == |s.finished|
    ensures forall id :: id in s.finished ==> s.sessions[id].vessel in s.metered
  {
    hide SessionsOk, ChannelsOk, CapacityOk, Knowing, OneCarrier, Sum;
    assert forall id :: id in s.finished ==> Started(s, id);
  }

  /** In particular a request whose sessions all name one vessel is executed at most once, however its
      calls overlap. */
  lemma OneVesselOnce(s: System, requestID: string, vessel: string)
    requires Inv(s)
    requires forall id :: id in s.sessions && s.sessions[id].requestID == requestID ==> s.sessions[id].vessel == vessel
    ensures ExecutionsOf(s, requestID) <= 1
  {
    hide Inv, ExecutionsOf, Sum;
    ExecutionsMean(s, requestID);
    Fewer(VesselsFor(s, requestID), {vessel});
  }

  lemma {:induction false} Fewer(a: set<string>, b: set<string>)
    requires a <= b
    ensures |a| <= |b|
  {
    if a != {} {
      var x :| x in a;
      Fewer(a - {x}, b - {x});
    }
  }

  /** Signalling never closes a channel twice, and no two threads have the same one in hand; a waiter
      always has a channel, and if it is woken its session has been decided. */
  lemma ChannelsMean(s: System, t: Thread, u: Thread, c: Channel)
    requires Inv(s)
    ensures s.closed[c] <= 1
    ensures Holds(At(s, t), c) ==> c !in s.closed && (Holds(At(s, u), c) ==> t == u)
    ensures At(s, t).Waiting? ==> At(s, t).ch.Some?
    ensures Act(s, t, Wake) != s ==>
              At(s, t).Waiting? && At(s, t).id in s.sessions && !Undecided(s.sessions[At(s, t).id].state)
  {
    hide IDs, GatesOk, CountsOk, MetersOk, CapacityOk, Work, Release, TryAllocate, HasLive, NulFree, Remain;
    if t in s.threads {
      assert KnowsChannel(s, s.threads[t]);
    }
  }

  /** However the sections of connection calls, occupations, releases and dispatches interleave: the
      results above hold, and capacity is never over-allocated. */
  lemma EveryInterleaving(shore: real, turns: seq<Turn>, requestID: string, c: Channel)
    ensures var s := Interleaved(Start(shore), turns);
            && |s.sessions| == s.number
            && ExecutionsOf(s, requestID) <= |VesselsFor(s, requestID)|
            && ExecutionsOf(s, requestID) <= |SessionsFor(s, requestID)|
            && Sum(s.executed) <= s.execs && Sum(s.executed) <= |s.metered|
            && s.closed[c] <= 1
            && (shore >= 0.0 ==> Remain(s.cap) >= 0.0)
  {
    hide Inv, Interleaved, Sum, ExecutionsOf, Remain;
    var s := Interleaved(Start(shore), turns);
    InterleavedSafe(shore, turns);
    SessionsMean(s, "");
    ExecutionsMean(s, requestID);
    ChannelsMean(s, 0, 0, c);
    if shore >= 0.0 {
      BooksOf(s);
      NeverOwed(s.cap);
    }
  }

  lemma SessionsPart(s: System)
    requires Inv(s)
    ensures SessionsOk(s)
  {
  }

  lemma BooksOf(s: System)
    requires Inv(s)
    ensures CapInv(s.cap)
  {
  }
}
