/** Connection sessions as a value, together with the stores a connection call goes through, and what
    each connection call does to them when it runs without interference. */
module Sessions {
  import opened Prelude
  import opened BerthTable
  import opened CapacityBook
  import opened GridState
  import Metering
  import Decimal

  /** `Lapsed` is the program's idle session state, which only a timeout sets. */
  datatype SState = Lapsed | Verifying | Connecting | Connected | Failed | Cancelled

  datatype Progress = StepVerify | StepPhaseCheck | StepLink | StepClose

  datatype Reason = NoReason | ByOperator | Because(e: Error) | WaitExpired

  datatype Session = Session(
    id: string, requestID: string, vessel: string, berthID: string, phase: Phase, state: SState,
    progress: seq<Progress>, reason: Reason, at: Time, allocation: Allocation)

  datatype Override = Override(active: bool, vessel: string)

  function ActiveFor(o: Override, vessel: string): bool {
    o.active && (o.vessel == "" || o.vessel == vessel)
  }

  /** `pending` holds the ids of the sessions whose waiters have not been signalled. */
  datatype Conn = Conn(
    sessions: map<string, Session>, pending: set<string>, executed: map<string, nat>, over: Override, number: nat)

  const NO_SESSIONS: Conn := Conn(map[], {}, map[], Override(false, ""), 0)

  datatype Core = Core(tbl: Table, cap: Cap, grid: Grid, met: Metering.Meters, conn: Conn)

  datatype Request = Request(requestID: string, vessel: string, berthID: string, needKVA: real, phase: Phase)

  function SessionID(n: nat): string {
    "s-" + Decimal.Pad3(n)
  }

  predicate Live(s: Session) {
    !s.state.Failed? && !s.state.Cancelled?
  }

  ghost predicate LiveFor(c: Conn, id: string, requestID: string) {
    id in c.sessions && c.sessions[id].requestID == requestID && Live(c.sessions[id])
  }

  /** Some live session of a request, if there is one. */
  ghost function FindLive(c: Conn, requestID: string): (r: Option<string>)
    ensures r.Some? ==> LiveFor(c, r.value, requestID)
    ensures r.None? ==> forall id :: !LiveFor(c, id, requestID)
  {
    if exists id :: LiveFor(c, id, requestID) then (var id :| LiveFor(c, id, requestID); Some(id)) else None
  }

  function Executed(c: Conn, requestID: string): nat {
    if requestID in c.executed then c.executed[requestID] else 0
  }

  function NewSession(id: string, req: Request, a: Allocation, now: Time): Session {
    Session(id, req.requestID, req.vessel, req.berthID, req.phase, Verifying, [StepVerify], NoReason, now, a)
  }

  function Registered(c: Conn, req: Request, a: Allocation, now: Time): Conn {
    var id := SessionID(c.number + 1);
    Conn(c.sessions[id := NewSession(id, req, a, now)], c.pending + {id}, c.executed, c.over, c.number + 1)
  }

  /** What is checked before anything is claimed. */
  function Refusal(rows: Rows, req: Request): Option<Error> {
    if req.vessel == "" || req.berthID == "" then Some(VesselRequired)
    else if !ValidPhase(req.phase) then Some(InvalidPhase)
    else CheckReady(rows, req.berthID, req.needKVA)
  }

  /** The claiming half of Apply: capacity, then the berth, then the session; a berth that cannot be
      marked gives the capacity back. */
  ghost function Claim(w: Core, req: Request, now: Time): (Core, Result<Session>) {
    var (cap, a) := Allocate(w.tbl.rows, w.cap, req.berthID, req.vessel, req.needKVA, now);
    if a.Err? then (w.(cap := cap), Err(a.error))
    else
      var (tbl, e) := MarkAllocating(w.tbl, req.berthID);
      if e.Some? then (w.(cap := Release(cap, req.berthID, now).0), Err(e.value))
      else
        var conn := Registered(w.conn, req, a.value, now);
        (w.(tbl := tbl, cap := cap, conn := conn), Ok(conn.sessions[SessionID(conn.number)]))
  }

  ghost function Apply(w: Core, req: Request, now: Time): (Core, Result<Session>) {
    var live := FindLive(w.conn, req.requestID);
    var refusal := Refusal(w.tbl.rows, req);
    if req.requestID != "" && live.Some? then (w, Ok(w.conn.sessions[live.value]))
    else if refusal.Some? then (w, Err(refusal.value))
    else Claim(w, req, now)
  }

  /** A session leaves the protocol with a verdict and its waiters are signalled. */
  function Closed(c: Conn, id: string, st: SState, why: Reason): Conn
    requires id in c.sessions
  {
    c.(sessions := c.sessions[id := c.sessions[id].(state := st, reason := why)], pending := c.pending - {id})
  }

  /** Berth and capacity are given back. */
  function Vacate(w: Core, berthID: string, now: Time): Core {
    w.(tbl := MarkIdle(w.tbl, berthID).0, cap := Release(w.cap, berthID, now).0)
  }

  function Abandon(w: Core, id: string, st: SState, why: Reason, now: Time): Core
    requires id in w.conn.sessions
  {
    var w1 := w.(conn := Closed(w.conn, id, st, why));
    var berthID := w.conn.sessions[id].berthID;
    if berthID == "" && !st.Cancelled? then w1 else Vacate(w1, berthID, now)
  }

  function Gated(c: Conn, id: string): Conn
    requires id in c.sessions
  {
    var s := c.sessions[id];
    c.(sessions := c.sessions[id := s.(state := Connecting, progress := s.progress + [StepPhaseCheck, StepLink])])
  }

  function Finished(c: Conn, id: string): Conn
    requires id in c.sessions
  {
    var s := c.sessions[id];
    c.(sessions := c.sessions[id := s.(state := Connected, progress := s.progress + [StepClose])],
       executed := c.executed[s.requestID := Executed(c, s.requestID) + 1],
       pending := c.pending - {id})
  }

  /** The four effects of a confirmed session in order; the first that fails stops them. */
  function Connect(w: Core, s: Session, now: Time): (Core, Option<Error>) {
    var (g1, e1) := PhaseCheck(w.grid, s.phase);
    if e1.Some? then (w.(grid := g1), e1)
    else
      var (g2, e2) := SyncAndClose(g1, s.phase);
      if e2.Some? then (w.(grid := g2), e2)
      else
        var (t, e3) := MarkOccupied(w.tbl, s.berthID, s.vessel, now);
        if e3.Some? then (w.(grid := g2, tbl := t), e3)
        else
          var (m, e4) := Metering.Start(w.met, s.vessel, s.berthID, now);
          (w.(grid := g2, tbl := t, met := m), e4)
  }

  function Confirm(w: Core, id: string, now: Time): (Core, Option<Error>) {
    if id !in w.conn.sessions then (w, Some(UnknownSession))
    else if w.conn.sessions[id].state.Connected? then (w, None)
    else if !w.conn.sessions[id].state.Verifying? then (w, Some(NotVerifying))
    else
      var (w1, e) := Connect(w.(conn := Gated(w.conn, id)), w.conn.sessions[id], now);
      if e.Some? then (Abandon(w1, id, Failed, Because(e.value), now), e)
      else (w1.(conn := Finished(w1.conn, id)), None)
  }

  function Cancel(w: Core, id: string, now: Time): (Core, Option<Error>) {
    if id !in w.conn.sessions then (w, Some(UnknownSession))
    else if w.conn.sessions[id].state.Connected? then (w, Some(AlreadyClosed))
    else (Abandon(w, id, Cancelled, ByOperator, now), None)
  }

  /** A wait that nobody signals: it is refused or it runs out. */
  function Wait(w: Core, id: string, now: Time): (Core, Error) {
    if id !in w.conn.sessions then (w, UnknownSession)
    else if !w.conn.sessions[id].state.Verifying? then (w, NotVerifying)
    else (Abandon(w, id, Lapsed, WaitExpired, now), VerifyTimeout)
  }

  function SetOverride(w: Core, o: Override): Core {
    w.(conn := w.conn.(over := o), grid := w.grid.(mode := if o.active then Manual else Auto))
  }

  predicate Target(c: Conn, id: string) {
    id in c.sessions && c.sessions[id].state.Verifying? && !ActiveFor(c.over, c.sessions[id].vessel)
  }

  /** The dispatch targets in some order. */
  ghost predicate Ordering(c: Conn, order: seq<string>) {
    && (forall i :: 0 <= i < |order| ==> Target(c, order[i]))
    && (forall i, j :: 0 <= i < j < |order| ==> order[i] != order[j])
    && (forall id :: Target(c, id) ==> id in order)
  }

  /** Confirming one target after another. */
  function ConfirmAll(w: Core, order: seq<string>, now: Time): (Core, nat) {
    if order == [] then (w, 0)
    else
      var (w1, n) := ConfirmAll(w, order[..|order| - 1], now);
      var (w2, e) := Confirm(w1, order[|order| - 1], now);
      (w2, if e.None? then n + 1 else n)
  }

  function AutoDispatch(w: Core, order: seq<string>, now: Time): (Core, nat) {
    var (w1, n) := ConfirmAll(w, order, now);
    (if n > 0 then w1.(grid := Drain(w1.grid).0) else w1, n)
  }
}
