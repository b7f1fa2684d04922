/** Who holds which berth and which capacity: the invariant that ties berths, allocations and sessions
    together, and what each connection call does to it. */
module Ownership {
  import opened Prelude
  import opened BerthTable
  import opened CapacityBook
  import opened GridState
  import opened Sessions
  import opened AtMostOnce
  import Metering

  /** One berth agrees with the allocator. */
  ghost predicate RowOk(b: Berth, id: string, allocs: map<string, Allocation>) {
    && !b.state.Releasing?
    && (b.state.Idle? <==> id !in allocs)
    && (b.state.Settled? ==> b.vessel != "" && allocs[id].vessel == b.vessel)
    && (!b.state.Settled? ==> b.vessel == "")
    && (id in allocs ==> allocs[id].kva <= b.capacityKVA)
  }

  predicate VerifyingOn(sessions: map<string, Session>, id: string, b: string) {
    id in sessions && sessions[id].state.Verifying? && sessions[id].berthID == b
  }

  ghost predicate HasOwner(sessions: map<string, Session>, b: string) {
    exists id :: VerifyingOn(sessions, id, b)
  }

  /** A verifying session holds its berth, and its allocation is the allocator's entry. */
  ghost predicate Owns(rows: Rows, allocs: map<string, Allocation>, s: Session) {
    && s.berthID != "" && s.vessel != ""
    && s.berthID in rows && rows[s.berthID].state.Allocating?
    && s.berthID in allocs && allocs[s.berthID] == s.allocation
    && s.allocation.vessel == s.vessel
  }

  ghost predicate OwnInv(rows: Rows, allocs: map<string, Allocation>, sessions: map<string, Session>) {
    && Keyed(rows) && NulFreeIds(rows) && allocs.Keys <= rows.Keys
    && (forall b :: b in rows ==> RowOk(rows[b], b, allocs))
    && (forall id :: id in sessions && sessions[id].state.Verifying? ==> Owns(rows, allocs, sessions[id]))
    && (forall id, id', b :: VerifyingOn(sessions, id, b) && VerifyingOn(sessions, id', b) ==> id == id')
    && (forall b :: b in rows && rows[b].state.Allocating? ==> HasOwner(sessions, b))
  }

  ghost predicate CoreOwns(w: Core) {
    OwnInv(w.tbl.rows, w.cap.allocs, w.conn.sessions)
  }

  /** Nothing outside berth `b` and the sessions verifying on it has changed. */
  ghost predicate OnlyBerth(
    rows: Rows, allocs: map<string, Allocation>, sessions: map<string, Session>,
    rows': Rows, allocs': map<string, Allocation>, sessions': map<string, Session>, b: string)
  {
    && b in rows && OnlyRow(rows, rows', b)
    && (forall x :: x != b ==> (x in allocs' <==> x in allocs))
    && (forall x :: x != b && x in allocs ==> allocs'[x] == allocs[x])
    && (forall id, x :: x != b ==> (VerifyingOn(sessions', id, x) <==> VerifyingOn(sessions, id, x)))
    && (forall id, x :: x != b && VerifyingOn(sessions, id, x) ==> sessions'[id] == sessions[id])
  }

  /** Berth `b` itself is in order. */
  ghost predicate BerthInOrder(rows: Rows, allocs: map<string, Allocation>, sessions: map<string, Session>, b: string) {
    && b in rows && RowOk(rows[b], b, allocs)
    && (forall id :: VerifyingOn(sessions, id, b) ==> Owns(rows, allocs, sessions[id]))
    && (forall id, id' :: VerifyingOn(sessions, id, b) && VerifyingOn(sessions, id', b) ==> id == id')
    && (rows[b].state.Allocating? ==> HasOwner(sessions, b))
  }

  lemma LocalRows(
    rows: Rows, allocs: map<string, Allocation>, sessions: map<string, Session>,
    rows': Rows, allocs': map<string, Allocation>, sessions': map<string, Session>, b: string)
    requires OwnInv(rows, allocs, sessions)
    requires OnlyBerth(rows, allocs, sessions, rows', allocs', sessions', b)
    requires BerthInOrder(rows', allocs', sessions', b)
    ensures Keyed(rows') && NulFreeIds(rows') && allocs'.Keys <= rows'.Keys
    ensures forall x :: x in rows' ==> RowOk(rows'[x], x, allocs')
    ensures forall x :: x in rows' && rows'[x].state.Allocating? ==> HasOwner(sessions', x)
  {
    hide Owns;
    forall x | x in allocs' ensures x in rows' {
      assert x != b ==> x in allocs;
    }
    forall x | x in rows' && rows'[x].state.Allocating? ensures HasOwner(sessions', x) {
      if x != b {
        var id :| VerifyingOn(sessions, id, x);
        assert VerifyingOn(sessions', id, x);
      }
    }
  }

  lemma LocalSessions(
    rows: Rows, allocs: map<string, Allocation>, sessions: map<string, Session>,
    rows': Rows, allocs': map<string, Allocation>, sessions': map<string, Session>, b: string, id: string)
    requires OwnInv(rows, allocs, sessions)
    requires OnlyBerth(rows, allocs, sessions, rows', allocs', sessions', b)
    requires BerthInOrder(rows', allocs', sessions', b)
    requires id in sessions' && sessions'[id].state.Verifying?
    ensures Owns(rows', allocs', sessions'[id])
  {
    hide RowOk, HasOwner;
    var x := sessions'[id].berthID;
    assert VerifyingOn(sessions', id, x);
    if x != b {
      assert VerifyingOn(sessions, id, x);
    }
  }

  /** Ownership is local: a change at one berth need only put that berth in order. */
  lemma Local(
    rows: Rows, allocs: map<string, Allocation>, sessions: map<string, Session>,
    rows': Rows, allocs': map<string, Allocation>, sessions': map<string, Session>, b: string)
    requires OwnInv(rows, allocs, sessions)
    requires OnlyBerth(rows, allocs, sessions, rows', allocs', sessions', b)
    requires BerthInOrder(rows', allocs', sessions', b)
    ensures OwnInv(rows', allocs', sessions')
  {
    hide RowOk, HasOwner, Owns, SameBerths;
    LocalRows(rows, allocs, sessions, rows', allocs', sessions', b);
    forall id | id in sessions' && sessions'[id].state.Verifying? ensures Owns(rows', allocs', sessions'[id]) {
      LocalSessions(rows, allocs, sessions, rows', allocs', sessions', b, id);
    }
    forall id, id', x | VerifyingOn(sessions', id, x) && VerifyingOn(sessions', id', x) ensures id == id' {
      if x != b {
        assert VerifyingOn(sessions, id, x) && VerifyingOn(sessions, id', x);
      }
    }
  }

  /** Whoever verifies on a berth owns it, and nobody else does. */
  lemma Owners(rows: Rows, allocs: map<string, Allocation>, sessions: map<string, Session>, b: string)
    requires OwnInv(rows, allocs, sessions)
    ensures forall id :: VerifyingOn(sessions, id, b) ==> Owns(rows, allocs, sessions[id])
    ensures forall id, id' :: VerifyingOn(sessions, id, b) && VerifyingOn(sessions, id', b) ==> id == id'
  {
    forall id | VerifyingOn(sessions, id, b) ensures Owns(rows, allocs, sessions[id]) {
      assert sessions[id].state.Verifying?;
    }
  }

  /** Replacing one session by one that is not verifying takes away exactly its own claim. */
  lemma Replaced(sessions: map<string, Session>, id: string, s: Session)
    requires id in sessions && !s.state.Verifying?
    ensures var after := sessions[id := s];
            forall x, b :: VerifyingOn(after, x, b) <==> x != id && VerifyingOn(sessions, x, b)
  {
    var after := sessions[id := s];
    forall x, b ensures VerifyingOn(after, x, b) <==> x != id && VerifyingOn(sessions, x, b) {
      assert x in after <==> x in sessions;
    }
  }

  /** A verifying session that stops verifying leaves its berth idle and unallocated. */
  lemma GivenUp(
    rows: Rows, allocs: map<string, Allocation>, sessions: map<string, Session>,
    rows': Rows, id: string, s: Session)
    requires OwnInv(rows, allocs, sessions) && id in sessions && sessions[id].state.Verifying?
    requires s.berthID == sessions[id].berthID && !s.state.Verifying?
    requires OnlyRow(rows, rows', s.berthID)
    requires s.berthID in rows' && rows'[s.berthID].state.Idle? && rows'[s.berthID].vessel == ""
    ensures OwnInv(rows', allocs - {s.berthID}, sessions[id := s])
  {
    hide OwnInv, HasOwner;
    var b := s.berthID;
    assert VerifyingOn(sessions, id, b);
    Owners(rows, allocs, sessions, b);
    Replaced(sessions, id, s);
    Local(rows, allocs, sessions, rows', allocs - {b}, sessions[id := s], b);
  }

  /** A verifying session that connects settles its berth for its vessel. */
  lemma Settles(
    rows: Rows, allocs: map<string, Allocation>, sessions: map<string, Session>,
    rows': Rows, id: string, s: Session)
    requires OwnInv(rows, allocs, sessions) && id in sessions && sessions[id].state.Verifying?
    requires s.berthID == sessions[id].berthID && !s.state.Verifying?
    requires OnlyRow(rows, rows', s.berthID)
    requires s.berthID in rows' && rows'[s.berthID].state.Settled? && rows'[s.berthID].vessel == sessions[id].vessel
    ensures OwnInv(rows', allocs, sessions[id := s])
  {
    hide OwnInv, HasOwner;
    var b := s.berthID;
    assert VerifyingOn(sessions, id, b);
    Owners(rows, allocs, sessions, b);
    OwnedRow(rows, allocs, sessions, b);
    Replaced(sessions, id, s);
    Local(rows, allocs, sessions, rows', allocs, sessions[id := s], b);
  }

  /** A new verifying session takes an idle berth. */
  lemma Claimed(
    rows: Rows, allocs: map<string, Allocation>, sessions: map<string, Session>,
    rows': Rows, id: string, s: Session)
    requires OwnInv(rows, allocs, sessions) && id !in sessions && s.state.Verifying?
    requires s.berthID in rows && rows[s.berthID].state.Idle? && OnlyRow(rows, rows', s.berthID)
    requires rows'[s.berthID] == rows[s.berthID].(state := Allocating)
    requires s.berthID != "" && s.vessel != "" && s.allocation.vessel == s.vessel
    requires s.allocation.kva <= rows[s.berthID].capacityKVA
    ensures OwnInv(rows', allocs[s.berthID := s.allocation], sessions[id := s])
  {
    hide OwnInv;
    var b, sessions' := s.berthID, sessions[id := s];
    Owners(rows, allocs, sessions, b);
    OwnedRow(rows, allocs, sessions, b);
    assert forall x, y :: VerifyingOn(sessions', x, y) <==> (x == id && y == b) || VerifyingOn(sessions, x, y);
    assert VerifyingOn(sessions', id, b);
    Local(rows, allocs, sessions, rows', allocs[b := s.allocation], sessions', b);
  }

  /** When a request that has no live session yet is taken on. */
  ghost predicate Acceptable(w: Core, req: Request) {
    && req.vessel != "" && req.berthID != "" && ValidPhase(req.phase)
    && req.berthID in w.tbl.rows && w.tbl.rows[req.berthID].state.Idle?
    && 0.0 < req.needKVA <= w.tbl.rows[req.berthID].capacityKVA && req.needKVA <= Remain(w.cap)
  }

  ghost predicate Answered(c: Conn, req: Request) {
    req.requestID != "" && FindLive(c, req.requestID).Some?
  }

  function Granting(req: Request, now: Time): Allocation {
    Allocation(AllocID(req.berthID, req.vessel, req.needKVA), req.berthID, req.vessel, req.needKVA, now)
  }

  /** Exactly when Apply takes a request on, and what that takes: a session under an unused id, the
      berth, and just the capacity asked for. In all other cases nothing changes. */
  lemma ApplyOutcome(w: Core, req: Request, now: Time)
    requires CoreOwns(w) && CapInv(w.cap) && OnceInv(w.conn)
    ensures var (w1, r) := Apply(w, req, now);
            var (id, a) := (SessionID(w.conn.number + 1), Granting(req, now));
            var taken := !Answered(w.conn, req) && Acceptable(w, req);
            && (r.Ok? <==> Answered(w.conn, req) || taken)
            && (!taken ==> w1 == w)
            && (taken ==> id !in w.conn.sessions && r == Ok(NewSession(id, req, a, now)))
            && (taken ==> w1.conn == Registered(w.conn, req, a, now))
            && (taken ==>
                  w1.tbl.rows == w.tbl.rows[req.berthID := w.tbl.rows[req.berthID].(state := BState.Allocating)])
            && (taken ==> w1.cap.allocs == w.cap.allocs[req.berthID := a])
            && (taken ==> Remain(w1.cap) == Remain(w.cap) - req.needKVA)
            && CapInv(w1.cap) && w1.grid == w.grid && w1.met == w.met
  {
    hide OwnInv, CapInv, OnceInv, Allocate, Grows, SessionID, AllocID, FindLive, Remain;
    var rows, b := w.tbl.rows, req.berthID;
    if !Answered(w.conn, req) {
      OwnedRow(rows, w.cap.allocs, w.conn.sessions, b);
      AllocateFresh(rows, w.cap, b, req.vessel, req.needKVA, now);
      RegisteredOnce(w.conn, req, Granting(req, now), now);
      assert b in rows && rows[b].state.Idle? ==> b !in w.cap.allocs;
      var (c1, a) := Allocate(rows, w.cap, b, req.vessel, req.needKVA, now);
      assert Refusal(rows, req).None? ==> (a.Ok? <==> req.needKVA <= Remain(w.cap));
    }
  }

  lemma ApplyOwns(w: Core, req: Request, now: Time)
    requires CoreOwns(w) && CapInv(w.cap) && OnceInv(w.conn)
    ensures var w1 := Apply(w, req, now).0; CoreOwns(w1) && CapInv(w1.cap) && w1.grid == w.grid && w1.met == w.met
  {
    hide OwnInv, CapInv, OnceInv, Apply, SessionID, AllocID, Remain, FindLive;
    ApplyOutcome(w, req, now);
    if !Answered(w.conn, req) && Acceptable(w, req) {
      var id := SessionID(w.conn.number + 1);
      var w1 := Apply(w, req, now).0;
      Claimed(w.tbl.rows, w.cap.allocs, w.conn.sessions, w1.tbl.rows, id, NewSession(id, req, Granting(req, now), now));
    }
  }

  /** What the invariant says of one berth. */
  lemma OwnedRow(rows: Rows, allocs: map<string, Allocation>, sessions: map<string, Session>, b: string)
    requires OwnInv(rows, allocs, sessions)
    ensures NulFreeIds(rows) && Keyed(rows) && (b in allocs ==> b in rows) && (b in rows ==> RowOk(rows[b], b, allocs))
  {
  }

  lemma BecomesIdle(rows: Rows, t: Table, b: string)
    requires b in rows && OnlyRow(rows, t.rows, b)
    requires t.rows[b].state.Idle? ==> t.rows[b].vessel == ""
    ensures var t1 := MarkIdle(t, b).0; OnlyRow(rows, t1.rows, b) && t1.rows[b].state.Idle? && t1.rows[b].vessel == ""
  {
  }

  /** Abandoning a verifying session, whatever has become of its berth in the meantime. */
  lemma AbandonOwns(w: Core, mid: Core, id: string, st: SState, why: Reason, now: Time)
    requires CoreOwns(w) && CapInv(w.cap) && id in w.conn.sessions && w.conn.sessions[id].state.Verifying?
    requires mid.conn == w.conn || mid.conn == Gated(w.conn, id)
    requires mid.cap == w.cap && OnlyRow(w.tbl.rows, mid.tbl.rows, w.conn.sessions[id].berthID)
    requires mid.tbl == w.tbl || mid.tbl.rows[w.conn.sessions[id].berthID].state.Settled?
    requires !st.Verifying?
    ensures var w1 := Abandon(mid, id, st, why, now);
            && CoreOwns(w1) && CapInv(w1.cap)
            && GaveBack(w, w1, w.conn.sessions[id].berthID)
            && w1.conn == Closed(mid.conn, id, st, why) && w1.grid == mid.grid && w1.met == mid.met
  {
    hide CapInv, Grows, OwnInv, OnlyRow, MarkIdle, Remain, CloseFirst, Fingerprint;
    var s := w.conn.sessions[id];
    var b := s.berthID;
    var w1 := Abandon(mid, id, st, why, now);
    ReleaseSafe(w.cap, b, now);
    OwnedSession(w, id);
    SameRow(w.tbl.rows, mid.tbl.rows, b);
    BecomesIdle(w.tbl.rows, mid.tbl, b);
    assert w1.conn.sessions == w.conn.sessions[id := w1.conn.sessions[id]];
    SameRow(w.tbl.rows, w1.tbl.rows, b);
    GivenUp(w.tbl.rows, w.cap.allocs, w.conn.sessions, w1.tbl.rows, id, w1.conn.sessions[id]);
  }

  lemma SameRow(rows: Rows, rows': Rows, b: string)
    requires OnlyRow(rows, rows', b)
    ensures rows'.Keys == rows.Keys
  {
  }

  /** A berth has gone back to idle and its capacity is free again; all other berths and allocations
      are as before. */
  ghost predicate GaveBack(w: Core, w1: Core, b: string) {
    && b in w.tbl.rows && OnlyRow(w.tbl.rows, w1.tbl.rows, b)
    && w1.tbl.rows[b].state.Idle? && w1.tbl.rows[b].vessel == ""
    && b in w.cap.allocs && w1.cap.allocs == w.cap.allocs - {b}
    && Remain(w1.cap) == Remain(w.cap) + w.cap.allocs[b].kva
  }

  /** Whether the grid can be closed for a phase. */
  predicate Closable(g: Grid, p: Phase) {
    !g.state.OnGrid? && g.matches(p) && !g.fault
  }

  function GridAfter(g: Grid, p: Phase): Grid {
    if g.state.OnGrid? then g
    else if Closable(g, p) then g.(checked := true, phase := p, closed := true, state := OnGrid, execs := g.execs + 1)
    else g.(checked := true, phase := p)
  }

  /** Confirming a verifying session connects exactly when the grid is not already on, the phase
      matches, the breaker closes and the vessel has never been metered before. Otherwise the session
      fails and everything it held is given back, except that the grid stays on if only the metering
      was refused. */
  lemma ConfirmOutcome(w: Core, id: string, now: Time)
    requires CoreOwns(w) && CapInv(w.cap) && id in w.conn.sessions && w.conn.sessions[id].state.Verifying?
    ensures var (w1, e) := Confirm(w, id, now);
            var s := w.conn.sessions[id];
            && CoreOwns(w1) && CapInv(w1.cap)
            && (e.None? <==> Closable(w.grid, s.phase) && s.vessel !in w.met.active)
            && w1.grid == GridAfter(w.grid, s.phase)
            && (e.None? ==> w1.cap == w.cap && w1.met == Metering.Start(w.met, s.vessel, s.berthID, now).0)
            && (e.None? ==> w1.conn == Finished(Gated(w.conn, id), id) && OnlyRow(w.tbl.rows, w1.tbl.rows, s.berthID))
            && (e.None? ==> s.berthID in w1.tbl.rows && w1.tbl.rows[s.berthID].state.Settled?)
            && (e.None? ==> w1.tbl.rows[s.berthID].vessel == s.vessel)
            && (e.Some? ==> GaveBack(w, w1, s.berthID) && w1.met == w.met)
            && (e.Some? ==> w1.conn == Closed(Gated(w.conn, id), id, Failed, Because(e.value)))
  {
    hide CapInv, OwnInv, Abandon, Closed, Stamp;
    var s := w.conn.sessions[id];
    var g := w.(conn := Gated(w.conn, id));
    var (mid, e) := Connect(g, s, now);
    OwnedSession(w, id);
    ConnectOutcome(g, s, now);
    if e.Some? {
      AbandonOwns(w, mid, id, Failed, Because(e.value), now);
    } else {
      GatedKeys(w.conn, id);
      var w1 := Confirm(w, id, now).0;
      assert w1.conn.sessions == w.conn.sessions[id := w1.conn.sessions[id]];
      Settles(w.tbl.rows, w.cap.allocs, w.conn.sessions, w1.tbl.rows, id, w1.conn.sessions[id]);
    }
  }

  lemma OwnedSession(w: Core, id: string)
    requires CoreOwns(w) && id in w.conn.sessions && w.conn.sessions[id].state.Verifying?
    ensures Owns(w.tbl.rows, w.cap.allocs, w.conn.sessions[id])
  {
  }

  lemma ConnectOutcome(w: Core, s: Session, now: Time)
    requires s.vessel != "" && s.berthID != "" && s.berthID in w.tbl.rows && w.tbl.rows[s.berthID].state.Allocating?
    ensures var (w1, e) := Connect(w, s, now);
            && (e.None? <==> Closable(w.grid, s.phase) && s.vessel !in w.met.active)
            && w1.grid == GridAfter(w.grid, s.phase) && w1.cap == w.cap && w1.conn == w.conn
            && OnlyRow(w.tbl.rows, w1.tbl.rows, s.berthID)
            && (w1.tbl == w.tbl || w1.tbl.rows[s.berthID].state.Settled?)
            && (e.None? ==> w1.met == Metering.Start(w.met, s.vessel, s.berthID, now).0)
            && (e.None? ==> w1.tbl.rows[s.berthID].state.Settled? && w1.tbl.rows[s.berthID].vessel == s.vessel)
            && (e.Some? ==> w1.met == w.met)
  {
    hide Stamp;
  }

  lemma WaitOwns(w: Core, id: string, now: Time)
    requires CoreOwns(w) && CapInv(w.cap)
    ensures var w1 := Wait(w, id, now).0; CoreOwns(w1) && CapInv(w1.cap) && w1.grid == w.grid && w1.met == w.met
    ensures var (w1, e) := Wait(w, id, now);
            if e == VerifyTimeout
            then && id in w.conn.sessions && w.conn.sessions[id].state.Verifying?
                 && GaveBack(w, w1, w.conn.sessions[id].berthID)
                 && w1.conn == Closed(w.conn, id, Lapsed, WaitExpired)
            else w1 == w
  {
    hide OwnInv, CapInv, Abandon, Remain;
    if id in w.conn.sessions && w.conn.sessions[id].state.Verifying? {
      OnlyRowSelf(w.tbl.rows, w.conn.sessions[id].berthID);
      AbandonOwns(w, w, id, Lapsed, WaitExpired, now);
    }
  }

  lemma ConfirmOwns(w: Core, id: string, now: Time)
    requires CoreOwns(w) && CapInv(w.cap)
    ensures var w1 := Confirm(w, id, now).0; CoreOwns(w1) && CapInv(w1.cap)
  {
    hide OwnInv, CapInv, Connect;
    if id in w.conn.sessions && w.conn.sessions[id].state.Verifying? {
      ConfirmOutcome(w, id, now);
    }
  }

  /** When a session that is not verifying may still be cancelled without harm: its berth is not
      being allocated to someone else. */
  predicate Cancellable(w: Core, id: string) {
    id in w.conn.sessions && !w.conn.sessions[id].state.Connected? && !w.conn.sessions[id].state.Verifying? ==>
      var b := w.conn.sessions[id].berthID;
      !(b in w.tbl.rows && w.tbl.rows[b].state.Allocating?)
  }

  /** The berth of a session that is no longer verifying is not being allocated to someone else. */
  predicate StandsAlone(w: Core, id: string)
    requires id in w.conn.sessions
  {
    var b := w.conn.sessions[id].berthID;
    w.conn.sessions[id].state.Verifying? || !(b in w.tbl.rows && w.tbl.rows[b].state.Allocating?)
  }

  /** Ending a session, whatever its state by then, keeps ownership exactly when its berth is not by
      now being allocated to another. */
  lemma AbandonOwnsWhen(w: Core, id: string, st: SState, why: Reason, now: Time)
    requires CoreOwns(w) && CapInv(w.cap) && id in w.conn.sessions && !st.Verifying?
    ensures var w1 := Abandon(w, id, st, why, now);
            && (CoreOwns(w1) <==> StandsAlone(w, id))
            && CapInv(w1.cap) && w1.grid == w.grid && w1.met == w.met
  {
    hide CapInv, Grows, Fingerprint, CloseFirst, OwnInv, Remain;
    ReleaseSafe(w.cap, w.conn.sessions[id].berthID, now);
    if w.conn.sessions[id].state.Verifying? {
      OnlyRowSelf(w.tbl.rows, w.conn.sessions[id].berthID);
      AbandonOwns(w, w, id, st, why, now);
    } else {
      if StandsAlone(w, id) {
        AbandonHarmless(w, id, st, why, now);
      } else {
        AbandonHarmful(w, id, st, why, now);
      }
    }
  }

  /** Cancel keeps ownership exactly when it does not hit a dead session whose berth is by now being
      allocated to another: the state test in Cancel excludes only connected sessions. */
  lemma CancelOwns(w: Core, id: string, now: Time)
    requires CoreOwns(w) && CapInv(w.cap)
    ensures var w1 := Cancel(w, id, now).0;
            && (CoreOwns(w1) <==> Cancellable(w, id))
            && CapInv(w1.cap) && w1.grid == w.grid && w1.met == w.met
  {
    hide CapInv, OwnInv, Abandon;
    if id in w.conn.sessions && !w.conn.sessions[id].state.Connected? {
      AbandonOwnsWhen(w, id, Cancelled, ByOperator, now);
    }
  }

  /** Cancelling a verifying session gives everything back. */
  lemma CancelReturns(w: Core, id: string, now: Time)
    requires CoreOwns(w) && CapInv(w.cap) && id in w.conn.sessions && w.conn.sessions[id].state.Verifying?
    ensures var (w1, e) := Cancel(w, id, now);
            && e.None? && CoreOwns(w1) && CapInv(w1.cap) && GaveBack(w, w1, w.conn.sessions[id].berthID)
            && w1.grid == w.grid && w1.met == w.met && w1.conn == Closed(w.conn, id, Cancelled, ByOperator)
  {
    hide CapInv, OwnInv, Abandon, Remain;
    OnlyRowSelf(w.tbl.rows, w.conn.sessions[id].berthID);
    AbandonOwns(w, w, id, Cancelled, ByOperator, now);
  }

  /** Freeing a berth nobody verifies on. */
  lemma Freed(
    rows: Rows, allocs: map<string, Allocation>, sessions: map<string, Session>, rows': Rows, id: string, s: Session)
    requires OwnInv(rows, allocs, sessions) && id in sessions && !sessions[id].state.Verifying? && !s.state.Verifying?
    requires s.berthID in rows && !rows[s.berthID].state.Allocating? && OnlyRow(rows, rows', s.berthID)
    requires rows'[s.berthID].state.Idle? && rows'[s.berthID].vessel == ""
    ensures OwnInv(rows', allocs - {s.berthID}, sessions[id := s])
  {
    hide OwnInv, HasOwner;
    Owners(rows, allocs, sessions, s.berthID);
    OwnedRow(rows, allocs, sessions, s.berthID);
    Replaced(sessions, id, s);
    Local(rows, allocs, sessions, rows', allocs - {s.berthID}, sessions[id := s], s.berthID);
  }

  lemma AbandonHarmless(w: Core, id: string, st: SState, why: Reason, now: Time)
    requires CoreOwns(w) && CapInv(w.cap) && id in w.conn.sessions && !st.Verifying?
    requires !w.conn.sessions[id].state.Verifying? && StandsAlone(w, id)
    ensures CoreOwns(Abandon(w, id, st, why, now))
  {
    hide CapInv, Fingerprint, CloseFirst, OwnInv, MarkIdle, OnlyRow;
    var b := w.conn.sessions[id].berthID;
    var w1 := Abandon(w, id, st, why, now);
    var s := w1.conn.sessions[id];
    OwnedRow(w.tbl.rows, w.cap.allocs, w.conn.sessions, b);
    MarkIdleKeeps(w.tbl, b);
    if b in w.tbl.rows && !(b == "" && !st.Cancelled?) {
      assert w1.cap.allocs == w.cap.allocs - {b};
      OnlyRowSelf(w.tbl.rows, b);
      BecomesIdle(w.tbl.rows, w.tbl, b);
      Freed(w.tbl.rows, w.cap.allocs, w.conn.sessions, w1.tbl.rows, id, s);
    } else {
      SameOwners(w.tbl.rows, w.cap.allocs, w.conn.sessions, id, s);
    }
  }

  lemma AbandonHarmful(w: Core, id: string, st: SState, why: Reason, now: Time)
    requires CoreOwns(w) && CapInv(w.cap) && id in w.conn.sessions && !st.Verifying?
    requires !StandsAlone(w, id)
    ensures !CoreOwns(Abandon(w, id, st, why, now))
  {
    hide CapInv, Fingerprint, CloseFirst, OwnInv, HasOwner;
    var b := w.conn.sessions[id].berthID;
    var w1 := Abandon(w, id, st, why, now);
    var sessions, sessions' := w.conn.sessions, w1.conn.sessions;
    Replaced(sessions, id, sessions'[id]);
    AllocatingOwner(w.tbl.rows, w.cap.allocs, sessions, b);
    var owner :| VerifyingOn(sessions, owner, b);
    assert VerifyingOn(sessions', owner, b);
    Owners(w.tbl.rows, w.cap.allocs, sessions, b);
    if CoreOwns(w1) {
      Owners(w1.tbl.rows, w1.cap.allocs, sessions', b);
    }
  }

  /** Cancelling a session that is over already disturbs nothing exactly when its old berth is free;
      otherwise whoever holds that berth by now loses berth and capacity. */
  lemma CancelOfDead(w: Core, id: string, now: Time)
    requires CoreOwns(w) && CapInv(w.cap) && id in w.conn.sessions
    requires !w.conn.sessions[id].state.Connected? && !w.conn.sessions[id].state.Verifying?
    ensures var w1 := Cancel(w, id, now).0;
            var b := w.conn.sessions[id].berthID;
            var free := b !in w.tbl.rows || w.tbl.rows[b].state.Idle?;
            && (free <==> w1.tbl == w.tbl && w1.cap == w.cap)
            && (!free ==> w1.tbl.rows[b].state.Idle? && b in w.cap.allocs && w1.cap.allocs == w.cap.allocs - {b})
  {
    hide OwnInv, CapInv, CloseFirst, Fingerprint;
    var b := w.conn.sessions[id].berthID;
    OwnedRow(w.tbl.rows, w.cap.allocs, w.conn.sessions, b);
    if b in w.tbl.rows && !w.tbl.rows[b].state.Idle? {
      assert Cancel(w, id, now).0.tbl.rows[b].state.Idle?;
    }
  }

  lemma AllocatingOwner(rows: Rows, allocs: map<string, Allocation>, sessions: map<string, Session>, b: string)
    requires OwnInv(rows, allocs, sessions) && b in rows && rows[b].state.Allocating?
    ensures exists id :: VerifyingOn(sessions, id, b)
  {
  }

  lemma SameOwners(rows: Rows, allocs: map<string, Allocation>, sessions: map<string, Session>, id: string, s: Session)
    requires OwnInv(rows, allocs, sessions) && id in sessions && !sessions[id].state.Verifying? && !s.state.Verifying?
    ensures OwnInv(rows, allocs, sessions[id := s])
  {
    hide Owns, RowOk;
    var sessions' := sessions[id := s];
    assert forall x, b :: VerifyingOn(sessions', x, b) <==> VerifyingOn(sessions, x, b);
    forall b | b in rows && rows[b].state.Allocating? ensures HasOwner(sessions', b) {
      var x :| VerifyingOn(sessions, x, b);
      assert VerifyingOn(sessions', x, b);
    }
  }
}
