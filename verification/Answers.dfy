/** What each call answers, read off the fields its caller sees: every refusal with its exact condition, and
    what a session, a berth or a ledger record says afterwards. */
module Answers {
  import opened Prelude
  import opened BerthTable
  import opened CapacityBook
  import opened Sessions
  import opened Ownership
  import opened Service
  import Metering

  // Applying.

  /** A request that is taken on becomes a verifying session with the request's own vessel, berth and phase
      and with its allocation, and nothing else in the connection table changes. A repeated one is
      answered with its live session, and a refused one leaves the table alone. */
  lemma ApplyRegisters(w: Core, req: Request, now: Time)
    ensures var (w1, r) := Apply(w, req, now);
            var id := SessionID(w.conn.number + 1);
            && (r.Ok? && !Answered(w.conn, req) ==>
                  && r.value.id == id && r.value.requestID == req.requestID && r.value.vessel == req.vessel
                  && r.value.berthID == req.berthID && r.value.phase == req.phase && r.value.state.Verifying?
                  && r.value.progress == [StepVerify] && r.value.reason.NoReason? && r.value.at == now
                  && req.berthID in w1.cap.allocs && r.value.allocation == w1.cap.allocs[req.berthID]
                  && w1.conn.sessions == w.conn.sessions[id := r.value] && w1.conn.pending == w.conn.pending + {id}
                  && w1.conn.number == w.conn.number + 1
                  && w1.conn.executed == w.conn.executed && w1.conn.over == w.conn.over)
            && (Answered(w.conn, req) ==>
                  && w1 == w && r.Ok? && r.value in w.conn.sessions.Values
                  && r.value.requestID == req.requestID && Live(r.value))
            && (r.Err? ==> w1.conn == w.conn)
  {
    hide SessionID, AllocID, Remain, Fingerprint, CloseFirst, Refusal;
    if Answered(w.conn, req) {
      assert LiveFor(w.conn, FindLive(w.conn, req.requestID).value, req.requestID);
    }
  }

  /** Why a request is refused: the first of these that applies. */
  lemma ApplyRefuses(w: Core, req: Request, now: Time)
    requires CapInv(w.cap) && NulFreeIds(w.tbl.rows)
    ensures var r := Apply(w, req, now).1;
            var (rows, b) := (w.tbl.rows, req.berthID);
            var named := !Answered(w.conn, req) && req.vessel != "" && b != "";
            var valid := named && req.phase.voltageKV > 0.0 && req.phase.freqHz > 0.0;
            var idle := valid && b in rows && rows[b].state.Idle?;
            var fits := idle && 0.0 < req.needKVA <= rows[b].capacityKVA;
            var stale := if b in w.cap.allocs then w.cap.allocs[b].kva else 0.0;
            && (r == Err(VesselRequired) <==> !Answered(w.conn, req) && !named)
            && (r == Err(InvalidPhase) <==> named && !valid)
            && (r == Err(NotFound) <==> valid && b !in rows)
            && (r == Err(Busy) <==> valid && b in rows && !rows[b].state.Idle?)
            && (r == Err(DemandNotPositive) <==> idle && req.needKVA <= 0.0)
            && (r == Err(DemandExceedsBerth) <==> idle && 0.0 < req.needKVA && rows[b].capacityKVA < req.needKVA)
            && (r == Err(CapacityShort) <==> fits && Remain(w.cap) + stale < req.needKVA)
            && (r.Ok? <==> Answered(w.conn, req) || (fits && req.needKVA <= Remain(w.cap) + stale))
  {
    hide CapInv, SessionID, AllocID, Remain, Fingerprint, FindLive, Allocate, Registered;
    AllocateRefuses(w.tbl.rows, w.cap, req.berthID, req.vessel, req.needKVA, now);
  }

  /** Why the allocator refuses. */
  lemma AllocateRefuses(rows: Rows, c: Cap, b: string, vessel: string, kva: real, now: Time)
    requires CapInv(c) && NulFreeIds(rows)
    ensures var r := Allocate(rows, c, b, vessel, kva, now).1;
            var stale := if b in c.allocs then c.allocs[b].kva else 0.0;
            var idle := b in rows && rows[b].state.Idle?;
            && (r == Err(NotFound) <==> b !in rows)
            && (r == Err(NotIdle) <==> b in rows && !idle)
            && (r == Err(DemandNotPositive) <==> idle && kva <= 0.0)
            && (r == Err(CapacityShort) <==> idle && kva > 0.0 && Remain(c) + stale < kva)
            && (r.Ok? <==> idle && 0.0 < kva <= Remain(c) + stale)
  {
    hide CapInv, AllocID, Remain, Fingerprint, CloseFirst;
    AllocateFresh(rows, c, b, vessel, kva, now);
  }

  /** A release dates the one open record of its berth, and no other record changes. */
  lemma ReleaseDates(c: Cap, b: string, now: Time, i: nat)
    requires CapInv(c) && b in c.allocs && i < |c.items|
    ensures var items := Release(c, b, now).0.items;
            && |items| == |c.items| && items[i].allocation == c.items[i].allocation
            && items[i].fingerprint == c.items[i].fingerprint
            && items[i].closedAt == if c.items[i].closedAt.None? && c.items[i].allocation.berthID == b
                                    then Some(now) else c.items[i].closedAt
  {
    hide CapInv, Release;
    ReleaseSafe(c, b, now);
  }

  /** A new allocation opens one record, for itself, at the end of the ledger. */
  lemma AllocateRecords(rows: Rows, c: Cap, b: string, vessel: string, kva: real, now: Time)
    requires b !in c.allocs && Allocate(rows, c, b, vessel, kva, now).1.Ok?
    ensures var (c1, r) := Allocate(rows, c, b, vessel, kva, now);
            && |c1.items| == |c.items| + 1 && c1.items[..|c.items|] == c.items
            && c1.items[|c.items|].allocation == r.value && c1.items[|c.items|].closedAt.None?
            && r.value.berthID == b && r.value.vessel == vessel && r.value.kva == kva && r.value.at == now
            && c1.used == c.used[b := kva] && c1.allocs == c.allocs[b := r.value]
  {
    hide AllocID, Fingerprint;
  }

  // Confirming, cancelling and waiting.

  /** A session can only be confirmed while it is verifying; a connected one is confirmed again without
      effect. */
  lemma ConfirmRefuses(w: Core, id: string, now: Time)
    ensures var (w1, e) := Confirm(w, id, now);
            var known := id in w.conn.sessions;
            && (e == Some(UnknownSession) <==> !known)
            && (e == Some(NotVerifying) <==>
                  known && !w.conn.sessions[id].state.Verifying? && !w.conn.sessions[id].state.Connected?)
            && (known && w.conn.sessions[id].state.Connected? ==> e.None?)
            && (!known || !w.conn.sessions[id].state.Verifying? ==> w1 == w)
  {
    hide Gated, Finished, Abandon, Stamp;
  }

  /** What confirming a verifying session answers, and what is then to be seen: on success the session is
      connected, the vessel is at its berth and being metered with nothing read yet, and the grid is on for
      the session's phase; otherwise the session has failed for the reason answered. */
  lemma ConfirmAnswers(w: Core, id: string, now: Time)
    requires CoreOwns(w) && CapInv(w.cap) && id in w.conn.sessions && w.conn.sessions[id].state.Verifying?
    ensures var (w1, e) := Confirm(w, id, now);
            var s := w.conn.sessions[id];
            && (e == Some(AlreadyOnGrid) <==> w.grid.state.OnGrid?)
            && (e == Some(SyncTimeout) <==> !w.grid.state.OnGrid? && !w.grid.matches(s.phase))
            && (e == Some(CloseFault) <==> !w.grid.state.OnGrid? && w.grid.matches(s.phase) && w.grid.fault)
            && (e == Some(AlreadyMetering) <==>
                  !w.grid.state.OnGrid? && w.grid.matches(s.phase) && !w.grid.fault && s.vessel in w.met.active)
            && (e.None? <==>
                  !w.grid.state.OnGrid? && w.grid.matches(s.phase) && !w.grid.fault && s.vessel !in w.met.active)
            && (e.Some? ==>
                  && id in w1.conn.sessions && w1.conn.sessions[id].state.Failed?
                  && w1.conn.sessions[id].reason == Because(e.value) && w1.conn.executed == w.conn.executed)
            && (e.None? ==> Plugged(w, w1, id, now))
            && w1.conn.pending == w.conn.pending - {id} && w1.conn.over == w.conn.over
  {
    hide CapInv, OwnInv, Stamp, Abandon, MarkOccupied, Metering.Start;
    var s := w.conn.sessions[id];
    OwnedSession(w, id);
    ConfirmOutcome(w, id, now);
    BerthReads(w.tbl, s.berthID, s.vessel, now);
    BerthLifecycle(w.tbl, s.berthID, s.vessel, now);
    Metering.StartRuns(w.met, s.vessel, s.berthID, now);
    GatedReads(w.conn, id);
    AbandonTable(Connect(w.(conn := Gated(w.conn, id)), s, now).0, id, Failed, now);
  }

  /** A confirmation stops where it fails, in any state: refused by the grid, it has not touched the berth but
      to free it again; failing later, it leaves the grid on; and unless it succeeds no meter is running
      that was not before. */
  lemma ConfirmStops(w: Core, id: string, now: Time)
    requires id in w.conn.sessions && w.conn.sessions[id].state.Verifying? && w.conn.sessions[id].berthID != ""
    ensures var (w1, e) := Confirm(w, id, now);
            var s := w.conn.sessions[id];
            var closes := !w.grid.state.OnGrid? && w.grid.matches(s.phase) && !w.grid.fault;
            && (!closes ==> e.Some? && w1.tbl == MarkIdle(w.tbl, s.berthID).0 && w1.grid.state == w.grid.state)
            && (closes ==> w1.grid.state.OnGrid? && w1.grid.closed && w1.grid.execs == w.grid.execs + 1)
            && (e.Some? ==> w1.met == w.met && w1.cap == Release(w.cap, s.berthID, now).0)
  {
    hide MarkOccupied, MarkIdle, Release;
  }

  lemma GatedReads(c: Conn, id: string)
    requires id in c.sessions
    ensures id in Gated(c, id).sessions
  {
  }

  lemma AbandonTable(w: Core, id: string, st: SState, now: Time)
    requires id in w.conn.sessions
    ensures forall why :: Abandon(w, id, st, why, now).conn == Closed(w.conn, id, st, why)
  {
    hide MarkIdle, Release;
  }

  /** The vessel of a session has been connected. */
  ghost predicate Plugged(w: Core, w1: Core, id: string, now: Time) {
    && id in w.conn.sessions && id in w1.conn.sessions
    && var (s, s1) := (w.conn.sessions[id], w1.conn.sessions[id]);
       && s1.state.Connected? && s1.progress == s.progress + [StepPhaseCheck, StepLink, StepClose]
       && s1.vessel == s.vessel && s1.berthID == s.berthID && s1.requestID == s.requestID && s1.phase == s.phase
       && Executed(w1.conn, s.requestID) == Executed(w.conn, s.requestID) + 1
       && s.berthID in w1.tbl.rows && w1.tbl.rows[s.berthID].state.Settled?
       && w1.tbl.rows[s.berthID].vessel == s.vessel && w1.tbl.rows[s.berthID].occupiedAt == Some(now)
       && w1.cap == w.cap
       && Metering.StateOf(w1.met, s.vessel) == Metering.Metering && s.vessel in w1.met.active
       && w1.met.active[s.vessel].berthID == s.berthID && w1.met.active[s.vessel].samples == 0
       && w1.grid.state.OnGrid? && w1.grid.closed && w1.grid.checked && w1.grid.phase == s.phase
       && w1.grid.execs == w.grid.execs + 1
  }

  /** A cancel ends any session but a connected one, and says so. */
  lemma CancelEnds(w: Core, id: string, now: Time)
    ensures var (w1, e) := Cancel(w, id, now);
            var known := id in w.conn.sessions;
            && (e == Some(UnknownSession) <==> !known)
            && (e == Some(AlreadyClosed) <==> known && w.conn.sessions[id].state.Connected?)
            && (e.None? <==> known && !w.conn.sessions[id].state.Connected?)
            && (e.Some? ==> w1 == w)
            && (e.None? ==> EndedAs(w.conn, w1.conn, id, Cancelled, ByOperator))
  {
    hide MarkIdle, Release;
  }

  /** A wait that nobody signals ends a verifying session as lapsed, and is refused for any other. */
  lemma WaitEnds(w: Core, id: string, now: Time)
    ensures var (w1, e) := Wait(w, id, now);
            var known := id in w.conn.sessions;
            && (e == UnknownSession <==> !known)
            && (e == NotVerifying <==> known && !w.conn.sessions[id].state.Verifying?)
            && (e == VerifyTimeout <==> known && w.conn.sessions[id].state.Verifying?)
            && (e != VerifyTimeout ==> w1 == w)
            && (e == VerifyTimeout ==> EndedAs(w.conn, w1.conn, id, Lapsed, WaitExpired))
  {
    hide MarkIdle, Release;
  }

  /** One session has a new verdict and reason and no waiter is pending for it; the rest is as it was. */
  ghost predicate EndedAs(c: Conn, c1: Conn, id: string, st: SState, why: Reason) {
    && id in c.sessions && id in c1.sessions && c1.sessions.Keys == c.sessions.Keys
    && c1.sessions[id].state == st && c1.sessions[id].reason == why
    && c1.sessions[id].requestID == c.sessions[id].requestID && c1.sessions[id].vessel == c.sessions[id].vessel
    && c1.sessions[id].berthID == c.sessions[id].berthID && c1.sessions[id].phase == c.sessions[id].phase
    && (forall x :: x in c.sessions && x != id ==> c1.sessions[x] == c.sessions[x])
    && c1.pending == c.pending - {id} && c1.executed == c.executed && c1.number == c.number && c1.over == c.over
  }

  // Berths.

  /** Which state changes a berth can make, and what refuses the others. */
  lemma BerthLifecycle(t: Table, id: string, vessel: string, now: Time)
    ensures var known := id in t.rows;
            && MarkAllocating(t, id).1 ==
               (if !known then Some(NotFound) else if t.rows[id].state.Idle? then None else Some(Busy))
            && (MarkOccupied(t, id, vessel, now).1.None? <==>
                  known && (t.rows[id].state.Idle? || t.rows[id].state.Allocating?) && vessel != "")
            && (MarkOccupied(t, id, vessel, now).1 == Some(Busy) <==>
                  known && (t.rows[id].state.Settled? || t.rows[id].state.Releasing?))
            && (MarkOccupied(t, id, vessel, now).1 == Some(NotFound) <==> !known)
            && (MarkOccupied(t, id, vessel, now).1 == Some(VesselRequired) <==>
                  known && (t.rows[id].state.Idle? || t.rows[id].state.Allocating?) && vessel == "")
            && MarkReleasing(t, id).1 ==
               (if !known then Some(NotFound) else if t.rows[id].state.Settled? then None else Some(BadState))
            && MarkIdle(t, id).1 == (if known then None else Some(NotFound))
  {
    hide Stamp;
  }

  /** What a row says after each of them. A berth keeps the stamp of its last stay, and the table's version
      counts the changes. */
  lemma BerthReads(t: Table, id: string, vessel: string, now: Time)
    requires id in t.rows
    ensures var (row, taken, freed) := (t.rows[id], MarkOccupied(t, id, vessel, now), MarkIdle(t, id).0.rows);
            && (taken.1.None? ==>
                  && id in taken.0.rows && taken.0.rows[id].state.Settled? && taken.0.rows[id].vessel == vessel
                  && taken.0.rows[id].occupiedAt == Some(now) && taken.0.rows[id].fingerprint == Stamp(id, now))
            && id in freed && freed[id].state.Idle? && freed[id].fingerprint == row.fingerprint
            && (!row.state.Idle? ==> freed[id].vessel == "" && freed[id].occupiedAt.None?)
            && (row.state.Idle? ==> freed == t.rows)
            && (MarkAllocating(t, id).1.None? ==>
                  MarkAllocating(t, id).0.rows == t.rows[id := row.(state := BState.Allocating)])
            && (MarkReleasing(t, id).1.None? ==>
                  MarkReleasing(t, id).0.rows == t.rows[id := row.(state := BState.Releasing)])
            && taken.0.version == t.version + (if taken.1.None? then 1 else 0)
            && MarkIdle(t, id).0.version == t.version + (if row.state.Idle? then 0 else 1)
            && MarkAllocating(t, id).0.version == t.version + (if MarkAllocating(t, id).1.None? then 1 else 0)
            && MarkReleasing(t, id).0.version == t.version + (if MarkReleasing(t, id).1.None? then 1 else 0)
  {
    hide Stamp;
  }

  /** Why a berth cannot take a demand. */
  lemma ReadyRefuses(rows: Rows, id: string, needKVA: real)
    ensures var e := CheckReady(rows, id, needKVA);
            var idle := id in rows && rows[id].state.Idle?;
            && (e == Some(NotFound) <==> id !in rows)
            && (e == Some(Busy) <==> id in rows && !idle)
            && (e == Some(DemandNotPositive) <==> idle && needKVA <= 0.0)
            && (e == Some(DemandExceedsBerth) <==> idle && 0.0 < needKVA && rows[id].capacityKVA < needKVA)
            && (e.None? <==> idle && 0.0 < needKVA <= rows[id].capacityKVA)
  {
  }

  /** Why an occupation is refused: no berth named, the berth not ready, too little capacity left, or, with
      the capacity already taken, no vessel named. */
  lemma OccupyRefuses(w: Core, b: string, vessel: string, kva: real, now: Time)
    requires CapInv(w.cap) && NulFreeIds(w.tbl.rows)
    ensures var e := Occupy(w, b, vessel, kva, now).1;
            var ready := b != "" && CheckReady(w.tbl.rows, b, kva).None?;
            var stale := if b in w.cap.allocs then w.cap.allocs[b].kva else 0.0;
            && (e == Some(BerthRequired) <==> b == "")
            && (b != "" && !ready ==> e == CheckReady(w.tbl.rows, b, kva))
            && (e == Some(CapacityShort) <==> ready && Remain(w.cap) + stale < kva)
            && (e == Some(VesselRequired) <==> ready && kva <= Remain(w.cap) + stale && vessel == "")
            && (e.None? <==> ready && kva <= Remain(w.cap) + stale && vessel != "")
  {
    hide CapInv, AllocID, Remain, Fingerprint, Stamp, Allocate;
    AllocateRefuses(w.tbl.rows, w.cap, b, vessel, kva, now);
  }

  /** Which berth a request means: the one it names by id, whatever code it gives; else the one with the
      code it gives; else none. */
  lemma ResolvesTo(rows: Rows, berthID: string, code: string, b: string)
    requires DistinctCodes(rows)
    ensures berthID != "" || code == "" ==> (Resolves(rows, berthID, code, b) <==> b == berthID)
    ensures berthID == "" && code != "" && Resolves(rows, berthID, code, b) ==>
              if b in rows && rows[b].code == code then forall x :: x in rows && rows[x].code == code ==> x == b
              else b == "" && forall x :: x in rows ==> rows[x].code != code
    ensures berthID == "" && code != "" && b in rows && rows[b].code == code ==> Resolves(rows, berthID, code, b)
  {
  }
}
