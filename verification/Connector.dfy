/** The connector in place: sessions over the berth store, the allocator, the grid and the meter. */
module Connector {
  import opened Prelude
  import opened BerthTable
  import opened CapacityBook
  import opened GridState
  import opened Sessions
  import opened AtMostOnce
  import S = Sessions
  import M = Metering
  import BerthStore
  import Capacity
  import GridControl
  import MeterService

  class Connector {
    const grid: GridControl.Controller
    const alloc: Capacity.Allocator
    const berths: BerthStore.Store
    const meter: MeterService.Meter
    var sessions: map<string, Session>
    var pending: set<string>
    var executed: map<string, nat>
    var over: Override
    var number: nat

    ghost function Table(): Conn
      reads this
    {
      Conn(sessions, pending, executed, over, number)
    }

    ghost function View(): Core
      reads this, berths, alloc, alloc.ledger, grid, grid.breaker, grid.queue, meter, meter.store
    {
      Core(berths.View(), alloc.View(), grid.View(), meter.View(), Table())
    }

    /** The stores fit together. */
    ghost predicate Stores()
      reads this, berths, berths.cache, alloc, alloc.ledger, alloc.store, alloc.store.cache
      reads grid, grid.queue, grid.berths, grid.berths.cache
    {
      && alloc.store == berths && grid.berths == berths
      && alloc.Valid() && grid.Valid() && NulFreeIds(berths.berths)
    }

    ghost predicate Valid()
      reads this, berths, berths.cache, alloc, alloc.ledger, alloc.store, alloc.store.cache
      reads grid, grid.queue, grid.berths, grid.berths.cache
    {
      Stores() && OnceInv(Table())
    }

    constructor (grid: GridControl.Controller, alloc: Capacity.Allocator, berths: BerthStore.Store,
        meter: MeterService.Meter)
      requires alloc.store == berths && grid.berths == berths
      requires alloc.Valid() && grid.Valid() && NulFreeIds(berths.berths)
      ensures this.grid == grid && this.alloc == alloc && this.berths == berths && this.meter == meter
      ensures Valid() && Table() == NO_SESSIONS
    {
      this.grid, this.alloc, this.berths, this.meter := grid, alloc, berths, meter;
      sessions, pending, executed, over, number := map[], {}, map[], Override(false, ""), 0;
      new;
      NoSessionsOnce();
    }

    /** Looking through all sessions, in any order, for the live one of a request. */
    method FindSession(requestID: string) returns (found: Option<Session>)
      requires UniqueLive(Table()) && requestID != ""
      ensures var live := FindLive(Table(), requestID);
              found == if live.Some? then Some(sessions[live.value]) else None
    {
      var todo := sessions.Keys;
      while todo != {}
        invariant todo <= sessions.Keys
        invariant forall id :: id in sessions && id !in todo ==> !LiveFor(Table(), id, requestID)
      {
        var id :| id in todo;
        var s := sessions[id];
        if s.requestID == requestID && !s.state.Failed? && !s.state.Cancelled? {
          assert LiveFor(Table(), id, requestID);
          return Some(s);
        }
        todo := todo - {id};
      }
      return None;
    }

    method Apply(req: Request, now: Time) returns (r: Result<Session>)
      requires Valid()
      modifies this, berths`berths, berths`version, berths.cache, alloc, alloc.ledger
      ensures Valid()
      ensures (View(), r) == S.Apply(old(View()), req, now)
    {
      hide OnceInv, CapInv, S.Claim, CheckReady;
      OnceParts(Table());
      if req.requestID != "" {
        var live := FindSession(req.requestID);
        if live.Some? {
          return Ok(live.value);
        }
      }
      if req.vessel == "" || req.berthID == "" {
        return Err(VesselRequired);
      }
      if !ValidPhase(req.phase) {
        return Err(InvalidPhase);
      }
      var refused := berths.CheckReady(req.berthID, req.needKVA);
      if refused.Some? {
        return Err(refused.value);
      }
      r := Claim(req, now);
    }

    /** Apply after its checks have passed. */
    method Claim(req: Request, now: Time) returns (r: Result<Session>)
      requires Valid() && (req.requestID == "" || FindLive(Table(), req.requestID).None?)
      modifies this, berths`berths, berths`version, berths.cache, alloc, alloc.ledger
      ensures Valid()
      ensures (View(), r) == S.Claim(old(View()), req, now)
    {
      hide OnceInv, CapInv, SessionID, Allocate, Release, FindLive;
      var a := alloc.Allocate(req.berthID, req.vessel, req.needKVA, now);
      if a.Err? {
        return Err(a.error);
      }
      var e := berths.MarkAllocating(req.berthID);
      if e.Some? {
        var _ := alloc.Release(req.berthID, now);
        return Err(e.value);
      }
      r := Register(req, a.value, now);
    }

    /** The locked registration of a new session. */
    method Register(req: Request, a: Allocation, now: Time) returns (r: Result<Session>)
      requires OnceInv(Table()) && (req.requestID == "" || FindLive(Table(), req.requestID).None?)
      modifies this
      ensures OnceInv(Table()) && Table() == Registered(old(Table()), req, a, now)
      ensures SessionID(number) in sessions && r == Ok(sessions[SessionID(number)])
    {
      hide OnceInv, SessionID, FindLive;
      RegisteredOnce(Table(), req, a, now);
      number := number + 1;
      var id := SessionID(number);
      var sess := Session(id, req.requestID, req.vessel, req.berthID, req.phase, Verifying,
                          [StepVerify], NoReason, now, a);
      sessions := sessions[id := sess];
      pending := pending + {id};
      return Ok(sess);
    }

    /** The steps of a confirmation between its two critical sections. */
    method Connect(s: Session, now: Time) returns (e: Option<Error>)
      requires Stores()
      modifies berths`berths, berths`version, berths.cache, grid, grid.breaker, meter
      ensures Stores()
      ensures (View(), e) == S.Connect(old(View()), s, now)
    {
      hide CapInv, MarkOccupied, M.Start, GridState.SyncAndClose, GridState.PhaseCheck;
      MarkOccupiedKeeps(berths.View(), s.berthID, s.vessel, now);
      e := grid.PhaseCheck(s.phase);
      if e.Some? {
        return;
      }
      e := grid.SyncAndClose(s.phase);
      if e.Some? {
        return;
      }
      e := berths.MarkOccupied(s.berthID, s.vessel, now);
      if e.Some? {
        return;
      }
      e := meter.Start(s.vessel, s.berthID, now);
    }

    method ConfirmVerification(id: string, now: Time) returns (e: Option<Error>)
      requires Valid()
      modifies this`sessions, this`pending, this`executed, berths`berths, berths`version, berths.cache
      modifies alloc, alloc.ledger, grid, grid.breaker, meter
      ensures Valid()
      ensures (View(), e) == S.Confirm(old(View()), id, now)
    {
      hide OnceInv, CapInv, S.Connect, S.Abandon;
      ConfirmOnce(View(), id, now);
      if id !in sessions {
        return Some(UnknownSession);
      }
      var s := sessions[id];
      if s.state.Connected? {
        return None;
      }
      if !s.state.Verifying? {
        return Some(NotVerifying);
      }
      sessions := sessions[id := s.(state := Connecting, progress := s.progress + [StepPhaseCheck, StepLink])];
      ghost var gated := View();
      ConnectKeepsSessions(gated, s, now);
      e := Connect(s, now);
      if e.Some? {
        Fail(id, e.value, now);
        return;
      }
      sessions := sessions[id := sessions[id].(state := Connected, progress := sessions[id].progress + [StepClose])];
      executed := executed[s.requestID := (if s.requestID in executed then executed[s.requestID] else 0) + 1];
      pending := pending - {id};
    }

    /** Berth and capacity go back; errors of either are ignored. */
    method Vacate(berthID: string, now: Time)
      requires Stores()
      modifies berths`berths, berths`version, berths.cache, alloc, alloc.ledger
      ensures Stores() && View() == S.Vacate(old(View()), berthID, now)
    {
      hide CapInv, MarkIdle, Release;
      MarkIdleKeeps(berths.View(), berthID);
      var _ := berths.MarkIdle(berthID);
      var _ := alloc.Release(berthID, now);
    }

    method Fail(id: string, why: Error, now: Time)
      requires Stores() && id in sessions
      modifies this`sessions, this`pending, berths`berths, berths`version, berths.cache, alloc, alloc.ledger
      ensures Stores() && View() == S.Abandon(old(View()), id, Failed, Because(why), now)
    {
      hide CapInv, S.Vacate;
      sessions := sessions[id := sessions[id].(state := Failed, reason := Because(why))];
      pending := pending - {id};
      if sessions[id].berthID != "" {
        Vacate(sessions[id].berthID, now);
      }
    }

    method Cancel(id: string, now: Time) returns (e: Option<Error>)
      requires Valid()
      modifies this`sessions, this`pending, berths`berths, berths`version, berths.cache, alloc, alloc.ledger
      ensures Valid()
      ensures (View(), e) == S.Cancel(old(View()), id, now)
    {
      hide OnceInv, CapInv, S.Vacate;
      CancelOnce(View(), id, now);
      if id !in sessions {
        return Some(UnknownSession);
      }
      if sessions[id].state.Connected? {
        return Some(AlreadyClosed);
      }
      sessions := sessions[id := sessions[id].(state := Cancelled, reason := ByOperator)];
      pending := pending - {id};
      Vacate(sessions[id].berthID, now);
      return None;
    }

    /** A wait during which nothing else happens: the timer is the only thing that can end it. */
    method WaitVerification(id: string, now: Time) returns (e: Error)
      requires Valid()
      modifies this`sessions, this`pending, berths`berths, berths`version, berths.cache, alloc, alloc.ledger
      ensures Valid()
      ensures (View(), e) == S.Wait(old(View()), id, now)
    {
      hide OnceInv, CapInv, S.Abandon;
      WaitOnce(View(), id, now);
      if id !in sessions {
        return UnknownSession;
      }
      if !sessions[id].state.Verifying? {
        return NotVerifying;
      }
      Timeout(id, now);
      return VerifyTimeout;
    }

    method Timeout(id: string, now: Time)
      requires Stores() && id in sessions
      modifies this`sessions, this`pending, berths`berths, berths`version, berths.cache, alloc, alloc.ledger
      ensures Stores() && View() == S.Abandon(old(View()), id, Lapsed, WaitExpired, now)
    {
      hide CapInv, S.Vacate;
      sessions := sessions[id := sessions[id].(state := Lapsed, reason := WaitExpired)];
      pending := pending - {id};
      if sessions[id].berthID != "" {
        Vacate(sessions[id].berthID, now);
      }
    }

    method SetLocalOverride(o: Override)
      requires Valid()
      modifies this`over, grid`mode
      ensures Valid() && View() == S.SetOverride(old(View()), o)
      ensures over == o && grid.mode == if o.active then Manual else Auto
    {
      OverrideOnce(Table(), o);
      hide OnceInv, CapInv;
      over := o;
      grid.SetControlMode(if o.active then Manual else Auto);
    }

    /** The eligible sessions, in an arbitrary order. */
    method Targets() returns (targets: seq<string>)
      ensures Ordering(Table(), targets)
    {
      targets := [];
      var todo := sessions.Keys;
      while todo != {}
        invariant todo <= sessions.Keys
        invariant forall i :: 0 <= i < |targets| ==> Target(Table(), targets[i]) && targets[i] !in todo
        invariant forall i, j :: 0 <= i < j < |targets| ==> targets[i] != targets[j]
        invariant forall id :: Target(Table(), id) ==> id in targets || id in todo
      {
        var id :| id in todo;
        ghost var before := targets;
        if sessions[id].state.Verifying? && !ActiveFor(over, sessions[id].vessel) {
          targets := targets + [id];
          assert targets[|before|] == id;
        }
        assert forall x :: x in before ==> x in targets;
        todo := todo - {id};
      }
    }

    /** One confirmation after another, then the command queue if anything was connected. */
    method AutoDispatch(now: Time) returns (dispatched: nat, ghost order: seq<string>)
      requires Valid()
      modifies this`sessions, this`pending, this`executed, berths`berths, berths`version, berths.cache
      modifies alloc, alloc.ledger, grid, grid.breaker, grid.queue, meter
      ensures Valid() && Ordering(old(Table()), order)
      ensures forall id :: id in order <==>
                && id in old(sessions) && old(sessions)[id].state.Verifying?
                && (!old(over).active || (old(over).vessel != "" && old(over).vessel != old(sessions)[id].vessel))
      ensures (View(), dispatched) == S.AutoDispatch(old(View()), order, now)
    {
      hide OnceInv, CapInv, S.Confirm, Drain, Ordering;
      var targets := Targets();
      order := targets;
      OrderedTargets(Table(), order);
      dispatched := 0;
      for i := 0 to |targets|
        invariant Valid()
        invariant (View(), dispatched) == ConfirmAll(old(View()), targets[..i], now)
      {
        var e := ConfirmVerification(targets[i], now);
        if e.None? {
          dispatched := dispatched + 1;
        }
        assert targets[..i + 1][..i] == targets[..i];
      }
      assert targets[..|targets|] == targets;
      if dispatched > 0 {
        var _ := grid.AutoDispatch();
      }
    }
  }

  /** An ordering lists the sessions that no override applies to. */
  lemma OrderedTargets(c: Conn, order: seq<string>)
    requires Ordering(c, order)
    ensures forall id :: id in order <==>
              && id in c.sessions && c.sessions[id].state.Verifying?
              && (!c.over.active || (c.over.vessel != "" && c.over.vessel != c.sessions[id].vessel))
  {
    forall id ensures id in order <==> Target(c, id) {
      if id in order {
        var i :| 0 <= i < |order| && order[i] == id;
      }
    }
  }

  lemma OnceParts(c: Conn)
    requires OnceInv(c)
    ensures UniqueLive(c)
  {
  }
}
