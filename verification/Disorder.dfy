/** Runs of requests the service takes that end with berths, allocations and sessions in disagreement. */
module Disorder {
  import opened Prelude
  import opened BerthTable
  import opened CapacityBook
  import opened GridState
  import opened Switching
  import opened Sessions
  import opened AtMostOnce
  import opened Ownership
  import opened Service
  import opened Safety
  import opened OwnershipRuns
  import M = Metering

  lemma StillAcceptable(w: Core, w2: Core, id: string, req: Request)
    requires !Answered(w.conn, req) && Acceptable(w, req)
    requires w2.conn.sessions - {id} == w.conn.sessions && id in w2.conn.sessions
      && w2.conn.sessions[id].state.Cancelled?
    requires Remain(w2.cap) == Remain(w.cap) && req.berthID in w2.tbl.rows
    requires w2.tbl.rows[req.berthID] == w.tbl.rows[req.berthID].(occupiedAt := None)
    ensures !Answered(w2.conn, req) && Acceptable(w2, req)
  {
    hide Remain;
    forall x ensures !LiveFor(w2.conn, x, req.requestID) || req.requestID == "" {
      if x != id && x in w2.conn.sessions && req.requestID != "" {
        assert x in w2.conn.sessions - {id};
        assert w.conn.sessions[x] == w2.conn.sessions[x];
        assert LiveFor(w2.conn, x, req.requestID) ==> LiveFor(w.conn, x, req.requestID);
      }
    }
  }

  /** Apply, cancel, apply for another vessel at the same berth, and cancel the first session again. */
  function CancelTwice(id: string, first: Request, second: Request, now: Time): seq<Event> {
    var cancel := Event(OpCancel(id), now);
    [Event(OpApply(first), now)] + ([cancel] + ([Event(OpApply(second), now)] + [cancel]))
  }

  /** The second cancel hits the other vessel: its session verifies on a berth that is idle and has no
      capacity. Every request of the run is one the service takes. */
  lemma CancelTwiceBreaks(w: World, r: M.Rate, first: Request, second: Request, now: Time)
    requires CoreOwns(w.core) && CapInv(w.core.cap) && OnceInv(w.core.conn) && first.berthID == second.berthID
    requires !Answered(w.core.conn, first) && Acceptable(w.core, first)
    requires !Answered(w.core.conn, second) && Acceptable(w.core, second)
    ensures !CoreOwns(Runs(w, r, CancelTwice(SessionID(w.core.conn.number + 1), first, second, now)).core)
  {
    hide OwnInv, CapInv, OnceInv, Apply, Cancel, SessionID, AllocID, FindLive, Remain, Acceptable, Runs, Stamp;
    var id := SessionID(w.core.conn.number + 1);
    var e1, e2, e3 := Event(OpApply(first), now), Event(OpCancel(id), now), Event(OpApply(second), now);
    RunsThen(w, r, e1, [e2] + ([e3] + [e2]));
    var w1 := Serve(w, r, e1.op, now);
    RunsThen(w1, r, e2, [e3] + [e2]);
    var w2 := Serve(w1, r, e2.op, now);
    RunsThen(w2, r, e3, [e2]);
    var w3 := Serve(w2, r, e3.op, now);
    RunsLast(w3, r, e2);
    ThirdStep(w.core, first, second, now);
    CancelOwns(w3.core, id, now);
  }

  lemma ThirdStep(w: Core, first: Request, second: Request, now: Time)
    requires CoreOwns(w) && CapInv(w.cap) && OnceInv(w.conn) && first.berthID == second.berthID
    requires !Answered(w.conn, first) && Acceptable(w, first) && !Answered(w.conn, second) && Acceptable(w, second)
    ensures var id := SessionID(w.conn.number + 1);
            var w3 := Apply(Cancel(Apply(w, first, now).0, id, now).0, second, now).0;
            CoreOwns(w3) && CapInv(w3.cap) && !Cancellable(w3, id)
  {
    hide OwnInv, CapInv, OnceInv, Apply, Cancel, SessionID, AllocID, FindLive, Remain, Acceptable;
    var id := SessionID(w.conn.number + 1);
    var w2 := Cancel(Apply(w, first, now).0, id, now).0;
    ApplyThenCancel(w, first, now, now);
    RoomAt(w, first);
    StillAcceptable(w, w2, id, second);
    ApplyOnce(w, first, now);
    CancelOnce(Apply(w, first, now).0, id, now);
    ApplyOutcome(w2, second, now);
    ApplyOwns(w2, second, now);
    RoomAt(w2, second);
  }

  /** An Apply followed by a recovery, from any orderly state: the berth comes back settled for nobody. */
  lemma ApplyThenRebuild(w: World, r: M.Rate, req: Request, now: Time)
    requires CoreOwns(w.core) && CapInv(w.core.cap) && OnceInv(w.core.conn)
    requires !Answered(w.core.conn, req) && Acceptable(w.core, req)
    ensures var w2 := Runs(w, r, [Event(OpApply(req), now)] + [Event(OpRebuild, now)]).core;
            && !CoreOwns(w2) && req.berthID in w2.tbl.rows
            && w2.tbl.rows[req.berthID].state.Settled? && w2.tbl.rows[req.berthID].vessel == ""
  {
    hide OwnInv, CapInv, OnceInv, Apply, Rebuild, SessionID, AllocID, FindLive, Remain, Acceptable, Runs;
    var e1, e2 := Event(OpApply(req), now), Event(OpRebuild, now);
    RunsThen(w, r, e1, [e2]);
    var w1 := Serve(w, r, e1.op, now);
    RunsLast(w1, r, e2);
    ApplyOutcome(w.core, req, now);
    ApplyOwns(w.core, req, now);
    RoomAt(w.core, req);
    assert w1.core.tbl.rows[req.berthID].state.Allocating?;
    RebuildOwns(w1.core, now);
    RebuildConverges(w1.core, now, now);
    assert w1.core.tbl.rows[req.berthID].vessel == "" && req.berthID in w1.core.cap.allocs;
  }

  /** Switching on an idle berth for a vessel that is not metered, and departing, from any orderly state
      with the grid off: both requests reach the berth, but the departure stops half way. */
  lemma SwitchThenDepart(w: World, r: M.Rate, b: string, vessel: string, hour: int, now: Time)
    requires CoreOwns(w.core) && !w.core.grid.state.OnGrid? && !w.core.grid.fault && vessel != ""
    requires b in w.core.tbl.rows && w.core.tbl.rows[b].state.Idle? && !Metered(w, vessel)
    ensures var w1 := Runs(w, r, [Event(OpSwitch(true, b, vessel), now)]);
            var (w2, e) := Depart(w1, r, b, hour, now);
            && Runs(w, r, [Event(OpSwitch(true, b, vessel), now)] + [Event(OpDepart(b, hour), now)]) == w2
            && e == Some(NoAllocation) && b in w2.core.tbl.rows
            && w2.core.tbl.rows[b].state.Releasing? && w2.core.tbl.rows[b].vessel == vessel
  {
    hide OwnInv, Depart, Switch, Runs, Charged, M.StateOf;
    var (e1, e2) := (Event(OpSwitch(true, b, vessel), now), Event(OpDepart(b, hour), now));
    RunsThen(w, r, e1, [e2]);
    RunsLast(w, r, e1);
    var w1 := Serve(w, r, e1.op, now);
    RunsLast(w1, r, e2);
    SwitchedOn(w.core, b, vessel, now);
    SwitchOwns(w.core, true, b, vessel, now);
    OwnedRow(w.core.tbl.rows, w.core.cap.allocs, w.core.conn.sessions, b);
    DepartOutcome(w1, r, b, hour, now);
  }

  lemma SwitchedOn(w: Core, b: string, vessel: string, now: Time)
    requires !w.grid.state.OnGrid? && !w.grid.fault && vessel != "" && b in w.tbl.rows && w.tbl.rows[b].state.Idle?
    ensures var rows := Switch(w, true, b, vessel, now).0.tbl.rows;
            b in rows && rows[b].state.Settled? && rows[b].vessel == vessel
  {
    hide ApplySequence, Stamp;
    SwitchOutcome(w.grid, w.tbl, true, b, vessel, Constantly(now));
  }

  // The same on the berths the service starts with.

  lemma {:induction false} SeededHas(seed: seq<Berth>, i: nat)
    requires DistinctSeed(seed) && i < |seed|
    ensures seed[i].id in Seeded(seed) && Seeded(seed)[seed[i].id] == seed[i]
  {
    if i < |seed| - 1 {
      SeededHas(seed[..|seed| - 1], i);
    }
  }

  function AskFor(n: nat, vessel: string, requestID: string): Request
    requires n < 10
  {
    Request(requestID, vessel, BerthName(n), 500.0, Phase(10.0, 50.0, 0.0))
  }

  /** Requests at the first berth are acceptable when the service starts. */
  lemma HarbourAccepts(matches: Phase -> bool, r: M.Rate, vessel: string, requestID: string)
    requires vessel != ""
    ensures var w := Initial(Seeded(Harbour()), 5000.0, matches);
            var req := AskFor(1, vessel, requestID);
            && CoreOwns(w.core) && CapInv(w.core.cap) && OnceInv(w.core.conn)
            && !Answered(w.core.conn, req) && Acceptable(w.core, req)
  {
    hide Seeded, Harbour, CapInv, OnceInv, Total;
    HarbourUnoccupied();
    HarbourSize();
    HarbourFirst();
    SeededHas(Harbour(), 0);
    InitialSafe(Seeded(Harbour()), 5000.0, matches, r);
    NothingUsed();
    var w := Initial(Seeded(Harbour()), 5000.0, matches).core;
    assert Remain(w.cap) == 5000.0;
    assert forall id :: id !in w.conn.sessions;
  }

  lemma NothingUsed()
    ensures Total(map[]) == 0.0
  {
  }

  lemma HarbourFirst()
    ensures Harbour() != [] && Harbour()[0] == Vacant(1, 10.0, 3000.0)
  {
  }

  /** From the start of the service: two vessels and four requests break ownership. */
  lemma HarbourCancelTwice(matches: Phase -> bool, r: M.Rate, now: Time)
    ensures var w := Initial(Seeded(Harbour()), 5000.0, matches);
            var (first, second) := (AskFor(1, "Aurora", "r1"), AskFor(1, "Borealis", "r2"));
            !CoreOwns(Runs(w, r, CancelTwice(SessionID(1), first, second, now)).core)
  {
    hide Seeded, Harbour, CapInv, OnceInv, OwnInv, Runs, SessionID, Answered, Acceptable, AskFor, CancelTwice;
    HarbourAccepts(matches, r, "Aurora", "r1");
    HarbourAccepts(matches, r, "Borealis", "r2");
    SameBerth();
    var w := Initial(Seeded(Harbour()), 5000.0, matches);
    CancelTwiceBreaks(w, r, AskFor(1, "Aurora", "r1"), AskFor(1, "Borealis", "r2"), now);
  }

  lemma SameBerth()
    ensures AskFor(1, "Aurora", "r1").berthID == AskFor(1, "Borealis", "r2").berthID
  {
  }

  /** And one request and a recovery do, too. */
  lemma HarbourApplyThenRebuild(matches: Phase -> bool, r: M.Rate, now: Time)
    ensures var w := Initial(Seeded(Harbour()), 5000.0, matches);
            !CoreOwns(Runs(w, r, [Event(OpApply(AskFor(1, "Aurora", "r1")), now)] + [Event(OpRebuild, now)]).core)
  {
    hide Seeded, Harbour, CapInv, OnceInv, OwnInv, Runs, SessionID, Answered, Acceptable, AskFor;
    HarbourAccepts(matches, r, "Aurora", "r1");
    ApplyThenRebuild(Initial(Seeded(Harbour()), 5000.0, matches), r, AskFor(1, "Aurora", "r1"), now);
  }

  /** Occupying for a nameless vessel leaves capacity behind on an idle berth. */
  lemma HarbourLeak(matches: Phase -> bool, r: M.Rate, now: Time)
    ensures var w := Initial(Seeded(Harbour()), 5000.0, matches);
            !CoreOwns(Runs(w, r, [Event(OpOccupy(BerthName(1), "", 500.0), now)]).core)
  {
    hide Seeded, Harbour, CapInv, OnceInv, OwnInv, Runs, BerthName, Remain, Answered, Occupy;
    var w := Initial(Seeded(Harbour()), 5000.0, matches);
    HarbourAccepts(matches, r, "Aurora", "r1");
    RunsLast(w, r, Event(OpOccupy(BerthName(1), "", 500.0), now));
    OccupyOwns(w.core, BerthName(1), "", 500.0, now);
  }

  /** Switching a berth on settles it without capacity. */
  lemma HarbourSwitch(matches: Phase -> bool, r: M.Rate, now: Time)
    ensures var w := Initial(Seeded(Harbour()), 5000.0, matches);
            !CoreOwns(Runs(w, r, [Event(OpSwitch(true, BerthName(1), "Aurora"), now)]).core)
  {
    hide Seeded, Harbour, CapInv, OnceInv, OwnInv, Runs, BerthName, Remain, Answered, Switch;
    var w := Initial(Seeded(Harbour()), 5000.0, matches);
    HarbourAccepts(matches, r, "Aurora", "r1");
    RunsLast(w, r, Event(OpSwitch(true, BerthName(1), "Aurora"), now));
    SwitchOwns(w.core, true, BerthName(1), "Aurora", now);
  }

  /** And a departure from it leaves it Releasing, where every later departure is refused. */
  lemma HarbourHalfDeparture(matches: Phase -> bool, r: M.Rate, hour: int, now: Time, later: Time)
    ensures var (w, b) := (Initial(Seeded(Harbour()), 5000.0, matches), BerthName(1));
            var w2 := Runs(w, r, [Event(OpSwitch(true, b, "Aurora"), now)] + [Event(OpDepart(b, hour), now)]);
            && b in w2.core.tbl.rows && w2.core.tbl.rows[b].state.Releasing? && w2.core.tbl.rows[b].vessel == "Aurora"
            && Depart(w2, r, b, hour, later).1.Some?
            && Depart(w2, r, b, hour, later).0.core.tbl.rows == w2.core.tbl.rows
  {
    hide Seeded, Harbour, CapInv, OnceInv, OwnInv, Runs, BerthName, Remain, Answered, Depart;
    var (w, b) := (Initial(Seeded(Harbour()), 5000.0, matches), BerthName(1));
    HarbourAccepts(matches, r, "Aurora", "r1");
    SwitchThenDepart(w, r, b, "Aurora", hour, now);
    var w2 := Runs(w, r, [Event(OpSwitch(true, b, "Aurora"), now)] + [Event(OpDepart(b, hour), now)]);
    NeverLeft(w2, r, b, hour, later);
  }
}
