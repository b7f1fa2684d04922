/** Each request is executed at most once, over every sequence of connection calls. */
module AtMostOnce {
  import opened Prelude
  import opened BerthTable
  import opened CapacityBook
  import opened Sessions
  import Decimal

  /** The ids given out so far. */
  ghost function IDs(n: nat): set<string> {
    set k | 1 <= k <= n :: SessionID(k)
  }

  ghost function ConnectedFor(sessions: map<string, Session>, requestID: string): set<string> {
    set id | id in sessions && sessions[id].requestID == requestID && sessions[id].state.Connected?
  }

  ghost predicate Numbered(c: Conn) {
    c.sessions.Keys == IDs(c.number) && forall id :: id in c.sessions ==> c.sessions[id].id == id
  }

  ghost predicate Pending(c: Conn) {
    && (forall id :: id in c.pending <==> id in c.sessions && c.sessions[id].state.Verifying?)
    && (forall id :: id in c.sessions ==> !c.sessions[id].state.Connecting?)
  }

  ghost predicate UniqueLive(c: Conn) {
    forall id, id', r :: r != "" && LiveFor(c, id, r) && LiveFor(c, id', r) ==> id == id'
  }

  ghost predicate Counted(c: Conn) {
    forall r :: Executed(c, r) == |ConnectedFor(c.sessions, r)|
  }

  ghost predicate OnceInv(c: Conn) {
    Numbered(c) && Pending(c) && UniqueLive(c) && Counted(c)
  }

  lemma SessionIDInjective(a: nat, b: nat)
    requires SessionID(a) == SessionID(b)
    ensures a == b
  {
    assert SessionID(a)[2..] == Decimal.Pad3(a) && SessionID(b)[2..] == Decimal.Pad3(b);
    Decimal.Pad3Injective(a, b);
  }

  /** A session id is its number, in at least three digits. */
  lemma SessionIDReads(n: nat)
    ensures var s := SessionID(n);
            && |s| >= 5 && s[..2] == "s-" && Decimal.AllDigits(s[2..]) && Decimal.Value(s[2..]) == n
            && |s| == 2 + if |Decimal.Digits(n)| < 3 then 3 else |Decimal.Digits(n)|
  {
    Decimal.Pad3Reads(n);
    assert SessionID(n)[2..] == Decimal.Pad3(n);
  }

  /** The next id has never been given out, however many digits it takes. */
  lemma NextIDFresh(n: nat)
    ensures SessionID(n + 1) !in IDs(n) && IDs(n + 1) == IDs(n) + {SessionID(n + 1)}
  {
    hide SessionID;
    forall k | 1 <= k <= n ensures SessionID(k) != SessionID(n + 1) {
      if SessionID(k) == SessionID(n + 1) {
        SessionIDInjective(k, n + 1);
      }
    }
  }

  /** No session is ever overwritten: there are as many as numbers given out. */
  lemma {:induction false} IDCount(n: nat)
    ensures |IDs(n)| == n
  {
    hide SessionID;
    if n > 0 {
      NextIDFresh(n - 1);
      IDCount(n - 1);
    } else {
      assert IDs(0) == {};
    }
  }

  lemma NoSessionsOnce()
    ensures OnceInv(NO_SESSIONS)
  {
    hide SessionID;
    assert IDs(0) == {};
  }

  lemma RegisteredOnce(c: Conn, req: Request, a: Allocation, now: Time)
    requires OnceInv(c) && (req.requestID == "" || FindLive(c, req.requestID).None?)
    ensures OnceInv(Registered(c, req, a, now))
    ensures SessionID(c.number + 1) !in c.sessions
  {
    hide SessionID, IDs;
    var c1 := Registered(c, req, a, now);
    var id := SessionID(c.number + 1);
    NextIDFresh(c.number);
    forall x, x', r | r != "" && LiveFor(c1, x, r) && LiveFor(c1, x', r) ensures x == x' {
      assert x != id ==> LiveFor(c, x, r);
      assert x' != id ==> LiveFor(c, x', r);
    }
    forall r ensures Executed(c1, r) == |ConnectedFor(c1.sessions, r)| {
      assert ConnectedFor(c1.sessions, r) == ConnectedFor(c.sessions, r);
      assert Executed(c, r) == |ConnectedFor(c.sessions, r)|;
    }
  }

  /** A session that is not connected may close with any verdict that keeps it no more alive. */
  lemma ClosedOnce(c: Conn, id: string, st: SState, why: Reason)
    requires OnceInv(c) && id in c.sessions && !c.sessions[id].state.Connected?
    requires st.Failed? || st.Cancelled? || (st.Lapsed? && Live(c.sessions[id]))
    ensures OnceInv(Closed(c, id, st, why))
  {
    hide SessionID, IDs;
    var c1 := Closed(c, id, st, why);
    forall x, x', r | r != "" && LiveFor(c1, x, r) && LiveFor(c1, x', r) ensures x == x' {
      assert LiveFor(c, x, r) && LiveFor(c, x', r);
    }
    forall r ensures Executed(c1, r) == |ConnectedFor(c1.sessions, r)| {
      assert ConnectedFor(c1.sessions, r) == ConnectedFor(c.sessions, r);
      assert Executed(c, r) == |ConnectedFor(c.sessions, r)|;
    }
  }

  lemma FinishedCount(c: Conn, id: string, r: string)
    requires id in c.sessions && c.sessions[id].state.Verifying?
    requires Executed(c, r) == |ConnectedFor(c.sessions, r)|
    ensures var c1 := Finished(Gated(c, id), id); Executed(c1, r) == |ConnectedFor(c1.sessions, r)|
  {
    var c1 := Finished(Gated(c, id), id);
    if r == c.sessions[id].requestID {
      assert ConnectedFor(c1.sessions, r) == ConnectedFor(c.sessions, r) + {id};
    } else {
      assert ConnectedFor(c1.sessions, r) == ConnectedFor(c.sessions, r);
    }
  }

  /** Gating and finishing a verifying session, seen as one step. */
  lemma FinishedOnce(c: Conn, id: string)
    requires OnceInv(c) && id in c.sessions && c.sessions[id].state.Verifying?
    ensures OnceInv(Finished(Gated(c, id), id))
  {
    hide SessionID, IDs, ConnectedFor, Executed;
    var c1 := Finished(Gated(c, id), id);
    forall x, x', r | r != "" && LiveFor(c1, x, r) && LiveFor(c1, x', r) ensures x == x' {
      assert LiveFor(c, x, r) && LiveFor(c, x', r);
    }
    forall r ensures Executed(c1, r) == |ConnectedFor(c1.sessions, r)| {
      FinishedCount(c, id, r);
    }
  }

  /** Failing a gated session is failing the session. */
  lemma GatedThenClosed(c: Conn, id: string, e: Error)
    requires OnceInv(c) && id in c.sessions && c.sessions[id].state.Verifying?
    ensures OnceInv(Closed(Gated(c, id), id, Failed, Because(e)))
  {
    hide SessionID, IDs;
    var c1 := Closed(Gated(c, id), id, Failed, Because(e));
    forall x, x', r | r != "" && LiveFor(c1, x, r) && LiveFor(c1, x', r) ensures x == x' {
      assert LiveFor(c, x, r) && LiveFor(c, x', r);
    }
    forall r ensures Executed(c1, r) == |ConnectedFor(c1.sessions, r)| {
      assert ConnectedFor(c1.sessions, r) == ConnectedFor(c.sessions, r);
      assert Executed(c, r) == |ConnectedFor(c.sessions, r)|;
    }
  }

  lemma ConnectKeepsSessions(w: Core, s: Session, now: Time)
    ensures Connect(w, s, now).0.conn == w.conn && Connect(w, s, now).0.cap == w.cap
  {
  }

  lemma ApplyOnce(w: Core, req: Request, now: Time)
    requires OnceInv(w.conn)
    ensures OnceInv(Apply(w, req, now).0.conn)
  {
    hide OnceInv, Registered, Allocate, MarkAllocating, Release, Refusal;
    if req.requestID == "" || FindLive(w.conn, req.requestID).None? {
      var a := Allocate(w.tbl.rows, w.cap, req.berthID, req.vessel, req.needKVA, now).1;
      if a.Ok? {
        RegisteredOnce(w.conn, req, a.value, now);
      }
    }
  }

  lemma ConfirmOnce(w: Core, id: string, now: Time)
    requires OnceInv(w.conn)
    ensures OnceInv(Confirm(w, id, now).0.conn)
  {
    hide OnceInv, Gated, Finished, Closed, Connect;
    if id in w.conn.sessions && w.conn.sessions[id].state.Verifying? {
      var (w1, e) := Connect(w.(conn := Gated(w.conn, id)), w.conn.sessions[id], now);
      GatedKeys(w.conn, id);
      ConnectKeepsSessions(w.(conn := Gated(w.conn, id)), w.conn.sessions[id], now);
      if e.Some? {
        GatedThenClosed(w.conn, id, e.value);
      } else {
        FinishedOnce(w.conn, id);
      }
    }
  }

  lemma GatedKeys(c: Conn, id: string)
    requires id in c.sessions
    ensures Gated(c, id).sessions.Keys == c.sessions.Keys
  {
  }

  lemma CancelOnce(w: Core, id: string, now: Time)
    requires OnceInv(w.conn)
    ensures OnceInv(Cancel(w, id, now).0.conn)
  {
    hide OnceInv, Closed;
    if id in w.conn.sessions && !w.conn.sessions[id].state.Connected? {
      ClosedOnce(w.conn, id, Cancelled, ByOperator);
    }
  }

  lemma WaitOnce(w: Core, id: string, now: Time)
    requires OnceInv(w.conn)
    ensures OnceInv(Wait(w, id, now).0.conn)
  {
    hide OnceInv, Closed;
    if id in w.conn.sessions && w.conn.sessions[id].state.Verifying? {
      ClosedOnce(w.conn, id, Lapsed, WaitExpired);
    }
  }

  lemma OverrideOnce(c: Conn, o: Override)
    requires OnceInv(c)
    ensures OnceInv(c.(over := o))
  {
    hide SessionID, IDs;
    var c1 := c.(over := o);
    forall id, id', r | r != "" && LiveFor(c1, id, r) && LiveFor(c1, id', r) ensures id == id' {
      assert LiveFor(c, id, r) && LiveFor(c, id', r);
    }
    forall r ensures Executed(c1, r) == |ConnectedFor(c1.sessions, r)| {
      assert Executed(c, r) == |ConnectedFor(c.sessions, r)|;
    }
  }

  lemma {:induction false} DispatchOnce(w: Core, order: seq<string>, now: Time)
    requires OnceInv(w.conn)
    ensures OnceInv(ConfirmAll(w, order, now).0.conn) && OnceInv(AutoDispatch(w, order, now).0.conn)
  {
    hide OnceInv, Confirm;
    if order != [] {
      DispatchOnce(w, order[..|order| - 1], now);
      ConfirmOnce(ConfirmAll(w, order[..|order| - 1], now).0, order[|order| - 1], now);
    }
  }

  /** What the invariant means to a caller: a request is never executed twice, at most one of its
      sessions is alive, asking again returns that session and changes nothing, and no session was
      ever lost. */
  lemma OnceMeans(w: Core, req: Request, id: string, now: Time)
    requires OnceInv(w.conn) && req.requestID != ""
    ensures Executed(w.conn, req.requestID) <= 1
    ensures LiveFor(w.conn, id, req.requestID) ==> Apply(w, req, now) == (w, Ok(w.conn.sessions[id]))
    ensures |w.conn.sessions| == w.conn.number
  {
    hide SessionID, Refusal, Allocate;
    IDCount(w.conn.number);
    assert |w.conn.sessions| == |w.conn.sessions.Keys|;
    var done := ConnectedFor(w.conn.sessions, req.requestID);
    assert Executed(w.conn, req.requestID) == |done|;
    if done != {} {
      var a :| a in done;
      forall b | b in done ensures b == a {
        assert LiveFor(w.conn, a, req.requestID) && LiveFor(w.conn, b, req.requestID);
      }
      assert done == {a};
    }
  }

  /** A request whose wait ran out stays answered by the lapsed session: asking again never reaches
      the berth, until an operator cancels that session. */
  lemma LapsedBlocks(w: Core, req: Request, id: string, now: Time, later: Time)
    requires OnceInv(w.conn) && req.requestID != ""
    requires id in w.conn.sessions && w.conn.sessions[id].requestID == req.requestID
      && w.conn.sessions[id].state.Verifying?
    ensures var w1 := Wait(w, id, now).0;
            Apply(w1, req, later) == (w1, Ok(w1.conn.sessions[id])) && w1.conn.sessions[id].state.Lapsed?
  {
    hide OnceInv, Apply;
    WaitOnce(w, id, now);
    OnceMeans(Wait(w, id, now).0, req, id, later);
  }

  /** Cancelling the lapsed session is what lets the request be tried again: no live session of it is
      left. */
  lemma CancelUnblocks(w: Core, id: string, now: Time)
    requires OnceInv(w.conn) && id in w.conn.sessions && w.conn.sessions[id].requestID != ""
    requires Live(w.conn.sessions[id]) && !w.conn.sessions[id].state.Connected?
    ensures var w1 := Cancel(w, id, now).0; FindLive(w1.conn, w.conn.sessions[id].requestID).None?
  {
    hide Numbered, Counted, Pending;
    var r := w.conn.sessions[id].requestID;
    var c1 := Cancel(w, id, now).0.conn;
    assert LiveFor(w.conn, id, r);
    forall x ensures !LiveFor(c1, x, r) {
      assert x != id && LiveFor(c1, x, r) ==> LiveFor(w.conn, x, r);
    }
  }

  /** A timer that fires although its session has been decided meanwhile: the timeout does not look at
      the state again. The accounting survives exactly when the session is not connected and is either
      still alive or not replaced by another live session of its request. */
  lemma LateTimeout(c: Conn, id: string)
    requires OnceInv(c) && id in c.sessions
    ensures var s := c.sessions[id];
            OnceInv(Closed(c, id, Lapsed, WaitExpired)) <==>
              !s.state.Connected? && (Live(s) || s.requestID == "" || FindLive(c, s.requestID).None?)
  {
    hide SessionID, IDs, OnceInv;
    var s, c1 := c.sessions[id], Closed(c, id, Lapsed, WaitExpired);
    if s.state.Connected? {
      Uncounted(c, id);
    } else if Live(s) {
      ClosedOnce(c, id, Lapsed, WaitExpired);
    } else if s.requestID != "" && FindLive(c, s.requestID).Some? {
      Revived(c, id);
    } else {
      RevivedAlone(c, id);
    }
  }

  lemma Uncounted(c: Conn, id: string)
    requires OnceInv(c) && id in c.sessions && c.sessions[id].state.Connected?
    ensures !OnceInv(Closed(c, id, Lapsed, WaitExpired))
  {
    var r, c1 := c.sessions[id].requestID, Closed(c, id, Lapsed, WaitExpired);
    assert ConnectedFor(c1.sessions, r) == ConnectedFor(c.sessions, r) - {id};
    assert Executed(c1, r) == Executed(c, r) == |ConnectedFor(c.sessions, r)|;
  }

  lemma Revived(c: Conn, id: string)
    requires id in c.sessions && !Live(c.sessions[id])
    requires c.sessions[id].requestID != "" && FindLive(c, c.sessions[id].requestID).Some?
    ensures !OnceInv(Closed(c, id, Lapsed, WaitExpired))
  {
    hide Numbered, Pending, Counted;
    var r, c1 := c.sessions[id].requestID, Closed(c, id, Lapsed, WaitExpired);
    var other := FindLive(c, r).value;
    assert LiveFor(c, other, r) && other != id;
    assert LiveFor(c1, other, r) && LiveFor(c1, id, r);
  }

  lemma RevivedAlone(c: Conn, id: string)
    requires OnceInv(c) && id in c.sessions && !Live(c.sessions[id])
    requires c.sessions[id].requestID == "" || FindLive(c, c.sessions[id].requestID).None?
    ensures OnceInv(Closed(c, id, Lapsed, WaitExpired))
  {
    hide SessionID, IDs;
    var c1 := Closed(c, id, Lapsed, WaitExpired);
    forall x, x', r | r != "" && LiveFor(c1, x, r) && LiveFor(c1, x', r) ensures x == x' {
      assert x == id || LiveFor(c, x, r);
      assert x' == id || LiveFor(c, x', r);
    }
    forall r ensures Executed(c1, r) == |ConnectedFor(c1.sessions, r)| {
      assert ConnectedFor(c1.sessions, r) == ConnectedFor(c.sessions, r);
      assert Executed(c, r) == |ConnectedFor(c.sessions, r)|;
    }
  }
}
