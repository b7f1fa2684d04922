/** No wake-up is lost: the channel of a decided session has been closed or is about to be, whoever decided
    the session and whatever came in between. */
module Signals {
  import opened Prelude
  import opened CapacityBook
  import opened GridState
  import opened Sessions
  import opened AtMostOnce
  import opened Interleaving

  ghost predicate Pends(s: System, c: Channel) {
    exists id :: id in s.pending && s.pending[id] == c
  }

  ghost predicate Placed(s: System, c: Channel) {
    Pends(s, c) || InHand(s.threads, c) || c in s.closed
  }

  /** Whoever waits does so on a channel that was made, and that pends for no other session. */
  ghost predicate WaitsOnOwn(s: System, p: Position) {
    p.Waiting? && p.ch.Some? ==>
      p.ch.value < s.made && forall id :: id in s.pending && s.pending[id] == p.ch.value ==> id == p.id
  }

  ghost predicate NoneLost(s: System) {
    && (forall c: Channel :: c < s.made ==> Placed(s, c))
    && (forall t :: t in s.threads ==> WaitsOnOwn(s, s.threads[t]))
  }

  /** A step that leaves the channels alone, by a thread that has none in hand before it. */
  lemma LostAside(s: System, s1: System, t: Thread)
    requires NoneLost(s) && !At(s, t).Signalling?
    requires s1.pending == s.pending && s1.made == s.made && s1.closed == s.closed
    requires s1.threads == s.threads || s1.threads == s.threads[t := At(s1, t)]
    requires WaitsOnOwn(s, At(s1, t))
    ensures NoneLost(s1)
  {
    forall c: Channel | c < s1.made ensures Placed(s1, c) {
      assert Placed(s, c);
      StillInHand(s, s1, t, c);
    }
  }

  lemma StillInHand(s: System, s1: System, t: Thread, c: Channel)
    requires !At(s, t).Signalling? && forall u :: u in s.threads && u != t ==> u in s1.threads
    requires forall u :: u in s.threads && u != t ==> s1.threads[u] == s.threads[u]
    ensures InHand(s.threads, c) ==> InHand(s1.threads, c)
  {
    if InHand(s.threads, c) {
      var u :| u in s.threads && Holds(s.threads[u], c);
      assert u != t && Holds(s1.threads[u], c);
    }
  }

  lemma EndedLost(s: System, t: Thread, id: string, st: SState)
    requires NoneLost(s) && !At(s, t).Signalling?
    ensures NoneLost(Ended(s, t, id, st))
  {
    var s1 := Ended(s, t, id, st);
    forall c: Channel | c < s1.made ensures Placed(s1, c) {
      assert Placed(s, c);
      StillInHand(s, s1, t, c);
      if Pends(s, c) {
        var x :| x in s.pending && s.pending[x] == c;
        assert if x == id then Holds(s1.threads[t], c) else x in s1.pending && s1.pending[x] == c;
      }
    }
  }

  lemma RegisteredLost(s: System, t: Thread, req: Request)
    requires NoneLost(s) && !At(s, t).Signalling? && SessionID(s.number + 1) !in s.pending
    ensures NoneLost(Registering(s, t, req))
  {
    hide SessionID;
    var s1, id := Registering(s, t, req), SessionID(s.number + 1);
    assert id in s1.pending && s1.pending[id] == s.made;
    forall c: Channel | c < s1.made ensures Placed(s1, c) {
      if c < s.made {
        assert Placed(s, c);
        StillInHand(s, s1, t, c);
        if Pends(s, c) {
          var x :| x in s.pending && s.pending[x] == c;
          assert x in s1.pending && s1.pending[x] == c;
        }
      }
    }
  }

  lemma SignalledLost(s: System, t: Thread, ch: Option<Channel>, vacates: Option<string>)
    requires NoneLost(s) && t in s.threads && s.threads[t] == Signalling(ch, vacates)
    ensures NoneLost(Signalled(s, t, ch, vacates))
  {
    var s1 := Signalled(s, t, ch, vacates);
    forall c: Channel | c < s1.made ensures Placed(s1, c) {
      assert Placed(s, c);
      if InHand(s.threads, c) {
        var u :| u in s.threads && Holds(s.threads[u], c);
        assert u != t ==> Holds(s1.threads[u], c);
      }
    }
  }

  /** Only signalling takes a thread on from having a channel in hand. */
  lemma OnlySignals(s: System, t: Thread, a: Action)
    requires At(s, t).Signalling? && IsMove(a)
    ensures Move(s, t, a) == s
  {
    hide Release, TryAllocate, HasLive, Passes, Remain;
  }

  lemma MovedLost(s: System, t: Thread, a: Action)
    requires NoneLost(s) && Homes(s) && IsMove(a)
    ensures NoneLost(Move(s, t, a))
  {
    hide NoneLost, Move;
    if At(s, t).Signalling? {
      OnlySignals(s, t, a);
    } else {
      Moves(s, t, a);
      var s1 := Move(s, t, a);
      if s1 != s {
        NewWaiter(s, At(s1, t));
        LostAside(s, s1, t);
      }
    }
  }

  lemma NewWaiter(s: System, q: Position)
    requires Homes(s)
    requires q.Waiting? ==> q.ch == if q.id in s.pending then Some(s.pending[q.id]) else None
    ensures WaitsOnOwn(s, q)
  {
  }

  lemma ChannelPart(s: System)
    requires Inv(s)
    ensures Homes(s) && SessionID(s.number + 1) !in s.pending
    ensures forall t :: t in s.threads ==> KnowsChannel(s, s.threads[t])
  {
    hide SessionID, GatesOk, CountsOk, MetersOk, CapacityOk, OneHolder;
    RegisteredSessions(s, 0, Request("", "", "", 0.0, NO_PHASE));
  }

  lemma ActLost(s: System, t: Thread, a: Action)
    requires Inv(s) && NoneLost(s)
    ensures NoneLost(Act(s, t, a))
  {
    hide Inv, NoneLost, Homes, SessionID, Registering, Gating, Ended, Signalled, Starting, Finishing, Closing, Move;
    hide After, Callable;
    ChannelPart(s);
    var p := At(s, t);
    if IsMove(a) {
      MovedLost(s, t, a);
    } else {
      match a
      case Register => if p.Marked? { RegisteredLost(s, t, p.req); }
      case Gate(id) => if p.Ready? { GatedLost(s, t, id); }
      case CloseGrid(_) => if p.PastGate? { ClosedLost(s, t, p.id); }
      case StartMeter => if p.Berthed? { StartingSame(s, t, p.id); LostAside(s, Starting(s, t, p.id), t); }
      case Finish => if p.Occupied? { FinishedLost(s, t, p.id); }
      case Fail => if p.Failing? { EndedLost(s, t, p.id, Failed); }
      case CancelCall(id) => if p.Ready? { EndedLost(s, t, id, Cancelled); }
      case Lapse => if p.Expiring? { EndedLost(s, t, p.id, Lapsed); }
      case Signal => if p.Signalling? { SignalledLost(s, t, p.ch, p.vacates); }
      case _ => ChannelsSame(s, Work(s, t, a));
    }
  }

  lemma ChannelsSame(s: System, s1: System)
    requires NoneLost(s) && s1.threads == s.threads
    requires s1.pending == s.pending && s1.made == s.made && s1.closed == s.closed
    ensures NoneLost(s1)
  {
    forall c: Channel | c < s1.made ensures Placed(s1, c) {
      assert Placed(s, c);
    }
  }

  lemma GatedLost(s: System, t: Thread, id: string)
    requires NoneLost(s) && At(s, t).Ready?
    ensures NoneLost(Gating(s, t, id))
  {
    hide NoneLost;
    LostAside(s, Gating(s, t, id), t);
  }

  lemma ClosedLost(s: System, t: Thread, id: string)
    requires NoneLost(s) && At(s, t).PastGate?
    ensures NoneLost(Closing(s, t, id))
  {
    hide NoneLost;
    LostAside(s, Closing(s, t, id), t);
  }

  lemma FinishedLost(s: System, t: Thread, id: string)
    requires NoneLost(s) && At(s, t).Occupied?
    ensures NoneLost(Finishing(s, t, id))
  {
    hide NoneLost, Ended;
    EndedLost(s, t, id, Connected);
    if id in s.sessions {
      ChannelsSame(Ended(s, t, id, Connected), Finishing(s, t, id));
    }
  }

  lemma {:induction false} NeverLost(shore: real, turns: seq<Turn>)
    ensures NoneLost(Interleaved(Start(shore), turns))
  {
    hide Inv, Act;
    if turns != [] {
      var before, last := turns[..|turns| - 1], turns[|turns| - 1];
      NeverLost(shore, before);
      InterleavedSafe(shore, before);
      ActLost(Interleaved(Start(shore), before), last.t, last.a);
    }
  }

  /** After any interleaving a waiting thread can be woken exactly if its session has been decided and the
      thread that took its channel has signalled; if the session is decided and it cannot be woken yet,
      that thread is at its signal, after which it can. */
  lemma NoWakeupLost(shore: real, turns: seq<Turn>, t: Thread)
    requires At(Interleaved(Start(shore), turns), t).Waiting?
    ensures var s := Interleaved(Start(shore), turns);
            var p := At(s, t);
            && p.id in s.sessions && p.ch.Some?
            && (At(Act(s, t, Wake), t).Ready? <==>
                  !Undecided(s.sessions[p.id].state) && forall u :: !Holds(At(s, u), p.ch.value))
            && (forall u :: Holds(At(s, u), p.ch.value) ==> At(Act(Act(s, u, Signal), t, Wake), t).Ready?)
  {
    hide Inv, NoneLost, Interleaved, Work;
    var s := Interleaved(Start(shore), turns);
    InterleavedSafe(shore, turns);
    NeverLost(shore, turns);
    WaiterPlaced(s, t);
    WakesIf(s, t);
    forall u | Holds(At(s, u), At(s, t).ch.value) ensures At(Act(Act(s, u, Signal), t, Wake), t).Ready? {
      SignalCloses(s, u, t);
      WakesIf(Act(s, u, Signal), t);
    }
  }

  lemma WakesIf(s: System, t: Thread)
    requires At(s, t).Waiting? && At(s, t).ch.Some?
    ensures At(Act(s, t, Wake), t).Ready? <==> At(s, t).ch.value in s.closed
  {
    hide Work, Release, TryAllocate, HasLive, Remain;
  }

  lemma SignalCloses(s: System, u: Thread, t: Thread)
    requires At(s, t).Waiting? && At(s, t).ch.Some? && Holds(At(s, u), At(s, t).ch.value)
    ensures var s1 := Act(s, u, Signal); At(s1, t) == At(s, t) && At(s, t).ch.value in s1.closed
  {
    hide Move;
  }

  /** Where the channel of a waiting thread is. */
  lemma WaiterPlaced(s: System, t: Thread)
    requires Inv(s) && NoneLost(s) && At(s, t).Waiting?
    ensures var p := At(s, t);
            && p.id in s.sessions && p.ch.Some?
            && (p.ch.value in s.closed <==>
                  !Undecided(s.sessions[p.id].state) && forall u :: !Holds(At(s, u), p.ch.value))
  {
    hide IDs, GatesOk, CountsOk, MetersOk, CapacityOk, OneHolder;
    var p := At(s, t);
    assert KnowsChannel(s, s.threads[t]) && WaitsOnOwn(s, s.threads[t]);
    var c := p.ch.value;
    assert Placed(s, c);
    if c in s.closed {
      forall u ensures !Holds(At(s, u), c) {
        assert u in s.threads ==> KnowsChannel(s, s.threads[u]);
      }
    }
    if InHand(s.threads, c) {
      var u :| u in s.threads && Holds(s.threads[u], c);
      assert Holds(At(s, u), c);
    }
  }
}
