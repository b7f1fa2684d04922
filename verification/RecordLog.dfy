/** The run log as a value: the lines of its file, and the entries and fingerprints in memory. */
module RecordLog {
  import opened Prelude
  import Decimal

  datatype Entry = Entry(id: string, kind: string, vessel: string, berthID: string, message: string, at: Time)

  /** The line codec: encoding an entry and decoding a line, which may fail. */
  datatype Codec = Codec(encode: Entry -> string, decode: string -> Option<Entry>)

  ghost predicate RoundTrips(c: Codec) {
    forall e :: c.decode(c.encode(e)) == Some(e)
  }

  /** The text whose hash is an entry's fingerprint; the id is not part of it. */
  function Fingerprint(e: Entry): string {
    e.kind + [NUL] + e.vessel + [NUL] + e.berthID + [NUL] + e.message + [NUL] + Decimal.Dec(e.at)
  }

  function Body(e: Entry): string {
    e.kind + [NUL] + (e.vessel + [NUL] + (e.berthID + [NUL] + e.message))
  }

  /** The time ends every text, so equal texts have equal times and equal bodies. */
  lemma FingerprintSplits(e: Entry, f: Entry)
    ensures Fingerprint(e) == Fingerprint(f) <==> Body(e) == Body(f) && e.at == f.at
  {
    hide LastField;
    assert Fingerprint(e) == Body(e) + [NUL] + Decimal.Dec(e.at);
    assert Fingerprint(f) == Body(f) + [NUL] + Decimal.Dec(f.at);
    Decimal.DecNulFree(e.at);
    Decimal.DecNulFree(f.at);
    LastFieldOf(Body(e), Decimal.Dec(e.at));
    LastFieldOf(Body(f), Decimal.Dec(f.at));
    if Fingerprint(e) == Fingerprint(f) {
      Decimal.DecInjective(e.at, f.at);
    }
  }

  function Nuls(s: string): nat {
    if s == [] then 0 else Nuls(s[..|s| - 1]) + if s[|s| - 1] == NUL then 1 else 0
  }

  lemma {:induction false} NulsJoin(a: string, b: string)
    ensures Nuls(a + b) == Nuls(a) + Nuls(b)
  {
    if b == [] {
      assert a + b == a;
    } else {
      NulsJoin(a, b[..|b| - 1]);
      assert (a + b)[..|a + b| - 1] == a + b[..|b| - 1];
    }
  }

  lemma {:induction false} NulsNone(s: string)
    ensures Nuls(s) == 0 <==> NulFree(s)
  {
    if s != [] {
      NulsNone(s[..|s| - 1]);
      assert s == s[..|s| - 1] + [s[|s| - 1]];
    }
  }

  lemma BodyNuls(e: Entry)
    ensures Nuls(Body(e)) == 3 + Nuls(e.kind) + Nuls(e.vessel) + Nuls(e.berthID) + Nuls(e.message)
  {
    hide Nuls;
    NulsJoin(e.kind + [NUL], e.vessel + [NUL] + (e.berthID + [NUL] + e.message));
    NulsJoin(e.kind, [NUL]);
    NulsJoin(e.vessel + [NUL], e.berthID + [NUL] + e.message);
    NulsJoin(e.vessel, [NUL]);
    NulsJoin(e.berthID + [NUL], e.message);
    NulsJoin(e.berthID, [NUL]);
    OneNul();
  }

  lemma OneNul()
    ensures Nuls([NUL]) == 1
  {
  }

  /** No field holds a separator. */
  predicate Plain(e: Entry) {
    NulFree(e.kind) && NulFree(e.vessel) && NulFree(e.berthID) && NulFree(e.message)
  }

  lemma SamePlain(e: Entry, f: Entry)
    requires Body(e) == Body(f) && Plain(e)
    ensures Plain(f)
  {
    hide Nuls, NulFree;
    BodyNuls(e);
    BodyNuls(f);
    NulsNone(e.kind);
    NulsNone(e.vessel);
    NulsNone(e.berthID);
    NulsNone(e.message);
    NulsNone(f.kind);
    NulsNone(f.vessel);
    NulsNone(f.berthID);
    NulsNone(f.message);
  }

  lemma BodyTells(e: Entry, f: Entry)
    requires Plain(e) && Plain(f) && Body(e) == Body(f)
    ensures e.kind == f.kind && e.vessel == f.vessel && e.berthID == f.berthID && e.message == f.message
  {
    hide FirstField;
    FirstFieldOf(e.kind, e.vessel + [NUL] + (e.berthID + [NUL] + e.message));
    FirstFieldOf(f.kind, f.vessel + [NUL] + (f.berthID + [NUL] + f.message));
    FirstFieldOf(e.vessel, e.berthID + [NUL] + e.message);
    FirstFieldOf(f.vessel, f.berthID + [NUL] + f.message);
    FirstFieldOf(e.berthID, e.message);
    FirstFieldOf(f.berthID, f.message);
  }

  /** Where a text holds a separator. */
  function Before(s: string): string {
    FirstField(s)
  }

  function Beyond(s: string): string
    requires !NulFree(s)
  {
    SplitAtNul(s);
    s[|Before(s)| + 1..]
  }

  lemma {:induction false} SplitAtNul(s: string)
    requires !NulFree(s)
    ensures |Before(s)| < |s| && s == Before(s) + [NUL] + s[|Before(s)| + 1..]
  {
    hide NulFree;
    TailHasNul(s);
    if s[0] == NUL {
      assert s == [] + [NUL] + s[1..];
    } else {
      SplitAtNul(s[1..]);
      assert s == [s[0]] + s[1..];
      SplitPrepended(s[0], s[1..], Before(s[1..]));
    }
  }

  lemma TailHasNul(s: string)
    requires !NulFree(s)
    ensures s != [] && (s[0] != NUL ==> !NulFree(s[1..]))
  {
  }

  lemma SplitPrepended(c: char, s: string, b: string)
    requires |b| < |s| && s == b + [NUL] + s[|b| + 1..]
    ensures var s1 := [c] + s; s1 == [c] + b + [NUL] + s1[|b| + 2..]
  {
    var rest := s[|b| + 1..];
    assert ([c] + s)[|b| + 2..] == rest;
    assert [c] + s == [c] + b + [NUL] + rest;
  }

  /** Another entry with the same text: the fields are cut at a different separator. */
  function Shifted(e: Entry): Entry
    requires !Plain(e)
  {
    if !NulFree(e.kind) then
      e.(kind := Before(e.kind), vessel := Beyond(e.kind), berthID := e.vessel,
        message := e.berthID + [NUL] + e.message)
    else if !NulFree(e.vessel) then
      e.(vessel := Before(e.vessel), berthID := Beyond(e.vessel), message := e.berthID + [NUL] + e.message)
    else if !NulFree(e.berthID) then
      e.(berthID := Before(e.berthID), message := Beyond(e.berthID) + [NUL] + e.message)
    else
      e.(kind := e.kind + [NUL] + e.vessel, vessel := e.berthID, berthID := Before(e.message),
        message := Beyond(e.message))
  }

  lemma Assoc(a: string, b: string, c: string)
    ensures (a + [NUL] + b) + [NUL] + c == a + [NUL] + (b + [NUL] + c)
  {
  }

  lemma ShiftedBody(e: Entry)
    requires !Plain(e)
    ensures Body(Shifted(e)) == Body(e) && Shifted(e) != e && Shifted(e).id == e.id && Shifted(e).at == e.at
  {
    hide NulFree, Before, Beyond;
    if !NulFree(e.kind) {
      Cut(e.kind);
      Assoc(Before(e.kind), Beyond(e.kind), e.vessel + [NUL] + (e.berthID + [NUL] + e.message));
    } else if !NulFree(e.vessel) {
      Cut(e.vessel);
      Assoc(Before(e.vessel), Beyond(e.vessel), e.berthID + [NUL] + e.message);
    } else if !NulFree(e.berthID) {
      Cut(e.berthID);
      Assoc(Before(e.berthID), Beyond(e.berthID), e.message);
    } else {
      Cut(e.message);
      Assoc(e.kind, e.vessel, e.berthID + [NUL] + e.message);
      assert |Shifted(e).kind| > |e.kind|;
    }
  }

  lemma Cut(s: string)
    requires !NulFree(s)
    ensures s == Before(s) + [NUL] + Beyond(s) && Before(s) != s
  {
    SplitAtNul(s);
  }

  /** An entry is told apart from every other, ids aside, exactly when none of its fields holds a
      separator. */
  lemma FingerprintTells(e: Entry)
    ensures (forall f :: Fingerprint(f) == Fingerprint(e) ==> f.(id := e.id) == e) <==> Plain(e)
  {
    hide Fingerprint, Body, Plain, Shifted;
    if Plain(e) {
      forall f | Fingerprint(f) == Fingerprint(e) ensures f.(id := e.id) == e {
        FingerprintSplits(e, f);
        SamePlain(e, f);
        BodyTells(e, f);
      }
    } else {
      ShiftedBody(e);
      FingerprintSplits(e, Shifted(e));
      assert Fingerprint(Shifted(e)) == Fingerprint(e) && Shifted(e).(id := e.id) != e;
    }
  }

  /** So whatever an entry with a separator is, after it a different entry is acknowledged but not
      logged. */
  lemma SeparatorCollides(c: Codec, l: Log, e: Entry)
    requires !Plain(e) && Append(c, l, e).1.Ok? && !l.closed
    ensures var (l1, f) := (Append(c, l, e).0, Shifted(e));
            f != e && Fingerprint(f) == Fingerprint(e) && Fingerprint(f) in l1.mem.seen
            && (f.kind != "" || f.vessel != "" || f.message != "" ==> Append(c, l1, f) == (l1, Ok(Fingerprint(f))))
  {
    hide Fingerprint, Body, Plain, Shifted;
    ShiftedBody(e);
    FingerprintSplits(e, Shifted(e));
  }

  /** Entries in memory and the fingerprints already seen. */
  datatype Memory = Memory(entries: seq<Entry>, seen: set<string>)

  const BLANK: Memory := Memory([], {})

  function Recorded(m: Memory, e: Entry): Memory {
    Memory(m.entries + [e], m.seen + {Fingerprint(e)})
  }

  /** What the lines of a file decode to; undecodable lines are skipped. */
  function Decoded(c: Codec, lines: seq<string>): seq<Entry> {
    if lines == [] then []
    else
      var front := Decoded(c, lines[..|lines| - 1]);
      match c.decode(lines[|lines| - 1])
      case None => front
      case Some(e) => front + [e]
  }

  /** Each line is read for itself: an undecodable one costs no other entry, and the order is kept. */
  lemma {:induction false} DecodedJoin(c: Codec, a: seq<string>, b: seq<string>)
    ensures Decoded(c, a + b) == Decoded(c, a) + Decoded(c, b)
  {
    if b == [] {
      assert a + b == a;
    } else {
      DecodedJoin(c, a, b[..|b| - 1]);
      assert (a + b)[..|a + b| - 1] == a + b[..|b| - 1];
    }
  }

  lemma DecodedOne(c: Codec, line: string)
    ensures Decoded(c, [line]) == match c.decode(line) case None => [] case Some(e) => [e]
  {
    assert [line][..0] == [];
  }

  function Fingerprints(es: seq<Entry>): set<string> {
    set e | e in es :: Fingerprint(e)
  }

  function Resumed(c: Codec, lines: seq<string>): Memory {
    Memory(Decoded(c, lines), Fingerprints(Decoded(c, lines)))
  }

  datatype Log = Log(lines: seq<string>, mem: Memory, closed: bool)

  function Append(c: Codec, l: Log, e: Entry): (Log, Result<string>) {
    if e.kind == "" && e.vessel == "" && e.message == "" then (l, Err(EmptyEntry))
    else if l.closed then (l, Err(RecorderClosed))
    else if Fingerprint(e) in l.mem.seen then (l, Ok(Fingerprint(e)))
    else (Log(l.lines + [c.encode(e)], Recorded(l.mem, e), false), Ok(Fingerprint(e)))
  }

  /** What an append answers and does. An empty entry and a closed log are refused; a repeated fingerprint is
      acknowledged; each leaves the log alone. Otherwise exactly the new entry is added, to file and
      memory. */
  lemma AppendAnswers(c: Codec, l: Log, e: Entry)
    ensures var (l1, r) := Append(c, l, e);
            var blank := e.kind == "" && e.vessel == "" && e.message == "";
            && (r == Err(EmptyEntry) <==> blank)
            && (r == Err(RecorderClosed) <==> !blank && l.closed)
            && (r.Ok? <==> !blank && !l.closed)
            && (r.Ok? ==> r.value == Fingerprint(e))
            && (l1 != l <==> !blank && !l.closed && Fingerprint(e) !in l.mem.seen)
            && (l1 != l ==>
                  && l1.lines == l.lines + [c.encode(e)] && l1.mem.entries == l.mem.entries + [e]
                  && l1.mem.seen == l.mem.seen + {Fingerprint(e)} && !l1.closed)
  {
    hide Fingerprint;
    assert |l.lines + [c.encode(e)]| != |l.lines|;
  }

  /** Appending again is acknowledged with the same fingerprint and changes nothing; after a close every
      append is refused, until a restart. */
  lemma AppendTwice(c: Codec, l: Log, e: Entry, f: Entry)
    requires Append(c, l, e).1.Ok?
    ensures var l1 := Append(c, l, e).0;
            && Append(c, l1, e) == (l1, Append(c, l, e).1)
            && Append(c, LogStep(c, l1, Closing), f).0 == LogStep(c, l1, Closing)
            && Append(c, LogStep(c, l1, Closing), f).1.Err?
  {
    hide Fingerprint;
  }

  datatype LogOp = Appending(e: Entry) | Closing | Restarting

  function LogStep(c: Codec, l: Log, op: LogOp): Log {
    match op
    case Appending(e) => Append(c, l, e).0
    case Closing => l.(closed := true)
    case Restarting => Log(l.lines, Resumed(c, l.lines), false)
  }

  function LogRun(c: Codec, l: Log, ops: seq<LogOp>): Log {
    if ops == [] then l else LogStep(c, LogRun(c, l, ops[..|ops| - 1]), ops[|ops| - 1])
  }

  /** Memory is exactly what a restart would rebuild from the file. */
  ghost predicate InStep(c: Codec, l: Log) {
    l.mem == Resumed(c, l.lines)
  }

  ghost predicate DistinctFrom(es: seq<Entry>, n: nat) {
    forall i, j :: 0 <= i < j < |es| && n <= j ==> Fingerprint(es[i]) != Fingerprint(es[j])
  }

  lemma FingerprintsSnoc(es: seq<Entry>, e: Entry)
    ensures Fingerprints(es + [e]) == Fingerprints(es) + {Fingerprint(e)}
  {
    hide Fingerprint;
    assert (es + [e])[|es|] == e;
    forall x | x in es ensures x in es + [e] {
      var i :| 0 <= i < |es| && es[i] == x;
      assert (es + [e])[i] == x;
    }
  }

  lemma AppendInStep(c: Codec, l: Log, e: Entry, n: nat)
    requires RoundTrips(c) && InStep(c, l) && n <= |l.mem.entries| && DistinctFrom(l.mem.entries, n)
    ensures var l1 := Append(c, l, e).0;
            && InStep(c, l1) && DistinctFrom(l1.mem.entries, n) && |l.mem.entries| <= |l1.mem.entries|
            && l.lines <= l1.lines
  {
    hide Fingerprint;
    if Append(c, l, e).0 != l {
      var lines := l.lines + [c.encode(e)];
      assert lines[..|l.lines|] == l.lines && c.decode(lines[|l.lines|]) == Some(e);
      FingerprintsSnoc(l.mem.entries, e);
      forall i | 0 <= i < |l.mem.entries| ensures Fingerprint(l.mem.entries[i]) != Fingerprint(e) {
        assert Fingerprint(l.mem.entries[i]) in l.mem.seen;
      }
    }
  }

  /** An entry without separators is left out only if it has been logged already, ids aside. */
  lemma LeavesOutRepeats(c: Codec, l: Log, e: Entry)
    requires InStep(c, l) && Plain(e) && Fingerprint(e) in l.mem.seen
    ensures exists x :: x in l.mem.entries && x.(id := e.id) == e
  {
    hide Fingerprint, Plain, Decoded;
    FingerprintTells(e);
    var x :| x in l.mem.entries && Fingerprint(x) == Fingerprint(e);
  }

  /** Starting from any file, over every mix of appends, closes and restarts: what is in memory is
      what the file says, the file only grows, and no appended entry repeats a fingerprint. */
  lemma {:induction false} LogHistory(c: Codec, lines: seq<string>, ops: seq<LogOp>)
    requires RoundTrips(c)
    ensures var l := LogRun(c, Log(lines, Resumed(c, lines), false), ops);
            var n := |Decoded(c, lines)|;
            && InStep(c, l) && n <= |l.mem.entries| && DistinctFrom(l.mem.entries, n) && lines <= l.lines
  {
    hide Append, Decoded, RoundTrips, DistinctFrom;
    if ops != [] {
      var l := LogRun(c, Log(lines, Resumed(c, lines), false), ops[..|ops| - 1]);
      LogHistory(c, lines, ops[..|ops| - 1]);
      match ops[|ops| - 1]
      case Appending(e) => AppendInStep(c, l, e, |Decoded(c, lines)|);
      case Closing =>
      case Restarting =>
    } else {
      NothingAppended(Decoded(c, lines));
    }
  }

  lemma NothingAppended(es: seq<Entry>)
    ensures DistinctFrom(es, |es|)
  {
  }

  /** A restart loses nothing: memory after it is memory before it, and from an empty file no
      fingerprint is ever logged twice. */
  lemma RestartIsIdentity(c: Codec, ops: seq<LogOp>)
    requires RoundTrips(c)
    ensures var l := LogRun(c, Log([], BLANK, false), ops);
            && LogStep(c, l, Restarting).mem == l.mem
            && DistinctFrom(l.mem.entries, 0)
  {
    hide LogRun, DistinctFrom, RoundTrips;
    assert Resumed(c, []) == BLANK;
    LogHistory(c, [], ops);
  }
}
