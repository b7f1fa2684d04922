/** The console's WebSocket framing, and a parser for the frames section 5.2 of RFC 6455 allows a
    server to send as one unmasked, final text message. */
module Frame {
  import opened Prelude

  newtype byte = x: int | 0 <= x < 256

  const LIMIT: nat := 0x8000_0000_0000_0000

  function Low(n: nat): byte {
    (n % 256) as byte
  }

  /** The eight shifted bytes of the long form. */
  function Long(n: nat): seq<byte> {
    [Low(n / 0x100_0000_0000_0000), Low(n / 0x1_0000_0000_0000),
     Low(n / 0x100_0000_0000), Low(n / 0x1_0000_0000),
     Low(n / 0x100_0000), Low(n / 0x1_0000), Low(n / 0x100), Low(n)]
  }

  /** Frame header and payload, with the three length forms written out byte by byte. */
  function WsFrame(payload: seq<byte>): seq<byte>
    requires |payload| < LIMIT
  {
    var size := |payload|;
    var head :=
      if size < 126 then [0x81, size as byte]
      else if size <= 65535 then [0x81, 126, Low(size / 0x100), Low(size)]
      else [0x81, 127] + Long(size);
    head + payload
  }

  /** Network byte order. */
  function BigEndian(s: seq<byte>): nat {
    if s == [] then 0 else 256 * BigEndian(s[..|s| - 1]) + s[|s| - 1] as nat
  }

  /** The length field after the first byte: its value and how many bytes it takes. The mask bit
      must be clear, the top bit of a 64-bit length must be clear, and the form must be minimal. */
  function ParseLength(s: seq<byte>): Option<(nat, nat)> {
    if |s| < 1 then None
    else if s[0] < 126 then Some((s[0] as nat, 1))
    else if s[0] == 126 && |s| >= 3 && BigEndian(s[1..3]) >= 126 then Some((BigEndian(s[1..3]), 3))
    else if s[0] == 127 && |s| >= 9 && s[1] < 128 && BigEndian(s[1..9]) > 65535 then Some((BigEndian(s[1..9]), 9))
    else None
  }

  /** One frame from the front of a byte stream: its payload and the bytes after it. */
  function Parse(s: seq<byte>): (r: Option<(seq<byte>, seq<byte>)>)
    ensures r.Some? ==> |r.value.1| < |s|
  {
    if |s| < 2 || s[0] != 0x81 then None
    else match ParseLength(s[1..])
      case None => None
      case Some((size, used)) =>
        if 1 + used + size > |s| then None
        else Some((s[1 + used..1 + used + size], s[1 + used + size..]))
  }

  function ParseAll(s: seq<byte>): Option<seq<seq<byte>>>
    decreases |s|
  {
    if s == [] then Some([])
    else match Parse(s)
      case None => None
      case Some((payload, rest)) =>
        match ParseAll(rest)
        case None => None
        case Some(more) => Some([payload] + more)
  }

  ghost predicate Sendable(ps: seq<seq<byte>>) {
    forall p :: p in ps ==> |p| < LIMIT
  }

  function Stream(ps: seq<seq<byte>>): seq<byte>
    requires Sendable(ps)
  {
    if ps == [] then [] else WsFrame(ps[0]) + Stream(ps[1..])
  }

  lemma BigEndianTwo(s: seq<byte>)
    requires |s| == 2
    ensures BigEndian(s) == 256 * s[0] as nat + s[1] as nat
  {
    assert s[..1][..0] == [] && s[..1][0] == s[0];
    assert BigEndian(s[..1]) == s[0] as nat;
  }

  // Each shift is eight more bits than the next coarser one.

  lemma ShiftHigh(n: nat)
    ensures n / 0x1_0000_0000_0000 == 256 * (n / 0x100_0000_0000_0000) + Low(n / 0x1_0000_0000_0000) as nat
    ensures n / 0x100_0000_0000 == 256 * (n / 0x1_0000_0000_0000) + Low(n / 0x100_0000_0000) as nat
  {
  }

  lemma ShiftMiddle(n: nat)
    ensures n / 0x1_0000_0000 == 256 * (n / 0x100_0000_0000) + Low(n / 0x1_0000_0000) as nat
    ensures n / 0x100_0000 == 256 * (n / 0x1_0000_0000) + Low(n / 0x100_0000) as nat
  {
  }

  lemma ShiftLow(n: nat)
    ensures n / 0x1_0000 == 256 * (n / 0x100_0000) + Low(n / 0x1_0000) as nat
    ensures n / 0x100 == 256 * (n / 0x1_0000) + Low(n / 0x100) as nat
    ensures n == 256 * (n / 0x100) + Low(n) as nat
  {
  }

  lemma TopByte(n: nat)
    requires n < LIMIT
    ensures Low(n / 0x100_0000_0000_0000) as nat == n / 0x100_0000_0000_0000 < 128
  {
  }

  /** The eight bytes spell the length, and their top bit is clear. */
  lemma LongForm(n: nat)
    requires n < LIMIT
    ensures BigEndian(Long(n)) == n && Long(n)[0] < 128
  {
    hide Low;
    TopByte(n);
    ShiftHigh(n);
    ShiftMiddle(n);
    ShiftLow(n);
    BigEndianEight(Long(n));
  }

  lemma BigEndianNext(s: seq<byte>, k: nat)
    requires k < |s|
    ensures BigEndian(s[..k + 1]) == 256 * BigEndian(s[..k]) + s[k] as nat
  {
    assert s[..k + 1][..k] == s[..k];
  }

  lemma BigEndianEight(s: seq<byte>)
    requires |s| == 8
    ensures var high := 256 * (256 * (256 * s[0] as nat + s[1] as nat) + s[2] as nat) + s[3] as nat;
            BigEndian(s) == 256 * (256 * (256 * (256 * high + s[4] as nat) + s[5] as nat) + s[6] as nat) + s[7] as nat
  {
    hide BigEndian;
    BigEndianTwo(s[..2]);
    BigEndianNext(s, 2);
    BigEndianNext(s, 3);
    BigEndianNext(s, 4);
    BigEndianNext(s, 5);
    BigEndianNext(s, 6);
    BigEndianNext(s, 7);
    assert s[..8] == s;
  }

  // A frame, a payload and what follows, for each of the three forms.

  /** What follows the header is payload and rest. */
  lemma Splits(head: seq<byte>, p: seq<byte>, rest: seq<byte>)
    ensures var s := head + p + rest;
            s[..|head|] == head && s[|head|..|head| + |p|] == p && s[|head| + |p|..] == rest
  {
  }

  /** A header whose length field reads as the payload's length is all a parse needs. */
  lemma HeadThenParse(head: seq<byte>, p: seq<byte>, rest: seq<byte>)
    requires |head| >= 2 && head[0] == 0x81
    requires ParseLength((head + p + rest)[1..]) == Some((|p|, |head| - 1))
    ensures Parse(head + p + rest) == Some((p, rest))
  {
    hide ParseLength;
    Splits(head, p, rest);
  }

  lemma TinyFrame(p: seq<byte>, rest: seq<byte>)
    requires |p| < 126
    ensures Parse([0x81, |p| as byte] + p + rest) == Some((p, rest))
  {
    var head := [0x81, |p| as byte];
    assert (head + p + rest)[1..][0] == head[1];
    HeadThenParse(head, p, rest);
  }

  lemma ShortFrame(p: seq<byte>, rest: seq<byte>)
    requires 126 <= |p| <= 65535
    ensures Parse([0x81, 126, Low(|p| / 0x100), Low(|p|)] + p + rest) == Some((p, rest))
  {
    hide Parse;
    var head := [0x81, 126, Low(|p| / 0x100), Low(|p|)];
    var s := (head + p + rest)[1..];
    assert s[0] == head[1] && s[1] == head[2] && s[2] == head[3];
    assert s[1..3] == [Low(|p| / 0x100), Low(|p|)];
    BigEndianTwo(s[1..3]);
    HeadThenParse(head, p, rest);
  }

  lemma LongFrame(p: seq<byte>, rest: seq<byte>)
    requires 65535 < |p| < LIMIT
    ensures Parse([0x81, 127] + Long(|p|) + p + rest) == Some((p, rest))
  {
    hide Parse, Long, BigEndian;
    LongForm(|p|);
    LongSize(|p|);
    var head := [0x81, 127] + Long(|p|);
    Splits(head, p, rest);
    assert head[2..] == Long(|p|);
    var s := (head + p + rest)[1..];
    assert s[1..9] == (head + p + rest)[..10][2..];
    assert s[0] == head[1];
    HeadThenParse(head, p, rest);
  }

  lemma LongSize(n: nat)
    ensures |Long(n)| == 8
  {
  }

  /** Parsing a frame followed by anything gives back the payload and what followed. */
  lemma FrameThenParse(p: seq<byte>, rest: seq<byte>)
    requires |p| < LIMIT
    ensures Parse(WsFrame(p) + rest) == Some((p, rest))
  {
    hide Parse, Long, Low;
    if |p| < 126 {
      TinyFrame(p, rest);
    } else if |p| <= 65535 {
      ShortFrame(p, rest);
    } else {
      LongFrame(p, rest);
    }
  }

  /** The first two bytes announce one whole, unmasked text message: the final bit and no other flag, the
      text opcode, no mask bit. */
  lemma WholeText(p: seq<byte>)
    requires |p| < LIMIT
    ensures var s := WsFrame(p);
            && |s| >= 2 && s[0] / 128 == 1 && s[0] / 16 % 8 == 0 && s[0] % 16 == 1 && s[1] < 128
            && |s| == |p| + (if |p| < 126 then 2 else if |p| < 0x1_0000 then 4 else 10)
  {
    hide Low;
  }

  lemma {:induction false} BigEndianInjective(s: seq<byte>, t: seq<byte>)
    requires |s| == |t| && BigEndian(s) == BigEndian(t)
    ensures s == t
  {
    if s != [] {
      BigEndianInjective(s[..|s| - 1], t[..|t| - 1]);
      assert s == s[..|s| - 1] + [s[|s| - 1]] && t == t[..|t| - 1] + [t[|t| - 1]];
    }
  }

  lemma EightLimit(s: seq<byte>)
    requires |s| == 8 && s[0] < 128
    ensures BigEndian(s) < LIMIT
  {
    BigEndianEight(s);
  }

  /** Whatever parses was framed: the accepted bytes are exactly the frame of the payload. */
  lemma ParseThenFrame(s: seq<byte>)
    requires Parse(s).Some?
    ensures var (p, rest) := Parse(s).value; |p| < LIMIT && WsFrame(p) + rest == s
  {
    hide Parse, ParseLength, Long, Low;
    var (p, rest) := Parse(s).value;
    Parsed(s);
    if s[1] < 126 {
      assert s[..2] == [0x81, |p| as byte];
    } else if s[1] == 126 {
      ShortHead(s[2..4], |p|);
      assert s[..4] == [0x81, 126] + s[2..4];
    } else {
      LongHead(s[2..10], |p|);
      assert s[..10] == [0x81, 127] + s[2..10];
    }
  }

  /** What a parse has read. */
  lemma Parsed(s: seq<byte>)
    requires Parse(s).Some?
    ensures var (p, rest) := Parse(s).value;
            && |s| >= 2 && s[0] == 0x81
            && (s[1] < 126 ==> |p| == s[1] as nat && s == s[..2] + p + rest)
            && (s[1] == 126 ==> |s| >= 4 && |p| == BigEndian(s[2..4]) >= 126 && s == s[..4] + p + rest)
            && (s[1] > 126 ==>
                  && |s| >= 10 && s[1] == 127 && s[2] < 128 && |p| == BigEndian(s[2..10]) > 65535
                  && s == s[..10] + p + rest)
  {
    hide BigEndian;
    var (n, used) := ParseLength(s[1..]).value;
    if s[1] == 126 {
      assert s[1..][1..3] == s[2..4];
    } else if s[1] > 126 {
      assert s[1..][1..9] == s[2..10];
    }
  }

  lemma LongHead(s: seq<byte>, n: nat)
    requires |s| == 8 && s[0] < 128 && BigEndian(s) == n
    ensures n < LIMIT && s == Long(n)
  {
    EightLimit(s);
    LongForm(n);
    BigEndianInjective(Long(n), s);
  }

  lemma ShortHead(s: seq<byte>, n: nat)
    requires |s| == 2 && BigEndian(s) == n
    ensures n <= 65535 && s == [Low(n / 0x100), Low(n)]
  {
    BigEndianTwo(s);
  }

  /** Concatenated frames decode to the original payloads, in order. */
  lemma {:induction false} StreamThenParse(ps: seq<seq<byte>>)
    requires Sendable(ps)
    ensures ParseAll(Stream(ps)) == Some(ps)
  {
    if ps != [] {
      FrameThenParse(ps[0], Stream(ps[1..]));
      StreamThenParse(ps[1..]);
      assert Parse(Stream(ps)) == Some((ps[0], Stream(ps[1..])));
      assert [ps[0]] + ps[1..] == ps;
    }
  }

  /** No two payload lists share a byte stream. */
  lemma StreamInjective(ps: seq<seq<byte>>, qs: seq<seq<byte>>)
    requires Sendable(ps) && Sendable(qs) && Stream(ps) == Stream(qs)
    ensures ps == qs
  {
    StreamThenParse(ps);
    StreamThenParse(qs);
  }
}
