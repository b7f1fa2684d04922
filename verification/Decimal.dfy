/** Decimal texts: the in-place printer of the reconciler and the zero-padded session numbers. */
module Decimal {
  import opened Prelude

  newtype int64 = x: int | -0x8000_0000_0000_0000 <= x < 0x8000_0000_0000_0000

  const MIN64: int64 := -0x8000_0000_0000_0000

  /** Go's two's complement negation: the minimum is its own negative. */
  function Negate(v: int64): int64 {
    if v == MIN64 then MIN64 else -v
  }

  function DigitChar(d: nat): char
    requires d < 10
  {
    ('0' as int + d) as char
  }

  predicate AllDigits(s: string) {
    forall i :: 0 <= i < |s| ==> '0' <= s[i] <= '9'
  }

  /** The canonical decimal text of a natural number. */
  function Digits(n: nat): string {
    if n < 10 then [DigitChar(n)] else Digits(n / 10) + [DigitChar(n % 10)]
  }

  /** The canonical decimal text of an integer. */
  function Dec(v: int): string {
    if v < 0 then "-" + Digits(-v) else Digits(v)
  }

  /** Reading a digit string positionally; leading zeros are accepted. */
  function Value(s: string): nat
    requires AllDigits(s)
  {
    if s == [] then 0 else 10 * Value(s[..|s| - 1]) + (s[|s| - 1] as int - '0' as int)
  }

  /** A decimal reader written without reference to the printer. */
  function ParseInt(s: string): Option<int> {
    if |s| > 0 && AllDigits(s) then Some(Value(s))
    else if |s| > 1 && s[0] == '-' && AllDigits(s[1..]) then (var n: int := Value(s[1..]); Some(-n))
    else None
  }

  /** No leading zero, no minus zero. */
  predicate Canonical(s: string) {
    var body := if |s| > 0 && s[0] == '-' then s[1..] else s;
    |body| > 0 && (body[0] == '0' ==> s == "0")
  }

  lemma {:induction false} DigitsRead(n: nat)
    ensures AllDigits(Digits(n)) && Value(Digits(n)) == n
    ensures |Digits(n)| > 0 && (Digits(n)[0] == '0' ==> Digits(n) == "0")
  {
    if n >= 10 {
      DigitsRead(n / 10);
      assert Digits(n)[..|Digits(n)| - 1] == Digits(n / 10);
    } else {
      assert Digits(n)[..0] == [];
    }
  }

  lemma {:induction false} ReadDigits(s: string)
    requires AllDigits(s) && |s| > 0 && (s[0] == '0' ==> s == "0")
    ensures Digits(Value(s)) == s
    ensures s[0] != '0' ==> Value(s) > 0
  {
    var front := s[..|s| - 1];
    if front != [] {
      ReadDigits(front);
      assert Value(s) / 10 == Value(front);
      assert s == front + [s[|s| - 1]];
    } else {
      assert Value(front) == 0;
      assert s == [s[0]];
    }
  }

  /** One more digit behind a text. */
  lemma ValueSnoc(s: string, d: nat)
    requires AllDigits(s) && d < 10
    ensures AllDigits(s + Digits(d)) && Value(s + Digits(d)) == 10 * Value(s) + d && |Digits(d)| == 1
  {
    assert (s + [DigitChar(d)])[..|s|] == s;
  }

  lemma ParseSigned(negative: bool, s: string, n: int)
    requires AllDigits(s) && s != [] && Value(s) == n
    ensures ParseInt((if negative then "-" else "") + s) == Some(if negative then -n else n)
  {
    hide Value, AllDigits;
    if negative {
      Minus(s);
    } else {
      assert "" + s == s;
    }
  }

  lemma Minus(s: string)
    requires AllDigits(s) && s != []
    ensures var t := "-" + s; t[1..] == s && t[0] == '-' && |t| > 1 && !AllDigits(t)
  {
    hide Value;
    var t := "-" + s;
    assert t[1..] == s && t[0] == '-';
  }

  /** Printing then reading gives the number back, and the printed text is canonical. */
  lemma PrintThenRead(v: int)
    ensures ParseInt(Dec(v)) == Some(v) && Canonical(Dec(v))
  {
    DigitsRead(if v < 0 then -v else v);
    if v < 0 {
      assert Dec(v)[1..] == Digits(-v);
    }
  }

  /** Reading a canonical text then printing gives the text back: the printer is the only
      canonical inverse of the reader. */
  lemma ReadThenPrint(s: string)
    requires Canonical(s) && ParseInt(s).Some?
    ensures Dec(ParseInt(s).value) == s
  {
    if AllDigits(s) {
      ReadDigits(s);
    } else {
      ReadDigits(s[1..]);
      assert s == "-" + s[1..];
    }
  }

  lemma DecInjective(a: int, b: int)
    requires Dec(a) == Dec(b)
    ensures a == b
  {
    PrintThenRead(a);
    PrintThenRead(b);
  }

  lemma DecNulFree(v: int)
    ensures NulFree(Dec(v))
  {
    DigitsRead(if v < 0 then -v else v);
  }

  function Pow10(k: nat): nat {
    if k == 0 then 1 else 10 * Pow10(k - 1)
  }

  lemma Pow10Nineteen()
    ensures Pow10(19) == 10_000_000_000_000_000_000
  {
    assert Pow10(5) == 100_000;
    assert Pow10(10) == 10_000_000_000;
    assert Pow10(15) == 1_000_000_000_000_000;
  }

  /** The reconciler's printer. The digits are written backwards into a 20-byte buffer whose index
      never leaves it; the minimum, whose negation overflows, is the only number printed wrongly. */
  method Itoa(v: int64) returns (s: string)
    ensures v != MIN64 ==> s == Dec(v as int)
    ensures v == MIN64 ==> s == "-"
  {
    if v == 0 {
      return "0";
    }
    var buf := new char[20];
    var i := buf.Length;
    var rest := v;
    var neg := rest < 0;
    if neg {
      rest := Negate(rest);
    }
    ghost var all: nat := if rest > 0 then rest as int else 0;
    Pow10Nineteen();
    while rest > 0
      invariant 1 <= i <= 20
      invariant rest == MIN64 ==> v == MIN64 && i == 20
      invariant rest != MIN64 ==> 0 <= rest && (rest as int) < Pow10(i - 1)
      invariant rest != MIN64 ==> all == (if v < 0 then -(v as int) else v as int)
      invariant rest > 0 ==> Digits(rest as int) + buf[i..] == Digits(all)
      invariant rest == 0 ==> buf[i..] == Digits(all)
      decreases if rest > 0 then rest as int else 0
    {
      i := i - 1;
      buf[i] := DigitChar((rest % 10) as int);
      assert buf[i..] == [DigitChar((rest % 10) as int)] + buf[i + 1..];
      rest := rest / 10;
    }
    if neg {
      i := i - 1;
      buf[i] := '-';
      assert buf[i..] == "-" + buf[i + 1..];
    }
    s := buf[i..];
  }

  /** The reconciler's printer is inverted by decimal reading exactly when its argument is not the
      smallest 64-bit number. */
  method ItoaReadsBack(v: int64) returns (s: string)
    ensures ParseInt(s) == Some(v as int) <==> v != MIN64
    ensures v != MIN64 ==> Canonical(s)
  {
    s := Itoa(v);
    if v != MIN64 {
      PrintThenRead(v as int);
    }
  }

  /** `%03d` for a positive number. */
  function Pad3(n: nat): string {
    var d := Digits(n);
    if |d| == 1 then "00" + d else if |d| == 2 then "0" + d else d
  }

  lemma {:induction false} ValueLeadingZeros(z: string, s: string)
    requires forall i :: 0 <= i < |z| ==> z[i] == '0'
    requires AllDigits(s)
    ensures Value(z + s) == Value(s)
  {
    if s == [] {
      if z != [] {
        assert (z + s)[..|z + s| - 1] == z[..|z| - 1] + [];
        ValueLeadingZeros(z[..|z| - 1], []);
      } else {
        assert z + s == [];
      }
    } else {
      assert (z + s)[..|z + s| - 1] == z + s[..|s| - 1];
      ValueLeadingZeros(z, s[..|s| - 1]);
    }
  }

  lemma DigitsOnly(s: string)
    requires AllDigits(s)
    ensures '-' !in s
  {
  }

  /** Zeros in front of a number's digits. */
  lemma PaddedReads(z: string, n: nat)
    requires z == "" || z == "0" || z == "00"
    ensures AllDigits(z + Digits(n)) && Value(z + Digits(n)) == n
  {
    hide Digits, Value;
    DigitsRead(n);
    ValueLeadingZeros(z, Digits(n));
  }

  /** The padded text has at least three digits, no more than it needs, and reads as the number. */
  lemma Pad3Reads(n: nat)
    ensures AllDigits(Pad3(n)) && '-' !in Pad3(n) && Value(Pad3(n)) == n
    ensures |Pad3(n)| == if |Digits(n)| < 3 then 3 else |Digits(n)|
  {
    hide Digits, Value, AllDigits;
    DigitsRead(n);
    PaddedReads("", n);
    PaddedReads("0", n);
    PaddedReads("00", n);
    assert "" + Digits(n) == Digits(n);
    DigitsOnly(Pad3(n));
  }

  lemma Pad3Injective(a: nat, b: nat)
    requires Pad3(a) == Pad3(b)
    ensures a == b
  {
    hide Pad3;
    Pad3Reads(a);
    Pad3Reads(b);
    assert Value(Pad3(a)) == a && Value(Pad3(b)) == b;
  }
}
