/** The parts of Python's string behaviour that the codecs and normal forms rely on. */
module Text {
  import opened Sequences

  /** `str.isspace` for one character: what `strip`, `rstrip` and `split` remove. */
  predicate IsSpace(c: char) {
    var code := c as int;
    || 0x09 <= code <= 0x0D
    || 0x1C <= code <= 0x20
    || code == 0x85 || code == 0xA0 || code == 0x1680
    || 0x2000 <= code <= 0x200A
    || code == 0x2028 || code == 0x2029 || code == 0x202F || code == 0x205F || code == 0x3000
  }

  function LeftStrip(s: string): string {
    if s != [] && IsSpace(s[0]) then LeftStrip(s[1..]) else s
  }

  function RightStrip(s: string): string {
    if s != [] && IsSpace(s[|s| - 1]) then RightStrip(s[..|s| - 1]) else s
  }

  function Strip(s: string): string {
    LeftStrip(RightStrip(s))
  }

  predicate IsBlank(s: string) {
    Strip(s) == []
  }

  /** Text that `strip` leaves alone. */
  predicate IsTrimmed(s: string) {
    s != [] ==> !IsSpace(s[0]) && !IsSpace(s[|s| - 1])
  }

  predicate StartsWith(s: string, prefix: string) {
    |prefix| <= |s| && s[..|prefix|] == prefix
  }

  /** `separator.join(parts)` */
  function Join(parts: seq<string>, separator: string): string {
    if parts == [] then []
    else if |parts| == 1 then parts[0]
    else parts[0] + separator + Join(parts[1..], separator)
  }

  /** What is put in front of the first part is in front of the whole. */
  lemma JoinFirst(prefix: string, parts: seq<string>, separator: string)
    requires parts != []
    ensures Join([prefix + parts[0]] + parts[1..], separator) == prefix + Join(parts, separator)
  {
    var all := [prefix + parts[0]] + parts[1..];
    assert all[1..] == parts[1..];
    if |parts| > 1 {
      Regroup(prefix, parts[0], separator);
      Regroup(prefix, parts[0] + separator, Join(parts[1..], separator));
    }
  }

  lemma {:induction false} LeftStripSuffix(s: string) returns (n: nat)
    ensures n <= |s| && LeftStrip(s) == s[n..]
    ensures forall i :: 0 <= i < n ==> IsSpace(s[i])
    ensures n < |s| ==> !IsSpace(s[n])
  {
    if s != [] && IsSpace(s[0]) {
      n := LeftStripSuffix(s[1..]);
      n := n + 1;
      assert s[n..] == s[1..][n - 1..];
      forall i | 0 <= i < n
        ensures IsSpace(s[i])
      {
        assert i > 0 ==> s[i] == s[1..][i - 1];
      }
    } else {
      n := 0;
    }
  }

  lemma {:induction false} RightStripPrefix(s: string) returns (n: nat)
    ensures n <= |s| && RightStrip(s) == s[..n]
    ensures forall i :: n <= i < |s| ==> IsSpace(s[i])
    ensures n > 0 ==> !IsSpace(s[n - 1])
  {
    if s != [] && IsSpace(s[|s| - 1]) {
      n := RightStripPrefix(s[..|s| - 1]);
      assert s[..n] == s[..|s| - 1][..n];
    } else {
      n := |s|;
      assert s[..n] == s;
    }
  }

  /** Stripping finds the trimmed core of a text between two runs of space. */
  lemma StripSplits(s: string) returns (a: nat, b: nat)
    ensures a <= b <= |s| && Strip(s) == s[a..b] && IsTrimmed(s[a..b])
    ensures forall i :: 0 <= i < a || b <= i < |s| ==> IsSpace(s[i])
  {
    b := RightStripPrefix(s);
    var front := s[..b];
    a := LeftStripSuffix(front);
    assert front[a..] == s[a..b];
    if a < b {
      assert s[a..b][0] == front[a];
      assert s[a..b][b - a - 1] == s[b - 1];
    }
    forall i | 0 <= i < a
      ensures IsSpace(s[i])
    {
      assert front[i] == s[i];
    }
  }

  lemma {:induction false} LeftStripOfSpaces(w: string, s: string)
    requires forall i :: 0 <= i < |w| ==> IsSpace(w[i])
    ensures LeftStrip(w + s) == LeftStrip(s)
  {
    if w == [] {
      assert w + s == s;
    } else {
      LeftStripOfSpaces(w[1..], s);
      assert (w + s)[1..] == w[1..] + s;
    }
  }

  lemma {:induction false} RightStripOfSpaces(s: string, w: string)
    requires forall i :: 0 <= i < |w| ==> IsSpace(w[i])
    ensures RightStrip(s + w) == RightStrip(s)
  {
    if w == [] {
      assert s + w == s;
    } else {
      RightStripOfSpaces(s, w[..|w| - 1]);
      assert (s + w)[..|s + w| - 1] == s + w[..|w| - 1];
    }
  }

  /** Any trimmed text between two runs of space is what stripping leaves. */
  lemma StripOf(left: string, core: string, right: string)
    requires IsTrimmed(core)
    requires forall i :: 0 <= i < |left| ==> IsSpace(left[i])
    requires forall i :: 0 <= i < |right| ==> IsSpace(right[i])
    ensures Strip(left + core + right) == core
  {
    RightStripOfSpaces(left + core, right);
    if core == [] {
      assert left + core == [] + left;
      RightStripOfSpaces([], left);
    } else {
      assert (left + core)[|left + core| - 1] == core[|core| - 1];
      LeftStripOfSpaces(left, core);
    }
  }

  lemma StripOfTrimmed(s: string)
    requires IsTrimmed(s)
    ensures Strip(s) == s
  {
    StripOf("", s, "");
    assert "" + s + "" == s;
  }
}

/** Decimal numerals: `str(int)` and the reading of digit strings. */
module Decimal {
  import opened Wrappers
  import opened Text

  function DigitChar(d: nat): char
    requires d < 10
  {
    ('0' as int + d) as char
  }

  predicate IsDigit(c: char) {
    '0' <= c <= '9'
  }

  predicate AllDigits(s: string) {
    forall i :: 0 <= i < |s| ==> IsDigit(s[i])
  }

  function Digits(n: nat): string {
    if n < 10 then [DigitChar(n)] else Digits(n / 10) + [DigitChar(n % 10)]
  }

  function Value(s: string): nat
    requires AllDigits(s)
  {
    if s == [] then 0
    else Value(s[..|s| - 1]) * 10 + (s[|s| - 1] as int - '0' as int)
  }

  function FromInt(n: int): string {
    if n < 0 then "-" + Digits(-n) else Digits(n)
  }

  lemma {:induction false} DigitsRoundTrip(n: nat)
    ensures Digits(n) != [] && AllDigits(Digits(n)) && Value(Digits(n)) == n
    ensures Digits(n)[0] == '0' <==> n == 0
    ensures n == 0 ==> |Digits(n)| == 1
  {
    if n >= 10 {
      DigitsRoundTrip(n / 10);
      assert Digits(n)[..|Digits(n)| - 1] == Digits(n / 10);
    } else {
      assert Digits(n)[..0] == [];
    }
  }

  /** Digits with single underscores between them, as `int()` accepts. */
  function ReadDigits(s: string): Option<int> {
    if s == [] then None
    else if |s| == 1 then (if IsDigit(s[0]) then Some(Value(s)) else None)
    else
      var last := s[|s| - 1];
      var front := s[..|s| - 1];
      if !IsDigit(last) then None
      else
        var front := if front[|front| - 1] == '_' then front[..|front| - 1] else front;
        match ReadDigits(front)
        case None => None
        case Some(v) => Some(v * 10 + (last as int - '0' as int))
  }

  /** `int(text)` for ASCII digits; `None` stands for the ValueError. */
  function ReadInt(text: string): Option<int> {
    var s := Strip(text);
    if s != [] && (s[0] == '-' || s[0] == '+') then
      match ReadDigits(s[1..])
      case None => None
      case Some(v) => Some(if s[0] == '-' then -v else v)
    else
      match ReadDigits(s)
      case None => None
      case Some(v) => Some(v)
  }

  lemma {:induction false} ReadPlainDigits(s: string)
    requires s != [] && AllDigits(s)
    ensures ReadDigits(s) == Some(Value(s))
  {
    if |s| > 1 {
      ReadPlainDigits(s[..|s| - 1]);
    }
  }

  lemma ReadIntRoundTrip(n: int)
    ensures ReadInt(FromInt(n)) == Some(n)
  {
    hide Digits, Strip, ReadDigits, Value, IsSpace;
    var k: nat := if n < 0 then -n else n;
    DigitsRoundTrip(k);
    ReadPlainDigits(Digits(k));
    FromIntTrimmed(n);
    StripOfTrimmed(FromInt(n));
    if n < 0 {
      assert FromInt(n)[1..] == Digits(k);
    } else {
      assert IsDigit(Digits(k)[0]);
    }
  }

  lemma FromIntTrimmed(n: int)
    ensures IsTrimmed(FromInt(n))
  {
    hide Digits, Value;
    DigitsRoundTrip(if n < 0 then -n else n);
    var s := FromInt(n);
    assert IsDigit(s[|s| - 1]) && (s[0] == '-' || IsDigit(s[0]));
  }
}
