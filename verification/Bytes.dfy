/** UTF-8 (RFC 3629, section 3) as `str.encode("utf-8")` and strict `bytes.decode("utf-8")`. */
module Utf8 {
  import opened Wrappers

  newtype byte = n: int | 0 <= n < 256

  function EncodeChar(c: char): seq<byte> {
    var n := c as int;
    if n < 0x80 then [n as byte]
    else if n < 0x800 then [(0xC0 + n / 64) as byte, (0x80 + n % 64) as byte]
    else if n < 0x10000 then
      [(0xE0 + n / 4096) as byte, (0x80 + n / 64 % 64) as byte, (0x80 + n % 64) as byte]
    else
      [(0xF0 + n / 262144) as byte, (0x80 + n / 4096 % 64) as byte,
       (0x80 + n / 64 % 64) as byte, (0x80 + n % 64) as byte]
  }

  function Encode(s: string): seq<byte> {
    if s == [] then [] else EncodeChar(s[0]) + Encode(s[1..])
  }

  predicate IsTail(b: byte) {
    0x80 <= b < 0xC0
  }

  /** The first character and its width; overlong forms and surrogates are refused. */
  function DecodeChar(b: seq<byte>): (r: Option<(char, nat)>)
    ensures r.Some? ==> 1 <= r.value.1 <= |b|
  {
    if b == [] then None
    else
      var lead := b[0] as int;
      if lead < 0x80 then Some((lead as char, 1))
      else if 0xC2 <= lead < 0xE0 then
        if |b| >= 2 && IsTail(b[1]) then
          Some((((lead - 0xC0) * 64 + (b[1] as int - 0x80)) as char, 2))
        else None
      else if 0xE0 <= lead < 0xF0 then
        if |b| >= 3 && IsTail(b[1]) && IsTail(b[2]) then
          var n := (lead - 0xE0) * 4096 + (b[1] as int - 0x80) * 64 + (b[2] as int - 0x80);
          if 0x800 <= n < 0xD800 || 0xE000 <= n then Some((n as char, 3)) else None
        else None
      else if 0xF0 <= lead < 0xF5 then
        if |b| >= 4 && IsTail(b[1]) && IsTail(b[2]) && IsTail(b[3]) then
          var n := (lead - 0xF0) * 262144 + (b[1] as int - 0x80) * 4096
                 + (b[2] as int - 0x80) * 64 + (b[3] as int - 0x80);
          if 0x10000 <= n < 0x110000 then Some((n as char, 4)) else None
        else None
      else None
  }

  /** `None` stands for the UnicodeDecodeError. */
  function Decode(b: seq<byte>): Option<string> {
    if b == [] then Some("")
    else
      match DecodeChar(b)
      case None => None
      case Some((c, width)) =>
        match Decode(b[width..])
        case None => None
        case Some(rest) => Some([c] + rest)
  }

  /** A number in digits of six bits. */
  lemma SixBitDigits(n: nat)
    ensures n == n / 64 * 64 + n % 64
    ensures n / 64 == n / 4096 * 64 + n / 64 % 64
    ensures n / 4096 == n / 262144 * 64 + n / 4096 % 64
  {
    assert n / 64 / 64 == n / 4096;
    assert n / 4096 / 64 == n / 262144;
  }

  /** The digits of a number built from a leading part and one, two or three digits of six bits. */
  lemma TwoDigits(a: nat, d0: nat)
    requires d0 < 64
    ensures (a * 64 + d0) / 64 == a && (a * 64 + d0) % 64 == d0
  {
  }

  lemma ThreeDigits(a: nat, d1: nat, d0: nat)
    requires d1 < 64 && d0 < 64
    ensures var n := a * 4096 + d1 * 64 + d0;
            n / 4096 == a && n / 64 % 64 == d1 && n % 64 == d0
  {
    var n := a * 4096 + d1 * 64 + d0;
    TwoDigits(a * 64 + d1, d0);
    TwoDigits(a, d1);
    assert n == (a * 64 + d1) * 64 + d0;
    assert n / 64 / 64 == n / 4096;
  }

  lemma FourDigits(a: nat, d2: nat, d1: nat, d0: nat)
    requires d2 < 64 && d1 < 64 && d0 < 64
    ensures var n := a * 262144 + d2 * 4096 + d1 * 64 + d0;
            n / 262144 == a && n / 4096 % 64 == d2 && n / 64 % 64 == d1 && n % 64 == d0
  {
    var n := a * 262144 + d2 * 4096 + d1 * 64 + d0;
    ThreeDigits(a * 64 + d2, d1, d0);
    TwoDigits(a, d2);
    assert n == (a * 64 + d2) * 4096 + d1 * 64 + d0;
    assert n / 4096 / 64 == n / 262144;
  }

  lemma CharRoundTrip(c: char, rest: seq<byte>)
    ensures DecodeChar(EncodeChar(c) + rest) == Some((c, |EncodeChar(c)|))
  {
    var n := c as int;
    SixBitDigits(n);
    if n < 0x80 {
      assert (EncodeChar(c) + rest)[0] as int == n;
    } else if n < 0x800 {
      TwoByteRoundTrip(c, rest);
    } else if n < 0x10000 {
      ThreeByteRoundTrip(c, rest);
    } else {
      FourByteRoundTrip(c, rest);
    }
  }

  lemma TwoByteRoundTrip(c: char, rest: seq<byte>)
    requires 0x80 <= c as int < 0x800
    ensures DecodeChar(EncodeChar(c) + rest) == Some((c, 2)) && |EncodeChar(c)| == 2
  {
    var n, b := c as int, EncodeChar(c) + rest;
    SixBitDigits(n);
    assert b[0] as int == 0xC0 + n / 64 && b[1] as int == 0x80 + n % 64;
  }

  lemma ThreeByteRoundTrip(c: char, rest: seq<byte>)
    requires 0x800 <= c as int < 0x10000
    ensures DecodeChar(EncodeChar(c) + rest) == Some((c, 3)) && |EncodeChar(c)| == 3
  {
    var n, b := c as int, EncodeChar(c) + rest;
    SixBitDigits(n);
    assert b[0] as int == 0xE0 + n / 4096;
    assert b[1] as int == 0x80 + n / 64 % 64 && b[2] as int == 0x80 + n % 64;
  }

  lemma FourByteRoundTrip(c: char, rest: seq<byte>)
    requires 0x10000 <= c as int
    ensures DecodeChar(EncodeChar(c) + rest) == Some((c, 4)) && |EncodeChar(c)| == 4
  {
    var n, b := c as int, EncodeChar(c) + rest;
    SixBitDigits(n);
    assert b[0] as int == 0xF0 + n / 262144 && b[1] as int == 0x80 + n / 4096 % 64;
    assert b[2] as int == 0x80 + n / 64 % 64 && b[3] as int == 0x80 + n % 64;
  }

  /** Strict decoding accepts only the shortest form, so it is undone by encoding. */
  lemma CharShortest(b: seq<byte>)
    requires DecodeChar(b).Some?
    ensures EncodeChar(DecodeChar(b).value.0) == b[..DecodeChar(b).value.1]
  {
    hide EncodeChar;
    var (c, width) := DecodeChar(b).value;
    if width == 1 {
      OneByteShortest(b);
    } else if width == 2 {
      TwoBytesShortest(b);
    } else if width == 3 {
      ThreeBytesShortest(b);
    } else {
      FourBytesShortest(b);
    }
  }

  lemma OneByteShortest(b: seq<byte>)
    requires DecodeChar(b).Some? && DecodeChar(b).value.1 == 1
    ensures EncodeChar(DecodeChar(b).value.0) == b[..1]
  {
  }

  lemma TwoBytesShortest(b: seq<byte>)
    requires DecodeChar(b).Some? && DecodeChar(b).value.1 == 2
    ensures EncodeChar(DecodeChar(b).value.0) == b[..2]
  {
    TwoDigits(b[0] as int - 0xC0, b[1] as int - 0x80);
  }

  lemma ThreeBytesShortest(b: seq<byte>)
    requires DecodeChar(b).Some? && DecodeChar(b).value.1 == 3
    ensures EncodeChar(DecodeChar(b).value.0) == b[..3]
  {
    ThreeDigits(b[0] as int - 0xE0, b[1] as int - 0x80, b[2] as int - 0x80);
  }

  lemma FourBytesShortest(b: seq<byte>)
    requires DecodeChar(b).Some? && DecodeChar(b).value.1 == 4
    ensures EncodeChar(DecodeChar(b).value.0) == b[..4]
  {
    FourDigits(b[0] as int - 0xF0, b[1] as int - 0x80, b[2] as int - 0x80, b[3] as int - 0x80);
  }

  lemma {:induction false} RoundTrip(s: string)
    ensures Decode(Encode(s)) == Some(s)
  {
    if s != [] {
      CharRoundTrip(s[0], Encode(s[1..]));
      RoundTrip(s[1..]);
      assert Encode(s)[|EncodeChar(s[0])|..] == Encode(s[1..]);
      assert s == [s[0]] + s[1..];
    }
  }

  /** Only the encoder's own output decodes: distinct byte strings never decode to one text. */
  lemma {:induction false} DecodeInjective(b: seq<byte>)
    requires Decode(b).Some?
    ensures Encode(Decode(b).value) == b
  {
    hide DecodeChar, EncodeChar;
    if b != [] {
      var (c, width) := DecodeChar(b).value;
      CharShortest(b);
      DecodeInjective(b[width..]);
      assert Decode(b).value[1..] == Decode(b[width..]).value;
      assert b == b[..width] + b[width..];
    }
  }
}

/** Base64url (RFC 4648, section 5) as `base64.urlsafe_b64encode` and `urlsafe_b64decode`. */
module Base64Url {
  import opened Wrappers
  import opened Utf8

  function Symbol(v: nat): char
    requires v < 64
  {
    if v < 26 then ('A' as int + v) as char
    else if v < 52 then ('a' as int + v - 26) as char
    else if v < 62 then ('0' as int + v - 52) as char
    else if v == 62 then '-'
    else '_'
  }

  /** The decoder translates the url-safe characters and also keeps the plain ones. */
  function SymbolValue(c: char): Option<int> {
    if 'A' <= c <= 'Z' then Some(c as int - 'A' as int)
    else if 'a' <= c <= 'z' then Some(c as int - 'a' as int + 26)
    else if '0' <= c <= '9' then Some(c as int - '0' as int + 52)
    else if c == '-' || c == '+' then Some(62)
    else if c == '_' || c == '/' then Some(63)
    else None
  }

  function EncodeGroup(a: byte, b: byte, c: byte): string {
    var a, b, c := a as int, b as int, c as int;
    [Symbol(a / 4), Symbol(a % 4 * 16 + b / 16), Symbol(b % 16 * 4 + c / 64), Symbol(c % 64)]
  }

  function Encode(b: seq<byte>): string {
    if |b| == 0 then ""
    else if |b| == 1 then EncodeGroup(b[0], 0, 0)[..2] + "=="
    else if |b| == 2 then EncodeGroup(b[0], b[1], 0)[..3] + "="
    else EncodeGroup(b[0], b[1], b[2]) + Encode(b[3..])
  }

  /** `rstrip("=")`. */
  function Unpad(s: string): string {
    if s != [] && s[|s| - 1] == '=' then Unpad(s[..|s| - 1]) else s
  }

  /** `"=" * (-len(s) % 4)` put back. */
  function Repad(s: string): string {
    if |s| % 4 == 0 then s
    else if |s| % 4 == 1 then s + "==="
    else if |s| % 4 == 2 then s + "=="
    else s + "="
  }

  /**
   * The non-strict decoder. `quad` counts the symbols of the current group, `left` holds the
   * bits not yet written and `pads` the padding characters seen since the last symbol.
   * Characters outside the alphabet are skipped.
   */
  function DecodeFrom(s: string, quad: nat, left: int, pads: nat): Option<seq<byte>>
    requires quad < 4
    requires quad == 1 ==> 0 <= left < 64
    requires quad == 2 ==> 0 <= left < 16
    requires quad == 3 ==> 0 <= left < 4
  {
    if s == [] then (if quad == 0 then Some([]) else None)
    else if s[0] == '=' then
      if quad >= 2 && quad + pads + 1 >= 4 then Some([])
      else DecodeFrom(s[1..], quad, left, if quad >= 2 then pads + 1 else pads)
    else
      match SymbolValue(s[0])
      case None => DecodeFrom(s[1..], quad, left, pads)
      case Some(v) =>
        if quad == 0 then DecodeFrom(s[1..], 1, v, 0)
        else
          var (out, next, kept) :=
            if quad == 1 then (left * 4 + v / 16, 2, v % 16)
            else if quad == 2 then (left * 16 + v / 4, 3, v % 4)
            else (left * 64 + v, 0, 0);
          match DecodeFrom(s[1..], next, kept, 0)
          case None => None
          case Some(rest) => Some([out as byte] + rest)
  }

  /** `None` stands for the ValueError of non-ASCII text or of wrong padding. */
  function Decode(s: string): Option<seq<byte>> {
    if exists i :: 0 <= i < |s| && s[i] as int >= 128 then None
    else DecodeFrom(s, 0, 0, 0)
  }

  lemma SymbolRoundTrip(v: nat)
    requires v < 64
    ensures SymbolValue(Symbol(v)) == Some(v)
    ensures Symbol(v) != '=' && Symbol(v) as int < 128
  {
  }

  function Prepend(b: byte, r: Option<seq<byte>>): Option<seq<byte>> {
    match r
    case None => None
    case Some(rest) => Some([b] + rest)
  }

  lemma DecodeSymbol(v: nat, s: string, quad: nat, left: int)
    requires v < 64 && quad < 4
    requires quad == 1 ==> 0 <= left < 64
    requires quad == 2 ==> 0 <= left < 16
    requires quad == 3 ==> 0 <= left < 4
    ensures DecodeFrom([Symbol(v)] + s, quad, left, 0)
         == if quad == 0 then DecodeFrom(s, 1, v, 0)
            else if quad == 1 then Prepend((left * 4 + v / 16) as byte, DecodeFrom(s, 2, v % 16, 0))
            else if quad == 2 then Prepend((left * 16 + v / 4) as byte, DecodeFrom(s, 3, v % 4, 0))
            else Prepend((left * 64 + v) as byte, DecodeFrom(s, 0, 0, 0))
  {
    SymbolRoundTrip(v);
    var t := [Symbol(v)] + s;
    assert t[1..] == s;
  }

  /** Two symbols carry one byte; the bits of the second that are left over start the next. */
  lemma DecodeTwo(a: byte, v: nat, s: string)
    requires v < 64 && v / 16 == a as int % 4
    ensures DecodeFrom([Symbol(a as int / 4)] + ([Symbol(v)] + s), 0, 0, 0)
         == Prepend(a, DecodeFrom(s, 2, v % 16, 0))
  {
    DecodeSymbol(a as int / 4, [Symbol(v)] + s, 0, 0);
    DecodeSymbol(v, s, 1, a as int / 4);
  }

  lemma DecodeThree(a: byte, b: byte, second: nat, v: nat, s: string)
    requires v < 64 && v / 4 == b as int % 16
    requires second == a as int % 4 * 16 + b as int / 16
    ensures DecodeFrom([Symbol(a as int / 4)] + ([Symbol(second)] + ([Symbol(v)] + s)), 0, 0, 0)
         == Prepend(a, Prepend(b, DecodeFrom(s, 3, v % 4, 0)))
  {
    DecodeTwo(a, second, [Symbol(v)] + s);
    DecodeSymbol(v, s, 2, second % 16);
  }

  lemma DecodeFour(a: byte, b: byte, c: byte, s: string)
    ensures DecodeFrom(EncodeGroup(a, b, c) + s, 0, 0, 0)
         == Prepend(a, Prepend(b, Prepend(c, DecodeFrom(s, 0, 0, 0))))
  {
    var x, y, z := a as int, b as int, c as int;
    var third, fourth := y % 16 * 4 + z / 64, z % 64;
    DecodeThree(a, b, x % 4 * 16 + y / 16, third, [Symbol(fourth)] + s);
    DecodeSymbol(fourth, s, 3, third % 4);
    assert EncodeGroup(a, b, c) + s
        == [Symbol(x / 4)] + ([Symbol(x % 4 * 16 + y / 16)] + ([Symbol(third)] + ([Symbol(fourth)] + s)));
  }

  lemma DecodePadding(left: int)
    requires 0 <= left < 4
    ensures DecodeFrom("=", 3, left, 0) == Some([])
    ensures DecodeFrom("==", 2, 4 * left, 0) == Some([])
  {
    assert "=="[1..] == "=";
    assert DecodeFrom("=", 2, 4 * left, 1) == Some([]);
  }

  lemma DecodeOne(a: byte)
    ensures DecodeFrom(Encode([a]), 0, 0, 0) == Some([a])
  {
    var second := a as int % 4 * 16;
    DecodeTwo(a, second, "==");
    DecodePadding(0);
    assert second % 16 == 0;
    assert [a] + [] == [a];
    assert Encode([a]) == [Symbol(a as int / 4)] + ([Symbol(second)] + "==");
  }

  lemma DecodePair(a: byte, b: byte)
    ensures DecodeFrom(Encode([a, b]), 0, 0, 0) == Some([a, b])
  {
    var second, third := a as int % 4 * 16 + b as int / 16, b as int % 16 * 4;
    DecodeThree(a, b, second, third, "=");
    DecodePadding(0);
    assert third % 4 == 0;
    assert [a] + ([b] + []) == [a, b];
    assert Encode([a, b]) == [Symbol(a as int / 4)] + ([Symbol(second)] + ([Symbol(third)] + "="));
  }

  lemma {:induction false} DecodeEncode(b: seq<byte>)
    ensures DecodeFrom(Encode(b), 0, 0, 0) == Some(b)
  {
    hide EncodeGroup, Symbol, SymbolValue;
    if |b| == 1 {
      DecodeOne(b[0]);
      assert b == [b[0]];
    } else if |b| == 2 {
      DecodePair(b[0], b[1]);
      assert b == [b[0], b[1]];
    } else if |b| >= 3 {
      DecodeEncode(b[3..]);
      DecodeFour(b[0], b[1], b[2], Encode(b[3..]));
      assert b == [b[0]] + ([b[1]] + ([b[2]] + b[3..]));
    }
  }

  predicate IsPadding(s: string) {
    forall i :: 0 <= i < |s| ==> s[i] == '='
  }

  lemma {:induction false} UnpadOf(body: string, padding: string)
    requires IsPadding(padding) && (body != [] ==> body[|body| - 1] != '=')
    ensures Unpad(body + padding) == body
  {
    if padding == [] {
      assert body + padding == body;
    } else {
      UnpadOf(body, padding[..|padding| - 1]);
      assert (body + padding)[..|body + padding| - 1] == body + padding[..|padding| - 1];
    }
  }

  predicate AllSymbols(s: string) {
    forall i :: 0 <= i < |s| ==> s[i] != '=' && s[i] as int < 128
  }

  lemma GroupSymbols(a: byte, b: byte, c: byte)
    ensures AllSymbols(EncodeGroup(a, b, c)) && |EncodeGroup(a, b, c)| == 4
  {
    var a, b, c := a as int, b as int, c as int;
    SymbolRoundTrip(a / 4);
    SymbolRoundTrip(a % 4 * 16 + b / 16);
    SymbolRoundTrip(b % 16 * 4 + c / 64);
    SymbolRoundTrip(c % 64);
  }

  /** Encoded text is a run of symbols followed by exactly the padding its length calls for. */
  lemma {:induction false} EncodeShape(b: seq<byte>) returns (body: string)
    ensures Encode(b) == Repad(body) && AllSymbols(body)
    ensures |body| % 4 != 1
  {
    hide EncodeGroup;
    if |b| == 0 {
      body := "";
    } else if |b| < 3 {
      body := ShortShape(b);
    } else {
      var group := EncodeGroup(b[0], b[1], b[2]);
      GroupSymbols(b[0], b[1], b[2]);
      var rest := EncodeShape(b[3..]);
      body := group + rest;
      RepadBehind(group, rest);
    }
  }

  lemma ShortShape(b: seq<byte>) returns (body: string)
    requires 1 <= |b| <= 2
    ensures Encode(b) == Repad(body) && AllSymbols(body)
    ensures |body| % 4 != 1
  {
    var group := EncodeGroup(b[0], if |b| > 1 then b[1] else 0, 0);
    GroupSymbols(b[0], if |b| > 1 then b[1] else 0, 0);
    body := group[..|b| + 1];
  }

  lemma RepadBehind(group: string, rest: string)
    requires |group| == 4
    ensures group + Repad(rest) == Repad(group + rest)
  {
    var padding := Repad(rest)[|rest|..];
    assert group + (rest + padding) == group + rest + padding;
  }

  /** Stripping the padding and recomputing it from the length loses nothing. */
  lemma RoundTrip(b: seq<byte>)
    ensures Decode(Repad(Unpad(Encode(b)))) == Some(b)
    ensures forall i :: 0 <= i < |Unpad(Encode(b))| ==> Unpad(Encode(b))[i] != '='
  {
    var body := EncodeShape(b);
    if |body| % 4 == 0 {
      UnpadOf(body, "");
      assert body + "" == body;
    } else if |body| % 4 == 2 {
      UnpadOf(body, "==");
    } else {
      UnpadOf(body, "=");
    }
    DecodeEncode(b);
    assert forall i :: 0 <= i < |Repad(body)| ==> Repad(body)[i] as int < 128;
  }
}
