/**
 * JSON text as `json.dumps(..., ensure_ascii=False, separators=(",", ":"))` writes it and
 * `json.loads` reads it (RFC 8259, section 7 for strings).
 */
module Json {
  import opened Wrappers
  import opened Sequences
  import opened Text
  import D = Decimal

  /** An object keeps its members in text order; a repeated key stands for its last member. */
  datatype Value =
    | Null
    | Bool(b: bool)
    | Int(n: int)
    | Float(text: string)
    | Str(s: string)
    | Arr(items: seq<Value>)
    | Obj(members: seq<(string, Value)>)

  type Parsed<T> = Option<(T, string)>

  // ---- writing ----

  function HexChar(d: nat): char
    requires d < 16
  {
    if d < 10 then ('0' as int + d) as char else ('a' as int + d - 10) as char
  }

  function Escape(c: char): string {
    if c == '"' then "\\\""
    else if c == '\\' then "\\\\"
    else if c as int == 8 then "\\b"
    else if c as int == 12 then "\\f"
    else if c == '\n' then "\\n"
    else if c == '\r' then "\\r"
    else if c == '\t' then "\\t"
    else if (c as int) < 32 then "\\u00" + [HexChar(c as int / 16), HexChar(c as int % 16)]
    else [c]
  }

  function EscapeAll(s: string): string {
    if s == [] then [] else Escape(s[0]) + EscapeAll(s[1..])
  }

  function Quote(s: string): string {
    "\"" + EscapeAll(s) + "\""
  }

  function Write(v: Value): string
    decreases v, 0
  {
    match v
    case Null => "null"
    case Bool(b) => if b then "true" else "false"
    case Int(n) => D.FromInt(n)
    case Float(text) => text
    case Str(s) => Quote(s)
    case Arr(items) => "[" + (if items == [] then "]" else WriteItems(items))
    case Obj(members) => "{" + (if members == [] then "}" else WriteMembers(members))
  }

  function WriteItems(items: seq<Value>): string
    requires items != []
    decreases items, 1
  {
    Write(items[0]) + if |items| == 1 then "]" else "," + WriteItems(items[1..])
  }

  function WriteMembers(members: seq<(string, Value)>): string
    requires members != []
    decreases members, 1
  {
    assert members[0].1 < members[0];
    Quote(members[0].0) + ":" + Write(members[0].1)
    + if |members| == 1 then "}" else "," + WriteMembers(members[1..])
  }

  // ---- reading ----

  predicate IsJsonSpace(c: char) {
    c == ' ' || c == '\t' || c == '\n' || c == '\r'
  }

  function SkipSpace(s: string): (rest: string)
    ensures |rest| <= |s|
  {
    if s != [] && IsJsonSpace(s[0]) then SkipSpace(s[1..]) else s
  }

  function HexValue(c: char): Option<int> {
    if '0' <= c <= '9' then Some(c as int - '0' as int)
    else if 'a' <= c <= 'f' then Some(c as int - 'a' as int + 10)
    else if 'A' <= c <= 'F' then Some(c as int - 'A' as int + 10)
    else None
  }

  /** Four hexadecimal digits after a backslash and a u. */
  function ReadHex4(s: string): Option<int> {
    if |s| < 4 then None
    else
      match (HexValue(s[0]), HexValue(s[1]), HexValue(s[2]), HexValue(s[3]))
      case (Some(a), Some(b), Some(c), Some(d)) => Some(((a * 16 + b) * 16 + c) * 16 + d)
      case _ => None
  }

  function SimpleEscape(c: char): Option<char> {
    if c == '"' || c == '\\' || c == '/' then Some(c)
    else if c == 'b' then Some(8 as char)
    else if c == 'f' then Some(12 as char)
    else if c == 'n' then Some('\n')
    else if c == 'r' then Some('\r')
    else if c == 't' then Some('\t')
    else None
  }

  /** A `\uXXXX` escape, or two that make a surrogate pair; `s` starts at the first digit. */
  function ReadUnicodeEscape(s: string): (r: Parsed<char>)
    ensures r.Some? ==> |r.value.1| < |s|
  {
    match ReadHex4(s)
    case None => None
    case Some(u) =>
      if 0 <= u < 0xD800 || 0xE000 <= u <= 0xFFFF then Some((u as char, s[4..]))
      else if 0xD800 <= u < 0xDC00 && |s| >= 10 && s[4] == '\\' && s[5] == 'u' then
        match ReadHex4(s[6..])
        case None => None
        case Some(low) =>
          if 0xDC00 <= low < 0xE000 then
            Some(((0x10000 + (u - 0xD800) * 0x400 + (low - 0xDC00)) as char, s[10..]))
          else None
      else None
  }

  /** The characters of a string up to and including its closing quote. */
  function ReadString(s: string): (r: Parsed<string>)
    ensures r.Some? ==> |r.value.1| < |s|
    decreases |s|
  {
    if s == [] then None
    else if s[0] == '"' then Some(("", s[1..]))
    else if s[0] == '\\' then
      if |s| < 2 then None
      else
        var escaped :=
          if s[1] == 'u' then ReadUnicodeEscape(s[2..])
          else
            match SimpleEscape(s[1])
            case None => None
            case Some(c) => Some((c, s[2..]));
        match escaped
        case None => None
        case Some((c, rest)) =>
          match ReadString(rest)
          case None => None
          case Some((tail, after)) => Some(([c] + tail, after))
    else if (s[0] as int) < 32 then None
    else
      match ReadString(s[1..])
      case None => None
      case Some((tail, after)) => Some(([s[0]] + tail, after))
  }

  function DigitRun(s: string): (n: nat)
    ensures n <= |s|
    ensures D.AllDigits(s[..n])
  {
    if s != [] && D.IsDigit(s[0]) then
      var m := DigitRun(s[1..]);
      assert s[..m + 1] == [s[0]] + s[1..][..m];
      m + 1
    else 0
  }

  /** Digits of the fraction and the exponent that follow an integer part. */
  function FloatTail(s: string): (n: nat)
    ensures n <= |s|
  {
    var fraction := if |s| > 1 && s[0] == '.' && D.IsDigit(s[1]) then 1 + DigitRun(s[1..]) else 0;
    var t := s[fraction..];
    var sign := if |t| > 1 && (t[1] == '+' || t[1] == '-') then 2 else 1;
    if |t| > sign && (t[0] == 'e' || t[0] == 'E') && D.IsDigit(t[sign]) then
      fraction + sign + DigitRun(t[sign..])
    else fraction
  }

  function ReadUnsigned(s: string): (r: Parsed<Value>)
    ensures r.Some? ==> |r.value.1| < |s|
  {
    var run := DigitRun(s);
    if run == 0 then None
    else
      var digits := if s[0] == '0' then 1 else run;
      var tail := FloatTail(s[digits..]);
      assert s[..digits] == s[..run][..digits];
      if tail > 0 then Some((Float(s[..digits + tail]), s[digits..][tail..]))
      else Some((Int(D.Value(s[..digits])), s[digits..]))
  }

  function ReadNumber(s: string): (r: Parsed<Value>)
    ensures r.Some? ==> |r.value.1| < |s|
  {
    if s != [] && s[0] == '-' then
      match ReadUnsigned(s[1..])
      case Some((Int(n), rest)) => Some((Int(-n), rest))
      case Some((Float(text), rest)) => Some((Float("-" + text), rest))
      case _ => None
    else ReadUnsigned(s)
  }

  function ReadScalar(s: string): (r: Parsed<Value>)
    ensures r.Some? ==> |r.value.1| < |s|
  {
    if StartsWith(s, "null") then Some((Null, s[4..]))
    else if StartsWith(s, "true") then Some((Bool(true), s[4..]))
    else if StartsWith(s, "false") then Some((Bool(false), s[5..]))
    else if StartsWith(s, "NaN") then Some((Float("NaN"), s[3..]))
    else if StartsWith(s, "Infinity") then Some((Float("Infinity"), s[8..]))
    else if StartsWith(s, "-Infinity") then Some((Float("-Infinity"), s[9..]))
    else ReadNumber(s)
  }

  function ReadValue(s: string): (r: Parsed<Value>)
    ensures r.Some? ==> |r.value.1| < |s|
    decreases |s|, 0
  {
    if s == [] then None
    else if s[0] == '"' then
      match ReadString(s[1..])
      case None => None
      case Some((text, rest)) => Some((Str(text), rest))
    else if s[0] == '[' then
      var body := SkipSpace(s[1..]);
      if body != [] && body[0] == ']' then Some((Arr([]), body[1..]))
      else
        match ReadItems(body)
        case None => None
        case Some((items, rest)) => Some((Arr(items), rest))
    else if s[0] == '{' then
      var body := SkipSpace(s[1..]);
      if body != [] && body[0] == '}' then Some((Obj([]), body[1..]))
      else
        match ReadMembers(body)
        case None => None
        case Some((members, rest)) => Some((Obj(members), rest))
    else ReadScalar(s)
  }

  function ReadItems(s: string): (r: Parsed<seq<Value>>)
    ensures r.Some? ==> |r.value.1| < |s|
    decreases |s|, 1
  {
    match ReadValue(s)
    case None => None
    case Some((v, rest)) =>
      var next := SkipSpace(rest);
      if next == [] then None
      else if next[0] == ']' then Some(([v], next[1..]))
      else if next[0] == ',' then
        match ReadItems(SkipSpace(next[1..]))
        case None => None
        case Some((items, after)) => Some(([v] + items, after))
      else None
  }

  function ReadMembers(s: string): (r: Parsed<seq<(string, Value)>>)
    ensures r.Some? ==> |r.value.1| < |s|
    decreases |s|, 1
  {
    if s == [] || s[0] != '"' then None
    else
      match ReadString(s[1..])
      case None => None
      case Some((key, rest)) =>
        var colon := SkipSpace(rest);
        if colon == [] || colon[0] != ':' then None
        else
          match ReadValue(SkipSpace(colon[1..]))
          case None => None
          case Some((v, rest)) =>
            var next := SkipSpace(rest);
            if next == [] then None
            else if next[0] == '}' then Some(([(key, v)], next[1..]))
            else if next[0] == ',' then
              match ReadMembers(SkipSpace(next[1..]))
              case None => None
              case Some((members, after)) => Some(([(key, v)] + members, after))
            else None
  }

  /** `json.loads`: one value with nothing but space around it. */
  function Loads(s: string): Option<Value> {
    match ReadValue(SkipSpace(s))
    case None => None
    case Some((v, rest)) => if SkipSpace(rest) == [] then Some(v) else None
  }

  // ---- reading undoes writing ----

  /** No floating-point numeral anywhere: the values the ingestion code writes. */
  predicate Exact(v: Value)
    decreases v
  {
    match v
    case Float(_) => false
    case Arr(items) => forall i :: 0 <= i < |items| ==> Exact(items[i])
    case Obj(members) => forall i :: 0 <= i < |members| ==> Exact(members[i].1)
    case _ => true
  }

  /** What may follow a numeral without becoming part of it. */
  predicate EndsNumber(rest: string) {
    rest == [] || (!D.IsDigit(rest[0]) && rest[0] != '.' && rest[0] != 'e' && rest[0] != 'E')
  }

  lemma HexRoundTrip(d: nat)
    requires d < 16
    ensures HexValue(HexChar(d)) == Some(d)
  {
  }

  lemma ControlEscape(c: char, s: string)
    requires (c as int) < 32
    ensures var code := c as int;
            ReadUnicodeEscape(['0', '0', HexChar(code / 16), HexChar(code % 16)] + s) == Some((c, s))
  {
    var code := c as int;
    HexRoundTrip(code / 16);
    HexRoundTrip(code % 16);
    var h := ['0', '0', HexChar(code / 16), HexChar(code % 16)] + s;
    assert ReadHex4(h) == Some(code);
    assert h[4..] == s;
  }

  lemma ReadPlain(c: char, s: string, tail: string, rest: string)
    requires (c as int) >= 32 && c != '"' && c != '\\'
    requires ReadString(s) == Some((tail, rest))
    ensures ReadString([c] + s) == Some(([c] + tail, rest))
  {
    assert ([c] + s)[1..] == s;
  }

  lemma ReadEscape(e: char, c: char, s: string, tail: string, rest: string)
    requires e != 'u' && SimpleEscape(e) == Some(c)
    requires ReadString(s) == Some((tail, rest))
    ensures ReadString(['\\', e] + s) == Some(([c] + tail, rest))
  {
    assert (['\\', e] + s)[2..] == s;
  }

  lemma ReadControl(c: char, h: string, s: string, tail: string, rest: string)
    requires ReadUnicodeEscape(h + s) == Some((c, s))
    requires ReadString(s) == Some((tail, rest))
    ensures ReadString("\\u" + h + s) == Some(([c] + tail, rest))
  {
    assert ("\\u" + h + s)[2..] == h + s;
  }

  lemma EscapeRoundTrip(c: char, s: string, tail: string, rest: string)
    requires ReadString(s) == Some((tail, rest))
    ensures ReadString(Escape(c) + s) == Some(([c] + tail, rest))
  {
    hide ReadString, ReadUnicodeEscape;
    var code := c as int;
    if |Escape(c)| == 1 {
      ReadPlain(c, s, tail, rest);
    } else if |Escape(c)| == 2 {
      ReadEscape(Escape(c)[1], c, s, tail, rest);
      assert Escape(c) == ['\\', Escape(c)[1]];
    } else {
      ControlEscape(c, s);
      var h := ['0', '0', HexChar(code / 16), HexChar(code % 16)];
      ReadControl(c, h, s, tail, rest);
      assert Escape(c) == "\\u" + h;
    }
  }

  lemma {:induction false} StringRoundTrip(s: string, rest: string)
    ensures ReadString(EscapeAll(s) + "\"" + rest) == Some((s, rest))
  {
    if s == [] {
      assert EscapeAll(s) + "\"" + rest == "\"" + rest;
    } else {
      StringRoundTrip(s[1..], rest);
      EscapeRoundTrip(s[0], EscapeAll(s[1..]) + "\"" + rest, s[1..], rest);
      assert EscapeAll(s) + "\"" + rest == Escape(s[0]) + (EscapeAll(s[1..]) + "\"" + rest);
      assert s == [s[0]] + s[1..];
    }
  }

  lemma {:induction false} DigitRunOf(digits: string, rest: string)
    requires D.AllDigits(digits) && (rest == [] || !D.IsDigit(rest[0]))
    ensures DigitRun(digits + rest) == |digits|
  {
    if digits == [] {
      assert digits + rest == rest;
    } else {
      DigitRunOf(digits[1..], rest);
      assert (digits + rest)[1..] == digits[1..] + rest;
    }
  }

  lemma ReadUnsignedOf(digits: string, rest: string)
    requires digits != [] && D.AllDigits(digits) && EndsNumber(rest)
    requires digits[0] == '0' ==> |digits| == 1
    ensures ReadUnsigned(digits + rest) == Some((Int(D.Value(digits)), rest))
  {
    var s := digits + rest;
    DigitRunOf(digits, rest);
    assert s[..|digits|] == digits && s[|digits|..] == rest;
    assert FloatTail(rest) == 0;
  }

  lemma NotKeyword(s: string, word: string, i: nat)
    requires i < |s| && i < |word| && s[i] != word[i]
    ensures !StartsWith(s, word)
  {
  }

  lemma ScalarNumber(s: string)
    requires s != []
    requires D.IsDigit(s[0]) || (s[0] == '-' && |s| > 1 && D.IsDigit(s[1]))
    ensures ReadScalar(s) == ReadNumber(s)
  {
    NotKeyword(s, "null", 0);
    NotKeyword(s, "true", 0);
    NotKeyword(s, "false", 0);
    NotKeyword(s, "NaN", 0);
    NotKeyword(s, "Infinity", 0);
    if s[0] == '-' {
      NotKeyword(s, "-Infinity", 1);
    } else {
      NotKeyword(s, "-Infinity", 0);
    }
  }

  lemma ScalarValue(s: string)
    requires s != [] && s[0] != '"' && s[0] != '[' && s[0] != '{'
    ensures ReadValue(s) == ReadScalar(s)
  {
  }

  lemma ReadNegative(body: string, n: int, rest: string)
    requires ReadUnsigned(body) == Some((Int(n), rest))
    ensures ReadNumber("-" + body) == Some((Int(-n), rest))
  {
    assert ("-" + body)[1..] == body;
  }

  lemma NumberRoundTrip(n: int, rest: string)
    requires EndsNumber(rest)
    ensures ReadValue(D.FromInt(n) + rest) == Some((Int(n), rest))
  {
    hide D.Digits, D.Value, ReadUnsigned, ReadScalar, ReadValue;
    var k: nat := if n < 0 then -n else n;
    var digits := D.Digits(k);
    D.DigitsRoundTrip(k);
    ReadUnsignedOf(digits, rest);
    var body := digits + rest;
    if n < 0 {
      ReadNegative(body, k, rest);
      Regroup("-", digits, rest);
      assert ("-" + body)[1] == digits[0];
      ScalarNumber("-" + body);
      ScalarValue("-" + body);
    } else {
      assert body[0] == digits[0];
      ScalarNumber(body);
      ScalarValue(body);
    }
  }

  lemma KeywordRoundTrip(rest: string)
    ensures ReadValue("null" + rest) == Some((Null, rest))
    ensures ReadValue("true" + rest) == Some((Bool(true), rest))
    ensures ReadValue("false" + rest) == Some((Bool(false), rest))
  {
    var n, t, f := "null" + rest, "true" + rest, "false" + rest;
    assert n[..4] == "null" && n[4..] == rest;
    assert t[..4] == "true" && t[4..] == rest;
    NotKeyword(t, "null", 0);
    assert f[..5] == "false" && f[5..] == rest;
    NotKeyword(f, "null", 0);
    NotKeyword(f, "true", 0);
  }

  /** The first character written is never space and never closes a bracket. */
  lemma {:induction false} WriteStarts(v: Value)
    requires Exact(v)
    ensures Write(v) != []
    ensures !IsJsonSpace(Write(v)[0]) && Write(v)[0] != ']' && Write(v)[0] != '}'
  {
    if v.Int? {
      var k: nat := if v.n < 0 then -v.n else v.n;
      D.DigitsRoundTrip(k);
      assert D.IsDigit(D.Digits(k)[0]);
    }
  }

  /** Text that a reader takes as it stands: it starts with neither space nor a closing bracket. */
  predicate Opens(s: string) {
    s != [] && !IsJsonSpace(s[0]) && s[0] != ']' && s[0] != '}'
  }

  lemma WriteOpens(v: Value, rest: string)
    requires Exact(v)
    ensures Opens(Write(v) + rest)
  {
    WriteStarts(v);
  }

  lemma ReadList(body: string, items: seq<Value>, rest: string)
    requires Opens(body) && ReadItems(body) == Some((items, rest))
    ensures ReadValue("[" + body) == Some((Arr(items), rest))
  {
    var s := "[" + body;
    assert s[1..] == body;
    assert SkipSpace(body) == body;
  }

  lemma ReadObject(body: string, members: seq<(string, Value)>, rest: string)
    requires Opens(body) && ReadMembers(body) == Some((members, rest))
    ensures ReadValue("{" + body) == Some((Obj(members), rest))
  {
    var s := "{" + body;
    assert s[1..] == body;
    assert SkipSpace(body) == body;
  }

  lemma ReadQuoted(text: string, rest: string)
    ensures ReadValue(Quote(text) + rest) == Some((Str(text), rest))
    ensures ReadString((Quote(text) + rest)[1..]) == Some((text, rest))
  {
    var s := Quote(text) + rest;
    assert s[0] == '"';
    assert s[1..] == EscapeAll(text) + "\"" + rest;
    StringRoundTrip(text, rest);
  }

  lemma ReadLastItem(s: string, v: Value, rest: string)
    requires ReadValue(s) == Some((v, "]" + rest))
    ensures ReadItems(s) == Some(([v], rest))
  {
    var next := "]" + rest;
    assert next[1..] == rest;
    assert SkipSpace(next) == next;
  }

  lemma ReadNextItem(s: string, v: Value, more: string, items: seq<Value>, rest: string)
    requires ReadValue(s) == Some((v, "," + more)) && Opens(more)
    requires ReadItems(more) == Some((items, rest))
    ensures ReadItems(s) == Some(([v] + items, rest))
  {
    var next := "," + more;
    assert next[1..] == more;
    assert SkipSpace(next) == next && SkipSpace(more) == more;
  }

  lemma ReadLastMember(key: string, body: string, v: Value, rest: string)
    requires Opens(body) && ReadValue(body) == Some((v, "}" + rest))
    ensures ReadMembers(Quote(key) + (":" + body)) == Some(([(key, v)], rest))
  {
    var colon, next := ":" + body, "}" + rest;
    ReadQuoted(key, colon);
    assert colon[1..] == body && next[1..] == rest;
    assert SkipSpace(colon) == colon && SkipSpace(body) == body && SkipSpace(next) == next;
  }

  lemma ReadNextMember(key: string, body: string, v: Value, more: string,
                       members: seq<(string, Value)>, rest: string)
    requires Opens(body) && ReadValue(body) == Some((v, "," + more))
    requires Opens(more) && ReadMembers(more) == Some((members, rest))
    ensures ReadMembers(Quote(key) + (":" + body)) == Some(([(key, v)] + members, rest))
  {
    var colon, next := ":" + body, "," + more;
    ReadQuoted(key, colon);
    assert colon[1..] == body && next[1..] == more;
    assert SkipSpace(colon) == colon && SkipSpace(body) == body;
    assert SkipSpace(next) == next && SkipSpace(more) == more;
  }

  lemma EmptyRoundTrip(rest: string)
    ensures ReadValue(Write(Arr([])) + rest) == Some((Arr([]), rest))
    ensures ReadValue(Write(Obj([])) + rest) == Some((Obj([]), rest))
  {
    assert Write(Arr([])) == "[]" && Write(Obj([])) == "{}";
    var a, o := "[]" + rest, "{}" + rest;
    assert a[1..] == "]" + rest && a[1..][1..] == rest;
    assert o[1..] == "}" + rest && o[1..][1..] == rest;
  }

  /** Reading what was written gives back the value and leaves the text that follows it. */
  lemma {:induction false} ValueRoundTrip(v: Value, rest: string)
    requires Exact(v) && (v.Int? ==> EndsNumber(rest))
    ensures ReadValue(Write(v) + rest) == Some((v, rest))
    decreases v, 0
  {
    match v
    case Null => KeywordRoundTrip(rest);
    case Bool(b) => KeywordRoundTrip(rest);
    case Int(n) => NumberRoundTrip(n, rest);
    case Str(text) => ReadQuoted(text, rest);
    case Arr(items) =>
      if items == [] {
        assert v == Arr([]);
        EmptyRoundTrip(rest);
      } else {
        ItemsRoundTrip(items, rest);
        ReadList(WriteItems(items) + rest, items, rest);
        Regroup("[", WriteItems(items), rest);
      }
    case Obj(members) =>
      if members == [] {
        assert v == Obj([]);
        EmptyRoundTrip(rest);
      } else {
        MembersRoundTrip(members, rest);
        ReadObject(WriteMembers(members) + rest, members, rest);
        Regroup("{", WriteMembers(members), rest);
      }
  }

  lemma {:induction false} ItemsRoundTrip(items: seq<Value>, rest: string)
    requires items != [] && forall i :: 0 <= i < |items| ==> Exact(items[i])
    ensures ReadItems(WriteItems(items) + rest) == Some((items, rest))
    ensures Opens(WriteItems(items) + rest)
    decreases items, 1
  {
    var v := items[0];
    if |items| == 1 {
      ValueRoundTrip(v, "]" + rest);
      WriteOpens(v, "]" + rest);
      Regroup(Write(v), "]", rest);
      ReadLastItem(WriteItems(items) + rest, v, rest);
      assert items == [v];
    } else {
      var more := WriteItems(items[1..]) + rest;
      ItemsRoundTrip(items[1..], rest);
      ValueRoundTrip(v, "," + more);
      WriteOpens(v, "," + more);
      Regroup(Write(v), "," + WriteItems(items[1..]), rest);
      Regroup(",", WriteItems(items[1..]), rest);
      ReadNextItem(WriteItems(items) + rest, v, more, items[1..], rest);
      assert items == [v] + items[1..];
    }
  }

  lemma RegroupMember(key: string, v: string, close: string, rest: string)
    ensures Quote(key) + ":" + v + close + rest == Quote(key) + (":" + (v + (close + rest)))
    ensures Opens(Quote(key) + ":" + v + close + rest)
  {
    Regroup(Quote(key) + ":" + v, close, rest);
    Regroup(Quote(key) + ":", v, close + rest);
    Regroup(Quote(key), ":", v + (close + rest));
  }

  lemma {:induction false} MembersRoundTrip(members: seq<(string, Value)>, rest: string)
    requires members != [] && forall i :: 0 <= i < |members| ==> Exact(members[i].1)
    ensures ReadMembers(WriteMembers(members) + rest) == Some((members, rest))
    ensures Opens(WriteMembers(members) + rest)
    decreases members, 1
  {
    hide Write, Opens, ReadMembers, Exact;
    var (key, v) := members[0];
    assert members[0].1 < members[0];
    if |members| == 1 {
      var body := Write(v) + ("}" + rest);
      ValueRoundTrip(v, "}" + rest);
      WriteOpens(v, "}" + rest);
      ReadLastMember(key, body, v, rest);
      RegroupMember(key, Write(v), "}", rest);
      assert members == [(key, v)];
    } else {
      var more := WriteMembers(members[1..]) + rest;
      var body := Write(v) + ("," + more);
      MembersRoundTrip(members[1..], rest);
      ValueRoundTrip(v, "," + more);
      WriteOpens(v, "," + more);
      ReadNextMember(key, body, v, more, members[1..], rest);
      RegroupMember(key, Write(v), "," + WriteMembers(members[1..]), rest);
      Regroup(",", WriteMembers(members[1..]), rest);
      assert members == [(key, v)] + members[1..];
    }
  }

  predicate JsonSpaces(s: string) {
    forall i :: 0 <= i < |s| ==> s[i] in {' ', '\t', '\n', '\r'}
  }

  lemma {:induction false} SkipsSpaces(w: string, s: string)
    requires JsonSpaces(w)
    ensures SkipSpace(w + s) == SkipSpace(s)
  {
    if w == [] {
      assert w + s == s;
    } else {
      SkipsSpaces(w[1..], s);
      assert (w + s)[1..] == w[1..] + s;
    }
  }

  /** `json.loads` gives back every float-free value that `json.dumps` wrote, whatever space is around it. */
  lemma LoadsPadded(left: string, v: Value, right: string)
    requires Exact(v) && JsonSpaces(left) && JsonSpaces(right)
    ensures Loads(left + Write(v) + right) == Some(v)
  {
    hide Write, ReadValue, SkipSpace, Exact;
    SkipsSpaces(left, Write(v) + right);
    assert left + Write(v) + right == left + (Write(v) + right);
    SkipsSpaces(right, "");
    assert right + "" == right;
    SpaceEndsNumber(right);
    ValueRoundTrip(v, right);
    StartKept(v, right);
    NothingToSkip();
  }

  lemma SpaceEndsNumber(w: string)
    requires JsonSpaces(w)
    ensures EndsNumber(w)
  {
  }

  lemma StartKept(v: Value, rest: string)
    requires Exact(v)
    ensures SkipSpace(Write(v) + rest) == Write(v) + rest
  {
    WriteStarts(v);
  }

  lemma NothingToSkip()
    ensures SkipSpace("") == ""
  {
  }

  lemma LoadsWrite(v: Value)
    requires Exact(v)
    ensures Loads(Write(v)) == Some(v)
  {
    LoadsPadded("", v, "");
    assert "" + Write(v) + "" == Write(v);
  }

  // ---- what is not written here but read ----

  /** A numeral with a fraction is no integer: it is kept as it is written. */
  lemma FractionIsFloat(digits: string, fraction: string, rest: string)
    requires digits != [] && D.AllDigits(digits) && (digits[0] == '0' ==> |digits| == 1)
    requires fraction != [] && D.AllDigits(fraction) && EndsNumber(rest)
    ensures ReadNumber(digits + "." + fraction + rest) == Some((Float(digits + "." + fraction), rest))
    ensures ReadNumber("-" + (digits + "." + fraction + rest)) == Some((Float("-" + (digits + "." + fraction)), rest))
  {
    hide ReadUnsigned, D.AllDigits;
    UnsignedFraction(digits, fraction, rest);
    FirstDigit(digits);
    Signed(digits + "." + fraction + rest);
  }

  lemma Signed(s: string)
    requires s != [] && s[0] != '-'
    ensures ReadNumber(s) == ReadUnsigned(s)
    ensures ReadNumber("-" + s) == match ReadUnsigned(s)
                                   case Some((Int(n), rest)) => Some((Int(-n), rest))
                                   case Some((Float(text), rest)) => Some((Float("-" + text), rest))
                                   case _ => None
  {
    hide ReadUnsigned;
    assert ("-" + s)[1..] == s;
  }

  lemma UnsignedFraction(digits: string, fraction: string, rest: string)
    requires digits != [] && D.AllDigits(digits) && (digits[0] == '0' ==> |digits| == 1)
    requires fraction != [] && D.AllDigits(fraction) && EndsNumber(rest)
    ensures ReadUnsigned(digits + "." + fraction + rest) == Some((Float(digits + "." + fraction), rest))
  {
    hide FloatTail, DigitRun, D.AllDigits;
    var tail := "." + fraction + rest;
    FractionParts(digits, fraction, rest);
    DigitRunOf(digits, tail);
    TailOfFraction(fraction, rest);
    UnsignedFloat(digits + tail, |digits|, 1 + |fraction|);
  }

  lemma UnsignedFloat(s: string, digits: nat, tail: nat)
    requires 0 < digits <= |s| && DigitRun(s) == digits && (s[0] == '0' ==> digits == 1)
    requires FloatTail(s[digits..]) == tail > 0
    ensures digits + tail <= |s| && ReadUnsigned(s) == Some((Float(s[..digits + tail]), s[digits..][tail..]))
  {
    hide FloatTail, DigitRun, D.AllDigits;
  }

  lemma FractionParts(digits: string, fraction: string, rest: string)
    ensures var (tail, s) := ("." + fraction + rest, digits + "." + fraction + rest);
      && digits + tail == s && s[|digits|..] == tail && tail[1 + |fraction|..] == rest
      && s[..|digits| + (1 + |fraction|)] == digits + "." + fraction
  {
  }

  lemma FirstDigit(digits: string)
    requires digits != [] && D.AllDigits(digits)
    ensures digits[0] != '-'
  {
  }

  lemma TailOfFraction(fraction: string, rest: string)
    requires fraction != [] && D.AllDigits(fraction) && EndsNumber(rest)
    ensures FloatTail("." + fraction + rest) == 1 + |fraction|
  {
    hide DigitRun;
    var s := "." + fraction + rest;
    assert s[1..] == fraction + rest;
    DigitRunOf(fraction, rest);
    assert s[1 + |fraction|..] == rest;
  }

  /** A zero in front ends the numeral. */
  lemma ZeroStandsAlone(s: string)
    requires s != [] && D.IsDigit(s[0])
    ensures ReadUnsigned("0" + s) == Some((Int(0), s))
  {
    var t := "0" + s;
    assert t[1..] == s && t[..1] == "0";
    assert "0"[..0] == "";
    assert D.Value("0") == 0 && DigitRun(t) >= 1 && FloatTail(s) == 0;
  }
}
