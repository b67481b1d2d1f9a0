/** The canonical text of a collected document: `normalize_content`, apart from Unicode NFC. */
module ContentText {
  import opened IngestionModels
  import opened Sequences
  import opened Text
  import Deduplication

  // ---- the normalizer ----

  /** `replace("\r\n", "\n")` */
  function ReplaceCrLf(s: string): string {
    if s == [] then []
    else if |s| > 1 && s[0] == '\r' && s[1] == '\n' then ['\n'] + ReplaceCrLf(s[2..])
    else [s[0]] + ReplaceCrLf(s[1..])
  }

  /** `replace("\r", "\n")` */
  function ReplaceCr(s: string): string {
    seq(|s|, i requires 0 <= i < |s| => if s[i] == '\r' then '\n' else s[i])
  }

  /** `split("\n")` */
  function Lines(s: string): (r: seq<string>)
    ensures r != []
  {
    if s == [] then [[]]
    else
      var rest := Lines(s[1..]);
      if s[0] == '\n' then [[]] + rest else [[s[0]] + rest[0]] + rest[1..]
  }

  function StripEach(lines: seq<string>): seq<string> {
    seq(|lines|, i requires 0 <= i < |lines| => RightStrip(lines[i]))
  }

  function NormalForm(s: string): string {
    Strip(Join(StripEach(Lines(ReplaceCr(ReplaceCrLf(s)))), "\n"))
  }

  function NormalizeContent(env: Env, content: string): string {
    NormalForm(env.nfc(content))
  }

  function ContentHash(env: Env, content: string): string {
    "sha256:" + env.hash(Deduplication.NORMALIZATION_VERSION + Deduplication.NUL + NormalizeContent(env, content))
  }

  // ---- each pass as one sweep from the right ----

  /** A carriage return stands for a line feed, unless a line feed follows it. */
  function Unify(s: string): string {
    if s == [] then []
    else if s[0] == '\r' then
      if |s| > 1 && s[1] == '\n' then Unify(s[1..]) else ['\n'] + Unify(s[1..])
    else [s[0]] + Unify(s[1..])
  }

  predicate IsBlankChar(c: char) {
    IsSpace(c) && c != '\n'
  }

  predicate EndsLine(rest: string) {
    rest == [] || rest[0] == '\n'
  }

  /** Drop blanks at line ends in `s`, when it is followed by `rest`. */
  function Sweep(s: string, rest: string): string {
    if s == [] then rest
    else
      var r := Sweep(s[1..], rest);
      if IsBlankChar(s[0]) && EndsLine(r) then r else [s[0]] + r
  }

  lemma ReplaceCrCons(c: char, s: string)
    ensures ReplaceCr([c] + s) == [if c == '\r' then '\n' else c] + ReplaceCr(s)
  {
  }

  lemma {:induction false} UnifyIsReplace(s: string)
    ensures Unify(s) == ReplaceCr(ReplaceCrLf(s))
  {
    hide ReplaceCr;
    if s == [] {
      assert ReplaceCrLf(s) == [];
      ReplaceCrNothing();
    } else {
      UnifyIsReplace(s[1..]);
      if |s| > 1 && s[0] == '\r' && s[1] == '\n' {
        UnifyIsReplace(s[2..]);
        assert s[1..][1..] == s[2..];
        ReplaceCrCons('\n', ReplaceCrLf(s[2..]));
      } else {
        ReplaceCrCons(s[0], ReplaceCrLf(s[1..]));
      }
    }
  }

  lemma ReplaceCrNothing()
    ensures ReplaceCr([]) == []
  {
  }

  lemma {:induction false} SweepLine(line: string)
    requires '\n' !in line
    ensures Sweep(line, []) == RightStrip(line)
  {
    if line != [] {
      var rest := line[1..];
      SweepLine(rest);
      assert line == [line[0]] + rest;
      var n := RightStripPrefix(rest);
      RightStripCons(line[0], rest);
    }
  }

  lemma {:induction false} RightStripCons(c: char, s: string)
    ensures RightStrip([c] + s) ==
            if RightStrip(s) == [] && IsSpace(c) then [] else [c] + RightStrip(s)
  {
    if s == [] {
      assert [c] + s == [c];
      assert RightStrip([c]) == if IsSpace(c) then RightStrip([]) else [c];
    } else {
      var front := s[..|s| - 1];
      assert ([c] + s)[..|s|] == [c] + front;
      if IsSpace(s[|s| - 1]) {
        RightStripCons(c, front);
      }
    }
  }

  lemma {:induction false} SweepIsStripEach(s: string)
    ensures Sweep(s, []) == Join(StripEach(Lines(s)), "\n")
  {
    hide StripEach, RightStrip, Join, EndsLine, IsSpace;
    if s == [] {
      StripNothing();
    } else {
      var rest := Lines(s[1..]);
      SweepIsStripEach(s[1..]);
      HeadAndTail(rest);
      StripEachCons(rest[0], rest[1..]);
      if s[0] == '\n' {
        StripEachCons([], rest);
        StripNothing();
        JoinFeed(StripEach(rest));
      } else {
        StripEachCons([s[0]] + rest[0], rest[1..]);
        LinesHaveNoFeed(s[1..]);
        SweepCharacter(s[0], rest[0], StripEach(rest[1..]));
      }
    }
  }

  lemma StripEachCons(line: string, lines: seq<string>)
    ensures StripEach([line] + lines) == [RightStrip(line)] + StripEach(lines)
  {
    hide RightStrip;
  }

  lemma StripNothing()
    ensures RightStrip([]) == [] && StripEach([[]]) == [[]] && Join([[]], "\n") == []
  {
  }

  lemma JoinFeed(lines: seq<string>)
    requires lines != []
    ensures Join([[]] + lines, "\n") == "\n" + Join(lines, "\n")
  {
    assert ([[]] + lines)[1..] == lines;
    assert [] + "\n" + Join(lines, "\n") == "\n" + Join(lines, "\n");
  }

  /** A character in front of the first line is dropped exactly when it is blank and the line is empty once stripped. */
  lemma SweepCharacter(c: char, line: string, r: seq<string>)
    requires c != '\n' && '\n' !in line
    ensures var rest := Join([RightStrip(line)] + r, "\n");
            Join([RightStrip([c] + line)] + r, "\n") == if IsBlankChar(c) && EndsLine(rest) then rest else [c] + rest
  {
    hide RightStrip, Join, EndsLine, IsSpace;
    var lines := [RightStrip(line)] + r;
    RightStripCons(c, line);
    FirstLineEnds(line, lines);
    JoinFirst([c], lines, "\n");
    assert lines[1..] == r;
  }

  lemma {:induction false} LinesHaveNoFeed(s: string)
    ensures forall line :: line in Lines(s) ==> '\n' !in line
  {
    if s != [] {
      LinesHaveNoFeed(s[1..]);
    }
  }

  lemma FirstLineEnds(line: string, r: seq<string>)
    requires r != [] && r[0] == RightStrip(line) && '\n' !in line
    ensures EndsLine(Join(r, "\n")) <==> r[0] == []
  {
    var n := RightStripPrefix(line);
    if r[0] != [] {
      assert r[0][0] in line;
      assert Join(r, "\n")[0] == r[0][0];
    }
  }

  lemma NormalFormSweeps(s: string)
    ensures NormalForm(s) == Strip(Sweep(Unify(s), []))
  {
    UnifyIsReplace(s);
    SweepIsStripEach(Unify(s));
  }

  // ---- fixpoints ----

  /** No carriage return, no blank before a line feed, and no outer space. */
  predicate IsNormal(t: string) {
    && '\r' !in t
    && (forall i :: 0 < i < |t| && t[i] == '\n' ==> !IsBlankChar(t[i - 1]))
    && IsTrimmed(t)
  }

  lemma {:induction false} UnifyRemovesReturns(s: string)
    ensures '\r' !in Unify(s)
    ensures '\r' !in s ==> Unify(s) == s
  {
    if s != [] {
      UnifyRemovesReturns(s[1..]);
      assert '\r' !in s ==> '\r' !in s[1..];
      assert s == [s[0]] + s[1..];
    }
  }

  lemma {:induction false} SweptLines(s: string)
    ensures forall c :: c in Sweep(s, []) ==> c in s
    ensures forall i :: 0 < i < |Sweep(s, [])| && Sweep(s, [])[i] == '\n' ==> !IsBlankChar(Sweep(s, [])[i - 1])
  {
    if s != [] {
      SweptLines(s[1..]);
    }
  }

  lemma {:induction false} SweepKeepsNormal(t: string)
    requires forall i :: 0 < i < |t| && t[i] == '\n' ==> !IsBlankChar(t[i - 1])
    requires t != [] ==> !IsSpace(t[|t| - 1])
    ensures Sweep(t, []) == t
  {
    if t != [] {
      var rest := t[1..];
      assert forall i :: 0 <= i < |rest| ==> rest[i] == t[i + 1];
      assert rest != [] ==> rest[|rest| - 1] == t[|t| - 1];
      SweepKeepsNormal(rest);
      HeadAndTail(t);
      assert IsBlankChar(t[0]) ==> !EndsLine(rest) by {
        assert rest == [] ==> t[|t| - 1] == t[0];
        assert rest != [] ==> t[1] == rest[0];
      }
    }
  }

  lemma NormalFormIsNormal(s: string)
    ensures IsNormal(NormalForm(s))
  {
    NormalFormSweeps(s);
    UnifyRemovesReturns(s);
    var u := Sweep(Unify(s), []);
    SweptLines(Unify(s));
    var a, b := StripSplits(u);
    var t := u[a..b];
    assert forall i :: 0 <= i < |t| ==> t[i] == u[a + i];
  }

  /**
   * The normalizer leaves a text alone exactly when it has no carriage return, no blank at a
   * line end and no outer space; and its results are such texts, so it is idempotent.
   */
  lemma FixpointIffNormal(s: string)
    ensures NormalForm(s) == s <==> IsNormal(s)
    ensures NormalForm(NormalForm(s)) == NormalForm(s)
  {
    NormalFormIsNormal(s);
    forall t | IsNormal(t)
      ensures NormalForm(t) == t
    {
      NormalFormSweeps(t);
      UnifyRemovesReturns(t);
      SweepKeepsNormal(t);
      StripOfTrimmed(t);
    }
  }

  // ---- what the normal form does not depend on ----

  predicate AllSpace(w: string) {
    forall i :: 0 <= i < |w| ==> IsSpace(w[i])
  }

  lemma StripIgnoresOuterSpace(left: string, s: string, right: string)
    requires AllSpace(left) && AllSpace(right)
    ensures Strip(left + s + right) == Strip(s)
  {
    var a, b := StripSplits(s);
    var l, r := left + s[..a], s[b..] + right;
    assert left + s + right == l + s[a..b] + r;
    assert AllSpace(l) && AllSpace(r);
    StripOf(l, s[a..b], r);
  }

  /** What one character becomes in front of `rest`. */
  function UnifyChar(c: char, rest: string): string {
    if c != '\r' then [c] else if rest != [] && rest[0] == '\n' then [] else ['\n']
  }

  lemma UnifyCons(c: char, rest: string)
    ensures Unify([c] + rest) == UnifyChar(c, rest) + Unify(rest)
  {
    assert ([c] + rest)[1..] == rest;
  }

  lemma {:induction false} UnifyLeft(w: string, s: string) returns (v: string)
    requires AllSpace(w)
    ensures AllSpace(v) && Unify(w + s) == v + Unify(s)
  {
    hide Unify;
    if w == [] {
      v := [];
      assert w + s == s && v + Unify(s) == Unify(s);
    } else {
      var u := UnifyLeft(w[1..], s);
      HeadAndTail(w);
      Regroup([w[0]], w[1..], s);
      UnifyCons(w[0], w[1..] + s);
      v := UnifyChar(w[0], w[1..] + s) + u;
      Regroup(UnifyChar(w[0], w[1..] + s), u, Unify(s));
    }
  }

  lemma {:induction false} UnifyRight(s: string, w: string) returns (core: string, v: string, x: string)
    requires AllSpace(w)
    ensures AllSpace(v) && AllSpace(x)
    ensures Unify(s + w) == core + v && Unify(s) == core + x
  {
    hide Unify;
    if |s| <= 1 && AllSpace(s) {
      core := [];
      v := UnifyLeft(s + w, []);
      x := UnifyLeft(s, []);
      assert s + w + [] == s + w && s + [] == s;
      UnifyNothing();
      assert core + v == v + [] && core + x == x + [];
    } else {
      var c, rest := s[0], s[1..];
      var tail;
      tail, v, x := UnifyRight(rest, w);
      HeadAndTail(s);
      Regroup([c], rest, w);
      UnifyCons(c, rest + w);
      UnifyCons(c, rest);
      assert UnifyChar(c, rest + w) == UnifyChar(c, rest);
      core := UnifyChar(c, rest) + tail;
      Regroup(UnifyChar(c, rest), tail, v);
      Regroup(UnifyChar(c, rest), tail, x);
    }
  }

  lemma UnifyNothing()
    ensures Unify([]) == []
  {
  }

  lemma {:induction false} SweepSpace(w: string, rest: string) returns (v: string)
    requires AllSpace(w)
    ensures AllSpace(v) && Sweep(w, rest) == v + rest
    ensures rest == [] ==> EndsLine(v)
  {
    if w == [] {
      v := [];
    } else {
      var u := SweepSpace(w[1..], rest);
      if IsBlankChar(w[0]) && EndsLine(u + rest) {
        v := u;
      } else {
        v := [w[0]] + u;
        assert [w[0]] + (u + rest) == v + rest;
        assert rest == [] ==> u + rest == u;
      }
    }
  }

  lemma {:induction false} SweepAppend(s: string, t: string, rest: string)
    ensures Sweep(s + t, rest) == Sweep(s, Sweep(t, rest))
  {
    if s == [] {
      assert s + t == t;
    } else {
      SweepAppend(s[1..], t, rest);
      assert (s + t)[1..] == s[1..] + t;
    }
  }

  lemma {:induction false} SweepBeforeLineEnd(s: string, v: string)
    requires EndsLine(v)
    ensures Sweep(s, v) == Sweep(s, []) + v
  {
    if s != [] {
      SweepBeforeLineEnd(s[1..], v);
    }
  }

  lemma SweepIgnoresOuterSpace(left: string, s: string, right: string)
    requires AllSpace(left) && AllSpace(right)
    ensures Strip(Sweep(left + (s + right), [])) == Strip(Sweep(s, []))
  {
    hide Sweep, Strip;
    SweepAppend(left, s + right, []);
    SweepAppend(s, right, []);
    var v := SweepSpace(right, []);
    assert v + [] == v;
    SweepBeforeLineEnd(s, v);
    var u := SweepSpace(left, Sweep(s, []) + v);
    assert u + (Sweep(s, []) + v) == u + Sweep(s, []) + v;
    StripIgnoresOuterSpace(u, Sweep(s, []), v);
  }

  /** Outer blank space of any kind, line breaks included, never changes the normal form. */
  lemma OuterSpaceIgnored(left: string, s: string, right: string)
    requires AllSpace(left) && AllSpace(right)
    ensures NormalForm(left + s + right) == NormalForm(s)
  {
    hide NormalForm, Unify, Sweep, Strip;
    NormalFormSweeps(s);
    NormalFormSweeps(left + s + right);
    Regroup(left, s, right);
    var l := UnifyLeft(left, s + right);
    var core, v, x := UnifyRight(s, right);
    SweepIgnoresOuterSpace(l, core, v);
    SweepIgnoresOuterSpace([], core, x);
    assert [] + (core + x) == core + x;
  }

  /** One line of text: no line break inside. */
  predicate IsLine(s: string) {
    '\n' !in s && '\r' !in s
  }

  predicate BlankLine(s: string) {
    AllSpace(s) && IsLine(s)
  }

  /** The lines, each followed by its trailing blanks, with one style of line ending. */
  function Render(lines: seq<string>, blanks: seq<string>, ending: string): string
    requires |lines| == |blanks|
  {
    if lines == [] then []
    else if |lines| == 1 then lines[0] + blanks[0]
    else (lines[0] + blanks[0]) + ending + Render(lines[1..], blanks[1..], ending)
  }

  lemma {:induction false} UnifyLine(line: string, rest: string)
    requires IsLine(line)
    ensures Unify(line + rest) == line + Unify(rest)
  {
    if line == [] {
      assert line + rest == rest;
    } else {
      UnifyLine(line[1..], rest);
      HeadAndTailOfConcat(line, rest);
      HeadAndTail(line);
      Regroup([line[0]], line[1..], Unify(rest));
    }
  }

  lemma {:induction false} UnifyRender(lines: seq<string>, blanks: seq<string>, ending: string)
    requires |lines| == |blanks| && ending in {"\n", "\r", "\r\n"}
    requires forall line :: line in lines ==> IsLine(line)
    requires forall blank :: blank in blanks ==> BlankLine(blank)
    ensures Unify(Render(lines, blanks, ending)) == Render(lines, blanks, "\n")
    ensures ending == "\r" ==> '\n' !in Render(lines, blanks, ending)
  {
    hide Unify, IsLine, BlankLine, Render;
    if lines == [] {
      RenderNothing(lines, blanks, ending);
      RenderNothing(lines, blanks, "\n");
    } else {
      var line := lines[0] + blanks[0];
      assert lines[0] in lines && blanks[0] in blanks;
      BlanksBehindLine(lines[0], blanks[0]);
      if |lines| == 1 {
        RenderOne(lines, blanks, ending);
        RenderOne(lines, blanks, "\n");
        LineIsUnified(line);
      } else {
        var rest := Render(lines[1..], blanks[1..], ending);
        UnifyRender(lines[1..], blanks[1..], ending);
        RenderCons(lines, blanks, ending);
        RenderCons(lines, blanks, "\n");
        UnifyLine(line, ending + rest);
        UnifyEnding(ending, rest);
        NoFeedInFront(line, ending, rest);
      }
    }
  }

  lemma RenderNothing(lines: seq<string>, blanks: seq<string>, ending: string)
    requires lines == [] && blanks == []
    ensures Render(lines, blanks, ending) == [] && Unify([]) == []
  {
  }

  lemma RenderOne(lines: seq<string>, blanks: seq<string>, ending: string)
    requires |lines| == |blanks| == 1
    ensures Render(lines, blanks, ending) == lines[0] + blanks[0]
  {
  }

  lemma RenderCons(lines: seq<string>, blanks: seq<string>, ending: string)
    requires |lines| == |blanks| > 1
    ensures Render(lines, blanks, ending)
         == (lines[0] + blanks[0]) + (ending + Render(lines[1..], blanks[1..], ending))
  {
    Regroup(lines[0] + blanks[0], ending, Render(lines[1..], blanks[1..], ending));
  }

  lemma BlanksBehindLine(line: string, blank: string)
    requires IsLine(line) && BlankLine(blank)
    ensures IsLine(line + blank)
  {
  }

  lemma LineIsUnified(line: string)
    requires IsLine(line)
    ensures Unify(line) == line && '\n' !in line
  {
    UnifyLine(line, []);
    assert line + [] == line;
  }

  lemma NoFeedInFront(line: string, ending: string, rest: string)
    requires IsLine(line)
    ensures ending == "\r" && '\n' !in rest ==> '\n' !in line + (ending + rest)
  {
  }

  lemma UnifyEnding(ending: string, rest: string)
    requires ending in {"\n", "\r", "\r\n"}
    requires ending == "\r" ==> '\n' !in rest
    ensures Unify(ending + rest) == "\n" + Unify(rest)
  {
    var s := ending + rest;
    assert s[1..] == ending[1..] + rest;
    if ending == "\r\n" {
      assert ending[1..] == "\n";
      assert s[1..][1..] == rest;
      assert Unify(s[1..]) == "\n" + Unify(rest);
    } else {
      assert s[1..] == rest;
    }
  }

  lemma {:induction false} SweepRender(lines: seq<string>, blanks: seq<string>)
    requires |lines| == |blanks|
    requires forall blank :: blank in blanks ==> BlankLine(blank)
    ensures Sweep(Render(lines, blanks, "\n"), []) == Sweep(Join(lines, "\n"), [])
  {
    if lines != [] {
      if |lines| == 1 {
        SweepAppend(lines[0], blanks[0], []);
        SweepBlanks(blanks[0], []);
      } else {
        SweepRender(lines[1..], blanks[1..]);
        var r, j := Render(lines[1..], blanks[1..], "\n"), Join(lines[1..], "\n");
        assert Render(lines, blanks, "\n") == lines[0] + (blanks[0] + ("\n" + r));
        assert Join(lines, "\n") == lines[0] + ("\n" + j);
        SweepAppend(lines[0], blanks[0] + ("\n" + r), []);
        SweepAppend(lines[0], "\n" + j, []);
        SweepAppend(blanks[0], "\n" + r, []);
        SweepFeed(r);
        SweepFeed(j);
        SweepBlanks(blanks[0], Sweep("\n" + r, []));
      }
    }
  }

  lemma SweepFeed(s: string)
    ensures Sweep("\n" + s, []) == "\n" + Sweep(s, [])
  {
    assert ("\n" + s)[1..] == s;
  }

  lemma {:induction false} SweepBlanks(blank: string, rest: string)
    requires BlankLine(blank) && EndsLine(rest)
    ensures Sweep(blank, rest) == rest
  {
    if blank != [] {
      SweepBlanks(blank[1..], rest);
    }
  }

  /**
   * Texts that differ only in the style of their line endings, in blanks at line ends and in
   * outer blank space have one normal form.
   */
  lemma LayoutIgnored(lines: seq<string>, blanks: seq<string>, ending: string, left: string, right: string)
    requires |lines| == |blanks| && ending in {"\n", "\r", "\r\n"}
    requires forall line :: line in lines ==> IsLine(line)
    requires forall blank :: blank in blanks ==> BlankLine(blank)
    requires AllSpace(left) && AllSpace(right)
    ensures NormalForm(left + Render(lines, blanks, ending) + right) == NormalForm(Join(lines, "\n"))
  {
    var s, t := Render(lines, blanks, ending), Join(lines, "\n");
    OuterSpaceIgnored(left, s, right);
    NormalFormSweeps(s);
    NormalFormSweeps(t);
    UnifyRender(lines, blanks, ending);
    SweepRender(lines, blanks);
    JoinedLines(lines);
    UnifyRemovesReturns(t);
  }

  lemma {:induction false} JoinedLines(lines: seq<string>)
    requires forall line :: line in lines ==> IsLine(line)
    ensures '\r' !in Join(lines, "\n")
  {
    if lines != [] {
      assert IsLine(lines[0]);
      if |lines| > 1 {
        JoinedLines(lines[1..]);
      }
    }
  }

  /**
   * Without digest collisions, two contents have one hash exactly when their normal forms, after
   * NFC, are equal.
   */
  lemma SameHashIff(env: Env, a: string, b: string)
    requires CollisionFree(env)
    ensures ContentHash(env, a) == ContentHash(env, b) <==> NormalForm(env.nfc(a)) == NormalForm(env.nfc(b))
  {
    hide NormalForm;
    var prefix := Deduplication.NORMALIZATION_VERSION + Deduplication.NUL;
    var x, y := NormalForm(env.nfc(a)), NormalForm(env.nfc(b));
    if ContentHash(env, a) == ContentHash(env, b) {
      Deduplication.PrefixInjective("sha256:", env.hash(prefix + x), env.hash(prefix + y));
      Deduplication.PrefixInjective(prefix, x, y);
    }
  }
}
