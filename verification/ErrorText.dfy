/** The durable form of failure messages: `sanitize_work_error_message`. */
module ErrorText {
  import opened Sequences
  import opened Text

  const MAX_MESSAGE := 1024

  // ---- the sanitizer ----

  predicate IsBreak(c: char) {
    c == '\r' || c == '\n' || c == '\t'
  }

  /** Neither an ASCII control character nor one of the controls from 127 to 159. */
  predicate Printable(c: char) {
    32 <= c as int < 127 || c as int > 159
  }

  /** Breaks become spaces; other control characters go. */
  function Clean(s: string): string {
    if s == [] then []
    else
      (if IsBreak(s[0]) then [' '] else if Printable(s[0]) then [s[0]] else []) + Clean(s[1..])
  }

  /** `split()`: the maximal runs of characters that are not space. */
  function Words(s: string): (r: seq<string>)
    ensures s != [] && !IsSpace(s[0]) ==> r != []
  {
    if s == [] then []
    else
      var rest := Words(s[1..]);
      if IsSpace(s[0]) then rest
      else if |s| == 1 || IsSpace(s[1]) then [[s[0]]] + rest
      else [[s[0]] + rest[0]] + rest[1..]
  }

  function Collapse(s: string): string {
    Join(Words(Clean(s)), " ")
  }

  function Sanitize(message: string): string {
    var normalized := Collapse(message);
    if |normalized| <= MAX_MESSAGE then normalized else normalized[..MAX_MESSAGE]
  }

  // ---- collapsed text ----

  /** Printable, with spaces only, never two together and none at the start. */
  predicate IsSpaced(t: string) {
    && (forall i :: 0 <= i < |t| ==> Printable(t[i]) && (IsSpace(t[i]) ==> t[i] == ' '))
    && (forall i :: 0 < i < |t| ==> !(t[i - 1] == ' ' && t[i] == ' '))
    && (t != [] ==> t[0] != ' ')
  }

  predicate EndsInSpace(t: string) {
    t != [] && t[|t| - 1] == ' '
  }

  predicate IsCollapsed(t: string) {
    IsSpaced(t) && !EndsInSpace(t)
  }

  predicate IsWord(w: string) {
    w != [] && forall i :: 0 <= i < |w| ==> Printable(w[i]) && !IsSpace(w[i])
  }

  lemma {:induction false} CleanPrintable(s: string)
    ensures forall i :: 0 <= i < |Clean(s)| ==> Printable(Clean(s)[i])
    ensures (forall i :: 0 <= i < |s| ==> Printable(s[i])) ==> Clean(s) == s
  {
    if s != [] {
      CleanPrintable(s[1..]);
    }
  }

  lemma {:induction false} WordsAreWords(s: string)
    requires forall i :: 0 <= i < |s| ==> Printable(s[i])
    ensures forall i :: 0 <= i < |Words(s)| ==> IsWord(Words(s)[i])
  {
    if s != [] {
      WordsAreWords(s[1..]);
    }
  }

  lemma {:induction false} JoinedWords(words: seq<string>)
    requires forall i :: 0 <= i < |words| ==> IsWord(words[i])
    ensures IsCollapsed(Join(words, " "))
    ensures words != [] ==> Join(words, " ") != []
  {
    if |words| > 1 {
      var rest := Join(words[1..], " ");
      JoinedWords(words[1..]);
      var w := words[0];
      assert IsWord(w);
      var t := w + " " + rest;
      forall i | 0 <= i < |t|
        ensures Printable(t[i]) && (IsSpace(t[i]) ==> t[i] == ' ')
        ensures i > 0 ==> !(t[i - 1] == ' ' && t[i] == ' ')
      {
        if i > |w| + 1 {
          assert t[i] == rest[i - |w| - 1] && t[i - 1] == rest[i - |w| - 2];
        }
      }
      assert t[|t| - 1] == rest[|rest| - 1];
    }
  }

  lemma CollapseCollapsed(s: string)
    ensures IsCollapsed(Collapse(s))
  {
    CleanPrintable(s);
    WordsAreWords(Clean(s));
    JoinedWords(Words(Clean(s)));
  }

  /** Text whose spaces are single loses nothing but a leading space. */
  lemma {:induction false} JoinOfWords(t: string)
    requires forall i :: 0 <= i < |t| && IsSpace(t[i]) ==> t[i] == ' '
    requires forall i :: 0 < i < |t| ==> !(t[i - 1] == ' ' && t[i] == ' ')
    requires !EndsInSpace(t)
    ensures Join(Words(t), " ") == if t != [] && t[0] == ' ' then t[1..] else t
  {
    if t != [] {
      var rest := t[1..];
      JoinOfWords(rest);
      assert t == [t[0]] + rest;
      if t[0] != ' ' && rest != [] {
        var words := Words(rest);
        if rest[0] == ' ' {
          assert rest[1..] != [] && Words(rest) == Words(rest[1..]);
          assert Join([[t[0]]] + words, " ") == [t[0]] + " " + Join(words, " ");
        } else {
          JoinFirst([t[0]], words, " ");
        }
      }
    }
  }

  lemma CollapsedFixed(t: string)
    requires IsCollapsed(t)
    ensures Collapse(t) == t
  {
    CleanPrintable(t);
    JoinOfWords(t);
  }

  lemma {:induction false} WordsIgnoreTrailing(s: string)
    ensures Words(s + " ") == Words(s)
  {
    if s != [] {
      WordsIgnoreTrailing(s[1..]);
      assert (s + " ")[1..] == s[1..] + " ";
    } else {
      assert s + " " == " ";
    }
  }

  // ---- what the sanitizer keeps ----

  /** What separates words: breaks, and space of any other kind that is not a control character. */
  predicate Separates(w: string) {
    w != [] && forall i :: 0 <= i < |w| ==> IsBreak(w[i]) || (Printable(w[i]) && IsSpace(w[i]))
  }

  lemma {:induction false} CleanSplits(a: string, b: string)
    ensures Clean(a + b) == Clean(a) + Clean(b)
  {
    hide Clean;
    if a == [] {
      CleanNothing();
      assert [] + b == b && [] + Clean(b) == Clean(b);
    } else {
      var t := a + b;
      CleanSplits(a[1..], b);
      CleanHead(a);
      CleanHead(t);
      assert t[1..] == a[1..] + b && t[0] == a[0];
      Regroup(Clean([a[0]]), Clean(a[1..]), Clean(b));
    }
  }

  lemma CleanNothing()
    ensures Clean([]) == []
  {
  }

  lemma CleanHead(s: string)
    requires s != []
    ensures Clean(s) == Clean([s[0]]) + Clean(s[1..])
  {
    assert [s[0]][1..] == [];
    assert Clean([]) == [];
  }

  lemma {:induction false} CleanSeparator(w: string)
    requires Separates(w)
    ensures Clean(w) != [] && forall i :: 0 <= i < |Clean(w)| ==> IsSpace(Clean(w)[i])
  {
    if |w| > 1 {
      CleanSeparator(w[1..]);
    }
  }

  lemma {:induction false} WordsBehindSpace(w: string, s: string)
    requires forall i :: 0 <= i < |w| ==> IsSpace(w[i])
    ensures Words(w + s) == Words(s)
  {
    if w == [] {
      assert w + s == s;
    } else {
      WordsBehindSpace(w[1..], s);
      assert (w + s)[1..] == w[1..] + s;
    }
  }

  lemma {:induction false} WordsSplit(a: string, w: string, b: string)
    requires w != [] && forall i :: 0 <= i < |w| ==> IsSpace(w[i])
    ensures Words(a + w + b) == Words(a) + Words(b)
  {
    hide IsSpace, Words;
    if a == [] {
      assert a + w + b == w + b;
      WordsBehindSpace(w, b);
      WordsHead([]);
      assert [] + Words(b) == Words(b);
    } else {
      WordsSplit(a[1..], w, b);
      TailOfSplit(a, w, b);
      WordsSplitStep(a + w + b, a, Words(b));
    }
  }

  lemma TailOfSplit(a: string, w: string, b: string)
    requires a != [] && w != []
    ensures (a + w + b)[1..] == a[1..] + w + b && |a + w + b| > 1 && (a + w + b)[0] == a[0]
    ensures (a + w + b)[1] == if |a| == 1 then w[0] else a[1]
  {
  }

  lemma WordsSplitStep(s: string, a: string, y: seq<string>)
    requires a != [] && |s| > 1 && s[0] == a[0] && (if |a| == 1 then IsSpace(s[1]) else s[1] == a[1])
    requires Words(s[1..]) == Words(a[1..]) + y
    ensures Words(s) == Words(a) + y
  {
    hide IsSpace, Words;
    var x := Words(a[1..]);
    WordsHead(s);
    WordsHead(a);
    Regroup([[a[0]]], x, y);
    if |a| > 1 {
      WordsHead(a[1..]);
      if !IsSpace(a[0]) && !IsSpace(a[1]) {
        FirstExtended(a[0], x, y);
      }
    }
  }

  lemma FirstExtended(c: char, x: seq<string>, y: seq<string>)
    requires x != []
    ensures [[c] + (x + y)[0]] + (x + y)[1..] == [[c] + x[0]] + x[1..] + y
  {
  }

  lemma WordsHead(s: string)
    ensures s == [] ==> Words(s) == []
    ensures s != [] && !IsSpace(s[0]) ==> Words(s) != []
    ensures s != [] ==>
              var rest := Words(s[1..]);
              Words(s) == if IsSpace(s[0]) then rest
                          else if |s| == 1 || IsSpace(s[1]) then [[s[0]]] + rest
                          else [[s[0]] + rest[0]] + rest[1..]
  {
    hide IsSpace;
  }

  lemma {:induction false} JoinAppends(a: seq<string>, b: seq<string>, separator: string)
    requires a != [] && b != []
    ensures Join(a + b, separator) == Join(a, separator) + separator + Join(b, separator)
  {
    if |a| == 1 {
      assert (a + b)[1..] == b;
    } else {
      JoinAppends(a[1..], b, separator);
      assert (a + b)[1..] == a[1..] + b;
      var (x, y, z) := (a[0] + separator, Join(a[1..], separator), separator + Join(b, separator));
      assert x + (y + separator + Join(b, separator)) == (x + y) + separator + Join(b, separator);
    }
  }

  lemma NoWords(s: string)
    ensures Collapse(s) == [] <==> Words(Clean(s)) == []
  {
    CleanPrintable(s);
    WordsAreWords(Clean(s));
    JoinedWords(Words(Clean(s)));
  }

  /**
   * What is kept of a message, part by part: between two parts any breaks and spaces become one
   * space, which falls away beside a part of which nothing is left.
   */
  lemma PartsKept(a: string, w: string, b: string)
    requires Separates(w)
    ensures Collapse(a + w + b)
         == if Collapse(a) == [] then Collapse(b)
            else if Collapse(b) == [] then Collapse(a)
            else Collapse(a) + " " + Collapse(b)
  {
    hide Clean, Words, IsSpace;
    CleanSplits(a + w, b);
    CleanSplits(a, w);
    CleanSeparator(w);
    WordsSplit(Clean(a), Clean(w), Clean(b));
    NoWords(a);
    NoWords(b);
    var (x, y) := (Words(Clean(a)), Words(Clean(b)));
    if x == [] {
      assert x + y == y;
    } else if y == [] {
      assert x + y == x;
    } else {
      JoinAppends(x, y, " ");
    }
  }

  /** A word stays as it is, and any other control character goes without a trace. */
  lemma WordsKept(w: string, a: string, c: char, b: string)
    ensures IsWord(w) ==> Collapse(w) == w
    ensures !Printable(c) && !IsBreak(c) ==> Collapse(a + [c] + b) == Collapse(a + b)
  {
    if IsWord(w) {
      assert IsCollapsed(w);
      CollapsedFixed(w);
    }
    if !Printable(c) && !IsBreak(c) {
      hide Words, Join;
      CleanSplits(a + [c], b);
      CleanSplits(a, [c]);
      CleanSplits(a, b);
      assert Clean([c]) == [];
      assert Clean(a) + [] == Clean(a);
    }
  }

  // ---- the sanitizer's promises ----

  /** What a sanitized message is: bounded, printable, single-spaced, never starting with a space. */
  lemma SanitizedForm(message: string)
    ensures |Sanitize(message)| <= 1024 && Sanitize(message) <= Collapse(message) && IsSpaced(Sanitize(message))
    ensures Sanitize(message) == Collapse(message) <==> |Collapse(message)| <= 1024
    ensures EndsInSpace(Sanitize(message)) <==>
            |Collapse(message)| > MAX_MESSAGE && Collapse(message)[MAX_MESSAGE - 1] == ' '
    ensures Sanitize(message) == [] <==> Collapse(message) == []
  {
    CollapseCollapsed(message);
  }

  /** Sanitizing a sanitized message only drops the space that the cut may have left at its end. */
  lemma SanitizeAgain(message: string)
    ensures var once := Sanitize(message);
      Sanitize(once) == if EndsInSpace(once) then once[..|once| - 1] else once
  {
    SanitizedForm(message);
    SanitizeSpaced(Sanitize(message));
  }

  lemma SanitizeSpaced(t: string)
    requires IsSpaced(t) && |t| <= MAX_MESSAGE
    ensures Sanitize(t) == if EndsInSpace(t) then t[..|t| - 1] else t
  {
    if EndsInSpace(t) {
      var u := t[..|t| - 1];
      assert t == u + " ";
      assert IsCollapsed(u);
      CleanPrintable(t);
      CleanPrintable(u);
      WordsIgnoreTrailing(u);
      CollapsedFixed(u);
    } else {
      CollapsedFixed(t);
    }
  }

  /**
   * One application is a fixpoint exactly when the cut does not fall behind a space; two
   * applications always are.
   */
  lemma FixpointIff(message: string)
    ensures Sanitize(Sanitize(message)) == Sanitize(message)
       <==> !(|Collapse(message)| > MAX_MESSAGE && Collapse(message)[MAX_MESSAGE - 1] == ' ')
    ensures Sanitize(Sanitize(Sanitize(message))) == Sanitize(Sanitize(message))
    ensures Sanitize(Sanitize(message)) == [] <==> Sanitize(message) == []
  {
    SanitizedForm(message);
    SanitizeAgain(message);
    SanitizeAgain(Sanitize(message));
    var once := Sanitize(message);
    if EndsInSpace(once) {
      assert once[0] != ' ';
      var twice := once[..|once| - 1];
      assert !EndsInSpace(twice);
    }
  }

  function Repeat(c: char, n: nat): string {
    seq(n, i => c)
  }

  /** A message of 1023 letters, a space and a letter is not a fixpoint after one application. */
  lemma OneApplicationMayNotBeEnough()
    ensures var message := Repeat('a', 1023) + " b";
      Sanitize(message) == Repeat('a', 1023) + " " && Sanitize(Sanitize(message)) == Repeat('a', 1023)
  {
    var letters := Repeat('a', 1023);
    var message := letters + " b";
    assert forall i :: 0 <= i < 1023 ==> letters[i] == 'a';
    assert message[1023] == ' ' && message[1024] == 'b';
    assert IsCollapsed(message);
    CollapsedFixed(message);
    assert message[..1024] == letters + " ";
    SanitizeAgain(message);
    assert (letters + " ")[..1023] == letters;
  }
}
