/** Result types, text order, sorting and decimal numbers shared by the models. */
module Wrappers {

  datatype Option<+T> = None | Some(value: T)

  /** The value of a Python call, or the exception it raised. */
  datatype Result<+T, +E> = Ok(value: T) | Err(error: E) {
    predicate IsFailure() {
      Err?
    }

    function PropagateFailure<U>(): Result<U, E>
      requires Err?
    {
      Err(error)
    }

    function Extract(): T
      requires Ok?
    {
      value
    }
  }
}

/** Concatenation is associative; the verifier wants to be told. */
module Sequences {

  lemma Regroup<T>(a: seq<T>, b: seq<T>, c: seq<T>)
    ensures a + b + c == a + (b + c)
  {
  }

  lemma HeadAndTail<T>(s: seq<T>)
    requires s != []
    ensures s == [s[0]] + s[1..]
  {
  }

  /** Taking the head off a concatenation. */
  lemma HeadAndTailOfConcat<T>(a: seq<T>, b: seq<T>)
    requires a != []
    ensures (a + b)[0] == a[0] && (a + b)[1..] == a[1..] + b
  {
  }
}

/** Code-point order on text: the order of Python strings and of SQLite's binary collation. */
module TextOrder {

  predicate AtMost(a: string, b: string) {
    if a == [] then true
    else if b == [] then false
    else if a[0] != b[0] then a[0] < b[0]
    else AtMost(a[1..], b[1..])
  }

  predicate Before(a: string, b: string) {
    !AtMost(b, a)
  }

  lemma {:induction false} AtMostTotal(a: string, b: string)
    ensures AtMost(a, b) || AtMost(b, a)
  {
    if a != [] && b != [] && a[0] == b[0] {
      AtMostTotal(a[1..], b[1..]);
    }
  }

  lemma {:induction false} AtMostAntisymmetric(a: string, b: string)
    requires AtMost(a, b) && AtMost(b, a)
    ensures a == b
  {
    if a != [] && b != [] {
      AtMostAntisymmetric(a[1..], b[1..]);
      assert a == [a[0]] + a[1..] && b == [b[0]] + b[1..];
    }
  }

  lemma {:induction false} AtMostTransitive(a: string, b: string, c: string)
    requires AtMost(a, b) && AtMost(b, c)
    ensures AtMost(a, c)
  {
    if a != [] && a[0] == b[0] && b[0] == c[0] {
      AtMostTransitive(a[1..], b[1..], c[1..]);
    }
  }

  /** One text is a beginning of the other, or the first difference decides. */
  ghost predicate Lexicographic(a: string, b: string) {
    a <= b || exists i: nat :: i < |a| && i < |b| && a[..i] == b[..i] && a[i] < b[i]
  }

  lemma {:induction false} AtMostIff(a: string, b: string)
    ensures AtMost(a, b) <==> Lexicographic(a, b)
  {
    if a != [] && b != [] {
      if a[0] == b[0] {
        AtMostIff(a[1..], b[1..]);
        TailOrder(a, b);
      } else if a[0] < b[0] {
        assert a[..0] == b[..0];
      }
    }
  }

  lemma TailOrder(a: string, b: string)
    requires a != [] && b != [] && a[0] == b[0]
    ensures Lexicographic(a, b) <==> Lexicographic(a[1..], b[1..])
  {
    assert a == [a[0]] + a[1..] && b == [b[0]] + b[1..];
    if i: nat :| i < |a| && i < |b| && a[..i] == b[..i] && a[i] < b[i] {
      assert a[1..][..i - 1] == a[..i][1..] && b[1..][..i - 1] == b[..i][1..];
      assert a[1..][i - 1] < b[1..][i - 1];
    }
    if i: nat :| i < |a[1..]| && i < |b[1..]| && a[1..][..i] == b[1..][..i] && a[1..][i] < b[1..][i] {
      assert a[..i + 1] == [a[0]] + a[1..][..i] && b[..i + 1] == [b[0]] + b[1..][..i];
      assert a[i + 1] < b[i + 1];
    }
  }

  /** Tuple order: first components decide, second components break ties. */
  predicate PairAtMost(a: (string, string), b: (string, string)) {
    if a.0 != b.0 then AtMost(a.0, b.0) else AtMost(a.1, b.1)
  }

  lemma PairAtMostTotal(a: (string, string), b: (string, string))
    ensures PairAtMost(a, b) || PairAtMost(b, a)
  {
    AtMostTotal(a.0, b.0);
    AtMostTotal(a.1, b.1);
  }

  lemma PairAtMostAntisymmetric(a: (string, string), b: (string, string))
    requires PairAtMost(a, b) && PairAtMost(b, a)
    ensures a == b
  {
    if a.0 != b.0 {
      AtMostAntisymmetric(a.0, b.0);
    } else {
      AtMostAntisymmetric(a.1, b.1);
    }
  }

  lemma PairAtMostTransitive(a: (string, string), b: (string, string), c: (string, string))
    requires PairAtMost(a, b) && PairAtMost(b, c)
    ensures PairAtMost(a, c)
  {
    if a.0 != b.0 && b.0 != c.0 {
      AtMostTransitive(a.0, b.0, c.0);
      if a.0 == c.0 {
        AtMostAntisymmetric(a.0, b.0);
      }
    } else if a.0 == b.0 == c.0 {
      AtMostTransitive(a.1, b.1, c.1);
    }
  }
}

/** Python's `sorted`: a stable sort by a total preorder. */
module Sorting {

  ghost predicate Preorder<T(!new)>(le: (T, T) -> bool) {
    && (forall x, y :: le(x, y) || le(y, x))
    && (forall x, y, z :: le(x, y) && le(y, z) ==> le(x, z))
  }

  /** No two different elements are equal in the order. */
  ghost predicate Antisymmetric<T(!new)>(le: (T, T) -> bool) {
    forall x, y :: le(x, y) && le(y, x) ==> x == y
  }

  ghost predicate Sorted<T>(le: (T, T) -> bool, s: seq<T>) {
    forall i, j :: 0 <= i < j < |s| ==> le(s[i], s[j])
  }

  function Insert<T>(le: (T, T) -> bool, x: T, s: seq<T>): seq<T> {
    if s == [] || le(x, s[0]) then [x] + s
    else [s[0]] + Insert(le, x, s[1..])
  }

  function SortBy<T>(le: (T, T) -> bool, s: seq<T>): seq<T> {
    if s == [] then [] else Insert(le, s[0], SortBy(le, s[1..]))
  }

  lemma {:induction false} InsertKeepsElements<T>(le: (T, T) -> bool, x: T, s: seq<T>)
    ensures multiset(Insert(le, x, s)) == multiset(s) + multiset{x}
  {
    if s != [] && !le(x, s[0]) {
      var rest := Insert(le, x, s[1..]);
      InsertKeepsElements(le, x, s[1..]);
      assert s == [s[0]] + s[1..];
      assert multiset([s[0]] + rest) == multiset{s[0]} + multiset(rest);
    }
  }

  lemma {:induction false} SortKeepsElements<T>(le: (T, T) -> bool, s: seq<T>)
    ensures multiset(SortBy(le, s)) == multiset(s)
    ensures |SortBy(le, s)| == |s|
  {
    if s != [] {
      SortKeepsElements(le, s[1..]);
      InsertKeepsElements(le, s[0], SortBy(le, s[1..]));
      assert s == [s[0]] + s[1..];
    }
    assert |multiset(SortBy(le, s))| == |SortBy(le, s)|;
  }

  lemma {:induction false} InsertSorted<T(!new)>(le: (T, T) -> bool, x: T, s: seq<T>)
    requires Preorder(le) && Sorted(le, s)
    ensures Sorted(le, Insert(le, x, s))
  {
    if s != [] && !le(x, s[0]) {
      InsertSorted(le, x, s[1..]);
      var rest := Insert(le, x, s[1..]);
      InsertKeepsElements(le, x, s[1..]);
      forall j | 0 <= j < |rest|
        ensures le(s[0], rest[j])
      {
        assert rest[j] in multiset(rest);
        assert rest[j] == x || rest[j] in s[1..];
      }
    }
  }

  lemma {:induction false} SortSorted<T(!new)>(le: (T, T) -> bool, s: seq<T>)
    requires Preorder(le)
    ensures Sorted(le, SortBy(le, s))
  {
    if s != [] {
      SortSorted(le, s[1..]);
      InsertSorted(le, s[0], SortBy(le, s[1..]));
    }
  }

  lemma {:induction false} SortOfSorted<T>(le: (T, T) -> bool, s: seq<T>)
    requires Sorted(le, s)
    ensures SortBy(le, s) == s
  {
    if s != [] {
      SortOfSorted(le, s[1..]);
      assert s == [s[0]] + s[1..];
    }
  }

  lemma SortedHead<T(!new)>(le: (T, T) -> bool, a: seq<T>, x: T)
    requires Sorted(le, a) && x in multiset(a)
    ensures a[0] == x || le(a[0], x)
  {
    var i :| 0 <= i < |a| && a[i] == x;
  }

  lemma TailElements<T>(a: seq<T>)
    requires a != []
    ensures multiset(a[1..]) == multiset(a) - multiset{a[0]}
  {
    assert a == [a[0]] + a[1..];
  }

  /** A collection of elements has one sorted arrangement when ties are equal elements. */
  lemma {:induction false} SortedUnique<T(!new)>(le: (T, T) -> bool, a: seq<T>, b: seq<T>)
    requires Antisymmetric(le) && Sorted(le, a) && Sorted(le, b)
    requires multiset(a) == multiset(b)
    ensures a == b
  {
    assert |multiset(a)| == |a| && |multiset(b)| == |b|;
    if a != [] {
      assert a[0] in multiset(a) && b[0] in multiset(b);
      SortedHead(le, a, b[0]);
      SortedHead(le, b, a[0]);
      assert a[0] == b[0];
      TailElements(a);
      TailElements(b);
      SortedUnique(le, a[1..], b[1..]);
      assert a == [a[0]] + a[1..] && b == [b[0]] + b[1..];
    }
  }

  lemma SortDependsOnElements<T(!new)>(le: (T, T) -> bool, a: seq<T>, b: seq<T>)
    requires Preorder(le) && Antisymmetric(le)
    ensures SortBy(le, a) == SortBy(le, b) <==> multiset(a) == multiset(b)
  {
    SortKeepsElements(le, a);
    SortKeepsElements(le, b);
    if multiset(a) == multiset(b) {
      SortSorted(le, a);
      SortSorted(le, b);
      SortedUnique(le, SortBy(le, a), SortBy(le, b));
    }
  }
}

/** The total orders that the models sort by. */
module TextSorting {
  import opened TextOrder
  import opened Sorting

  const BY_TEXT: (string, string) -> bool := (a, b) => AtMost(a, b)
  const BY_PAIR: ((string, string), (string, string)) -> bool := (a, b) => PairAtMost(a, b)

  lemma TextOrderFacts()
    ensures Preorder(BY_TEXT) && Antisymmetric(BY_TEXT)
  {
    forall x, y
      ensures BY_TEXT(x, y) || BY_TEXT(y, x)
    {
      AtMostTotal(x, y);
    }
    forall x, y | BY_TEXT(x, y) && BY_TEXT(y, x)
      ensures x == y
    {
      AtMostAntisymmetric(x, y);
    }
    forall x, y, z | BY_TEXT(x, y) && BY_TEXT(y, z)
      ensures BY_TEXT(x, z)
    {
      AtMostTransitive(x, y, z);
    }
  }

  lemma PairOrderFacts()
    ensures Preorder(BY_PAIR) && Antisymmetric(BY_PAIR)
  {
    forall x, y
      ensures BY_PAIR(x, y) || BY_PAIR(y, x)
    {
      PairAtMostTotal(x, y);
    }
    forall x, y | BY_PAIR(x, y) && BY_PAIR(y, x)
      ensures x == y
    {
      PairAtMostAntisymmetric(x, y);
    }
    forall x, y, z | BY_PAIR(x, y) && BY_PAIR(y, z)
      ensures BY_PAIR(x, z)
    {
      PairAtMostTransitive(x, y, z);
    }
  }
}

/** Python's comprehension with a condition, and how it goes together with sorting. */
module Filtering {
  import opened Sequences
  import opened Sorting

  function Filter<T>(p: T -> bool, s: seq<T>): seq<T> {
    if s == [] then [] else (if p(s[0]) then [s[0]] else []) + Filter(p, s[1..])
  }

  lemma FilterCons<T>(p: T -> bool, x: T, s: seq<T>)
    ensures Filter(p, [x] + s) == if p(x) then [x] + Filter(p, s) else Filter(p, s)
  {
    assert ([x] + s)[1..] == s;
    assert [] + Filter(p, s) == Filter(p, s);
  }

  lemma {:induction false} FilterAll<T>(p: T -> bool, s: seq<T>)
    ensures (forall i :: 0 <= i < |s| ==> p(s[i])) ==> Filter(p, s) == s
    ensures (forall i :: 0 <= i < |s| ==> !p(s[i])) ==> Filter(p, s) == []
  {
    if s != [] {
      FilterAll(p, s[1..]);
      assert s == [s[0]] + s[1..];
    }
  }

  lemma {:induction false} FilterKeeps<T>(p: T -> bool, s: seq<T>)
    ensures forall x :: x in Filter(p, s) ==> x in s
  {
    if s != [] {
      FilterKeeps(p, s[1..]);
    }
  }

  lemma {:induction false} FilterSplit<T>(p: T -> bool, a: seq<T>, b: seq<T>)
    ensures Filter(p, a + b) == Filter(p, a) + Filter(p, b)
  {
    hide Filter;
    if a == [] {
      FilterAll(p, a);
      assert a + b == b && [] + Filter(p, b) == Filter(p, b);
    } else {
      var x, rest := a[0], a[1..];
      FilterSplit(p, rest, b);
      FilterCons(p, x, rest + b);
      FilterCons(p, x, rest);
      HeadAndTail(a);
      Regroup([x], rest, b);
      Regroup([x], Filter(p, rest), Filter(p, b));
    }
  }

  /** The first `k` elements fail the test and the others pass it. */
  lemma FilterAtCut<T>(p: T -> bool, s: seq<T>, k: nat)
    requires k <= |s|
    requires forall i :: 0 <= i < k ==> !p(s[i])
    requires forall i :: k <= i < |s| ==> p(s[i])
    ensures Filter(p, s) == s[k..]
  {
    hide Filter;
    assert s == s[..k] + s[k..];
    FilterSplit(p, s[..k], s[k..]);
    FilterAll(p, s[..k]);
    FilterAll(p, s[k..]);
  }

  /** The first `k` elements pass the test and the others fail it. */
  lemma FilterBeforeCut<T>(p: T -> bool, s: seq<T>, k: nat)
    requires k <= |s|
    requires forall i :: 0 <= i < k ==> p(s[i])
    requires forall i :: k <= i < |s| ==> !p(s[i])
    ensures Filter(p, s) == s[..k]
  {
    hide Filter;
    assert s == s[..k] + s[k..];
    FilterSplit(p, s[..k], s[k..]);
    FilterAll(p, s[..k]);
    FilterAll(p, s[k..]);
  }

  lemma InsertBehind<T>(le: (T, T) -> bool, x: T, first: T, s: seq<T>)
    requires !le(x, first)
    ensures Insert(le, x, [first] + s) == [first] + Insert(le, x, s)
  {
    assert ([first] + s)[1..] == s;
  }

  lemma SortCons<T>(le: (T, T) -> bool, x: T, s: seq<T>)
    ensures SortBy(le, [x] + s) == Insert(le, x, SortBy(le, s))
  {
    assert ([x] + s)[1..] == s;
  }

  lemma InsertBelow<T>(le: (T, T) -> bool, x: T, s: seq<T>)
    requires s != [] ==> le(x, s[0])
    ensures Insert(le, x, s) == [x] + s
  {
  }

  lemma {:induction false} FilteredAbove<T(!new)>(le: (T, T) -> bool, p: T -> bool, x: T, s: seq<T>)
    requires Preorder(le) && Sorted(le, s) && (s != [] ==> le(x, s[0]))
    ensures Filter(p, s) != [] ==> le(x, Filter(p, s)[0])
  {
    if s != [] && !p(s[0]) {
      assert |s| > 1 ==> le(s[0], s[1]);
      FilteredAbove(le, p, x, s[1..]);
    }
  }

  lemma {:induction false} FilterOfInsert<T(!new)>(le: (T, T) -> bool, p: T -> bool, x: T, s: seq<T>)
    requires Preorder(le) && Sorted(le, s)
    ensures Filter(p, Insert(le, x, s)) == if p(x) then Insert(le, x, Filter(p, s)) else Filter(p, s)
  {
    if s == [] {
    } else if le(x, s[0]) {
      assert ([x] + s)[1..] == s;
      InsertBelow(le, x, Filter(p, s)) by {
        FilteredAbove(le, p, x, s);
      }
    } else {
      var rest := s[1..];
      FilterOfInsert(le, p, x, rest);
      FilterCons(p, s[0], Insert(le, x, rest));
      FilterCons(p, s[0], rest);
      assert s == [s[0]] + rest;
      InsertBehind(le, x, s[0], Filter(p, rest));
    }
  }

  /** Filtering commutes with stable sorting. */
  lemma {:induction false} FilterOfSort<T(!new)>(le: (T, T) -> bool, p: T -> bool, s: seq<T>)
    requires Preorder(le)
    ensures SortBy(le, Filter(p, s)) == Filter(p, SortBy(le, s))
  {
    if s != [] {
      FilterOfSort(le, p, s[1..]);
      SortSorted(le, s[1..]);
      FilterOfInsert(le, p, s[0], SortBy(le, s[1..]));
      SortCons(le, s[0], Filter(p, s[1..]));
      FilterCons(p, s[0], s[1..]);
      assert s == [s[0]] + s[1..];
    }
  }

  /** The sort is stable: elements that are equal in the order stay as they were. */
  lemma SortStable<T(!new)>(le: (T, T) -> bool, p: T -> bool, s: seq<T>)
    requires Preorder(le) && forall x, y :: p(x) && p(y) ==> le(x, y)
    ensures Filter(p, SortBy(le, s)) == Filter(p, s)
  {
    FilterOfSort(le, p, s);
    FilterPasses(p, s);
    SortOfSorted(le, Filter(p, s));
  }

  lemma {:induction false} FilterPasses<T>(p: T -> bool, s: seq<T>)
    ensures forall i :: 0 <= i < |Filter(p, s)| ==> p(Filter(p, s)[i])
  {
    if s != [] {
      FilterPasses(p, s[1..]);
    }
  }

  /** A filter keeps every occurrence of the elements that pass, and no other. */
  lemma {:induction false} FilterCounts<T>(p: T -> bool, s: seq<T>, x: T)
    ensures multiset(Filter(p, s))[x] == if p(x) then multiset(s)[x] else 0
  {
    if s != [] {
      FilterCounts(p, s[1..], x);
      HeadAndTail(s);
    }
  }

  /** Filtering twice is filtering by the stronger test. */
  lemma {:induction false} FilterOfFilter<T(!new)>(p: T -> bool, q: T -> bool, s: seq<T>)
    requires forall x :: p(x) ==> q(x)
    ensures Filter(p, Filter(q, s)) == Filter(p, s)
  {
    if s != [] {
      FilterOfFilter(p, q, s[1..]);
      FilterCons(p, s[0], Filter(q, s[1..]));
      assert [] + Filter(q, s[1..]) == Filter(q, s[1..]);
      assert [] + Filter(p, s[1..]) == Filter(p, s[1..]);
    }
  }
}
