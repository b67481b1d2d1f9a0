/** The in-process queue: items, their transitions, and buckets as a stable priority order. */
module RuntimeItems {
  import opened Wrappers
  import opened Sorting

  datatype Status = Pending | Running | Completed | Failed | Cancelled

  datatype Priority = Highest | High | Normal | Low | Lowest {
    function Value(): int {
      match this
      case Highest => 0
      case High => 10
      case Normal => 50
      case Low => 90
      case Lowest => 100
    }
  }

  datatype WorkItem = WorkItem(
    id: string, cycleId: string, priority: Priority, status: Status, trigger: string, enqueuedAt: string,
    startedAt: Option<string>, completedAt: Option<string>, resultSummary: Option<string>, error: Option<string>)

  datatype QueueError = QueueFull | QueueEmpty | InvalidQueueTransition | NotPending

  function Allowed(status: Status): set<Status> {
    match status
    case Pending => {Running, Cancelled}
    case Running => {Completed, Failed}
    case _ => {}
  }

  function Transition(item: WorkItem, target: Status): Result<WorkItem, QueueError> {
    if target in Allowed(item.status) then Ok(item.(status := target)) else Err(InvalidQueueTransition)
  }

  /** An item as `dequeue` returns it. */
  function Started(item: WorkItem, now: string): WorkItem {
    item.(status := Running, startedAt := if item.startedAt.None? then Some(now) else item.startedAt)
  }

  /** Priority classes from the lowest number up. */
  const ORDER := [Highest, High, Normal, Low, Lowest]

  const BY_PRIORITY: (WorkItem, WorkItem) -> bool :=
    (a: WorkItem, b: WorkItem) => a.priority.Value() <= b.priority.Value()

  /** The items of one priority class, in order of arrival. */
  function Only(s: seq<WorkItem>, p: Priority): seq<WorkItem> {
    if s == [] then [] else (if s[0].priority == p then [s[0]] else []) + Only(s[1..], p)
  }

  /** The classes of an order, one after the other. */
  function FlattenBy(s: seq<WorkItem>, order: seq<Priority>): seq<WorkItem> {
    if order == [] then [] else Only(s, order[0]) + FlattenBy(s, order[1..])
  }

  /** All classes, one after the other. */
  function Flatten(s: seq<WorkItem>): seq<WorkItem> {
    FlattenBy(s, ORDER)
  }

  predicate Ascending(order: seq<Priority>) {
    forall i, j :: 0 <= i < j < |order| ==> order[i].Value() < order[j].Value()
  }

  lemma OnlyCons(x: WorkItem, s: seq<WorkItem>, p: Priority)
    ensures Only([x] + s, p) == if x.priority == p then [x] + Only(s, p) else Only(s, p)
  {
    assert ([x] + s)[1..] == s;
    assert [] + Only(s, p) == Only(s, p);
  }

  lemma {:induction false} OnlyOf(s: seq<WorkItem>, p: Priority)
    ensures forall i :: 0 <= i < |Only(s, p)| ==> Only(s, p)[i].priority == p
    ensures forall i :: 0 <= i < |Only(s, p)| ==> Only(s, p)[i] in s
  {
    if s != [] {
      OnlyOf(s[1..], p);
    }
  }

  lemma {:induction false} InsertBehindAll(x: WorkItem, a: seq<WorkItem>, b: seq<WorkItem>)
    requires forall i :: 0 <= i < |a| ==> !BY_PRIORITY(x, a[i])
    ensures Insert(BY_PRIORITY, x, a + b) == a + Insert(BY_PRIORITY, x, b)
  {
    if a == [] {
      assert a + b == b && a + Insert(BY_PRIORITY, x, b) == Insert(BY_PRIORITY, x, b);
    } else {
      InsertBehindAll(x, a[1..], b);
      assert (a + b)[1..] == a[1..] + b;
      assert [a[0]] + (a[1..] + Insert(BY_PRIORITY, x, b)) == a + Insert(BY_PRIORITY, x, b);
    }
  }

  lemma InsertInFront(x: WorkItem, s: seq<WorkItem>)
    requires s == [] || BY_PRIORITY(x, s[0])
    ensures Insert(BY_PRIORITY, x, s) == [x] + s
  {
  }

  lemma {:induction false} FlattenOthers(x: WorkItem, s: seq<WorkItem>, order: seq<Priority>)
    requires x.priority !in order
    ensures FlattenBy([x] + s, order) == FlattenBy(s, order)
  {
    if order != [] {
      OnlyCons(x, s, order[0]);
      FlattenOthers(x, s, order[1..]);
    }
  }

  lemma {:induction false} FlattenStartsAbove(s: seq<WorkItem>, order: seq<Priority>, value: int)
    requires forall i :: 0 <= i < |order| ==> value <= order[i].Value()
    ensures FlattenBy(s, order) != [] ==> value <= FlattenBy(s, order)[0].priority.Value()
  {
    if order != [] {
      OnlyOf(s, order[0]);
      FlattenStartsAbove(s, order[1..], value);
    }
  }

  /** An arrival joins the end of its class. */
  lemma {:induction false} FlattenInserts(x: WorkItem, s: seq<WorkItem>, order: seq<Priority>)
    requires Ascending(order) && x.priority in order
    ensures FlattenBy([x] + s, order) == Insert(BY_PRIORITY, x, FlattenBy(s, order))
  {
    hide FlattenBy, Only, Insert;
    var p, rest := order[0], order[1..];
    FlattenStep(s, order);
    FlattenStep([x] + s, order);
    OnlyCons(x, s, p);
    OnlyOf(s, p);
    if x.priority == p {
      FlattenOthers(x, s, rest);
      FlattenStartsAbove(s, order, p.Value());
      InsertInFront(x, FlattenBy(s, order));
      assert [x] + (Only(s, p) + FlattenBy(s, rest)) == [x] + Only(s, p) + FlattenBy(s, rest);
    } else {
      FlattenInserts(x, s, rest);
      InsertBehindAll(x, Only(s, p), FlattenBy(s, rest));
    }
  }

  lemma FlattenStep(s: seq<WorkItem>, order: seq<Priority>)
    requires order != []
    ensures FlattenBy(s, order) == Only(s, order[0]) + FlattenBy(s, order[1..])
  {
  }

  lemma {:induction false} FlattenNothing(order: seq<Priority>)
    ensures FlattenBy([], order) == []
  {
    if order != [] {
      FlattenNothing(order[1..]);
    }
  }

  /** The classes put together are the stable sort of the arrivals by priority. */
  lemma {:induction false} FlattenSorts(s: seq<WorkItem>)
    ensures Flatten(s) == SortBy(BY_PRIORITY, s)
  {
    if s == [] {
      FlattenNothing(ORDER);
    } else {
      FlattenSorts(s[1..]);
      InOrder(s[0].priority);
      FlattenInserts(s[0], s[1..], ORDER);
      assert [s[0]] + s[1..] == s;
    }
  }

  lemma InOrder(p: Priority)
    ensures p in ORDER && Ascending(ORDER)
  {
    match p
    case Highest => assert ORDER[0] == p;
    case High => assert ORDER[1] == p;
    case Normal => assert ORDER[2] == p;
    case Low => assert ORDER[3] == p;
    case Lowest => assert ORDER[4] == p;
  }

  // ---- removing one item ----

  function DropFirst(test: WorkItem -> bool, s: seq<WorkItem>): seq<WorkItem> {
    if s == [] then [] else if test(s[0]) then s[1..] else [s[0]] + DropFirst(test, s[1..])
  }

  function OfPriority(p: Priority): WorkItem -> bool {
    (item: WorkItem) => item.priority == p
  }

  /** What `cancel` looks for: the item's id in the item's class. */
  function SameTicket(item: WorkItem): WorkItem -> bool {
    (other: WorkItem) => other.priority == item.priority && other.id == item.id
  }

  predicate NoMatch(test: WorkItem -> bool, s: seq<WorkItem>) {
    forall i :: 0 <= i < |s| ==> !test(s[i])
  }

  lemma DropCons(test: WorkItem -> bool, x: WorkItem, s: seq<WorkItem>)
    ensures DropFirst(test, [x] + s) == if test(x) then s else [x] + DropFirst(test, s)
  {
    assert ([x] + s)[1..] == s;
  }

  /** Removing from the arrivals removes from one class and leaves the others. */
  lemma {:induction false} OnlyOfDrop(test: WorkItem -> bool, p: Priority, q: Priority, s: seq<WorkItem>)
    requires forall x :: test(x) ==> x.priority == p
    ensures Only(DropFirst(test, s), q) == if q == p then DropFirst(test, Only(s, q)) else Only(s, q)
  {
    if s != [] {
      var rest := s[1..];
      OnlyOfDrop(test, p, q, rest);
      assert s == [s[0]] + rest;
      OnlyCons(s[0], rest, q);
      OnlyCons(s[0], DropFirst(test, rest), q);
      DropCons(test, s[0], Only(rest, q));
    }
  }

  lemma {:induction false} DropBehind(test: WorkItem -> bool, a: seq<WorkItem>, b: seq<WorkItem>)
    requires NoMatch(test, a)
    ensures DropFirst(test, a + b) == a + DropFirst(test, b)
  {
    if a == [] {
      assert a + b == b && a + DropFirst(test, b) == DropFirst(test, b);
    } else {
      DropBehind(test, a[1..], b);
      DropCons(test, a[0], a[1..] + b);
      assert [a[0]] + (a[1..] + b) == a + b;
      assert [a[0]] + (a[1..] + DropFirst(test, b)) == a + DropFirst(test, b);
    }
  }

  lemma {:induction false} DropWithin(test: WorkItem -> bool, a: seq<WorkItem>, b: seq<WorkItem>)
    requires NoMatch(test, b)
    ensures DropFirst(test, a + b) == DropFirst(test, a) + b
  {
    if a == [] {
      DropBehind(test, b, []);
      assert a + b == b && b + [] == b;
    } else {
      hide DropFirst;
      var x, rest := a[0], a[1..];
      DropWithin(test, rest, b);
      DropCons(test, x, rest + b);
      DropCons(test, x, rest);
      assert a == [x] + rest && a + b == [x] + (rest + b);
      assert [x] + (DropFirst(test, rest) + b) == [x] + DropFirst(test, rest) + b;
    }
  }

  lemma {:induction false} FlattenDropOthers(test: WorkItem -> bool, p: Priority, s: seq<WorkItem>, order: seq<Priority>)
    requires (forall x :: test(x) ==> x.priority == p) && p !in order
    ensures FlattenBy(DropFirst(test, s), order) == FlattenBy(s, order)
    ensures NoMatch(test, FlattenBy(s, order))
  {
    if order != [] {
      OnlyOfDrop(test, p, order[0], s);
      OnlyOf(s, order[0]);
      FlattenDropOthers(test, p, s, order[1..]);
    }
  }

  /** Removing from the arrivals is removing from the flattened classes. */
  lemma {:induction false} FlattenDrops(test: WorkItem -> bool, p: Priority, s: seq<WorkItem>, order: seq<Priority>)
    requires (forall x :: test(x) ==> x.priority == p) && Ascending(order)
    ensures FlattenBy(DropFirst(test, s), order) == DropFirst(test, FlattenBy(s, order)) || p !in order
    ensures p !in order ==> FlattenBy(DropFirst(test, s), order) == FlattenBy(s, order)
  {
    if p !in order {
      FlattenDropOthers(test, p, s, order);
    } else {
      var q, rest := order[0], order[1..];
      OnlyOfDrop(test, p, q, s);
      OnlyOf(s, q);
      if q == p {
        assert p !in rest;
        FlattenDropOthers(test, p, s, rest);
        DropWithin(test, Only(s, q), FlattenBy(s, rest));
      } else {
        FlattenDrops(test, p, s, rest);
        DropBehind(test, Only(s, q), FlattenBy(s, rest));
      }
    }
  }

  lemma FlattenOfDrop(test: WorkItem -> bool, p: Priority, s: seq<WorkItem>)
    requires forall x :: test(x) ==> x.priority == p
    ensures Flatten(DropFirst(test, s)) == DropFirst(test, Flatten(s))
  {
    InOrder(p);
    FlattenDrops(test, p, s, ORDER);
  }

  lemma {:induction false} DropLength(test: WorkItem -> bool, s: seq<WorkItem>)
    ensures |DropFirst(test, s)| == |s| - (if NoMatch(test, s) then 0 else 1)
    ensures forall x :: x in DropFirst(test, s) ==> x in s
  {
    if s != [] {
      DropLength(test, s[1..]);
      assert s == [s[0]] + s[1..];
      if !test(s[0]) && NoMatch(test, s[1..]) {
        assert NoMatch(test, s);
      }
      if NoMatch(test, s) {
        assert forall i :: 0 <= i < |s[1..]| ==> s[1..][i] == s[i + 1];
      }
    }
  }

  /** With unique ids, the item that `cancel` removes is the one at its place. */
  lemma {:induction false} DropUnique(s: seq<WorkItem>, i: nat, item: WorkItem)
    requires i < |s| && SameTicket(item)(s[i])
    requires forall j, k :: 0 <= j < k < |s| ==> s[j].id != s[k].id
    ensures DropFirst(SameTicket(item), s) == s[..i] + s[i + 1..]
  {
    if i > 0 {
      DropUnique(s[1..], i - 1, item);
      assert !SameTicket(item)(s[0]);
      assert s[..i] == [s[0]] + s[1..][..i - 1] && s[1..][i..] == s[i + 1..];
    }
  }

  /** The first non-empty class holds the head. */
  lemma {:induction false} FlattenHead(s: seq<WorkItem>, order: seq<Priority>, i: nat)
    requires i < |order| && Only(s, order[i]) != []
    requires forall j :: 0 <= j < i ==> Only(s, order[j]) == []
    ensures FlattenBy(s, order) != [] && FlattenBy(s, order)[0] == Only(s, order[i])[0]
  {
    if i > 0 {
      FlattenHead(s, order[1..], i - 1);
    }
  }

  lemma {:induction false} FlattenEmpty(s: seq<WorkItem>, order: seq<Priority>)
    requires forall j :: 0 <= j < |order| ==> Only(s, order[j]) == []
    ensures FlattenBy(s, order) == []
  {
    if order != [] {
      FlattenEmpty(s, order[1..]);
    }
  }

  lemma {:induction false} DropAt(test: WorkItem -> bool, s: seq<WorkItem>, i: nat)
    requires i < |s| && test(s[i]) && forall j :: 0 <= j < i ==> !test(s[j])
    ensures DropFirst(test, s) == s[..i] + s[i + 1..]
  {
    if i > 0 {
      DropAt(test, s[1..], i - 1);
      assert s[..i] == [s[0]] + s[1..][..i - 1] && s[1..][i..] == s[i + 1..];
    }
  }

  lemma {:induction false} DropNoMatch(test: WorkItem -> bool, s: seq<WorkItem>)
    requires NoMatch(test, s)
    ensures DropFirst(test, s) == s
  {
    DropBehind(test, s, []);
    assert s + [] == s;
  }

  /** An arrival goes behind everything of its class and above. */
  lemma {:induction false} OnlyOfAppend(s: seq<WorkItem>, x: WorkItem, p: Priority)
    ensures Only(s + [x], p) == Only(s, p) + if x.priority == p then [x] else []
  {
    if s == [] {
      assert s + [x] == [x] + [];
      OnlyCons(x, [], p);
    } else {
      OnlyOfAppend(s[1..], x, p);
      assert s + [x] == [s[0]] + (s[1..] + [x]) && s == [s[0]] + s[1..];
      OnlyCons(s[0], s[1..] + [x], p);
      OnlyCons(s[0], s[1..], p);
    }
  }

  lemma {:induction false} MatchInClass(test: WorkItem -> bool, p: Priority, s: seq<WorkItem>)
    requires forall x :: test(x) ==> x.priority == p
    ensures NoMatch(test, s) <==> NoMatch(test, Only(s, p))
  {
    if s != [] {
      var rest := s[1..];
      MatchInClass(test, p, rest);
      assert s == [s[0]] + rest;
      OnlyCons(s[0], rest, p);
      assert NoMatch(test, s) <==> !test(s[0]) && NoMatch(test, rest) by {
        NoMatchCons(test, s[0], rest);
      }
      NoMatchCons(test, s[0], Only(rest, p));
    }
  }

  lemma NoMatchCons(test: WorkItem -> bool, x: WorkItem, s: seq<WorkItem>)
    ensures NoMatch(test, [x] + s) <==> !test(x) && NoMatch(test, s)
  {
    var all := [x] + s;
    assert all[0] == x && forall i :: 0 <= i < |s| ==> s[i] == all[i + 1];
  }

  lemma NoMatchMembers(test: WorkItem -> bool, s: seq<WorkItem>)
    ensures NoMatch(test, s) <==> !exists x :: x in s && test(x)
  {
  }

  /** Within an item's class, only the id decides. */
  lemma ClassTickets(item: WorkItem, s: seq<WorkItem>)
    ensures var items := Only(s, item.priority);
      forall i :: 0 <= i < |items| ==> (SameTicket(item)(items[i]) <==> items[i].id == item.id)
  {
    OnlyOf(s, item.priority);
  }

  function ClassIn(buckets: map<Priority, seq<WorkItem>>, p: Priority): seq<WorkItem> {
    if p in buckets then buckets[p] else []
  }

  /** The buckets hold the arrivals, class by class. */
  ghost predicate Classes(buckets: map<Priority, seq<WorkItem>>, arrivals: seq<WorkItem>) {
    forall p :: ClassIn(buckets, p) == Only(arrivals, p)
  }

  lemma AppendToClass(buckets: map<Priority, seq<WorkItem>>, arrivals: seq<WorkItem>, item: WorkItem)
    requires Classes(buckets, arrivals)
    ensures Classes(buckets[item.priority := ClassIn(buckets, item.priority) + [item]], arrivals + [item])
  {
    hide Only;
    var after := buckets[item.priority := ClassIn(buckets, item.priority) + [item]];
    forall p
      ensures ClassIn(after, p) == Only(arrivals + [item], p)
    {
      OnlyOfAppend(arrivals, item, p);
      assert ClassIn(buckets, p) + [] == ClassIn(buckets, p);
    }
  }

  /** Removing the first match of a class from its bucket removes it from the arrivals and from the order. */
  lemma RemoveFromClass(buckets: map<Priority, seq<WorkItem>>, arrivals: seq<WorkItem>, test: WorkItem -> bool,
                        p: Priority)
    requires Classes(buckets, arrivals) && forall x :: test(x) ==> x.priority == p
    ensures Classes(buckets[p := DropFirst(test, ClassIn(buckets, p))], DropFirst(test, arrivals))
    ensures p !in buckets ==> Classes(buckets, DropFirst(test, arrivals))
    ensures SortBy(BY_PRIORITY, DropFirst(test, arrivals)) == DropFirst(test, SortBy(BY_PRIORITY, arrivals))
    ensures |DropFirst(test, arrivals)| == |arrivals| - (if NoMatch(test, arrivals) then 0 else 1)
    ensures forall item :: item in DropFirst(test, arrivals) ==> item in arrivals
    ensures NoMatch(test, arrivals) <==> NoMatch(test, ClassIn(buckets, p))
  {
    hide Only, SortBy;
    var rest := DropFirst(test, arrivals);
    var after := buckets[p := DropFirst(test, ClassIn(buckets, p))];
    forall q
      ensures ClassIn(after, q) == Only(rest, q)
      ensures p !in buckets ==> ClassIn(buckets, q) == Only(rest, q)
    {
      OnlyOfDrop(test, p, q, arrivals);
    }
    FlattenOfDrop(test, p, arrivals);
    FlattenSorts(arrivals);
    FlattenSorts(rest);
    DropLength(test, arrivals);
    MatchInClass(test, p, arrivals);
  }

  /** The head of the first non-empty bucket is the head of the order, and of its class. */
  lemma HeadOfClasses(buckets: map<Priority, seq<WorkItem>>, arrivals: seq<WorkItem>, i: nat)
    requires Classes(buckets, arrivals) && i < |ORDER| && ClassIn(buckets, ORDER[i]) != []
    requires forall j :: 0 <= j < i ==> ClassIn(buckets, ORDER[j]) == []
    ensures SortBy(BY_PRIORITY, arrivals) != []
    ensures SortBy(BY_PRIORITY, arrivals)[0] == ClassIn(buckets, ORDER[i])[0]
    ensures ClassIn(buckets, ORDER[i])[0].priority == ORDER[i] && ClassIn(buckets, ORDER[i])[0] in arrivals
  {
    FlattenSorts(arrivals);
    FlattenHead(arrivals, ORDER, i);
    OnlyOf(arrivals, ORDER[i]);
  }

  lemma EmptyClasses(buckets: map<Priority, seq<WorkItem>>, arrivals: seq<WorkItem>)
    requires Classes(buckets, arrivals) && forall j :: 0 <= j < |ORDER| ==> ClassIn(buckets, ORDER[j]) == []
    ensures SortBy(BY_PRIORITY, arrivals) == []
  {
    FlattenSorts(arrivals);
    FlattenEmpty(arrivals, ORDER);
  }

  function CountBy(s: seq<WorkItem>, order: seq<Priority>): nat {
    if order == [] then 0 else |Only(s, order[0])| + CountBy(s, order[1..])
  }

  lemma {:induction false} FlattenCount(s: seq<WorkItem>, order: seq<Priority>)
    ensures |FlattenBy(s, order)| == CountBy(s, order)
  {
    if order != [] {
      FlattenCount(s, order[1..]);
    }
  }

  lemma CountStep(s: seq<WorkItem>, i: nat)
    requires i < |ORDER|
    ensures CountBy(s, ORDER[i..]) == |Only(s, ORDER[i])| + CountBy(s, ORDER[i + 1..])
  {
    assert ORDER[i..][1..] == ORDER[i + 1..];
  }

  lemma CountNothing(s: seq<WorkItem>)
    ensures CountBy(s, ORDER[|ORDER|..]) == 0
  {
  }

  /** Every arrival is in exactly one class. */
  lemma ClassesCount(s: seq<WorkItem>)
    ensures CountBy(s, ORDER) == |s|
  {
    FlattenCount(s, ORDER);
    FlattenSorts(s);
    SortKeepsElements(BY_PRIORITY, s);
  }
}

/** The bounded priority queue. */
module RuntimeQueue {
  import opened Wrappers
  import opened Sorting
  import opened RuntimeItems

  predicate Within(size: int, maximum: Option<int>) {
    maximum.Some? ==> size <= maximum.value
  }

  class WorkQueue {
    const maxSize: Option<int>
    var buckets: map<Priority, seq<WorkItem>>
    var completed: seq<WorkItem>
    var failed: seq<WorkItem>
    var cancelled: seq<WorkItem>
    var sequence: int
    /** The items still waiting, in order of arrival. */
    ghost var arrivals: seq<WorkItem>

    ghost predicate Valid()
      reads this
    {
      && (maxSize.Some? ==> maxSize.value > 0) && Within(|arrivals|, maxSize)
      && Classes(buckets, arrivals)
      && (forall item :: item in arrivals ==> item.status.Pending?)
    }

    /** The order in which the waiting items will be served. */
    ghost function Waiting(): seq<WorkItem>
      reads this`arrivals
    {
      SortBy(BY_PRIORITY, arrivals)
    }

    constructor (maxSize: Option<int>)
      requires maxSize.Some? ==> maxSize.value > 0
      ensures Valid() && arrivals == [] && this.maxSize == maxSize
      ensures completed == [] && failed == [] && cancelled == []
    {
      this.maxSize := maxSize;
      buckets := map[];
      completed, failed, cancelled := [], [], [];
      sequence := 0;
      arrivals := [];
    }

    method Size() returns (n: nat)
      requires Valid()
      ensures n == |arrivals| == |Waiting()|
    {
      hide Only, SortBy, CountBy;
      n := 0;
      assert ORDER[0..] == ORDER;
      for i := 0 to |ORDER|
        invariant n + CountBy(arrivals, ORDER[i..]) == CountBy(arrivals, ORDER)
      {
        CountStep(arrivals, i);
        n := n + |ClassIn(buckets, ORDER[i])|;
      }
      CountNothing(arrivals);
      ClassesCount(arrivals);
      SortKeepsElements(BY_PRIORITY, arrivals);
    }

    method Enqueue(item: WorkItem) returns (r: Result<(), QueueError>)
      requires Valid()
      modifies this`buckets, this`sequence, this`arrivals
      ensures Valid()
      ensures r == if !item.status.Pending? then Err(NotPending)
                   else if maxSize.Some? && |old(arrivals)| >= maxSize.value then Err(QueueFull)
                   else Ok(())
      ensures arrivals == if r.Ok? then old(arrivals) + [item] else old(arrivals)
    {
      if item.status != Pending {
        return Err(NotPending);
      }
      var size := Size();
      if maxSize.Some? && size >= maxSize.value {
        return Err(QueueFull);
      }
      AppendToClass(buckets, arrivals, item);
      buckets := buckets[item.priority := ClassIn(buckets, item.priority) + [item]];
      arrivals := arrivals + [item];
      sequence := sequence + 1;
      return Ok(());
    }

    method Peek() returns (head: Option<WorkItem>)
      requires Valid()
      ensures head == if Waiting() == [] then None else Some(Waiting()[0])
    {
      for i := 0 to |ORDER|
        invariant forall j :: 0 <= j < i ==> ClassIn(buckets, ORDER[j]) == []
      {
        var p := ORDER[i];
        if p in buckets && buckets[p] != [] {
          HeadOfClasses(buckets, arrivals, i);
          return Some(buckets[p][0]);
        }
      }
      EmptyClasses(buckets, arrivals);
      return None;
    }

    method Dequeue(now: string) returns (r: Result<WorkItem, QueueError>)
      requires Valid()
      modifies this`buckets, this`arrivals
      ensures Valid()
      ensures old(Waiting()) == [] ==> r == Err(QueueEmpty) && arrivals == old(arrivals)
      ensures old(Waiting()) != [] ==>
                && r == Ok(Started(old(Waiting()[0]), now))
                && Waiting() == old(Waiting())[1..]
                && |arrivals| == |old(arrivals)| - 1
                && forall item :: item in arrivals ==> item in old(arrivals)
    {
      var size := Size();
      if size == 0 {
        return Err(QueueEmpty);
      }
      for i := 0 to |ORDER|
        invariant Valid() && arrivals == old(arrivals) && Waiting() != []
        invariant forall j :: 0 <= j < i ==> ClassIn(buckets, ORDER[j]) == []
      {
        var p := ORDER[i];
        if p in buckets && buckets[p] != [] {
          HeadOfClasses(buckets, arrivals, i);
          var item := buckets[p][0];
          RemoveFromClass(buckets, arrivals, OfPriority(p), p);
          buckets := buckets[p := buckets[p][1..]];
          arrivals := DropFirst(OfPriority(p), arrivals);
          var started := item.(status := Running);
          if started.startedAt.None? {
            started := started.(startedAt := Some(now));
          }
          return Ok(started);
        }
      }
      EmptyClasses(buckets, arrivals);
      r := Err(QueueEmpty);
    }

    method MarkCompleted(item: WorkItem, resultSummary: Option<string>) returns (r: Result<WorkItem, QueueError>)
      modifies this`completed
      ensures item.status.Running? ==>
                && r == Ok(item.(status := Completed,
                                 resultSummary := if resultSummary.Some? then resultSummary else item.resultSummary))
                && completed == old(completed) + [r.value]
      ensures !item.status.Running? ==> r == Err(InvalidQueueTransition) && completed == old(completed)
    {
      var done :- Transition(item, Completed);
      if resultSummary.Some? {
        done := done.(resultSummary := resultSummary);
      }
      completed := completed + [done];
      return Ok(done);
    }

    method MarkFailed(item: WorkItem, error: string) returns (r: Result<WorkItem, QueueError>)
      modifies this`failed
      ensures item.status.Running? ==>
                r == Ok(item.(status := Failed, error := Some(error))) && failed == old(failed) + [r.value]
      ensures !item.status.Running? ==> r == Err(InvalidQueueTransition) && failed == old(failed)
    {
      var done :- Transition(item, Failed);
      done := done.(error := Some(error));
      failed := failed + [done];
      return Ok(done);
    }

    /**
     * Log the item as cancelled and take it out of its class, if it is there. The log entry is
     * made even for an item that is not queued: only a queued one is moved.
     */
    method Cancel(item: WorkItem) returns (r: Result<WorkItem, QueueError>)
      requires Valid()
      modifies this`buckets, this`cancelled, this`arrivals
      ensures Valid()
      ensures !item.status.Pending? ==>
                r == Err(InvalidQueueTransition) && arrivals == old(arrivals) && cancelled == old(cancelled)
      ensures item.status.Pending? ==>
                && r == Ok(item.(status := Cancelled)) && cancelled == old(cancelled) + [r.value]
                && Waiting() == DropFirst(SameTicket(item), old(Waiting()))
                && arrivals == DropFirst(SameTicket(item), old(arrivals))
                && (|arrivals| + |cancelled| == |old(arrivals)| + |old(cancelled)|
                    <==> exists queued :: queued in old(arrivals) && SameTicket(item)(queued))
    {
      var done :- Transition(item, Cancelled);
      cancelled := cancelled + [done];
      NoMatchMembers(SameTicket(item), arrivals);
      RemoveTicket(item);
      return Ok(done);
    }

    /** Take the item with this id out of its class, if it is there. */
    method RemoveTicket(item: WorkItem)
      requires Valid()
      modifies this`buckets, this`arrivals
      ensures Valid()
      ensures Waiting() == DropFirst(SameTicket(item), old(Waiting()))
      ensures arrivals == DropFirst(SameTicket(item), old(arrivals))
      ensures |arrivals| == |old(arrivals)| - (if NoMatch(SameTicket(item), old(arrivals)) then 0 else 1)
    {
      hide Only, SortBy;
      var test := SameTicket(item);
      RemoveFromClass(buckets, arrivals, test, item.priority);
      ClassTickets(item, arrivals);
      if item.priority in buckets {
        var bucket := buckets[item.priority];
        assert bucket == Only(arrivals, item.priority);
        var i := 0;
        while i < |bucket| && bucket[i].id != item.id
          invariant 0 <= i <= |bucket|
          invariant forall j :: 0 <= j < i ==> bucket[j].id != item.id
        {
          i := i + 1;
        }
        if i < |bucket| {
          DropAt(test, bucket, i);
          buckets := buckets[item.priority := bucket[..i] + bucket[i + 1..]];
        } else {
          DropNoMatch(test, bucket);
          assert buckets[item.priority := bucket] == buckets;
        }
      }
      arrivals := DropFirst(test, arrivals);
    }

    method Clear()
      requires Valid()
      modifies this
      ensures Valid() && arrivals == [] && completed == [] && failed == [] && cancelled == []
    {
      buckets := map[];
      completed, failed, cancelled := [], [], [];
      sequence := 0;
      arrivals := [];
    }
  }
}

/** The dispatcher that serves the queue. */
module CycleDispatch {
  import opened Wrappers
  import opened Sorting
  import opened RuntimeItems
  import opened RuntimeQueue

  /** A cycle: its summary, or the text of the exception that ended it. */
  type Executor = WorkItem -> Result<string, string>

  function Outcome(run: Executor, item: WorkItem): WorkItem {
    match run(item)
    case Ok(summary) => item.(status := Completed, resultSummary := Some(summary))
    case Err(error) => item.(status := Failed, error := Some(error))
  }

  /** The outcomes of some items, served in order; cycle `i` starts at `clock(i)`. */
  function Outcomes(run: Executor, items: seq<WorkItem>, clock: nat -> string): seq<WorkItem> {
    seq(|items|, i requires 0 <= i < |items| => Outcome(run, Started(items[i], clock(i))))
  }

  function WithStatus(items: seq<WorkItem>, status: Status): seq<WorkItem> {
    if items == [] then []
    else
      var last := items[|items| - 1];
      WithStatus(items[..|items| - 1], status) + if last.status == status then [last] else []
  }

  lemma OutcomesStep(run: Executor, items: seq<WorkItem>, clock: nat -> string, n: nat)
    requires n < |items|
    ensures Outcomes(run, items[..n + 1], clock)
         == Outcomes(run, items[..n], clock) + [Outcome(run, Started(items[n], clock(n)))]
  {
  }

  lemma WithStatusStep(items: seq<WorkItem>, x: WorkItem, status: Status)
    ensures WithStatus(items + [x], status) == WithStatus(items, status) + if x.status == status then [x] else []
  {
    assert (items + [x])[..|items|] == items;
  }

  lemma {:induction false} StatusPartition(items: seq<WorkItem>)
    requires forall i :: 0 <= i < |items| ==> items[i].status.Completed? || items[i].status.Failed?
    ensures multiset(items) == multiset(WithStatus(items, Completed)) + multiset(WithStatus(items, Failed))
    ensures |WithStatus(items, Completed)| + |WithStatus(items, Failed)| == |items|
    ensures forall x :: x in WithStatus(items, Completed) ==> x.status.Completed?
    ensures forall x :: x in WithStatus(items, Failed) ==> x.status.Failed?
  {
    hide WithStatus;
    if items == [] {
      NoStatus();
    } else {
      var front, x := items[..|items| - 1], items[|items| - 1];
      StatusPartition(front);
      WithStatusStep(front, x, Completed);
      WithStatusStep(front, x, Failed);
      assert items == front + [x];
    }
  }

  lemma NoStatus()
    ensures WithStatus([], Completed) == [] && WithStatus([], Failed) == []
  {
  }

  /** Every served item ends in exactly one of the two logs. */
  lemma LogsPartition(run: Executor, items: seq<WorkItem>, clock: nat -> string)
    ensures var all := Outcomes(run, items, clock);
      && multiset(all) == multiset(WithStatus(all, Completed)) + multiset(WithStatus(all, Failed))
      && |WithStatus(all, Completed)| + |WithStatus(all, Failed)| == |items|
      && (forall x :: x in WithStatus(all, Completed) ==> x.status.Completed?)
      && (forall x :: x in WithStatus(all, Failed) ==> x.status.Failed?)
  {
    var all := Outcomes(run, items, clock);
    forall i | 0 <= i < |all|
      ensures all[i].status.Completed? || all[i].status.Failed?
    {
      assert all[i] == Outcome(run, Started(items[i], clock(i)));
    }
    StatusPartition(all);
  }

  /** What serving the first `n` items adds to the log of a status. */
  function Log(run: Executor, items: seq<WorkItem>, clock: nat -> string, n: nat, status: Status): seq<WorkItem>
    requires n <= |items|
  {
    WithStatus(Outcomes(run, items[..n], clock), status)
  }

  lemma LogStep(run: Executor, items: seq<WorkItem>, clock: nat -> string, n: nat, status: Status)
    requires n < |items|
    ensures var x := Outcome(run, Started(items[n], clock(n)));
      Log(run, items, clock, n + 1, status) == Log(run, items, clock, n, status) + if x.status == status then [x] else []
  {
    OutcomesStep(run, items, clock, n);
    WithStatusStep(Outcomes(run, items[..n], clock), Outcome(run, Started(items[n], clock(n))), status);
  }

  lemma NothingLogged(run: Executor, items: seq<WorkItem>, clock: nat -> string)
    ensures Log(run, items, clock, 0, Completed) == [] && Log(run, items, clock, 0, Failed) == []
  {
  }

  // ---- the logs, run by run ----

  /** The item while its cycle runs; an earlier start is kept. */
  function Underway(item: WorkItem, now: string): WorkItem {
    item.(status := Running, startedAt := Some(if item.startedAt.Some? then item.startedAt.value else now))
  }

  /** How many of the first `n` cycles ended without an exception. */
  function Successes(run: Executor, items: seq<WorkItem>, clock: nat -> string, n: nat): nat
    requires n <= |items|
  {
    if n == 0 then 0
    else Successes(run, items, clock, n - 1) + if run(Underway(items[n - 1], clock(n - 1))).Ok? then 1 else 0
  }

  /** Cycle `i` has its item at the next place of the log that its run calls for. */
  predicate CycleLogged(run: Executor, items: seq<WorkItem>, clock: nat -> string, i: nat, completed: seq<WorkItem>,
                        failed: seq<WorkItem>)
    requires i < |items|
  {
    var (item, before) := (Underway(items[i], clock(i)), Successes(run, items, clock, i));
    match run(item)
    case Ok(summary) =>
      before < |completed| && completed[before] == item.(status := Completed, resultSummary := Some(summary))
    case Err(error) =>
      before <= i && i - before < |failed| && failed[i - before] == item.(status := Failed, error := Some(error))
  }

  /** The logs of the first `n` cycles: the successes and the failures, each in the order of service. */
  predicate CyclesLogged(run: Executor, items: seq<WorkItem>, clock: nat -> string, n: nat, completed: seq<WorkItem>,
                         failed: seq<WorkItem>)
    requires n <= |items|
  {
    && |completed| == Successes(run, items, clock, n) && |completed| + |failed| == n
    && forall i: nat :: i < n ==> CycleLogged(run, items, clock, i, completed, failed)
  }

  lemma OutcomeTells(run: Executor, item: WorkItem, now: string)
    ensures Outcome(run, Started(item, now))
         == match run(Underway(item, now))
            case Ok(summary) => Underway(item, now).(status := Completed, resultSummary := Some(summary))
            case Err(error) => Underway(item, now).(status := Failed, error := Some(error))
  {
  }

  lemma {:induction false} LogsTell(run: Executor, items: seq<WorkItem>, clock: nat -> string, n: nat)
    requires n <= |items|
    ensures CyclesLogged(run, items, clock, n, Log(run, items, clock, n, Completed), Log(run, items, clock, n, Failed))
  {
    hide Log, Outcome, Underway, Started, CycleLogged;
    if n == 0 {
      NothingLogged(run, items, clock);
    } else {
      LogsTell(run, items, clock, n - 1);
      LogStep(run, items, clock, n - 1, Completed);
      LogStep(run, items, clock, n - 1, Failed);
      var (completed, failed) := (Log(run, items, clock, n, Completed), Log(run, items, clock, n, Failed));
      var (a, b) := (Log(run, items, clock, n - 1, Completed), Log(run, items, clock, n - 1, Failed));
      OutcomeTells(run, items[n - 1], clock(n - 1));
      LastLogged(run, items, clock, n - 1, a, b, completed, failed);
      forall i: nat | i < n - 1
        ensures CycleLogged(run, items, clock, i, completed, failed)
      {
        StillLogged(run, items, clock, i, a, b, completed, failed);
      }
    }
  }

  lemma LastLogged(run: Executor, items: seq<WorkItem>, clock: nat -> string, i: nat, a: seq<WorkItem>, b: seq<WorkItem>,
                   completed: seq<WorkItem>, failed: seq<WorkItem>)
    requires i < |items| && |a| == Successes(run, items, clock, i) && |a| + |b| == i
    requires var x := Outcome(run, Started(items[i], clock(i)));
             && completed == a + (if x.status == Completed then [x] else [])
             && failed == b + (if x.status == Failed then [x] else [])
    ensures CycleLogged(run, items, clock, i, completed, failed)
    ensures |completed| == Successes(run, items, clock, i + 1) && |completed| + |failed| == i + 1
  {
    OutcomeTells(run, items[i], clock(i));
  }

  lemma StillLogged(run: Executor, items: seq<WorkItem>, clock: nat -> string, i: nat, a: seq<WorkItem>, b: seq<WorkItem>,
                    completed: seq<WorkItem>, failed: seq<WorkItem>)
    requires i < |items| && CycleLogged(run, items, clock, i, a, b) && a <= completed && b <= failed
    ensures CycleLogged(run, items, clock, i, completed, failed)
  {
    hide Successes, Underway;
  }

  function Least(size: nat, maximum: Option<int>): nat {
    if maximum.None? || size <= maximum.value then size else if maximum.value <= 0 then 0 else maximum.value
  }

  class CycleDispatcher {
    const executor: Executor
    const queue: WorkQueue

    constructor (executor: Executor, queue: WorkQueue)
      ensures this.executor == executor && this.queue == queue
    {
      this.executor, this.queue := executor, queue;
    }

    method DispatchOne(now: string) returns (r: Option<WorkItem>)
      requires queue.Valid()
      modifies queue
      ensures queue.Valid() && queue.cancelled == old(queue.cancelled)
      ensures old(queue.Waiting()) == [] ==>
                && r == None && queue.Waiting() == []
                && queue.completed == old(queue.completed) && queue.failed == old(queue.failed)
      ensures old(queue.Waiting()) != [] ==>
                && queue.Waiting() == old(queue.Waiting())[1..]
                && var item := Underway(old(queue.Waiting()[0]), now);
                match executor(item)
                case Ok(summary) =>
                  && r == Some(item.(status := Completed, resultSummary := Some(summary)))
                  && queue.completed == old(queue.completed) + [r.value] && queue.failed == old(queue.failed)
                case Err(error) =>
                  && r == Some(item.(status := Failed, error := Some(error)))
                  && queue.failed == old(queue.failed) + [r.value] && queue.completed == old(queue.completed)
    {
      var next := queue.Dequeue(now);
      if next.Err? {
        return None;
      }
      var item := next.value;
      match executor(item)
      case Err(error) =>
        var failed := queue.MarkFailed(item, error);
        return Some(failed.value);
      case Ok(summary) =>
        var completed := queue.MarkCompleted(item, Some(summary));
        return Some(completed.value);
    }

    /**
     * Serve the queue in its order until it is empty or `maxCycles` cycles have run. Each item
     * served lands in the completed log if its cycle ended without an exception and else in the
     * failed log, in the order of service.
     */
    method Drain(maxCycles: Option<int>, clock: nat -> string) returns (cycles: nat)
      requires queue.Valid()
      modifies queue
      ensures queue.Valid() && queue.cancelled == old(queue.cancelled)
      ensures cycles == Least(|old(queue.Waiting())|, maxCycles)
      ensures queue.Waiting() == old(queue.Waiting())[cycles..]
      ensures maxCycles.Some? ==> cycles == 0 || cycles <= maxCycles.value
      ensures queue.Waiting() == [] || (maxCycles.Some? && cycles >= maxCycles.value)
      ensures queue.completed
           == old(queue.completed) + Log(executor, old(queue.Waiting()), clock, cycles, Completed)
      ensures queue.failed == old(queue.failed) + Log(executor, old(queue.Waiting()), clock, cycles, Failed)
      ensures CyclesLogged(executor, old(queue.Waiting()), clock, cycles, queue.completed[|old(queue.completed)|..],
                           queue.failed[|old(queue.failed)|..])
    {
      hide Log, Outcome, SortBy, Started, Underway, CyclesLogged;
      NothingLogged(executor, queue.Waiting(), clock);
      ghost var items := queue.Waiting();
      cycles := 0;
      while maxCycles.None? || cycles < maxCycles.value
        invariant queue.Valid() && queue.cancelled == old(queue.cancelled)
        invariant cycles <= |items| && queue.Waiting() == items[cycles..]
        invariant cycles <= Least(|items|, maxCycles)
        invariant queue.completed == old(queue.completed) + Log(executor, items, clock, cycles, Completed)
        invariant queue.failed == old(queue.failed) + Log(executor, items, clock, cycles, Failed)
        decreases |items| - cycles
      {
        var r := this.DispatchOne(clock(cycles));
        if r.None? {
          break;
        }
        LogStep(executor, items, clock, cycles, Completed);
        LogStep(executor, items, clock, cycles, Failed);
        OutcomeTells(executor, items[cycles], clock(cycles));
        cycles := cycles + 1;
      }
      LogsTell(executor, items, clock, cycles);
      assert queue.completed[|old(queue.completed)|..] == Log(executor, items, clock, cycles, Completed);
      assert queue.failed[|old(queue.failed)|..] == Log(executor, items, clock, cycles, Failed);
    }
  }
}
