/**
 * The browser's split of the task list into the "Upcoming" and "Completed"
 * sections: `categorizeTodos` and `PRIORITY_ORDER`.
 */
module Categorize {
  import opened Tasks
  import opened TaskLists

  /** `PRIORITY_ORDER`: the rank the upcoming list is sorted by. */
  function Rank(p: Priority): nat {
    match p
    case High => 0
    case Medium => 1
    case Low => 2
  }

  predicate IsOpen(t: Task) {
    !t.completed
  }

  predicate IsDone(t: Task) {
    t.completed
  }

  /** The tasks of one priority, in list order. */
  function WithPriority(s: seq<Task>, p: Priority): (r: seq<Task>)
    ensures forall i :: 0 <= i < |r| ==> r[i].priority == p
  {
    Filter(s, (t: Task) => t.priority == p)
  }

  /** No task ranks below an earlier one under `PRIORITY_ORDER`, the rank the comparator subtracts. */
  predicate SortedByRank(s: seq<Task>) {
    forall i, j :: 0 <= i < j < |s| ==> Rank(s[i].priority) <= Rank(s[j].priority)
  }

  /** Put x in front of the first element whose rank is not below x's. */
  function Insert(x: Task, s: seq<Task>): (r: seq<Task>)
    ensures multiset(r) == multiset{x} + multiset(s)
  {
    if s == [] || Rank(x.priority) <= Rank(s[0].priority) then [x] + s
    else
      assert s == [s[0]] + s[1..];
      [s[0]] + Insert(x, s[1..])
  }

  /**
   * `Array.prototype.sort` with the rank comparator. ECMAScript 2019 requires
   * the sort to be stable; this insertion sort is, and StableSortIsUnique shows
   * that every stable sort gives the same list.
   */
  function SortByRank(s: seq<Task>): (r: seq<Task>)
    ensures multiset(r) == multiset(s)
  {
    if s == [] then []
    else
      assert s == [s[0]] + s[1..];
      Insert(s[0], SortByRank(s[1..]))
  }

  /** The reference order: all High tasks, then all Medium, then all Low, each in list order. */
  function Buckets(s: seq<Task>): seq<Task> {
    WithPriority(s, High) + WithPriority(s, Medium) + WithPriority(s, Low)
  }

  lemma {:induction false} InsertSkip(x: Task, a: seq<Task>, b: seq<Task>)
    requires forall i :: 0 <= i < |a| ==> Rank(a[i].priority) < Rank(x.priority)
    ensures Insert(x, a + b) == a + Insert(x, b)
  {
    if a == [] {
      assert a + b == b;
    } else {
      assert (a + b)[0] == a[0];
      assert (a + b)[1..] == a[1..] + b;
      InsertSkip(x, a[1..], b);
    }
  }

  /** The first task of a list is the first of its priority's bucket; the other buckets are those of the rest. */
  lemma BucketsHead(s: seq<Task>)
    requires s != []
    ensures WithPriority(s, s[0].priority) == [s[0]] + WithPriority(s[1..], s[0].priority)
    ensures forall p :: p != s[0].priority ==> WithPriority(s, p) == WithPriority(s[1..], p)
  {
  }

  /** Inserting into a list already in reference order puts x at the front of its priority's bucket. */
  lemma InsertIntoBuckets(x: Task, h: seq<Task>, m: seq<Task>, l: seq<Task>)
    requires forall i :: 0 <= i < |h| ==> h[i].priority == High
    requires forall i :: 0 <= i < |m| ==> m[i].priority == Medium
    requires forall i :: 0 <= i < |l| ==> l[i].priority == Low
    ensures Insert(x, h + m + l) ==
      match x.priority
      case High => ([x] + h) + m + l
      case Medium => h + ([x] + m) + l
      case Low => h + m + ([x] + l)
  {
    Regroup(x, h, m, l);
    match x.priority
    case High =>
      assert Insert(x, h + m + l) == [x] + (h + m + l);
    case Medium =>
      InsertSkip(x, h, m + l);
      assert Insert(x, m + l) == [x] + (m + l) by {
        if m + l != [] {
          assert (m + l)[0] == if m != [] then m[0] else l[0];
        }
      }
    case Low =>
      InsertSkip(x, h + m, l);
  }

  /** The regroupings of three buckets and one task that InsertIntoBuckets needs. */
  lemma Regroup(x: Task, h: seq<Task>, m: seq<Task>, l: seq<Task>)
    ensures [x] + (h + m + l) == ([x] + h) + m + l
    ensures h + m + l == h + (m + l)
    ensures h + ([x] + (m + l)) == h + ([x] + m) + l
  {
  }

  /** The buckets of a list with its first task put in front of that task's bucket. */
  lemma BucketsOfCons(s: seq<Task>)
    requires s != []
    ensures var x, h, m, l := s[0], WithPriority(s[1..], High), WithPriority(s[1..], Medium), WithPriority(s[1..], Low);
      Buckets(s) ==
        match x.priority
        case High => ([x] + h) + m + l
        case Medium => h + ([x] + m) + l
        case Low => h + m + ([x] + l)
  {
    BucketsHead(s);
  }

  /** The insertion sort yields the reference order. */
  lemma {:induction false} SortIsBuckets(s: seq<Task>)
    ensures SortByRank(s) == Buckets(s)
  {
    if s != [] {
      SortIsBuckets(s[1..]);
      var x, rest := s[0], s[1..];
      var h, m, l := WithPriority(rest, High), WithPriority(rest, Medium), WithPriority(rest, Low);
      assert SortByRank(s) == Insert(x, h + m + l);
      InsertIntoBuckets(x, h, m, l);
      BucketsOfCons(s);
    }
  }

  lemma BucketsSorted(s: seq<Task>)
    ensures SortedByRank(Buckets(s))
  {
    var b := Buckets(s);
    var h, m := WithPriority(s, High), WithPriority(s, Medium);
    forall i | 0 <= i < |b| ensures Rank(b[i].priority) == if i < |h| then 0 else if i < |h| + |m| then 1 else 2 {
      if i < |h| {
        assert b[i] == h[i];
      } else if i < |h| + |m| {
        assert b[i] == m[i - |h|];
      } else {
        assert b[i] == WithPriority(s, Low)[i - |h| - |m|];
      }
    }
  }

  lemma BucketsPermutation(s: seq<Task>)
    ensures multiset(Buckets(s)) == multiset(s)
  {
    PriorityCounts(s);
  }

  /** Every task is counted in exactly one priority's bucket. */
  lemma {:induction false} PriorityCounts(s: seq<Task>)
    ensures multiset(WithPriority(s, High)) + multiset(WithPriority(s, Medium)) + multiset(WithPriority(s, Low)) == multiset(s)
  {
    if s != [] {
      var x, t := s[0], s[1..];
      PriorityCounts(t);
      assert s == [x] + t;
      PriorityCountsStep(x, t);
    }
  }

  /** One step of PriorityCounts: a first task is counted in its own priority's bucket. */
  lemma PriorityCountsStep(x: Task, t: seq<Task>)
    ensures multiset(WithPriority([x] + t, High)) + multiset(WithPriority([x] + t, Medium)) + multiset(WithPriority([x] + t, Low))
         == multiset{x} + multiset(WithPriority(t, High)) + multiset(WithPriority(t, Medium)) + multiset(WithPriority(t, Low))
  {
    FilterCons(x, t, (u: Task) => u.priority == High);
    FilterCons(x, t, (u: Task) => u.priority == Medium);
    FilterCons(x, t, (u: Task) => u.priority == Low);
  }

  /** Filtering by one priority a list that holds only another priority leaves nothing. */
  lemma OtherPriority(s: seq<Task>, p: Priority, q: Priority)
    requires forall i :: 0 <= i < |s| ==> s[i].priority == q
    ensures WithPriority(s, p) == if p == q then s else []
  {
    var keep := (t: Task) => t.priority == p;
    if p == q {
      FilterAll(s, keep);
    } else {
      FilterNone(s, keep);
    }
  }

  /** The reference order keeps the tasks of every priority in their list order. */
  lemma BucketsStable(s: seq<Task>, p: Priority)
    ensures WithPriority(Buckets(s), p) == WithPriority(s, p)
  {
    var keep := (t: Task) => t.priority == p;
    var h, m, l := WithPriority(s, High), WithPriority(s, Medium), WithPriority(s, Low);
    FilterConcat(h + m, l, keep);
    FilterConcat(h, m, keep);
    OtherPriority(h, p, High);
    OtherPriority(m, p, Medium);
    OtherPriority(l, p, Low);
  }

  /** The tail of a sorted list is sorted, and no task in it ranks below the head. */
  lemma SortedTail(t: seq<Task>)
    requires SortedByRank(t) && t != []
    ensures SortedByRank(t[1..])
    ensures forall i :: 0 <= i < |t[1..]| ==> Rank(t[0].priority) <= Rank(t[1..][i].priority)
  {
    var rest := t[1..];
    forall i, j | 0 <= i < j < |rest| ensures Rank(rest[i].priority) <= Rank(rest[j].priority) {
      assert rest[i] == t[i + 1] && rest[j] == t[j + 1];
    }
    forall i | 0 <= i < |rest| ensures Rank(t[0].priority) <= Rank(rest[i].priority) {
      assert rest[i] == t[i + 1];
    }
  }

  /** A list whose ranks are all at least r has empty buckets below r. */
  lemma BucketsBelow(s: seq<Task>, r: nat)
    requires forall i :: 0 <= i < |s| ==> r <= Rank(s[i].priority)
    ensures r >= 1 ==> WithPriority(s, High) == []
    ensures r >= 2 ==> WithPriority(s, Medium) == []
  {
    if r >= 1 {
      FilterNone(s, (u: Task) => u.priority == High);
    }
    if r >= 2 {
      FilterNone(s, (u: Task) => u.priority == Medium);
    }
  }

  /** A list sorted by rank already is its own reference order. */
  lemma {:induction false} SortedIsBuckets(t: seq<Task>)
    requires SortedByRank(t)
    ensures t == Buckets(t)
  {
    if t != [] {
      SortedTail(t);
      SortedIsBuckets(t[1..]);
      HeadJoinsBuckets(t);
    }
  }

  /** If the tail of a list is in reference order and no task in it ranks below the head, so is the list. */
  lemma HeadJoinsBuckets(t: seq<Task>)
    requires t != []
    requires t[1..] == Buckets(t[1..])
    requires forall i :: 0 <= i < |t[1..]| ==> Rank(t[0].priority) <= Rank(t[1..][i].priority)
    ensures t == Buckets(t)
  {
    var x, rest := t[0], t[1..];
    BucketsOfCons(t);
    BucketsBelow(rest, Rank(x.priority));
    var h, m, l := WithPriority(rest, High), WithPriority(rest, Medium), WithPriority(rest, Low);
    assert t == [x] + (h + m + l) by {
      assert t == [x] + rest;
    }
    JoinFront(x, h, m, l);
  }

  /** A task in front of three buckets, none of which it ranks below, is at the front of its own bucket. */
  lemma JoinFront(x: Task, h: seq<Task>, m: seq<Task>, l: seq<Task>)
    requires x.priority == Medium ==> h == []
    requires x.priority == Low ==> h == [] && m == []
    ensures [x] + (h + m + l) ==
      match x.priority
      case High => ([x] + h) + m + l
      case Medium => h + ([x] + m) + l
      case Low => h + m + ([x] + l)
  {
    match x.priority {
      case High =>
        assert [x] + (h + m + l) == ([x] + h) + m + l;
      case Medium =>
        assert h + ([x] + m) == [x] + m;
        assert h + m == m;
      case Low =>
        assert h + m == [];
    }
  }

  /**
   * The sort's result is sorted by rank, is a permutation of its input, and
   * keeps tasks of equal priority in their input order.
   */
  lemma SortByRankCorrect(s: seq<Task>)
    ensures SortedByRank(SortByRank(s))
    ensures multiset(SortByRank(s)) == multiset(s)
    ensures forall p :: WithPriority(SortByRank(s), p) == WithPriority(s, p)
  {
    SortIsBuckets(s);
    BucketsSorted(s);
    BucketsPermutation(s);
    forall p {
      BucketsStable(s, p);
    }
  }

  /**
   * Any list sorted by rank that keeps every priority's tasks in input order
   * is the one SortByRank gives, so the model does not depend on which
   * stable algorithm the JavaScript engine uses.
   */
  lemma StableSortIsUnique(s: seq<Task>, t: seq<Task>)
    requires SortedByRank(t)
    requires forall p :: WithPriority(t, p) == WithPriority(s, p)
    ensures t == SortByRank(s)
  {
    SortedIsBuckets(t);
    SortIsBuckets(s);
    assert WithPriority(t, High) == WithPriority(s, High);
    assert WithPriority(t, Medium) == WithPriority(s, Medium);
    assert WithPriority(t, Low) == WithPriority(s, Low);
  }

  /** The two sections `categorizeTodos` returns. */
  datatype Categories = Categories(upcoming: seq<Task>, completed: seq<Task>)

  /**
   * `categorizeTodos`: the open tasks sorted by rank, and the completed tasks
   * in list order.
   */
  function CategorizeTodos(todos: seq<Task>): (r: Categories)
    ensures forall t :: t in r.upcoming <==> t in todos && !t.completed
    ensures forall t :: t in r.completed <==> t in todos && t.completed
    ensures multiset(r.upcoming) + multiset(r.completed) == multiset(todos)
    ensures SortedByRank(r.upcoming)
    ensures forall p :: WithPriority(r.upcoming, p) == WithPriority(Filter(todos, IsOpen), p)
  {
    var open := Filter(todos, IsOpen);
    SortByRankCorrect(open);
    FilterMembers(todos, IsOpen);
    FilterMembers(todos, IsDone);
    FilterSplit(todos, IsOpen, IsDone);
    assert forall t :: t in SortByRank(open) <==> t in open by {
      forall t ensures t in SortByRank(open) <==> t in open {
        assert t in SortByRank(open) <==> t in multiset(SortByRank(open));
        assert t in open <==> t in multiset(open);
      }
    }
    Categories(SortByRank(open), Filter(todos, IsDone))
  }

  /**
   * The completed section is the completed tasks in list order: its k-th task
   * is the task at the k-th completed index of the list.
   */
  lemma CompletedKeepsOrder(todos: seq<Task>)
    ensures var done, pos := CategorizeTodos(todos).completed, Positions(todos, IsDone, 0);
      && |pos| == |done|
      && (forall k :: 0 <= k < |pos| ==> pos[k] < |todos| && done[k] == todos[pos[k]])
      && (forall k, l :: 0 <= k < l < |pos| ==> pos[k] < pos[l])
      && (forall i :: 0 <= i < |todos| ==> (i in pos <==> todos[i].completed))
  {
    FilterKeepsOrder(todos, IsDone, 0);
    assert todos[0..] == todos;
  }

  /** Three open tasks and a completed one are split into those three and the last. */
  lemma ExampleSplit(a: Task, b: Task, c: Task, d: Task)
    requires !a.completed && !b.completed && !c.completed && d.completed
    ensures Filter([a, b, c, d], IsOpen) == [a, b, c]
    ensures Filter([a, b, c, d], IsDone) == [d]
  {
    assert Filter([d], IsOpen) == [] && Filter([d], IsDone) == [d];
    FilterCons(c, [d], IsOpen);
    FilterCons(c, [d], IsDone);
    assert [c] + [d] == [c, d];
    FilterCons(b, [c, d], IsOpen);
    FilterCons(b, [c, d], IsDone);
    assert [b] + [c, d] == [b, c, d];
    FilterCons(a, [b, c, d], IsOpen);
    FilterCons(a, [b, c, d], IsDone);
    assert [a] + [b, c, d] == [a, b, c, d];
  }

  /** Sorting Low, High, Medium gives High, Medium, Low. */
  lemma ExampleSort(a: Task, b: Task, c: Task)
    requires a.priority == Low && b.priority == High && c.priority == Medium
    ensures SortByRank([a, b, c]) == [b, c, a]
  {
    assert SortByRank([c]) == [c];
    assert [b, c][1..] == [c];
    assert SortByRank([b, c]) == Insert(b, [c]) == [b, c];
    assert [a, b, c][1..] == [b, c];
    assert Insert(a, [c]) == [c, a];
    assert Insert(a, [b, c]) == [b, c, a];
  }

  /**
   * Four tasks with priorities Low, High, Medium, High, of which only the last
   * is completed: the upcoming section is High, Medium, Low.
   */
  lemma CategorizeExample()
    ensures var a := Task("1", "a", None, Low, false, "t");
      var b := Task("2", "b", None, High, false, "t");
      var c := Task("3", "c", None, Medium, false, "t");
      var d := Task("4", "d", None, High, true, "t");
      CategorizeTodos([a, b, c, d]) == Categories([b, c, a], [d])
  {
    var a := Task("1", "a", None, Low, false, "t");
    var b := Task("2", "b", None, High, false, "t");
    var c := Task("3", "c", None, Medium, false, "t");
    var d := Task("4", "d", None, High, true, "t");
    ExampleSplit(a, b, c, d);
    ExampleSort(a, b, c);
  }
}
