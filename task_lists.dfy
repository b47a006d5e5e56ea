/**
 * List operations shared by the server and the browser: `Array.prototype.filter`
 * and the "remove every record with this id" filter both sides apply.
 */
module TaskLists {
  import opened Tasks

  /** `s.filter(keep)` on a list of tasks: the elements that satisfy `keep`, in their order in `s`. */
  function Filter(s: seq<Task>, keep: Task -> bool): (r: seq<Task>)
    ensures |r| <= |s|
    ensures forall i :: 0 <= i < |r| ==> keep(r[i])
  {
    if s == [] then []
    else (if keep(s[0]) then [s[0]] else []) + Filter(s[1..], keep)
  }

  /** An element survives the filter exactly when it is in the list and passes. */
  lemma {:induction false} FilterMembers(s: seq<Task>, keep: Task -> bool)
    ensures forall x :: x in Filter(s, keep) <==> x in s && keep(x)
  {
    if s != [] {
      FilterMembers(s[1..], keep);
      assert forall x :: x in s <==> x == s[0] || x in s[1..] by {
        assert s == [s[0]] + s[1..];
      }
    }
  }

  /** The indices i with i >= from and keep(s[i]), in increasing order. */
  function Positions(s: seq<Task>, keep: Task -> bool, from: nat): seq<nat>
    requires from <= |s|
    decreases |s| - from
  {
    if from == |s| then []
    else (if keep(s[from]) then [from] else []) + Positions(s, keep, from + 1)
  }

  /**
   * pos maps r into s from index `from` on: the k-th element of r is s[pos[k]],
   * pos is strictly increasing, and it holds exactly the indices whose element
   * is kept.
   */
  ghost predicate KeptAt(s: seq<Task>, keep: Task -> bool, from: nat, r: seq<Task>, pos: seq<nat>) {
    && |pos| == |r|
    && (forall k :: 0 <= k < |pos| ==> from <= pos[k] < |s| && r[k] == s[pos[k]])
    && (forall k, l :: 0 <= k < l < |pos| ==> pos[k] < pos[l])
    && (forall i :: from <= i < |s| ==> (i in pos <==> keep(s[i])))
  }

  /** Filtering keeps order: the kept elements are mapped into the list by their positions. */
  lemma {:induction false} FilterKeepsOrder(s: seq<Task>, keep: Task -> bool, from: nat)
    requires from <= |s|
    ensures KeptAt(s, keep, from, Filter(s[from..], keep), Positions(s, keep, from))
    decreases |s| - from
  {
    if from < |s| {
      var t := s[from + 1..];
      var r, pos := Filter(t, keep), Positions(s, keep, from + 1);
      FilterKeepsOrder(s, keep, from + 1);
      assert Filter(s[from..], keep) == (if keep(s[from]) then [s[from]] else []) + r by {
        assert s[from..] == [s[from]] + t;
        FilterCons(s[from], t, keep);
      }
      if keep(s[from]) {
        KeptAtTake(s, keep, from, r, pos, Filter(s[from..], keep), Positions(s, keep, from));
      } else {
        KeptAtSkip(s, keep, from, r, pos, Filter(s[from..], keep), Positions(s, keep, from));
      }
    }
  }

  /** A kept element at index `from` extends the map one index down. */
  lemma KeptAtTake(s: seq<Task>, keep: Task -> bool, from: nat, r: seq<Task>, pos: seq<nat>, r': seq<Task>, pos': seq<nat>)
    requires from < |s| && keep(s[from]) && KeptAt(s, keep, from + 1, r, pos)
    requires r' == [s[from]] + r && pos' == [from] + pos
    ensures KeptAt(s, keep, from, r', pos')
  {
    forall k | 0 <= k < |pos'| ensures from <= pos'[k] < |s| && r'[k] == s[pos'[k]] {
      if k > 0 {
        assert pos'[k] == pos[k - 1] && r'[k] == r[k - 1];
      }
    }
    forall k, l | 0 <= k < l < |pos'| ensures pos'[k] < pos'[l] {
      assert pos'[l] == pos[l - 1];
      if k > 0 {
        assert pos'[k] == pos[k - 1];
      }
    }
  }

  /** A rejected element at index `from` leaves the map as it is. */
  lemma KeptAtSkip(s: seq<Task>, keep: Task -> bool, from: nat, r: seq<Task>, pos: seq<nat>, r': seq<Task>, pos': seq<nat>)
    requires from < |s| && !keep(s[from]) && KeptAt(s, keep, from + 1, r, pos)
    requires r' == r && pos' == pos
    ensures KeptAt(s, keep, from, r', pos')
  {
    assert from !in pos by {
      forall k | 0 <= k < |pos| ensures pos[k] != from {
      }
    }
  }

  /** Filtering distributes over concatenation. */
  lemma {:induction false} FilterConcat(a: seq<Task>, b: seq<Task>, keep: Task -> bool)
    ensures Filter(a + b, keep) == Filter(a, keep) + Filter(b, keep)
  {
    if a == [] {
      assert a + b == b;
    } else {
      assert (a + b)[0] == a[0];
      assert (a + b)[1..] == a[1..] + b;
      FilterConcat(a[1..], b, keep);
    }
  }

  /** Filtering a list with a given first element. */
  lemma FilterCons(x: Task, s: seq<Task>, keep: Task -> bool)
    ensures Filter([x] + s, keep) == (if keep(x) then [x] else []) + Filter(s, keep)
  {
    assert ([x] + s)[0] == x;
    assert ([x] + s)[1..] == s;
  }

  /** A rejected element in the middle of a list contributes nothing. */
  lemma FilterSkips(before: seq<Task>, x: Task, after: seq<Task>, keep: Task -> bool)
    requires !keep(x)
    ensures Filter(before + [x] + after, keep) == Filter(before, keep) + Filter(after, keep)
  {
    assert before + [x] + after == before + ([x] + after);
    FilterConcat(before, [x] + after, keep);
    FilterCons(x, after, keep);
  }

  /** Filtering out one rejected element between kept ones leaves exactly the kept ones. */
  lemma FilterDropsOne(before: seq<Task>, x: Task, after: seq<Task>, keep: Task -> bool)
    requires forall j :: 0 <= j < |before| ==> keep(before[j])
    requires forall j :: 0 <= j < |after| ==> keep(after[j])
    requires !keep(x)
    ensures Filter(before + [x] + after, keep) == before + after
  {
    FilterSkips(before, x, after, keep);
    FilterAll(before, keep);
    FilterAll(after, keep);
  }

  /** A filter that every element passes keeps the list as it is. */
  lemma {:induction false} FilterAll(s: seq<Task>, keep: Task -> bool)
    requires forall i :: 0 <= i < |s| ==> keep(s[i])
    ensures Filter(s, keep) == s
  {
    if s != [] {
      assert forall i :: 0 <= i < |s[1..]| ==> s[1..][i] == s[i + 1];
      FilterAll(s[1..], keep);
    }
  }

  /** Filtering removes every element exactly when no element passes. */
  lemma {:induction false} FilterNone(s: seq<Task>, keep: Task -> bool)
    ensures Filter(s, keep) == [] <==> forall i :: 0 <= i < |s| ==> !keep(s[i])
  {
    if s != [] {
      FilterNone(s[1..], keep);
      assert forall i :: 1 <= i < |s| ==> s[i] == s[1..][i - 1];
    }
  }

  /** A filter and its complement split a list into two parts that together are a permutation of it. */
  lemma {:induction false} FilterSplit(s: seq<Task>, keep: Task -> bool, drop: Task -> bool)
    requires forall x :: drop(x) == !keep(x)
    ensures multiset(Filter(s, keep)) + multiset(Filter(s, drop)) == multiset(s)
  {
    if s != [] {
      var x, t := s[0], s[1..];
      FilterSplit(t, keep, drop);
      assert s == [x] + t;
      FilterSplitStep(x, t, keep, drop);
    }
  }

  /** One step of FilterSplit: the first element goes to exactly one side. */
  lemma FilterSplitStep(x: Task, t: seq<Task>, keep: Task -> bool, drop: Task -> bool)
    requires drop(x) == !keep(x)
    ensures multiset(Filter([x] + t, keep)) + multiset(Filter([x] + t, drop))
         == multiset{x} + multiset(Filter(t, keep)) + multiset(Filter(t, drop))
  {
    FilterCons(x, t, keep);
    FilterCons(x, t, drop);
  }

  /** `s.filter(t => t.id !== id)`: every record whose id differs from `id`, in order. */
  function WithoutId(s: seq<Task>, id: string): (r: seq<Task>)
    ensures forall t :: t in r <==> t in s && t.id != id
  {
    FilterMembers(s, (t: Task) => t.id != id);
    Filter(s, (t: Task) => t.id != id)
  }

  /** No two records of the list share an id. */
  predicate UniqueIds(s: seq<Task>) {
    forall i, j :: 0 <= i < j < |s| ==> s[i].id != s[j].id
  }

  /** Some record of the list has the given id. */
  predicate HasId(s: seq<Task>, id: string) {
    exists i :: 0 <= i < |s| && s[i].id == id
  }
}
