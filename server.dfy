/**
 * The HTTP API's task store: every handler reads the whole JSON file, changes
 * the list, and rewrites the whole file.
 */
module Server {
  import opened Tasks
  import opened TaskLists

  /** The state of the store's file on disk. */
  datatype StoredFile = Missing | Blank | Holds(todos: seq<Task>)

  /** What `readTodos` returns: a missing or empty file reads as the empty list. */
  function Contents(f: StoredFile): seq<Task> {
    match f
    case Holds(todos) => todos
    case _ => []
  }

  /** `todos.findIndex(t => t.id === id)`: the first index holding `id`, or -1. */
  function FirstIndex(s: seq<Task>, id: string): (r: int)
    ensures -1 <= r < |s|
    ensures r == -1 <==> !HasId(s, id)
    ensures r >= 0 ==> s[r].id == id && forall j :: 0 <= j < r ==> s[j].id != id
  {
    if s == [] then -1
    else if s[0].id == id then 0
    else
      var k := FirstIndex(s[1..], id);
      assert forall j :: 1 <= j < |s| ==> s[j] == s[1..][j - 1];
      if k == -1 then -1 else k + 1
  }

  /**
   * `u` is what `{ ...t, ...p }` yields: every key the body carries overrides
   * the record's value, every other key keeps it.
   */
  ghost predicate IsSpread(t: Task, p: Patch, u: Task) {
    forall key :: Lookup(u, key) == (if PatchLookup(p, key) != Undefined then PatchLookup(p, key) else Lookup(t, key))
  }

  /** `{ ...t, ...p }` for a stored record and an update body. */
  function Merge(t: Task, p: Patch): (r: Task)
    ensures IsSpread(t, p, r)
  {
    Task(
      p.id.GetOr(t.id),
      p.title.GetOr(t.title),
      if p.dueDate.Some? then p.dueDate else t.dueDate,
      p.priority.GetOr(t.priority),
      p.completed.GetOr(t.completed),
      p.createdAt.GetOr(t.createdAt))
  }

  /** Merge is the only record the object spread can produce. */
  lemma MergeIsSpread(t: Task, p: Patch, u: Task)
    requires IsSpread(t, p, u)
    ensures u == Merge(t, p)
  {
    LookupDeterminesTask(u, Merge(t, p));
  }

  /** Applying the same body twice stores the same record as applying it once. */
  lemma MergeIdempotent(t: Task, p: Patch)
    ensures Merge(Merge(t, p), p) == Merge(t, p)
  {
    MergeIsSpread(Merge(t, p), p, Merge(t, p));
  }

  /** Two bodies applied in turn act like one body in which the later keys win. */
  lemma MergeCompose(t: Task, p: Patch, q: Patch)
    ensures Merge(Merge(t, p), q) == Merge(t, Then(p, q))
  {
    var u := Merge(Merge(t, p), q);
    forall key
      ensures Lookup(u, key) == (if PatchLookup(Then(p, q), key) != Undefined
                                 then PatchLookup(Then(p, q), key) else Lookup(t, key))
    {
      ThenLookup(p, q, key);
    }
    MergeIsSpread(t, Then(p, q), u);
  }

  /** `{ ...p, ...q }` for two bodies. */
  function Then(p: Patch, q: Patch): Patch {
    Patch(
      if q.id.Some? then q.id else p.id,
      if q.title.Some? then q.title else p.title,
      if q.dueDate.Some? then q.dueDate else p.dueDate,
      if q.priority.Some? then q.priority else p.priority,
      if q.completed.Some? then q.completed else p.completed,
      if q.createdAt.Some? then q.createdAt else p.createdAt)
  }

  lemma ThenLookup(p: Patch, q: Patch, key: string)
    ensures PatchLookup(Then(p, q), key) ==
      if PatchLookup(q, key) != Undefined then PatchLookup(q, key) else PatchLookup(p, key)
  {
  }

  /** A record with a fresh id appended to the list is the only one with that id. */
  lemma {:induction false} AppendedIsOnlyMatch(s: seq<Task>, t: Task)
    requires !HasId(s, t.id)
    ensures FirstIndex(s + [t], t.id) == |s|
    ensures WithoutId(s + [t], t.id) == s
    ensures UniqueIds(s) ==> UniqueIds(s + [t])
  {
    var keep := (x: Task) => x.id != t.id;
    FilterConcat(s, [t], keep);
    FilterAll(s, keep);
    assert Filter([t], keep) == [];
    assert (s + [t])[|s|] == t;
  }

  /** Filtering a list whose ids are unique keeps them unique. */
  lemma {:induction false} FilterKeepsUniqueIds(s: seq<Task>, keep: Task -> bool)
    requires UniqueIds(s)
    ensures UniqueIds(Filter(s, keep))
  {
    if s != [] {
      assert UniqueIds(s[1..]) by {
        forall i, j | 0 <= i < j < |s[1..]| ensures s[1..][i].id != s[1..][j].id {
          assert s[1..][i] == s[i + 1] && s[1..][j] == s[j + 1];
        }
      }
      FilterKeepsUniqueIds(s[1..], keep);
      var rest := Filter(s[1..], keep);
      if keep(s[0]) {
        forall j | 0 <= j < |rest| ensures s[0].id != rest[j].id {
          FilterMembers(s[1..], keep);
          assert rest[j] in rest;
          var k :| 0 <= k < |s[1..]| && s[1..][k] == rest[j];
          assert s[k + 1] == rest[j];
        }
        assert Filter(s, keep) == [s[0]] + rest;
      }
    }
  }

  /**
   * With unique ids, deleting an id that is present removes exactly the one
   * record at its index and keeps the rest in order.
   */
  lemma DeleteRemovesOne(s: seq<Task>, id: string)
    requires UniqueIds(s)
    requires HasId(s, id)
    ensures var i := FirstIndex(s, id);
      WithoutId(s, id) == s[..i] + s[i + 1..] && |WithoutId(s, id)| == |s| - 1
  {
    var i := FirstIndex(s, id);
    var keep := (x: Task) => x.id != id;
    var before, after := s[..i], s[i + 1..];
    assert s == before + [s[i]] + after;
    forall j | 0 <= j < |before| ensures keep(before[j]) {
      assert before[j] == s[j];
    }
    forall j | 0 <= j < |after| ensures keep(after[j]) {
      assert after[j] == s[i + 1 + j];
    }
    FilterDropsOne(before, s[i], after, keep);
  }

  /** After a delete no record with that id remains, so a second delete finds nothing. */
  lemma DeleteRemovesAll(s: seq<Task>, id: string)
    ensures FirstIndex(WithoutId(s, id), id) == -1
  {
    var r := WithoutId(s, id);
    forall j | 0 <= j < |r| ensures r[j].id != id {
      assert r[j] in r;
    }
  }

  /** Deleting an id no record has keeps the list as it is. */
  lemma DeleteAbsent(s: seq<Task>, id: string)
    requires !HasId(s, id)
    ensures WithoutId(s, id) == s
  {
    FilterAll(s, (t: Task) => t.id != id);
  }

  /**
   * Replacing the record at index i keeps ids unique when the new record keeps
   * that record's id or carries an id no record has.
   */
  lemma ReplaceKeepsUniqueIds(s: seq<Task>, i: nat, t: Task)
    requires UniqueIds(s) && i < |s|
    requires t.id == s[i].id || !HasId(s, t.id)
    ensures UniqueIds(s[i := t])
  {
  }

  class Store {
    /** The JSON file the store reads and rewrites. */
    var file: StoredFile
    /** How many times the file has been rewritten. */
    var writes: nat

    /** The list every handler starts from. */
    function Todos(): seq<Task>
      reads this
    {
      Contents(file)
    }

    constructor (initial: StoredFile)
      ensures file == initial && writes == 0
    {
      file := initial;
      writes := 0;
    }

    /** `readTodos`: the list the file holds, or the empty list. */
    method ReadTodos() returns (todos: seq<Task>)
      ensures todos == Todos()
    {
      match file
      case Missing => todos := [];
      case Blank => todos := [];
      case Holds(s) => todos := s;
    }

    /** `writeTodos`: replace the whole file by the given list. */
    method WriteTodos(todos: seq<Task>)
      modifies this
      ensures file == Holds(todos) && writes == old(writes) + 1
      ensures Todos() == todos
    {
      file := Holds(todos);
      writes := writes + 1;
    }

    /** GET /api/todos: every record in stored order; the file is not rewritten. */
    method List() returns (todos: seq<Task>)
      ensures todos == Todos()
    {
      todos := ReadTodos();
    }

    /**
     * POST /api/todos: append a new, not completed record whose id and
     * creation time are given and whose other fields are the body's, verbatim.
     */
    method Create(body: Draft, id: string, createdAt: string) returns (r: Reply)
      modifies this
      ensures r.Success? && r.status == CREATED
      ensures r.task.id == id && r.task.createdAt == createdAt && !r.task.completed
      ensures r.task.title == body.title && r.task.dueDate == body.dueDate
      ensures r.task.priority == body.priority
      ensures Todos() == old(Todos()) + [r.task]
      ensures writes == old(writes) + 1
      ensures UniqueIds(old(Todos())) && !HasId(old(Todos()), id) ==> UniqueIds(Todos())
    {
      var todos := ReadTodos();
      var created := Task(id, body.title, body.dueDate, body.priority, false, createdAt);
      todos := todos + [created];
      WriteTodos(todos);
      r := Success(CREATED, created);
      if UniqueIds(old(Todos())) && !HasId(old(Todos()), id) {
        AppendedIsOnlyMatch(old(Todos()), created);
      }
    }

    /**
     * PUT /api/todos/:id: merge the body over the first record with that id and
     * answer with the stored result; 404 without touching the file otherwise.
     */
    method Update(id: string, patch: Patch) returns (r: Reply)
      modifies this
      ensures var i := FirstIndex(old(Todos()), id);
        if i == -1 then
          r == NOT_FOUND_REPLY && file == old(file) && writes == old(writes)
        else
          && r == Success(OK, Merge(old(Todos())[i], patch))
          && Todos() == old(Todos())[i := r.task]
          && writes == old(writes) + 1
      ensures UniqueIds(old(Todos())) && (patch.id.None? || patch.id == Some(id)) ==> UniqueIds(Todos())
    {
      var todos := ReadTodos();
      var idx := FirstIndex(todos, id);
      if idx == -1 {
        return NOT_FOUND_REPLY;
      }
      todos := todos[idx := Merge(todos[idx], patch)];
      WriteTodos(todos);
      r := Success(OK, todos[idx]);
      if UniqueIds(old(Todos())) && (patch.id.None? || patch.id == Some(id)) {
        ReplaceKeepsUniqueIds(old(Todos()), idx, todos[idx]);
      }
    }

    /**
     * DELETE /api/todos/:id: drop every record with that id and answer with the
     * first of them; 404 without touching the file when there is none.
     */
    method Delete(id: string) returns (r: Reply)
      modifies this
      ensures var i := FirstIndex(old(Todos()), id);
        if i == -1 then
          r == NOT_FOUND_REPLY && file == old(file) && writes == old(writes)
        else
          && r == Success(OK, old(Todos())[i])
          && Todos() == WithoutId(old(Todos()), id)
          && writes == old(writes) + 1
      ensures UniqueIds(old(Todos())) ==> UniqueIds(Todos())
    {
      var todos := ReadTodos();
      var idx := FirstIndex(todos, id);
      if idx == -1 {
        return NOT_FOUND_REPLY;
      }
      var deleted := todos[idx];
      todos := WithoutId(todos, id);
      WriteTodos(todos);
      r := Success(OK, deleted);
      if UniqueIds(old(Todos())) {
        FilterKeepsUniqueIds(old(Todos()), (t: Task) => t.id != id);
      }
    }
  }
}
