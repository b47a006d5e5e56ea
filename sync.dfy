/**
 * The browser and the server together: each user action sends one request,
 * the store answers, and the component applies the answer to its cache.
 * When the cache starts equal to the store's list and ids are unique, it
 * stays equal.
 */
module Sync {
  import opened Tasks
  import opened TaskLists
  import opened Server
  import opened Categorize
  import opened App

  /**
   * With unique ids, applying the server's PUT answer to the cache changes
   * exactly the record the server merged into, when the body keeps that
   * record's id.
   */
  lemma ReplaceMatchesUpdate(s: seq<Task>, id: string, p: Patch)
    requires UniqueIds(s) && HasId(s, id)
    requires p.id.None? || p.id == Some(id)
    ensures var i := FirstIndex(s, id);
      ApplyUpdate(s, Success(OK, Merge(s[i], p))) == s[i := Merge(s[i], p)]
  {
    var i := FirstIndex(s, id);
    var u := Merge(s[i], p);
    assert u.id == id by {
      assert Lookup(u, "id") == Lookup(s[i], "id") || Lookup(u, "id") == PatchLookup(p, "id");
    }
    var r := ApplyUpdate(s, Success(OK, u));
    assert ReplyId(Success(OK, u)) == Some(id);
    forall j | 0 <= j < |s| ensures r[j] == s[i := u][j] {
      if j != i {
        assert s[j].id != id;
      }
    }
  }

  /** Toggling a record flips its completion flag and leaves every other field as it was. */
  lemma ToggleFlipsCompleted(t: Task)
    ensures Merge(t, ToggleRequest(t).patch) == t.(completed := !t.completed)
  {
  }

  /**
   * Toggling the returned record again sends the original flag back, so the
   * stored record is exactly the one before the first toggle.
   */
  lemma ToggleTwiceRestores(t: Task)
    ensures var once := Merge(t, ToggleRequest(t).patch);
      Merge(once, ToggleRequest(once).patch) == t
  {
    ToggleFlipsCompleted(t);
    ToggleFlipsCompleted(t.(completed := !t.completed));
  }

  /**
   * An edit submit keeps the record's id, creation time and completion flag
   * and takes title, due date and priority from the form.
   */
  lemma EditKeepsIdentity(t: Task, f: Form)
    ensures Merge(t, FormPatch(f)) == Task(t.id, f.title, Some(f.dueDate), f.priority, t.completed, t.createdAt)
  {
  }

  /** Replacing the first record with an id by one of the same id keeps it the first. */
  lemma FirstIndexAfterReplace(s: seq<Task>, id: string, u: Task)
    requires HasId(s, id) && u.id == id
    ensures FirstIndex(s[FirstIndex(s, id) := u], id) == FirstIndex(s, id)
  {
    var i := FirstIndex(s, id);
    var s' := s[i := u];
    assert s'[i].id == id;
    assert forall j :: 0 <= j < i ==> s'[j].id != id;
  }

  /** The cache mirrors the store and the store's ids are unique. */
  ghost predicate InSync(app: TodoApp, store: Store)
    reads app, store
  {
    app.todos == store.Todos() && UniqueIds(store.Todos())
  }

  /**
   * A submit from a synchronised component: with an empty title nothing is
   * sent and nothing changes; otherwise the create or the update runs on the
   * store, the component applies the answer, and the two stay in sync with
   * the form back in create mode. The id and time are the ones the server
   * would read from its clock.
   */
  method SubmitRoundTrip(app: TodoApp, store: Store, id: string, createdAt: string)
    requires InSync(app, store) && !HasId(store.Todos(), id)
    modifies app, store
    ensures InSync(app, store) && app.Sections() == CategorizeTodos(store.Todos())
    ensures old(app.form.title) == "" ==>
      && app.todos == old(app.todos) && app.form == old(app.form)
      && app.editingId == old(app.editingId) && store.file == old(store.file)
    ensures old(app.form.title) != "" ==> app.form == EMPTY_FORM && !app.Editing()
  {
    var req := app.Submit();
    if req.Some? && req.value.Post? {
      var r := store.Create(req.value.body, id, createdAt);
      app.Created(r.task);
    } else if req.Some? && req.value.Put? {
      ghost var before := store.Todos();
      var r := store.Update(req.value.id, req.value.patch);
      if r.Success? {
        ReplaceMatchesUpdate(before, req.value.id, req.value.patch);
      } else {
        ErrorKeepsCache(before, r);
      }
      app.Updated(r);
    }
  }

  /** A toggle from a synchronised component keeps it in sync. */
  method ToggleRoundTrip(app: TodoApp, store: Store, todo: Task)
    requires InSync(app, store)
    modifies app, store
    ensures InSync(app, store) && app.Sections() == CategorizeTodos(store.Todos())
    ensures app.form == old(app.form) && app.editingId == old(app.editingId)
  {
    var req := ToggleRequest(todo);
    ghost var before := store.Todos();
    var r := store.Update(req.id, req.patch);
    if r.Success? {
      ReplaceMatchesUpdate(before, req.id, req.patch);
    } else {
      ErrorKeepsCache(before, r);
    }
    app.Toggled(r);
  }

  /** A delete from a synchronised component keeps it in sync, found or not. */
  method DeleteRoundTrip(app: TodoApp, store: Store, id: string)
    requires InSync(app, store)
    modifies app, store
    ensures InSync(app, store) && app.Sections() == CategorizeTodos(store.Todos())
    ensures app.form == old(app.form) && app.editingId == old(app.editingId)
  {
    ghost var before := store.Todos();
    var r := store.Delete(id);
    if r.Failure? {
      DeleteAbsent(before, id);
    }
    app.Deleted(id);
  }

  /**
   * Toggling a record twice through the API, the second time from the
   * returned record, leaves the store's list exactly as it was when the
   * component's copy had the stored completion flag.
   */
  method ToggleTwice(store: Store, todo: Task) returns (first: Reply, second: Reply)
    modifies store
    ensures !HasId(old(store.Todos()), todo.id) ==>
      first == NOT_FOUND_REPLY && second == NOT_FOUND_REPLY && store.file == old(store.file)
    ensures (HasId(old(store.Todos()), todo.id) &&
             old(store.Todos())[FirstIndex(old(store.Todos()), todo.id)].completed == todo.completed) ==>
      first.Success? && second.Success? && store.Todos() == old(store.Todos())
  {
    ghost var before := store.Todos();
    first := store.Update(todo.id, ToggleRequest(todo).patch);
    var again := if first.Success? then first.task else todo;
    if first.Success? {
      ghost var i := FirstIndex(before, todo.id);
      FirstIndexAfterReplace(before, todo.id, again);
      if before[i].completed == todo.completed {
        ToggleFlipsCompleted(before[i]);
        ToggleTwiceRestores(before[i]);
      }
    }
    second := store.Update(again.id, ToggleRequest(again).patch);
    if first.Success? && before[FirstIndex(before, todo.id)].completed == todo.completed {
      assert before[FirstIndex(before, todo.id) := again][FirstIndex(before, todo.id) := before[FirstIndex(before, todo.id)]] == before;
    }
  }

  /** Deleting an id twice: the first answer is the record when it exists, the second is always 404. */
  method DeleteTwice(store: Store, id: string) returns (first: Reply, second: Reply)
    modifies store
    ensures first.Success? <==> HasId(old(store.Todos()), id)
    ensures second == NOT_FOUND_REPLY
    ensures store.Todos() == WithoutId(old(store.Todos()), id)
  {
    ghost var before := store.Todos();
    first := store.Delete(id);
    if first.Failure? {
      DeleteAbsent(before, id);
    }
    DeleteRemovesAll(before, id);
    second := store.Delete(id);
  }

  /** A created record is listed once, last, behind the records that were there. */
  method CreateThenList(store: Store, body: Draft, id: string, createdAt: string) returns (created: Reply, list: seq<Task>)
    requires !HasId(store.Todos(), id)
    modifies store
    ensures created.Success? && list == old(store.Todos()) + [created.task]
    ensures FirstIndex(list, id) == |old(store.Todos())| && WithoutId(list, id) == old(store.Todos())
  {
    ghost var before := store.Todos();
    created := store.Create(body, id, createdAt);
    list := store.List();
    AppendedIsOnlyMatch(before, created.task);
  }
}
