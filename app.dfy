/**
 * The browser component: its cached task list, the create/edit form and the
 * edit mode, driven by the handlers' state updates.
 */
module App {
  import opened Tasks
  import opened TaskLists
  import opened Categorize

  /** The form's three inputs. */
  datatype Form = Form(title: string, dueDate: string, priority: Priority)

  /** `{ title: '', dueDate: '', priority: 'Medium' }`. */
  const EMPTY_FORM: Form := Form("", "", Medium)

  /** A change event from one of the form's inputs. */
  datatype FormInput = TitleInput(text: string) | DueDateInput(text: string) | PriorityInput(choice: Priority)

  /** `form[key]`: the form state viewed as the JSON object `JSON.stringify(form)` sends. */
  function FormLookup(f: Form, key: string): Json {
    if key == "title" then JString(f.title)
    else if key == "dueDate" then JString(f.dueDate)
    else if key == "priority" then JString(PriorityName(f.priority))
    else Undefined
  }

  /** A request the submit handler sends: a create to the collection or an update to one record. */
  datatype Request = Post(body: Draft) | Put(id: string, patch: Patch)

  /** `JSON.stringify(form)` as a create body: exactly the form's members. */
  function FormDraft(f: Form): (r: Draft)
    ensures forall key :: DraftLookup(r, key) == FormLookup(f, key)
  {
    Draft(f.title, Some(f.dueDate), f.priority)
  }

  /**
   * `JSON.stringify(form)` as an update body: exactly the form's members, so
   * it carries no id, completion flag or creation time.
   */
  function FormPatch(f: Form): (r: Patch)
    ensures forall key :: PatchLookup(r, key) == FormLookup(f, key)
  {
    Patch(None, Some(f.title), Some(f.dueDate), Some(f.priority), None, None)
  }

  /** `handleToggle`'s request: a PUT to the record's id whose body holds only the negated completion flag. */
  function ToggleRequest(todo: Task): (r: Request)
    ensures r.Put? && r.id == todo.id
    ensures forall key :: PatchLookup(r.patch, key) == if key == "completed" then JBool(!todo.completed) else Undefined
  {
    Put(todo.id, Patch(None, None, None, None, Some(!todo.completed), None))
  }

  /** `updated.id` for a response body: the record's id, or undefined for an `{ error }` body. */
  function ReplyId(reply: Reply): Option<string> {
    match reply
    case Success(_, task) => Some(task.id)
    case Failure(_, _) => None
  }

  /**
   * `todos.map(t => (t.id === updated.id ? updated : t))` for any response
   * body `updated`: a cached record is replaced exactly when its id equals the
   * body's `id`, and the list keeps its length and order.
   */
  function ApplyUpdate(s: seq<Task>, reply: Reply): (r: seq<Task>)
    ensures |r| == |s|
    ensures forall i :: 0 <= i < |s| ==> r[i] == if ReplyId(reply) == Some(s[i].id) then reply.task else s[i]
  {
    if s == [] then []
    else [if ReplyId(reply) == Some(s[0].id) then reply.task else s[0]] + ApplyUpdate(s[1..], reply)
  }

  /** An error body has no `id`, so no cached record matches it and the cache stays as it is. */
  lemma ErrorKeepsCache(s: seq<Task>, reply: Reply)
    requires reply.Failure?
    ensures ApplyUpdate(s, reply) == s
  {
    assert forall i :: 0 <= i < |s| ==> ReplyId(reply) != Some(s[i].id);
  }

  /** A returned record whose id is not cached leaves the cache as it is. */
  lemma ReplaceAbsent(s: seq<Task>, reply: Reply)
    requires reply.Success? && !HasId(s, reply.task.id)
    ensures ApplyUpdate(s, reply) == s
  {
    assert forall i :: 0 <= i < |s| ==> s[i].id != reply.task.id;
  }

  class TodoApp {
    /** The cached copy of the server's list. */
    var todos: seq<Task>
    var form: Form
    /** `editingId`: None stands for `null`. */
    var editingId: Option<string>

    /** `if (editingId)`: an id is being edited (the empty string is falsy). */
    predicate Editing()
      reads this
    {
      editingId.Some? && editingId.value != ""
    }

    /** The two sections rendered from the cache (`categorizeTodos(todos)` in the render). */
    function Sections(): Categories
      reads this
    {
      CategorizeTodos(todos)
    }

    constructor ()
      ensures todos == [] && form == EMPTY_FORM && editingId == None
    {
      todos := [];
      form := EMPTY_FORM;
      editingId := None;
    }

    /** The initial fetch's `setTodos`: the cache becomes the server's list. */
    method Loaded(list: seq<Task>)
      modifies this
      ensures todos == list && form == old(form) && editingId == old(editingId)
    {
      todos := list;
    }

    /** `handleChange`: the input named by the event takes its value; the form's other inputs keep theirs. */
    method Change(input: FormInput)
      modifies this
      ensures form == match input
        case TitleInput(text) => old(form).(title := text)
        case DueDateInput(text) => old(form).(dueDate := text)
        case PriorityInput(choice) => old(form).(priority := choice)
      ensures todos == old(todos) && editingId == old(editingId)
    {
      match input
      case TitleInput(text) => form := form.(title := text);
      case DueDateInput(text) => form := form.(dueDate := text);
      case PriorityInput(choice) => form := form.(priority := choice);
    }

    /**
     * `handleSubmit`: nothing is sent when the title is empty; otherwise the
     * form goes to the edited record's URL in edit mode and to the collection
     * otherwise. The state changes only when the response arrives.
     */
    method Submit() returns (req: Option<Request>)
      ensures req.None? <==> form.title == ""
      ensures form.title != "" && Editing() ==> req == Some(Put(editingId.value, FormPatch(form)))
      ensures form.title != "" && !Editing() ==> req == Some(Post(FormDraft(form)))
    {
      if form.title == "" {
        return None;
      }
      if Editing() {
        req := Some(Put(editingId.value, FormPatch(form)));
      } else {
        req := Some(Post(FormDraft(form)));
      }
    }

    /** The edit submit's response: the cache takes the returned record and the form returns to create mode. */
    method Updated(reply: Reply)
      modifies this
      ensures todos == ApplyUpdate(old(todos), reply)
      ensures editingId == None && form == EMPTY_FORM
    {
      todos := ApplyUpdate(todos, reply);
      editingId := None;
      form := EMPTY_FORM;
    }

    /** The create submit's response: the new record goes at the end of the cache and the form is cleared. */
    method Created(created: Task)
      modifies this
      ensures todos == old(todos) + [created]
      ensures form == EMPTY_FORM && editingId == old(editingId)
    {
      todos := todos + [created];
      form := EMPTY_FORM;
    }

    /** `handleEdit`: edit mode for the record, with the form filled from it. */
    method Edit(todo: Task)
      modifies this
      ensures editingId == Some(todo.id)
      ensures form == Form(todo.title, todo.dueDate.GetOr(""), todo.priority)
      ensures todos == old(todos)
    {
      editingId := Some(todo.id);
      form := Form(todo.title, todo.dueDate.GetOr(""), todo.priority);
    }

    /** The delete response, whatever its body: every cached record with the id goes. */
    method Deleted(id: string)
      modifies this
      ensures todos == WithoutId(old(todos), id)
      ensures form == old(form) && editingId == old(editingId)
    {
      todos := WithoutId(todos, id);
    }

    /** The toggle response: the cache takes the returned record. */
    method Toggled(reply: Reply)
      modifies this
      ensures todos == ApplyUpdate(old(todos), reply)
      ensures form == old(form) && editingId == old(editingId)
    {
      todos := ApplyUpdate(todos, reply);
    }

    /**
     * The Cancel button, rendered only while `editingId` is truthy: back to
     * create mode with a cleared form; the cache is untouched.
     */
    method Cancel()
      requires Editing()
      modifies this
      ensures editingId == None && form == EMPTY_FORM
      ensures todos == old(todos)
    {
      editingId := None;
      form := EMPTY_FORM;
    }
  }
}
