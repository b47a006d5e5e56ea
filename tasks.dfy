/** Task records and the messages the browser and the server exchange over the HTTP API. */
module Tasks {

  datatype Option<T> = None | Some(value: T) {
    function GetOr(default: T): T {
      match this
      case Some(v) => v
      case None => default
    }
  }

  /** The three priorities a task can have; the form's select offers exactly these. */
  datatype Priority = High | Medium | Low

  /** The string under which a priority is stored in JSON. */
  function PriorityName(p: Priority): string {
    match p
    case High => "High"
    case Medium => "Medium"
    case Low => "Low"
  }

  /**
   * A stored todo record. `dueDate` is None when the creating request carried
   * no `dueDate` key (JSON drops undefined members when the file is written).
   */
  datatype Task = Task(
    id: string,
    title: string,
    dueDate: Option<string>,
    priority: Priority,
    completed: bool,
    createdAt: string)

  /** Body of a create request: the members the server copies into the new record. */
  datatype Draft = Draft(title: string, dueDate: Option<string>, priority: Priority)

  /**
   * Body of an update request: one optional member per known key of a task.
   * Some(v) means the key is present in the JSON body with value v.
   */
  datatype Patch = Patch(
    id: Option<string>,
    title: Option<string>,
    dueDate: Option<string>,
    priority: Option<Priority>,
    completed: Option<bool>,
    createdAt: Option<string>)

  const OK: nat := 200
  const CREATED: nat := 201
  const NOT_FOUND: nat := 404
  const NOT_FOUND_MESSAGE: string := "Not found"

  /**
   * A response of the API: a status with the affected record as its body, or
   * a status with an `{ error }` body.
   */
  datatype Reply = Success(status: nat, task: Task) | Failure(status: nat, error: string)

  const NOT_FOUND_REPLY: Reply := Failure(NOT_FOUND, NOT_FOUND_MESSAGE)

  /** A JSON member value, as a JavaScript property read sees it. */
  datatype Json = Undefined | JString(text: string) | JBool(flag: bool)

  /** `task[key]` in JavaScript: the record viewed as a JSON object. */
  function Lookup(t: Task, key: string): Json {
    if key == "id" then JString(t.id)
    else if key == "title" then JString(t.title)
    else if key == "dueDate" then (if t.dueDate.Some? then JString(t.dueDate.value) else Undefined)
    else if key == "priority" then JString(PriorityName(t.priority))
    else if key == "completed" then JBool(t.completed)
    else if key == "createdAt" then JString(t.createdAt)
    else Undefined
  }

  /** `body[key]` in JavaScript for a create body; Undefined when the key is absent. */
  function DraftLookup(d: Draft, key: string): Json {
    if key == "title" then JString(d.title)
    else if key == "dueDate" then (if d.dueDate.Some? then JString(d.dueDate.value) else Undefined)
    else if key == "priority" then JString(PriorityName(d.priority))
    else Undefined
  }

  /** `body[key]` in JavaScript for an update body; Undefined when the key is absent. */
  function PatchLookup(p: Patch, key: string): Json {
    if key == "id" then (if p.id.Some? then JString(p.id.value) else Undefined)
    else if key == "title" then (if p.title.Some? then JString(p.title.value) else Undefined)
    else if key == "dueDate" then (if p.dueDate.Some? then JString(p.dueDate.value) else Undefined)
    else if key == "priority" then (if p.priority.Some? then JString(PriorityName(p.priority.value)) else Undefined)
    else if key == "completed" then (if p.completed.Some? then JBool(p.completed.value) else Undefined)
    else if key == "createdAt" then (if p.createdAt.Some? then JString(p.createdAt.value) else Undefined)
    else Undefined
  }

  /** The JSON view loses nothing: two tasks that agree on every key are the same task. */
  lemma LookupDeterminesTask(a: Task, b: Task)
    requires forall key :: Lookup(a, key) == Lookup(b, key)
    ensures a == b
  {
    assert Lookup(a, "id") == Lookup(b, "id");
    assert Lookup(a, "title") == Lookup(b, "title");
    assert Lookup(a, "dueDate") == Lookup(b, "dueDate");
    assert Lookup(a, "completed") == Lookup(b, "completed");
    assert Lookup(a, "createdAt") == Lookup(b, "createdAt");
    assert Lookup(a, "priority") == Lookup(b, "priority");
    assert PriorityName(a.priority) == PriorityName(b.priority);
    match a.priority
    case High => assert PriorityName(b.priority)[0] == 'H';
    case Medium => assert PriorityName(b.priority)[0] == 'M';
    case Low => assert PriorityName(b.priority)[0] == 'L';
  }
}
