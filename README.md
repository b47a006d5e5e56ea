# Todo app: task store and browser view-model in Dafny

The todo app is a small single-page application with two parts:

- **Server** (`backend/server.js`): an HTTP API that keeps a list of task records in one JSON file. Every handler reads the whole file. POST, and PUT or DELETE on a known id, write the whole list back. GET and the 404 answers write nothing.
  - `GET /api/todos` lists the records.
  - `POST /api/todos` appends a new record. The server assigns its id and creation time.
  - `PUT /api/todos/:id` merges the request body over the first record with that id.
  - `DELETE /api/todos/:id` removes every record with that id.
  - An unknown id gets a 404 answer with the body `{ error: 'Not found' }`.
- **Browser component** (`frontend/src/App.jsx`): keeps a cached copy of the list, a create/edit form and an edit mode. It renders the list as two sections:
  - "Upcoming": the open tasks, stably sorted by priority, High before Medium before Low.
  - "Completed": the completed tasks, in list order.

The project has these modules:

- `Tasks` (`tasks.dfy`): the data model. It has the task record, the create body (`Draft`), the update body (`Patch`, one optional member per key), the API reply and the status constants. It also has the JSON key view of records and bodies (`Lookup`, `PatchLookup`) that the object spread works on.
- `TaskLists` (`task_lists.dfy`): `Array.prototype.filter` on task lists and the lemmas about it:
  - membership
  - order (through an explicit index map)
  - concatenation
  - permutation of a filter with its complement
  - the "remove every record with this id" filter that both sides apply
- `Server` (`server.dfy`):
  - the file as a `StoredFile`
  - `findIndex` (`FirstIndex`)
  - the object spread (`Merge`, specified by `IsSpread`)
  - lemmas about merge, append and delete
  - the class `Store`, whose handlers read the file and, except for GET and the 404 answers, rewrite it. It has a counter of file writes, so the contracts can state which answers leave the file untouched.
- `Categorize` (`categorize.dfy`): `PRIORITY_ORDER`, the stable sort of the upcoming section and `categorizeTodos`. The ECMAScript specification requires `Array.prototype.sort` to be stable (since ECMAScript 2019). The model uses an insertion sort, proved against a reference "bucket" order. The choice is harmless because `StableSortIsUnique` shows that every sorted, stable arrangement by rank is the same list.
- `App` (`app.dfy`): the class `TodoApp` with the component's three state variables. Each handler is modelled in two parts:
  - the request it sends, as a value: `TodoApp.Submit` for `handleSubmit`, the function `ToggleRequest` for `handleToggle`, and the id alone for `handleDelete`;
  - one method per response callback that changes the state: `Updated`, `Created`, `Toggled`, `Deleted`.

  `handleChange`, `handleEdit`, Cancel and the initial load change the state directly and are methods too. The response to an update is applied by `ApplyUpdate`, which compares each cached id with the body's `id`. An `{ error }` body has no `id`, so nothing matches.
- `Sync` (`sync.dfy`): the two halves together. Each user action sends its request to a `Store`, and the component applies the answer. Starting from a cache equal to the store's list with unique ids, the cache stays equal to the store's list. This module also has the two-step scenarios: toggling twice restores the record, a second delete gets 404, and a created record is listed last.

The server's clock (`Date.now()` for the id, `new Date().toISOString()` for `createdAt`) is a parameter of `Store.Create`.

Two consequences of the code are worth knowing:

- The PUT handler spreads the whole body over the record, so a body that carries `id` or `createdAt` overwrites them. `Patch` has both members and `Merge` honours them. Uniqueness of ids is proved only for bodies without an `id`, or with the same id. The component's bodies (`FormPatch`, `ToggleRequest`) carry neither member.
- `Categorize.CategorizeExample` works through one input: tasks Low, High, Medium and a completed High. The upcoming section is High, Medium, Low, and the completed section holds the last task.

## Model

| member | source | states |
|---|---|---|
| Server.FirstIndex | backend/server.js:44 | `findIndex`: -1 exactly when no record has the id; otherwise the index holds the id and no earlier index does |
| Server.Merge | backend/server.js:46 | `{ ...todos[idx], ...req.body }`: every key present in the body takes the body's value, every other key keeps the record's value (`IsSpread`) |
| Server.MergeIsSpread | backend/server.js:46 | the spread determines the record: any record related to a record and body by `IsSpread` is `Merge` of them |
| Server.MergeIdempotent | backend/server.js:46 | sending the same update body twice stores the same record as sending it once |
| Server.MergeCompose | backend/server.js:46 | two update bodies in turn act like one body in which the later body's keys win |
| Tasks.LookupDeterminesTask | backend/server.js:29-36 | two records that agree on every JSON key are equal, so the key view of a record loses nothing |
| Server.AppendedIsOnlyMatch | backend/server.js:37 | a record with a fresh id pushed onto the list is found by `findIndex` at the end, removing its id gives back the old list, and ids stay unique |
| Server.FilterKeepsUniqueIds | backend/server.js:56 | filtering a list with unique ids keeps them unique |
| Server.DeleteRemovesOne | backend/server.js:53-56 | with unique ids, deleting a present id removes exactly the record at its index and keeps the others in order |
| Server.DeleteRemovesAll | backend/server.js:56 | after the delete filter no record has the id, so `findIndex` gives -1 |
| Server.DeleteAbsent | backend/server.js:56 | filtering out an id that no record has keeps the list unchanged |
| Server.ReplaceKeepsUniqueIds | backend/server.js:46 | replacing one record keeps ids unique when the new record keeps the id or has an id no record has |
| Server.Contents | backend/server.js:13-17 | what `readTodos` yields for each state of the file: the stored list, or the empty list for a missing or empty file |
| Server.Store.constructor | backend/server.js:8 | the store starts on the given file with no writes |
| Server.Store.ReadTodos | backend/server.js:13-17 | a missing or empty file reads as the empty list; otherwise the file's list |
| Server.Store.WriteTodos | backend/server.js:19-21 | the file then holds exactly the given list; one more write |
| Server.Store.List | backend/server.js:23-25 | GET answers with the stored list in stored order and writes nothing |
| Server.Store.Create | backend/server.js:27-40 | POST answers 201 with a not completed record carrying the given id and time and the body's title, due date and priority; the list becomes the old list plus that record at the end; one write; ids stay unique when the id is fresh |
| Server.Store.Update | backend/server.js:42-49 | PUT: with no record of the id, answers 404 "Not found" and leaves the file and the write count alone; otherwise answers 200 with the merge of the first match, the list is the old list with only that index replaced, one write; ids stay unique when the body keeps the id |
| Server.Store.Delete | backend/server.js:51-59 | DELETE: with no record of the id, answers 404 and leaves the file alone; otherwise answers with the first match, the list becomes the old list without every record of the id, one write; ids stay unique |
| TaskLists.Filter | backend/server.js:56 | `filter`: never longer than the input, and every kept element passes |
| TaskLists.FilterMembers | frontend/src/App.jsx:11-13 | an element is in the filtered list exactly when it is in the list and passes |
| TaskLists.KeptAtTake | frontend/src/App.jsx:13 | a kept element extends the index map of the filtered list by one index |
| TaskLists.KeptAtSkip | frontend/src/App.jsx:13 | a rejected element leaves the index map as it is |
| TaskLists.FilterKeepsOrder | frontend/src/App.jsx:13 | the k-th kept element is the element at the k-th passing index, and the indices increase strictly and are exactly the passing ones |
| TaskLists.FilterConcat | frontend/src/App.jsx:11 | filtering distributes over concatenation |
| TaskLists.FilterCons | frontend/src/App.jsx:11 | filtering a list with a known first element |
| TaskLists.FilterSkips | backend/server.js:56 | a rejected element in the middle contributes nothing |
| TaskLists.FilterDropsOne | backend/server.js:56 | one rejected element between passing ones is the only one removed |
| TaskLists.FilterAll | backend/server.js:56 | a filter every element passes keeps the list |
| TaskLists.FilterNone | frontend/src/App.jsx:11 | the filter gives the empty list exactly when no element passes |
| TaskLists.FilterSplit | frontend/src/App.jsx:11-13 | a filter and its complement together hold every element exactly as often as the list does |
| TaskLists.FilterSplitStep | frontend/src/App.jsx:11-13 | the first element goes to exactly one of a filter and its complement |
| TaskLists.WithoutId | backend/server.js:56 | `t.id !== id` filter: a record survives exactly when it is in the list and has another id |
| Categorize.Rank | frontend/src/App.jsx:5 | `PRIORITY_ORDER`: High 0, Medium 1, Low 2 |
| Categorize.Insert | frontend/src/App.jsx:12 | one insertion step of the sort: the result holds the inserted task plus the list's tasks |
| Categorize.SortByRank | frontend/src/App.jsx:12 | `.sort` with the rank comparator: the result is a permutation of its input (sortedness and stability in SortByRankCorrect) |
| Categorize.WithPriority | frontend/src/App.jsx:12 | the tasks of one priority all have that priority |
| Categorize.InsertSkip | frontend/src/App.jsx:12 | inserting past a prefix of lower-ranked tasks leaves the prefix in front |
| Categorize.BucketsHead | frontend/src/App.jsx:12 | the reference order of a list with its first element split off |
| Categorize.InsertIntoBuckets | frontend/src/App.jsx:12 | inserting a task into a bucketed list puts it at the front of its priority's bucket |
| Categorize.SortIsBuckets | frontend/src/App.jsx:12 | the sort gives the reference order: High tasks, then Medium, then Low, each in list order |
| Categorize.BucketsSorted | frontend/src/App.jsx:5 | the reference order is sorted by `PRIORITY_ORDER` |
| Categorize.BucketsPermutation | frontend/src/App.jsx:12 | the reference order is a permutation of the list |
| Categorize.PriorityCounts | frontend/src/App.jsx:12 | every task is counted in exactly one priority's bucket |
| Categorize.BucketsOfCons | frontend/src/App.jsx:12 | the reference order of a list puts its first task at the front of that task's bucket |
| Categorize.OtherPriority | frontend/src/App.jsx:12 | a list of one priority has no tasks of another |
| Categorize.BucketsStable | frontend/src/App.jsx:12 | the reference order keeps each priority's tasks in list order |
| Categorize.SortedTail | frontend/src/App.jsx:12 | the tail of a sorted list is sorted and ranks no lower than the head |
| Categorize.BucketsBelow | frontend/src/App.jsx:12 | a list ranked at least r has empty buckets below r |
| Categorize.SortedIsBuckets | frontend/src/App.jsx:12 | a list already sorted by rank is its own reference order |
| Categorize.HeadJoinsBuckets | frontend/src/App.jsx:12 | a head ranking no lower than a bucketed tail joins the first bucket |
| Categorize.SortByRankCorrect | frontend/src/App.jsx:12 | the sort's result is sorted by rank, is a permutation of its input, and is stable for every priority |
| Categorize.StableSortIsUnique | frontend/src/App.jsx:12 | every list sorted by rank that keeps each priority's order is the sort's result |
| Categorize.CategorizeTodos | frontend/src/App.jsx:8-15 | upcoming holds exactly the open tasks, sorted by rank and stable; completed holds exactly the completed tasks; together they are a permutation of the list |
| Categorize.CompletedKeepsOrder | frontend/src/App.jsx:13 | the completed section is the completed tasks in list order, through an explicit index map |
| Categorize.ExampleSplit | frontend/src/App.jsx:11-13 | three open tasks and a completed one split into the three and the one |
| Categorize.ExampleSort | frontend/src/App.jsx:12 | sorting Low, High, Medium gives High, Medium, Low |
| Categorize.CategorizeExample | frontend/src/App.jsx:8-15 | for tasks Low, High, Medium and a completed High, upcoming is High, Medium, Low and completed is the last task |
| App.ReplyId | frontend/src/App.jsx:41 | `updated.id`: the record's id for a record body, undefined for an `{ error }` body |
| App.ApplyUpdate | frontend/src/App.jsx:41 | `map`: same length, each cached record whose id equals the body's `id` replaced by the body, every other record kept |
| App.ErrorKeepsCache | frontend/src/App.jsx:39-41 | an `{ error }` body has no `id`, so applying it leaves the cache unchanged |
| App.ReplaceAbsent | frontend/src/App.jsx:76 | a returned record whose id is not cached leaves the cache as it is |
| App.FormDraft | frontend/src/App.jsx:49 | the create body has exactly the form's keys, with the form's values |
| App.FormPatch | frontend/src/App.jsx:37 | the update body has exactly the form's keys, with the form's values, so no id, completion flag or creation time |
| App.ToggleRequest | frontend/src/App.jsx:70-73 | a PUT to the record's id whose body has only the `completed` key, holding the negated flag |
| App.TodoApp.Editing | frontend/src/App.jsx:33 | `if (editingId)`: true exactly when the id is set and is not the empty string, which is falsy |
| App.TodoApp.Sections | frontend/src/App.jsx:79 | the two rendered sections are `categorizeTodos` of the cache |
| App.TodoApp.constructor | frontend/src/App.jsx:18-20 | the cache is empty, the form is empty with priority Medium, and the component is not editing |
| App.TodoApp.Loaded | frontend/src/App.jsx:22-24 | the initial fetch makes the cache the server's list and changes nothing else |
| App.TodoApp.Change | frontend/src/App.jsx:26-28 | the input named by the event takes its value; the other inputs, the cache and the edit mode keep theirs |
| App.TodoApp.Submit | frontend/src/App.jsx:30-57 | nothing is sent exactly when the title is empty; in edit mode a PUT of the form to the edited id; otherwise a POST of the form |
| App.TodoApp.Updated | frontend/src/App.jsx:40-44 | the edit response is applied to the cache, the edit mode ends and the form is cleared |
| App.TodoApp.Created | frontend/src/App.jsx:52-55 | the created record is appended to the cache and the form is cleared |
| App.TodoApp.Edit | frontend/src/App.jsx:59-62 | edit mode on the record's id, with the form holding its title, due date (or "") and priority; the cache is kept |
| App.TodoApp.Deleted | frontend/src/App.jsx:64-67 | every cached record with the id is removed whatever the server answered; the form is kept |
| App.TodoApp.Toggled | frontend/src/App.jsx:69-77 | the toggle response is applied to the cache; the form and edit mode are kept |
| App.TodoApp.Cancel | frontend/src/App.jsx:104 | only available in edit mode, where the button is rendered; the edit mode ends and the form is cleared; the cache is kept |
| Sync.ReplaceMatchesUpdate | frontend/src/App.jsx:41 | with unique ids, the component's replace-by-id changes exactly the index the server's PUT replaced |
| Sync.ToggleFlipsCompleted | frontend/src/App.jsx:69-77 | a toggle flips only the completion flag of the stored record |
| Sync.ToggleTwiceRestores | frontend/src/App.jsx:69-77 | toggling the returned record again gives back the record before the first toggle |
| Sync.EditKeepsIdentity | frontend/src/App.jsx:33-38 | an edit submit keeps id, creation time and completion and takes title, due date and priority from the form |
| Sync.FirstIndexAfterReplace | backend/server.js:44-46 | after the PUT replaces a record by one of the same id, `findIndex` finds the same index |
| Sync.SubmitRoundTrip | frontend/src/App.jsx:30-57 | a submit against the store keeps the cache equal to the store's list with unique ids, so the rendered sections are those of the store's list; with an empty title nothing changes; otherwise the form is cleared and the component is in create mode |
| Sync.ToggleRoundTrip | frontend/src/App.jsx:69-77 | a toggle against the store keeps the cache equal to the store's list with unique ids, and the sections are the store's, with form and edit mode kept |
| Sync.DeleteRoundTrip | frontend/src/App.jsx:64-67 | a delete against the store keeps the cache equal to the store's list with unique ids, found or not, and the sections are the store's |
| Sync.ToggleTwice | backend/server.js:42-49 | two toggles of a present record from an up-to-date copy leave the stored list as it was; for an absent id both answers are 404 and the file is untouched |
| Sync.DeleteTwice | backend/server.js:51-59 | the first delete succeeds exactly when the id is present, the second always answers 404, and the list is the old one without the id |
| Sync.CreateThenList | backend/server.js:23-40 | after a create with a fresh id, the listing is the old list plus the new record, found last and only there |

## Left out

- The Express setup, `cors`, `express.json`, the port and `app.listen` (`backend/server.js:1-11, 61-63`): framework wiring with no logic of the store.
- File system errors and a file that is not valid JSON: `JSON.parse` throwing is not modelled, and the file is either missing, empty or holds a list of records.
- `Date.now()` and `new Date().toISOString()`: the id and creation time are parameters of `Server.Store.Create`. The code does not guarantee unique ids (two creates in the same millisecond collide), so uniqueness is a hypothesis of the lemmas that need it. Without it the two sides drift apart. With two records sharing an id, the component's `map` (`frontend/src/App.jsx:41`) replaces both with the returned record, while the PUT handler (`backend/server.js:44-46`) replaces only the first.
- Request bodies are typed. There are no missing `title`/`priority` members in a create body, no members other than the six task keys in an update body, no `null` values, and no priority outside High/Medium/Low. With valid priorities, `todo.priority || 'Medium'` in `handleEdit` is the identity.
- `App.TodoApp.Submit`: the request is returned as a value. The `fetch` itself, its asynchrony, the ordering of concurrent responses and network failures are not modelled. A response is applied by a separate method (`Updated`, `Created`, `Toggled`, `Deleted`) in the order the caller chooses.
- `App.TodoApp.Deleted` follows the code: the cache drops the id whatever the server answered. A 404 on delete therefore still removes the record from the cache.
- `App.TodoApp.Updated` follows the code: an error body has no `id`, so the cache is unchanged, but the form is still cleared and edit mode ends.
- The rendering (`frontend/src/App.jsx:81-141`, the `TaskList` component, date formatting, CSS classes), the `PRIORITIES` select options and the `required` attribute on the title input are not modelled.
- The `datetime-local` format of due dates and ISO 8601 creation times are opaque strings.
- `Categorize.SortByRank`: models the stable sort the ECMAScript specification requires, not an engine's algorithm. `Categorize.StableSortIsUnique` shows the result does not depend on that choice.
