# Task & CRM dashboard: the load-and-group step

The dashboard is a single page that loads tasks, contacts and deals from a
backend and shows them on a kanban board and in two side lists. Its only
logic is the load step of the `App` component and the values the page
derives from its state. This project models that logic in Dafny:

- **Grouping** (`Grouping.dfy`): the grouping object with exactly three keys
  (`todo`, `in_progress`, `done`), the lookup of a task's status among those
  keys with the fall-back to `todo`, and the loop that walks the fetched
  tasks in order and appends each one to its bucket. The loop (`GroupTasks`)
  is proved equal to an order-preserving filter per bucket (`Group`). Lemmas
  about `Group` cover the partition, multiplicities, exactly one bucket per
  task, and fetch order within a bucket.
- **Fetch** (`Fetch.dfy`): the joint await of the three requests. Any
  rejection makes the whole load fail. A `null` body counts as the empty
  list. The state is replaced only when all three requests resolved.
  `FetchAll` is the load as the page runs it. `Load` is its specification.
- **View** (`View.dfy`): the four stat cards ("Open Tasks" is to-do plus in
  progress, "Completed" is done, and the contact and deal totals) and the
  `slice(0, 6)` cut of the contact and deal lists.
- **Entities**, **Wrappers**: the task, contact and deal records, and
  `Option`.

The network, the event loop and the framework's state hooks are not modelled.
Each request is an input giving how it settled: `Rejected` when the transport
failed or `r.json()` failed, or `Resolved(body)` where `body` is `None` for a
`null` (or otherwise falsy) JSON body. The page state before and after the
load are plain values.

Not every malformed response makes the load fail. A contacts or deals body
that is truthy but not a list is stored as it is, because only a falsy body
is replaced by the empty list (src/App.jsx:112-113). The model follows the
code for `null` bodies and leaves non-list bodies out (see below).

The three state setters are modelled as one
replacement of the whole state, because they run one after another with
nothing in between that can throw.

## Model

| member | source | states |
|---|---|---|
| Grouping.BucketOf | src/App.jsx:109 | a status equal to a bucket's key selects that bucket; a status equal to none of "todo", "in_progress", "done" selects the to-do bucket |
| Grouping.GroupTasks | src/App.jsx:107-110 | the loop that starts from three empty buckets and appends each task in order returns exactly the per-bucket filters of the input (`Group`) |
| Grouping.FilterCount | src/App.jsx:108-109 | a task occurs in a bucket as often as in the fetched list when its status selects that bucket, and not at all otherwise |
| Grouping.GroupPartition | src/App.jsx:107-110 | the multiset union of the three buckets equals the fetched list, so their lengths add up to the number of fetched tasks |
| Grouping.ExactlyOneBucket | src/App.jsx:109 | every fetched task is in the bucket its status selects and in neither other bucket; a task with an unknown status is in the to-do bucket |
| Grouping.Filter | src/App.jsx:108-109 | the order-preserving filter of the fetched list by one bucket's rule; it is never longer than the list |
| Grouping.FilterMembers | src/App.jsx:109 | a bucket holds only fetched tasks whose status selects it |
| Grouping.Group | src/App.jsx:107-110 | the three buckets, each the filter of the fetched list by its rule, so every bucket holds only fetched tasks whose status selects it |
| Grouping.FilterConcat | src/App.jsx:108-109 | grouping a list made of two parts appends the second part's buckets after the first part's, so the tasks are handled one by one in fetch order |
| Grouping.FilterIsSubsequence | src/App.jsx:108-109 | each bucket is a subsequence of the fetched list: fetch order is kept within a bucket |
| Grouping.GroupExample | src/App.jsx:107-110 | statuses "todo", "done", "blocked" put the first and third task in to-do and the second in done |
| Fetch.Initial | src/App.jsx:95-97 | the state before any load: no task in any bucket, no contacts, no deals |
| Fetch.OrEmpty | src/App.jsx:108-113 | a `null` body reads as the empty list and a list body is kept unchanged, as the fallback to the empty list does |
| Fetch.JoinAll | src/App.jsx:102-106 | the joint await yields all three bodies exactly when every request resolved, and fails when any one was rejected |
| Fetch.Load | src/App.jsx:100-117 | a rejected request leaves the previous state; when all three resolved the buckets are the grouping of the fetched tasks and the lists are the fetched contacts and deals, `null` read as empty |
| Fetch.FetchAll | src/App.jsx:100-117 | the load as run returns the state `Load` specifies: the previous state on failure, the grouped tasks and the stored lists on success |
| Fetch.FailureKeepsState | src/App.jsx:95-116 | if any request is rejected the state is unchanged; from the initial state that is three empty buckets, no contacts and no deals |
| Fetch.SuccessReplacesState | src/App.jsx:111-113 | after a successful load nothing of the previous state survives: the result does not depend on it |
| Fetch.SuccessStoresResponses | src/App.jsx:108-113 | on success the contacts and deals are stored unchanged (the empty list for a `null` body), a `null` task body gives three empty buckets, and the buckets hold exactly the fetched tasks |
| View.StatsOf | src/App.jsx:128-131 | "Open Tasks" plus "Completed" counts every grouped task, "Completed" is the done bucket's length, and the contact and deal cards are the stored list lengths |
| View.Take | src/App.jsx:146-147 | `slice(0, n)` returns a prefix of length min(length, n) |
| View.Displayed | src/App.jsx:146-147 | a side list shows the whole list when it has at most six entries, and exactly its first six otherwise |
| View.DisplayedEightContacts | src/App.jsx:146 | eight stored contacts display as the first six |
| View.DoneCount | src/App.jsx:129 | the done bucket is as long as the number of fetched tasks whose status is exactly "done" |
| View.StatsAfterLoad | src/App.jsx:128-131 | after a successful load "Completed" counts the tasks with status "done", "Open Tasks" counts the rest, the two add up to the number of fetched tasks, and the contact and deal cards count the whole stored lists |
| View.StatsOnFailure | src/App.jsx:128-131 | after a failed first load every stat card shows zero |

## Left out

- Rendering, styling and layout (`StatCard`, `SectionTitle`, `Topbar`, `KanbanColumn`, `CRMList`, the JSX of `App`): presentation only.
- `fetch`, `Promise.all`, `async`/`await`, `useEffect`/`useState` and the configured base URL: network I/O, event-loop scheduling and framework hooks. They appear only as the `Settled` input of each request.
- `console.error` in the failure branch: output only. The model keeps the state and logs nothing.
- Date and number formatting (`toLocaleDateString`, `toLocaleString`): foreign locale libraries.
- React list keys and the priority colour: view concerns.
- A JSON body that is truthy but not a list (an object, a number, a string): not modelled. Such a body arises in practice because `fetch` resolves on an HTTP 4xx or 5xx status and `r.json()` then parses the error object the backend sends (such as `{"detail": …}`). For tasks, `forEach` would throw and the load would fail. For contacts or deals, the non-list would be stored, and rendering then throws: at `slice(0,6)` for an object or number body (src/App.jsx:146-147), and at `items.map` in `CRMList` for a string body (src/App.jsx:75), whose `slice(0,6)` is a string again. The model's bodies are `null` or lists, so it does not capture that failed render.
- A `null` entry inside the task list: not modelled. Reading its status would throw and the load would fail.
- Status strings that name a property every JavaScript object inherits (such as `"toString"`, `"constructor"` or `"__proto__"`): the lookup is modelled as membership among exactly the three own keys. In the program, `grouped[t.status]` is then truthy but has no `push`, so the call throws inside the `try`, no setter runs and the previous state stays (src/App.jsx:109, 114-116). The model instead puts such a task in the to-do bucket and commits the load.
- Statuses that are not strings: a missing, `null`, number or boolean status becomes a key that is not in `grouped`, so the task goes to to-do, as an unknown string does (src/App.jsx:109). An array whose string form is a key, such as `["done"]`, goes to that bucket. `Task.status` is a `string`, so the model cannot represent these statuses.
- Deal values are integers here; JavaScript numbers are floating point, but the value is only passed through.
- Leaving the page while the requests are in flight: the source does not cancel them, and the model has no notion of unmounting.
