# Task board: client reconciliation, task form and user controller

A Dafny model of three pieces of a small realtime task board. The client shows a shared list of
tasks. It loads a snapshot over HTTP and then follows socket events (`taskCreated`, `taskUpdated`,
`taskDeleted`). The server registers users and logs them in.

- `task_list.dfy` (module `TaskList`): the three socket handlers' rewrites of the task list, as
  pure functions over `seq<Task>`. They are modelled as written. A created task is appended, not
  upserted, so an `_id` can end up listed twice. An update never inserts. A delete is a filter.
- `home.dfy` (module `Home`): the home page's state as a class `HomePage`. It holds `tasks`,
  `taskStats`, `loadingTasks`, `loadingStats` and a log of the requests the page issued. Each
  fetch routine is split at its `await`. `Start…` raises the loading flag and issues the request.
  `Finish…` stores the data on success, keeps it on failure, and lowers the flag in both cases.
  Each socket handler is one step: the list rewrite, then one statistics refetch.
- `task_form.dfy` (module `TaskForm`): the form as a class `Form`. It holds one `task` record and
  the calls the form made (`createTask`, `updateTask`, `onSave`), in order. The record starts at
  the default. It is overwritten when the selected task changes and edited one field at a time.
  On submit it is sent as an update when it has an `_id` and as a create otherwise. It is reset
  once the request resolves.
- `user_controller.dfy` (module `UserController`): `register` and `login` over a user
  collection keyed by email. `RegisterOutcome` and `Login` are the decision functions.
  `Register` is the step-by-step method against a `UserStore` object. The password hash, the
  hash comparison and the token signature are function parameters that either resolve or throw.
  Whether the store's `findOne` or `save` throws is also a parameter.
- `tasks.dfy`, `wrappers.dfy`: the shared `Task` record and `Option`.

`taskCreated` appends rather than upserting by `_id` (`client/src/pages/Home.jsx:54`), and so
does `TaskList.Created`.

## Model

| member | source | states |
|---|---|---|
| `TaskList.Created` | client/src/pages/Home.jsx:53-54 | the list grows by exactly one; the earlier entries are untouched and the new task is last |
| `TaskList.CreatedAddsOneEntryPerId` | client/src/pages/Home.jsx:54 | the number of entries with the new task's `_id` grows by one, so an `_id` already listed ends up listed at least twice |
| `TaskList.Updated` | client/src/pages/Home.jsx:58-60 | length and positions are kept; every entry with the updated `_id` becomes the updated task and every other entry is unchanged; the updated task appears iff its `_id` was listed; an absent `_id` leaves the list unchanged (no insert) |
| `TaskList.UpdatedIdempotent` | client/src/pages/Home.jsx:60 | applying the same update twice equals applying it once |
| `TaskList.Deleted` | client/src/pages/Home.jsx:65-66 | no remaining entry has the deleted `_id`; every task with another `_id` occurs exactly as often as before |
| `TaskList.DeletedIsSubsequence` | client/src/pages/Home.jsx:66 | the result keeps the surviving entries in their original order |
| `TaskList.DeletedLength` | client/src/pages/Home.jsx:66 | exactly as many entries are removed as carry the deleted `_id` |
| `TaskList.DeletedAbsentIsNoOp` | client/src/pages/Home.jsx:66 | deleting an `_id` that no entry carries leaves the list unchanged |
| `TaskList.DeletedIdempotent` | client/src/pages/Home.jsx:66 | deleting twice equals deleting once |
| `TaskList.DeletedAppend` | client/src/pages/Home.jsx:66 | filtering a concatenation is concatenating the filtered parts |
| `TaskList.DeleteAfterCreate` | client/src/pages/Home.jsx:53-67 | a delete of the `_id` a create just appended gives the same list as the delete alone |
| `TaskList.DeleteAfterUpdate` | client/src/pages/Home.jsx:58-67 | a delete of the `_id` an update just wrote gives the same list as the delete alone |
| `Home.HomePage.constructor` | client/src/pages/Home.jsx:18-23 | no tasks, no statistics, both loading flags true, no request issued |
| `Home.HomePage.StartFetchTasks` | client/src/pages/Home.jsx:26-29 | `loadingTasks` becomes true and exactly one `getTasks` request is issued; nothing else changes |
| `Home.HomePage.FinishFetchTasks` | client/src/pages/Home.jsx:29-35 | on success the list becomes the snapshot, on failure it is unchanged; `loadingTasks` is false in both cases; nothing else changes |
| `Home.HomePage.FetchTasks` | client/src/pages/Home.jsx:26-36 | one `getTasks` request (raising the flag, as `StartFetchTasks` states); the flag ends lowered; the list is the snapshot on success and unchanged on failure |
| `Home.HomePage.StartFetchStats` | client/src/pages/Home.jsx:38-41 | `loadingStats` becomes true and exactly one `getTaskStats` request is issued; nothing else changes |
| `Home.HomePage.FinishFetchStats` | client/src/pages/Home.jsx:41-47 | on success the statistics become the payload, on failure they are unchanged; `loadingStats` is false in both cases |
| `Home.HomePage.FetchStats` | client/src/pages/Home.jsx:38-48 | one `getTaskStats` request (raising the flag, as `StartFetchStats` states); the flag ends lowered; the statistics are replaced only on success |
| `Home.HomePage.Mount` | client/src/pages/Home.jsx:50-51 | both fetches start, tasks first: both flags are true and the log grows by `getTasks`, `getTaskStats` |
| `Home.HomePage.OnTaskCreated` | client/src/pages/Home.jsx:53-56 | the list becomes `Created(old list, task)` and exactly one statistics request is issued |
| `Home.HomePage.OnTaskUpdated` | client/src/pages/Home.jsx:58-63 | the list becomes `Updated(old list, task)` and exactly one statistics request is issued |
| `Home.HomePage.OnTaskDeleted` | client/src/pages/Home.jsx:65-68 | the list becomes `Deleted(old list, id)` and exactly one statistics request is issued |
| `Home.SnapshotRaces` | client/src/pages/Home.jsx:26-56 | a `taskCreated` handled while the snapshot is pending is lost when the snapshot arrives; one handled after a snapshot that already holds the task leaves its `_id` listed twice |
| `TaskForm.OptionValue` | client/src/components/TaskForm.jsx:53-61 | every option of the priority select yields one of "Low", "Medium", "High"; only the Medium option yields "Medium" |
| `TaskForm.Dispatch` | client/src/components/TaskForm.jsx:24-28 | the request is `updateTask(task._id, task)` exactly when `task._id` is truthy and `createTask(task)` otherwise; the whole record is sent either way |
| `TaskForm.Form.constructor` | client/src/components/TaskForm.jsx:8-12 | the record is title `''`, description `''`, priority `'Medium'`, no `_id`; nothing has been sent |
| `TaskForm.Form.SelectedTaskChanged` | client/src/components/TaskForm.jsx:14-20 | a selected task becomes the record exactly; no selection resets it to the default; nothing is sent |
| `TaskForm.Form.HandleSubmit` | client/src/components/TaskForm.jsx:22-31 | exactly one of update/create is issued, chosen by `Dispatch`; if it resolves, `onSave` follows and the record resets to the default (no `_id`); if it rejects, the record is kept |
| `TaskForm.Form.EditTitle` | client/src/components/TaskForm.jsx:39 | only the title changes; `_id`, description and priority are kept |
| `TaskForm.Form.EditDescription` | client/src/components/TaskForm.jsx:46 | only the description changes; `_id`, title and priority are kept |
| `TaskForm.Form.EditPriority` | client/src/components/TaskForm.jsx:53-61 | only the priority changes, to one of the select's labels |
| `TaskForm.Session` | client/src/components/TaskForm.jsx:35-61 | over any sequence of typing, picking and submitting, a priority among the select's labels stays among them |
| `TaskForm.EditThenSubmitTwice` | client/src/components/TaskForm.jsx:14-31 | editing a selected task and submitting twice issues update, `onSave`, then a create of the default record, `onSave` |
| `UserController.RegisterOutcome` | server/controller/userController.js:5-31 | 400 "All fields are required" exactly when a field is missing or empty, and then nothing is saved; 400 "User already exists" exactly when the fields are present and `findOne` finds the email; 500 exactly when a `findOne`, hash or save that is reached throws; 201 exactly when all fields are present, the email is new and no call throws, and then the store gains one user under that email whose password is the hash's result; the store changes exactly when the response is 201 |
| `UserController.Register` | server/controller/userController.js:5-31 | the step-by-step handler leaves the store and answers exactly as `RegisterOutcome` says |
| `UserController.UserStore.FindOne` | server/controller/userController.js:13 | resolves to the user with that email, or to nothing when there is none; throws only when the store throws |
| `UserController.UserStore.Save` | server/controller/userController.js:25 | stores the record under its email when the store does not throw, and changes nothing otherwise |
| `UserController.RegisterValidatesFirst` | server/controller/userController.js:9-11 | with a missing or empty field, the answer does not depend on the store, the new `_id` or any collaborator |
| `UserController.RegisterTwiceIsDuplicate` | server/controller/userController.js:13-25 | a registration with all fields, a new email and no throwing call answers 201, and another registration with the same email after it is refused as a duplicate and changes nothing |
| `UserController.Login` | server/controller/userController.js:33-54 | 200 with a token signed over the user's `_id` exactly when the user exists, `compare` accepts and signing succeeds; 400 "Invalid email or password" exactly for an unknown email or a rejected password; any thrown call gives 500; the store is only read |
| `UserController.LoginFailuresIndistinguishable` | server/controller/userController.js:37-45 | an unknown email and a wrong password get identical responses |
| `UserController.RegisterThenLogin` | server/controller/userController.js:17-49 | if `compare` accepts every password against its own hash, a registration with all fields, a new email and no throwing call, followed by a login with the same email and password, returns 200 with the token signed over the new `_id` |

## Left out

- The socket connection and the registration and removal of its handlers (`client/src/pages/Home.jsx:14`, `70-74`): each handler is modelled as a method that runs when its event arrives.
- The page's modal and selection handlers and all JSX (`client/src/pages/Home.jsx:77-159`, `client/src/components/TaskForm.jsx:33-67` apart from the `onChange` updates): this is user-interface code.
- The HTTP client (`getTasks`, `getTaskStats`, `createTask`, `updateTask`): requests are recorded in a log, and how each settles is a parameter. The api module is not part of this model.
- Concurrency: each handler and each half of a fetch is one atomic step. Any interleaving can be written as a sequence of these steps (as `Home.SnapshotRaces` does), but none is forced.
- The browser's `required` check on the title and description (`client/src/components/TaskForm.jsx:41`, `48`): `HandleSubmit` models the handler, which itself checks neither field.
- Task fields other than `_id`, title, description and priority, and the content of the statistics payload: the handlers copy them without looking inside.
- Register body fields that are JSON values other than strings: a field is a string or missing.
- Missing `email` or `password` in a login body: login's fields are strings. How the store and bcrypt treat an undefined field is library behaviour.
- bcrypt, jsonwebtoken and the mongoose `User` model (server/model/userModel.js is not part of this model): hash, compare and sign are function parameters, and the store is a map from email to user. The hash's random salt is folded into the hash function given for the request. Schema validation on save is covered only through "save throws".
- Console logging of errors.
- `server/server.js` and `client/src/App.jsx`: start-up and routing, with no logic to model.
- The task mutation endpoints, the broadcaster and token verification: they are in none of the modelled files, so they are not modelled.
