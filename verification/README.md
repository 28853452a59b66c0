# Taskflow front end: session, guards, reload signal and task views in Dafny

This project models the logic of a small task-management single-page
application written in React. It covers six pieces:

- the session store (`AuthProvider`): `isLoggedIn`, `loading`, the `"auth"`
  entry in browser storage, and the one-second timers that end a loading
  phase;
- the two route guards and the route table;
- the reload counter (`ReloadProvider`);
- the task form's validation schema and its submit/close behaviour;
- the task page's state (`open`, `tasks`, `editingTask`) and its fetch
  effect;
- each task card's `deleteTaskId`, its delete handler, its tag labels, and
  the delete confirmation dialog.

Pure source code (guards, route table, schema predicates, tag filter, label
maps, dialog decisions) is modelled as functions and lemmas. Code that
updates state step by step is modelled as classes whose methods state the
whole new state: `Session.AuthProvider`, `Reload.ReloadProvider`,
`TasksView.TasksPage` and `TaskCard.TaskCard`. The session class is proved
against a pure state machine (`Session.SessionState` with `Mount`, `Login`,
`Logout`, `Fire`). The lemmas about that machine prove the session
invariant over every sequence of events.

The backend call `request` is not modelled by running it. Each handler
takes the awaited outcome as a parameter: a JSON value, `null` for a 204
response, a returned error value, or a thrown rejection (`Api.Outcome`).
A handler returns the requests it issues, so "exactly one PUT" or "one
DELETE to `tasks/42/`" is part of its contract. Real time is not
modelled either: a pending timer is an entry the environment may fire at
any point, in any order. The current date is the parameter `today`.

Four behaviours of the code are easy to misread; the model follows the code:
- `authLogin` does not pass through `loading`.
- Creating or editing a task does not trigger a reload.
- The delete and submit handlers go down their success path whenever
  `request` returns, even for an HTTP error. `request` returns errors
  instead of throwing them (src/hooks/useApi.ts:26-28).
- Titles need at least 3 characters and descriptions at least 5, not
  merely a non-empty value.

## Model

| member | source | states |
|---|---|---|
| Api.Classify | src/hooks/useApi.ts:8-28 | a rejected fetch or a non-ok status is returned as an error value and never thrown; 204 gives null; only an ok, non-204 response whose body is not JSON makes the awaited call throw |
| Api.TaskUrl | src/components/TaskCard.tsx:23 | a task path starts `tasks/`, ends `/`, and the text between parses back to the task's id |
| Api.DecimalRoundTrip | src/components/TaskCard.tsx:23 | the decimal text a template literal gives an id parses back to that id |
| Api.TaskUrlInjective | src/components/TaskCard.tsx:23 | `tasks/{id}/` paths of two ids are equal exactly when the ids are equal |
| Api.TaskUrlExample | src/components/TaskCard.tsx:23 | the path for id 42 is `tasks/42/` |
| TaskTypes.PriorityMapContents | src/types/Task.ts:17-21 | the priority map is exactly 1→Baja, 2→Media, 3→Alta, with no other keys, and is injective |
| TaskTypes.StateMapContents | src/types/Task.ts:23-27 | the state map is exactly 1→To Do, 2→In Progress, 3→Done, with no other keys, and is injective |
| JsString.Compare | src/components/TaskForm.tsx:21 | string comparison reports equal exactly for equal strings |
| JsString.AtLeast | src/components/TaskForm.tsx:21 | `a >= b` holds for equal strings and whenever `b` is empty; the empty string is at least only the empty string |
| JsString.CompareReflexive | src/components/TaskForm.tsx:19-22 | every string compares equal to itself, so `val >= today` holds when `val` is `today` |
| JsString.EmptyIsLeast | src/components/TaskForm.tsx:19-22 | the empty string is below every non-empty string |
| JsString.DigitsOrder | src/components/TaskForm.tsx:19-22 | two digit strings of the same length compare as strings exactly as their numbers do |
| JsString.IsoDateStringOrder | src/components/TaskForm.tsx:19-22 | for two `YYYY-MM-DD` dates, JavaScript string comparison is calendar order (year, then month, then day) |
| Session.InitialState | src/context/AuthContext.tsx:15-16 | a new session is logged out and loading, over whatever storage holds, and satisfies the session invariant |
| Session.MountDecision | src/context/AuthContext.tsx:18-20 | the mount effect sets `isLoggedIn` exactly when a non-empty `"auth"` value is stored, never clears it, and leaves `loading` and storage alone |
| Session.Mount | src/context/AuthContext.tsx:18-24 | the mount effect keeps the session invariant, marks the store mounted and schedules one timer |
| Session.Login | src/context/AuthContext.tsx:26-29 | `authLogin` keeps the session invariant |
| Session.Logout | src/context/AuthContext.tsx:31-38 | `authLogout` keeps the session invariant |
| Session.Fire | src/context/AuthContext.tsx:21-23 | a firing timer keeps the session invariant |
| Session.HeaderFollowsSession | src/hooks/useApi.ts:7-13 | the `Authorization: Token <token>` header follows the session: once mounted, a header means logged in; after logout none is sent; after login the new token is sent unless it is empty |
| Session.StepPreservesInv | src/context/AuthContext.tsx:18-38 | each of mount, login, logout and a timer firing keeps the session invariant |
| Session.RunPreservesInv | src/context/AuthContext.tsx:18-38 | any sequence of those events keeps the invariant: logged in implies an `"auth"` entry; after mount a non-empty token implies logged in; after mount, loading implies a timer is pending |
| Session.Reachable | src/context/AuthContext.tsx:14-38 | every state reachable from start-up satisfies the session invariant |
| Session.LoginEffect | src/context/AuthContext.tsx:26-29 | login sets `isLoggedIn`, stores the token under `"auth"`, keeps every other key, and leaves `loading` unchanged |
| Session.LogoutEffect | src/context/AuthContext.tsx:31-38 | logout sets `loading`, clears `isLoggedIn`, removes `"auth"` and nothing else, and schedules one timer |
| Session.LogoutIdempotent | src/context/AuthContext.tsx:31-38 | a second logout leaves the same `isLoggedIn`, `loading` and storage |
| Session.LoginThenLogout | src/context/AuthContext.tsx:26-38 | login then logout ends logged out with no `"auth"` entry whatever was stored before, and restores storage when no token was stored |
| Session.FireOnlyEndsLoading | src/context/AuthContext.tsx:21-23 | any pending timer, whichever call scheduled it, clears `loading`, removes one pending timer, and changes nothing else |
| Session.AuthProvider.constructor | src/context/AuthContext.tsx:15-16 | the provider starts logged out and loading over the given storage, as the state machine's initial state |
| Session.AuthProvider.MountEffect | src/context/AuthContext.tsx:18-24 | the mount effect follows `Mount` and keeps the invariant |
| Session.AuthProvider.AuthLogin | src/context/AuthContext.tsx:26-29 | `authLogin` follows `Login`: `isLoggedIn` true, token stored, `loading` and timers unchanged; invariant kept |
| Session.AuthProvider.AuthLogout | src/context/AuthContext.tsx:31-38 | `authLogout` follows `Logout`: loading, logged out, `"auth"` removed, one timer scheduled; invariant kept |
| Session.AuthProvider.TimerFires | src/context/AuthContext.tsx:34-36 | a firing timer follows `Fire`: `loading` false, login state and storage unchanged; invariant kept |
| Guards.ProtectedRoute | src/components/ProtectedRoute.tsx:7-12 | loader while loading; Outlet exactly when logged in and not loading; otherwise a replacing navigation to `/login` |
| Guards.PublicRoute | src/components/PublicRoute.tsx:5-10 | loader while loading; Outlet exactly when logged out and not loading; otherwise a replacing navigation to `/` |
| Guards.GuardsExclusive | src/components/PublicRoute.tsx:8-10 | the two guards never both render their Outlet, and once loading ends exactly one does |
| Router.Find | src/router/AppRouter.tsx:17-33 | route lookup returns a declared route with that path, and returns nothing exactly when no route has that path |
| Router.Render | src/router/AppRouter.tsx:15-35 | one session feeds both guards; a page is shown only for a declared path when not loading, the login page only when logged out, every other page only when logged in |
| Router.RouteTable | src/router/AppRouter.tsx:19-32 | `/login` is under PublicRoute in AuthLayout with Login; `/`, `/perfil` and `/tareas` are under ProtectedRoute in MainLayout with Dashboard, Profile and Tasks |
| Router.PathsUnique | src/router/AppRouter.tsx:19-32 | each path is declared once, so it sits under exactly one guard; only `/login` is public |
| Router.NoLeak | src/router/AppRouter.tsx:19-32 | when a page is shown, its guard is the protected one exactly when the session is logged in |
| Router.NoRedirectLoop | src/router/AppRouter.tsx:19-32 | with a settled session, a declared path shows a page or makes one replacing redirect to a path under the other guard, which then shows its page |
| Router.ProtectedPageHasToken | src/components/ProtectedRoute.tsx:10-12 | in any state satisfying the session invariant, showing a protected page implies an `"auth"` entry in storage |
| Reload.ReloadProvider.constructor | src/context/ReloadContext.tsx:12 | `reloadKey` starts at 0 |
| Reload.ReloadProvider.TriggerReload | src/context/ReloadContext.tsx:14-16 | `reloadKey` grows by exactly 1, and its history gains that value |
| Reload.KeyCountsTriggers | src/context/ReloadContext.tsx:11-16 | after n triggers the key is n; it was never negative and strictly increased |
| TaskForm.Defaults | src/components/TaskForm.tsx:51-58 | the default values hold an accepted priority and status, and empty title, description, due date and tags |
| TaskForm.Errors | src/components/TaskForm.tsx:16-28 | title fails iff shorter than 3; description iff shorter than 5; due date iff it is below `today` as a string; priority iff not "1"/"2"/"3"; status iff not To Do/In Progress/Done; tags never |
| TaskForm.DueDateEdges | src/components/TaskForm.tsx:19-22 | a due date equal to `today` passes; the default empty due date fails |
| TaskForm.DueDateIsCalendarRule | src/components/TaskForm.tsx:19-22 | for `YYYY-MM-DD` dates, the due date passes exactly when it is not before today in the calendar |
| TaskForm.AnyTagsAccepted | src/components/TaskForm.tsx:27 | any list of strings is an acceptable tag list, including the empty list and a name the form's tag choices do not offer |
| TaskForm.DefaultsErrors | src/components/TaskForm.tsx:51-58 | the default values fail on title, description and due date only |
| TaskForm.FormAgreesWithLabelMaps | src/types/Task.ts:17-27 | the status enumeration is exactly the state map's labels, and the priority select offers values "1", "2", "3" labelled with the priority map's labels for 1, 2, 3, in that order |
| TaskForm.SubmitRequest | src/components/TaskForm.tsx:61-67 | one request carrying the data: PUT `tasks/{id}/` while editing, otherwise POST `tasks/` |
| TaskForm.SubmitTargetsEditedTask | src/components/TaskForm.tsx:63-66 | under the declared numeric `editingTask`, edit requests of two ids share a path exactly when the ids are equal, and never share a path with a create |
| TaskForm.EditUrlAsWrittenNamesNoTask | src/components/TaskForm.tsx:64 | as wired (a Task object in `editingTask`), every edit goes to one and the same path, which is no task's path |
| TaskDelete.DialogEvents | src/components/TaskDelete.tsx:11-22 | Cancelar and any open change leave the dialog closed; Eliminar calls something exactly while the dialog is open, and then `handleDelete` of the id the dialog shows |
| TaskDelete.NeverSetsAnId | src/components/TaskDelete.tsx:10-29 | no dialog event sets `deleteTaskId` to a non-null value |
| TaskCard.Shown | src/components/TaskCard.tsx:52-61 | the filter keeps every name whose flag is set, adds no name from outside the list, and is no longer than its input |
| TaskCard.ShownOnlyFlagged | src/components/TaskCard.tsx:52-61 | every name the filter keeps sits at a position whose flag is set |
| TaskCard.TagLabels | src/components/TaskCard.tsx:47-61 | the labels are exactly the tags whose flag is true, in the fixed order Hogar, Trabajo, Universidad, Social |
| TaskCard.TaskCard.constructor | src/components/TaskCard.tsx:19 | a card starts with `deleteTaskId` null |
| TaskCard.TaskCard.AskDelete | src/components/TaskCard.tsx:69-74 | the card's Eliminar sets `deleteTaskId` to the card's task id |
| TaskCard.TaskCard.HandleDelete | src/components/TaskCard.tsx:21-33 | one DELETE to the card's own `tasks/{id}/`, whatever argument it is given; when the request returns, also on HTTP failure, `deleteTaskId` becomes null and the key grows by one; when it throws, nothing changes |
| TaskCard.TaskCard.DialogOpenChange | src/components/TaskDelete.tsx:11 | an open change from the dialog clears `deleteTaskId` |
| TaskCard.TaskCard.DialogCancel | src/components/TaskDelete.tsx:17 | Cancelar clears `deleteTaskId` |
| TaskCard.TaskCard.DialogConfirm | src/components/TaskDelete.tsx:22 | with no id set, nothing is sent or changed; with an id set, exactly one DELETE is issued with `handleDelete`'s outcome |
| TasksView.FetchedTasksAsWritten | src/pages/Tasks.tsx:19-23 | as written, `tasks` becomes undefined exactly on a returned error or a body without `results`; otherwise it is the old list (on a throw) or the received one |
| TasksView.FetchedTasks | src/pages/Tasks.tsx:19-23 | the corrected rule: `tasks` is the old list or a received result list, and always the received one when a list arrives |
| TasksView.FailedFetchLeavesTasksUndefined | src/pages/Tasks.tsx:19-20 | as written, an HTTP error on the list request sets `tasks` to undefined |
| TasksView.FetchCorrection | src/pages/Tasks.tsx:16-26 | the corrected fetch replaces `tasks` wholesale with a received result list and otherwise keeps it; it agrees with the source wherever the source keeps a list |
| TasksView.CardKeys | src/pages/Tasks.tsx:49-51 | one card per task, keyed by its id, in list order |
| TasksView.EmptyResultsNoCards | src/pages/Tasks.tsx:19-20 | an empty `results` list renders no cards |
| TasksView.EditingId | src/components/TaskForm.tsx:35 | the form receives the id of the task being edited, or null when none is |
| TasksView.TasksPage.constructor | src/pages/Tasks.tsx:12-14 | the page starts closed, with no tasks, nothing being edited and the form at its defaults |
| TasksView.TasksPage.NewTask | src/pages/Tasks.tsx:33-36 | "+ Nueva tarea" opens the dialog with no task being edited |
| TasksView.TasksPage.EditFromCard | src/components/TaskCard.tsx:64-66 | Editar opens the dialog with the card's task, unchanged, as `editingTask` |
| TasksView.TasksPage.OnClose | src/pages/Tasks.tsx:44 | `onClose` closes the dialog and clears `editingTask` |
| TasksView.TasksPage.FormInput | src/components/TaskForm.tsx:96-175 | editing the fields replaces the form's values and nothing else |
| TasksView.TasksPage.FormOpenChange | src/components/TaskForm.tsx:83-89 | `onOpenChange(false)` closes, clears `editingTask` and resets the form; `onOpenChange(true)` only opens |
| TasksView.TasksPage.FormCancel | src/components/TaskForm.tsx:181 | the form's Cancelar only closes the dialog; `editingTask` and the values remain |
| TasksView.TasksPage.FormSubmit | src/components/TaskForm.tsx:61-78 | invalid values send nothing and change nothing; valid ones send exactly one PUT or POST; if it does not throw, the dialog closes, `editingTask` clears and the form resets; no reload is triggered |
| TasksView.TasksPage.FetchEffect | src/pages/Tasks.tsx:16-26 | a GET `tasks/` runs on mount and whenever `reloadKey` differs from the last one fetched for, and its outcome updates `tasks` by the corrected rule |

## Findings

| source | as written | input that shows it | evidently intended | confidence | as-written member | corrected member |
|---|---|---|---|---|---|---|
| src/pages/Tasks.tsx:19-20 | `setTasks(response.results)` runs on whatever `request` returns, and `request` returns an Error value for a non-ok response (src/hooks/useApi.ts:18, 26-28), so `tasks` becomes undefined and the `tasks.map` at line 49 fails | the list request answers with HTTP 500 | keep the current list and log the error, as the catch block does for thrown errors | not executed; high | TasksView.FailedFetchLeavesTasksUndefined | TasksView.FetchCorrection |
| src/components/TaskForm.tsx:64 | the PUT path is `tasks/${editingTask}/`, but the page stores the whole Task in `editingTask` (src/components/TaskCard.tsx:65, src/pages/Tasks.tsx:43, 50), so the path is `tasks/[object Object]/` for every task | Editar on any card, then Guardar with valid values | PUT to `tasks/{id}/` of the edited task | not executed; high | TaskForm.EditUrlAsWrittenNamesNoTask | TaskForm.SubmitTargetsEditedTask |

## Left out

- Network I/O: `fetch`, headers other than `Authorization`, JSON encoding and decoding, and the base URL are not modelled. `Api.Outcome` stands for what an awaited `request` yields.
- src/service/auth.ts (`login`, `logout` against the backend) is not part of this model. Its `localStorage.removeItem("auth")` changes storage behind the session store's back and would break the session invariant.
- Real time: each one-second `setTimeout` is a pending entry that may fire at any point and in any order. A timer event that names no pending timer changes nothing (`Session.Step`).
- The progress animation in src/components/Loader.tsx, and the pages Login, Dashboard and Profile and the layout MainLayout, are UI only and not modelled.
- React machinery is not modelled: context plumbing, the "outside provider" errors of `useAuth` and `useReload`, state-update batching and effect scheduling. The one exception is the fetch effect's dependency comparison. Development-mode double effects are not modelled either.
- Toasts, `console` logging and the card's date formatting are not modelled.
- Route matching compares whole paths exactly. The router's case-insensitive and trailing-slash matching is not modelled.
- String lengths count characters, and string comparison compares code points. JavaScript counts and compares UTF-16 code units. The two differ only for characters outside the Basic Multilingual Plane.
- Reload.ReloadProvider.TriggerReload: the key is an unbounded integer. JavaScript numbers stop counting exactly at 2^53.
- Each handler's request completes before the next event: `TasksView.TasksPage.FetchEffect`, `TasksView.TasksPage.FormSubmit`, `TaskCard.TaskCard.HandleDelete` and `TaskCard.TaskCard.DialogConfirm` issue their request and apply its awaited outcome as one step. Overlapping list fetches that resolve out of order are not modelled. A second Eliminar or Guardar click while a request is pending is not modelled either; in the source the buttons stay enabled, so it sends a duplicate DELETE or a second POST that creates a duplicate task.
- Cards keep their own state across refetches because React keys them by id. This is not modelled.
- TaskForm.SubmitRequest: the PUT path is built from the edited task's id. In the source, the page passes a whole Task object where TaskForm declares `number | null` (src/pages/Tasks.tsx:14, 43 against src/components/TaskForm.tsx:35, 64). The actual path therefore embeds the object's string form, not its id.
- TaskForm.SubmitTargetsEditedTask: the property holds under the declared numeric `editingTask`. As wired, the page passes the Task object, so every edit PUT goes to the one path `tasks/[object Object]/`, which names no task (`TaskForm.EditUrlAsWrittenNamesNoTask`, second Findings row). `request` returns that error instead of throwing, so `onSubmit` closes the dialog and toasts success, and edits silently never persist. The model's page sends the corrected path.
- TasksView.TasksPage.FormSubmit: an edit sends PUT `tasks/{id}/` of the edited task, the correction in the second Findings row. The source sends PUT `tasks/[object Object]/`, gets a returned error, and still closes the dialog, clears `editingTask` and resets the form, as the model does after any outcome that is not a throw.
- TasksView.TasksPage.FetchEffect: uses the corrected rule `TasksView.FetchedTasks` (first Findings row). The source sets `tasks` to undefined on a returned error (`TasksView.FetchedTasksAsWritten`).
- TasksView.EditingId: truthiness of `editingTask` is modelled as "a task is set". In the source the value is a Task object, which is always truthy. The id 0 that the declared `number` type would treat as false does not arise.
- The form is never filled with the edited task's values, in the source or here. The priority select shows "Media" as its initial choice while the form's value is "1". This is display only and not modelled.
- Where `ReloadProvider` is mounted lies outside the modelled files; here the card and the page share one provider.
- src/types/Task.d.ts repeats the Task type and is not modelled separately.
