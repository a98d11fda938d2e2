# Task tracker core, modelled in Dafny

This project models the state logic of a browser task/deadline tracker whose whole core lives in
`App.tsx`. The model has three parts:

- **Task store** (`Tasks`, `TaskStore`). An insertion-ordered `seq<Task>` with four operations:
  `AddTask`, `UpdateTask` (shallow merge of a partial record), `DeleteTask` and `GetTaskById`.
  It also holds the three seed records.
- **Session flag** (`Session`). A boolean mirrored to storage as `"true"` or `"false"`. At startup it
  is decoded as "the stored value equals `"true"`".
- **Route guard** (`Routes`). The route table as a pure function from (path, flag) to render, redirect
  or no match.

`App` ties these into a state machine over the flag, the task list and an abstract key-value store
(`Storage`, a `map<string, string>`). Every mutation writes through to the store.

The task-list serialiser is a parameter: `encode` writes it and `parse` reads it back. The model
never assumes the two are inverses, except where a lemma states that as a hypothesis
(`App.ReloadRestoresState`). The identifier that the source reads from the clock is also a
parameter (`newId`).

Points of the code the model keeps:
- `deleteTask` is a `filter` (App.tsx:98), so every element with the identifier is removed, not only the first.
- `updateTask` is a `map` (App.tsx:94), so every matching element is merged.
- The partial record is a `Partial<Task>` (App.tsx:24), which admits `id`, so an update can rename a task.
- The startup test `savedTasks ? … : initialTasks` (App.tsx:78) treats an empty stored string as false, so
  startup falls back to the seed, exactly as when the key is absent.

## Model

| member | source | states |
|---|---|---|
| Tasks.WithId | App.tsx:85-89 | the new record carries the supplied identifier and exactly the caller's fields |
| Tasks.WithIdFieldsOf | App.tsx:10-19 | a task is its identifier plus its other fields: splitting and re-joining loses nothing |
| Tasks.Merge | App.tsx:94 | every field named in the patch takes the patch's value; every field not named keeps the old value |
| Tasks.MergeEmpty | App.tsx:94 | merging a patch that names no field leaves the task unchanged |
| Tasks.MergeIdempotent | App.tsx:94 | merging the same patch twice equals merging it once |
| Tasks.MergeFullPatch | App.tsx:94 | a patch naming every field of `u` turns any task into `u` |
| TaskStore.AddTask | App.tsx:85-91 | length grows by one; all earlier elements are unchanged and in order; the last element has the new id and the given fields |
| TaskStore.UpdateTask | App.tsx:93-95 | length is preserved; elements with another id are unchanged; each matching element overlays the patch on its old fields |
| TaskStore.DeleteTask | App.tsx:97-99 | no element has the id; survivors keep their relative order; every other element survives; exactly the matching elements are removed |
| TaskStore.GetTaskById | App.tsx:101-103 | None iff no element has the id; otherwise the first element with that id, which is a member of the list |
| TaskStore.HasIdTail | App.tsx:101-103 | when the head does not carry the id, the list contains the id exactly when its tail does |
| TaskStore.GetTaskByIdAppend | App.tsx:101-103 | a lookup in `a + b` returns `a`'s match when `a` has one, and otherwise `b`'s |
| TaskStore.AddThenGet | App.tsx:85-103 | after adding under an unused id, looking that id up returns the new record with the given title |
| TaskStore.AddShadowed | App.tsx:85-91 | if the new id is already in use, lookups keep returning the older record |
| TaskStore.AddKeepsOtherLookups | App.tsx:85-103 | adding a record does not change the lookup of any other id |
| TaskStore.UpdateAbsent | App.tsx:93-95 | updating an id that matches nothing returns the same list; no error is signalled |
| TaskStore.UpdateEmptyPatch | App.tsx:93-95 | updating with an empty patch returns the same list |
| TaskStore.GetAfterUpdate | App.tsx:93-103 | when the patch keeps the id, a lookup after the update returns the old first match merged with the patch, or None if there was none |
| TaskStore.DeleteAbsent | App.tsx:97-99 | deleting an id that matches nothing returns the same list; no error is signalled |
| TaskStore.DeleteIdempotent | App.tsx:97-99 | deleting the same id twice equals deleting it once |
| TaskStore.GetAfterDelete | App.tsx:97-103 | after a delete, looking the id up finds nothing |
| TaskStore.DeleteKeepsOtherLookups | App.tsx:97-103 | deleting one id does not change the lookup of any other id |
| Session.EncodeFlag | App.tsx:105-113 | the flag is stored as the literal "true" or "false", and as "true" exactly when it is set |
| Session.DecodeFlag | App.tsx:73-75 | startup reads the flag as set when the stored value is "true", and as clear when the value is absent or is any other string |
| Session.DecodeEncode | App.tsx:73-113 | decoding the string written for a flag gives back that flag |
| Session.EncodeDecode | App.tsx:73-113 | each of the two written strings is re-encoded unchanged after decoding |
| Routes.Match | App.tsx:119-142 | every matched route is well formed: a task route binds one non-empty segment without a slash; with MatchPathOf and MatchIsPathOf, well-formed routes and matched paths correspond one to one |
| Routes.MatchPathOf | App.tsx:119-142 | every route is matched again by its own declared path |
| Routes.MatchIsPathOf | App.tsx:119-142 | a path matches a route only if it is exactly that route's path |
| Routes.Decide | App.tsx:119-142 | protected routes render iff authenticated and otherwise redirect to /login; /login and /signup redirect to /dashboard iff authenticated; / always redirects, to /dashboard iff authenticated |
| Routes.Navigate | App.tsx:119-142 | an unmatched path yields no match; a rendered page belongs to the matched route |
| Routes.RedirectSettles | App.tsx:119-142 | following any redirect once reaches a page that renders for the same session, so there are no loops |
| Routes.RenderIffAdmitted | App.tsx:119-142 | a matched path renders exactly when the route's access rule admits the session |
| Routes.GuestVisitsDashboard | App.tsx:131-134 | a logged-out visit to /dashboard redirects to /login |
| App.LoadTasks | App.tsx:76-79 | an absent or empty stored value yields the seed; otherwise the result is whatever the parser returns, or a parse fault |
| App.Startup | App.tsx:72-83 | startup fails only on an unparsable non-empty stored list; a non-empty parsable list becomes exactly the tasks; an absent or empty stored list gives the seed; the flag is set iff "true" was stored; the only key written is the tasks key, and afterwards storage mirrors memory |
| App.WithTasks | App.tsx:81-83 | after a task mutation the tasks key holds the encoded new list; the flag and every other key are unchanged |
| App.Login | App.tsx:105-108 | login sets the flag and stores "true"; the tasks and every other key are unchanged |
| App.Logout | App.tsx:110-113 | logout clears the flag and stores "false"; the tasks and every other key are unchanged |
| App.StepConsistent | App.tsx:81-113 | every event keeps storage a faithful mirror of the flag and the task list |
| App.RunConsistent | App.tsx:81-113 | any sequence of events keeps storage a faithful mirror of the flag and the task list |
| App.ReloadRestoresFlag | App.tsx:72-83 | reloading from a consistent store restores the session flag |
| App.ReloadRestoresState | App.tsx:72-83 | if parsing inverts encoding for the current list, reloading reproduces the whole state |
| App.FreshStartup | App.tsx:39-83 | with empty storage, startup is logged out, holds the three seed records and writes them back |
| App.SeedLookup | App.tsx:39-70 | looking up "2" in the seed returns "RAB Farewell SGE" with progress 50 |
| App.AddToSeedThenGet | App.tsx:85-103 | adding a task titled "X" to the seed under a fresh id and then looking that id up returns title "X" |
| App.LoginThenVisitLogin | App.tsx:105-122 | after login, storage holds "true" and /login redirects to /dashboard |
| App.LogoutLocksProtectedPaths | App.tsx:110-142 | after logout, every protected path redirects to /login |

## Left out

- React rendering, JSX, the router components and the page components. Only the guard decision is modelled.
- The order in which React runs state updates and effects, state batching, and the stale `tasks` captured by the setters. Each event is one atomic step.
- `JSON.stringify` / `JSON.parse`. These are the `encode` / `parse` parameters. No serialisation round-trip is claimed; it appears only as a hypothesis of `App.ReloadRestoresState`.
- `Date.now()` identifier generation. The identifier is the `newId` parameter. Its freshness is not guaranteed, and `TaskStore.AddShadowed` states what happens on a collision.
- `useTasks` throwing outside the provider (App.tsx:31-37). This is a framework scoping fault, not store logic.
- Routes.Match: React Router's case-insensitive matching, trailing-slash tolerance and URL decoding are not modelled. Paths match exactly.
- Tasks.Merge: a patch field given explicitly as `undefined` is not modelled. A patch field is either absent or carries a value.
- `progress` is a JavaScript number. It is modelled as an unbounded `int`, without fractions or NaN.
- App.LoadTasks: `parse` returns a task list or nothing, so a stored value that `JSON.parse` accepts but that is not a task array is not modelled. At App.tsx:78 there is no shape check. A stored `"null"` or `"{}"` starts up without a fault and then throws on the first add, update, delete or lookup (App.tsx:90/94/98/102). Records whose `id` is not a string never match a string identifier, so update, delete and lookup silently miss them. The model assumes the parsed value is a well-formed task array.
- App.WithTasks, App.Login, App.Logout: `localStorage.setItem` can throw, for example when the quota is exceeded (App.tsx:82/107/112). The model treats every write as succeeding.
