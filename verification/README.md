# TaskFlow task store — a Dafny model

TaskFlow is a small task-tracking HTTP service. Its state is an in-memory, ordered list of tasks plus a
counter for the next task id. The `/api/tasks` routes list, read, create, update and delete tasks.
`/health` and the home-page dashboard report counts over the list.

This project models that store and its request handlers as pure functions over a `Store` (`seq<Task>` plus
`nextId: nat`). Create, update and delete return the new store together with a result; the reads (get,
list, and the health and dashboard counts) return a result only.

- `Wrappers`: `Option` for request fields that may be missing, `Result` for store outcomes.
- `Subsequences`: order-preserving subsequences, used to say that listing and deleting keep order.
- `TaskModel`: the `Task` record, the `Store`, the seeded store, the first-match id lookup and the
  store invariant `Valid`. `Valid` says ids are unique, positive and below `nextId`, and no title is empty.
- `TaskStore`: list with status/priority filters, get, create, update and delete.
- `StoreLemmas`: each mutating operation preserves `Valid`; how operations relate to each other
  (create then get, create then delete, update then get, updating twice).
- `Health`: the counts reported by `/health` and by the dashboard.
- `Api`: dispatches a request to an operation and builds the HTTP status and JSON envelope. `Run` serves
  a sequence of requests, and lemmas show that created ids strictly increase and are never reused.

JavaScript truthiness of an optional field is modelled as `Truthy`: the field is present and is not
the empty string. Timestamps are opaque strings passed in by the caller as `now`.

`updatedAt` is read from the wall clock (server.js:282), so nothing orders it after `createdAt` or after an
earlier `updatedAt`; the model claims no ordering of timestamps.

## Model

| member | source | states |
|---|---|---|
| TaskModel.Seed | server.js:33-38 | The seeded store holds three tasks with ids 1, 2, 3 in that order and no `updatedAt`, its counter is 4, and it satisfies the store invariant |
| TaskModel.FindIndex | server.js:271 | The lookup finds nothing exactly when no task has the id; otherwise it returns a position holding that id with no earlier task holding it |
| TaskModel.FindIndexUnique | server.js:243 | When ids are unique, the lookup returns the one position that holds the id |
| TaskStore.FilterBy | server.js:227-233 | Filtering on one attribute keeps exactly the tasks whose attribute equals the value, in their original order |
| TaskStore.List | server.js:223-240 | A listing is an order-preserving subsequence of the store; every listed task matches each truthy filter; every stored task matching both filters is listed |
| TaskStore.FilterByMultiplicity | server.js:228 | Filtering keeps every copy of a task whose attribute equals the value and no copy of any other, so a filtered length is an exact count |
| TaskStore.ListMultiplicity | server.js:225-233 | A listing holds every copy of each stored task matching the query and no copy of any other |
| StoreLemmas.ListUnfiltered | server.js:225-233 | With no truthy filter the listing is the whole store in order |
| TaskStore.Get | server.js:242-248 | A read fails with not-found exactly when no task has the id; otherwise it returns a stored task with that id |
| TaskStore.Create | server.js:250-268 | An absent or empty title fails and leaves the store unchanged. Otherwise the new task gets id `nextId` and is appended. The counter advances by one. Status is `pending` and description defaults to empty. Priority defaults to `medium` only when absent. `createdAt` is stamped and `updatedAt` is absent |
| TaskStore.Update | server.js:270-285 | An unknown id fails and leaves the store unchanged. Otherwise only the first task with the id changes, in place: title, status and priority are replaced only when truthy. Description is replaced whenever sent, even as empty. Id and `createdAt` are kept and `updatedAt` is stamped. Length, order, the other tasks and the counter are unchanged |
| TaskStore.Delete | server.js:287-295 | An unknown id fails and leaves the store unchanged. Otherwise the first task with the id is removed and returned. Length drops by one, the tasks before and after it keep their order, and the counter is unchanged |
| StoreLemmas.CreatePreservesValid | server.js:257-266 | Creation preserves unique, issued ids and non-empty titles |
| StoreLemmas.UpdatePreservesValid | server.js:276-282 | Update preserves unique, issued ids and non-empty titles |
| StoreLemmas.DeletePreservesValid | server.js:293 | Deletion preserves unique, issued ids and non-empty titles |
| StoreLemmas.GetStoredTask | server.js:243 | In a valid store, reading the id of any stored task returns exactly that task |
| StoreLemmas.CreateThenGet | server.js:258-266 | A task just created can be read back by its id |
| StoreLemmas.CreateThenDelete | server.js:288-293 | Deleting a task just created returns it and restores the task list, but the counter stays advanced |
| StoreLemmas.DeleteRemovesId | server.js:288-294 | In a valid store, no task with the deleted id remains, and deleting the same id again changes nothing |
| StoreLemmas.UpdateThenGet | server.js:278-284 | After an update, reading the id returns the task the update returned |
| StoreLemmas.UpdateIdempotent | server.js:276-282 | Sending the same update twice with the same timestamp has the effect of sending it once |
| StoreLemmas.UpdateWithEmptyStrings | server.js:278-282 | An update with every field empty changes only the description, to empty, and `updatedAt` |
| Health.DistinctStatusCountsBounded | server.js:46-48 | Counts of three distinct statuses add up to at most the number of tasks |
| Health.HealthCounts | server.js:306-309 | The health total is the store length, and the completed count is at most the total and equals the length of the listing filtered on status `completed` |
| Health.Dashboard | server.js:44-49 | The dashboard's completed, in-progress and pending counts sum to at most the total, and each equals the matching filtered listing's length |
| Api.Handle | server.js:223-295 | Each request answers 200, 201, 400 or 404. 400 comes exactly from a create without a truthy title, with "Title is required". 404 comes exactly from an id-addressed request for an absent id, with "Task not found". Failures leave the store unchanged, and reads never change it. A listing answers the filtered tasks with `total` their count; a read answers the stored task; create, update and delete leave the store their operation produces and answer the created, updated or deleted task, the deletion with "Task deleted successfully". The counter advances exactly on 201, whose task carries the old counter value. The health check and the dashboard always answer 200 with the store's counts |
| Api.HandlePreservesValid | server.js:250-295 | Every request preserves the store invariant |
| Api.Run | server.js:258 | Serving requests in sequence yields one response per request and never moves the counter backwards |
| Api.RunPreservesValid | server.js:250-295 | Any sequence of requests preserves the store invariant |
| Api.CreatedIdsIncrease | server.js:258 | Over a run, the created ids strictly increase, number exactly the counter's advance, and lie in the counter's range during the run |
| Api.CreatedIdsFresh | server.js:258 | No id created during a run equals the id of a task stored before it, including tasks deleted meanwhile |
| Api.SeedScenario | server.js:33-38 | On the seeded store, creating "X" yields id 4 with defaults. Listing completed tasks yields only task 1. Re-completing task 1 stamps `updatedAt`. Deleting id 999 answers 404 "Task not found" |

## Left out

- Express plumbing is not modelled: security headers, CORS, rate limiting, request logging, body parsing and static files (server.js:1-30).
- The dashboard's HTML markup (server.js:51-219) is not modelled. Only its counts are.
- The static `/api` documentation payload is not modelled, because it is constant text.
- The catch-all 404 route and the 500 error handler are not modelled, nor is server start-up or SIGTERM handling. These are framework I/O.
- The health report's `status`, `timestamp`, `uptime`, `environment`, `version` and `memory` fields are not modelled. They come from the clock, the process and the environment. Only the task counts are modelled.
- TaskStore.Create: the counter is an unbounded integer. In the server it is a JavaScript number, which is exact only below 2^53; from there `nextId++` stops advancing and ids repeat. The model assumes fewer creations than that, and the id lemmas built on it (`Api.CreatedIdsIncrease`, `Api.CreatedIdsFresh`, the unique-id part of `Valid`) hold only under that assumption.
- Timestamps are opaque values passed in as parameters. The model does not constrain them and does not order them.
- Path ids are taken as integers. `parseInt` of the path segment is not modelled. An unparsable id (NaN) matches no task, which is the same as an absent id.
- Body and query fields are modelled as optional strings. Non-string JSON values are not modelled, and neither is `null`: a `priority: null` in a create body would be stored as null, because the default applies only to a missing field. Repeated query parameters, which Express turns into arrays, are not modelled either.
- The deployment webhooks are not part of this model. They check a token and then run detached shell commands, which is process I/O.
- tests/health.test.js is not part of this model. It exercises a self-contained mock application, not this server.
