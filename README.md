# Articles state and mock API

This project models the state layer of a small Angular articles page in Dafny.

The page shows a list of articles. A user can delete an article or retry after an error. It has two parts:

- **The mock API** (`ApiService` in `api_service.dfy`) holds a fixed list of ten articles and has two calls:
  - `getArticles` returns the whole list.
  - `deleteArticle(id)` returns the stored article with that id.
  - A random draw makes either call fail with the error `Error 400 | Bad request`. A delete of an id the store lacks always fails.
  - Both calls report an error the same way. The delete error carries the requested id; the load error carries no id.
- **The articles service** has three parts:
  - **`ArticlesReducer`** (`articles_state.dfy`) defines the state snapshot: `articles`, `status`, `error`. It also defines the initial snapshot and the six handlers that fold an event into the snapshot: load success, retry, reset, load error, delete success and delete error.
  - **`ArticlesPage`** (`articles_service.dfy`) models the two retrying pipelines. On each failure a pipeline emits its error into the state, then waits for the retry signal, which itself sets the status back to loading, and then calls the API again. The first success is delivered.
  - **`ArticlesService`** is a class in `ArticlesPage`. It holds the snapshot in a field that each event overwrites. Its methods fold single events and run a whole retry loop. `Apply` is proved to take one `Step` and `TryOnce` to fold one attempt's events; `RunWithRetry` and `ResetArticles` are proved to produce the fold of the stream that `RetryEvents` specifies.

Modelling choices:

- The stored list is a `store` parameter of every API function. So no operation can change it, and a deletion shows up only in the service state.
- The random draw `Math.random() < 0.2` is a boolean `fail`. A pipeline's successive draws are a finite sequence `outcomes`.
- The error payload's `id` is an `Option<int>`. The TypeScript `Error` interface declares `id` as required, but the load error is built without one. The model follows the code.

## Model

| member | source | states |
|---|---|---|
| `ApiService.FindById` | src/app/services/api.service.ts:35 | the lookup finds an article exactly when some stored article has the id, and what it finds is stored and has that id |
| `ApiService.FindByIdIsFirst` | src/app/services/api.service.ts:35 | the lookup returns the first stored article with the id |
| `ApiService.GetArticles` | src/app/services/api.service.ts:23-32 | it succeeds exactly when the draw does not fire; the success value is the stored list itself; the error has no id and the message `Error 400 \| Bad request` |
| `ApiService.DeleteArticle` | src/app/services/api.service.ts:34-48 | an absent id fails whatever the draw; it succeeds exactly when the id is present and the draw does not fire; the value is the article the lookup finds, a stored article with that id; every error carries the requested id and the bad-request message |
| `ApiService.DeleteArticleFirst` | src/app/services/api.service.ts:35-42 | without a failure draw, the delete yields the first stored article with the id |
| `ApiService.FixtureIds` | src/app/services/api.service.ts:9-20 | the fixture has ten articles with ids 1 to 10 in order, so its ids are pairwise distinct |
| `ApiService.DeleteFromFixture` | src/app/services/api.service.ts:34-45 | without a failure draw, deleting a fixture id yields exactly the fixture entry with that id |
| `ArticlesReducer.WithoutId` | src/app/pages/articles/articles.service.ts:101 | the filter's result is a subsequence of the list, has exactly the articles whose id differs, and keeps each such article's multiplicity |
| `ArticlesReducer.WithoutIdAbsent` | src/app/pages/articles/articles.service.ts:101 | filtering out an id no article has returns the list unchanged |
| `ArticlesReducer.WithoutIdIdempotent` | src/app/pages/articles/articles.service.ts:101 | filtering twice by the same id equals filtering once |
| `ArticlesReducer.WithoutIdRemovesOne` | src/app/pages/articles/articles.service.ts:101 | with distinct ids, filtering out a present id shortens the list by exactly one |
| `ArticlesReducer.Loaded` | src/app/pages/articles/articles.service.ts:81-85 | load success: the list becomes the loaded list, status success, error unchanged (a stale error is not cleared) |
| `ArticlesReducer.Reloading` | src/app/pages/articles/articles.service.ts:86-93 | retry and reset: status loading, list and error unchanged |
| `ArticlesReducer.LoadFailed` | src/app/pages/articles/articles.service.ts:94-98 | load error: status error, error is the payload, list unchanged |
| `ArticlesReducer.Deleted` | src/app/pages/articles/articles.service.ts:99-103 | delete success: the new list is an order-preserving subsequence of the old one that keeps every article with a different id as often as it occurred and drops every article with the deleted id; status success; error unchanged |
| `ArticlesReducer.DeleteFailed` | src/app/pages/articles/articles.service.ts:104-108 | delete error: status error-deleting, error is the payload, list unchanged |
| `ArticlesReducer.Step` | src/app/pages/articles/articles.service.ts:80-108 | for each event kind, which status results (both directions); only the two success events touch the list; only the two error events touch the error; consistency is preserved and a set error is never cleared |
| `ArticlesReducer.Run` | src/app/pages/articles/articles.service.ts:80-108 | folding events in order: an empty stream changes nothing, the final status is the one the last event's handler sets, and a set error stays set |
| `ArticlesReducer.RunPreservesConsistency` | src/app/pages/articles/articles.service.ts:94-108 | folding any event stream into a consistent state gives a consistent state (an error status has a non-null error) |
| `ArticlesReducer.ReachableConsistent` | src/app/pages/articles/articles.service.ts:31-35 | the initial state is the empty list, loading and no error, and every state reachable from it is consistent |
| `ArticlesReducer.DeleteOkAbsent` | src/app/pages/articles/articles.service.ts:99-103 | a delete success for an id the list lacks leaves the list as it is |
| `ArticlesReducer.DeleteOkIdempotent` | src/app/pages/articles/articles.service.ts:99-103 | two delete successes for the same article fold to the state one gives |
| `ArticlesReducer.DeleteOkRemovesOne` | src/app/pages/articles/articles.service.ts:99-103 | with distinct ids, a delete success for a present id shortens the list by one and leaves no article with that id |
| `ArticlesPage.ErrorEvent` | src/app/pages/articles/articles.service.ts:58 | a failed call's event is an error event: a load error with no id, or a delete error carrying the requested id, both with the bad-request message |
| `ArticlesPage.Attempt` | src/app/pages/articles/articles.service.ts:55-58 | one API call's event is an error exactly when the draw fires or the delete target is absent; errors are the request's error event; a load success carries the stored list; a delete success carries the article the lookup finds, a stored article with the requested id |
| `ArticlesPage.RetryFrom` | src/app/pages/articles/articles.service.ts:53-65 | the events from attempt i on are empty only when no draw is left, and start with the retry signal that releases a later attempt, or with the first call's event |
| `ArticlesPage.RetryEvents` | src/app/pages/articles/articles.service.ts:111-120 | a pipeline emits nothing only when it has no draw, and otherwise starts with its first call's event |
| `ArticlesPage.AttemptsFrom` | src/app/pages/articles/articles.service.ts:56-62 | a pipeline never makes more calls than there are draws, and makes at least one when a draw is left |
| `ArticlesPage.StopEventIsLastCall` | src/app/pages/articles/articles.service.ts:113-117 | the pipeline's final event is that of its last API call, and it is a success whenever the pipeline stopped before its draws ran out |
| `ArticlesPage.RetryFromRounds` | src/app/pages/articles/articles.service.ts:56-62 | from a later attempt on, the events are the retry signal, one round of error plus retry signal per failed call, and the final event |
| `ArticlesPage.RetryEventsRounds` | src/app/pages/articles/articles.service.ts:111-120 | a pipeline making n calls emits n-1 rounds of its error, each followed by the retry signal, then its last call's event, which is a success unless the draws ran out |
| `ArticlesPage.AttemptsConverge` | src/app/pages/articles/articles.service.ts:111-120 | N failed draws then a successful one take exactly N+1 API calls |
| `ArticlesPage.AttemptsExhaust` | src/app/pages/articles/articles.service.ts:53-65 | a delete of an absent id uses up every draw, one call per draw |
| `ArticlesPage.RetryConverges` | src/app/pages/articles/articles.service.ts:111-120 | N failed draws then a success emit exactly N error events, each before its retry signal, then the success event |
| `ArticlesPage.RunRounds` | src/app/pages/articles/articles.service.ts:86-98 | folding rounds of failures keeps the list, leaves the state loading, and leaves the error the failures set |
| `ArticlesPage.LoadConverges` | src/app/pages/articles/articles.service.ts:111-120 | a load failing N times then succeeding ends with exactly the stored list and status success; if N > 0 the load error stays in the state |
| `ArticlesPage.DeleteConverges` | src/app/pages/articles/articles.service.ts:53-65 | a delete of a stored id failing N times then succeeding removes that id from the list, and with distinct ids removes exactly one article |
| `ArticlesPage.DeleteAbsentFailsFrom` | src/app/pages/articles/articles.service.ts:53-65 | from any attempt on, a delete of an absent id never changes the list and ends in error-deleting with an error carrying that id |
| `ArticlesPage.DeleteAbsentFails` | src/app/pages/articles/articles.service.ts:53-65 | a delete of an id the store lacks leaves the list untouched and ends in error-deleting, with an error carrying the id and the bad-request message |
| `ArticlesPage.InitialLoadScenario` | src/app/pages/articles/articles.service.ts:31-35 | from the initial state, a load that fails twice then succeeds passes through loading, error, loading, error, loading, success, and ends with the stored list |
| `ArticlesPage.LoadThenDelete` | src/app/pages/articles/articles.service.ts:99-103 | from the initial state, a load and then a delete of a stored id, both succeeding at once, leave one article fewer and none with that id |
| `ArticlesPage.DeleteThreeScenario` | src/app/services/api.service.ts:9-20 | with the fixture loaded, deleting id 3 leaves nine articles, none with id 3, and status success |
| `ArticlesPage.ArticlesService.constructor` | src/app/pages/articles/articles.service.ts:31-35 | the service starts in the initial state, which is consistent |
| `ArticlesPage.ArticlesService.Apply` | src/app/pages/articles/articles.service.ts:80-108 | folding one event overwrites the snapshot with that event's step and keeps it consistent |
| `ArticlesPage.ArticlesService.TryOnce` | src/app/pages/articles/articles.service.ts:55-60 | one attempt folds in the retry signal that released it, unless it is the first, and then the API call's event |
| `ArticlesPage.ArticlesService.RunWithRetry` | src/app/pages/articles/articles.service.ts:111-120 | the loop leaves the state equal to the fold of the pipeline's specified event stream; it returns the number of API calls, which equals `AttemptsFrom`, is at most the number of draws, and is at least one when any draw is given |
| `ArticlesPage.ArticlesService.ResetArticles` | src/app/pages/articles/articles.service.ts:68-73 | a reset folds in the reset signal and then a fresh load pipeline's whole stream |

## Left out

- RxJS scheduling is not modelled, because the model keeps only the ordered stream of events these operators produce:
  - `switchMap` cancels an earlier load or delete when a newer one starts (lines 54 and 71 of `articles.service.ts`).
  - `merge` interleaves the initial load with loads triggered by reset.
  - `delay(500)` holds each mock call's value for half a second.
- The retry signal is one subject shared by the load and delete pipelines: one retry re-runs every pipeline that is waiting. The model runs one pipeline at a time, so it does not capture that interleaving.
- `Math.random() < 0.2` is replaced by the boolean parameter `fail`. The 20% probability is not modelled.
- Error payloads go through `JSON.stringify` and `JSON.parse`. The model builds the error record directly, with the same fields.
- Angular `signal`, `computed` accessors, `inject` and the ngxtension `connect` wiring are not modelled. The accessors only read single fields of the snapshot. The class field `state` stands in for the signal.
- The page and article components are not modelled: they contain presentation and labels only.
- `ArticlesPage.ArticlesService.RunWithRetry`: the draws are a finite sequence. When the draws run out after a failure, the model stops where the real pipeline would wait forever for the next retry signal.
