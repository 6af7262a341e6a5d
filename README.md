# cqrs-rust-lib write-side kernel in Dafny

This project models the event-sourcing kernel of `cqrs-rust-lib` and proves properties of the model. The kernel covers:

- the unified error taxonomy (`CqrsErrorCode`, `CqrsError`);
- the request context (`CqrsContext`), including version-4 UUID generation;
- the event store with optimistic concurrency (`EventStore`, `EventStoreImpl`) over the in-memory storage (`InMemoryPersist`);
- the command engine (`CqrsCommandEngine`);
- the read-side reactors: the in-memory dispatcher, the view dispatcher and the in-memory view store;
- the test fixture (`TestAggregate`, `TestView`);
- the pure REST helpers (route naming, schema naming, discriminators, schema flattening);
- the todo-list example aggregate, with its events and its error catalogue;
- the bank account error catalogue.

The modules follow the crate's files:

| file | module | models |
|---|---|---|
| wrappers.dfy | `Wrappers` | `Option`, `Result`, and `Outcome` (a `Result<(), E>`) |
| json.dfy | `Json` | the part of `serde_json::Value` the core touches |
| text.dfy | `Text` | decimal rendering and ASCII case mapping |
| errors.dfy | `Errors` | src/errors.rs |
| context.dfy | `Context` | src/context.rs, and the UUID layout of RFC 4122 (sections 3 and 4.4) |
| aggregate.dfy | `Aggregate` | src/aggregate.rs, src/event.rs, src/snapshot.rs, src/denormalizer.rs: the interfaces as records of functions |
| inmemory.dfy | `EsInMemory` | src/es/inmemory.rs |
| es_impl.dfy | `EsImpl` | src/es/impl.rs |
| event_store.dfy | `EventStore` | src/event_store.rs |
| engine_spec.dfy, engine.dfy | `EngineSpec`, `Engine` | src/engine.rs: pipelines as functions, then the engine class |
| engine_scenarios.dfy | `EngineScenarios` | the engine's tests in src/engine.rs |
| memory_dispatcher.dfy | `MemoryDispatcher` | src/dispatchers/memory.rs |
| view_store.dfy | `ViewStore` | src/read/memory.rs |
| view_dispatcher.dfy | `ViewDispatcher` | src/dispatchers/view_dispatcher.rs, over the `Storage` calls of src/read/storage.rs |
| view_scenarios.dfy | `ViewScenarios` | the view store's test, and how the store and the dispatcher differ |
| testing.dfy | `Testing` | src/testing.rs |
| rest_helpers.dfy | `RestHelpers` | src/rest/helpers.rs |
| todolist_events.dfy, todolist_errors.dfy, todolist.dfy, todolist_scenarios.dfy | `TodolistEvents`, `TodolistErrors`, `Todolist`, `TodolistScenarios` | example/todolist/src/todolist/ |
| account_errors.dfy | `AccountErrors` | example/bank/src/account/errors.rs |

How each Rust construct is modelled:

- **Traits.** A Rust trait implementation becomes a record of functions. `AggregateKind` holds `TYPE`, `Default`, `aggregate_id`, `with_aggregate_id`, `apply`, `error`, the error type's `to_string` (`display`; the trait bounds the error by `std::error::Error`, so `Display` is all the generic code can use) and `event_type`. `CommandHandler` and `ViewKind` are records in the same way.
- **State.** Objects whose fields the source updates in place are classes: `InMemoryPersist`, `EventStoreImpl`, `CqrsCommandEngine`, `InMemoryDispatcher` and `InMemoryViewStore`. Their methods carry `modifies` clauses and state their new state.
- **Loops and their specifications.** Each loop of the source is a method with a `while` loop. Each such method is proved against a specification function: `ApplyAll` for the replay loops, `CommitSpec` for a commit, `CreateSpec`/`UpdateSpec` for the two pipelines, `DispatchSpec` for the view dispatcher, `Stripped` and `Sanitized` for the name helpers, and `ReadSchemaSpec` for `read_schema`. The lemmas about those functions carry the properties.
- **Aggregate states.** `apply(&mut self, e)` becomes a function from the old state to the new one. Aggregates are `Clone` values that the engine owns.
- **Commits.** A commit is one atomic step over the storage's two maps. The tokio session lock exists only to make that step atomic.
- **Versions.** Versions are 1-based: the first envelope gets version 1, and an empty journal has latest version 0.
- **Errors.** `AggregateError` is an alias of `CqrsError`, so the variants the engine and the store still name map onto its constructors:
  - `UserError(e.into())` boxes the aggregate's error as the cause of a domain error, which is what `user_error` builds: `INFRASTRUCTURE_DOMAIN_ERROR` whose message is the error's own `to_string` (`Aggregate.UserErrorOf`);
  - `Conflict` becomes `concurrency_error`.
- **Clock and randomness.** The clock reading is a field of the context. The random draws are an `Entropy` input, a function from draw index to 16 bytes.
  - A create draws the new id first, the handler's draw second, and one draw per envelope after that.
  - An update gives the handler the first draw and one draw per envelope after that.
- **Dispatcher outcomes.** What each dispatcher reports to the engine is an input function. The engine records the `dispatch` calls it made and the errors it passed to `error_handler`.

Behaviour of the code that is easy to misread:

- **Initialize and load errors.** An `initialize_aggregate` on an id that has a snapshot does not use `aggregate_already_exists` (src/errors.rs:254-256). It returns the domain error `INFRASTRUCTURE_DOMAIN_ERROR` (400), whose message is the `to_string` of the aggregate's own `error(409, "Aggregate already exists")`. A load without a snapshot likewise does not use `aggregate_not_found` (src/errors.rs:249-251): it gives the domain error around `error(404, "Aggregate not found")`.
- **Handler errors become text.** A failing handler or `apply` reaches the caller as a domain error whose message is the aggregate error's `to_string`. Its status and code are those of `INFRASTRUCTURE_DOMAIN_ERROR`, whatever the aggregate's error carried (`Testing.EngineErrorText`).
- **The version check.** `commit` compares the expected version with the version of the last stored event, not with the journal's length. The two agree on every journal written through `commit` (`EsInMemory.LatestOfContiguous`, `EsImpl.CommitKeepsContiguous`).
- **Dispatch is awaited.** `handle_events` finishes before the engine returns `Ok`. Dispatcher errors never reach the caller.
- **The view store stores a default on an ignored event.** `InMemoryViewStore::update_view` inserts the default view even when `update` returns `None`. `ViewDispatcher::dispatch` saves nothing in that case (`ViewScenarios.CounterEventOnMissingView`).

## Model

| member | source | states |
|---|---|---|
| `Errors.InternalCodeFitsU16` | src/errors.rs:58-60 | `prefix*1000 + index` fits the `u16` when the prefix is at most 64 and the index at most 999 |
| `Errors.InternalCodeDetermines` | src/errors.rs:58-60 | with indices below 1000, equal internal codes mean equal prefix and equal index |
| `Errors.CodeStringShape` | src/errors.rs:64-66 | the code string is the upper-cased domain, then `_`, then the tag, and has that length |
| `Errors.FromCode` | src/errors.rs:161-171 | copies domain, code string, internal code and status from the code, keeps the message, sets no details and no request id |
| `Errors.WithDetails` | src/errors.rs:174-177 | sets the details; every other field is unchanged |
| `Errors.WithRequestId` | src/errors.rs:180-183 | sets the request id; every other field is unchanged |
| `Errors.HttpStatus` | src/errors.rs:186-188 | a status in 100..999 is kept; any other status becomes 500 |
| `Errors.DisplayReadsBack` | src/errors.rs:264-272 | the display is `[`, the decimal internal code (which parses back), `] `, the code, `: `, the message |
| `Errors.Infrastructure` | src/errors.rs:324-368 | each infrastructure variant is the row with domain `infrastructure`, prefix 0 and its index, status and tag |
| `Errors.InfrastructureCodeString` | src/errors.rs:291-330 | infrastructure code strings are `INFRASTRUCTURE_` plus the tag |
| `Errors.InfrastructureIndicesDistinct` | src/errors.rs:332-350 | distinct infrastructure variants have distinct indices and so distinct internal codes |
| `Errors.InfrastructureIndexInverse` | src/errors.rs:332-350 | every infrastructure variant is recovered from its index |
| `Errors.InfrastructureTagsDistinct` | src/errors.rs:291-322 | distinct infrastructure variants have distinct display tags |
| `Errors.Generic` | src/errors.rs:396-427 | each generic variant is the row with domain `generic`, prefix 1 and its index, status and tag |
| `Errors.GenericCodeString` | src/errors.rs:379-402 | generic code strings are `GENERIC_` plus the tag |
| `Errors.GenericFromStatus` | src/errors.rs:429-441 | 400, 401, 403, 404, 409 and 410 map to ValidationFailed, Unauthorized, Forbidden, NotFound, Conflict and Gone, in both directions; every other status maps to InternalError |
| `Errors.GenericFromStatusRoundTrip` | src/errors.rs:416-441 | a mapped status comes back unchanged through the code's status; every other status comes back as 500 |
| `Errors.NotFoundError` | src/errors.rs:195-198 | `GENERIC_NOT_FOUND`, 1002, 404, domain `generic`, the given message |
| `Errors.Validation` | src/errors.rs:200-203 | `GENERIC_VALIDATION_FAILED`, 1001, 400 |
| `Errors.Internal` | src/errors.rs:205-208 | `GENERIC_INTERNAL_ERROR`, 1000, 500 |
| `Errors.ConflictError` | src/errors.rs:210-213 | `GENERIC_CONFLICT`, 1003, 409 |
| `Errors.UnauthorizedError` | src/errors.rs:215-218 | `GENERIC_UNAUTHORIZED`, 1004, 401 |
| `Errors.ForbiddenError` | src/errors.rs:220-223 | `GENERIC_FORBIDDEN`, 1005, 403 |
| `Errors.UserError` | src/errors.rs:229-231 | `INFRASTRUCTURE_DOMAIN_ERROR`, 14, 400, the cause's display as message |
| `Errors.DatabaseErrorOf` | src/errors.rs:234-236 | `INFRASTRUCTURE_DATABASE_ERROR`, 10, 500 |
| `Errors.SerializationErrorOf` | src/errors.rs:239-241 | `INFRASTRUCTURE_SERIALIZATION_ERROR`, 11, 500 |
| `Errors.ConcurrencyErrorOf` | src/errors.rs:244-246 | `INFRASTRUCTURE_CONCURRENCY_ERROR`, 13, 409, message `Version conflict` |
| `Errors.AggregateNotFoundOf` | src/errors.rs:249-251 | `INFRASTRUCTURE_AGGREGATE_NOT_FOUND`, 12, 404, with the message `Aggregate '<id>' not found`, so the id sits at offset 11 |
| `Errors.AggregateAlreadyExists` | src/errors.rs:254-256 | `INFRASTRUCTURE_CONFLICT`, 3, 409, with the message `Aggregate '<id>' already exists`, so the id sits at offset 11 |
| `Errors.FromStatus` | src/errors.rs:259-261 | the error of the generic code the status maps to: domain `generic`, code `GENERIC_` plus its tag, internal code `1000 +` its index, its status, and the given message |
| `Json.Get` | src/context.rs:47-53 | a field comes back exactly when the value is an object holding the key, and it is that field |
| `Context.New` | src/context.rs:13-21 | the given user and clock reading, an empty request id, no metadata, no fixed bytes |
| `Context.CurrentUser` | src/context.rs:23-25 | the stored user, or `anonymous` when there is none |
| `Context.WithRequestId` | src/context.rs:38-40 | replaces the request id; every other field is unchanged |
| `Context.WithMetadata` | src/context.rs:42-45 | replaces the metadata; every other field is unchanged |
| `Context.WithRandBytes` | src/context.rs:117-120 | fixes the random bytes; every other field is unchanged |
| `Context.Metadata` | src/context.rs:47-53 | no key gives the whole value; a key gives its entry when the metadata is an object holding it, and None otherwise |
| `Context.FromRandomBytes` | src/context.rs:127 | the version nibble becomes 4, the two variant bits become `10`, and every other bit is kept (section 4.4 of RFC 4122) |
| `Context.Hex` | src/context.rs:127-129 | two hex digits per byte |
| `Context.ParseHexRoundTrip` | src/context.rs:127-129 | parsing the hex digits gives the bytes back |
| `Context.WithNextRequestId` | src/context.rs:31-36 | the request id becomes `next_uuid()`; every other field is unchanged |
| `Context.UuidShape` | src/context.rs:121-130 | 36 characters, hyphens at 8, 13, 18 and 23, `4` at 14, one of `89ab` at 19 |
| `Context.UuidRoundTrip` | src/context.rs:121-130 | the string decodes back to the version-stamped bytes |
| `Context.NextUuidLength` | src/context.rs:143-148 | `next_uuid` always has 36 characters |
| `Context.NextUuidDeterministic` | src/context.rs:121-130 | with fixed bytes the UUID does not depend on the random draw |
| `Context.NextUuidInjective` | src/context.rs:121-130 | without fixed bytes, draws that differ outside the version and variant bits give different UUIDs |
| `Context.ZeroUuid` | src/context.rs:150-155 | sixteen zero bytes give `00000000-0000-4000-8000-000000000000` |
| `Aggregate.UserErrorOf` | src/event_store.rs:38-40 | wrapping an aggregate error gives `INFRASTRUCTURE_DOMAIN_ERROR`, 14, 400, with the aggregate error's own `to_string` as message |
| `Aggregate.ApplyAllConcat` | src/event_store.rs:58-63 | replaying `xs + ys` is replaying `xs`, then `ys` from its result, stopping at the first failure |
| `Aggregate.ApplyAllKeepsIdentity` | src/aggregate.rs:21-24 | when `apply` keeps the id, so does any replay |
| `EsInMemory.EventsAfterMembers` | src/es/inmemory.rs:55-67 | an envelope is kept exactly when it is stored and its version is above `v` |
| `EsInMemory.EventsAfterContiguous` | src/es/inmemory.rs:62-66 | the filter keeps stored order: on a contiguous journal it is the suffix after position `v` |
| `EsInMemory.EventsAfterNone` | src/es/inmemory.rs:62-66 | nothing is returned when no stored version is above `v` |
| `EsInMemory.LatestOfContiguous` | src/es/impl.rs:68-70 | on a journal numbered `1..N` the latest version is `N` |
| `EsInMemory.ContiguousAppend` | src/es/impl.rs:74-81 | appending envelopes numbered `N+1, N+2, …` keeps a journal contiguous |
| `EsInMemory.AppendedStream` | src/es/inmemory.rs:96-109 | saving events appends them, in order, to the journal of the first event's aggregate only; saving nothing changes nothing |
| `EsInMemory.InMemoryPersist.constructor` | src/es/inmemory.rs:21-24 | both maps start empty |
| `EsInMemory.InMemoryPersist.FetchSnapshot` | src/es/inmemory.rs:47-53 | the stored snapshot of the id, or None |
| `EsInMemory.InMemoryPersist.FetchEventsFromVersion` | src/es/inmemory.rs:55-67 | the stored events of the id with a version above `v`, in stored order |
| `EsInMemory.InMemoryPersist.FetchAllEvents` | src/es/inmemory.rs:69-76 | the whole journal of the id, empty for an unknown id |
| `EsInMemory.InMemoryPersist.FetchLatestEvent` | src/es/inmemory.rs:78-89 | the last envelope of the aggregate's journal, None exactly when it is empty |
| `EsInMemory.InMemoryPersist.SaveEvents` | src/es/inmemory.rs:91-110 | the journal becomes the appended one; the snapshots are unchanged |
| `EsInMemory.InMemoryPersist.SaveSnapshot` | src/es/inmemory.rs:112-127 | overwrites the aggregate's snapshot with the state and version; other snapshots and every journal are unchanged |
| `EsImpl.CommitVersionCheck` | src/es/impl.rs:68-73 | a commit fails exactly when the version is not the latest stored version (0 when there is none), and then with the concurrency error |
| `EsImpl.CommitEnvelopes` | src/es/impl.rs:74-85 | the i-th envelope has version `version+i+1`, the aggregate's id, the metadata, the clock reading, a 36-character id and the i-th payload |
| `EsImpl.CommitState` | src/es/impl.rs:87-92 | the snapshot holds the state at `version + n`, the journal gains exactly the returned envelopes, and no other journal or snapshot changes |
| `EsImpl.CommitKeepsContiguous` | src/es/impl.rs:70-81 | a journal numbered `1..N` stays numbered without gaps after a commit |
| `EsImpl.CommitExclusive` | src/es/impl.rs:68-73 | after a non-empty commit at version `v` succeeds, every other commit at `v` on that aggregate fails with the concurrency error |
| `EsImpl.CommitFixedBytesRepeatIds` | src/es/impl.rs:77 | with fixed random bytes every envelope gets the same event id |
| `EsImpl.EventStoreImpl.constructor` | src/es/impl.rs:21-26 | wraps the given storage |
| `EsImpl.EventStoreImpl.LoadSnapshot` | src/es/impl.rs:35-40 | delegates to `fetch_snapshot` |
| `EsImpl.EventStoreImpl.LoadEventsFromVersion` | src/es/impl.rs:42-50 | delegates to `fetch_events_from_version` |
| `EsImpl.EventStoreImpl.LoadEvents` | src/es/impl.rs:52-57 | delegates to `fetch_all_events` |
| `EsImpl.EventStoreImpl.Commit` | src/es/impl.rs:59-95 | the commit the specification describes: a failure leaves the storage unchanged, a success leaves the specified storage and returns the envelopes |
| `EventStore.InitializeOutcome` | src/event_store.rs:35-43 | fails, with the wrapped `error(409, "Aggregate already exists")`, exactly when a snapshot exists; otherwise the default state with the id set, at version 0 |
| `EventStore.LoadFailures` | src/event_store.rs:46-61 | no snapshot gives the wrapped `error(404, "Aggregate not found")`; a failing `apply` during the replay gives its wrapped error |
| `EventStore.LoadReplaysTail` | src/event_store.rs:52-64 | on a contiguous journal the load replays exactly the events after the snapshot and returns the journal length as version |
| `EventStore.LoadUpToDate` | src/event_store.rs:52-64 | a snapshot at the journal's length loads as its own state and version |
| `EventStore.CommitLeavesSnapshot` | src/es/impl.rs:59-95 | a commit at the length of a contiguous journal succeeds and leaves a snapshot of the committed state at the new length, over a journal that stays contiguous |
| `EventStore.LoadAfterCommit` | src/event_store.rs:45-66 | after a commit at the journal's length, a load returns exactly the committed state and the new length |
| `EventStore.InitializeAggregate` | src/event_store.rs:35-43 | the method computes the initialize specification on the stored snapshot |
| `EventStore.LoadAggregate` | src/event_store.rs:45-66 | the snapshot-then-replay loop computes the load specification on the stored snapshot and journal |
| `EngineSpec.EmptyConsistent` | src/es/inmemory.rs:21-24 | the empty storage satisfies the storage invariant: every snapshot sits at the length of a contiguous journal and is its replay |
| `EngineSpec.LoadConsistent` | src/event_store.rs:45-66 | on a consistent storage an existing aggregate loads as its snapshot |
| `EngineSpec.CommitMatches` | src/es/impl.rs:59-95 | committing the replay of the old journal plus new events keeps the storage invariant |
| `EngineSpec.CreateKeepsConsistent` | src/engine.rs:112-166 | a successful create keeps the storage invariant |
| `EngineSpec.UpdateKeepsConsistent` | src/engine.rs:189-264 | a successful update keeps the storage invariant |
| `EngineSpec.MissingOrExisting` | src/engine.rs:119-133 | a create whose new id already has a snapshot fails with the wrapped 409 error; an update of an id without one fails with the wrapped 404 error |
| `EngineSpec.CreateCommits` | src/engine.rs:112-166 | on a consistent storage, a create whose handler and replay succeed commits: the new journal is the envelopes of the handler's events and the snapshot is their replay |
| `EngineSpec.UpdateCommits` | src/engine.rs:189-248 | an update commits at the loaded version: the events follow the journal and the snapshot moves to the applied state at the new length |
| `EngineSpec.UpdateIsCommit` | src/engine.rs:198-248 | once loaded, an update returns exactly what committing the handler's applied events returns |
| `EngineSpec.FixedBytesCreateTwice` | src/engine.rs:119-133 | with fixed random bytes a second create after a successful one fails as already existing |
| `Engine.Calls` | src/engine.rs:176-178 | one `dispatch` call per dispatcher, in registration order, with the same id, envelopes and context |
| `Engine.FailuresReported` | src/engine.rs:176-185 | an error reaches the error handler exactly when some dispatcher reported it, and there are never more errors than dispatchers |
| `Engine.AllPassNoFailures` | src/engine.rs:176-185 | when every dispatcher succeeds the error handler is never called |
| `Engine.ApplyEvents` | src/engine.rs:227-232 | the apply loop computes the replay, stopping at the first failure |
| `Engine.CqrsCommandEngine.constructor` | src/engine.rs:61-73 | the given store, aggregate, handler and dispatchers; no calls made and no errors handled |
| `Engine.CqrsCommandEngine.AppendDispatcher` | src/engine.rs:75-77 | the dispatcher goes last; nothing else changes |
| `Engine.CqrsCommandEngine.HandleEvents` | src/engine.rs:168-187 | adds one call per dispatcher in order; the failures go to the error handler and the loop continues |
| `Engine.CqrsCommandEngine.CommitAndDispatch` | src/engine.rs:235-260 | a commit failure is returned with nothing stored or dispatched; an empty commit dispatches nothing; otherwise every dispatcher is called |
| `Engine.CqrsCommandEngine.Process` | src/engine.rs:266-326 | an apply failure returns the wrapped error before any commit; otherwise the commit-and-dispatch outcome, with Ok despite dispatcher errors |
| `Engine.CqrsCommandEngine.ExecuteCreateWithMetadata` | src/engine.rs:112-166 | computes the create specification: on failure the error and an untouched store, on success the new id, the committed store and the dispatches |
| `Engine.CqrsCommandEngine.ExecuteCreate` | src/engine.rs:79-93 | the same with empty metadata |
| `Engine.CqrsCommandEngine.ExecuteUpdateWithMetadata` | src/engine.rs:189-264 | computes the update specification: on failure the error and an untouched store, on success the committed store and the dispatches |
| `Engine.CqrsCommandEngine.ExecuteUpdate` | src/engine.rs:95-110 | the same with empty metadata |
| `EngineScenarios.CreateNamed` | src/engine.rs:340-363 | creating the test aggregate stores `[Created(name)]` and a snapshot with counter 0 and that name |
| `EngineScenarios.IncrementOnce` | src/engine.rs:364-413 | an increment appends `Incremented` and steps the snapshot's counter |
| `EngineScenarios.CreateThenTwoIncrements` | src/engine.rs:414-469 | create then two increments succeed and leave `Created(name)`, `Incremented`, `Incremented` |
| `EngineScenarios.MultipleUpdates` | src/engine.rs:414-469 | through the engine objects: a 36-character id whose journal holds `Created("toto")`, `Incremented`, `Incremented` |
| `MemoryDispatcher.EventsOf` | src/dispatchers/memory.rs:22-25 | the list of a known id, empty for an unknown id |
| `MemoryDispatcher.DispatchedLaws` | src/dispatchers/memory.rs:56-62 | `dispatch` creates the id's key, appends the batch in order to its list, and leaves every other list unchanged |
| `MemoryDispatcher.DispatchedTwice` | src/dispatchers/memory.rs:56-62 | two dispatches to one id equal one dispatch of both batches |
| `MemoryDispatcher.DispatchedNothing` | src/dispatchers/memory.rs:57 | an empty batch only creates the (empty) list |
| `MemoryDispatcher.InMemoryDispatcher.constructor` | src/dispatchers/memory.rs:15-19 | no events |
| `MemoryDispatcher.InMemoryDispatcher.GetEvents` | src/dispatchers/memory.rs:22-25 | the stored list, or empty |
| `MemoryDispatcher.InMemoryDispatcher.GetAllEvents` | src/dispatchers/memory.rs:28-31 | the whole map |
| `MemoryDispatcher.InMemoryDispatcher.Clear` | src/dispatchers/memory.rs:34-37 | afterwards every id's list is empty |
| `MemoryDispatcher.InMemoryDispatcher.Dispatch` | src/dispatchers/memory.rs:48-69 | the push loop leaves the dispatched map and always returns Ok |
| `MemoryDispatcher.DispatchTwoThenClear` | src/dispatchers/memory.rs:80-134 | two envelopes on `agg1` come back in order, the map has that single key, and after `clear` the list is empty |
| `ViewStore.UpdatedViewsLaws` | src/read/memory.rs:46-56 | the view id's key is present afterwards and holds `update`'s result, or else the previous view or the default; other keys are unchanged |
| `ViewStore.UpdatedAllFrame` | src/read/memory.rs:43-59 | over many updates, a key no event maps to keeps its presence and view; a key some event maps to is present |
| `ViewStore.UpdatedAllKeeps` | src/read/memory.rs:49 | updates never remove a key |
| `ViewStore.InMemoryViewStore.constructor` | src/read/memory.rs:23-28 | no views |
| `ViewStore.InMemoryViewStore.GetView` | src/read/memory.rs:31-34 | the stored view, or None |
| `ViewStore.InMemoryViewStore.GetAllViews` | src/read/memory.rs:37-40 | the whole map |
| `ViewStore.InMemoryViewStore.UpdateView` | src/read/memory.rs:43-59 | the map after the update, and always Ok |
| `ViewStore.InMemoryViewStore.Clear` | src/read/memory.rs:62-65 | no views remain |
| `ViewScenarios.TwoUpdatesThenClear` | src/read/memory.rs:193-249 | two name events on `agg1` give the view `Test 1` at version 1, then `Test 1 Updated` at version 2; one key; none after `clear` |
| `ViewScenarios.CounterEventOnMissingView` | src/read/memory.rs:49-56 | an ignored event on a missing view makes the view store insert the default, while the view dispatcher saves nothing |
| `ViewDispatcher.StepOutcome` | src/dispatchers/view_dispatcher.rs:39-47 | the lookup is under the aggregate id and the view id; its error returns at once; a save happens exactly when `update` of the found view (or the default) gives one, and saves that |
| `ViewDispatcher.DispatchConcat` | src/dispatchers/view_dispatcher.rs:38-48 | events go in order: dispatching `xs + ys` is `xs`, then `ys` from the state it left, unless `xs` failed |
| `ViewDispatcher.ReliableStoragePasses` | src/dispatchers/view_dispatcher.rs:49 | a storage whose calls never fail gives Ok |
| `ViewDispatcher.FailureHasCause` | src/dispatchers/view_dispatcher.rs:43-46 | a failed dispatch failed at one event after all earlier ones went through, and returns that event's storage error |
| `ViewDispatcher.Dispatch` | src/dispatchers/view_dispatcher.rs:32-50 | the loop computes the dispatch specification |
| `ViewDispatcher.DispatchAgreesWithViewStore` | src/dispatchers/view_dispatcher.rs:38-48 | over a map storage, when `update` always gives a view saved under the event's view id, the dispatcher leaves the same views as the in-memory view store |
| `Testing.Wrap` | src/testing.rs:87-88 | the `i32` wrap-around: in-range values are kept, and the result differs from the input by a multiple of 2^32 |
| `Testing.EventType` | src/testing.rs:48-57 | each variant's name, in both directions |
| `Testing.TestKeepsIdentity` | src/testing.rs:75-91 | `with_aggregate_id` sets the id `aggregate_id` reads, and `apply` keeps it |
| `Testing.WithAggregateIdLaws` | src/testing.rs:79-81 | `with_aggregate_id` changes only the id |
| `Testing.ApplyLaws` | src/testing.rs:83-91 | `apply` never fails; the name events set only the name; the counter events keep the name and step the counter by one, wrapping, and undo each other |
| `Testing.Increments` | src/engine.rs:452-466 | `k` increment events |
| `Testing.ReplayIncrements` | src/testing.rs:87 | replaying `k` increments adds `k` to the counter modulo 2^32 and keeps id and name |
| `Testing.WrapShift` | src/testing.rs:87-88 | wrapping between steps does not change the final wrap |
| `Testing.HandlerOutputs` | src/testing.rs:104-125 | `handle_create` gives `[Created(name)]`; `handle_update` gives `[Incremented]` or `[Decremented]` |
| `Testing.ViewUpdateLaws` | src/testing.rs:144-160 | the view changes exactly on the name events and then takes the envelope's id, version and name |
| `Testing.EngineErrorText` | src/testing.rs:8-11 | a test error reaches the caller as a domain error whose message is `Test error <text>`; its display adds `[14] INFRASTRUCTURE_DOMAIN_ERROR: ` once |
| `RestHelpers.MethodToString` | src/rest/helpers.rs:8-19 | a lower-case ASCII name of at least three letters |
| `RestHelpers.MethodToStringInjective` | src/rest/helpers.rs:8-19 | distinct methods have distinct names |
| `RestHelpers.ResponseCode` | src/rest/helpers.rs:30-33 | `201` exactly for POST, `200` otherwise |
| `RestHelpers.ReplaceSlashes` | src/rest/helpers.rs:43 | same length, no slash, slashes become dashes and everything else is kept |
| `RestHelpers.MethodInOperationId` | src/rest/helpers.rs:39-44 | the operation id starts with the type name, and the method name follows the dash |
| `RestHelpers.OperationIdNoSlash` | src/rest/helpers.rs:39-44 | no slash after the type name |
| `RestHelpers.OperationIdDistinguishesMethods` | src/rest/helpers.rs:39-44 | two methods of one route get different operation ids |
| `RestHelpers.StripSuffixes` | src/rest/helpers.rs:145-153 | the loop computes the strip specification: each suffix checked once, in order, against the string as it stands |
| `RestHelpers.StrippedIsPrefix` | src/rest/helpers.rs:145-153 | the result is a prefix of the input |
| `RestHelpers.StrippedNoUpper` | src/rest/helpers.rs:145-153 | suffixes starting with an upper-case ASCII letter never come off a string with none |
| `RestHelpers.ToRemove` | src/rest/helpers.rs:155 | the four suffixes, each starting with an upper-case ASCII letter |
| `RestHelpers.SanitizeSchemaName` | src/rest/helpers.rs:154-175 | the loop computes the sanitize specification for the given character classification |
| `RestHelpers.KebabLength` | src/rest/helpers.rs:167-169 | the output is as long as the stripped name plus the number of lower-to-upper transitions |
| `RestHelpers.SanitizedShape` | src/rest/helpers.rs:158-171 | no upper-case ASCII letter; empty exactly when the stripped name is; first character is the stripped name's first, lower-cased; the length law |
| `RestHelpers.SanitizedAsciiIdempotent` | src/rest/helpers.rs:154-175 | with ASCII classification, sanitizing an output returns it unchanged |
| `RestHelpers.SanitizedUnicodeNotIdempotent` | src/rest/helpers.rs:167-171 | as written, `AÉ` gives `aÉ`, and `aÉ` gives `a-É` |
| `RestHelpers.SanitizedAgreeOnAscii` | src/rest/helpers.rs:154-175 | on ASCII names the code as written and the ASCII classification agree |
| `RestHelpers.CreateCommandsExample` | src/rest/helpers.rs:155-158 | `CreateCommands` strips to `Create` and sanitizes to `create` |
| `RestHelpers.StripOrderExample` | src/rest/helpers.rs:147-151 | suffixes are checked in order: `XCommandsCommand` strips to `X` |
| `RestHelpers.StripOnceExample` | src/rest/helpers.rs:147-151 | each suffix is checked once: `SaveCommandCommand` strips to `SaveCommand` |
| `RestHelpers.AddDiscriminator` | src/rest/helpers.rs:137-143 | on an object, the field is set to the string and every other field kept; no discriminator or a non-object changes nothing |
| `RestHelpers.AddDiscriminatorReadsBack` | src/rest/helpers.rs:137-143 | the added discriminator reads back with `get` |
| `RestHelpers.FindDiscriminator` | src/rest/helpers.rs:95-106 | None exactly when no property is an inline object with a single string enum; otherwise the first such property's name and value |
| `RestHelpers.RemoveProperty` | src/rest/helpers.rs:111 | keeps exactly the properties with another name |
| `RestHelpers.ReadSchema` | src/rest/helpers.rs:90-135 | the recursion computes the flattening specification |
| `RestHelpers.ReadEach` | src/rest/helpers.rs:121-130 | the item loop concatenates the items' results in order |
| `RestHelpers.ReadSchemaEntries` | src/rest/helpers.rs:107-119 | every entry is an object schema; a discriminated one is named by the value and has lost the property, any other carries the given name |
| `RestHelpers.ReadSchemaCounts` | src/rest/helpers.rs:90-135 | an object gives one entry, a reference or other schema none, and each item's entries are counted in its `oneOf`/`anyOf` |
| `RestHelpers.ReadItemsContains` | src/rest/helpers.rs:121-130 | every entry of an item appears in the concatenation |
| `TodolistEvents.EventType` | example/todolist/src/todolist/events.rs:15-23 | each variant's snake-case tag, in both directions |
| `TodolistEvents.EventTypeIsVariant` | example/todolist/src/todolist/events.rs:15-23 | two events share a tag exactly when they share a variant, so the tag ignores the fields and the five tags are distinct |
| `TodolistErrors.Entry` | example/todolist/src/todolist/errors.rs:4-13 | every row has domain `todolist` and prefix 20 |
| `TodolistErrors.Raise` | example/todolist/src/todolist/errors.rs:4-13 | the error of a row: domain, message, internal code, status, and the code `TODOLIST_` plus the tag |
| `TodolistErrors.ToCqrsError` | example/todolist/src/todolist/errors.rs:15-19 | the conversion uses the display tag as message |
| `TodolistErrors.Codes` | example/todolist/src/todolist/errors.rs:6-12 | internal codes 20001 to 20004 and statuses 404, 409, 400, 400; `TODOLIST_TODO_NOT_FOUND` |
| `TodolistErrors.TableWellFormed` | example/todolist/src/todolist/errors.rs:6-12 | every internal code fits the `u16` and tells the rows apart |
| `AccountErrors.Entry` | example/bank/src/account/errors.rs:4-13 | every row has domain `account` and prefix 10 |
| `AccountErrors.Raise` | example/bank/src/account/errors.rs:4-13 | the error of a row: domain, message, internal code, status, and the code `ACCOUNT_` plus the tag |
| `AccountErrors.ToCqrsError` | example/bank/src/account/errors.rs:15-19 | the conversion uses the display tag as message |
| `AccountErrors.Codes` | example/bank/src/account/errors.rs:6-12 | internal codes 10001 to 10004; status 410 for AccountClosed and 400 for the others; `ACCOUNT_INSUFFICIENT_FUNDS` |
| `AccountErrors.TableWellFormed` | example/bank/src/account/errors.rs:6-12 | every internal code fits the `u16` and tells the rows apart |
| `Todolist.TrimEmptyIffBlank` | example/todolist/src/todolist/aggregate.rs:91 | `trim().is_empty()` holds exactly when every character is white space |
| `Todolist.FindFirst` | example/todolist/src/todolist/aggregate.rs:130 | None exactly when no todo has the id; otherwise the first position holding it |
| `Todolist.RetainLaws` | example/todolist/src/todolist/aggregate.rs:56 | keeps exactly the todos with another id, shrinks exactly when the id is present, and keeps the list when it is absent |
| `Todolist.RetainConcat` | example/todolist/src/todolist/aggregate.rs:56 | `retain` works piecewise, so the kept todos stay in order |
| `Todolist.UpdateFirst` | example/todolist/src/todolist/aggregate.rs:59-66 | the length is kept |
| `Todolist.UpdateFirstLaws` | example/todolist/src/todolist/aggregate.rs:59-66 | only the first todo with the id changes, and nothing changes when no todo has it |
| `Todolist.ApplyLaws` | example/todolist/src/todolist/aggregate.rs:44-70 | never fails and keeps the id; creation sets only the name; an added todo is appended unassigned and unresolved; removal drops every todo with the id; assign and resolve rewrite one field of the first match or change nothing |
| `Todolist.CreateOutcome` | example/todolist/src/todolist/aggregate.rs:89-95 | refused with LIST_NAME_REQUIRED exactly when the name is blank; otherwise `[TodoListCreated(name)]` |
| `Todolist.AddTodoOutcome` | example/todolist/src/todolist/aggregate.rs:106-114 | refused with EMPTY_TITLE exactly when the title is blank; otherwise one `TodoAdded` with the 36-character `next_uuid()` |
| `Todolist.TargetedOutcome` | example/todolist/src/todolist/aggregate.rs:115-138 | an unknown id gives TODO_NOT_FOUND naming it; otherwise the one matching event, except TODO_ALREADY_RESOLVED for a resolved todo |
| `Todolist.TodoKeepsIdentity` | example/todolist/src/todolist/aggregate.rs:35-70 | `with_aggregate_id` sets the id `aggregate_id` reads, and `apply` keeps it |
| `Todolist.HandledThenApplied` | example/todolist/src/todolist/aggregate.rs:99-140 | an accepted command, applied, does what it asked: the todo appended, the id gone, the first match assigned or resolved |
| `Todolist.TodoViewNeverSaves` | example/todolist/src/todolist/aggregate.rs:143-154 | the view's `update` gives nothing, so the view dispatcher never changes its storage |
| `TodolistScenarios.BlankListNameRefused` | example/todolist/src/todolist/aggregate.rs:91-93 | through the create pipeline a blank name fails with the wrapped LIST_NAME_REQUIRED error |
| `TodolistScenarios.CreateList` | example/todolist/src/todolist/aggregate.rs:89-95 | creating a list stores the named, empty list and its one event |
| `TodolistScenarios.AddTodoToList` | example/todolist/src/todolist/aggregate.rs:106-114 | adding a titled todo stores it appended, unassigned and unresolved, under the handler's UUID |
| `TodolistScenarios.CreateThenAdd` | example/todolist/src/todolist/aggregate.rs:83-114 | from empty storage, create then add leaves the list with that one todo |

## Left out

- Storage I/O and its errors. The in-memory storage never fails, so its calls return plain values. Database backends (PostgreSQL, MongoDB), HTTP routing, OpenAPI builders, server wiring and `tracing` logging are not part of this model.
- Errors.InternalCode: an unbounded `nat`. The source computes `domain_prefix * 1000 + error_index` in `u16`, which panics in a debug build and wraps in a release build once it exceeds 65535. `Errors.InternalCodeFitsU16` shows this cannot happen for prefixes up to 64 with indices up to 999, which covers every catalogue in the crate. Larger prefixes are not modelled.
- Errors.CodeStringShape: the domain is upper-cased with ASCII-only `Text.ToUpper`, not Unicode `str::to_uppercase`. The two agree on the ASCII domain names the crate uses (`infrastructure`, `generic`, `todolist`, `account`). For non-ASCII domains the result and the length law differ: `ß` becomes `SS` in Rust.
- Concurrency. The tokio session lock of `start_session` and `close_session` is not modelled. A commit is one atomic step, so concurrent exclusivity appears only as `EsImpl.CommitExclusive` between successive commits.
- The `Send + Sync` bounds and the `async` machinery. The calls are strictly sequential and are modelled as ordinary calls.
- Command handler services. They are `()` in every handler of the crate.
- The clock and `rand::random`. They are inputs: a clock reading in the context, and the `Entropy` draws.
- Paging (`load_events_paged`). It is declared but not implemented in the storage shown.
- serde serialisation of errors, envelopes and views. `Json.Value` keeps integers only; floating-point numbers are not modelled.
- `Testing.Wrap`: models the release build. A debug build of `counter += 1` at `i32::MAX` panics instead of wrapping.
- In-place updates that are modelled as functions: `apply(&mut self, e)`, `add_discriminator(&mut Value, …)`, and `properties.remove`. Only the value before and the value after are modelled, not aliasing.
- `serde_json` object order. It is modelled as a map. Schema properties are a sequence, so their iteration order is kept.
- `Todolist.TrimEmptyIffBlank`: `str::trim` is modelled with Unicode's `White_Space` list written out. No other Unicode data is used.
- `RestHelpers.SanitizedShape`, `RestHelpers.SanitizedUnicodeNotIdempotent`: `char::is_uppercase` and `char::is_lowercase` are exact only on U+0000..U+00FF (`RestHelpers.UnicodeClasses`). Above that range every character counts as neither.
- `read_schema` runs on a simplified schema tree. Only the properties, the `enum` values of objects, and the items of `oneOf`/`anyOf` are kept. References and every other schema kind produce nothing, as in the code.
- The view storage's `filter` and `HasId` metadata. `ViewDispatcher` takes the two `Storage` calls it makes as a record of functions over an abstract state.
- `generate_route` is modelled only through its response-code and operation-id rules. The OpenAPI objects it builds are not modelled.
- The bank account aggregate and its views. They compute with `f64` balances and amounts; only the account error catalogue is modelled.
- `load` after `update`. It follows from `EngineSpec.UpdateIsCommit` and `EventStore.LoadAfterCommit`, and has no lemma of its own.

## Findings

| source | as written | input that shows it | evidently intended | confidence | as-written member | corrected member |
|---|---|---|---|---|---|---|
| src/rest/helpers.rs:167-171 | the dash test uses Unicode `is_uppercase`/`is_lowercase`, but characters are lowered with `to_ascii_lowercase` only, so a non-ASCII capital stays upper-case in the output | `AÉ` sanitizes to `aÉ`, which sanitizes to `a-É` | `sanitize_schema_name` is idempotent on its own output, as it is when both steps use the same (ASCII) classification | not executed | `RestHelpers.SanitizedUnicodeNotIdempotent` | `RestHelpers.SanitizedAsciiIdempotent` |
