# Bot Builder turn pipeline: storage, state and middleware

This project models in Dafny the core of one turn of the Bot Builder .NET runtime. It proves properties of that model.

The model covers three components:

- **`MemoryStorage`**: the in-memory key/value store.
  - It holds a dictionary of serialised records and an eTag counter.
  - It gives optimistic concurrency. A write of an `IStoreItem` whose eTag is stale is rejected. `"*"` skips the check. An accepted store-item write is stamped with the counter, which then advances.
  - It is modelled as a class over `map<string, Option<Value>>` and a `nat` counter (`storage.dfy`). `Read` and `Write` are tied to the pure functions `ReadAll` and `WriteAll`, and the properties are proved about those functions. `Delete` is stated directly as removing the listed keys from the map.
- **`BotState<TState>`**: turn-scoped state (`bot_state.dfy`).
  - It loads a state object under a key derived from the turn.
  - It puts the object into the turn services under a property name, and afterwards writes it back.
  - Under last-writer-wins it first forces a store item's eTag to `"*"`.
- **The middleware chain and the turn context.**
  - The `IMiddleware` contract says handlers run in registration order around a `next` delegate, with the bot's handler innermost. The turn is modelled there as a pure fold `Pipeline.Run` over a datatype of handler behaviours. Those behaviours are `BeforeAfter`, `ShortCircuit`, `CatchAround` and `LoadSave` (the state middleware). The fold threads a `World` value: the inbound activity, `Responded`, the adapter's outbound log, the services, the send interceptors and the store.
  - The `TurnContext` behaviour is pinned down by its tests: `Responded`, `Services` Add/Get, and the send/update/delete interceptor chains. It is modelled as a class in `turn_context.dfy`. The interceptor chains are a fold of `PassThrough | MutateId(id) | Drop | Throw(msg)`. The context also logs what each interceptor invocation was handed. That log is how the model observes an interceptor's own side effects, such as a call counter or a "was called" flag.
  - The concrete test scenarios are in `scenarios.dfy`, each stated as a method or lemma whose contract is the test's assertions.

Supporting modules:

- `wrappers.dfy`: `Option` and `Result`.
- `decimal.dfy`: `int.ToString()` for the counter, with its inverse.
- `runtime.dfy`: values, exceptions and their messages.
- `schema.dfy`: activities and conversation references.

## Model

| member | source | states |
|---|---|---|
| Decimal.DecimalRoundTrip | libraries/Microsoft.Bot.Builder/MemoryStorage.cs:94 | the decimal text the store writes as an eTag parses back to the counter value it came from |
| Decimal.NatToStringInjective | libraries/Microsoft.Bot.Builder/MemoryStorage.cs:94 | distinct counter values give distinct eTag strings |
| Storage.MemoryStorage.constructor | libraries/Microsoft.Bot.Builder/MemoryStorage.cs:22-27 | the store starts from the given dictionary or an empty one, with the counter at 0; an empty store is well stamped and holds only objects |
| Storage.MemoryStorage.Delete | libraries/Microsoft.Bot.Builder/MemoryStorage.cs:29-40 | every listed key is removed; absent keys are ignored; every other key and the counter are unchanged |
| Storage.MemoryStorage.Read | libraries/Microsoft.Bot.Builder/MemoryStorage.cs:42-60 | the loop over the keys computes exactly `ReadAll`, and the store is unchanged |
| Storage.MemoryStorage.Write | libraries/Microsoft.Bot.Builder/MemoryStorage.cs:62-102 | the loop over the changes leaves exactly the state and outcome of `WriteAll` from the old state |
| Storage.ReadFromSucceeds | libraries/Microsoft.Bot.Builder/MemoryStorage.cs:47-56 | when no present key is requested twice, the read loop never throws |
| Storage.ReadFromValue | libraries/Microsoft.Bot.Builder/MemoryStorage.cs:47-56 | a successful read loop adds to what it already had exactly the requested keys that have a non-null record |
| Storage.NoRepeatedCons | libraries/Microsoft.Bot.Builder/MemoryStorage.cs:47-53 | the no-repeated-present-key condition splits over the first key and the rest |
| Storage.ReadReturnsPresentRecords | libraries/Microsoft.Bot.Builder/MemoryStorage.cs:42-60 | `Read` succeeds exactly when no present key is requested twice; it then returns exactly the requested keys present with a non-null value, and missing keys are simply absent |
| Storage.ReadSingleKey | libraries/Microsoft.Bot.Builder/MemoryStorage.cs:42-60 | a one-key read never fails, and returns that key's record when it has a non-null one, and nothing otherwise |
| Storage.StoreItemWrite | libraries/Microsoft.Bot.Builder/MemoryStorage.cs:72-97 | a store-item write fails exactly when the conflict rule holds; it then throws the conflict carrying both eTags and leaves the store unchanged; otherwise it stores the value stamped with the counter and advances the counter |
| Storage.NoConflictCases | libraries/Microsoft.Bot.Builder/MemoryStorage.cs:72-78 | a new key, a record without an eTag, or the incoming eTag `"*"` never conflicts |
| Storage.PlainObjectWrite | libraries/Microsoft.Bot.Builder/MemoryStorage.cs:83-97 | a non-store-item value is stored as it is, with no conflict check and no counter change |
| Storage.WriteAllSplit | libraries/Microsoft.Bot.Builder/MemoryStorage.cs:66-98 | a batch is its first part followed, only when that succeeded, by its second part |
| Storage.ConflictMidBatch | libraries/Microsoft.Bot.Builder/MemoryStorage.cs:66-98 | when a change conflicts mid-batch, the earlier changes stay written, the conflicting key and every later change are untouched, and the conflict is thrown |
| Storage.CounterCountsStoreItems | libraries/Microsoft.Bot.Builder/MemoryStorage.cs:94 | a successful batch advances the counter once per store-item change |
| Storage.WriteThenRead | libraries/Microsoft.Bot.Builder/MemoryStorage.cs:80-97 | after a successful write, reading the key yields the written payload, carrying the store-assigned eTag when it is a store item |
| Storage.ApplyChangeKeepsObjects | libraries/Microsoft.Bot.Builder/MemoryStorage.cs:80 | one applied change keeps every record a JSON object |
| Storage.WriteKeepsObjects | libraries/Microsoft.Bot.Builder/MemoryStorage.cs:66-98 | a write, whatever its outcome, keeps every record a JSON object |
| Storage.ApplyChangeKeepsStamps | libraries/Microsoft.Bot.Builder/MemoryStorage.cs:85-97 | one applied change keeps every store-item record's eTag an issued counter value and keeps the eTags pairwise distinct |
| Storage.WriteKeepsStamps | libraries/Microsoft.Bot.Builder/MemoryStorage.cs:66-98 | a whole write keeps store-item eTags issued and pairwise distinct |
| Storage.DeleteKeepsStamps | libraries/Microsoft.Bot.Builder/MemoryStorage.cs:29-40 | removing keys keeps store-item eTags issued and pairwise distinct |
| Storage.FreshStampIsLatest | libraries/Microsoft.Bot.Builder/MemoryStorage.cs:94 | the eTag a write assigns is numerically greater than every other store item's eTag |
| TurnContexts.StopperEndsChain | tests/Microsoft.Bot.Builder.Tests/TurnContextTests.cs:206-232 | an interceptor that does not call `next` ends the chain: later interceptors do not matter and nothing is delivered |
| TurnContexts.StopperOutcome | tests/Microsoft.Bot.Builder.Tests/TurnContextTests.cs:458-478 | behind pass-through interceptors, a dropping interceptor gives a short-circuit and a throwing one gives its own exception unchanged |
| TurnContexts.Calls | tests/Microsoft.Bot.Builder.Tests/TurnContextTests.cs:187-232 | the interceptors that run form a prefix of the chain, and the first one always runs and is handed the payload as sent |
| TurnContexts.CallsReachedBy | tests/Microsoft.Bot.Builder.Tests/TurnContextTests.cs:187-262 | interceptor k runs exactly when the interceptors before it all pass the payload on, and it is handed the payload as they left it |
| TurnContexts.SendCallsSeeBatch | tests/Microsoft.Bot.Builder.Tests/TurnContextTests.cs:187-262 | every send interceptor that runs sees the whole batch, with only the first activity's id possibly changed by an earlier interceptor |
| TurnContexts.SendDelivery | tests/Microsoft.Bot.Builder.Tests/TurnContextTests.cs:187-262 | a batch is delivered exactly when every send interceptor calls `next`; it then arrives whole, with the first activity's id set by the last mutating interceptor |
| TurnContexts.AllForwardCons | tests/Microsoft.Bot.Builder.Tests/TurnContextTests.cs:187-204 | every interceptor forwards exactly when the first does and every later one does |
| TurnContexts.UpdateDelivery | tests/Microsoft.Bot.Builder.Tests/TurnContextTests.cs:286-363 | an update is delivered exactly when every update interceptor calls `next`, carrying the id the last mutating interceptor set |
| TurnContexts.DeleteDelivery | tests/Microsoft.Bot.Builder.Tests/TurnContextTests.cs:383-456 | a delete is delivered exactly when every delete interceptor calls `next`, carrying the activity id the last mutating interceptor set |
| TurnContexts.RespondedRule | tests/Microsoft.Bot.Builder.Tests/TurnContextTests.cs:108-167 | `Responded` never goes back to false, is not set by traces alone, and is set by any delivered non-trace activity |
| TurnContexts.AddThenGet | tests/Microsoft.Bot.Builder.Tests/TurnContextTests.cs:47-88 | `Add(k, v)` then `Get(k)` returns `v`; another key still reads as before |
| TurnContexts.GetEdgeCases | tests/Microsoft.Bot.Builder.Tests/TurnContextTests.cs:57-78 | `Get(null)` throws the null-key error, and an unknown key gives null |
| TurnContexts.TypedAddThenGet | tests/Microsoft.Bot.Builder.Tests/TurnContextTests.cs:90-99 | the generic `Add`/`Get` keyed by the type name round-trip the value |
| TurnContexts.Adapter.SendActivities | tests/Microsoft.Bot.Builder.Tests/TurnContextTests.cs:120-185 | the adapter logs the batch and returns one response per activity carrying its id |
| TurnContexts.Adapter.UpdateActivity | tests/Microsoft.Bot.Builder.Tests/TurnContextTests.cs:264-284 | the adapter logs the update and answers with the activity's id |
| TurnContexts.Adapter.DeleteActivity | tests/Microsoft.Bot.Builder.Tests/TurnContextTests.cs:365-381 | the adapter logs the deleted reference |
| TurnContexts.TurnContext.constructor | tests/Microsoft.Bot.Builder.Tests/TurnContextTests.cs:33-45 | a new context holds its adapter and activity, has not responded, and has no services, interceptors or interceptor invocations |
| TurnContexts.TurnContext.Create | tests/Microsoft.Bot.Builder.Tests/TurnContextTests.cs:17-39 | a null adapter, then a null activity, is rejected with the matching null-argument error; otherwise a context is made |
| TurnContexts.TurnContext.OnSendActivities | tests/Microsoft.Bot.Builder.Tests/TurnContextTests.cs:187-204 | the interceptor is appended to the send chain |
| TurnContexts.TurnContext.OnUpdateActivity | tests/Microsoft.Bot.Builder.Tests/TurnContextTests.cs:286-311 | the interceptor is appended to the update chain |
| TurnContexts.TurnContext.OnDeleteActivity | tests/Microsoft.Bot.Builder.Tests/TurnContextTests.cs:383-402 | the interceptor is appended to the delete chain |
| TurnContexts.TurnContext.SendActivities | tests/Microsoft.Bot.Builder.Tests/TurnContextTests.cs:120-262 | a batch that passes the send interceptors reaches the adapter as they left it, sets `Responded` by the trace rule, and returns one response per activity in order; a short-circuit sends nothing and returns null; an interceptor's throw reaches the caller with nothing sent; the interceptors that ran, and what each was handed, are logged |
| TurnContexts.TurnContext.SendActivity | tests/Microsoft.Bot.Builder.Tests/TurnContextTests.cs:108-118 | a single send is a batch of one; it returns that activity's response, or null when intercepted; the interceptor invocations are logged |
| TurnContexts.TurnContext.UpdateActivity | tests/Microsoft.Bot.Builder.Tests/TurnContextTests.cs:264-363 | an update that passes the update interceptors reaches the adapter as they left it; a short-circuit or a throw leaves the adapter untouched; the interceptor invocations are logged |
| TurnContexts.TurnContext.DeleteReference | tests/Microsoft.Bot.Builder.Tests/TurnContextTests.cs:383-456 | a reference that passes the delete interceptors reaches the adapter as they left it; a short-circuit or a throw leaves the adapter untouched; the interceptor invocations are logged |
| TurnContexts.TurnContext.DeleteActivity | tests/Microsoft.Bot.Builder.Tests/TurnContextTests.cs:365-381 | `DeleteActivity(id)` deletes the inbound activity's conversation reference pointed at that id |
| TurnContexts.TurnContext.AddService | tests/Microsoft.Bot.Builder.Tests/TurnContextTests.cs:47-99 | services become `ServicesAdd` of the old services, or stay unchanged when it throws |
| TurnContexts.TurnContext.GetService | tests/Microsoft.Bot.Builder.Tests/TurnContextTests.cs:47-99 | the lookup computes `ServicesGet`; a value stored under the key with the requested type is returned |
| BotStates.ConstructorValidation | libraries/Microsoft.Bot.Builder/BotState.cs:12-42 | the constructor accepts exactly when storage, property name and key delegate are all given; a null storage is reported first; missing settings mean last-writer-wins |
| BotStates.LoadedStateIsState | libraries/Microsoft.Bot.Builder/BotState.cs:83-95 | a loaded state is always a TState, and a fresh default carries no eTag when storage has no TState under the key |
| BotStates.LastWriterWinsNeverConflicts | libraries/Microsoft.Bot.Builder/BotState.cs:112-123 | under last-writer-wins a save never conflicts against this store, and a store-item state leaves with eTag `"*"` |
| BotStates.StrictSavePassesETag | libraries/Microsoft.Bot.Builder/BotState.cs:112-123 | without last-writer-wins the state's eTag is sent unchanged; the save fails exactly when the store's conflict rule says so, the conflict propagates as it is, and the store is unchanged |
| BotStates.LoadAfterSave | libraries/Microsoft.Bot.Builder/BotState.cs:83-124 | loading after a successful save returns what was saved, with the store-assigned eTag for a store item |
| BotStates.StaleSecondSave | libraries/Microsoft.Bot.Builder/BotState.cs:102-124 | saving the same loaded state twice: the first save succeeds; the second succeeds under last-writer-wins and otherwise fails with a conflict naming the stale eTag and the new one |
| BotStates.WriteBackSavesLoadedState | libraries/Microsoft.Bot.Builder/BotState.cs:60-74 | what the write step saves is the state the read step put into the services under the same property name |
| BotStates.BotState.Create | libraries/Microsoft.Bot.Builder/BotState.cs:36-42 | construction fails with the first missing argument's null error, and otherwise keeps the arguments, with settings defaulted |
| BotStates.BotState.Read | libraries/Microsoft.Bot.Builder/BotState.cs:83-95 | reading returns the TState stored under the derived key, or a fresh default |
| BotStates.BotState.ReadToContextService | libraries/Microsoft.Bot.Builder/BotState.cs:60-68 | the loaded state is added to the services under the property name, or the services' error is returned |
| BotStates.BotState.Write | libraries/Microsoft.Bot.Builder/BotState.cs:102-124 | one change under the derived key is written, a null state replaced by a fresh one and a store item's eTag forced to `"*"` under last-writer-wins; the store ends as `SaveState` says |
| BotStates.BotState.WriteFromContextService | libraries/Microsoft.Bot.Builder/BotState.cs:70-74 | the state found under the property name is written, and the services then hold the caller's object as the write left it |
| Schema.Texts | tests/Microsoft.Bot.Builder.Core.Tests/BotAdapterBracketingTest.cs:24-27 | the texts of an activity log, one per activity, in order |
| Pipeline.Reverse | libraries/Microsoft.Bot.Builder/IMiddleware.cs:17-21 | reversal keeps the length and mirrors the indices (the after-texts come out in reverse registration order) |
| Pipeline.TextsAppend | tests/Microsoft.Bot.Builder.Core.Tests/BotAdapterBracketingTest.cs:24-27 | the texts of two logs appended are the two text lists appended |
| Pipeline.ForwardedTexts | tests/Microsoft.Bot.Builder.Core.Tests/BotAdapterBracketingTest.cs:77-79 | replies that pass the send interceptors keep their texts |
| Pipeline.ForwardedAllAppend | tests/Microsoft.Bot.Builder.Core.Tests/BotAdapterBracketingTest.cs:77-79 | sending two lists of replies delivers the concatenation of their deliveries |
| Pipeline.SentTexts | tests/Microsoft.Bot.Builder.Core.Tests/BotAdapterBracketingTest.cs:24-27 | the outbound texts after sends are the earlier texts followed by the sent ones |
| Pipeline.SentTwice | libraries/Microsoft.Bot.Builder/IMiddleware.cs:17-21 | two sends in a row leave the same world as one send of both lists |
| Pipeline.SentNothing | libraries/Microsoft.Bot.Builder/IMiddleware.cs:17-21 | sending nothing leaves the world as it was |
| Pipeline.SendForwarded | tests/Microsoft.Bot.Builder.Core.Tests/BotAdapterBracketingTest.cs:77 | a reply through forwarding interceptors always succeeds and appends itself to the outbound log |
| Pipeline.SendAllForwarded | tests/Microsoft.Bot.Builder.Transcripts.Tests/CoreTests.cs:27-38 | what the bot sends through forwarding interceptors reaches the log in order |
| Pipeline.SendOptionalForwarded | tests/Microsoft.Bot.Builder.Core.Tests/BotAdapterBracketingTest.cs:58-68 | an optional reply is sent when present and is nothing otherwise |
| Pipeline.BracketedCons | libraries/Microsoft.Bot.Builder/IMiddleware.cs:22-23 | the outermost handler's before-text comes first and its after-text last |
| Pipeline.BracketStep | libraries/Microsoft.Bot.Builder/IMiddleware.cs:25-40 | a before/after handler sends its before-text, then whatever the rest of the chain sends, then its after-text |
| Pipeline.Bracketing | libraries/Microsoft.Bot.Builder/IMiddleware.cs:17-40 | with before/after handlers and a non-throwing bot, the turn succeeds and sends the befores in registration order, then the bot's replies, then the afters in reverse order |
| Pipeline.BracketingTexts | libraries/Microsoft.Bot.Builder/IMiddleware.cs:17-40 | the same bracketing, stated on the outbound texts |
| Pipeline.UncaughtBotException | tests/Microsoft.Bot.Builder.Core.Tests/BotAdapterBracketingTest.cs:38-52 | with no catching handler, a bot exception reaches the caller unchanged; the befores and what the bot sent are delivered, and no after-text is |
| Pipeline.ShortCircuitHidesRest | libraries/Microsoft.Bot.Builder/IMiddleware.cs:51-54 | a handler that does not call `next` makes the later handlers and the bot irrelevant: the turn is the earlier handlers around a silent bot |
| Pipeline.ShortCircuitOutput | libraries/Microsoft.Bot.Builder/IMiddleware.cs:51-54 | a short-circuited turn succeeds and sends only the befores and afters of the handlers in front of it |
| Pipeline.RunKeepsHooks | libraries/Microsoft.Bot.Builder/IMiddleware.cs:60 | a turn leaves the inbound activity and the send interceptors as they were |
| Pipeline.SendsKeepHooks | libraries/Microsoft.Bot.Builder/IMiddleware.cs:60 | sends leave the inbound activity and the send interceptors as they were |
| Pipeline.CatchAroundSwallows | tests/Microsoft.Bot.Builder.Core.Tests/BotAdapterBracketingTest.cs:54-71 | a try/catch around `next` turns an inner exception into a `prefix + message` reply after everything the inner chain sent, then sends its after-text; the turn ends normally |
| Pipeline.CatchAroundBot | tests/Microsoft.Bot.Builder.Core.Tests/BotAdapterBracketingTest.cs:44-71 | a catching handler right around the bot sends its before-text, the bot's replies, the caught message if the bot threw, then its after-text |
| Pipeline.LoadSaveWritesLast | libraries/Microsoft.Bot.Builder/BotState.cs:53-58 | the state middleware writes only after the rest of the turn ends normally; when the rest throws, nothing is written and the exception passes up |
| Pipeline.LastWriterWinsTurn | libraries/Microsoft.Bot.Builder/BotState.cs:53-124 | a last-writer-wins state turn with a non-throwing bot succeeds and saves the loaded state under the turn's key; a throwing bot leaves the store as it was |
| Scenarios.ConstructorChecks | tests/Microsoft.Bot.Builder.Tests/TurnContextTests.cs:17-45 | null adapter and null activity are rejected; a fresh context has not responded |
| Scenarios.ServicesBehaviour | tests/Microsoft.Bot.Builder.Tests/TurnContextTests.cs:56-99 | `Get(null)` throws; empty and unknown keys give null; set-then-get and the generic variant return `"foo"` |
| Scenarios.SendAndSetResponded | tests/Microsoft.Bot.Builder.Tests/TurnContextTests.cs:108-118 | `Responded` goes from false to true, and the response carries the activity's id |
| Scenarios.SendBatch | tests/Microsoft.Bot.Builder.Tests/TurnContextTests.cs:120-136 | a batch of two returns exactly two responses, with the ids `message1` and `message2` in order, and sets `Responded` |
| Scenarios.TraceDoesNotSetResponded | tests/Microsoft.Bot.Builder.Tests/TurnContextTests.cs:150-167 | a trace leaves `Responded` false, and a later message sets it |
| Scenarios.SendOneActivity | tests/Microsoft.Bot.Builder.Tests/TurnContextTests.cs:169-185 | the adapter receives exactly the sent activity |
| Scenarios.CallOnSendBeforeDelivery | tests/Microsoft.Bot.Builder.Tests/TurnContextTests.cs:187-204 | a pass-through send interceptor runs once and is handed a batch of one activity, which is then delivered |
| Scenarios.AllowInterceptionOfDeliveryOnSend | tests/Microsoft.Bot.Builder.Tests/TurnContextTests.cs:206-232 | a send interceptor that does not call `next` runs once, is handed a batch of one, and keeps the adapter from being called |
| Scenarios.InterceptAndMutateOnSend | tests/Microsoft.Bot.Builder.Tests/TurnContextTests.cs:234-262 | the send interceptor is handed the activity with id 1234; the adapter receives exactly one activity, carrying the id the interceptor set |
| Scenarios.ThrowExceptionInOnSend | tests/Microsoft.Bot.Builder.Tests/TurnContextTests.cs:458-478 | the exception a send interceptor throws reaches the caller with its message `test` |
| Scenarios.UpdateOneActivityToAdapter | tests/Microsoft.Bot.Builder.Tests/TurnContextTests.cs:264-284 | the adapter receives the update, and the response carries its id |
| Scenarios.CallOnUpdateBeforeDelivery | tests/Microsoft.Bot.Builder.Tests/TurnContextTests.cs:286-311 | a pass-through update interceptor is called with the activity, and the update is delivered |
| Scenarios.InterceptOnUpdate | tests/Microsoft.Bot.Builder.Tests/TurnContextTests.cs:313-338 | an update interceptor that does not call `next` is called, and keeps the adapter from being called |
| Scenarios.InterceptAndMutateOnUpdate | tests/Microsoft.Bot.Builder.Tests/TurnContextTests.cs:340-363 | the adapter receives the id an update interceptor set |
| Scenarios.DeleteOneActivityToAdapter | tests/Microsoft.Bot.Builder.Tests/TurnContextTests.cs:365-381 | `DeleteActivity("12345")` delivers a reference with that id |
| Scenarios.DeleteConversationReferenceToAdapter | tests/Microsoft.Bot.Builder.Tests/TurnContextTests.cs:383-402 | deleting a reference delivers it with its id |
| Scenarios.InterceptOnDelete | tests/Microsoft.Bot.Builder.Tests/TurnContextTests.cs:404-430 | a delete interceptor that does not call `next` is called with the reference to 1234, and keeps the adapter from being called |
| Scenarios.InterceptAndMutateOnDelete | tests/Microsoft.Bot.Builder.Tests/TurnContextTests.cs:432-456 | the adapter receives the activity id a delete interceptor set |
| Scenarios.BracketingValidation | tests/Microsoft.Bot.Builder.Core.Tests/BotAdapterBracketingTest.cs:15-36 | the output is exactly BEFORE, ECHO:Hello, AFTER |
| Scenarios.CaughtBotException | tests/Microsoft.Bot.Builder.Core.Tests/BotAdapterBracketingTest.cs:38-71 | the output is exactly BEFORE, ECHO:Hello, CAUGHT:Test Exception, AFTER, and the turn ends normally |
| Scenarios.InnerCatch | tests/Microsoft.Bot.Builder.Transcripts.Tests/CoreTests.cs:53-66 | the inner catching handler sends the bot's replies, then `Caught: <message>` if the bot threw, and ends normally |
| Scenarios.TranscriptTurn | tests/Microsoft.Bot.Builder.Transcripts.Tests/CoreTests.cs:23-51 | every turn of the two-handler chain succeeds and outputs "before message", the bot's replies, any caught message, then "after message" |
| Scenarios.TranscriptUseMiddleware | tests/Microsoft.Bot.Builder.Transcripts.Tests/CoreTests.cs:31-33 | "use middleware" gives before message, using middleware, after message |
| Scenarios.TranscriptCatchException | tests/Microsoft.Bot.Builder.Transcripts.Tests/CoreTests.cs:34-36 | "catch exception" gives before message, generating exception, Caught: exception to catch, after message, and the turn ends normally |
| Scenarios.TranscriptNoMatch | tests/Microsoft.Bot.Builder.Transcripts.Tests/CoreTests.cs:28-38 | text matching no case gives only before message and after message |
| Scenarios.StaleWriteRejected | libraries/Microsoft.Bot.Builder/MemoryStorage.cs:85-94 | a new item is stamped "0"; written back with "0" it is stamped "1"; written again with "0" it is rejected naming "0" and "1", and the store keeps "1" |

## Left out

- `Storage.MemoryStorage.Write`: the counter is an unbounded `nat`. The 32-bit `int` `_eTag` in the source would wrap after 2^31 stamps, and that wrap-around is not modelled.
- JSON serialisation (`JObject.FromObject`, `ToObject`, `TypeNameHandling`) is not modelled. A payload is an abstract value with a type name, a kind, an opaque body and an optional eTag. Serialising a value that is not a JSON object, or serialising null, is modelled as the error it raises.
- Type tests (`OfType<TState>`, `Services.Get<T>`) compare the exact type name. The one exception is `System.Object`, which every value belongs to. Subclasses are not modelled.
- `is IStoreItem` is decided by a value's kind flag (`StoreItemObject`), not by its type name.
- The store's `lock` is not modelled: each call is atomic. `CancellationToken` is neither threaded through nor modelled. Task asynchrony is sequential.
- Framework exception messages (null argument, duplicate key, null reference) are representative text. Only the eTag-conflict message is the store's own.
- The implementations of `TurnContext`, `MiddlewareSet`, `TestAdapter`, `TestFlow`, `SimpleAdapter` and `TestMessage` are not part of this model. Their behaviour is modelled as the tests assert it:
  - `Services.Add` behaves like a dictionary add: a null key or value, or a repeated key, throws.
  - `Services.Get` throws on a null key, and gives null for a missing key or a wrong type.
  - The adapter logs each call and answers with the activity's id.
  - `TestMessage.Message()` is a message activity with the given id.
- The key delegate receives the turn context in the source. Here it is a function of the inbound activity, which is everything a key can depend on in this model.
- The chain model (`Pipeline.Run`) runs the send interceptors on every reply. Update and delete interceptors appear only in the `TurnContext` class, because no modelled handler updates or deletes.
- The bot's replies in the chain model depend on the inbound activity only, not on `Responded` or on the services.
- Null arguments to the store are not modelled. In the source, a null key in `Read` or `Delete` throws `ArgumentNullException`, and a null `keys` or `changes` array throws too. Keys are strings here and the arrays are sequences, so neither can be null.
- `MemoryStorage`'s constructor keeps a reference to the caller's dictionary, not a copy. Changes the caller later makes to that dictionary through its own reference are not modelled.
- `BotStates.NewState` always yields an object or a store item. A `TState` that serialises to something other than a JSON object (a JSON array, say) cannot be represented, so the serialisation failure that saving it would raise is not modelled for fresh state.
- Object aliasing is not modelled: under last-writer-wins, `BotState.Write` sets the eTag on the caller's very object. The model returns the changed object, and `WriteFromContextService` puts it back into the services.
- `ShowTypingMiddleware` (a timer loop run concurrently), the QnA client, the ASP.NET Core plumbing, the loggers and the XML helpers are outside this model.
- Two behaviours of the code are modelled as written:
  - `BotState.OnTurn` (BotState.cs:53-58) has no `finally`, so when the rest of the turn throws, the state is not saved.
  - A batch written to `MemoryStorage` stops at its first failing change, and every earlier change stays applied.
