# WACE core library: a verified model

WACE calls model plugins on the parts of an HTTP transaction, some of them locally, some asynchronously or
remotely through NATS, and hands their results to decision plugins that block the transaction or let it pass.
This project models the stateful components of that library in Dafny and proves what they promise.

| module | models |
|---|---|
| `AsyncRegistry` | the reference-counted registry of async channels: a concurrent map of objects with a lock, a tombstone and a retry loop; one step per map operation, lock, unlock and statement of a critical section |
| `Transaction` | the life of one transaction: the host, `callPlugins`, the local workers, the NATS result handlers and the async waiters interleave step by step; timeouts and losses may happen at any time |
| `Dispatch` | the counting pass and the dispatch pass of `callPlugins`, and the encode-once queue input |
| `Decision` | the decision loop of `CheckResult`, and `CheckTransaction` end to end |
| `Reconciler` | `Reload`: driving plugins, handlers and training collectors towards a configuration while any plugin operation may fail |
| `Utf8`, `Sanitizer`, `Payload` | masking credentials in texts and headers, on bytes |
| `Config` | checking and storing the configuration |
| `Collector` | `handleTraining`: a sample collector over two durable files that survives crashes and restarts |
| `Common` | shared datatypes |

The two concurrent protocols are labelled transition systems, because what is proved about them ranges over all
interleavings. The sequential code is written as methods and classes that change state where the original does, each
proved against a specification whose own laws are then proved as lemmas.

The main results:

- **Interleaving independence.** If no timeout fires, what a check shows the decision plugins is what running the
  sync model plugins one after the other gives, in every interleaving of every script of analyses and checks
  (`CheckIsSequential`). With timeouts it is never wrong (`CheckIsSound`), and it misses only calls that were cut
  short (`MissingMeansCut`). No sender ever blocks, the wait group is exact, and results are stored before they are
  announced. The snapshot is also given call by call, straight from the configuration and the plugins
  (`SnapshotIs`). A run takes boundedly many steps, is stuck only if an answer is lost, and every call reports.
- **Async registry.** For any programs the goroutines run, a live object is the one the table holds,
  `CompareAndDelete` never fails and no goroutine deadlocks. A channel is found by every lookup while its owner holds
  it, and every lookup is atomic: it answers what the registry held at one moment while it ran. Nothing is left behind,
  and an add retries at most once per deletion.
- **Reconciliation.** Over any sequence of configurations and failures every instance and every collector is
  accounted for exactly once, and a reload whose operations succeed gives the same state as a fresh load.
- **Sanitizer.** The one-pass scanner with look-behind equals split, mask and join. Two texts have the same output
  exactly when they differ only in credential values (`HidesExactlySecrets`): all of them are hidden, and nothing
  else. The law of repeated application and the exact condition for idempotence follow from the same form.
- **Collector.** Across any crashes and restarts the count, the label and the result file are exact. The status file
  lags by less than the update interval, and a terminal status is final under an exact condition. What one collector
  leaves is given in closed form (`CollectorLeaves`).

Three places where the code does less than its surroundings suggest, each with its exact condition:

- Sanitizing is not idempotent, because the mask is made of a terminator: `IdempotentIffClean`.
- A terminal training status is lost if the status file cannot be read once, unless the result file is full. The
  error is logged and the collection starts over: `TerminalIsFinalIff`.
- `checkConfig` accepts a negative status update interval, and `SetConfig` only replaces 0. The status file is
  then written only at the start, the minimum and the maximum, and the exact bound on its lag becomes
  max(min, max - min) samples: `LagWithNegativeInterval`, from the exact bound for any interval in `LagBelowIff`.

Assumptions of the transaction protocol: the host calls Init, then analyses and checks, then Close, one after the
other, with at most one analysis per plugin type; transaction ids are not reused; the configuration is fixed
while the transaction is open; a published request yields at most one result, which may be lost. Model and decision
plugins are functions of their input; whether a remote plugin fails to publish its results, and answers with an error
instead, is part of that function and does not count as a timeout. `strings.EqualFold`, the JSON encoding, publishing
on NATS and `os.Stat` are parameters.

## Model

| member | source | states |
|---|---|---|
| `AsyncRegistry.NextInv` | pluginmanager/pluginmanager.go:508-545 | every atomic step of any goroutine, in particular those between setting the tombstone and `CompareAndDelete`, keeps the registry invariant: locks, counts, tombstones and table agree |
| `AsyncRegistry.RunInv` | pluginmanager/pluginmanager.go:489-545 | the invariant holds after every interleaving of arbitrary programs of adds, removes and lookups |
| `AsyncRegistry.LiveObjectIsCurrent` | pluginmanager/pluginmanager.go:508-545 | an object that is not removed is the one the map holds for its id, so there is at most one per id |
| `AsyncRegistry.CompareAndDeleteSucceeds` | pluginmanager/pluginmanager.go:541-544 | a goroutine that has set the tombstone always finds its own object in the map: the delete never fails, and takes out exactly that entry |
| `AsyncRegistry.FreeObjectIsExact` | pluginmanager/pluginmanager.go:513-518 | while an object's lock is free its count is its number of channels, and it is removed iff the map does not lead to it |
| `AsyncRegistry.EmptyObjectIsAwaited` | pluginmanager/pluginmanager.go:510-517 | an unlocked live object with count 0 exists only while some add is between `LoadOrStore` and its critical section |
| `AsyncRegistry.QuiescentTableHasChannels` | pluginmanager/pluginmanager.go:527-545 | with no operation in progress every entry of the map has at least one channel |
| `AsyncRegistry.NeverStuck` | pluginmanager/pluginmanager.go:508-545 | no deadlock: while a goroutine has work left, some goroutine can take a step |
| `AsyncRegistry.NextKeepsRegistered` | pluginmanager/pluginmanager.go:508-545 | adds and removes of other types or transactions never move a registered channel from where lookups find it |
| `AsyncRegistry.LookupAnswersChannel` | pluginmanager/pluginmanager.go:446-473 | a lookup that runs while its slot is registered returns exactly that channel |
| `AsyncRegistry.LookupIsAtomic` | pluginmanager/pluginmanager.go:446-473 | although the object is loaded and its slot read in separate steps, and it may be removed and replaced in between, the answer of every lookup is what the registry held for its id and type at one moment while it ran |
| `AsyncRegistry.LookupOfUnwrittenFindsNothing` | pluginmanager/pluginmanager.go:468-473 | a lookup of a slot nobody has written answers nil, whatever other types have registered |
| `AsyncRegistry.LookupFindsOnlyAdded` | pluginmanager/pluginmanager.go:489-525 | a lookup answers a channel only if some goroutine's program adds exactly that channel for exactly that id and type |
| `AsyncRegistry.HeldChannelIsRegistered` | pluginmanager/pluginmanager.go:489-545 | between the return of an owner's add and its remove its slot is registered, in every interleaving |
| `AsyncRegistry.LookupWhileHeld` | pluginmanager/pluginmanager.go:446-473 | from the return of an add until its owner's remove, every lookup of that id and type returns that exact channel |
| `AsyncRegistry.AddStepsBounded` | pluginmanager/pluginmanager.go:508-524 | an add takes at most a constant number of steps plus four per object of its transaction deleted meanwhile, so it retries at most once per deletion |
| `AsyncRegistry.NoLeak` | pluginmanager/pluginmanager.go:527-545 | once every add of a transaction has been matched by its remove, the map has no entry for it |
| `Transaction.NextInv` | wacecore.go:62-324 | every step of the host, `callPlugins`, workers, handlers, waiters, timers and losses keeps the protocol invariant |
| `Transaction.ReachableInv` | wacecore.go:62-324 | the invariant holds in every reachable state |
| `Transaction.CheckIsSequential` | wacecore.go:279-304 | interleaving independence: if nothing was cut, the snapshot of a check equals the results of running the calls one after the other; async and training results are not in it |
| `Transaction.SequentialIs` | pluginmanager/pluginmanager.go:593-616 | those sequential results are exactly the pairs of a dispatched sync model and its successful result for its payload, no more and no less |
| `Transaction.SnapshotIs` | pluginmanager/pluginmanager.go:571-616 | the snapshot of an uncut check, written out: a model is mapped to v iff an earlier accepted Analyze calls it, it is neither async nor in training, and its own call succeeds with v, remotely if its request was sent, or locally if it is loaded with that type |
| `Transaction.StatusesAreTrue` | pluginmanager/pluginmanager.go:593-616 | a status that reaches the sync or async loop carries the result of its own call; an error means the call fails or its context ended |
| `Transaction.CallReports` | pluginmanager/pluginmanager.go:824-873 | every call that was started, is not in training and was not lost ends, within four steps of its own, with a status in the channel of its kind while somebody waits there |
| `Transaction.SilentWasPublished` | queue.go:29-42 | a sync call that never reports is a remote one whose request was published: local calls and requests that cannot be sent always report |
| `Transaction.ChecksAgree` | wacecore.go:279-304 | two interleavings without timeouts give the same snapshot |
| `Transaction.CheckWithoutTimers` | wacecore.go:134-143 | with a zero model timeout and no plugin timeouts every check of every interleaving is sequential |
| `Transaction.CheckIsSound` | wacecore.go:291-296 | whatever times out, a check shows no result the sequential execution does not have |
| `Transaction.MissingMeansCut` | wacecore.go:222-250 | a result missing from a check belongs to a call whose own context or whose wait expired |
| `Transaction.StoredBeforeNotified` | pluginmanager/pluginmanager.go:608-615 | a success in the sync channel, or received from it, is that of a result already stored for that model |
| `Transaction.WaitGroupIsExact` | wacecore.go:62-76 | the wait group equals the number of runs in flight, each of which finds the transaction in both maps; it is dropped only at zero |
| `Transaction.NoBlockedSender` | wacecore.go:83-168 | whoever is about to send a status finds room in the channel, even after a timeout or a close |
| `Transaction.StatusesAreAccounted` | wacecore.go:187-250 | for the sync and the async loop, statuses received plus timeouts recorded equal the calls that report there, each call at most once |
| `Transaction.LiveRunCanStep` | wacecore.go:221-253 | unless an answer of NATS to one of its sync calls was lost, `callPlugins` itself, its wait loop or one of its sync calls can take a step |
| `Transaction.NextMeasure` | wacecore.go:148-250 | every such step lowers a measure of the run, and no step of anyone raises it |
| `Transaction.RunStepsAreBounded` | wacecore.go:148-250 | in every interleaving a run with n calls takes at most 7n + 6 such steps, so it returns unless an answer is lost |
| `Dispatch.CountingPass` | wacecore.go:83-114 | the counters, made by a switch that never tests for remote, are the numbers of calls the dispatch pass makes report on each channel |
| `Dispatch.KeptIs` | wacecore.go:87-110 | filtering keeps exactly the configured models of the type, in order and with repetitions |
| `Dispatch.QueueInput.Encode` | queue.go:20-27 | returns the encoding of the payload, and encodes only the first time |
| `Dispatch.SendToQueue` | queue.go:29-42 | published iff the input can be encoded and published, and otherwise its failure is reported on its channel |
| `Dispatch.SanitizeCredentials` | sanitize.go:19-30 | field by field: the URI, the request body and the named headers of both directions are masked, and nothing else changes |
| `Dispatch.DispatchPass` | wacecore.go:83-168 | one action per kept model in order, given by that model's own settings and on the payload it must see; counters equal to the reporters; each payload encoded at most once |
| `Dispatch.SanitizedJobsAreBlind` | wacecore.go:129-157 | a model that asks for sanitized input gets the same call for two payloads iff they differ only in credentials |
| `Decision.CheckResult` | pluginmanager/pluginmanager.go:620-703 | the loop with its early returns gives the specified answer, and launches exactly the shadow checks of the plugins before the first error, or of all |
| `Decision.OnlyProductionDecides` | pluginmanager/pluginmanager.go:639-702 | a list of loaded plugins gives the answer of its production plugins alone |
| `Decision.ShadowsAre` | pluginmanager/pluginmanager.go:661-683 | the shadow checks of a list are those of its plugins in training that collect samples, in order |
| `Decision.ProductionIs` | pluginmanager/pluginmanager.go:686-700 | its production plugins are the others, in order |
| `Decision.FirstErrorDecides` | pluginmanager/pluginmanager.go:646-697 | block, decided and error of a failing check, for each kind of error: the first plugin that is not loaded, a second production plugin, or one that fails |
| `Decision.ShadowsDoNotInterfere` | pluginmanager/pluginmanager.go:661-684 | lists of loaded plugins that differ only in training plugins give the same block, decision and error |
| `Decision.ProductionWithout` | pluginmanager/pluginmanager.go:661-684 | deleting any training plugin from a list keeps its production plugins, in order |
| `Decision.SucceedsExactlyWhen` | pluginmanager/pluginmanager.go:642-702 | success iff all are loaded, at most one is in production and it does not fail; the answer is then its verdict, or not decided |
| `Decision.OrderDoesNotMatter` | pluginmanager/pluginmanager.go:642-702 | permuting the list changes neither whether the check succeeds nor its successful answer |
| `Decision.CheckTransactionIsDeterministic` | wacecore.go:279-304 | end to end, without timeouts and in every interleaving: a check succeeds iff its plugins are loaded and its at most one production plugin does not fail on the sequential results, and then it answers that plugin's verdict on them |
| `Decision.ChecksAnswerAlike` | wacecore.go:279-304 | two interleavings, asked with lists that differ in shadow plugins and in order, agree on success and on the successful answer |
| `Reconciler.PluginTable.StartHandlers` | pluginmanager/pluginmanager.go:762-776 | starts both handlers or none: the first is stopped again if the second fails |
| `Reconciler.PluginTable.StopHandlers` | pluginmanager/pluginmanager.go:780-794 | stops whichever handlers run, and leaves none |
| `Reconciler.PluginTable.LoadOne` | pluginmanager/pluginmanager.go:237-284 | loading a new id: entry and events for every failure; an instance whose handlers fail is cleaned and not kept; other ids unchanged |
| `Reconciler.PluginTable.UpdateOne` | pluginmanager/pluginmanager.go:285-319 | reloading a loaded id: entry and events for every failure; a plugin that refuses to reload leaves the entry as it was; other ids unchanged |
| `Reconciler.PluginTable.UnloadOne` | pluginmanager/pluginmanager.go:322-339 | unloading an id: collector cancelled, handlers stopped, then cleaned; other ids unchanged |
| `Reconciler.PluginTable.VisitAll` | pluginmanager/pluginmanager.go:227-341 | every id, loaded or configured, is visited exactly once, whatever the order of the maps |
| `Reconciler.PluginTable.LoadPlugins` | pluginmanager/pluginmanager.go:227-341 | after any sequence of calls the table is what that history makes of it and every life cycle holds; every entry is reconciled field by field (type, instance, handlers, collector) for every combination of failures; if all operations succeed the loaded ids are the configured ones |
| `Reconciler.PluginManager.Reload` | pluginmanager/pluginmanager.go:184-198 | the same for both tables, each with its own configuration and history; a decision plugin has a collector iff it is in training, and never handlers |
| `Reconciler.VisitOk` | pluginmanager/pluginmanager.go:227-341 | every visit, whatever fails, keeps the life cycle of events and the pairing of handlers |
| `Reconciler.VisitReconciles` | pluginmanager/pluginmanager.go:234-341 | what one visit makes of the fields of an entry, for every combination of failures |
| `Reconciler.LifecycleHolds` | pluginmanager/pluginmanager.go:227-341 | over any sequence of configurations and failures: use only between open and clean, handlers paired on a live instance, at most one collector, clean only after both are stopped |
| `Reconciler.CleanIsLast` | pluginmanager/pluginmanager.go:322-339 | when an instance is cleaned its handlers are stopped and its collector cancelled; it is never used, reloaded or cleaned again |
| `Reconciler.InstancesAreCleanedOnce` | pluginmanager/pluginmanager.go:265-283 | in any log that respects the life cycle an instance is cleaned exactly once, when it stops being live |
| `Reconciler.CollectorsAreCancelledOnce` | pluginmanager/pluginmanager.go:305-312 | the same for collectors |
| `Reconciler.EveryInstanceIsAccounted` | pluginmanager/pluginmanager.go:227-341 | conservation over all runs: every opened instance is the loaded one or has been cleaned exactly once |
| `Reconciler.EveryCollectorIsAccounted` | pluginmanager/pluginmanager.go:278-312 | conservation over all runs: every started collector is the current one or has been cancelled exactly once |
| `Reconciler.HandlersComeInPairs` | pluginmanager/pluginmanager.go:760-794 | over all runs both handlers of an entry run or neither does, and none is left running without an entry |
| `Reconciler.LastReloadDecides` | pluginmanager/pluginmanager.go:227-341 | path independence: after any history, a reload whose operations on an id succeed gives it the configured type, handlers and collector, as a fresh load would |
| `Reconciler.RepeatedReloadIsQuiet` | pluginmanager/pluginmanager.go:285-319 | repeating a successful reload starts and stops nothing |
| `Utf8.LastRune` | sanitize.go:80 | decoding the last rune: its size and range, 0 for the empty string and 1 for an invalid ending |
| `Utf8.LastRuneOfEncoding` | sanitize.go:80 | round trip: after any bytes, decoding the encoding of a rune (section 3 of RFC 3629) answers that rune and the length of its encoding |
| `Utf8.LastRuneAfterAscii` | sanitize.go:79-85 | what precedes an ASCII byte never changes the runes decoded after it |
| `Utf8.LastRuneFolds` | sanitize.go:80-84 | the last rune is a given member of an ASCII folding orbit iff the text ends with its encoding |
| `Utf8.FoldEq` | sanitize.go:91-104 | in closed form, for every ASCII character that is not a capital: true iff the rune is that character, its capital, or the third member of the orbits of k and s |
| `Sanitizer.HasFoldSuffixScan` | sanitize.go:78-87 | the backward loop decides the folded suffix match |
| `Sanitizer.FoldSuffixIsSpelling` | sanitize.go:76-87 | such a match exists iff some suffix of the bytes spells the name in encodings of case-folded characters |
| `Sanitizer.IsCredentialField` | sanitize.go:66-74 | true iff the text ends with a credential name |
| `Sanitizer.CredentialIffSpelled` | sanitize.go:14-17 | a text ends with a credential name iff some suffix of its bytes spells password, pass, pass2 or clave |
| `Sanitizer.CaseIsIgnored` | sanitize.go:14-17 | a name in any mixture of lower and upper case matches, after any bytes |
| `Sanitizer.FoldSuffixIsLocal` | sanitize.go:78-87 | a match never reaches across a byte that no name contains |
| `Sanitizer.CredentialIsLocal` | sanitize.go:44 | although the look-behind reads the whole prefix, it depends only on what follows the last terminator or `=` |
| `Sanitizer.SanitizeFields` | sanitize.go:34-64 | the scanner returns the text split at the terminators, each piece masked after its first credential `=`, joined again |
| `Sanitizer.ScanIsMasked` | sanitize.go:37-58 | scanning from any start of a piece, with look-behind at everything before it, is masking the rest on its own |
| `Sanitizer.SanitizedDistributes` | sanitize.go:34-64 | sanitizing distributes over concatenation at any terminator |
| `Sanitizer.MaskedDistributes` | sanitize.go:34-64 | the same for masks of every length |
| `Sanitizer.SecretIndependence` | sanitize.go:32-64 | two runs whose credential values differ give identical output, even inside an already masked value |
| `Sanitizer.HidesExactlySecrets` | sanitize.go:32-64 | two texts give the same output iff, piece by piece, they are equal or equal up to their first credential `=`: all the values are hidden, and nothing else |
| `Sanitizer.OneSecret` | sanitize.go:32-64 | changing the value of one field, wherever it stands, is an instance of that relation |
| `Sanitizer.OutputLaw` | sanitize.go:50-57 | every credential `=` of the output is directly followed by the mask |
| `Sanitizer.CredentialIsMasked` | sanitize.go:32-64 | written out: after a text without a credential `=`, a field whose name is given in any case keeps its name, its value up to the next `*`, `&` or newline becomes eight stars, and the rest is sanitized on its own |
| `Sanitizer.UpperCaseIsMasked` | sanitize_test.go:187-189 | the documented example of an upper-case name |
| `Sanitizer.Remask` | sanitize.go:34-64 | sanitizing a sanitized text only lengthens the masks |
| `Sanitizer.RepeatedSanitizing` | sanitize.go:12-64 | n applications equal one application with masks of 8n stars |
| `Sanitizer.IdempotentIffClean` | sanitize.go:34-64 | the text is unchanged, and the sanitizer idempotent on it, iff it has no credential `=` |
| `Sanitizer.NotIdempotent` | sanitize.go:34-64 | a text on which it is not |
| `Payload.SanitizeHeaders` | sanitize.go:106-123 | the value of each header with an equal-folded name becomes eight stars, every key and other value stays; the input array never changes, and is returned itself iff no header is named |
| `Payload.CredentialsLeaveNoTrace` | sanitize.go:19-30 | two payloads are sanitized to the same payload iff they differ only in credentials, any number of them |
| `Config.CheckConfig` | configstore/configstore.go:210-267 | accepts exactly the files that meet the bounds and exclude training with async or remote |
| `Config.RejectedIff` | configstore/configstore.go:211-264 | the reasons to reject a file, one by one |
| `Config.ConfigStore.SetConfig` | configstore/configstore.go:270-337 | replaces the configuration iff the whole file is accepted, and otherwise leaves it as it was |
| `Config.LastEntryWins` | configstore/configstore.go:277-298 | an id is stored iff the file has it, with the values of its last entry |
| `Config.StoredAsWritten` | configstore/configstore.go:277-332 | setting by setting: every stored model and decision plugin has those of the last line with its id, types are numbered as defined, a missing interval is a tenth of the maximum but at least 1, and missing headers and timeouts get their defaults |
| `Config.IntervalKeepsBounds` | configstore/configstore.go:289-291 | the default interval keeps the accepted bounds, and the stored interval is positive iff the given one is not negative |
| `Config.StoredModelsAreSafe` | configstore/configstore.go:219-298 | every stored model has a valid type, excludes training with async or remote, has NATS if it needs it, and has the bounds its collector relies on |
| `Config.StoredDecisionsAreSafe` | configstore/configstore.go:249-317 | every stored decision plugin in training has those bounds; its values are those of its last entry |
| `Config.TypeInRange` | configstore/configstore.go:57-75 | a type found for a name is a valid one and is that name's |
| `Collector.Files.HandleTraining` | pluginmanager/training_plugin.go:155-262 | for all inputs and failures, leaves on disk exactly what the transition system leaves when the same inputs drive it |
| `Collector.Files.WriteStatus` | pluginmanager/training_plugin.go:138-153 | wherever the two file operations stop, the status file is the one it was or the new one, whole; only the temporary file is ever torn |
| `Collector.RunStops` | pluginmanager/training_plugin.go:155-262 | those inputs drive a crash-free run of the system that ends with the collector stopped |
| `Collector.NextInv` | pluginmanager/training_plugin.go:155-262 | every step, crashes and failures among them, keeps the count, the label and the finished status exact |
| `Collector.CollectionIsExact` | pluginmanager/training_plugin.go:175-262 | over any crashes, restarts and failures: the file never grows past its initial length or the maximum, finished on disk implies at least the maximum, and the collector's count and label are exact |
| `Collector.FileIsConserved` | pluginmanager/training_plugin.go:229-243 | over any run the result file is what it was followed by every appended sample, in order, once each |
| `Collector.CompletesWhenFed` | pluginmanager/training_plugin.go:155-262 | without failures, a collector that gets enough samples appends exactly the missing ones and leaves the finished status |
| `Collector.CollectorLeaves` | pluginmanager/training_plugin.go:155-262 | what `handleTraining` leaves, in closed form: which samples are appended and which status is written, for a refusal to start, a full file, a failed sample, a cancellation and a completion |
| `Collector.TerminalIsAbsorbing` | pluginmanager/training_plugin.go:169-180 | while the status file can be read, nothing changes on disk once the status is terminal |
| `Collector.TerminalMeansStopped` | pluginmanager/training_plugin.go:169-262 | a terminal status is on disk only when nothing is being collected |
| `Collector.FullIsAbsorbing` | pluginmanager/training_plugin.go:203-227 | with a full result file a terminal status survives even an unreadable status file |
| `Collector.UnreadableIsOverwritten` | pluginmanager/training_plugin.go:171-174 | one failed read of the status file makes the next collector overwrite it, whatever it was |
| `Collector.TerminalIsFinalIff` | pluginmanager/training_plugin.go:169-227 | a terminal status is final iff the status file stays readable or the result file is full |
| `Collector.StatusIsFresh` | pluginmanager/training_plugin.go:220-254 | with a positive interval and successful writes, at the loop head the label on disk is exact and the count lags by less than the interval |
| `Collector.LagBelowIff` | pluginmanager/training_plugin.go:220-254 | for any interval: over all runs with successful writes the lag stays below b iff every stretch of samples without one that is due is shorter than b |
| `Collector.IntervalBoundsLag` | pluginmanager/training_plugin.go:220-254 | a positive interval is such a bound |
| `Collector.LagWithNegativeInterval` | configstore/configstore.go:242-245 | with a negative interval, which is accepted, the bounds are exactly those from max(min, max - min) samples on |
| `Collector.StaleLessThanInterval` | pluginmanager/training_plugin.go:250 | a stretch of samples none of which is due is shorter than the interval |
| `Collector.LabelIsCurrent` | pluginmanager/training_plugin.go:244-250 | the label never changes between two samples that are due |
| `Collector.StatusLagsWithoutInterval` | pluginmanager/training_plugin.go:250 | with a negative interval, what the status says of a fresh collection of any length: it was last written at the minimum, or at the start |
| `Collector.StatusWithInterval` | pluginmanager/training_plugin.go:220-254 | the status after a restart and any number of recorded samples: its count is the last multiple of the interval, the minimum if reached, or the count at the restart, whichever is larger, and its label is exact |
| `Collector.StoredModelCollectsSafely` | configstore/configstore.go:242-291 | an accepted configuration is enough for exact collection and, with a positive interval, for a fresh status |

## Left out

- NATS itself, JSON encoding and `plugin.Open`: a plugin operation is one success or failure, a published request yields at most one result. Duplicate deliveries are excluded.
- Reuse of a transaction id and a second `Analyze` of one type in one transaction: the code only mitigates them.
- A change of the configuration while a transaction is open, and the lookups of the configuration that fail because none was ever set, except in `CheckResult`; `Reload` is modelled with a configuration in place.
- Memory-level concurrency of the two protocols: goroutines, mutexes and channels are states and steps of values, so data races inside one step and aliasing are not modelled.
- Logging, metrics, error texts, timestamps and durations: observers only. Timers fire nondeterministically.
- The meter and logger that `Reload` hands to plugins, and `registerMetrics`.
- A change of a plugin's path, or of the training data of a plugin already collecting: `Reload` does not apply it.
- The overlap of a cancelled collector with its replacement, partial appends and the 64 KB line limit of the result file: one collector per file, atomic appends.
- `ProcessTraining` and the hand-over of samples through the training channel: a collector receives a sequence of samples and is then cancelled.
- `loadDecisionPlugins` is modelled as the model loader on a table whose plugins never use NATS, which is what its code is.
- Enum and string conversions, accessors, model weights and parameters: copied, never computed with.
- Reconciler.LastReloadDecides: says nothing about ids whose operations fail in the last reload; `PluginTable.UpdateOne` and `PluginTable.LoadOne` say what those leave.
