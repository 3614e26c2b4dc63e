# Pod identity webhook: model and proofs

The webhook decides, for every pod that is created, which AWS credentials its containers get, and
answers with a JSON Patch. This project models its decision logic and proves what it is relied on for.

| file | what it models |
|---|---|
| `Common.dfy` | token-lifetime constants and clamp, `strings.Split` and its inverse |
| `Registry.dfy` | the service-account cache and its notifications as atomic operations, with the invariant of every run |
| `LockProtocol.dfy`, `LockTheorems.dfy` | the same operations as goroutines take them: reader/writer lock with writer preference, notifications mutex, bounded fetch channel, consumer, fetches, waiting handlers; refinement to the atomic operations, wake-ups, deadlock freedom, termination |
| `ConfigMapSync.dfy` | the entry-by-entry ConfigMap diff against rebuilding the map |
| `Interleavings.dfy` | the diff, the resync, the writes and the fetches under every interleaving of the lock-level machine |
| `LockAnswers.dfy` | what a `Get` and a woken handler answer as goroutines among others |
| `RoleArn.dfy` | role ARN composition and the pattern it is checked against |
| `ServiceAccountCache.dfy` | the cache and notification objects with their mutating methods, proved against the atomic operations and the diff |
| `Json.dfy`, `PodModel.dfy` | JSON, JSON Pointer (RFC 6901), the `add` operation (section 4.1 of RFC 6902), decoding and encoding of the pod |
| `Injection.dfy` | what a mutation means, without patches or loops |
| `PatchMeaning.dfy` | the emitted patch, applied to the document it was computed from, is that injection |
| `PatchReadings.dfy` | what the webhook reads out of a document, and what a reader finds in the patched one |
| `Slices.dfy`, `PodPatch.dfy` | the loops of the handler over Go slices that share backing arrays with the decoded pod |
| `PatchConfig.dfy` | which source decides for a pod, and for how long its token lasts |
| `EndToEnd.dfy` | from an account's annotations and the decision to the containers and the token in the patched document |
| `FileConfig.dfy`, `FileReload.dfy` | the container-credentials identity list, and the event/queue/worker loop that reloads it |

The layers fit together as follows. The class methods compute the atomic operations of `Registry`
exactly, and `LockTheorems.RunRefinesAtomic` shows that every interleaving of goroutines is a run of
those operations. What is proved of atomic runs is carried over to interleavings in `LockTheorems` for
wake-ups and in `Interleavings` for ConfigMap updates and resyncs, where other operations run between
the entries. On the patch side, `PodPatch.GetPodSpecPatch` emits the patch of `PatchMeaning`,
`PatchMeaning.PatchedDocumentDecodes` shows that applying it to the document is injecting into the pod,
and the laws of `Injection` are about that injection.

## Main results

- Over every interleaving: the lock-level machine refines the atomic operations
  (`LockTheorems.RunRefinesAtomic`), loses no wake-up (`LockTheorems.NoLostWakeup`), closes each channel
  once and fetches once per registration (`LockTheorems.CloseOnceAndFetchConservation`), wakes getters
  only to an answer (`LockTheorems.WokenGetterReturnsFound`), answers what the atomic operation answers
  (`LockAnswers.LockedGet`, `LockAnswers.WokenHandlerAnswers`), loses no write and no fetched account
  (`Interleavings.WritesAreConserved`, `Interleavings.DeliveredAccountArrives`), never deadlocks
  (`LockTheorems.SomeStepEnabled`) and always finishes (`LockTheorems.MaximalRunsFinish`).
- Over every interleaving and chain of events: the ConfigMap cache is the latest parseable config
  exactly when no key was left behind (`Interleavings.LockedSync`), at every moment of an update each key
  is between its old and new entry (`Interleavings.LockedMidUpdate`), and a resync heals the account
  cache (`Interleavings.LockedResyncHeals`).
- For every document: the emitted patch applies exactly when it can and is the injection
  (`PatchMeaning.PatchAppliesAsInjection`, `PatchMeaning.PatchedDocumentDecodes`), touches nothing else
  (`PatchMeaning.PatchTouchesNothingElse`), and is idempotent (`PatchMeaning.PatchingTwice`); the
  injection keeps pods well formed (`Injection.InjectionKeepsWellFormed`) and never overrides a
  variable, mount or volume (`Injection.NonInterference`, `Injection.PodNonInterference`). A reader of
  the patched document finds the configured token and the injected containers
  (`PatchReadings.PatchedToken`, `PatchReadings.PatchedContainers`).
- For every pod, cache and outcome of waiting: which source decides
  (`PatchConfig.DecisionFollowsSources`, `PatchConfig.SourcePrecedence`), what a notification leads to
  (`PatchConfig.NotifiedDecision`), every field of the configuration (`PatchConfig.ConfigurationFields`),
  what becomes of each container (`EndToEnd.DecidedPod`, `EndToEnd.DecidedDocument`), and exactly which
  tokens are too short (`PatchConfig.TokenLifetime`, `EndToEnd.ShortTokensInDocuments`).
- Over every run of the reload loop: exactly when it is up to date (`FileReload.AlwaysUpToDateIff`,
  `FileReload.EndsUpToDateIff`), and that it converges (`FileReload.Converges`).

## Results that hold only under a condition

- A chain of ConfigMap events does not always end at the latest config: a key is never dropped if the
  event after its last config did not parse, or was an Add after a deletion
  (`ConfigMapSync.StrandedEntryStays`, `ConfigMapSync.DeletedEntryStays`).
  `ConfigMapSync.SyncRefinesRebuild` gives the exact condition.
- A config key with more than one slash is stored under its first two parts, its target. Adding such a
  config does not yield the config (`ConfigMapSync.AddIsExactIffWellFormed`), and dropping such a key can
  delete an entry of the new config (`ConfigMapSync.SharedTargetLosesEntry`).
  `ConfigMapSync.UpdateKeepsIff` says for every update which entries are kept: those that are not the
  target of a dropped key.
- A change of the identity file after the first read and before the directory watch is lost if the
  content differs (`FileReload.BlindChangeIsMissed`), until the next event for the path
  (`FileReload.NextEventHeals`). `FileReload.AlwaysUpToDateIff` and `FileReload.EndsUpToDateIff` are the
  exact conditions over runs.
- ConfigMap expirations are not clamped, so a token can last less than 600 seconds
  (`PatchConfig.ShortTokenFromConfigMap`). `PatchConfig.ShortTokensIff` and, of the token in the patched
  document, `EndToEnd.ShortTokensInDocuments` say when, over every run: the pod has no valid annotation
  and the entry that decides is a ConfigMap entry below 600.
- A fetch that failed or came too late is not repeated while its key stays registered, however many pods
  ask for it (`Registry.NoSecondFetch`, `LockTheorems.NoSecondFetchLocked`): only an event of the informer
  releases them.
- The patch fails to apply when the document has no `spec` object, or no `metadata` object in
  container-credentials mode (`PatchMeaning.PatchAppliesAsInjection`).
- In container-credentials mode the `changed` flag is always true, also for a pod that already has
  everything; in web-identity mode it is exact (`PodPatch.GetPodSpecPatch`,
  `PatchMeaning.FlagIsExactOnDocuments`). The label operation replaces a value the user gave that label
  (`Injection.PodNonInterference`).

## Where code and documentation differ

The model follows the code. Line 215 of the repository's own `README.md` shows a `test-*/name` key; the code looks up only the exact
namespace and the whole-namespace `*` (`pkg/cache/cache.go:139-142`), so such a key is an ordinary key.
`pkg/constants.go:20` speaks of 22 hours for a default that is 86400 seconds.
`pkg/filesystem/file_watcher.go:48-49` speaks of a wait of at most 10 seconds; the model lets a retry
come due at any time.

## Model

| member | source | states |
|---|---|---|
| `Common.ValidateMinTokenExpiration` | pkg/validation.go:68-73 | the least value that is at least 600 and at least the argument |
| `Common.JoinSplit` | pkg/cache/cache.go:414 | joining the parts of a split key with slashes gives the key back, for every text |
| `Common.SplitJoin` | pkg/cache/cache.go:414 | splitting undoes joining if and only if no part contains the separator |
| `Registry.CreateKeepsChannels` | pkg/cache/notifications.go:22-34 | creating a notifier keeps one open channel per registered key, one fetch request per registration, and returns the registered channel |
| `Registry.BroadcastKeepsChannels` | pkg/cache/notifications.go:36-44 | broadcasting closes no channel twice and keeps the account of channels and fetch requests |
| `Registry.BroadcastClosesAll` | pkg/cache/notifications.go:36-44 | after a broadcast of a key every channel ever made for it is closed |
| `Registry.ApplyKeepsInv` | pkg/cache/cache.go:168-201 | every cache operation keeps: no registered key is cached, every channel is closed once or registered under its key, fetches sent = closed + registered |
| `Registry.ReachableInv` | pkg/cache/cache.go:168-201 | that invariant holds after every sequence of operations from the empty cache |
| `Registry.InsertReleasesEveryWaiter` | pkg/cache/cache.go:261-270 | inserting a key closes every channel handed out for it |
| `Registry.NotFoundCarriesNotifier` | pkg/cache/cache.go:119-177 | a not-found answer to a notifying request carries the open channel registered under the request's key |
| `Registry.Precedence` | pkg/cache/cache.go:119-154 | the response repeats the annotated account with a role, else the exact ConfigMap key, else the `*` key; found iff any of the three exists; a notifier iff asked for and the account is not cached |
| `Registry.CommonAgreesWithGet` | pkg/cache/cache.go:156-166 | the common settings are those of a cached account even without a role, the defaults if neither account nor exact key is known, and otherwise those of `Get` |
| `Registry.ClosedByInsertion` | pkg/cache/cache.go:261-270 | a closed channel was closed by the insertion of the key it was made for, at a definite point of the run |
| `Registry.WakeImpliesFound` | pkg/handler/handler.go:464-486 | a getter whose channel closed finds its key, unless it was removed or the cache cleared after that insertion |
| `Registry.ClosedLater` | pkg/handler/handler.go:464-486 | a channel open when `Get` returned it and closed later was closed by an insertion in between, and the key is cached unless removed after that |
| `Registry.NoSecondFetch` | pkg/cache/notifications.go:22-34 | over every run in which a registered key is not inserted, no further fetch request for it is sent and its channel stays the same |
| `LockProtocol.StepRefines` | pkg/cache/cache.go:168-201 | every step of every goroutine is invisible or exactly one atomic operation |
| `LockProtocol.StepReturnsAtomicResult` | pkg/cache/cache.go:168-177 | what `getSA` returns is what the atomic operation returns at its linearisation point |
| `LockProtocol.StepKeepsInv` | pkg/cache/cache.go:168-201 | every step keeps lock ownership, queue contents, what each goroutine knows, and the channel account |
| `LockProtocol.AbsInv` | pkg/cache/notifications.go:22-44 | in every state of the machine the atomic invariant holds of the state it stands for |
| `LockTheorems.RunKeepsInv` | pkg/cache/cache.go:168-201 | the machine invariant holds along every interleaving |
| `LockTheorems.RunRefinesAtomic` | pkg/cache/cache.go:119-277 | every interleaving ends in the state its atomic operations, applied in order, lead to |
| `LockTheorems.NoLostWakeup` | pkg/cache/cache.go:261-270 | in every reachable state a key is registered and cached at once only while its inserter is about to broadcast; every notifier held by a getter is closed or registered under its key; no getter waits without a notifier |
| `LockTheorems.CloseOnceAndFetchConservation` | pkg/cache/notifications.go:22-44 | in every reachable state no channel was closed twice, keys share no channel, and per key the requests sent (with one about to be sent) equal the closed channels plus one if registered |
| `LockTheorems.NoSecondFetchLocked` | pkg/cache/notifications.go:22-34 | the same over every interleaving, counting a request about to be sent |
| `LockTheorems.RequestsReachConsumer` | pkg/cache/cache.go:298-318 | the fetch channel never exceeds 1000, and every request sent is taken once and in order |
| `LockTheorems.WokenGetterFinds` | pkg/cache/cache.go:168-177 | at lock level, a getter reading its key after a channel for it closed sees the entry unless a removal followed the insertion |
| `LockTheorems.WokenGetterReturnsFound` | pkg/handler/handler.go:472-480 | however the interleaving goes on, that getter never waits again and returns a response that says found |
| `LockTheorems.SomeStepEnabled` | pkg/cache/cache.go:298-331 | deadlock freedom: every reachable state has an enabled step other than a timeout unless only waiting handlers are left |
| `LockTheorems.StuckWaitersAreAbsent` | pkg/handler/handler.go:470-486 | when only timeouts are possible, a waiting handler's account is not cached and its channel is the registered one |
| `LockTheorems.StepUsesWork` | pkg/cache/cache.go:168-201 | every step of a started goroutine lowers a bound on the work left |
| `LockTheorems.RunsAreBounded` | pkg/cache/cache.go:168-201 | a run without new operations is no longer than the work at its start |
| `LockTheorems.MaximalRunsFinish` | pkg/cache/cache.go:168-331 | a run that cannot go on ends with every operation returned and the fetch channel empty |
| `LockAnswers.ConfigMapAnswers` | pkg/cache/cache.go:138-153 | over every interleaving without a ConfigMap write, a getter past its account lookup answers with the exact key, else the `*` key, and waits only if nothing was found and it asked to |
| `LockAnswers.LockedGet` | pkg/cache/cache.go:119-154 | over every interleaving without a write between start and return, a `Get` answers as the atomic one in the state it started in, up to the number of the channel, and waits iff that is not found and a notifier was asked for |
| `LockAnswers.WokenHandlerAnswers` | pkg/handler/handler.go:472-480 | a woken handler looks up again without asking for a notifier and answers as the atomic `Get` in the state it was woken in |
| `ConfigMapSync.TargetIsKey` | pkg/cache/cache.go:413-419 | an entry is stored under its own key if and only if the key has exactly one slash |
| `ConfigMapSync.CacheKeySplits` | pkg/cache/cache.go:182 | the key built from slash-free namespace and name splits back into them |
| `ConfigMapSync.CmProjection` | pkg/cache/cache.go:413-433 | over any run without a clear the ConfigMap cache depends on the ConfigMap writes alone |
| `ConfigMapSync.ApplySets` | pkg/cache/cache.go:413-419 | after any part of the insertions the map is the old one overridden by the filled entries so far |
| `ConfigMapSync.ApplyPops` | pkg/cache/cache.go:428-433 | after any part of the deletions of well-formed keys exactly these keys are gone |
| `ConfigMapSync.PopsDropTargets` | pkg/cache/cache.go:428-433 | after any part of the deletions, whatever the keys, exactly their targets are gone |
| `ConfigMapSync.SetsFillTargets` | pkg/cache/cache.go:413-419 | after any part of the insertions, whatever the keys, exactly their targets hold an entry of a key with that target, the rest is as before |
| `ConfigMapSync.ScriptSyncs` | pkg/cache/cache.go:403-436 | what a complete update does to each key, whatever the keys and the iteration orders |
| `ConfigMapSync.UpdateKeepsIff` | pkg/cache/cache.go:413-433 | an update keeps an entry of a well-formed new config iff no dropped key has that entry's key as its target |
| `ConfigMapSync.PrefixEffect` | pkg/cache/cache.go:403-436 | the map at any point of an update, in closed form |
| `ConfigMapSync.ScriptIsSyncStep` | pkg/cache/cache.go:403-436 | a complete update has the same effect whatever the iteration orders |
| `ConfigMapSync.EventIsSyncStep` | pkg/cache/cache.go:361-377 | the same for Add events and for updates whose old object does not parse |
| `ConfigMapSync.MidUpdate` | pkg/cache/cache.go:403-436 | at any point of a run that has begun an update, with other operations in between, every key has its former or its new entry and none is missing but those the update drops |
| `ConfigMapSync.AddIsExactIffWellFormed` | pkg/cache/cache.go:413-419 | adding a config to an empty cache yields the config if and only if every key has one slash |
| `ConfigMapSync.SharedTargetLosesEntry` | pkg/cache/cache.go:413-433 | replacing key `a/b/c` by `a/b` loses `a/b`, for all such keys |
| `ConfigMapSync.ChainIsLatestPlusStranded` | pkg/cache/cache.go:361-377 | after any chain of Add and Update events the cache is the latest parseable config plus exactly the stranded entries |
| `ConfigMapSync.StrandedIsLeftBehind` | pkg/cache/cache.go:361-377 | a key is stranded iff the event after its last config did not parse or was an Add, and a later config parsed |
| `ConfigMapSync.SyncRefinesRebuild` | pkg/cache/cache.go:403-436 | the diff equals a rebuild from the latest parseable config iff no key was left behind, so always for one Add and parseable Updates; on the latest config's keys it always agrees |
| `ConfigMapSync.StrandedEntryStays` | pkg/cache/cache.go:421-427 | for every key, one unparseable config in between keeps a dropped account mapped |
| `ConfigMapSync.DeletedEntryStays` | pkg/cache/cache.go:361-377 | for every key, deleting the ConfigMap and adding it without the key keeps the account mapped |
| `ConfigMapSync.RunSyncs` | pkg/cache/cache.go:361-377 | over every run whose ConfigMap writes are those of a chain of events, whatever happens in between, the cache is what the chain says |
| `ConfigMapSync.RedeliveryRestores` | pkg/cache/cache.go:370-375 | after a clear in any state, a run that redelivers a config as old and new, with other operations in between, restores it |
| `Interleavings.SequentialEffects` | pkg/cache/cache.go:413-433 | over every interleaving, writes that a handler starts one after the other take effect in that order, and at most the last is outstanding |
| `Interleavings.EffectsFollowStarts` | pkg/cache/cache.go:413-433 | the effects are a prefix of the calls made, and all of them once none is under way |
| `Interleavings.WritesAreConserved` | pkg/cache/cache.go:189-277 | over every interleaving and for every kind of write, those that took effect and those under way are as many as were under way, called or delivered |
| `Interleavings.DeliveredAccountArrives` | pkg/cache/cache.go:322-328 | once the goroutine of a successful fetch has finished, the account's insertion is among the operations, every channel handed out for its key is closed, and the key is cached unless removed since |
| `Interleavings.FailedFetchChangesNothing` | pkg/cache/cache.go:323-327 | a failed fetch leaves everything as it was and is over |
| `Interleavings.FetchesAreAccounted` | pkg/cache/cache.go:318-331 | every request taken is being fetched or its one fetch has ended |
| `Interleavings.LockedMidUpdate` | pkg/cache/cache.go:403-436 | at every point of every interleaving in which the handler makes the calls of an update one after the other, every key is between its old and its new entry |
| `Interleavings.LockedSync` | pkg/cache/cache.go:361-377 | over every interleaving in which the handler makes the calls of a chain of events one after the other, the cache ends as the chain says, and as the latest parseable config iff no key was left behind |
| `Interleavings.LockedResyncHeals` | pkg/cache/cache.go:355-358 | over every interleaving in which the handler makes a pass over the store, call by call, every stored account ends as its annotations say |
| `RoleArn.PartitionOfPrefix` | main.go:151-166 | each region prefix has its partition, whatever the order of the cases; `aws` iff no prefix fits |
| `RoleArn.ComposeSplits` | pkg/cache/cache.go:221 | the composed ARN splits at colons into its partition, account and role field |
| `RoleArn.ComposedMatches` | pkg/cache/cache.go:220-229 | the composed ARN matches the pattern iff the role is non-empty over the allowed characters, and matches in one way only |
| `RoleArn.ContainsIff` | pkg/cache/cache.go:220 | the test for `arn:` finds it at any place of the text |
| `RoleArn.ResolveIsIdempotent` | pkg/cache/cache.go:218-222 | composing again changes nothing |
| `RoleArn.AnnotatedRoleComposes` | pkg/cache/cache.go:218-231 | for every region, 12-digit account and allowed role the annotation becomes an ARN matching the pattern with these parts |
| `ServiceAccounts.NotificationRegistry.constructor` | pkg/cache/notifications.go:15-20 | starts empty and valid |
| `ServiceAccounts.NotificationRegistry.Create` | pkg/cache/notifications.go:22-34 | performs the atomic create, sends one request exactly when the key was not registered, keeps the channel account |
| `ServiceAccounts.NotificationRegistry.Broadcast` | pkg/cache/notifications.go:36-44 | performs the atomic broadcast, and the channel it closes was open |
| `ServiceAccounts.ServiceAccountCache.constructor` | pkg/cache/cache.go:299-310 | starts with empty caches and registry |
| `ServiceAccounts.ServiceAccountCache.GetSA` | pkg/cache/cache.go:168-177 | returns the cached entry, or registers and returns a notifier; keeps the invariant |
| `ServiceAccounts.ServiceAccountCache.GetCM` | pkg/cache/cache.go:179-187 | an entry iff the key is in the ConfigMap cache, and then that one |
| `ServiceAccounts.ServiceAccountCache.Get` | pkg/cache/cache.go:119-154 | the response of the three lookups in order, and only the registration as side effect |
| `ServiceAccounts.ServiceAccountCache.GetCommonConfigurations` | pkg/cache/cache.go:159-166 | account first, exact ConfigMap key second, default last; nothing changes |
| `ServiceAccounts.ServiceAccountCache.SetSA` | pkg/cache/cache.go:261-270 | stores the entry and broadcasts the key, restoring the invariant |
| `ServiceAccounts.ServiceAccountCache.PopSA` | pkg/cache/cache.go:189-194 | removes one account and nothing else |
| `ServiceAccounts.ServiceAccountCache.SetCM` | pkg/cache/cache.go:272-277 | sets one ConfigMap entry and nothing else |
| `ServiceAccounts.ServiceAccountCache.PopCM` | pkg/cache/cache.go:196-201 | removes one ConfigMap entry and nothing else |
| `ServiceAccounts.ServiceAccountCache.Clear` | pkg/cache/cache.go:452-455 | empties both caches, keeps the registrations |
| `ServiceAccounts.EntryIsAnnotated` | pkg/cache/cache.go:215-255 | the entry is the one whose every field is what its own annotation says, present, absent or unparseable |
| `ServiceAccounts.AnnotationsAreIndependent` | pkg/cache/cache.go:215-255 | changing one annotation changes at most its own field |
| `ServiceAccounts.ServiceAccountCache.ReadAnnotations` | pkg/cache/cache.go:215-255 | role, audience, regional endpoints and expiration, each from its own annotation or default |
| `ServiceAccounts.ServiceAccountCache.AddSA` | pkg/cache/cache.go:215-259 | the account's key holds the entry its annotations describe, its waiters are released, no other account changes |
| `ServiceAccounts.ServiceAccountCache.SetEntries` | pkg/cache/cache.go:413-419 | the first loop performs the insertions of an enumeration of the config, and panics iff some key has no slash or some entry is null |
| `ServiceAccounts.ServiceAccountCache.DropEntries` | pkg/cache/cache.go:428-433 | the second loop performs the deletions of an enumeration of the dropped keys, and panics iff one has no slash |
| `ServiceAccounts.ServiceAccountCache.PopulateCacheFromCM` | pkg/cache/cache.go:403-436 | the outcome of every event, when it is ignored, an error or a panic, and the exact script the cache was changed by in each case |
| `ServiceAccounts.ServiceAccountCache.OnConfigMapEvent` | pkg/cache/cache.go:361-377 | panics iff a new key has no slash or entry, or a dropped key has no slash; otherwise, whatever the keys, which entries the cache then has; for well-formed configs one step of the diff |
| `ServiceAccounts.SaProjection` | pkg/cache/cache.go:189-194 | over any run the account cache depends on insertions, removals and clears alone |
| `ServiceAccounts.ResyncHeals` | pkg/cache/cache.go:355-358 | from any contents, a run whose account writes are a pass of updates over the store, with getters and ConfigMap writes in between, makes the cache agree with the annotations of every stored account |
| `ServiceAccounts.AccountsLast` | pkg/cache/cache.go:248-255 | in every run with the clamped flag, whatever the ConfigMap holds, every annotated account lasts at least 600 seconds |
| `ServiceAccounts.CachedTokensLast` | pkg/cache/cache.go:248-255 | in every run every cached entry lasts at least 600 seconds, given such ConfigMap values and the clamped flag |
| `Json.EscapeRoundTrip` | pkg/handler/handler.go:379 | escaping a reference token and unescaping it gives it back, and leaves no slash (section 3 of RFC 6901) |
| `Json.PointerRoundTrip` | pkg/handler/handler.go:379 | every token list written as a pointer reads back as itself |
| `Json.ApplyPatchConcat` | pkg/handler/handler.go:364-428 | operations apply in order, and the first failure fails the patch |
| `Json.AddThenEvaluate` | pkg/handler/handler.go:369-381 | after an `add` the pointer evaluates to the added value (section 4.1 of RFC 6902) |
| `PodModel.EnvVarRoundTrip` | pkg/handler/handler.go:223-226 | an encoded variable decodes to itself |
| `PodModel.MountRoundTrip` | pkg/handler/handler.go:277-281 | an encoded mount decodes to itself |
| `PodModel.ContainerRoundTrip` | pkg/handler/handler.go:415-419 | an encoded container decodes to itself, members unknown to the webhook included |
| `PodModel.ContainersRoundTrip` | pkg/handler/handler.go:415-427 | the same for container lists |
| `PodModel.DecodedPodOk` | pkg/handler/handler.go:534-543 | every pod that decodes can be encoded without loss |
| `Injection.AppendedNames` | pkg/handler/handler.go:212-265 | exactly which names an injection appends, by mode, settings and what the container has |
| `Injection.AppendedAreFresh` | pkg/handler/handler.go:192-265 | no appended name was defined before |
| `Injection.AppendedAreUnique` | pkg/handler/handler.go:222-265 | no name is appended twice |
| `Injection.NonInterference` | pkg/handler/handler.go:323-345 | containers keep number, order, name and unknown members; skipped ones are unchanged; old variables and mounts are prefixes, appended variables are new |
| `Injection.PodNonInterference` | pkg/handler/handler.go:366-413 | annotations, account and node selector are kept, the old volumes end the new list, all other labels keep their values, and the webhook's label changes iff the mode is container credentials and it was missing or different |
| `Injection.ModesExclude` | pkg/handler/handler.go:241-265 | container credentials exclude web-identity variables and the other way round |
| `Injection.InjectedCredentials` | pkg/handler/handler.go:241-265 | a container that is not skipped and lacked the mode's variables defines exactly the configured role or URI, and the token file |
| `Injection.InjectedSettings` | pkg/handler/handler.go:222-239 | a container that is injected and lacks them defines the regional endpoints and both region variables with their values |
| `Injection.InjectedMount` | pkg/handler/handler.go:269-283 | a container that is injected and lacks it gets the read-only token mount, once, at the configured path |
| `Injection.UnchangedIff` | pkg/handler/handler.go:172-285 | exactly which containers are left as they were |
| `Injection.FreshContainer` | pkg/handler/handler.go:222-265 | the variables, values and order a container without any of them ends up with, by mode |
| `Injection.WindowsPath` | pkg/handler/handler.go:312-321 | the token path, character by character, with and without a Windows node selector |
| `Injection.ContainerIdempotent` | pkg/handler/handler.go:172-285 | injecting a container twice is injecting it once |
| `Injection.InjectionIsIdempotent` | pkg/handler/handler.go:311-429 | injecting a pod again with the same mode, volume, skip set and STS setting but any other expiration, audience, role or path changes nothing |
| `Injection.ContainerStaysWellFormed` | pkg/handler/handler.go:192-285 | variable names stay unique and every mount still resolves |
| `Injection.InjectionKeepsWellFormed` | pkg/handler/handler.go:386-413 | the whole pod stays well formed |
| `Injection.InjectAll` | pkg/handler/handler.go:323-345 | each container is injected unless skipped, in place |
| `Injection.Backslashes` | pkg/handler/handler.go:316-321 | every slash becomes a backslash and nothing else changes |
| `Slices.Append` | pkg/handler/handler.go:277-281 | Go's append: in place if there is room, else into a new array; the argument slice reads the same either way |
| `Slices.Extend` | pkg/handler/handler.go:230-237 | the same for several elements, and for the slice the argument grew from |
| `PodPatch.ScanEnv` | pkg/handler/handler.go:192-210 | each flag is set iff one of its names is defined |
| `PodPatch.HasMount` | pkg/handler/handler.go:269-274 | true iff the volume is mounted |
| `PodPatch.ChooseVars` | pkg/handler/handler.go:222-265 | the variables the branches choose are those of the injection, and the flag says whether there are any |
| `PodPatch.AddEnvToContainer` | pkg/handler/handler.go:172-285 | the container becomes the injected one, the flag is true iff it differs, and the caller's container reads as before although they share arrays |
| `PodPatch.InjectContainers` | pkg/handler/handler.go:323-345 | the loop yields the injected list, reports a change iff some container differs, and leaves the decoded list as it was |
| `PodPatch.VolumeExists` | pkg/handler/handler.go:387-392 | true iff a volume has the name |
| `PodPatch.ChangedIsExact` | pkg/handler/handler.go:323-413 | in web-identity mode the pod differs iff a container list differs or the volume was missing |
| `PodPatch.BuildPatch` | pkg/handler/handler.go:364-428 | the emitted operations and their order, in every combination of labels, volumes and init containers |
| `PodPatch.GetPodSpecPatch` | pkg/handler/handler.go:311-429 | emits the patch whose meaning is proved, leaves the decoded pod unaltered, and reports a change iff the injected pod differs or the mode is container credentials |
| `PatchMeaning.LabelPath` | pkg/handler/handler.go:379 | the escaped path in the code points at the label |
| `PatchMeaning.PatchAppliesAsInjection` | pkg/handler/handler.go:311-429 | for every document that decodes, the patch applies iff the objects it reaches into exist, and then equals the direct injection into the document |
| `PatchMeaning.PatchedDocumentDecodes` | pkg/handler/handler.go:311-429 | patching the document and decoding is decoding and injecting |
| `PatchMeaning.FlagIsExactOnDocuments` | pkg/handler/handler.go:323-413 | without a change the patched document decodes to the same pod; in web-identity mode with one it does not |
| `PatchMeaning.PatchTouchesNothingElse` | pkg/handler/handler.go:364-428 | every member of the document other than labels, volumes and container lists is unchanged |
| `PatchMeaning.PatchingTwice` | pkg/handler/handler.go:311-429 | the patch computed for a patched document leaves it unchanged |
| `PatchReadings.DecodedPodReads` | pkg/handler/handler.go:534-543 | account, labels, annotations and node selector of the decoded pod are those found in the document |
| `PatchReadings.PatchedToken` | pkg/handler/handler.go:347-362 | in the patched document of every pod that lacked the volume, the first volume has the configured name and projects a token with the configured expiration, path and audience, the latter absent iff empty |
| `PatchReadings.PatchedContainers` | pkg/handler/handler.go:415-427 | in the patched document both container lists show the names, variables and mounts of the injected pod |
| `PatchConfig.GetContainersToSkip` | pkg/handler/handler.go:154-170 | exactly the listed names, none if the annotation is missing or does not parse |
| `PatchConfig.AddJitter` | pkg/handler/handler.go:510-517 | the default becomes a value in 79200..86400, any other is kept |
| `PatchConfig.GetNamesRole` | pkg/cache/cache.go:119-154 | `Get` returns the role of the most specific source and finds exactly the accounts some source knows |
| `PatchConfig.PodAnnotationsRead` | pkg/handler/handler.go:154-170 | the skip set and the expiration are what the pod's annotations say under their full names |
| `PatchConfig.DecisionFollowsSources` | pkg/handler/handler.go:440-508 | a configuration results iff the account is listed, or the first lookup names a role, or the handler waits, is notified in time and the second lookup names one; the credentials are those of that source and state |
| `PatchConfig.ConfigurationFields` | pkg/handler/handler.go:440-508 | every field of the configuration: skip set of the pod's annotation; listed accounts have the identity's settings, others role, audience and regional endpoints of the deciding entry and names and paths of the modifier |
| `PatchConfig.SourcePrecedence` | pkg/handler/handler.go:440-508 | end to end, with or without a wait: listed accounts get container credentials and the label and no web-identity variable; others AWS_ROLE_ARN with the role of account, exact key or `*` key, and no container-credentials variable or label; without a role no patch |
| `PatchConfig.NotifiedDecision` | pkg/handler/handler.go:470-486 | over every run: a notified handler's account was inserted while it waited; unless removed since, the second lookup finds it, and the configuration carries the role the sources then name, if any |
| `PatchConfig.TokenLifetime` | pkg/handler/handler.go:292-308 | whatever the caches hold: the pod's annotation wins over the cached value of the state decided on; only the default is jittered, only in container-credentials mode; the token lasts 600 seconds iff the pod has a valid annotation or the cached value does |
| `PatchConfig.ShortTokensIff` | pkg/cache/cache.go:413-419 | over every run with the clamped flag and any ConfigMap values, a token is shorter than 600 seconds iff the pod has no valid annotation and a ConfigMap entry below 600 decides |
| `PatchConfig.ShortTokenFromConfigMap` | pkg/cache/cache.go:415-418 | for every entry with a role and a value below 600 other than zero, that value is injected |
| `PatchConfig.NoShortTokens` | main.go:140 | with ConfigMap values zero or at least 600, no token injected at the first lookup or after a wait lasts less than 600 seconds |
| `EndToEnd.AnnotatedRoleDecides` | pkg/cache/cache.go:218-231 | after an account event the role the sources name is the annotated ARN, or the one composed of the annotation |
| `EndToEnd.DecidedPod` | pkg/handler/handler.go:323-345 | containers the pod's annotation lists are untouched, every other one that was not complete gets the decision's mount, settings and credentials |
| `EndToEnd.DecidedDocument` | pkg/handler/handler.go:545-556 | a reader of the patched document finds the decision's token and, in both lists, these containers |
| `EndToEnd.ShortTokensInDocuments` | pkg/handler/handler.go:347-362 | over every run and for every document that gets a token, the token the document asks for is shorter than 600 seconds iff the pod has no valid annotation and a ConfigMap entry below 600 decides |
| `EndToEnd.NoShortTokensInDocuments` | main.go:140 | with ConfigMap values zero or at least 600, no patched document asks for a token shorter than 600 seconds |
| `FileConfig.Config.constructor` | pkg/containercredentials/config.go:52-62 | starts with no identities |
| `FileConfig.Config.Load` | pkg/containercredentials/config.go:72-98 | succeeds iff the content is empty or parses; then the cache is exactly its identities, else it is kept |
| `FileConfig.Config.Get` | pkg/containercredentials/config.go:100-122 | the patch settings iff the identity is cached |
| `FileReload.StepUpToDateIff` | pkg/filesystem/file_watcher.go:107-146 | after any step the loop is up to date (newest content in hand is the file's, or a read is owed) iff it was and the step loses nothing, or the step heals |
| `FileReload.AlwaysUpToDateIff` | pkg/filesystem/file_watcher.go:69-146 | a run is up to date at every point iff no change in it is unwatched, with no read to come, and to another content |
| `FileReload.EndsUpToDateIff` | pkg/filesystem/file_watcher.go:69-146 | whatever was lost on the way, a run ends up to date iff it was healed after its last loss |
| `FileReload.NoLostReload` | pkg/filesystem/file_watcher.go:69-146 | from start-up, in a run that loses nothing or is healed, stale content always means a reload is owed, and at rest the cache equals the file's identities, none for a missing or empty file; at rest a run was healed iff the content accepted is the file's |
| `FileReload.BlindChangeIsMissed` | pkg/filesystem/file_watcher.go:69-105 | for every content and every different later one, a run that rests on the old content |
| `FileReload.NextEventHeals` | pkg/filesystem/file_watcher.go:107-112 | the next event for the path, or the next watched change, makes up for any loss |
| `FileReload.StepUsesWork` | pkg/filesystem/file_watcher.go:107-146 | with a file that parses and no longer changes, whatever the worker holds, every step lowers the work left |
| `FileReload.Converges` | pkg/filesystem/file_watcher.go:107-146 | then every run is bounded, and one that cannot go on ends with the cache equal to the file |

## Left out

- HTTP handling, admission review decoding and the response envelope; the pod document and the request's namespace are inputs.
- JSON text, CSV, integer and boolean parsing and `filepath.Join`: parameters, or options that are empty where the original returns an error.
- Details of Go's JSON codec: case-insensitive member names, members unknown to the Kubernetes types (kept here, dropped there) and zero members that Go always writes.
- TLS, certificates, secrets, metrics, logging, debug endpoints, flag parsing, shutdown and context cancellation.
- Real time: the grace period and rate-limited retries may expire at any moment; the rate limiter, `Forget` and API retries are not modelled, a fetch delivers some account for its key or fails.
- The hand-off of a reader/writer lock at unlock, which lets waiting readers in first: the machine allows those schedules and others.
- `Clear` is an atomic operation in `Registry` and the class only; it takes no lock, so it is not a step of the lock-level machine. `GetCommonConfigurations` and `ToJSON` are not goroutines of that machine either; they take the read lock as `Get` does.
- The capacity of the fetch channel is in `LockProtocol`; the class records the requests sent.
- A cache that is written between the lookups of one `Get`: its answer is stated for runs without a write between its start and its return, and for another state at the `Get` after a wait; `LockAnswers.ConfigMapAnswers` allows account writes after the account lookup.
- Agreement of the account cache with the informer store while fetches are in flight: a late fetch can add a deleted account again.
- fsnotify errors, queue overflow and events under another name, such as the symlink swap of a mounted ConfigMap: every change of the watched path raises an event in the model.
- The work queue is seen through its single item.
- Volumes and labels are values: only the slices of containers, which the handler appends to, share memory in the model.
- ServiceAccounts.ServiceAccountCache.OnConfigMapEvent: says nothing of the cache after a panic, which ends the process; PopulateCacheFromCM gives the script up to the panic. Where two keys of the new config share a target, the entry is that of either, as the iteration order decides.
