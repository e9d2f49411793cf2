# Verified model of the userbot

A Dafny model of the parts of a Telegram userbot in which most can go wrong, with proofs of what
they promise. `dafny verify dfyconfig.toml` checks all of it.

The centre is the plugin lifecycle. Loading, reloading and unloading a plugin change three shared
things: the dispatcher's command table, the client's handlers and the map of published runtimes.
The coroutines can fail or be cancelled at every `await`. `Lifecycle` models them as a transition
system whose steps are cut exactly at the suspension points; `LifecycleInv` and `LifecycleSteps`
hold the invariant and the proof that every step keeps it. On that rest the safety theorems
(`LifecycleSafety`), the invisibility of a failed reload (`LifecycleReload`), the finality of
`shutdown` and the exact gap in it (`LifecycleShutdown`, `LifecycleShutdownGap`), who gets past the
lock and who is turned away (`LifecycleEntry`), what is live when
a load is over, by the route it took (`LifecycleRoutes`, resting on what nobody else can do under
the manager lock, `LifecycleHolder`), which of it can still start tasks (`LifecycleTasks`), what the
end of an operation says and when it says so (`LifecycleEndings`, `LifecycleOutcome`,
`LifecycleCancel`), that a replaced generation is over for good (`LifecycleRetired`) and progress
(`LifecycleProgress`).

`Commands`, `Context`, `ContextLaws` and `PluginContexts` model the command registry and one
generation of a plugin, as values with their laws and as objects updated in place; `CommandNames`
and `ContextRequests` say which spellings name one command and what a plugin's request comes to. `Manager` has
the manager itself as an object and proves each of its segments to be the step of the model it
stands for.

Around it:

- `Uninterruptible`: cleanup that absorbs cancellations, also as the rollback uses it.
- `EditDistance`: the two-row Levenshtein loop, shortest edit scripts, the metric axioms, and the
  mode suggestion they decide.
- `SqlComments`, `SqlTokens`, `SqlGuard`, `SqlVerdict`: the SQL comment stripper against a
  tokenizer, the text guard in front of a plugin's database, and its verdict read off the text.
- `Clock`, `RateLimit`, `Cooldown`: the two bounded maps in order of use, and the spacing they
  guarantee over whole runs.
- `Router`, `RouterOrder`, `RouterEndings`, `RouterOverlap`: the fallback chain of models, the
  order in which it asks, how a call ends and what is learned from it, calls that overlap, and the
  rotation of keys.
- `Catalog`, `CatalogRows`, `CatalogHistory`, `Ranking`: merging posts into the key catalogue, what
  its endpoint table keeps of them, what any operations leave recorded, and ranking candidates.
- `Watcher`, `WatcherRequests`: the signature-cached scan against hashing everything, and what is
  asked for over a run.
- `Review`, `Renaming`, `Alarms`, `ReviewLaws`: the static review over a small syntax tree, its
  invariance under renaming an import, exactly what it lets pass, and what it only notes.
- `Adoption`, `AdoptionLoads`: installing a staged plugin and undoing a failed installation, with
  loads and unloads that end as they do in the lifecycle model.

## How to read it

A suspension is resumed with an outcome: it goes on, raises, or the task is cancelled there; a
stop hook can also raise the cancellation itself. The client decides which handlers it refuses
(`refuses`); having no client is refusing all of them. Every theorem about runs quantifies over
all interleavings of these, with any number of tasks, names and generations.

Statements one might expect and that are false of the code, each with its exact form in the model:

- Not every published context is live. When a reload is over, what is published under its name is
  live if and only if it succeeded, failed before the exchange over a live predecessor, or the
  tables took the predecessor back (`LiveAfterReload`). It is not if recording fails after the
  publication (`FailedRecordingLeavesItPublishedButStopped`), or if the predecessor, switched off
  at the exchange, is not taken back: because the tables refuse it, because it was marked stopped
  before a cancellation, or because the rollback is abandoned.
- A generation that was brought back is not always what it was: after a cancellation that cut its
  shutdown short it is live, but its task group stays closed (`TasksAfterReload`).
- `shutdown` is final under every schedule if and only if, as the flag goes up, no first load of a
  name is past the flag check that the tables would still take (`ShutdownFinalExactly`). A reload
  past it does no harm, because its name is in the snapshot; nor does a first load whose buffered
  commands collide, because what is buffered only grows.
- A deactivated context comes back as it was only if all it had buffered was live: a command that
  was refused while the context was live stays buffered (`ReactivationExact`).
- The SQL guard's verdict does change behind blanks and comments, exactly if they put white space
  that the guard does not drop in front of a byte order mark that hides a forbidden statement
  (`VerdictBehindBlanks`).
- A failed adoption does not always leave things as they were (`FailedAdoptionLeavesTheDisk`,
  `RunningAfterFailure`). A load that fails while it is recorded leaves the name published with the
  tree that is then removed. The previous copy is loaded again if there was one on disk, whether or
  not it was running, and a plugin that ran from elsewhere is not brought back. A removal that
  leaves something behind, or a stash left from before, buries the outgoing tree inside another. A
  copy that fails half-way is not undone, because it happens before the `try`.
- A plugin whose files changed is not always reloaded: a change of the bytes can leave the signature
  alone (`UnseenIsMissed`), and a file with NULs in it can feed the digest what two files do
  (`ReloadsOnChange`, `DifferentFilesCanFeedTheSame`).
- A consistent renaming of an import can change what the review finds, exactly if a call in front of
  the binding is judged by its spelling (`ReviewSurvivesExactly`).
- The endpoint table of the catalogue depends on the order of posts, through the last provider,
  tier and date and the order of new addresses, and through nothing else (`SameTableExactly`).
- Unregistering a command by one of its aliases takes that alias and the command, and leaves its
  other aliases in the table (`UnregisteringAnAlias`).
- A provider that is not in the priority list is not always ranked behind those that are: a name
  repeated in the list counts by its last mention, which can lie further back than the list has
  different names (`UnlistedNext`).
- Normalising a command name twice is not normalising it once, exactly if white space follows the
  slashes and dots in front of the trimmed name (`NormalizeTwiceExactly`).

The comment beside `MODE_MIN_LENGTH` explains the minimum length by the word "how"; that word has
three characters, so it is the distance that excludes it and not the length. The model follows the
code.

## Model

| member | source | states |
|---|---|---|
| `Commands.NormalizeIsNotIdempotent` | src/userbot/commands.py:381-382 | normalising a name twice can give another name than normalising it once: a concrete name |
| `Commands.NormalizeTwiceExactly` | src/userbot/commands.py:381-382 | normalising twice is normalising once if and only if no white space follows the slashes and dots in front of the trimmed name |
| `Commands.RegisteredExactly` | src/userbot/commands.py:179-220 | a registration goes through if and only if the name is not blank, the callback is callable and every key it claims is free |
| `Commands.RegisteredRows` | src/userbot/commands.py:179-220 | a registration adds exactly the rows of its name and aliases, under keys nobody had, and touches no other row |
| `Commands.RegisterThenUnregister` | src/userbot/commands.py:179-230 | unregistering the name just registered gives back the table as it was, other owners included |
| `Commands.UnregisterOrderIrrelevant` | src/userbot/commands.py:221-230 | if a set of names covers the rows of a plugin, unregistering them in any order leaves exactly the other owners' rows |
| `Commands.CommandDispatcher.Register` | src/userbot/commands.py:179-220 | in place, with its two loops: the new table or the first conflict, and an unchanged table on every error |
| `Commands.CommandDispatcher.Unregister` | src/userbot/commands.py:221-230 | in place, with its loop: the rows of the registration and its aliases go, if they belong to this plugin |
| `CommandNames.NormalizeExactly` | src/userbot/commands.py:381-382 | however it is written, with white space around it and slashes and dots in front, a command is filed under the name itself in lower case |
| `CommandNames.CaseDoesNotMatter` | src/userbot/commands.py:381-382 | two spellings that differ in case only have one normal form, and it is in lower case |
| `CommandNames.OneCommandForAllCases` | src/userbot/commands.py:179-220 | once a command is registered, registering any spelling of it in other letters is refused, and each of them finds its row |
| `CommandNames.RefusedExactly` | src/userbot/commands.py:179-213 | each refusal if and only if its reason holds and none that is looked at before it: a blank name, the name taken, a callback that cannot be called, and the first alias that is taken |
| `CommandNames.AliasesInOrder` | src/userbot/commands.py:199-206 | the aliases kept are the usable normal forms other than the name, once each, in the order of their first mention |
| `CommandNames.UnregisteringAnAlias` | src/userbot/commands.py:221-230 | unregistering an alias of a command takes that alias and the command itself, and leaves its other aliases |
| `ContextRequests.LiveCommandExactly` | src/userbot/plugin_api.py:163-186 | a live context takes a command if and only if its callback can be called, its name has something left after both normalisations and none of its keys is taken; then exactly these keys are new and call the callback, and otherwise the registry is as it was |
| `ContextRequests.HandlerIsNotLost` | src/userbot/plugin_api.py:188-197 | a handler is buffered whatever becomes of it at once: live now if and only if the context is and the client takes it, and live after every later activation that goes through |
| `ContextRequests.CommandIsNotLost` | src/userbot/plugin_api.py:163-186 | the same for a command, whether or not it collided when it was registered |
| `Context.RunCommandsExactly` | src/userbot/plugin_api.py:242-251 | a batch of buffered commands goes live completely if and only if it is consistent in itself and all its keys are free |
| `Context.RunCommandsUndone` | src/userbot/plugin_api.py:259-272 | dropping the plugin's rows after a batch stopped anywhere gives back the table it started from |
| `ContextLaws.DeactivationExact` | src/userbot/plugin_api.py:274-294 | deactivation removes exactly this plugin's rows and this context's handlers |
| `ContextLaws.DeactivationAnyOrder` | src/userbot/plugin_api.py:283-285 | the iteration order of the set of active names does not matter |
| `ContextLaws.ActivationExact` | src/userbot/plugin_api.py:259-272 | activation is all or nothing, succeeds exactly when not stopped, consistent, free and accepted by the client, and deactivation is its inverse |
| `ContextLaws.ReactivationExact` | src/userbot/plugin_api.py:163-197 | taking a live context down and putting it up again restores both tables if and only if everything it buffered was live and the client takes it again |
| `ContextLaws.CommandRegisteredIsValid` | src/userbot/plugin_api.py:163-186 | registering while live or buffered keeps every live row accounted for by the context, even when the registration fails after it was buffered |
| `ContextLaws.HandlerRegisteredIsValid` | src/userbot/plugin_api.py:188-197 | the same for handlers, and no other context's handler changes |
| `PluginContexts.PluginContext.Activate` | src/userbot/plugin_api.py:259-272 | the object reaches the state of the activation law, also through a failure part-way |
| `PluginContexts.PluginContext.Deactivate` | src/userbot/plugin_api.py:274-294 | the object reaches the state of the deactivation law, whatever order its set is walked in |
| `PluginContexts.PluginContext.ActivateCommands` | src/userbot/plugin_api.py:266-267 | the loop over the buffered commands stops at the first that is refused |
| `PluginContexts.PluginContext.UnregisterNames` | src/userbot/plugin_api.py:283-285 | every active name is unregistered, in an order that is not fixed |
| `PluginContexts.PluginContext.RegisterCommand` | src/userbot/plugin_api.py:163-186 | buffered first, then registered if live; a rejected request changes nothing |
| `PluginContexts.PluginContext.RegisterHandler` | src/userbot/plugin_api.py:188-197 | buffered first, then added to the client if live |
| `LifecycleSteps.StepInv` | src/userbot/manager.py:338-522 | every step of every coroutine keeps the invariant: published names point at their contexts, live contexts are published or being swapped in, locks have one holder |
| `LifecycleSteps.RunInv` | src/userbot/manager.py:338-522 | so does every run |
| `LifecycleSteps.SwapInv` | src/userbot/manager.py:377-390 | the exchange of two generations between two suspensions keeps it, whether or not the new one goes live |
| `LifecycleSteps.FinishUndoInv` | src/userbot/manager.py:478-485 | putting the old generation back at the end of a rollback keeps it |
| `LifecycleSafety.NoZombies` | src/userbot/manager.py:338-522 | in every reachable state with the manager lock free, every live row and handler of a plugin belongs to the context published under its name |
| `LifecycleSafety.OneGenerationAtATime` | src/userbot/manager.py:338-522 | in every reachable state, mid-reload included, all live rows and handlers of a plugin come from one generation |
| `LifecycleSafety.BodiesExcludeEachOther` | src/userbot/manager.py:201-225 | at most one load or unload body runs, a per-name lock has one holder, the in-flight count is the number of operations inside, and idle means none |
| `LifecycleSafety.FailedRecordingLeavesItPublishedButStopped` | src/userbot/manager.py:404-461 | live implies published but not the converse: a failure while recording a load can leave the name published, stopped and silent |
| `LifecycleRoutes.LiveAfterReload` | src/userbot/manager.py:366-485 | whatever else goes on meanwhile, what is published under the name when a reload is over is live if and only if it succeeded, failed before the exchange over a live predecessor, or the tables took the predecessor back, at once or at the end of the rollback; and it is the predecessor unless the load got as far as recording |
| `LifecycleRoutes.LiveAfterFirstLoad` | src/userbot/manager.py:366-485 | a first load leaves the name published if and only if it got as far as recording, and live if and only if it succeeded |
| `LifecycleTasks.TasksAfterReload` | src/userbot/plugin_api.py:296-316 | of what a reload leaves live, the new generation can start tasks, and the old one if and only if its task group was open before and the reload did not get as far as its shutdown: brought back after a cancellation that cut the shutdown short, it is live and cannot |
| `LifecycleHolder.OthersStand` | src/userbot/manager.py:350-356 | while a task holds the manager lock no step of anybody else publishes or withdraws a name, makes, switches or stops a context, or moves that task |
| `LifecycleReload.FailedSwapIsInvisible` | src/userbot/manager.py:377-390 | a failed exchange leaves tables and runtime map as they were, and reports the old generation restored, if and only if it was restorable |
| `LifecycleReload.FailedReloadIsInvisible` | src/userbot/manager.py:366-485 | over every run: no step of a reload that fails in load, validation, prepare or activation changes the command table, the handlers or the runtime map, whatever the old generation, other plugins and other operations do between those steps |
| `LifecycleReload.RestoredExactly` | src/userbot/plugin_api.py:259-292 | the old generation can be put back if and only if all it buffered was live |
| `LifecycleShutdown.ShutdownIsFinal` | src/userbot/manager.py:977-1005 | if no load that can still publish a new name is past the flag check when the flag goes up, then under every schedule, once shutdown has returned nothing is published or live, in that and every later state |
| `LifecycleShutdown.ClosingDownRun` | src/userbot/manager.py:351-357 | while closing down no step publishes a new name, and every published name still has its unload coming |
| `LifecycleShutdown.OthersDoNotHelp` | src/userbot/plugin_api.py:163-197 | a prepared first load whose buffered commands collide stays unable to go live, because registrations only ever add |
| `LifecycleShutdownGap.ShutdownFinalExactly` | src/userbot/manager.py:977-1005 | shutdown is final under every schedule if and only if no first load is past the flag check that the tables would still take |
| `LifecycleShutdownGap.ShutdownIsNotFinal` | src/userbot/manager.py:354-404 | from every state in which a first load is past the check and the tables would take it there is a schedule that ends with shutdown returned and the plugin live |
| `LifecycleShutdownGap.LoadGoesThrough` | src/userbot/manager.py:366-420 | undisturbed, a first load past the check publishes its plugin and releases the lock |
| `LifecycleShutdownGap.DrainAll` | src/userbot/manager.py:985-1005 | all gathered unloads can run to their end while another plugin stays up |
| `LifecycleProgress.SomeTaskCanMove` | src/userbot/manager.py:201-217 | no deadlock: as long as some operation is unfinished, some task can take a step |
| `LifecycleProgress.TaskStepsAreBounded` | src/userbot/manager.py:338-522 | no livelock: the number of task steps in a run is bounded by the ranks of its tasks |
| `LifecycleProgress.EveryOperationCanFinish` | src/userbot/manager.py:201-217 | from every state of the invariant all operations can be brought to an end |
| `LifecycleEndings.EndingsAreTrue` | src/userbot/manager.py:338-522 | a load that ends as loaded leaves the new generation published, live and alone; an unload that ends as unloaded leaves nothing of the plugin published, in the table or at the client |
| `LifecycleRetired.OverForGood` | src/userbot/plugin_api.py:259-263 | a context that is stopped and switched off stays so in every later state of every run, takes no more commands or handlers, and no handler of it is ever live again |
| `LifecycleRetired.ReplacedForGood` | src/userbot/manager.py:390-420 | the generation a finished reload replaced is over for good |
| `LifecycleRetired.RemovedForGood` | src/userbot/manager.py:494-513 | so is the one an unload has stopped |
| `LifecycleEndings.UnloadOfNothing` | src/userbot/manager.py:502-504 | an unload of a name that is not published ends at once, and nothing of it is there |
| `LifecycleEntry.DisabledExactly` | src/userbot/manager.py:201-214 | a load that enters its operation is turned away as disabled if and only if its name is, and then holds no lock and is not counted |
| `LifecycleEntry.EnterExactly` | src/userbot/manager.py:350-361 | a load that takes the lock returns the runtime that is there if and only if the program is not shutting down, the name is published and the load is not forced; fails if and only if it is shutting down; and starts a generation otherwise. Turned away, it changes nothing of any plugin |
| `LifecycleEntry.UnloadEntersExactly` | src/userbot/manager.py:502-507 | an unload withdraws its name and no other if it is published, and is over at once otherwise |
| `LifecycleEntry.WaitingEndsExactly` | src/userbot/manager.py:201-217 | every way an operation that still waits can be over, each if and only if its one reason holds |
| `LifecycleEntry.TurnedAwayExactly` | src/userbot/manager.py:347-361 | over any run, the steps of a load leave both tables, all contexts, what is published and the generation count alone if and only if it is never admitted, that is, never takes the lock with the flag down and either forced or under a name that is not published |
| `LifecycleEntry.DisabledLeavesNoTrace` | src/userbot/manager.py:201-214 | a load of a disabled name is over when it enters its operation, and leaves no trace in any run |
| `LifecycleEntry.DisabledAsLastSet` | src/userbot/manager.py:527-565 | over any run a name is disabled as it was last set, whatever else goes on |
| `LifecycleCancel.CancelledExactly` | src/userbot/manager.py:338-522 | an operation inside the lock ends as cancelled if and only if it was cancelled in a step of its own: no rollback swallows a cancellation and no failure is passed off as one |
| `LifecycleOutcome.EndsAsAskedExactly` | src/userbot/manager.py:366-522 | an operation inside the lock ends as it was asked to if and only if every step of its own goes on and, for a load, the tables take the new generation; otherwise it ends as failed or cancelled |
| `Uninterruptible.RunUninterruptible` | src/userbot/task_registry.py:11-48 | the cleanup runs to its end if and only if fewer cancellations than the limit arrive first; the caller sees a cancellation exactly when one was absorbed, and never the cleanup's own error |
| `Uninterruptible.RollbackAbsorbs` | src/userbot/task_registry.py:27-41 | a rollback is still at work after n cancellations while attempts remain, and the next one abandons it |
| `Uninterruptible.RollbackStepExactly` | src/userbot/task_registry.py:27-48 | a rollback is over as cancelled if and only if the stop hook raises the cancellation itself, the attempts are used up, or it comes to its end after a cancellation; abandoned in one of the first two ways it switches and publishes nothing any more |
| `Manager.PluginManager.TakeDown` | src/userbot/plugin_api.py:274-294 | switching one context off through the objects is the model's step, and only that context, the table and the handlers change |
| `Manager.PluginManager.PutUp` | src/userbot/plugin_api.py:259-272 | switching one context on through the objects is the model's step, with the same success |
| `Manager.PluginManager.TakeOp` | src/userbot/manager.py:201-214 | entering an operation takes the per-name lock, counts it and clears idle; a disabled name leaves at once |
| `Manager.PluginManager.LeaveOp` | src/userbot/manager.py:214-217 | leaving releases the lock, and idle is set when the count reaches zero |
| `Manager.PluginManager.TakeLock` | src/userbot/manager.py:350-361 | from the manager lock to the first suspension, for loads, unloads and fetches |
| `Manager.PluginManager.EnterUnload` | src/userbot/manager.py:494-507 | the runtime is popped and its context switched off before anything can interrupt |
| `Manager.PluginManager.Exchange` | src/userbot/manager.py:377-390 | the objects go through the exchange exactly as the model does, including putting the old generation back |
| `Manager.PluginManager.Retire` | src/userbot/manager.py:390-404 | the outgoing context is stopped, then the new one published |
| `Manager.PluginManager.Record` | src/userbot/manager.py:405-420 | a failure after the publication starts a rollback |
| `Manager.PluginManager.StartUndo` | src/userbot/manager.py:462-477 | the failed context is taken down first |
| `Manager.PluginManager.ContinueUndo` | src/userbot/manager.py:471-485 | cancellations are absorbed up to the limit while it is stopped |
| `Manager.PluginManager.FinishUndo` | src/userbot/manager.py:478-485 | the old generation comes back only if it is still published |
| `Manager.PluginManager.Advance` | src/userbot/manager.py:338-522 | one segment of the task inside the lock, on the objects, is one step of the model, and the invariant holds after it |
| `Manager.PluginManager.Serve` | src/userbot/manager.py:201-217 | every other step on the objects (a call, entering an operation, taking the lock, giving up, each stage of shutdown) is the step of the model, and the invariant holds after it |
| `Manager.PluginManager.RegisterCommand` | src/userbot/plugin_api.py:163-186 | a plugin registering through its context is a step of the model, and keeps the invariant |
| `Manager.PluginManager.BeginShutdown` | src/userbot/manager.py:979-983 | the flag goes up, and with nothing published shutdown is over |
| `Manager.PluginManager.GatherUnloads` | src/userbot/manager.py:989-993 | one unload per published name is started |
| `Manager.PreparedIsExchangeable` | src/userbot/manager.py:377-390 | the invariant gives the exchange all it relies on at each of its switches |
| `EditDistance.ComputeDistance` | plugins/ai/plugin.py:120-134 | the two-row loop computes the recurrence, for all strings |
| `EditDistance.NextRow` | plugins/ai/plugin.py:123-133 | one row of distances from the row before |
| `EditDistance.ShortestScript` | plugins/ai/plugin.py:120-134 | a script of insertions, deletions and replacements of exactly that length exists |
| `EditDistance.NoShorterScript` | plugins/ai/plugin.py:120-134 | no script is shorter |
| `EditDistance.ZeroMeansEqual` | plugins/ai/plugin.py:120-134 | the distance is zero if and only if the strings are equal |
| `EditDistance.Symmetric` | plugins/ai/plugin.py:120-134 | the distance is symmetric |
| `EditDistance.Triangle` | plugins/ai/plugin.py:120-134 | the triangle inequality |
| `EditDistance.NothingInCommon` | plugins/ai/plugin.py:120-134 | strings without a common character are as far apart as the longer one is long |
| `EditDistance.TieNeverFires` | plugins/ai/plugin.py:115-117 | no word is within the threshold of both modes, so the tie branch decides nothing |
| `EditDistance.NearestModeExactly` | plugins/ai/plugin.py:99-117 | the result is m if and only if the lower-cased word is m, or has at least three characters and is within one edit of m |
| `EditDistance.NearestModeIsAMode` | plugins/ai/plugin.py:99-117 | the result is always a mode |
| `SqlComments.StripComments` | src/userbot/storage.py:43-88 | the loop over index, quote and output computes the two-state recursion |
| `SqlTokens.TokensAreLossless` | src/userbot/storage.py:43-88 | the reference tokenizer loses no character of its input |
| `SqlTokens.StripsTokens` | src/userbot/storage.py:43-88 | stripping renders the token list with literals kept, block comments as one space and line comments dropped |
| `SqlTokens.OutputTokens` | src/userbot/storage.py:43-88 | reading the output again gives exactly those tokens: literals verbatim and in order, and no comment opens that was not one, also for unterminated input |
| `SqlTokens.StripIsIdempotent` | src/userbot/storage.py:43-88 | no comment is left outside literals, and stripping twice is stripping once |
| `SqlGuard.FrontIsTransparent` | src/userbot/storage.py:113 | white space the guard drops, closed block comments and whole line comments in front never change the statement it judges |
| `SqlGuard.VerdictBehindComments` | src/userbot/storage.py:111-118 | hence the verdict is the same behind any sequence of them |
| `SqlGuard.VerdictBehindBlanks` | src/userbot/storage.py:111-118 | any sequence of white space of any kind, byte order marks and comments in front changes the verdict if and only if the text is forbidden and, with the comments gone, a byte order mark comes to stand behind white space the guard does not drop |
| `SqlGuard.OtherSpaceCanChangeTheVerdict` | src/userbot/storage.py:111-118 | a no-break space before a byte order mark does change it |
| `SqlGuard.AcceptedIsOneStatement` | src/userbot/storage.py:111-118 | an accepted text, split at the semicolons outside its literals, has nothing but blanks after the first part |
| `SqlVerdict.ForbiddenExactly` | src/userbot/storage.py:19-30 | a text is forbidden if and only if, with its comments gone, one of the four words, in any case and up to its end, stands behind the leading blanks, and no byte order mark among them hides it |
| `SqlVerdict.WordIsForbidden` | src/userbot/storage.py:111-118 | so one of the words is refused in every case and behind every sequence of complete comments and dropped characters |
| `SqlVerdict.QuotedIsVerbatim` | src/userbot/storage.py:43-88 | a text written between quotes, its own quotes doubled, is kept letter by letter, whatever comment marks are in it |
| `SqlVerdict.AcceptedExactly` | src/userbot/storage.py:111-118 | a text is accepted if and only if it is not forbidden and, with its comments gone, its semicolons are only trailing ones and perhaps one more in front of white space |
| `Clock.BoundKeepsNewest` | src/userbot/rate_limit.py:53-56 | the bounded map is always the newest part of the unbounded one |
| `Clock.Remembers` | src/userbot/rate_limit.py:50-56 | the last setting of a key is remembered if and only if fewer other keys than the bound were set since |
| `Clock.Bounded` | src/userbot/rate_limit.py:55-56 | the map never exceeds its bound |
| `RateLimit.ReservedExactly` | src/userbot/rate_limit.py:50-57 | a slot is the least time that is not before the request and not less than one interval after the previous slot of its key, unless 1024 other keys came in between, and then it is now |
| `RateLimit.FirstReservation` | src/userbot/rate_limit.py:51-52 | the first use of a key starts at once |
| `RateLimit.SpacedOverRuns` | src/userbot/rate_limit.py:40-57 | over any run, two slots of a key are at least one interval apart for every reservation of it from one to the other, unless 1024 other keys were reserved in between |
| `RateLimit.RateLimiter.WaitTurn` | src/userbot/rate_limit.py:40-57 | reserves the next slot of the history in place; there is a delay if and only if a remembered slot of the key is younger than the interval, and then it is what is missing |
| `RateLimit.PermitsAreConserved` | src/userbot/rate_limit.py:59-68 | free permits plus holders stay constant over every run, through errors and cancellations while taking a turn, sleeping and in the body |
| `RateLimit.InsideExactly` | src/userbot/rate_limit.py:59-68 | over any run a caller is inside if and only if its last step was taking its turn without a delay or waking up from it |
| `Cooldown.OneRecord` | src/userbot/commands.py:368-379 | a granted claim records its time, a refused one keeps what was recorded |
| `Cooldown.CooldownOverRuns` | src/userbot/commands.py:368-379 | two granted claims of a key closer than the cooldown imply that at least the bound of other keys was claimed in between |
| `Cooldown.FirstClaimIsGranted` | src/userbot/commands.py:368-379 | the first claim of a key is granted |
| `Cooldown.GrantedExactly` | src/userbot/commands.py:368-379 | a later claim is granted if and only if the record of the claim of its key before it is as old as the cooldown, or was pushed out by other keys |
| `Cooldown.GrantedOnceOver` | src/userbot/commands.py:368-379 | hence a claim is granted once the cooldown is over for every granted claim of its key before it |
| `Cooldown.CommandGate.ClaimCooldown` | src/userbot/commands.py:368-379 | the claim in place is granted exactly as the history says |
| `Cooldown.CommandGate.Admit` | src/userbot/commands.py:300-334 | exactly when an event is ignored, unknown, too soon or already running; otherwise its one invocation of that sender and command is in flight |
| `Cooldown.CommandGate.Finish` | src/userbot/commands.py:339-340 | the key is free again however the invocation ended |
| `Router.Chain` | src/userbot/gemini.py:698-706 | the chain has every configured name once, stripped and not blank |
| `Router.OrderIsAPermutation` | src/userbot/gemini.py:780-784 | every call asks in an order that is a permutation of the chain, the remembered model first |
| `Router.AskExactly` | src/userbot/gemini.py:808-830 | the models asked are those up to the first that does not refuse for quota, and that one decides |
| `Router.ExhaustedExactly` | src/userbot/gemini.py:817-823 | the models noted as exhausted are those that refused |
| `Router.ProbingIsAmortised` | src/userbot/gemini.py:808-830 | with a fixed non-empty set of models in quota, n calls make at most n requests plus one per model without quota; once one is remembered, exactly n |
| `RouterOverlap.OverlapIsAmortised` | src/userbot/gemini.py:780-830 | if calls overlap, never more than k at a time, any number of them makes at most one request each plus one for every model without quota and every one of k calls |
| `Router.NothingIsSpliced` | src/userbot/gemini.py:832-865 | all text one call streams is one model's, complete and in order, and those asked before yielded nothing |
| `Router.ModelRouter.Generate` | src/userbot/gemini.py:808-830 | the loop in place does what the chain law describes |
| `Router.ModelRouter.Stream` | src/userbot/gemini.py:832-865 | the same for streams, where the first piece already makes a model the remembered one |
| `RouterEndings.AskEndsExactly` | src/userbot/gemini.py:808-830 | a call is answered if and only if the last model asked replies, and with its reply; fails if and only if that model is broken; and finds all exhausted if and only if every model refuses |
| `RouterEndings.AskLearnsExactly` | src/userbot/gemini.py:816-825 | afterwards exactly the models that refused are noted, with the waits they named; the one that answered is remembered, and one that was is forgotten only for refusing |
| `RouterEndings.StreamEndsExactly` | src/userbot/gemini.py:841-865 | a stream is finished if and only if the last model tried completes it, raises if and only if that model breaks off, ends out of quota in the middle if and only if it does so after a piece, and exhausted if and only if every model gives nothing |
| `RouterEndings.StreamLearnsExactly` | src/userbot/gemini.py:845-860 | a model is remembered if and only if it gave a piece; those that gave nothing for want of quota are noted, and forgotten |
| `RouterOrder.AskedInConfiguredOrder` | src/userbot/gemini.py:780-784 | of two models one is asked first if and only if it is the remembered one, or the other is not and it is configured first |
| `RouterOrder.ChainInOrder` | src/userbot/gemini.py:698-706 | the chain lists the names in the order of their first mention |
| `Router.KeysTakeTurns` | src/userbot/gemini.py:349-357 | wherever the rotation stands, as many requests as keys use every key once |
| `Router.KeysInOrder` | src/userbot/gemini.py:349-357 | each round hands them out in the configured order |
| `Router.KeyRing.NextKey` | src/userbot/gemini.py:349-357 | the keys are handed out in turn, and none is an error |
| `Catalog.MarkAllIsJoin` | plugins/api/_catalog.py:212-237 | marking mentions one by one computes the join with the set of them |
| `Catalog.IngestDependsOnFactsOnly` | plugins/api/_catalog.py:165-210 | the model table after any posts depends on the set of mentions, not on order or repetition |
| `Catalog.NothingIsForgotten` | plugins/api/_catalog.py:196-206 | ingesting posts keeps the id and what was observed, never unlearns a tier or a date, and never lowers the post id below any post's |
| `Catalog.DatesDependOnOrder` | plugins/api/_catalog.py:198-206 | the endpoint table does depend on the order: two posts |
| `CatalogRows.EndpointAfter` | plugins/api/_catalog.py:165-210 | the row of an address after any posts has the provider of the last post about it, the last tier and date said or those known before, the highest post id, an id that counts the new addresses before it, and nothing else changed |
| `CatalogRows.SameTableExactly` | plugins/api/_catalog.py:165-210 | two lists of posts leave the same endpoint table if and only if they agree on these for every address |
| `Catalog.DeniedForever` | plugins/api/_catalog.py:212-333 | once denied, a model stays denied through every operation |
| `CatalogHistory.FlagsExactly` | plugins/api/_catalog.py:165-333 | after any operations a model is working, denied or listed if and only if it was, or one of the posts had it in that list, or, for listed, a check named it; the same for its star and for whether it has a row |
| `CatalogHistory.FailuresExactly` | plugins/api/_catalog.py:273-333 | the fail count of an endpoint is the number of failed checks and cooldowns since it last answered |
| `CatalogHistory.ChecksExactly` | plugins/api/_catalog.py:273-320 | an endpoint is checked once any check was recorded, alive as the last check said, and cooling down as it was last told to |
| `CatalogHistory.ModelCooldownExactly` | plugins/api/_catalog.py:316-333 | a model cools down as it was last told to, unless it has succeeded since |
| `CatalogHistory.ChecksLeaveTheRows` | plugins/api/_catalog.py:196-333 | checks, cooldowns and successes between posts leave alone what the posts said about any endpoint |
| `Catalog.IdsStayOk` | plugins/api/_catalog.py:174-194 | endpoint ids are never shared |
| `Catalog.Store.UpsertPost` | plugins/api/_catalog.py:165-210 | inserts or refreshes the endpoint in place and marks all three mention lists |
| `Catalog.Store.MarkChecked` | plugins/api/_catalog.py:273-289 | records a check and lists the models the API named |
| `Ranking.LessIsTotal` | plugins/api/_catalog.py:414-430 | ranks are totally ordered |
| `Ranking.PinnedFirst` | plugins/api/_catalog.py:414-421 | a pinned model or provider comes before everything else |
| `Ranking.PriorityNext` | plugins/api/_catalog.py:348-421 | then the provider mentioned earlier in the priority list, a repeated one counting by its last mention |
| `Ranking.UnlistedNext` | plugins/api/_catalog.py:348-421 | a provider that is not in the list comes behind every listed one if no name is repeated; with repetitions, in front of one whose last mention is further back than the list has names |
| `Ranking.ObservedNext` | plugins/api/_catalog.py:422-426 | then, within a provider, alive, working, starred and newer ones in this order |
| `Ranking.FailuresNext` | plugins/api/_catalog.py:422-430 | then the one with fewer failures, then the older endpoint, then the model name |
| `Ranking.CandidatesExactly` | plugins/api/_catalog.py:335-371 | the candidates are exactly the models that are working or listed, not denied, capable of the role, and neither cooling down themselves nor on an endpoint that is |
| `Ranking.SameRankSameRow` | plugins/api/_catalog.py:414-430 | two rows never have the same rank |
| `Ranking.RowOrderIsIrrelevant` | plugins/api/_catalog.py:335-371 | the ranked list is strictly sorted and the same for every order of the database rows |
| `Ranking.DeniedIsNeverACandidate` | plugins/api/_catalog.py:335-371 | a denied model is never a candidate, whatever happens later |
| `Ranking.Collect` | plugins/api/_catalog.py:349-371 | the loop that filters rows, then the sort |
| `Watcher.ScanOne` | src/userbot/watcher.py:104-121 | hash only if the signature moved |
| `Watcher.Scan` | src/userbot/watcher.py:94-123 | the scan loop |
| `Watcher.CachedIsTrueExactly` | src/userbot/watcher.py:94-123 | the cached scan equals a full rehash if and only if no plugin changed its digest behind an unchanged signature |
| `Watcher.CachedRefinesFull` | src/userbot/watcher.py:94-200 | over any run of ticks the cached watcher asks for the same loads, unloads and reloads as one that hashes everything |
| `WatcherRequests.LoadsExactly` | src/userbot/watcher.py:172-200 | in every tick of every run a plugin is loaded if and only if its directory came since the last one, and unloaded if and only if it went |
| `WatcherRequests.RunReloadsExactly` | src/userbot/watcher.py:172-200 | one that stays is reloaded if and only if a path or content that counts changed, as long as signatures give changes away and the files are readable and free of NULs |
| `WatcherRequests.InvisibleExactly` | src/userbot/watcher.py:61-92 | a file leaves the digest alone if and only if a listed directory is on its way or its suffix, in any case, is listed |
| `Watcher.ReloadsExactly` | src/userbot/watcher.py:193-195 | a plugin is reloaded if and only if the stream its digest is fed changed, so a touch alone never does it |
| `Watcher.ReloadsOnChange` | src/userbot/watcher.py:82-92 | if everything that counts is readable and free of NULs, that is if and only if a path or a content changed, came or went |
| `Watcher.FedOnce` | src/userbot/watcher.py:82-92 | equal streams of such files come from equal files |
| `Watcher.DifferentFilesCanFeedTheSame` | src/userbot/watcher.py:82-92 | without that condition a change can be missed: for every two files there is one file, with NULs in it, that feeds the digest the same |
| `Watcher.UnseenIsMissed` | src/userbot/watcher.py:109-111 | a change of the digest behind an unchanged signature is missed |
| `Watcher.PluginWatcher.Tick` | src/userbot/watcher.py:172-200 | one tick: the new snapshot, the requests and the counters |
| `Review.Reviewer.DottedName` | src/userbot/safety.py:219-229 | the loop gives the parts of a dotted chain, or nothing if it does not start at a name |
| `Review.Reviewer.VisitCall` | src/userbot/safety.py:315-354 | the three checks of a call, on the resolved name |
| `Review.Reviewer.VisitNode` | src/userbot/safety.py:255-387 | the visitor in place: findings appended and aliases bound in the order of the tree |
| `Alarms.PassesExactly` | src/userbot/safety.py:255-387 | a module passes if and only if no node in it alarms in itself or, for a call, by what its name stands for under the imports in front of it |
| `Alarms.NothingIsOverlooked` | src/userbot/safety.py:255-387 | a module with a listed import, attribute, bare builtin call, file removal or session file name anywhere in its tree does not pass, whatever its imports |
| `ReviewLaws.NotedExactly` | src/userbot/safety.py:342-354 | the findings that do not refuse are one for each call of a method that is noted only, in the order of the tree, whatever is imported |
| `ReviewLaws.JoinsInOrder` | src/userbot/safety.py:192-216 | a chain of fragments is read as its constant texts from left to right, whatever its brackets and whatever is unknown in it |
| `ReviewLaws.SplitPathIsRefused` | src/userbot/safety.py:371-387 | so a module in which a chain of fragments ends in the session file never passes |
| `ReviewLaws.LastImportCounts` | src/userbot/safety.py:255-280 | a name stands for what the last import in front that binds it says |
| `ReviewLaws.ImportsAreFollowed` | src/userbot/safety.py:255-354 | no import hides a refused call: a call by a name that the last import in front of it binds to a path is refused if that path with the rest of the name is |
| `Renaming.SameMeaning` | src/userbot/safety.py:300-311 | both spellings of a renamed import resolve to the same dotted name |
| `Renaming.ReviewSurvivesRenaming` | src/userbot/safety.py:255-387 | a consistent renaming of an imported name leaves the findings as they are, reasons equal up to the written name, and so the verdict |
| `Renaming.ReviewSurvivesExactly` | src/userbot/safety.py:255-387 | for a fresh name and an import that can be renamed, the findings stay the same up to the written name if and only if no call by the old name in front of its binding is judged by its spelling |
| `Renaming.UseBeforeBindingIsJudgedBySpelling` | src/userbot/safety.py:300-311 | a module in which one is |
| `Adoption.Installer.InstallLocal` | src/userbot/manager.py:851-917 | every ending if and only if the gate, the preparations, the load, the undo and the dropping of the stash went as they must for it; what it leaves on disk and published in each case; and unless buried, the outgoing tree is in the stash or in place at every suspension |
| `Adoption.FailedAdoptionLeavesTheDisk` | src/userbot/manager.py:879-969 | an adoption that fails leaves both directories byte for byte as they were if and only if it had not touched them, or the new copy is removed without remainder, no stash was left from before and the outgoing copy is moved back |
| `Adoption.OutgoingIsBackExactly` | src/userbot/manager.py:930-969 | once the load has failed, the outgoing copy is back in place and the stash empty if and only if it is moved back and neither a stale stash nor a remnant shows; and it is conserved if and only if it is not buried |
| `Adoption.AdoptedExactly` | src/userbot/manager.py:851-917 | the staged tree is in place and live if and only if the gate, the preparations and the load went through |
| `Adoption.RunningAfterFailure` | src/userbot/manager.py:897-969 | after a failed load something is published if and only if that load got as far as recording or the reload of the outgoing copy did, and which tree that is, and whether it is live |
| `Adoption.LoadErrorShownExactly` | src/userbot/manager.py:897-969 | the caller sees the error of the load itself if and only if the new copy is removed, the outgoing one moved back with nothing in its way, and nothing is cancelled; a failing load of the outgoing copy does not hide it |
| `Adoption.Installer.Prepare` | src/userbot/manager.py:879-895 | the outgoing copy is unloaded, moved aside and replaced by the staged one, and what is on disk and published wherever this stops; a failing unload has withdrawn the name all the same |
| `Adoption.Installer.Undo` | src/userbot/manager.py:930-969 | comes to its end if and only if the removal and the move do and the reload is not cancelled, with the disk and what is published wherever it stops; the outgoing tree stays conserved if and only if it is not buried |
| `Adoption.BuriedIsOther` | src/userbot/manager.py:892-948 | what is moved through a stale stash and onto a remnant is the outgoing tree if and only if neither is there (or all of them are empty) |
| `Adoption.MovedExactly` | src/userbot/manager.py:892-948 | moving a tree loses nothing: a directory in the way keeps its paths, and the tree is below it under the name |
| `Adoption.TwoLoads` | src/userbot/manager.py:897-969 | what a failed load and a reload after it leave published, for all their routes |
| `AdoptionLoads.LoadLeaves` | src/userbot/manager.py:366-485 | a load in the lifecycle model leaves published exactly what the adoption assumes for its route, over every run |
| `AdoptionLoads.NotEnteredLeavesAll` | src/userbot/manager.py:347-361 | a forced load that never gets to its body changes nothing that is published |
| `AdoptionLoads.UnloadWithdraws` | src/userbot/manager.py:502-507 | an unload has withdrawn the name when it first suspends |
| `AdoptionLoads.UnloadKeepsItOut` | src/userbot/manager.py:502-522 | and however it ends, the name stays withdrawn |

## Left out

- Telethon, HTTP, SSE parsing, SQLite and its authoriser, git, systemd, ffmpeg: foreign code, present at most as outcomes of a suspension.
- Lifecycle.Swap, Lifecycle.StartLoad: importing a plugin module and cleaning up `sys.modules` are one step that yields a module or fails.
- LifecycleSafety.NoZombies: removing a handler from the client always succeeds here; in the code a failure is logged and the handler stays.
- LifecycleSafety.NoZombies: hooks of a plugin are taken not to call the manager back, and plugins not to call `activate`, `deactivate`, `shutdown` or the dispatcher themselves; they register and unregister through their context only.
- Uninterruptible.RunUninterruptible: when the attempts are used up the cleanup is cancelled and the model takes it as ended there; a hook that swallows that cancellation could go on.
- LifecycleProgress.SomeTaskCanMove: a free lock wakes any waiter, which includes the order asyncio uses; fairness is not modelled.
- LifecycleShutdown.ShutdownIsFinal: `shutdown` is called once; its time budgets are not modelled, a wait that times out goes on like one that ends.
- Manager.PluginManager.Advance: contexts are objects filed under an id, and runtimes and suspended coroutines refer to them by that id instead of by reference.
- Commands.NormalizeIsNotIdempotent: lower-casing is that of ASCII letters.
- Commands.RegisteredExactly: no plugin is called `core`, the owner name of the application's own commands.
- PluginContexts.PluginContext.RegisterHandler: the check that a handler is callable is not modelled.
- EditDistance.NearestModeExactly: a word is lower-cased as ASCII.
- SqlGuard.AcceptedIsOneStatement: one direction only; the guard also refuses some single statements, because its pattern looks at semicolons inside literals too, so the exact form is `SqlVerdict.AcceptedExactly`. Which characters end a keyword is a parameter, and identifiers in brackets or backticks are not literals, as in the code.
- RateLimit.SpacedOverRuns: time is an integer, and sleeping takes exactly the delay.
- Cooldown.CooldownOverRuns: cooldown and bound are fixed over a run, and the clock does not go back; the command's own timeout and its replies are not modelled.
- RouterOverlap.OverlapIsAmortised: as in `Router.ProbingIsAmortised` the models with quota are fixed and nothing else goes wrong; streams and a reset between calls are not part of it.
- Router.NothingIsSpliced: a consumer that stops reading early sees a prefix of what is proved; retries and back-off inside one request are not modelled.
- Catalog.IngestDependsOnFactsOnly: models are keyed by the address of their endpoint, which stands for its row id; times are integers.
- Ranking.RowOrderIsIrrelevant: which model names can play which role, and how a date is parsed, are parameters.
- Watcher.CachedRefinesFull: the digest is the stream fed to it, so collisions of the hash itself are left out; a scan sees one state of the disk; requests are sets, the code sends them in alphabetical order.
- Renaming.ReviewSurvivesRenaming: a syntax tree has only the nodes the review looks at; every other node is its list of children. The wording of reasons is a tag plus the written name.
- Adoption.Installer.InstallLocal: reviewing the staged tree and reading its manifest are one accepted-or-not input; no other operation touches the name, its directory or its stash between the steps of an adoption; a tree is its files, so empty directories do not show, and a move takes effect as a whole or not at all, as it does within one file system.
- AdoptionLoads.LoadLeaves: which tree a context was loaded from is not part of the lifecycle state; it is a labelling of contexts, and the theorem holds for every one that gives the new context the tree being loaded.
- LifecycleTasks.TasksAfterReload: the group of tasks is whether it is closed; which tasks it holds, and waiting for them with a time limit, are not modelled.
- enable, update_git, `install_git`: their calls into load and unload are covered as operations, their own bookkeeping is not.
- Health, logging, configuration, topics, messages, prompts and the chat and media commands: plumbing around these cores.
