# Verification of the plugin container

Machine-checked proofs about a Go plugin container: plugins run as *fibers* that load, unload and reload as the services they
inject come and go, own reversible *effects*, exchange *events*, and are described by layered *configuration*. Check everything
with `dafny verify dfyconfig.toml` (Dafny 4.11).

Four parts, each a model of the code and theorems about that model:

**The reactive core** (`Reactive*.dfy`, `FiberDriver.dfy`, `Registries.dfy`, `Epochs.dfy`). `Reactive` is a step machine: a state
(fibers, service bindings, effect entries, runtimes) and a pool of activations of `refresh`, `drive`, `notify`, `provide`, a plain
effect, a disposer, `Dispose`, `Restart` and `load`, each with a program counter naming the critical section it is about to enter.
One step executes one critical section of any activation, and any public call may start at any time, so the runs cover every
interleaving and re-entry. Plugin bodies, effect bodies and config validation are arbitrary: they may succeed or fail, and may
call anything meanwhile, through the fiber's own context or through the scope of an effect. Services, plain effects and the slots
of child fibers are entries of one effect tree: an entry is listed by its fiber or owned by the entry through whose scope it was
made, and a teardown goes down the tree.

The invariants are one module each: references (`ReactiveWf`), the driver (`ReactiveDriver`), owed passes (`ReactiveQuiescence`),
runtimes (`ReactiveRuntimes`), generations (`ReactiveLifecycle`), requests (`ReactiveRequests`), holders of entries
(`ReactiveEntries`), the root (`ReactiveRoot`), snapshots (`ReactiveSnapshots`), commit order (`ReactiveSupport`), the effect
trees (`ReactiveEffects`), whose generation an entry belongs to (`ReactiveOwnership`), what a disposal leaves (`ReactiveDisposal`)
and child fibers (`ReactiveChildren`). `ReactiveTheorems`, `ReactiveWaits`, `ReactiveReads` and `ReactiveFixpoint` state the
results over all runs. A section that does not fit the state is stuck, so that the step functions are total. Most lemmas about one
step have their premise in the conclusion (`Executes(c, fr, ch) ==> ...`): a precondition would be unfolded and asserted at every
call, also where the caller hides it.

Two things one might expect are false of the code, and the exact conditions are proved. Convergence needs every registration to be
under its provider's own label (`Aligned`), because a provider that starts or stops being active notifies its dependents under its
own label: `MisalignedStaysPending` gives a run that breaks it for every name and every other label. And disposing of an idle
fiber empties its effect list if and only if the fiber was Active or listed nothing, because `unload` skips the list of a fiber
that is not live (`DisposalLeaves`, `DisposalEmptiesIff`); so every service registered while no generation stands can outlive the
disposal (`StrayOutlivesDisposal`), and nothing else can (`DisposedHoldsStrays`).

`FiberDriver` has the driver of one fiber as the source has it, an object whose methods write its fields in place, with other
callers let in wherever the lock is not held. Its three ways to bring a fiber up to date are proved to amount to one function of
the fiber and what the registry gives. `Registries` has the two registries as objects.

**The effect tree** (`Disposables.dfy`, `EffectRuns.dfy`). `Disposables` has `effectEntry` and `disposableList` as classes, with
registration, bodies and teardown as methods over the heap, and proves in which order disposers run. `EffectRuns` is a step
machine for any number of goroutines registering, returning from bodies, calling handles and unloading the same fiber.

**Events** (`EventBus.dfy`, `OnceListeners.dfy`, `Waterfalls.dfy`, `WaterfallCalls.dfy`). The bus and the bailing dispatch as
classes; the claim and release of once-listeners and concurrent calls of `next` as step machines; the waterfall chain as objects
proved to compute a composition of functions.

**Configuration** (`Layers.dfy`, `Composition.dfy`, `Conservation.dfy`, `Provenance.dfy`, `LastWriter.dfy`, `Placement.dfy`,
`Acceptance.dfy`, `Composer.dfy`, `TreeLoad.dfy`). `Layers` says as values what every function of the composer computes;
`Composer` and `TreeLoad` run it with the loops of the code; the others prove what composition guarantees. `LastWriter` reads off
the layers alone, without composing them, which patches address an id, and proves that the composed node holds exactly what that
list says; `Placement` reads off in the same way where every inserted node goes, and `Acceptance` which layers are refused.

Where the documentation and the code differ the model follows the code: a service read through a snapshot is said to stay visible
until the fiber re-resolves, but a disposer deletes the *name* from its provider's snapshot whatever binding is there
(service.go:99), and the model does the same.

## Model

| member | source | states |
|---|---|---|
| ReactiveTheorems.QuiescentConsistency | fiber.go:454-505 | in every aligned run, with nothing in flight, every fiber in service records exactly the epoch the registry would give now; Active only if every injected service resolves, Pending only if one does not, otherwise Failed |
| ReactiveTheorems.ServedIff | service.go:186-201 | in every aligned run, with nothing in flight, a fiber in service records a generation exactly if, for every injected name, an available registration of that name by an active provider stands under the label its scope gives the name; and its epoch names those providers and registrations |
| ReactiveTheorems.SingleDriver | fiber.go:442-451 | at most one activation is inside the transition driver of a fiber, and `busy` says exactly whether there is one |
| ReactiveTheorems.NoLostRequest | fiber.go:402-434 | when the driver lets a fiber go, every request was followed by a pass that started after it; only a Dispose still on its way to its refresh can have left a mark; a forced reload is never dropped |
| ReactiveTheorems.PassesBounded | fiber.go:409-434 | one drive makes at most one pass more than it was asked for while it ran, and a running pass covers every request that did not mark the fiber again |
| ReactiveTheorems.RestingStates | fiber.go:586-648 | between passes an undisposed plugin fiber is Pending, Active or Failed, live exactly when Active, holds a snapshot exactly then, and lists nothing a body registered when not live |
| ReactiveTheorems.BodyStartsClean | fiber.go:616-636 | a body starts only with no started generation, nothing listed by one, and a snapshot made of what the epoch names and the fiber's own services |
| ReactiveTheorems.ForceEndsGeneration | fiber.go:468-477 | once the driver of an undisposed fiber took a force mark, it is not at the end of a pass before nothing of the standing generation is left |
| ReactiveWaits.RestartReloads | fiber.go:817-842 | a call of Restart or Update is not lost: before everything is at rest the driver has taken the mark and nothing of the standing generation was left, unless the fiber was disposed of |
| ReactiveWaits.LooksBeforeCommit | fiber.go:597-622 | a generation commits only to bindings each of which was seen available and of an active provider since this load began |
| ReactiveWaits.FailureReported | fiber.go:668-687 | between passes a fiber whose last load failed still has its error, unless a forced reload of it is on its way |
| ReactiveTheorems.GenerationsEndUnwound | fiber.go:689-717 | a started generation ends only in the last section of an unwind, and by then every effect the fiber ever made is finished, or in the hands of an activation that tears it down, or part of the tree of such an effect |
| ReactiveWaits.TeardownWaits | fiber.go:704-706 | a driver does not go past the list it cleared before every entry of it has been finished, whoever ran its disposer, or is left to its running body with the request on it |
| ReactiveWaits.ChildrenFirst | fiber.go:365-384 | no entry is finished before every effect made through its scope is, or is left to its running body with the request on it |
| ReactiveTheorems.RegisteredUnfinished | service.go:93-109 | in no state of any run does the registry hold a finished entry |
| ReactiveTheorems.DisposalFinal | fiber.go:785-812 | once no driver and no Dispose of a disposed fiber is in flight, it is Disposed with no snapshot and nothing live, and lists only what no running body listed; the root lists nothing |
| ReactiveTheorems.StartedDisposalEmpties | fiber.go:689-717 | disposing of a fiber whose body's generation started leaves its effect list empty |
| ReactiveTheorems.DisposalLeaves | fiber.go:689-717 | disposing of an idle fiber leaves an empty list if it was live, and otherwise exactly what it listed, but what finished meanwhile through its own handle |
| ReactiveTheorems.DisposalEmptiesIff | fiber.go:689-701 | with nothing released meanwhile, the list is empty afterwards if and only if the fiber was Active or listed nothing |
| ReactiveTheorems.DisposedHoldsStrays | fiber.go:689-717 | with nothing in flight, whatever a disposed fiber still has, registered services included, it made while no generation of it stood |
| ReactiveTheorems.ServiceNeedsParent | fiber.go:176-206 | with nothing in flight, a child fiber nobody disposed of has an Active parent, the root included, or was loaded while no generation of its parent stood: unloading or disposing of a parent takes its children along |
| ReactiveTheorems.NeverSupportCycle | service.go:145-150 | in no state of any run, whatever is in flight, do generations support each other in a cycle |
| ReactiveTheorems.DisposalTerminal | fiber.go:735-741 | no step makes a disposed fiber live again or moves it out of its final state |
| ReactiveTheorems.ClaimsConserved | registry.go:184-214 | a runtime's claims are exactly the loads in flight on it, and a definition is registered exactly while its runtime has a claim or a fiber |
| ReactiveTheorems.OneRuntimePerDefinition | registry.go:184-214 | two runtimes of one definition are never both in use |
| ReactiveTheorems.SnapshotsAgree | context.go:268-293 | at quiescence reading through the snapshots of the ancestor chain gives exactly what the live registry gives for the caller's label |
| ReactiveTheorems.ResolveKeepsScope | context.go:268-293 | in every state of every run a service read is of the asked name and label and passes its availability predicate; which binding it is, `ReactiveReads` says |
| ReactiveReads.ReadsNearest | context.go:268-293 | a read gives what the nearest fiber on the way up shows, among those whose scope gives the name the same label: an available binding in its snapshot, whatever state its provider is in |
| ReactiveReads.ReadsRegistry | context.go:268-293 | if nobody up to where the label changes shows anything, a read gives the available registration of an active provider, if there is one |
| ReactiveReads.PinnedReads | context.go:268-293 | from the commit of a generation to the end of its unwind, whatever its providers do meanwhile, an available binding in its snapshot is what the fiber reads under its own label, and it is the one whose key the committed epoch names or one the fiber registered itself |
| ReactiveReads.SnapshotEnds | fiber.go:707-710 | a snapshot is given up only in the last section of the fiber's own unwind |
| ReactiveReads.ProviderSees | service.go:80-88 | a provider with a snapshot reads its own service at once, before anybody is notified |
| ReactiveReads.WithdrawnUnseen | service.go:93-101 | after a disposer has taken the name out of its provider's snapshot, that snapshot shows nothing for it |
| ReactiveFixpoint.ActiveIsLeast | fiber.go:561-580 | at quiescence, with no failed body and no service registered while its plugin had no generation, the active plugins are the least set closed under the dependency relation; services made through an effect scope are included |
| ReactiveFixpoint.OrderIndependent | fiber.go:561-580 | two quiescent states of any two runs that fit one static description have the same active plugins, whatever the order of loading and the interleaving |
| ReactiveSupport.SupportGrounded | service.go:52-60 | whatever is in flight, what a standing generation makes, nested or not, is younger than every binding it loaded against, so support strictly increases the commit sequence |
| ReactiveSupport.NoSupportCycle | service.go:145-150 | a state with that order has no cycle of generations each of which committed to something the one before made |
| ReactiveCounterexamples.MisalignedStaysPending | fiber.go:758-762 | for every name, registered under any label but its provider's own, a run that ends with nothing in flight and a plugin pending although every service it injects resolves |
| ReactiveCounterexamples.StrayOutlivesDisposal | fiber.go:689-701 | for every service name and label, a run after which a disposed fiber is final with nothing in flight and still holds that service, registered while it was pending |
| ReactiveWf.NextWf | fiber.go:60-114 | no step breaks a reference: waiting activations stay executable, and inject set, scope, runtime and binding identity never change |
| ReactiveDriver.ForeignStep | fiber.go:402-466 | what an activation that does not drive a fiber may do to it: its generation is the driver's alone |
| ReactiveQuiescence.ConsistentStep | fiber.go:454-505 | every step keeps: a fiber whose recorded epoch does not match the registry is owed a pass, by its own mark or by a notification in flight |
| ReactiveQuiescence.OwedKept | service.go:256-266 | an owed pass stays owed until the fiber's driver starts one |
| ReactiveQuiescence.FlipCovers | fiber.go:735-762 | when a provider starts or stops being active, its announcement reaches every fiber that can see a difference |
| ReactiveQuiescence.UnregisterCovers | service.go:93-101 | when a registration is withdrawn, the notification that follows reaches every fiber that can see a difference |
| ReactiveRuntimes.RuntimesStep | fiber.go:868-889 | every step keeps claims equal to loads in flight and published, undisposed fibers in their registered runtime |
| ReactiveLifecycle.LifeStep | fiber.go:586-717 | every step keeps what each program counter of the driver knows about its generation |
| ReactiveRequests.RequestsStep | fiber.go:402-466 | every step keeps what each pass owes to the requests recorded so far |
| ReactiveEntries.HoldersStep | service.go:45-109 | every step keeps one holder per registration or withdrawal of a service entry, with the phase its holder relies on |
| ReactiveEffects.TreeStep | fiber.go:303-384 | every step keeps: an entry nobody asked to tear down is listed, about to be drained, or owned by an unfinished entry; one in transit is in somebody's hands; listed are unfinished entries of the fiber itself |
| ReactiveOwnership.TracedAfter | fiber.go:303-323 | every step keeps: what a fiber's list or drain reaches, nested entries included, was made by its standing generation or while none stood |
| ReactiveOwnership.SlotsStep | service.go:86-109 | every step keeps: slots hold unfinished registrations, and a disposer that withdrew its registration stays off its slot |
| ReactiveOwnership.UnreachedGoing | fiber.go:365-384 | where a fiber reaches nothing any more, every effect it ever made is finished, being torn down, or below such an effect |
| ReactiveDisposal.StalledLeaves | fiber.go:689-701 | a disposed fiber with nothing live never unwinds: every step keeps its list, but what finishes |
| ReactiveChildren.ChildrenStep | fiber.go:176-206 | every step keeps: a published child has a slot in its parent's effects, attached before the slot's body returns, and the slot's teardown ends only after the child is disposed of or about to be |
| ReactiveRoot.RootStep | fiber.go:806-809 | the root is active until disposed of, and its disposal runs to the end in the disposing call |
| ReactiveRoot.RootAtRest | fiber.go:806-809 | with nothing in flight the root is Active and live, or Disposed with an empty list and no snapshot |
| ReactiveSnapshots.SnapStep | service.go:80-101 | every step keeps a snapshot made of what the epoch names and of the fiber's own registrations |
| ReactiveSnapshots.ResolvesLive | context.go:268-293 | if every snapshot holds live registrations, the ancestor walk and the registry agree |
| Epochs.EpochFaithful | fiber.go:561-580 | two epoch strings are equal exactly if every name resolves to the same provider and registration, and no satisfied epoch is the sentinel |
| Epochs.ResolveInjections | fiber.go:561-580 | bindings and epoch come from one pass; the epoch is the sentinel exactly if some name does not resolve, and otherwise encodes the current bindings |
| Epochs.DecimalDigits | fiber.go:574-577 | printed numbers are digits only and read back as themselves |
| Epochs.EncodeInjective | fiber.go:566-578 | the separators make the encoding uniquely readable |
| FiberDriver.FiberCell.Drive | fiber.go:409-434 | with refreshes, restarts, disposals and changes of the registry arriving between its sections, a drive ends with the fiber final if it was disposed of and otherwise with the epoch the registry gives, unless a change is still to be announced; it takes at most one pass more than arrivals; undisturbed, it is one pass and leaves exactly the reconciled fiber |
| FiberDriver.FiberCell.Sync | fiber.go:454-505 | undisturbed, the three ways of `sync` amount to one function: the standing generation goes unless it is the wanted one and no reload is forced, and the wanted one is loaded; a disposed fiber is unloaded and final |
| FiberDriver.FiberCell.Reload | fiber.go:532-555 | the old generation goes and is forgotten before the new one is resolved |
| FiberDriver.FiberCell.Load | fiber.go:586-648 | a load commits epoch and snapshot together and runs one body; it gives its claim back if a provider died meanwhile, unloads if the fiber was disposed of, and leaks nothing if the body fails |
| FiberDriver.FiberCell.Fail | fiber.go:668-683 | a failed load tears down all it listed, newest first, and the fiber becomes Failed unless disposed of |
| FiberDriver.FiberCell.Unload | fiber.go:689-717 | a live generation's entries are torn down newest first, each once; where none is live nothing is torn down; a disposed fiber ends final |
| FiberDriver.FiberCell.ResolveInjections | fiber.go:561-580 | if the registry did not change meanwhile, the walk returns exactly what it gives for every injected name, or finds one that is missing |
| FiberDriver.FiberCell.Refresh | fiber.go:402-406 | refreshing an idle fiber settles it |
| FiberDriver.FiberCell.Restart | fiber.go:817-825 | refused on a disposed fiber; otherwise the generation goes even if it is the one wanted |
| FiberDriver.FiberCell.Dispose | fiber.go:785-812 | disposing of an idle fiber empties its list if and only if it was live or listed nothing, and is idempotent |
| FiberDriver.ReconciledTwice | fiber.go:479-505 | a second pass against the same registry changes nothing |
| FiberDriver.ReconciledConserves | fiber.go:532-555 | over a pass no entry is lost or torn down twice: what is listed or was torn down is what was before and what the body listed |
| Registries.ServiceRegistry.Allocate | service.go:145-150 | identities are handed out in increasing order |
| Registries.ServiceRegistry.RegisterService | service.go:152-165 | the second registration under a label fails and changes nothing |
| Registries.ServiceRegistry.UnregisterService | service.go:167-173 | only the binding that holds the slot leaves it |
| Registries.ServiceRegistry.LookupSlot | service.go:175-190 | a binding of another name under the label is not found |
| Registries.ServiceRegistry.NamesOf | service.go:243-253 | exactly the names of the provider's registrations |
| Registries.RuntimeRegistry.Load | registry.go:135-170 | a load the parent refuses leaves the registry as it was, and an accepted one adds its fiber and no claim; a definition is registered exactly while its runtime is in use |
| Registries.RuntimeRegistry.RemoveFiberOf | fiber.go:877-889 | keeps a definition registered exactly while its runtime has a fiber or a claim, and touches no other registration |
| Registries.RuntimeRegistry.SnapshotFibers | fiber.go:892-900 | exactly the fibers of registered runtimes |
| Disposables.TeardownReversesAll | disposable.go:211-233 | unwinding effects whose bodies registered only through their own scope runs the disposers in the reverse of the order in which the bodies completed |
| Disposables.Generation | fiber.go:303-384 | a whole generation, registered and torn down over the heap, runs its disposers in the reverse of completion order |
| Disposables.RunDisposer | fiber.go:365-378 | a request is deferred while the body runs, and a request on a done entry runs nothing; otherwise the disposer runs once, before those of its children, newest first, and the entry is done |
| Disposables.TeardownOnce | disposable.go:136-146 | tearing down an entry that was torn down runs nothing |
| Disposables.UnwindChildren | fiber.go:380-384 | children are torn down newest first, each recursively, and each is left released |
| Disposables.UnwindCleared | fiber.go:704-706 | the cleared list is torn down newest first |
| Disposables.RunBody | fiber.go:303-349 | a body that registers nested effects leaves exactly their tree and completes after all of them |
| Disposables.RunNested | fiber.go:303-349 | a nested effect is published under its owner before its body runs, after its elder siblings |
| Disposables.Register | fiber.go:303-349 | a top-level effect is published in the list before its body runs |
| Disposables.EffectEntry.Adopt | disposable.go:88-97 | only an entry whose body runs takes ownership, and the child comes last |
| Disposables.EffectEntry.FinishBody | disposable.go:100-104 | the scope closes and nothing else changes |
| Disposables.EffectEntry.Detach | disposable.go:107-117 | the first occurrence goes, the others keep their order |
| Disposables.EffectEntry.RequestDispose | disposable.go:121-131 | ready exactly if the disposer is installed; otherwise deferred unless done |
| Disposables.EffectEntry.ClaimDispose | disposable.go:136-146 | the first claim gets disposer and children, a later one nothing |
| Disposables.EffectEntry.SetDispose | disposable.go:150-155 | installs, and says whether a teardown was requested meanwhile |
| Disposables.EffectEntry.Abandon | disposable.go:161-169 | a failed body's entry is done and its children are handed over |
| Disposables.DisposableList.Add | disposable.go:184-189 | the entry comes last under a fresh handle |
| Disposables.DisposableList.Remove | disposable.go:189-198 | reports whether it was listed; the others keep their order |
| Disposables.DisposableList.Snapshot | disposable.go:203-222 | the entries in registration order |
| Disposables.DisposableList.Clear | disposable.go:226-233 | empties the list and returns what it held, newest first |
| EffectRuns.RunsAtMostOnce | disposable.go:136-146 | in every interleaving a disposer runs at most once, and never before its body returned |
| EffectRuns.NoOrphan | fiber.go:303-384 | a registered entry is done, linked under a live owner or in the list, held by an activation bound to tear it down, or its request waits for its running body |
| EffectRuns.RequestedRan | disposable.go:121-155 | with nothing in flight a requested teardown has run exactly once, unless the body failed before it produced a disposer |
| EffectRuns.EmptyMeansDone | fiber.go:702-706 | with nothing in flight and an empty list every entry ever registered is done and every disposer produced has run exactly once |
| EffectRuns.HandlesWait | fiber.go:350-357 | a handle removes its entry only after the cleanup is complete, whoever ran it |
| EventBus.Bus.Add | events.go:146-154 | prepended listeners come first, others last; other events are untouched |
| EventBus.Bus.Remove | events.go:156-169 | the listener is gone, the others keep their order, an event without listeners disappears |
| EventBus.Bus.Select | events.go:180-192 | the registered listeners that pass the scope, in registration order: global ones, and those whose context gives the scope name the emitter's label; all of them if there is no scope |
| EventBus.FilteredInOrder | events.go:180-192 | a selection takes exactly the positions whose listener passes, strictly increasing |
| EventBus.Bus.Invoke | events.go:219-234 | a spent once-listener counts as returning nil; one that ran leaves the bus and its owner's effect list |
| EventBus.Bus.Bail | events.go:284-299 | the first registered listener in order that passes the scope, may run and returns neither nil nor false decides; if there is none, each of them panics or returns nil or false; only listeners looked at are touched |
| EventBus.DecidedAnswers | events.go:284-299 | the decision over the selected listeners is the answer over the registered ones: no listener that passes and comes before the deciding one has anything to say |
| EventBus.Listener.Claim | events.go:197-199 | a once-listener is handed out once |
| OnceListeners.BodyAtMostOnce | events.go:197-199 | across any number of dispatchers the body of a once-listener runs at most once |
| OnceListeners.AlwaysReleased | events.go:209-217 | when all are through, a listener that fired was released and its cleanup was run by one side or the other |
| Waterfalls.Waterfall | events.go:350-366 | the chain returns the composition of its listeners around the final function; if every listener only hands on or takes no part, that is what the final function says of the payload, nil if it panics or is absent; each listener and the final function ran at most once |
| Waterfalls.WaterfallStep.CallStep | events.go:387-415 | the first call settles the step; every later call returns the settled result and runs nothing |
| Waterfalls.WaterfallStep.RunStep | events.go:417-460 | skipped and panicking listeners fall through to the successor, a returning one decides |
| Waterfalls.CallsSettleOnce | events.go:387-447 | however often a body calls next it gets the result of its first call, and a later panic leaves that result |
| Waterfalls.ChainMaps | events.go:425-460 | where every listener calls next once and maps payload and result, the final function gets the payload mapped first to last, and its result comes back mapped last to first |
| Waterfalls.TransparentDrops | events.go:417-430 | a listener whose claim fails, or that panics before calling next, can be left out anywhere in a chain |
| Waterfalls.VetoCuts | events.go:96-101 | a listener that returns without calling next makes whatever comes after it irrelevant, whatever comes before; with nobody before it the chain returns what it returned |
| WaterfallCalls.EnteredAtMostOnce | events.go:387-415 | in every interleaving of concurrent and saved calls each listener and the final function are entered at most once |
| WaterfallCalls.SameResult | events.go:387-415 | all calls of one step that ever return give the same result |
| WaterfallCalls.ExactlyOneOwner | events.go:387-415 | a started, unsettled step has exactly one owner, so no call waits for a result nobody computes |
| Composition.IndexIsFind | loader/loader.go:557-576 | the id index of a composed tree has exactly the non-empty ids, each at the node `Find` returns |
| Composer.EntriesKeepIndex | loader/loader.go:508-526 | the same after every applied entry of every layer, even when a nested insertion places new nodes before older ones |
| Composition.StrictRefines | loader/loader.go:174-235 | strict composition succeeds exactly if the other one succeeds with no warnings, and then both give the same state |
| Acceptance.ComposesIff | loader/loader.go:174-206 | layers compose exactly if no entry at any depth mixes `insert` with other fields, every patch that is looked at has an id, and every entry that goes in can be created; read off the layers alone |
| Acceptance.ValidIsUnmixed | loader/loader.go:257-296 | validation refuses exactly the layers in which some way through `plugins` and `insert` ends at an entry that has more than an `insert` |
| Acceptance.RepeatsReported | loader/loader.go:482-503 | the nodes of a composed tree that carry an id are the indexed one and as many more as warnings report it repeated |
| Acceptance.StrictIdsUnique | loader/loader.go:482-503 | in a strict composition no two nodes carry the same id |
| Provenance.NothingLost | loader/loader.go:309-391 | there is a forest of the nodes as they were declared, in the places of the composed ones: with what skipped and unmatched entries would have declared it holds exactly the entries of the layers, each with its fields and its layer, and each composed node is its declared one overridden by the patches that hit it |
| Conservation.LayerKeepsNodes | loader/loader.go:336-391 | no layer removes, moves or renames a node, or drops a hit from its patched list |
| Conservation.CreateDeclares | loader/loader.go:397-449 | the nodes an entry expands into are exactly those it declares, with its fields and its layer |
| Placement.CreatesInOrder | loader/loader.go:397-449 | an entry becomes a node exactly if it and every entry below it have an id or a name; the node holds what the entry declares and has one child for each of them, in order, insertions expanded in place |
| Placement.PatchPlaces | loader/loader.go:385-389 | a patch leaves the roots alone, adds children only to nodes that it or a patch nested in it addresses, and appends what is inserted directly below it, in order, to the children of the node it addresses |
| Placement.InsertPlaces | loader/loader.go:340-368 | an insertion at the top of a layer appends roots, in order, and adds no child to any node that was there |
| Placement.RootsInOrder | loader/loader.go:174-206 | the roots of a composed tree are the base entries and top-level insertions of the layers, in order |
| Placement.KidsInOrder | loader/loader.go:336-391 | the children of a node that is the only one with its id are those it was given so far and then what the later layers insert below that id, in order |
| LastWriter.NodeIsItsEntry | loader/loader.go:309-391 | a node that is the only one with its id holds what one declared entry says, overridden by the patches of the layers that address the id, read off the layers alone |
| LastWriter.LastLayerWins | loader/loader.go:456-477 | after more layers every field of such a node has the value of the last of their patches that address its id and mention the field, and `Patched` grew by exactly the layers that address it, in order |
| LastWriter.LastMentionWins | loader/loader.go:456-477 | of patches applied in order, the last that mentions a field decides it |
| Composer.Compose | loader/loader.go:174-206 | the loops of the composer compute the specified result, error or state; which that is, `Acceptance`, `Provenance`, `LastWriter` and `Placement` say of the layers alone |
| Composer.TreeComposer.ApplyPatch | loader/loader.go:336-391 | the recursive patch over tree, index and warnings computes the specified result, nested insertions under the node the patch addresses (`PatchPlaces`) |
| Composer.TreeComposer.InsertEntries | loader/loader.go:340-368 | insertion skips duplicates with a warning and rebuilds the index once anything went in |
| Composer.TreeComposer.ApplyBase | loader/loader.go:309-334 | base entries become roots and are indexed |
| Composer.TreeComposer.IndexNode | loader/loader.go:482-503 | duplicates in a new subtree are errors or warnings and never replace an indexed node |
| Composer.TreeComposer.RebuildIndex | loader/loader.go:508-526 | the walk rebuilds the first node of every id in depth-first order |
| Composer.TreeComposer.CheckNonGroupChildren | loader/loader.go:212-235 | every entry with children that is no group is reported |
| Composer.TreeComposer.ApplyLayer | loader/loader.go:186-200 | a layer with a mixed entry anywhere is refused before any entry is applied |
| Composer.CreateNode | loader/loader.go:397-449 | a nested insert expands into sibling children, and an unusable entry at any depth is refused |
| TreeLoad.JobsExact | loader/loader.go:725-774 | exactly the enabled entries that are no groups under enabled groups are loaded, each once, in depth-first order |
| TreeLoad.JobAtMeans | loader/loader.go:725-748 | an entry is loaded exactly if it is enabled and no group and every node on the way to it is an enabled group; it is loaded under the injects of those groups and its own, in order, and in the scopes they are called by |
| TreeLoad.MirrorClosesAll | loader/loader.go:706-723 | a log whose second half takes back the first read backwards leaks nothing: what an event leaves is disposed of exactly once and later, the last first, and nothing else is |
| TreeLoad.Loader.Load | loader/loader.go:706-723 | on success exactly those are loaded, each with its ancestors' injects before its own; on failure every fiber that came out of the load, the failing one's included, is disposed of exactly once, newest first, and nothing else is |
| TreeLoad.Loader.LoadNodes | loader/loader.go:725-774 | the recursive walk loads up to its first failure and no further |
| TreeLoad.StrictTreesLoad | loader/loader.go:212-235 | a tree from a strict composition never fails to load for children on an entry that is no group |

## Left out

- JSON decoding, files, `dump.go`, the command line tools, logging, error texts, typed wrappers and `reflect` checks: I/O and formatting without hard properties.
- `context.Context` cancellation, done channels and `Parallel`'s goroutines: only the `disposed` flag they mirror is modelled.
- Real mutexes and `sync.Once`: a critical section is one atomic step, and a once is a blocking run-once primitive. A handle's own outer once is left out, which only adds interleavings.
- The reactive machine lets a caller run ahead of an activation it started; it has more runs than the code, so every safety statement carries over, and termination of cascades is not claimed.
- Availability predicates are constant: an availability change notifies nobody in the code. `Set` appears only as an arbitrary notification.
- A panic that escapes `drive` is left out: it drops the rerun mark in the code, so the no-lost-request results exclude it.
- A child that is disposed of on its own releases its slot in the parent (`finalizeDispose`): in the machine that is one of the calls of a handle that anybody may make at any time, so that the slot is gone afterwards is not claimed.
- A busy fiber: what a disposal leaves when it marks a fiber whose driver is at work depends on where the driver is; `DisposalFinal` and `DisposedHoldsStrays` hold for it, `DisposalLeaves` speaks of idle fibers.
- `PvAbort` compresses the disposer that a failed registration runs, which does nothing.
- Fiber and core objects: the step machine keeps them as values. `FiberDriver` has one fiber in place, with the rest of the application as a registry that may change and a sequence of arrivals; `Registries` has the registries without their lock.
- FiberDriver.FiberCell.Drive: assumes that a change of the registry is announced by a refresh, sooner or later; that the notifications do so is what `ReactiveTheorems.QuiescentConsistency` proves of the machine. Effects a body makes through scopes are listed with their owner only, and effects that other goroutines put on or release from the list during a drive do not arrive; the step machine has both.
- ReactiveTheorems.QuiescentConsistency: holds for aligned runs only; `MisalignedStaysPending` shows why.
- ReactiveFixpoint.ActiveIsLeast: takes as premises that no body failed, that active fibers have registered exactly what their plugin provides (bodies are arbitrary, so this cannot be derived), and that no registered service was made while its plugin had no generation.
- EventBus.Bus.Bail: listener bodies are functions here and do not touch the bus during the dispatch; what concurrent dispatches and removals do to one listener is in `OnceListeners`.
- LastWriter.LastLayerWins: where two nodes carry one id, the patches go to the first one in depth-first order at that moment; `Provenance.NothingLost` covers those nodes, hit by hit.
- Cleanup cycles between disposers and a `next` leaked into its own step deadlock in the code and are assumed absent in the sequential models.
- Waterfalls.Waterfall: a body calls `next` finitely often; whether a claim succeeds is an input of each step.
- Configuration nodes are values named by their path, so aliasing of config maps (`cloneMap`) is not modelled; paths never change their meaning, which `LayerKeepsNodes` proves.
- Resolution order of injected names is arbitrary in the machine; only `ResolveInjections` fixes it.
