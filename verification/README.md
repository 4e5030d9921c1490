# Surge External Bridge: a verified model

The gateway runs an embedded proxy core, publishes the nodes of its subscriptions as local SOCKS
identities, and updates its own executable. This project models the protocols behind that in Dafny
and proves what they keep. `dafny verify dfyconfig.toml` checks everything.

The modules follow the program:

| module | models |
|---|---|
| `UpdateTransaction` | the journalled replacement of the executable: install, rollback and recovery, with a failure or a crash possible at every step, and journal writes that can fail before or after taking effect |
| `UpdateGate` | the write freeze: management handlers, the freeze and the worker interleave one step at a time |
| `ProviderFilter` | one provider: native content is staged and becomes visible only by acceptance |
| `ProviderCache` | the two-phase commit of any number of cache files, with reverse rollback and retry |
| `ProviderHosts` | alias closure of a hosts section, its resolver, and the merge over all providers |
| `Projection`, `DisplayNames` | the published snapshot, its identities, names and lookups |
| `Manager` | the runtime manager and the process it shares: start, apply, reorder, settings, refresh, poll, stop, fail closed |
| `Configuration` | the stored configuration, what the runtime is set up with, and the changes made to it |
| `Publication` | readers under the publication lock against writers and background refreshes |
| `App` | configuration changes that must agree on disk, in memory and at run time, each a run of `Publication` |
| `Associations`, `Handshakes` | the UDP association registry (section 7 of RFC 1928) and the handshake limiter |
| `NodeDns` | parsing, order and first-match selection of node DNS rules |
| `PolicyPaths` | references from policy paths to providers, and reordering |
| `SystemdUnit` | quoting of the service's command line and reading it back |
| `Text`, `Common` | shared lists, strings and result types |

State machines are functions of values, and their runs are the subject of the lemmas. Where the program
changes state in place, a class does: those of `ProviderFilter` and `Associations` are proved to take
exactly the steps of their machines, and every operation of the class in `App` extends a recorded run of
the machine in `Publication` by steps it allows, with any number of readers' steps and refreshes between
its calls. The order in which the manager takes the publication lock and changes what readers see is part of
its contracts. `UpdateTransaction`, `ProviderCache`, `Manager` and
`Handshakes` state invariants of their classes directly; `UpdateGate` is a machine of interleaved steps
without a class. Failures of the outside world (a rename, a write, a socket, the core) are
nondeterministic choices, so a contract covers every combination of them. Ghost counters record
them, so a contract also says what happens when there are none, or one.

## What the proofs show about the code

- The write freeze (`internal/update/manager.go:141-144`) has one hole, with its exact condition in
  `UpdateGate.FreezeHoldsInEveryRun`: a worker whose last `rolled_back` write took effect but reported
  an error overwrites it with `recovery_failed`, which turns the journal active again under a handler
  admitted in between. `UpdateGate.ReopeningBreaksTheFreeze` is such a run.
- After one failure, other than of a stop, the first run of an update leaves a service running
  (`UpdateTransaction.Transaction.RunTransaction`). A stop that fails is journalled as failed and may leave
  the service stopped: nothing starts it again.
- A change of settings whose save fails and whose runtime rollback fails too stops the data plane and
  leaves the rejected settings in its options. This breaks the agreement of disk, memory and runtime
  exactly when the change differs in a setting of the runtime (`App.App.UpdateSettings`,
  `Publication.ChangeLosesExactlyWhenNew`), and settings that are lost in this way are exactly those
  that any reader can still be served without a further failure (`Publication.ServedExactlyWhenLost`).
  After a *refused* start of a stopped data plane the restoration cannot fail (`App.App.AfterRefusal`);
  the error branch for it is never taken.
- Without a listener the snapshot need not be empty. In the application it can be replaced exactly while
  the manager keeps a configuration, as it does when its listener could not be bound
  (`Publication.UnservedSnapshot`). In a manager by itself it even outlives that configuration, when the
  next start fails its checks (`Manager.SnapshotOutlivesConfiguration`; the exact runs are those of
  `Manager.SnapshotWithoutListener`).
- The manager's reordering publishes any list it can project, but keeps the hosts resolver. The resolver
  is identified by the definitions it was merged from; so identified, the two agree afterwards exactly when
  the list names the same providers (`Manager.Manager.ReorderProviders`). A list that does not is the one
  without its last provider (`Manager.Manager.ShorterListDisagrees`), whose actual mapping can still be the
  same one. The application only asks for permutations.
- Rendering a unit refuses NUL, carriage return and line feed in a path. Of these only the line feed
  would have been lost when the unit is read back; what is not refused but lost is a byte that is not
  UTF-8, which is read as the replacement character (`SystemdUnit.ReadsBackExactly`,
  `SystemdUnit.InvalidByteIsLost`).
- Renaming a provider keeps a policy path valid exactly when the path does not already select the new
  name (`PolicyPaths.RenameKeepsReferences`); validation rejects the other case as a duplicate provider.

## Assumptions

- A digest stands for the contents it is taken from (digests are injective), and a release differs from
  the installed executable.
- Until its phase is final the previous version does not rewrite its configuration (that is the write
  freeze); a serving candidate may, at any time.
- The resolver library returns alias targets without a trailing dot, and its domain trie is a match
  relation with a strict priority.
- Domains are lower-cased as ASCII.
- Native provider content changes only when a provider is updated, under the manager's lock, and every
  new version brings new adapters.
- Whether a projection, a hosts merge or a DNS policy can be built is a function of the inputs (for the
  first two as `Manager.ProjectionIsOrderFree` and `Manager.MergingIsOrderFree` tie it to their modules).
- Paths of a unit are byte strings; other texts are Unicode strings.

## Model

| member | source | states |
|---|---|---|
| UpdateTransaction.Transaction.LaunchesAreAdmitted | internal/update/worker.go:202-215 | in every valid history every launch happened under a durable phase that lets a process start, of a service only, and every replacement under the lock on the inode replaced |
| UpdateTransaction.StartsAreSupervised | internal/update/worker.go:202-215 | a process may start exactly when no update is active or a worker is waiting for it |
| UpdateTransaction.Transaction.constructor | internal/update/manager.go:335-375 | an update begins on an untouched host, with no active journal |
| UpdateTransaction.Transaction.WriteJournal | internal/update/files.go:33-63 | a journal write has three outcomes: written, not written and failed, written and failed |
| UpdateTransaction.Transaction.Save | internal/update/transaction.go:30 | the in-memory phase changes even when the write fails |
| UpdateTransaction.Transaction.InstallStaged | internal/update/transaction.go:106-109 | the target becomes the staged file on its inode, recorded with the lock held, or nothing changes |
| UpdateTransaction.Transaction.RestoreTarget | internal/update/transaction.go:179-181 | the target becomes the kept binary, possibly with an error reported afterwards |
| UpdateTransaction.Transaction.RestoreConfig | internal/update/transaction.go:182-184 | the configuration becomes the saved one, possibly with an error reported afterwards |
| UpdateTransaction.Transaction.Stop | internal/update/worker.go:151-168 | after a stop nothing serves; a foreground run has nothing to stop |
| UpdateTransaction.Transaction.Start | internal/update/worker.go:169-175 | only a service is launched, from the target, and the launch is recorded with the durable phase |
| UpdateTransaction.Transaction.CheckFiles | internal/update/transaction.go:47-68 | an install goes on exactly when the staged file, and the target if its digest was recorded, are unchanged |
| UpdateTransaction.Transaction.ResumeBeforeInstall | internal/update/transaction.go:133-144 | before the replacement a failure ends in Failed with the target untouched; unless something else fails this is journalled, and a service runs its original program again |
| UpdateTransaction.Transaction.RunTransaction | internal/update/transaction.go:46-132 | every host on the way is Safe; success means the candidate installed, journalled and, as a service, running; with no fault it succeeds exactly when the files match; after one fault, other than of a stop, a service runs: as before if it was not stopped, else the original program again, or the candidate if only its success went unrecorded |
| UpdateTransaction.Transaction.Exchange | internal/update/transaction.go:77-131 | after one fault from the executable lock on, the original program of a service runs again and the journal says Failed or RolledBack, or the candidate runs with its success unrecorded |
| UpdateTransaction.Transaction.SwapTarget | internal/update/transaction.go:106-115 | the backups hold and the lock is given back when the target has been replaced |
| UpdateTransaction.Transaction.Replace | internal/update/transaction.go:106-131 | from the replacement on, an error ends in RolledBack or RecoveryFailed, unless the candidate has answered as the new version |
| UpdateTransaction.Transaction.TakeBackups | internal/update/transaction.go:82-105 | both backups hold the original bytes before "backed_up" is journalled |
| UpdateTransaction.Transaction.Launch | internal/update/transaction.go:119-131 | the candidate has answered exactly when the phase is "succeeded"; an unrecorded success is not rolled back |
| UpdateTransaction.Transaction.Rollback | internal/update/transaction.go:145-197 | the target is replaced only by the kept binary and never when its digest is neither the new nor the previous one; without faults the original is restored, journalled and running; with one fault the outcome is still journalled |
| UpdateTransaction.Transaction.CheckPrevious | internal/update/transaction.go:163-178 | without faults a rollback goes on exactly when backup and target are recognised |
| UpdateTransaction.Transaction.Restore | internal/update/transaction.go:163-196 | under the executable lock both files are put back and the original version is confirmed before "rolled_back" |
| UpdateTransaction.Transaction.Install | internal/update/manager.go:335-403 | a running manual instance is refused; a service update is journalled and the worker submitted, the host unchanged; a foreground update never starts or probes anything, and without faults succeeds exactly when the files match |
| UpdateTransaction.Transaction.Worker | internal/update/worker.go:83-198 | nothing happens unless the journal is active; without faults a prepared update ends installed, an interrupted one cancelled or rolled back, depending on its phase, with the service running; a first run with one fault, other than of a stop, leaves the service running |
| UpdateTransaction.Transaction.Recover | internal/update/worker.go:176-191 | before the replacement recovery cancels, after it it rolls back |
| UpdateTransaction.Transaction.Survive | internal/update/worker.go:83-198 | over a whole life of an update, with a crash at any point and any number of recoveries, every durable state is Safe: the target is the old or the new binary, the backups hold wherever the phase says so, and each phase tells the truth about files and configuration |
| UpdateTransaction.Transaction.Crash | internal/update/worker.go:83-98 | a crash leaves any host that was ever durable |
| UpdateGate.StepKeepsFreeze | internal/management/update.go:11-28 | exactly one step, reopening a rolled back journal under a writer, breaks the freeze |
| UpdateGate.CheckIsExact | internal/management/update.go:17-28 | an admitted request runs exactly when it is for the session, or the journal can be read and no update is in progress |
| UpdateGate.FreezeAndRestart | internal/management/update.go:11-13 | a freeze journals the update and lets the handlers go on, with no effect if the write fails; a restart forgets requests and freeze |
| UpdateGate.FreezeHoldsInEveryRun | internal/update/transaction.go:31-37 | in every interleaving no guarded handler executes while an update is active, if and only if no worker reopens the journal under a writer |
| UpdateGate.LockHoldsInEveryRun | internal/management/update.go:11-28 | in every run the freeze excludes every admitted handler |
| UpdateGate.PreparedMeansDrained | internal/update/manager.go:335-375 | when "prepared" becomes durable no admitted handler is left |
| UpdateGate.ReopeningBreaksTheFreeze | internal/update/transaction.go:147-151 | a run in which a handler writes while the journal is active |
| ProviderFilter.Partition | internal/mihomo/provider_filter.go:268-285 | the available and the dropped proxies are exactly the source, split by dialer |
| ProviderFilter.CandidateIsExact | internal/mihomo/provider_filter.go:266-293 | a candidate is the source, in its order, without what dials through another proxy; the report counts both and names the rest in order |
| ProviderFilter.AddressesStay | internal/mihomo/provider_hosts.go:70-86 | what the hosts section expects is kept, and every other address of the source is expected to stay itself |
| ProviderFilter.ContentIsReadOnce | internal/mihomo/provider_filter.go:233-252 | content that was staged, accepted or rejected is not read again by polling, which repeats the outcome; other content is read and remembered |
| ProviderFilter.EventsAreRead | internal/mihomo/provider_filter.go:87-99 | an update reads what it brings, unless it fails or brings what was rejected; a rejection is remembered and an acceptance forgets it |
| ProviderFilter.DiscardedAreClosed | internal/mihomo/provider_filter.go:253-304 | what was staged stays staged, is accepted or is closed, and of content that is read everything else is closed |
| ProviderFilter.StepKeepsInv | internal/mihomo/provider_filter.go:147-191 | every event keeps accepted and staged proxies open, distinct and without a dialer |
| ProviderFilter.OnlyAcceptanceIsVisible | internal/mihomo/provider_filter.go:165-191 | proxies, report and hosts of an accepted provider change at acceptance only, and become exactly the staged ones |
| ProviderFilter.AcceptedStayOpen | internal/mihomo/provider_filter.go:233-327 | over every run no accepted adapter is closed and none that dials through another proxy is visible |
| ProviderFilter.NewProviderStaysOpen | internal/mihomo/provider_filter.go:57-65 | the same over every run from a new provider on |
| ProviderFilter.NothingAcceptedNothingVisible | internal/mihomo/provider_filter.go:77-124 | a run without acceptance leaves an accepted provider as it was |
| ProviderFilter.FilteredProvider.CloseUncommitted | internal/mihomo/provider_filter.go:306-327 | closes exactly the candidates that are not committed |
| ProviderFilter.FilteredProvider.Split | internal/mihomo/provider_filter.go:268-285 | the loop computes the available proxies and the filtered names, and closes the rest |
| ProviderFilter.FilteredProvider.Sync | internal/mihomo/provider_filter.go:233-304 | one synchronisation takes exactly the modelled step, and reports an error exactly when the model does |
| ProviderFilter.FilteredProvider.Update | internal/mihomo/provider_filter.go:87-99 | an update takes exactly the modelled step, and succeeds exactly when the fetch and the hosts section do and the content was not rejected before |
| ProviderFilter.FilteredProvider.AcceptCurrent | internal/mihomo/provider_filter.go:165-174 | acceptance takes exactly the modelled step |
| ProviderFilter.FilteredProvider.RejectCurrent | internal/mihomo/provider_filter.go:176-191 | rejection takes exactly the modelled step |
| ProviderCache.LocalStepKeepsPlan | internal/mihomo/provider_hosts.go:156-210 | a change to one update's own files keeps the whole transaction's plan, even when two providers share an accepted path |
| ProviderCache.CommitKeepsPlan | internal/mihomo/provider_hosts.go:156-166 | committing the next update keeps the plan: every earlier one is still recoverable |
| ProviderCache.RollbackKeepsPlan | internal/mihomo/provider_hosts.go:168-196 | undoing the last committed update keeps the plan |
| ProviderCache.AllUndone | internal/mihomo/provider_filter.go:438-454 | when nothing is committed every accepted file has its content, or absence, from before |
| ProviderCache.StagingKeepsPlan | internal/mihomo/provider_hosts.go:130-154 | staging one more provider keeps the plan |
| ProviderCache.CacheUpdate.Commit | internal/mihomo/provider_hosts.go:156-166 | the candidate takes the accepted place, or nothing changes |
| ProviderCache.CacheUpdate.Rollback | internal/mihomo/provider_hosts.go:168-196 | the previous content or absence is back, or the update still owns its only copy; a second rollback does nothing |
| ProviderCache.CacheUpdate.Finish | internal/mihomo/provider_hosts.go:198-210 | an update gives up the files it no longer needs, but not the copy it may still have to restore |
| ProviderCache.CacheTransaction.Prepare | internal/mihomo/provider_filter.go:383-405 | every staged provider up to the first error is prepared, and nothing accepted has changed; unless a copy is refused it succeeds exactly when every source exists |
| ProviderCache.CacheTransaction.Stage | internal/mihomo/provider_hosts.go:130-154 | a provider's candidate and previous content are copied aside, or no trace is left |
| ProviderCache.CacheTransaction.Commit | internal/mihomo/provider_filter.go:407-426 | success, which only a refused rename can prevent: every accepted file holds its candidate; failure with successful rollbacks: every accepted file is as before |
| ProviderCache.CacheTransaction.Abandon | internal/mihomo/provider_filter.go:412-422 | the committed prefix is undone in reverse and the rest gives up its files |
| ProviderCache.CacheTransaction.UndoFirst | internal/mihomo/provider_filter.go:414-418 | undoing in reverse order keeps the plan whichever rollbacks fail |
| ProviderCache.CacheTransaction.Reject | internal/mihomo/provider_filter.go:438-454 | retried rollbacks that succeed leave every accepted file as before the transaction |
| ProviderCache.CacheTransaction.Accept | internal/mihomo/provider_filter.go:428-436 | accepted files keep their candidates, and no temporary file survives |
| ProviderHosts.BestOfSubset | internal/mihomo/provider_hosts.go:374-403 | a subset that holds the best match has the same best match |
| ProviderHosts.CanonicalForgets | internal/mihomo/provider_hosts.go:581-582 | one dot at the end and the case of letters do not tell names apart, and nothing else is forgotten |
| ProviderHosts.ClosureRefinesSection | internal/mihomo/provider_hosts.go:325-403 | if following the complete section succeeds, following only the collected mappings gives the same target, without cycle or depth error |
| ProviderHosts.ResolvesExactly | internal/mihomo/provider_hosts.go:581-610 | a host resolves to a target exactly when at most 65 different names lead there, each an alias of the next by its strongest mapping |
| ProviderHosts.FollowsExactly | internal/mihomo/provider_hosts.go:374-403 | the same for following a server through the complete section |
| ProviderHosts.TraceProviderHost | internal/mihomo/provider_hosts.go:581-610 | the loop of the live resolver computes the specified walk in at most 65 visits, and its aliases are exactly the names it was redirected to |
| ProviderHosts.HostCollector.CollectChain | internal/mihomo/provider_hosts.go:374-403 | the walk ends where the complete section leads, and has collected exactly the mappings it met |
| ProviderHosts.CanonicalPatterns | internal/mihomo/provider_hosts.go:340-356 | a hosts section is read exactly when its patterns are valid and none differ by case only |
| ProviderHosts.SectionIsUnique | internal/mihomo/provider_hosts.go:340-356 | the section by lower-case pattern is determined by the hosts |
| ProviderHosts.ExtractProviderHosts | internal/mihomo/provider_hosts.go:325-372 | without hosts or servers nothing is read; bad patterns are refused; otherwise success is exactly that every server can be followed, and collects exactly the mappings their walks meet, with the expected target of each |
| ProviderHosts.CollectedServersResolve | internal/mihomo/provider_hosts.go:325-403 | every server resolves through the collected mappings to its expected target |
| ProviderHosts.BuildProviderHostResolver | internal/mihomo/provider_hosts.go:433-501 | the merge succeeds exactly when the definitions are mergeable, and then every provider's servers get that provider's expected target |
| ProviderHosts.MergeableExactly | internal/mihomo/provider_hosts.go:463-466 | a provider whose source was unusable takes part exactly while it still has hosts |
| ProviderHosts.CheckExpected | internal/mihomo/provider_hosts.go:486-494 | the final check accepts exactly when every expected host resolves as expected |
| ProviderHosts.MergeIsUnique | internal/mihomo/provider_hosts.go:433-501 | the providers determine the merged mapping |
| ProviderHosts.OrderOfDefinitionsIsIrrelevant | internal/mihomo/provider_hosts.go:433-501 | success and the merged mapping are the same for every order of the definitions |
| DisplayNames.FirstFree | internal/mihomo/projection.go:312-321 | the inner loop ends for every input and finds the least free number |
| DisplayNames.NumberedReadsBack | internal/mihomo/projection.go:313 | a numbered name is the name, a dot in spaces and the number in decimal |
| DisplayNames.Disambiguate | internal/mihomo/projection.go:302-323 | in place: a name not used at its turn stays, another gets the least free number from 2, or from 0 if it was itself generated; the remembered counter changes nothing |
| DisplayNames.NamesAreDistinct | internal/mihomo/projection.go:302-323 | the resulting names are pairwise distinct |
| DisplayNames.ResultIsUnique | internal/mihomo/projection.go:302-323 | that promise leaves one result |
| Projection.BuildProjection | internal/mihomo/projection.go:151-250 | a snapshot is built exactly from admissible inputs, and holds every node that passes, and no other, with both indexes |
| Projection.EntriesAreTheNodes | internal/mihomo/projection.go:193-231 | the entries are exactly the nodes that pass the type, include and exclude filters, each once, in the order of providers and nodes, with identifier, user and password derived from the keys of provider and node, and the cleaned name, prefixed if asked for |
| Projection.BuildableExactly | internal/mihomo/projection.go:151-228 | a projection can be built exactly from usable options, named providers with different identifiers and names and filters that compile, and nodes with different derived identities |
| Projection.NamesAreSafe | internal/mihomo/projection.go:252-270 | every published name is without equals signs, control characters, outer white space or a comment sign in front |
| Projection.SurgeNameIsSafe | internal/mihomo/projection.go:252-270 | cleaning a name makes it safe and leaves a safe one alone |
| Text.TrimIsExact | internal/mihomo/projection.go:172 | trimming takes all white space at both ends and nothing else |
| Projection.CollectEntries | internal/mihomo/projection.go:159-231 | the nested loops collect the selected nodes in order, and fail exactly on invalid or duplicate providers, users or identifiers |
| Projection.IndexEntries | internal/mihomo/projection.go:234-239 | both maps index exactly the entries |
| Projection.BuildIsDeterministic | internal/mihomo/projection.go:151-250 | the inputs determine the snapshot |
| Projection.LookupIsScan | internal/mihomo/projection.go:333-341 | lookups agree with a linear scan; credentials are accepted exactly when an entry carries them |
| Projection.OrderKeepsIdentities | internal/mihomo/projection.go:188-228 | reordering providers changes neither whether a snapshot is built nor which identities it has |
| Projection.OrderKeepsRoutes | internal/mihomo/projection.go:392-402 | a user routed before a reordering is routed to the same node with the same password after it |
| Manager.ProjectionIsOrderFree | internal/mihomo/projection.go:151-250 | when projections are built as Projection specifies, the order of the providers does not decide whether one can be built |
| Manager.MergingIsOrderFree | internal/mihomo/provider_hosts.go:433-501 | when hosts are merged as ProviderHosts specifies, the order of the providers decides neither whether they can be merged nor what the merged mapping is |
| Manager.ContributionsAre | internal/mihomo/provider_hosts.go:439-466 | every listed provider contributes the hosts of its candidate, and whether its last source was unusable |
| Manager.AcceptPublishes | internal/mihomo/provider_filter.go:165-174 | accepting makes the visible states exactly the candidates the projection was built from |
| Manager.Manager.PublishedIsAccepted | internal/mihomo/config.go:231-253 | what is published are the providers of the options in order, each with its accepted proxies, under their settings, and the resolver holds exactly the accepted states of these providers |
| Manager.Manager.RunningIsAccepted | internal/mihomo/manager.go:330-363 | a running manager publishes in this way, and listens where its options say |
| Manager.ReorderedViews | internal/mihomo/manager.go:516-525 | a permutation of the definitions keeps the projection buildable and the hosts table the same |
| Manager.Manager.StartLocked | internal/mihomo/manager.go:170-363 | a start succeeds exactly when it ends with a listener, on an address it has bound, which only a fault, a running manager or a taken process can prevent; then snapshot and resolver are those of the accepted states; every failure leaves a valid, stopped manager, with the snapshot its branch leaves, and no configuration if a check of what runs has failed; the settings of the process are applied once |
| Manager.Manager.StartWithProviders | internal/mihomo/manager.go:536-547 | only the providers of the options are replaced |
| Manager.Manager.ConfigureWhenStopped | internal/mihomo/manager.go:549-573 | all options are replaced exactly when stopped and valid |
| Manager.Manager.ApplyProviders | internal/mihomo/manager.go:407-489 | success, which only a fault can prevent on a running manager, publishes the new providers together with their resolver; a failed check of the running core fails closed, and any other failure changes nothing; the guard records what was visible when it was taken, and that is what was visible at the call: every change comes after it |
| Manager.Manager.ReorderProviders | internal/mihomo/manager.go:495-534 | succeeds exactly when running and the list can be projected; snapshot and resolver, which is identified by the definitions it was merged from, agree afterwards exactly when the list names the same providers; every change comes after the guard is taken |
| Manager.Manager.ReorderingIsPossible | internal/mihomo/manager.go:495-534 | a permutation of the providers of a live snapshot can always be projected, as projections stay buildable in another order (Manager.ProjectionIsOrderFree) |
| Manager.Manager.ShorterListDisagrees | internal/mihomo/manager.go:495-534 | the list of a live snapshot without its last provider can be projected too, and names other providers than the resolver |
| Manager.Manager.ApplyProjectionSettings | internal/mihomo/manager.go:584-659 | new settings take over snapshot, DNS policy and listener together, or nothing changes; on a running manager valid settings are refused by a fault only, and nothing is bound but a new address; every change comes after the guard is taken |
| Manager.Manager.PublishCandidates | internal/mihomo/provider_refresh.go:46-96 | a refresh publishes all candidates with their resolver and accepts them, or changes nothing a reader can see and rejects: the changed ones if they cannot be merged or projected, staged ones if a cache fails |
| Manager.Manager.RefreshProvider | internal/mihomo/provider_refresh.go:16-98 | a refresh keeps options and configuration, or fails closed, exactly when its check fails; success, which only a fault or an unknown provider can prevent, accepts exactly the content fetched and publishes it; else the snapshot stays or becomes that of the accepted states |
| Manager.Manager.PollProviders | internal/mihomo/provider_refresh.go:145-287 | a poll keeps options, configuration and listener; it queues the current configuration to be failed closed exactly when a check fails; without a change it publishes nothing, and with one, unless something fails, everything staged |
| Manager.Manager.FailClosed | internal/mihomo/manager.go:812-834 | listener, configuration, snapshot, resolver and ownership go together |
| Manager.Manager.FailClosedQueued | internal/mihomo/manager.go:836-852 | a queued failure tears down exactly the configuration that failed |
| Manager.Manager.Stop | internal/mihomo/manager.go:661-698 | everything is released and the options stay; only closing a listener can fail, and reports it |
| Manager.OnlyOneIsReady | internal/mihomo/manager.go:178-185 | at most one manager of a process has a ready core or a listener |
| Manager.Operate | internal/mihomo/manager.go:407-698 | every operation of a manager is at most one turn of what the runs below are made of, and never takes the process from another manager |
| Manager.TakeTurn | internal/mihomo/manager.go:877-883 | any operation of one manager leaves every other one valid, and takes each through at most one turn |
| Manager.Interleave | internal/mihomo/manager.go:178-185 | over every run of operations on any number of managers of one process, all stay valid, at most one has a ready core or a listener, and each goes through a run of turns |
| Manager.SnapshotWithoutListener | internal/mihomo/provider_refresh.go:16-29 | in every run of turns (Manager.Interleave) a manager without a listener has a snapshot exactly when a refresh published one without a listener and only early failures of starts followed |
| Manager.SnapshotOutlivesConfiguration | internal/mihomo/manager.go:256-290 | a run in which a snapshot is left with neither listener nor configuration |
| App.Open | internal/gateway/app.go:39-84 | the application starts with disk, memory and runtime options equal, whether or not the data plane starts, which it does in a free process without faults |
| App.App.ValidAgrees | internal/gateway/app.go:533-573 | memory holds what the disk holds, a running data plane serves its providers, and the settings agree exactly when the protocol has not lost them |
| App.App.RunningAgrees | internal/gateway/app.go:533-573 | a running data plane publishes the projection and resolver of the accepted states under exactly the stored configuration |
| App.App.RunningServesTheEnabled | internal/gateway/app.go:639-654 | a running data plane publishes exactly the enabled providers on disk in the stored order, each with its accepted proxies, and resolves by exactly their accepted states; a disabled provider is in neither |
| App.App.RunningServesTheSettings | internal/gateway/app.go:467-531 | address, host, port, prefix, derived key and DNS of a running data plane are those on disk, while the settings are not lost |
| App.App.ReadersAgree | internal/gateway/policy_paths.go:168-210 | at every rest of the application, what a reader has formatted is empty or made of the providers on disk, and of its settings exactly when those are not lost |
| App.App.Save | internal/gateway/store.go:153-188 | an error leaves the file as it was |
| App.App.ValidateConfig | internal/gateway/app.go:656-735 | accepts exactly well-formed configurations with derived identifiers, distinct providers and names, and valid references |
| App.App.Interfere | internal/mihomo/provider_refresh.go:16-98 | a refresh, a poll or a late failure is at most one step of the protocol |
| App.App.Serve | internal/gateway/policy_paths.go:168-210 | between the steps of an operation readers come, go and read as the protocol allows, and change nothing of it |
| App.App.ApplyConfig | internal/gateway/app.go:533-573 | disk and memory stay equal and a running data plane serves their providers, whichever step fails; a valid change is begun as one change of the protocol and made unless something fails, any other is refused; only success changes the configuration, and it neither spoils nor repairs the agreement of the settings |
| App.App.ApplyRunning | internal/gateway/app.go:544-546 | applying providers on a running data plane is a run of the protocol: refused while preparing, refused or closed under the lock, or live; the lock is taken in the protocol with what the manager shows at that moment, which is still coupled to it |
| App.App.StartStopped | internal/gateway/app.go:547-558 | starting a stopped data plane with new providers is a run of the protocol, whether it succeeds or is restored; the lock is taken before the manager is touched |
| App.App.PersistProviders | internal/gateway/app.go:559-573 | saving, undoing and adopting are steps of the protocol; only a failed save prevents success, and only a fault of the manager its undoing |
| App.App.ReorderProviders | internal/gateway/app.go:346-396 | the same as for providers for a new order; anything but a permutation is refused without effect, a permutation to a valid configuration is made unless something fails; undoing it after a failed save cannot fail while the data plane is up |
| App.App.UpdateSettings | internal/gateway/app.go:467-531 | the same for settings; starting from agreement, they agree afterwards exactly unless undoing failed and the change differs in a runtime setting |
| App.App.SettingsLostExactlyWhenNew | internal/gateway/app.go:467-531 | some run of the protocol that makes only this change of settings loses them exactly when it differs in a runtime setting |
| App.App.SavePolicyPaths | internal/gateway/policy_paths.go:148-162 | valid paths are saved, unless that fails, on disk and in memory together, the runtime not at all |
| App.App.RestoreStopped | internal/gateway/app.go:575-583 | stops and configures the previous options; it can fail only while a listener is open |
| App.App.AfterRefusal | internal/gateway/app.go:551-558 | after a refused start the previous options are always restored |
| App.App.StopAfterRollback | internal/gateway/app.go:585-595 | a failed rollback stops the data plane and leaves its options |
| App.App.AddProvider | internal/gateway/app.go:167-213 | a taken identifier or name is refused with no effect; any other valid addition is attempted, and appends the provider with its derived identifier and defaults unless something fails |
| App.App.UpdateProvider | internal/gateway/app.go:215-288 | an unknown provider is refused with no effect; otherwise the provider is replaced, with what was not given inherited, and its new name followed in every path, exactly when that is valid and nothing fails |
| App.App.DeleteProvider | internal/gateway/app.go:319-344 | an unknown provider is refused with no effect; otherwise it is removed, also from every path, exactly when that is valid and nothing fails |
| Configuration.DeletionKeepsReferences | internal/gateway/app.go:337-338 | deleting a provider keeps a valid configuration valid; every path keeps exactly the rest |
| Configuration.DefinitionsAreEnabled | internal/gateway/app.go:639-654 | the runtime is given exactly the enabled providers, in the stored order |
| Configuration.RenameKeepsReferences | internal/gateway/app.go:271-274 | renaming keeps it valid exactly when identifier and name, up to case, are free |
| Configuration.PatchKeepsTheRest | internal/gateway/app.go:476-494 | omitted credentials and DNS keep their values, a given token goes to the default path only, and providers and all else of the paths stay |
| Configuration.ChangesAreLocal | internal/gateway/app.go:215-344 | deleting and replacing change one provider and what the paths select, and no more |
| Configuration.NamesAreTrimmed | internal/gateway/app.go:167-213 | a provider is stored under its trimmed name, which gives the identifier, enabled as asked for |
| Publication.StepKeepsInv | internal/gateway/app.go:1015-1022 | every step of a reader, writer or refresh keeps readers and runtime on one configuration |
| Publication.ReadersSeeOneConfiguration | internal/gateway/policy_paths.go:168-210 | in every interleaving a reader formats a snapshot with the definitions of the configuration it authenticated against, which is the one on disk, or an empty one; the settings agree too, exactly when they are not lost |
| Publication.LossIsExact | internal/gateway/app.go:585-595 | settings are lost by a rejected, differing change that is not taken back, and found by new settings or a restored runtime, and by no other step |
| Publication.RunsWithoutLoss | internal/gateway/app.go:585-595 | over every run the settings are never lost exactly when no differing change is |
| Publication.ReadersSeeExactlyOne | internal/gateway/policy_paths.go:168-210 | in a run without loss every reader sees definitions and settings of the one configuration on disk |
| Publication.ServedExactlyWhenLost | internal/mihomo/manager.go:536-547 | some continuation without further loss serves any reader other settings than the stored ones, exactly when they are lost now |
| Publication.RejectedIsServed | internal/mihomo/manager.go:536-547 | a rejected change of settings that is not taken back is so served exactly when it differs from what is stored |
| Publication.ChangeLosesExactlyWhenNew | internal/gateway/app.go:467-531 | a change of settings keeps the agreement for every choice of failures, readers and refreshes exactly when it changes no runtime setting |
| Publication.UnservedSnapshot | internal/mihomo/provider_refresh.go:16-29 | without a data plane, readers, refreshes and failures can replace an empty snapshot exactly while the manager has a configuration |
| Publication.ReadingIsNotBlocked | internal/mihomo/manager.go:452-454 | while a writer prepares, a whole reading can run and sees the current configuration |
| Publication.StoppedServesNobody | internal/gateway/policy_paths.go:168-210 | a reader that comes while there is no data plane is turned away, whatever refreshes do |
| Associations.StepKeepsInv | internal/mihomo/socks_listener.go:434-552 | every operation keeps the index exact and the caps |
| Associations.AttributionIsEarned | internal/mihomo/socks_listener.go:463-492 | in every run a datagram is attributed only through a live association of that user, from the same address and bound to exactly that source |
| Associations.AttributionIsExact | internal/mihomo/socks_listener.go:463-492 | in every run a datagram is attributed exactly when an association is bound to its source, or, while none is, exactly one of its address waits to be bound; to that association's user, which is then bound to the source, and nothing else changes |
| Associations.AddIsExact | internal/mihomo/socks_listener.go:434-461 | an association is added exactly while there is room, for a known user at its own address, when no live one is bound to the announced source |
| Associations.DropsAreExact | internal/mihomo/socks_listener.go:519-542 | expiry and closing drop exactly the idle associations, or all, and close exactly their controls |
| Associations.UnusedExpires | internal/mihomo/socks_listener.go:519-530 | an association that lives through a run expires after it exactly when it has attributed no datagram for as long as the limit says |
| Associations.NamedOnly | internal/mihomo/socks_listener.go:494-517 | removing and attaching reach the named association only |
| Associations.BindingsNeverMove | internal/mihomo/socks_listener.go:463-492 | a live association keeps its user, its address and, once bound, its source |
| Associations.GoneForGood | internal/mihomo/socks_listener.go:434-446 | identifiers are not used again |
| Associations.AmbiguousIsDropped | internal/mihomo/socks_listener.go:474-484 | an ambiguous source is dropped and changes nothing |
| Associations.AssociationRegistry.CountIp | internal/mihomo/socks_listener.go:544-552 | counts the associations of an address |
| Associations.AssociationRegistry.FindCandidate | internal/mihomo/socks_listener.go:473-484 | finds the only unbound association of an address in whatever order the map is walked |
| Associations.AssociationRegistry.Add | internal/mihomo/socks_listener.go:434-461 | an association is added exactly when the caps allow it and the announced source is the client's own and free |
| Associations.AssociationRegistry.Resolve | internal/mihomo/socks_listener.go:463-492 | attributes to the one owner of the source, binds it and changes nothing else, or drops the datagram without a change |
| Associations.AssociationRegistry.AttachControl | internal/mihomo/socks_listener.go:500-506 | only the named association changes |
| Associations.AssociationRegistry.Remove | internal/mihomo/socks_listener.go:494-517 | exactly the named association and its index entry go |
| Associations.AssociationRegistry.Expire | internal/mihomo/socks_listener.go:519-530 | exactly the idle associations go, and their controls are closed |
| Associations.AssociationRegistry.CloseAll | internal/mihomo/socks_listener.go:532-542 | every association goes and every control is closed |
| Handshakes.HandshakeLimiter.Acquire | internal/mihomo/socks_listener.go:314-327 | a ticket is given exactly while both limits allow it |
| Handshakes.HandshakeLimiter.Release | internal/mihomo/socks_listener.go:328-339 | a ticket counts until its first release |
| Handshakes.ActiveIsSum | internal/mihomo/socks_listener.go:302-339 | the total is the sum of the counters per address |
| NodeDns.ParseServers | internal/mihomo/node_dns.go:67-87 | a list is accepted exactly when it is short, valid and without duplicates |
| NodeDns.ParseRules | internal/mihomo/node_dns.go:94-120 | the rules are accepted exactly when each is valid and no pattern repeats |
| NodeDns.AcceptedExactly | internal/mihomo/node_dns.go:62-144 | the configurations that are accepted, in numbers, characters and labels |
| NodeDns.PatternRoundTrip | internal/mihomo/node_dns.go:261-265 | the pattern shown for a rule parses back to the rule |
| NodeDns.ParsedIsCanonical | internal/mihomo/node_dns.go:96-101 | parsing a pattern forgets outer white space, one dot at its end and the case, and no more |
| NodeDns.CompileNodeDns | internal/mihomo/node_dns.go:216-248 | compiles exactly the accepted configurations, sorted by precedence |
| NodeDns.SortedIsUnique | internal/mihomo/node_dns.go:234-246 | the order leaves one sorted list, whatever sorting algorithm is used |
| Text.BeforeIsLexicographic | internal/mihomo/node_dns.go:242-244 | strings are ordered by the first place where they differ |
| NodeDns.SelectDomain | internal/mihomo/node_dns.go:256-272 | the loop takes the first match, else the default, else the system resolver |
| NodeDns.OrderIsPrecedence | internal/mihomo/node_dns.go:234-246 | for two rules matching one host the list order is exactly the documented precedence |
| NodeDns.BestIsUnique | internal/mihomo/node_dns.go:234-246 | at most one of the rules is the best match of a host |
| NodeDns.SelectionIsBest | internal/mihomo/node_dns.go:256-272 | first match in the sorted list is the best match among the configured rules; default and system only when none matches |
| NodeDns.SelectionIsConfigured | internal/mihomo/node_dns.go:256-272 | a host is answered by the servers of the configured rule that goes before all others for it, with whole labels compared; by the default ones when no rule is for it; by the system when there are none |
| NodeDns.MatchesByLabels | internal/mihomo/node_dns.go:259 | a rule is for the name itself, the names below it, or both: a suffix begins at a dot |
| NodeDns.OrderIsIrrelevant | internal/mihomo/node_dns.go:94-120 | reordering the configured rules changes neither acceptance nor any selection |
| PolicyPaths.ValidateSelection | internal/gateway/policy_paths.go:312-327 | accepts exactly duplicate-free selections of existing providers |
| PolicyPaths.Selection.Replace | internal/gateway/policy_paths.go:359-367 | replaces in place every occurrence of one identifier |
| PolicyPaths.Selection.Remove | internal/gateway/policy_paths.go:369-379 | the filter over its own storage equals the functional one |
| PolicyPaths.ReplaceProviderId | internal/gateway/policy_paths.go:359-367 | every path is rewritten, and only by the renaming |
| PolicyPaths.RemoveProviderId | internal/gateway/policy_paths.go:369-379 | every path loses exactly the removed provider |
| PolicyPaths.DeleteKeepsReferences | internal/gateway/policy_paths.go:369-379 | a valid selection stays valid and selects exactly the remainder |
| PolicyPaths.RemovedInOrder | internal/gateway/policy_paths.go:369-379 | what stays selected keeps its order |
| PolicyPaths.RenameKeepsReferences | internal/gateway/policy_paths.go:359-367 | a valid selection stays valid exactly when it did not select both names, and is renamed place by place |
| PolicyPaths.NormalizeSelection | internal/gateway/policy_paths.go:335-357 | known providers in list order, then unknown ones sorted |
| PolicyPaths.NormalKeepsSelection | internal/gateway/policy_paths.go:335-357 | normalising keeps the set, removes duplicates, and is idempotent |
| PolicyPaths.KnownInOrder | internal/gateway/policy_paths.go:335-357 | known providers stand in the order of the list |
| PolicyPaths.NormalIsUnique | internal/gateway/policy_paths.go:335-357 | the normal form is unique, whatever order the map is walked in |
| PolicyPaths.ReorderedProviders | internal/gateway/app.go:398-422 | accepts exactly the permutations of the stored identifiers, returns that permutation, and reports a change exactly when there is one |
| SystemdUnit.QuotingIsPerCharacter | internal/service/service.go:698-703 | the three replacements in sequence equal one escape per character |
| SystemdUnit.ScanSkipsEscapes | internal/service/update.go:189-203 | the scan for the closing quote stops at the right quote, or at the end when there is none |
| SystemdUnit.SanitisedKeepsValid | internal/service/update.go:204-207 | exactly valid UTF-8 (section 4 of RFC 3629) has no byte to replace |
| SystemdUnit.ValidIsEncoded | internal/service/update.go:204-207 | the byte strings that are valid are exactly the encodings of texts (section 3 of RFC 3629) |
| SystemdUnit.UnquoteUndoesEscape | internal/service/update.go:204-207 | unquoting undoes the escape except for the doubled percent signs and for bytes that are not UTF-8, which become the replacement character, and fails on a line feed |
| SystemdUnit.PercentCollapses | internal/service/update.go:208 | runs of doubled percent signs collapse to the original |
| SystemdUnit.ParseSystemdArgs | internal/service/update.go:177-213 | the loop computes the specified words of a line |
| SystemdUnit.WhiteIsSpace | internal/service/update.go:179 | the bytes that are trimmed encode exactly the characters that are white space |
| SystemdUnit.BytesAreTrimmed | internal/service/update.go:179 | trimming takes encoded white space from both ends, and leaves none there |
| SystemdUnit.UpdateDefinition | internal/service/update.go:143-160 | finds the one command line among the lines of a unit |
| SystemdUnit.DefinitionExactly | internal/service/update.go:143-160 | a unit is understood exactly when its last command line has the four expected arguments and all before it are empty |
| SystemdUnit.LinesAreJoined | internal/service/update.go:145 | lines are what stands between line feeds |
| SystemdUnit.ExecLineRoundTrip | internal/service/service.go:677 | the command line reads back as the four arguments, with bytes that are not UTF-8 replaced, exactly when no path has a line feed |
| SystemdUnit.RenderedReadsBack | internal/service/service.go:635-703 | a unit that is rendered reads back as its executable and data directory exactly when both are valid UTF-8; rendering refuses exactly empty paths and control characters |
| SystemdUnit.UnitRoundTrip | internal/service/update.go:143-160 | the text of a unit for any two byte strings is refused when one has a line feed, and otherwise reads back as both with bytes that are not UTF-8 replaced |
| SystemdUnit.ReadsBackExactly | internal/service/update.go:143-213 | it reads back as what was written exactly when both are valid UTF-8 without a line feed |
| SystemdUnit.InvalidByteIsLost | internal/service/service.go:635-703 | a path of one byte above the ASCII range is rendered and reads back as the replacement character |
| SystemdUnit.InstallsFor | internal/service/service.go:639-642 | a unit of the system starts with the system, one of a user with the user |

## Left out

- UpdateTransaction.Transaction.Save: the error text kept in the journal is not modelled.
- UpdateTransaction.Transaction.Rollback: tampering from outside is covered by this contract only; the runs assume that nobody else writes the files.
- UpdateTransaction.Transaction.Ready: the readiness poll is one nondeterministic answer, without its clock.
- ProviderFilter.FilteredProvider.Sync: the lock that serialises synchronisations is not modelled; each one is a single step.
- ProviderCache.CacheTransaction.Reject: restoring a provider's native source file is not modelled.
- ProviderHosts.ExtractProviderHosts: the syntax of a pattern or an address is decided by the library, and the scope of custom DNS by node is not modelled.
- Manager.Manager.PollProviders: schedules and version counters are not modelled; what is fetched and which versions have changed is given.
- Manager.Manager.PublishCandidates: the cache files behind a commit are the subject of ProviderCache alone; here a commit succeeds or fails as a whole.
- Manager.Manager.BuildConfig: parsing and initialising a configuration succeeds or fails arbitrarily.
- App.App.ValidateConfig: the syntax of names, addresses and provider sources, and the identities and tokens of policy paths, are one uninterpreted predicate.
- App.App.AddProvider: which defaults are filled in is an uninterpreted function.
- App.App.UpdateProvider: which fields are inherited is an uninterpreted function, and replaced uploads are not removed.
- NodeDns.ParseRules: nameserver syntax and literal addresses are decided by the libraries.
- Projection.BuildProjection: adapters are never nil, and the revision digest of a snapshot is not modelled.
- SystemdUnit.UpdateDefinition: only the Linux branch is modelled, up to the two paths; comparing them with the running installation is not.
- SystemdUnit.ParseSystemdArgs: numeric escapes are decoded by the library.
- Closing a provider and its adapters at the end of their life.
- Policy tokens, and the name filters and text format of a policy path.
- Health checks, event logs, redaction and status texts.
- The proxy core itself: tunnel, adapters, DNS clients, controller and its domain trie.
- Download, checksums and version discovery of releases, and preferences of the updater.
- Service installation, launchd definitions and the commands that query a service manager.
- YAML and JSON decoding, configuration migration, and the HTTP management interface.
- The SOCKS handshake and relaying of connections.
