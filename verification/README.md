# Verification of Pilot's archive, policy and budget cores

This project models the parts of the repository that carry state across interleavings, crashes and changing
surroundings, and proves what they promise. `dafny verify dfyconfig.toml` checks all of it.

Where the program changes something in place the model does too: methods with loops and classes are proved against
functions on values, and the promises are lemmas about those functions and about whole runs.

- **Archive hand-off** (`Handoff*`, `ArchiveHost`, `ArchiveInbox`, `ArchiveWorker`, `ServerConfig`). Sessions publish
  descriptors and launch workers; workers contend for one lock, import, acknowledge, release, inspect and perhaps
  contend again; configuration changes announce an event before they commit. One state machine with unboundedly many
  processes, and the program's objects as runs of it.
- **JSON prefixes** (`Json*`, `ArchiveSourceJson`). The hand-written recogniser against an independent grammar.
- **Reconciler** (`ArchiveProtocol`, `ArchiveReconciler`, `ArchiveConvergence`). The merge decision, and any number of
  clients that decide and publish against a server with conditional writes.
- **Journal** (`Journal*`, `ArchiveJournal`). The two tables, their transactions, what each of them answers, and their
  paged readers.
- **Ancestry** (`ArchiveAncestry`, `ArchiveSessions`). The walk along parent links and what its answer depends on.
- **Discovery** (`ArchiveScan*`, `ArchiveDiscovery`). The resumable scan: its cursors, its pages on directories that
  stay as they are, and what it answers for when they do not.
- **Policies** (`Policy*`). Scopes, the policy engine, and the runtime: principals, inherited policies, requests that
  wait for the user, an ancestor or the default reviewer and complete against a changed world, and what an answer that
  counts changes.
- **Timers** (`PausableTimeout`, `ApprovalWait*`). Budgets that count unpaused time, and trees of scopes that pause them.
- **Experiments** (`ChunkedCompaction`, `BenchmarkSchedule`, `BudgetLedger`, `BudgetedModel`). The packer, the balanced
  schedule and the reservation ledger.

SHA-256 is a function; where a result needs it to tell contents apart, that is a hypothesis of the lemma. A SQLite
transaction is one atomic step. The UUIDs, process identifiers and clock readings of a run are inputs of its steps.

## Findings

- A discovery cursor is not always accepted by the scanner that gave it out. The stamp at
  src/server/ArchiveDiscovery.ts:221 prints signed numbers, and src/server/ArchiveDiscovery.ts:198 reads back digits
  only, so a cursor that holds the stamp of a directory last changed before 1970 is refused. Asked for one item at a
  time, a scan never completes if any transcript comes up while its directory or the root it is reached through is such
  a directory, or any issue of a directory while its root is (`ArchiveScanRefusals.NegativeStampStalls`); otherwise a
  page is refused only if it ended by its budget with nothing found (`ArchiveScanRefusals.OnlySnagsRefuse`). With stamps from 1970 on, and with quoted
  paths of at most 15,900 bytes, so that two of them fit the 32 KiB of src/server/ArchiveDiscovery.ts:182, every cursor
  is accepted (`ArchiveScanPages.CursorsAccepted`).
- A control event may stay in the inbox at rest if its writer asked for no launch; this is the only thing that
  stays besides descriptors the last owner kept (`HandoffSafety.NoLostWakeup`).

## Model

| member | source | states |
|---|---|---|
| `HandoffSafety.NoLostWakeup` | src/server/ArchiveWorker.ts:20-92 | Over every interleaving, once no worker lives or is owed and since the last launch none died, the descriptors left are exactly those the last owner kept in its final pass, a control event is left only if its writer asked for no launch, and otherwise the configuration is the one that pass began under |
| `HandoffSafety.LeftForAReason` | src/server/ArchiveWorker.ts:31-45 | Each descriptor left at rest can never be imported, being damaged, under a name not its own or in conflict with a committed manifest, or the engine answered in the last pass that the journal is full for it |
| `HandoffSafety.AllCommitted` | src/server/ArchiveWorker.ts:31-53 | At rest each admitted descriptor for which the journal was not full in the last pass is committed with exactly its manifest and gone from the inbox, unless another manifest is committed under its identifier; then it stays as evidence |
| `HandoffSafety.FullByAnswer` | src/server/ArchiveWorker.ts:35-38 | What is on record as full was answered so, at the import of that descriptor, since a worker last began a pass |
| `HandoffSafety.KeptForAReason` | src/server/ArchiveWorker.ts:31-45 | At every moment of a pass, whatever it has kept so far is evidence, or met a full journal in this pass |
| `HandoffSafety.OnlyCommittedRemoved` | src/server/ArchiveWorker.ts:46-53 | A descriptor leaves the inbox only after the very manifest it holds has been committed |
| `HandoffSafety.LeavesForAReason` | src/server/ArchiveWorker.ts:70-84 | A worker leaves alive only because another owns the lock, or because nothing has changed since its pass and the engine has nothing eligible |
| `HandoffSafety.ReleasesForAReason` | src/server/ArchiveWorker.ts:54-68 | An owner ends its work only after a pass in which no acknowledgment met a busy inbox and the engine had nothing eligible |
| `HandoffSafety.AdmitMeaning` | src/server/ArchiveInbox.ts:32-49 | A descriptor is admitted if it is there already or there is room for it below 1024; a different or unreadable one under its identifier is left alone and named as the reason |
| `HandoffSafety.NoDescriptorLost` | src/server/ArchiveInbox.ts:32-49 | Crashes included, every descriptor ever admitted is in the inbox or committed to the journal |
| `HandoffSafety.LeavesUnderCurrentGeneration` | src/server/ArchiveWorker.ts:27-81 | A worker that leaves after inspection began its last iteration under the generation still current at that inspection |
| `HandoffSafety.OnlyReadEventsRemoved` | src/server/ArchiveInbox.ts:107-113 | An event leaves the inbox without a newer one only by an owner that read this very event in the same iteration; it was the newest, and no configuration change was between its event and its commit |
| `HandoffSafety.NewestEventKept` | src/server/ArchiveInbox.ts:57-64 | The newest control event ever written is still in the inbox or was acknowledged by a worker that read it |
| `HandoffSafety.InvariantKept` | src/server/ArchiveWorker.ts:20-92 | Every atomic step of every session, worker and configuration change keeps the invariant behind the results above: one owner, custody, events before commits, wakefulness, and a reason for whatever a pass keeps |
| `ArchiveInbox.Inbox.Publish` | src/server/ArchiveInbox.ts:32-49 | Under the inbox lock, admits the descriptor, accepts an identical one again, refuses a collision, a damaged one or a full inbox; when it succeeds it was an enabled step of the protocol and left the files that step leaves |
| `ArchiveInbox.Inbox.Acknowledge` | src/server/ArchiveInbox.ts:99-105 | Removes exactly that descriptor, or is busy and changes nothing |
| `ArchiveInbox.Inbox.AcknowledgeControl` | src/server/ArchiveInbox.ts:107-113 | Removes the control event only if it is the one that was read |
| `ArchiveWorker.Process.Run` | src/server/ArchiveWorker.ts:20-92 | The worker loop, with any interference between its steps, is a run of the protocol and comes to its end |
| `ArchiveWorker.Process.Drain` | src/server/ArchiveWorker.ts:29-53 | One pass over the listed descriptors imports before it acknowledges, and keeps, in order, only evidence and what met a full journal in this pass; alone, it leaves exactly these in the inbox |
| `ArchiveWorker.Process.Depart` | src/server/ArchiveWorker.ts:70-84 | Releases the lock first, inspects afterwards, and leaves only if nothing changed or another worker won the lock |
| `ServerConfig.ServerConfigStore.Apply` | src/server/ServerConfig.ts:39-73 | A configuration change writes its control event before it commits, inside one transition of the inbox |
| `ServerConfig.ServerConfigStore.Save` | src/server/ServerConfig.ts:51-60 | Replaces the configuration and its generation, announced by an event; fails exactly on a busy lock or a failed write, and changes nothing then |
| `ServerConfig.ServerConfigStore.Logout` | src/server/ServerConfig.ts:62-73 | Removes the configuration, announced by an event |
| `ServerConfig.ServerConfigStore.EnsureConnection` | src/server/ServerConfig.ts:39-49 | Gives a configuration without generation one, announced by an event, and leaves any other alone |
| `ArchiveSourceJson.IsIncompleteArchiveJsonPrefix` | src/server/ArchiveSourceJson.ts:19-153 | True if and only if the text is no JSON text by the grammar of sections 2 to 7 of RFC 8259 but some suffix makes it one; the byte stack is written in bounds at any depth |
| `ArchiveSourceJson.Exact` | src/server/ArchiveSourceJson.ts:19-153 | The automaton behind the loop is live and not accepting exactly on those texts |
| `JsonSound.AcceptedIsJson` | src/server/ArchiveSourceJson.ts:19-153 | Whatever the automaton accepts is a JSON text of the grammar |
| `JsonComplete.JsonIsAccepted` | src/server/ArchiveSourceJson.ts:19-153 | Every JSON text of the grammar is accepted |
| `ArchiveSourceJson.ByteStack.Push` | src/server/ArchiveSourceJson.ts:19-60 | The growing byte array takes one more nesting level in bounds and keeps all others |
| `ArchiveConvergence.NoHistoryLost` | src/server/ArchiveReconciler.ts:40-93 | Over every interleaving of clients, each candidate whose decision completed and each version that ever was canonical is a prefix of a canonical or preserved body whose metadata carries its assertions |
| `ArchiveConvergence.Greatest` | src/server/ArchiveReconciler.ts:50-78 | Once all clients are done, the canonical body is the greatest that took part, by length and then by digest |
| `ArchiveConvergence.OrderIndependent` | src/server/ArchiveReconciler.ts:50-78 | Two runs with the same bodies end with the same canonical body, however they interleaved, if the digest tells those bodies apart |
| `ArchiveConvergence.Settled` | src/server/ArchiveReconciler.ts:40-78 | Reconciling the canonical body with its own metadata says that it is covered |
| `ArchiveConvergence.FinishesAlone` | src/server/ArchiveReconciler.ts:40-78 | An undisturbed client with coherent metadata is done after one comparison and at most two requests |
| `ArchiveReconciler.DecisionMeaning` | src/server/ArchiveReconciler.ts:40-78 | Each of the five decisions holds exactly when dropping what it drops is safe and its body should be canonical |
| `ArchiveReconciler.ReplacesIffBeats` | src/server/ArchiveReconciler.ts:58-79 | The canonical body is replaced exactly by a candidate that is longer, or as long with a greater digest |
| `ArchiveReconciler.UnsupportedOnlyDefers` | src/server/ArchiveReconciler.ts:90-93 | Without preservation the decision is the same but waits wherever something would be lost |
| `ArchiveReconciler.ReconcileMeaning` | src/server/ArchiveReconciler.ts:40-93 | Input by input: incoherent metadata is an error, an absent session is published, unknown remote metadata waits, and otherwise bytes, assertions, lengths and digests decide what stays, what is preserved and for which reason |
| `JournalCustody.CustodyAlways` | src/server/ArchiveJournal.ts:101-182 | After any operations on a new journal, every snapshot reported as retained is captured, pending or accepted, and the accepted bodies of each session form a chain of extensions with increasing revisions, as long as the digests tell the snapshots of the run apart |
| `JournalCustody.Chained` | src/server/ArchiveJournal.ts:162-169 | Any two accepted bodies of a session extend one another in order, with strictly increasing sequence numbers |
| `JournalCustody.LateReceipt` | src/server/ArchiveJournal.ts:227-232 | A late or repeated receipt of any accepted operation changes nothing, even with a successor pending |
| `JournalCustody.PrepareNeverInvalid` | src/server/ArchiveJournal.ts:101-127 | A journal never refuses its own contents on preparing, as long as the digests tell its captures and the new one apart |
| `JournalCustody.AcceptNeverInvalid` | src/server/ArchiveJournal.ts:221-238 | A journal never refuses its own contents on accepting |
| `JournalBudget.BudgetKept` | src/server/ArchiveJournal.ts:101-182 | No operation takes the retained bytes above the limit, and a journal above it never grows |
| `JournalBudget.PromoteConserves` | src/server/ArchiveJournal.ts:148-182 | Promotion keeps the body once: no byte is gained, and only an unchanged snapshot is dropped |
| `JournalBudget.AcceptReleases` | src/server/ArchiveJournal.ts:221-238 | Accepting releases exactly the bytes of the answered operation |
| `JournalAnswers.PromoteMeaning` | src/server/ArchiveJournal.ts:148-182 | Whatever upload is handed out is the session's pending operation, with bytes of the length and digest its request names; an operation that was pending is the one handed out and nothing changes; otherwise the request names the capture, the given identifier and the accepted revision, or the capture is the accepted snapshot and is dropped |
| `JournalAnswers.PromoteRefused` | src/server/ArchiveJournal.ts:148-182 | On readable tables a capture is refused exactly if it is gone, if its session is another file's, or if its bytes no longer begin with the accepted ones |
| `JournalAnswers.PrepareMeaning` | src/server/ArchiveJournal.ts:101-127 | The same of a snapshot: an operation that was pending is handed out and any other snapshot retained; the accepted snapshot changes nothing; any other becomes the new pending operation |
| `JournalAnswers.PrepareRefused` | src/server/ArchiveJournal.ts:101-127 | A snapshot is refused exactly if it is no valid snapshot, if its session is another file's, if it is new and there is no room for it, or if it diverged, and then it is retained |
| `JournalAnswers.AcceptMeaning` | src/server/ArchiveJournal.ts:221-238 | A valid receipt answers exactly the pending operation with its request, changes nothing after an equal or later revision, and is refused otherwise |
| `JournalAnswers.NormalizeMeaning` | src/server/ArchiveJournal.ts:101-134 | A snapshot is taken exactly if its path is absolute, its size within the limit and its metadata coherent, with its own length and digest |
| `JournalPaging.EnumerateSkipsNothing` | src/server/ArchiveJournal.ts:136-146 | Pages behind a cursor skip no capture that stays, even when captures before the cursor go meanwhile |
| `JournalPaging.EnumerateOrdered` | src/server/ArchiveJournal.ts:136-146 | Captures arrive once, in order, and come from the table |
| `JournalPaging.DrainSkipsNothing` | src/server/ArchiveJournal.ts:185-202 | Enumerating pending operations page by page skips none that stays pending, even when others are accepted between pages |
| `JournalPaging.DrainOrdered` | src/server/ArchiveJournal.ts:185-202 | Pending operations arrive once and in order |
| `ArchiveJournal.Journal.PrepareSnapshot` | src/server/ArchiveJournal.ts:101-127 | Captures and promotes in one transaction; a failed promotion keeps the captured bytes |
| `ArchiveJournal.Journal.PrepareCaptured` | src/server/ArchiveJournal.ts:148-182 | Moves one capture to its session's pending operation, or changes nothing |
| `ArchiveJournal.Journal.AcceptReceipt` | src/server/ArchiveJournal.ts:221-238 | Makes the pending operation the accepted one on its receipt, else changes nothing |
| `ArchiveJournal.Journal.CaptureSnapshot` | src/server/ArchiveJournal.ts:130-134 | Keeps the evidence once within the byte limit |
| `ArchiveJournal.Journal.CapturePage` | src/server/ArchiveJournal.ts:136-146 | One bounded page of summaries in order and the cursor of the next |
| `ArchiveAncestry.DependencyCompleteness` | src/server/ArchiveSessions.ts:51-164 | Duplicate-free catalogs that agree on every recorded path and identifier give the same root, family, membership and dependencies |
| `ArchiveAncestry.FamilyIsRoot` | src/server/ArchiveSessions.ts:100-164 | A family is resolved to a root if and only if a line of parents from the session settles on that root, by what a session on it asserts or by reaching the known active session: none is invented and none is missed |
| `ArchiveAncestry.FamilyRecorded` | src/server/ArchiveSessions.ts:100-164 | Every session on that line is recorded as a dependency |
| `ArchiveAncestry.CaptureMeaning` | src/server/ArchiveSessions.ts:51-98 | In the current scope a session that may belong to a family is included if and only if its root and the active one are known and equal, excluded if and only if both are known and differ, unresolved if one is unknown; a plain session is excluded; without the scope all are included |
| `ArchiveAncestry.IncludedIffFamily` | src/server/ArchiveSessions.ts:83-94 | So a captured session is included exactly if a line of parents leads from it to the active root, and one that shares the active family is never excluded |
| `ArchiveAncestry.ObservedIs` | src/server/ArchiveSessions.ts:58-62 | What is looked up is the captured session itself and, of the catalog, what the scope owns under other paths |
| `ArchiveAncestry.ActiveIs` | src/server/ArchiveSessions.ts:69-74 | The active session is the observed one with its path and identifier, or else what the scope says of it |
| `ArchiveAncestry.CaptureNeedsFile` | src/server/ArchiveSessions.ts:100-164 | Nothing is recorded in vain: each recorded path was looked at from the captured session, from the active one if its root is not known, or from one above either |
| `ArchiveAncestry.CaptureNeedsId` | src/server/ArchiveSessions.ts:100-164 | The same of each recorded identifier |
| `ArchiveSessions.ResolveSourceFamily` | src/server/ArchiveSessions.ts:100-164 | The loop walks the parent links, ends even on cycles, and gives the walk's family and dependencies |
| `ArchiveSessions.Sessions.CaptureSource` | src/server/ArchiveSessions.ts:51-98 | Captures root, family, membership and dependencies of one source, and refuses foreign files and invalid catalogs |
| `ArchiveScanPages.ScanResumes` | src/server/ArchiveDiscovery.ts:64-159 | On directories that do not change, pages of any capacities bring in the full scan in order, are fewer than its turns, and once complete nothing is missing |
| `ArchiveScanPages.ScanCompletes` | src/server/ArchiveDiscovery.ts:64-159 | On such directories, with bounded sizes and stamps from 1970 on, asking on with any capacities gets to a complete page |
| `ArchiveScanPages.RetryResumes` | src/server/ArchiveDiscovery.ts:143-155 | Pages from a retry cursor bring in that directory alone, whole |
| `ArchiveScanPages.ScanMeaning` | src/server/ArchiveDiscovery.ts:54-58 | A full scan brings in the active file and exactly the transcripts listed in the directories the scope covers, and no file the scope does not own |
| `ArchiveScanPages.CursorsAccepted` | src/server/ArchiveDiscovery.ts:178-209 | With bounded paths and listings and stamps from 1970 on, whatever the directories do, every cursor of a scan is accepted; every retry cursor is in any case |
| `ArchiveScanPages.RetryCursorsAccepted` | src/server/ArchiveDiscovery.ts:178-209 | The same of a scan that starts from a retry cursor |
| `ArchiveScanRefusals.NegativeStampStalls` | src/server/ArchiveDiscovery.ts:198-221 | If any transcript the scan is to bring in comes up while the stamp of its directory, or of the root it is reached through, has a minus sign, or any issue of a directory while its root has, asking for one item at a time never completes |
| `ArchiveScanRefusals.OnlySnagsRefuse` | src/server/ArchiveDiscovery.ts:198-221 | If none does, a page of one item is refused only if it brought in nothing: it ended by its budget |
| `ArchiveScanRefusals.OwnCursorRefused` | src/server/ArchiveDiscovery.ts:198-221 | In the first case, asking for one item at a time does come to a cursor that the next call refuses as invalid |
| `ArchiveScanRefusals.OldDirectoryRefused` | src/server/ArchiveDiscovery.ts:198-221 | Instances: two transcripts in a directory last changed before 1970, and a transcript in a later directory below a root last changed before 1970 |
| `ArchiveScanCursors.SizedAccepted` | src/server/ArchiveDiscovery.ts:178-209 | A cursor of the scan's shape and of bounded sizes is refused for a minus sign in a stamp only |
| `ArchiveScanCursors.PageWithinCapacity` | src/server/ArchiveDiscovery.ts:64-83 | A page never brings in more items than asked for, nor more than 256 |
| `ArchiveScanOwned.PageMine` | src/server/ArchiveDiscovery.ts:64-178 | Whatever cursor is handed in and whatever the directories hold, a page brings in only the session's own file and transcripts of directories its scope covers, and its issues and cursors stay in the scope |
| `ArchiveScanOwned.RunThrows` | src/server/ArchiveDiscovery.ts:143-155 | A page fails only if it is a retry, and then with what the file system answered about one directory |
| `ArchiveScanOwned.PageRefused` | src/server/ArchiveDiscovery.ts:64-83 | A capacity out of bounds and a cursor of another scope are refused as invalid; a page of nothing gives the cursor back |
| `ArchiveScanOwned.PageEffort` | src/server/ArchiveDiscovery.ts:74-133 | A page looks at directories at most 256 times and, unless it is full with what was asked for or with 256 items, or at the end, at least 128 times |
| `ArchiveScanOwned.FollowedMeaning` | src/server/ArchiveDiscovery.ts:215-221 | Exactly the session's directory and the roots in scope are stamped through links |
| `ArchiveScanCustody.NoSilentOmission` | src/server/ArchiveDiscovery.ts:92-152 | However directories change, as long as the digests tell their listings apart, a complete scan has handled every seed: each directory became an issue that starts it over, or each of its entries was met in a turn of the scan under one stamp, every transcript was reported, every entry that was a directory in a collection was handled in turn, and one handle read exactly these names to the end under that stamp |
| `ArchiveScanCustody.SubdirectoriesHandled` | src/server/ArchiveDiscovery.ts:92-152 | In particular, whatever was met as a directory in a finished collection was finished itself or became an issue that starts it over |
| `ArchiveScanCustody.RetryFinishes` | src/server/ArchiveDiscovery.ts:143-155 | A complete retry has finished the directory it is about, by the same standard |
| `ArchiveScanStill.PageStill` | src/server/ArchiveDiscovery.ts:64-159 | One page brings in the head of what its cursor leaves to do, and its own cursor leaves strictly less |
| `ArchiveDiscovery.Discovery.DiscoverPage` | src/server/ArchiveDiscovery.ts:64-159 | The loop over frames, readers and budget makes exactly the modelled page and leaves no reader open |
| `ArchiveDiscovery.Discovery.Visit` | src/server/ArchiveDiscovery.ts:92-133 | Stamps a directory, reopens or reuses its reader, replays its prefix and reads one entry on, with all five ways to fail |
| `PolicySafety.StalenessSafety` | src/policy/PolicyRuntime.ts:483-1105 | In every run, an allowing answer to a waiting request, on completion or before the prompt, is a policy, fallback or choice for this call stored at that moment, or a choice whose path still has the identical principals, policies and contexts and the same authority or asking default |
| `PolicySafety.InitialMeaning` | src/policy/PolicyRuntime.ts:131-162 | A new runtime is where the runs begin: the root alone, holding exactly the rules of the database |
| `PolicySafety.ShortenedCheckAlways` | src/policy/PolicyRuntime.ts:1029-1071 | In every run, whenever the shortened check lets the user's choice through, the full check before the prompt would have too |
| `PolicySafety.AuthorityNeverWidens` | src/policy/PolicyRuntime.ts:242-296 | In every reachable state the principals form a rooted tree, every principal but the registered root holds session policies only, and a lasting policy of the root is the one the database holds now |
| `PolicySafety.DatabaseChangesByUser` | src/policy/PolicyRuntime.ts:1072-1092 | The database changes only by a lasting choice of the user, which replaces the rule of its pattern and access |
| `PolicySafety.RequestsHold` | src/policy/PolicyRuntime.ts:483-1105 | Whatever is removed meanwhile, a waiting request can still be completed |
| `PolicySafety.ShutdownDeniesWaiting` | src/policy/PolicyRuntime.ts:218-223 | After shutdown began no waiting request installs or allows anything |
| `PolicySafety.ShutdownDeniesNew` | src/policy/PolicyRuntime.ts:351-417 | After shutdown began no new request is allowed |
| `PolicySafety.ShutdownForever` | src/policy/PolicyRuntime.ts:218-223 | Shutdown is for good |
| `PolicyEffect.CompletionMeaning` | src/policy/PolicyRuntime.ts:520-673 | In every run, an answer takes effect exactly if nobody gave up, nothing stored since answers the request, its path, policies, contexts and default still stand and the choice was offered; then everyone on the path, below an asking authority, holds exactly that status for the session, the root the user's choice as made, the database a lasting one, or for once this call alone; no other status changes; otherwise nothing changes and what was stored since answers, or a denial |
| `PolicyEffect.ChoiceHolds` | src/policy/PolicyRuntime.ts:1086-1105 | In every run, the same request made again after an answer took effect is decided at once, with the response and pattern of the choice |
| `PolicyEffect.FoundAtPattern` | src/policy/PolicyRuntime.ts:1086-1092 | A lookup at the chosen pattern gives the chosen response to everyone the choice reaches |
| `PolicyEffect.PromptMeaning` | src/policy/PolicyRuntime.ts:994-1027 | The user is asked exactly if an answer would count at that moment; otherwise what the requester or the call says now answers, or a denial |
| `PolicyMeaning.RequestStored` | src/policy/PolicyRuntime.ts:351-417 | What the requester holds at the nearest scope comes first, what the call holds second; an overlong target or a runtime shutting down is denied |
| `PolicyMeaning.RequestAsks` | src/policy/PolicyRuntime.ts:383-417 | Any other request goes up the registered parents to the nearest principal with something to say: its denial answers, its allowance is asked about within its own scope and lifetime; if nobody has, the default names whom to ask |
| `PolicyMeaning.WayUp` | src/policy/PolicyRuntime.ts:440-470 | There is such a way up from every requester whose parent is registered |
| `PolicyChanges.RegisterMeaning` | src/policy/PolicyRuntime.ts:242-268 | A free name below a registered parent is registered, nobody else changes, and the child may do what its parent can authorize in the inherited areas |
| `PolicyChanges.RemoveMeaning` | src/policy/PolicyRuntime.ts:279-296 | A registered principal without children gives up its name and its place among its parent's children; no object is lost |
| `PolicyChanges.SetDefaultMeaning` | src/policy/PolicyRuntime.ts:225-230 | One area's default changes, its revision only if it does, and the automatic answer is the new default's |
| `PolicyChanges.ScopesOffered` | src/policy/PolicyRuntime.ts:771-789 | Of the 31 deepest scopes between target and authority each is offered that fits the text limit behind all deeper ones, and no more than 32 are |
| `PolicyChanges.HierarchyMeaning` | src/policy/PolicyScope.ts:16-36 | The hierarchy is the target and its ancestors from the deepest on, as many as the limit allows, with the root in the last place |
| `PolicyRuns.InvariantKept` | src/policy/PolicyRuntime.ts:218-296 | Every step keeps the tree, the fallback engine in line with the default responses, the bounds on stored policies, and what waiting requests rely on |
| `PolicyStaleness.ShortenedCheckSound` | src/policy/PolicyRuntime.ts:1029-1071 | Equal revisions mean equal policies and contexts, so the shortened check implies the full one |
| `PolicyStaleness.AuthorityIntact` | src/policy/PolicyRuntime.ts:683-717 | On an active, unchanged path the authority that was asked still is the nearest and says the same |
| `PolicyAuthority.AncestorNeverWidens` | src/policy/PolicyRuntime.ts:544-552 | An ancestor's review installs only what lies within the scope and lifetime of the authority that holds then, and covers the target |
| `PolicyAuthority.AncestorGrantsBelow` | src/policy/PolicyRuntime.ts:544-567 | Its policy reaches the requester and the agents between, never the authority or anyone else |
| `PolicyAuthority.ScopesWithin` | src/policy/PolicyRuntime.ts:771-789 | Every scope offered to a reviewer covers the target and is covered by the authority's scope |
| `PolicyInvariants.InheritedAuthority` | src/policy/PolicyRuntime.ts:1123-1152 | A new principal may do by itself exactly what its parent could authorize in the inherited areas, for the session |
| `PolicyInvariants.RootFallbackMeaning` | src/policy/PolicyRuntime.ts:1160-1192 | The fallback engine answers exactly what the default responses say, at the root scope |
| `PolicyEngine.BestIsNearest` | src/policy/PolicyEngine.ts:15-39 | The lookup by longest pattern text gives the status of the nearest scope that covers the target |
| `PolicyEngine.AddOneMeaning` | src/policy/PolicyEngine.ts:58-73 | Adding a policy changes the statuses of its pattern and accesses and no others |
| `PolicyEngine.RemoveOneMeaning` | src/policy/PolicyEngine.ts:75-83 | Removing takes those accesses of that pattern away and no others |
| `PolicyEngine.Engine.AddPolicies` | src/policy/PolicyEngine.ts:58-73 | The loop merges each policy in place or appends it |
| `PolicyEngine.Engine.RemovePolicies` | src/policy/PolicyEngine.ts:75-83 | The loop removes accesses in place and a policy left empty |
| `PolicyEngine.Engine.EvaluateStored` | src/policy/PolicyEngine.ts:48-56 | The loop over the stored policies finds the best match |
| `PolicyScope.CoversIsPrefix` | src/policy/PolicyScope.ts:38-50 | A scope covers a target exactly if its path is a prefix of the target's |
| `PolicyScope.PolicyScopeHierarchy` | src/policy/PolicyScope.ts:16-36 | The loop gives the target and its ancestors up to the limit, the root always last |
| `PolicyScope.HierarchyCovers` | src/policy/PolicyScope.ts:16-36 | Every scope of the hierarchy covers the target; the target and the root are among them |
| `PolicyRuntime.Runtime.RegisterPolicyPrincipal` | src/policy/PolicyRuntime.ts:242-268 | Registers under a free name below a live parent with the inherited session policies |
| `PolicyRuntime.Runtime.RemovePolicyPrincipal` | src/policy/PolicyRuntime.ts:279-296 | Removes a leaf other than the root; requests go on holding the object |
| `PolicyRuntime.Runtime.SetDefaultResponse` | src/policy/PolicyRuntime.ts:225-230 | Changes the default, its revision and the fallback engine together |
| `PolicyRuntime.Runtime.EvaluateAccess` | src/policy/PolicyRuntime.ts:351-438 | Decides one access or starts the review the nearest authority or the default asks for |
| `PolicyRuntime.Runtime.ResolveAncestorAuthority` | src/policy/PolicyRuntime.ts:440-470 | The walk up finds the nearest ancestor with something to say |
| `PolicyRuntime.Runtime.QueuedUserApprovalResolution` | src/policy/PolicyRuntime.ts:994-1027 | The full check before the user is asked |
| `PolicyRuntime.Runtime.CompleteUserApproval` | src/policy/PolicyRuntime.ts:1029-1105 | Installs the user's choice at the root and below on the path, or answers without it |
| `PolicyRuntime.Runtime.CompleteAncestorReview` | src/policy/PolicyRuntime.ts:520-572 | Installs an ancestor's valid choice below the authority, or answers without it |
| `PolicyRuntime.Runtime.CompleteLlmReview` | src/policy/PolicyRuntime.ts:610-673 | Installs the default reviewer's valid choice on the whole path, or answers without it |
| `PausableTimeout.TimerAccounting` | src/runtime/PausableTimeout.ts:43-101 | Whatever is done to a timer, and whenever, its callback runs at most once and only after its unpaused time reached the budget |
| `PausableTimeout.ExpiresExactly` | src/runtime/PausableTimeout.ts:43-90 | A running timer expires at a pause or system timer if and only if its unpaused time has reached the budget, and at nothing else |
| `PausableTimeout.DueInTime` | src/runtime/PausableTimeout.ts:72-83 | The system timer of a running timeout is set for the moment its budget will be used up, or for 2147483647 ms if that comes first |
| `PausableTimeout.NeverLate` | src/runtime/PausableTimeout.ts:43-101 | If the system timer goes off no later than it is due, no more unpaused time than the budget is ever counted, and the callback comes exactly when it is used up |
| `PausableTimeout.Timeout.PauseTimer` | src/runtime/PausableTimeout.ts:43-62 | Takes a token; the first one stops the clock, and an exhausted budget expires instead |
| `PausableTimeout.Timeout.ReleaseToken` | src/runtime/PausableTimeout.ts:56-61 | The last token released starts the clock again; releasing twice does nothing |
| `ApprovalWaitSafety.TimersFollowScopes` | src/runtime/ApprovalWaitScope.ts:74-146 | Over every run of a tree of scopes: callbacks run at most once and only when due, an attached timer holds exactly one pause if its scope waits and none otherwise, and the timers of a closed scope are disposed |
| `ApprovalWaitSafety.WaitsFollowCallers` | src/runtime/ApprovalWaitScope.ts:32-72 | Over every run, a scope waits if and only if a caller holds back a wait at it or below it through open scopes; listeners were told last what is true; an open parent waits whenever an open child does |
| `ApprovalWaitStays.WaitsStay` | src/runtime/ApprovalWaitScope.ts:32-54 | A caller's wait is kept up until the caller releases it or its scope is closed |
| `ApprovalWaitStays.TimersStay` | src/runtime/ApprovalWaitScope.ts:74-146 | A timer leaves its scope only by expiring, by being disposed, or with its scope |
| `ApprovalWaitStays.ListenersStay` | src/runtime/ApprovalWaitScope.ts:57-72 | A listener stays until it is removed or its scope is closed |
| `ApprovalWaitStays.BeginGivesWait` | src/runtime/ApprovalWaitScope.ts:32-54 | Beginning a wait in an open scope gives the caller a new one; in a closed scope nothing happens |
| `ApprovalWaitStays.TimeoutJoins` | src/runtime/ApprovalWaitScope.ts:74-87 | A new timer joins its scope, unless the scope waits and its budget is zero: then it has expired |
| `ApprovalWaitStays.CloseEmpties` | src/runtime/ApprovalWaitScope.ts:89-104 | A closed scope has no waits, timers or listeners left |
| `ApprovalWaitGraph.WaitsIffHeldBack` | src/runtime/ApprovalWaitScope.ts:28-54 | The same equivalence for any consistent tree of waits |
| `ApprovalWaitScope.WaitScopes.BeginScopeWait` | src/runtime/ApprovalWaitScope.ts:32-54 | Begins a wait here and up the open parents, pausing timers on the way |
| `ApprovalWaitScope.WaitScopes.EndScopeWait` | src/runtime/ApprovalWaitScope.ts:35-42 | Ends a wait once, here and where it was carried |
| `ApprovalWaitScope.WaitScopes.UpdateScope` | src/runtime/ApprovalWaitScope.ts:106-141 | On a change pauses or resumes every timer and tells every listener; an expiring timer leaves the scope |
| `ApprovalWaitScope.WaitScopes.CloseTheScope` | src/runtime/ApprovalWaitScope.ts:89-104 | Disposes the timers first, then ends the waits, oldest first |
| `ApprovalWaitScope.WaitScopes.RegisterTimeout` | src/runtime/ApprovalWaitScope.ts:74-87 | Refuses a closed scope or an invalid budget; a new timer of a waiting scope is paused at once |
| `ChunkedCompaction.ChunksConcatenate` | experiments/compaction/ChunkedCompaction.ts:110-159 | The chunks one after the other are the messages |
| `ChunkedCompaction.CallsStayTogether` | experiments/compaction/ChunkedCompaction.ts:118-132 | No chunk boundary lies between a tool call and the last later result of its identifier |
| `ChunkedCompaction.SpanIsLeastClosed` | experiments/compaction/ChunkedCompaction.ts:118-132 | A bundle is the least span that no call's results escape |
| `ChunkedCompaction.ChunkSizes` | experiments/compaction/ChunkedCompaction.ts:118-158 | Every chunk is a row of least spans that no call's results escape; by the estimates of their messages, the first with the previous summary, it exceeds the target only if it is a single one, and the next chunk's first did not fit |
| `ChunkedCompaction.MakeChunks` | experiments/compaction/ChunkedCompaction.ts:110-159 | The loops compute exactly these chunks |
| `BenchmarkSchedule.ShuffledTrialsOnce` | experiments/compaction/BenchmarkStatistics.ts:68-87 | Whatever the shuffles gave, each case, strategy and repetition occurs exactly once and nothing else does |
| `BenchmarkSchedule.BlocksContiguous` | experiments/compaction/BenchmarkStatistics.ts:78-85 | Whatever the shuffles gave, the repetitions of a case are consecutive blocks of the schedule, and each of these stretches holds every strategy once and nothing else |
| `BenchmarkSchedule.Balanced` | experiments/compaction/BenchmarkStatistics.ts:80-84 | In the schedule, if the repetitions are a multiple of the strategies, every strategy stands at every position of a case's blocks equally often |
| `BenchmarkSchedule.ScheduleBenchmark` | experiments/compaction/BenchmarkStatistics.ts:68-87 | Refuses blank, repeated or missing identifiers, then repetitions that are no positive safe integer, then a seed that is no safe integer; otherwise returns the one schedule that belongs to the seed |
| `BenchmarkSchedule.Shuffled` | experiments/compaction/BenchmarkStatistics.ts:305-309 | The in-place exchanges with the positions that the seeded generator draws |
| `BenchmarkSchedule.ShuffleByPicks` | experiments/compaction/BenchmarkStatistics.ts:305-313 | A shuffle is the order made by the positions drawn, scaled from 32-bit draws |
| `BenchmarkSchedule.FirstDraws` | experiments/compaction/BenchmarkStatistics.ts:310-313 | The 32-bit generator on three seeds: their first draws |
| `BenchmarkSchedule.EveryOrderOnce` | experiments/compaction/BenchmarkStatistics.ts:305-309 | Among distinct values every order comes from exactly one row of positions |
| `BenchmarkSchedule.PlannedOrders` | experiments/compaction/BenchmarkStatistics.ts:76-79 | The orders that belong to a seed are permutations of the cases and of the strategies |
| `BenchmarkSchedule.TrialAt` | experiments/compaction/BenchmarkStatistics.ts:78-85 | At each place of the schedule: in repetition r of a case, place k holds the strategy at (k + r) modulo their number in the order drawn for the case |
| `BudgetLedger.LedgerSafety` | experiments/compaction/BudgetedModel.ts:115-204 | Over any interleaving, reserved and spent are the sums over the calls, stay within the cap unless the ledger is blocked, and the call limit holds |
| `BudgetLedger.NoCallAfterBlocking` | experiments/compaction/BudgetedModel.ts:115-140 | Once blocked, the ledger stays blocked for the same reason and no call starts |
| `BudgetLedger.ReservationCovers` | experiments/compaction/BudgetedModel.ts:122-130 | A call billed by any one tier within the counted bytes and reserved output costs no more than was reserved |
| `BudgetLedger.ReservationExact` | experiments/compaction/BudgetedModel.ts:122-130 | The reservation is the cost of the counts at the dearest input and the dearest output rate |
| `BudgetLedger.StartMeaning` | experiments/compaction/BudgetedModel.ts:115-140 | A call starts exactly if the ledger is not blocked, calls are left and the reservation fits under the cap; otherwise nothing is reserved and the first reason that applies blocks |
| `BudgetLedger.SettleMeaning` | experiments/compaction/BudgetedModel.ts:166-204 | A response settles its call exactly if it finished with valid usage: the reservation comes back and the cost is paid, and the ledger blocks exactly if that exceeds the reservation or the cap; any other response keeps the reservation and blocks |
| `BudgetLedger.ValidUsageMeaning` | experiments/compaction/BudgetedModel.ts:160-187 | Usage is valid exactly if its numbers are known, some token was used, and the total is within a millionth, or 10^-12, of its parts |
| `BudgetedModel.EstimateExact` | experiments/compaction/BudgetedModel.ts:122-130 | The amount reserved for a request is the cost of its bytes plus 256 and of the expanded least of its three output limits, at the dearest rates |
| `BudgetedModel.EstimateCovers` | experiments/compaction/BudgetedModel.ts:122-130 | Every bill of one tier within these counts is at most the amount reserved |
| `BudgetedModel.Determined` | experiments/compaction/BudgetedModel.ts:122-130 | No other amount covers all such bills and is as low |
| `BudgetedModel.FairBillsNeverBlock` | experiments/compaction/BudgetedModel.ts:115-204 | In every run in which all usage is valid and within the counts of its request, no settlement blocks the ledger for exceeding a reservation |
| `BudgetedModel.Model.StartRequest` | experiments/compaction/BudgetedModel.ts:115-165 | Reserves before the provider is asked, or refuses for the first reason that applies, as a step of the ledger |
| `BudgetedModel.Model.Meter` | experiments/compaction/BudgetedModel.ts:166-204 | Settles the call, or keeps its reservation and blocks, as a step of the ledger |

## Left out

- JournalAnswers.PrepareMeaning: supposes that no other capture of the profile is retained under the snapshot's fingerprint.
- JournalPaging.DrainSkipsNothing: rows are known by numbers in the order of profile and session; decoding a row is not part of it.
- JournalPaging.EnumerateSkipsNothing: rows are known by numbers in the order of capture identifiers.
- ArchiveScanRefusals.OnlySnagsRefuse: does not say when the budget of 256 ends a page inside a directory with a minus sign, which depends on how many entries lie between two items.
- BudgetLedger.LedgerSafety: sums are exact reals; floating-point rounding is not modelled.
- BenchmarkSchedule.Shuffled: a draw is scaled exactly; the rounding of a floating-point draw is not modelled.
- ApprovalWaitSafety.TimersFollowScopes: listeners and callbacks do not call back into the scopes and do not throw; scopes are entries of one object's sequences, not objects of their own.
- HandoffSafety.NoLostWakeup: a worker that ends by an exception counts as a crash; a crash is repaired by the next launch.
- PolicySafety.StalenessSafety: only the two filesystem accesses are modelled; a choice's reason, audit records and deadlines are inputs or left out.
- PolicyEffect.ChoiceHolds: says nothing of a user's choice that is about another access or does not cover the target, which the program installs as it stands.
- PolicySafety.AuthorityNeverWidens: the database is what this runtime loaded and wrote; other writers of the same file are not modelled.
- PolicyRuntime.Runtime.EvaluateAccess: of a tool call only one access at a time; the native filesystem views and their notifications are left out.
- ArchiveSessions.Sessions.CaptureSource: the catalog and membership part; reading and parsing a transcript and the text of its warnings are left out.
- Network policy scopes and the parsing of URIs; links in filesystem targets that are resolved before a scope is compared.
- Abort signals, permission and inode checks, and reading a file until it is stable.
- Decoding of stored text: metadata, URLs, receipts and their size limits; a damaged file is one that fails to decode.
- The archive engine behind the worker is an import that commits and may refuse, and a step that says whether work is left; its own tables are not part of this model.
- The HTTP client, the lock file, child processes and fsync: a lock, atomic durable steps and a server that honours conditions.
- The comparison of archive list pages, session metadata and preservation receipts.
- The adapter's expansion of an output limit for reasoning is a function given to the ledger.
- Value retention, medians, geometric means, bootstrap intervals and the printed reports.
