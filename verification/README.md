# Verified model of the Tincan client

Tincan lets agents on different machines exchange messages through a relay. Its Go client keeps
two kinds of durable private state on each machine, and its Python SDK schedules workers. This
project models the parts where crashes, lost answers and interleavings matter and proves what
they promise.

- **The commitment controller** turns received events into work records and is the only thing
  that changes them. `Commitments`, `Scheduling` and `Dependencies` are its vocabulary;
  `Operations` says what each operation does to the stored state; `Effects` and `BatchEffects` say
  for each operation exactly when it is stored and what it leaves in every record; `Inbox` is the
  controller itself, a class whose methods search and update the records step by step and commit with one
  save. `ControllerRuns` to `ControllerTheorems` let the operations interleave with restarts,
  failed writes and reply posts that take arbitrarily long; `Progress` is about what can start
  and what may be repeated; `Storage` is about the state file, `Ingestion` about connections to
  the event stream, `Lifetimes` about a whole life from a new inbox with receipt among all other
  operations, `Wakeups` about the background consumers.
- **Encrypted rooms.** `Encryption` has rosters, envelopes and the MLS engine as an abstract
  ratchet (sections 9.2 and 14 of RFC 9420); `Rosters` and `Membership` are the owner's changes
  to a roster, `RosterEffects` what each makes of devices and rooms, `Admission` what it does to the
  owner, members, newcomers and revoked devices once published, and `RoomChanges` what becomes of the two that setting a room member may need. `Sessions` is the saved state of one device and the effect of a journal row,
  `Journal` what replaying keeps, `Authenticity` where everything it takes comes from, `Sealing` what a device prepares to publish, `Replica` the
  client that does all this in place. `DeviceRuns` to `DeviceTheorems` are runs of one device
  against a relay, with crashes, failed saves, lost, late and repeated requests; `Snapshots` is
  about going back to an older saved state, `Stranding` about a device that looks too far ahead,
  `Readability` about who can read what it seals and a guard that keeps it in place, `SharedKeys`
  about devices with one signing key.
- **Encrypted history.** `SearchIndex` is the keyed trigram filter with its bit operations,
  `History` the paged search, which archives and indexes what it reads, `Backup` backing up and
  restoring under another key, `Archive` a store over its whole life under all of these, `Rejections` the same
  together with the session that is saved in the same file.
- **The Python dispatcher** is `Dispatch`.

Methods carry contracts against specification functions (`state == After(old(state), ...)`), and
the properties are lemmas about those functions and about runs of them. `disk` and `saved`
parameters say whether a write succeeds; answers of the relay, fresh tokens, random keys and
decision IDs are parameters.

What the model takes for granted about the outside:

- Hashes, signatures, MACs and sealed boxes are free terms or functions passed as parameters. No
  two different things have the same hash, and nobody else signs with a device's key. Lower-casing
  twice is the same as once.
- Claim tokens, decision IDs and the keys of file uploads have not been used before.
- The relay publishes a membership only as the signed successor of the newest one, takes an
  envelope only in its current membership epoch, answers a request for the newest membership with
  the newest one, and refuses definitively only what it has not published. A repeated post of the
  same membership is accepted as published, and one it has refused definitively is not taken
  later from a late copy of the request.
- Device runs are about the group of one encrypted room. Room members are set only in the older
  group of a whole workspace, so that change is not among their operations; `RoomChanges` is about
  it alone.
- Different messages have different identities in the archive, the journal holds each message
  once, and a backup holds entries as this client writes them.
- What an inbox accepts changes only together with a save, as far as `Wakeups` is concerned: a
  waiting call does not look again when only the configuration has changed. The runs of the
  controller let it change at any time.

Where the code and its own words differ, the model follows the code:

- After "encryption synchronization incomplete; retry before sending" a retry does not help when
  the relay's newest membership was not yet read from the journal: it has become the active one
  already (cmd/tincan/encryption.go:406-412) and every later synchronization stops at the first
  unread membership. `Stranding.RefreshKeepsPlace` says exactly when, `Stranding.RefreshGuard` and
  `Readability.RefreshGuardInPlace` how the device could tell before it replaces the active
  membership, once admitted and while still waiting, `Readability.GuardedStaysInPlace` that a device
  that always does is never stranded, `Stranding.StrandedForGood` that nothing later helps
  otherwise, and `Stranding.StrandedExample` is a run in which it happens to an admitted member.
- "synchronize MLS membership before sending" (cmd/tincan/encryption_mls.go:368-370) never stops a
  message, because sending takes the newest membership just before (cmd/tincan/encryption.go:534-553).
  If one was published since the session synchronized, the message names it over a capsule of the
  group before it; the relay takes it and every member in step rejects it. `Readability.ReadableExactly`
  says exactly when, and `Readability.UnreadableExample` is a run.
- Setting a room member when no rooms were managed before publishes the room policy as one
  membership and offers the change as a second, which names the first as it was before it was
  signed (cmd/tincan/encryption_room_policy.go:86-105), so the relay refuses it. The change is
  taken exactly when rooms were managed before (`RoomChanges.MemberChangeTaken`), and
  `RoomChanges.MemberChangeExample` is a room and a policy for which it is not.
- A reply without a claim reopens a declined or cancelled record;
  `ControllerTheorems.UnclaimedReplyReopens` gives the exact condition and `Lifetimes.ReopenExample`
  a life in which it happens. No tool sends one: the
  inbox server refuses it (cmd/tincan/inbox_mcp.go:138-143), and the plugin, which admits it for
  the host `codex-worker` (cmd/tincan/plugin.go:714-717), is not reached with it, because a worker's
  reply is kept back as the end of its turn (cmd/tincan/worker.go:76-97) and the bridge to the owner
  accepts controller decisions only (cmd/tincan/plugin_inbox_owner.go:198).
- `waitAcknowledged` waits without making the channel that a save closes. Nothing in the client
  calls it; `Wakeups.BareWaitWakes` says exactly when such a wait would end.
- The engine's check of the group's members means the same members exactly when no two listed
  devices share a signing key (`Journal.KeysMatch`); `SharedKeys.SharedKeyExample` is a membership
  for which it does not. An owner running this client never publishes one
  (`SharedKeys.OwnerKeysDiffer`).
- Restoring a backup indexes the texts it brings without asking whether their messages are
  rejected (cmd/tincan/encryption_history.go:155-180), but a rejected message shows a placeholder
  (cmd/tincan/encryption.go:614-620). So the index may hide it from a search for the placeholder's
  words: exactly when `Archive.SearchIsExact` says, never without a backup
  (`Rejections.ExactWithoutBackup`), and for instance in `Rejections.MissedExample`.

## Model

| member | source | states |
|---|---|---|
| ControllerTheorems.ApprovalGate | cmd/tincan/inbox_requests.go:362-441 | Over any run a record awaiting approval keeps awaiting that very question until an approve or decline of that question with a non-blank source is stored; nothing else, restarts included, moves it |
| ControllerTheorems.GateOpensExactly | cmd/tincan/inbox_requests.go:385-408 | One step moves a record out of approval if and only if it is such a decision, within the size limits, and its write succeeds |
| ControllerTheorems.AnsweredOnce | cmd/tincan/inbox_requests.go:388-396 | In a whole run each question is answered at most once, for one record |
| ControllerTheorems.OwnershipTransfer | cmd/tincan/inbox_claim.go:29-92 | Two different claims of one record are always separated by a release or safe outcome under the first token, or by a resume that vouches that its worker stopped |
| ControllerTheorems.WorkRecorded | cmd/tincan/inbox_requests.go:267-441 | Over any run the continuation context only grows, and a record cannot come to be claimed anew without counting a further attempt |
| ControllerTheorems.RetiredForever | cmd/tincan/inbox_claim.go:77-92 | A claim token once given up never names a claim again |
| ControllerTheorems.RetiredTokenInert | cmd/tincan/inbox_requests.go:233-244 | No operation that presents such a token changes the state, whether or not its record is still there |
| ControllerTheorems.ReplyWaits | cmd/tincan/inbox.go:371-452 | A saved reply keeps its text and its status until a successful delivery of that text |
| ControllerTheorems.InFlightFrozen | cmd/tincan/inbox.go:424-452 | While a post is under way without the lock, its record keeps the reply that was posted |
| ControllerTheorems.OneTextPerRecord | cmd/tincan/inbox_mcp.go:138-143 | All posts for one event in a whole run carry the same text when replies come through the tools |
| ControllerTheorems.UnclaimedReplyReopens | cmd/tincan/inbox.go:371-420 | A reply without a claim is saved on a closed record exactly when that record is not completed, may be answered and the text is acceptable |
| Lifetimes.ReopenExample | cmd/tincan/inbox.go:371-420 | A life of an inbox in which a cancelled record is opened again by such a reply |
| ControllerTheorems.LocksExclude | cmd/tincan/inbox_requests.go:134-179 | Any two claimed records that are not announcements have disjoint resources, different collaboration requests and different tokens, also during recovery and delivery and after restarts |
| ControllerTheorems.WorkerBound | cmd/tincan/inbox_requests.go:141-153 | Running work never exceeds a worker limit that was in force at some earlier point of the run, and never 32 |
| ControllerTheorems.DependenciesStayAcyclic | cmd/tincan/inbox_requests.go:472-521 | In every reachable state no chain of dependencies repeats a record or leaves the known ones |
| ControllerTheorems.OrderHolds | cmd/tincan/inbox_requests.go:92-113 | In every reachable state records are in falling priority, and join notices and direct mentions in order of arrival |
| ControllerTheorems.UrgentFirst | cmd/tincan/inbox_requests.go:98-113 | In every reachable state join requests stand first, then messages that mention the agent, then work with a pressing classification of enough confidence |
| ControllerTheorems.RecordsStay | cmd/tincan/inbox_requests.go:207-232 | No operation ever removes a record |
| ControllerTheorems.ClosedStays | cmd/tincan/inbox_requests.go:131-133 | Through the tools a completed, declined or cancelled record stays closed |
| ControllerInvariant.StepKeeps | cmd/tincan/inbox.go:181-214 | Every operation, with its write failing or not, keeps the controller's invariant, and none ever produces a state that its own check would refuse |
| ControllerLaws.StepEvolves | cmd/tincan/inbox_requests.go:267-441 | Every record of one state has a successor in the next that obeys the rules for approvals, owners, replies and answers |
| ControllerBatches.RestartGood | cmd/tincan/inbox.go:141-167 | Taking over a reachable state keeps the order and the invariant and changes running work only |
| ControllerBatches.ClaimGood | cmd/tincan/inbox_claim.go:29-69 | A new claim respects exclusion, the worker bound and all other invariants |
| ControllerBatches.PlanGood | cmd/tincan/inbox_requests.go:472-521 | A new plan keeps the whole graph sound and the locks exclusive |
| ControllerBatches.IngestGood | cmd/tincan/inbox_requests.go:207-232 | Receiving any event, classifications of claimed work included, keeps the invariant |
| ControllerBatches.PolicyGood | cmd/tincan/inbox_requests.go:443-468 | Any accepted policy, also one below the current load, keeps the invariant |
| ControllerSteps.DecideGood | cmd/tincan/inbox_requests.go:362-441 | Every decision keeps the invariant |
| Effects.DecideEffect | cmd/tincan/inbox_requests.go:362-441 | A decision is stored exactly when it has a source, applies to the record and stays within the limits; for every action it says what status, claim, answer, reply and decision the record then has, that its context is the old one and exactly the text of the user, and that all other records are as before |
| Effects.DecidedBefore | cmd/tincan/inbox_requests.go:376-395 | A decision succeeds without being stored exactly when the same one was made before by the same source |
| Effects.PlanEffect | cmd/tincan/inbox_requests.go:472-521 | A stored plan gives the record exactly the given dependencies and resources and changes nothing else |
| Effects.PlannedLocks | cmd/tincan/inbox_requests.go:154-188 | After a plan that names a key of claimed work no claim of the planned record is stored, unless it is an announcement |
| Effects.ClaimEffect | cmd/tincan/inbox_claim.go:29-69 | A claim is stored exactly when the worker has a proper name, the event concerns this inbox, nobody holds the record, a worker is left, every dependency is completed and no claimed work shares a resource, request or suggestion; it makes the record running and counts an attempt |
| Effects.ToldHolds | cmd/tincan/inbox_claim.go:29-69 | A worker that is told a token holds the running record with it; a repeated claim is told the token it has |
| Effects.ReleaseEffect | cmd/tincan/inbox_claim.go:77-92 | Exactly the holder makes the record ready again, unless a reply waits |
| Effects.AckEffect | cmd/tincan/inbox.go:330-369 | Exactly an entitled caller ends an open record without a waiting reply; it ends declined if that was decided, else completed |
| Effects.ReplyEffect | cmd/tincan/inbox.go:371-420 | A reply is saved exactly when the caller is entitled, none waits, the record is not completed and may be answered, and the text is acceptable |
| Effects.AnsweredBefore | cmd/tincan/inbox.go:330-420 | Exactly when completing or replying succeeds without storing anything |
| Effects.SuspendEffect | cmd/tincan/inbox_requests.go:298-341 | A report that stops the work is stored exactly from the holder; status, summary, checkpoint, question and the kept or freed claim are as reported |
| Effects.ReportedBefore | cmd/tincan/inbox_requests.go:298-301 | A report or a batch of clarifications succeeds without being stored exactly when it repeats one of the attempt just ended |
| Effects.ReportAccepted | cmd/tincan/inbox_requests.go:267-285 | Which reports are well-formed |
| Effects.PolicyEffect | cmd/tincan/inbox_requests.go:443-468 | A policy is stored exactly within its bounds, with the next revision, and changes no record |
| Effects.RevalidateEffect | cmd/tincan/inbox.go:256-271 | Exactly the ready records that no longer concern this inbox become cancelled |
| Effects.RevalidateQuiet | cmd/tincan/inbox.go:256-271 | Nothing is written exactly when there is nothing to cancel |
| BatchEffects.UpdatesEffect | cmd/tincan/inbox_requests.go:523-561 | Stored clarifications come from the holder and reach unfinished records of its channel; each is extended by exactly the first text meant for it, once in each attempt, and nothing else changes |
| BatchEffects.IngestEffect | cmd/tincan/inbox_requests.go:207-232 | A new event always moves the cursor; it adds a ready record exactly when it is genuine, concerns this inbox and is no classification, a completed one when it is, which is then attached to the messages it is about |
| BatchEffects.AcceptsMeans | cmd/tincan/inbox.go:216-241 | The events that concern an inbox, kind by kind: in particular no own or automated message but an announcement, and no attention meant for another agent |
| ControllerRuns.SortKeeps | cmd/tincan/inbox_requests.go:92-96 | Sorting keeps exclusion, arrival order, the number of workers and the set of records |
| Dependencies.SoundMeansAcyclic | cmd/tincan/inbox_requests.go:491-516 | What the check accepts is exactly: every chain from the record visits existing records only and none twice |
| Dependencies.Check.Visit | cmd/tincan/inbox_requests.go:491-513 | The colouring search with its two sets answers true if and only if the record is sound, for any graph |
| Dependencies.ReplanKeepsOthers | cmd/tincan/inbox_requests.go:472-521 | Checking only the planned record is enough: all others stay sound |
| Progress.NoDeadlock | cmd/tincan/inbox_requests.go:134-188 | With nothing claimed, nothing can start if and only if every ready record waits, through ready ones, for one that is suspended, failed, unanswered, declined or cancelled |
| Progress.ReadyWorkRuns | cmd/tincan/inbox_requests.go:154-159 | If every dependency is completed or ready, some ready record can start |
| Progress.SuspendRetry | cmd/tincan/inbox_requests.go:298-301 | Repeating a suspension whose answer was lost changes nothing and asks no second question |
| Progress.UpdatesRetry | cmd/tincan/inbox_requests.go:535-561 | Repeating clarifications within one attempt adds nothing |
| Scheduling.SortMeaning | cmd/tincan/inbox_requests.go:92-96 | The sort orders by priority and keeps each class in its order |
| Scheduling.StableOrderUnique | cmd/tincan/inbox_requests.go:92-96 | Only one arrangement has that meaning, so any stable sort computes it |
| Scheduling.SortIdempotent | cmd/tincan/inbox_requests.go:92-96 | Sorting a sorted state changes nothing |
| Scheduling.RunnableIsBest | cmd/tincan/inbox_requests.go:180-188 | The chosen record is eligible, of maximal priority and first of its class; none is chosen only when none is eligible |
| Storage.MigrationMeaning | cmd/tincan/inbox_requests.go:46-97 | Loading yields a valid sorted state, permutes version 2 records only, is idempotent, and what is written no version 1 program accepts |
| Storage.CrashRecovery | cmd/tincan/inbox.go:141-167 | After a crash cursor, policy and records return unchanged, except that exactly the running ones need recovery, still claimed by the same worker |
| Storage.RestartMeaning | cmd/tincan/inbox.go:141-167 | For any valid state and agent each record returns with its mention looked up anew, running ones in need of recovery, and the records are sorted again when there were any |
| Storage.LegacyStarts | cmd/tincan/inbox_requests.go:50-69 | Any acceptable version 1 file becomes a state from which every run keeps the invariant |
| Storage.LegacyMeaning | cmd/tincan/inbox_requests.go:46-69 | Exactly which version 1 files are read; their one event becomes one record with the claim and reply of the file and the status they mean |
| Storage.ReadableFiles | cmd/tincan/inbox_requests.go:46-91 | Exactly which files of the current format are read: distinct numbers up to the cursor, known statuses, and claims and questions where the status needs them |
| Ingestion.ConnectionsExactlyOnce | cmd/tincan/inbox_stream.go:41-80 | However many connections there are, each delivering a stretch of the log from at or before the cursor and cut off anywhere, the state is that of ingesting the next n events of the log once each, and the cursor never goes back |
| Ingestion.ExactlyOnce | cmd/tincan/inbox_stream.go:182-263 | Deliveries that repeat old events and otherwise follow the log have the effect of ingesting a stretch of the log once |
| Ingestion.StretchInOrder | cmd/tincan/inbox_stream.go:41-80 | What one connection delivers up to its first failure follows the log in this sense |
| Lifetimes.TakenOnce | cmd/tincan/inbox_requests.go:207-232 | Of two deliveries of an event at any two points of a run, with any operations, restarts and failed writes between them, the later changes nothing once the earlier was stored |
| Lifetimes.CursorGrows | cmd/tincan/inbox_requests.go:207-232 | Over any run the cursor only grows |
| Lifetimes.AlwaysRecoverable | cmd/tincan/inbox.go:96-168 | At every point of a life that began with a new inbox a new process can take over all records, cursor and policy, and running work is within a limit once in force |
| Ingestion.SameCursorSameRecords | cmd/tincan/inbox_stream.go:41-80 | Two histories of deliveries that reach the same cursor leave the same state |
| Ingestion.IngestAdvances | cmd/tincan/inbox_requests.go:207-232 | A new event always yields a state that can be stored, with the cursor at the event and no record lost |
| Ingestion.Consume | cmd/tincan/inbox_stream.go:182-263 | One connection takes deliveries up to the first that fails and leaves exactly their combined effect |
| Wakeups.DispatcherMissesNothing | cmd/tincan/inbox_dispatch.go:12-66 | A dispatcher asleep on an open channel has announced everything the current state calls for |
| Wakeups.EverythingTold | cmd/tincan/inbox_dispatch.go:22-59 | In other words: every record that can start, every question that waits to be presented and every record in trouble has been announced by the notice for its present state |
| Wakeups.NothingElseTold | cmd/tincan/inbox_dispatch.go:22-59 | Whatever was announced in a run was called for in one of these ways by a state of that run |
| Wakeups.OutboxMissesNothing | cmd/tincan/inbox_dispatch.go:69-106 | An outbox asleep on an open channel has no reply left to send |
| Wakeups.ListenerMissesNothing | cmd/tincan/inbox_wait.go:43-152 | A waiting call asleep on an open channel would return nothing from the current state |
| Wakeups.NothingWithheld | cmd/tincan/inbox_wait.go:43-152 | In other words: what can start and concerns the inbox is an announcement already shown to this worker, and every pending question has been shown to it |
| Wakeups.ShownWasReturned | cmd/tincan/inbox_wait.go:83-152 | What counts as shown to a worker was returned by a call of that worker in the run |
| Wakeups.ReturnedIsWanted | cmd/tincan/inbox_wait.go:83-152 | What a call returns can start and concerns the inbox, or is a question that waits to be presented |
| Wakeups.PresentedOnce | cmd/tincan/inbox_wait.go:83-152 | No announcement, join request or question is returned to the same worker twice in a run |
| Wakeups.SaveWakes | cmd/tincan/inbox_wait.go:23-28 | After any save every sleeper can go on |
| Wakeups.OneListener | cmd/tincan/inbox_wait.go:66-82 | At most one call waits at a time, and the slot is free exactly when none does |
| Wakeups.Announce | cmd/tincan/inbox_dispatch.go:22-59 | One pass gives exactly the notices the previous pass did not have |
| Wakeups.PassCovers | cmd/tincan/inbox_dispatch.go:48-58 | Every notice a state calls for is given in this pass or was given before |
| Wakeups.PassSettles | cmd/tincan/inbox_dispatch.go:48-59 | A second pass over the same state gives nothing |
| Wakeups.BareWaitWakes | cmd/tincan/inbox_stream.go:90-106 | A wait that does not make the channel, started at any point of a run, can go on at a later one if and only if a step before it began had made the channel and one since then closed it |
| Wakeups.BareWaitMisses | cmd/tincan/inbox_stream.go:90-106 | There is a run in which a save happens and such a wait goes on sleeping |
| Inbox.Load | cmd/tincan/inbox_requests.go:46-97 | Reading a file of either version step by step gives the migrated state or refuses it |
| Inbox.Controller.Open | cmd/tincan/inbox.go:96-168 | A new process holds the recovered state; it fails only on a refused file or when recovered work cannot be saved |
| Inbox.Controller.Save | cmd/tincan/inbox.go:181-214 | An atomic replacement: the checked and sorted state, or nothing when the check or the write fails |
| Inbox.CheckState | cmd/tincan/inbox_requests.go:70-91 | The check with its set of seen numbers decides exactly the validity of a state |
| Inbox.SortStable | cmd/tincan/inbox_requests.go:92-96 | Step-by-step insertion is the stable order by priority |
| Inbox.Controller.IsEligible | cmd/tincan/inbox_requests.go:134-179 | The counting and comparing loops decide eligibility, announcements first |
| Inbox.Controller.NextRunnable | cmd/tincan/inbox_requests.go:180-188 | The scan finds the first eligible record |
| Inbox.Controller.Ingest | cmd/tincan/inbox_requests.go:207-232 | Receipt moves the cursor, adds at most one record and attaches classifications, in one save |
| Inbox.Controller.Claim | cmd/tincan/inbox_claim.go:29-69 | A claim is new, repeated for its own running worker, or refused, and counts an attempt exactly when new |
| Inbox.Controller.Release | cmd/tincan/inbox_claim.go:77-92 | Only the holder gives a claim up, and not while a reply is undelivered |
| Inbox.Controller.Ack | cmd/tincan/inbox.go:330-369 | Completion under the claim rules; a declined decision ends declined |
| Inbox.Controller.Reply | cmd/tincan/inbox.go:371-420 | The first acceptable text is saved, a later one never replaces it |
| Inbox.Controller.EndDelivery | cmd/tincan/inbox.go:424-452 | The second half of a delivery completes the record or marks the failure once |
| Inbox.Controller.Outcome | cmd/tincan/inbox_requests.go:267-341 | Clarifications first, then completion, reply or suspension, each committed on its own |
| Inbox.Controller.Decide | cmd/tincan/inbox_requests.go:362-441 | The decision rules with all their refusals |
| Inbox.Controller.SetPolicy | cmd/tincan/inbox_requests.go:443-468 | Bounds are enforced and each accepted policy gets the next revision |
| Inbox.Controller.Plan | cmd/tincan/inbox_requests.go:472-521 | A plan is stored exactly when it is within bounds and the search accepts it |
| Inbox.Controller.ContextUpdates | cmd/tincan/inbox_requests.go:523-561 | All clarifications are applied together or none is |
| Inbox.Controller.Revalidate | cmd/tincan/inbox.go:256-271 | Ready records no longer acceptable are cancelled, others untouched |
| Encryption.WindowIsExact | crypto/mls/src/main.rs:38-44 | Deliveries from one sender in any order all open exactly when none repeats, none is more than 128 behind the newest and none more than 4096 ahead |
| Encryption.ChannelNamesRoom | internal/e2ee/crypto.go:285-301 | A channel identifier made for a room names that room, whatever underscores the room has |
| Encryption.ChannelForm | internal/e2ee/crypto.go:285-301 | A channel identifier names a room exactly when it is the prefix, the room and a part without underscores |
| Rosters.SortIsStrict | internal/e2ee/crypto.go:143-150 | Signing yields the order readers demand exactly when all agents differ |
| Rosters.ChangeExtendsChain | cmd/tincan/encryption.go:1104-1226 | Every change extends the chain by one epoch with the right previous hash and, once signed, is trusted; an admission exactly when the device is new |
| Rosters.CreatorStays | cmd/tincan/encryption.go:1187-1200 | No change loses or replaces the owner's device |
| Rosters.RoomsFollow | cmd/tincan/encryption_room_policy.go:19-137 | Every room goes on listing members only, whatever the relay reported |
| RosterEffects.ChangeEffect | cmd/tincan/encryption_room_policy.go:19-137 | For every change which devices are listed and who is in which room afterwards: an admission adds one device in one room, a revocation removes one agent everywhere, setting a room member adds or removes exactly it, a policy is taken over for listed devices; nothing else changes |
| RosterEffects.ChangeRefused | cmd/tincan/encryption_room_policy.go:84-137 | Exactly when a change is refused |
| RosterEffects.SortedInOrder | cmd/tincan/encryption_room_policy.go:126 | Names of a room come out in order |
| Admission.MembersFollow | cmd/tincan/encryption_mls.go:226-264 | Every member in step that the published membership lists enters it, into the epoch and secrets of the commit of the owner |
| Admission.AdmittedJoins | cmd/tincan/encryption_mls.go:226-264 | The admitted device joins there with the welcome, in the same epoch and with the same secrets |
| Admission.RevokedStops | cmd/tincan/encryption_mls.go:226-264 | A member that it does not list was revoked by this very change and stops as removed |
| Admission.RevokedIsGone | cmd/tincan/encryption.go:1187-1200 | A revoked agent is not listed |
| Admission.OthersWait | cmd/tincan/encryption_mls.go:226-264 | A device that waits for admission and is not listed goes on waiting |
| Rosters.MemberChangeChains | cmd/tincan/encryption_room_policy.go:84-137 | Setting a room member extends the published chain if and only if rooms were managed before |
| RoomChanges.PolicyIsTaken | cmd/tincan/encryption_room_policy.go:86-104 | The membership that first loads the room policy is taken by the relay |
| RoomChanges.MemberChangeTaken | cmd/tincan/encryption_room_policy.go:84-137 | After it, the relay takes the change itself if and only if rooms were managed before |
| RoomChanges.MemberChangeExample | cmd/tincan/encryption_room_policy.go:84-137 | A concrete room and policy where the policy is published and the change is refused |
| Membership.Build | cmd/tincan/encryption_room_policy.go:45-137 | The loops over members and rooms build exactly the changed membership |
| Journal.SyncResumes | cmd/tincan/encryption_mls.go:196-313 | Synchronizing, cut short after any row, and again after the journal has grown is synchronizing once |
| Journal.ChainKept | cmd/tincan/encryption_mls.go:215-229 | What a replay accepts is one gap-free chain signed by the owner, and the active membership is its last link |
| Journal.EpochKept | cmd/tincan/encryption_mls.go:230-264 | A device is outside the group or in the epoch of the active membership with its members and, from the second on, the secrets of its commit |
| Journal.Agreement | cmd/tincan/encryption_mls.go:226-264 | Any two devices that follow the same journal agree on the membership, the group epoch and the group's secrets |
| Journal.KeysMatch | cmd/tincan/encryption_mls.go:99-116 | The comparison of members means equality exactly when signing keys differ |
| SharedKeys.SharedKeyExample | cmd/tincan/encryption_mls.go:99-116 | A signed membership with a shared signing key that passes the comparison against other members |
| SharedKeys.OwnerKeysDiffer | cmd/tincan/encryption_mls.go:482-513 | Over any run of a room's owner, every membership in the journal has different signing keys |
| Journal.RejectionsInvisible | cmd/tincan/encryption_mls.go:265-300 | Deleting all rejected messages changes nothing but the cursor and the list of rejections, faults included |
| Journal.ConsumedOnce | cmd/tincan/encryption_mls.go:315-365 | A consumed key is never taken from the journal again |
| Authenticity.ConsumedIsGenuine | cmd/tincan/encryption_mls.go:282-365 | Every message a replay consumes was made and signed by another device that an owner-signed membership listed, in the epoch the group was then in, bound to its context and not opened before |
| Authenticity.ArchivedIsGenuine | cmd/tincan/encryption_mls.go:315-365 | Every key it archives comes from such a message and was meant for this device; a key for a room only for its members |
| Authenticity.EnteredIsOwners | cmd/tincan/encryption_mls.go:215-264 | A membership is entered only if the owner signed it as the next one; members merge no commit but the one of the owner on their own epoch, and nobody joins without a welcome for its key |
| Authenticity.OpaqueOnlyTurns | cmd/tincan/encryption_mls.go:265-281 | A message the device may not read changes nothing but its place in the ratchet, which is spent |
| Sealing.SealedIsReadable | cmd/tincan/encryption_mls.go:315-446 | What one member seals every member in step reads, nobody twice, and the key reaches the members of its room only |
| Sealing.SealedFor | cmd/tincan/encryption_mls.go:405-421 | In the group of a workspace the key of a message for a room is boxed for exactly the listed members of that room, and only a member seals there; otherwise it is not boxed |
| Sealing.SealsExactly | cmd/tincan/encryption_mls.go:367-445 | A session seals exactly when it has a membership and a group without a pending commit and is in the room it writes to, which has a reader |
| Sealing.SealedVerifies | internal/e2ee/crypto.go:236-264 | What a listed device seals passes the checks of every reader of the membership it names |
| Sealing.RefreshMeans | cmd/tincan/encryption.go:385-412 | The newest membership is taken exactly when the owner signed it for this room and it is not older than or different from what was taken before |
| Readability.ReadableExactly | cmd/tincan/encryption.go:534-553 | What a device seals in any state of any run is read by the members in step with the membership it names if and only if that membership is the one in force at the device's place in the journal; otherwise all of them reject it |
| Readability.UnreadableExample | cmd/tincan/encryption.go:534-553 | A run in which the relay takes such a message and no member reads it |
| Readability.GuardedIsReadable | cmd/tincan/encryption.go:534-553 | A device that refreshes its membership only when the newest one has the epoch it already holds seals nothing unreadable |
| Replica.Client.TakeRoster | cmd/tincan/encryption_mls.go:215-264 | A membership row takes effect as a whole or not at all |
| Replica.Client.ConsumeKey | cmd/tincan/encryption_mls.go:315-365 | A message is used, rejected without a trace, or stops the replay |
| Replica.Client.Sync | cmd/tincan/encryption_mls.go:196-313 | Paging by a hundred and saving after every row together are one replay of everything unread |
| Replica.Client.SealEnvelope | cmd/tincan/encryption_mls.go:367-445 | Sealing marks the envelope consumed and moves the ratchet, or leaves everything |
| Replica.Client.Send | cmd/tincan/encryption.go:478-582 | Everything posted is covered by the saved state; a kept envelope is posted again unchanged unless the relay reports a conflict, and otherwise exactly the message is sealed under the refreshed membership, kept, saved and posted, with every way to fail |
| Replica.Client.PrepareChange | cmd/tincan/encryption_mls.go:482-524 | A change is staged in the engine and in the saved state together |
| Replica.Client.Ensure | cmd/tincan/encryption_mls.go:117-186 | It returns normally if and only if nothing was rolled back, the offer was taken, the replay is complete and the device agrees with the newest membership that lists it; only a definitive refusal discards what is staged |
| DeviceSealing.StepSeals | cmd/tincan/encryption_mls.go:367-445 | Every step of a session, crash or relay keeps the write-ahead invariant |
| DeviceKeys.WriteAhead | cmd/tincan/encryption.go:478-580 | Over any run every posted envelope is already consumed in the saved state and all posted capsules have different places in the ratchet |
| DeviceKeys.OwnEchoIsHarmless | cmd/tincan/encryption_mls.go:315-321 | No row under the device's own signature ever makes it report a stale or cloned state |
| Snapshots.StaleExactly | cmd/tincan/encryption_mls.go:315-321 | A saved state that replays the journal reports that it is stale or cloned exactly when its first faulty row is a verified message of its own device that it had not consumed before the replay |
| Snapshots.ForeignStops | cmd/tincan/encryption_mls.go:196-321 | No replay gets past an own message that the saved state had not consumed, whatever else the journal holds |
| Snapshots.SnapshotIsCaught | cmd/tincan/encryption_mls.go:315-321 | Bringing back the saved state of any earlier point of a run is noticed at the latest at the first message posted and journaled since, and the replay does not get past it |
| DeviceKeys.OneEnvelopePerKey | cmd/tincan/encryption.go:496-580 | The journal never holds two different envelopes of a device for one idempotency key, however often it was retried, resealed or delivered late |
| DeviceStaging.StepStages | cmd/tincan/encryption_mls.go:482-524 | Every step keeps the staging invariant |
| DeviceStaging.ChangeStands | cmd/tincan/encryption_mls.go:482-513 | A change prepared in step fits the chain, and its commit has exactly the devices of the membership that carries it |
| DeviceTheorems.MergedExactly | cmd/tincan/encryption_mls.go:226-264 | In every state of every run the journal position decides group epoch, members and secrets, so a staged commit is merged when its membership is reached, not before and not again |
| DeviceTheorems.StagedIsReached | cmd/tincan/encryption_mls.go:226-264 | The first unread membership is the staged one, and it is entered if and only if nothing was looked at beyond the membership in force |
| DeviceTheorems.NormalReturn | cmd/tincan/encryption_mls.go:172-186 | After a normal return nothing is staged and roster, group and journal agree, the group one epoch behind the roster |
| DeviceTheorems.OwnerReturns | cmd/tincan/encryption_mls.go:172-182 | For the owner the final comparison always passes once the journal has been read |
| Stranding.RefreshKeepsPlace | cmd/tincan/encryption.go:406-412 | Looking at the newest membership keeps the device's place if and only if no membership is unread |
| Stranding.RefreshStrands | cmd/tincan/encryption_mls.go:227-229 | Otherwise every synchronization from there stops with a fault |
| Stranding.AheadIsStranded | cmd/tincan/encryption_mls.go:227-229 | A device that is ahead never enters another membership, whatever the journal adds |
| Stranding.RefreshGuard | cmd/tincan/encryption.go:406-412 | For a device in the group the place is kept if and only if the newest membership has the epoch of its own group |
| Readability.RefreshGuardInPlace | cmd/tincan/encryption.go:406-412 | For any device in place, also one still waiting for admission, it is kept if and only if the newest membership has the epoch of the active one |
| Readability.GuardedStaysInPlace | cmd/tincan/encryption.go:406-412 | A device that refreshes only then is in place in every state of the run, saved or open |
| Stranding.StrandedForGood | cmd/tincan/encryption_mls.go:196-264 | Whatever device and relay do from then on, restarts and retries included, a stranded device never comes to another membership or group epoch |
| Stranding.StrandedExample | cmd/tincan/encryption.go:406-412 | A complete run of an admitted member after which its next synchronization stops with a fault |
| SearchIndex.HistoryIndex | cmd/tincan/encryption_history.go:28-37 | The filter built by setting bits marks exactly the positions of the text's trigrams |
| SearchIndex.MayMatch | cmd/tincan/encryption_history.go:38-51 | The answer is yes exactly when every position of the query's trigrams is marked or the filter is unusable |
| SearchIndex.NeverSkipsAMatch | cmd/tincan/encryption_history.go:18-51 | A text that contains the query in lower case is never skipped |
| SearchIndex.IndexUnique | cmd/tincan/encryption_history.go:28-37 | The marked positions determine every byte of the filter |
| History.SearchHistory | cmd/tincan/encryption.go:779-853 | Paging by a hundred from any cursor, with an index that grows as messages are opened, equals one scan of the log under the index at the start, newest first, up to the limit; the cursor never sticks, and every new index entry is the filter of a message that was read |
| History.MatchesMean | cmd/tincan/encryption.go:831-842 | A match is a message of the log whose shown text has the query in it, in lower case, and whose metadata fits |
| History.IndexedEqualsPlain | cmd/tincan/encryption.go:800-850 | Where each index entry is the filter of the shown text, the first matches of the whole log are returned, for messages that can be read or predate joining |
| Backup.Restore | cmd/tincan/encryption_history.go:102-183 | Any damaged entry leaves the store unchanged; otherwise the archive is the existing-wins union and each new index is the filter of its own entry under the current key |
| Backup.IdMeans | cmd/tincan/encryption_history.go:138-146 | An entry is restored only under an identity made of a message identifier and the hash of a ciphertext |
| Backup.RestoreIsUnion | cmd/tincan/encryption_history.go:137-172 | Existing entries stay and each restored entry opens under the new key to the bytes it had under the old one |
| Backup.RestoreIdempotent | cmd/tincan/encryption_history.go:155-158 | Restoring twice is restoring once |
| Backup.BackupRoundTrip | cmd/tincan/encryption_history.go:63-183 | A whole archive moves to a fresh device and opens there to the same bytes |
| Backup.RestoresCommute | cmd/tincan/encryption_history.go:137-172 | Two backups that agree where they overlap may be restored in either order |
| Archive.ArchivePut | cmd/tincan/encryption_mls.go:61-87 | Writing an entry replaces what is archived under its identity, indexes a message by the text it carries, and leaves the index alone for a bare key |
| Archive.StoreStaysOk | cmd/tincan/encryption_mls.go:61-87 | Over any history of sealing, receiving, searching and restoring, every entry opens under the history key to an entry for its message, and every index entry is the filter of that message's text |
| Archive.IndexFitsPayload | cmd/tincan/encryption_mls.go:447-480 | So whenever an archived entry carries its text, its index entry is the filter of exactly that text |
| Archive.BareKeyKeepsIndex | cmd/tincan/encryption_mls.go:61-87 | Receiving the bare key of a restored message drops its archived text but keeps its index entry, which is still right |
| Archive.SearchIsExact | cmd/tincan/encryption.go:779-853 | After any history of the store an indexed search returns the first matches of the log for every limit if and only if the query is empty, the metadata filter does not fit empty metadata, the placeholder does not contain the query, or every index entry of a rejected message lets the query through |
| Rejections.RejectedStaysOut | cmd/tincan/encryption_mls.go:282-365 | Over any history of a state file, a rejected message is not an own one and has been consumed neither before nor after |
| Rejections.RejectedMeansRestored | cmd/tincan/encryption_history.go:137-180 | So if the archive or the index holds anything for it, a backup restored an entry for it |
| Rejections.ExactWithoutBackup | cmd/tincan/encryption.go:800-850 | On a device that has restored no backup every indexed search returns exactly the first matches of the log |
| Rejections.MissedExample | cmd/tincan/encryption_history.go:155-180 | A history of a state file, with a restored text of two bytes and its message rejected, after which the search for a word of the placeholder finds nothing although the message shows it |
| Dispatch.SingleFlight | sdk/python/tincan.py:87-173 | In every interleaving at most one task per key is alive, active keys are exactly those with a task, dirty ones are active, and no more tasks than the limit hold capacity |
| Dispatch.NoticeIsDispatched | sdk/python/tincan.py:149-167 | A notice, also one for a key being dispatched, is followed by another dispatch of that key, or one is still owed |
| Dispatch.WorkersHoldClaims | sdk/python/tincan.py:99-115 | A worker is started only by a task whose claim was granted before, and no task starts two |
| Dispatch.WorkersTakeTurns | sdk/python/tincan.py:87-173 | Between two workers for one notice the task of the first has gone through its whole cleanup |
| Dispatch.Scheduler.TakeNotice | sdk/python/tincan.py:149-173 | Taking up a notice starts a task, or only marks the key when one is alive |
| Dispatch.Scheduler.Answer | sdk/python/tincan.py:97-104 | A refused claim gives the capacity back and goes to the cleanup |
| Dispatch.Scheduler.Spawn | sdk/python/tincan.py:105-112 | A claimed task starts its worker |
| Dispatch.Scheduler.Finish | sdk/python/tincan.py:113-137 | The end of the work, good or bad, gives the capacity back before the cleanup |
| Dispatch.Scheduler.Close | sdk/python/tincan.py:138-147 | The cleanup frees the key and queues one further notice exactly when the key was marked |
| Dispatch.StepKeeps | sdk/python/tincan.py:87-173 | Every step between two awaits keeps the scheduler's invariant, the semaphore's count included |

## Left out

- Inbox.Controller.Claim: does not model the list of related commitments returned with a claim, because it only selects and shortens texts for display.
- Inbox.SortStable: models the standard library's stable sort by insertion, because only its result matters; `Scheduling.StableOrderUnique` says the result is determined.
- Inbox.Controller.Revalidate: does not model the waiting and queue parts of `next`, which change no record.
- ControllerTheorems.WorkerBound: counts only work that is not an announcement, because announcements bypass the limit; the limit meant is the largest one so far, because a policy may lower it below the current load.
- ControllerTheorems.LocksExclude: says nothing about suggestion identifiers, because a classification may attach one to claimed work.
- ControllerTheorems.OrderHolds: promises no order of arrival in the two lower classes, because a classification moves records between them.
- ControllerTheorems.OneTextPerRecord: is about replies that carry a claim, as the tools require; without one a closed record may be reopened with another text.
- Replica.Client.Send: does not model the comparison of content under one idempotency key, attachments and sizes, which change no session state.
- Replica.Client.Ensure: does not model the timed rotation at its end, which starts another change as any other.
- DeviceTheorems.NormalReturn: is about groups of one encrypted room; in the older group of a whole workspace the engine's group may be saved before its first membership is staged (cmd/tincan/encryption_mls.go:128-145).
- History.SearchHistory: does not model the synchronization that reading a message may start (cmd/tincan/encryption_mls.go:458-479); what reading yields is the outcome after it. The texts that reading archives are separate writes in `Archive`.
- Archive.SearchIsExact: is about logs whose messages can all be read or predate joining, because one that cannot be read ends a search with its error.
- Dispatch.StepKeeps: does not model the events forwarded to the user interface, cancellation at shutdown and the order of outcome calls.
- The private group of an agent's own memory channels: a second engine with a single member, handled by the same code.
- The `project` view of older embedding code, file locks, temporary files and flushing: a save is one atomic replacement.
- HTTP, the framing of event streams, tool and command-line plumbing, process launching and presence.
- The cryptography itself, the size limits of envelopes and packages, and protocol version 1 encryption.
- The hosted relay, beyond the assumptions above.
- Timers and delays: only the order of steps is modelled.
