# r1s: a verified model

r1s runs OCI workloads without a central scheduler. A client broadcasts a request, independent allocators answer with
time-limited offers, the client assigns one and releases the rest, and the chosen allocator starts the work, keeps it
leased, reports its state, and opens tunnels to it. This project models the three parts of r1s that carry its promises and
proves what they keep in every run:

- **the allocator's durable command machine** (`internal/allocator`): offers, executions, request index, capacity ledger,
  replay cache, tombstones, leases and high-water clock, with a snapshot saved after each transition and rolled back by
  hand when the save fails;
- **the tunnel layer** (`internal/tunnel`, `internal/tunnel/yggdrasil`): framing, the handshake queue, the credit window of
  a stream, and the registry of sessions;
- **the client core** (`internal/client`), alone and composed with any number of allocators over a network that loses,
  duplicates, delays and reorders.

`dafny verify dfyconfig.toml` checks everything.

## How the model is built

Each locked section of the allocator is a function on a value `State` (`AllocatorState`) and a method of the class
`Allocator` (`AllocatorMachine`) that updates fields one by one, loops over its maps, saves, and undoes its updates when the
save fails. Every method is proved to leave exactly the state its function gives. `AllocatorRuns` then interleaves the
sections: a command is checked for freshness, enters the replay cache, runs its handler (in two sections when the runtime is
called in between) and leaves, while evictions, completions, sweeps, failed saves, crashes, reloads and recoveries happen
in between and the clock may run backwards. `AllocatorInvariant` and `AllocatorSteps` prove what each section keeps,
`WorldInvariant` and `WorldSteps` what each event of a run keeps, and `AllocatorTheorems`, `ExecutionViews`, `RetiredReplies`,
`Redelivery`, `RecordFates`, `FailedStops`, `OfferFates`, `Snapshots` and `CommandMeaning` draw the conclusions.
`LoaderLimits`, `RetirementLimits`, `StopLimits` and `ViewLimits` say exactly where a promise ends, with a run or a snapshot
that shows it.

Beside the sections stands a second account of them that shares none of their definitions. `CommandLaws`, `LifeLaws`,
`LoaderLaws`, `ClientLaws` and `WireLaws` say in the records' own fields, in literal numbers and bytes, what each event, each
load, each client operation and each frame does and answers, and prove that the sections do exactly that; `OwnerLaws` draws
what follows over runs about whose command may change what.

A stream direction is a state machine in which every point where the source lets its lock go between a decision and the
packet it leads to is a state of its own (`WindowProtocol`, `StreamProgress`). `Streams` holds the endpoint object, and
`Duplex` shows that two such endpoints, seen from either direction, take only steps of that machine; `DuplexProgress` that
both directions complete together. `TunnelRegistry` holds
the registry object, `TunnelAuthority` interleaves its callers with the end of executions, and `TunnelRuns` puts both beside
the allocator's own runs, whose records then decide which execution is live. The client is a state (`ClientState`), an object
(`ClientMachine`) and theorems (`ClientTheorems`, `OfferOrder`); `SystemRuns` composes it with the allocators, and `ToldViews`
and `SystemViews` follow a state from the allocator's reply to the client's file.

Time is an integer number of nanoseconds and a clock reading is positive; Go's zero time is zero. Client identities have one
fixed length, so a joined string key is a pair. A save either commits the whole state or changes nothing. A new ID is never
one used before. Whether a save commits, what the runtime answers, what the clock reads, and which placement checks pass are
parameters of the steps, so every theorem holds for all of their values. Sweeps do not overlap, and recovery runs before
commands are served (`cmd/r1sd/daemon.go`, lines 167 to 203).

## What the proofs found

- **Retired work can be revived by a command that stalls.** Freshness is checked once, before the replay lookup. A command
  that waits between that check and its handler until the clock has passed its sending time by more than the horizon meets
  no tombstone and gets a second offer (`StalledCommandRevives`, one tick past the horizon). A command sent in the very
  instant of the collection does too (`SimultaneousCommandRevives`). Within those bounds it never happens
  (`RetiredStaysRetired`, `NoOfferFromCache`), and `RefusedExactly` says when the refusal comes.
- **Views are coherent exactly as far as the disk keeps up.** If every crash finds on disk what memory last showed, clients
  never see two states under one revision (`ViewsCohere`). At any point of such a run a crash is harmless, whatever is
  reported next, if and only if disk and memory show the same (`CrashSafeExactly`). A failed save after the runtime's start
  leads to a state that does not (`LaggingReached`), and from there to a run with two states under one revision
  (`ConflictingRun`).
- **The ledger's guard against going below zero is idle in a running allocator** (`GuardIdleInRuns`). In the loader, which
  expires offers before it has counted any slot, it decides if and only if the file holds an outstanding offer already due
  (`GuardInLoaderExactly`, with such a snapshot in `GuardDecidesOnce`).
- **The loader checks offers against executions but not executions against offers** (`OrphanAccepted`). What it loads has no
  execution without its offer if and only if the file lists as many executions as assigned offers (`NoOrphanExactly`), and
  is fully paired if and only if besides each pair agrees on its terms and no other offer names an execution
  (`PairedExactly`).
- **A stream gets stuck exactly when the window less what batching may withhold cannot hold a segment**
  (`NeverStuckExactly`); the shipped constants have the room for every MTU.
- **Closing the write side is honest exactly when no segment is between its decision and its packet**
  (`CloseHonestExactly`): a `CloseWrite` that overtakes a `Write` in progress shows the peer end of stream before the last
  bytes.
- **`CloseRead` says that no further data is accepted; the code keeps accepting it** into the discarded buffer
  (`DeafStillTakes`), each frame if and only if it fits the space advertised (`DeafTakesExactly`). No credit goes back, so
  the peer can write what credit is left and then stalls (`DeafPeerStalls`).
- **A cancellation whose reason is the lease marker recovers as a lease failure.** The reason is stored as the client gives
  it, and recovery tells an eviction from a cancellation by that text alone. A cancellation cut off by a restart comes back
  cancelled if and only if its reason is not the marker (`CancelResumesExactly`, and `CancelCrashRecover` in the allocator's
  runs); `CancelledAsLeaseFailure` is a run in which it is.
- **A binding, though never a session, can outlive its execution** (`BindingOutlives`): if and only if a declaration that
  passed its check writes its record after the execution ended (`NeverStrayExactly`, and `NoStrayExactly` beside the
  allocator's own runs).

## Model

| member | source | states |
|---|---|---|
| AllocatorTheorems.CapacityConserved | internal/allocator/capacity.go:30-43 | in every reachable state, through failed saves, evictions, sweeps and restarts, each class's counter is the number of its offers outstanding or assigned with an unreleased execution, and at most the limit |
| AllocatorTheorems.ReleaseGuardIdle | internal/allocator/capacity.go:39-43 | whatever a running allocator gives back is still counted, so the guard against going below zero never decides |
| AllocatorTheorems.StartedAtMostOnce | internal/allocator/assign.go:85-99 | over any run with redelivery, failed saves, crashes, reloads and recoveries, no offer is started twice, and a started offer still on record is assigned in memory and on disk |
| AllocatorTheorems.LaunchIsDurable | internal/allocator/assign.go:72-99 | the runtime is called by no section but the assignment, and only once offer, execution and their link are in the committed save |
| AllocatorTheorems.LaunchesOnlyByAssign | internal/allocator/recovery.go:13-17 | recovery, sweeps, evictions, completions and restarts never start anything |
| AllocatorTheorems.InFlightFound | internal/allocator/retention.go:39-60 | the execution a command looks up after its start or stop returns is still there, and so is its unfinished replay entry |
| AllocatorTheorems.BudgetsKept | internal/allocator/offers.go:64-72 | offers, executions and tombstones together stay within the record budget, executions match assigned offers in number, and each client stays within its non-zero quotas, in every reachable state |
| AllocatorTheorems.BuriedStaysBuried | internal/allocator/retention.go:69-72 | a collected offer is never again in memory or on disk, so every assignment of it is answered not found |
| AllocatorTheorems.GuardOf | internal/allocator/retention_policy.go:34-43 | a collected request is off the index and tombstoned until no envelope sent before its collection can be fresh |
| AllocatorTheorems.RetiredStaysRetired | internal/allocator/offers.go:59-63 | a request sent before its collection and within the horizon at its handler is refused as expired and mints nothing, across restarts and clock regressions |
| AllocatorTheorems.RefusedExactly | internal/allocator/offers.go:38-63 | a request is refused as expired if and only if it is off the index and a tombstone names it |
| RetiredReplies.NoOfferFromCache | internal/allocator/retention.go:81-107 | no stored answer gives an offer to a redelivery of a request sent before its collection, as long as it is within the horizon |
| RetirementLimits.StalledCommandRevives | internal/allocator/retention_policy.go:63-74 | a run in which a stalled command, one tick past the horizon at its handler, gets a second offer for collected work |
| RetirementLimits.SimultaneousCommandRevives | internal/allocator/retention.go:74-80 | a run in which a command sent in the instant of the collection gets a second offer within the horizon |
| Redelivery.RedeliveryStutters | internal/allocator/dispatch.go:44-56 | while a command's key is held, handling a command under it, from arrival to answer, returns the entry to its own envelope and a conflict to any other, leaves no trace in flight and changes nothing but what time alone changes |
| Redelivery.RedeliveryAnswered | internal/allocator/replay.go:54-61 | over any run, restarts included, a redelivery that finds its entry finished gets exactly the answer with which an earlier handling of that same envelope left |
| Redelivery.CacheBounded | internal/allocator/replay.go:62-69 | the replay cache never exceeds its capacity and is keyed by its own envelopes |
| Redelivery.AnswersAreFinal | internal/allocator/replay.go:71-101 | no section drops or changes an unfinished entry but the leaving of its own command, which stores that command's reply, and none changes a finished answer |
| ExecutionViews.ViewsCohere | internal/allocator/cancel.go:33-69 | over any run whose crashes find disk and memory in step, a revision always shows one state and a terminal state is the last |
| ExecutionViews.SavedRunsCohere | internal/allocator/eviction.go:75-129 | if every save commits, views are coherent across any number of restarts |
| ExecutionViews.CrashSafeExactly | internal/allocator/runtime_bridge.go:34-52 | at any point of a run so far in step, every continuation by a crash and a completion shows coherent views if and only if disk and memory show the same; each such continuation is a run |
| ViewLimits.LaggingReached | internal/allocator/assign.go:101-124 | a reachable state whose disk shows an older view: the save after the runtime's start fails and the answer goes out |
| ViewLimits.ConflictingRun | internal/allocator/assign.go:114-124 | a whole run whose clients see two states under one revision |
| Snapshots.SnapshotCloses | internal/allocator/state.go:22-205 | every snapshot of a state with the invariant passes every check of the loader, and loading gives the reloaded state with the whole invariant |
| Snapshots.ReachableSnapshotLoads | internal/allocator/state.go:148-205 | the snapshot of any reachable state loads under the same configuration at any clock reading, and is what a restart reads |
| LoaderLimits.OrphanAccepted | internal/allocator/state.go:75-106 | the loader accepts an execution no offer backs |
| LoaderLimits.NoOrphanExactly | internal/allocator/state.go:75-144 | over every snapshot the loader accepts, each loaded execution and some assigned offer name each other if and only if the file lists as many executions as assigned offers |
| LoaderLimits.PairedExactly | internal/allocator/state.go:48-144 | and the loaded records are fully paired if and only if besides each pair agrees on its terms and no other offer names an execution |
| LoaderLimits.GuardExactly | internal/allocator/capacity.go:39-43 | giving back a list of slots meets the guard if and only if some class is given back more often than it is counted |
| LoaderLimits.GuardIdleInRuns | internal/allocator/views.go:84-94 | in a running allocator expiry never meets the guard, whatever is due and in whatever order |
| LoaderLimits.GuardInLoaderExactly | internal/allocator/state.go:131-144 | while a snapshot loads, expiry meets the guard if and only if the file holds an outstanding offer whose expiry is not after the clock |
| LoaderLimits.GuardDecidesOnce | internal/allocator/state.go:131-144 | one such snapshot |
| Snapshots.OffersReload | internal/allocator/state.go:48-73 | saved offers, in any order, load back to the same offers and the same index |
| Snapshots.ExecutionsReload | internal/allocator/state.go:75-106 | saved executions, in any order, load back with only the legacy defaults filled in |
| Snapshots.ReplayReload | internal/allocator/state.go:108-129 | exactly the finished replay entries survive a restart |
| LoaderLaws.LoadableExactly | internal/allocator/state.go:22-146 | a snapshot is accepted if and only if its version is one or two and it is this allocator's own, every record is well-formed and none comes twice, every assigned offer's execution is on file, names it back and has its class, and the slots held on file fit |
| LoaderLaws.LoadedContents | internal/allocator/state.go:48-106 | each offer and execution on file comes back as its fields and numbers say, with due offers expired and older files' defaults |
| LoaderLaws.LoadedAnswers | internal/allocator/state.go:108-129 | exactly the finished answers come back, of two under one key the later |
| LoaderLaws.SavedNumbers | internal/allocator/state.go:148-205 | the version, status and phase numbers a save writes |
| AllocatorInvariant.ExpireInv | internal/allocator/views.go:84-94 | expiry keeps index, pairing, ledger, budgets and quotas |
| AllocatorInvariant.MintInv | internal/allocator/offers.go:107-125 | a new offer keeps them |
| AllocatorInvariant.BindInv | internal/allocator/assign.go:72-87 | an assignment keeps them |
| AllocatorInvariant.FinishInv | internal/allocator/runtime_bridge.go:79-93 | ending an execution keeps them |
| AllocatorInvariant.ReleaseInv | internal/allocator/release.go:35-45 | releasing an outstanding offer keeps them, and its slot was counted |
| AllocatorInvariant.SweepInv | internal/allocator/retention.go:36-107 | a collection keeps them |
| AllocatorInvariant.ReloadInv | internal/allocator/state.go:131-144 | a restart keeps them, and the fresh count fits because re-expiry only frees slots |
| AllocatorSteps.RequestKeeps | internal/allocator/offers.go:31-129 | a whole request section keeps the invariant, in every branch |
| AllocatorSteps.AssignKeeps | internal/allocator/assign.go:14-94 | so does an assignment, committed or not |
| AllocatorSteps.AssignEndKeeps | internal/allocator/assign.go:101-113 | so does the return of the runtime's start |
| AllocatorSteps.CancelKeeps | internal/allocator/cancel.go:13-49 | so does a cancellation, committed or not |
| AllocatorSteps.StopKeeps | internal/allocator/cancel.go:53-72 | so does the return of the runtime's stop, to a cancellation or an eviction |
| AllocatorSteps.CompletedKeeps | internal/allocator/runtime_bridge.go:16-52 | so does a reported completion, committed or not |
| AllocatorSteps.RecoverKeeps | internal/allocator/recovery.go:43-138 | so does each visit of recovery |
| WorldSteps.Step | internal/allocator/dispatch.go:21-95 | every event of a run keeps the invariant of memory and disk, every command in flight finds what it left, and both agree with the run's history |
| WorldSteps.RunInv | internal/allocator/dispatch.go:21-95 | so every state of every run has it |
| CommandLaws.RequestLaw | internal/allocator/offers.go:31-129 | a request is answered with the offer it has, or a new one is made if and only if no tombstone names it and the record budget, the client's standing and own quota, a free slot of the class, placement, profile, ID and save all allow it, with the first of these that does not as the answer; the new offer is the client's, for that request and class, until the offer lifetime has passed |
| CommandLaws.AssignLaw | internal/allocator/assign.go:14-97 | work starts if and only if the offer is on record, the sender's own, for that request and open, the execution ID new, the node still fitting, the client admitted within its own quota and the save committed; the record is then the offer's work, starting, at revision one, leased for exactly the configured time; every other answer is named |
| CommandLaws.StartedLaw | internal/allocator/assign.go:101-128 | a start that returns leaves starting work running, or failed with the runtime's words and retained, and work that moved on alone; the client is shown the record |
| CommandLaws.CancelLaw | internal/allocator/cancel.go:13-49 | the runtime is asked to stop if and only if the work is the sender's own, neither over nor being stopped, and the save commits; work that is over or being stopped is shown as it is |
| CommandLaws.StoppedLaw | internal/allocator/cancel.go:53-77 | a stop that succeeds ends the work, cancelled with the reason or failed with the lease marker, unless it had ended; one that fails puts back what was found |
| CommandLaws.ReleaseLaw | internal/allocator/release.go:12-66 | an offer is closed if and only if it is open, the sender's own and for that request and the save commits; everyone else is refused without a trace, and the owner of a collected offer is told it expired |
| CommandLaws.RenewLaw | internal/allocator/lease.go:17-65 | a lease is set if and only if the work is the sender's own and going on, the duration at most a week and the save committed; it then runs for that duration from now |
| CommandLaws.ReadLaw | internal/allocator/tunnel.go:93-150 | reading changes nothing and shows or opens only the sender's own |
| OwnerLaws.OwnersOnly | internal/allocator/release.go:22-33 | over every run, each section of a client's command changes offers, executions and index entries of that client only; of anybody else's the most that happens is that an offer expires |
| OwnerLaws.LeaseFromLaunch | internal/allocator/assign.go:72-87 | over every run, a launch leaves in memory and on disk its offer's own work, starting, at revision one, leased until now plus the configured time, and no eviction of it begins before then, restarts included, unless it is renewed or ends |
| LifeLaws.TickLaw | internal/allocator/views.go:84-94 | open offers expire when their time comes and nothing else changes |
| LifeLaws.ArriveLaw | internal/allocator/retention_policy.go:55-103 | a command is let in if and only if, at the later of clock and high-water mark, it was sent at most a week ago and at most two minutes ahead, and does not ask after a result past its retention or collected |
| LifeLaws.EnterLaw | internal/allocator/replay.go:11-69 | a command enters if and only if its sender used no such ID within the lifetime or since unfinished, there is room once the oldest finished entries have gone, and the save commits; the same envelope finds its entry, another under its ID is refused |
| LifeLaws.LeaveLaw | internal/allocator/replay.go:26-101 | a command leaves its own answer in its own entry, and only the oldest finished entries go for room |
| LifeLaws.EvictLaw | internal/allocator/eviction.go:62-93 | an eviction marks lapsed work, at effective time, as being stopped for its lease, or moves nothing but the clock |
| LifeLaws.ReportLaw | internal/allocator/runtime_bridge.go:16-52 | a committed report ends live work, completed if and only if it carries no failure and failed otherwise, with its own words and exit code, one revision on; any other changes nothing, and is accepted if and only if it names the outcome on record |
| LifeLaws.RecoverLaw | internal/allocator/recovery.go:43-138 | a visit finishes an interrupted stop, ends work whose lease lapsed or that the runtime lost or contradicts, takes work found again into running, and otherwise leaves the record |
| LifeLaws.CrashLaw | internal/allocator/state.go:48-146 | a restart brings back what the disk has, finished answers only, due offers expired, with the defaults older files lack |
| LifeLaws.CleanLaw | internal/allocator/retention.go:135-143 | only the cleaned tombstone's mark goes |
| LifeLaws.SweepLaw | internal/allocator/retention.go:25-120 | a committed sweep takes exactly the offers that expired, were released, or whose work ended and was kept long enough, and that no unfinished command may touch, with index entry and execution, and leaves a tombstone naming client, request and execution for a week; every other offer and its work stay; of tombstones and answers exactly those go that guard nothing, are too old, or are about what is gone; a failed save changes nothing |
| CommandMeaning.ReleaseRepeats | internal/allocator/release.go:34-65 | a release answers with what the offer has become, frees one slot if the offer held one, and repeated answers the same and frees none |
| OfferFates.SameOfferAgain | internal/allocator/offers.go:38-56 | over any run with crashes and failed saves, asking for the same work again gives the very offer made and takes nothing more, as long as it is on record, its time has not come and it is not released |
| OfferFates.AssignedAgain | internal/allocator/assign.go:38-48 | at any time after its launch, an offer on record assigned again starts nothing: its execution is shown as it now stands, any other is refused |
| FailedStops.FailedStopRestores | internal/allocator/cancel.go:55-61 | over any run, a cancellation whose stop fails leaves phase, detail and lease as they were, two revisions on, if meanwhile nothing ended the execution and no other stop of it returned |
| RecordFates.RecordFate | internal/allocator/runtime_bridge.go:79-99 | short of a crash, in every event of a run an ended execution keeps its record until a sweep after its retention, a live one ends only where the event ends it and is then retained for the whole horizon, and a lease changes only by a renewal that names it |
| RecordFates.ResultKept | internal/allocator/retention.go:61-73 | in one process lifetime an ended execution's whole record stays, unchanged by any start, stop, eviction, report, command or sweep, until the high-water mark reaches the end of its retention |
| RecordFates.ReportSettled | internal/allocator/runtime_bridge.go:34-39 | so a later report changes nothing and is accepted if and only if the record is completed and it carries no failure, or failed and it carries one |
| RecordFates.RenewalProtects | internal/allocator/lease.go:37-48 | a renewal answered with a lease gives what was asked, from the time it was handled, and until then no eviction of the work begins unless it is renewed again |
| CapacityLedger.Ledger.Reserve | internal/allocator/capacity.go:30-37 | takes a slot if and only if the class is configured and not full |
| CapacityLedger.Ledger.Release | internal/allocator/capacity.go:39-43 | gives one slot back and never goes below zero |
| CapacityLedger.Ledger.Free | internal/allocator/capacity.go:45-51 | the free slots and the used ones make up the limit |
| ReplayCaches.ReplayCache.Prune | internal/allocator/replay.go:78-85 | removes exactly the finished entries that are too old |
| ReplayCaches.ReplayCache.Oldest | internal/allocator/replay.go:89-98 | finds a finished entry no finished entry is older than, or that there is none |
| ReplayCaches.ReplayCache.Evict | internal/allocator/replay.go:87-101 | removes finished entries only, oldest first, no more than needed, and stops above the limit only when none is left |
| ReplayCaches.ReplayCache.Begin | internal/allocator/replay.go:54-69 | coalesces a duplicate, refuses a reused key, or makes room and inserts |
| ReplayCaches.ReplayCache.Finish | internal/allocator/replay.go:71-76 | records the answer and trims the cache |
| ReplayCaches.ReplayCache.Clone | internal/allocator/replay.go:103-109 | the copy is a cache of its own |
| ReplayCaches.EvictionExists | internal/allocator/replay.go:87-101 | however full the cache, a legal eviction exists, so no command waits for one |
| AllocatorMachine.Allocator.Persist | internal/allocator/state.go:148-205 | a committed save is a snapshot of the whole state, a failed one changes nothing |
| AllocatorMachine.Allocator.Load | internal/allocator/state.go:22-146 | succeeds if and only if the snapshot passes every check, and then holds exactly the loaded state |
| AllocatorMachine.Allocator.ReserveHeld | internal/allocator/state.go:132-144 | succeeds if and only if every assigned offer has its execution and every class's slots fit, and counts them |
| AllocatorMachine.Allocator.EffectiveNow | internal/allocator/retention_policy.go:55-61 | the clock mark never moves back |
| AllocatorMachine.Allocator.ExpireOffers | internal/allocator/views.go:84-94 | expires exactly the due offers and gives back exactly their slots |
| AllocatorMachine.Allocator.AdmitClient | internal/allocator/admission.go:79-113 | counts the client's offers and live executions and refuses exactly when a quota is reached or the client is not allowed |
| AllocatorMachine.Allocator.CheckFreshness | internal/allocator/retention_policy.go:67-103 | advances the clock and rejects exactly the commands outside the horizon or naming an expired result |
| AllocatorMachine.Allocator.BeginCommand | internal/allocator/replay.go:11-24 | expires, prunes, looks up, evicts legally, inserts and saves; a failed save takes the entry out again |
| AllocatorMachine.Allocator.FinishCommand | internal/allocator/replay.go:26-31 | stores the answer, trims the cache legally, saves |
| AllocatorMachine.Allocator.Request | internal/allocator/offers.go:31-129 | leaves exactly the state of the request section, which is also what the standing, the quota, the free slots and the node say in the records' own fields; durable whenever an offer was minted |
| AllocatorMachine.Allocator.Issue | internal/allocator/offers.go:96-128 | insert, reserve and save, or the state before them |
| AllocatorMachine.Allocator.BeginAssign | internal/allocator/assign.go:14-97 | leaves exactly the state of the assignment section; in fields, it launches if and only if offer, owner, request, execution ID, node, quota and save allow it, and the record is then leased for the configured time and durable |
| AllocatorMachine.Allocator.BindOffer | internal/allocator/assign.go:72-94 | offer and execution bound and saved, the record being the offer's own work, starting, at revision one, leased until now plus the lease time; or the state before |
| AllocatorMachine.Allocator.EndAssign | internal/allocator/assign.go:101-118 | running, failed with its slot freed, or untouched if the execution has moved on |
| AllocatorMachine.Allocator.FinishExecution | internal/allocator/runtime_bridge.go:79-93 | ends the record, frees its slot once, and retains it from the later of clock and high-water mark |
| AllocatorMachine.Allocator.BeginCancel | internal/allocator/cancel.go:13-49 | cancelling and durable, or the record exactly as before |
| AllocatorMachine.Allocator.EndCancel | internal/allocator/cancel.go:53-77 | cancelled, restored after a failed stop, or untouched if already ended |
| AllocatorMachine.Allocator.NextExpiredLease | internal/allocator/eviction.go:62-69 | finds an execution whose lease lapsed, or that there is none |
| AllocatorMachine.Allocator.BeginEviction | internal/allocator/eviction.go:75-93 | cancelling with the lease marker and durable, or the record exactly as before |
| AllocatorMachine.Allocator.CompleteEviction | internal/allocator/eviction.go:99-129 | failed with the lease marker, restored, or untouched, and errs exactly when stop or save failed |
| AllocatorMachine.Allocator.EvictExpiredLeases | internal/allocator/eviction.go:29-58 | terminates, whatever reports, renewals, cancellations and returning starts and stops run in between, and leaves exactly what they and its passes leave; each pass picks an execution whose lease, as it then stands, has lapsed, and one never picked is as the sections that ran left it; one picked has ended unless its stop failed, which restores it under a larger revision if nobody else touched it; returning nil leaves no lapsed lease at effective time |
| AllocatorMachine.Allocator.ReleaseOffer | internal/allocator/release.go:12-66 | leaves exactly the state of the release section; in fields, only the owner's own open offer for that request is closed; durable whenever it changed |
| AllocatorMachine.Allocator.GiveBack | internal/allocator/release.go:35-57 | offer closed and slot freed and saved, or the state before, slot retaken |
| AllocatorMachine.Allocator.RenewLease | internal/allocator/lease.go:17-65 | the owner's lease set to now plus the duration asked for, which may be sooner than before, and durable; or the record exactly as before, as whenever anybody else asks |
| AllocatorMachine.Allocator.Inspect | internal/allocator/offers.go:14-29 | a state comes back if and only if the execution exists and is the sender's, and it is that record's view |
| AllocatorMachine.Allocator.TunnelOpen | internal/allocator/tunnel.go:93-113 | an acknowledgement comes back if and only if the execution exists, is the sender's, has not ended and its declaration was bound |
| AllocatorMachine.Allocator.Completed | internal/allocator/runtime_bridge.go:16-52 | the record ended, completed if and only if the report carries no failure, and durable, or record and ledger exactly as before |
| AllocatorMachine.Allocator.Tick | internal/allocator/views.go:17-26 | expires the due offers, saving only if there were any |
| AllocatorMachine.Allocator.BusyKeys | internal/allocator/retention.go:39-55 | exactly the requests commands in flight may still touch |
| AllocatorMachine.Allocator.CollectOffers | internal/allocator/retention.go:56-73 | collects exactly the offers that expired, were released or whose work ended and was kept long enough, and that no command in flight may touch, with index entry and execution, into tombstones |
| AllocatorMachine.Allocator.RetireAll | internal/allocator/retention.go:74-107 | drops exactly the answers of retired work and the tombstones that guard nothing |
| AllocatorMachine.Allocator.SweepRetired | internal/allocator/retention.go:25-120 | a committed sweep takes exactly those offers and retires what guards nothing, in fields; a failed one leaves offers, executions, index, replay, tombstones, ledger and clock exactly as they were |
| AllocatorMachine.Allocator.MarkCleaned | internal/allocator/retention.go:135-143 | clears the pending mark, or puts the tombstone back |
| AllocatorMachine.Allocator.Recover | internal/allocator/recovery.go:18-140 | returning nil, every execution has ended or runs, its monitoring taken over by the runtime, under a lease that had not lapsed at its visit; an interrupted stop that no report overtakes ends failed with the lease marker if that marker is the stored detail, and otherwise cancelled with it |
| RetiredReplies.CleanupUndisturbed | internal/allocator/retention.go:114-144 | while a sweep works off its pending cleanups nothing else touches their tombstones, so the copy it took is the one on record |
| LifecyclePasses.PassFates | internal/allocator/eviction.go:44-55 | an eviction pass touches only its execution and those named by reports and commands meanwhile; a stopped workload has ended, with the marker unless somebody else ended it, and a failed stop restores it |
| LifecyclePasses.PassShrinks | internal/allocator/eviction.go:31-57 | each pass that stops its workload leaves strictly fewer executions that have not ended |
| LifecyclePasses.LoopFates | internal/allocator/eviction.go:29-58 | over any number of passes, what became of one execution: untouched unless named, ended if picked, and with the marker only if its lease had lapsed or somebody named it meanwhile |
| LifecyclePasses.VisitFates | internal/allocator/recovery.go:43-138 | a visit settles its execution, ends an interrupted stop as its stored detail says, and touches no other but one reported meanwhile |
| LifecyclePasses.GivesUpExactly | internal/allocator/recovery.go:53-138 | recovery gives up on an execution exactly when the visit would leave it neither ended nor running under its lease |
| StopLimits.CancelResumesExactly | internal/allocator/recovery.go:53-82 | for every cancellation, restart and visit the runtime answers, the execution comes back cancelled if and only if the reason is not the lease marker, and as a lease failure if and only if it is |
| StopLimits.CancelCrashRecover | internal/allocator/recovery.go:53-82 | so in the allocator's runs, from every reachable state |
| StopLimits.CancelledAsLeaseFailure | internal/allocator/cancel.go:33-49 | a whole run whose client cancels and whose allocator, after a crash, says the lease ran out |
| Framing.RoundTrip | internal/tunnel/yggdrasil/framing.go:85-114 | parsing gives a frame back, whatever follows it, if and only if its type is known and its payload fits |
| Framing.Reencodes | internal/tunnel/yggdrasil/framing.go:96-114 | an accepted frame is legal and encodes back to exactly the bytes consumed |
| Framing.FirstOfAll | internal/tunnel/yggdrasil/framing.go:85-114 | a buffer of whole frames parses as its first and leaves the rest |
| Framing.CloseRoundTrip | internal/tunnel/yggdrasil/framing.go:119-170 | a teardown arrives unchanged if and only if its reason is listed and its detail fits; else the reason degrades and the detail is cut |
| Framing.WindowRoundTrip | internal/tunnel/yggdrasil/framing.go:217-229 | a window update arrives unchanged if and only if it fits in thirty-two bits |
| Framing.StreamOpenRoundTrip | internal/tunnel/yggdrasil/framing.go:199-213 | a port arrives unchanged |
| WireLaws.FrameLayout | internal/tunnel/yggdrasil/framing.go:85-94 | a frame is its kind, four bytes of stream ID, two of length, most significant first, and its payload |
| WireLaws.ParseVerdict | internal/tunnel/yggdrasil/framing.go:96-114 | a buffer is refused if and only if its header names another kind or more than sixteen kilobytes, and is a frame if and only if all it announces is there |
| WireLaws.KindNumbers | internal/tunnel/yggdrasil/framing.go:48-56 | the numbers of the seven kinds and the layout of a port; a port or a window too short to read is zero |
| WireLaws.TeardownLayout | internal/tunnel/yggdrasil/framing.go:119-170 | a teardown is its reason's number and at most 512 bytes of detail; unlisted numbers are failed sessions |
| Handshake.Pair.IngestPairFrame | internal/tunnel/yggdrasil/pair_handshake.go:110-131 | a handshake frame queues up, a close or a flood ends the pair, and the buffer stays a whole number of frames within a fixed bound |
| Handshake.Pair.TakeFrame | internal/tunnel/yggdrasil/pair_handshake.go:141-157 | frames come out first in first out and never as a parse error |
| Handshake.Pair.ReadPairFrame | internal/tunnel/yggdrasil/pair_handshake.go:135-170 | a waiting frame is returned at once, else the first to arrive; a timeout means none did |
| Streams.StreamConn.IngestFrame | internal/tunnel/yggdrasil/stream.go:231-260 | delivers one frame; against any peer, what is buffered and what may still be accepted stay within the window |
| Streams.StreamConn.Read | internal/tunnel/yggdrasil/stream.go:122-164 | returns the bytes in order, and the update it sends carries exactly what was consumed since the last |
| Streams.StreamConn.SendData | internal/tunnel/yggdrasil/stream.go:98-115 | sends only against credit and spends exactly it |
| Streams.StreamConn.Write | internal/tunnel/yggdrasil/stream.go:169-182 | what went out is exactly the part of the input it reports, in order, in frames of at most a segment |
| Streams.StreamConn.CloseWrite | internal/tunnel/yggdrasil/stream.go:199-209 | one end marker, once |
| Streams.StreamConn.CloseRead | internal/tunnel/yggdrasil/stream.go:188-195 | the buffer is dropped and no credit returned |
| Streams.DeafTakesExactly | internal/tunnel/yggdrasil/stream.go:231-253 | after it a data frame still joins the buffer if and only if it fits the space advertised, otherwise it closes the stream, and nothing takes it out again |
| Streams.DeafBound | internal/tunnel/yggdrasil/stream.go:188-195 | whatever the peer sends afterwards, the buffer and the space left make up the space advertised then |
| Streams.StreamConn.End | internal/tunnel/yggdrasil/stream.go:264-279 | teardown runs once and tells the peer at most once |
| Streams.StaysBounded | internal/tunnel/yggdrasil/stream.go:36-42 | every operation keeps buffer plus advertised space within the window |
| WireLaws.ReaderLaw | internal/tunnel/yggdrasil/stream.go:122-164 | a reader is given the buffered bytes before it learns of an error, the end or a close, in that order, and credit goes back once sixteen kilobytes have been taken |
| WireLaws.WriterLaw | internal/tunnel/yggdrasil/stream.go:98-115 | a writer is told of its closed side first, then of its peer's failure, and otherwise sends exactly when the window covers the segment |
| WireLaws.ArrivalLaw | internal/tunnel/yggdrasil/stream.go:231-260 | whatever frames arrive, the first teardown with a reason is the one told, the end is seen exactly if its marker came, credit is the sum of all updates, and the endpoint closes exactly if some frame overran its space |
| WireLaws.SegmentLaw | internal/tunnel/yggdrasil/pair.go:91-94 | a full segment fills a packet of the interface exactly where it can; window and batch are 64 and 16 kilobytes |
| StreamProgress.SegmentFor | internal/tunnel/yggdrasil/pair.go:91-94 | for any MTU a segment is between one byte and the largest payload |
| WindowProtocol.StepSound | internal/tunnel/yggdrasil/stream.go:98-146 | every step keeps credit and bytes |
| WindowProtocol.CreditAndFidelity | internal/tunnel/yggdrasil/stream.go:231-253 | in every reachable state the window is fully accounted for, read, buffered and in-flight bytes are the bytes written, the inbox is within the window, and the violation branch is never taken |
| StreamProgress.TransferCompletes | internal/tunnel/yggdrasil/stream.go:122-182 | for any write, segmentation and schedule in which the reader keeps reading, the run is no longer than the outstanding work, and once nothing can move every byte has been read in order |
| StreamProgress.ClosedTransferCompletes | internal/tunnel/yggdrasil/stream.go:153-209 | once the write side is closed, with no condition on the window, the run is no longer than the outstanding work, and once nothing can move every byte handed over has been read and the reader has seen the end |
| StreamProgress.DeafPeerStalls | internal/tunnel/yggdrasil/stream.go:188-195 | after the reader closes its side, in every continuation the peer writes at most the credit left, its next segment clears if and only if it fits what remains of it, and what is discarded stays within the window |
| StreamProgress.DeafStillTakes | internal/tunnel/yggdrasil/stream.go:188-195 | a run that delivers a byte to a reader that has closed its side |
| StreamProgress.NeverStuckExactly | internal/tunnel/yggdrasil/stream.go:55-61 | no reachable state is stuck if and only if the window less the threshold less one holds a segment |
| StreamProgress.ShippedNeverStuck | internal/tunnel/yggdrasil/edge.go:22-27 | the shipped window, threshold and payload limit have that room for every MTU |
| StreamProgress.HonestEof | internal/tunnel/yggdrasil/stream.go:153-156 | if no close falls between a segment's decision and its packet, a drained reader that sees end of stream has read every byte written |
| StreamProgress.CloseHonestExactly | internal/tunnel/yggdrasil/stream.go:112-114 | closing now keeps end of stream honest in every continuation if and only if no segment is between its decision and its packet |
| Duplex.WriterMoves | internal/tunnel/yggdrasil/stream.go:98-115 | a writer's move is a step of its direction and none of the other |
| Duplex.DeliverMoves | internal/tunnel/yggdrasil/stream.go:231-260 | a delivered frame is a step of the one direction it belongs to |
| Duplex.BothDirectionsSound | internal/tunnel/yggdrasil/stream.go:98-260 | with both endpoints writing, reading, granting and closing, credit and bytes are kept in both directions and neither reports a violation |
| DuplexProgress.BothTransfersComplete | internal/tunnel/yggdrasil/stream.go:98-260 | from any state a link with the shipped constants can get into, while both sides keep reading, any run of the endpoints' own moves is no longer than the outstanding work of both directions, and when neither can move every byte owed has been read on either side, in order, with the end behind it if it was announced |
| TunnelRegistry.Registry.Bind | internal/tunnel/registry.go:45-72 | replaces key and targets and leaves a live session alone |
| TunnelRegistry.Registry.Open | internal/tunnel/registry.go:88-118 | opens a new session if and only if the execution is bound, the key matches and no session is live |
| TunnelRegistry.Registry.CloseSession | internal/tunnel/registry.go:139-146 | ends the live session and keeps the binding |
| TunnelRegistry.Registry.Invalidate | internal/tunnel/registry.go:154-161 | ends the live session and drops the binding |
| TunnelRegistry.Registry.Release | internal/tunnel/session.go:39-46 | ends this session and never another |
| TunnelRegistry.Registry.Active | internal/tunnel/session.go:49-57 | true if and only if the session is open |
| TunnelRegistry.Session.ResolveTarget | internal/tunnel/session.go:21-33 | an open session resolves exactly its own ports, a revoked one none |
| TunnelRegistry.AtMostOneOpen | internal/tunnel/registry.go:103-116 | two open sessions of one execution are the same |
| TunnelRegistry.ReleaseSparesReplacement | internal/tunnel/session.go:38-46 | releasing an old session leaves its replacement and the binding alone |
| TunnelAuthority.AuthorityHolds | internal/allocator/tunnel.go:45-76 | in every interleaving a session is open exactly while registered, an execution has at most one, and an open one held by the edge belongs to a live execution |
| TunnelAuthority.EndRevokes | internal/allocator/runtime_bridge.go:94-99 | the step that ends an execution revokes the session the edge holds |
| TunnelAuthority.DialMeansLive | internal/allocator/tunnel.go:165-195 | a dial returns a connection only for a live execution |
| TunnelAuthority.ChecksMade | internal/allocator/tunnel.go:45-195 | declarations and acceptances start from a live execution, dials from a registered session of work neither over nor being stopped, and an accepted session reaches the edge only if its execution is still live |
| TunnelAuthority.RecordsMade | internal/allocator/tunnel.go:45-195 | a registry record is written by a declaration that names execution, key and ports and keeps a live session, is given the next session by an acceptance exactly if its key matches and it has none, loses it to a release of that very session only, and goes when its execution ends |
| TunnelAuthority.BindingOutlives | internal/allocator/tunnel.go:113-130 | a run that leaves a binding behind its execution |
| TunnelAuthority.StrayStep | internal/allocator/tunnel.go:113-130 | a step leaves a binding without a live execution if and only if it is a declaration writing its record too late |
| TunnelAuthority.NeverStrayExactly | internal/allocator/tunnel.go:113-130 | over any run no binding is ever stray if and only if no declaration is too late |
| TunnelAuthority.FirstBelatedLeavesOne | internal/allocator/tunnel.go:113-130 | the first that is leaves a binding behind, and no session the edge may use |
| TunnelRuns.JointStep | internal/allocator/runtime_bridge.go:79-99 | every event of the allocator and every step of the tunnels keep the registry in line with the allocator's own records |
| TunnelRuns.SessionsOfLiveWork | internal/allocator/tunnel.go:45-76 | over every run of both, an open session the edge holds is the registered one of an execution that the allocator's record says is live |
| TunnelRuns.DialOfLiveWork | internal/allocator/tunnel.go:165-195 | a dial returns a connection only for an execution that the allocator's record says is live |
| TunnelRuns.EndedWorkRevoked | internal/allocator/runtime_bridge.go:94-99 | whichever event ends an execution, or loses it in a restart, leaves no session of it open in the edge's hands |
| TunnelRuns.NoStrayExactly | internal/allocator/tunnel.go:113-130 | nothing the allocator does leaves a stray binding: over every run of both there is none if and only if no declaration is too late |
| OfferOrder.Trichotomy | internal/client/allocators.go:125-143 | of two candidates exactly one is less, greater or equal |
| OfferOrder.Transitive | internal/client/allocators.go:125-143 | the comparator is transitive |
| OfferOrder.HeadIsBest | internal/client/allocators.go:125-146 | the head of any sorted arrangement is the minimum |
| OfferOrder.BestMeans | internal/client/allocators.go:125-143 | the best candidate is the one with the fewest hops, among those with the image at hand if any has it, among those with the first allocator ID byte by byte, among those with the first offer ID |
| OfferOrder.First | internal/client/allocators.go:125-146 | finds that candidate: none is nearer, none as near has the image where it has not, and of equals none has an earlier ID |
| ClientTheorems.ChoiceUnique | internal/client/allocators.go:104-147 | if any offer is eligible exactly one is chosen, whatever order they came in |
| ClientLaws.ChosenMeans | internal/client/allocators.go:104-147 | an offer is chosen if and only if its allocator is known with a destination, its time has not come and its node fits, and no other such offer is nearer, or as near with the image at hand where its own is not, or equal with an earlier allocator ID, or equal in all with an earlier offer ID |
| ClientTheorems.ExactlyOneKept | internal/client/selection.go:37-53 | after a selection exactly one offer has no release, the one the execution names |
| ClientTheorems.SelectKeeps | internal/client/selection.go:12-54 | a selection, or a refused one, keeps the client's records consistent |
| ClientTheorems.OfferKeeps | internal/client/inbound.go:41-79 | an offer that comes late is recorded already released |
| ClientTheorems.StateKeeps | internal/client/inbound.go:81-127 | an observed state never disturbs requests or assignments |
| ClientTheorems.AckKeeps | internal/client/release.go:63-87 | an acknowledged release stays a release |
| ClientTheorems.ViewsConverge | internal/client/inbound.go:89-127 | consistent views in any order and number end at the highest revision delivered, without a conflict, with the lease lost exactly if that view says so |
| ClientTheorems.AllocatorViewsConverge | internal/client/inbound.go:81-127 | so do the views an allocator shows in any run whose crashes find disk and memory in step |
| ClientLaws.RegisterLaw | internal/client/allocators.go:16-44 | a registration needs an identity and a destination; capacity with hops, node and tunnel advertisement stay as known where it has none |
| ClientLaws.CreateLaw | internal/client/commands.go:38-60 | a request gets its own record and envelope under new IDs |
| ClientLaws.OfferLaw | internal/client/inbound.go:41-79 | an offer is recorded if and only if it answers a request of the client's for its class from a known allocator and is new, without a release before the selection and with its own after it |
| ClientLaws.SelectLaw | internal/client/selection.go:12-54 | an earlier assignment is said again word for word; a new one is made if and only if some offer may be taken, the IDs are good and every loser can be released, and then keeps the chosen offer and releases every other to its own allocator; otherwise nothing changes |
| ClientLaws.StateLaw | internal/client/inbound.go:81-127 | a state of the execution's own allocator replaces the one on file if newer and that is not final, is ignored if older or the same, and is a conflict otherwise |
| ClientLaws.AckLaw | internal/client/release.go:63-87 | an acknowledgement counts if and only if it answers the release sent to its sender and does not claim an assignment |
| ClientLaws.PendingLaw | internal/client/release.go:40-61 | a release is pending until it is acknowledged or the offer's time has come, and goes to the destination it was meant for |
| ClientMachine.RunClient.Register | internal/client/allocators.go:16-44 | records a route, keeping known capacity and hops, node or tunnel advertisement where the new one has none, or refuses one without identity or destination |
| ClientMachine.RunClient.Create | internal/client/commands.go:38-60 | records a request under a new ID |
| ClientMachine.RunClient.OnOffer | internal/client/inbound.go:41-79 | takes the offer's node into the catalog, then records, ignores or refuses the offer, with its release when it comes after the selection |
| ClientMachine.RunClient.Choose | internal/client/allocators.go:104-147 | finds the one chosen offer, which may be taken and than which no other that may be is nearer or, as near, better by image, allocator ID or offer ID; or that none is eligible |
| ClientMachine.RunClient.SelectOffer | internal/client/selection.go:12-54 | selects and releases in one go, repeats an earlier assignment, or changes nothing |
| ClientMachine.RunClient.OnState | internal/client/inbound.go:81-127 | keeps, replaces or reports a conflict by revision |
| ClientMachine.RunClient.OnReleaseAck | internal/client/release.go:63-87 | acknowledges only the release it answers |
| ClientMachine.RunClient.PendingReleases | internal/client/release.go:40-61 | each release neither acknowledged nor moot, exactly once, in the order of message IDs |
| ClientMachine.SortById | internal/client/release.go:59-59 | a permutation in the order of message IDs |
| SystemRuns.StepKeeps | internal/client/envelopes.go:19-26 | every assignment ever sent is the one the client still names, every start is backed by one, and offer IDs of different allocators stay apart |
| SystemRuns.OneStartPerRequest | internal/client/selection.go:19-53 | over every run of one client and any number of allocators, a request is started at most once, by at most one allocator |
| ToldViews.TellStep | internal/allocator/cancel.go:13-77 | every event keeps it that a state in a reply is one shown of an execution launched for the very client the reply goes to |
| SystemViews.StatesNeverConflict | internal/client/inbound.go:81-127 | over every run of the whole system whose restarts find disk and memory in step, a state an allocator told the client, however late, repeated or reordered, is never unknown and never a conflict, and is refused only if that work is another allocator's |
| SystemViews.ClientConverges | internal/client/inbound.go:81-127 | and what the client has on file of an execution is one of the states its allocator sent that reached it, of the highest revision of them all |

## Left out

- Aliasing of records: a record is a value in its map and an update replaces it, so sharing one record through two references is not modelled; the sweep's copy of its offer records is therefore a copy by construction, while its replay cache is cloned as an object.
- TunnelAuthority: accepting and dialing a session are steps on values, since what matters is what happens between their locked sections; update in place is shown for the registry and its sessions.
- Dispatch of one command from end to end: its sections are separate events of a run, so that everything else may happen in between.
- Order of iteration: a loop over a Go map takes its keys in any order, and so does recovery, which sorts them.
- AllocatorMachine.Allocator.EvictExpiredLeases: new assignments do not interleave with the loop, which they could keep going for ever; they interleave at the level of runs, where an eviction is two events.
- AllocatorMachine.Allocator.Recover: only reported completions interleave with a visit; commands are not served until it returns.
- ClientMachine.RunClient.SelectOffer: which of two refusals is given when several losing offers cannot be released depends on map order and is not fixed.
- AllocatorSteps.RequestKeeps: a new ID is taken to differ from every ID used before, which random IDs make overwhelmingly likely but not certain.
- Encodings: JSON, protobuf, base64 and hashing of snapshots and messages, undecodable snapshots, and the legacy owner field; a snapshot is a value.
- The text and code under which a stored error survives a restart: a stored answer comes back as it was.
- Placement predicates and field validation: their verdicts are inputs.
- Message IDs of replies, and the failure of an empty one.
- Wrap-around of 64-bit revisions and of 32-bit counters; slot counters are bounded by their limits.
- Logs, metrics, telemetry, feedback codes, detach, credentials, cluster tokens and command-line handling.
- The allocator's restart with a different configuration, under which a snapshot may be refused.
- The lease intent and re-request duties of the client, the waiting run loop, and restarts of the client, which by design forget everything.
- What is in a node's description: it is one value, and which descriptions match a placement or cache an image are inputs of a selection.
- The exchange of preamble and accept itself; only the queue it reads from is modelled.
- Mesh, broker, mux and pair teardown, timeouts and dialing; the packet queues of one pair are taken as reliable and in order.
- Streams.StreamConn.Write: one writer and one reader at a time; two concurrent writes on one stream may interleave their segments.
- Duplex: a stream torn down by a close frame is modelled in the endpoint object only.
- containerd and the execution manager: the runtime may succeed, fail or report at any time.
