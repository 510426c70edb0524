# PortBridge: verified model of the forwarding control plane and the UDP data plane

PortBridge forwards ports through nftables and, where the kernel cannot, through
Go listeners. This project models the parts whose correctness testing can only
sample and proves what they promise. A forwarding scope is read as the set of
its *tuples* (identity, family, protocol, mark, listen and target address,
listen and target port); an *ingress cell* is what one packet arrives at.

| file | what it holds |
|---|---|
| `NftSpecs.dfy`, `PortAlgebra.dfy` | scopes, tuples, and the exact port-range algebra: subtract, retire, gate, degrade |
| `RetirementPlan.dfy`, `Conntrack.dfy` | the three lists of a reconciliation; which connections a scope matches |
| `NftWorld.dfy`, `RetirementProtocol.dfy`, `RetirementRuns.dfy` | kernel table, disk record and connections under faults; the reconciliation as a class with a log of every durable state; whole runs with deaths and restarts |
| `KernelTable.dfy`, `Text.dfy`, `Journal.dfy` | kernel transactions and readback; the journal written as rules and read back |
| `TrafficSemantics.dfy` | what the installed rules do to packets: redirection, source hiding, forwarding, acceleration |
| `DiskStore.dfy`, `StoreRefinement.dfy` | the recovery record, atomic replacement, boot rollover; the file as one step of the protocol |
| `AclSyntax.dfy`, `AclChecker.dfy`, `AclScopes.dfy`, `AclAdmission.dfy` | the proof checker for foreign firewall chains, against concrete packets |
| `RulePlan.dfy`, `Isolation.dfy`, `ForwardingManager.dfy` | rules, their conflicts, the plan; why rules do not disturb each other; listeners and status rows beside the kernel's state |
| `UdpWorker.dfy` | sessions, timing wheel, packet chains and counters as linked heap structures |
| `TokenBuckets.dfy`, `BudgetInterleavings.dfy` | per-source rates and eviction; shared counters under every interleaving |

How the main results fit together:

* **Retirement.** `NftWorld.World` fails or loses any call, or commits it and
  reports a failure, lets clients connect between any two, and answers afresh each
  time whether connection tracking is there; every durable state is appended to a
  log. The contract of `Backend.Replace` is about each logged state, so a crash is
  covered wherever it happens. `RetirementRuns.AnyLifetime` answers any list of
  tasks with deaths in any logged state and new processes within one boot, and
  ensures the obligations and the bound on ownership of the present state; its
  result is tied to the world's log. A tuple is revoked in a logged state when no
  connection of it was left there, and `RevokedStaysRevoked` says how one may come
  back. The ghost field `trouble` records failures outside the program; what the
  firewall rejects (`answer`) and whether connection tracking is there (`probes`)
  are not failures but inputs. Where `trouble` stays clear (`Feasible`, `Fits`), each
  call makes the progress that they allow (`Reaches`).
* **Packets.** `TrafficSemantics` evaluates the table's rules on packets, first
  match first. `RulesReachPackets` joins it with `RulePlan.PlannedTuples`, so that
  the configuration alone says where a packet goes.
* **Isolation.** `RulePlan.PlanIsConflictFree` supplies the conflict-free desired
  scopes that `KeptIsTrackedExactly` and `PlanIsSeparate` ask for. The history is
  asked for less: no two of its tuples meet, which `PlanIsSeparate` proves of every
  plan and of what a crash leaves of it. `Isolation` composes the two with
  `RetirementIsolates`.
* **Firewall.** `AclChecker.RunChain` evaluates a concrete packet; the checker's
  views, matches, chains and scopes are proved sound against it, up to
  `AclAdmission.UnaffectedIsAccepted`; `AnswersAreSound` says for which readings
  of a ruleset the answer meets its premise.
* **UDP worker.** The wheel's doubly linked lists are described by local link
  invariants with a ghost age. `Timers` reads them as a map from flows to expiries;
  `Leads` says what each event makes of it, and `FlowLivesExactly` what remains
  of it over a run.
* **Budgets.** A source is characterised by its *view*: sessions and the tokens
  it would have now. Rate bound and invisible eviction are proved over whole
  traces of views; interleavings are a state machine over atomic steps.

Where a simpler statement is false of the code, the code is kept and the exact
extent is stated:

* A tuple that is still wanted can leave every list without being revoked
  (`UpgradeIsForgotten`, `ResumedIsForgotten`); `KeptIsTrackedExactly` gives the
  exact condition. Both need a rejecting firewall or missing connection tracking.
* When an intent cannot be recorded, the fallback that is installed and believed
  drops suspended tuples that were to be resumed, while a record still lists them:
  the old one, or the new one if it was renamed into place but not synced. The
  next call believes the table without reading the record, so those tuples are
  exposed (`Exposed`, an expression over the state before the call):
  `ExposureHappens` is an input. `Replace` states the extent: every tuple the
  stores name survives until revoked or asked for, except exposed ones, and those
  are lost exactly when the call replaces the record.
* Bounding the pending list by 16384 entries, as
  `internal/proxy/nft_reconcile.go:226` does, does not bound what is staged
  (`PendingBoundIsNotEnough`); `internal/proxy/nft_journal.go:214` and
  `internal/proxy/nft_disk_linux.go:467` bound all lists together.
  `JournalKeepsOwnership` and `ReadableIsLoadable` give the exact bounds, and
  `Fits` puts them on every step of a reconciliation that is to succeed.
* A plain scope with the same target and mark may let a connection by before the
  rule that would offload it, depending on the order of the rules:
  `OffloadedInAnyOrder` gives the exact condition.

Abstractions: identities are their own text (the SHA-256 of a rule id is taken
to be injective, and legacy short identities do not occur); JSON is a datatype in
which an address literal is a constructor of its own; tokens are real numbers;
time does not go backwards; the kernel applies a transaction atomically; a
renamed directory entry becomes durable when the directory is synced, and a crash
before that may leave either state. Sorting by a textual key is replaced by the
given order wherever only membership matters.

## Model
| member | source | states |
|---|---|---|
| `PortAlgebra.SubtractPortRange` | internal/proxy/nft_recovery.go:207-222 | The loop leaves exactly the ports of the given intervals that lie outside the removed range. |
| `PortAlgebra.RemainingExact` | internal/proxy/nft_recovery.go:235-252 | What remains of a scope after any list of overlapping scopes is cut out is exactly its ports that no overlapping scope covers. |
| `PortAlgebra.CarveExact` | internal/proxy/nft_recovery.go:223-252 | Slicing a scope to the remaining ports keeps the listen-to-target offset: the carved scopes own exactly the tuples of the original whose port no overlapping scope claims, and stay valid. |
| `PortAlgebra.PieceIsReach` | internal/proxy/nft_recovery.go:207-252 | Each piece of a cut scope is maximal: it holds exactly the ports that can be reached from any of its ports without crossing a removed one. |
| `PortAlgebra.UniqueIsLatest` | internal/proxy/nft_recovery.go:186-204 | Deduplication keeps exactly the last scope given under each retirement key. |
| `PortAlgebra.UniqueKeepsAtoms` | internal/proxy/nft_recovery.go:174-204 | Deduplication by key loses and invents no forwarding tuple. |
| `PortAlgebra.RetiredSpecs` | internal/proxy/nft_recovery.go:235-252 | The loop computes the retired scopes, which own exactly the old tuples that are not desired. |
| `PortAlgebra.RetiredIsDifference` | internal/proxy/nft_recovery.go:235-252 | tuples(retired(old, desired)) is tuples(old) minus tuples(desired), for all valid scopes, and the pieces are valid. |
| `PortAlgebra.GateReplacements` | internal/proxy/nft_recovery.go:253-269 | The loop computes the gated scopes. |
| `PortAlgebra.GateIsOpenPart` | internal/proxy/nft_recovery.go:253-269 | Gating keeps exactly the desired tuples whose ingress no pending scope claims; the result is ingress-disjoint from everything pending. |
| `PortAlgebra.GateIsIdempotent` | internal/proxy/nft_recovery.go:253-269 | Gating twice by the same pending scopes changes nothing more, scope for scope. |
| `PortAlgebra.PreviouslyAdmittedSpecs` | internal/proxy/nft_reconcile.go:167-180 | The loop computes the degraded plan. |
| `PortAlgebra.PreviouslyAdmittedExact` | internal/proxy/nft_reconcile.go:167-180 | The degraded plan owns exactly the desired tuples that an active scope of no lower offload already had, and no accelerated scope of it covers a tuple that was not accelerated. |
| `PortAlgebra.PreviouslyAdmittedNeverOpens` | internal/proxy/nft_reconcile.go:165-180 | The degraded plan never contains a tuple that was not desired. |
| `RetirementPlan.UndesiredIsPending` | internal/proxy/nft_reconcile.go:221-229 | Before any safety gate, what must drain is the old pending tuples plus every active or suspended tuple that is no longer desired, whatever the firewall or connection tracking says. |
| `RetirementPlan.KeptIsTrackedExactly` | internal/proxy/nft_reconcile.go:221-274 | For any valid lists and any history, overlapping or not: a tuple wanted through scope n stays in some list if and only if it was draining already; or n is not held back and connection tracking is available or the tuple was active at no lower offload; or its family is gated and an accelerated scope of the history has it at a port no undesired tuple takes, unless n is permitted and spans that scope's whole open run there. The condition reads the inputs alone; in every other case the code drops the tuple. |
| `RetirementPlan.HeldBackIsTrackedExactly` | internal/proxy/nft_reconcile.go:233-249 | For a scope that the firewall holds back, a tuple stays tracked if and only if it was draining, or the history accelerated it at a port that no undesired tuple takes. |
| `RetirementPlan.PlanIsUnaffected` | internal/proxy/nft_reconcile.go:233-274 | Whatever the history and connection tracking: no scope that a plan installs, before or after the drain, is one the firewall rejected, also where scopes are cut or degraded. |
| `RetirementPlan.HealthyPlanForgetsNothing` | internal/proxy/nft_reconcile.go:221-274 | With no firewall rejection and connection tracking available, every owned tuple stays in some list of the plan. |
| `RetirementPlan.UpgradeIsForgotten` | internal/proxy/nft_reconcile.go:233-249 | Counterexample family: enabling acceleration on a plain active scope while the firewall gates its family drops every tuple of it without revocation. |
| `RetirementPlan.ResumedIsForgotten` | internal/proxy/nft_reconcile.go:266-272 | Counterexample family: resuming a suspended scope while connection tracking is unavailable drops every tuple of it without revocation. |
| `RetirementPlan.ForgettingHappens` | internal/proxy/nft_reconcile.go:233-272 | Both counterexample families contain a concrete valid scope. |
| `Conntrack.MatchesIsCarried` | internal/proxy/nft_conntrack.go:333-343 | A connection matches a list of scopes exactly when it is carried by one of their tuples. |
| `Conntrack.SharedConnectionSharesIngress` | internal/proxy/nft_conntrack.go:333-343 | A connection that matches both an installed and a draining scope would make their ingress overlap. |
| `Conntrack.RetirementIsolates` | internal/proxy/nft_conntrack.go:333-410 | Isolation of rules: when no two installed tuples meet at an ingress cell, whatever scopes hold them, no connection of a kept tuple matches anything retired. |
| `Conntrack.PlanKeepsDesired` | internal/proxy/nft_reconcile.go:230-272 | Whatever firewall and connection tracking answer, a plan keeps only desired tuples, installed or suspended, for any history. |
| `Conntrack.PlanIsSeparate` | internal/proxy/nft_reconcile.go:221-289 | No two tuples meet in what a plan for conflict-free scopes leaves installed or suspended, nor in its staged and committed tables together, nor in its staged table and the old lists together if none met there; nothing is asked of the history's scopes. |
| `Isolation.ReconfigurationIsolates` | internal/proxy/nft_reconcile.go:221-292 | From any lists and under any answer of firewall and connection tracking: after validated rules are planned, moving on to any other scopes retires nothing that a connection of a kept tuple matches. |
| `Isolation.CrashIsolates` | internal/proxy/nft_reconcile.go:42-78 | The same for what recovery finds after a death between the staged transaction and its record: lists of the old and the new plan together, whose scopes may overlap, if no two old tuples met. |
| `NftWorld.DrainedStays` | internal/proxy/nft_reconcile.go:275-292 | While the installed scopes share no ingress with the draining ones, a drained set of connections stays drained. |
| `NftWorld.RevokeScope` | internal/proxy/nft_conntrack.go:378-407 | One scope: on success no connection matches it, deletions hit only matching connections, scopes drained before stay drained, and without an outside failure it succeeds. |
| `NftWorld.RevokeConnections` | internal/proxy/nft_conntrack.go:365-410 | A nil result means no tracked connection matches any pending scope; only matching connections are ever deleted; where nothing outside fails it fails exactly when there is something to revoke and the tool is not there. |
| `RetirementProtocol.Backend.Bind` | internal/proxy/nft_disk_linux.go:490-518 | Kernel journal and disk record agree on one recovery instance, and it fails only if they disagree. |
| `RetirementProtocol.Backend.PrepareRecord` | internal/proxy/nft_disk_linux.go:519-532 | The write-ahead record confirms exactly what memory owns now, deduplicated, and stores the intent beside it; snapshots that a record may not hold are refused with the record untouched, and snapshots that fit a journal fail only from outside. |
| `RetirementProtocol.Backend.CheckpointRecord` | internal/proxy/nft_disk_linux.go:533-542 | The checkpoint confirms exactly the installed roles and clears the intent; a snapshot that a record may not hold is refused with the record untouched, and one that fits a journal fails only from outside. |
| `RetirementProtocol.Backend.InstallTable` | internal/proxy/nft.go:301-351 | A transaction is believed only after readback and confirmed only after a recorded intent; every durable state on the way forgets nothing, also when a transaction that was reported as failed had committed; with a recorded intent and a target that fits a journal it fails only from outside. |
| `RetirementProtocol.Backend.RemoveTable` | internal/proxy/nft.go:275-299 | Removing the table forgets nothing that was not discharged, also when a deletion reported as failed had committed, and leaves memory empty on success. |
| `RetirementProtocol.Backend.Inspect` | internal/proxy/nft.go:205-249 | The no-op fast path is taken only if the table read back carries exactly the wanted roles; a journal beyond its reader's bounds is refused; every other refusal has an unacceptable scope or an outside cause. |
| `RetirementProtocol.Backend.Fallback` | internal/proxy/nft.go:255-272 | When the intent cannot be recorded: nothing new is opened, every pending tuple stays pending, every active tuple that is not re-installed drains. |
| `RetirementProtocol.Backend.ReplaceObjects` | internal/proxy/nft.go:205-352 | Every durable state of the call forgets nothing; success leaves exactly the given tuples in each role; it succeeds if memory, table and target each fit a journal, a generation is left and nothing outside fails. |
| `RetirementProtocol.Backend.RecoverKernelState` | internal/proxy/nft_reconcile.go:23-163 | Recovered memory is, list by list, the union of memory, the confirmed record and the kernel journal (the intent is never read), or the believed memory; it covers both stores but for what the belief exposes; recovery succeeds if the journal is readable, bound, attributable and small enough, and nothing outside fails. |
| `RetirementProtocol.Backend.AdoptRecovered` | internal/proxy/nft_reconcile.go:129-161 | A restart believes a table only with a checkpointed record and a journal that both agree with recovered memory. |
| `RetirementProtocol.Backend.EvictAcceleration` | internal/proxy/nft_reconcile.go:250-263 | The cached state is dropped exactly when the rejection is wider than before or touches a still-wanted active scope. |
| `RetirementProtocol.Backend.PlanRetirement` | internal/proxy/nft_reconcile.go:221-273 | The plan of the three lists, the firewall's answer and connection tracking, both asked on the way; degraded exactly when connection tracking is missing at that moment. Without an outside failure it is refused only for its length, or when nothing is owned or due and connection tracking is missing. |
| `RetirementProtocol.Backend.Stage` | internal/proxy/nft_reconcile.go:275-288 | Drain before replace: on success nothing pending has a connection, the installed scopes share no ingress with it, and the pending tuples are journalled. For a plan that fits, if nothing outside fails, it falls short only where connection tracking is missing, and then the gated plan is installed with everything due in the journal. |
| `RetirementProtocol.Backend.Commit` | internal/proxy/nft_reconcile.go:289-298 | No drained connection can reappear before the replacement is installed; success installs exactly the plan, list by list, with nothing pending. |
| `RetirementProtocol.Backend.Reconcile` | internal/proxy/nft_reconcile.go:221-303 | Plan, stage, drain and commit as one: safe at each durable state and complete on success. If the plan for the firewall's answer and connection tracking fits and nothing else fails, that plan is committed and all that is due was revoked, or, where connection tracking was missing, it is staged. |
| `RetirementProtocol.Backend.Replace` | internal/proxy/nft_reconcile.go:182-303 | Crash safety of a whole reconciliation: each durable state is one a new process can start from, forgets no pending or undesired known tuple before its revocation, opens and accelerates nothing outside old and desired scopes (nothing new at all in degraded mode), keeps drained tuples drained, and names only what was found or had been active in a table logged by then, so an intent confers no ownership; success means exactly the desired tuples are active and all obligations were revoked. Progress: where nothing outside fails and the lists fit, whatever the firewall rejects and whether or not connection tracking is there, the table afterwards holds no active tuple that is not asked for, no scope that was rejected and nothing at an ingress still draining; all that was due is revoked with nothing left pending, or, only without connection tracking, is in the journal as pending; and with no rejection and connection tracking there the call succeeds. The exception to survival, exactly: what only the record lists while the table is believed is forgotten, unless asked for, if and only if the call replaces the record, as every successful call that changes the active tuples does. |
| `RetirementProtocol.CommitPoint` | internal/proxy/nft_reconcile.go:285-292 | A state reached after a confirmed drain keeps the drain until an active scope claims the ingress again. |
| `RetirementProtocol.KeepsThroughTable` | internal/proxy/nft.go:317-341 | A table that journals every unfinished retirement forgets nothing, whatever the disk record says. |
| `RetirementProtocol.UnionCovers` | internal/proxy/nft_reconcile.go:42-78 | The union covers all three sources in every role and owns nothing beyond them. |
| `RetirementRuns.LeftKeeps` | internal/proxy/nft_reconcile.go:182-219 | From one reconciliation, stopped or dead in any state, to what the next one finds: a tuple is forgotten only if it was discharged, asked for or exposed. |
| `RetirementRuns.ObligationsSurviveEveryRun` | internal/proxy/nft_reconcile.go:23-303 | The same over a given run: wherever its calls leave the stores, obligations survive until revoked. |
| `RetirementRuns.OnlyInstalledIsOwned` | internal/proxy/nft_reconcile.go:42-56 | Over a whole run: whatever any durable state confirms on disk, journals or calls revoked was there when the run began or had been active in a table the kernel had installed by then; to be intended confers nothing. |
| `RetirementRuns.AnyLifetime` | internal/proxy/nft_reconcile.go:182-303 | Any list of tasks, each in the running process or a new one, with failures anywhere, deaths in any durable state and connection tracking coming and going, over any valid stores. The calls answer the tasks one by one, together they are exactly what was logged, each state flows from the one before, and the last is the present one. Every tuple draining at first is still recorded as draining or was revoked in a logged state; every tuple named at first is still named or was revoked, unless a task asked for it or a call that ran in an old process exposed it; the stores name only what they named at first or what had been active in a logged table. |
| `RetirementRuns.RevokedStaysRevoked` | internal/proxy/nft_conntrack.go:365-410 | Over a logged lifetime, across calls and restarts: a later connection of a tuple that was revoked was let in by a scope active since, or shares the ingress of a scope active at the revocation. |
| `RetirementRuns.FallbackDropsResumed` | internal/proxy/nft.go:255-272 | A tuple that is neither active nor scheduled leaves every list when the plan shrinks, although it was to be resumed. |
| `RetirementRuns.ExposureHappens` | internal/proxy/nft.go:255-341 | Concrete chain: after a failed intent and its fallback, the next recorded intent drops a suspended tuple from every store unrevoked. |
| `RetirementRuns.PendingBoundIsNotEnough` | internal/proxy/nft_reconcile.go:225-229 | Input on which bounding the pending list alone admits a staged plan that the record and the journal reader both refuse. |
| `KernelTable.WriteRules` | internal/proxy/nft.go:568-590 | The loop writes the four rules of each scope and nothing else; `TrafficSemantics` says what they do to packets. |
| `KernelTable.WriteJournal` | internal/proxy/nft_journal.go:70-98 | The loops write the chain or flush it, and then one record per scope and role. |
| `KernelTable.RebuildReaches` | internal/proxy/nft.go:513-547 | The full script is accepted on any table and leaves exactly the wanted chains, rules, journal, binding and flowtable. |
| `KernelTable.JournalReaches` | internal/proxy/nft.go:305-309 | With the same active scopes, rewriting only the journal reaches the same table. |
| `KernelTable.RefreshReaches` | internal/proxy/nft.go:552-566 | Flushing and refilling the chains reaches the same table, flowtable and binding included. |
| `KernelTable.EveryStrategyReaches` | internal/proxy/nft.go:238-312 | Whichever of no-op, journal-only, refresh and rebuild the guards choose, the transaction is accepted, the table equals what a rebuild leaves, and every unaltered listing of it passes the readback comparison. |
| `KernelTable.TrafficOfSame` | internal/proxy/nft.go:495-502 | Equal keys of two scope lists, in any order, mean equal rules. |
| `KernelTable.ValidateState` | internal/proxy/nft_state.go:198-305 | The counting comparison accepts if and only if the objects are exactly the wanted ones: one owned descriptor, each chain once, flowtable if and only if used, every rule as often as wanted. |
| `KernelTable.AcceptedIsDescribed` | internal/proxy/nft_state.go:198-305 | A listing is accepted if and only if its table is the wanted one, nothing foreign is in it, and chains and flowtable have the attributes they were given. |
| `KernelTable.RolesAreDetermined` | internal/proxy/nft_journal.go:70-98 | The table determines which scopes it holds in which role, up to order. |
| `TrafficSemantics.RedirectsExactly` | internal/proxy/nft.go:572-671 | Packet semantics of the installed table, for any order of its rules: where no two active tuples meet, a packet from outside, or one the host sends, is redirected to an address and port with a mark if and only if an active tuple that the packet arrives for says so. |
| `TrafficSemantics.RedirectedIsOwned` | internal/proxy/nft.go:572-632 | Without that condition: every redirection is some active tuple's, and a packet that any active tuple receives is redirected. |
| `TrafficSemantics.RulesReachPackets` | internal/proxy/plan.go:74-104 | From the configuration to the packet: with what validated rules plan installed, a packet is redirected if and only if an enabled, resolved rule sends it on, to the target port shifted as the listen port is, at the first resolved address of the listener's family. |
| `TrafficSemantics.MasqueradesExactly` | internal/proxy/nft.go:577-580 | The source address is hidden exactly on connections that have the target and the mark of an active tuple. |
| `TrafficSemantics.ForwardsAsAsked` | internal/proxy/nft.go:580-612 | An established connection of an active tuple is let through by a rule; it is offloaded only if a scope with acceleration has the tuple, and, unless a plain scope shares its target and mark, if and only if. |
| `TrafficSemantics.OffloadedInAnyOrder` | internal/proxy/nft.go:571-612 | The exact condition: an established connection is offloaded in every order of the rules if and only if a scope with acceleration has its tuple and no scope without one shares its target and mark. |
| `TrafficSemantics.RedirectedIsServed` | internal/proxy/nft.go:572-639 | A redirected packet opens a connection of an active tuple, whose source is hidden, which passes by a rule once established, and which revoking the active scopes would find. |
| `Journal.RuleRoundTrip` | internal/proxy/nft_journal.go:99-128 | Reading back the rule of any valid scope, whatever its counters and handles, yields the scope with its ends written out, its role and its acceleration flag. |
| `Journal.ReadsExactly` | internal/proxy/nft_journal.go:209-281 | A rule is read as an entry if and only if it is, up to counters and handles, the rule that would be written for it; nothing is read that was not written. |
| `Journal.DecodeJournal` | internal/proxy/nft_journal.go:186-283 | The two loops compute the decoded journal or refuse all of it. |
| `Journal.JournalRoundTrip` | internal/proxy/nft_journal.go:70-283 | What is written is read back list by list and in order if and only if the three lists together stay within 16384 entries; beyond that the whole journal is refused. |
| `Journal.JournalKeepsOwnership` | internal/proxy/nft_journal.go:70-283 | A written journal is readable if and only if its lists together are within the bound, and then each role owns the tuples written in it. |
| `Text.SplitOfJoin` | internal/proxy/nft_journal.go:57-63 | Colon-separated comment fields survive writing and splitting. |
| `Text.ValueOfDecimal` | internal/proxy/nft_journal.go:130-154 | Decimal numerals are read back as the number written. |
| `DiskStore.ValidateSnapshot` | internal/proxy/nft_disk_linux.go:466-489 | The loops accept exactly the snapshots within the bound whose scopes are valid, of this owner, and pairwise different in key. |
| `DiskStore.Session.Save` | internal/proxy/nft_disk_linux.go:543-609 | A successful save is durable and becomes the session's record; a failed one leaves the record and at most replaces the current file atomically. |
| `DiskStore.Session.PrepareRecord` | internal/proxy/nft_disk_linux.go:519-532 | Prepare advances the generation, stores confirmed and intent, and touches only the current file. |
| `DiskStore.Session.CheckpointRecord` | internal/proxy/nft_disk_linux.go:533-542 | Checkpoint needs a prepared record, clears the intent, and touches only the current file. |
| `DiskStore.Session.Binding` | internal/proxy/nft_disk_linux.go:490-518 | A kernel binding is accepted if and only if it is this configuration's prefix and an instance, the established one if there is one; an established instance never changes, and a new record is unwritten. |
| `DiskStore.Begin` | internal/proxy/nft_disk_linux.go:205-302 | Exact condition on the stored files under which a lifecycle may open, up to outside failures; a session holds history only of its own lifecycle; a rollover holds none, follows an independent proof and a stored record of the same configuration, user, owner and zone policy under another boot id, and archives exactly the stale record. |
| `DiskStore.RebootIs` | internal/proxy/nft_disk_linux.go:378-381 | Of a bound, well-formed context, exactly those are accepted as the next boot's that differ from it in the boot id, and in the network namespace at most. |
| `DiskStore.OldRecordSurvives` | internal/proxy/nft_disk_linux.go:237-302 | Through any mix of starts, writes and crashes of one boot, the previous boot's record is still the current file or the archive in every directory a crash may leave. |
| `StoreRefinement.ReadableIsLoadable` | internal/proxy/nft_disk_linux.go:327-369 | A record reads back if and only if it is loadable for the protocol and its names are well formed. |
| `StoreRefinement.Save` | internal/proxy/nft_disk_linux.go:543-609 | Writing the record file step by step is one step of the protocol's record: the old or the new record is there afterwards, the new one on success. |
| `AclChecker.ViewsCover` | internal/proxy/nft_selective_acl_linux.go:89-119 | The abstract views contain every packet of every flow of the scope as translation shows it at that hook and priority, in both directions. |
| `AclChecker.MatchAlwaysIsSound` | internal/proxy/nft_selective_acl_linux.go:120-203 | A match judged certain on a view holds for every packet in it. |
| `AclChecker.RuleOutcome` | internal/proxy/nft_selective_acl_linux.go:36-78 | A grammatical rule can only accept or fall through, and accepts when its matches hold. |
| `AclChecker.ChainOutcome` | internal/proxy/nft_selective_acl_linux.go:204-268 | A chain of such rules accepts a packet if its policy does or one rule is certain to. |
| `AclChecker.ChainAccepts` | internal/proxy/nft_selective_acl_linux.go:204-268 | The loops with their work budget return the specified verdict or report exhaustion. |
| `AclChecker.AcceptsIsSound` | internal/proxy/nft_selective_acl_linux.go:89-268 | Checker soundness: a positive verdict means the chain accepts every concrete packet of every flow of the scope, both ways. |
| `AclChecker.TransparentChainAcceptsAll` | internal/proxy/nft_transparent_accept_linux.go:152-190 | A chain of transparent accept rules with an accepting policy accepts every packet. |
| `AclScopes.ProveSelectiveScopes` | internal/proxy/nft_selective_acl_linux.go:281-377 | The single pass over maps returns exactly the eligible scopes that every relevant chain accepts; it returns nothing only if a rule lacks its chain, a chain its table, or the work budget is spent. |
| `AclScopes.PermittedIsAccepted` | internal/proxy/nft_selective_acl_linux.go:269-377 | Every packet of every flow of a scope covered by a permitted one passes every relevant foreign chain. |
| `AclAdmission.ConflictingHooks` | internal/proxy/nft_firewall.go:82-130 | The loop returns exactly the conflicting foreign chains, and fails exactly on an incomplete chain. |
| `AclAdmission.ConflictIsPassedLater` | internal/proxy/nft_firewall.go:112-128 | A chain conflicts if and only if forwarded packets of some family pass it at the managed chain's hook and priority or later, address translation on the way out excepted; and it gates exactly those families. |
| `AclAdmission.CompatibleHooks` | internal/proxy/nft_empty_hooks_linux.go:164-253 | It succeeds exactly on inventories whose objects are all known and listed once, have their parents, and whose rules show distinct numbers; then each chain is marked compatible exactly when its header and all its rules are transparent. |
| `AclAdmission.CheckFlowtableAdmission` | internal/proxy/nft_firewall.go:45-79 | Unreadable exactly on an incomplete chain; nothing is gated where nothing conflicts. Otherwise, when two readings of the whole ruleset show the first list's conflicting chains in well-formed inventories and the work budget suffices, the answer is the admission of the last reading if both prove the same on the same text, and gates all conflicting families if not; in every other case it gates them too and permits nothing. |
| `AclAdmission.ProvePass` | internal/proxy/nft_empty_hooks_linux.go:32-72 | One pass computes the unproved chains, the permitted scopes and the text of both proofs. It does so for every complete, well-formed reading whose conflicting chains are those first listed, unless the work budget is spent, and for no other. |
| `AclAdmission.UnaffectedIsAccepted` | internal/proxy/nft_firewall.go:25-79 | An accelerated scope the admission does not affect is dropped by no foreign chain that its packets pass at the managed chain's place or later: each of them accepts every packet of its flows, in both directions. |
| `RulePlan.ConflictIsSharedCell` | internal/config/config.go:1010-1060 | Two enabled rules are refused together if and only if some packet would reach both. |
| `RulePlan.ValidateRuleConflicts` | internal/config/config.go:1010-1027 | The double loop reports a conflicting pair if and only if there is one. |
| `RulePlan.ForwardingPlan.AddListener` | internal/proxy/plan.go:75-125 | One listener adds exactly its kernel scopes, its Go path or its loopback companion, or an error when it has no target; `PlannedTuples` and `PlannedGoPaths` read them off the rule. |
| `RulePlan.BuildPlan` | internal/proxy/plan.go:46-140 | The loops build the specified scopes and paths, the rule sets agree with them, and an enabled rule is reported exactly when its target resolved to nothing. |
| `RulePlan.PlannedTuples` | internal/proxy/plan.go:74-104 | Field by field from the rules, in both directions: a tuple is planned for the kernel if and only if an enabled, resolved rule that leaves the choice sends it on, from its listen port to the target port as far from the first one, at the first resolved address of the listener's family, for a listener that is not the loopback; acceleration is asked for exactly when it is switched on. |
| `RulePlan.PlannedGoPaths` | internal/proxy/plan.go:74-188 | The same for Go listeners: a path is planned if and only if it stands in for a listener the kernel does not take, or for the loopback beside a wildcard it does take, with the first address of the right family; it serves the rule's own ports and transports. |
| `RulePlan.PlanIsConflictFree` | internal/proxy/plan.go:74-104 | Validated rules plan valid scopes no two of which receive a common packet. |
| `RulePlan.EveryListenerIsServed` | internal/proxy/plan.go:75-125 | Every listener of an enabled, resolved rule gets a kernel scope per transport or a Go listener, and both only for the loopback companion. |
| `RulePlan.PathComesFrom` | internal/proxy/plan.go:181-188 | Every Go path is its rule with the listen and target address of its key. |
| `ForwardingManager.OverlapIsSharedCell` | internal/proxy/manager_nft_state.go:24-37 | The overlap test is exact: it holds if and only if some packet would reach both the listener and the scope. |
| `ForwardingManager.SomeCandidateIsFree` | internal/proxy/manager_nft_state.go:39-55 | Pigeonhole: among the bounded candidates one name is taken neither by a rule nor by the configuration. |
| `ForwardingManager.Manager.TombstoneID` | internal/proxy/manager_nft_state.go:39-55 | The search never reaches its panic and returns a name that is no configured rule's and no other row's. |
| `ForwardingManager.Manager.StopChangedRunners` | internal/proxy/manager.go:173-194 | Afterwards every listener is a path of the plan with the same rule but for its name. |
| `ForwardingManager.Manager.ReconcileKernel` | internal/proxy/manager.go:202-253 | The kernel is asked to replace exactly when it could be inspected and the plan, its health or its admission calls for it, so always when a scope is added, dropped or altered, or an accelerating plan meets other devices; the error and the remembered plan follow its answer. |
| `ForwardingManager.Manager.RetirementStatus` | internal/proxy/manager_nft_state.go:57-147 | Every scope the kernel may still forward is represented by a blocked row; a configured rule is blocked if and only if the state is unknown, or it or a packet of one of its listeners may still be forwarded; verified are exactly the other rules whose scopes are all installed. |
| `ForwardingManager.Manager.ReconcileRunners` | internal/proxy/manager.go:255-303 | Exactly those plan paths run that need not wait for the kernel and whose socket could be bound; the rules of all others are reported. |
| `ForwardingManager.Manager.UpdateRuleStates` | internal/proxy/manager.go:305-377 | Each configured row gets the specified status and data plane, other rows keep theirs. |
| `ForwardingManager.Manager.RetireRemovedRules` | internal/proxy/manager.go:379-399 | Rows of removed rules stay only while blocked, and then count as running. |
| `ForwardingManager.Manager.Apply` | internal/proxy/manager.go:131-169 | Whatever the kernel calls did: listeners are current paths and none overlaps surviving kernel forwarding, none runs when the state is unknown, every unfinished scope has a row that counts as running, a changed plan was put to a kernel that could be inspected, and a configured row is up if and only if its rule is enabled and resolved, nothing of it is stuck, its listeners all run, and its kernel scopes were applied or are proved installed. |
| `ForwardingManager.Manager.ApplyRules` | internal/proxy/manager.go:131-169 | The same from a configuration: after an error no packet could reach both a running listener and forwarding the kernel may still perform. |
| `UdpWorker.Worker.InsertWheel` | internal/proxy/udp.go:642-651 | Pushing on a slot's list keeps all links, heads and the order of age. |
| `UdpWorker.Worker.RemoveWheel` | internal/proxy/udp.go:653-668 | Unlinking keeps all other links and heads. |
| `UdpWorker.Worker.ExpireSlot` | internal/proxy/udp.go:685-699 | One visit closes exactly the slot's expired sessions and re-files the others under their expiry. |
| `UdpWorker.Worker.Maintain` | internal/proxy/udp.go:670-683 | Closes exactly the live sessions whose expiry has come, however late it runs and however far ahead sessions were touched. |
| `UdpWorker.Worker.CloseSession` | internal/proxy/udp.go:701-718 | A closed session leaves both tables and the wheel, and every shared counter stays the others' share plus the live sessions. |
| `UdpWorker.Worker.NewSession` | internal/proxy/udp.go:556-621 | Success enters the session everywhere and accounts for it; any failure restores every counter but the source's reservation, and has a refused reservation or a network failure as its cause. |
| `UdpWorker.Worker.Cleanup` | internal/proxy/udp.go:743-754 | Closes everything and leaves exactly the others' share on each counter. |
| `UdpWorker.Worker.BeginPacketBatch` | internal/proxy/udp.go:461-476 | A new generation, also across wraparound, is carried by no live session. |
| `UdpWorker.Worker.QueuePacket` | internal/proxy/udp.go:478-489 | The intrusive chains stay acyclic, disjoint and in arrival order; the index is appended to its session's chain. |
| `UdpWorker.GroupedSize` | internal/proxy/udp.go:478-489 | The chains together hold exactly as many packets as were queued. |
| `UdpWorker.Worker.WriteBatch` | internal/proxy/udp.go:535-554 | Partial writes go on until everything is handed over or the socket fails. |
| `UdpWorker.Worker.SendGroup` | internal/proxy/udp.go:427-452 | A prefix of the chain is forwarded in order and the rest is dropped; without a fault it is the whole chain and the session lives on; it expires one idle timeout from now if anything was sent, and keeps its expiry if not. |
| `UdpWorker.Worker.ReadInbound` | internal/proxy/udp.go:365-456 | Packets are grouped by flow in arrival order, a prefix of each group is forwarded, every packet read is counted exactly once, the others' share of the counters is untouched. Where no reservation is refused and the network does not fail, every usable packet is forwarded, every flow with one is served and expires one idle timeout from now, and all other flows keep their expiry; whatever fails, a flow keeps its expiry or gets that one. |
| `UdpWorker.Worker.ReadResponses` | internal/proxy/udp.go:491-533 | Every answer read is counted exactly once, every usable one is forwarded unless the network fails, only the session itself can be closed, and it expires one idle timeout from now if anything was forwarded, else as before. |
| `UdpWorker.Worker.Step` | internal/proxy/udp.go:310-363 | One event: what it brought, exactly, counted once; the others' share moves only by their own events; without fault or refusal all usable datagrams are forwarded, and the flows with their expiries move exactly as the event says. A tick always leaves exactly the flows that expire later. |
| `UdpWorker.Worker.Run` | internal/proxy/udp.go:310-363 | A worker's whole life among other users of the counters. Each event brings what it carries (a whole batch; all answers of a flow that is served, none of one that is not), all of it is counted once, all usable datagrams are forwarded unless something fails or is refused, and the flows served before and after each event are related as it says; in the end no session is left and every shared counter is what the other users' own moves make of their share. |
| `UdpWorker.FlowLivesExactly` | internal/proxy/udp.go:635-699 | Over a run without fault or refusal: a tick leaves exactly the flows for which something was forwarded less than one idle timeout ago and whose socket has not broken since. |
| `TokenBuckets.RuleBudget.ReservePacket` | internal/proxy/budget.go:140-178 | The branches compute the specified bucket update and answer. |
| `TokenBuckets.RuleBudget.MaintainSources` | internal/proxy/budget.go:229-266 | At most once a second, at most 1024 entries of the next four shards are inspected, only idle sources are evicted, and none is left in a swept shard of fewer than 256 entries. |
| `TokenBuckets.RuleBudget.Handle` | internal/proxy/budget.go:140-266 | Every request, rollback, release and sweep of the code is one event of the traces that the rate bound and the invisibility of eviction are about. |
| `TokenBuckets.SweepsCoverAllShards` | internal/proxy/budget.go:241-245 | Sixteen sweeps in a row visit every shard, also across the cursor's wraparound. |
| `TokenBuckets.StepActsOnViews` | internal/proxy/budget.go:140-224 | Every operation acts on a source only through its sessions and the tokens it would have now. |
| `TokenBuckets.RateIsBounded` | internal/proxy/budget.go:140-266 | In any span of T seconds, through any evictions, a source gets at most rate * (1 + T) packets through and starts at most rate * (1 + T) sessions net of rollbacks. |
| `TokenBuckets.EvictionIsInvisible` | internal/proxy/budget.go:229-266 | As long as there is room, a budget that evicts idle sources answers every request like one that keeps them for ever. |
| `TokenBuckets.ShortIdleIsVisible` | internal/proxy/budget.go:242-257 | For any idle time under a second eviction is visible, so the validated minimum is needed. |
| `BudgetInterleavings.NextKeepsSound` | internal/proxy/budget.go:74-211 | Every atomic step of any goroutine keeps each counter equal to what goroutines hold and within its limit. |
| `BudgetInterleavings.BudgetsHold` | internal/proxy/budget.go:74-211 | Under every interleaving the global, rule, memory and per-source caps, TCP and UDP, hold at each moment. |
| `BudgetInterleavings.RestoredAtRest` | internal/proxy/budget.go:74-211 | When nobody is half way, the counters are what established connections and sessions hold: refused attempts gave everything back. |
| `BudgetInterleavings.TracksKeepsTracked` | internal/proxy/budget.go:140-161 | The shard lock makes counting and inserting one source look atomic. |
| `BudgetInterleavings.CounterCoversTable` | internal/proxy/budget.go:140-266 | The shared count is at every moment at least the number of tracked sources and at most the cap, and equal when nobody is half way. |

## Left out

- HTTP, authentication, TLS, UI, packaging, diagnostics text: presentation.
- Subprocesses, netlink, epoll, sockets, file permissions and locks, namespace
  identity: calls that succeed or fail nondeterministically.
- JSON and XML decoding, escaping, duplicate-key scanning: the models start from
  decoded values. Sorting of arrays inside a compared rule is not modelled.
- Legacy short identities and `resolveNFTIdentities`.
- `Healthy`, `Delete` and the CLI-independent emptiness proofs of the kernel
  backend; the manager's `Inspect` may give any answer instead.
- A backend without a recovery store, and backends that do not report retirement
  state: the manager's branches for them.
- RetirementProtocol.Backend.Replace: covers one boot; a rollover that clears
  process memory is modelled in `DiskStore` alone, and a foreign table of the same
  name appears as a failed observation.
- RetirementProtocol.Backend.CheckAdmission: the firewall's answer is arbitrary
  there; `AclAdmission` models how it is computed.
- AclAdmission.UnaffectedIsAccepted: forward chains that run before the managed
  hook are not covered; an offloaded flow skips them as well.
- AclScopes.ProveSelectiveScopes: how much work each step is charged is not
  specified, only that nothing but an overdrawn budget stops a consistent proof.
- TrafficSemantics.RedirectsExactly: other tables at the same hooks, and the choice
  of the hidden source port, are outside the packet semantics.
- RetirementProtocol.Backend.PrepareRecord: the form of identities is not checked
  there, because an identity is a hash or was checked when it was read; the file
  size limit of 16 MiB is out of reach of the entry bound.
- RetirementProtocol.Backend.InstallTable: nobody else writes the owned table, so
  a readback that shows another one appears as a failed observation.
- KernelTable.Choose: the fingerprint stands for the observed objects; hash
  collisions are not modelled.
- DNS resolution, cached targets and backup targets: the plan takes resolved
  addresses as input; zoned and IPv4-mapped literals do not occur.
- Distribution of UDP workers over paths: easy arithmetic.
- UdpWorker.Worker.ReadInbound: the maps for plain and wildcard listeners are one
  map keyed by client and optional local address; byte counters and the flush of
  statistics are not modelled, the counts accumulate instead.
- UdpWorker.Counters.ReserveSource: token buckets may refuse any packet there;
  `TokenBuckets` models when they do.
- TokenBuckets.RuleBudget.MaintainSources: the compare-and-swap on the next sweep
  time is one step; `BudgetInterleavings` models the table under concurrency.
- BudgetInterleavings.BudgetsHold: limits are fixed during a run.
- Configuration normalisation, migration and the per-field rule checks.
- TCP copying, splice, idle monitoring, health probes, telemetry.
