# LeanFlow: verified coordination, accounting and configuration logic

A Dafny model of the parts of LeanFlow that decide who may run, what may be spent, what is published and what
is believed afterwards, with proofs over every run, every input or every reachable state.

| module | models |
|---|---|
| `Admission`, `AdmissionSafety`, `AdmissionPriority`, `AdmissionHandoff`, `AdmissionProgress` | project-wide admission of Lean-heavy work: a labelled transition system over all threads of all processes, with the process gate, the main `flock`, the foreground markers, handoff leases, nesting, retention, crashes and a clock |
| `Capacity`, `CapacityLife` | background actor capacity: a semaphore per process, slot locks across processes, reference-counted leases |
| `CampaignLedger`, `CampaignSafety`, `CampaignTokens`, `CampaignTime` | the campaign budget: the controller class and its file, and whole campaigns with crashes, failed writes, restarts and active time |
| `SessionCost`, `RunUsage`, `UsageLaws`, `UsageFields` | aggregation of usage and cost from an event stream |
| `Toolsets` | resolution over a user-extensible, possibly cyclic include graph |
| `SealedResult` | write-once run results under racing, failing and dying finalizers and slow readers |
| `ExpertShutdown`, `ExpertCancellation` | the shutdown-generation handshake of expert commands |
| `EventFollower` | incremental polling of an event stream |
| `Config` | merging configuration over defaults, set and get through the file |
| `ResetWindow` | reset-window arithmetic of provider usage limits |
| `Basics` | options and sums over maps |

How to read the state machines: a step is one critical section, one blocking call that returns, or one write, and
anything may happen between two steps. `Enabled` and `Effect` give the guard and the result of a step, `IsRun` the
finite behaviours, `Inv` what every step keeps. Theorems about a run quantify over all its states and steps.
Where the source changes an object or a table by itself (the ledger, the lease, the tool and command registries, the
configuration store) there is a class whose methods are proved against the functions that the state machine uses.

Where the code does less than its documentation says, the model follows the code and states the exact condition:

- A sealed result that has been read as verified can still be taken back: the integrity file is readable before its
  `fsync`, and a failed `fsync` unlinks it (`SealedResult.ResultCanBeTakenBack`). It stays exactly when no writer is
  between these two points (`SealedResult.VerifiedStaysVerified`).
- `finish` promises one terminal, idempotent record. While its controller lives, a terminal call stays exactly when
  no start is reported for it (`CampaignSafety.StartReopensTerminalCalls`); both callers of the source comply. Across
  restarts that is not enough: a report whose write failed is lost with the controller, and a call refunded as never
  started is charged again (`CampaignSafety.LostReportExample`). A report is final exactly when it has reached the file,
  or the call is in the file and the report says no more than a restart assumes, namely that the call ran with unknown
  usage (`CampaignSafety.ReportIsFinal`).
- Calls are charged exactly once as long as every write succeeds (`CampaignSafety.ChargedExactlyOnce`); otherwise the
  surplus is the reservations that failed to be handed out and the refunds that were lost (`CampaignSafety.ChargeAccount`).
- A snapshot whose creator is gone blocks sealing for good unless it is already verified: its creator died before the
  integrity file was visible, or failed without removing the snapshot, or removed the integrity file
  (`SealedResult.SealableExactly`, `SealedResult.DeathBlocksSealing`, `SealedResult.FailureMayBlockSealing`).
- The wall-time limit counts the time in the file. Time that ran out but was not written is given back by a crash
  (`CampaignTime.TimeIsUpExactly`).
- A follower whose poll finds more new matches than its limit gets the newest and never sees the rest; delivery is
  exactly-once if and only if that never happens (`EventFollower.FollowerDeliversOnce`).
- A toolset named `all` or `*` makes the walk recurse without end exactly when a wildcard is reachable
  (`Toolsets.ResolveToolset`).
- At `schema_version` itself, `get` after `set` depends on migration (`Config.GetAfterSet`).
- Emitted retry metadata normalises to itself unless it ends before the epoch
  (`ResetWindow.NormalizeKeepsEmitted`, `ResetWindow.BeforeTheEpochExample`).

## Model

| member | source | states |
|---|---|---|
| `Admission.Bounded` | core/project_resource_admission.py:94-100 | A requested lease lies between 0 and 120 s, and is what was requested if that does |
| `Admission.ArmedGrace` | core/project_resource_admission.py:289-293 | A requested grace is armed as requested, up to 120 s; only without one the configured grace is, up to 5 s |
| `AdmissionSafety.StepKeeps` | core/project_resource_admission.py:602-715 | Every step of every thread, lease, scan, reclaim, crash and tick keeps the agreement between program points, gates, slot, sticky gates and marker locks |
| `AdmissionSafety.ReachableInv` | core/project_resource_admission.py:602-715 | That agreement holds in every reachable state |
| `AdmissionSafety.MutualExclusion` | core/project_resource_admission.py:654-679 | In every reachable state, with crashes, at most one thread of all processes is in an outermost body, and it owns the slot and its process gate |
| `AdmissionSafety.OneVisitTakesOnce` | core/project_resource_admission.py:615-715 | Along every run, from the body to the return and whatever scopes are nested in it, a thread gives back slot, gate and marker at most once each and takes none again; while the body lasts it has all three |
| `AdmissionSafety.NothingLeftBehind` | core/project_resource_admission.py:700-715 | In every reachable state a thread that has returned without retention holds no slot, no gate and no marker lock |
| `AdmissionSafety.ExitReleasesItsOwnLocks` | core/project_resource_admission.py:700-715 | The outermost exit unlocks a slot, a marker and a gate that are its own; the marker's file goes unless its grace is to be preserved |
| `AdmissionSafety.RetentionStep` | core/project_resource_admission.py:83-86 | No step other than the death of its process undoes a requested retention |
| `AdmissionSafety.RequestRetains` | core/project_resource_admission.py:83-86 | A request for retention, in any scope, is one from then on |
| `AdmissionSafety.RetentionLastsUntilDeath` | core/project_resource_admission.py:681-689 | After a retention request nobody else is in a body until that process dies; after the exit nobody is, no gate acquisition is possible in that process and each check refuses |
| `AdmissionSafety.RetentionExcludes` | core/project_resource_admission.py:589-598 | A sticky gate admits nobody: its callers can only be refused |
| `AdmissionPriority.ScanWaiters` | core/project_resource_admission.py:441-479 | The scan loop reports a marker that is locked or whose deadline lies within the next 121 s exactly when there is one, and deletes exactly the others |
| `AdmissionPriority.ReclaimWaiters` | core/project_resource_admission.py:482-528 | Reclaiming removes exactly the unlocked markers of one process and returns exactly its locked ones |
| `AdmissionPriority.CommittedStep` | core/project_resource_admission.py:542-550 | While a marker is active no step lets a background thread pass its confirming scan |
| `AdmissionPriority.NoNewCommitment` | core/project_resource_admission.py:535-550 | Along a stretch of a run with an active marker, a background thread that is committed at the end was committed throughout |
| `AdmissionPriority.WaitingIsActive` | core/project_resource_admission.py:340-355 | A foreground caller that waits has an active marker |
| `AdmissionPriority.ForegroundPriority` | core/project_resource_admission.py:535-550 | During the whole wait of a foreground caller all background bodies seen are one visit of one thread that had confirmed before the wait |
| `AdmissionPriority.ArmingHandsOver` | core/project_resource_admission.py:281-303 | A successful write of a grace deadline puts the marker into its handoff state |
| `AdmissionHandoff.GraceIsTheLargestRequest` | core/project_resource_admission.py:88-104 | Along every run of a body, at whatever depth the requests are made, the grace honours each request up to 120 s and is granted by one of them |
| `AdmissionHandoff.ScopesBalance` | core/project_resource_admission.py:615-632 | The depth of a body counts the scopes entered and left; it can end exactly when all are left |
| `AdmissionHandoff.ExitArmsTheMarker` | core/project_resource_admission.py:690-699 | The run of an undisturbed exit writes, with the slot held in every state, a deadline of exactly the body's grace from now, or without one of the configured seconds, at most five |
| `AdmissionHandoff.ExitWithoutGrace` | core/project_resource_admission.py:294-295 | With nothing requested or configured the exit removes its marker |
| `AdmissionHandoff.ExitHonoursTheLargestRequest` | core/project_resource_admission.py:83-104 | From the entry of a body to its armed exit: the deadline is exit time plus the largest request, at most 120 s; without a request plus the configured grace, at most 5 s |
| `AdmissionHandoff.ErrorsGiveEverythingBack` | core/project_resource_admission.py:704-715 | An error anywhere before the body unwinds to a state in which exactly the caller's slot, gate and marker are given back, but nothing its process retains |
| `AdmissionHandoff.FailedArmingIsNotPreserved` | core/project_resource_admission.py:301-302 | A failed arming leaves no grace to preserve |
| `AdmissionHandoff.ReservationArmsALease` | core/project_resource_admission.py:396-438 | An undisturbed reservation leaves an unlocked active marker for exactly the seconds asked for, at most 120, takes no gate and no slot, and is removed when consumed |
| `AdmissionPriority.HandoffStep` | core/project_resource_admission.py:366-393 | Every step before the deadline, except the owner's own removal, keeps the handed-over marker and its deadline |
| `AdmissionPriority.HandoffHasNoGap` | core/project_resource_admission.py:690-709 | From arming to the deadline the marker is active in every state, through unlocking, clearing, scans and crashes, unless its owner reclaims or consumes it |
| `AdmissionPriority.HandoffKeepsBackgroundOut` | core/project_resource_admission.py:690-709 | After an armed exit no background thread is in a body or committed to one before the deadline |
| `AdmissionPriority.UnlockedMarkersExpire` | core/project_resource_admission.py:267-278 | In every reachable state an unlocked marker is inactive 120 s after its last write, and the next scan deletes it |
| `AdmissionProgress.SomebodyProceeds` | core/project_resource_admission.py:531-554 | As long as no slot is retained, whenever a thread waits, the holder of the slot, else of its gate, else the thread itself can take a step that is not a spin, or only markers block it: no cycle over gate, slot and markers |
| `AdmissionProgress.OnlyLeasesBlock` | core/project_resource_admission.py:455-478 | With no foreground work in progress every marker is unlocked, and none is active 120 s later |
| `AdmissionProgress.DrainStep` | core/project_resource_admission.py:654-715 | As long as something is in progress and no slot is retained, there is a step that lowers a well-founded measure of the remaining work, and at most one maximal lease of time is spent |
| `AdmissionProgress.Drain` | core/project_resource_admission.py:654-715 | A run of such steps ends every admission and lease within one maximal lease of clock time |
| `AdmissionProgress.EveryAdmissionCanFinish` | core/project_resource_admission.py:531-715 | From every reachable state without retention, there is a run without new callers, crashes or errors on which every pending caller gets into its body and all admissions end within 120 s of clock time |
| `AdmissionProgress.NewcomerGetsIn` | core/project_resource_admission.py:612-679 | From every such state every other thread of a live process can begin and get into its body |
| `AdmissionProgress.SomebodyOrALease` | core/project_resource_admission.py:531-598 | In every reachable state with callers and no retained slot, a thread has an enabled step that is not a spin, or a lease being written has one, or no marker is locked and a clock advance of 120 s gives a thread one |
| `AdmissionProgress.RetentionHasAHolder` | core/project_resource_admission.py:681-689 | In every reachable state where a slot is retained or a body has asked for it, one thread holds the slot for that |
| `AdmissionProgress.DeathEndsRetention` | core/project_resource_admission.py:685-689 | The death of its process ends every retention |
| `AdmissionProgress.OneDeathLetsAllFinish` | core/project_resource_admission.py:531-715 | From every reachable state, all admissions can finish as above, at once or after the death of the one process that retains the slot |
| `Capacity.OnePermitPerLease` | core/provider_capacity.py:129-152 | For every sequence of retains and releases, exactly one permit is returned, at the first moment with one release more than retains, and none otherwise |
| `Capacity.ProviderLease.Retain` | core/provider_capacity.py:129-135 | A retain is refused exactly on a released lease, else adds one reference |
| `Capacity.ProviderLease.Release` | core/provider_capacity.py:137-152 | The last release, and no other, unlocks the slot and returns the permit |
| `Capacity.StepKeeps` | core/provider_capacity.py:155-223 | Every step (acquire, scan, give up, nest, copy context, release in its three parts, crash) keeps permits, slots, leases and contexts consistent |
| `Capacity.PermitsAreConserved` | core/provider_capacity.py:194-223 | In every live process, free permits + scanning contexts + leases not yet fully released = capacity, on every path |
| `Capacity.PermitsFitBack` | core/provider_capacity.py:149-150 | Returning a permit never overfills the bounded semaphore |
| `Capacity.NeverMoreThanCapacity` | core/provider_capacity.py:202-220 | Live leases of all processes hold pairwise distinct slots, so there are at most `capacity` |
| `Capacity.LeaseKeepsItsSlot` | core/provider_capacity.py:213-219 | Along every run a lease keeps its process and slot as long as it exists, and does not come back |
| `Capacity.NestedTakesNoSlot` | core/provider_capacity.py:173-177 | Along every stretch of a run in which a context owns a live lease, it takes no permit and looks for no slot, its lease holds one and the same slot, and each nested acquire only adds a reference |
| `Capacity.PermitHolderFindsASlot` | core/provider_capacity.py:200-219 | With no leases of other processes, a permit holder without a slot always has a free one |
| `CapacityLife.ScanTakesFirstFree` | core/provider_capacity.py:206-219 | The slot loop ends with a fresh lease on the first free slot, and no other slot changed |
| `CapacityLife.LoneContextGetsALease` | core/provider_capacity.py:194-219 | With no leases of other processes and fewer leases and scanners than the capacity, every context comes to a live lease of its own by its own steps |
| `CapacityLife.LastReleaseGivesBack` | core/provider_capacity.py:137-152 | From every reachable state, releasing all references of a lease frees its slot, then its permit, and nothing else |
| `CapacityLife.GivingUpReturnsThePermit` | core/provider_capacity.py:221-223 | Every failure exit of a scanning context returns its permit and touches nothing else |
| `CapacityLife.CopiedContextShares` | core/provider_capacity.py:173-175 | A copied context shares the live lease instead of taking a permit |
| `CampaignLedger.CampaignLimits.constructor` | core/campaign_limits.py:44-56 | A restart keeps every entry and the recorded time, and turns exactly the calls in flight into finished calls of unknown usage |
| `CampaignLedger.CampaignLimits.Open` | core/campaign_limits.py:35-57 | Changed limits or a failed first write refuse the start and leave the file; otherwise file and ledger agree, and time goes on from what was recorded |
| `CampaignLedger.CampaignLimits.Persist` | core/campaign_limits.py:59-72 | The ledger shows the active time of all controllers so far; the file is that ledger, or unchanged |
| `CampaignLedger.CampaignLimits.Reserve` | core/campaign_limits.py:74-105 | An id is returned exactly when all limits admit at the test and the write succeeds, and then it is in the file; a refusal changes nothing |
| `CampaignLedger.CampaignLimits.StartedCall` | core/campaign_limits.py:107-111 | An unknown id changes nothing, a known one is running in the ledger and, if written, in the file |
| `CampaignLedger.CampaignLimits.Finish` | core/campaign_limits.py:113-123 | An unknown id changes nothing; a terminal call is untouched and not rewritten; a call in flight takes the status and usage, and the outcome says whether the write succeeded |
| `CampaignLedger.RecoveryTotals` | core/campaign_limits.py:50-54 | Recovery keeps every charge and all tokens except those of calls in flight, and leaves nothing in flight |
| `CampaignSafety.RestartKeepsTotals` | core/campaign_limits.py:50-57 | In every campaign a restart counts exactly the charges and tokens of the file |
| `CampaignSafety.StepKeeps` | core/campaign_limits.py:35-123 | Every operation, failed write, crash and restart keeps the ceiling and keeps the file behind the ledger only in calls still in flight in it |
| `CampaignSafety.ChargeAccount` | core/campaign_limits.py:80-84 | In every state the charge in file and ledger is the calls dispatched, plus reservations recorded but never handed out, plus refunds that were lost |
| `CampaignSafety.ChargedExactlyOnce` | core/campaign_limits.py:74-123 | As long as every write succeeds, through crashes and restarts, the charged entries are exactly the ids handed out and not reported as never started |
| `CampaignSafety.CallCeiling` | core/campaign_limits.py:80-84 | Over the whole campaign the calls issued and not reported as never started never exceed the ceiling, nor do the charges in file and ledger |
| `CampaignSafety.IssuedIdsAreDurable` | core/campaign_limits.py:102-105 | Every id ever returned stays in the file and stays charged, unless its own report says it never started |
| `CampaignSafety.TerminalCallsNeverChange` | core/campaign_limits.py:113-123 | A call that is terminal in the file is the same in file and ledger in every later state, restarts included |
| `CampaignSafety.FinishBooksOnce` | core/campaign_limits.py:113-123 | The first report books its tokens, charge and landing; a repeated one changes nothing |
| `CampaignSafety.StartReopensTerminalCalls` | core/campaign_limits.py:107-123 | Until a crash, a terminal call of the ledger is unchanged in all states, written or not, iff no start is reported for it |
| `CampaignSafety.ReportIsFinal` | core/campaign_limits.py:50-54 | A terminal call of the ledger is the same in every ledger of every disciplined continuation iff it is in the file and either written there or finished with unknown usage |
| `CampaignSafety.LostReportExample` | core/campaign_limits.py:113-123 | A report of never having started whose write fails, a crash and a restart: the refunded call is charged |
| `CampaignSafety.StartReopensExample` | core/campaign_limits.py:107-111 | A campaign from its first start with a ceiling of one call, in which a start reported for a never-started call makes two charged calls |
| `CampaignSafety.UnknownUsageBlocksForever` | core/campaign_limits.py:85-92 | Under a token cap, after one finished call of unknown usage that is in the file, handed out or not, no id is ever issued again, in any later run |
| `CampaignSafety.CrashInFlightBlocksForever` | core/campaign_limits.py:50-57 | Under a token cap, a crash with a call in flight in the file has the same effect |
| `CampaignTokens.RefusedExactly` | core/campaign_limits.py:76-101 | A reservation is refused iff the time is over, or as many entries as the ceiling are not reported as never started, or under a cap a finished call has no usage or the reported input and output tokens reach it; calls in flight are no reason |
| `CampaignTokens.WithinHistory` | core/campaign_limits.py:85-123 | In file and ledger, used tokens plus what calls in flight may report stay within cap − 1 + k·m |
| `CampaignTokens.TokenOvershootIsBounded` | core/campaign_limits.py:85-123 | With at most k calls in flight and m tokens a report, reported tokens are at most cap − 1 + (k − in flight)·m, restarts included |
| `CampaignTokens.TokenOvershootIsAttained` | core/campaign_limits.py:85-123 | For all positive cap, k and m some campaign within these bounds reports exactly cap − 1 + k·m tokens |
| `CampaignTime.TimeAccount` | core/campaign_limits.py:55-72 | In every state of every course, the running clock, and without a controller the file, show the active time of all controllers minus what crashes lost |
| `CampaignTime.WritesRecordTheTime` | core/campaign_limits.py:68-72 | Every successful write records exactly that time, nothing else changes the record, and it never goes back |
| `CampaignTime.IssuedInTime` | core/campaign_limits.py:76-79 | An id is issued only while the active time minus what crashes lost is below the limit |
| `CampaignTime.ExpiredForever` | core/campaign_limits.py:59-79 | Once the file shows the limit, no id is issued in any continuation, under any other limits |
| `CampaignTime.TimeIsUpExactly` | core/campaign_limits.py:55-79 | A campaign limited by time alone issues no more ids in any continuation iff the recorded time has reached the limit |
| `SessionCost.Pass` | leanflow_cli/cli/run_stream.py:425-457 | The loop over the cost evidence of a session computes its tab |
| `SessionCost.TabMeans` | leanflow_cli/cli/run_stream.py:425-457 | That tab is: last reported total plus later estimates; complete iff nothing is missing after it; the kinds of evidence; the highest total; whether any total lies below an earlier one |
| `SessionCost.Settle` | leanflow_cli/cli/run_stream.py:425-462 | A session counts exactly when it is gapless, has evidence and never regressed, and contributes its meaning |
| `SessionCost.CountedSessionsAreExact` | leanflow_cli/cli/run_stream.py:431-462 | With true totals and true estimates nothing regresses, and a counted session contributes exactly its true cost; it is counted iff nothing is missing after the last total |
| `SessionCost.RegressionIsPermanent` | leanflow_cli/cli/run_stream.py:437-446 | No later evidence repairs a session whose total dropped |
| `SessionCost.SmallestDrop` | leanflow_cli/cli/run_stream.py:437-446 | A total regresses exactly by falling more than 10⁻⁹ USD below an earlier one |
| `RunUsage.Collect` | leanflow_cli/cli/run_stream.py:314-385 | The pass over the events computes groups per session, counters, flags and names |
| `RunUsage.SettleGroups` | leanflow_cli/cli/run_stream.py:421-462 | In whatever order the groups come: the sum over the counted sessions, whether all count, and the kinds of evidence |
| `RunUsage.AggregateUsage` | leanflow_cli/cli/run_stream.py:296-508 | The loops compute the declarative summary of the stream, for streams with and without conversation ends |
| `UsageLaws.TallyPermutes` | leanflow_cli/cli/run_stream.py:282-293 | Every count over events is the same for every permutation of the stream |
| `UsageLaws.GroupsAreSessions` | leanflow_cli/cli/run_stream.py:328-338 | The evidence of a session is that of its own conversation ends in their order, whatever lies between them |
| `UsageLaws.InterleavingDoesNotMatter` | leanflow_cli/cli/run_stream.py:296-508 | Two streams with the same order within each session and the same other events publish the same summary in every field |
| `UsageLaws.PublishedCostIsTrue` | leanflow_cli/cli/run_stream.py:458-485 | If every session reports honestly, a cost published as complete is the true cost of all sessions |
| `UsageFields.EvidenceOfARecord` | leanflow_cli/cli/run_stream.py:372-385 | A record gives its reported total first, else its total if the source is the provider, else its estimate; without any, or without a turn, evidence is missing |
| `UsageFields.PublishedCostIsTheLastTotals` | leanflow_cli/cli/run_stream.py:421-488 | If every conversation end carries a total, whatever its estimates, the complete cost is the sum over sessions of the last totals, provider reported; it is complete iff covered and no session regressed |
| `UsageFields.PublishedCostIsTheEstimates` | leanflow_cli/cli/run_stream.py:421-488 | If none carries a total and all an estimate, the cost is the sum of all estimates, complete iff covered |
| `UsageFields.PublishedCountsAreSums` | leanflow_cli/cli/run_stream.py:350-371 | Calls, input and output tokens add up the fields of all conversation ends, and are published iff the stream is covered and none lacks them |
| `UsageFields.CoveredExactly` | leanflow_cli/cli/run_stream.py:463-467 | Coverage means no unmetered attempt, no dispatched job, and as many calls as recorded requests |
| `UsageFields.RequestsAreCountedOnce` | leanflow_cli/cli/run_stream.py:282-293 | Requests are the canonical events if there are any, else the compatible ones, never both |
| `UsageFields.ReasonsAreNumbers` | leanflow_cli/cli/run_stream.py:302-308 | Each reason is counted as often as an unmetered attempt gives it; an empty one counts as unspecified |
| `UsageFields.WithoutEndsTheLogSpeaks` | leanflow_cli/cli/run_stream.py:387-419 | Without a conversation end the log summary is passed on and nothing is complete |
| `UsageFields.SessionOfAnEnd` | leanflow_cli/cli/run_stream.py:328-332 | A conversation end belongs to the session it names, else to its agent, else to itself |
| `UsageFields.SessionsAreNames` | leanflow_cli/cli/run_stream.py:333-338 | If all name their sessions, as many sessions are published as names occur |
| `UsageFields.NamesArePublished` | leanflow_cli/cli/run_stream.py:344-349 | Exactly the models and providers named by conversation ends are published |
| `Toolsets.CutAtLastVisit` | core/toolsets.py:178-188 | Whatever is reachable from a toolset is found without coming back to it: why skipping visited names loses nothing |
| `Toolsets.LeadsFromAll` | core/toolsets.py:172-176 | A wildcard reaches exactly what some registered toolset reaches |
| `Toolsets.LeadsFromNamed` | core/toolsets.py:180-189 | A toolset reaches its own tools and what its includes reach while avoiding it |
| `Toolsets.LeadsNowhere` | core/toolsets.py:178-184 | A visited or dangling name reaches nothing |
| `Toolsets.ProvidesMeans` | core/toolsets.py:172-189 | A tool is provided iff a chain of includes, with `all` and `*` including every registered toolset, leads to a registered toolset that lists it |
| `Toolsets.Resolve` | core/toolsets.py:168-189 | For any visited set: the tools reachable while avoiding it, within a stack bound; no stack suffices exactly when the walk meets a wildcard that is also a toolset |
| `Toolsets.ResolveEach` | core/toolsets.py:174-175 | The union over a collection of names, each with its own copy of the visited set |
| `Toolsets.ResolveToolset` | core/toolsets.py:168-189 | For every include graph: given stack `2n + 2`, the walk ends iff no reachable wildcard is also a toolset, and gives exactly the tools of the reachable toolsets |
| `Toolsets.WildcardToolsetIsUnbounded` | core/toolsets.py:211-218 | Creating a toolset named `all` makes every toolset that includes `*` unresolvable |
| `Toolsets.ToolsetRegistry.CreateCustomToolset` | core/toolsets.py:211-218 | The registry gains or replaces one entry |
| `Toolsets.ToolsetRegistry.ResolveIn` | core/toolsets.py:168-189 | Resolution in the current registry, as above |
| `Toolsets.CreationIsLocal` | core/toolsets.py:211-218 | For names that do not lead to it, creating or replacing a toolset changes neither the tools nor whether resolution ends |
| `SealedResult.StepKeeps` | leanflow_cli/cli/run_snapshot.py:99-121 | Under every step of every finalizer there is one owner of the snapshot, and an integrity file seals the snapshot that is there |
| `SealedResult.ReachableInv` | leanflow_cli/cli/run_snapshot.py:99-121 | That holds in every reachable state |
| `SealedResult.OnePayload` | leanflow_cli/cli/run_snapshot.py:140-165 | After a verified read every later read gives the same payload or finds no integrity file |
| `SealedResult.SlowReadsAreSafe` | leanflow_cli/cli/run_snapshot.py:148-165 | A read whose two looks are apart is verified only if a read at its second look is, with the same payload; it reports a mismatch only if the snapshot it saw was withdrawn |
| `SealedResult.AllReadersAgree` | leanflow_cli/cli/run_snapshot.py:140-165 | All verified reads of a run, however slow and overlapping, give one payload |
| `SealedResult.VerdictsMean` | leanflow_cli/cli/run_snapshot.py:140-165 | Every verdict of a read, in terms of the two documents it found |
| `SealedResult.VerifiedStaysVerified` | leanflow_cli/cli/run_snapshot.py:112-121 | A verified result stays verified in all continuations exactly when no integrity file is written but not yet synced |
| `SealedResult.SuccessIsPermanent` | leanflow_cli/cli/run_snapshot.py:340-356 | Once a finalizer returned success, every later read gives its payload |
| `SealedResult.ResultCanBeTakenBack` | leanflow_cli/cli/run_snapshot.py:117-120 | For every payload there is a reachable state where it is read as verified and a failing sync takes it back |
| `SealedResult.LoneFinalizerSucceeds` | leanflow_cli/cli/run_snapshot.py:340-356 | A finalizer left alone succeeds and its payload is read |
| `SealedResult.SealableExactly` | leanflow_cli/cli/run_snapshot.py:340-356 | Some continuation reads a verified result iff one is there, or there is no snapshot, or its creator is still at work |
| `SealedResult.DeathBlocksSealing` | leanflow_cli/cli/run_snapshot.py:340-356 | After the death of a snapshot's creator the run can be verified iff it was already |
| `SealedResult.FailureMayBlockSealing` | leanflow_cli/cli/run_snapshot.py:117-120 | After a failed write the run can still be sealed iff the snapshot was removed, or a visible integrity file was not |
| `ExpertShutdown.Registry.BeginLaunch` | leanflow_cli/cli/expert_help.py:533-536 | A launch records the generation it read |
| `ExpertShutdown.Registry.Activate` | leanflow_cli/cli/expert_help.py:539-548 | Registering refines the step: cancelled exactly when a shutdown crossed the launch |
| `ExpertShutdown.Registry.Retire` | leanflow_cli/cli/expert_help.py:551-555 | Unregistering refines the step |
| `ExpertShutdown.Registry.BeginShutdown` | leanflow_cli/cli/expert_help.py:565-567 | A shutdown publishes a new generation |
| `ExpertShutdown.Registry.CancelActive` | leanflow_cli/cli/expert_help.py:570-573 | The loop sets the cancel flag of exactly the registered commands |
| `ExpertShutdown.Registry.SweepRound` | leanflow_cli/cli/expert_help.py:569-582 | A round returns empty exactly when nothing is registered |
| `ExpertShutdown.Registry.ReportResidue` | leanflow_cli/cli/expert_help.py:584-596 | After the deadline everything registered is cancelled and its real pids are returned |
| `ExpertShutdown.AlwaysReached` | leanflow_cli/cli/expert_help.py:539-582 | Along every run, whatever a swept shutdown finds registered from an earlier generation is cancelled |
| `ExpertShutdown.NoEarlierLaunchEscapes` | leanflow_cli/cli/expert_help.py:558-625 | After a shutdown returned, and ever after, a command that read its generation before the increment is cancelled if registered and cancelled on registering otherwise |
| `ExpertCancellation.CancelledExactly` | leanflow_cli/cli/expert_help.py:539-596 | Along every run, a registered command is cancelled iff a shutdown began between its launch and its registration, or swept while it was registered |
| `ExpertShutdown.EmptyReturnMeansNoneRegistered` | leanflow_cli/cli/expert_help.py:574-596 | What is returned is the set of real pids registered at that moment; it is empty exactly when there are none |
| `EventFollower.Find` | leanflow_cli/cli/runs_command.py:355-358 | The first event with the cursor's id, or none |
| `EventFollower.PageOf` | leanflow_cli/cli/runs_command.py:369-377 | The newest matches up to the limit, and the cursor behind the last match |
| `EventFollower.PollFindsTheNew` | leanflow_cli/cli/runs_command.py:350-368 | With the cursor at the last match seen, a poll finds exactly the matches among the appended events |
| `EventFollower.OnePoll` | leanflow_cli/cli/runs_command.py:347-377 | Each poll moves the cursor to the last match of the whole stream and returns the newest new matches |
| `EventFollower.DeliveryCount` | leanflow_cli/cli/runs_command.py:347-377 | Polls that keep up deliver all matches in order, others strictly fewer |
| `EventFollower.FollowerDeliversOnce` | leanflow_cli/cli/runs_command.py:347-377 | Over an append-only stream with distinct ids, every match is delivered exactly once and in order iff no poll finds more new matches than its limit |
| `EventFollower.MatchesAreTheWanted` | leanflow_cli/cli/runs_command.py:362-368 | The matches are the events at all positions with a wanted type, in order; no types means all |
| `EventFollower.OnlyTheWantedIsDelivered` | leanflow_cli/cli/runs_command.py:362-377 | Only wanted events are delivered, and all of them if the polls keep up |
| `EventFollower.PageSize` | leanflow_cli/cli/runs_command.py:347-369 | A page has the new matches up to the limit; 0 means 200, a negative limit means one |
| `EventFollower.UnknownCursorGetsTheTail` | leanflow_cli/cli/runs_command.py:351-360 | A cursor that is not in the stream gets the newest matches |
| `EventFollower.FollowerLosesExample` | leanflow_cli/cli/runs_command.py:369-375 | Two new events under limit 1: the first is never delivered |
| `Config.MergeIsIdempotent` | leanflow_cli/config.py:225-232 | merge(merge(b, o), o) = merge(b, o) |
| `Config.MergeAbsorbs` | leanflow_cli/config.py:225-232 | merge(b, merge(b, o)) = merge(b, o) |
| `Config.MergeKeepsScalars` | leanflow_cli/config.py:225-232 | A scalar at any path of the override survives any defaults |
| `Config.MergeByPaths` | leanflow_cli/config.py:225-232 | Merging path by path: the override where it has a value, nothing where its scalar cuts the path off, the base elsewhere; two mappings are merged |
| `Config.UntouchedDefaultsAreRead` | leanflow_cli/config.py:277-282 | A default at a path the file does not touch is read back through the load, whatever else the file holds |
| `Config.MarkerShowsMigration` | leanflow_cli/config.py:280-282 | The schema marker of a loaded document is 1 iff migration is due |
| `Config.UnusableFilesReadAsDefaults` | leanflow_cli/config.py:327-336 | A missing, unreadable or non-mapping file reads as the defaults |
| `Config.RetiredMeans` | leanflow_cli/config.py:235-274 | The retired settings as paths of a document |
| `Config.StripMeans` | leanflow_cli/config.py:242-249 | Stripping takes away the blanks at both ends and nothing else |
| `Config.GetPut` | leanflow_cli/config.py:357-376 | A value put at a path is found there |
| `Config.PutKeepsOthers` | leanflow_cli/config.py:357-376 | Paths that diverge from it read as before |
| `Config.ConfigStore.Load` | leanflow_cli/config.py:315-340 | The cached document, else the file over the defaults; a missing file is created from the defaults; unreadable files and non-mappings give the defaults and leave the cache empty |
| `Config.ConfigStore.Save` | leanflow_cli/config.py:343-354 | The file is the document and the cache is dropped |
| `Config.ConfigStore.SetValue` | leanflow_cli/config.py:388-399 | The update is applied to the document on disk, not to the cache; an empty path changes nothing visible |
| `Config.ConfigStore.GetValue` | leanflow_cli/config.py:379-385 | The value at the path, or the default on any missing or non-mapping step |
| `Config.GetAfterSet` | leanflow_cli/config.py:277-282 | For any earlier file, get after set of a non-mapping returns it through save, reload and default merge iff the path is not under `schema_version`, or is that key itself and migration leaves the value alone |
| `Config.SchemaIsNotReadBack` | leanflow_cli/config.py:277-282 | `schema_version` set to 3 reads back as 1, under all defaults and over every file |
| `Config.MergeRetiresNothing` | leanflow_cli/config.py:235-274 | If a merged document has a retired setting, so has one of the two: keys, string models, foreign backends, agent and role settings |
| `Config.StableExactly` | leanflow_cli/config.py:277-282 | Under any defaults of the current schema, saving a loaded document and loading it gives it back iff the document needs migration or the merge has no retired setting |
| `Config.SaveOfALoadIsStable` | leanflow_cli/config.py:277-282 | If the defaults themselves are up to date it always does |
| `Config.ShippedLoadsAreStable` | leanflow_cli/config.py:35-84 | The shipped defaults are up to date, so with them every saved load is stable |
| `ResetWindow.DelayIsBounded` | core/provider_availability.py:158-161 | The delay is between 1 s and 31 days for every input |
| `ResetWindow.NeverEarly` | core/provider_availability.py:141-162 | Unless flagged as clamped, the unavailable-until time is not before either reported reset |
| `ResetWindow.ClampedExactlyWhenTheCapBinds` | core/provider_availability.py:151-161 | With a reported window the flag is set exactly when the cap cuts the delay |
| `ResetWindow.DelayIsExact` | core/provider_availability.py:141-162 | The delay is one second more than the least whole seconds that pass both windows, 31 days when flagged, 3601 s without a window; the flag in terms of the windows; the end is the rounded-up sum |
| `ResetWindow.ReportedWindowsArePassedOn` | core/provider_availability.py:153-172 | The reported windows rounded up within the cap, and consistency as a difference of at most five seconds |
| `ResetWindow.NegativeWindowsAreIgnored` | core/provider_availability.py:61-76 | A negative window counts as none |
| `ResetWindow.NormalizeExactly` | core/provider_availability.py:211-241 | Which stored metadata is refused, what is kept of the rest, and that normalising again changes nothing |
| `ResetWindow.NormalizeKeepsEmitted` | core/provider_availability.py:211-241 | Emitted metadata normalises to itself at the same or any later clock iff it ends after the epoch |
| `ResetWindow.BeforeTheEpochExample` | core/provider_availability.py:217-218 | A clock before the epoch at which emitted metadata is refused |

## Left out

- Admission works on values as a transition system, not on lock objects and file handles: opening and closing handles, `OSError` on a single marker during a scan (which counts as active) and platforms without `fcntl` are not modelled.
- The retry loops of admission appear as steps; sleeping intervals, observer callbacks, waited-time reporting and the sweep that precedes each registration (any sweep may happen at any time) are not part of the steps.
- Scans, registration and clearing are single steps because the source runs them under one mutex file; that mutex itself is not modelled.
- Fairness and queue order of `flock` are not modelled: progress says that a finishing run exists from every reachable state, not that every scheduler takes it.
- One project only: admission of one thread to two projects at once.
- Process ids are not reused, and a process does not change its role.
- Capacity: the choice of namespace and capacity from the environment; all processes of a run share both. The acquisition loops are steps of the transition system; cancellation, time-out and errors are its `GiveUp` step.
- Capacity.NestedTakesNoSlot: the test for a live lease and the retain are one step; in the source the last owner may release in between, and then the nested acquire raises and changes nothing.
- Capacity.ProviderLease.Release: the two writes after the last reference are one call here; the transition system splits them into three steps.
- Campaign ids are positions instead of random ids; the validation of configured limits, the version field and the `interrupted` flag are not modelled.
- Floats are reals; rounding, NaN and infinities are not modelled, except where the source tests for finiteness. Numbers arrive parsed.
- The regular expressions that read a run log; their result is a parameter of the usage summary. The summary's constant labels and values that follow from other fields are not repeated.
- Toolset descriptions; the interpreter's recursion limit is the parameter `stack`, and a recursion error is a `None`.
- SHA-256 is an injective constructor; JSON encoding is not modelled, a partly written document reads as absent, and write bits do not matter. Finalizing is a transition system on values, since readers may look between any two of its writes.
- The declaration rows, usage and provenance inside a sealed payload, and the launch snapshot with its collision marker.
- Process signalling and draining of expert commands; a registered command may finish at any time.
- Printing of events and resolution of the run file; cursors arrive without surrounding blanks.
- YAML, file locks and permissions of the configuration, and keys that are not strings; an integer and the equal float are one number. Of the shipped defaults only what migration looks at is modelled.
- Config.ConfigStore.SetValue: nested dictionaries are values, so in-place descent and aliasing between a caller's document and the cache are not modelled. Mapping values are outside the get-after-set law because reloading merges them with the defaults again.
- Searching a provider error for its usage-limit object; stored retry metadata has integer fields and the right kind.
- `_single_run_lifecycle`, `_declaration_rows`, redaction, installers, the session database, command parsing and the user interface: long, but each claim would be settled by one branch.
