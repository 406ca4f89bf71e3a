# Hyperspace zone: a verified model of its stateful core

This project models the parts of the Hyperspace zone services whose behaviour spans
many calls: the gate agent's assignments and traffic counters, the packet policy it
compiles, its DoubleZero recovery manager, the two Solana payout protocols of the control
plane, the catalog mirror, and the in-process structures (limiter, log policy, snapshot,
metrics) around them.
The main theorems speak about every run: any order of jobs, packets, replies, crashes
and restarts within assumptions that are written out as predicates (`Possible`,
`PossibleRun`, `SteadyRun`, and so on).

Where the program changes state in place, a class has the program's fields, and each of
its methods is proved equal to a specification function; the run theorems are about that
function. The two payout protocols are asynchronous. They are given twice: as a state
machine cut at every `await` (`ConfigPayments`, `WithdrawalPayouts`), over which safety
is proved, and as the code itself, branch by branch and loop by loop
(`ConfigPaymentCalls`, `WithdrawalRuns`), which is proved to be in the machine's state at
every `await` and to end with the machine's answer. What they answer and leave is stated
reply by reply, of rows and reports alone, in `ConfigPaymentAnswers` and
`WithdrawalAnswers`.

| file | what it models |
|---|---|
| AssignmentLedger.dfy, GateAgent.dfy, Rehydration.dfy | assignment life cycle, counter offset and checkpoint, rehydration at start |
| ForwardPolicy.dfy, ForwardChain.dfy, HitCounting.dfy, ForwardBlocks.dfy, ForwardRuns.dfy | the policy compiler, deletion by comment rule by rule, verdicts and counters of a chain shared by many assignments |
| RecoveryManager.dfy, RecoveryReports.dfy, RecoveryCooldown.dfy, RecoveryConfirmation.dfy | the DoubleZero recovery manager with its file, lost writes and restarts |
| ConfigPayment.dfy, ConfigPaymentAnswers.dfy, ConfigPaymentLosses.dfy, ConfigPaymentCalls.dfy | `charge` and `recoverSubmittedPayment` with crashes at any `await` and lost replies |
| WithdrawalLoop.dfy, WithdrawalAnswers.dfy, WithdrawalRuns.dfy | `runOnce` of the withdrawal loop over the whole table |
| Base58.dfy | the base-256 to base-58 conversion |
| WindowLimiter.dfy, CompletionLogPolicy.dfy | the bounded fixed-window limiter and its client |
| PublicReadSnapshot.dfy | the single-flight snapshot with backoff and age limits |
| RuntimeMetrics.dfy, MetricGauges.dfy | the bounded metric queue, counters, histograms and gauges |
| Sorting.dfy, OrderStatistics.dfy | both percentile implementations and the probe summary |
| CatalogSync.dfy | the catalog mirror of the probes database |

## Findings

Some properties hold only under a condition. Each is proved with its exact condition,
and most with a concrete run that breaks it.

- A config payment can be charged twice when the update that confirms it inside the
  `try` block is carried out but its reply is lost: the `catch` block then finds a row
  that is not `submitted` and fails it, and the next call signs anew. A run has become
  unsafe exactly when the `catch` block has failed, or is about to fail, a confirmed row
  (`ConfigPaymentLosses.AtMostOneExactly`); excluding `confirmed` at that guard makes
  every run safe (`ConfigPaymentLosses.RepairedGuardPaysOnce`).
- The ten-minute rule of the withdrawal loop is safe exactly when the time a recorded
  transaction can still land, the time between the status read and the look at an entry,
  and the lead of the worker's clock over the database's together are at most ten
  minutes (`WithdrawalPayouts.AtMostOnceExactly`).
- A commit loses the traffic that meets an object between the reading of its counters
  and its replacement, when links are up and every tool answers. On runs without failures
  what an idle agent lacks is exactly that (`AssignmentLedger.UndercountsLateTraffic`,
  with the run `GateAgentJobs.LateTrafficIsLost`).
- A tool that fails while counters are read contributes zero. A commit then also loses
  exactly what the unread objects had counted (`GateAgentJobs.CommitKeepsHeldExactly`);
  for every run, whatever fails, `AssignmentLedger.NeverUndercounts` says when the agent
  undercounts.
- A repeated revoke lowers the reported counters by the traffic since the last commit
  (`AssignmentLedger.RepeatedRevokeDropsTraffic`); the exact condition is
  `AssignmentLedger.RevokeKeepsReportExactly`.
- A commit or revoke deletes the rules of a block one by one, in order, with the links
  up, and a commit adds them one by one. While they are deleted, the accepting rules go
  first, so that packets the plan accepts are dropped, exactly when the rules admitting
  them are gone and the drop rule of their direction is not; while they are added, packets
  no added rule covers fall to the chain's accept policy
  (`ForwardPolicy.RemainderAgainstPolicy`, `ForwardRuns.VerdictsArePolicies`, with the
  case `ForwardPolicy.DeletionDropsAccepted`).
- A config payment is answered as failed when the wallet's key is missing, before its row
  is looked at, even when its transfer has succeeded
  (`ConfigPaymentLosses.MissingKeyFailsPaid`); every other failure answer means that
  nothing sent can succeed (`ConfigPayments.AtMostOneTransfer`).
- Failed writes of the recovery manager matter only at restarts. A restart can lose the
  cooldown exactly when the file found allows an early start
  (`RecoveryCooldown.CooldownExactly`), and can start an unconfirmed recovery exactly
  when the stamp found is stale (`RecoveryConfirmation.ConfirmedExactly`).
- Sharing the limiter's table is visible to a key exactly when the key is called inside
  its running window after a sweep, at a later reading, has deleted its bucket
  (`WindowLimiting.SharedEqualsPrivateExactly`).
- Decoding a base-58 text restores the bytes exactly when one of them is not zero; an
  all-zero input gets one `1` too many (`Base58.DecodeRestores`).

## Model

| member | source | states |
|---|---|---|
| AssignmentLedger.StepKeeps | apps/gate-agent/cmd/hyperspace-gate-agent/main.go:2112-2269 | every step of prepare, commit, revoke, traffic, restart and reboot keeps the books balanced in each counter field, keeps revoked and unprepared assignments without keys and kernel objects, and keeps the commit in progress consistent with the file |
| AssignmentLedger.Conservation | apps/gate-agent/cmd/hyperspace-gate-agent/main.go:2122-2130 | on every run, whatever fails or is lost: held plus lost equals true traffic plus what was counted twice, field by field |
| AssignmentLedger.NeverUndercounts | apps/gate-agent/cmd/hyperspace-gate-agent/main.go:2102-2151 | on every run, with traffic at any moment, commits stopping anywhere, failing tools, reboots and repeated revokes: what the agent holds and what the run missed, told from its events, are the true traffic and what was counted twice, so that it undercounts exactly when it missed more than was counted twice |
| AssignmentLedger.ExactWhenWhole | apps/gate-agent/cmd/hyperspace-gate-agent/main.go:2102-2151 | if no commit stops between writing the offset and the last counter reset, an idle agent holds the true traffic less exactly what the run missed, hence all of it if and only if nothing was missed |
| AssignmentLedger.UndercountsLateTraffic | apps/gate-agent/cmd/hyperspace-gate-agent/main.go:2122-2140 | when moreover tools answer and revokes are stored and first, what is missed is exactly the traffic that met an object between its reading and its deletion |
| AssignmentLedger.ReportedExactly | apps/gate-agent/cmd/hyperspace-gate-agent/main.go:3699-3713 | at every moment of every run an assignment is reported if and only if the last of its stored prepares, commit marks and stored revokes, told from the events, was a mark or a revoke; a freshly prepared one is not; the report is what is held, less what unread objects counted |
| AssignmentLedger.ReportIsTruth | apps/gate-agent/cmd/hyperspace-gate-agent/main.go:3686-3716 | between jobs, when no commit stopped halfway and every tool answers, a committed assignment is reported, with its true traffic less exactly what the run missed |
| AssignmentLedger.ReportsNeverDecrease | apps/gate-agent/cmd/hyperspace-gate-agent/main.go:3686-3716 | an assignment reported at two moments between jobs (by its standing) has both reports, and they do not decrease in any field across commits stopping anywhere, traffic at any moment, revoke and renewed prepare, when the later report and the commits and revokes between read all that was counted |
| AssignmentLedger.RevokeKeepsReportExactly | apps/gate-agent/cmd/hyperspace-gate-agent/main.go:3374-3384 | in every reachable idle state with a file, and whatever is committed or fails to be read: a stored revoke keeps what the agent holds if and only if its reading misses nothing counted (or, after an earlier revoke, the checkpoint is nowhere above the offset); what is reported afterwards is what is held; and an assignment whose last mark or revoke makes it reported has a report before, which is kept if and only if the revoke misses nothing that report had shown (or the same of the checkpoint) |
| AssignmentLedger.RepeatedRevokeDropsTraffic | apps/gate-agent/cmd/hyperspace-gate-agent/main.go:3373-3403 | the first revoke drops exactly what it failed to read, a second one exactly what the first had read since the last commit |
| AssignmentLedger.RevokedStaysAbsent | apps/gate-agent/cmd/hyperspace-gate-agent/main.go:3285-3291 | once revoked, no commit, stop, failure or further revoke brings an interface or rule back until the assignment is prepared again |
| AssignmentLedger.MaterialKept | apps/gate-agent/cmd/hyperspace-gate-agent/main.go:1997-2008 | between revokes any number of prepares, commits, failures and restarts leaves material and keys as they were |
| GateAgentJobs.GateAssignment.PrepareAssignment | apps/gate-agent/cmd/hyperspace-gate-agent/main.go:1992-2110 | the whole new state is that of the ledger's prepare step; a reusable assignment answers its old material and changes nothing |
| GateAgentJobs.GateAssignment.CommitAssignment | apps/gate-agent/cmd/hyperspace-gate-agent/main.go:2112-2152 | the job, stopping at any command that fails, is the run of the ledger's seven commit steps, and reports success exactly when every step succeeded |
| GateAgentJobs.GateAssignment.ConfigureInterface | apps/gate-agent/cmd/hyperspace-gate-agent/main.go:3285-3343 | an incomplete configuration touches nothing, a failing one leaves the link deleted, a good one replaces it with counters at zero |
| GateAgentJobs.GateAssignment.RevokeAssignment | apps/gate-agent/cmd/hyperspace-gate-agent/main.go:3373-3403 | checkpoint from the offset and the kernel, keys cleared, objects gone, as the ledger's revoke step |
| GateAgentJobs.CommittedIsRun | apps/gate-agent/cmd/hyperspace-gate-agent/main.go:2112-2152 | the composed commit is a run of ledger events, so the ledger theorems apply to it |
| GateAgentJobs.CommitKeepsHeldExactly | apps/gate-agent/cmd/hyperspace-gate-agent/main.go:2122-2140 | a whole commit, with traffic between any of its steps, loses exactly what its reading does not show and what passes an object between the reading and its replacement, and keeps count if and only if there is neither |
| GateAgentJobs.CommitIsReported | apps/gate-agent/cmd/hyperspace-gate-agent/main.go:2142-2152 | after a whole commit the assignment is reported, with what is held less what unread objects count |
| GateAgentJobs.LateTrafficIsLost | apps/gate-agent/cmd/hyperspace-gate-agent/main.go:2122-2140 | a commit in which nothing fails and every tool answers leaves five bytes on the transit link out of the books |
| Rehydration.RehydrateAssignments | apps/gate-agent/cmd/hyperspace-gate-agent/main.go:3412-3456 | the loop over the state directory yields the gate and the two counts of the specification |
| Rehydration.EachOnce | apps/gate-agent/cmd/hyperspace-gate-agent/main.go:3423-3439 | exactly the committed, unrevoked assignments that the tools do not show in the kernel are committed again, each judged by its state at the start; all others are untouched |
| Rehydration.EachCounted | apps/gate-agent/cmd/hyperspace-gate-agent/main.go:3440-3449 | rehydrated plus failed is the number of missing assignments, and none failed if and only if every commit succeeds |
| Rehydration.SuccessIsPresent | apps/gate-agent/cmd/hyperspace-gate-agent/main.go:3647-3684 | after a successful commit the agent's own test finds the assignment if and only if the tools show all objects its role needs, the egress NAT rule among them |
| Rehydration.LiveIsInService | apps/gate-agent/cmd/hyperspace-gate-agent/main.go:3423-3433 | on every run what a pass looks for is exactly what was last committed and neither revoked nor prepared anew since |
| Rehydration.NeededIsBuilt | apps/gate-agent/cmd/hyperspace-gate-agent/main.go:3647-3684 | the objects looked for in the kernel are exactly those a whole commit leaves there |
| Rehydration.SecondPassIsIdle | apps/gate-agent/cmd/hyperspace-gate-agent/main.go:3412-3456 | after a pass without failures a second pass whose tools answer changes nothing, whatever its commands would do |
| ForwardPolicy.IngressForwardRules | apps/gate-agent/cmd/hyperspace-gate-agent/main.go:2271-2283 | the loop compiles the block for client interface inside, transit outside |
| ForwardPolicy.EgressForwardRules | apps/gate-agent/cmd/hyperspace-gate-agent/main.go:2285-2297 | the loop compiles the block for transit interface inside, physical outside |
| ForwardPolicy.BlockMeansPolicy | apps/gate-agent/cmd/hyperspace-gate-agent/main.go:2271-2297 | first match on the compiled block means the policy: client to a listed destination, replies of known connections back, everything else dropped, under a comment naming owner, verdict and direction |
| ForwardPolicy.FirstIsFirstMatch | apps/gate-agent/cmd/hyperspace-gate-agent/main.go:2271-2297 | first match on any run of consecutive rules of the block is the first rule whose place, destination and direction admit the packet |
| ForwardPolicy.RemainderMeans | apps/gate-agent/cmd/hyperspace-gate-agent/main.go:2220-2224 | consecutive rules of a block accept a packet if and only if one of them admits it, drop it if and only if none does and the drop rule of its direction is among them, and otherwise leave it to the chain |
| ForwardPolicy.RemainderAgainstPolicy | apps/gate-agent/cmd/hyperspace-gate-agent/main.go:3499-3515 | such a remainder never accepts what the policy drops; it drops what the policy accepts if and only if the admitting rules are missing and the drop rule of the direction is not; while rules are only added it never contradicts the policy, and the whole block lets nothing slip |
| ForwardPolicy.DeletionDropsAccepted | apps/gate-agent/cmd/hyperspace-gate-agent/main.go:3499-3515 | a concrete case: with one destination and its first rule deleted, a packet of the client to that destination is dropped |
| ForwardPolicy.CommentNamesOwner | apps/gate-agent/cmd/hyperspace-gate-agent/main.go:2299-2301 | a rule's comment is found by a handle if and only if it is its own handle, even when one handle begins with another |
| ForwardPolicy.CommentReadsBack | apps/gate-agent/cmd/hyperspace-gate-agent/main.go:3839-3846 | the counter parser reads back the verdict and direction the comment was written with |
| SharedForwardChain.ForwardChain.DeleteNftRules | apps/gate-agent/cmd/hyperspace-gate-agent/main.go:3495-3516 | deleting by rule number from a listing removes exactly the handle's rules and keeps the rest in order with their counters |
| SharedForwardChain.ForwardChain.ReplaceRules | apps/gate-agent/cmd/hyperspace-gate-agent/main.go:2132-2140 | delete then append: the others as they were, followed by the new rules at zero, also when adding stops early |
| SharedForwardChain.DeletionIsExact | apps/gate-agent/cmd/hyperspace-gate-agent/main.go:3495-3516 | deletion by one handle leaves none of its rules and all of any other's |
| SharedForwardChain.OneDeletionIsExact | apps/gate-agent/cmd/hyperspace-gate-agent/main.go:3504-3515 | each single deletion takes the first rule left of the handle and none of another's |
| SharedForwardChain.PassedTotals | apps/gate-agent/cmd/hyperspace-gate-agent/main.go:3734-3749 | each packet enters the totals once, under the heading of the rule it met |
| ForwardRuns.NamesKeepApart | apps/gate-agent/cmd/hyperspace-gate-agent/main.go:3874-3887 | interface names made from distinct short ids give disjoint interface pairs, though egress assignments share the physical interface |
| ForwardRuns.StepKeeps | apps/gate-agent/cmd/hyperspace-gate-agent/main.go:2132-2140 | every single deletion, single added rule, beginning or end of a job and packet keeps: each rule owned by one assignment on its own pair, each handle finding consecutive rules of its block, each counter showing the packets that met its rule |
| ForwardRuns.VerdictsArePolicies | apps/gate-agent/cmd/hyperspace-gate-agent/main.go:2132-2140 | in every interleaving of single deletions, single additions and packets of all assignments, a packet on a pair is accepted if and only if a rule in place admits it and slips if and only if none does and no drop rule is in place; it is never accepted against its plan, dropped against it exactly when its admitting rules are missing and the drop rule is not, gets the plan's verdict or slips before any deletion and gets the plan's verdict with the whole block; a packet on nobody's pair meets no rule |
| ForwardRuns.CountersAreTallies | apps/gate-agent/cmd/hyperspace-gate-agent/main.go:3734-3749 | on every such run the totals read back are the packets and bytes that met the rules in place, by verdict and direction; with those that slipped, and those whose rule and counter are already deleted, they are all packets of the pair since it had no rules; with the whole block always in place they are what the plan accepts and drops |
| ForwardBlocks.WholeCountsAll | apps/gate-agent/cmd/hyperspace-gate-agent/main.go:2220-2224 | of packets that found the whole block none slips or loses its counter, so that forwarded and dropped are all, each under the policy's verdict |
| ForwardRuns.DeletedByEvents | apps/gate-agent/cmd/hyperspace-gate-agent/main.go:3495-3516 | all single deletions, with no packet between, leave the chain of the chain's own method |
| ForwardRuns.ReplacedByEvents | apps/gate-agent/cmd/hyperspace-gate-agent/main.go:2132-2140 | all deletions and then n additions, with no packet between, leave the chain of the chain's own method |
| ForwardRuns.OthersUntouched | apps/gate-agent/cmd/hyperspace-gate-agent/main.go:2132-2140 | a commit or revoke of one assignment, at any of its steps, changes no rule, total or verdict of another |
| RecoveryManagement.DoubleZeroRecoveryManager.Observe | apps/gate-agent/cmd/hyperspace-gate-agent/main.go:2759-2872 | the heartbeat's effect on record, file and running flag is the specified step, and its last check before a start never refuses |
| RecoveryManagement.DoubleZeroRecoveryManager.Complete | apps/gate-agent/cmd/hyperspace-gate-agent/main.go:3026-3046 | the end of a recovery, succeeded or failed, as the specified step |
| RecoveryManagement.DoubleZeroRecoveryManager.TransitionLocked | apps/gate-agent/cmd/hyperspace-gate-agent/main.go:2875-2883 | a change of state is written to disk, an unchanged one is not |
| RecoveryReports.HeartbeatReports | apps/gate-agent/cmd/hyperspace-gate-agent/main.go:2775-2872 | for every record, configuration and observation, each report with its exact condition on what was observed: ready if and only if no recovery runs, the session is up, the routes are ready and the device is not drained; the three manual reasons; disabled; failed or reconnect cooldown; observing with its reason; in progress; the safety guard never |
| RecoveryReports.HeartbeatKeeps | apps/gate-agent/cmd/hyperspace-gate-agent/main.go:2775-2872 | the stamp is kept while a recovery runs, cleared without a trigger, and otherwise kept or set to the heartbeat's second; the other fields change only at a start, to what a start records |
| RecoveryReports.StampsAreSeconds | apps/gate-agent/cmd/hyperspace-gate-agent/main.go:2854 | stamps are whole seconds, the last one not after the time |
| RecoveryReports.HeartbeatWrites | apps/gate-agent/cmd/hyperspace-gate-agent/main.go:2875-2883 | a changed record is on file when the writes succeed, the file stays when they fail, and an unchanged record is not written |
| RecoveryReports.EndReports | apps/gate-agent/cmd/hyperspace-gate-agent/main.go:3026-3046 | a success reports restored and clears the stamp, a failure reports the failed cooldown with stage and message and keeps it; the next eligible time stays in either case |
| RecoveryReports.AfterRecovery | apps/gate-agent/cmd/hyperspace-gate-agent/main.go:2811-2872 | after a failed recovery triggers are reported as failed until the cooldown is over, and then the lasting condition starts again at once; after a success the condition is noted afresh |
| RecoveryManagement.StartsIffRuleHolds | apps/gate-agent/cmd/hyperspace-gate-agent/main.go:3088-3107 | a heartbeat starts a recovery if and only if none is running and the start rule holds of the record with the condition stamped |
| RecoveryManagement.SafetyGuardUnreachable | apps/gate-agent/cmd/hyperspace-gate-agent/main.go:2837-2849 | whenever the earlier checks pass, the rule holds and a recovery starts |
| RecoveryManagement.AtMostOneActive | apps/gate-agent/cmd/hyperspace-gate-agent/main.go:2775-2780 | over any run at most one recovery is in progress, and the running flag says whether one is |
| RecoveryManagement.DiskIsRecord | apps/gate-agent/cmd/hyperspace-gate-agent/main.go:2738-2753 | while writes succeed, a restart brings back the record the process held |
| RecoveryCooldown.CooldownBetweenStarts | apps/gate-agent/cmd/hyperspace-gate-agent/main.go:2820-2864 | a later start is not before the truncated end of the cooldown, hence more than the cooldown less one second later, over any run with any writes lost, as long as each restart between finds a file that still holds starts back |
| RecoveryCooldown.KeptEligibilityHolds | apps/gate-agent/cmd/hyperspace-gate-agent/main.go:2738-2753 | it is enough that each restart finds the next eligible time the record had |
| RecoveryCooldown.NoEarlyStartExactly | apps/gate-agent/cmd/hyperspace-gate-agent/main.go:2738-2753 | an agent booted from a file starts no recovery before a given second, however it goes on, if and only if the file holds starts back until then or neither its stamp nor a condition noted afresh can be confirmed before |
| RecoveryCooldown.CooldownExactly | apps/gate-agent/cmd/hyperspace-gate-agent/main.go:2738-2753 | the same at a restart in the middle of any run, whatever was written before, which goes on as a run booted from the file found |
| RecoveryCooldown.LostStartIsRepeated | apps/gate-agent/cmd/hyperspace-gate-agent/main.go:3059-3077 | a concrete loss: the write at a start fails, the agent restarts, and the next heartbeat starts again |
| RecoveryConfirmation.ConfirmedBeforeStart | apps/gate-agent/cmd/hyperspace-gate-agent/main.go:2811-2836 | before each start there is an observation (or a stamp found at boot) more than the confirmation time less one second earlier, since which every observation outside a recovery saw a trigger, with any writes lost, as long as restarts find no stamp or one that such a condition accounts for |
| RecoveryConfirmation.KeptStampsHold | apps/gate-agent/cmd/hyperspace-gate-agent/main.go:2738-2753 | it is enough that each restart finds no stamp or the one the record had |
| RecoveryConfirmation.ConfirmedExactly | apps/gate-agent/cmd/hyperspace-gate-agent/main.go:2811-2836 | after a restart the next start is confirmed, however the run goes on, if and only if the stamp on file is not stale: some lasting condition of the run accounts for it by the first moment the file allows a start |
| ConfigPayments.StatusIsSomeNodes | apps/control-plane-api/src/services/solana-config-payment.ts:294-318 | a status read is the report of the first node asked that has seen the signature, is unseen if and only if the recent read and every archive asked either lack it or keep no history, and throws exactly when a node it needs fails |
| ConfigPayments.StepKeeps | apps/control-plane-api/src/services/solana-config-payment.ts:65-217 | from any await to the next, with any reply, crash or act of the chain, only the signature in the row can be live, and only while the row says submitted or confirmed |
| ConfigPayments.AtMostOneTransfer | apps/control-plane-api/src/services/solana-config-payment.ts:65-217 | over any run of calls with crashes at any await, at most one transfer succeeds, nothing is broadcast before its signature is in the row, `confirmed` is answered only for a success, and a failure, unless for want of the wallet's key, only when nothing sent can succeed any more |
| ConfigPayments.ConfirmedIsFinal | packages/control-plane/src/resources/billing/solana-config-payment-repository.ts:119-138 | a confirmed payment stays confirmed, with the signature that paid it |
| ConfigPayments.RecoveryRebroadcastsRecorded | apps/control-plane-api/src/services/solana-config-payment.ts:260-288 | while recovery sends, only the row's own signature can reach the network and the row stays |
| ConfigPaymentAnswers.ArrivalAnswers | apps/control-plane-api/src/services/solana-config-payment.ts:65-78 | without a key, with other parameters or for a confirmed payment a call answers at once and changes nothing |
| ConfigPaymentAnswers.RecoverySettles | apps/control-plane-api/src/services/solana-config-payment.ts:247-259 | a call on a submitted payment whose status read decides fails the row on an error and answers failed, confirms it on finality and answers confirmed with its signature; a throwing update throws |
| ConfigPaymentAnswers.RecoveryReadFails | apps/control-plane-api/src/services/solana-config-payment.ts:247-251 | a status read that throws ends the call with the error and leaves the row |
| ConfigPaymentAnswers.RecoveryWaits | apps/control-plane-api/src/services/solana-config-payment.ts:247-291 | undecided and with nothing recorded to send again, the payment stays in progress |
| ConfigPaymentAnswers.RecoveryByHeight | apps/control-plane-api/src/services/solana-config-payment.ts:260-291 | undecided and with the recorded bytes, the call answers in progress after the block height exactly when it is past the last valid one, and goes on to send exactly otherwise |
| ConfigPaymentAnswers.RecoveryResends | apps/control-plane-api/src/services/solana-config-payment.ts:260-288 | sending again puts the recorded signature on the network and leaves the row; the answer is in progress, or the error unless it says processed before |
| ConfigPaymentAnswers.RecoveryRereads | apps/control-plane-api/src/services/solana-config-payment.ts:264-288 | processed before: the status is read again and settles the row if it decides |
| ConfigPaymentAnswers.NotClaimedWaits | apps/control-plane-api/src/services/solana-config-payment.ts:79-85 | a payment that may not be claimed (neither pending, failed nor claimed over two minutes ago) is in progress, and nothing changes |
| ConfigPaymentAnswers.ClaimFails | apps/control-plane-api/src/services/solana-config-payment.ts:79 | a claim that throws ends the call, the row claimed if it was carried out |
| ConfigPaymentAnswers.PreparationRefuses | apps/control-plane-api/src/services/solana-config-payment.ts:91-156 | a wrong key format, an uninitialised treasury or missing funds fail the row and are answered as such |
| ConfigPaymentAnswers.PreparationThrows | apps/control-plane-api/src/services/solana-config-payment.ts:97-212 | an exception before anything is recorded fails the row and is answered as failed |
| ConfigPaymentAnswers.RecordingFails | apps/control-plane-api/src/services/solana-config-payment.ts:161-212 | when the signature cannot be recorded the row is failed and nothing is sent |
| ConfigPaymentAnswers.RecordingReplyLost | apps/control-plane-api/src/services/solana-config-payment.ts:161-214 | when it was recorded but the reply is lost nothing is sent and the row waits |
| ConfigPaymentAnswers.PollSettles | apps/control-plane-api/src/services/solana-config-payment.ts:169-182 | claimed, signed, recorded, sent and decided by one of the first twenty polls: finality confirms the row and answers confirmed, an error fails it and answers failed; only that signature is broadcast |
| ConfigPaymentAnswers.StatusSettles | apps/control-plane-api/src/services/solana-config-payment.ts:173-180 | after twenty undecided polls the full status read decides, or the payment stays in progress |
| ConfigPaymentAnswers.SettlingThrows | apps/control-plane-api/src/services/solana-config-payment.ts:177-212 | a settling update that throws leaves the row waiting if it was not carried out, and otherwise the catch block fails the row, whatever was reported |
| ConfigPaymentAnswers.WaitingThrows | apps/control-plane-api/src/services/solana-config-payment.ts:172-214 | a poll or status read that throws goes to the caller and leaves the row waiting |
| ConfigPaymentAnswers.SendingThrows | apps/control-plane-api/src/services/solana-config-payment.ts:169-214 | another signature or an unspecific refusal goes to the caller and leaves the row waiting |
| ConfigPaymentAnswers.SimulationFails | apps/control-plane-api/src/services/solana-config-payment.ts:205-208 | a failed simulation fails the row |
| ConfigPaymentAnswers.AlreadySent | apps/control-plane-api/src/services/solana-config-payment.ts:186-204 | processed before: the status settles the row, or the payment stays in progress |
| ConfigPaymentLosses.SafeExactly | apps/control-plane-api/src/services/solana-config-payment.ts:183-213 | after any run with any confirming replies lost, whatever follows without a further loss pays at most once if and only if no success is left that the row does not stand for or the code may be about to fail |
| ConfigPaymentLosses.AtMostOneExactly | apps/control-plane-api/src/services/solana-config-payment.ts:205-212 | the same, when new transactions have new signatures, if and only if the catch block has not failed, and is not about to fail, a row that was confirmed |
| ConfigPaymentLosses.RepairedGuardPaysOnce | apps/control-plane-api/src/services/solana-config-payment.ts:209-212 | with `confirmed` excluded at that guard at most one transfer succeeds under every reply |
| ConfigPaymentLosses.LostConfirmPaysTwice | apps/control-plane-api/src/services/solana-config-payment.ts:181-212 | a reachable world in which two transfers of one payment succeeded |
| ConfigPaymentLosses.MissingKeyFailsPaid | apps/control-plane-api/src/services/solana-config-payment.ts:68 | a reachable world in which a call without the wallet's key has answered `failed` for a transfer that succeeded |
| ConfigPaymentCalls.PaymentServer.Charge | apps/control-plane-api/src/services/solana-config-payment.ts:65-217 | the code of one call, awaiting anything at each await, goes through a run of the machine from what the call found, and answers what the machine answers, hence what the answer theorems say of those replies |
| ConfigPaymentCalls.PaymentServer.RecoverSubmittedPayment | apps/control-plane-api/src/services/solana-config-payment.ts:236-292 | it returns the machine's answer, or leaves the row untouched for a claim |
| ConfigPaymentCalls.PaymentServer.WaitForFinalized | apps/control-plane-api/src/services/solana-config-payment.ts:320-342 | the polling loop stops at the first decisive report, or after twenty goes on to the full status read |
| ConfigPaymentCalls.PaymentServer.Catch | apps/control-plane-api/src/services/solana-config-payment.ts:183-213 | the catch block fails, confirms or rethrows exactly as the machine |
| ConfigPaymentCalls.AnswerCarries | apps/control-plane-api/src/services/solana-config-payment.ts:65-217 | what the awaited request itself does is what the machine says happens at that await, also when the process ends |
| ConfigPaymentCalls.ChainDoesNotMatter | apps/control-plane-api/src/services/solana-config-payment.ts:65-217 | what the chain does during an await changes neither the row nor where the answer leads |
| ConfigPaymentCalls.PaymentServer.AtMostOneTransferInCode | apps/control-plane-api/src/services/solana-config-payment.ts:65-217 | whatever the code has gone through within the assumptions, at most one transfer has succeeded and only recorded signatures were broadcast |
| WithdrawalPayouts.ExpiredIsNotLive | apps/control-plane-worker/src/loops/solana-withdrawal-loop.ts:58-61 | a submission unseen and older than ten minutes by the worker's clock can no longer land when lifetime, delay and clock skew fit in ten minutes |
| WithdrawalPayouts.RecordingFailed | apps/control-plane-worker/src/loops/solana-withdrawal-loop.ts:118-122 | a failure before the signature is known to be recorded releases a withdrawal of which nothing is live |
| WithdrawalPayouts.StepKeeps | apps/control-plane-worker/src/loops/solana-withdrawal-loop.ts:35-128 | every step of the loop, of users and of the chain keeps: each live transaction is the one in its withdrawal's submitted or confirmed row |
| WithdrawalPayouts.EachPaidAtMostOnce | apps/control-plane-worker/src/loops/solana-withdrawal-loop.ts:35-128 | over any run with any number of withdrawals and crashes at any await, each is paid at most once and nothing is broadcast before it is recorded |
| WithdrawalPayouts.AtMostOnceExactly | apps/control-plane-worker/src/loops/solana-withdrawal-loop.ts:58-61 | paying at most once holds if and only if lifetime, delay and the lead of the worker's clock over the database's together are at most ten minutes |
| WithdrawalPayouts.LateLandingPaysTwice | apps/control-plane-worker/src/loops/solana-withdrawal-loop.ts:58-61 | otherwise a world in which one withdrawal was paid twice is reachable |
| WithdrawalAnswers.PassSettles | apps/control-plane-worker/src/loops/solana-withdrawal-loop.ts:42-64 | an undisturbed settling pass leaves each listed withdrawal confirmed if and only if its report is final without an error, failed if and only if the report is an error or there is none and it was submitted over ten minutes before, and every other row as it was; then the loop claims |
| WithdrawalAnswers.PassStops | apps/control-plane-worker/src/loops/solana-withdrawal-loop.ts:52-62 | an update that throws ends the run: the entries before are settled, its own if it was carried out, the others not |
| WithdrawalAnswers.NothingListed | apps/control-plane-worker/src/loops/solana-withdrawal-loop.ts:42-43 | with nothing submitted the loop goes on to claim |
| WithdrawalAnswers.ReadingFails | apps/control-plane-worker/src/loops/solana-withdrawal-loop.ts:42-47 | a failed listing or status read ends the run and changes nothing |
| WithdrawalAnswers.PaymentEnds | apps/control-plane-worker/src/loops/solana-withdrawal-loop.ts:67-128 | a claimed ready withdrawal ends submitted with its recorded signature, broadcast unless the node refused it, and failed with nothing sent when its key is unusable, its transaction cannot be built or cannot be recorded |
| WithdrawalAnswers.NothingToPay | apps/control-plane-worker/src/loops/solana-withdrawal-loop.ts:67-68 | with nothing ready to claim the run ends and sends nothing |
| WithdrawalRuns.WithdrawalServer.RunOnce | apps/control-plane-worker/src/loops/solana-withdrawal-loop.ts:35-128 | the code of one run goes through a run of the machine from what it found and ends where the machine is idle, so that the answer theorems say what it leaves |
| WithdrawalRuns.WithdrawalServer.SettleNext | apps/control-plane-worker/src/loops/solana-withdrawal-loop.ts:48-63 | one round of the settling loop fails, confirms, expires or skips its entry as the machine, of which `WithdrawalAnswers.PassSettles` says which |
| WithdrawalRuns.WithdrawalServer.Update | packages/control-plane/src/application/billing/withdrawal.scenario.ts:164-206 | a failing or confirming update lets the loop go on exactly when it did not throw and the row was one that may be confirmed |
| WithdrawalRuns.WithdrawalServer.Submit | apps/control-plane-worker/src/loops/solana-withdrawal-loop.ts:67-126 | recorded first, then sent; an exception fails the row exactly when the signature was not yet known to be recorded |
| WithdrawalRuns.AnswerCarries | packages/control-plane/src/resources/billing/prepaid-repository.ts:1304-1436 | the row updates issued by the code are those of the machine at that await |
| WithdrawalRuns.WithdrawalServer.EachPaidAtMostOnceInCode | apps/control-plane-worker/src/loops/solana-withdrawal-loop.ts:35-128 | whatever the code has gone through within the assumptions, each withdrawal has been paid at most once |
| Base58.AddByte | apps/control-plane-api/src/services/solana-config-payment.ts:368-378 | the two inner loops, with the carry at most 255 throughout, compute one multiply-add |
| Base58.MultiplyAddValue | apps/control-plane-api/src/services/solana-config-payment.ts:368-378 | the new digits are below 58 and denote 256 times the old value plus the carry |
| Base58.MultiplyAddCanonical | apps/control-plane-api/src/services/solana-config-payment.ts:368-378 | no leading zero digit appears |
| Base58.DigitsOfValue | apps/control-plane-worker/src/loops/solana-withdrawal-loop.ts:186-207 | digits without a leading zero are determined by their value |
| Base58.EncodeBase58 | apps/control-plane-api/src/services/solana-config-payment.ts:365-386 | the text is one `1` per leading zero byte followed by the numeral of the big-endian value |
| Base58.AlphabetIsAlphabet | apps/control-plane-api/src/services/solana-config-payment.ts:366 | the alphabet has 58 distinct letters and begins with `1` |
| Base58.DecodeRestores | apps/control-plane-api/src/services/solana-config-payment.ts:365-386 | decoding restores the bytes if and only if one is not zero; n zero bytes give n + 1 ones |
| Base58.EncodingInjective | apps/control-plane-worker/src/loops/solana-withdrawal-loop.ts:186-207 | no two byte strings share a text |
| WindowLimiting.WindowLimiter.Consume | apps/control-plane-api/src/http/window-limiter.ts:6-20 | answer, table and last sweep after one call, refusals for capacity included |
| WindowLimiting.WindowLimiter.Sweep | apps/control-plane-api/src/http/window-limiter.ts:12 | the loop deletes exactly the buckets whose window has passed |
| WindowLimiting.NeverOverCapacity | apps/control-plane-api/src/http/window-limiter.ts:14 | on every run the table holds at most the capacity |
| WindowLimiting.LiveBucketKept | apps/control-plane-api/src/http/window-limiter.ts:1 | a live bucket survives every call, untouched by another key's and used once by its own |
| WindowLimiting.NoRefusalWithinCapacity | apps/control-plane-api/src/http/window-limiter.ts:10-14 | with no more distinct keys than buckets nobody is refused for capacity |
| WindowLimiting.SharedEqualsPrivateExactly | apps/control-plane-api/src/http/window-limiter.ts:6-20 | for every clock: a key's answers on calls not refused for capacity are those of a counter of its own if and only if none of them comes back, inside its running window, after a sweep deleted its bucket |
| WindowLimiting.AfterSweepNoLapse | apps/control-plane-api/src/http/window-limiter.ts:10-13 | a key called only at readings not before the last sweep never sees that |
| WindowLimiting.ForwardClockNoLapse | apps/control-plane-api/src/http/window-limiter.ts:10-13 | nor does any key while the clock does not run backwards |
| WindowLimiting.FewKeysNoLapse | apps/control-plane-api/src/http/window-limiter.ts:10-14 | nor does any key, whatever the clock does, with no more distinct keys than buckets |
| WindowLimiting.SharedDiffersWhenClockRunsBack | apps/control-plane-api/src/http/window-limiter.ts:10-13 | a run with a backward clock in which the answers differ |
| WindowLimiting.TwiceMaxPerInterval | apps/control-plane-api/src/http/window-limiter.ts:6-20 | any half-open interval of window length contains at most twice the maximum of allowed calls of a key whose served calls are in order and do not lapse, whatever the calls of other keys do |
| WindowLimiting.MaxPerWindow | apps/control-plane-api/src/http/window-limiter.ts:15-19 | under the same condition every window an answer through the shared table reports contains at most the maximum of allowed calls of the key |
| WindowLimiting.SharedAnswers | apps/control-plane-api/src/http/window-limiter.ts:6-20 | through the shared table each served call of a key that does not lapse is answered by its place in its window, under any clock: allowed if and only if it is among the first `max`, with the number left and the window's end; a refused one is told to come back in a second |
| WindowLimiting.RefusedExactly | apps/control-plane-api/src/http/window-limiter.ts:9-14 | a call is refused if and only if its key has no running window and the other keys fill the table, those with running windows when a sweep is due and all of them otherwise; a sweep deletes exactly the expired others |
| CompletionLogging.CompletionLogPolicy.Allow | apps/control-plane-api/src/http/completion-log-policy.ts:10-21 | the decision and the new state for every path and status |
| CompletionLogging.NeverFull | apps/control-plane-api/src/http/completion-log-policy.ts:8-14 | its two classes of public requests always find a bucket |
| CompletionLogging.OwnCounter | apps/control-plane-api/src/http/completion-log-policy.ts:12-14 | each class is decided by a private counter of 60 a minute, whatever else the run contains and however the clock jumps |
| CompletionLogging.PlainRequests | apps/control-plane-api/src/http/completion-log-policy.ts:10-21 | requests to the sign-in paths are never logged, and those that are neither public measurements nor successful probe polls always, at no cost to a budget |
| CompletionLogging.Paths | apps/control-plane-api/src/http/completion-log-policy.ts:11-16 | which paths are measurements, polls and reports, by example |
| CompletionLogging.OwnBudget | apps/control-plane-api/src/http/completion-log-policy.ts:12-14 | at most 120 requests of a class are logged in any minute when the clock does not run backwards between that class's own requests |
| CompletionLogging.OneInAHundred | apps/control-plane-api/src/http/completion-log-policy.ts:15-19 | of n successful probe polls exactly n / 100 rounded up are logged |
| PublicSnapshots.PublicReadSnapshot.Refresh | apps/control-plane-api/src/http/public-read-snapshot.ts:38-68 | joins the pending load, is refused during backoff, or starts one |
| PublicSnapshots.PublicReadSnapshot.Read | apps/control-plane-api/src/http/public-read-snapshot.ts:69-79 | what a reader is served, refused, or made to wait for |
| PublicSnapshots.StepKeeps | apps/control-plane-api/src/http/public-read-snapshot.ts:38-79 | every call and callback keeps one load at a time, flags that reflect the last finished load, and the latest delivery as value |
| PublicSnapshots.AtMostOneLoad | apps/control-plane-api/src/http/public-read-snapshot.ts:38-68 | on every run at most one load is in flight |
| PublicSnapshots.StartsAfterBackoff | apps/control-plane-api/src/http/public-read-snapshot.ts:39-40 | no load starts before the backoff of a failed last load is over |
| PublicSnapshots.ServedAnswers | apps/control-plane-api/src/http/public-read-snapshot.ts:69-79 | every answer is one successful load aged between 0 and the limit, is live if and only if fresh after a successful last load, refreshing if and only if older after one, stale if and only if the last load failed, and answers never go back to an earlier load |
| PublicSnapshots.ReadIsAnswered | apps/control-plane-api/src/http/public-read-snapshot.ts:69-79 | on every run a read answers at once if and only if a load delivered, since the last close, data at most the limit old; it starts exactly one load if and only if there is no fresh data, no promise is outstanding and the backoff is over; with nothing to serve it waits if and only if a promise is outstanding, its own included |
| PublicSnapshots.ResumeIsAnswered | apps/control-plane-api/src/http/public-read-snapshot.ts:72-75 | a reader that waited is answered if and only if the awaited load delivered and there still is data within the limit |
| PublicSnapshots.RefreshStarts | apps/control-plane-api/src/http/public-read-snapshot.ts:38-40 | a refresh starts exactly one load if and only if no promise is outstanding and the backoff is over |
| MetricsAggregation.RuntimeMetrics.Record | packages/shared/src/observability.ts:112-121 | queued, dropped and counted, or ignored when stopped or not finite |
| MetricsAggregation.RuntimeMetrics.Flush | packages/shared/src/observability.ts:123-138 | the loop applies the queue in order and sets the two gauges of the aggregator |
| MetricsAggregation.RuntimeMetrics.Observe | packages/shared/src/observability.ts:184-188 | the bucket loop raises exactly the counts whose bound is at least the value |
| MetricsAggregation.RuntimeMetrics.ResetGauge | packages/shared/src/observability.ts:212-220 | flushes and then removes exactly the gauges of that name |
| MetricsAggregation.EveryEventAccounted | packages/shared/src/observability.ts:112-138 | on every run the queue respects its capacity and every finite event before the stop is applied in order, queued, or counted as dropped |
| MetricsAggregation.SeriesMeanTheirEvents | packages/shared/src/observability.ts:140-190 | a counter is the sum of its applied events; a histogram has their number, their sum and, per bound, the number of observations at most that bound |
| MetricsAggregation.BucketsCumulative | packages/shared/src/observability.ts:162-190 | buckets never decrease from bound to bound and never exceed the count |
| MetricGauges.FlushShowsGauges | packages/shared/src/observability.ts:123-160 | after a flush a gauge shows the last value recorded, and the two gauges of the aggregator an empty queue and the events dropped |
| MetricGauges.ResetRemovesGauges | packages/shared/src/observability.ts:212-220 | after a reset exactly the gauges of that name are gone, queued ones included, and all else is as after a flush |
| OrderStatistics.PercentilesAgree | apps/trading-probe-agent/cmd/hyperspace-trading-probe-agent/main.go:575-586 | the two independent implementations agree on every sequence and quantile |
| OrderStatistics.PercentileInterpolates | apps/gate-agent/cmd/hyperspace-gate-agent/main.go:1754-1769 | at position q (n - 1) both percentiles are the straight line between the two neighbouring values, and at an index the value there |
| OrderStatistics.PercentileOfFew | apps/gate-agent/cmd/hyperspace-gate-agent/main.go:1754-1760 | of one value both are that value, of none zero |
| OrderStatistics.PercentileMonotone | apps/gate-agent/cmd/hyperspace-gate-agent/main.go:1754-1769 | percentiles rise with the percentage and lie between minimum and maximum |
| OrderStatistics.SummarizeProbeSamples | apps/gate-agent/cmd/hyperspace-gate-agent/main.go:1733-1752 | the summary of the sorted finite values, with Min, P50, P95 and Max in order after rounding |
| OrderStatistics.SummaryMeans | apps/gate-agent/cmd/hyperspace-gate-agent/main.go:1746-1751 | each figure is, to half a thousandth, the smallest value, the other agent's median and 95th percentile, and the largest value |
| OrderStatistics.RoundIsNearest | apps/gate-agent/cmd/hyperspace-gate-agent/main.go:1775-1780 | rounding takes the nearest, a half away from zero |
| OrderStatistics.FiniteKeepsAll | apps/gate-agent/cmd/hyperspace-gate-agent/main.go:1734-1741 | every finite value is kept as often as it occurs |
| OrderStatistics.JitterIsSpread | apps/gate-agent/cmd/hyperspace-gate-agent/main.go:1322 | the jitter is nonnegative and rounding it again loses nothing |
| OrderStatistics.SummaryOfMultiset | apps/gate-agent/cmd/hyperspace-gate-agent/main.go:1733-1752 | neither the order of samples nor missing values matter |
| OrderStatistics.TradingAggregateOrdered | apps/trading-probe-agent/cmd/hyperspace-trading-probe-agent/main.go:522-538 | minimum, P50, P95 and maximum of the totals are in order |
| CatalogSync.ProbesDatabase.Sync | apps/control-plane-worker/src/probes/catalog-sync.ts:31-57 | the statements in their order leave every table as specified outright: copies of the dependent tables, live rows from the snapshot, retired rows kept and off, hosted nodes off with their gate |
| CatalogSync.EnabledExactly | apps/control-plane-worker/src/probes/catalog-sync.ts:34-49 | what is enabled afterwards is exactly what the snapshot enables, less nodes hosted by a gate that is off |
| CatalogSync.SecondSyncIsIdle | apps/control-plane-worker/src/probes/catalog-sync.ts:31-57 | a second synchronisation of the same snapshot changes nothing |
| CatalogSync.LastSnapshotWins | apps/control-plane-worker/src/probes/catalog-sync.ts:47-49 | an earlier snapshot influences no row the later one has, except exactly a node whose hosting gate only the earlier one brought |

## Left out

Assumptions about the environment, each a clause of a predicate:

- Gate agent: one job at a time per assignment, reports between jobs, kernel deletions succeed, generated keys are not empty, and traffic passes only objects that exist (`AssignmentLedger.Possible`). A crash inside a revoke is the revoke whose state was not stored. A tool answers for an object wholly or not at all.
- Packet policy: each single deletion succeeds, handles contain no colon, distinct assignments have distinct interface pairs, and `nft` lists a comment in quotes, so that the unquoted pattern of the deletion test matches nothing more. A committed plan has different inner and outer interfaces.
- Recovery manager: a nonnegative cooldown and a confirmation time of a second or more, of which the configuration demands an hour and a minute; the device state, routes and tunnel status are what the observation says they are.
- Config payments: calls for one payment id do not overlap; error and finality reports are true and final; a failed preflight simulation broadcasts nothing; only sending raises simulation and already-processed errors. The awaits before signing touch only the fee estimate and are one event. `ConfigPaymentLosses.AtMostOneExactly`, unlike `SafeExactly`, takes a new transaction to have a new signature.
- The answer theorems of both payout protocols take the replies of one call or run with only the chain acting in between; a user who cancels a failed withdrawal meanwhile is not among them.
- Withdrawals: one worker; error and finality reports are true, and a landed transaction is not unseen; a transaction lands no later than its lifetime after it was recorded.
- Limiter: the converse of `SharedEqualsPrivateExactly` takes calls that ask for a maximum of at least one.
- Snapshot theorems take a nondecreasing clock; the limiter's bounds per interval and per window take one between the key's own served calls.
- Metrics: the theorems about series take one kind and one bucket list per series. On a mixture the program can throw inside a flush, which the model does not do.

Not modelled:

- Counters are unbounded naturals, percentiles exact reals: wrap-around at 64 bits and floating-point rounding are not modelled.
- The identity fields of counter snapshots (assignment, role, generation, sampling time), tunnel and plan validation (one flag), routes, the input-chain rule, and half-written state files.
- How tool output is parsed: a tool shows an object or does not, and for a client tunnel it shows it only with the right parameters.
- Decoration of status reports, the device-state cache and the commands a recovery runs.
- Keys, hashing, encryption, transaction building, balances, fees and ledger entries of a withdrawal; the result counters and the schedule of `runOnce`.
- The sweep loop, which has the shape of the withdrawal loop.
- The standard deviation of the trading agent's totals.
- Metric names, labels, help texts, the default bucket list (a parameter) and the text exposition; the timers of snapshot and metrics; the memory budget and etag of snapshot data.
- The Mongo branch of the catalog mirror, its read transaction and the columns it selects; rows keep what the statements inspect, and the other columns together.
- Web UI, routes, contracts, environment parsing, e-mail and the remaining SQL.
- ConfigPayments.StepKeeps: the invariant is about one payment id, because rows and signatures of different ids never meet.
