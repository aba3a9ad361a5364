# KAR: retry orchestration, actor locks and the cores around them

KAR runs actors in sidecar processes ("nodes"). Requests travel through Kafka partitions, one per node, and when a node
dies a leader reads the partitions and decides what to retry. This project models that protocol in Dafny 4.11, together
with the pieces it rests on (message encoding, routing, partition assignment, actor placement, the per-actor lock) and
four self-contained cores of the repository (two-phase commit, dining philosophers, reminders, the debugger's deadlock
search), and proves what they promise. `dafny verify dfyconfig.toml` covers all files.

## How it is organised

| files | what they hold |
|---|---|
| `Messages` | messages, targets, and the header encoding (`Codec`) |
| `RecoverySpec`, `RecoveryTables` | what recovery must decide, said declaratively over the records of the topic; the tables the one-pass loop fills, and the proof that the loop's decisions are the declared ones |
| `Routing`, `Transport` | routing, the shared topic, placements and redirects as values; `Transport.Leader`, the recovery code as a class with its loops, proved against both |
| `Protocol`, `ProtocolSteps`, `ProtocolRecovery`, `ProtocolInvariant`, `ProtocolCopies` | the transition system (send, read, tail call, finish, expire, time out, crash, recover), its invariant, and the proof that every step keeps it |
| `Rebalance` | a plan of `Strategy` followed by what `Transport.Leader.Recover` ensures is a recovery step of the protocol, and a plan that skips recovery may do so |
| `Guarantees` | what the protocol promises for every run |
| `RetryLimits`, `ReplyLimits`, `Reattempts`, `Homes`, `RunBuilding`, `RetryRuns` | where a promise ends: the exact conditions, and runs that fail them |
| `SessionLock`, `SessionSteps`, `SessionGuarantees`, `SessionRetries` | the per-actor lock as atomic steps of goroutines over a table of instances; retries that wait for a call into their own actor |
| `Strategy`, `Placement` | the partition plan as a class with its loops; placement by compare-and-swap under interference |
| `Bank`, `BankProtocol`, `BankSteps`, `BankGuarantees`, `BankWrites`, `BankLimits`, `BankSplits` | accounts as a class; transfers as a transition system over any accounts and transactions; which writes a reload loses; where their promises end |
| `FieldLocks`, `FieldIsolation` | the generic transaction participant as a class; its runs |
| `Philosophers`, `PhilosopherGuarantees`, `PhilosopherLimits` | forks and seating; the table as a transition system with crashes; meals per invitation |
| `Reminders` | the reminder heap, the firing round and the bindings around it, as a class |
| `DeadlockSearch` | building the graph of pending calls and searching it |
| `Options` | an optional value |

Methods are proved against functions on values, and the lemmas speak of those functions. Runs are sequences of states;
"every run" means every finite sequence of steps from the initial state, with the choices of nodes, orders, crashes and
messages left free.

## Assumptions

- Recovery runs to completion and partition 0 is read first. No node sends in an old generation. Retention does not drop
  records. Sequence numbers stay below 2^30, the mark of a completed request.
- A request finishes or tail-calls only after the blocking calls it made have been answered, and a tail call that keeps
  the lock goes to the actor and flow it comes from while its type is still offered.
- "Finished" means that a Response or a Done is in the topic. A response to a dead caller without a redirect is dropped
  by the code; such a request is "abandoned" in the model.
- Generated ids (requests, flows, locks, nodes, transactions) are unique. Flow ids of requests are never the reserved
  "released" nor those of the collector.
- Within a generation all nodes use the same routing tables. Where it matters that survivors keep their services and
  that the store starts without placements, the lemma says so (`Homes`).
- A node that has never been part of a generation reports no partition when it joins (`Rebalance.Attempted`).
- A node that keeps running announces no new services when a plan skips recovery (`Rebalance.KeepServices`).
- A request that waits for the child of its earlier execution is not cancelled meanwhile, and the child may answer at
  any time. A retry that opened its instance does not time out in the queue, since the baton is already there. When the
  child answers, freeing the flow and taking it again is one step; both assignments are in one goroutine with nothing to
  wait for in between.
- An account executes no prepare of a transaction after it has purged the records of that transaction.
- Commits that one execution of a transfer told may still be under way when a later execution starts. In the code this
  takes a `sendCommitAsync` that ends with an error halfway: the call that repeats it reads the state outside its `try`
  (examples/actors-transactions/txn_framework/transaction.js:48, 58-60).
- A transaction participant is told to commit only what it voted for, and then updates only read-write fields it locked.

## Where the code does less than its documentation says

Each of these has the exact condition, for all inputs, and a run that fails it.

- README.md:96 says that a completed invocation is never retried. A call whose caller died returns to nobody if no
  redirect was written, and the reply is dropped. `Reattempts.ReturnedAgainIff`: an invocation that has just returned
  can be attempted again if and only if its reply had nowhere to go. `ReplyLimits.ReplyDeliveredIff`: the reply of a
  callee that a retry names is written if and only if some recovery handed such a retry to a node. A retry that only
  ever was in partition 0 is the failing case (`ReplyLimits.DroppedOnlyIfAside`); once a node got one, the redirect
  stays even if that node dies and the retry is set aside again, and the reply then goes to partition 0
  (`RetryRuns.RedirectOutlivesNode`). `RetryRuns.WaitsForDroppedReply` is a run in which a retry waits for a reply that
  was dropped, `RetryRuns.ReturnedIsAttemptedAgain` continues it to a second attempt of the callee.
- README.md:103-104 says that a retry waits for all callees of the previous execution. The code remembers one.
  `RetryLimits.WaitsForAllIff`; `RetryRuns.RetryRunsBesideFirst` (two callees) and `RetryRuns.RetryRunsBesideCallee` (a
  callee that made a tail call, which does not carry the parent).
- README.md:105-111 says that the last invocation of a chain is retried. An older copy of it in partition 0 can replace
  it when nobody offers the service. `RetryLimits.PayloadSurvivesIff`; `RetryRuns.NewerPayloadLost`.
- A request is meant for a node that offers its service. Two actor types share placement keys when one name is the other
  followed by an underscore. `Routing.ServicesMeetIff`, `Homes.HomeIff`, `Homes.Misrouted`; `Routing.InstanceIff` says
  when a key reads back.
- A transfer whose start throws can tell its participants both decisions. `BankSplits.BothToldIff` says, at the moment
  it throws, exactly when it still can: it is not complete, and its yes was saved, or nothing was and no account has a
  record of it and all can afford it. `BankGuarantees.OneDecision`, `BankSplits.RecordRulesOutYes` and
  `BankSplits.DivergesIff` are about every run; `BankSplits.FailureCanSplit` is a run in which two accounts apply
  different decisions.
- A repeated prepare answers with a bare boolean, which the coordinator reads as a missing vote, so a transfer executed
  again after some account prepared is refused, and the refusal is not saved. `BankLimits.DecidesYesIff`;
  `BankLimits.RepeatedIsRefused`.
- A commit does not wait for its write. A reload before it lands forgets the commit
  (`BankLimits.HastyReloadLosesMoney`). Even when nothing is pending any more, a reload can lose state: a late write
  overwrites a newer reservation (`BankLimits.LateWriteLosesReservation`), or a write overtakes a newer one
  (`BankLimits.OvertakingLosesCommit`). For each operation the `CatchesUpIff` lemmas of `Bank` say exactly when it keeps
  the saved state catching up. `BankWrites.ReloadIsHarmlessIff` holds in every run whose steps meet these conditions
  (`BankProtocol.InOrder`), and `BankWrites.OrderIsNeeded` shows that one step that does not is enough to lose state.
  The other lemmas on transfers speak of runs that reload no account while its saved state lags behind
  (`BankProtocol.Safe`), which writes in order ensure.
- examples/actors-dp-js/README.md:39 orders the same number of servings for everybody. If serve is executed again, it
  invites again those it already invited, and they eat again. `PhilosopherLimits.ServedOnceIff`;
  `PhilosopherLimits.EatsTooMuch`.
- A retry that waits for a call into its own actor is meant to hold the lock (the comment at
  core/pkg/rpc/requests.go:314 says that the lock state from before the failure is recreated). That is so only if the
  retry is the first to reach the actor (`SessionRetries.OpenerOwns`, `SessionRetries.ChildBypassesIff`). If it queues,
  its child queues behind it, and neither goes on before the child times out (`SessionRetries.BehindItsParent`,
  `SessionRetries.ParentAndChildStuck`). If it does not queue, it does not own the actor when it runs
  (`SessionRetries.RetryOwnsIff`, `SessionRetries.RetryRunsBesideStranger`). One holder of the baton, service in order
  and safe retirement hold in every run; which flow owns the actor is known in runs in which every such retry queues
  (`SessionLock.Regular`).

## Model

| member | source | states |
|---|---|---|
| Codec.AtoiItoa | core/pkg/rpc/messages.go:170-174 | parsing the decimal text of any integer gives the integer back |
| Codec.UnixRoundTrip | core/pkg/rpc/messages.go:165-169 | a deadline survives as its whole seconds |
| Codec.Encode | core/pkg/rpc/messages.go:118-158 | the headers list exactly the fields of the message, in some order, and the value is unchanged |
| Codec.Decode | core/pkg/rpc/messages.go:160-184 | the result is the message whose fields the headers spell, whatever their order |
| Codec.GatherUndoesLists | core/pkg/rpc/messages.go:160-164 | collecting headers into a map undoes listing a map as headers, for every order |
| Codec.CallRoundTrip | core/pkg/rpc/messages.go:176-177 | a call comes back with all the fields that recovery and dispatch read |
| Codec.TellRoundTrip | core/pkg/rpc/messages.go:178-179 | a tell comes back with all the fields that recovery and dispatch read |
| Codec.ReplyRoundTrip | core/pkg/rpc/messages.go:180-183 | a response or a done comes back with the fields that are carried |
| Codec.DeadlineKept | core/pkg/rpc/messages.go:165-169 | a deadline reads back as none if and only if it lies in the first second, so the zero deadline is preserved and no real one is lost |
| Codec.RoundTrip | core/pkg/rpc/messages.go:118-207 | decode inverts encode for every message and every header order, up to the deadline's fraction |
| Codec.ResendStable | core/pkg/rpc/messages.go:118-207 | a message that was decoded once survives any further encoding unchanged |
| Codec.DebuggerHeaders | core/pkg/rpc/messages.go:120-141 | every request carries its parent, and exactly the edited ones a mark, though decode does not read the mark, nor the parent of a tell |
| Codec.TargetMeaning | core/pkg/rpc/messages.go:200-207 | what any headers make of a target: an actor, a service or a node, with missing pieces empty |
| RecoverySpec.HighestUnique | core/pkg/rpc/transport.go:166-169 | the highest number of a request is unique |
| RecoverySpec.ChainStartUnique | core/pkg/rpc/transport.go:217-228 | the first number of the last run of retained-lock tail calls is unique |
| RecoverySpec.LatestIsHighest | core/pkg/rpc/transport.go:166-169 | the latest message of a request carries its highest number |
| RecoverySpec.LatestUnique | core/pkg/rpc/transport.go:166-169 | the latest message of a request is unique |
| RecoverySpec.Retry | core/pkg/rpc/transport.go:252-269 | the retry is for the actor and flow, with the payload, the method, the caller and the parent, of the message it replaces; only the lock, the number and the callee to wait for are new |
| RecoveryTables.MaxMeaning | core/pkg/rpc/transport.go:166-169 | the tables max and latest hold the highest number and the latest message of each request |
| RecoveryTables.ChainMeaning | core/pkg/rpc/transport.go:170-175 | the table chains holds the numbers sent with a retained lock |
| RecoveryTables.OrphanMeaning | core/pkg/rpc/transport.go:179-190 | the orphan lists hold the records of dead partitions and the requests of partition 0, in order |
| RecoveryTables.HandledMeaning | core/pkg/rpc/transport.go:191-198 | the table handled holds the highest live number of a request, or the completion mark |
| RecoveryTables.MinMeaning | core/pkg/rpc/transport.go:217-228 | the restart number is the start of the final maximal run of retained-lock tail calls, or the highest number when there is no start |
| RecoveryTables.PendingMeaning | core/pkg/rpc/transport.go:246-251 | the callee the loop keeps is the last one without a response |
| RecoveryTables.ChosenMeaning | core/pkg/rpc/transport.go:241 | the test on an orphan holds exactly when its request has no completion, no live partition holds its highest number, and the orphan is its restart message |
| RecoveryTables.DropMeaning | core/pkg/rpc/transport.go:270-272 | the drop flag is set exactly when partition 0 holds a step of the request at least as late as the highest |
| RecoveryTables.RetryMeaning | core/pkg/rpc/transport.go:252-269 | the message resent is the latest one with the lock cleared, the restart number and the pending callee |
| RecoveryTables.ActionsConfirm | core/pkg/rpc/transport.go:280-292 | completion is confirmed in partition 0 exactly for replies in dead partitions whose request remains without a reply there |
| RecoveryTables.ActionsDecide | core/pkg/rpc/transport.go:134-293 | the actions of the one-pass loop are those of the declarative specification: each request to retry exactly once, nothing else, and every needed confirmation |
| Routing.KeysApart | core/pkg/rpc/send.go:28-38 | keys of placements and keys of redirects never collide, and redirects of two requests never do |
| Routing.PlacesMeetIff | core/pkg/rpc/send.go:28-34 | two placements have one key if and only if they are the same, or one service name is the other, an underscore and a piece of the session |
| Routing.ServicesMeetIff | core/pkg/rpc/send.go:28-34 | two services can share a placement key if and only if one name is the other followed by an underscore |
| Routing.InstanceIff | core/pkg/rpc/send.go:40-43 | a placement key gives its actor type and id back if and only if neither contains an underscore |
| Routing.DeadNodeAnswered | core/pkg/rpc/send.go:152-166 | a call to a node that is gone is not sent again: its caller gets a response that carries an error, and nothing else changes; a tell to it is forgotten |
| Transport.Leader.CompareAndSwap | core/pkg/store/store.go:408-417 | the value is set exactly when the old one is the expected one, and the final value is returned |
| Transport.Leader.RouteToService | core/pkg/rpc/send.go:46-53 | some node that offers the service, with its partition, or no node and partition 0 exactly when nobody offers it |
| Transport.Leader.RouteToSession | core/pkg/rpc/send.go:56-90 | the stored live placement, else a new placement on an offering node; the loop ends and the cache stays right |
| Transport.Leader.ResendRequest | core/pkg/rpc/send.go:148-185 | the topic, placements and redirects after a retry is routed, parked in partition 0, or dropped because it is there |
| Transport.Leader.RespondDone | core/pkg/rpc/send.go:188-191 | a confirmation goes to partition 0 |
| Transport.Leader.ReadAll | core/pkg/rpc/transport.go:149-210 | one pass over the claimed partitions fills every table with the fold over the records read, and collects the dead partitions |
| Transport.Leader.Restart | core/pkg/rpc/transport.go:217-228 | the loop over chains computes the restart numbers |
| Transport.Leader.Act | core/pkg/rpc/transport.go:237-293 | the loop over orphans performs the specified actions, in order, for some choice of nodes |
| Transport.Leader.DeleteRecords | core/pkg/rpc/transport.go:295-296 | exactly the dead partitions are emptied |
| Transport.Leader.Recover | core/pkg/rpc/transport.go:117-303 | a whole recovery decides as specified, performs those actions, empties the dead partitions, and moves offset0 to max0 |
| ProtocolSteps.LockStays | core/pkg/rpc/requests.go:462-483 | a tail call that keeps the lock stays on the partition of its caller |
| ProtocolSteps.TailCallKeeps | core/pkg/rpc/requests.go:462-483 | a tail call keeps the protocol invariant: one attempt, one number, one chain |
| ProtocolSteps.FinishKeeps | core/pkg/rpc/requests.go:435-461 | an answer keeps the protocol invariant, delivered directly, through a redirect, or nowhere |
| ProtocolSteps.TimeoutKeeps | core/pkg/rpc/requests.go:359-369 | so does the answer to a waiting retry that times out in the queue of its actor |
| ProtocolRecovery.RetrySource | core/pkg/rpc/transport.go:236-272 | every retry comes from the latest record of the same request in the topic |
| ProtocolRecovery.UnheldIsRetried | core/pkg/rpc/transport.go:236-272 | an unfinished request that no running node holds is retried |
| ProtocolRecovery.ChildOrigin | core/pkg/rpc/transport.go:246-251 | the callee named by a retry was called by that request and has no reply |
| ProtocolInvariant.RecoverKeeps | core/pkg/rpc/transport.go:117-303 | a completed recovery keeps the whole protocol invariant |
| ProtocolInvariant.StepKeeps | core/pkg/rpc/transport.go:91-303 | every step keeps the protocol invariant |
| ProtocolInvariant.RunInv | core/pkg/rpc/transport.go:91-303 | every reachable world satisfies the protocol invariant |
| ProtocolCopies.RunCopies | core/pkg/rpc/transport.go:236-296 | in every run there is at most one record of each step of a request outside partition 0 |
| Rebalance.OffersMeaning | core/pkg/rpc/strategy.go:52-69 | the table of services lists a node under a service if and only if a member with that node announced it |
| Rebalance.PlanIsGeneration | core/pkg/rpc/strategy.go:52-125 | the tables of any plan that assigns are valid tables for the next generation of the protocol: survivors keep their partition, newcomers get an empty one |
| Rebalance.PlanClaims | core/pkg/rpc/strategy.go:127-136 | when recovery is needed the claims are those a recovery step reads, without empty partitions but for partition 0 |
| Rebalance.SameDecisions | core/pkg/rpc/transport.go:179-208 | recovery decides the same whether or not it takes partitions it does not read for live |
| Rebalance.LeaderMayRecover | core/pkg/rpc/transport.go:117-148 | in every world that meets the invariant the leader may recover after a plan: the records read are well-formed and partition 0 is not live |
| Rebalance.RebalanceIsStep | core/pkg/rpc/transport.go:117-303 | a plan that needs recovery, and then what `Transport.Leader.Recover` ensures with the partitions known to the plan as live, is a recovery step of the protocol |
| Rebalance.JoiningResets | core/pkg/rpc/strategy.go:63-68 | over any sequence of attempts to plan, a member that was never part of a generation leaves offset0 at 0, also when an earlier attempt gave it a partition |
| Rebalance.SkippingIsSafe | core/pkg/rpc/strategy.go:52-101 | in every run, for any leader and any attempts it made: when its plan finds the offsets clean, with the offset0 its own last recovery left and Plan updated since, the recovery it skips would leave the topic and the store as they are |
| Guarantees.OneAttempt | README.md:94-100 | in every run no request has two unfinished invocations on running nodes, so a retry never overlaps the attempt it replaces |
| Guarantees.FinishedStays | core/pkg/rpc/transport.go:196-209 | a finished request stays finished over any steps |
| Guarantees.NeverRetriedOnceFinished | core/pkg/rpc/transport.go:280-296 | once a Response or Done was written, no later world attempts the request, and while a request record remains so does a reply |
| Guarantees.NothingLost | README.md:94-100 | at all times the latest step of an unfinished request is pending on a running node, in a dead partition, or set aside in partition 0 |
| Guarantees.RetriedWherePossible | core/pkg/rpc/transport.go:236-279 | after a recovery an unfinished request is open on a node, or partition 0 keeps it and no node offers its service |
| Guarantees.AsideIsUnavailable | core/pkg/rpc/send.go:176-178 | what a recovery leaves in partition 0 only is for services nobody offers |
| Guarantees.SecondRecoveryIdle | core/pkg/rpc/transport.go:236-298 | with the same nodes, a second recovery changes nothing in the topic, the placements or the redirects |
| Guarantees.CleanAfterTwo | core/pkg/rpc/transport.go:297-298 | the plan is clean after at most two recoveries in a row |
| Guarantees.CleanForPlan | core/pkg/rpc/strategy.go:79-101 | that notion of clean is the test the plan makes on the offsets, and the mark is the one it sets |
| Guarantees.RetryAfterCallee | core/pkg/rpc/requests.go:175-193 | while a retry that names a callee executes, the callee is finished and runs nowhere |
| Guarantees.CalleeReplyReachesRetry | core/pkg/rpc/send.go:123-133 | whatever answers a callee whose caller died (return, expiry, timeout), the reply is appended to the partition of the node that holds the waiting retry, behind it |
| Guarantees.NoLostWakeup | core/pkg/rpc/requests.go:152-164 | a waiting retry whose callee's reply was not dropped has a pending callee, or the reply is still ahead of it in its partition |
| Guarantees.OnlyLastStepRetried | README.md:105-111 | a retry carries the payload of the latest record read, restarts a retained-lock run at its first number without the lock, and no later number is left in the topic |
| Guarantees.RetryKeepsActor | core/pkg/rpc/transport.go:247-269 | in every run the record recovery writes for a request names the actor and the flow of every step of the retained-lock run it restarts |
| Guarantees.ConfirmationsEcho | core/pkg/rpc/transport.go:280-292 | in every run a reply that recovery writes is a Done in partition 0 with the id and deadline of a reply it deletes, for a request that survives without one in partition 0 |
| Guarantees.RepliesTo | core/pkg/rpc/send.go:123-146 | the Done of a tell goes to partition 0, a Response to its caller, else to the node its redirect names, and then the redirect goes; without one it is dropped |
| Guarantees.CallerGetsReply | core/pkg/rpc/send.go:123-146 | in every run, when a blocking call is answered and the node it was made from runs, the response lands where the calling request executes, and nowhere else |
| ReplyLimits.RedirectedIff | core/pkg/rpc/send.go:176-183 | while a callee is unfinished its reply is redirected if and only if some recovery handed a retry that waits for it to a node |
| ReplyLimits.ReplyDeliveredIff | core/pkg/rpc/send.go:123-133 | the reply of a callee that a retry names is written if and only if it is redirected, that is, if and only if such a retry was handed to a node; else it is dropped |
| ReplyLimits.DroppedOnlyIfAside | core/pkg/rpc/send.go:123-133 | a reply is dropped only while every retry that names the callee is in partition 0 |
| Reattempts.RunKept | README.md:94-100 | in every run a request without a reply in the topic has a record in it, returned or not |
| Reattempts.CanBeAttempted | README.md:94-100 | from every reachable world a request without a reply can be attempted, at most a crash and a recovery away |
| Reattempts.AttemptableIff | README.md:94-100 | a request that was sent can still be attempted if and only if its reply is not in the topic |
| Reattempts.ReturnedAgainIff | core/pkg/rpc/send.go:123-133 | an invocation that has just returned, failed, expired or timed out can be attempted again if and only if its reply had nowhere to go |
| Homes.RequestsAtHome | core/pkg/rpc/send.go:46-90 | when survivors keep their services and generations are compatible, every request outside partition 0 is on a node that offers its service |
| Homes.RetriedWhereOffered | core/pkg/rpc/transport.go:236-279 | then after a recovery an unfinished request is open on a node that offers its service, or nobody does and partition 0 keeps it |
| Homes.Misrouted | core/pkg/rpc/send.go:56-90 | for any tables that are not compatible, a run in which a request reaches a node that does not offer its service |
| Homes.HomeIff | core/pkg/rpc/send.go:56-90 | in all runs of one generation requests reach nodes that offer their service, if and only if a node that offers one of two services whose keys can meet offers the other whenever anybody does |
| RetryLimits.PayloadSurvivesIff | core/pkg/rpc/send.go:176-178 | over a recovery the latest payload of an unfinished request is kept if and only if a live node holds the request, some node offers its service, partition 0 does not hold its latest step, or partition 0 holds it with that payload |
| RetryLimits.WaitsForAllIff | core/pkg/rpc/transport.go:246-251 | a retry waits for every unanswered blocking call its request ever made if and only if there is at most one and a record of it still names the request as parent |
| RetryRuns.WaitsForDroppedReply | core/pkg/rpc/send.go:125-130 | a run that ends with a retry waiting for a callee that is not pending and whose reply is nowhere |
| RetryRuns.ReturnedIsAttemptedAgain | core/pkg/rpc/transport.go:236-272 | that run goes on to a second attempt of the callee, which had returned |
| RetryRuns.RedirectOutlivesNode | core/pkg/rpc/send.go:125-133 | a run in which a reply is delivered through a redirect to a dead node while every record of the waiting retry is in partition 0 |
| RetryRuns.RetryRunsBesideFirst | core/pkg/rpc/transport.go:246-251 | a run in which a retry runs beside the first of two callees of the execution before |
| RetryRuns.RetryRunsBesideCallee | core/pkg/rpc/requests.go:477-483 | a run in which a retry runs beside a callee that made a tail call |
| RetryRuns.NewerPayloadLost | core/pkg/rpc/transport.go:270-272 | a run in which recovery keeps an older payload and deletes the latest one |
| SessionSteps.CarriersHaveNoDeadline | core/pkg/rpc/requests.go:470-472 | a request in flight that will reclaim a parked lock has no deadline, so it cannot be dropped; in regular runs every parked lock has one |
| SessionSteps.ParkedForOwner | core/pkg/rpc/requests.go:321-329 | the request that carries a parked lock finds the same instance, in regular runs still owned by its flow |
| SessionSteps.ScheduleKeeps | core/pkg/rpc/requests.go:293-347 | accepting a request keeps the lock invariant in all branches; where the request goes is stated by `SessionGuarantees.BypassIff` and `SessionGuarantees.OpensInstance` |
| SessionSteps.RetireKeeps | core/pkg/rpc/requests.go:108-123 | the end of a collector's turn keeps the lock invariant, whether it retires the instance or gives up |
| SessionSteps.DeferKeeps | core/pkg/rpc/requests.go:463-472 | parking the lock for a tail call keeps the lock invariant |
| SessionSteps.StepKeeps | core/pkg/rpc/requests.go:72-497 | every step of every goroutine keeps the lock invariant |
| SessionSteps.RunInv | core/pkg/rpc/requests.go:72-497 | every reachable state satisfies the lock invariant |
| SessionGuarantees.OneBatonAlways | core/pkg/rpc/requests.go:293-497 | each instance always has exactly one baton, in one channel, with one goroutine, or parked; it is retired exactly when the instance is invalid |
| SessionGuarantees.AtMostOneOwner | core/pkg/rpc/requests.go:350-497 | at most one goroutine runs as owner of an instance |
| SessionGuarantees.FlowViolationIff | core/pkg/rpc/requests.go:350-497 | a flow violation is reported if and only if it is the turn of a retry that must wait for its child and found an instance |
| SessionGuarantees.ServedInOrder | core/pkg/rpc/requests.go:337-345 | once a queued request has had its turn, every request queued before it on that instance has ended |
| SessionGuarantees.BypassIff | core/pkg/rpc/requests.go:321-345 | in every run a request for an actor with an instance runs on it beside the owner, without waiting, if and only if its flow owns the instance or it is nonexclusive; otherwise it queues behind everybody |
| SessionGuarantees.ReentrantRunsAtOnce | core/pkg/rpc/requests.go:321-334 | a call that comes back to an actor while a request of its flow runs there as the owner does not wait |
| SessionGuarantees.OpensInstance | core/pkg/rpc/requests.go:304-318 | in every run a request for an actor without an instance opens one, is first in its queue unless nonexclusive, and finds the baton there |
| SessionGuarantees.LateNeverRuns | core/pkg/rpc/requests.go:361-380 | a request that timed out in the queue never runs its handler; it only passes the baton on |
| SessionGuarantees.StaysParked | core/pkg/rpc/requests.go:463-483 | a step other than the arrival of the carrying request leaves a parked lock parked and the request in flight, and lets nobody begin on the instance; in regular runs the owner stays |
| SessionGuarantees.TailCallIsAtomic | core/internal/runtime/commands.go:737-742 | from the parking of a lock until the carrying request is accepted, no queued request and no collector begins on that instance |
| SessionGuarantees.ReclaimedIff | core/pkg/rpc/requests.go:321-334 | the carrying request finds the same instance and becomes its owner, with the parked channel, if and only if its flow is still the active one, as it is in regular runs; then the lock is gone |
| SessionGuarantees.DeferParksIff | core/pkg/rpc/requests.go:463-491 | a tail call to the own actor parks the baton if and only if the caller has it, for a request of the same flow and actor, without a deadline then |
| SessionGuarantees.ReclaimedOnce | core/pkg/rpc/requests.go:324-328 | a lock id that is not parked any more is never parked again |
| SessionGuarantees.OneValidInstance | core/pkg/rpc/requests.go:293-318 | a valid instance is the one in the table, and its key has no other valid instance |
| SessionGuarantees.RetiredIsIdle | core/pkg/rpc/requests.go:108-118 | nobody waits for a retired instance or owns it, so collecting loses no work |
| SessionGuarantees.RetiresIff | core/pkg/rpc/requests.go:108-123 | a collector whose turn is over retires the instance if and only if nobody waits for it |
| SessionGuarantees.NeverStuck | core/pkg/rpc/requests.go:350-497 | while someone waits, the head of the queue can take the baton, an owner holds it, or it is parked, in regular runs for a request in flight |
| SessionRetries.OpenerOwns | core/pkg/rpc/requests.go:304-318 | a retry with a pending child that opened its instance owns it until the child has answered |
| SessionRetries.ChildBypassesIff | core/pkg/rpc/requests.go:321-345 | a request of the flow of a waiting retry, such as its child, runs beside it if and only if the retry opened the instance; otherwise it queues behind |
| SessionRetries.BehindItsParent | core/pkg/rpc/requests.go:350-405 | in every run a request queued behind a waiting retry does not begin before the retry has ended |
| SessionRetries.RetryOwnsIff | core/pkg/rpc/requests.go:321-412 | when its child has answered, a retry owns its actor if and only if it queued |
| SessionRetries.ParentAndChildStuck | core/pkg/rpc/requests.go:321-405 | a run in which a retry waits for its child and the child waits in the queue behind it |
| SessionRetries.RetryRunsBesideStranger | core/pkg/rpc/requests.go:321-412 | a run in which a retry whose flow owned the actor on arrival later runs beside the owner of another flow |
| Strategy.MergeAt | core/pkg/rpc/strategy.go:63-65 | a live node's known partition is the one in its metadata, else the one remembered |
| Strategy.ByNodeAt | core/pkg/rpc/strategy.go:58 | a node stands for the member that announced it |
| Strategy.Planner.Register | core/pkg/rpc/strategy.go:52-69 | the loop over members computes the member of each node, who offers what, the known partitions, and resets offset0 if neither metadata nor memory names a partition for some node |
| Strategy.Planner.Prune | core/pkg/rpc/strategy.go:71-77 | dead nodes are forgotten and the partitions of live ones collected, for every iteration order |
| Strategy.Planner.Inspect | core/pkg/rpc/strategy.go:79-101 | clean is false exactly when a partition no live node owns holds records, or partition 0 has grown beyond offset0 |
| Strategy.Planner.Deal | core/pkg/rpc/strategy.go:103-125 | for every node order: settled nodes keep their partition, new ones get free ones, no two share one, and partitions are missing exactly when there are fewer free ones than new nodes |
| Strategy.Planner.Plan | core/pkg/rpc/strategy.go:33-149 | the whole plan: the assignment, the claims in the clean and in the recovery case, the number of partitions to grow to, and the reset of offset0 for a node without a partition |
| Strategy.PlanAssigns | core/pkg/rpc/strategy.go:103-125 | with an injective prior assignment, live nodes have pairwise distinct non-zero partitions, settled nodes keep theirs, and a newcomer gets an empty one no live node had |
| Strategy.PlanServes | core/pkg/rpc/strategy.go:138-142 | without recovery the claims give every member exactly the partition of its own node |
| Strategy.PlanRecovers | core/pkg/rpc/strategy.go:129-136 | with recovery they give the member of the leader exactly partition 0 and the non-empty partitions |
| Strategy.JoiningRecovers | core/pkg/rpc/strategy.go:66-101 | when a node without a partition shows up and partition 0 is not empty, a plan that assigns recovers |
| Strategy.PlanCovers | core/pkg/rpc/strategy.go:127-146 | every non-empty partition is claimed, by the member of the leader in recovery or by the member whose node owns it |
| Strategy.PlanExclusive | core/pkg/rpc/strategy.go:127-146 | no partition is claimed twice |
| Strategy.RecoveryClaimsMeaning | core/pkg/rpc/strategy.go:130-136 | in recovery the leader claims partition 0 and exactly the non-empty partitions, in increasing order |
| Strategy.GrowthSuffices | core/pkg/rpc/strategy.go:111-123 | after the topic has grown by the missing partitions, the next plan with the same members succeeds |
| Placement.RunInv | core/pkg/rpc/send.go:56-90 | every reachable state has caches that agree with the store and name live nodes |
| Placement.LivePlacementStays | core/pkg/store/store.go:408-417 | within a generation a placement on a live node is never overwritten |
| Placement.PlacedWhereOffered | core/pkg/rpc/send.go:71-88 | a placement changes only from none or a dead node to a node that can host the actor, and only by a search for that actor |
| Placement.LearntIsStored | core/pkg/rpc/send.go:63-85 | what a cache or a search says about an actor is the stored placement, and a live node |
| Placement.GenerationAgrees | core/pkg/rpc/send.go:56-90 | all nodes of a generation agree on the placement of an actor, whenever they learn it |
| Placement.TwoRounds | core/pkg/rpc/send.go:71-88 | the compare-and-swap loop ends within two rounds under any interference |
| Bank.AwaitedInSync | examples/actors-transactions/bank_application/account_server.js:64-93 | reloading after prepare and purge changes nothing |
| Bank.CommitInSyncIff | examples/actors-transactions/bank_application/account_server.js:95-102 | after a commit memory and store differ until its write lands, a reload before that forgets the commit, and after it they agree if and only if the balance is not zero |
| Bank.PrepareCatchesUpIff | examples/actors-transactions/bank_application/account_server.js:86-93 | a prepare keeps memory equal to what the landed writes will give if and only if nothing is pending or it reserves nothing |
| Bank.CommitCatchesUpIff | examples/actors-transactions/txn_framework/txn_participant.js:171-232 | a commit keeps it if and only if it issues a write with a balance other than zero, changes nothing, or records an unprepared transaction while nothing is pending |
| Bank.PurgeCatchesUpIff | examples/actors-transactions/txn_framework/txn_participant.js:234-238 | a purge keeps it if and only if nothing is pending or there is no commit to forget |
| Bank.LandCatchesUpIff | examples/actors-transactions/txn_framework/txn_participant.js:225-232 | the arrival of a write keeps it unless the last of several writes overtakes one that says something else |
| Bank.ReloadCatchesUpIff | examples/actors-transactions/bank_application/account_server.js:64-71 | a reload keeps it if and only if the saved state is already that in memory |
| Bank.AccountActor.Activate | examples/actors-transactions/bank_application/account_server.js:64-71 | the state loaded from what was saved, with the defaults |
| Bank.AccountActor.Prepare | examples/actors-transactions/bank_application/account_server.js:86-93 | the reservation and its record, the vote, and the bare answer to a repeated prepare |
| Bank.AccountActor.IsTxnUncommitted | examples/actors-transactions/txn_framework/txn_participant.js:179-194 | whether there is something to commit; an unprepared transaction is recorded as refused |
| Bank.AccountActor.Commit | examples/actors-transactions/bank_application/account_server.js:95-102 | the balance, the released reservation and the record; no effect the second time |
| Bank.AccountActor.Land | examples/actors-transactions/txn_framework/txn_participant.js:225-232 | a write that nobody waits for reaches the store, possibly after later ones |
| Bank.AccountActor.PurgeTxnRecord | examples/actors-transactions/txn_framework/txn_participant.js:234-238 | both records of the transaction are dropped |
| BankSteps.StepKeeps | examples/actors-transactions/bank_application/account_server.js:28-103 | every step of coordinators and accounts, including crashes and late or repeated messages, keeps the books and the decisions consistent |
| BankGuarantees.ReservationsAreExact | examples/actors-transactions/bank_application/account_server.js:86-102 | debits and credits equal the sums over prepared, uncommitted transactions, and the balance less the debits stays positive |
| BankWrites.OrderIff | examples/actors-transactions/bank_application/account_server.js:64-102 | at every step of an account whose writes are in order, the account still catches up if and only if the step is in order: the condition is on the state before the step |
| BankWrites.ReloadIsHarmlessIff | examples/actors-transactions/bank_application/account_server.js:64-71 | in every run with writes in order, reloading an account with nothing pending gives the state it has; with a write pending it does not, unless a purge found one pending |
| BankWrites.OrderIsNeeded | examples/actors-transactions/bank_application/account_server.js:64-102 | every run whose last step is out of order goes on, by the arrival of pending writes alone, to a state with nothing pending in which a reload changes the account |
| BankWrites.PromptIsOrderly | examples/actors-transactions/bank_application/account_server.js:64-102 | when the write of a commit lands before the account does anything else, writes are in order and at most one is pending |
| BankWrites.PromptIsSafe | examples/actors-transactions/bank_application/account_server.js:64-102 | and then no reload finds the saved state behind |
| BankGuarantees.DuplicateCommitIsHarmless | examples/actors-transactions/txn_framework/txn_participant.js:179-194 | a commit executed again, even after a purge, moves no money and no reservation |
| BankGuarantees.OneDecision | examples/actors-transactions/bank_application/account_server.js:28-60 | participants disagree only if both decisions were told, and both are told only after an execution threw and a later one saved yes |
| BankGuarantees.CompleteMeansApplied | examples/actors-transactions/txn_framework/transaction.js:43-63 | when a transfer is complete every participant has applied a decision |
| BankGuarantees.TotalIsConserved | examples/actors-transactions/bank_application/account_server.js:95-102 | transfers that sum to zero leave the total of all balances unchanged whenever each is complete with one decision told, or not applied anywhere |
| BankLimits.DecidesYesIff | examples/actors-transactions/bank_application/account_server.js:28-42 | an execution of startTxn decides yes if and only if every account it asked had no record of the transfer when asked and could afford its part |
| BankLimits.RepeatedIsRefused | examples/actors-transactions/bank_application/account_server.js:28-42 | a run in which a transfer is executed again and refused, with no decision saved, although every account can afford it |
| BankLimits.HastyReloadLosesMoney | examples/actors-transactions/bank_application/account_server.js:95-102 | a run in which a reload before the write of a commit lands leaves a complete, balanced transfer with another total |
| BankLimits.LateWriteLosesReservation | examples/actors-transactions/bank_application/account_server.js:86-102 | a run in which the write of a commit lands after a newer prepare: nothing is pending, and a reload loses the reservation |
| BankLimits.OvertakingLosesCommit | examples/actors-transactions/txn_framework/txn_participant.js:225-232 | a run in which a write overtakes a newer one: nothing is pending, and a reload forgets the later commit and its money |
| BankSplits.FailureCanSplit | examples/actors-transactions/bank_application/account_server.js:50-58 | a run in which startTxn throws, is executed again, and two participants apply different decisions |
| BankSplits.DivergesIff | examples/actors-transactions/bank_application/account_server.js:50-60 | two participants that have not applied a transfer can come to disagree by two commits if and only if both decisions were told |
| BankSplits.BothToldIff | examples/actors-transactions/bank_application/account_server.js:44-60 | right after an execution threw, the transfer by its own steps can still tell both decisions if and only if it is not complete and its yes was saved, or nothing was and every participant would vote yes |
| BankSplits.RecordRulesOutYes | examples/actors-transactions/bank_application/account_server.js:28-42 | in every run, once a participant has a record that the current execution did not read as a yes and no yes was decided, no later step decides yes |
| FieldLocks.TransactionParticipant.CheckForConflict | examples/actors-transactions/txn_framework/txn_participant.js:98-142 | the vote is no exactly when some field is locked against the access; only a yes takes locks; a missing field changes nothing |
| FieldLocks.TransactionParticipant.Prepare | examples/actors-transactions/txn_framework/txn_participant.js:77-85 | the locks, the record and the values read, or the refusal |
| FieldLocks.TransactionParticipant.ApplyUpdate | examples/actors-transactions/txn_framework/txn_participant.js:200-209 | in any order of the update, every updated field has the value of the update, others keep theirs, and locks stay |
| FieldLocks.TransactionParticipant.Release | examples/actors-transactions/txn_framework/txn_participant.js:210-223 | every lock of the transaction is released, in any order |
| FieldLocks.TransactionParticipant.Commit | examples/actors-transactions/txn_framework/txn_participant.js:171-232 | the fields, locks and records after commit, in all its branches; a value changes exactly for the updated fields of a first commit with decision yes |
| FieldIsolation.StepKeeps | examples/actors-transactions/txn_framework/txn_participant.js:77-238 | every prepare, commit, repeat and purge keeps writers apart from readers and locks with active transactions |
| FieldIsolation.HoldersAreExclusive | examples/actors-transactions/txn_framework/txn_participant.js:98-119 | a written field has one writer and no reader, and the writer voted yes and has not committed |
| FieldIsolation.ReadersAreActive | examples/actors-transactions/txn_framework/txn_participant.js:121-142 | every reader of a field voted yes and has not committed |
| FieldIsolation.LockedFieldIsStable | examples/actors-transactions/txn_framework/txn_participant.js:77-232 | from prepare until its holder commits, a lock stays and the value of the field does not change |
| FieldIsolation.VotesYesIff | examples/actors-transactions/txn_framework/txn_participant.js:77-142 | over runs, the answer of prepare: refused if and only if somebody holds one of the fields against it, thrown if and only if one is missing; and the record it leaves |
| FieldIsolation.CommitInstalls | examples/actors-transactions/txn_framework/txn_participant.js:171-232 | over runs, a commit with decision yes that takes effect installs exactly the update; a refusal or a repetition changes no value; and the records it leaves |
| FieldIsolation.ReadThenWritten | examples/actors-transactions/txn_framework/txn_participant.js:77-232 | over runs, a field locked for writing has the value its holder read until the commit, and then the value its holder committed |
| FieldIsolation.CommitReleasesAll | examples/actors-transactions/txn_framework/txn_participant.js:210-223 | after a commit of either decision the transaction holds no lock |
| Philosophers.Fork.TryPickUp | examples/actors-dp-js/philosophers.js:28-39 | the fork is taken if it is free or already held by the caller, and the answer says whether the caller holds it |
| Philosophers.Fork.Release | examples/actors-dp-js/philosophers.js:41-46 | only the holder frees the fork |
| Philosophers.Serve | examples/actors-dp-js/philosophers.js:133-144 | everybody is invited once, between the two forks beside them, and reaches for the lower one first |
| PhilosopherGuarantees.StepKeeps | examples/actors-dp-js/philosophers.js:58-105 | every step, including the re-execution of any method, keeps forks with those who may hold them and servings exact |
| PhilosopherGuarantees.SomeoneCan | examples/actors-dp-js/philosophers.js:69-91 | whoever is stuck leads, over forks of increasing index, to someone who can go on |
| PhilosopherGuarantees.NoDeadlock | examples/actors-dp-js/philosophers.js:69-105 | in every run, while someone is unfinished, someone can do something other than fail to pick up a fork |
| PhilosopherGuarantees.ProgressIsReal | examples/actors-dp-js/philosophers.js:58-105 | that someone has a productive step, at most one return away |
| PhilosopherGuarantees.ExactServings | examples/actors-dp-js/philosophers.js:93-105 | whoever is away after a visit has eaten exactly the servings ordered, and at the end everybody has eaten them once for each visit |
| PhilosopherGuarantees.NeighboursExclude | examples/actors-dp-js/philosophers.js:81-91 | two philosophers who have both forks share none |
| PhilosopherGuarantees.BoundedWork | examples/actors-dp-js/philosophers.js:58-105 | without crashes a run has at most n times (8 servings + 4) productive steps |
| PhilosopherLimits.CanFinish | examples/actors-dp-js/philosophers.js:58-105 | from every reachable state of a run some continuation ends with everybody fed |
| PhilosopherLimits.Invited | examples/actors-dp-js/philosophers.js:133-144 | every invitation in a run has been taken up once or still waits |
| PhilosopherLimits.MealsPerInvitation | examples/actors-dp-js/philosophers.js:93-105 | at the end everybody has eaten the servings ordered once for each invitation in the run |
| PhilosopherLimits.ServedOnceIff | examples/actors-dp-js/philosophers.js:93-144 | at the end a philosopher has eaten exactly the servings ordered if and only if the run invited them once, if and only if serve was not executed again after it had invited them |
| PhilosopherLimits.EatsTooMuch | examples/actors-dp-js/philosophers.js:133-144 | for every table there is a run in which serve is executed again and somebody eats more than was ordered |
| Reminders.Queue.Up | core/internal/runtime/reminder_queue.go:34-52 | sifting up restores heap order and indices and keeps the contents |
| Reminders.Queue.Down | core/internal/runtime/reminder_queue.go:34-61 | sifting down restores heap order and indices and keeps the contents |
| Reminders.Queue.Pop | core/internal/runtime/reminder_queue.go:54-61 | the root leaves and the rest is a heap of the remaining contents |
| Reminders.Queue.Add | core/internal/runtime/reminder_queue.go:63-67 | one more active reminder; order, indices and gauges stay right |
| Reminders.Queue.Cancel | core/internal/runtime/reminder_queue.go:69-80 | exactly the active reminders of that actor and id become cancelled and are returned; gauges stay right |
| Reminders.Queue.Find | core/internal/runtime/reminder_queue.go:82-90 | exactly the active reminders of that actor and id |
| Reminders.Queue.NextReminderBefore | core/internal/runtime/reminder_queue.go:92-103 | the earliest active reminder due, or none is due; active reminders are not lost; gauges stay right |
| Reminders.Queue.ProcessReminders | core/internal/runtime/reminders.go:172-202 | a round ends, fires due reminders in nondecreasing target time, each exactly once if no send fails, leaves none due then, loses nothing when a send fails, keeps one reminder per actor and id, and keeps every active reminder stored as it is |
| Reminders.Queue.PutBinding | core/internal/runtime/bindings.go:139-166 | the new reminder replaces the matching ones, in memory and in the store; one per actor and id stays, and active reminders stay stored as they are |
| Reminders.Queue.LoadBinding | core/internal/runtime/bindings.go:87-113 | a stored reminder is added exactly when no matching one is active; one per actor and id stays |
| Reminders.Queue.DeleteBindings | core/internal/runtime/bindings.go:116-126 | the matching reminders go, in memory and in the store; active reminders stay stored as they are |
| Reminders.MatchingMeaning | core/internal/runtime/reminder_queue.go:69-90 | the reminders collected are the active ones with that actor and id, with their multiplicity |
| Reminders.RenewedMeaning | core/internal/runtime/reminders.go:192-195 | after a round each periodic reminder that fired is active again once, one period after the round, and nothing else was added |
| Reminders.PersistedMeaning | core/internal/runtime/reminders.go:192-198 | after a round the store holds a fired reminder with its next target, or nothing if it is not periodic |
| Reminders.PersistedElsewhere | core/internal/runtime/reminders.go:192-198 | and under the key of a reminder that did not fire what it held before |
| Reminders.RootIsLeast | core/internal/runtime/reminder_queue.go:36-39 | the root of the heap has the earliest target time |
| DeadlockSearch.MakeGraph | core/cmd/kar-debugger/kar-debugger.go:1372-1426 | every edge shows a pending call, from the actor that handles its parent and with its own flow, or a root request; and each of these has an edge |
| DeadlockSearch.Search.Close | core/cmd/kar-debugger/kar-debugger.go:1429-1447 | at a visited actor the answer depends on the flow of the edge that first led there |
| DeadlockSearch.Search.Check | core/cmd/kar-debugger/kar-debugger.go:1428-1467 | for every edge order the search ends, restores all visit marks, and reports if and only if the path extends to a simple path that closes on an earlier actor in another flow |
| DeadlockSearch.AtVisited | core/cmd/kar-debugger/kar-debugger.go:1429-1447 | at a visited actor only the path itself can be a deadlock, and the place where it closes is unique |
| DeadlockSearch.AtNew | core/cmd/kar-debugger/kar-debugger.go:1459-1466 | at a new actor every deadlock goes on along one of its edges |
| DeadlockSearch.WalkIsChain | core/cmd/kar-debugger/kar-debugger.go:1428-1467 | a deadlock of the graph is a chain of pending calls that waits for itself |
| DeadlockSearch.ChainIsDeadlock | core/cmd/kar-debugger/kar-debugger.go:1428-1467 | a chain of pending calls that waits for itself is a deadlock of the graph |
| DeadlockSearch.OneFlowIsFree | core/cmd/kar-debugger/kar-debugger.go:1435-1441 | when all pending calls have one flow, none waits for another, so nothing is reported |
| DeadlockSearch.StartsAtRoot | core/cmd/kar-debugger/kar-debugger.go:1383-1400 | when every pending call has a parent that some actor handles, a reported chain starts at a handled root request |
| DeadlockSearch.CheckDeadlock | core/cmd/kar-debugger/kar-debugger.go:1469-1473 | a report is made if and only if there is a chain, from a root request or a call nobody is known to have made, of pending calls each made by the actor reached last, without repetition, whose last call goes back to an actor in another flow; the report shows the end of such a chain with its requests, flows and values |

## Left out

- Kafka, Redis, sarama, HTTP routes, configuration, command line, launcher and SDKs: foreign calls; the topic is a map of sequences and the store an atomic map.
- Context cancellation, call cancellation, interrupted recovery, actor deletion: outside the regime in which the guarantees are meant.
- Requests to a node rather than to a service or actor: recovery answers calls with an error and forgets tells, so `Protocol` excludes them; `Transport.Leader.ResendRequest` still models that branch of resend.
- Log compaction and retention: a chain whose first record is gone is outside the protocol's assumptions.
- The session lock is modelled on values, as atomic steps of goroutines, not as a class: channels are cells of a sequence, so sharing one channel between a goroutine and the deferred-lock table is an index, not an alias.
- Activation state and the deactivation callback of instances: they do not touch the baton.
- The iteration of sendCommitAsync that calls itself after an error: it only repeats commits, which `BankProtocol` allows at any time.
- FieldLocks.TransactionParticipant.Commit: field values are integers, and what is saved is what is in memory.
- The TPC-C actors on top of the generic participant: the same lock rules with more data.
- Philosophers: emptying the table (busTable) and the names of forks and philosophers; a philosopher is a number.
- Reminders: a reminder that is due again is stored whole, where the code rewrites its target time only.
- Reminders: parsing of payloads and times, the warning about late firing, and the key search of putBinding; a binding comes with its key.
- The other commands of the debugger, its parser and its breakpoints.
