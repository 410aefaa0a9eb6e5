# Run-once protocol: model and proofs

Stagers desire one-off tasks, executors claim, start and complete them, any stager resolves a
completed one, publishes its reply and deletes it, and converge passes run by executors repair
what got stuck. None of them talk to each other: they share one etcd store, in which the whole
serialised value of a task is compared and swapped, and they kick each other with messages that
carry a copy of the value. The calls that claim, start, complete and resolve never look at the
state of what they are given. Everything that goes right does so because of what such copies can
contain, and these files prove it: for every run, with any number of executors, stagers,
duplicate kicks, concurrent converge passes, crashes, lost presences and timeouts.

How the files fit together:

- `Models.dfy`, `TaskJson.dfy`: tasks and actions, their JSON trees, and that decoding undoes
  encoding, so comparing stored bytes compares tasks.
- `Lifecycle.dfy`: the field assignments of every operation, converge's decision for one task,
  the state machine they should follow (`Edge`), and laws of every history made of such edges.
- `Protocol.dfy`: the protocol as a transition system whose labels carry all nondeterminism
  (schedule, delivery, clock, timeouts, crashes); a run is a sequence of labels. `Faults` says
  which faults of the environment are possible.
- `Invariants.dfy`, `Preservation.dfy`, `Capacity.dfy`, `Replies.dfy`: the inductive invariants
  and their preservation, one lemma per step.
- `Scenarios.dfy`, `Relapse.dfy`, `Occurrences.dfy`: runs of undisturbed calls, runs that a second
  set of one key makes possible, and a run for every kind of write.
- `Theorems.dfy`: the guarantees. Each that depends on the environment is an if-and-only-if, and
  each that depends on sets is also proved key by key (`OneKey`).
- `Orphans.dfy`, `Answers.dfy`: what becomes of a task that nobody is working on, and when every
  task can still be answered.
- `Requests.dfy`, `AtMostOnce.dfy`: how often the retried store operation of one call is applied,
  and whether the call reports what happened; again with exact conditions.
- `World.dfy`, `Executor.dfy`, `Stager.dfy`, `Converge.dfy`: the imperative code. A `World`
  holds the serialised store and the clock, and, as a ghost, the protocol state it corresponds
  to (`Coupled`). The methods follow the source statement by statement. Every one of them ensures
  that the protocol state it leaves is reached from the one it found by a run of the protocol
  (`Reaches`), so the theorems hold of what the methods do. `Interfere` stands for all other
  processes and goroutines: its contract says what they may do between two statements (a run of
  the protocol without a step of this call's own, `ReachesBeside`), its body does nothing, and
  callers see only the contract.
- `ConvergeSpec.dfy`: what a converge pass does when nobody interferes, as one function per task.
- `Dispatch.dfy`, `Routing.dfy`: the hurler's round-robin and fan-out dispatch and its table.

What the proofs found:

- Run once, a stable outcome, agreeing replies, deletion of finished tasks only, the thirty
  seconds between repetitions, one winner per stored version and value-equals-version hold exactly
  when no key is set twice (`SetOnce`). A key is set twice when a timed-out set was applied and
  `DesireTask` retries it, because the set is unconditional, or when a guid is used again. The
  latter is what the code does with more than one stager process, each of which counts its guids
  from `task-1` (`src/stager/main.go:167-181`). `Relapse.TwoLives` is the run in which one guid
  is started twice and answered with two different outcomes, `Relapse.TwoClaims` one with two
  claims at one instant, `Relapse.PendingDeleted` one in which a Pending task is deleted.
- None of this is global: a key that has been set once so far has all these guarantees, under any
  faults and whatever happens to other keys (`Theorems.OneKey`).
- A retried set is made a second later and stamped again, so it never stores the value of the
  first. Values can repeat all the same: a claim forgets the stamp of the set, and two claims, one
  before the second set and one after it, are equal if they are stamped at one reading of the
  clock. The runs behind `CompareMeansVersion`, `OneWinnerPerVersion`, `SwapsAppliedOnce` and
  `ResolvesAppliedOnce` rest, for a reused guid as well as for a retried set, on a clock that may
  stand still that long; the other theorems would lose nothing if it never did.
- No orphaned work and the global memory bound hold exactly when compare-and-swap tells the
  truth (`TruthfulCas`). A claim that was applied but reported as timed out is retried, finds
  its own value and gives up (`Theorems.LostAckOrphans`); a start that fails for another reason
  leaves the claimed task behind with its memory released (`Theorems.FailureOrphans`).
- A Claimed orphan is demoted by a pass after thirty seconds. A Running one, whose start was
  applied and reported as an error, is left alone by every pass as long as its executor is there:
  unless its key is set again it keeps its value, is never answered, and counts against its
  executor (`Orphans.AbandonedForever`). Without Running orphans every stored task can still be
  answered, with no crash and no lost presence; so that is possible from every state exactly
  when compare-and-swap tells the truth (`Answers.EveryTaskAnswerable`).
- A retried compare-and-swap is applied at most once exactly when no key is set twice or no
  acknowledgement is lost: only a second set can bring the old value back. It follows that a call
  that succeeds was applied exactly once (`AtMostOnce.SuccessAppliedOnce`), and that what such a
  call reports is what happened exactly when compare-and-swap tells the truth.
- The calls that claim and resolve do not look at the state they are given, so a request that is
  no kick is a claim or a resolve all the same. On a stored value that is a step of the state
  machine exactly if the value is Pending, or Completed (`Lifecycle.ClaimIsEdge`,
  `Lifecycle.ResolveIsEdge`): a request that carries, say, a stored Running task takes the task
  away from its executor. Every kick any party sends is safe (`Theorems.LegalLifecycle`), and
  so is whatever else says Pending, or Completed.
- Whatever goes wrong, a reply never invents an outcome: it carries what an executor reported when it
  completed the task, or the failure and the reason of one of the two repairs that give a task up
  (`Theorems.RepliesExplained`).
- "Executor disappeared" is only said of executors that are gone exactly when executors take no
  kick before their presence is there (`latePresence`). The code starts to serve before it waits
  for that (`src/executor/main.go:159-177`); `Theorems.LateRun` is the run in which an executor
  that is there loses its task.
- An overdue Pending task is normally failed by the next pass, but a pass that demotes a
  long-claimed task leaves it Pending and overdue; so it takes two passes to settle
  (`ConvergeSpec.SecondPass`, `ConvergeSpec.TwoPassesStabilise`). The list in the comment above
  `ConvergeTasks` does not mention this.
- Legal histories, conservation of transitions and memory accounting need no assumption about
  faults, and no theorem needs the converge lock.

Assumptions, all visible in `Protocol.Enabled`: one global non-decreasing clock; `MemoryMB` is not
negative; a stager submits with no executor or container set and with a creation time that is
zero or past; an executor's id is not empty and fresh, and its presence, once lost, does not return
(`src/executor/main.go:103-108`, `src/executor/main.go:186-228`). A run of consecutive timeouts of
one call is finite (`World.timeouts`). What else can go wrong is a parameter, `Faults`.

## Model

| member | source | states |
|---|---|---|
| Theorems.RunOnce | src/runtime-schema/bbs/executor_bbs.go:51-68 | In every run StartTask succeeds at most once per guid, whatever is duplicated, demoted or converged, if and only if no guid can be set twice |
| Theorems.OutcomeIsStable | src/runtime-schema/bbs/executor_bbs.go:225-242 | Over every run from every reachable state a finished task keeps Failed, FailureReason and Result and stays within Completed and Resolving until it is deleted, and what is deleted does not come back, if and only if no guid can be set twice |
| Theorems.PublishedRepliesAgree | src/stager/handler.go:42-66 | All replies ever published for a guid carry the same outcome, if and only if no guid can be set twice |
| Theorems.RepliesExplained | src/stager/handler.go:42-66 | Under any faults, every published reply carries the failure flag, reason and result of an earlier write of its guid: of an executor that completed a Running task, or of a converge pass, and then the flag is set and the reason is the one of that repair, word for word |
| Theorems.PassesSayWhy | src/runtime-schema/bbs/executor_bbs.go:225-230 | In every run every write that fails a task for not being claimed, or for its executor being gone, stores it as Completed, with the failure flag and with that reason, word for word |
| Theorems.OneKey | src/runtime-schema/bbs/executor_bbs.go:225-242 | Under any faults, and whatever happens to other keys, a key that has been set once is started at most once, keeps its outcome over every run that does not set it again, gets agreeing replies, is deleted only when finished, has paid thirty seconds for every repetition, and never holds a value twice or replaces one twice |
| Relapse.TwoLives | src/runtime-schema/bbs/stager_bbs.go:20-43 | With a reused guid, or with an applied set that is retried a second later: a run in which a finished task becomes Pending, is started again, and is answered twice with different outcomes |
| Relapse.TwoClaims | src/runtime-schema/bbs/stager_bbs.go:20-43 | With either, a run in which the claims before and after the second set are made at one reading of the clock: they store the same value, which is then replaced a second time |
| Relapse.PendingDeleted | src/runtime-schema/bbs/stager_bbs.go:65-69 | With either, a run in which the unconditional delete of a resolved task removes the Pending one of the second set |
| Theorems.DeletesOnlyFinished | src/runtime-schema/bbs/stager_bbs.go:65-69 | In every run only finished tasks are deleted, if and only if no guid can be set twice |
| Theorems.NoOrphanedWork | src/executor/handler.go:60-125 | Every stored Claimed or Running task of a running executor has a goroutine there whose next compare value is that very value, if and only if compare-and-swap loses no acknowledgement and has no other failure |
| Theorems.GlobalCapacity | src/executor/handler.go:45-80 | In every run the tasks stored as Claimed or Running under a running executor sum to at most its maximum memory, if and only if compare-and-swap is truthful |
| Theorems.LostAckOrphans | src/runtime-schema/bbs/executor_bbs.go:29-46 | From any state with a deliverable claim, an applied claim reported as timed out ends with the task claimed, its memory free and nobody working on it |
| Theorems.FailureOrphans | src/executor/handler.go:79-103 | From any such state, a failed start ends the same way |
| Orphans.AbandonedForever | src/runtime-schema/bbs/executor_bbs.go:171-177 | Over every run in which its executor, which took no kick before its presence, stays present and its key is not set again, a Running task without a goroutine keeps exactly its value, still has no goroutine, and has no reply published |
| Orphans.AbandonedUnanswerable | src/runtime-schema/bbs/executor_bbs.go:51-68 | Where compare-and-swap is not truthful, a state is reached with a stored task for which no run without a crash, a lost presence or a set publishes a reply |
| Answers.EveryTaskAnswerable | src/runtime-schema/bbs/executor_bbs.go:110-192 | From every reachable state every stored task has a run to its reply in which no process ends, no running executor loses its presence, no key is set and only kicks that were sent are delivered, if and only if compare-and-swap is truthful |
| Answers.Repair | src/runtime-schema/bbs/executor_bbs.go:152-187 | From any state, whatever else is stored, a converge pass can go through and apply the swap it decides on for a given task |
| Answers.Advance | src/executor/handler.go:79-125 | The goroutine of a stored task can get the task started, and from there completed, whatever it has asked for so far |
| Theorems.MemoryConserved | src/executor/handler.go:127-144 | At every running executor of every run: free memory plus outstanding reservations is the maximum, free memory is between 0 and the maximum, and it is the maximum when nothing is in flight |
| Theorems.SoundFailureDetection | src/runtime-schema/bbs/executor_bbs.go:111-177 | Over every run, for every interleaving with the two listings, a task is failed for a disappeared executor only if that executor has been present, is not any more and never will be, if and only if executors take no kick before their presence is there |
| Theorems.LateRun | src/executor/main.go:159-177 | Otherwise: an executor claims, is missed by a listing, gets its presence, and its task is failed although it is there |
| Theorems.LegalLifecycle | src/runtime-schema/bbs/executor_bbs.go:29-100 | Every write ever applied follows an edge of the state machine; stored tasks are well-formed and under their guid; kicks to executors carry once-stored Pending tasks, kicks to stagers once-stored Completed ones |
| Theorems.TransitionsConserved | src/runtime-schema/bbs/executor_bbs.go:225-242 | Per guid over every run: claims at most sets plus demotions to Pending, starts at most claims and at most sets, publishes at most resolves, resolves at most sets plus demotions to Completed |
| Theorems.RepetitionBound | src/runtime-schema/bbs/executor_bbs.go:160-187 | In every run claims and published replies beyond the first of each, together, have cost thirty seconds each since the task was created, if and only if no guid can be set twice |
| Theorems.CompareMeansVersion | src/runtime-schema/bbs/executor_bbs.go:194-223 | No value is ever stored twice under a key, so a swap that matches matches the version it was made for, if and only if no guid can be set twice |
| Theorems.OneWinnerPerVersion | src/runtime-schema/bbs/executor_bbs.go:194-223 | In every run, of all writes made for one stored version, by any passes and calls, at most one is applied, if and only if no guid can be set twice |
| AtMostOnce.SwapsAppliedOnce | src/runtime-schema/bbs/run_once_bbs.go:29-40 | All attempts of one claim, start or completion, a second or more apart, together are applied at most once, whatever happens in between, if and only if no guid can be set twice or no acknowledgement is lost |
| AtMostOnce.ResolvesAppliedOnce | src/runtime-schema/bbs/stager_bbs.go:51-59 | The same for all attempts of one resolve |
| AtMostOnce.SetsAppliedOnce | src/runtime-schema/bbs/stager_bbs.go:21-42 | All attempts of one set, which compares nothing, are applied at most once if and only if no acknowledgement is lost |
| AtMostOnce.SuccessAppliedOnce | src/runtime-schema/bbs/run_once_bbs.go:29-40 | Corollary of the at-most-once theorems: when an attempt is applied, and so when a call succeeds, no earlier attempt of the call was, even where acknowledgements are lost |
| AtMostOnce.SwapsReportTruly | src/runtime-schema/bbs/run_once_bbs.go:29-40 | Corollary: a claim, start or completion that returns no error was applied exactly once and one that returns an error not at all, all attempts counted, if and only if compare-and-swap loses no acknowledgement and has no other failure |
| AtMostOnce.ResolvesReportTruly | src/runtime-schema/bbs/stager_bbs.go:51-59 | The same corollary for a resolve |
| AtMostOnce.OvertakenNotHeld | src/runtime-schema/bbs/executor_bbs.go:37-45 | Where keys are set once, a value that has been replaced by a swap is never stored again |
| Requests.BesideApplies | src/runtime-schema/bbs/run_once_bbs.go:29-40 | A run without a step of the call itself does not apply its request |
| Occurrences.EveryWriteOccurs | src/runtime-schema/bbs/executor_bbs.go:152-187 | Under any faults a set, a deletion and every edge of the state machine, each repair of a converge pass included, is written in some run |
| Theorems.ReachableEverything | src/runtime-schema/bbs/executor_bbs.go:110-192 | Every invariant holds in every reachable state, each under the faults it can bear |
| Lifecycle.DecisionsAreEdges | src/runtime-schema/bbs/executor_bbs.go:152-187 | Every swap the scan schedules, stamped at any later time, follows an edge of the state machine, with the elapsed times that edge demands; an executor is only declared lost when not listed |
| Lifecycle.DecisionTable | src/runtime-schema/bbs/executor_bbs.go:152-242 | Exactly when a pass kicks a listed task to the executors or to the stagers, and exactly when it replaces it for each of the four repairs, with every field of the replacement: state, failure flag, reason, executor and container |
| Lifecycle.ClaimIsEdge | src/runtime-schema/bbs/executor_bbs.go:29-46 | The claim of a value, which does not look at its state, follows the state machine if and only if the value is Pending |
| Lifecycle.ResolveIsEdge | src/runtime-schema/bbs/stager_bbs.go:45-60 | And its resolve if and only if it is Completed |
| Lifecycle.Conservation | src/runtime-schema/bbs/executor_bbs.go:29-100 | In every legal history claims are bounded by sets and demotions, starts by claims and by sets, and resolves by sets and demotions, each together with what the present state can still spend |
| Lifecycle.VersionsWellFormed | src/runtime-schema/bbs/executor_bbs.go:225-242 | Every stored version has the fields its state calls for: Pending no executor and no container, Claimed an executor and no container, Running an executor |
| Lifecycle.LaterVersions | src/runtime-schema/bbs/executor_bbs.go:194-223 | With a single set, a later version is newer, carries the same work, and keeps a finished outcome; nothing follows a deletion |
| Lifecycle.VersionsDistinct | src/runtime-schema/bbs/executor_bbs.go:194-223 | With a single set, equal stored values are the same version |
| Lifecycle.DemotionsTakeTime | src/runtime-schema/bbs/executor_bbs.go:161-187 | Thirty seconds times the number of demotions is at most the last UpdatedAt minus the first CreatedAt |
| Invariants.SwapKeepsStore | src/runtime-schema/bbs/executor_bbs.go:29-46 | A compare-and-swap of any old copy along an edge keeps every key's history legal, whatever is stored by now |
| Preservation.StepKeeps | src/runtime-schema/bbs/executor_bbs.go:110-192 | Every step of every party keeps the invariants over store, kicks, local copies and passes, and histories only grow |
| Preservation.AbsentAreExcusedNow | src/runtime-schema/bbs/executor_bbs.go:111-122 | An executor named in an earlier task listing and absent from a later executor listing has lost its presence or took a kick before having it |
| Capacity.StepKeepsMemory | src/executor/handler.go:127-144 | Every step of every party keeps free memory plus reservations equal to the maximum at every executor |
| Capacity.StepKeepsNoOrphan | src/executor/handler.go:60-125 | With truthful compare-and-swap every step keeps a witness for each claimed or running task |
| Capacity.WitnessesPay | src/executor/handler.go:45-80 | Distinct stored tasks have distinct witnesses, so their memory sums to at most what the executor's goroutines reserved |
| Replies.StepKeepsPublish | src/stager/handler.go:42-66 | Publishes made and owed never exceed resolves applied, under any faults |
| Replies.StepKeepsOnce | src/runtime-schema/bbs/stager_bbs.go:20-43 | If sets are not retried after being applied and guids not reused, every key is set once and first |
| Replies.StepKeepsDelete | src/runtime-schema/bbs/stager_bbs.go:65-69 | Under any faults, the unconditional delete removes only finished tasks from keys that have been set once |
| Scenarios.DesireRun | src/runtime-schema/bbs/stager_bbs.go:20-43 | An undisturbed DesireTask can be taken from any reachable state and leaves exactly one new Pending version and one kick of it |
| Scenarios.ClaimRun | src/executor/handler.go:45-75 | An undisturbed request for a stored kick stores the claim and keeps its memory reserved |
| Scenarios.CompleteRun | src/executor/handler.go:110-125 | An undisturbed completion stores the outcome, kicks it, and releases the memory |
| Scenarios.PublishRun | src/stager/handler.go:42-59 | An undisturbed resolve of a stored completed kick stores Resolving and publishes that value |
| Scenarios.PassRun | src/runtime-schema/bbs/executor_bbs.go:110-192 | An undisturbed pass over one task that it decides to swap writes exactly that swap, for every repair it makes |
| TaskJson.ActionInverts | src/runtime-schema/models/executor_action.go:41-98 | Decoding the tagged form of an action of any of the four types gives that action |
| TaskJson.DecodeInvertsEncode | src/runtime-schema/models/run_once.go:52-70 | Decoding an encoded task gives exactly that task, nil and empty lists told apart |
| TaskJson.EncodeInjective | src/runtime-schema/models/run_once.go:63-70 | Serialised forms are equal exactly when the tasks are |
| TaskJson.DecodedIsEncodable | src/runtime-schema/models/executor_action.go:68-98 | Whatever parses can be serialised again without the panic of ToJSON |
| TaskJson.ReencodingFixpoint | src/runtime-schema/models/run_once.go:52-70 | Re-encoding what was decoded decodes to the same, and reproduces the stored value exactly when that value is some task's encoding |
| TaskJson.WireStates | src/runtime-schema/models/run_once.go:9-16 | The six states are the numbers 0 to 5 in the order of the source, and any other number stands for itself |
| TaskJson.WireTask | src/runtime-schema/models/run_once.go:18-50 | A serialised task has exactly the sixteen members of the struct tags, each holding its own field |
| TaskJson.WireActions | src/runtime-schema/models/executor_action.go:11-66 | Each action is sent with its own tag and its arguments under their names; one of another type is not sent |
| TaskJson.WireLists | src/runtime-schema/models/executor_action.go:22-26 | A nil list is null and an empty one an empty array; items keep their order |
| TaskJson.TaskParses | src/runtime-schema/models/run_once.go:52-61 | A value parses as a task if and only if it is null, or an object whose members are null, missing, or of the type of their field |
| TaskJson.ActionParses | src/runtime-schema/models/executor_action.go:68-98 | An action parses if and only if it has one of the four tags and arguments that parse for that tag |
| TaskJson.MembersByName | src/runtime-schema/models/run_once.go:52-61 | A missing member is read as null, and members of other names are ignored |
| World.SwapMatches | src/runtime-schema/bbs/executor_bbs.go:37-45 | The store's comparison of serialised values matches exactly when the task itself is the stored one, and the swap has the same effect on both |
| Executor.Handler.constructor | src/executor/main.go:230-236 | A new process starts with all of its memory and without presence |
| Executor.Handler.PresenceHeld | src/executor/main.go:195-202 | The first report that presence is held makes the executor visible to listings; nothing else changes |
| Executor.Handler.ReserveMemory | src/executor/handler.go:127-137 | Succeeds exactly when the memory is there, takes exactly that much, and otherwise changes nothing |
| Executor.Handler.ReleaseMemory | src/executor/handler.go:139-144 | Gives back exactly what the request had reserved, once |
| Executor.Handler.Attempt | src/runtime-schema/bbs/executor_bbs.go:38-44 | One attempt asks the store for exactly one swap of this key, from the value as it was to the new one, and is one step of the protocol; it is applied once if it reports success, and as reported if compare-and-swap is truthful; after a timeout the work has to sleep for a second |
| Executor.Handler.RetryCompareAndSwap | src/runtime-schema/bbs/run_once_bbs.go:29-40 | Asks at least once for that one swap, again a second after each timeout and never after another answer, and returns the last answer; says how often the swap was applied by all attempts: at least once on success, with the new value stored, and exactly once on success and never on failure if compare-and-swap is truthful |
| Executor.Handler.ClaimTask | src/runtime-schema/bbs/executor_bbs.go:29-46 | Of the fields of the task exactly state (Claimed), executor and time are assigned, and the store is asked, retrying, for the swap from the value as it was to that one; on success exactly the new value is stored |
| Executor.Handler.StartTask | src/runtime-schema/bbs/executor_bbs.go:51-68 | Of the fields exactly state (Running), container handle (the one given) and time are assigned; asked for, retried and stored in the same way |
| Executor.Handler.CompleteTask | src/runtime-schema/bbs/executor_bbs.go:74-100 | Of the fields exactly state (Completed), failure flag, reason and result (those given) and time; in the same way; the stored value is kicked once on success and not at all on failure |
| Executor.Handler.ServeHTTP | src/executor/handler.go:27-77 | 400 exactly for a body that does not parse; 503 only without room; 201 exactly when the claim is stored and handed to a goroutine with its memory reserved; after 409 the reservation made for this very request is gone. The store is asked for exactly the claim of the body, retried, before 201 and 409, and for nothing before 400 and 503 |
| Executor.Handler.StartAndComplete | src/executor/handler.go:85-125 | The store is first asked to replace the claimed task by the same task as Running in "container"; the completion is asked for only if that succeeded, and then stores it as Completed there, not failed, with empty reason and result; its answer is the last; a completed task is stored and kicked |
| Executor.Handler.RunTask | src/executor/handler.go:79-125 | The same, and the reservation is released on every path |
| Stager.Handler.StampTask | src/runtime-schema/bbs/stager_bbs.go:22-27 | A creation time that is unset becomes a time read here, any other is kept; the update time is read here always; nothing but these and the state (Pending) changes |
| Stager.Handler.SetTask | src/runtime-schema/bbs/stager_bbs.go:29-41 | The store is asked to set exactly this value, once; on success the value is stored and kicked once; on a timeout the submission is to be stamped again, after a second |
| Stager.Handler.TryDesire | src/runtime-schema/bbs/stager_bbs.go:21-42 | One attempt: stamps the task at times read during it and asks for exactly one set, of the stamped value |
| Stager.Handler.DesireTask | src/runtime-schema/bbs/stager_bbs.go:20-43 | Asks at least once, again after each timeout and a second later with the task stamped anew, never after another answer, and returns the last answer; on success the submitted task is stored as Pending with its original creation time and kicked once |
| Stager.Handler.RetryResolving | src/runtime-schema/bbs/stager_bbs.go:51-59 | Asks at least once for the one swap, again a second after each timeout, and returns the last answer; says how often the swap was applied by all attempts, as the executor's loop does |
| Stager.Handler.ResolvingTask | src/runtime-schema/bbs/stager_bbs.go:45-60 | Of the fields exactly state (Resolving) and time are assigned, the time read here, and the store is asked, retrying, for the swap from the value as it was; on success exactly the new value is stored |
| Stager.Handler.ResolveTask | src/runtime-schema/bbs/stager_bbs.go:65-69 | Asks at least once for the deletion of the guid, again a second after each timeout, and returns the last answer; after success, or if there was none, nothing is stored under the guid |
| Stager.Handler.PublishReply | src/stager/handler.go:53-61 | What is sent is the serialised Resolving task, to its reply address, and is recorded exactly if sent |
| Stager.Handler.ResolveCompletion | src/stager/handler.go:42-76 | The store is first asked to replace the completion as it came, and last to delete its key if a reply went out, and to store the resolved value otherwise. If the resolve is reported as successful the resolved value has been stored; a reply goes out only then, carries the kicked task as resolved and is among the published ones; the key is deleted only after a reply |
| ConvergeSpec.OverdueAfterPass | src/runtime-schema/bbs/executor_bbs.go:152-187 | After an undisturbed pass the overdue Pending tasks are exactly the overdue ones it has just demoted |
| ConvergeSpec.SecondPass | src/runtime-schema/bbs/executor_bbs.go:152-187 | A second pass at the same time changes a task if and only if it was claimed too long by a present executor and is overdue |
| ConvergeSpec.RepairTable | src/runtime-schema/bbs/executor_bbs.go:152-242 | What an undisturbed pass makes of every stored task, field by field: an overdue Pending one and one of an absent executor are Completed with flag and reason, one claimed or resolving for thirty seconds goes back, every other one is untouched, and no key comes or goes |
| ConvergeSpec.KickTable | src/runtime-schema/bbs/executor_bbs.go:152-187 | The tasks an undisturbed pass kicks are exactly the stored Pending ones that are not overdue and the stored Completed ones |
| ConvergeSpec.TwoPassesStabilise | src/runtime-schema/bbs/executor_bbs.go:110-192 | At one time and with one set of executors a third pass changes nothing |
| ConvergeSpec.BatchPointwise | src/runtime-schema/bbs/executor_bbs.go:194-223 | A batch replaces under each key exactly the value its pair was made for and leaves every other key alone |
| ConvergeSpec.BatchConfluence | src/runtime-schema/bbs/executor_bbs.go:194-223 | From any store, two orders of executing the same swaps end in the same store |
| Converge.Converger.ExamineTask | src/runtime-schema/bbs/executor_bbs.go:152-187 | The switch decides as the decision function does, at the time it read |
| Converge.Converger.ScanTask | src/runtime-schema/bbs/executor_bbs.go:152-187 | One task is decided on and the kick, if any, is sent, as one step of the pass |
| Converge.Converger.ScanNode | src/runtime-schema/bbs/executor_bbs.go:141-188 | A node that does not parse is scheduled for deletion, another one decided on |
| Converge.Converger.Scan | src/runtime-schema/bbs/executor_bbs.go:133-188 | All listed tasks are decided on, and one pair per swap is scheduled, made from the listing |
| Converge.Converger.ListAlive | src/runtime-schema/bbs/executor_bbs.go:116-121 | The executors taken to be alive are those listed; no directory means none; any other error ends the pass |
| Converge.Converger.Prepare | src/runtime-schema/bbs/executor_bbs.go:111-131 | The boundary is a clock reading after both listings minus the time to claim, and the listing parses to the tasks that were stored |
| Converge.Converger.LetRun | src/runtime-schema/bbs/executor_bbs.go:209-217 | Goroutines run in any order; each finds room for its signal, and as long as a signal is awaited and missing one is still going |
| Converge.Converger.SwapOne | src/runtime-schema/bbs/executor_bbs.go:211-220 | A goroutine asks the store for exactly one swap, of the listed task by its stamped plan, and does not retry |
| Converge.Converger.BatchCompareAndSwap | src/runtime-schema/bbs/executor_bbs.go:194-223 | With goroutines spawned in order and finishing in any order, during the spawning or the wait, and whatever else is going on: the store is asked for exactly one swap per pair and nothing else, old value the listed task, new value the plan with a stamp; after as many receives as pairs no goroutine is left and the channel is empty |
| Converge.Converger.DeleteKeys | src/runtime-schema/bbs/executor_bbs.go:191-191 | A deletion is asked for each given key in turn and nothing else; undisturbed, exactly those keys are gone and no task is touched |
| Converge.Converger.ConvergeTasks | src/runtime-schema/bbs/executor_bbs.go:110-192 | Disturbed or not, a run of the protocol from where it started; unless a listing fails, and then nothing more is done, it is a new pass that knows what the listings said, has decided on every listed task, asks the store for exactly one swap per task it decided to swap, gets an answer to each, and asks to delete exactly the nodes that did not parse, and for nothing else. Undisturbed, every task becomes what `RepairTable` says, exactly those nodes are gone, and exactly the tasks `KickTable` names are kicked |
| Dispatch.RoundRobin | src/hurler/round_robin.go:10-58 | For every start and all replies: endpoints are tried in cyclic order, each at most once, until one answers below 400; the result is that response or else the last attempt's; of the other attempts exactly the responses have their bodies closed, each once and in order, and nothing else is closed |
| Dispatch.CycleVisitsAll | src/hurler/round_robin.go:29-32 | The cyclic order visits every position once |
| Dispatch.Send | src/hurler/fanout.go:30-38 | A goroutine's outcome goes into a channel that has room for it |
| Dispatch.Fanout | src/hurler/fanout.go:9-61 | For every order of arrival: a response below 400 if any endpoint gives one, else some received response, else some received error; neither only without endpoints; no remaining sender can block |
| Routing.Handler.AddRoutes | src/hurler/handler.go:63-84 | One loop over host nodes extends a right table to a right table, skipping hosts without endpoints |
| Routing.Handler.SyncTable | src/hurler/handler.go:54-109 | The table has a route for exactly the hosts with endpoints, with every endpoint listed for the host and no other, fan-out first; it is round-robin exactly if an endpoint is registered so; no route is empty |
| Routing.EndpointsOfNode | src/hurler/handler.go:63-84 | Where node names are distinct, what is listed for a host is what is below its node, in order |
| Routing.Handler.ServeHTTP | src/hurler/handler.go:21-52 | 404 exactly for unknown hosts and without dispatching; 503 when the body is unreadable; a round-robin host passes on the very status of the first response below 400 in cyclic order or else of the last attempt, and 503 if that gave no response; a fan-out host passes on the status of a response below 400 if there is one and of some response if there is any; the dispatchers' precondition always holds |

## Left out

- Theorems.GlobalCapacity: assumes `MemoryMB` is not negative, which the code does not check.
- Converge.Converger.ConvergeTasks: the delete of nodes that did not parse compares nothing, so a task desired under such a key during the pass can be deleted; `Converger.Interfere` assumes nobody does that, and nothing is claimed about that race.
- Converge.Converger.ConvergeTasks: when others interfere the contract does not say which of the planned swaps were applied; that depends on what the others did, and the theorems say what holds in any case.
- Theorems.RepetitionBound: times are unbounded integers; 64-bit wrap-around and the saturation of Go durations are not modelled.
- TaskJson.DecodeInvertsEncode: JSON is a tree; bytes, key order, duplicate and case-insensitive keys, invalid UTF-8, integer ranges and floating-point numbers are not modelled.
- TaskJson.ActionInverts: an envelope without args makes the source dereference nil; the model reports a decoding error, as it does for every other malformed action.
- Stager.Handler.DesireTask: a task with an action of an unknown type, on which ToJSON panics, cannot be submitted.
- Executor.Handler.ServeHTTP: a body that parses must say Pending, with nobody assigned and no stamp from the future, whoever sent it. One that does not can break the state machine, exactly if its value is stored and not Pending (`Lifecycle.ClaimIsEdge`), and what happens after that is not modelled.
- Stager.Handler.ResolveCompletion: a body must say Completed, with no stamp from the future; for others likewise (`Lifecycle.ResolveIsEdge`).
- Dispatch.Fanout: cancelling requests that are still in flight and closing bodies that were never read.
- Routing.Handler.ServeHTTP: header and body copying, and the close of the copied body.
- Guids are used as keys as they are; `path.Join` would clean guids that contain slashes or dots.
- Kicks are a set of messages, delivered any number of times or never; the hurler between sender and receiver is only modelled by itself.
- Random sleeps before a request is handled, logging, flags, signal handling, the NATS, HTTP and etcd clients, and TTL heartbeats; presence is an event of the environment.
- The converge lock: it limits work and no theorem needs it.
- The stager's `ServeHTTP` (it decodes a kick and starts what `Stager.Handler.ResolveCompletion` models), `getAllTasks` (only the tests call it), and the wrappers for presence, routes, the file server and smelting configuration, which take no part in the protocol.
- The simulator, the analysis scripts and the visualisation: measurement, not behaviour of the system.
