# lionagi: a verified model of its run-control kernels

This project models the parts of lionagi that decide what happens to a run and to what is said to it: the
operator-steer control protocol, the session lifecycle with its terminal verdict, the nudge engine, the context
budget, the security gate around tool calls, and seven smaller kernels. Each `.dfy` file is one module; the
whole project is checked with `dafny verify dfyconfig.toml`.

| module | what it models |
|---|---|
| `SteerProtocol` | the control table, its statements, the legs, sweeps, operators and enqueuers, and every interleaving of their single steps |
| `SteerSafety` | the invariant, and that each step of each actor keeps it |
| `SteerTheorems` | what holds of every reachable state and of every continuation of a run |
| `SteerOrder` | exactly which admissions keep a leg's deliveries in arrival order and in key order |
| `SteerDrain` | the drain loop and the teardown sweep as the code runs them, with the rest of the world moving at every await |
| `Verdict` | the cascade that settles a run's final status, reason and evidence |
| `SessionLifecycle` | one session row under concurrent teardowns, resumes, other writers and maintenance |
| `SessionTable` | the teardown's and the resume's own code against that row |
| `Nudge` | the just-in-time nudge engine: policies, stable order, token cap, books |
| `ContextBudget` | the context block: reservation, distillation and the exact length |
| `Gate` | security controls, the gate pass and the composed pre-hook |
| `AdapterRegistries` | per-class adapter registries seeded along the resolution order |
| `Redaction` | redaction of nested error details |
| `IdResolution` | LIKE escaping, prefix queries and resolution across tables |
| `McpForwarding` | the MCP server forwarding encoder and its reader |
| `StatusPaths` | the reader of the NUL-delimited status listing |
| `Bench` | chunk sizes, entry validation and merging of benchmark results |
| `Text`, `Wrappers` | white space and trimming; an option type |

How it is modelled. Code that changes state step by step is a class or a method with loops, proved against
functions; the theorems are lemmas about those functions. Concurrency is a state machine: every read and every
write of every actor is a step of its own, a step that its actor cannot take changes nothing, and a reachable
state is what any finite list of steps makes of an empty session. `SteerDrain.Db` and `SessionTable.Table` hold
such a state together with the steps everybody else will take, for the drain and the sweep without end; each await
of the modelled method runs one batch of them, so the loops are proved against every interleaving. A control row is named by its position in admission
order, so positions compare as arrival times do. Claimant, closer, floor and the delivery log are history
variables: no statement of the table reads them.

## Where the code does not keep the obvious promise

- One leg's deliveries follow arrival over all its batches, in every run, if and only if the keys of the messages
  (creation stamp, then id) follow admission; key order over all batches holds on the very same condition
  (`SteerOrder.OrderExactlyWhenStampsFollow`). Otherwise one batch delivers the later message first, and two batches
  deliver against the keys. What always holds is that a batch is in key order and carries only rows admitted after
  the previous one was read (`SteerTheorems.LegDeliversInTurn`).
- A sweep that finishes leaves nothing unclaimed only if the session was not reopened since it looked; otherwise a
  row admitted after the reopening is left over (`SteerTheorems.ReopeningDefeatsTheSweep`).
- Status and reason agree exactly when the teardown was not asked for "running" itself. No caller in the repository
  asks for that; the signature admits it, and the reading falls through to the failure codes
  (`Verdict.ReasonBelongsToStatus`).
- A teardown that finds the row already terminal reports its own outcome, not the row's; one that loses the race
  later reports the row's (`SessionLifecycle.ReportsAreTrue`).
- A hook that changes the argument dictionary in place, without returning it, changes what the later ones are asked
  about, but they are still asked under the old verb (`Gate.Chain.RunGatePass`).
- "Once" is kept across calls whatever the rule ids are. Inside one call it is kept exactly when one rule carries
  the id, or the cap is negative and lets one message through (`Nudge.OnceExactlyWhenSolo`).
- References are dropped from the context block "rather than exceeding the budget". With two or more kept
  references the block can still exceed it, by up to the later overheads and one bare marker each, and some contents do
  so in full (`ContextBudget.BudgetHoldsExactlyWhen`, `ContextBudget.BoundIsAttained`).
- `_git` strips the status listing before it is parsed. That eats the blank of a first record whose index column
  is unset and cuts the first letter off its path (`StatusPaths.StrippedListingIsRightExactlyWhen`).

## Model

| member | source | states |
|---|---|---|
| SteerProtocol.Pending | lionagi/state/db.py:6090-6120 | the listing holds exactly the unapplied rows, claimed ones included |
| SteerProtocol.PendingInOrder | lionagi/state/db.py:6090-6120 | the listing is strictly ordered by creation stamp, then id, so it names no row twice |
| SteerProtocol.Messages | lionagi/cli/agent.py:463 | the drain sees exactly the listed rows that are messages |
| SteerProtocol.MessagesInOrder | lionagi/cli/agent.py:462-463 | picking the messages keeps the key order of the listing |
| SteerProtocol.Unclaimed | lionagi/cli/agent.py:571-574 | the sweep's worklist is exactly the listed rows without a result |
| SteerProtocol.Token | lionagi/state/db.py:6122-6139 | every claim token, whoever owns it, begins with the word by which a standing claim is recognised |
| SteerSafety.StepKeeps | lionagi/cli/agent.py:459-590 | any one step of any actor keeps rows, legs, log and sweeps consistent, and no row loses its claim, claimant or outcome |
| SteerSafety.ClaimKeeps | lionagi/cli/agent.py:485-495 | claiming keeps it: a won row was handed to nobody, a lost one is dropped, and what the leg holds stays in key order |
| SteerSafety.OperateLog | lionagi/cli/agent.py:506-509 | a delivered batch repeats no earlier delivery of any leg and follows the same leg's earlier batches in turn |
| SteerSafety.StampWrite | lionagi/state/db.py:6141-6171 | a guarded stamp closes only a row this leg delivered, and never changes whose claim it carried |
| SteerSafety.ResolveKeeps | lionagi/state/db.py:6173-6213 | a hand resolution reaches claimed rows only and cannot be mistaken for a stamp, a rejection or a claim |
| SteerSafety.SweepWriteKeeps | lionagi/cli/agent.py:582-589 | the sweep's write keeps the invariant: only rows unclaimed at the write are rejected |
| SteerTheorems.RunKeeps | lionagi/cli/agent.py:421-590 | the invariant and the one-way evolution of rows hold over every run of any length |
| SteerTheorems.DeliveredAtMostOnce | lionagi/cli/agent.py:459-532 | over every interleaving no row's text is handed to the model twice, by one leg or by two |
| SteerTheorems.LegDeliversInTurn | lionagi/cli/agent.py:459-532 | one leg's deliveries are in key order inside a batch, and a later batch holds only rows admitted after the earlier read |
| SteerTheorems.ArrivalOrderWhenStampsFollow | lionagi/cli/agent.py:459-532 | when the messages' keys follow admission, whatever the other verbs' stamps, all one leg delivers over all batches is strictly in arrival order and in key order |
| SteerOrder.OrderExactlyWhenStampsFollow | lionagi/cli/agent.py:459-532 | for every list of admissions with distinct ids: all runs over it deliver, leg by leg, in arrival order if and only if the messages' keys follow admission; and in key order if and only if they do |
| SteerOrder.Batch | lionagi/cli/agent.py:462-519 | an undisturbed leg delivers in one batch exactly the messages that wait, in key order, and leaves none waiting |
| SteerOrder.OneBatchReverses | lionagi/cli/agent.py:462-509 | two messages whose keys are against arrival: a run over the whole list in which one batch delivers the later first |
| SteerOrder.TwoBatchesReverse | lionagi/cli/agent.py:459-532 | and a run in which two batches of one leg deliver them against their keys |
| SteerTheorems.RecordAgreesWithDelivery | lionagi/cli/agent.py:510-531 | a row recorded applied was delivered by the leg that claimed it; one unclaimed or rejected by the sweep was delivered by nobody |
| SteerTheorems.RejectedIsNeverDelivered | lionagi/cli/agent.py:571-589 | a rejection is final: in every continuation the row stays rejected and undelivered |
| SteerTheorems.ClaimBindsDelivery | lionagi/cli/agent.py:485-519 | once a leg has claimed a row, no other leg delivers it, in any continuation |
| SteerTheorems.ClaimedIsDeliveredByTheBoundary | lionagi/cli/agent.py:485-532 | a leg back at its turn boundary has delivered every row it ever claimed |
| SteerTheorems.SweepLeavesNothingPending | lionagi/cli/agent.py:551-589 | a sweep that ends without a reopening since it looked leaves no row of the session unclaimed |
| SteerTheorems.SweepSparesClaimedRows | lionagi/cli/agent.py:572-589 | no step of a sweep changes a row that was claimed or closed, nor the delivery log |
| SteerTheorems.ReopeningDefeatsTheSweep | lionagi/cli/agent.py:1263-1290 | from every reachable state with a sweep that has looked but not finished, a reopening and a new message lead to its end with that message unclaimed |
| SteerDrain.Db.MarkApplying | lionagi/state/db.py:6122-6139 | after it the row is claimed or closed; the leg holds it in addition iff a token is returned, and then the row carries that token with this leg as its claimant |
| SteerDrain.Db.FinalizeApplied | lionagi/state/db.py:6141-6171 | after the guarded stamp the row is closed: by this leg iff success is reported, else by an operator |
| SteerDrain.ClaimAll | lionagi/cli/agent.py:483-495 | the claiming pass returns exactly the rows it won, in snapshot order, with their tokens and texts, and undisturbed leaves the head claimed |
| SteerDrain.StampAll | lionagi/cli/agent.py:510-531 | every delivered row ends on record, applied by this leg or as an operator's outcome it warns of; nothing else is warned of |
| SteerDrain.ReadQueue | lionagi/cli/agent.py:462-474 | the read ends the drain exactly when no message waits or the first in key order is claimed |
| SteerDrain.HeadOpenOrClaimed | lionagi/cli/agent.py:464-474 | a waiting message that is not open carries a claim, so looking for the claim word misses nothing |
| SteerDrain.HeadStandsFirst | lionagi/cli/agent.py:462-466 | the head is the least, in key order, of all messages that wait |
| SteerDrain.Deliver | lionagi/cli/agent.py:483-531 | a batch hands over exactly what it claimed, as one turn with the joined non-blank texts, and closes every row of it |
| SteerDrain.DrainOnce | lionagi/cli/agent.py:459-531 | one pass ends for a true reason, a lost batch meaning that every message open at the read went to somebody else; or it delivers a batch within the time left at its second look at the clock, and the open rows and the admissions still to come are fewer by every row delivered, whatever the others did |
| SteerDrain.Drain | lionagi/cli/agent.py:421-532 | the loop ends once admissions stop, however long others go on claiming, closing and sweeping, after at most as many rows delivered as were open or still to be admitted, at least one a turn; or by the deadline. What the log says this leg delivered is exactly the turns it made, each started in time and given what was left; each turn before a raise is on record; the result is the last answer; each exit has its reason |
| SteerDrain.RunOpens | lionagi/cli/agent.py:485-497 | over any steps of anybody, the open rows grow by no more than the admissions among them: claimed and resolved rows never open again |
| SteerDrain.OpenShrinks | lionagi/cli/agent.py:485-497 | open rows never grow in number over a fixed table, and a claim makes them fewer |
| SteerDrain.Tombstone | lionagi/cli/agent.py:535-591 | with nobody closing or reopening the session meanwhile it declines iff the session is running; every listed row ends resolved or claimed; with no reopening, no row at all is left unclaimed |
| Verdict.ResolveRunReason | lionagi/cli/_runs.py:431-483 | the first reason belongs to the status for every terminal status; a cancellation names the signal iff one was seen, and uses up the latch |
| Verdict.HasAssistantOutput | lionagi/cli/_runs.py:926-946 | true iff some stored assistant message says anything but white space |
| Verdict.Reconcile | lionagi/cli/_runs.py:604-670 | only a bare provider error with a linked session takes the linked status, its reason, evidence and transcript |
| Verdict.Backstops | lionagi/cli/_runs.py:672-719 | a completion with a failed contract, a failed operation or an escalation fails, for the first of the three; any other draft stands |
| Verdict.DeliberateStops | lionagi/cli/_runs.py:729-762 | gate rejections and refused spawns never change the status, and on a completion name themselves, the refusal last |
| Verdict.TrustGate | lionagi/cli/_runs.py:771-807 | a completion is demoted to empty iff no ground for trust exists |
| Verdict.LateErrors | lionagi/cli/_runs.py:814-857 | an unwritten artifact fails a completion; a finalize error only renames it |
| Verdict.Decide | lionagi/cli/_runs.py:604-857 | the stepwise cascade settles the status, reason, evidence and notes that the closed-form specification gives, and completes exactly the runs that earned it |
| Verdict.CompletedIsEarned | lionagi/cli/_runs.py:617-857 | a run ends as completed if and only if it was reported or reconciled as completed, no contract, operation, escalation or artifact write speaks against it, and one ground for trust is there |
| Verdict.ReasonBelongsToStatus | lionagi/cli/_runs.py:604-857 | final status and reason are of one family if and only if the teardown was not asked for "running" |
| Verdict.RunningMeansLinkedAlive | lionagi/cli/_runs.py:662-668 | a finished run is recorded running iff its bare provider error was reconciled to a linked session still running |
| Verdict.VerdictIsMonotone | lionagi/cli/_runs.py:672-857 | taking away evidence of failure, or adding a gate, refusal, artifact, commit or message, never turns a completed run into another |
| Verdict.OutputIsTrusted | lionagi/cli/_runs.py:785-789 | a non-empty assistant message in the run is always ground enough |
| Verdict.DemotionNamesItsCause | lionagi/cli/_runs.py:672-833 | whenever a completion is taken away, reason and evidence name a cause that really held |
| SessionLifecycle.StepKeeps | lionagi/cli/_runs.py:859-923 | every step of every actor keeps the chain of status writes sanctioned and the row equal to its end |
| SessionLifecycle.TerminalIsLeftByResumeOnly | lionagi/cli/_runs.py:1258-1292 | over every interleaving a terminal status is left only by a resume, only for running, clearing the end time |
| SessionLifecycle.ReopenedBetween | lionagi/cli/_runs.py:1221-1237 | between a terminal status and a later write from an open one lies a resume |
| SessionLifecycle.OneTerminalTeardownPerOpening | lionagi/cli/_runs.py:859-923 | between two terminal teardown writes lies a resume; each carries, in the same write, the end time its own teardown took and a reason of its status; no teardown writes twice |
| SessionLifecycle.ClosingsBalance | lionagi/state/lifecycle/service.py:208-535 | a sanctioned chain closes once for the start and once per reopening, less one if it stands open |
| SessionLifecycle.RunClosesOncePerOpening | lionagi/cli/_runs.py:1221-1237 | so every reachable session has closed exactly as often as it was opened, but for the opening it is in |
| SessionLifecycle.ReportsAreTrue | lionagi/cli/_runs.py:865-923 | over every run: a win is the teardown's own landed verdict; a lost race is reported as the status the row had at a read no earlier than the refusal, the row having left by then the open status seen; only a row found closed, or gone for good, leaves it with its own verdict unwritten |
| SessionLifecycle.SomebodyElseWon | lionagi/cli/_runs.py:903-912 | whenever a teardown loses, another actor's write from the status it saw lies between its look and its refusal |
| SessionLifecycle.LandedVerdictsAgree | lionagi/cli/_runs.py:885-902 | a landed teardown write leaves an open status, pairs status with a reason of its family and its own end time, and a landed completion is uncontradicted and trusted |
| SessionLifecycle.LandsExactlyWhenUnmoved | lionagi/cli/_runs.py:861-902 | the compare-and-set lands iff the row still has the open status the teardown saw |
| SessionLifecycle.ReopensExactlyWhenClosed | lionagi/cli/_runs.py:1242-1320 | a resume reopens iff the row is closed both at its look and at its write; then status, end and leg change in one write |
| SessionLifecycle.ResumeReportsAreTrue | lionagi/cli/_runs.py:1308-1320 | over every run a resume says it reopened the row iff a write of its own landed, and then exactly one did |
| SessionTable.TeardownCommon | lionagi/cli/_runs.py:515-923 | the teardown's own code under any interleaving: a win leaves its verdict and end time as the row's last write, a lost race or a failure reports what the row holds, a missing or closed row its own verdict, each as its actor does |
| SessionTable.UpdateStatus | lionagi/state/lifecycle/service.py:208-535 | the guarded write lands, is refused with the row moved, or finds no row, and says which |
| SessionTable.ReadBackStatus | lionagi/cli/_runs.py:903-912 | after a refusal the reported status is the row's at that read, and the teardown's own only if there is no row |
| SessionTable.ReopenForResume | lionagi/cli/_runs.py:1221-1320 | the resume's own code returns true iff its write reopened the row, for this leg; on false no write of it ever landed |
| Nudge.NudgeEngine.RecordCall | lionagi/agent/nudge.py:170-172 | the ring holds the last calls up to its size, oldest first |
| Nudge.NudgeEngine.ShouldFire | lionagi/agent/nudge.py:227-239 | fires iff the policy permits it by the books: never delivered for once, far enough from the last delivery for a cooldown |
| Nudge.NudgeEngine.Merge | lionagi/agent/nudge.py:245-264 | survivors are the greedy choice under the cap, joined by blanks; nothing survives iff there were no candidates |
| Nudge.NudgeEngine.Collect | lionagi/agent/nudge.py:183-197 | candidates are exactly the rules that say yes, may fire and render, in declaration order |
| Nudge.NudgeEngine.Evaluate | lionagi/agent/nudge.py:174-202 | one call counts itself, delivers the survivors of the stable order, and books exactly those |
| Nudge.SortIsStable | lionagi/agent/nudge.py:198 | the order is a permutation, highest priority first, equal priorities in declaration order |
| Nudge.SurvivorsFit | lionagi/agent/nudge.py:245-264 | survivors are a subsequence of the order headed by its first, at a cost of at most the larger of the cap and that first one |
| Nudge.DroppedOnlyForRoom | lionagi/agent/nudge.py:256-259 | a dropped candidate would have overrun the cap beside what was kept before it |
| Nudge.BooksAreExact | lionagi/agent/nudge.py:241-243 | at every point of any run the books equal the deliveries so far, and the last mark is the call of the latest delivery, if there was one |
| Nudge.PoliciesHoldAcrossCalls | lionagi/agent/nudge.py:227-264 | over any run, with any conditions and messages: an id delivered once under a once policy is never delivered by a later call, and cooldown deliveries are at least n calls apart |
| Nudge.DroppedKeepsItsBooks | lionagi/agent/nudge.py:174-202 | a rule the cap dropped keeps its count and its last call |
| Nudge.OnceStaysAtOne | lionagi/agent/nudge.py:227-264 | a once id carried by one rule, or under a negative cap, is delivered at most once in any run |
| Nudge.OnceExactlyWhenSolo | lionagi/agent/nudge.py:174-264 | and if and only if so: two rules sharing the id are both delivered by some run otherwise |
| Nudge.RingIsTheTail | lionagi/agent/nudge.py:170-172 | recording any list of calls one by one leaves the last of them, up to the ring's size |
| Nudge.StreakSeenInTheRing | lionagi/agent/nudge.py:170-172 | a failure streak is seen iff the history has it and its three calls are still in the ring |
| ContextBudget.HeadTailTruncate | lionagi/cli/_context_from.py:266-272 | truncation yields at most the budget, or the bare marker |
| ContextBudget.Distill | lionagi/cli/_context_from.py:275-282 | the text fits the budget or is the bare marker; an untruncated one is a stored text that fits |
| ContextBudget.Fit | lionagi/cli/_context_from.py:322-331 | the reservation loop keeps the specified leading references with their overheads |
| ContextBudget.BuildContextBlock | lionagi/cli/_context_from.py:297-360 | the block is, for none, one or several references, what the specification builds |
| ContextBudget.KeptIsTheLongestFit | lionagi/cli/_context_from.py:322-331 | the kept references are the longest prefix whose overheads and one bare marker fit |
| ContextBudget.LengthIsBudgetSpent | lionagi/cli/_context_from.py:348-360 | the joined block is exactly as long as what the budget lost, wrappers, separators and all |
| ContextBudget.BlockIsBounded | lionagi/cli/_context_from.py:320-360 | for several references the length is at most the budget plus overhead and marker of each kept one after the first |
| ContextBudget.RoomyStepsStayInside | lionagi/cli/_context_from.py:348-359 | if each step starts with room for overhead and marker, the block stays inside the budget |
| ContextBudget.BoundIsAttained | lionagi/cli/_context_from.py:348-360 | some contents overshoot by the whole of that excess |
| ContextBudget.BudgetHoldsExactlyWhen | lionagi/cli/_context_from.py:297-360 | the budget bounds the block for all contents iff there is no reference, one with room for wrapper and marker, or at most one kept of several |
| Gate.Adapt | lionagi/agent/gate.py:69-101 | allows iff the hook returned; a fault is marked as one, a refusal is not; only a returned dict rewrites |
| Gate.Chain.RunGatePass | lionagi/agent/gate.py:130-156 | each control is asked at most once, in order, about the arguments as returned or changed in place so far; all of them iff none refused, and a denial is the last one's |
| Gate.Chain.RunUserHooks | lionagi/agent/factory.py:269-272 | every user hook is called once, in order, on what the one before it returned or left in place, up to one that raises |
| Gate.Chain.Chained | lionagi/agent/factory.py:263-281 | what is returned passed every control once after the last user hook, and only that pass touched it since; any refusal or control exception denies; a first-pass denial means no user hook ran |
| Gate.QuietControlsAllowTheResult | lionagi/agent/factory.py:274-281 | if the controls neither return nor change the arguments, each of them allowed the very arguments returned |
| Gate.LastTouchWins | lionagi/agent/gate.py:153-156 | the arguments after a pass are those the last control to return or change any left |
| AdapterRegistries.Classes.Registry | lionagi/adapters/_base.py:470-486 | a first touch gives the class a fresh registry holding a snapshot of its nearest seeded ancestor's, and no two classes share one |
| AdapterRegistries.Classes.RegisterAdapter | lionagi/adapters/_base.py:488-490 | registering seeds the class, then adds to it alone; without a key nothing is added |
| AdapterRegistries.AdapterRegistry.Register | lionagi/adapters/_base.py:412-419 | adds the adapter under its key, or refuses and changes nothing iff it has none |
| AdapterRegistries.SnapshotPlusOwn | lionagi/adapters/_base.py:470-490 | over any history on any hierarchy a class sees its ancestor's snapshot at first touch overlaid by its own registrations, and nothing else |
| AdapterRegistries.SeededExactlyWhenTouched | lionagi/adapters/_base.py:603-619 | a class has a registry of its own iff some operation touched it |
| AdapterRegistries.NothingLeaks | lionagi/adapters/_base.py:603-623 | operations on other classes leave a seeded class as it was |
| Redaction.RedactDetails | lionagi/adapters/_base.py:156-163 | the loop redacts entry by entry and shortens long texts, keys and order kept |
| Redaction.HiddenDataNeverShows | lionagi/adapters/_base.py:128-163 | two trees of one shape that differ only in hidden data redact to the same tree, at any depth |
| Redaction.PlainIsUntouched | lionagi/adapters/_base.py:143-153 | details with no sensitive name, URL or long text come out as they went in |
| Redaction.KeysSurvive | lionagi/adapters/_base.py:139-163 | redaction keeps every key, in order |
| IdResolution.EscapingIsPerCharacter | lionagi/cli/_util.py:213-216 | the three replacements in sequence escape each metacharacter exactly once |
| IdResolution.LikeIsStartsWith | lionagi/cli/_util.py:213-216 | LIKE over the escaped prefix is starts-with, up to the backend's case folding |
| IdResolution.QueryIsStartsWith | lionagi/cli/_util.py:255-269 | with the substring comparison beside it the query is exactly starts-with under any folding |
| IdResolution.MatchingIsStarting | lionagi/cli/_util.py:255-269 | so a table answers with exactly its rows that start with the prefix, in id order |
| IdResolution.ResolveEntity | lionagi/cli/_util.py:272-319 | the two loops give the specified resolution: exact in table order, then the verdict over all tables' hits |
| IdResolution.FetchUniqueRow | lionagi/cli/_util.py:219-245 | on one table the same policy as the resolver's |
| IdResolution.ExactIsFirst | lionagi/cli/_util.py:296-299 | an exact id is answered from the first table that holds it |
| IdResolution.LimitKeepsTheVerdict | lionagi/cli/_util.py:255-269 | limiting each table's answer changes neither whether there are none, one or more matches nor whether they share a kind |
| IdResolution.ResolutionIsUnambiguous | lionagi/cli/_util.py:272-319 | failing an exact id, a row is returned iff exactly one row in all has the prefix; two or more are refused, with their kind named iff they share it |
| McpForwarding.Apply | lionagi/agent/factory.py:643-712 | nothing without servers or transport; JSON hands the set over; dotted names the first server with an unknown field, or encodes all |
| McpForwarding.EncodeServer | lionagi/agent/factory.py:680-698 | refuses iff a forwardable server sets an unknown field |
| McpForwarding.KeysAreInjective | lionagi/agent/factory.py:697 | a dotted key names one server and one field, even for server names with dots |
| McpForwarding.FieldsArePartitioned | lionagi/agent/factory.py:679-712 | each field of each server lands in exactly one place by its name, or in neither if not sent; only disabling its server can displace one |
| McpForwarding.DisablesAreExact | lionagi/agent/factory.py:700-707 | with every handed server allowed, the servers off are exactly those discovered and not allowed, and those handed as off |
| McpForwarding.ReaderSeesWhatWasForwarded | lionagi/agent/factory.py:621-634 | on a request without server entries the reader says yes iff some public field other than an "off" was forwarded |
| StatusPaths.ReadPaths | lionagi/cli/_code_identity.py:176-194 | the index loop reads the fields as the recursive reader does |
| StatusPaths.RawListingIsReadBack | lionagi/cli/_code_identity.py:176-194 | parsing the printed form of any records returns exactly their worktree paths, in order, and no origin |
| StatusPaths.StripTakesTheFirstBlank | lionagi/cli/_code_identity.py:144 | stripping a listing removes the blank of the first status column and nothing else |
| StatusPaths.StrippedListingIsRightExactlyWhen | lionagi/cli/_code_identity.py:144-194 | the stripped listing is read right iff it is empty, its first column is set, or a one-letter first path is by chance what its origin reads as |
| Bench.ChunksCoverTheTotal | benchmarks/run_paired_ab.py:113-120 | refuses a count or total below one; else min(chunks, total) positive parts that sum to the total and differ by at most one |
| Bench.EvenSplitIsUnique | benchmarks/run_paired_ab.py:113-120 | no other split with as many parts, largest first and within one of each other, sums to the total |
| Bench.ValidateStat | benchmarks/ci_compare.py:23-38 | no complaint iff runs is a positive integer and all four durations are finite and non-negative; else the first flaw in field order |
| Bench.MergeArm | benchmarks/run_paired_ab.py:72-92 | refuses no chunks, divides by zero iff some scenario has no runs, and otherwise merges each scenario named anywhere over all its chunks |
| Bench.MergeIsSound | benchmarks/run_paired_ab.py:81-92 | sound chunk stats merge to a sound stat that counts every run once, keeps mean times runs equal to the time spent, and takes its extremes from the chunks |
| Bench.MedianIgnoresOrder | benchmarks/run_paired_ab.py:90 | the median of medians does not depend on the order of the chunks |
| Bench.ChunkedArmRunsTheTotal | benchmarks/run_paired_ab.py:72-120 | an arm run in the chunks it was split into reports exactly the runs asked for |

## Left out

- The model call, subprocesses, git, the filesystem, argument parsing, logging, printing and JSON, TOML or YAML
  decoding: their results are inputs.
- Exceptions of the database inside the drain and the sweep, and the sweep's catch-all: a statement that fails
  leaves the table as it was, and a leg or sweep that stops anywhere is among the modelled runs.
- The flow runner's control poller and the pause and resume verbs: rows of other verbs are in the table, and only
  their rejection by the sweep is modelled.
- SteerDrain.Drain: nothing is said of a drain without a deadline under admissions that never stop, which need not
  end; and with a deadline, how late a continuation may end is not stated, because claims happen between
  the last look at the clock and the call.
- Row ids are numbers with a total order, creation stamps are reals; that ids never repeat is the primary key.
- Reason summaries, node metadata, extras, duplicate-status notices and the terminal envelope of the transition
  service; the status and reason vocabulary is taken as valid.
- SessionLifecycle.TerminalIsLeftByResumeOnly: is about sessions a run owns; mirrored engine sessions have an
  override of their own in lionagi/state/_mirror_common.py:333-362, and other writers are taken to never clear an
  end time.
- `find_incomplete_session_for_run` and the retry wait for the linked engine session; the linked row, if any, is an
  input of the verdict.
- Verdict.HasAssistantOutput: takes each message's text as already extracted from its stored content.
- Nudge conditions and messages are arbitrary per call; the two default rules' texts are not modelled, nor is the
  tokenizer. A cooldown of a non-numeric length is not modelled.
- A task that changes an argument dictionary it kept after its hook has returned.
- The logging of a denial, post hooks, permission policies and path containment.
- Lookup and conversion through an adapter registry; a class's resolution order is fixed.
- `_redact_url` and the list of sensitive names are parameters of the redaction, so what a URL shows is not stated.
- Characters are compared as they are: no Unicode normalisation, and case folding only inside LIKE.
- Row decoding and the wording of an ambiguity message; an empty table list resolves nothing.
- Discovery of ambient servers and the writing of the secret profile file are an input and an output value; which
  provider name means which transport is an input.
- Times are reals: rounding, NaN and infinities appear only as a kind of invalid field.
- The provenance check across chunks, chunk metadata, and the comparison report built on valid entries.
- Profile lookup, data-format adapters, casts, linters, reports and Studio: easy members or plumbing.
