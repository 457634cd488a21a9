# Call routing, IVR and call endings: a verified model

This project models the part of Callio in which many workers share one database
and have to agree: who is offered a waiting call, who holds which agent, how a
call ends, and what a caller hears in the IVR. The rest of the project covers
the smaller protocols around it: overflow, the safety net, reports, the
Idempotency-Key of the Management API and the agent client's call registry.

`dafny verify dfyconfig.toml` checks everything.

## How it is modelled

- A row of `agents` or `calls` is a datatype (`CallTypes`). What a guarded
  UPDATE does to a row is a function that gives the new row, or `None` when the
  guard matches nothing (`RowSteps`). The repositories are the class
  `Tables.Database`, whose methods are proved to do exactly that to its fields,
  and what that is is said column by column as well (`RowLaws`).
- `OfferProtocol` is the system as a state machine. One statement is one atomic
  step; a procedure of several statements leaves its remaining statements as a
  task, and any number of tasks interleave freely. A task that never runs again
  is a worker that died. `OfferLaws` reads its steps off the columns; `OfferInvariant`,
  `OfferStranding`, `OfferTheorems`, `OfferDeclines` and `OfferRaces` are about its
  runs.
- Code that runs without interleaving is imperative: the coordinator's drain,
  the reconciliation of the stored order, the offer history, the timeout scan,
  the IVR engine, the report and the pre-handler are classes and methods with
  the loops of the source, each proved against a specification function that the
  lemmas are about. `ProtocolLinks` shows that each of these serial procedures
  (passing an offer on, overflowing, a drain, a pass of the safety net) is a run
  of the interleaved protocol, with the same rows and history at its end.
- `Finalization` and `IdempotencyRuns` are further machines in the same style:
  one call row with any number of racing enders, and one key table with any
  number of racing requests. `IdempotencyReplay` says what a stored response is good
  for, and that a request alone does what the pre-handler does.
- `IvrEngine` models the engine's fields together with what players and timers
  still owe it, so that a stale or an orphaned one could be told apart. `IvrEndings`
  reads where an event leads, and how a session ends, off the flow's nodes and edges.

`NOW()` and `Date.now()` are parameters. Ids, times and counters are unbounded.

## What came out

**Offers are held, but not unconditionally.** "A call ringing an agent holds that
agent" is false of the code as it stands. The inductive invariant behind it (held
offers, backed releases, one settlement per call and agent) survives a step if
and only if the step is orderly, `OfferInvariant.SoundIffOrderly`:

1. an accept takes an unassigned call only for an agent nobody still has to settle
   with that call (a decline or an overflow may not have released them yet);
2. a call is moved away only from an agent it holds (a RING_ALL accept assigns the
   call before it holds the agent);
3. a handover is marked only on an agent the call holds.

A second invariant is independent of the first: an agent held by a live call is
that call's agent, or somebody still has to settle the two. It survives a step if
and only if the step leaves no hold behind, `OfferStranding.AccountedIff`:

4. a transfer's target is not the agent the transfer read on the call:
   `src/core/events/handlers/TransferEventHandler.js:46-52` claims the target
   before it refuses that case, and does not release it. It does no harm if the
   call is over or the two are being settled anyway.

Where both invariants hold, 1 and 4 are conditions on the rows a worker can read
first (`OfferStranding.ConditionsOnTheRows`). Each run theorem assumes only the
conditions it needs: held offers, exact releases and declines 1 to 3, nobody
stranded 4, and that an accepted call stays with its agent none. Each is needed:
for each of these theorems and each of its conditions there is a run from the
empty database that breaks the condition in a single step, every other step
respecting all four, and then a call rings a free agent
(`OfferRaces.HeldOffersNeedThem`), a release still owed is about to free an agent
from a later hold by a live call of theirs (`OfferRaces.ExactReleasesNeedThem`), a
drain gives a call back to its decliner (`OfferRaces.DeclinesNeedThem`), or an
agent is stranded (`OfferRaces.NobodyStrandedNeedsIt`).

**NO_ANSWER beside an answer time** remains exactly if a local end gives that
reason to a call it sees answered and nothing corrects it afterwards
(`Finalization.ContradictionIff`). It happens: a hang-up chooses its reason from
the row it read (`src/core/events/handlers/TerminationEventHandler.js:53-61`), and
the agent may answer before it commits. After a provider's end with an answer time,
NO_ANSWER remains exactly if a local failure carried it, which no caller in the
repository does.

**A silent caller leaves the IVR exactly if** the play nodes ahead of them do not
form a circle (`IvrTermination.SilentCallerLeavesIff`), and one who falls silent
later exactly if no play node of such a chain is playing then
(`IvrTermination.FallingSilentIff`); the condition is computable from the flow
(`IvrTermination.LeadsOut`).

**A ring timeout spares newer offers**, whatever runs between its scan and its
withdrawal, down to the second: it takes back exactly the offers made by the time
the scan read (`OfferLaws.PassTakesBackIff`, `OfferLaws.NewerOffersSurvive`).

**An expired wait can end a call that is being answered.** The scan passes over calls
an agent has accepted, but the end that follows asks only that the call still rings
(`src/core/routing/QueueTimeoutService.js:142-149`), which it does until the accept is
through. An accept in between is safe exactly if the wait moves the call on instead
(`QueueTimeouts.AnsweringIsSparedIff`, `QueueTimeouts.AnsweringCanEnd`).

**A key can execute twice** only after a take-over or an expiry; both happen. Else
a stored response answers every retry until the key expires
(`IdempotencyReplay.RetryGetsTheAnswer`).

**A member left out of one drain's list loses their place** in the round-robin
order, because the reconciler is given the filtered list
(`QueueFairness.LeftOutGoesToTheTail`). Fairness is therefore stated over the
list passed each time.

## Model

| member | source | states |
|---|---|---|
| OfferInvariant.SoundIffOrderly | src/persistence/CallRepository.js:588-691 | In every state of the invariant (offers held, unpaid releases find their hold, one settlement per call and agent), one step of any worker keeps it if and only if the step is orderly: conditions 1 to 3 |
| OfferStranding.AccountedIff | src/core/events/handlers/TransferEventHandler.js:33-72 | In every state in which nobody is stranded, offers held or not, one step keeps that if and only if it leaves no hold nobody settles: condition 4 |
| OfferStranding.ConditionsOnTheRows | src/core/events/handlers/TransferEventHandler.js:46-52 | Where both invariants hold, conditions 1 and 4 are ones a worker can read off the rows |
| OfferTheorems.SoundRunIff | src/persistence/CallRepository.js:588-691 | A run stays in the invariant all along if and only if every step is orderly |
| OfferTheorems.OffersAreHeld | src/persistence/AgentRepository.js:195-278 | In every interleaving of steps respecting conditions 1 to 3 an offer still ringing, or a handover still waiting, is to an agent held by that very call, and no agent has two |
| OfferTheorems.QuietMeansNobodyStranded | src/persistence/AgentRepository.js:271-278 | In every interleaving respecting condition 4, with no task left that owes a settlement, an agent held by a live call is that call's agent |
| OfferTheorems.OwedHoldLasts | src/core/routing/AgentAssignmentCoordinator.js:313-367 | In every interleaving respecting conditions 1 to 3, from a withdrawal, overflow or move until the procedure's own release the agent stays held by the call through one and the same hold, or the call is over; so a delayed release never frees a newer hold |
| OfferTheorems.OwnCallKeepsItsAgent | src/core/routing/AgentAssignmentCoordinator.js:195-208 | After any run respecting conditions 1 to 3, no step of any worker frees an agent from a live call that is theirs |
| OfferTheorems.SafetyNetKeepsLiveHolds | src/core/routing/AgentAssignmentCoordinator.js:195-208 | In every run, orderly or not and whatever the interleaving, a release by the safety net or by the settling of an ended call frees no agent held by a live call |
| OfferTheorems.AcceptSticks | src/persistence/CallRepository.js:603-630 | Once an accept cleared the offer, nothing but a transfer moves the call to another agent, in any interleaving |
| OfferTheorems.OneAgentWins | src/persistence/CallRepository.js:619-630 | Two accepts that both take effect on a call with no transfer between them are by one agent |
| OfferDeclines.DeclinerNotOfferedAgain | src/core/routing/AgentAssignmentCoordinator.js:313-323 | In every run respecting conditions 1 to 3, a drain whose member read came after a declined offer was claimed never offers that call to the decliner, whatever runs in between |
| OfferDeclines.RunSettled | src/core/routing/AgentAssignmentCoordinator.js:236-259 | The invariant behind it: declines are recorded or about to be, before the agent is released, and no later reader has the decliner as a candidate |
| OfferRaces.HeldOffersNeedThem | src/core/events/handlers/TransferEventHandler.js:33-72 | Held offers need conditions 1, 2 and 3: for each, a run from the empty database with one step against it, every other step respecting all four, that ends with a live inbound call ringing an agent who is on no call |
| OfferRaces.DeclinesNeedThem | src/core/routing/AgentAssignmentCoordinator.js:236-259 | So do declines: for each, such a run in which a drain that read its members after a declined offer was claimed gives the call back to the decliner |
| OfferRaces.ExactReleasesNeedThem | src/persistence/AgentRepository.js:271-278 | So do exact releases: for each, such a run in which a task that owed a release all along is about to free a hold that began later, of an agent whose live call it is |
| OfferRaces.NobodyStrandedNeedsIt | src/core/events/handlers/TransferEventHandler.js:46-52 | That nobody is stranded needs condition 4: such a run that ends with no task left and an agent held by a live call of somebody else |
| OfferProtocol.StepFrame | src/persistence/CallRepository.js:532-691 | In any state, for any step: agents and ids given out stay, ended calls stay ended, an answered call keeps its agent but for its own transfer, and a hold ends if and only if a release of that agent from that call runs |
| OfferLaws.HoldsBeginWithTheFree | src/persistence/AgentRepository.js:195-269 | In any state, whatever the step: a hold begins only for an agent who is not deleted, is on shift (or it is their own call, or a claim that rings any shift) and is the agent of no live call, save the very call that takes them as its own |
| OfferLaws.ClaimTakesIff | src/persistence/AgentRepository.js:195-233 | The claim changes both rows, as its columns say, if and only if the agent is on no call, not deleted, on shift unless any shift will do, and the agent of no live call, and the call is an unassigned ringing inbound one out of the IVR; else neither |
| OfferLaws.DrainTakesIff | src/core/routing/AgentAssignmentCoordinator.js:244-256 | So for each try of a drain |
| OfferLaws.TransferTakesIff | src/core/events/handlers/TransferEventHandler.js:33-52 | A transfer holds its target if and only if the target is such an agent, on shift |
| OfferLaws.TransferMovesIff | src/persistence/CallRepository.js:588-616 | Its move takes a live call out of the IVR from the agent it read, or an unassigned one nobody had; otherwise the target is left to be released |
| OfferLaws.TransferMarksIff | src/core/events/handlers/TransferEventHandler.js:60-71 | A moved call becomes a handover if and only if it was read as in progress and is so with the target; the agent it came from is left to be released |
| OfferLaws.PassTakesBackIff | src/persistence/CallRepository.js:668-679 | In any state a pass takes back the call's offer, and leaves it to be recorded, if and only if it rings that agent and, for a ring timeout, was made by the time the scan read; else it changes nothing |
| OfferLaws.NewerOffersSurvive | src/persistence/CallRepository.js:664-679 | Over any run from any state: a ring timeout whose scan read before the run began leaves alone every offer made in it, also one to the same agent |
| OfferLaws.StatusMovesOnlySo | src/persistence/CallRepository.js:566-781 | In any state, whatever the step: a call's status moves only from ringing to in progress by an answer, back to ringing by the IVR's transfer or a handover nobody took, and from a live one to its end |
| OfferLaws.EndTakesIff | src/core/calls/CallTerminator.js:56-76 | An end takes a live call, in the status asked for, keeps its agent on the row, and leaves the agent its winner had read to be released; else it changes nothing |
| OfferLaws.AnswerTakesIff | src/persistence/CallRepository.js:410-416 | An answer takes a ringing call to in progress, changes nothing else of it, and takes no other |
| OfferLaws.EnterQueueTakes | src/persistence/CallRepository.js:656-662 | A call that enters a queue waits there from this instant, in its own queue if none is named |
| OfferLaws.MadeAndDeleted | src/persistence/CallRepository.js:22-75 | A call is made live and offered to nobody, under a new id, and deleted only once it is over |
| OfferLaws.SetAndPut | src/persistence/CallRepository.js:440-442 | Setting a shift and putting a call into a queue change that column and nothing else |
| OfferLaws.LeaveIvrTakesIff | src/core/ivr/IvrCoordinator.js:335-345 | The IVR lets a live call go, to ring in its queue or to nowhere, and leaves alone one that is over |
| ProtocolLinks.PassOfferRuns | src/core/routing/AgentAssignmentCoordinator.js:313-323 | The run of passOffer's three statements from any state withdraws the offer, records the pass and releases the agent as the serial method does, and leaves no task |
| ProtocolLinks.OverflowRuns | src/core/routing/AgentAssignmentCoordinator.js:344-355 | The run of an overflow's statements moves the call on, releases whoever it rang and ends its round, as the serial methods do |
| ProtocolLinks.DrainRuns | src/core/routing/AgentAssignmentCoordinator.js:236-259 | Every serial drain is a run of the protocol's reads and claims, ending with the same rows, the same history and no task |
| ProtocolLinks.PassAndDrainRuns | src/core/routing/AgentAssignmentCoordinator.js:313-336 | So is the whole of serial passOffer with the drain that routes the call again |
| ProtocolLinks.SafetyNetRuns | src/core/routing/AgentAssignmentCoordinator.js:195-208 | So is a pass of the safety net |
| ProtocolLinks.DrainReadsHistory | src/core/routing/OfferHistory.js:29-43 | A protocol drain's candidates are the available members the history allows, and it clears the missed set exactly when the round is over |
| Tables.Database.ClaimAgentAndAssignCall | src/persistence/AgentRepository.js:195-233 | The two-row claim: both rows change or neither, the outcome names which guard failed, and the guards are those of the columns: no call, on shift unless any shift will do, not deleted, no live call of theirs |
| Tables.Database.ClaimAgentForCall | src/persistence/AgentRepository.js:237-246 | An agent on shift, not deleted, on no call and the agent of no live one is held by the call; otherwise nothing changes |
| Tables.Database.HoldForOwnCall | src/persistence/AgentRepository.js:252-269 | The agent is held only for a live call already theirs, and the result says whether it now holds them |
| Tables.Database.ReleaseFromCall | src/persistence/AgentRepository.js:271-278 | Frees the agent from that call only |
| Tables.Database.FindHeldByEndedCalls | src/persistence/AgentRepository.js:283-293 | Finds distinct agents held by calls that are over or gone, as many as there are up to the limit |
| Tables.Database.WithdrawOffer | src/persistence/CallRepository.js:668-679 | Takes back a ringing inbound offer of that agent, for a timeout only one made by then; else nothing changes |
| Tables.Database.OverflowToQueue | src/persistence/CallRepository.js:681-691 | Moves a waiting call on only with the queue and offer the scan saw |
| Tables.Database.AssignCallToAgentIfEligible | src/persistence/CallRepository.js:619-630 | The accept claim: unassigned or already the agent's, live, out of the IVR; the offer is cleared |
| Tables.Database.UpdateCallAgentIfCurrent | src/persistence/CallRepository.js:588-600 | A transfer's move, only from the agent it read |
| Tables.Database.MarkHandoverOffered | src/persistence/CallRepository.js:532-540 | A handover is marked only on a call in progress with that agent |
| Tables.Database.ClaimHandover | src/persistence/CallRepository.js:542-549 | The target accepts a handover of a call in progress with them: its offer is cleared |
| Tables.Database.ReturnHandoverToQueue | src/persistence/CallRepository.js:566-576 | A handover made by then and not accepted rings in its queue again, its offer standing |
| Tables.Database.ExpireHandover | src/persistence/CallRepository.js:578-586 | A handover made by then and not accepted is taken off its target |
| Tables.Database.TerminateCallIfNotTerminated | src/persistence/CallRepository.js:768-781 | Ends a live call, if a status is required only in that status |
| OfferHistory.OfferHistory.Eligible | src/core/routing/OfferHistory.js:29-43 | Returns the members the call may be offered to, and clears its missed set exactly when the round is over; other calls' histories are unchanged |
| OfferHistory.NewRoundOnlyWhenAllMissed | src/core/routing/OfferHistory.js:34-42 | A drain starts a new round if and only if some available member has not declined and every such member has missed it |
| OfferHistory.OfferableIff | src/core/routing/OfferHistory.js:29-43 | An available member may be offered the call if and only if they have not declined it, and have not missed it either unless all such members have |
| OfferHistory.OfferedOncePerRound | src/core/routing/OfferHistory.js:17-43 | In any serial run, a second offer of a call to one member means the first was missed, not declined, and a new round started in between |
| OfferHistory.DeclineLasts | src/core/routing/OfferHistory.js:17-22 | A decline outlasts every round |
| OfferHistory.MissLasts | src/core/routing/OfferHistory.js:24-27 | A miss lasts until a new round starts |
| QueueOrder.QueueOrder.ReconcileQueueOrder | src/core/routing/CallAgentAssignmentService.js:80-124 | The loops store exactly the reconciled order, fields and join counter, without duplicates, and return exactly the available members passed, each once: of two of them, the one with the lower place in the stored order first |
| QueueOrder.QueueOrder.KeepPlaces | src/core/routing/CallAgentAssignmentService.js:93-107 | The first loop keeps those who are available, or offline for a minute at most |
| QueueOrder.QueueOrder.JoinTail | src/core/routing/CallAgentAssignmentService.js:109-115 | The second loop appends the newcomers with consecutive join numbers |
| QueueOrder.NextOrderDistinct | src/core/routing/CallAgentAssignmentService.js:87-117 | The stored order has no duplicates |
| QueueOrder.ReturnsAvailableInOrder | src/core/routing/CallAgentAssignmentService.js:117-124 | The result is exactly the available members passed, each once, and their places in the stored order rise |
| QueueFairness.OthersLeave | src/core/routing/CallAgentAssignmentService.js:93-107 | Whoever is neither available nor holding a place is not stored |
| QueueFairness.StaysIff | src/core/routing/CallAgentAssignmentService.js:93-107 | Whoever was in the order stays in it if and only if they are passed as available, or as offline with no more than a minute gone; on a call, or not passed, they leave it at once |
| QueueFairness.KeepsRelativeOrder | src/core/routing/CallAgentAssignmentService.js:93-107 | Two members who both stay keep their order |
| QueueFairness.ReconcileTwiceIsOnce | src/core/routing/CallAgentAssignmentService.js:80-124 | Reconciling again at the same instant changes nothing |
| QueueFairness.PlaceIsHeldAMinute | src/core/routing/CallAgentAssignmentService.js:93-107 | A member who was available and goes offline has their place after any further reconciliations if and only if none of them came more than a minute after the first |
| QueueFairness.FieldsOfTheOrder | src/core/routing/CallAgentAssignmentService.js:93-115 | Whoever stays keeps the time and number they joined with; newcomers get this instant and the next numbers in turn |
| QueueFairness.NewcomersByIds | src/core/routing/CallAgentAssignmentService.js:109-115 | Those who join in one reconciliation do so in the order of their ids |
| QueueFairness.NeverOvertaken | src/core/routing/CallAgentAssignmentService.js:80-124 | Over any sequence of lists in which x is passed as available, nobody new gets ahead of x and x's place never grows |
| QueueFairness.JoinedLaterStaysBehind | src/core/routing/CallAgentAssignmentService.js:109-115 | Whoever joins after x stays behind x for as long |
| QueueFairness.PlaceShrinks | src/core/routing/CallAgentAssignmentService.js:93-107 | x moves up whenever somebody ahead leaves |
| QueueFairness.LeftOutGoesToTheTail | src/core/routing/AgentAssignmentCoordinator.js:245-255 | A member left out of one list passed rejoins behind every available member who was in it |
| QueueDrain.FindOldestUnassignedCalls | src/persistence/CallRepository.js:253-264 | The scan returns distinct unassigned calls of the queue, longest ringing first; if one is left out, the limit is reached and it has not rung longer than any returned |
| QueueDrain.AvailableAreOnLine | src/persistence/QueueRepository.js:45-56 | A member is read as available if and only if they are a member, not deleted, on no call and on shift |
| QueueDrain.ByPriorityIsSorted | src/core/routing/CallAgentAssignmentService.js:156-160 | Priority order: each available member once, lowest priority value first, then lowest id |
| QueueDrain.PickTakes | src/core/routing/CallAgentAssignmentService.js:129-160 | A pick finds a member if and only if some eligible available member can be claimed |
| QueueDrain.FirstFit | src/core/routing/AgentAssignmentCoordinator.js:236-259 | A drain gives out a call if and only if some waiting call has a member who can take it; it is the first such call and its first such member in strategy order, under the order stored when the drain comes to it; nothing else changes but that order, reconciled once for each call looked at |
| QueueDrain.DrainServesFirst | src/core/routing/AgentAssignmentCoordinator.js:244-256 | By places and columns: the drain gives the first call anybody could be served for to the member whom nobody ahead of in the stored order, or of better priority or of the same and a lower id, could be served; if it gives none, nobody could be served for any |
| QueueDrain.NobodyAvailableTakesNothing | src/core/routing/AgentAssignmentCoordinator.js:238-239 | Stopping early when no member is available loses no pair |
| Coordinator.AgentAssignmentCoordinator.ClaimInOrder | src/core/routing/CallAgentAssignmentService.js:129-145 | The claim loop takes the first candidate who can be claimed, unless another worker has the call, which it finds out exactly if some candidate could be claimed; every failed claim leaves both rows as they were |
| Coordinator.AgentAssignmentCoordinator.OfferCalls | src/core/routing/AgentAssignmentCoordinator.js:244-256 | The loop over waiting calls is the first-fit function with each call's own history, and the history has been looked at for exactly the calls up to the one given away |
| Coordinator.AgentAssignmentCoordinator.DrainQueue | src/core/routing/AgentAssignmentCoordinator.js:236-259 | Without interleaving the three attempts are one: the 25 oldest calls, first fit, the stored order and the history after the calls looked at |
| Coordinator.DrainGivesToTheFirst | src/core/routing/AgentAssignmentCoordinator.js:236-259 | So of the whole drain, with each call's own history: the call given away rings the member who comes first among those it allows, under the order stored with it |
| Coordinator.AgentAssignmentCoordinator.PassOffer | src/core/routing/AgentAssignmentCoordinator.js:313-336 | A pass withdraws, records, releases and routes the call again, or changes nothing |
| Coordinator.AgentAssignmentCoordinator.CallOverflowed | src/core/routing/AgentAssignmentCoordinator.js:344-367 | Releases whoever it rang, clears the call's missed set, keeping its declines, and routes it in its new queue |
| Coordinator.AgentAssignmentCoordinator.RouteWaitingCall | src/core/routing/AgentAssignmentCoordinator.js:374-394 | An inactive queue does nothing, a RING_ALL queue rings whom the history allows and changes no row, any other drains |
| Coordinator.RingAllRingsIff | src/core/routing/AgentAssignmentCoordinator.js:396-416 | A RING_ALL queue rings exactly the members not deleted, on no call and on shift who have not declined the call, and have not missed it unless all of these have |
| Coordinator.DeclinedGoesToAnother | src/core/routing/AgentAssignmentCoordinator.js:313-336 | However a declined call is routed again, in the same procedure, it is not given back to the decliner |
| Coordinator.AgentAssignmentCoordinator.ReleaseAgentsOfEndedCalls | src/core/routing/AgentAssignmentCoordinator.js:195-208 | A pass frees as many stranded agents as it found, at most 200, and nobody held by a live call |
| Coordinator.AgentAssignmentCoordinator.CleanupPasses | src/core/routing/AgentAssignmentCoordinator.js:195-208 | Enough passes with no new strandings leave nobody stranded |
| QueueTimeouts.QueueTimeoutService.WaitExpired | src/core/routing/QueueTimeoutService.js:128-149 | An expired wait moves the call on with what was read, or ends it while it still rings |
| QueueTimeouts.WaitMovesOnIff | src/core/routing/QueueTimeoutService.js:128-149 | In any state an expired wait moves the call on if and only if there is another, usable overflow queue and fewer than three overflows were read, only while the call rings in the queue and with the offer read, and it waits there anew, offered to nobody; otherwise it ends the call, and only while it rings |
| QueueTimeouts.ScanReadsIff | src/persistence/CallRepository.js:711-730 | The scan reads a call exactly if it rings in a queue, out of the IVR, and is not being answered |
| QueueTimeouts.AnsweringIsSparedIff | src/core/routing/QueueTimeoutService.js:128-149 | A call that an agent has accepted by the time the expired wait acts is spared if and only if the wait would have moved it on |
| QueueTimeouts.AnsweringCanEnd | src/core/routing/QueueTimeoutService.js:142-149 | It is not spared else: a run in which the scan reads a waiting call, an agent accepts it, and the expired wait ends it |
| QueueTimeouts.QueueTimeoutService.Tick | src/core/routing/QueueTimeoutService.js:49-71 | A scan does nothing while one runs here or a worker has the shared lock; otherwise it acts on each expired wait in turn, and the lock is free again |
| QueueTimeouts.OverflowsAreBounded | src/core/routing/QueueTimeoutService.js:28-67 | Over any number of scans by workers that may die, and any overflow graph: if the lock outlasts every scan, a call overflows at most three times and at most four expired waits take effect |
| QueueTimeouts.BoundedIff | src/core/routing/QueueTimeoutService.js:49-71 | The invariant behind the bound survives a step if and only if the step is not the lock expiring under a scan |
| QueueTimeouts.PastTheBoundIff | src/core/routing/QueueTimeoutService.js:128-149 | In any state, an expired wait takes a call past three overflows if and only if it acts on an older read with the same queue and offer, a smaller count and a usable target |
| QueueTimeouts.UnchangedReadTakesEffect | src/core/routing/QueueTimeoutService.js:128-149 | An expired wait that finds the row as read always raises the count or ends the call |
| QueueTimeouts.ExpiredLockExceedsTheBound | src/core/routing/QueueTimeoutService.js:55-67 | If the lock expires under a slow scan the bound fails: a run that overflows four times |
| Finalization.EndReason | src/core/channels/ChannelIngress.js:803-826 | A provider's end gives NO_ANSWER exactly to a caller who never reached an agent and held on, CANCELLED exactly to an inbound one who gave up within five seconds or as the agent accepted, else COMPLETED |
| Finalization.CallRow.FinalizeFromWebhook | src/persistence/CallRepository.js:806-845 | Late times are filled in even on a final row, the first ender decides, whoever stamped first keeps the stamp, and no NO_ANSWER is left beside an answer time |
| Finalization.CallRow.FinalizeCallAsFailed | src/persistence/CallRepository.js:852-882 | A provider failure outranks every earlier end and forces its reason, once |
| Finalization.CallRow.TerminateCallIfNotTerminated | src/persistence/CallRepository.js:768-781 | Ends a live row, in the required status if one is given, or changes nothing |
| Finalization.CallRow.MarkCallFailedIfNotFinal | src/persistence/CallRepository.js:749-759 | Fails a live row or changes nothing |
| Finalization.SameEnds | src/persistence/CallRepository.js:749-781 | The guarded ends of the routing model and of this one take effect on the same rows and leave the same status |
| Finalization.StatusOnlyRises | src/persistence/CallRepository.js:749-882 | In every state reached, live < TERMINATED < FAILED only rises, and a writer is told it ended the call exactly when its statement raised it |
| Finalization.EndsAtMostTwice | src/core/calls/CallTerminator.js:56-76 | Of any number of racing enders at most two win, the first alone saw the call live, and a second is a provider failure |
| Finalization.SettlesIff | src/core/calls/CallTerminator.js:56-76 | In every run a writer is told it ended the call if and only if its own statement did, so of CallTerminator.end callers at most one settles |
| Finalization.FinishedEndIsFinal | src/core/calls/CallTerminator.js:66-76 | After an unconditional end has finished the call is over for good, and media is closed only for calls that are over |
| Finalization.AnsweredBeatsNoAnswer | src/persistence/CallRepository.js:783-845 | On a call no IVR answered, once a provider's end with an answer time has finished, the row is final, and its reason is NO_ANSWER if and only if a local failure with that reason ended it |
| Finalization.AnsweredNeverNoAnswer | src/persistence/CallRepository.js:783-845 | So with the failures the repository has, whose reason is another, an answered end never leaves NO_ANSWER |
| Finalization.ContradictionIff | src/persistence/CallRepository.js:453-461 | When no writer owes a correction, NO_ANSWER stands beside an answer time if and only if a local end gave it to a call it saw answered and no correcting statement has run since |
| Finalization.NoAnswerCanStand | src/core/calls/CallTerminator.js:61-63 | The condition on failures is needed: one carrying NO_ANSWER stands though the provider's answer time is on the row |
| Finalization.ContradictionCanRest | src/core/events/handlers/TerminationEventHandler.js:53-61 | The contradiction arises: a hang-up reads the call ringing and unanswered, the agent answers, the hang-up commits the reason it chose |
| IvrEngine.Engine.NavigateTo | src/core/ivr/IvrEngine.js:120-160 | Entering a node leaves the old player and timer stopped and the session as the specification says, for every node type and a missing node (what that is: the IvrEndings rows) |
| IvrEndings.EventTakesCourse | src/core/ivr/IvrEngine.js:120-319 | In any state of a session not over, an event enters the node the flow's edges, tables and no-input settings lead it to, and completes with exactly that node's or its own action, if any |
| IvrEndings.RunEnds | src/core/ivr/IvrEngine.js:69-332 | Over every run, from the start or resumed: the session has completed with the action of the first node or event that ends it, and has not completed if there is none |
| IvrEndings.TransferredIff | src/core/ivr/IvrEngine.js:150-160 | Over every run: the caller is passed on to an agent with node n if and only if n is the last node entered and a transfer node; a hang-up node hangs up, a start or unknown node is an error, and time runs out only at a menu that does not replay where there is no hang-up node |
| IvrEndings.DigitFollowsItsEdge | src/core/ivr/IvrEngine.js:215-282 | In any state a run leads to, a digit at a menu takes the first of its edges for that digit |
| IvrEndings.DigitWithoutEdge | src/core/ivr/IvrEngine.js:215-282 | Without such an edge it follows the menu's own table to a node there is, or changes nothing |
| IvrEndings.PlayedFollowsItsEdge | src/core/ivr/IvrEngine.js:188-211 | A play node's prompt, once played, leads along the node's first edge, or hangs up without one |
| IvrEndings.ReplaysAfter | src/core/ivr/IvrEngine.js:120-136 | Replays are counted while the caller is silent at one menu, and from none again once another node is entered |
| IvrEndings.SilenceIsTimed | src/core/ivr/IvrEngine.js:162-295 | A menu heard to its end waits for the no-input time and then the grace period before the caller counts as silent |
| IvrEndings.ResumedEnters | src/core/ivr/IvrEngine.js:90-98 | Resuming enters the node there is, whatever became of the session before |
| IvrEndings.FirstOfKindIs | src/core/ivr/IvrEngine.js:384-389 | The start node and the hang-up node are the first of their type in the list |
| IvrEndings.LaterStands | src/core/ivr/IvrEngine.js:378-382 | Of the nodes with one id the last in the list stands |
| IvrEngine.Engine.OnPrompt | src/core/ivr/IvrEngine.js:177-211 | A prompt's end: the menu checks its own player, the play node goes on, a failure plays the error prompt |
| IvrEngine.Engine.OnDigit | src/core/ivr/IvrEngine.js:215-282 | A digit is routed by the first matching edge, else by the menu's own table, else ignored |
| IvrEngine.Engine.ExecuteTimeout | src/core/ivr/IvrEngine.js:297-319 | Up to three replays, then hang up; other actions go to the flow's hang-up node or complete |
| IvrEngine.Engine.StartAt | src/core/ivr/IvrEngine.js:90-98 | Resumes at a node there is, else starts the flow |
| IvrEngine.Engine.constructor | src/core/ivr/IvrEngine.js:378-382 | The index agrees with the flow, of two nodes with one id the later standing |
| IvrFlow.Flow.FirstOfKind | src/core/ivr/IvrEngine.js:384-389 | What it finds is a node of that type in the indexed flow |
| IvrSafety.RunIsSound | src/core/ivr/IvrEngine.js:109-186 | Under any order of digits, timers, prompt ends and stop: never a player and a timer together, a live timer is the armed one and belongs to the current menu, one completion at most, and until then something is awaited |
| IvrSafety.StaleIsInert | src/core/ivr/IvrEngine.js:177-211 | The end of any prompt but the awaited one, and anything after the session is over, changes nothing |
| IvrSafety.OneThingAwaited | src/core/ivr/IvrEngine.js:162-211 | At most one event is awaited at a time |
| IvrTermination.SilentCallerLeaves | src/core/ivr/IvrEngine.js:284-332 | A silent caller whose chain of play nodes ends hears at most that chain, four more prompts and the error prompt, in a bounded number of events, and completes once |
| IvrTermination.FallingSilentLeaves | src/core/ivr/IvrEngine.js:215-332 | The same holds of a caller who falls silent after pressing whatever they like, in any flow, unless a play node whose chain does not end is playing then: at most the play nodes and four prompts more, and one completion |
| IvrTermination.FallingSilentIff | src/core/ivr/IvrEngine.js:188-211 | In every state any run leads to, what is left for a caller silent from then on is bounded if and only if no play node whose chain does not end is playing |
| IvrTermination.CircleNeverLeaves | src/core/ivr/IvrEngine.js:188-211 | Otherwise there are silent runs of every length that do not complete |
| IvrTermination.SilentCallerLeavesIff | src/core/ivr/IvrEngine.js:120-211 | So a silent caller's session is bounded if and only if the chain ahead ends |
| IvrTermination.NoCircleIff | src/core/ivr/IvrEngine.js:188-211 | Every chain of play nodes ends if and only if no set of play nodes leads only to itself |
| IvrTermination.WhereItBegins | src/core/ivr/IvrEngine.js:69-98 | A run begins at the start node's first target or at the node resumed, or completes at once |
| CallReports.Add | src/core/reports/CallReports.js:30-60 | Counting a call adds its share: each counter's definition as a condition on the call |
| CallReports.CountersCount | src/core/reports/CallReports.js:30-60 | Each counter of a report is the number of its calls of that kind: inbound, answered, abandoned, missed, in progress, outbound, connected, talked, waited, queued, and answered in time |
| CallReports.LongestIsLongest | src/core/reports/CallReports.js:43-46 | The longest wait is that of a call answered from a queue, and none waited longer |
| CallReports.Calls | src/core/reports/CallReports.js:80-98 | The totals tally all rows, the buckets are the grid's starts, and each tallies the rows that start in it |
| CallReports.InOneBucket | src/core/reports/CallReports.js:84-91 | For every window, step and signed offset, a call of the window falls in exactly one bucket |
| CallReports.BucketIff | src/core/reports/CallReports.js:84 | A call's bucket is the one boundary, aligned to the offset, at or before it and less than a step away |
| CallReports.TotalsAreTheSum | src/core/reports/CallReports.js:80-98 | Every counter and sum of the totals is the sum over the buckets, and the longest wait the longest of theirs |
| CallReports.TallyIsConsistent | src/core/reports/CallReports.js:30-60 | In totals and buckets: inbound = answered + abandoned + missed + in progress, within <= waits <= measured, longest wait <= sum <= waits times longest |
| CallReports.ViewMakesSense | src/core/reports/CallReports.js:62-73 | What is shown agrees: average wait at most the longest, service level between 0 and 100 percent |
| CallReports.ServiceLevelIsTheShare | src/core/reports/CallReports.js:55-73 | The service level shown is the share, rounded to the nearest tenth of a percent, of the queued calls that were answered in time, of all that were answered or over; none is shown without such calls |
| CallReports.AveragesAreOfTheCalls | src/core/reports/CallReports.js:62-73 | The average wait and the average talk are those of the calls that waited and talked, rounded to the nearest, and the longest wait shown is the longest |
| Idempotency.KeyTable.PreHandle | src/http/v1/idempotency.js:52-81 | Without interleaving: a new or expired key executes, another request is refused, a stored response is replayed, an abandoned request is taken over, else the key is in use; other keys are untouched |
| Idempotency.KeyTable.Claim | src/persistence/IdempotencyKeyRepository.js:9-21 | Claims the key with a new id, or finds it taken |
| Idempotency.KeyTable.TakeOver | src/persistence/IdempotencyKeyRepository.js:36-43 | Takes over the row with that id, still in progress and idle long enough, if it is still there |
| IdempotencyReplay.SuccessIsStored | src/http/v1/idempotency.js:84-102 | In any run, when an undisturbed execution ends with a status below 500 and its statement succeeds, the key's row stays, completed with that status, and with the body if it was JSON |
| IdempotencyReplay.RetryGetsTheAnswer | src/http/v1/idempotency.js:52-81 | And until the key expires, whatever runs in between, every later request of that key is answered with exactly that response, or refused if it is another request; none executes |
| IdempotencyReplay.PreHandlerRuns | src/http/v1/idempotency.js:52-81 | In any state of a run, a request run alone does what the pre-handler does, case by case, and changes no other key's row |
| IdempotencyRuns.ReplayIsGenuine | src/http/v1/idempotency.js:64-72 | In every run a replayed response was produced by an execution of the same consumer, key and request, and a reuse refusal met a key claimed for another |
| IdempotencyRuns.OneExecutionAtATime | src/http/v1/idempotency.js:52-76 | Two executions of one key are in flight only if one was taken over or its key expired |
| IdempotencyRuns.SecondStartIff | src/http/v1/idempotency.js:52-76 | In any run, a step starts a second execution of a key beside one in flight if and only if it is that request claiming the key the first has lost, or taking over a row idle for two minutes; the first is disturbed from then on |
| IdempotencyRuns.NoneStartsAfterStored | src/http/v1/idempotency.js:84-102 | A stored response stays with its key and no execution of it starts, unless it expires or was taken over |
| IdempotencyRuns.RetryIsAnswered | src/http/v1/idempotency.js:53-72 | A retry that finds the stored response gets exactly it, or is refused for another request |
| IdempotencyRuns.FailureFreesKey | src/http/v1/idempotency.js:89-90 | A 5xx frees the key |
| IdempotencyRuns.TakeOverExecutesTwice | src/http/v1/idempotency.js:73-76 | A take-over does let two executions run at once |
| IdempotencyRuns.ExpiryExecutesTwice | src/http/v1/idempotency.js:60-63 | So does expiry |
| AgentRegistry.CallioAgent.Reconcile | sdk/agent-js/src/CallioAgent.js:283-320 | The two loops over the server's list and the calls held |
| AgentRegistry.CallioAgent.End | sdk/agent-js/src/Call.js:289-299 | A call object ends once, leaves the registry and is remembered |
| AgentRegistry.OneObjectPerCall | sdk/agent-js/src/CallioAgent.js:222-259 | Over any stream of events an id never dialled gets one call object and one callEnded at most, and is not held again after it |
| AgentRegistry.ListIsTheTruth | sdk/agent-js/src/CallioAgent.js:316-319 | After a list, every call held is named in it as this agent's, or still being dialled |
| AgentRegistry.ListKeepsIff | sdk/agent-js/src/CallioAgent.js:283-320 | In any run a list leaves a held call held, and in the same state, if and only if it names it as this agent's, over or not, or it is still being dialled |
| AgentRegistry.ListShowsTheCall | sdk/agent-js/src/CallioAgent.js:296-314 | A call the list names once, not held and not over before, rings if it is offered and on no device, is elsewhere if on another, connecting if on this one, and is not held otherwise |
| AgentRegistry.OfferRingsOnce | sdk/agent-js/src/CallioAgent.js:248-259 | An offer rings if its call is neither held nor over, and else changes nothing |
| AgentRegistry.EndCallIff | sdk/agent-js/src/CallioAgent.js:357-372 | The server's end ends the call held, for an end of its ringing only while it rings; any other changes nothing |
| AgentRegistry.TakenOutlivesRinging | sdk/agent-js/src/CallioAgent.js:357-367 | A call taken further, accepted here or elsewhere, is not ended by the end of its ringing |
| AgentRegistry.DialledTwice | sdk/agent-js/src/CallioAgent.js:146-151 | Why dialled ids are excepted: dialled twice, an id ends twice and the first end drops the second call |

## Left out

- OfferTheorems.OffersAreHeld: stated for runs respecting conditions 1 to 3, because each of those steps breaks it (`OfferRaces.HeldOffersNeedThem`).
- Coordinator.AgentAssignmentCoordinator.ReleaseAgentsOfEndedCalls: the drains of the tenants' queues after the pass (`AgentAssignmentCoordinator.js:204-206`) are not modelled.
- Which queues a freed agent is drained into is not stated: an overflow's and a transfer's release (`AgentAssignmentCoordinator.js:354`, `TransferEventHandler.js:69`) are followed by no drain of that agent's own queues, so a call there may wait until the next drain.
- Coordinator.AgentAssignmentCoordinator.DrainQueue: without interleaving no claim race is lost, so its second and third attempts do not arise; in the protocol a drain may begin again at any time.
- QueueTimeouts.QueueTimeoutService.WaitExpired: the guarded statement alone; what follows a move is `CallOverflowed`, and what follows an end (settling, media, the provider) is not modelled here.
- OfferHistory.OfferHistory.Eligible: the two set reads are one step; in the protocol too they are one read for a call.
- QueueOrder.QueueOrder.ReconcileQueueOrder: concurrent reconciliations of one queue and the JSON of the stored order are not modelled; member ids are distinct, as the primary key of `queue_members` makes them.
- QueueTimeouts.OverflowsAreBounded: that the lock outlasts every scan is a hypothesis; the source gives it thirty seconds and does not check it again.
- QueueTimeouts.QueueTimeoutService.Tick: models the expired waits of a scan; expired offers and handovers enter as steps of the interleaved protocol.
- AgentRegistry.OneObjectPerCall: call objects are numbered records of the registry, so aliasing of a call object is not captured; a listener that acts on another call in the middle of a list is not modelled.
- Finalization.AnsweredBeatsNoAnswer: the correction statement is assumed to run; the source logs its failure and goes on.
- IvrEngine.Engine.OnPrompt: a stopped player's promise is taken to resolve, and `createPlayer` not to throw.
- Writers without a guard: `updateStatus`, `updateState`, `markCallFailed`, `markIvrAutoAccepted`, and `updateCallState` on a call that is over (on a live one it is the step that takes a call out of the IVR). They can reopen or rewrite a final row, so the endings hold for the guarded steps.
- `softDelete` of an agent and `_lineMissed`: the first clears a hold, the second assigns a call without one. Agents created after the start are not modelled either: the set of agents is fixed in a run.
- `assignTransferredCall` and `claimMemberForTransfer`: they bypass the offer history. In the interleaved protocol a RING_ALL accept and a transfer enter as their repository statements, and ringing everyone, which changes no row, does not enter.
- The one-hour expiry of the offer history, and lock timing.
- The tombstone of an end that arrives before its offer.
- `IvrEngine.restart`, timer lengths, and the observer callbacks and logs of the engine.
- The report's queue and channel filters, the agents report and the live report.
- The fingerprint's hash is an opaque value, and a response's JSON an opaque body.
- Media, sockets, provider calls, push, storage, logging and metrics; participants, views, validators and retention.
