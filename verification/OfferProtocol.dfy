/** Many workers, one database: the routing procedures as a state machine.

    Every repository statement is one atomic step. A procedure of several
    statements leaves its remaining statements as a task, so any number of them
    interleave freely, and a task that never runs again is a worker that died. */
module OfferProtocol {
  import opened CallTypes
  import R = RowSteps

  type TaskId = nat

  /** What a procedure still has to do. */
  datatype Task =
    | PassRecord(call: CallId, agent: AgentId, kind: PassKind)  // passOffer: withdrawn, not yet recorded
    | PassRelease(call: CallId, agent: AgentId)                 // passOffer: recorded, not yet released
    | OverflowRelease(call: CallId, agent: AgentId)             // callOverflowed: moved, agent not yet released
    | OverflowClear(call: CallId)                               // callOverflowed: missed set not yet cleared
    | TransferMove(call: CallId, from: Option<AgentId>, to: AgentId, live: bool)  // target claimed, call not yet moved
    | TransferMark(call: CallId, from: Option<AgentId>, to: AgentId, live: bool)  // moved, not yet marked as a handover
    | TransferRelease(call: CallId, agent: AgentId)             // old agent not yet released
    | TransferUndo(call: CallId, agent: AgentId)                // the move failed, target not yet released
    | EndedRelease(call: CallId, agent: AgentId)                // the call is over: settle, or the safety net
    | DrainScan(available: set<AgentId>, readAt: nat)           // drainQueue: members read
    | DrainClear(call: CallId, available: set<AgentId>, readAt: nat, candidates: set<AgentId>)
    | DrainClaim(call: CallId, available: set<AgentId>, readAt: nat, candidates: set<AgentId>)
  {
    /** The call and agent the task still has to settle: it will release the
        agent from the call, or move the call to the agent. */
    function Debt(): Option<(CallId, AgentId)> {
      match this
      case PassRecord(call, agent, _) => Some((call, agent))
      case PassRelease(call, agent) => Some((call, agent))
      case OverflowRelease(call, agent) => Some((call, agent))
      case TransferMove(call, _, to, _) => Some((call, to))
      case TransferMark(call, from, _, _) => if from.Some? then Some((call, from.value)) else None
      case TransferRelease(call, from) => Some((call, from))
      case TransferUndo(call, to) => Some((call, to))
      case _ => None
    }

    /** The hold its next statement frees. */
    function Releases(): Option<(CallId, AgentId)> {
      match this
      case PassRelease(call, agent) => Some((call, agent))
      case OverflowRelease(call, agent) => Some((call, agent))
      case TransferRelease(call, from) => Some((call, from))
      case TransferUndo(call, to) => Some((call, to))
      case EndedRelease(call, agent) => Some((call, agent))
      case _ => None
    }

    predicate Drains() { DrainScan? || DrainClear? || DrainClaim? }
  }

  /** An offer its agent declined, with the tick at which it was claimed. */
  datatype Decline = Decline(call: CallId, agent: AgentId, heldSince: nat)

  /** The tables, the offer history and every worker's unfinished tasks. The
      last three fields only observe: `clock` counts steps, `heldSince` is the
      tick at which an agent's hold last changed, `declines` logs each decline. */
  datatype State = State(
    w: World,
    time: Time,
    nextCall: CallId,
    declined: set<(CallId, AgentId)>,
    missed: set<(CallId, AgentId)>,
    tasks: map<TaskId, Task>,
    clock: nat,
    heldSince: map<AgentId, nat>,
    declines: set<Decline>)

  datatype Step =
    | Advance(seconds: nat)
    | NewCall(row: Call)
    | DeleteCall(call: CallId)
    | SetShift(agent: AgentId, shift: Availability)
    | ClaimAndAssign(agent: AgentId, call: CallId, anyShift: bool)
    | HoldForOwnCall(agent: AgentId, call: CallId)
    | Accept(call: CallId, agent: AgentId)
    | Answer(call: CallId)
    | EnterQueue(call: CallId, queue: Option<QueueId>)
    | UpdateQueue(call: CallId, queue: Option<QueueId>)
    | LeaveIvr(call: CallId, transferred: bool)
    | PassOffer(id: TaskId, call: CallId, agent: AgentId, kind: PassKind, expiredBefore: Option<Time>)
    | Overflow(id: TaskId, call: CallId, fromQueue: QueueId, toQueue: QueueId, offered: Option<AgentId>)
    | Transfer(id: TaskId, call: CallId, from: Option<AgentId>, to: AgentId, live: bool)
    | ClaimHandover(call: CallId, agent: AgentId)
    | ReturnHandover(call: CallId, agent: AgentId, offeredBy: Time)
    | ExpireHandover(call: CallId, agent: AgentId, offeredBy: Time)
    | End(id: TaskId, call: CallId, read: Option<AgentId>, failed: bool, only: Option<Status>)
    | FindHeldByEnded(id: TaskId, agent: AgentId)
    | StartDrain(id: TaskId, members: set<AgentId>)
    | DrainPick(id: TaskId, call: CallId)
    | DrainTry(id: TaskId, agent: AgentId)
    | DrainNext(id: TaskId)
    | Run(id: TaskId)

  function Init(agents: map<AgentId, Availability>): State {
    State(World(map a | a in agents :: Agent(agents[a], None, false), map[]), 0, 0, {}, {}, map[],
          0, map a | a in agents :: 0, {})
  }

  /** What every step keeps: the agents, the ids given out, and that a call
      which is over or gone stays so. */
  ghost predicate Grows(s: State, t: State) {
    && t.w.agents.Keys == s.w.agents.Keys
    && t.nextCall >= s.nextCall
    && (forall c: CallId | c < s.nextCall && !s.w.ActiveCall(c) :: !t.w.ActiveCall(c))
    && (forall c: CallId | c < s.nextCall && c in t.w.calls :: c in s.w.calls)
  }

  /** The call is its agent's, with no offer pending. */
  predicate Answered(w: World, c: CallId) {
    c in w.calls && w.calls[c].agent.Some? && w.calls[c].offeredAt.None?
  }

  ghost predicate KeepsAnswered(s: State, t: State, c: CallId) {
    c < s.nextCall && Answered(s.w, c) && c in t.w.calls
    ==> Answered(t.w, c) && t.w.calls[c].agent == s.w.calls[c].agent
  }

  function Apply(s: State, step: Step): State {
    var t := Effect(s, step);
    t.(clock := s.clock + 1, heldSince := Stamps(s, t.w))
  }

  function RunAll(s: State, steps: seq<Step>): State
    decreases |steps|
  {
    if steps == [] then s else Apply(RunAll(s, steps[..|steps| - 1]), steps[|steps| - 1])
  }

  lemma RunMore(s: State, steps: seq<Step>, step: Step)
    ensures RunAll(s, steps + [step]) == Apply(RunAll(s, steps), step)
  {
    assert (steps + [step])[..|steps|] == steps;
  }

  lemma {:induction false} RunSplit(s: State, xs: seq<Step>, ys: seq<Step>)
    ensures RunAll(s, xs + ys) == RunAll(RunAll(s, xs), ys)
    decreases |ys|
  {
    if ys == [] {
      assert xs + ys == xs;
    } else {
      var k := |ys| - 1;
      assert xs + ys == (xs + ys[..k]) + [ys[k]];
      RunSplit(s, xs, ys[..k]);
      RunMore(s, xs + ys[..k], ys[k]);
    }
  }

  function Stamps(s: State, w: World): map<AgentId, nat> {
    map a | a in w.agents ::
      if a in s.w.agents && a in s.heldSince && s.w.agents[a].busy == w.agents[a].busy then s.heldSince[a] else s.clock
  }

  // ---- One step ----

  function Effect(s: State, step: Step): State {
    if step.Run? then (if step.id in s.tasks then TaskRun(s, step.id, s.tasks[step.id]) else s)
    else if ChangesOneRow(step) then RowPut(s, step.call, NewRow(s, step))
    else if BeginsTask(step) then Begun(s, step)
    else if Drains(step) then Drained(s, step)
    else TableChanged(s, step)
  }

  /** Statements on one call row, which change no task. */
  predicate ChangesOneRow(step: Step) {
    step.Answer? || step.EnterQueue? || step.UpdateQueue? || step.LeaveIvr? || step.Accept?
    || step.ClaimHandover? || step.ReturnHandover? || step.ExpireHandover?
  }

  /** Statements that may begin a task. */
  predicate BeginsTask(step: Step) {
    step.PassOffer? || step.Overflow? || step.Transfer? || step.End? || step.FindHeldByEnded?
  }

  predicate Drains(step: Step) { step.StartDrain? || step.DrainPick? || step.DrainTry? || step.DrainNext? }

  /** The call's new row, if the statement's guard matches. */
  function NewRow(s: State, step: Step): (r: Option<Call>)
    requires ChangesOneRow(step)
    ensures r.Some? ==> step.call in s.w.calls && KeepsRow(s.w.calls[step.call], r.value)
  {
    if step.call !in s.w.calls then None
    else
      var row := s.w.calls[step.call];
      match step
      case Accept(c, a) => Accepted(s.w, c, a)
      case Answer(_) => R.Answer(row)
      case EnterQueue(_, q) => Some(R.EnterQueue(row, q, s.time))
      case UpdateQueue(_, q) => Some(row.(queue := q))
      case LeaveIvr(_, transferred) => R.LeaveIvr(row, transferred)
      case ClaimHandover(_, a) => R.ClaimHandover(row, a)
      case ReturnHandover(_, a, offeredBy) => R.ReturnHandover(row, a, offeredBy, s.time)
      case ExpireHandover(_, a, offeredBy) => R.ExpireHandover(row, a, offeredBy)
  }

  function Begun(s: State, step: Step): State
    requires BeginsTask(step)
  {
    match step
    case PassOffer(id, c, a, kind, before) => OfferPassed(s, id, c, a, kind, before)
    case Overflow(id, c, from, to, offered) => Overflowed(s, id, c, from, to, offered)
    case Transfer(id, c, from, to, live) => TransferBegun(s, id, c, from, to, live)
    case End(id, c, read, failed, only) => Ended(s, id, c, read, failed, only)
    case FindHeldByEnded(id, a) => FoundHeldByEnded(s, id, a)
  }

  function Drained(s: State, step: Step): State
    requires Drains(step)
  {
    match step
    case StartDrain(id, members) => DrainStarted(s, id, members)
    case DrainPick(id, c) => DrainPicked(s, id, c)
    case DrainTry(id, a) => DrainTried(s, id, a)
    case DrainNext(id) => DrainMovedOn(s, id)
  }

  /** Statements on the tables that neither begin nor continue a task. */
  function TableChanged(s: State, step: Step): State {
    match step
    case Advance(seconds) => s.(time := s.time + seconds)
    case NewCall(row) => Created(s, row)
    case DeleteCall(c) => Deleted(s, c)
    case SetShift(a, shift) => ShiftSet(s, a, shift)
    case ClaimAndAssign(a, c, anyShift) => s.(w := R.ClaimAndAssign(s.w, a, c, anyShift, s.time))
    case HoldForOwnCall(a, c) => s.(w := R.Hold(s.w, a, c))
    case _ => s
  }

  /** A guarded statement's new row of one call, if its guard matched. */
  predicate KeepsRow(before: Call, r: Call) {
    && (r.Active() ==> before.Active())
    && (before.agent.Some? && before.offeredAt.None? ==> r.agent == before.agent && r.offeredAt.None?)
  }

  function RowPut(s: State, c: CallId, r: Option<Call>): State { s.(w := R.Put(s.w, c, r)) }

  function Begin(s: State, id: TaskId, task: Task): State
  {
    s.(tasks := s.tasks[id := task])
  }

  function Finish(s: State, id: TaskId): State
  {
    s.(tasks := s.tasks - {id})
  }

  /** A row created by CallRepository.create: live, not offered to anyone. */
  function Created(s: State, row: Call): State
  {
    if row.Active() && row.offeredAt.None?
    then s.(w := s.w.(calls := s.w.calls[s.nextCall := row]), nextCall := s.nextCall + 1)
    else s
  }

  /** Retention deletes calls that are over. */
  function Deleted(s: State, c: CallId): State
  {
    if s.w.ActiveCall(c) then s else s.(w := s.w.(calls := s.w.calls - {c}))
  }

  function ShiftSet(s: State, a: AgentId, shift: Availability): State
  {
    if a in s.w.agents then s.(w := s.w.(agents := s.w.agents[a := s.w.agents[a].(shift := shift)])) else s
  }

  /** The agent of an accept exists: calls.agent_id references agents. */
  function Accepted(w: World, c: CallId, a: AgentId): Option<Call> {
    if c in w.calls && a in w.agents then R.Accept(w.calls[c], a) else None
  }

  function OfferPassed(s: State, id: TaskId, c: CallId, a: AgentId, kind: PassKind, before: Option<Time>): State
  {
    if c !in s.w.calls || id in s.tasks then s else
    var r := R.Withdraw(s.w.calls[c], a, before);
    if r.None? then s else
    var t := Begin(s.(w := R.Put(s.w, c, r)), id, PassRecord(c, a, kind));
    if kind == Declined && a in s.heldSince
    then t.(declines := s.declines + {Decline(c, a, s.heldSince[a])})
    else t
  }

  function Overflowed(s: State, id: TaskId, c: CallId, from: QueueId, to: QueueId, offered: Option<AgentId>): State
  {
    if c !in s.w.calls || id in s.tasks then s else
    var r := R.Overflow(s.w.calls[c], from, to, offered, s.time);
    if r.None? then s
    else Begin(s.(w := R.Put(s.w, c, r)), id,
               if offered.Some? then OverflowRelease(c, offered.value) else OverflowClear(c))
  }

  /** The transfer reads the call's agent (`from`), claims the target, and
      refuses a target equal to the agent it read only after that claim. */
  function TransferBegun(s: State, id: TaskId, c: CallId, from: Option<AgentId>, to: AgentId, live: bool): State
  {
    if c >= s.nextCall || id in s.tasks || !R.CanClaim(s.w, to, false) then s
    else
      var t := s.(w := R.ClaimForCall(s.w, to, c));
      if from == Some(to) then t else Begin(t, id, TransferMove(c, from, to, live))
  }

  /** The guarded commit; the winner then settles, releasing the agent of the
      row it had read. */
  function Ended(s: State, id: TaskId, c: CallId, read: Option<AgentId>, failed: bool, only: Option<Status>): State
  {
    if c !in s.w.calls || id in s.tasks then s else
    var r := if failed then R.Fail(s.w.calls[c]) else R.Terminate(s.w.calls[c], only);
    if r.None? then s else
    var t := s.(w := R.Put(s.w, c, r));
    if read.Some? then Begin(t, id, EndedRelease(c, read.value)) else t
  }

  /** The safety net reads an agent held by a call that is over or gone. */
  function FoundHeldByEnded(s: State, id: TaskId, a: AgentId): State
  {
    if id !in s.tasks && a in s.w.agents && s.w.agents[a].busy.Some? && !s.w.ActiveCall(s.w.agents[a].busy.value)
    then Begin(s, id, EndedRelease(s.w.agents[a].busy.value, a))
    else s
  }

  function AvailableOf(w: World, members: set<AgentId>): set<AgentId> {
    set a | a in members && a in w.agents && !w.agents[a].deleted && w.agents[a].Reported() == Available
  }

  function DrainStarted(s: State, id: TaskId, members: set<AgentId>): State
  {
    if id in s.tasks then s
    else Begin(s, id, DrainScan(AvailableOf(s.w, members), s.clock))
  }

  function DeclinedOf(s: State, c: CallId, available: set<AgentId>): set<AgentId> {
    set a | a in available && (c, a) in s.declined
  }

  function MissedOf(s: State, c: CallId, available: set<AgentId>): set<AgentId> {
    set a | a in available && (c, a) in s.missed
  }

  /** The history read for one waiting call: declined members are out, missed
      ones too unless every available member left has missed it. */
  function DrainPicked(s: State, id: TaskId, c: CallId): State
  {
    if id in s.tasks && s.tasks[id].DrainScan? then
      var available := s.tasks[id].available;
      var notDeclined := available - DeclinedOf(s, c, available);
      var untried := notDeclined - MissedOf(s, c, available);
      if untried == {} && notDeclined != {}
      then Begin(s, id, DrainClear(c, available, s.tasks[id].readAt, notDeclined))
      else Begin(s, id, DrainClaim(c, available, s.tasks[id].readAt, untried))
    else s
  }

  function DrainTried(s: State, id: TaskId, a: AgentId): State
  {
    if id in s.tasks && s.tasks[id].DrainClaim? && a in s.tasks[id].candidates then
      var t := s.tasks[id];
      if R.ClaimOutcomeOf(s.w, a, t.call, false) == R.Assigned
      then Finish(s.(w := R.ClaimAndAssign(s.w, a, t.call, false, s.time)), id)
      else Begin(s, id, DrainClaim(t.call, t.available, t.readAt, t.candidates - {a}))
    else s
  }

  function DrainMovedOn(s: State, id: TaskId): State
  {
    if id in s.tasks && s.tasks[id].DrainClaim?
    then Begin(s, id, DrainScan(s.tasks[id].available, s.tasks[id].readAt))
    else s
  }

  function Moved(w: World, c: CallId, from: Option<AgentId>, to: AgentId, now: Time): Option<Call> {
    if c !in w.calls then None
    else if from.Some? then R.MoveAgent(w.calls[c], from.value, to)
    else R.Assign(w.calls[c], to, now)
  }

  function Marked(w: World, c: CallId, to: AgentId, live: bool, now: Time): Option<Call> {
    if live && c in w.calls then R.MarkHandover(w.calls[c], to, now) else None
  }

  /** A task's next statement. */
  function TaskRun(s: State, id: TaskId, task: Task): State
    requires id in s.tasks
  {
    match task
    case PassRecord(c, a, kind) =>
      Begin(if kind == Declined then s.(declined := s.declined + {(c, a)}) else s.(missed := s.missed + {(c, a)}),
            id, PassRelease(c, a))
    case PassRelease(c, a) => Finish(s.(w := R.Release(s.w, a, c)), id)
    case OverflowRelease(c, a) => Begin(s.(w := R.Release(s.w, a, c)), id, OverflowClear(c))
    case OverflowClear(c) => Finish(MissedCleared(s, c), id)
    case TransferMove(c, from, to, live) =>
      var r := Moved(s.w, c, from, to, s.time);
      if r.Some? then Begin(s.(w := R.Put(s.w, c, r)), id, TransferMark(c, from, to, live))
      else Begin(s, id, TransferUndo(c, to))
    case TransferMark(c, from, to, live) =>
      var u := s.(w := R.Put(s.w, c, Marked(s.w, c, to, live, s.time)));
      if from.Some? then Begin(u, id, TransferRelease(c, from.value)) else Finish(u, id)
    case TransferRelease(c, from) => Finish(s.(w := R.Release(s.w, from, c)), id)
    case TransferUndo(c, to) => Finish(s.(w := R.Release(s.w, to, c)), id)
    case EndedRelease(c, a) => Finish(s.(w := R.Release(s.w, a, c)), id)
    case DrainClear(c, available, readAt, candidates) =>
      Begin(MissedCleared(s, c), id, DrainClaim(c, available, readAt, candidates))
    case DrainScan(_, _) => Finish(s, id)
    case DrainClaim(_, _, _, _) => s
  }

  function MissedCleared(s: State, c: CallId): State
  {
    s.(missed := set p | p in s.missed && p.0 != c)
  }

  // ---- What every step keeps ----

  /** The call a step's transfer statement is about, and the hold it frees. */
  function Transferred(s: State, step: Step): Option<CallId> {
    if step.Run? && step.id in s.tasks && (s.tasks[step.id].TransferMove? || s.tasks[step.id].TransferMark?)
    then Some(s.tasks[step.id].call)
    else None
  }

  function Released(s: State, step: Step): Option<(CallId, AgentId)> {
    if step.Run? && step.id in s.tasks then s.tasks[step.id].Releases() else None
  }

  /** From `s` to `t`, agents and ids given out stay and a call that is over stays
      over; an answered call but `moved` keeps its agent; and of all holds only
      `freed` ends. */
  ghost predicate Framed(s: State, t: State, moved: Option<CallId>, freed: Option<(CallId, AgentId)>) {
    && Grows(s, t)
    && (forall c: CallId :: moved == Some(c) || KeepsAnswered(s, t, c))
    && (forall c: CallId, a: AgentId | s.w.Holds(c, a) :: t.w.Holds(c, a) <==> freed != Some((c, a)))
  }

  lemma RowPutFramed(s: State, c: CallId, r: Option<Call>)
    requires r.Some? ==> c in s.w.calls && KeepsRow(s.w.calls[c], r.value)
    ensures Framed(s, RowPut(s, c, r), None, None)
  {
  }

  lemma SameRowsFramed(s: State, u: State, t: State, moved: Option<CallId>, freed: Option<(CallId, AgentId)>)
    requires Framed(s, u, moved, freed) && t.w == u.w && t.nextCall == u.nextCall
    ensures Framed(s, t, moved, freed)
  {
  }

  lemma ReleaseFramed(s: State, a: AgentId, c: CallId)
    ensures Framed(s, s.(w := R.Release(s.w, a, c)), None, Some((c, a)))
  {
  }

  lemma ClaimFramed(s: State, a: AgentId, c: CallId, anyShift: bool)
    ensures Framed(s, s.(w := R.ClaimAndAssign(s.w, a, c, anyShift, s.time)), None, None)
  {
  }

  lemma ClaimForCallFramed(s: State, a: AgentId, c: CallId)
    ensures Framed(s, s.(w := R.ClaimForCall(s.w, a, c)), None, None)
  {
  }

  lemma MoveFramed(s: State, c: CallId, from: Option<AgentId>, to: AgentId)
    ensures Framed(s, s.(w := R.Put(s.w, c, Moved(s.w, c, from, to, s.time))), Some(c), None)
  {
  }

  lemma MarkFramed(s: State, c: CallId, to: AgentId, live: bool)
    ensures Framed(s, s.(w := R.Put(s.w, c, Marked(s.w, c, to, live, s.time))), Some(c), None)
  {
  }

  lemma TaskFrame(s: State, id: TaskId)
    requires id in s.tasks
    ensures Framed(s, TaskRun(s, id, s.tasks[id]), Transferred(s, Run(id)), Released(s, Run(id)))
  {
    var task := s.tasks[id];
    var t := TaskRun(s, id, task);
    if task.Releases().Some? {
      var (c, a) := task.Releases().value;
      ReleaseFramed(s, a, c);
      SameRowsFramed(s, s.(w := R.Release(s.w, a, c)), t, None, Some((c, a)));
    } else if task.TransferMove? {
      MoveFramed(s, task.call, task.from, task.to);
      var u := s.(w := R.Put(s.w, task.call, Moved(s.w, task.call, task.from, task.to, s.time)));
      SameRowsFramed(s, u, t, Some(task.call), None);
    } else if task.TransferMark? {
      MarkFramed(s, task.call, task.to, task.live);
      var u := s.(w := R.Put(s.w, task.call, Marked(s.w, task.call, task.to, task.live, s.time)));
      SameRowsFramed(s, u, t, Some(task.call), None);
    }
  }

  lemma PassedFramed(s: State, id: TaskId, c: CallId, a: AgentId, kind: PassKind, before: Option<Time>)
    ensures Framed(s, OfferPassed(s, id, c, a, kind, before), None, None)
  {
    if c in s.w.calls { RowPutFramed(s, c, R.Withdraw(s.w.calls[c], a, before)); }
  }

  lemma OverflowFramed(s: State, id: TaskId, c: CallId, from: QueueId, to: QueueId, offered: Option<AgentId>)
    ensures Framed(s, Overflowed(s, id, c, from, to, offered), None, None)
  {
    if c in s.w.calls { RowPutFramed(s, c, R.Overflow(s.w.calls[c], from, to, offered, s.time)); }
  }

  lemma EndFramed(s: State, id: TaskId, c: CallId, read: Option<AgentId>, failed: bool, only: Option<Status>)
    ensures Framed(s, Ended(s, id, c, read, failed, only), None, None)
  {
    if c in s.w.calls {
      RowPutFramed(s, c, if failed then R.Fail(s.w.calls[c]) else R.Terminate(s.w.calls[c], only));
    }
  }

  lemma TransferFramed(s: State, id: TaskId, c: CallId, from: Option<AgentId>, to: AgentId, live: bool)
    ensures Framed(s, TransferBegun(s, id, c, from, to, live), None, None)
  {
    ClaimForCallFramed(s, to, c);
  }

  lemma BegunFramed(s: State, step: Step)
    requires BeginsTask(step)
    ensures Framed(s, Begun(s, step), None, None)
  {
    match step
    case PassOffer(id, c, a, kind, before) => PassedFramed(s, id, c, a, kind, before);
    case Overflow(id, c, from, to, offered) => OverflowFramed(s, id, c, from, to, offered);
    case Transfer(id, c, from, to, live) => TransferFramed(s, id, c, from, to, live);
    case End(id, c, read, failed, only) => EndFramed(s, id, c, read, failed, only);
    case FindHeldByEnded(id, a) =>
  }

  lemma DrainedFramed(s: State, step: Step)
    requires Drains(step)
    ensures Framed(s, Drained(s, step), None, None)
  {
    if step.DrainTry? && step.id in s.tasks && s.tasks[step.id].DrainClaim? {
      ClaimFramed(s, step.agent, s.tasks[step.id].call, false);
    }
  }

  lemma CreatedFramed(s: State, row: Call)
    ensures Framed(s, Created(s, row), None, None)
  {
  }

  lemma DeletedFramed(s: State, c: CallId)
    ensures Framed(s, Deleted(s, c), None, None)
  {
  }

  lemma ShiftFramed(s: State, a: AgentId, shift: Availability)
    ensures Framed(s, ShiftSet(s, a, shift), None, None)
  {
  }

  lemma HoldFramed(s: State, a: AgentId, c: CallId)
    ensures Framed(s, s.(w := R.Hold(s.w, a, c)), None, None)
  {
  }

  lemma TableFramed(s: State, step: Step)
    ensures Framed(s, TableChanged(s, step), None, None)
  {
    match step
    case NewCall(row) => CreatedFramed(s, row);
    case DeleteCall(c) => DeletedFramed(s, c);
    case SetShift(a, shift) => ShiftFramed(s, a, shift);
    case ClaimAndAssign(a, c, anyShift) => ClaimFramed(s, a, c, anyShift);
    case HoldForOwnCall(a, c) => HoldFramed(s, a, c);
    case _ =>
  }

  lemma EffectFramed(s: State, step: Step)
    ensures Framed(s, Effect(s, step), Transferred(s, step), Released(s, step))
  {
    if step.Run? { if step.id in s.tasks { TaskFrame(s, step.id); } }
    else if ChangesOneRow(step) { RowPutFramed(s, step.call, NewRow(s, step)); }
    else if BeginsTask(step) { BegunFramed(s, step); }
    else if Drains(step) { DrainedFramed(s, step); }
    else { TableFramed(s, step); }
  }

  /** In any state and for any step: agents and ids given out stay, a call that is
      over stays over, only its own transfer changes an answered call's agent, and
      a hold ends exactly when a release of that agent from that call runs. */
  lemma StepFrame(s: State, step: Step)
    ensures Framed(s, Apply(s, step), Transferred(s, step), Released(s, step))
    ensures Apply(s, step).clock == s.clock + 1 && Apply(s, step).heldSince == Stamps(s, Apply(s, step).w)
  {
    EffectFramed(s, step);
    SameRowsFramed(s, Effect(s, step), Apply(s, step), Transferred(s, step), Released(s, step));
  }
}
