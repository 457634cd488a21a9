/** What each guarded statement of AgentRepository and CallRepository does to
    the rows. A row step gives the new row, or None when its guard matches no
    row; every step is atomic. */
module RowSteps {
  import opened CallTypes

  // ---- Rows of `calls` ----

  /** The claim's half on the call row: a waiting inbound call gets its agent. */
  function Assign(r: Call, a: AgentId, now: Time): Option<Call> {
    if r.agent.None? && r.RingingInbound() && !r.InIvr()
    then Some(r.(agent := Some(a), offeredAt := Some(now)))
    else None
  }

  /** A ringing offer taken back, for a ring timeout only one made by then. */
  function Withdraw(r: Call, a: AgentId, expiredBefore: Option<Time>): Option<Call> {
    if r.agent == Some(a) && r.RingingInbound() && r.offeredAt.Some?
       && (expiredBefore.Some? ==> r.offeredAt.value <= expiredBefore.value)
    then Some(r.(agent := None, offeredAt := None))
    else None
  }

  /** A waiting call moved on, with the offer the scan saw. */
  function Overflow(r: Call, from: QueueId, to: QueueId, offered: Option<AgentId>, now: Time): Option<Call> {
    if r.queue == Some(from) && r.RingingInbound() && r.agent == offered
       && (r.agent.None? || r.offeredAt.Some?)
    then Some(r.(queue := Some(to), queuedAt := Some(now), overflows := r.overflows + 1,
                 agent := None, offeredAt := None))
    else None
  }

  /** The accept claim. */
  function Accept(r: Call, a: AgentId): Option<Call> {
    if r.Active() && (r.agent.None? || r.agent == Some(a)) && !r.InIvr()
    then Some(r.(agent := Some(a), offeredAt := None))
    else None
  }

  /** A transfer's move, from the agent it read. */
  function MoveAgent(r: Call, from: AgentId, to: AgentId): Option<Call> {
    if r.Active() && r.agent == Some(from) && !r.InIvr() then Some(r.(agent := Some(to))) else None
  }

  function MarkHandover(r: Call, a: AgentId, now: Time): Option<Call> {
    if r.agent == Some(a) && r.status == InProgress then Some(r.(offeredAt := Some(now))) else None
  }

  function ClaimHandover(r: Call, a: AgentId): Option<Call> {
    if r.agent == Some(a) && r.status == InProgress then Some(r.(offeredAt := None)) else None
  }

  function ReturnHandover(r: Call, a: AgentId, offeredBy: Time, now: Time): Option<Call> {
    if r.agent == Some(a) && r.status == InProgress && r.offeredAt.Some? && r.offeredAt.value <= offeredBy
    then Some(r.(status := Ringing, phase := Some(Queued), queuedAt := Some(now)))
    else None
  }

  function ExpireHandover(r: Call, a: AgentId, offeredBy: Time): Option<Call> {
    if r.agent == Some(a) && r.status == InProgress && r.offeredAt.Some? && r.offeredAt.value <= offeredBy
    then Some(r.(offeredAt := None))
    else None
  }

  /** The answer: RINGING becomes IN_PROGRESS. */
  function Answer(r: Call): Option<Call> {
    if r.status == Ringing then Some(r.(status := InProgress)) else None
  }

  function EnterQueue(r: Call, queue: Option<QueueId>, now: Time): Call {
    r.(queuedAt := Some(now), queue := if queue.Some? then queue else r.queue)
  }

  /** The IVR lets a live call go: into the queue to ring, or to nowhere. */
  function LeaveIvr(r: Call, transferred: bool): Option<Call> {
    if !r.Active() then None
    else if transferred then Some(r.(status := Ringing, phase := Some(Queued)))
    else Some(r.(phase := None))
  }

  /** A plain end, optionally only from one status. */
  function Terminate(r: Call, only: Option<Status>): Option<Call> {
    if r.Active() && (only.Some? ==> r.status == only.value)
    then Some(r.(status := Terminated, phase := None, offeredAt := None))
    else None
  }

  function Fail(r: Call): Option<Call> {
    if r.Active() then Some(r.(status := Failed, phase := None)) else None
  }

  // ---- Both tables ----

  /** An UPDATE ... WHERE id = c: the row step applied to the row, if any. */
  function Lift(w: World, c: CallId, step: Call -> Option<Call>): Option<Call> {
    if c in w.calls then step(w.calls[c]) else None
  }

  /** The table after an UPDATE of call c that yields row r, or matched nothing. */
  function Put(w: World, c: CallId, r: Option<Call>): World {
    if r.Some? then w.(calls := w.calls[c := r.value]) else w
  }

  function SetBusy(w: World, a: AgentId, busy: Option<CallId>): World
    requires a in w.agents
  {
    w.(agents := w.agents[a := w.agents[a].(busy := busy)])
  }

  predicate CanClaim(w: World, a: AgentId, anyShift: bool) {
    a in w.agents && w.agents[a].busy.None? && (anyShift || w.agents[a].OnShift())
    && !w.agents[a].deleted && !w.OnActiveCall(a, None)
  }

  datatype ClaimOutcome = AgentNotFree | CallTaken | Assigned

  function ClaimOutcomeOf(w: World, a: AgentId, c: CallId, anyShift: bool): ClaimOutcome {
    if !CanClaim(w, a, anyShift) then AgentNotFree
    else if c in w.calls && Assign(w.calls[c], a, 0).Some? then Assigned
    else CallTaken
  }

  /** Claim and assignment in one transaction: both rows change, or neither. */
  function ClaimAndAssign(w: World, a: AgentId, c: CallId, anyShift: bool, now: Time): World {
    if ClaimOutcomeOf(w, a, c, anyShift) == Assigned
    then SetBusy(Put(w, c, Assign(w.calls[c], a, now)), a, Some(c))
    else w
  }

  function ClaimForCall(w: World, a: AgentId, c: CallId): World {
    if CanClaim(w, a, false) then SetBusy(w, a, Some(c)) else w
  }

  predicate CanHold(w: World, a: AgentId, c: CallId) {
    a in w.agents && w.agents[a].busy in {None, Some(c)} && !w.agents[a].deleted
    && !w.OnActiveCall(a, Some(c)) && w.ActiveCall(c) && w.calls[c].agent == Some(a)
  }

  function Hold(w: World, a: AgentId, c: CallId): World {
    if CanHold(w, a, c) then SetBusy(w, a, Some(c)) else w
  }

  function Release(w: World, a: AgentId, c: CallId): World {
    if w.Holds(c, a) then SetBusy(w, a, None) else w
  }
}
