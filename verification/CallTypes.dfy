/** The rows every routing component shares: agents with the call that holds
    them, calls with the agent they are offered to or answered by. */
module CallTypes {

  type AgentId = nat
  type CallId = nat
  type QueueId = nat
  type Time = nat  // seconds, as NOW() stores them

  datatype Option<+T> = None | Some(value: T)

  /** The shift column of an agent, and the status an agent reports. The column
      may still hold ON_CALL, written by an older worker; it reads as on shift. */
  datatype Availability = Available | OnCall | Offline

  datatype Status = Initiated | Ringing | InProgress | Terminated | Failed

  datatype Phase = Ivr | Queued | Talking | OnHold

  datatype Direction = Inbound | Outbound

  /** How an agent passes on an offer: declining it, or letting it ring out. */
  datatype PassKind = Declined | Missed

  datatype Agent = Agent(shift: Availability, busy: Option<CallId>, deleted: bool) {
    predicate OnShift() { shift != Offline }

    function Reported(): Availability {
      if busy.Some? then OnCall else if shift == Offline then Offline else Available
    }
  }

  datatype Call = Call(
    status: Status,
    phase: Option<Phase>,
    direction: Direction,
    agent: Option<AgentId>,
    offeredAt: Option<Time>,
    queue: Option<QueueId>,
    queuedAt: Option<Time>,
    ringingAt: Time,
    overflows: nat)
  {
    predicate Active() { status in {Initiated, Ringing, InProgress} }

    predicate RingingInbound() { status == Ringing && direction == Inbound }

    predicate InIvr() { phase == Some(Ivr) }

    /** An offer the agent has not started answering: a ringing offer, or a
        handover waiting for its target. */
    predicate OfferedTo(a: AgentId) { Active() && agent == Some(a) && offeredAt.Some? }

    /** Waiting for an agent in its queue. */
    predicate Waiting() { RingingInbound() && agent.None? && phase in {None, Some(Queued)} }
  }

  datatype World = World(agents: map<AgentId, Agent>, calls: map<CallId, Call>) {
    predicate ActiveCall(c: CallId) { c in calls && calls[c].Active() }

    predicate Holds(c: CallId, a: AgentId) { a in agents && agents[a].busy == Some(c) }

    /** The agent is on an active call other than `except`. */
    predicate OnActiveCall(a: AgentId, except: Option<CallId>) {
      exists c | c in calls :: calls[c].Active() && calls[c].agent == Some(a) && Some(c) != except
    }
  }
}
