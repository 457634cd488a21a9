/** What the interleaved steps do to the rows, read off the columns: who can be
    claimed, and which offers a timeout may take back. */
module OfferLaws {
  import opened CallTypes
  import opened OfferProtocol
  import opened RowLaws
  import R = RowSteps

  // ---- Claims ----

  /** The step may begin a hold of an agent who is off shift: a call already theirs,
      or their own line ringing. */
  predicate AnyShift(step: Step) { step.HoldForOwnCall? || (step.ClaimAndAssign? && step.anyShift) }

  /** From `w` to `v` somebody on no call is held. */
  ghost predicate Begins(w: World, v: World, a: AgentId) {
    a in w.agents && w.agents[a].busy == None && a in v.agents && v.agents[a].busy != None
  }

  /** Nobody has deleted the agent, and they are on no live call but `own`. */
  ghost predicate Reachable(w: World, a: AgentId, own: Option<CallId>)
    requires a in w.agents
  {
    && !w.agents[a].deleted
    && forall d | d in w.calls && w.calls[d].agent == Some(a) && Live(w.calls[d]) :: own == Some(d)
  }

  lemma ClaimBegins(w: World, a: AgentId, c: CallId, anyShift: bool, now: Time, b: AgentId)
    requires Begins(w, R.ClaimAndAssign(w, a, c, anyShift, now), b)
    ensures b == a && Free(w, a, anyShift)
  {
    ClaimsTheFree(w, a, anyShift);
  }

  lemma HoldBegins(w: World, a: AgentId, c: CallId, b: AgentId)
    requires Begins(w, R.Hold(w, a, c), b)
    ensures b == a && Reachable(w, a, Some(c))
  {
    forall d | d in w.calls && w.calls[d].agent == Some(a) && Live(w.calls[d])
      ensures d == c
    {
      assert !w.OnActiveCall(a, Some(c));
    }
  }

  lemma TaskBeginsNone(s: State, id: TaskId, a: AgentId)
    requires id in s.tasks
    ensures !Begins(s.w, TaskRun(s, id, s.tasks[id]).w, a)
  {
  }

  lemma BegunBegins(s: State, step: Step, a: AgentId)
    requires BeginsTask(step) && Begins(s.w, Begun(s, step).w, a)
    ensures Free(s.w, a, false)
  {
    if step.Transfer? { ClaimsTheFree(s.w, step.to, false); }
  }

  lemma DrainBegins(s: State, step: Step, a: AgentId)
    requires Drains(step) && Begins(s.w, Drained(s, step).w, a)
    ensures Free(s.w, a, false)
  {
    if step.DrainTry? && step.id in s.tasks && s.tasks[step.id].DrainClaim? {
      ClaimBegins(s.w, step.agent, s.tasks[step.id].call, false, s.time, a);
    }
  }

  lemma TableBegins(s: State, step: Step, a: AgentId)
    requires Begins(s.w, TableChanged(s, step).w, a)
    ensures Reachable(s.w, a, if step.HoldForOwnCall? then Some(step.call) else None)
    ensures !AnyShift(step) ==> s.w.agents[a].shift in {Available, OnCall}
  {
    match step
    case ClaimAndAssign(b, c, anyShift) => ClaimBegins(s.w, b, c, anyShift, s.time, a);
    case HoldForOwnCall(b, c) => HoldBegins(s.w, b, c, a);
    case _ =>
  }

  /** In any state, whatever the step: a hold begins only for an agent who is not
      deleted, is on no live call (but the one that takes them, if it is theirs
      already) and is on shift, unless it is their own call or line. */
  lemma HoldsBeginWithTheFree(s: State, step: Step, a: AgentId)
    requires Begins(s.w, Apply(s, step).w, a)
    ensures !s.w.agents[a].deleted
    ensures !AnyShift(step) ==> s.w.agents[a].shift in {Available, OnCall}
    ensures forall d | d in s.w.calls && s.w.calls[d].agent == Some(a) && Live(s.w.calls[d]) ::
              step.HoldForOwnCall? && d == step.call
  {
    if step.Run? { if step.id in s.tasks { TaskBeginsNone(s, step.id, a); } }
    else if BeginsTask(step) { BegunBegins(s, step, a); }
    else if Drains(step) { DrainBegins(s, step, a); }
    else if !ChangesOneRow(step) { TableBegins(s, step, a); }
  }

  /** The rows once agent a is claimed for waiting call c. */
  function Taken(w: World, a: AgentId, c: CallId, now: Time): World
    requires a in w.agents && c in w.calls
  {
    World(w.agents[a := w.agents[a].(busy := Some(c))],
          w.calls[c := w.calls[c].(agent := Some(a), offeredAt := Some(now))])
  }

  lemma ClaimIs(w: World, a: AgentId, c: CallId, anyShift: bool, now: Time)
    ensures var v := R.ClaimAndAssign(w, a, c, anyShift, now);
            if Free(w, a, anyShift) && c in w.calls && Unassigned(w.calls[c]) then v == Taken(w, a, c, now) else v == w
  {
    ClaimsTheFree(w, a, anyShift);
  }

  /** A claim takes a free agent for a waiting call, both rows at once, and otherwise
      neither: in a drain, for a transfer's target the agent's row alone. */
  lemma ClaimTakesIff(s: State, a: AgentId, c: CallId, anyShift: bool)
    ensures var t := Apply(s, ClaimAndAssign(a, c, anyShift));
            if Free(s.w, a, anyShift) && c in s.w.calls && Unassigned(s.w.calls[c]) then t.w == Taken(s.w, a, c, s.time)
            else t.w == s.w
  {
    ClaimIs(s.w, a, c, anyShift, s.time);
  }

  lemma DrainTakesIff(s: State, id: TaskId, a: AgentId)
    requires id in s.tasks && s.tasks[id].DrainClaim? && a in s.tasks[id].candidates
    ensures var t, c := Apply(s, DrainTry(id, a)), s.tasks[id].call;
            if Free(s.w, a, false) && c in s.w.calls && Unassigned(s.w.calls[c]) then t.w == Taken(s.w, a, c, s.time)
            else t.w == s.w
  {
    ClaimIs(s.w, a, s.tasks[id].call, false, s.time);
  }

  lemma TransferTakesIff(s: State, id: TaskId, c: CallId, from: Option<AgentId>, to: AgentId, live: bool)
    requires id !in s.tasks && c < s.nextCall
    ensures var t := Apply(s, Transfer(id, c, from, to, live));
            if Free(s.w, to, false) then t.w == s.w.(agents := s.w.agents[to := s.w.agents[to].(busy := Some(c))])
            else t.w == s.w
  {
    ClaimsTheFree(s.w, to, false);
  }

  predicate TalksTo(r: Call, a: AgentId) { Live(r) && r.agent == Some(a) && r.phase != Some(Ivr) }

  /** The transfer's move takes the call from the agent it read, or a waiting call nobody
      had; otherwise the target is left to be released again. */
  lemma TransferMovesIff(s: State, id: TaskId, c: CallId, from: Option<AgentId>, to: AgentId, live: bool)
    requires id in s.tasks && s.tasks[id] == TransferMove(c, from, to, live)
    ensures var t := Apply(s, Run(id));
            if c in s.w.calls && if from == None then Unassigned(s.w.calls[c]) else TalksTo(s.w.calls[c], from.value)
            then var r := s.w.calls[c].(agent := Some(to));
                 && t.w == s.w.(calls := s.w.calls[c := if from == None then r.(offeredAt := Some(s.time)) else r])
                 && t.tasks == s.tasks[id := TransferMark(c, from, to, live)]
            else t.w == s.w && t.tasks == s.tasks[id := TransferUndo(c, to)]
  {
  }

  /** A moved call becomes a handover if it was read as live and is in progress with the
      target, and the agent it came from is left to be released. */
  lemma TransferMarksIff(s: State, id: TaskId, c: CallId, from: Option<AgentId>, to: AgentId, live: bool)
    requires id in s.tasks && s.tasks[id] == TransferMark(c, from, to, live)
    ensures var t := Apply(s, Run(id));
            && t.w == (if live && c in s.w.calls && s.w.calls[c].agent == Some(to) && s.w.calls[c].status == InProgress
                       then s.w.(calls := s.w.calls[c := s.w.calls[c].(offeredAt := Some(s.time))]) else s.w)
            && t.tasks == if from == None then s.tasks - {id} else s.tasks[id := TransferRelease(c, from.value)]
  {
  }

  // ---- What becomes of a call ----

  /** The status a step may move a call on to: ringing to in progress by an answer, any
      live one to ringing by the IVR's transfer, in progress back to ringing by a
      handover nobody took, and any live one to its end. */
  predicate MayMove(step: Step, c: CallId, before: Status, after: Status) {
    match step
    case Answer(d) => d == c && before == Ringing && after == InProgress
    case LeaveIvr(d, transferred) => d == c && transferred && after == Ringing && before in {Initiated, InProgress}
    case ReturnHandover(d, _, _) => d == c && before == InProgress && after == Ringing
    case End(_, d, _, failed, only) =>
      && d == c && before in {Initiated, Ringing, InProgress} && after == (if failed then Failed else Terminated)
      && (failed || only.None? || only == Some(before))
    case _ => false
  }

  ghost predicate StatusesMove(s: State, step: Step, t: State) {
    forall c | c in s.w.calls && c in t.w.calls && s.w.calls[c].status != t.w.calls[c].status ::
      MayMove(step, c, s.w.calls[c].status, t.w.calls[c].status)
  }

  lemma SameCalls(s: State, step: Step, t: State)
    requires t.w.calls == s.w.calls
    ensures StatusesMove(s, step, t)
  {
  }

  lemma PutMovesStatus(s: State, step: Step, c: CallId, r: Option<Call>)
    requires r.Some? ==> c in s.w.calls
    requires r.Some? && r.value.status != s.w.calls[c].status ==> MayMove(step, c, s.w.calls[c].status, r.value.status)
    ensures StatusesMove(s, step, s.(w := R.Put(s.w, c, r)))
  {
  }

  lemma TransferKeepsStatus(w: World, c: CallId, from: Option<AgentId>, to: AgentId, live: bool, now: Time)
    ensures var r := Moved(w, c, from, to, now);
            r.Some? ==> c in w.calls && r.value.status == w.calls[c].status
    ensures var r := Marked(w, c, to, live, now);
            r.Some? ==> c in w.calls && r.value.status == w.calls[c].status
  {
  }

  lemma TaskKeepsStatus(s: State, step: Step)
    requires step.Run? && step.id in s.tasks
    ensures StatusesMove(s, step, TaskRun(s, step.id, s.tasks[step.id]))
  {
    var t := TaskRun(s, step.id, s.tasks[step.id]);
    match s.tasks[step.id]
    case TransferMove(c, from, to, live) =>
      TransferKeepsStatus(s.w, c, from, to, live, s.time);
      PutMovesStatus(s, step, c, Moved(s.w, c, from, to, s.time));
    case TransferMark(c, from, to, live) =>
      TransferKeepsStatus(s.w, c, from, to, live, s.time);
      PutMovesStatus(s, step, c, Marked(s.w, c, to, live, s.time));
    case _ => SameCalls(s, step, t);
  }

  lemma NewRowMoves(s: State, step: Step)
    requires ChangesOneRow(step)
    ensures var r := NewRow(s, step);
            r.Some? && r.value.status != s.w.calls[step.call].status ==>
              MayMove(step, step.call, s.w.calls[step.call].status, r.value.status)
  {
  }

  lemma RowMovesStatus(s: State, step: Step)
    requires ChangesOneRow(step)
    ensures StatusesMove(s, step, RowPut(s, step.call, NewRow(s, step)))
  {
    NewRowMoves(s, step);
    PutMovesStatus(s, step, step.call, NewRow(s, step));
  }

  lemma PassKeepsStatus(s: State, step: Step)
    requires step.PassOffer?
    ensures StatusesMove(s, step, OfferPassed(s, step.id, step.call, step.agent, step.kind, step.expiredBefore))
  {
    if step.call in s.w.calls {
      PutMovesStatus(s, step, step.call, R.Withdraw(s.w.calls[step.call], step.agent, step.expiredBefore));
    }
  }

  lemma OverflowKeepsStatus(s: State, step: Step)
    requires step.Overflow?
    ensures StatusesMove(s, step, Overflowed(s, step.id, step.call, step.fromQueue, step.toQueue, step.offered))
  {
    if step.call in s.w.calls {
      PutMovesStatus(s, step, step.call,
                     R.Overflow(s.w.calls[step.call], step.fromQueue, step.toQueue, step.offered, s.time));
    }
  }

  lemma EndMovesStatus(s: State, step: Step)
    requires step.End?
    ensures StatusesMove(s, step, Ended(s, step.id, step.call, step.read, step.failed, step.only))
  {
    if step.call in s.w.calls {
      var r := s.w.calls[step.call];
      PutMovesStatus(s, step, step.call, if step.failed then R.Fail(r) else R.Terminate(r, step.only));
    }
  }

  lemma BegunMovesStatus(s: State, step: Step)
    requires BeginsTask(step)
    ensures StatusesMove(s, step, Begun(s, step))
  {
    match step
    case PassOffer(_, _, _, _, _) => PassKeepsStatus(s, step);
    case Overflow(_, _, _, _, _) => OverflowKeepsStatus(s, step);
    case End(_, _, _, _, _) => EndMovesStatus(s, step);
    case Transfer(_, _, _, _, _) => SameCalls(s, step, Begun(s, step));
    case FindHeldByEnded(_, _) => SameCalls(s, step, Begun(s, step));
  }

  lemma DrainedKeepsStatus(s: State, step: Step)
    requires Drains(step)
    ensures StatusesMove(s, step, Drained(s, step))
  {
  }

  lemma TableKeepsStatus(s: State, step: Step)
    requires !step.NewCall?
    ensures StatusesMove(s, step, TableChanged(s, step))
  {
  }

  /** In any state, whatever the step: no call changes its status in another way. */
  lemma StatusMovesOnlySo(s: State, step: Step)
    requires !step.NewCall?
    ensures StatusesMove(s, step, Apply(s, step))
  {
    if step.Run? { if step.id in s.tasks { TaskKeepsStatus(s, step); } }
    else if ChangesOneRow(step) { RowMovesStatus(s, step); }
    else if BeginsTask(step) { BegunMovesStatus(s, step); }
    else if Drains(step) { DrainedKeepsStatus(s, step); }
    else { TableKeepsStatus(s, step); }
  }

  /** An answer takes a ringing call and no other. */
  lemma AnswerTakesIff(s: State, c: CallId)
    ensures Apply(s, Answer(c)).w ==
            if c in s.w.calls && s.w.calls[c].status == Ringing
            then s.w.(calls := s.w.calls[c := s.w.calls[c].(status := InProgress)]) else s.w
  {
  }

  /** The IVR lets a live call go, to ring in its queue or to nowhere; a call that is
      over it leaves alone. */
  lemma LeaveIvrTakesIff(s: State, c: CallId, transferred: bool)
    ensures Apply(s, LeaveIvr(c, transferred)).w ==
            if c in s.w.calls && Live(s.w.calls[c]) then
              s.w.(calls := s.w.calls[c := if transferred then s.w.calls[c].(status := Ringing, phase := Some(Queued))
                                           else s.w.calls[c].(phase := None)])
            else s.w
  {
  }

  /** A call that enters a queue waits there from then on; with no queue named it stays
      in its own. */
  lemma EnterQueueTakes(s: State, c: CallId, queue: Option<QueueId>)
    requires c in s.w.calls
    ensures var r := s.w.calls[c];
            Apply(s, EnterQueue(c, queue)).w.calls ==
              s.w.calls[c := r.(queuedAt := Some(s.time), queue := if queue == None then r.queue else queue)]
  {
  }

  /** An end takes a live call, if one status is asked for only in that, and leaves to
      the ender that won the agent it had read to be released. */
  lemma EndTakesIff(s: State, id: TaskId, c: CallId, read: Option<AgentId>, failed: bool, only: Option<Status>)
    requires id !in s.tasks
    ensures var t := Apply(s, End(id, c, read, failed, only));
            if c in s.w.calls && Live(s.w.calls[c]) && (!failed && only.Some? ==> s.w.calls[c].status == only.value)
            then && c in t.w.calls && t.w.calls[c].status == (if failed then Failed else Terminated)
                 && t.w.calls[c].phase == None && t.w.calls[c].agent == s.w.calls[c].agent
                 && t.tasks == (if read.Some? then s.tasks[id := EndedRelease(c, read.value)] else s.tasks)
            else t.w == s.w && t.tasks == s.tasks
  {
  }

  /** A call is made live and offered to nobody, under a new id, and deleted only once it
      is over. */
  lemma MadeAndDeleted(s: State, row: Call, c: CallId)
    ensures var t := Effect(s, NewCall(row));
            Live(row) && row.offeredAt == None ==>
              t.w.calls == s.w.calls[s.nextCall := row] && t.nextCall == s.nextCall + 1
    ensures Effect(s, DeleteCall(c)).w.calls ==
              if c in s.w.calls && Live(s.w.calls[c]) then s.w.calls else s.w.calls - {c}
  {
  }

  /** A shift is set and a call put into a queue, and nothing else. */
  lemma SetAndPut(s: State, a: AgentId, shift: Availability, c: CallId, queue: Option<QueueId>)
    requires a in s.w.agents && c in s.w.calls
    ensures Effect(s, SetShift(a, shift)).w ==
              s.w.(agents := s.w.agents[a := s.w.agents[a].(shift := shift)])
    ensures Effect(s, UpdateQueue(c, queue)).w ==
              s.w.(calls := s.w.calls[c := s.w.calls[c].(queue := queue)])
  {
  }

  // ---- Ring timeouts ----

  /** The row of an offer that rings agent a. */
  predicate Rings(r: Call, a: AgentId) {
    r.status == Ringing && r.direction == Inbound && r.agent == Some(a) && r.offeredAt.Some?
  }

  /** In any state, a ring timeout takes back an offer made by the time it read, and
      no other; a decline takes back whatever offer of the agent rings. */
  lemma PassTakesBackIff(s: State, id: TaskId, c: CallId, a: AgentId, kind: PassKind, readAt: Option<Time>)
    requires id !in s.tasks
    ensures var t := Apply(s, PassOffer(id, c, a, kind, readAt));
            if c in s.w.calls && Rings(s.w.calls[c], a)
               && (readAt.Some? ==> s.w.calls[c].offeredAt.value <= readAt.value)
            then && t.w == s.w.(calls := s.w.calls[c := s.w.calls[c].(agent := None, offeredAt := None)])
                 && t.tasks == s.tasks[id := PassRecord(c, a, kind)]
            else t.w == s.w && t.tasks == s.tasks
  {
  }

  /** Offers standing in `u` that were not there in `s` were made since then. */
  ghost predicate MadeSince(s: State, u: State) {
    && s.time <= u.time
    && forall c | c in u.w.calls && u.w.calls[c].offeredAt.Some? ::
         || (c in s.w.calls && s.w.calls[c].offeredAt == u.w.calls[c].offeredAt)
         || s.time <= u.w.calls[c].offeredAt.value
  }

  /** A run only makes offers at its own time. */
  ghost predicate StampsNow(s: State, t: State) {
    && s.time <= t.time
    && forall c | c in t.w.calls && t.w.calls[c].offeredAt.Some? ::
         || (c in s.w.calls && s.w.calls[c].offeredAt == t.w.calls[c].offeredAt)
         || t.w.calls[c].offeredAt.value == s.time
  }

  lemma PutStampsNow(s: State, c: CallId, r: Option<Call>)
    requires r.Some? && c in s.w.calls ==> r.value.offeredAt in {None, s.w.calls[c].offeredAt, Some(s.time)}
    requires r.Some? ==> c in s.w.calls
    ensures StampsNow(s, s.(w := R.Put(s.w, c, r)))
  {
  }

  lemma TaskStampsNow(s: State, id: TaskId)
    requires id in s.tasks
    ensures StampsNow(s, TaskRun(s, id, s.tasks[id]))
  {
    match s.tasks[id]
    case TransferMove(c, from, to, _) => PutStampsNow(s, c, Moved(s.w, c, from, to, s.time));
    case TransferMark(c, _, to, live) => PutStampsNow(s, c, Marked(s.w, c, to, live, s.time));
    case _ =>
  }

  lemma NewRowStamp(s: State, step: Step)
    requires ChangesOneRow(step)
    ensures var r := NewRow(s, step);
            r.Some? ==> r.value.offeredAt in {None, s.w.calls[step.call].offeredAt, Some(s.time)}
  {
  }

  lemma RowStampsNow(s: State, step: Step)
    requires ChangesOneRow(step)
    ensures StampsNow(s, RowPut(s, step.call, NewRow(s, step)))
  {
    NewRowStamp(s, step);
    PutStampsNow(s, step.call, NewRow(s, step));
  }

  lemma EndStampsNow(s: State, id: TaskId, c: CallId, read: Option<AgentId>, failed: bool, only: Option<Status>)
    ensures StampsNow(s, Ended(s, id, c, read, failed, only))
  {
  }

  lemma OverflowStampsNow(s: State, id: TaskId, c: CallId, from: QueueId, to: QueueId, offered: Option<AgentId>)
    ensures StampsNow(s, Overflowed(s, id, c, from, to, offered))
  {
  }

  lemma BegunStampsNow(s: State, step: Step)
    requires BeginsTask(step)
    ensures StampsNow(s, Begun(s, step))
  {
    match step
    case Overflow(id, c, from, to, offered) => OverflowStampsNow(s, id, c, from, to, offered);
    case End(id, c, read, failed, only) => EndStampsNow(s, id, c, read, failed, only);
    case _ =>
  }

  lemma DrainStampsNow(s: State, step: Step)
    requires Drains(step)
    ensures StampsNow(s, Drained(s, step))
  {
  }

  lemma TableStampsNow(s: State, step: Step)
    ensures StampsNow(s, TableChanged(s, step))
  {
  }

  lemma StepStampsNow(s: State, step: Step)
    ensures StampsNow(s, Effect(s, step))
  {
    if step.Run? { if step.id in s.tasks { TaskStampsNow(s, step.id); } }
    else if ChangesOneRow(step) { RowStampsNow(s, step); }
    else if BeginsTask(step) { BegunStampsNow(s, step); }
    else if Drains(step) { DrainStampsNow(s, step); }
    else { TableStampsNow(s, step); }
  }

  lemma {:induction false} OffersMadeSince(s: State, steps: seq<Step>)
    ensures MadeSince(s, RunAll(s, steps))
    decreases |steps|
  {
    if steps != [] {
      var n := |steps| - 1;
      OffersMadeSince(s, steps[..n]);
      StepStampsNow(RunAll(s, steps[..n]), steps[n]);
    }
  }

  lemma NewerSurvives(u: State, id: TaskId, c: CallId, a: AgentId, kind: PassKind, readAt: Time)
    requires c in u.w.calls && u.w.calls[c].offeredAt.Some? ==> u.w.calls[c].offeredAt.value > readAt
    ensures var t := Apply(u, PassOffer(id, c, a, kind, Some(readAt)));
            t.w == u.w && t.tasks == u.tasks && t.declined == u.declined && t.missed == u.missed
  {
  }

  /** A scan reads an offer at time `readAt`. Whatever has run since a later moment
      `s`, and from whatever state: that scan's timeout leaves alone every offer
      made after `s`, also one to the same agent. */
  lemma NewerOffersSurvive(s: State, steps: seq<Step>, id: TaskId, c: CallId, a: AgentId, kind: PassKind, readAt: Time)
    requires readAt < s.time
    ensures var u := RunAll(s, steps);
            var t := Apply(u, PassOffer(id, c, a, kind, Some(readAt)));
            c in u.w.calls && (c in s.w.calls ==> u.w.calls[c].offeredAt != s.w.calls[c].offeredAt) ==>
              t.w == u.w && t.tasks == u.tasks && t.declined == u.declined && t.missed == u.missed
  {
    var u := RunAll(s, steps);
    OffersMadeSince(s, steps);
    if c in u.w.calls && (c in s.w.calls ==> u.w.calls[c].offeredAt != s.w.calls[c].offeredAt) {
      NewerSurvives(u, id, c, a, kind, readAt);
    }
  }
}
