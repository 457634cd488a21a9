/** The invariant behind held offers and exact releases, and the exact
    condition on a step under which it survives. */
module OfferInvariant {
  import opened CallTypes
  import opened OfferProtocol
  import R = RowSteps

  // ---- Ids, whatever the step ----

  /** Calls and holds carry ids given out. */
  ghost predicate Numbered(s: State) {
    && (forall c | c in s.w.calls :: c < s.nextCall)
    && (forall a | a in s.w.agents && s.w.agents[a].busy.Some? :: s.w.agents[a].busy.value < s.nextCall)
  }

  /** A task's call has been given out, and a release by settle or the safety net
      is for a call that is over. */
  ghost predicate TaskTidy(s: State, t: Task) {
    && (t.Debt().Some? ==> t.Debt().value.0 < s.nextCall)
    && (t.EndedRelease? ==> t.call < s.nextCall && !s.w.ActiveCall(t.call))
  }

  ghost predicate Tidy(s: State) {
    Numbered(s) && forall id | id in s.tasks :: TaskTidy(s, s.tasks[id])
  }

  lemma NumberedByTask(s: State, id: TaskId)
    requires Numbered(s) && id in s.tasks
    ensures Numbered(TaskRun(s, id, s.tasks[id]))
  {
  }

  lemma NumberedBegun(s: State, step: Step)
    requires Numbered(s) && BeginsTask(step)
    ensures Numbered(Begun(s, step))
  {
  }

  lemma NumberedDrained(s: State, step: Step)
    requires Numbered(s) && Drains(step)
    ensures Numbered(Drained(s, step))
  {
  }

  lemma NumberedTable(s: State, step: Step)
    requires Numbered(s)
    ensures Numbered(TableChanged(s, step))
  {
  }

  /** The only tasks a step leaves that were not there: the one it begins, or the
      rest of the one it runs. */
  lemma TasksByTask(s: State, id: TaskId, other: TaskId)
    requires Numbered(s) && id in s.tasks && TaskTidy(s, s.tasks[id])
    ensures var t := TaskRun(s, id, s.tasks[id]);
            other in t.tasks ==>
              (other in s.tasks && other != id && t.tasks[other] == s.tasks[other]) || TaskTidy(t, t.tasks[other])
  {
  }

  lemma TasksBegun(s: State, step: Step, other: TaskId)
    requires Numbered(s) && BeginsTask(step)
    ensures var t := Begun(s, step);
            other in t.tasks ==> (other in s.tasks && t.tasks[other] == s.tasks[other]) || TaskTidy(t, t.tasks[other])
  {
    match step
    case PassOffer(_, _, _, _, _) =>
    case Overflow(_, _, _, _, _) =>
    case Transfer(_, _, _, _, _) =>
    case End(_, _, _, _, _) =>
    case FindHeldByEnded(_, _) =>
  }

  lemma TasksDrained(s: State, step: Step, other: TaskId)
    requires Drains(step)
    ensures var t := Drained(s, step);
            other in t.tasks ==> (other in s.tasks && t.tasks[other] == s.tasks[other]) || TaskTidy(t, t.tasks[other])
  {
  }

  lemma NumberedByStep(s: State, step: Step)
    requires Tidy(s)
    ensures Numbered(Effect(s, step))
  {
    if step.Run? { if step.id in s.tasks { NumberedByTask(s, step.id); } }
    else if ChangesOneRow(step) { }
    else if BeginsTask(step) { NumberedBegun(s, step); }
    else if Drains(step) { NumberedDrained(s, step); }
    else { NumberedTable(s, step); }
  }

  lemma TasksByStep(s: State, step: Step, other: TaskId)
    requires Tidy(s)
    ensures var t := Effect(s, step);
            other in t.tasks ==> (other in s.tasks && t.tasks[other] == s.tasks[other]) || TaskTidy(t, t.tasks[other])
  {
    if step.Run? { if step.id in s.tasks { TasksByTask(s, step.id, other); } }
    else if ChangesOneRow(step) { }
    else if BeginsTask(step) { TasksBegun(s, step, other); }
    else if Drains(step) { TasksDrained(s, step, other); }
    else { TableKeepsTasks(s, step); }
  }

  lemma TableKeepsTasks(s: State, step: Step)
    ensures TableChanged(s, step).tasks == s.tasks
  {
  }

  lemma TaskStaysTidy(s: State, t: State, task: Task)
    requires TaskTidy(s, task) && Grows(s, t)
    ensures TaskTidy(t, task)
  {
  }

  lemma TidyByStep(s: State, step: Step)
    requires Tidy(s)
    ensures Tidy(Effect(s, step))
  {
    var t := Effect(s, step);
    EffectFramed(s, step);
    NumberedByStep(s, step);
    forall other | other in t.tasks
      ensures TaskTidy(t, t.tasks[other])
    {
      TasksByStep(s, step, other);
      if other in s.tasks { TaskStaysTidy(s, t, s.tasks[other]); }
    }
  }

  // ---- The invariant ----

  /** Every offer not yet answered is to an agent held by that very call. */
  ghost predicate Held(w: World) {
    forall c | c in w.calls && w.calls[c].Active() && w.calls[c].offeredAt.Some? ::
      w.calls[c].agent.Some? && w.Holds(c, w.calls[c].agent.value)
  }

  /** Every unpaid release of a live call finds its hold in place, and the call
      is not the agent's. */
  ghost predicate Owed(w: World, tasks: map<TaskId, Task>) {
    forall id | id in tasks && tasks[id].Debt().Some? && w.ActiveCall(tasks[id].Debt().value.0) ::
      var d := tasks[id].Debt().value;
      w.Holds(d.0, d.1) && w.calls[d.0].agent != Some(d.1)
  }

  /** One procedure at a time settles a live call with an agent. */
  ghost predicate Unique(w: World, tasks: map<TaskId, Task>) {
    forall i, j | i in tasks && j in tasks && tasks[i].Debt().Some? && tasks[i].Debt() == tasks[j].Debt()
                  && w.ActiveCall(tasks[i].Debt().value.0) :: i == j
  }

  ghost predicate Owing(tasks: map<TaskId, Task>, c: CallId, a: AgentId) {
    exists id :: id in tasks && tasks[id].Debt() == Some((c, a))
  }

  /** Offers and pending releases are backed by holds. */
  ghost predicate Backed(s: State) {
    Held(s.w) && Owed(s.w, s.tasks) && Unique(s.w, s.tasks)
  }

  /** A state the invariant's steps keep. */
  ghost predicate Sound(s: State) { Tidy(s) && Backed(s) }

  /** What the step must respect for offers and releases to stay backed. */
  ghost predicate Orderly(s: State, step: Step) {
    match step
    // An accept takes an unassigned call only for an agent nobody still has to settle with that call.
    case Accept(c, a) => Accepted(s.w, c, a).Some? && s.w.calls[c].agent.None? ==> !Owing(s.tasks, c, a)
    case Run(id) => id in s.tasks ==> OrderlyTask(s.w, s.tasks[id], s.time)
    case _ => true
  }

  predicate OrderlyTask(w: World, t: Task, now: Time) {
    match t
    // A call is moved away only from an agent it holds.
    case TransferMove(c, Some(from), to, _) => Moved(w, c, t.from, to, now).Some? ==> w.Holds(c, from)
    // A handover is marked only on an agent the call holds.
    case TransferMark(c, _, to, live) => Marked(w, c, to, live, now).Some? ==> w.Holds(c, to)
    case _ => true
  }

  // ---- Steps that change one call row and no task ----

  lemma KeptByRow(s: State, c: CallId, r: Option<Call>)
    requires Sound(s)
    requires r.Some? ==> c in s.w.calls && r.value.Active() == s.w.calls[c].Active()
    requires r.Some? && r.value.Active() ==> r.value.agent == s.w.calls[c].agent
    requires r.Some? && r.value.Active() && r.value.offeredAt.Some? ==>
               r.value.agent.Some? && s.w.Holds(c, r.value.agent.value)
    ensures Backed(s.(w := R.Put(s.w, c, r)))
  {
    if r.Some? {
      var t := s.(w := R.Put(s.w, c, r));
      assert forall d :: t.w.ActiveCall(d) == s.w.ActiveCall(d);
      assert forall d, a :: t.w.Holds(d, a) == s.w.Holds(d, a);
      assert forall d | s.w.ActiveCall(d) :: t.w.calls[d].agent == s.w.calls[d].agent;
    }
  }

  /** An agent the call does not hold is owed nothing by it. */
  lemma FreeOwesNothing(s: State, a: AgentId, c: CallId)
    requires Sound(s) && s.w.ActiveCall(c) && !s.w.Holds(c, a)
    ensures !Owing(s.tasks, c, a)
  {
  }

  // ---- Steps that change an agent's hold ----

  lemma KeptByClaimAndAssign(s: State, a: AgentId, c: CallId, anyShift: bool)
    requires Sound(s)
    ensures Backed(s.(w := R.ClaimAndAssign(s.w, a, c, anyShift, s.time)))
  {
    if R.ClaimOutcomeOf(s.w, a, c, anyShift) == R.Assigned {
      var t := s.(w := R.ClaimAndAssign(s.w, a, c, anyShift, s.time));
      FreeOwesNothing(s, a, c);
      assert forall id | id in s.tasks :: s.tasks[id].Debt() != Some((c, a));
      assert forall d :: t.w.ActiveCall(d) == s.w.ActiveCall(d);
      assert forall d, b | b != a :: t.w.Holds(d, b) == s.w.Holds(d, b);
      assert forall d | d in s.w.calls && d != c :: t.w.calls[d] == s.w.calls[d];
      assert t.w.Holds(c, a) && t.w.calls[c].agent == Some(a);
    }
  }

  lemma KeptByHold(s: State, a: AgentId, c: CallId)
    requires Sound(s)
    ensures Backed(s.(w := R.Hold(s.w, a, c)))
  {
    if R.CanHold(s.w, a, c) {
      var t := s.(w := R.Hold(s.w, a, c));
      assert forall d, b | b != a :: t.w.Holds(d, b) == s.w.Holds(d, b);
      assert t.w.Holds(c, a) && t.w.calls[c].agent == Some(a);
    }
  }

  /** A release that is owed, or for a call that is over, frees no newer hold. */
  lemma KeptByRelease(s: State, id: TaskId, a: AgentId, c: CallId, tasks: map<TaskId, Task>)
    requires Sound(s) && id in s.tasks
    requires s.tasks[id].Debt() == Some((c, a)) || s.tasks[id] == EndedRelease(c, a)
    requires tasks == s.tasks - {id} || tasks == s.tasks[id := OverflowClear(c)]
    ensures Backed(s.(w := R.Release(s.w, a, c), tasks := tasks))
  {
    var w := R.Release(s.w, a, c);
    assert TaskTidy(s, s.tasks[id]);
    assert forall d, b | b != a :: w.Holds(d, b) == s.w.Holds(d, b);
    assert forall d :: w.ActiveCall(d) == s.w.ActiveCall(d);
    assert forall i | i in tasks && tasks[i].Debt().Some? :: i != id && i in s.tasks && tasks[i] == s.tasks[i];
  }

  // ---- Steps that change tasks ----

  /** A task that owes nothing may begin, go on or finish. */
  lemma KeptByIdleTask(s: State, id: TaskId, t: Task)
    requires Backed(s) && (id in s.tasks ==> s.tasks[id].Debt().None?) && t.Debt().None?
    ensures Backed(Begin(s, id, t)) && Backed(Finish(s, id))
  {
  }

  /** A task goes on with the same debt. */
  lemma KeptBySameDebt(s: State, id: TaskId, t: Task)
    requires Backed(s) && id in s.tasks && s.tasks[id].Debt().Some? && t.Debt() == s.tasks[id].Debt()
    ensures Backed(Begin(s, id, t))
  {
  }

  /** A withdrawn or overflowed call leaves its agent's release owed; the call
      had nobody else to settle with that agent. */
  lemma KeptByTakingBack(s: State, id: TaskId, c: CallId, r: Call, t: Task)
    requires Sound(s) && id !in s.tasks && c in s.w.calls
    requires s.w.calls[c].Active() && r.Active() && r.agent.None? && r.offeredAt.None?
    requires match s.w.calls[c].agent
             case None => t.Debt().None?
             case Some(a) => s.w.calls[c].offeredAt.Some? && t.Debt() == Some((c, a))
    ensures Backed(Begin(s.(w := R.Put(s.w, c, Some(r))), id, t))
  {
    var u := Begin(s.(w := R.Put(s.w, c, Some(r))), id, t);
    assert forall d :: u.w.ActiveCall(d) == s.w.ActiveCall(d);
    assert forall d, b :: u.w.Holds(d, b) == s.w.Holds(d, b);
    assert u.tasks[id] == t;
  }

  /** A call that ends settles every claim on it: nothing about it is promised
      any more. */
  lemma KeptByEndingRow(s: State, c: CallId, r: Call)
    requires Backed(s) && c in s.w.calls && !r.Active()
    ensures Backed(s.(w := R.Put(s.w, c, Some(r))))
  {
    var u := s.(w := R.Put(s.w, c, Some(r)));
    assert forall d :: u.w.ActiveCall(d) ==> s.w.ActiveCall(d) && d != c && u.w.calls[d] == s.w.calls[d];
    assert forall d, b :: u.w.Holds(d, b) == s.w.Holds(d, b);
  }

  lemma KeptByEnd(s: State, id: TaskId, c: CallId, read: Option<AgentId>, failed: bool, only: Option<Status>)
    requires Sound(s)
    ensures Backed(Ended(s, id, c, read, failed, only))
  {
    if c in s.w.calls && id !in s.tasks {
      var r := if failed then R.Fail(s.w.calls[c]) else R.Terminate(s.w.calls[c], only);
      if r.Some? {
        KeptByEndingRow(s, c, r.value);
        if read.Some? { KeptByIdleTask(s.(w := R.Put(s.w, c, r)), id, EndedRelease(c, read.value)); }
      }
    }
  }

  lemma KeptByNewCall(s: State, row: Call)
    requires Sound(s)
    ensures Backed(Created(s, row))
  {
    var u := Created(s, row);
    assert forall id | id in s.tasks :: TaskTidy(s, s.tasks[id]);
    assert forall d | d != s.nextCall :: u.w.ActiveCall(d) == s.w.ActiveCall(d);
    assert forall d, b :: u.w.Holds(d, b) == s.w.Holds(d, b);
  }

  lemma KeptByDelete(s: State, c: CallId)
    requires Sound(s)
    ensures Backed(Deleted(s, c))
  {
    var u := Deleted(s, c);
    assert forall d :: u.w.ActiveCall(d) == s.w.ActiveCall(d);
    assert forall d, b :: u.w.Holds(d, b) == s.w.Holds(d, b);
  }

  lemma KeptByShift(s: State, a: AgentId, shift: Availability)
    requires Sound(s)
    ensures Backed(ShiftSet(s, a, shift))
  {
    var u := ShiftSet(s, a, shift);
    assert forall d :: u.w.ActiveCall(d) == s.w.ActiveCall(d);
    assert forall d, b :: u.w.Holds(d, b) == s.w.Holds(d, b);
  }

  /** A transfer's claim: the target was free, so nobody owes them a release. */
  lemma KeptByTransfer(s: State, id: TaskId, c: CallId, from: Option<AgentId>, to: AgentId, live: bool)
    requires Sound(s)
    ensures Backed(TransferBegun(s, id, c, from, to, live))
  {
    if c < s.nextCall && id !in s.tasks && R.CanClaim(s.w, to, false) {
      KeptByClaimForCall(s, c, to);
      var v := s.(w := R.ClaimForCall(s.w, to, c));
      if from != Some(to) { KeptByNewDebt(s, v, id, c, to, TransferMove(c, from, to, live)); }
    }
  }

  lemma KeptByClaimForCall(s: State, c: CallId, to: AgentId)
    requires Sound(s) && R.CanClaim(s.w, to, false)
    ensures Backed(s.(w := R.ClaimForCall(s.w, to, c)))
  {
    var u := s.(w := R.ClaimForCall(s.w, to, c));
    assert forall d :: u.w.ActiveCall(d) == s.w.ActiveCall(d);
    assert forall d, b | b != to :: u.w.Holds(d, b) == s.w.Holds(d, b);
  }

  lemma KeptByNewDebt(s: State, v: State, id: TaskId, c: CallId, to: AgentId, t: Task)
    requires Sound(s) && R.CanClaim(s.w, to, false) && id !in s.tasks && t.Debt() == Some((c, to))
    requires v == s.(w := R.ClaimForCall(s.w, to, c)) && Backed(v)
    ensures Backed(Begin(v, id, t))
  {
    var u := Begin(v, id, t);
    assert u.w.Holds(c, to) && u.tasks[id] == t;
    if s.w.ActiveCall(c) { FreeOwesNothing(s, to, c); }
    assert forall i | i in s.tasks && s.w.ActiveCall(c) :: s.tasks[i].Debt() != Some((c, to));
  }

  // ---- The three steps with a condition ----

  lemma AcceptKeeps(s: State, c: CallId, a: AgentId)
    requires Sound(s)
    ensures Backed(RowPut(s, c, Accepted(s.w, c, a))) <==> Orderly(s, Accept(c, a))
  {
    var r := Accepted(s.w, c, a);
    var u := s.(w := R.Put(s.w, c, r));
    if r.Some? {
      if s.w.calls[c].agent == Some(a) {
        KeptByRow(s, c, r);
      } else if Owing(s.tasks, c, a) {
        var i :| i in s.tasks && s.tasks[i].Debt() == Some((c, a));
        assert u.w.ActiveCall(c) && u.w.calls[c].agent == Some(a);
        assert !Owed(u.w, u.tasks);
      } else {
        assert forall d :: u.w.ActiveCall(d) == s.w.ActiveCall(d);
        assert forall d, b :: u.w.Holds(d, b) == s.w.Holds(d, b);
        assert forall id | id in s.tasks :: s.tasks[id].Debt() != Some((c, a));
      }
    } else {
      assert u == s;
    }
  }

  lemma MoveKeeps(s: State, id: TaskId)
    requires Sound(s) && id in s.tasks && s.tasks[id].TransferMove?
    ensures Backed(TaskRun(s, id, s.tasks[id])) <==> OrderlyTask(s.w, s.tasks[id], s.time)
  {
    var t := s.tasks[id];
    var c, from, to := t.call, t.from, t.to;
    var r := Moved(s.w, c, from, to, s.time);
    if r.None? {
      KeptBySameDebt(s, id, TransferUndo(c, to));
    } else {
      var u := TaskRun(s, id, t);
      assert u.tasks[id].Debt() == if from.Some? then Some((c, from.value)) else None;
      assert s.w.Holds(c, to);
      assert forall d :: u.w.ActiveCall(d) == s.w.ActiveCall(d);
      assert forall d, b :: u.w.Holds(d, b) == s.w.Holds(d, b);
      if from.Some? && !s.w.Holds(c, from.value) {
        assert !Owed(u.w, u.tasks);
      } else {
        MovePays(s, id, u);
      }
    }
  }

  lemma MovePays(s: State, id: TaskId, u: State)
    requires Sound(s) && id in s.tasks && s.tasks[id].TransferMove? && u == TaskRun(s, id, s.tasks[id])
    requires Moved(s.w, s.tasks[id].call, s.tasks[id].from, s.tasks[id].to, s.time).Some?
    requires s.tasks[id].from.Some? ==> s.w.Holds(s.tasks[id].call, s.tasks[id].from.value)
    ensures Backed(u)
  {
    var t := s.tasks[id];
    var c, from, to := t.call, t.from, t.to;
    assert s.w.Holds(c, to) && u.w.calls[c].agent == Some(to);
    assert forall d :: u.w.ActiveCall(d) == s.w.ActiveCall(d);
    assert forall d, b :: u.w.Holds(d, b) == s.w.Holds(d, b);
    assert u.tasks[id].Debt() == if from.Some? then Some((c, from.value)) else None;
  }

  lemma MarkKeeps(s: State, id: TaskId)
    requires Sound(s) && id in s.tasks && s.tasks[id].TransferMark?
    ensures Backed(TaskRun(s, id, s.tasks[id])) <==> OrderlyTask(s.w, s.tasks[id], s.time)
  {
    var t := s.tasks[id];
    var c, to := t.call, t.to;
    var r := Marked(s.w, c, to, t.live, s.time);
    var v := s.(w := R.Put(s.w, c, r));
    var u := TaskRun(s, id, t);
    if r.Some? && !s.w.Holds(c, to) {
      assert u.w.calls[c] == r.value && !u.w.Holds(c, to);
      assert !Held(u.w);
    } else {
      KeptByRow(s, c, r);
      if t.from.Some? {
        KeptBySameDebt(v, id, TransferRelease(c, t.from.value));
      } else {
        KeptByIdleTask(v, id, OverflowClear(c));
      }
    }
  }

  // ---- Every step ----

  lemma RunKeeps(s: State, id: TaskId)
    requires Sound(s)
    ensures (id in s.tasks ==> Backed(TaskRun(s, id, s.tasks[id]))) <==> Orderly(s, Run(id))
  {
    if id in s.tasks {
      var t := s.tasks[id];
      if t.Releases().Some? {
        var (c, a) := t.Releases().value;
        KeptByRelease(s, id, a, c, TaskRun(s, id, t).tasks);
      } else {
        GoesOn(s, id);
      }
    }
  }

  /** A task that releases nobody. */
  lemma GoesOn(s: State, id: TaskId)
    requires Sound(s) && id in s.tasks && s.tasks[id].Releases().None?
    ensures Backed(TaskRun(s, id, s.tasks[id])) <==> OrderlyTask(s.w, s.tasks[id], s.time)
  {
    match s.tasks[id]
    case PassRecord(c, a, kind) => KeptBySameDebt(s, id, PassRelease(c, a));
    case OverflowClear(c) => KeptByIdleTask(s, id, s.tasks[id]);
    case TransferMove(_, _, _, _) => MoveKeeps(s, id);
    case TransferMark(_, _, _, _) => MarkKeeps(s, id);
    case DrainScan(_, _) => KeptByIdleTask(s, id, s.tasks[id]);
    case DrainClear(c, available, readAt, candidates) =>
      KeptByIdleTask(s, id, DrainClaim(c, available, readAt, candidates));
    case DrainClaim(_, _, _, _) =>
  }

  lemma DrainTryKeeps(s: State, id: TaskId, a: AgentId)
    requires Sound(s) && id in s.tasks && s.tasks[id].DrainClaim? && a in s.tasks[id].candidates
    ensures Backed(DrainTried(s, id, a))
  {
    var t := s.tasks[id];
    KeptByClaimAndAssign(s, a, t.call, false);
    if R.ClaimOutcomeOf(s.w, a, t.call, false) == R.Assigned {
      KeptByIdleTask(s.(w := R.ClaimAndAssign(s.w, a, t.call, false, s.time)), id, t);
    } else {
      KeptByIdleTask(s, id, DrainClaim(t.call, t.available, t.readAt, t.candidates - {a}));
    }
  }

  lemma DrainStepKeeps(s: State, step: Step)
    requires Sound(s) && Drains(step)
    ensures Backed(Drained(s, step))
  {
    match step
    case StartDrain(id, members) =>
      if id !in s.tasks { KeptByIdleTask(s, id, DrainScan(AvailableOf(s.w, members), s.clock)); }
    case DrainPick(id, c) => DrainPickKeeps(s, id, c);
    case DrainNext(id) =>
      if id in s.tasks && s.tasks[id].DrainClaim? {
        KeptByIdleTask(s, id, DrainScan(s.tasks[id].available, s.tasks[id].readAt));
      }
    case DrainTry(id, a) =>
      if id in s.tasks && s.tasks[id].DrainClaim? && a in s.tasks[id].candidates { DrainTryKeeps(s, id, a); }
  }

  lemma DrainPickKeeps(s: State, id: TaskId, c: CallId)
    requires Sound(s)
    ensures Backed(DrainPicked(s, id, c))
  {
    if id in s.tasks && s.tasks[id].DrainScan? { KeptByIdleTask(s, id, DrainPicked(s, id, c).tasks[id]); }
  }

  /** No statement on one row but an accept changes whose call it is, makes it live
      or offers it. */
  lemma NewRowKeepsAgent(s: State, step: Step)
    requires Held(s.w) && ChangesOneRow(step) && !step.Accept?
    ensures var r := NewRow(s, step);
            && (r.Some? ==> step.call in s.w.calls && r.value.Active() == s.w.calls[step.call].Active())
            && (r.Some? && r.value.Active() ==> r.value.agent == s.w.calls[step.call].agent)
            && (r.Some? && r.value.Active() && r.value.offeredAt.Some? ==>
                  r.value.agent.Some? && s.w.Holds(step.call, r.value.agent.value))
  {
  }

  lemma RowStepKeeps(s: State, step: Step)
    requires Sound(s) && ChangesOneRow(step) && !step.Accept?
    ensures Backed(RowPut(s, step.call, NewRow(s, step)))
  {
    NewRowKeepsAgent(s, step);
    KeptByRow(s, step.call, NewRow(s, step));
  }

  lemma PassOfferKeeps(s: State, id: TaskId, c: CallId, a: AgentId, kind: PassKind, before: Option<Time>)
    requires Sound(s)
    ensures Backed(OfferPassed(s, id, c, a, kind, before))
  {
    if c in s.w.calls && id !in s.tasks {
      var r := R.Withdraw(s.w.calls[c], a, before);
      if r.Some? { KeptByTakingBack(s, id, c, r.value, PassRecord(c, a, kind)); }
    }
  }

  lemma OverflowKeeps(s: State, id: TaskId, c: CallId, from: QueueId, to: QueueId, offered: Option<AgentId>)
    requires Sound(s)
    ensures Backed(Overflowed(s, id, c, from, to, offered))
  {
    if c in s.w.calls && id !in s.tasks {
      var r := R.Overflow(s.w.calls[c], from, to, offered, s.time);
      var t := if offered.Some? then OverflowRelease(c, offered.value) else OverflowClear(c);
      if r.Some? { KeptByTakingBack(s, id, c, r.value, t); }
    }
  }

  lemma BegunKeeps(s: State, step: Step)
    requires Sound(s) && BeginsTask(step)
    ensures Backed(Begun(s, step))
  {
    match step
    case PassOffer(id, c, a, kind, before) => PassOfferKeeps(s, id, c, a, kind, before);
    case Overflow(id, c, from, to, offered) => OverflowKeeps(s, id, c, from, to, offered);
    case Transfer(id, c, from, to, live) => KeptByTransfer(s, id, c, from, to, live);
    case End(id, c, read, failed, only) => KeptByEnd(s, id, c, read, failed, only);
    case FindHeldByEnded(id, a) => FoundKeeps(s, id, a);
  }

  lemma FoundKeeps(s: State, id: TaskId, a: AgentId)
    requires Sound(s)
    ensures Backed(FoundHeldByEnded(s, id, a))
  {
    if FoundHeldByEnded(s, id, a) != s { KeptByIdleTask(s, id, EndedRelease(s.w.agents[a].busy.value, a)); }
  }

  /** The clock and the stamps are no part of it. */
  lemma SoundOfRows(s: State, t: State)
    requires t.w == s.w && t.tasks == s.tasks && t.nextCall == s.nextCall
    ensures Sound(s) == Sound(t)
  {
  }

  lemma KeptByTime(s: State, seconds: nat)
    requires Sound(s)
    ensures Backed(s.(time := s.time + seconds))
  {
    SoundOfRows(s, s.(time := s.time + seconds));
  }

  lemma ClaimStepKeeps(s: State, step: Step)
    requires Sound(s) && (step.ClaimAndAssign? || step.HoldForOwnCall?)
    ensures Backed(TableChanged(s, step))
  {
    match step
    case ClaimAndAssign(a, c, anyShift) => KeptByClaimAndAssign(s, a, c, anyShift);
    case HoldForOwnCall(a, c) => KeptByHold(s, a, c);
  }

  lemma TableStepKeeps(s: State, step: Step)
    requires Sound(s)
    ensures Backed(TableChanged(s, step))
  {
    match step
    case Advance(seconds) => KeptByTime(s, seconds);
    case NewCall(row) => KeptByNewCall(s, row);
    case DeleteCall(c) => KeptByDelete(s, c);
    case SetShift(a, shift) => KeptByShift(s, a, shift);
    case ClaimAndAssign(_, _, _) => ClaimStepKeeps(s, step);
    case HoldForOwnCall(_, _) => ClaimStepKeeps(s, step);
    case _ =>
  }

  lemma BackedIffOrderly(s: State, step: Step)
    requires Sound(s)
    ensures Backed(Effect(s, step)) <==> Orderly(s, step)
  {
    if step.Run? { RunKeeps(s, step.id); }
    else if step.Accept? { AcceptKeeps(s, step.call, step.agent); }
    else if ChangesOneRow(step) { RowStepKeeps(s, step); }
    else if BeginsTask(step) { BegunKeeps(s, step); }
    else if Drains(step) { DrainStepKeeps(s, step); }
    else { TableStepKeeps(s, step); }
  }

  /** The invariant survives a step exactly when the step is orderly. */
  lemma SoundIffOrderly(s: State, step: Step)
    requires Sound(s)
    ensures Sound(Apply(s, step)) <==> Orderly(s, step)
  {
    TidyByStep(s, step);
    BackedIffOrderly(s, step);
    SoundOfRows(Effect(s, step), Apply(s, step));
  }
}
