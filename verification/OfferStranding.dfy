/** Nobody is stranded by a live call: an agent it holds is its own, or somebody
    still has to settle the two. The exact condition on a step under which that
    survives; it needs nothing of what keeps offers backed by holds. */
module OfferStranding {
  import opened CallTypes
  import opened OfferProtocol
  import opened OfferInvariant
  import R = RowSteps

  /** Agent `a` is held by the live call `c`, which is not theirs. */
  predicate Astray(w: World, c: CallId, a: AgentId) {
    w.Holds(c, a) && w.ActiveCall(c) && w.calls[c].agent != Some(a)
  }

  ghost predicate Accounted(s: State) {
    forall c: CallId, a: AgentId | Astray(s.w, c, a) :: Owing(s.tasks, c, a)
  }

  /** A transfer that is refused after its claim, its target being the agent it
      read, leaves a hold nobody settles: unless the call is over or somebody has
      to settle the two anyway. */
  ghost predicate LeavesNoHold(s: State, step: Step) {
    match step
    case Transfer(id, c, from, to, _) =>
      from == Some(to) && c < s.nextCall && id !in s.tasks && R.CanClaim(s.w, to, false) && s.w.ActiveCall(c)
      ==> Owing(s.tasks, c, to)
    case _ => true
  }

  // ---- Debts ----

  lemma OwingStays(tasks: map<TaskId, Task>, id: TaskId, t: Task, c: CallId, a: AgentId)
    requires Owing(tasks, c, a) && (id in tasks ==> tasks[id].Debt() != Some((c, a)) || t.Debt() == Some((c, a)))
    ensures Owing(tasks[id := t], c, a)
  {
    var i :| i in tasks && tasks[i].Debt() == Some((c, a));
    assert i in tasks[id := t];
  }

  lemma OwingWithout(tasks: map<TaskId, Task>, id: TaskId, c: CallId, a: AgentId)
    requires Owing(tasks, c, a) && (id in tasks ==> tasks[id].Debt() != Some((c, a)))
    ensures Owing(tasks - {id}, c, a)
  {
    var i :| i in tasks && tasks[i].Debt() == Some((c, a));
    assert i in tasks - {id};
  }

  lemma OwingNow(tasks: map<TaskId, Task>, id: TaskId, t: Task, c: CallId, a: AgentId)
    requires t.Debt() == Some((c, a))
    ensures Owing(tasks[id := t], c, a)
  {
    assert id in tasks[id := t];
  }

  // ---- Steps that leave the tasks alone ----

  /** No agent goes astray who was not. */
  ghost predicate NobodyNew(w: World, v: World) {
    forall c: CallId, a: AgentId | Astray(v, c, a) :: Astray(w, c, a)
  }

  /** A row that stays as live as it was strays nobody: it keeps its agent, or takes
      one where it had none. */
  lemma RowPutStrays(s: State, c: CallId, r: Option<Call>)
    requires r.Some? ==> c in s.w.calls && (r.value.Active() ==> s.w.calls[c].Active())
    requires r.Some? ==> r.value.agent == s.w.calls[c].agent || s.w.calls[c].agent.None?
    ensures NobodyNew(s.w, RowPut(s, c, r).w)
  {
  }

  lemma NewRowKeepsAgents(s: State, step: Step)
    requires ChangesOneRow(step)
    ensures var r := NewRow(s, step);
            r.Some? ==> r.value.agent == s.w.calls[step.call].agent || s.w.calls[step.call].agent.None?
  {
  }

  lemma ClaimStrays(s: State, a: AgentId, c: CallId, anyShift: bool)
    ensures NobodyNew(s.w, R.ClaimAndAssign(s.w, a, c, anyShift, s.time))
  {
  }

  lemma CreatedStrays(s: State, row: Call)
    requires Numbered(s)
    ensures NobodyNew(s.w, Created(s, row).w)
  {
  }

  lemma TableStepStrays(s: State, step: Step)
    requires Numbered(s)
    ensures NobodyNew(s.w, TableChanged(s, step).w) && TableChanged(s, step).tasks == s.tasks
  {
    match step
    case NewCall(row) => CreatedStrays(s, row);
    case ClaimAndAssign(a, c, anyShift) => ClaimStrays(s, a, c, anyShift);
    case DeleteCall(_) =>
    case SetShift(_, _) =>
    case HoldForOwnCall(_, _) =>
    case _ =>
  }

  lemma KeptBySameTasks(s: State, t: State)
    requires Accounted(s) && NobodyNew(s.w, t.w) && t.tasks == s.tasks
    ensures Accounted(t)
  {
  }

  // ---- Steps that begin a task, or let one go on ----

  lemma KeptByTask(s: State, w: World, id: TaskId, t: Task)
    requires Accounted(s) && NobodyNew(s.w, w)
    requires (id in s.tasks ==> s.tasks[id].Debt().None? || s.tasks[id].Debt() == t.Debt())
    ensures Accounted(Begin(s.(w := w), id, t))
  {
    var u := Begin(s.(w := w), id, t);
    forall c: CallId, a: AgentId | Astray(u.w, c, a)
      ensures Owing(u.tasks, c, a)
    {
      OwingStays(s.tasks, id, t, c, a);
    }
  }

  lemma KeptByFinish(s: State, w: World, id: TaskId)
    requires Accounted(s) && NobodyNew(s.w, w) && (id in s.tasks ==> s.tasks[id].Debt().None?)
    ensures Accounted(Finish(s.(w := w), id))
  {
    var u := Finish(s.(w := w), id);
    forall c: CallId, a: AgentId | Astray(u.w, c, a)
      ensures Owing(u.tasks, c, a)
    {
      OwingWithout(s.tasks, id, c, a);
    }
  }

  /** A call goes from its agent, whose settlement is owed from then on. */
  lemma KeptByNewDebt(s: State, w: World, id: TaskId, t: Task)
    requires Accounted(s) && t.Debt().Some?
    requires forall c: CallId, a: AgentId | Astray(w, c, a) && t.Debt() != Some((c, a)) ::
               Astray(s.w, c, a) && (id in s.tasks ==> s.tasks[id].Debt() != Some((c, a)))
    ensures Accounted(Begin(s.(w := w), id, t))
  {
    var u := Begin(s.(w := w), id, t);
    forall c: CallId, a: AgentId | Astray(u.w, c, a)
      ensures Owing(u.tasks, c, a)
    {
      if t.Debt() == Some((c, a)) { OwingNow(s.tasks, id, t, c, a); } else { OwingStays(s.tasks, id, t, c, a); }
    }
  }

  /** A release settles its own debt, and nobody is held by that call after it. */
  lemma KeptByRelease(s: State, id: TaskId, a: AgentId, c: CallId, tasks: map<TaskId, Task>)
    requires Accounted(s) && id in s.tasks && s.tasks[id].Releases() == Some((c, a))
    requires tasks == s.tasks - {id} || tasks == s.tasks[id := OverflowClear(c)]
    ensures Accounted(s.(w := R.Release(s.w, a, c), tasks := tasks))
  {
    var u := s.(w := R.Release(s.w, a, c), tasks := tasks);
    forall d: CallId, b: AgentId | Astray(u.w, d, b)
      ensures Owing(u.tasks, d, b)
    {
      assert Astray(s.w, d, b);
      if tasks == s.tasks - {id} {
        OwingWithout(s.tasks, id, d, b);
      } else {
        OwingStays(s.tasks, id, OverflowClear(c), d, b);
      }
    }
  }

  lemma PassOfferAccounts(s: State, id: TaskId, c: CallId, a: AgentId, kind: PassKind, before: Option<Time>)
    requires Accounted(s)
    ensures Accounted(OfferPassed(s, id, c, a, kind, before))
  {
    if c in s.w.calls && id !in s.tasks {
      var r := R.Withdraw(s.w.calls[c], a, before);
      if r.Some? { KeptByNewDebt(s, R.Put(s.w, c, r), id, PassRecord(c, a, kind)); }
    }
  }

  lemma OverflowAccounts(s: State, id: TaskId, c: CallId, from: QueueId, to: QueueId, offered: Option<AgentId>)
    requires Accounted(s)
    ensures Accounted(Overflowed(s, id, c, from, to, offered))
  {
    if c in s.w.calls && id !in s.tasks {
      var r := R.Overflow(s.w.calls[c], from, to, offered, s.time);
      if r.Some? {
        var w := R.Put(s.w, c, r);
        if offered.Some? {
          KeptByNewDebt(s, w, id, OverflowRelease(c, offered.value));
        } else {
          KeptByTask(s, w, id, OverflowClear(c));
        }
      }
    }
  }

  lemma EndAccounts(s: State, id: TaskId, c: CallId, read: Option<AgentId>, failed: bool, only: Option<Status>)
    requires Accounted(s)
    ensures Accounted(Ended(s, id, c, read, failed, only))
  {
    if c in s.w.calls && id !in s.tasks {
      var r := if failed then R.Fail(s.w.calls[c]) else R.Terminate(s.w.calls[c], only);
      if r.Some? {
        var w := R.Put(s.w, c, r);
        if read.Some? { KeptByTask(s, w, id, EndedRelease(c, read.value)); } else { KeptBySameTasks(s, s.(w := w)); }
      }
    }
  }

  lemma FoundAccounts(s: State, id: TaskId, a: AgentId)
    requires Accounted(s)
    ensures Accounted(FoundHeldByEnded(s, id, a))
  {
    var t := FoundHeldByEnded(s, id, a);
    if t != s { KeptByTask(s, s.w, id, t.tasks[id]); }
  }

  lemma DrainAccounts(s: State, step: Step)
    requires Accounted(s) && Drains(step)
    ensures Accounted(Drained(s, step))
  {
    match step
    case StartDrain(id, members) =>
      if id !in s.tasks { KeptByTask(s, s.w, id, DrainScan(AvailableOf(s.w, members), s.clock)); }
    case DrainPick(id, c) => DrainPickAccounts(s, id, c);
    case DrainNext(id) =>
      if id in s.tasks && s.tasks[id].DrainClaim? {
        KeptByTask(s, s.w, id, DrainScan(s.tasks[id].available, s.tasks[id].readAt));
      }
    case DrainTry(id, a) => DrainTryAccounts(s, id, a);
  }

  lemma DrainPickAccounts(s: State, id: TaskId, c: CallId)
    requires Accounted(s)
    ensures Accounted(DrainPicked(s, id, c))
  {
    var t := DrainPicked(s, id, c);
    if t != s { KeptByTask(s, s.w, id, t.tasks[id]); }
  }

  lemma DrainTryAccounts(s: State, id: TaskId, a: AgentId)
    requires Accounted(s)
    ensures Accounted(DrainTried(s, id, a))
  {
    if id in s.tasks && s.tasks[id].DrainClaim? && a in s.tasks[id].candidates {
      var t := s.tasks[id];
      if R.ClaimOutcomeOf(s.w, a, t.call, false) == R.Assigned {
        KeptByFinish(s, R.ClaimAndAssign(s.w, a, t.call, false, s.time), id);
      } else {
        KeptByTask(s, s.w, id, DrainClaim(t.call, t.available, t.readAt, t.candidates - {a}));
      }
    }
  }

  lemma MoveAccounts(s: State, id: TaskId)
    requires Accounted(s) && id in s.tasks && s.tasks[id].TransferMove?
    ensures Accounted(TaskRun(s, id, s.tasks[id]))
  {
    var t := s.tasks[id];
    var r := Moved(s.w, t.call, t.from, t.to, s.time);
    if r.None? {
      KeptByTask(s, s.w, id, TransferUndo(t.call, t.to));
    } else {
      var w := R.Put(s.w, t.call, r);
      assert !Astray(w, t.call, t.to);
      MovedAccounts(s, id, w, TransferMark(t.call, t.from, t.to, t.live));
    }
  }

  lemma MovedAccounts(s: State, id: TaskId, w: World, m: Task)
    requires Accounted(s) && id in s.tasks && s.tasks[id].TransferMove? && m.TransferMark?
    requires m == TransferMark(s.tasks[id].call, s.tasks[id].from, s.tasks[id].to, s.tasks[id].live)
    requires Moved(s.w, m.call, m.from, m.to, s.time).Some?
    requires w == R.Put(s.w, m.call, Moved(s.w, m.call, m.from, m.to, s.time)) && !Astray(w, m.call, m.to)
    ensures Accounted(Begin(s.(w := w), id, m))
  {
    var u := Begin(s.(w := w), id, m);
    forall c: CallId, a: AgentId | Astray(u.w, c, a)
      ensures Owing(u.tasks, c, a)
    {
      if m.Debt() == Some((c, a)) {
        OwingNow(s.tasks, id, m, c, a);
      } else {
        assert Astray(s.w, c, a) && (c, a) != (m.call, m.to);
        OwingStays(s.tasks, id, m, c, a);
      }
    }
  }

  lemma MarkAccounts(s: State, id: TaskId)
    requires Accounted(s) && id in s.tasks && s.tasks[id].TransferMark?
    ensures Accounted(TaskRun(s, id, s.tasks[id]))
  {
    var t := s.tasks[id];
    var w := R.Put(s.w, t.call, Marked(s.w, t.call, t.to, t.live, s.time));
    if t.from.Some? {
      KeptByTask(s, w, id, TransferRelease(t.call, t.from.value));
    } else {
      KeptByFinish(s, w, id);
    }
  }

  lemma RunAccounts(s: State, id: TaskId)
    requires Accounted(s) && id in s.tasks
    ensures Accounted(TaskRun(s, id, s.tasks[id]))
  {
    var t := s.tasks[id];
    match t
    case PassRecord(c, a, _) => KeptByTask(s, s.w, id, PassRelease(c, a));
    case PassRelease(c, a) => KeptByRelease(s, id, a, c, TaskRun(s, id, t).tasks);
    case OverflowRelease(c, a) => KeptByRelease(s, id, a, c, TaskRun(s, id, t).tasks);
    case OverflowClear(c) => KeptByFinish(s, s.w, id);
    case TransferMove(_, _, _, _) => MoveAccounts(s, id);
    case TransferMark(_, _, _, _) => MarkAccounts(s, id);
    case TransferRelease(c, a) => KeptByRelease(s, id, a, c, TaskRun(s, id, t).tasks);
    case TransferUndo(c, a) => KeptByRelease(s, id, a, c, TaskRun(s, id, t).tasks);
    case EndedRelease(c, a) => KeptByRelease(s, id, a, c, TaskRun(s, id, t).tasks);
    case DrainScan(_, _) => KeptByFinish(s, s.w, id);
    case DrainClear(c, available, readAt, candidates) =>
      KeptByTask(s, s.w, id, DrainClaim(c, available, readAt, candidates));
    case DrainClaim(_, _, _, _) =>
  }

  // ---- The step with a condition ----

  lemma TransferAccounts(s: State, id: TaskId, c: CallId, from: Option<AgentId>, to: AgentId, live: bool)
    requires Accounted(s)
    ensures Accounted(TransferBegun(s, id, c, from, to, live)) <==> LeavesNoHold(s, Transfer(id, c, from, to, live))
  {
    if c < s.nextCall && id !in s.tasks && R.CanClaim(s.w, to, false) {
      var w := R.ClaimForCall(s.w, to, c);
      assert forall d: CallId, b: AgentId | Astray(w, d, b) :: Astray(s.w, d, b) || (d == c && b == to);
      if from != Some(to) {
        KeptByNewDebt(s, w, id, TransferMove(c, from, to, live));
      } else {
        assert s.w.ActiveCall(c) ==> Astray(w, c, to);
      }
    }
  }

  lemma BegunAccounts(s: State, step: Step)
    requires Accounted(s) && BeginsTask(step)
    ensures Accounted(Begun(s, step)) <==> LeavesNoHold(s, step)
  {
    match step
    case PassOffer(id, c, a, kind, before) => PassOfferAccounts(s, id, c, a, kind, before);
    case Overflow(id, c, from, to, offered) => OverflowAccounts(s, id, c, from, to, offered);
    case Transfer(id, c, from, to, live) => TransferAccounts(s, id, c, from, to, live);
    case End(id, c, read, failed, only) => EndAccounts(s, id, c, read, failed, only);
    case FindHeldByEnded(id, a) => FoundAccounts(s, id, a);
  }

  lemma EffectAccounts(s: State, step: Step)
    requires Numbered(s) && Accounted(s)
    ensures Accounted(Effect(s, step)) <==> LeavesNoHold(s, step)
  {
    if step.Run? { if step.id in s.tasks { RunAccounts(s, step.id); } }
    else if ChangesOneRow(step) {
      NewRowKeepsAgents(s, step);
      RowPutStrays(s, step.call, NewRow(s, step));
      KeptBySameTasks(s, RowPut(s, step.call, NewRow(s, step)));
    }
    else if BeginsTask(step) { BegunAccounts(s, step); }
    else if Drains(step) { DrainAccounts(s, step); }
    else {
      TableStepStrays(s, step);
      KeptBySameTasks(s, TableChanged(s, step));
    }
  }

  lemma AccountedOfRows(s: State, t: State)
    requires t.w == s.w && t.tasks == s.tasks
    ensures Accounted(s) == Accounted(t)
  {
  }

  /** Nobody goes unaccounted for in a step exactly when it leaves no such hold. */
  lemma AccountedIff(s: State, step: Step)
    requires Tidy(s) && Accounted(s)
    ensures Accounted(Apply(s, step)) <==> LeavesNoHold(s, step)
  {
    EffectAccounts(s, step);
    AccountedOfRows(Effect(s, step), Apply(s, step));
  }

  // ---- The two invariants together ----

  /** In a state where both hold, the two conditions are ones a worker can check on
      the rows: an unassigned call's agent still to settle is one it holds, and a
      free agent has nothing to settle with a live call. */
  lemma ConditionsOnTheRows(s: State, c: CallId, a: AgentId)
    requires Sound(s) && Accounted(s) && s.w.ActiveCall(c)
    ensures s.w.calls[c].agent.None? ==> (Owing(s.tasks, c, a) <==> s.w.Holds(c, a))
    ensures R.CanClaim(s.w, a, false) ==> !Owing(s.tasks, c, a)
  {
    if s.w.Holds(c, a) && s.w.calls[c].agent.None? { assert Astray(s.w, c, a); }
  }
}
