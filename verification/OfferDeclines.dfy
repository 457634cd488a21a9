/** A decline survives racing drains: passOffer withdraws, records, and only
    then releases, so no drain that could still see the agent as available
    misses the decline. */
module OfferDeclines {
  import opened CallTypes
  import opened OfferProtocol
  import opened OfferInvariant
  import opened OfferTheorems
  import R = RowSteps

  predicate Candidate(t: Task, c: CallId, a: AgentId) {
    (t.DrainClear? || t.DrainClaim?) && t.call == c && a in t.candidates
  }

  /** A drain saw as available only agents whose later holds are newer than its
      member read. */
  ghost predicate ReadsBeforeHolds(s: State) {
    && s.heldSince.Keys == s.w.agents.Keys
    && forall id | id in s.tasks && s.tasks[id].Drains() ::
         && s.tasks[id].readAt < s.clock
         && (forall a | a in s.tasks[id].available :: a in s.w.agents
               && (s.w.agents[a].busy.Some? ==> s.heldSince[a] > s.tasks[id].readAt))
         && (s.tasks[id].DrainScan? || s.tasks[id].candidates <= s.tasks[id].available)
  }

  ghost predicate Recording(s: State, c: CallId, a: AgentId) {
    exists id :: id in s.tasks && s.tasks[id] == PassRecord(c, a, Declined)
  }

  /** Every decline is in the history, or its procedure is about to put it there. */
  ghost predicate DeclinesRecorded(s: State) {
    forall d | d in s.declines ::
      d.call < s.nextCall && ((d.call, d.agent) in s.declined || Recording(s, d.call, d.agent))
  }

  /** A drain that read its members after a declined offer was claimed, and saw
      the decliner as available, finds the decline recorded. */
  ghost predicate Fair(s: State) {
    forall id, d | id in s.tasks && s.tasks[id].Drains() && d in s.declines
                   && d.heldSince <= s.tasks[id].readAt && d.agent in s.tasks[id].available ::
      !s.w.ActiveCall(d.call)
      || ((d.call, d.agent) in s.declined && !Candidate(s.tasks[id], d.call, d.agent))
  }

  ghost predicate Settled(s: State) { ReadsBeforeHolds(s) && DeclinesRecorded(s) && Fair(s) }

  /** The drain task `u` goes on from `t` with no new candidate. */
  predicate Narrows(t: Task, u: Task) {
    && t.Drains() && u.Drains() && u.available == t.available && u.readAt == t.readAt
    && (u.DrainScan? || ((t.DrainClear? || t.DrainClaim?) && u.call == t.call && u.candidates <= t.candidates))
  }

  /** A step that logs no decline and widens no drain. */
  lemma SettledFrame(s: State, t: State)
    requires Settled(s) && Grows(s, t) && t.clock == s.clock + 1 && t.heldSince == Stamps(s, t.w)
    requires t.declines == s.declines && s.declined <= t.declined
    requires forall id | id in s.tasks && s.tasks[id].PassRecord? && s.tasks[id].kind == Declined ::
               (id in t.tasks && t.tasks[id] == s.tasks[id]) || (s.tasks[id].call, s.tasks[id].agent) in t.declined
    requires forall id | id in t.tasks && t.tasks[id].Drains() :: id in s.tasks && Narrows(s.tasks[id], t.tasks[id])
    ensures Settled(t)
  {
    forall d | d in t.declines
      ensures (d.call, d.agent) in t.declined || Recording(t, d.call, d.agent)
    {
      if (d.call, d.agent) !in s.declined {
        var id :| id in s.tasks && s.tasks[id] == PassRecord(d.call, d.agent, Declined);
        assert id in t.tasks ==> t.tasks[id] == s.tasks[id] || (d.call, d.agent) in t.declined;
      }
    }
  }

  lemma RecordingKept(s: State, id: TaskId, t: Task, c: CallId, a: AgentId)
    requires Recording(s, c, a) && (id in s.tasks ==> !s.tasks[id].PassRecord?)
    ensures Recording(s.(tasks := s.tasks[id := t]), c, a)
  {
    var i :| i in s.tasks && s.tasks[i] == PassRecord(c, a, Declined);
    assert i in s.tasks[id := t] && s.tasks[id := t][i] == PassRecord(c, a, Declined);
  }

  /** The decliner was held from the claim of the offer to its withdrawal, so a
      drain that read them as available in between does not exist. */
  lemma SettledByDecline(s: State, id: TaskId, c: CallId, a: AgentId, kind: PassKind)
    requires Settled(s) && id !in s.tasks && s.w.Holds(c, a) && c < s.nextCall
    ensures var t := s.(tasks := s.tasks[id := PassRecord(c, a, kind)]);
            Settled(if kind == Declined then t.(declines := s.declines + {Decline(c, a, s.heldSince[a])}) else t)
  {
    var p := PassRecord(c, a, kind);
    var t := s.(tasks := s.tasks[id := p]);
    assert kind == Declined ==> Recording(t, c, a) by { assert t.tasks[id] == p; }
    forall d: Decline | d in s.declines && Recording(s, d.call, d.agent)
      ensures Recording(t, d.call, d.agent)
    {
      RecordingKept(s, id, p, d.call, d.agent);
    }
  }

  /** `t` is the state after a step whose effect is `e`. */
  ghost predicate Ticks(s: State, e: State, t: State) {
    Grows(s, e) && t == e.(clock := s.clock + 1, heldSince := Stamps(s, e.w))
  }

  lemma SettledByPass(s: State, e: State, t: State, id: TaskId, c: CallId, a: AgentId, kind: PassKind,
                      before: Option<Time>)
    requires Settled(s) && Sound(s) && e == OfferPassed(s, id, c, a, kind, before) && Ticks(s, e, t)
    ensures Settled(t)
  {
    if e == s {
      SettledFrame(s, t);
    } else {
      assert s.w.Holds(c, a) && c < s.nextCall && e.w.agents == s.w.agents;
      var u := t.(tasks := s.tasks, declines := s.declines);
      SettledFrame(s, u);
      assert u.heldSince[a] == s.heldSince[a];
      SettledByDecline(u, id, c, a, kind);
    }
  }

  /** A drain task begins, or goes on, with candidates the history allows. */
  lemma SettledByDrain(s: State, id: TaskId, t: Task)
    requires Settled(s) && t.Drains() && (id in s.tasks ==> s.tasks[id].Drains())
    requires t.readAt < s.clock && (t.DrainScan? || t.candidates <= t.available)
    requires forall a | a in t.available :: a in s.w.agents && (s.w.agents[a].busy.Some? ==> s.heldSince[a] > t.readAt)
    requires forall d | d in s.declines && d.heldSince <= t.readAt
                        && d.agent in t.available && s.w.ActiveCall(d.call) ::
               (d.call, d.agent) in s.declined && !Candidate(t, d.call, d.agent)
    ensures Settled(s.(tasks := s.tasks[id := t]))
  {
    forall d: Decline | d in s.declines && Recording(s, d.call, d.agent)
      ensures Recording(s.(tasks := s.tasks[id := t]), d.call, d.agent)
    {
      RecordingKept(s, id, t, d.call, d.agent);
    }
  }

  /** An agent read as available is held by nobody, so no decline of theirs is
      still being recorded. */
  lemma AvailableRecorded(s: State, members: set<AgentId>)
    requires Settled(s) && Sound(s)
    ensures forall d | d in s.declines && d.agent in AvailableOf(s.w, members) && s.w.ActiveCall(d.call) ::
              (d.call, d.agent) in s.declined
  {
  }

  lemma SettledByStart(s: State, e: State, t: State, id: TaskId, members: set<AgentId>)
    requires Settled(s) && Sound(s) && e == DrainStarted(s, id, members) && Ticks(s, e, t)
    ensures Settled(t)
  {
    if id in s.tasks {
      SettledFrame(s, t);
    } else {
      var u := t.(tasks := s.tasks);
      SettledFrame(s, u);
      AvailableRecorded(s, members);
      SettledByDrain(u, id, DrainScan(AvailableOf(s.w, members), s.clock));
    }
  }

  lemma SettledByPick(s: State, e: State, t: State, id: TaskId, c: CallId)
    requires Settled(s) && e == DrainPicked(s, id, c) && Ticks(s, e, t)
    ensures Settled(t)
  {
    if id in s.tasks && s.tasks[id].DrainScan? {
      var u := t.(tasks := s.tasks);
      SettledFrame(s, u);
      var next := e.tasks[id];
      assert forall a | a in next.candidates :: a in next.available && (c, a) !in s.declined;
      SettledByDrain(u, id, next);
    } else {
      SettledFrame(s, t);
    }
  }

  lemma TaskRunFrame(s: State, id: TaskId)
    requires id in s.tasks
    ensures var t, task := TaskRun(s, id, s.tasks[id]), s.tasks[id];
            && t.declines == s.declines && s.declined <= t.declined
            && t.tasks - {id} == s.tasks - {id}
            && (task.PassRecord? && task.kind == Declined ==> (task.call, task.agent) in t.declined)
            && (id in t.tasks && t.tasks[id].Drains() ==> Narrows(task, t.tasks[id]))
  {
    match s.tasks[id]
    case PassRecord(_, _, _) =>
    case PassRelease(_, _) =>
    case OverflowRelease(_, _) =>
    case OverflowClear(_) =>
    case TransferMove(_, _, _, _) =>
    case TransferMark(_, _, _, _) =>
    case _ =>
  }

  lemma SettledByRun(s: State, e: State, t: State, id: TaskId)
    requires Settled(s) && id in s.tasks && e == TaskRun(s, id, s.tasks[id]) && Ticks(s, e, t)
    ensures Settled(t)
  {
    TaskRunFrame(s, id);
    OthersStay(s.tasks, e.tasks, id);
    SettledFrame(s, t);
  }

  lemma OthersStay(before: map<TaskId, Task>, after: map<TaskId, Task>, id: TaskId)
    requires after - {id} == before - {id}
    ensures forall i | i != id && i in after :: i in before && after[i] == before[i]
    ensures forall i | i != id && i in before :: i in after
  {
    assert forall i | i != id && i in after :: i in after - {id} && after[i] == (after - {id})[i];
    assert forall i | i != id && i in before :: i in before - {id};
  }

  /** A try or a move to the next call leaves at most a narrower drain. */
  lemma DrainNarrows(s: State, step: Step)
    requires step.DrainTry? || step.DrainNext?
    ensures var e := Drained(s, step);
            && e.declined == s.declined && e.declines == s.declines && e.tasks - {step.id} == s.tasks - {step.id}
            && (step.id in s.tasks && !s.tasks[step.id].DrainClaim? ==> e.tasks == s.tasks)
            && (step.id in e.tasks ==> step.id in s.tasks)
            && (step.id in e.tasks && s.tasks[step.id].DrainClaim? ==> Narrows(s.tasks[step.id], e.tasks[step.id]))
  {
  }

  lemma SettledByDrainStep(s: State, e: State, t: State, step: Step)
    requires Settled(s) && (step.DrainTry? || step.DrainNext?) && e == Drained(s, step) && Ticks(s, e, t)
    ensures Settled(t)
  {
    DrainNarrows(s, step);
    OthersStay(s.tasks, e.tasks, step.id);
    SettledFrame(s, t);
  }

  /** The step leaves the tasks alone, or begins one that is not a drain. */
  ghost predicate BeginsAtMostOne(s: State, t: State, id: TaskId) {
    && t.declined == s.declined && t.declines == s.declines
    && (t.tasks == s.tasks
        || (id !in s.tasks && id in t.tasks && t.tasks == s.tasks[id := t.tasks[id]] && !t.tasks[id].Drains()))
  }

  lemma BeginFrame(s: State, step: Step)
    requires BeginsTask(step) && !step.PassOffer?
    ensures BeginsAtMostOne(s, Begun(s, step), step.id)
  {
    match step
    case Overflow(_, _, _, _, _) =>
    case Transfer(_, _, _, _, _) =>
    case End(_, _, _, _, _) =>
    case FindHeldByEnded(_, _) =>
  }

  lemma SettledByBegin(s: State, e: State, t: State, id: TaskId)
    requires Settled(s) && Ticks(s, e, t) && BeginsAtMostOne(s, e, id)
    ensures Settled(t)
  {
    SettledFrame(s, t);
  }

  lemma TableKeepsPasses(s: State, step: Step)
    ensures var e := TableChanged(s, step);
            e.tasks == s.tasks && e.declined == s.declined && e.declines == s.declines
  {
  }

  /** A step that changes neither tasks nor passes. */
  lemma SettledByRows(s: State, e: State, t: State)
    requires Settled(s) && Ticks(s, e, t)
    requires e.tasks == s.tasks && e.declined == s.declined && e.declines == s.declines
    ensures Settled(t)
  {
    SettledFrame(s, t);
  }

  lemma SettledByDrains(s: State, e: State, t: State, step: Step)
    requires Settled(s) && Sound(s) && Drains(step) && e == Drained(s, step) && Ticks(s, e, t)
    ensures Settled(t)
  {
    match step
    case StartDrain(id, members) => SettledByStart(s, e, t, id, members);
    case DrainPick(id, c) => SettledByPick(s, e, t, id, c);
    case _ => SettledByDrainStep(s, e, t, step);
  }

  lemma SettledByBegun(s: State, e: State, t: State, step: Step)
    requires Settled(s) && Sound(s) && BeginsTask(step) && e == Begun(s, step) && Ticks(s, e, t)
    ensures Settled(t)
  {
    if step.PassOffer? {
      SettledByPass(s, e, t, step.id, step.call, step.agent, step.kind, step.expiredBefore);
    } else {
      BeginFrame(s, step);
      SettledByBegin(s, e, t, step.id);
    }
  }

  lemma SettledByStep(s: State, step: Step)
    requires Settled(s) && Sound(s)
    ensures Settled(Apply(s, step))
  {
    var e, t := Effect(s, step), Apply(s, step);
    EffectFramed(s, step);
    assert Ticks(s, e, t);
    if step.Run? { if step.id in s.tasks { SettledByRun(s, e, t, step.id); } else { SettledByRows(s, e, t); } }
    else if ChangesOneRow(step) { SettledByRows(s, e, t); }
    else if BeginsTask(step) { SettledByBegun(s, e, t, step); }
    else if Drains(step) { SettledByDrains(s, e, t, step); }
    else {
      TableKeepsPasses(s, step);
      SettledByRows(s, e, t);
    }
  }

  lemma {:induction false} RunSettled(agents: map<AgentId, Availability>, steps: seq<Step>)
    requires OrderlyRun(Init(agents), steps)
    ensures Settled(RunAll(Init(agents), steps)) && Sound(RunAll(Init(agents), steps))
    decreases |steps|
  {
    var s := Init(agents);
    InitSound(agents);
    RunSound(s, steps);
    if steps != [] {
      var k := |steps| - 1;
      PrefixOrderly(s, steps, k);
      RunSettled(agents, steps[..k]);
      SettledByStep(RunAll(s, steps[..k]), steps[k]);
      assert RunAll(s, steps) == Apply(RunAll(s, steps[..k]), steps[k]);
    }
  }

  /** A drain about to claim a recorded decliner holds a call that is over. */
  lemma DrainBlocked(s: State, id: TaskId, a: AgentId, d: Decline)
    requires Settled(s) && id in s.tasks && s.tasks[id].DrainClaim? && a in s.tasks[id].candidates
    requires d in s.declines && d.call == s.tasks[id].call && d.agent == a && d.heldSince <= s.tasks[id].readAt
    ensures DrainTried(s, id, a).w == s.w
  {
    assert Candidate(s.tasks[id], d.call, a);
    assert !s.w.ActiveCall(d.call);
  }

  /** No drain whose member read came after a declined offer was claimed ever
      offers that call to the decliner again, whatever runs in between. */
  lemma DeclinerNotOfferedAgain(agents: map<AgentId, Availability>, steps: seq<Step>, id: TaskId, a: AgentId,
                                d: Decline)
    requires OrderlyRun(Init(agents), steps)
    requires var s := RunAll(Init(agents), steps);
             && id in s.tasks && s.tasks[id].DrainClaim? && a in s.tasks[id].candidates
             && d in s.declines && d.call == s.tasks[id].call && d.agent == a
             && d.heldSince <= s.tasks[id].readAt
    ensures var s := RunAll(Init(agents), steps);
            DrainTried(s, id, a).w == s.w
  {
    RunSettled(agents, steps);
    DrainBlocked(RunAll(Init(agents), steps), id, a, d);
  }
}
