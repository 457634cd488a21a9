/** What the routing protocol guarantees over whole runs, whatever the
    interleaving. */
module OfferTheorems {
  import opened CallTypes
  import opened OfferProtocol
  import opened OfferInvariant
  import opened OfferStranding

  ghost predicate OrderlyRun(s: State, steps: seq<Step>) {
    forall k | 0 <= k < |steps| :: Orderly(RunAll(s, steps[..k]), steps[k])
  }

  lemma InitSound(agents: map<AgentId, Availability>)
    ensures Sound(Init(agents))
  {
  }

  lemma PrefixOrderly(s: State, steps: seq<Step>, k: nat)
    requires OrderlyRun(s, steps) && k <= |steps|
    ensures OrderlyRun(s, steps[..k])
  {
    forall j | 0 <= j < k
      ensures Orderly(RunAll(s, steps[..k][..j]), steps[..k][j])
    {
      assert steps[..k][..j] == steps[..j];
    }
  }

  lemma {:induction false} RunSound(s: State, steps: seq<Step>)
    requires Sound(s) && OrderlyRun(s, steps)
    ensures Sound(RunAll(s, steps))
    decreases |steps|
  {
    if steps != [] {
      var k := |steps| - 1;
      PrefixOrderly(s, steps, k);
      RunSound(s, steps[..k]);
      SoundIffOrderly(RunAll(s, steps[..k]), steps[k]);
      assert Orderly(RunAll(s, steps[..k]), steps[k]);
    }
  }

  /** The run is in the invariant all along. */
  ghost predicate SoundRun(s: State, steps: seq<Step>) {
    forall k | 0 <= k <= |steps| :: Sound(RunAll(s, steps[..k]))
  }

  lemma OrderlyRunIsSound(s: State, steps: seq<Step>)
    requires Sound(s) && OrderlyRun(s, steps)
    ensures SoundRun(s, steps)
  {
    forall k | 0 <= k <= |steps|
      ensures Sound(RunAll(s, steps[..k]))
    {
      PrefixOrderly(s, steps, k);
      RunSound(s, steps[..k]);
    }
  }

  lemma SoundStepIsOrderly(s: State, steps: seq<Step>, k: nat)
    requires SoundRun(s, steps) && k < |steps|
    ensures Orderly(RunAll(s, steps[..k]), steps[k])
  {
    assert steps[..k + 1] == steps[..k] + [steps[k]];
    RunMore(s, steps[..k], steps[k]);
    SoundIffOrderly(RunAll(s, steps[..k]), steps[k]);
  }

  /** Exactly the orderly runs stay in the invariant all along. */
  lemma SoundRunIff(s: State, steps: seq<Step>)
    requires Sound(s)
    ensures OrderlyRun(s, steps) <==> SoundRun(s, steps)
  {
    if OrderlyRun(s, steps) { OrderlyRunIsSound(s, steps); }
    if SoundRun(s, steps) {
      forall k | 0 <= k < |steps|
        ensures Orderly(RunAll(s, steps[..k]), steps[k])
      {
        SoundStepIsOrderly(s, steps, k);
      }
    }
  }

  // ---- Held offers ----

  /** In every interleaving an offer still ringing, and a handover still waiting,
      is to an agent held by that call; so no agent has two of them at once. */
  lemma OffersAreHeld(agents: map<AgentId, Availability>, steps: seq<Step>, c: CallId, a: AgentId)
    requires OrderlyRun(Init(agents), steps)
    requires var w := RunAll(Init(agents), steps).w; c in w.calls && w.calls[c].OfferedTo(a)
    ensures RunAll(Init(agents), steps).w.Holds(c, a)
    ensures var w := RunAll(Init(agents), steps).w;
            forall d | d in w.calls && w.calls[d].OfferedTo(a) :: d == c
  {
    InitSound(agents);
    RunSound(Init(agents), steps);
  }

  // ---- Nobody stranded ----

  /** Every step leaves no hold nobody settles; accepts, moves and marks may be
      disorderly. */
  ghost predicate LeavesNoHoldRun(s: State, steps: seq<Step>) {
    forall k | 0 <= k < |steps| :: LeavesNoHold(RunAll(s, steps[..k]), steps[k])
  }

  lemma PrefixLeavesNoHold(s: State, steps: seq<Step>, k: nat)
    requires LeavesNoHoldRun(s, steps) && k < |steps|
    ensures LeavesNoHoldRun(s, steps[..k]) && LeavesNoHold(RunAll(s, steps[..k]), steps[k])
  {
    forall j | 0 <= j < k
      ensures LeavesNoHold(RunAll(s, steps[..k][..j]), steps[..k][j])
    {
      assert steps[..k][..j] == steps[..j];
    }
  }

  lemma AccountedStep(s: State, step: Step)
    requires Tidy(s) && Accounted(s) && LeavesNoHold(s, step)
    ensures Tidy(Apply(s, step)) && Accounted(Apply(s, step))
  {
    TidyByStep(s, step);
    AccountedIff(s, step);
  }

  lemma {:induction false} RunAccounted(s: State, steps: seq<Step>)
    requires Tidy(s) && Accounted(s) && LeavesNoHoldRun(s, steps)
    ensures Tidy(RunAll(s, steps)) && Accounted(RunAll(s, steps))
    decreases |steps|
  {
    if steps != [] {
      var k := |steps| - 1;
      PrefixLeavesNoHold(s, steps, k);
      RunAccounted(s, steps[..k]);
      AccountedStep(RunAll(s, steps[..k]), steps[k]);
    }
  }

  /** With nothing left to run, every agent held by a live call is the agent of
      that call: no interleaving strands anyone. */
  lemma QuietMeansNobodyStranded(agents: map<AgentId, Availability>, steps: seq<Step>, c: CallId, a: AgentId)
    requires LeavesNoHoldRun(Init(agents), steps)
    requires var s := RunAll(Init(agents), steps);
             s.w.ActiveCall(c) && s.w.Holds(c, a) && forall id | id in s.tasks :: s.tasks[id].Debt().None?
    ensures RunAll(Init(agents), steps).w.calls[c].agent == Some(a)
  {
    RunAccounted(Init(agents), steps);
    QuietIn(RunAll(Init(agents), steps), c, a);
  }

  lemma QuietIn(s: State, c: CallId, a: AgentId)
    requires Accounted(s) && s.w.ActiveCall(c) && s.w.Holds(c, a)
    requires forall id | id in s.tasks :: s.tasks[id].Debt().None?
    ensures s.w.calls[c].agent == Some(a)
  {
    if s.w.calls[c].agent != Some(a) { assert Astray(s.w, c, a); }
  }

  // ---- Exact releases ----

  ghost predicate Owes(s: State, id: TaskId, c: CallId, a: AgentId) {
    id in s.tasks && s.tasks[id].Debt() == Some((c, a))
  }

  /** Between two states of a run, task `id` owes the settlement (c, a) all along. */
  ghost predicate OwesThroughout(s: State, steps: seq<Step>, id: TaskId, c: CallId, a: AgentId) {
    forall k | 0 <= k <= |steps| :: Owes(RunAll(s, steps[..k]), id, c, a)
  }

  /** The call holds the agent in `t` by the hold it had in `s`. */
  ghost predicate SameHoldOf(s: State, t: State, c: CallId, a: AgentId) {
    t.w.Holds(c, a) && a in s.heldSince && a in t.heldSince && t.heldSince[a] == s.heldSince[a]
  }

  lemma SameHold(s: State, t: State, c: CallId, a: AgentId)
    requires s.w.Holds(c, a) && t.w.Holds(c, a) && t.heldSince == Stamps(s, t.w) && a in s.heldSince
    ensures t.heldSince[a] == s.heldSince[a]
  {
  }

  /** One step over which the task goes on owing the settlement. */
  lemma OwedHoldStep(s: State, step: Step, id: TaskId, c: CallId, a: AgentId)
    requires Sound(s) && Orderly(s, step) && s.heldSince.Keys == s.w.agents.Keys
    requires Owes(s, id, c, a) && Owes(Apply(s, step), id, c, a)
    ensures var t := Apply(s, step);
            t.w.ActiveCall(c) ==> s.w.ActiveCall(c) && SameHoldOf(s, t, c, a)
  {
    SoundIffOrderly(s, step);
    StepFrame(s, step);
    if Apply(s, step).w.ActiveCall(c) { SameHold(s, Apply(s, step), c, a); }
  }

  lemma OwesBefore(s: State, steps: seq<Step>, id: TaskId, c: CallId, a: AgentId)
    requires OrderlyRun(s, steps) && OwesThroughout(s, steps, id, c, a) && steps != []
    ensures var before, last := steps[..|steps| - 1], steps[|steps| - 1];
            && OrderlyRun(s, before) && OwesThroughout(s, before, id, c, a)
            && RunAll(s, steps) == Apply(RunAll(s, before), last) && Orderly(RunAll(s, before), last)
            && Owes(RunAll(s, before), id, c, a) && Owes(RunAll(s, steps), id, c, a)
  {
    assert steps[..|steps|] == steps;
    PrefixOrderly(s, steps, |steps| - 1);
    PrefixOwes(s, steps, |steps| - 1, id, c, a);
  }

  lemma PrefixOwes(s: State, steps: seq<Step>, k: nat, id: TaskId, c: CallId, a: AgentId)
    requires OwesThroughout(s, steps, id, c, a) && k <= |steps|
    ensures OwesThroughout(s, steps[..k], id, c, a)
  {
    forall j | 0 <= j <= k
      ensures steps[..k][..j] == steps[..j]
    {}
  }

  /** From a withdrawal, an overflow or a move until the procedure's own release
      runs, the agent stays held by the call through one and the same hold (or
      the call is over). So a delayed release never frees a newer hold, not even
      when the call was offered to that agent again. */
  lemma {:induction false} OwedHoldLasts(s: State, steps: seq<Step>, id: TaskId, c: CallId, a: AgentId)
    requires Sound(s) && OrderlyRun(s, steps) && s.heldSince.Keys == s.w.agents.Keys
    requires OwesThroughout(s, steps, id, c, a) && s.w.ActiveCall(c)
    ensures var t := RunAll(s, steps);
            t.w.ActiveCall(c) ==> SameHoldOf(s, t, c, a)
    decreases |steps|
  {
    if steps == [] {
      assert steps[..0] == steps;
    } else {
      var k := |steps| - 1;
      var m := RunAll(s, steps[..k]);
      OwesBefore(s, steps, id, c, a);
      OwedHoldLasts(s, steps[..k], id, c, a);
      RunGrows(s, steps[..k]);
      RunSound(s, steps[..k]);
      OwedHoldStep(m, steps[k], id, c, a);
    }
  }

  lemma {:induction false} RunGrows(s: State, steps: seq<Step>)
    requires s.heldSince.Keys == s.w.agents.Keys
    ensures Grows(s, RunAll(s, steps)) && RunAll(s, steps).heldSince.Keys == RunAll(s, steps).w.agents.Keys
    decreases |steps|
  {
    if steps != [] {
      RunGrows(s, steps[..|steps| - 1]);
      StepFrame(RunAll(s, steps[..|steps| - 1]), steps[|steps| - 1]);
      assert RunAll(s, steps) == Apply(RunAll(s, steps[..|steps| - 1]), steps[|steps| - 1]);
    }
  }

  /** In an orderly run no step of anybody, the safety net included, frees an agent
      from a live call that is theirs. */
  lemma OwnCallKeepsItsAgent(agents: map<AgentId, Availability>, steps: seq<Step>, step: Step, c: CallId, a: AgentId)
    requires OrderlyRun(Init(agents), steps)
    requires var w := RunAll(Init(agents), steps).w;
             w.ActiveCall(c) && w.Holds(c, a) && w.calls[c].agent == Some(a)
    ensures Apply(RunAll(Init(agents), steps), step).w.Holds(c, a)
  {
    InitSound(agents);
    RunSound(Init(agents), steps);
    OwnCallKept(RunAll(Init(agents), steps), step, c, a);
  }

  lemma OwnCallKept(s: State, step: Step, c: CallId, a: AgentId)
    requires Sound(s) && s.w.ActiveCall(c) && s.w.Holds(c, a) && s.w.calls[c].agent == Some(a)
    ensures Apply(s, step).w.Holds(c, a)
  {
    StepFrame(s, step);
    if step.Run? && step.id in s.tasks {
      var t := s.tasks[step.id];
      assert t.Debt() != Some((c, a)) && TaskTidy(s, t);
    }
  }

  lemma {:induction false} RunTidy(s: State, steps: seq<Step>)
    requires Tidy(s)
    ensures Tidy(RunAll(s, steps))
    decreases |steps|
  {
    if steps != [] {
      RunTidy(s, steps[..|steps| - 1]);
      TidyByStep(RunAll(s, steps[..|steps| - 1]), steps[|steps| - 1]);
    }
  }

  /** The safety net is sound in every run, orderly or not: a release it makes, or
      the one that settles an ended call, leaves every hold of a live call. */
  lemma SafetyNetKeepsLiveHolds(agents: map<AgentId, Availability>, steps: seq<Step>, id: TaskId, c: CallId, a: AgentId)
    requires var s := RunAll(Init(agents), steps);
             id in s.tasks && s.tasks[id].EndedRelease? && s.w.ActiveCall(c) && s.w.Holds(c, a)
    ensures var s := RunAll(Init(agents), steps);
            TaskRun(s, id, s.tasks[id]).w.Holds(c, a)
  {
    RunTidy(Init(agents), steps);
    EndedReleaseKeeps(RunAll(Init(agents), steps), id, c, a);
  }

  lemma EndedReleaseKeeps(s: State, id: TaskId, c: CallId, a: AgentId)
    requires Tidy(s) && id in s.tasks && s.tasks[id].EndedRelease? && s.w.ActiveCall(c) && s.w.Holds(c, a)
    ensures TaskRun(s, id, s.tasks[id]).w.Holds(c, a)
  {
    TaskFrame(s, id);
    assert TaskTidy(s, s.tasks[id]);
  }

  // ---- First accept wins ----

  ghost predicate NoTransferOf(s: State, steps: seq<Step>, c: CallId) {
    forall k | 0 <= k < |steps| :: Transferred(RunAll(s, steps[..k]), steps[k]) != Some(c)
  }

  lemma NoTransferBefore(s: State, steps: seq<Step>, c: CallId)
    requires NoTransferOf(s, steps, c) && steps != []
    ensures var before := steps[..|steps| - 1];
            NoTransferOf(s, before, c) && Transferred(RunAll(s, before), steps[|steps| - 1]) != Some(c)
  {
    var k := |steps| - 1;
    forall j | 0 <= j < k
      ensures Transferred(RunAll(s, steps[..k][..j]), steps[..k][j]) != Some(c)
    {
      assert steps[..k][..j] == steps[..j];
    }
  }

  lemma AcceptSticksOnce(s: State, m: State, step: Step, c: CallId)
    requires c < s.nextCall && Answered(s.w, c) && KeepsAnswered(s, m, c) && Grows(s, m) && c < m.nextCall
    requires Transferred(m, step) != Some(c)
    ensures KeepsAnswered(s, Apply(m, step), c) && Grows(s, Apply(m, step)) && c < Apply(m, step).nextCall
  {
    StepFrame(m, step);
    assert KeepsAnswered(m, Apply(m, step), c);
  }

  /** Once an accept has cleared the offer, nothing but a transfer takes the call
      from its agent: no decline, ring timeout, overflow, claim or second accept,
      in any interleaving. */
  lemma {:induction false} AcceptSticks(s: State, steps: seq<Step>, c: CallId)
    requires c < s.nextCall && Answered(s.w, c) && NoTransferOf(s, steps, c)
    ensures var t := RunAll(s, steps); KeepsAnswered(s, t, c) && Grows(s, t) && c < t.nextCall
    decreases |steps|
  {
    if steps != [] {
      var k := |steps| - 1;
      NoTransferBefore(s, steps, c);
      AcceptSticks(s, steps[..k], c);
      AcceptSticksOnce(s, RunAll(s, steps[..k]), steps[k], c);
    }
  }

  lemma AcceptAnswers(s: State, a: AgentId, c: CallId)
    requires c < s.nextCall && Accepted(s.w, c, a).Some?
    ensures var t := Apply(s, Accept(c, a));
            c < t.nextCall && Answered(t.w, c) && t.w.calls[c].agent == Some(a)
  {
  }

  lemma AnsweredKeepsOthersOut(s: State, a: AgentId, between: seq<Step>, b: AgentId, c: CallId)
    requires c < s.nextCall && Answered(s.w, c) && s.w.calls[c].agent == Some(a) && NoTransferOf(s, between, c)
    requires Accepted(RunAll(s, between).w, c, b).Some?
    ensures a == b
  {
    AcceptSticks(s, between, c);
  }

  /** Two accepts that both take effect on one call, with no transfer of it
      between them, are by the same agent. */
  lemma OneAgentWins(s: State, first: AgentId, between: seq<Step>, second: AgentId, c: CallId)
    requires c < s.nextCall && Accepted(s.w, c, first).Some?
    requires NoTransferOf(Apply(s, Accept(c, first)), between, c)
    requires Accepted(RunAll(Apply(s, Accept(c, first)), between).w, c, second).Some?
    ensures first == second
  {
    AcceptAnswers(s, first, c);
    AnsweredKeepsOthersOut(Apply(s, Accept(c, first)), first, between, second, c);
  }
}
