/** Runs from the empty database in which one step, and only one, is not orderly:
    what each of the four conditions keeps out. */
module OfferRaces {
  import opened CallTypes
  import opened OfferProtocol
  import opened OfferInvariant
  import opened OfferStranding
  import opened OfferTheorems
  import R = RowSteps

  const TEAM: map<AgentId, Availability> := map[1 := Available, 2 := Available, 3 := Available]
  const CALL: Call := Call(Ringing, None, Inbound, None, None, Some(7), Some(0), 0, 0)

  /** The steps that have a condition. */
  datatype Kind = Accepting | Moving | Marking | Transferring

  function KindOf(s: State, step: Step): Option<Kind> {
    match step
    case Accept(_, _) => Some(Accepting)
    case Transfer(_, _, _, _, _) => Some(Transferring)
    case Run(id) =>
      if id !in s.tasks then None
      else if s.tasks[id].TransferMove? then Some(Moving)
      else if s.tasks[id].TransferMark? then Some(Marking)
      else None
    case _ => None
  }

  ghost predicate Proper(s: State, step: Step) { Orderly(s, step) && LeavesNoHold(s, step) }

  /** A task watched since it owed the settlement of call 0 with `agent`, and the
      hold of the two at that moment, by the tick it began. */
  datatype Watch = Watch(id: TaskId, agent: AgentId, hold: Option<nat>)

  /** What to know of a run: the kind of its one improper step, if it had one yet,
      and the task watched. */
  datatype Trace = Trace(odd: Option<Kind>, watch: Option<Watch>)

  const PROPER := Trace(None, None)

  /** The tick at which the agent's hold last changed. */
  function Since(s: State, a: AgentId): nat { if a in s.heldSince then s.heldSince[a] else 0 }

  function HoldOf(s: State, a: AgentId): Option<nat> { if s.w.Holds(0, a) then Some(Since(s, a)) else None }

  /** The watched task still owes its settlement. */
  predicate Watching(tr: Trace, tasks: map<TaskId, Task>) {
    tr.watch.Some? ==>
      tr.watch.value.id in tasks && tasks[tr.watch.value.id].Debt() == Some((0, tr.watch.value.agent))
  }

  // ---- Runs with one improper step ----

  /** The state after each sequence of steps. */
  type Path = seq<Step> -> State

  ghost predicate Runs(path: Path) { forall xs, x :: path(xs + [x]) == Apply(path(xs), x) }

  /** Step j of the run is the improper one, of kind `odd`; j is past the end if
      there is none. */
  ghost predicate OddAt(path: Path, steps: seq<Step>, j: nat, odd: Option<Kind>) {
    && (j < |steps| <==> odd.Some?)
    && (forall k | 0 <= k < |steps| && k != j :: Proper(path(steps[..k]), steps[k]))
    && (j < |steps| ==> odd == KindOf(path(steps[..j]), steps[j]) && !Proper(path(steps[..j]), steps[j]))
  }

  /** From step `since` on, the watched task owes its settlement. */
  ghost predicate WatchedSince(path: Path, steps: seq<Step>, since: nat, tr: Trace) {
    tr.watch.Some? ==>
      && since <= |steps|
      && HoldOf(path(steps[..since]), tr.watch.value.agent) == tr.watch.value.hold
      && forall k | since <= k <= |steps| :: Watching(tr, path(steps[..k]).tasks)
  }

  ghost predicate Leads(path: Path, steps: seq<Step>, j: nat, since: nat, tr: Trace) {
    OddAt(path, steps, j, tr.odd) && WatchedSince(path, steps, since, tr)
  }

  ghost predicate ReachedBy(path: Path, s: State, tr: Trace) {
    exists steps, j: nat, since: nat :: path(steps) == s && Leads(path, steps, j, since, tr)
  }

  ghost predicate Reached(s: State, tr: Trace) { ReachedBy(steps => RunAll(Init(TEAM), steps), s, tr) }

  /** A hold never began after now. */
  ghost predicate Stamped(s: State) {
    s.heldSince.Keys == s.w.agents.Keys && forall a | a in s.heldSince :: s.heldSince[a] <= s.clock
  }

  /** States with what is known of a run that leads there, closed under proper
      steps, one improper one, and beginning to watch. */
  ghost predicate Closed(P: (State, Trace) -> bool) {
    && P(Init(TEAM), PROPER)
    && (forall s, tr :: P(s, tr) ==> Stamped(s))
    && (forall s, tr, step :: P(s, tr) && Proper(s, step) && Watching(tr, Apply(s, step).tasks) ==>
          P(Apply(s, step), tr))
    && (forall s, tr, step :: P(s, tr) && tr.odd.None? && !Proper(s, step) && Watching(tr, Apply(s, step).tasks) ==>
          P(Apply(s, step), tr.(odd := KindOf(s, step))))
    && (forall s, tr, w: Watch ::
          P(s, tr) && w.hold == HoldOf(s, w.agent) && Watching(tr.(watch := Some(w)), s.tasks) ==>
          P(s, tr.(watch := Some(w))))
  }

  lemma PrefixesStay(steps: seq<Step>, step: Step)
    ensures forall k | 0 <= k <= |steps| :: (steps + [step])[..k] == steps[..k]
    ensures forall k | 0 <= k < |steps| :: (steps + [step])[k] == steps[k]
    ensures steps[..|steps|] == steps && (steps + [step])[..|steps| + 1] == steps + [step]
  {
  }

  lemma ProperMore(path: Path, steps: seq<Step>, j: nat, odd: Option<Kind>, step: Step)
    requires OddAt(path, steps, j, odd) && Proper(path(steps), step)
    ensures OddAt(path, steps + [step], if odd.None? then |steps| + 1 else j, odd)
  {
    PrefixesStay(steps, step);
  }

  lemma OddMore(path: Path, steps: seq<Step>, j: nat, step: Step)
    requires OddAt(path, steps, j, None) && !Proper(path(steps), step)
    ensures OddAt(path, steps + [step], |steps|, KindOf(path(steps), step))
  {
    PrefixesStay(steps, step);
  }

  lemma WatchedMore(path: Path, steps: seq<Step>, since: nat, tr: Trace, step: Step)
    requires WatchedSince(path, steps, since, tr) && Watching(tr, path(steps + [step]).tasks)
    ensures WatchedSince(path, steps + [step], since, tr)
  {
    PrefixesStay(steps, step);
  }

  /** Whether a run was improper is independent of what is watched. */
  lemma WatchedIsItsOwn(path: Path, steps: seq<Step>, since: nat, tr: Trace, odd: Option<Kind>)
    requires WatchedSince(path, steps, since, tr)
    ensures WatchedSince(path, steps, since, tr.(odd := odd))
  {
    assert forall tasks :: Watching(tr.(odd := odd), tasks) == Watching(tr, tasks);
  }

  lemma ReachedMore(path: Path, s: State, tr: Trace, step: Step)
    requires Runs(path) && ReachedBy(path, s, tr)
    requires (Proper(s, step) || tr.odd.None?) && Watching(tr, Apply(s, step).tasks)
    ensures ReachedBy(path, Apply(s, step), if Proper(s, step) then tr else tr.(odd := KindOf(s, step)))
  {
    var steps, j: nat, since: nat :| path(steps) == s && Leads(path, steps, j, since, tr);
    var more := steps + [step];
    assert path(more) == Apply(s, step);
    WatchedMore(path, steps, since, tr, step);
    if Proper(s, step) {
      ProperMore(path, steps, j, tr.odd, step);
      assert Leads(path, more, if tr.odd.None? then |steps| + 1 else j, since, tr);
    } else {
      OddMore(path, steps, j, step);
      WatchedIsItsOwn(path, more, since, tr, KindOf(s, step));
      assert Leads(path, more, |steps|, since, tr.(odd := KindOf(s, step)));
    }
  }

  lemma ReachedWatched(path: Path, s: State, tr: Trace, w: Watch)
    requires ReachedBy(path, s, tr) && w.hold == HoldOf(s, w.agent) && Watching(tr.(watch := Some(w)), s.tasks)
    ensures ReachedBy(path, s, tr.(watch := Some(w)))
  {
    var steps, j: nat, since: nat :| path(steps) == s && Leads(path, steps, j, since, tr);
    assert steps[..|steps|] == steps;
    assert Leads(path, steps, j, |steps|, tr.(watch := Some(w)));
  }

  lemma RunsFrom(s: State)
    ensures Runs(steps => RunAll(s, steps))
  {
    forall xs, x ensures RunAll(s, xs + [x]) == Apply(RunAll(s, xs), x) { RunMore(s, xs, x); }
  }

  lemma {:induction false} RunStamped(steps: seq<Step>)
    ensures Stamped(RunAll(Init(TEAM), steps))
    decreases |steps|
  {
    if steps != [] {
      RunStamped(steps[..|steps| - 1]);
      StampedStep(RunAll(Init(TEAM), steps[..|steps| - 1]), steps[|steps| - 1]);
    }
  }

  lemma StampedStep(s: State, step: Step)
    requires Stamped(s)
    ensures Stamped(Apply(s, step))
  {
    StepFrame(s, step);
  }

  lemma ReachedIsStamped(s: State, tr: Trace)
    requires Reached(s, tr)
    ensures Stamped(s)
  {
    var steps :| RunAll(Init(TEAM), steps) == s;
    RunStamped(steps);
  }

  lemma ReachedClosed()
    ensures Closed((s: State, tr: Trace) => Reached(s, tr))
  {
    var path := (steps: seq<Step>) => RunAll(Init(TEAM), steps);
    RunsFrom(Init(TEAM));
    assert path([]) == Init(TEAM) && Leads(path, [], 0, 0, PROPER);
    forall s: State, tr: Trace | Reached(s, tr)
      ensures Stamped(s)
    {
      ReachedIsStamped(s, tr);
    }
    forall s: State, tr: Trace, step
      | Reached(s, tr) && (Proper(s, step) || tr.odd.None?) && Watching(tr, Apply(s, step).tasks)
      ensures Reached(Apply(s, step), if Proper(s, step) then tr else tr.(odd := KindOf(s, step)))
    {
      ReachedMore(path, s, tr, step);
    }
    forall s: State, tr: Trace, w: Watch
      | Reached(s, tr) && w.hold == HoldOf(s, w.agent) && Watching(tr.(watch := Some(w)), s.tasks)
      ensures Reached(s, tr.(watch := Some(w)))
    {
      ReachedWatched(path, s, tr, w);
    }
  }

  // ---- The scene: three agents with their holds, and the one call ----

  function Free(busy: Option<CallId>): Agent { Agent(Available, busy, false) }

  datatype Scene = Scene(one: Option<CallId>, two: Option<CallId>, three: Option<CallId>, row: Call) {
    function Rows(): World {
      World(map[1 := Free(one), 2 := Free(two), 3 := Free(three)], map[0 := row])
    }

    function Busy(a: AgentId): Option<CallId> { if a == 1 then one else if a == 2 then two else three }

    function With(a: AgentId, busy: Option<CallId>): Scene {
      if a == 1 then this.(one := busy) else if a == 2 then this.(two := busy) else this.(three := busy)
    }

    /** Free, and not on the call. */
    predicate CanTake(a: AgentId) { 1 <= a <= 3 && Busy(a).None? && !(row.Active() && row.agent == Some(a)) }
  }

  lemma SceneClaims(c: Scene, a: AgentId)
    requires c.CanTake(a)
    ensures R.CanClaim(c.Rows(), a, false)
    ensures R.SetBusy(c.Rows(), a, Some(0)) == c.With(a, Some(0)).Rows()
  {
  }

  lemma SceneReleases(c: Scene, a: AgentId)
    requires 1 <= a <= 3 && c.Busy(a) == Some(0)
    ensures R.Release(c.Rows(), a, 0) == c.With(a, None).Rows()
  {
  }

  lemma ScenePuts(c: Scene, r: Option<Call>)
    ensures R.Put(c.Rows(), 0, r) == (if r.Some? then c.(row := r.value) else c).Rows()
  {
  }

  /** The state shows this scene, with these tasks. */
  ghost predicate At(P: (State, Trace) -> bool, s: State, tr: Trace, c: Scene, tasks: map<TaskId, Task>) {
    Closed(P) && P(s, tr) && s.nextCall == 1 && s.time == 0 && s.w == c.Rows() && s.tasks == tasks
  }

  /** One tick later, each agent's hold is as old as it was unless it changed. */
  ghost predicate Ticked(s: State, t: State, c: Scene, d: Scene) {
    && t.clock == s.clock + 1
    && forall a | 1 <= a <= 3 :: Since(t, a) == if c.Busy(a) == d.Busy(a) then Since(s, a) else s.clock
  }

  ghost predicate SamePasses(s: State, t: State) { t.declined == s.declined && t.declines == s.declines }

  /** The step shows scene `d` next, with these tasks. */
  ghost predicate Shows(s: State, step: Step, d: Scene, tasks: map<TaskId, Task>) {
    var e := Effect(s, step);
    e.w == d.Rows() && e.tasks == tasks && e.nextCall == s.nextCall && e.time == s.time
  }

  lemma ClockTicks(s: State, t: State, c: Scene, d: Scene)
    requires Stamped(s) && s.w == c.Rows() && t.w == d.Rows()
    requires t.clock == s.clock + 1 && t.heldSince == Stamps(s, t.w)
    ensures Ticked(s, t, c, d)
  {
  }

  /** One step of a run, proper or the first that is not. */
  lemma Proceeds(P: (State, Trace) -> bool, s: State, tr: Trace, c: Scene, tasks: map<TaskId, Task>, step: Step,
                 d: Scene,
                 next: map<TaskId, Task>)
    returns (t: State)
    requires At(P, s, tr, c, tasks) && Shows(s, step, d, next) && Watching(tr, next)
    requires (Proper(s, step) || tr.odd.None?)
    ensures At(P, t, if Proper(s, step) then tr else tr.(odd := KindOf(s, step)), d, next) && Ticked(s, t, c, d)
    ensures t.declined == Effect(s, step).declined && t.declines == Effect(s, step).declines
  {
    t := Apply(s, step);
    ClockTicks(s, t, c, d);
  }

  /** A proper step that passes no offer on. */
  ghost predicate Goes(s: State, step: Step) { Proper(s, step) && SamePasses(s, Effect(s, step)) }

  lemma Properly(P: (State, Trace) -> bool, s: State, tr: Trace, c: Scene, tasks: map<TaskId, Task>, step: Step,
                 d: Scene,
                 next: map<TaskId, Task>)
    returns (t: State)
    requires At(P, s, tr, c, tasks) && Shows(s, step, d, next) && Watching(tr, next) && Goes(s, step)
    ensures At(P, t, tr, d, next) && Ticked(s, t, c, d) && SamePasses(s, t)
  {
    t := Proceeds(P, s, tr, c, tasks, step, d, next);
  }

  lemma ClaimShows(s: State, c: Scene, a: AgentId)
    requires s.w == c.Rows() && s.time == 0 && c.CanTake(a) && R.Assign(c.row, a, 0).Some?
    ensures Shows(s, ClaimAndAssign(a, 0, false), c.With(a, Some(0)).(row := R.Assign(c.row, a, 0).value), s.tasks)
  {
    SceneClaims(c, a);
    assert R.ClaimOutcomeOf(s.w, a, 0, false) == R.Assigned;
    ScenePuts(c, R.Assign(c.row, a, 0));
    SceneHolds(c.(row := R.Assign(c.row, a, 0).value), a);
  }

  lemma SceneHolds(c: Scene, a: AgentId)
    requires 1 <= a <= 3
    ensures R.SetBusy(c.Rows(), a, Some(0)) == c.With(a, Some(0)).Rows()
  {
  }

  lemma PassShows(s: State, c: Scene, id: TaskId, a: AgentId, kind: PassKind)
    requires Stamped(s) && s.w == c.Rows() && id !in s.tasks && R.Withdraw(c.row, a, None).Some? && 1 <= a <= 3
    ensures Shows(s, PassOffer(id, 0, a, kind, None), c.(row := R.Withdraw(c.row, a, None).value),
                  s.tasks[id := PassRecord(0, a, kind)])
    ensures var e := Effect(s, PassOffer(id, 0, a, kind, None));
            e.declined == s.declined && (kind == Declined ==> Decline(0, a, Since(s, a)) in e.declines)
  {
    ScenePuts(c, R.Withdraw(c.row, a, None));
  }

  lemma MoveShows(s: State, c: Scene, id: TaskId, from: AgentId, to: AgentId)
    requires s.w == c.Rows() && id in s.tasks && s.tasks[id] == TransferMove(0, Some(from), to, true)
    requires R.MoveAgent(c.row, from, to).Some? && 1 <= from <= 3
    ensures Shows(s, Run(id), c.(row := R.MoveAgent(c.row, from, to).value),
                  s.tasks[id := TransferMark(0, Some(from), to, true)])
    ensures Proper(s, Run(id)) <==> c.Busy(from) == Some(0)
    ensures KindOf(s, Run(id)) == Some(Moving) && SamePasses(s, Effect(s, Run(id)))
  {
    ScenePuts(c, R.MoveAgent(c.row, from, to));
  }

  lemma MarkShows(s: State, c: Scene, id: TaskId, from: AgentId, to: AgentId)
    requires s.w == c.Rows() && s.time == 0 && id in s.tasks && s.tasks[id] == TransferMark(0, Some(from), to, true)
    requires 1 <= to <= 3
    ensures Shows(s, Run(id), HandedOver(c, to), s.tasks[id := TransferRelease(0, from)])
    ensures Proper(s, Run(id)) <==> R.MarkHandover(c.row, to, 0).None? || c.Busy(to) == Some(0)
    ensures KindOf(s, Run(id)) == Some(Marking) && SamePasses(s, Effect(s, Run(id)))
  {
    ScenePuts(c, R.MarkHandover(c.row, to, 0));
  }

  // ---- One step each ----

  lemma Arrives(P: (State, Trace) -> bool) returns (s: State)
    requires Closed(P)
    ensures At(P, s, PROPER, Scene(None, None, None, CALL), map[]) && s.declined == {}
  {
    ArrivalIsProper();
    ArrivalShows();
    s := Apply(Init(TEAM), NewCall(CALL));
  }

  lemma ArrivalIsProper()
    ensures Proper(Init(TEAM), NewCall(CALL))
  {
  }

  lemma ArrivalShows()
    ensures var s := Apply(Init(TEAM), NewCall(CALL));
            && s.nextCall == 1 && s.time == 0 && s.w == Scene(None, None, None, CALL).Rows()
            && s.tasks == map[] && s.declined == {}
  {
    assert Apply(Init(TEAM), NewCall(CALL)).w.agents == Scene(None, None, None, CALL).Rows().agents;
  }

  /** A statement on the call's row alone. */
  lemma RowRuns(P: (State, Trace) -> bool, s: State, tr: Trace, c: Scene, tasks: map<TaskId, Task>, step: Step, r: Call)
    returns (t: State)
    requires At(P, s, tr, c, tasks) && Watching(tr, tasks) && Proper(s, step)
    requires Effect(s, step) == s.(w := R.Put(s.w, 0, Some(r)))
    ensures At(P, t, tr, c.(row := r), tasks) && Ticked(s, t, c, c.(row := r)) && SamePasses(s, t)
  {
    ScenePuts(c, Some(r));
    t := Proceeds(P, s, tr, c, tasks, step, c.(row := r), tasks);
  }

  lemma AcceptRuns(P: (State, Trace) -> bool, s: State, tr: Trace, c: Scene, tasks: map<TaskId, Task>, a: AgentId)
    returns (t: State)
    requires At(P, s, tr, c, tasks) && Watching(tr, tasks) && 1 <= a <= 3 && R.Accept(c.row, a).Some?
    requires c.row.agent.None? ==> !Owing(tasks, 0, a)
    ensures At(P, t, tr, c.(row := R.Accept(c.row, a).value), tasks) && SamePasses(s, t)
    ensures Ticked(s, t, c, c.(row := R.Accept(c.row, a).value))
  {
    t := RowRuns(P, s, tr, c, tasks, Accept(0, a), R.Accept(c.row, a).value);
  }

  lemma AnswerRuns(P: (State, Trace) -> bool, s: State, tr: Trace, c: Scene, tasks: map<TaskId, Task>)
    returns (t: State)
    requires At(P, s, tr, c, tasks) && Watching(tr, tasks) && R.Answer(c.row).Some?
    ensures At(P, t, tr, c.(row := R.Answer(c.row).value), tasks) && SamePasses(s, t)
    ensures Ticked(s, t, c, c.(row := R.Answer(c.row).value))
  {
    t := RowRuns(P, s, tr, c, tasks, Answer(0), R.Answer(c.row).value);
  }

  lemma ReturnRuns(P: (State, Trace) -> bool, s: State, tr: Trace, c: Scene, tasks: map<TaskId, Task>, a: AgentId)
    returns (t: State)
    requires At(P, s, tr, c, tasks) && Watching(tr, tasks) && R.ReturnHandover(c.row, a, 0, 0).Some?
    ensures At(P, t, tr, c.(row := R.ReturnHandover(c.row, a, 0, 0).value), tasks) && SamePasses(s, t)
    ensures Ticked(s, t, c, c.(row := R.ReturnHandover(c.row, a, 0, 0).value))
  {
    t := RowRuns(P, s, tr, c, tasks, ReturnHandover(0, a, 0), R.ReturnHandover(c.row, a, 0, 0).value);
  }

  lemma AcceptIsOdd(s: State, c: Scene, a: AgentId)
    requires s.w == c.Rows() && 1 <= a <= 3 && R.Accept(c.row, a).Some?
    requires c.row.agent.None? && Owing(s.tasks, 0, a)
    ensures !Proper(s, Accept(0, a))
    ensures Shows(s, Accept(0, a), c.(row := R.Accept(c.row, a).value), s.tasks)
  {
    ScenePuts(c, R.Accept(c.row, a));
  }

  lemma OddAccept(P: (State, Trace) -> bool, s: State, c: Scene, tasks: map<TaskId, Task>, a: AgentId)
    returns (t: State)
    requires At(P, s, PROPER, c, tasks) && 1 <= a <= 3 && R.Accept(c.row, a).Some?
    requires c.row.agent.None? && Owing(tasks, 0, a)
    ensures At(P, t, Trace(Some(Accepting), None), c.(row := R.Accept(c.row, a).value), tasks) && SamePasses(s, t)
    ensures Ticked(s, t, c, c.(row := R.Accept(c.row, a).value))
  {
    AcceptIsOdd(s, c, a);
    t := Proceeds(P, s, PROPER, c, tasks, Accept(0, a), c.(row := R.Accept(c.row, a).value), tasks);
  }

  lemma ClaimRuns(P: (State, Trace) -> bool, s: State, tr: Trace, c: Scene, tasks: map<TaskId, Task>, a: AgentId)
    returns (t: State)
    requires At(P, s, tr, c, tasks) && Watching(tr, tasks) && c.CanTake(a) && R.Assign(c.row, a, 0).Some?
    ensures var d := c.With(a, Some(0)).(row := R.Assign(c.row, a, 0).value);
            At(P, t, tr, d, tasks) && Ticked(s, t, c, d) && SamePasses(s, t)
  {
    var d := c.With(a, Some(0)).(row := R.Assign(c.row, a, 0).value);
    ClaimShows(s, c, a);
    t := Proceeds(P, s, tr, c, tasks, ClaimAndAssign(a, 0, false), d, tasks);
  }

  lemma PassRuns(P: (State, Trace) -> bool, s: State, tr: Trace, c: Scene, tasks: map<TaskId, Task>, id: TaskId,
                 a: AgentId, kind: PassKind)
    returns (t: State)
    requires At(P, s, tr, c, tasks) && id !in tasks && R.Withdraw(c.row, a, None).Some? && 1 <= a <= 3
    requires Watching(tr, tasks[id := PassRecord(0, a, kind)])
    ensures var d := c.(row := R.Withdraw(c.row, a, None).value);
            At(P, t, tr, d, tasks[id := PassRecord(0, a, kind)]) && Ticked(s, t, c, d)
    ensures t.declined == s.declined
    ensures kind == Declined ==> Decline(0, a, Since(s, a)) in t.declines
  {
    PassShows(s, c, id, a, kind);
    var d := c.(row := R.Withdraw(c.row, a, None).value);
    t := Proceeds(P, s, tr, c, tasks, PassOffer(id, 0, a, kind, None), d, tasks[id := PassRecord(0, a, kind)]);
  }

  lemma RecordRuns(P: (State, Trace) -> bool, s: State, tr: Trace, c: Scene, tasks: map<TaskId, Task>, id: TaskId,
                   a: AgentId, kind: PassKind)
    returns (t: State)
    requires At(P, s, tr, c, tasks) && id in tasks && tasks[id] == PassRecord(0, a, kind)
    requires Watching(tr, tasks[id := PassRelease(0, a)])
    ensures At(P, t, tr, c, tasks[id := PassRelease(0, a)]) && Ticked(s, t, c, c)
    ensures t.declined == if kind == Declined then s.declined + {(0, a)} else s.declined
  {
    t := Proceeds(P, s, tr, c, tasks, Run(id), c, tasks[id := PassRelease(0, a)]);
  }

  lemma ReleaseRuns(P: (State, Trace) -> bool, s: State, tr: Trace, c: Scene, tasks: map<TaskId, Task>, id: TaskId,
                    a: AgentId)
    returns (t: State)
    requires At(P, s, tr, c, tasks) && id in tasks && Watching(tr, tasks - {id}) && 1 <= a <= 3 && c.Busy(a) == Some(0)
    requires tasks[id] == TransferRelease(0, a) || tasks[id] == PassRelease(0, a)
    ensures At(P, t, tr, c.With(a, None), tasks - {id}) && Ticked(s, t, c, c.With(a, None)) && SamePasses(s, t)
  {
    SceneReleases(c, a);
    t := Proceeds(P, s, tr, c, tasks, Run(id), c.With(a, None), tasks - {id});
  }

  lemma TransferShows(s: State, c: Scene, id: TaskId, from: AgentId, to: AgentId)
    requires s.nextCall == 1 && s.w == c.Rows() && id !in s.tasks && c.CanTake(to) && from != to
    ensures Shows(s, Transfer(id, 0, Some(from), to, true), c.With(to, Some(0)),
                  s.tasks[id := TransferMove(0, Some(from), to, true)])
    ensures Goes(s, Transfer(id, 0, Some(from), to, true))
  {
    SceneClaims(c, to);
  }

  /** A transfer's claim. */
  lemma TransferClaims(P: (State, Trace) -> bool, s: State, tr: Trace, c: Scene, tasks: map<TaskId, Task>, id: TaskId,
                       from: AgentId, to: AgentId)
    returns (t: State)
    requires At(P, s, tr, c, tasks) && id !in tasks && c.CanTake(to) && from != to
    requires Watching(tr, tasks[id := TransferMove(0, Some(from), to, true)])
    ensures At(P, t, tr, c.With(to, Some(0)), tasks[id := TransferMove(0, Some(from), to, true)]) && SamePasses(s, t)
    ensures Ticked(s, t, c, c.With(to, Some(0)))
  {
    TransferShows(s, c, id, from, to);
    var next := tasks[id := TransferMove(0, Some(from), to, true)];
    t := Properly(P, s, tr, c, tasks, Transfer(id, 0, Some(from), to, true), c.With(to, Some(0)), next);
  }

  /** The claim of a target that is the agent the transfer read. */
  lemma OddTransfer(P: (State, Trace) -> bool, s: State, c: Scene, tasks: map<TaskId, Task>, id: TaskId, to: AgentId)
    returns (t: State)
    requires At(P, s, PROPER, c, tasks) && id !in tasks && c.CanTake(to) && c.row.Active() && !Owing(tasks, 0, to)
    ensures At(P, t, Trace(Some(Transferring), None), c.With(to, Some(0)), tasks)
  {
    SceneClaims(c, to);
    assert !Proper(s, Transfer(id, 0, Some(to), to, true));
    t := Proceeds(P, s, PROPER, c, tasks, Transfer(id, 0, Some(to), to, true), c.With(to, Some(0)), tasks);
  }

  /** A transfer's move, from an agent the call holds or, against the condition,
      from one it does not. */
  lemma MoveRuns(P: (State, Trace) -> bool, s: State, tr: Trace, c: Scene, tasks: map<TaskId, Task>, id: TaskId,
                 from: AgentId, to: AgentId)
    returns (t: State)
    requires At(P, s, tr, c, tasks) && id in tasks && tasks[id] == TransferMove(0, Some(from), to, true)
    requires R.MoveAgent(c.row, from, to).Some? && 1 <= from <= 3 && (c.Busy(from) == Some(0) || tr == PROPER)
    requires Watching(tr, tasks[id := TransferMark(0, Some(from), to, true)])
    ensures At(P, t, if c.Busy(from) == Some(0) then tr else Trace(Some(Moving), None),
               c.(row := R.MoveAgent(c.row, from, to).value), tasks[id := TransferMark(0, Some(from), to, true)])
    ensures Ticked(s, t, c, c.(row := R.MoveAgent(c.row, from, to).value)) && SamePasses(s, t)
  {
    MoveShows(s, c, id, from, to);
    var d := c.(row := R.MoveAgent(c.row, from, to).value);
    t := Proceeds(P, s, tr, c, tasks, Run(id), d, tasks[id := TransferMark(0, Some(from), to, true)]);
  }

  /** Its mark, likewise; none if the call is not the target's any more. */
  lemma MarkRuns(P: (State, Trace) -> bool, s: State, tr: Trace, c: Scene, tasks: map<TaskId, Task>, id: TaskId,
                 from: AgentId, to: AgentId)
    returns (t: State)
    requires At(P, s, tr, c, tasks) && id in tasks && tasks[id] == TransferMark(0, Some(from), to, true)
    requires 1 <= to <= 3 && (R.MarkHandover(c.row, to, 0).None? || c.Busy(to) == Some(0) || tr == PROPER)
    requires Watching(tr, tasks[id := TransferRelease(0, from)])
    ensures At(P, t,
               if R.MarkHandover(c.row, to, 0).None? || c.Busy(to) == Some(0) then tr else Trace(Some(Marking), None),
               HandedOver(c, to), tasks[id := TransferRelease(0, from)])
    ensures Ticked(s, t, c, HandedOver(c, to)) && SamePasses(s, t)
  {
    MarkShows(s, c, id, from, to);
    t := Proceeds(P, s, tr, c, tasks, Run(id), HandedOver(c, to), tasks[id := TransferRelease(0, from)]);
  }

  function HandedOver(c: Scene, to: AgentId): Scene {
    var r := R.MarkHandover(c.row, to, 0);
    if r.Some? then c.(row := r.value) else c
  }

  lemma ReadsOne(s: State, c: Scene, a: AgentId)
    requires s.w == c.Rows() && 1 <= a <= 3 && c.Busy(a).None?
    ensures AvailableOf(s.w, {a}) == {a}
  {
  }

  /** A drain reads one member, who is available. */
  lemma DrainStarts(P: (State, Trace) -> bool, s: State, tr: Trace, c: Scene, tasks: map<TaskId, Task>, id: TaskId,
                    a: AgentId)
    returns (t: State)
    requires At(P, s, tr, c, tasks) && id !in tasks && 1 <= a <= 3 && c.Busy(a).None?
    requires Watching(tr, tasks[id := DrainScan({a}, s.clock)])
    ensures At(P, t, tr, c, tasks[id := DrainScan({a}, s.clock)]) && Ticked(s, t, c, c) && SamePasses(s, t)
  {
    ReadsOne(s, c, a);
    t := Proceeds(P, s, tr, c, tasks, StartDrain(id, {a}), c, tasks[id := DrainScan({a}, s.clock)]);
  }

  /** It looks at the call, which its one member has not declined: it goes on with
      that member, at once or after a clear. */
  lemma DrainPicks(P: (State, Trace) -> bool, s: State, tr: Trace, c: Scene, tasks: map<TaskId, Task>, id: TaskId,
                   a: AgentId, readAt: nat)
    returns (t: State, d: Task)
    requires At(P, s, tr, c, tasks) && tr.watch.None? && id in tasks && tasks[id] == DrainScan({a}, readAt)
    requires (0, a) !in s.declined
    ensures At(P, t, tr, c, tasks[id := d]) && SamePasses(s, t)
    ensures d in {DrainClear(0, {a}, readAt, {a}), DrainClaim(0, {a}, readAt, {a})}
  {
    PickedOne(s, id, a, readAt);
    d := DrainPicked(s, id, 0).tasks[id];
    t := Proceeds(P, s, tr, c, tasks, DrainPick(id, 0), c, tasks[id := d]);
  }

  lemma PickedOne(s: State, id: TaskId, a: AgentId, readAt: nat)
    requires id in s.tasks && s.tasks[id] == DrainScan({a}, readAt) && (0, a) !in s.declined
    ensures var d := DrainPicked(s, id, 0).tasks[id];
            && d in {DrainClear(0, {a}, readAt, {a}), DrainClaim(0, {a}, readAt, {a})}
            && DrainPicked(s, id, 0) == s.(tasks := s.tasks[id := d])
  {
    assert {a} - DeclinedOf(s, 0, {a}) == {a};
    assert MissedOf(s, 0, {a}) <= {a};
    assert {a} - MissedOf(s, 0, {a}) == if (0, a) in s.missed then {} else {a};
  }

  lemma DrainClears(P: (State, Trace) -> bool, s: State, tr: Trace, c: Scene, tasks: map<TaskId, Task>, id: TaskId)
    returns (t: State)
    requires At(P, s, tr, c, tasks) && tr.watch.None? && id in tasks && tasks[id].DrainClear?
    ensures var d := tasks[id];
            At(P, t, tr, c, tasks[id := DrainClaim(d.call, d.available, d.readAt, d.candidates)]) && SamePasses(s, t)
  {
    var d := tasks[id];
    t := Proceeds(P, s, tr, c, tasks, Run(id), c, tasks[id := DrainClaim(d.call, d.available, d.readAt, d.candidates)]);
  }

  // ---- What goes wrong ----

  /** The call rings an agent it does not hold. */
  ghost predicate RingsFree(s: State, a: AgentId) {
    && !Held(s.w) && s.w.ActiveCall(0) && s.w.calls[0].RingingInbound() && s.w.calls[0].OfferedTo(a)
    && a in s.w.agents && s.w.agents[a].busy == None
  }

  /** A drain that read its members after a declined offer was claimed gives the
      call back to the decliner. */
  ghost predicate DeclineLost(s: State, id: TaskId, a: AgentId) {
    && id in s.tasks && s.tasks[id].DrainClaim? && a in s.tasks[id].candidates
    && (exists d :: d in s.declines && d.call == s.tasks[id].call && d.agent == a && d.heldSince <= s.tasks[id].readAt)
    && var w := DrainTried(s, id, a).w;
       w.ActiveCall(s.tasks[id].call) && w.calls[s.tasks[id].call].OfferedTo(a)
  }

  /** The watched release is next, and would free a hold that is not the one it was
      owed for: it would free an agent from a live call that is theirs. */
  ghost predicate FreesNewer(s: State, tr: Trace) {
    && tr.watch.Some? && s.w.ActiveCall(0) && s.w.calls[0].agent == Some(tr.watch.value.agent)
    && tr.watch.value.id in s.tasks && s.tasks[tr.watch.value.id].Releases() == Some((0, tr.watch.value.agent))
    && HoldOf(s, tr.watch.value.agent).Some? && HoldOf(s, tr.watch.value.agent) != tr.watch.value.hold
  }

  // ---- Moving a call away from an agent it does not hold ----

  const TALKING: Call := CALL.(status := InProgress)
  const WAITING: Call := CALL.(phase := Some(Queued))

  /** The tasks of a transfer from 1 to 2 whose handover is not marked yet. */
  const UNMARKED: map<TaskId, Task> := map[10 := TransferMark(0, Some(1), 2, true)]

  const MOVED := Trace(Some(Moving), None)
  const MARKED := Trace(Some(Marking), None)
  const ACCEPTED := Trace(Some(Accepting), None)

  /** Agent 1 takes the call before anything holds them, and answers. */
  lemma AnsweredUnheld(P: (State, Trace) -> bool) returns (s: State)
    requires Closed(P)
    ensures At(P, s, PROPER, Scene(None, None, None, TALKING.(agent := Some(1))), map[]) && s.declined == {}
  {
    s := Arrives(P);
    s := AcceptRuns(P, s, PROPER, Scene(None, None, None, CALL), map[], 1);
    s := AnswerRuns(P, s, PROPER, Scene(None, None, None, CALL.(agent := Some(1))), map[]);
  }

  /** The call goes from agent 1, who is not held, to agent 2; that transfer's
      release of agent 1 is still to run. */
  lemma MovedFromUnheld(P: (State, Trace) -> bool) returns (s: State)
    requires Closed(P)
    ensures At(P, s, MOVED, Scene(None, Some(0), None, TALKING.(agent := Some(2))), UNMARKED) && s.declined == {}
  {
    var row := TALKING.(agent := Some(1));
    s := AnsweredUnheld(P);
    s := TransferClaims(P, s, PROPER, Scene(None, None, None, row), map[], 10, 1, 2);
    var tasks := map[10 := TransferMove(0, Some(1), 2, true)];
    s := MoveRuns(P, s, PROPER, Scene(None, Some(0), None, row), tasks, 10, 1, 2);
  }

  /** A second transfer takes it back to agent 1, whose handover is then pending. */
  lemma MovedBack(P: (State, Trace) -> bool) returns (s: State)
    requires Closed(P)
    ensures At(P, s, MOVED, Scene(Some(0), Some(0), None, TALKING.(agent := Some(1))), UNMARKED_BACK)
    ensures s.declined == {}
  {
    var row := TALKING.(agent := Some(2));
    s := MovedFromUnheld(P);
    s := TransferClaims(P, s, MOVED, Scene(None, Some(0), None, row), UNMARKED, 20, 2, 1);
    BackTasks();
    s := MoveRuns(P, s, MOVED, Scene(Some(0), Some(0), None, row), CLAIMED_BACK, 20, 2, 1);
  }

  const CLAIMED_BACK: map<TaskId, Task> :=
    map[10 := TransferMark(0, Some(1), 2, true), 20 := TransferMove(0, Some(2), 1, true)]
  const UNMARKED_BACK: map<TaskId, Task> :=
    map[10 := TransferMark(0, Some(1), 2, true), 20 := TransferMark(0, Some(2), 1, true)]
  const MARKED_BACK: map<TaskId, Task> :=
    map[10 := TransferMark(0, Some(1), 2, true), 20 := TransferRelease(0, 2)]

  lemma BackTasks()
    ensures UNMARKED[20 := TransferMove(0, Some(2), 1, true)] == CLAIMED_BACK
    ensures CLAIMED_BACK[20 := TransferMark(0, Some(2), 1, true)] == UNMARKED_BACK
    ensures UNMARKED_BACK[20 := TransferRelease(0, 2)] == MARKED_BACK
    ensures MARKED_BACK[10 := TransferRelease(0, 1)] == BOTH
    ensures BOTH - {10} == map[20 := TransferRelease(0, 2)]
  {
  }

  /** The tasks of two transfers, each with a release to run. */
  const BOTH: map<TaskId, Task> := map[10 := TransferRelease(0, 1), 20 := TransferRelease(0, 2)]

  const PENDING: Call := TALKING.(agent := Some(1), offeredAt := Some(0))

  lemma SecondMarked(P: (State, Trace) -> bool) returns (s: State)
    requires Closed(P)
    ensures At(P, s, MOVED, Scene(Some(0), Some(0), None, PENDING), MARKED_BACK) && s.declined == {}
  {
    s := MovedBack(P);
    BackTasks();
    s := MarkRuns(P, s, MOVED, Scene(Some(0), Some(0), None, TALKING.(agent := Some(1))), UNMARKED_BACK, 20, 2, 1);
  }

  lemma BothMarked(P: (State, Trace) -> bool) returns (s: State)
    requires Closed(P)
    ensures At(P, s, MOVED, Scene(Some(0), Some(0), None, PENDING), BOTH) && s.declined == {}
  {
    s := SecondMarked(P);
    BackTasks();
    s := MarkRuns(P, s, MOVED, Scene(Some(0), Some(0), None, PENDING), MARKED_BACK, 10, 1, 2);
  }

  /** A call moved away from an agent it does not hold and moved back: the first
      transfer's late release frees the agent whose handover is pending, and the
      call comes back to ring them. */
  lemma MoveRace(P: (State, Trace) -> bool) returns (s: State)
    requires Closed(P)
    ensures At(P, s, MOVED, Scene(None, Some(0), None, WAITING.(agent := Some(1), offeredAt := Some(0))),
               map[20 := TransferRelease(0, 2)])
    ensures s.declined == {}
  {
    s := BothMarked(P);
    s := ReleaseRuns(P, s, MOVED, Scene(Some(0), Some(0), None, PENDING), BOTH, 10, 1);
    BackTasks();
    s := ReturnRuns(P, s, MOVED, Scene(None, Some(0), None, PENDING), map[20 := TransferRelease(0, 2)], 1);
  }

  // ---- Marking a handover on an agent the call does not hold ----

  /** Agent 1, claimed for the call, answers it. */
  lemma HeldAnswer(P: (State, Trace) -> bool) returns (s: State)
    requires Closed(P)
    ensures At(P, s, PROPER, Scene(Some(0), None, None, TALKING.(agent := Some(1))), map[]) && s.declined == {}
  {
    s := Arrives(P);
    s := ClaimRuns(P, s, PROPER, Scene(None, None, None, CALL), map[], 1);
    s := AcceptRuns(P, s, PROPER, Scene(Some(0), None, None, CALL.(agent := Some(1), offeredAt := Some(0))), map[], 1);
    s := AnswerRuns(P, s, PROPER, Scene(Some(0), None, None, CALL.(agent := Some(1))), map[]);
  }

  /** A transfer from 1 to 2, not marked yet. */
  lemma HandedToSecond(P: (State, Trace) -> bool) returns (s: State)
    requires Closed(P)
    ensures At(P, s, PROPER, Scene(Some(0), Some(0), None, TALKING.(agent := Some(2))), UNMARKED) && s.declined == {}
  {
    var row := TALKING.(agent := Some(1));
    s := HeldAnswer(P);
    s := TransferClaims(P, s, PROPER, Scene(Some(0), None, None, row), map[], 10, 1, 2);
    var tasks := map[10 := TransferMove(0, Some(1), 2, true)];
    s := MoveRuns(P, s, PROPER, Scene(Some(0), Some(0), None, row), tasks, 10, 1, 2);
  }

  /** A second transfer, 2 to 3. */
  lemma HandedToThird(P: (State, Trace) -> bool) returns (s: State)
    requires Closed(P)
    ensures At(P, s, PROPER, Scene(Some(0), Some(0), Some(0), TALKING.(agent := Some(3))), UNMARKED_ON)
    ensures s.declined == {}
  {
    var row := TALKING.(agent := Some(2));
    s := HandedToSecond(P);
    s := TransferClaims(P, s, PROPER, Scene(Some(0), Some(0), None, row), UNMARKED, 20, 2, 3);
    OnTasks();
    s := MoveRuns(P, s, PROPER, Scene(Some(0), Some(0), Some(0), row), CLAIMED_ON, 20, 2, 3);
  }

  const CLAIMED_ON: map<TaskId, Task> :=
    map[10 := TransferMark(0, Some(1), 2, true), 20 := TransferMove(0, Some(2), 3, true)]
  const UNMARKED_ON: map<TaskId, Task> :=
    map[10 := TransferMark(0, Some(1), 2, true), 20 := TransferMark(0, Some(2), 3, true)]

  lemma OnTasks()
    ensures UNMARKED[20 := TransferMove(0, Some(2), 3, true)] == CLAIMED_ON
    ensures CLAIMED_ON[20 := TransferMark(0, Some(2), 3, true)] == UNMARKED_ON
    ensures UNMARKED_ON[20 := TransferRelease(0, 2)] == MARKED_BACK
    ensures MARKED_BACK - {20} == UNMARKED
  {
  }

  /** Its target does not accept in time. */
  lemma ReturnedFromThird(P: (State, Trace) -> bool) returns (s: State)
    requires Closed(P)
    ensures At(P, s, PROPER, Scene(Some(0), None, Some(0), WAITING.(agent := Some(3), offeredAt := Some(0))), UNMARKED)
    ensures s.declined == {}
  {
    s := HandedToThird(P);
    OnTasks();
    s := MarkRuns(P, s, PROPER, Scene(Some(0), Some(0), Some(0), TALKING.(agent := Some(3))), UNMARKED_ON, 20, 2, 3);
    s := ReleasedAndReturned(P, s);
  }

  lemma ReleasedAndReturned(P: (State, Trace) -> bool, s: State) returns (t: State)
    requires At(P, s, PROPER, Scene(Some(0), Some(0), Some(0), PENDING.(agent := Some(3))), MARKED_BACK)
    ensures At(P, t, PROPER, Scene(Some(0), None, Some(0), WAITING.(agent := Some(3), offeredAt := Some(0))), UNMARKED)
    ensures SamePasses(s, t)
  {
    var row := PENDING.(agent := Some(3));
    t := ReleaseRuns(P, s, PROPER, Scene(Some(0), Some(0), Some(0), row), MARKED_BACK, 20, 2);
    OnTasks();
    t := ReturnRuns(P, t, PROPER, Scene(Some(0), None, Some(0), row), UNMARKED, 3);
  }

  /** Back in the queue, the call is declined by agent 3. */
  lemma PassedOnByThird(P: (State, Trace) -> bool) returns (s: State)
    requires Closed(P)
    ensures At(P, s, PROPER, Scene(Some(0), None, None, WAITING), UNMARKED) && s.declined == {(0, 3)}
  {
    s := ReturnedFromThird(P);
    var c := Scene(Some(0), None, Some(0), WAITING.(agent := Some(3), offeredAt := Some(0)));
    s := PassRuns(P, s, PROPER, c, UNMARKED, 30, 3, Declined);
    s := PassedOn(P, s, UNMARKED[30 := PassRecord(0, 3, Declined)]);
  }

  lemma PassedOn(P: (State, Trace) -> bool, s: State, tasks: map<TaskId, Task>) returns (t: State)
    requires tasks == UNMARKED[30 := PassRecord(0, 3, Declined)]
    requires At(P, s, PROPER, Scene(Some(0), None, Some(0), WAITING), tasks)
    ensures At(P, t, PROPER, Scene(Some(0), None, None, WAITING), UNMARKED) && t.declined == s.declined + {(0, 3)}
  {
    t := DeclineSettled(P, s, Scene(Some(0), None, Some(0), WAITING), tasks, 30, 3);
    assert tasks - {30} == UNMARKED;
  }

  /** A decline's record and its release. */
  lemma DeclineSettled(P: (State, Trace) -> bool, s: State, c: Scene, tasks: map<TaskId, Task>, id: TaskId, a: AgentId)
    returns (t: State)
    requires At(P, s, PROPER, c, tasks) && 1 <= a <= 3 && c.Busy(a) == Some(0)
    requires id in tasks && tasks[id] == PassRecord(0, a, Declined)
    ensures At(P, t, PROPER, c.With(a, None), tasks - {id}) && t.declined == s.declined + {(0, a)}
  {
    t := RecordRuns(P, s, PROPER, c, tasks, id, a, Declined);
    t := ReleaseRuns(P, t, PROPER, c, tasks[id := PassRelease(0, a)], id, a);
    assert tasks[id := PassRelease(0, a)] - {id} == tasks - {id};
  }

  /** A transfer marks its handover only after the target gave the call on and
      took it back through an accept that has not yet held them; the call comes
      back to ring them. */
  lemma MarkRace(P: (State, Trace) -> bool) returns (s: State)
    requires Closed(P)
    ensures At(P, s, MARKED, Scene(Some(0), None, None, WAITING.(agent := Some(2), offeredAt := Some(0))),
               map[10 := TransferRelease(0, 1)])
    ensures s.declined == {(0, 3)}
  {
    s := TakenBack(P);
    var row := WAITING.(status := InProgress, agent := Some(2));
    s := MarkRuns(P, s, PROPER, Scene(Some(0), None, None, row), UNMARKED, 10, 1, 2);
    assert UNMARKED[10 := TransferRelease(0, 1)] == map[10 := TransferRelease(0, 1)];
    var marked := row.(offeredAt := Some(0));
    s := ReturnRuns(P, s, MARKED, Scene(Some(0), None, None, marked), map[10 := TransferRelease(0, 1)], 2);
  }

  lemma TakenBack(P: (State, Trace) -> bool) returns (s: State)
    requires Closed(P)
    ensures At(P, s, PROPER, Scene(Some(0), None, None, WAITING.(status := InProgress, agent := Some(2))), UNMARKED)
    ensures s.declined == {(0, 3)}
  {
    s := PassedOnByThird(P);
    assert !Owing(UNMARKED, 0, 2);
    s := AcceptRuns(P, s, PROPER, Scene(Some(0), None, None, WAITING), UNMARKED, 2);
    s := AnswerRuns(P, s, PROPER, Scene(Some(0), None, None, WAITING.(agent := Some(2))), UNMARKED);
  }

  // ---- Accepting for an agent still to be settled with the call ----

  const MISSING: map<TaskId, Task> := UNMARKED[40 := PassRecord(0, 2, Missed)]

  /** Agent 2's offer rings out, and they accept on another device before the miss is
      recorded. */
  lemma AcceptedWhileOwed(P: (State, Trace) -> bool) returns (s: State)
    requires Closed(P)
    ensures At(P, s, ACCEPTED, Scene(Some(0), Some(0), None, WAITING.(agent := Some(2))), MISSING)
    ensures s.declined == {(0, 3)}
  {
    s := RungOut(P);
    assert Owing(MISSING, 0, 2) by { assert MISSING[40].Debt() == Some((0, 2)); }
    s := OddAccept(P, s, Scene(Some(0), Some(0), None, WAITING), MISSING, 2);
  }

  lemma RungOut(P: (State, Trace) -> bool) returns (s: State)
    requires Closed(P)
    ensures At(P, s, PROPER, Scene(Some(0), Some(0), None, WAITING), MISSING) && s.declined == {(0, 3)}
  {
    s := PassedOnByThird(P);
    s := ClaimRuns(P, s, PROPER, Scene(Some(0), None, None, WAITING), UNMARKED, 2);
    var c := Scene(Some(0), Some(0), None, WAITING.(agent := Some(2), offeredAt := Some(0)));
    s := PassRuns(P, s, PROPER, c, UNMARKED, 40, 2, Missed);
  }

  const HUNG_ON: Call := WAITING.(status := InProgress, agent := Some(2))
  const MISSING_MARKED: map<TaskId, Task> := map[10 := TransferRelease(0, 1), 40 := PassRecord(0, 2, Missed)]

  lemma MissingTasks()
    ensures MISSING[10 := TransferRelease(0, 1)] == MISSING_MARKED
    ensures MISSING_MARKED[40 := PassRelease(0, 2)] - {40} == map[10 := TransferRelease(0, 1)]
  {
  }

  /** They answer, and the transfer to them marks its handover. */
  lemma MarkedWhileOwed(P: (State, Trace) -> bool) returns (s: State)
    requires Closed(P)
    ensures At(P, s, ACCEPTED, Scene(Some(0), Some(0), None, HUNG_ON.(offeredAt := Some(0))), MISSING_MARKED)
    ensures s.declined == {(0, 3)}
  {
    s := AcceptedWhileOwed(P);
    s := AnswerRuns(P, s, ACCEPTED, Scene(Some(0), Some(0), None, WAITING.(agent := Some(2))), MISSING);
    s := MarkedHere(P, s);
  }

  lemma MarkedHere(P: (State, Trace) -> bool, s: State) returns (t: State)
    requires At(P, s, ACCEPTED, Scene(Some(0), Some(0), None, HUNG_ON), MISSING)
    ensures At(P, t, ACCEPTED, Scene(Some(0), Some(0), None, HUNG_ON.(offeredAt := Some(0))), MISSING_MARKED)
    ensures SamePasses(s, t)
  {
    MissingTasks();
    t := MarkRuns(P, s, ACCEPTED, Scene(Some(0), Some(0), None, HUNG_ON), MISSING, 10, 1, 2);
  }

  /** The late release then frees them while it is pending, and the call comes back
      to ring them. */
  lemma AcceptRace(P: (State, Trace) -> bool) returns (s: State)
    requires Closed(P)
    ensures At(P, s, ACCEPTED, Scene(Some(0), None, None, WAITING.(agent := Some(2), offeredAt := Some(0))),
               map[10 := TransferRelease(0, 1)])
    ensures s.declined == {(0, 3)}
  {
    s := FreedByMiss(P);
    var c := Scene(Some(0), None, None, HUNG_ON.(offeredAt := Some(0)));
    s := ReturnRuns(P, s, ACCEPTED, c, map[10 := TransferRelease(0, 1)], 2);
  }

  lemma FreedByMiss(P: (State, Trace) -> bool) returns (s: State)
    requires Closed(P)
    ensures At(P, s, ACCEPTED, Scene(Some(0), None, None, HUNG_ON.(offeredAt := Some(0))),
               map[10 := TransferRelease(0, 1)])
    ensures s.declined == {(0, 3)}
  {
    var c := Scene(Some(0), Some(0), None, HUNG_ON.(offeredAt := Some(0)));
    s := MarkedWhileOwed(P);
    s := RecordRuns(P, s, ACCEPTED, c, MISSING_MARKED, 40, 2, Missed);
    MissingTasks();
    s := ReleaseRuns(P, s, ACCEPTED, c, MISSING_MARKED[40 := PassRelease(0, 2)], 40, 2);
  }

  // ---- What follows from a call that rings an agent it does not hold ----

  lemma ItRingsFree(P: (State, Trace) -> bool, s: State, tr: Trace, c: Scene, tasks: map<TaskId, Task>, a: AgentId)
    requires At(P, s, tr, c, tasks) && 1 <= a <= 3 && c.Busy(a).None?
    requires c.row == WAITING.(agent := Some(a), offeredAt := Some(0))
    ensures RingsFree(s, a)
  {
    assert s.w.calls[0].OfferedTo(a) && !s.w.Holds(0, a);
  }

  /** Their decline is lost: a drain reads them as available before they decline,
      and looks at the history before the decline is in it. */
  lemma DeclineIsLost(P: (State, Trace) -> bool, s: State, tr: Trace, c: Scene, tasks: map<TaskId, Task>, a: AgentId)
    returns (t: State)
    requires At(P, s, tr, c, tasks) && tr.watch.None? && 1 <= a <= 3 && c.Busy(a).None? && 50 !in tasks && 60 !in tasks
    requires c.row == WAITING.(agent := Some(a), offeredAt := Some(0)) && (0, a) !in s.declined
    ensures P(t, tr) && DeclineLost(t, 50, a)
  {
    var u := DrainStarts(P, s, tr, c, tasks, 50, a);
    var next := tasks[50 := DrainScan({a}, s.clock)];
    t := PassRuns(P, u, tr, c, next, 60, a, Declined);
    assert Stamped(s) && Since(s, a) <= s.clock && Since(u, a) == Since(s, a);
    t := LooksTooEarly(P, t, tr, c.(row := WAITING), next[60 := PassRecord(0, a, Declined)], a, s.clock, Since(s, a));
  }

  lemma LooksTooEarly(P: (State, Trace) -> bool, s: State, tr: Trace, c: Scene, tasks: map<TaskId, Task>, a: AgentId,
                      readAt: nat, since: nat)
    returns (t: State)
    requires At(P, s, tr, c, tasks) && tr.watch.None? && 1 <= a <= 3 && c.Busy(a).None? && c.row == WAITING
    requires 50 in tasks && tasks[50] == DrainScan({a}, readAt) && (0, a) !in s.declined
    requires Decline(0, a, since) in s.declines && since <= readAt
    ensures P(t, tr) && DeclineLost(t, 50, a)
  {
    var d;
    t, d := DrainPicks(P, s, tr, c, tasks, 50, a, readAt);
    var next := tasks[50 := d];
    if d.DrainClear? {
      t := DrainClears(P, t, tr, c, next, 50);
    }
    GivenBack(t, c, a, readAt, since);
  }

  lemma GivenBack(s: State, c: Scene, a: AgentId, readAt: nat, since: nat)
    requires s.w == c.Rows() && s.time == 0 && 1 <= a <= 3 && c.Busy(a).None? && c.row == WAITING
    requires 50 in s.tasks && s.tasks[50] == DrainClaim(0, {a}, readAt, {a})
    requires Decline(0, a, since) in s.declines && since <= readAt
    ensures DeclineLost(s, 50, a)
  {
    ClaimShows(s, c, a);
    SceneClaims(c, a);
    assert R.ClaimOutcomeOf(s.w, a, 0, false) == R.Assigned;
  }

  /** A release frees a newer hold: they decline the call that does not hold them, a
      drain gives it to them again, and the decline's release comes after that. */
  lemma NewerIsFreed(P: (State, Trace) -> bool, s: State, odd: Option<Kind>, c: Scene, tasks: map<TaskId, Task>,
                     a: AgentId)
    returns (t: State)
    requires At(P, s, Trace(odd, None), c, tasks) && 1 <= a <= 3 && c.Busy(a).None? && 60 !in tasks
    requires c.row == WAITING.(agent := Some(a), offeredAt := Some(0))
    ensures P(t, Trace(odd, Some(Watch(60, a, None)))) && FreesNewer(t, Trace(odd, Some(Watch(60, a, None))))
  {
    var tr := Trace(odd, Some(Watch(60, a, None)));
    var next := tasks[60 := PassRecord(0, a, Declined)];
    var u := PassRuns(P, s, Trace(odd, None), c, tasks, 60, a, Declined);
    BeginsWatching(P, u, odd, c.(row := WAITING), next, Watch(60, a, None));
    t := ClaimedAgain(P, u, tr, c.(row := WAITING), next, a);
  }

  lemma BeginsWatching(P: (State, Trace) -> bool, s: State, odd: Option<Kind>, c: Scene, tasks: map<TaskId, Task>,
                       w: Watch)
    requires At(P, s, Trace(odd, None), c, tasks) && 1 <= w.agent <= 3 && c.Busy(w.agent).None? && w.hold.None?
    requires w.id in tasks && tasks[w.id].Debt() == Some((0, w.agent))
    ensures At(P, s, Trace(odd, Some(w)), c, tasks)
  {
    assert Trace(odd, Some(w)) == Trace(odd, None).(watch := Some(w));
  }

  lemma ClaimedAgain(P: (State, Trace) -> bool, s: State, tr: Trace, c: Scene, tasks: map<TaskId, Task>, a: AgentId)
    returns (t: State)
    requires At(P, s, tr, c, tasks) && 1 <= a <= 3 && c.Busy(a).None? && c.row == WAITING
    requires tr.watch == Some(Watch(60, a, None)) && 60 in tasks && tasks[60] == PassRecord(0, a, Declined)
    ensures P(t, tr) && FreesNewer(t, tr)
  {
    t := ClaimRuns(P, s, tr, c, tasks, a);
    t := RecordedAgain(P, t, tr, c.With(a, Some(0)).(row := R.Assign(WAITING, a, 0).value), tasks, a);
  }

  lemma RecordedAgain(P: (State, Trace) -> bool, s: State, tr: Trace, c: Scene, tasks: map<TaskId, Task>, a: AgentId)
    returns (t: State)
    requires At(P, s, tr, c, tasks) && 1 <= a <= 3 && c.Busy(a) == Some(0)
    requires c.row.Active() && c.row.agent == Some(a)
    requires tr.watch == Some(Watch(60, a, None)) && 60 in tasks && tasks[60] == PassRecord(0, a, Declined)
    ensures P(t, tr) && FreesNewer(t, tr)
  {
    t := RecordRuns(P, s, tr, c, tasks, 60, a, Declined);
    assert t.w.Holds(0, a);
  }

  // ---- Each condition is needed ----

  /** Held offers: a run from the empty database that breaks one of the three
      conditions once, every other step being proper, and in which a call rings an
      agent it does not hold. */
  lemma HeldOffersNeedThem()
    ensures exists s :: Reached(s, ACCEPTED) && RingsFree(s, 2)
    ensures exists s :: Reached(s, MOVED) && RingsFree(s, 1)
    ensures exists s :: Reached(s, MARKED) && RingsFree(s, 2)
  {
    ReachedClosed();
    var p := (s: State, tr: Trace) => Reached(s, tr);
    var s1 := AcceptRings(p);
    var s2 := MoveRings(p);
    var s3 := MarkRings(p);
    assert Reached(s1, ACCEPTED) && Reached(s2, MOVED) && Reached(s3, MARKED);
  }

  lemma AcceptRings(P: (State, Trace) -> bool) returns (s: State)
    requires Closed(P)
    ensures P(s, ACCEPTED) && RingsFree(s, 2)
  {
    s := AcceptRace(P);
    var c := Scene(Some(0), None, None, WAITING.(agent := Some(2), offeredAt := Some(0)));
    ItRingsFree(P, s, ACCEPTED, c, map[10 := TransferRelease(0, 1)], 2);
  }

  lemma MoveRings(P: (State, Trace) -> bool) returns (s: State)
    requires Closed(P)
    ensures P(s, MOVED) && RingsFree(s, 1)
  {
    s := MoveRace(P);
    var c := Scene(None, Some(0), None, WAITING.(agent := Some(1), offeredAt := Some(0)));
    ItRingsFree(P, s, MOVED, c, map[20 := TransferRelease(0, 2)], 1);
  }

  lemma MarkRings(P: (State, Trace) -> bool) returns (s: State)
    requires Closed(P)
    ensures P(s, MARKED) && RingsFree(s, 2)
  {
    s := MarkRace(P);
    var c := Scene(Some(0), None, None, WAITING.(agent := Some(2), offeredAt := Some(0)));
    ItRingsFree(P, s, MARKED, c, map[10 := TransferRelease(0, 1)], 2);
  }

  /** Declines: such a run in which a drain that read its members after a declined
      offer was claimed gives the call back to the decliner. */
  lemma DeclinesNeedThem()
    ensures exists s :: Reached(s, ACCEPTED) && DeclineLost(s, 50, 2)
    ensures exists s :: Reached(s, MOVED) && DeclineLost(s, 50, 1)
    ensures exists s :: Reached(s, MARKED) && DeclineLost(s, 50, 2)
  {
    ReachedClosed();
    var p := (s: State, tr: Trace) => Reached(s, tr);
    var s1 := AcceptLosesDecline(p);
    var s2 := MoveLosesDecline(p);
    var s3 := MarkLosesDecline(p);
    assert Reached(s1, ACCEPTED) && Reached(s2, MOVED) && Reached(s3, MARKED);
  }

  const SECOND_RINGS: Scene := Scene(Some(0), None, None, WAITING.(agent := Some(2), offeredAt := Some(0)))
  const FIRST_RINGS: Scene := Scene(None, Some(0), None, WAITING.(agent := Some(1), offeredAt := Some(0)))

  lemma AcceptLosesDecline(P: (State, Trace) -> bool) returns (s: State)
    requires Closed(P)
    ensures P(s, ACCEPTED) && DeclineLost(s, 50, 2)
  {
    s := AcceptRace(P);
    s := DeclineIsLost(P, s, ACCEPTED, SECOND_RINGS, map[10 := TransferRelease(0, 1)], 2);
  }

  lemma MoveLosesDecline(P: (State, Trace) -> bool) returns (s: State)
    requires Closed(P)
    ensures P(s, MOVED) && DeclineLost(s, 50, 1)
  {
    s := MoveRace(P);
    s := DeclineIsLost(P, s, MOVED, FIRST_RINGS, map[20 := TransferRelease(0, 2)], 1);
  }

  lemma MarkLosesDecline(P: (State, Trace) -> bool) returns (s: State)
    requires Closed(P)
    ensures P(s, MARKED) && DeclineLost(s, 50, 2)
  {
    s := MarkRace(P);
    s := DeclineIsLost(P, s, MARKED, SECOND_RINGS, map[10 := TransferRelease(0, 1)], 2);
  }

  /** The trace of a run with one improper step, in which task 60 is watched since
      it owed the release of an agent the call did not hold. */
  function Watched(kind: Kind, a: AgentId): Trace { Trace(Some(kind), Some(Watch(60, a, None))) }

  /** Exact releases: such a run in which a task that owes a release all along is
      about to free a hold that began later. */
  lemma ExactReleasesNeedThem()
    ensures exists s :: Reached(s, Watched(Accepting, 2)) && FreesNewer(s, Watched(Accepting, 2))
    ensures exists s :: Reached(s, Watched(Moving, 1)) && FreesNewer(s, Watched(Moving, 1))
    ensures exists s :: Reached(s, Watched(Marking, 2)) && FreesNewer(s, Watched(Marking, 2))
  {
    ReachedClosed();
    var p := (s: State, tr: Trace) => Reached(s, tr);
    var s1 := AcceptFreesNewer(p);
    var s2 := MoveFreesNewer(p);
    var s3 := MarkFreesNewer(p);
    assert Reached(s1, Watched(Accepting, 2)) && Reached(s2, Watched(Moving, 1)) && Reached(s3, Watched(Marking, 2));
  }

  lemma AcceptFreesNewer(P: (State, Trace) -> bool) returns (s: State)
    requires Closed(P)
    ensures P(s, Watched(Accepting, 2)) && FreesNewer(s, Watched(Accepting, 2))
  {
    s := AcceptRace(P);
    s := NewerIsFreed(P, s, Some(Accepting), SECOND_RINGS, map[10 := TransferRelease(0, 1)], 2);
  }

  lemma MoveFreesNewer(P: (State, Trace) -> bool) returns (s: State)
    requires Closed(P)
    ensures P(s, Watched(Moving, 1)) && FreesNewer(s, Watched(Moving, 1))
  {
    s := MoveRace(P);
    s := NewerIsFreed(P, s, Some(Moving), FIRST_RINGS, map[20 := TransferRelease(0, 2)], 1);
  }

  lemma MarkFreesNewer(P: (State, Trace) -> bool) returns (s: State)
    requires Closed(P)
    ensures P(s, Watched(Marking, 2)) && FreesNewer(s, Watched(Marking, 2))
  {
    s := MarkRace(P);
    s := NewerIsFreed(P, s, Some(Marking), SECOND_RINGS, map[10 := TransferRelease(0, 1)], 2);
  }

  /** Nobody stranded: such a run against the fourth condition, a transfer to the
      agent it had read on the call. It is refused, but only after the claim: the
      agent stays held by a call that waits for somebody else, and nothing is left
      to release them. */
  lemma NobodyStrandedNeedsIt()
    ensures exists s :: Reached(s, Trace(Some(Transferring), None)) && Astray(s.w, 0, 1) && s.tasks == map[]
  {
    ReachedClosed();
    var p := (s: State, tr: Trace) => Reached(s, tr);
    var s := TransferToTheAgentRead(p);
    assert Reached(s, Trace(Some(Transferring), None));
  }

  lemma TransferToTheAgentRead(P: (State, Trace) -> bool) returns (s: State)
    requires Closed(P)
    ensures P(s, Trace(Some(Transferring), None)) && Astray(s.w, 0, 1) && s.tasks == map[]
  {
    s := DeclinedByFirst(P);
    s := OddTransfer(P, s, Scene(None, None, None, CALL), map[], 20, 1);
  }

  lemma DeclinedByFirst(P: (State, Trace) -> bool) returns (s: State)
    requires Closed(P)
    ensures At(P, s, PROPER, Scene(None, None, None, CALL), map[])
  {
    s := Arrives(P);
    s := ClaimRuns(P, s, PROPER, Scene(None, None, None, CALL), map[], 1);
    var c := Scene(Some(0), None, None, CALL.(agent := Some(1), offeredAt := Some(0)));
    s := PassRuns(P, s, PROPER, c, map[], 10, 1, Declined);
    s := FirstReleased(P, s);
  }

  lemma FirstReleased(P: (State, Trace) -> bool, s: State) returns (t: State)
    requires At(P, s, PROPER, Scene(Some(0), None, None, CALL), map[10 := PassRecord(0, 1, Declined)])
    ensures At(P, t, PROPER, Scene(None, None, None, CALL), map[])
  {
    var tasks := map[10 := PassRecord(0, 1, Declined)];
    t := DeclineSettled(P, s, Scene(Some(0), None, None, CALL), tasks, 10, 1);
    assert tasks - {10} == map[];
  }
}
