/** How an IVR session ends: with which action, after which node, by which event. */
module IvrEndings {
  import opened CallTypes
  import opened IvrFlow
  import opened IvrEngine
  import opened IvrSafety
  import opened IvrTermination

  // ---- What the flow says ----

  /** Where an event takes a session that waits: nowhere, to a node, to an end of its own,
      or out of it without one. */
  datatype Course = Stay | Leads(node: NodeId) | Gives(action: Action) | Leaves

  /** A prompt that cannot be played is answered by the error prompt, or by hanging up
      where there is none. */
  function Apology(flow: Flow): Course { if flow.errorAudio then Stay else Gives(HungUp) }

  function Onto(target: Option<NodeId>, otherwise: Course): Course {
    if target.Some? then Leads(target.value) else otherwise
  }

  /** Silence at a menu: it is heard again up to three times, or the flow's hang-up
      node is taken. */
  function Silence(flow: Flow, menu: NodeId, replays: nat): Course {
    if flow.Get(menu).None? || flow.Get(menu).value.noInput in {None, Some("replay")}
    then if replays < 3 then Leads(menu) else Gives(HungUp)
    else Onto(flow.FirstOfKind(NodeType.Hangup), Gives(TimedOut))
  }

  function CourseOf(flow: Flow, s: Session, e: Event): Course {
    match e
    case Hangup => Leaves
    case Digit(digit) =>
      if s.listening && s.menu.Some? then Onto(flow.Route(s.menu.value, digit), Stay) else Stay
    case TimerFires(c) =>
      if c in s.clocks && s.clocks[c].Grace? then Silence(flow, s.clocks[c].node, s.replays) else Stay
    case PromptEnds(p, failed) =>
      if !Awaited(s, e) then Stay
      else match s.prompts[p].purpose
        case ErrorPrompt => Gives(HungUp)
        case MenuPrompt(_) => if failed then Apology(flow) else Stay
        case PlayPrompt(node) => if failed then Apology(flow) else Onto(flow.Out(node), Gives(HungUp))
  }

  /** What entering a node ends the session with, if it does. */
  function EndAt(flow: Flow, id: NodeId): Option<Action> {
    match flow.Get(id)
    case None => Some(Error)
    case Some(node) =>
      match node.kind
      case Transfer => Some(Transferred(id))
      case Hangup => Some(HungUp)
      case StartNode => Some(Error)
      case Unknown => Some(Error)
      case _ => if id in flow.audible || flow.errorAudio then None else Some(HungUp)
  }

  function EndBy(flow: Flow, course: Course): Option<Action> {
    match course
    case Leads(id) => EndAt(flow, id)
    case Gives(action) => Some(action)
    case _ => None
  }

  function EnteredBy(flow: Flow, course: Course): seq<NodeId> {
    if course.Leads? && flow.Get(course.node).Some? then [course.node] else []
  }

  function Completion(action: Option<Action>): seq<Action> { if action.Some? then [action.value] else [] }

  // ---- One event ----

  /** The session took the course: it entered that node, and ended with that action, or
      is not over unless the caller left. */
  ghost predicate Took(flow: Flow, s: Session, course: Course, t: Session) {
    && t.entered == s.entered + EnteredBy(flow, course)
    && t.completed == Completion(EndBy(flow, course)) && (t.stopped <==> course.Leaves? || EndBy(flow, course).Some?)
    && (course.Leads? && flow.Get(course.node).Some? ==> t.current == Some(course.node))
    && (!(course.Leads? && flow.Get(course.node).Some?) ==> t.current == s.current)
  }

  lemma CompletedGives(flow: Flow, s: Session, action: Action)
    requires Live(s)
    ensures Took(flow, s, Gives(action), Completed(s, action))
  {
    CompletedIsQuiet(s, action);
    StoppedIsCleared(s);
  }

  lemma ApologyGoes(flow: Flow, s: Session)
    requires Between(s)
    ensures Took(flow, s, Apology(flow), ErrorThenHangup(flow, s))
  {
    ClearedIsBetween(s);
    var t := Cleared(s).(listening := false);
    if !flow.errorAudio { CompletedGives(flow, t, HungUp); }
  }

  lemma ArrivedGoes(flow: Flow, s: Session, id: NodeId, kind: NodeType)
    requires Between(s) && flow.Get(id).Some? && flow.Get(id).value.kind == kind
    ensures var t := Arrived(flow, s, id, kind);
            && t.entered == s.entered && t.current == s.current
            && t.completed == Completion(EndAt(flow, id)) && (t.stopped <==> EndAt(flow, id).Some?)
  {
    match kind
    case Menu => if id !in flow.audible { ApologyGoes(flow, s); }
    case Play => if id !in flow.audible { ApologyGoes(flow, s); }
    case Transfer => CompletedGives(flow, s, Transferred(id));
    case Hangup => CompletedGives(flow, s, HungUp);
    case _ => CompletedGives(flow, s, Error);
  }

  lemma NavigatedGoes(flow: Flow, s: Session, id: NodeId)
    requires Between(s)
    ensures Took(flow, s, Leads(id), Navigated(flow, s, id))
  {
    if flow.Get(id).None? {
      CompletedGives(flow, s, Error);
    } else {
      EnteredIsBetween(s, id);
      ArrivedGoes(flow, Entered(s, id), id, flow.Get(id).value.kind);
    }
  }

  lemma DigitGoes(flow: Flow, s: Session, digit: string)
    requires Inv(flow, s) && !s.stopped
    ensures Took(flow, s, CourseOf(flow, s, Digit(digit)), Pressed(flow, s, digit))
  {
    if s.listening && s.menu.Some? && flow.Route(s.menu.value, digit).Some? {
      WaitsBetween(flow, s);
      NavigatedGoes(flow, s, flow.Route(s.menu.value, digit).value);
    }
  }

  lemma PromptGoes(flow: Flow, s: Session, p: PlayerId, failed: bool)
    requires Inv(flow, s) && !s.stopped && Awaited(s, PromptEnds(p, failed))
    ensures Took(flow, s, CourseOf(flow, s, PromptEnds(p, failed)), Settled(flow, s, p, failed))
  {
    var t := s.(prompts := s.prompts - {p});
    if s.prompts[p].purpose.ErrorPrompt? {
      CompletedGives(flow, t, HungUp);
    } else {
      assert Prompting(flow, s, p) && Between(t);
      if failed {
        ApologyGoes(flow, t);
      } else if s.prompts[p].purpose.PlayPrompt? {
        OnwardsGoes(flow, t, s.prompts[p].purpose.node);
      }
    }
  }

  lemma OnwardsGoes(flow: Flow, s: Session, node: NodeId)
    requires Between(s)
    ensures Took(flow, s, Onto(flow.Out(node), Gives(HungUp)), Onwards(flow, s, node))
  {
    if flow.Out(node).Some? { NavigatedGoes(flow, s, flow.Out(node).value); } else { CompletedGives(flow, s, HungUp); }
  }

  lemma TimerGoes(flow: Flow, s: Session, c: TimerId)
    requires Inv(flow, s) && !s.stopped
    ensures Took(flow, s, CourseOf(flow, s, TimerFires(c)), Fired(flow, s, c))
  {
    if c in s.clocks && s.clocks[c].Grace? {
      assert Timing(flow, s, c);
      var t := s.(clocks := s.clocks - {c}, timer := None);
      SilenceGoes(flow, t, s.clocks[c].node);
    }
  }

  lemma SilenceGoes(flow: Flow, s: Session, id: NodeId)
    requires Between(s)
    ensures Took(flow, s, Silence(flow, id, s.replays), TimedOutAt(flow, s, id))
  {
    if flow.Get(id).None? || flow.Get(id).value.Replays() {
      ReplayGoes(flow, s, id, OneMore(s.replays));
    } else {
      CountedIsBetween(s, 0);
      match flow.FirstOfKind(NodeType.Hangup)
      case None => CompletedGives(flow, Counted(s, 0), TimedOut);
      case Some(hangup) => NavigatedGoes(flow, Counted(s, 0), hangup);
    }
  }

  lemma ReplayGoes(flow: Flow, s: Session, id: NodeId, n: nat)
    requires Between(s)
    ensures Took(flow, s, if n > 3 then Gives(HungUp) else Leads(id), Replayed(flow, s, id, n))
  {
    CountedIsBetween(s, n);
    if n > 3 { CompletedGives(flow, Counted(s, n), HungUp); } else { NavigatedGoes(flow, Counted(s, n), id); }
  }

  /** A session that waits takes the course the flow gives the event: it enters that
      node, and ends exactly with that node's or the event's own action. */
  lemma EventTakesCourse(flow: Flow, s: Session, e: Event)
    requires Inv(flow, s) && !s.stopped
    ensures Took(flow, s, CourseOf(flow, s, e), Next(flow, s, e))
  {
    match e
    case Digit(digit) => DigitGoes(flow, s, digit);
    case TimerFires(c) => TimerGoes(flow, s, c);
    case Hangup => StoppedIsCleared(s);
    case PromptEnds(p, failed) =>
      if Awaited(s, e) { PromptGoes(flow, s, p, failed); } else { InertIn(flow, s, e); }
  }

  // ---- Any run ----

  /** Once over, a session enters no node and ends no second time. */
  lemma OverStays(flow: Flow, s: Session, e: Event)
    requires Inv(flow, s) && s.stopped
    ensures var t := Next(flow, s, e);
            t.stopped && t.entered == s.entered && t.completed == s.completed && t.current == s.current
  {
    InertIn(flow, s, e);
  }

  /** The action of the first event that ends the session, if one does. */
  function EndOf(flow: Flow, s: Session, events: seq<Event>): Option<Action>
    decreases |events|
  {
    if events == [] || s.stopped then None
    else
      var action := EndBy(flow, CourseOf(flow, s, events[0]));
      if action.Some? then action else EndOf(flow, Next(flow, s, events[0]), events[1..])
  }

  lemma {:induction false} RunEndsWith(flow: Flow, s: Session, events: seq<Event>)
    requires Inv(flow, s) && (!s.stopped ==> s.completed == [])
    ensures RunAll(flow, s, events).completed == s.completed + Completion(EndOf(flow, s, events))
    decreases |events|
  {
    if events != [] {
      var t := Next(flow, s, events[0]);
      NextKeeps(flow, s, events[0]);
      if s.stopped {
        OverStays(flow, s, events[0]);
        RunEndsWith(flow, t, events[1..]);
      } else {
        EventTakesCourse(flow, s, events[0]);
        if t.completed != [] { EndsOnce(flow, t); }
        RunEndsWith(flow, t, events[1..]);
      }
    }
  }

  lemma EndsOnce(flow: Flow, s: Session)
    requires Inv(flow, s) && s.completed != []
    ensures s.stopped
  {
  }

  // ---- The last node entered ----

  /** A menu that does not replay, in a flow without a hang-up node. */
  predicate LetsTimeOut(flow: Flow, id: NodeId) {
    && flow.AudioMenu(id) && flow.Get(id).value.noInput !in {None, Some("replay")}
    && flow.FirstOfKind(NodeType.Hangup).None?
  }

  /** The session is at the node it entered last; a node that ends sessions has ended
      it, with its own action; no other node has passed a caller on, and only a
      menu that lets time run out has done so. */
  ghost predicate AtItsLast(flow: Flow, s: Session) {
    && s.current == (if s.entered == [] then None else Some(s.entered[|s.entered| - 1]))
    && (s.current.Some? ==> flow.Get(s.current.value).Some?)
    && (s.current.Some? && EndAt(flow, s.current.value).Some? ==>
          s.completed == Completion(EndAt(flow, s.current.value)))
    && (forall n :: s.completed == [Transferred(n)] ==> s.current == Some(n) && EndAt(flow, n) == Some(Transferred(n)))
    && (s.completed == [TimedOut] ==> s.current.Some? && LetsTimeOut(flow, s.current.value))
  }

  /** An event's own action is to hang up or to time out, the latter at such a menu. */
  ghost predicate Sensible(flow: Flow, s: Session, course: Course) {
    course.Gives? ==>
      course.action in {HungUp, TimedOut}
      && (course.action == TimedOut ==> s.current.Some? && LetsTimeOut(flow, s.current.value))
  }

  lemma TookToItsLast(flow: Flow, s: Session, course: Course, t: Session)
    requires AtItsLast(flow, s) && s.completed == [] && Took(flow, s, course, t) && Sensible(flow, s, course)
    ensures AtItsLast(flow, t)
  {
    if t.entered != s.entered { assert t.entered[|t.entered| - 1] == course.node; }
  }

  lemma CourseIsSensible(flow: Flow, s: Session, e: Event)
    requires Inv(flow, s) && !s.stopped
    ensures Sensible(flow, s, CourseOf(flow, s, e))
  {
    if e.TimerFires? && e.timer in s.clocks { assert Timing(flow, s, e.timer); }
  }

  lemma {:induction false} RunAtItsLast(flow: Flow, s: Session, events: seq<Event>)
    requires Inv(flow, s) && AtItsLast(flow, s) && (!s.stopped ==> s.completed == [])
    ensures AtItsLast(flow, RunAll(flow, s, events))
    decreases |events|
  {
    if events != [] {
      var t := Next(flow, s, events[0]);
      NextKeeps(flow, s, events[0]);
      if s.stopped {
        OverStays(flow, s, events[0]);
      } else {
        EventTakesCourse(flow, s, events[0]);
        CourseIsSensible(flow, s, events[0]);
        TookToItsLast(flow, s, CourseOf(flow, s, events[0]), t);
        if t.completed != [] { EndsOnce(flow, t); }
      }
      RunAtItsLast(flow, t, events[1..]);
    }
  }

  // ---- Main results ----

  /** The node a session begins with: the one resumed at, or the start node's first
      target; None if the flow has no such start. */
  function Entrance(flow: Flow, resumed: Option<NodeId>): Option<NodeId> {
    if resumed.Some? && flow.Get(resumed.value).Some? then resumed
    else match flow.FirstOfKind(StartNode)
      case None => None
      case Some(start) => flow.Out(start)
  }

  function Start(flow: Flow, resumed: Option<NodeId>): Session {
    if resumed.Some? then StartedAt(flow, IDLE, resumed.value) else Started(flow, IDLE)
  }

  lemma StartNavigates(flow: Flow, resumed: Option<NodeId>, id: NodeId)
    requires Entrance(flow, resumed) == Some(id)
    ensures Start(flow, resumed) == Navigated(flow, IDLE.(listening := true), id)
  {
  }

  lemma StartWaits(flow: Flow, resumed: Option<NodeId>)
    ensures Inv(flow, Start(flow, resumed))
  {
    if resumed.Some? { StartedWaits(flow, resumed.value); } else { StartedWaits(flow, ""); }
  }

  lemma StartGoes(flow: Flow, resumed: Option<NodeId>)
    ensures var s := Start(flow, resumed);
            && Inv(flow, s) && AtItsLast(flow, s) && (!s.stopped ==> s.completed == [])
            && match Entrance(flow, resumed)
               case None => s.completed == [Error] && s.entered == []
               case Some(id) => s.completed == Completion(EndAt(flow, id)) && s.entered == EnteredBy(flow, Leads(id))
  {
    var s, idle := Start(flow, resumed), IDLE.(listening := true);
    StartWaits(flow, resumed);
    match Entrance(flow, resumed)
    case None => CompletedGives(flow, IDLE, Error);
    case Some(id) =>
      StartNavigates(flow, resumed, id);
      assert Between(idle);
      NavigatedGoes(flow, idle, id);
      TookToItsLast(flow, idle, Leads(id), s);
      if s.completed != [] { EndsOnce(flow, s); }
  }

  /** Over every run: the engine has completed with what the entrance ends sessions
      with, or else with the action of the first event that ends this one, and has
      not completed if there is neither. */
  lemma RunEnds(flow: Flow, resumed: Option<NodeId>, events: seq<Event>)
    ensures var start := Start(flow, resumed);
            var entrance := Entrance(flow, resumed);
            var first := if entrance.None? then Some(Error) else EndAt(flow, entrance.value);
            RunAll(flow, start, events).completed ==
              Completion(if first.Some? then first else EndOf(flow, start, events))
  {
    var start := Start(flow, resumed);
    StartGoes(flow, resumed);
    RunEndsWith(flow, start, events);
    if start.completed != [] { EndsOnce(flow, start); }
  }

  /** Over every run: the caller is passed on to an agent, with node n, exactly if n is
      the last node entered and a transfer node; a run whose last node is a hang-up
      node, or of a type the engine does not know, ends with that; and time runs
      out only at a menu that does not replay, in a flow without a hang-up node. */
  lemma TransferredIff(flow: Flow, resumed: Option<NodeId>, events: seq<Event>)
    ensures var s := RunAll(flow, Start(flow, resumed), events);
            && (forall n ::
                  s.completed == [Transferred(n)] <==> LastIs(flow, s, n) && flow.Get(n).value.kind == Transfer)
            && (forall n | LastIs(flow, s, n) && flow.Get(n).value.kind == NodeType.Hangup :: s.completed == [HungUp])
            && (forall n | LastIs(flow, s, n) && flow.Get(n).value.kind in {StartNode, Unknown} ::
                  s.completed == [Error])
            && (s.completed == [TimedOut] ==> exists n :: LastIs(flow, s, n) && LetsTimeOut(flow, n))
  {
    var start := Start(flow, resumed);
    StartGoes(flow, resumed);
    RunAtItsLast(flow, start, events);
    LastTells(flow, RunAll(flow, start, events));
  }

  /** The last node entered, which the flow has. */
  predicate LastIs(flow: Flow, s: Session, n: NodeId) {
    s.entered != [] && s.entered[|s.entered| - 1] == n && flow.Get(n).Some?
  }

  lemma LastTells(flow: Flow, s: Session)
    requires AtItsLast(flow, s)
    ensures forall n :: s.completed == [Transferred(n)] <==> LastIs(flow, s, n) && flow.Get(n).value.kind == Transfer
    ensures forall n | LastIs(flow, s, n) && flow.Get(n).value.kind == NodeType.Hangup :: s.completed == [HungUp]
    ensures forall n | LastIs(flow, s, n) && flow.Get(n).value.kind in {StartNode, Unknown} :: s.completed == [Error]
    ensures s.completed == [TimedOut] ==> exists n :: LastIs(flow, s, n) && LetsTimeOut(flow, n)
  {
    if s.current.Some? { assert LastIs(flow, s, s.current.value); }
  }

  // ---- Replays ----

  lemma NavigatedReplays(flow: Flow, s: Session, id: NodeId)
    requires Between(s) && flow.Get(id).Some?
    ensures Navigated(flow, s, id).replays == if s.current == Some(id) then s.replays else 0
  {
    EnteredIsBetween(s, id);
    ArrivedStays(flow, Entered(s, id), id, flow.Get(id).value.kind);
  }

  lemma ClearedStays(s: Session)
    ensures Cleared(s).replays == s.replays && Cleared(s).entered == s.entered
  {
  }

  lemma CompletedStays(s: Session, action: Action)
    ensures Completed(s, action).replays == s.replays && Completed(s, action).entered == s.entered
  {
    ClearedStays(s.(stopped := true));
  }

  lemma ApologyStays(flow: Flow, s: Session)
    ensures ErrorThenHangup(flow, s).replays == s.replays && ErrorThenHangup(flow, s).entered == s.entered
  {
    ClearedStays(s);
    CompletedStays(Cleared(s).(listening := false), HungUp);
  }

  lemma ArrivedStays(flow: Flow, s: Session, id: NodeId, kind: NodeType)
    ensures Arrived(flow, s, id, kind).replays == s.replays && Arrived(flow, s, id, kind).entered == s.entered
  {
    match kind
    case Menu => if id !in flow.audible { ApologyStays(flow, s); }
    case Play => if id !in flow.audible { ApologyStays(flow, s); }
    case Transfer => CompletedStays(s, Transferred(id));
    case Hangup => CompletedStays(s, HungUp);
    case _ => CompletedStays(s, Error);
  }

  lemma ReplayCounts(flow: Flow, s: Session, id: NodeId, n: nat)
    requires Between(s) && n <= MAX_REPLAYS && flow.Get(id).Some?
    ensures Replayed(flow, s, id, n).replays == if s.current == Some(id) then n else 0
  {
    CountedIsBetween(s, n);
    NavigatedReplays(flow, Counted(s, n), id);
  }

  lemma SilenceReplays(flow: Flow, s: Session, menu: NodeId)
    requires Between(s) && flow.AudioMenu(menu) && s.current == Some(menu)
    ensures var course := Silence(flow, menu, s.replays);
            course.Leads? && flow.Get(course.node).Some? ==>
              TimedOutAt(flow, s, menu).replays == if course.node == menu then s.replays + 1 else 0
  {
    var course := Silence(flow, menu, s.replays);
    if course.Leads? && flow.Get(course.node).Some? {
      if flow.Get(menu).value.Replays() {
        ReplayCounts(flow, s, menu, OneMore(s.replays));
      } else {
        CountedIsBetween(s, 0);
        NavigatedReplays(flow, Counted(s, 0), course.node);
      }
    }
  }

  lemma PromptReplays(flow: Flow, s: Session, p: PlayerId, failed: bool)
    requires Inv(flow, s) && !s.stopped
    requires var course := CourseOf(flow, s, PromptEnds(p, failed));
             course.Leads? && flow.Get(course.node).Some?
    ensures var id := CourseOf(flow, s, PromptEnds(p, failed)).node;
            Settled(flow, s, p, failed).replays == if s.current == Some(id) then s.replays else 0
  {
    assert Prompting(flow, s, p);
    NavigatedReplays(flow, s.(prompts := s.prompts - {p}), CourseOf(flow, s, PromptEnds(p, failed)).node);
  }

  /** Replays are counted while the caller is silent at one menu, and from none again
      once another node is entered. */
  lemma ReplaysAfter(flow: Flow, s: Session, e: Event)
    requires Inv(flow, s) && !s.stopped
    requires var course := CourseOf(flow, s, e);
             course.Leads? && flow.Get(course.node).Some?
    ensures Next(flow, s, e).replays ==
              if s.current != Some(CourseOf(flow, s, e).node) then 0
              else if e.TimerFires? then s.replays + 1 else s.replays
  {
    match e
    case Digit(digit) =>
      WaitsBetween(flow, s);
      NavigatedReplays(flow, s, CourseOf(flow, s, e).node);
    case PromptEnds(p, failed) => PromptReplays(flow, s, p, failed);
    case TimerFires(c) =>
      assert Timing(flow, s, c);
      SilenceReplays(flow, s.(clocks := s.clocks - {c}, timer := None), s.clocks[c].node);
  }

  /** A menu heard to its end waits for the no-input time, then for the grace period, and
      only then is the caller taken for silent. */
  lemma SilenceIsTimed(flow: Flow, s: Session, p: PlayerId)
    requires Inv(flow, s) && !s.stopped && s.player == Some(p) && p in s.prompts && s.prompts[p].purpose.MenuPrompt?
    ensures var t := Next(flow, s, PromptEnds(p, false));
            var menu := s.prompts[p].purpose.node;
            && t.timer.Some? && t.clocks == map[t.timer.value := NoInput(menu)] && t.menu == Some(menu)
            && var u := Next(flow, t, TimerFires(t.timer.value));
               u.timer.Some? && u.clocks == map[u.timer.value := Grace(menu)] && u.menu == Some(menu)
  {
    assert Prompting(flow, s, p);
  }

  /** Resuming enters the node there is, whatever became of the session before. */
  lemma ResumedEnters(flow: Flow, s: Session, id: NodeId)
    requires flow.Get(id).Some?
    ensures StartedAt(flow, s, id).entered == s.entered + [id]
  {
    var t := s.(stopped := false, listening := true);
    ClearedStays(t);
    ArrivedStays(flow, Entered(t, id), id, flow.Get(id).value.kind);
  }

  // ---- The index ----

  /** Of the nodes with one id the last stands. */
  lemma {:induction false} LaterStands(flow: Flow, k: nat)
    requires k < |flow.list| && forall j | k < j < |flow.list| :: flow.list[j].id != flow.list[k].id
    ensures flow.Get(flow.list[k].id) == Some(flow.list[k])
  {
    LaterStandsIn(flow.list, k);
  }

  lemma {:induction false} LaterStandsIn(list: seq<Node>, k: nat)
    requires k < |list| && forall j | k < j < |list| :: list[j].id != list[k].id
    ensures Find(list, list[k].id) == Some(list[k])
  {
    if k < |list| - 1 { LaterStandsIn(list[..|list| - 1], k); }
  }

  /** The start and the hang-up node are the first of their type in the list, by the
      node that stands for the id. */
  lemma FirstOfKindIs(flow: Flow, kind: NodeType, k: nat)
    requires k < |flow.list| && Stands(flow, k, kind) && forall j | 0 <= j < k :: !Stands(flow, j, kind)
    ensures flow.FirstOfKind(kind) == Some(flow.list[k].id)
  {
    FirstFromIs(flow, kind, 0, k);
  }

  ghost predicate Stands(flow: Flow, j: nat, kind: NodeType)
    requires j < |flow.list|
  {
    flow.Get(flow.list[j].id).Some? && flow.Get(flow.list[j].id).value.kind == kind
  }

  lemma {:induction false} FirstFromIs(flow: Flow, kind: NodeType, i: nat, k: nat)
    requires i <= k < |flow.list| && Stands(flow, k, kind) && forall j | 0 <= j < k :: !Stands(flow, j, kind)
    ensures flow.FirstFrom(i, kind) == Some(flow.list[k].id)
    decreases k - i
  {
    if i < k {
      assert !Stands(flow, i, kind);
      FirstFromIs(flow, kind, i + 1, k);
    }
  }

  // ---- Where digits and prompts lead, edge by edge ----

  /** Edge i is the first out of the node, for one handle or for any. */
  ghost predicate FirstEdge(flow: Flow, i: nat, source: NodeId, handle: Option<string>) {
    && i < |flow.edges| && Fits(flow.edges[i], source, handle)
    && forall j | 0 <= j < i :: !Fits(flow.edges[j], source, handle)
  }

  predicate Fits(e: Edge, source: NodeId, handle: Option<string>) {
    e.source == source && (handle == None || handle == Some(e.handle))
  }

  lemma {:induction false} FirstTargetIs(edges: seq<Edge>, source: NodeId, handle: Option<string>, i: nat)
    requires i <= |edges| && forall j | 0 <= j < i :: !Fits(edges[j], source, handle)
    requires i < |edges| ==> Fits(edges[i], source, handle)
    ensures FirstTarget(edges, source, handle) == if i < |edges| then Some(edges[i].target) else None
  {
    if edges != [] && i > 0 {
      assert !Fits(edges[0], source, handle);
      FirstTargetIs(edges[1..], source, handle, i - 1);
    }
  }

  /** In any state a run leads to, a digit takes the caller along the menu's first edge
      for that digit. */
  lemma DigitFollowsItsEdge(flow: Flow, resumed: Option<NodeId>, events: seq<Event>, digit: string, i: nat)
    requires var s := RunAll(flow, Start(flow, resumed), events);
             !s.stopped && s.listening && s.menu.Some? && FirstEdge(flow, i, s.menu.value, Some(digit))
    requires flow.edges[i].target != ""
    ensures var s := RunAll(flow, Start(flow, resumed), events);
            Took(flow, s, Leads(flow.edges[i].target), Next(flow, s, Digit(digit)))
  {
    var s := RunAll(flow, Start(flow, resumed), events);
    StartGoes(flow, resumed);
    RunKeeps(flow, Start(flow, resumed), events);
    FirstTargetIs(flow.edges, s.menu.value, Some(digit), i);
    EventTakesCourse(flow, s, Digit(digit));
  }

  /** Without such an edge the menu's own table decides, if it names a node there is;
      else the digit is ignored. */
  lemma DigitWithoutEdge(flow: Flow, resumed: Option<NodeId>, events: seq<Event>, digit: string)
    requires var s := RunAll(flow, Start(flow, resumed), events);
             && !s.stopped && s.listening && s.menu.Some?
             && forall j | 0 <= j < |flow.edges| :: !Fits(flow.edges[j], s.menu.value, Some(digit))
    ensures var s := RunAll(flow, Start(flow, resumed), events);
            var table := if flow.Get(s.menu.value).Some? then flow.Get(s.menu.value).value.digits else map[];
            if digit in table && table[digit] != "" && flow.Get(table[digit]).Some?
            then Took(flow, s, Leads(table[digit]), Next(flow, s, Digit(digit)))
            else Next(flow, s, Digit(digit)) == s
  {
    var s := RunAll(flow, Start(flow, resumed), events);
    StartGoes(flow, resumed);
    RunKeeps(flow, Start(flow, resumed), events);
    FirstTargetIs(flow.edges, s.menu.value, Some(digit), |flow.edges|);
    EventTakesCourse(flow, s, Digit(digit));
  }

  /** A play node's prompt, once played, takes the caller along the node's first edge,
      whatever its handle; without one the session hangs up. */
  lemma PlayedFollowsItsEdge(flow: Flow, resumed: Option<NodeId>, events: seq<Event>, p: PlayerId, i: nat)
    requires var s := RunAll(flow, Start(flow, resumed), events);
             && !s.stopped && s.player == Some(p) && p in s.prompts && s.prompts[p].purpose.PlayPrompt?
             && i <= |flow.edges| && (forall j | 0 <= j < i :: !Fits(flow.edges[j], s.prompts[p].purpose.node, None))
             && (i < |flow.edges| ==> Fits(flow.edges[i], s.prompts[p].purpose.node, None))
    ensures var s := RunAll(flow, Start(flow, resumed), events);
            && s.current == Some(s.prompts[p].purpose.node)
            && Took(flow, s, if i < |flow.edges| then Leads(flow.edges[i].target) else Gives(HungUp),
                    Next(flow, s, PromptEnds(p, false)))
  {
    var s := RunAll(flow, Start(flow, resumed), events);
    StartGoes(flow, resumed);
    RunKeeps(flow, Start(flow, resumed), events);
    assert Prompting(flow, s, p);
    FirstTargetIs(flow.edges, s.prompts[p].purpose.node, None, i);
    EventTakesCourse(flow, s, PromptEnds(p, false));
  }
}
