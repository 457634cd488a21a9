/** A caller who presses nothing: exactly when the IVR lets them go, and how
    much they hear until then. */
module IvrTermination {
  import opened CallTypes
  import opened IvrFlow
  import opened IvrEngine
  import opened IvrSafety

  /** The play nodes that play something. */
  function Plays(flow: Flow): set<NodeId> { set id | id in flow.audible && flow.AudioPlay(id) }

  /** How many play nodes in a row start at a node, following each one's first
      edge; None if `limit` of them do not suffice. */
  function Hops(flow: Flow, id: NodeId, limit: nat): Option<nat>
    decreases limit
  {
    if !flow.AudioPlay(id) then Some(0)
    else if limit == 0 then None
    else match flow.Out(id)
      case None => Some(1)
      case Some(next) =>
        var rest := Hops(flow, next, limit - 1);
        if rest.None? then None else Some(rest.value + 1)
  }

  /** Following the play nodes leads out of them within as many steps as there
      are play nodes. */
  predicate LeadsOut(flow: Flow, id: NodeId) { Hops(flow, id, |Plays(flow)|).Some? }

  function Ahead(flow: Flow, id: NodeId): nat {
    var h := Hops(flow, id, |Plays(flow)|);
    if h.Some? then h.value else 0
  }

  /** A run in which the caller is silent: every event is one the session waits
      for, each prompt playing to its end or failing. */
  predicate SilentRun(flow: Flow, s: Session, events: seq<Event>)
    decreases |events|
  {
    events == [] || (!s.stopped && Awaited(s, events[0]) && SilentRun(flow, Next(flow, s, events[0]), events[1..]))
  }

  // ---- Hops ----

  lemma {:induction false} HopsGrow(flow: Flow, id: NodeId, limit: nat, more: nat)
    requires limit <= more && Hops(flow, id, limit).Some?
    ensures Hops(flow, id, more) == Hops(flow, id, limit)
    decreases limit
  {
    if flow.AudioPlay(id) && flow.Out(id).Some? { HopsGrow(flow, flow.Out(id).value, limit - 1, more - 1); }
  }

  lemma AheadDrops(flow: Flow, id: NodeId)
    requires flow.AudioPlay(id) && LeadsOut(flow, id)
    ensures Ahead(flow, id) >= 1
    ensures flow.Out(id).Some? ==>
              LeadsOut(flow, flow.Out(id).value) && Ahead(flow, flow.Out(id).value) == Ahead(flow, id) - 1
  {
    if flow.Out(id).Some? { HopsGrow(flow, flow.Out(id).value, |Plays(flow)| - 1, |Plays(flow)|); }
  }

  /** The play nodes of a chain that ends are all different. */
  lemma {:induction false} ChainIsDistinct(flow: Flow, id: NodeId, limit: nat) returns (chain: set<NodeId>)
    requires Hops(flow, id, limit).Some?
    ensures chain <= Plays(flow) && |chain| == Hops(flow, id, limit).value
    ensures forall n :: n in chain ==> Hops(flow, n, limit).Some? && 1 <= Hops(flow, n, limit).value <= |chain|
    decreases limit
  {
    if !flow.AudioPlay(id) {
      chain := {};
    } else if flow.Out(id).None? {
      chain := {id};
    } else {
      var rest := ChainIsDistinct(flow, flow.Out(id).value, limit - 1);
      forall n | n in rest ensures Hops(flow, n, limit) == Hops(flow, n, limit - 1) {
        HopsGrow(flow, n, limit - 1, limit);
      }
      chain := rest + {id};
    }
  }

  /** A chain that ends at all ends within the number of play nodes. */
  lemma EndingChainLeadsOut(flow: Flow, id: NodeId, limit: nat)
    requires Hops(flow, id, limit).Some?
    ensures LeadsOut(flow, id) && Ahead(flow, id) <= |Plays(flow)|
  {
    var chain := ChainIsDistinct(flow, id, limit);
    SubsetIsSmaller(chain, Plays(flow));
    HopsFit(flow, id, limit, |Plays(flow)|);
  }

  lemma SubsetIsSmaller<T>(a: set<T>, b: set<T>)
    requires a <= b
    ensures |a| <= |b|
  {
    assert b == a + (b - a);
  }

  lemma {:induction false} HopsFit(flow: Flow, id: NodeId, limit: nat, enough: nat)
    requires Hops(flow, id, limit).Some? && Hops(flow, id, limit).value <= enough
    ensures Hops(flow, id, enough) == Hops(flow, id, limit)
    decreases limit
  {
    if flow.AudioPlay(id) && flow.Out(id).Some? { HopsFit(flow, flow.Out(id).value, limit - 1, enough - 1); }
  }

  // ---- What is left to wait for ----

  ghost predicate OnCourse(flow: Flow, s: Session) {
    && Inv(flow, s)
    && (s.stopped ==> |s.completed| == 1)
    && (!s.stopped && s.player.Some? && s.prompts[s.player.value].purpose.PlayPrompt?
        ==> LeadsOut(flow, s.prompts[s.player.value].purpose.node))
  }

  /** Events still to come at most. */
  function EventsLeft(flow: Flow, s: Session): int {
    if s.stopped then 0
    else if s.player.Some? && s.player.value in s.prompts then
      match s.prompts[s.player.value].purpose
      case PlayPrompt(node) => 13 + Ahead(flow, node)
      case _ => 3 * (MAX_REPLAYS - s.replays) + 4
    else if s.timer.Some? && s.timer.value in s.clocks then
      3 * (MAX_REPLAYS - s.replays) + if s.clocks[s.timer.value].NoInput? then 3 else 2
    else 1
  }

  /** Prompts still to be played at most, the error prompt included. */
  function PromptsLeft(flow: Flow, s: Session): int {
    if s.stopped then 0
    else if s.player.Some? && s.player.value in s.prompts then
      match s.prompts[s.player.value].purpose
      case PlayPrompt(node) => Ahead(flow, node) + 4
      case _ => MAX_REPLAYS - s.replays + 1
    else if s.timer.Some? then MAX_REPLAYS - s.replays + 1
    else 0
  }

  lemma LeftIsNatural(flow: Flow, s: Session)
    requires Inv(flow, s)
    ensures EventsLeft(flow, s) >= 0 && PromptsLeft(flow, s) >= 0
    ensures !s.stopped ==> EventsLeft(flow, s) >= 1
  {}

  lemma ErrorCosts(flow: Flow, s: Session)
    requires Between(s)
    ensures var r := ErrorThenHangup(flow, s);
            OnCourse(flow, r) && EventsLeft(flow, r) <= 1 && r.players + PromptsLeft(flow, r) <= s.players + 1
  {
    ErrorThenWaits(flow, s);
  }

  lemma NavigatingCosts(flow: Flow, s: Session, id: NodeId)
    requires Between(s) && s.listening && LeadsOut(flow, id)
    ensures var r := Navigated(flow, s, id);
            && OnCourse(flow, r)
            && EventsLeft(flow, r) <= 13 + Ahead(flow, id)
            && r.players + PromptsLeft(flow, r) <= s.players + Ahead(flow, id) + 5
            && (s.current == Some(id) && flow.AudioMenu(id) ==>
                  && EventsLeft(flow, r) <= 3 * (MAX_REPLAYS - s.replays) + 4
                  && r.players + PromptsLeft(flow, r) <= s.players + MAX_REPLAYS - s.replays + 2)
            && (flow.Get(id).Some? && flow.Get(id).value.kind == NodeType.Hangup ==>
                  r.stopped && r.players == s.players)
  {
    if flow.Get(id).Some? {
      EnteredIsBetween(s, id);
      ArrivingCosts(flow, Entered(s, id), id, flow.Get(id).value.kind);
    } else {
      CompletedIsQuiet(s, Error);
    }
  }

  lemma ArrivingCosts(flow: Flow, s: Session, id: NodeId, kind: NodeType)
    requires Between(s) && s.listening && s.player.None? && s.timer.None? && s.menu.None? && s.current == Some(id)
    requires flow.Get(id).Some? && flow.Get(id).value.kind == kind && LeadsOut(flow, id)
    ensures var r := Arrived(flow, s, id, kind);
            && OnCourse(flow, r)
            && (kind == Play ==>
                  && EventsLeft(flow, r) <= 13 + Ahead(flow, id)
                  && r.players + PromptsLeft(flow, r) <= s.players + Ahead(flow, id) + 5)
            && (kind != Play ==>
                  && EventsLeft(flow, r) <= 3 * (MAX_REPLAYS - s.replays) + 4
                  && r.players + PromptsLeft(flow, r) <= s.players + MAX_REPLAYS - s.replays + 2)
            && (kind == NodeType.Hangup ==> r.stopped && r.players == s.players)
  {
    ArrivedWaits(flow, s, id, kind);
    if kind in {Menu, Play} && id !in flow.audible {
      ErrorCosts(flow, s);
    } else if kind == Play {
      AheadDrops(flow, id);
    }
  }

  ghost predicate Cheaper(flow: Flow, s: Session, r: Session) {
    && OnCourse(flow, r)
    && EventsLeft(flow, r) < EventsLeft(flow, s)
    && r.players + PromptsLeft(flow, r) <= s.players + PromptsLeft(flow, s)
  }

  lemma PromptEndCosts(flow: Flow, s: Session, p: PlayerId, failed: bool)
    requires OnCourse(flow, s) && !s.stopped && Awaited(s, PromptEnds(p, failed))
    ensures Cheaper(flow, s, Settled(flow, s, p, failed))
  {
    SettledKeeps(flow, s, p, failed);
    if s.player == Some(p) {
      var t := s.(prompts := s.prompts - {p});
      assert Prompting(flow, s, p) && Between(t);
      if failed {
        ErrorCosts(flow, t);
      } else if s.prompts[p].purpose.PlayPrompt? {
        var node := s.prompts[p].purpose.node;
        AheadDrops(flow, node);
        if flow.Out(node).Some? { NavigatingCosts(flow, t, flow.Out(node).value); }
      }
    }
  }

  lemma TimerCosts(flow: Flow, s: Session, c: TimerId)
    requires OnCourse(flow, s) && !s.stopped && Awaited(s, TimerFires(c))
    ensures Cheaper(flow, s, Fired(flow, s, c))
  {
    FiredKeeps(flow, s, c);
    assert Timing(flow, s, c);
    if s.clocks[c].Grace? {
      var node := s.clocks[c].node;
      var t := s.(clocks := s.clocks - {c}, timer := None);
      if flow.Get(node).value.Replays() {
        ReplayCosts(flow, t, node, OneMore(t.replays));
      } else {
        GivingUpCosts(flow, t);
      }
    }
  }

  lemma ReplayCosts(flow: Flow, s: Session, id: NodeId, n: nat)
    requires Between(s) && s.listening && s.current == Some(id) && flow.AudioMenu(id) && n <= MAX_REPLAYS + 1
    ensures var r := Replayed(flow, s, id, n);
            && OnCourse(flow, r)
            && EventsLeft(flow, r) <= 3 * (MAX_REPLAYS - n) + 4
            && r.players + PromptsLeft(flow, r) <= s.players + MAX_REPLAYS - n + 2
  {
    CountedIsBetween(s, n);
    if n > MAX_REPLAYS {
      CompletedIsQuiet(Counted(s, n), HungUp);
    } else {
      NavigatingCosts(flow, Counted(s, n), id);
    }
  }

  lemma GivingUpCosts(flow: Flow, s: Session)
    requires Between(s) && s.listening
    ensures var r := GivenUp(flow, s);
            && OnCourse(flow, r) && EventsLeft(flow, r) <= 0
            && r.players + PromptsLeft(flow, r) <= s.players
  {
    var t := Counted(s, 0);
    CountedIsBetween(s, 0);
    match flow.FirstOfKind(NodeType.Hangup)
    case None => CompletedIsQuiet(t, TimedOut);
    case Some(hangup) => NavigatingCosts(flow, t, hangup);
  }

  lemma {:induction false} SilentRunCosts(flow: Flow, s: Session, events: seq<Event>)
    requires OnCourse(flow, s) && SilentRun(flow, s, events)
    ensures var r := RunAll(flow, s, events);
            && OnCourse(flow, r)
            && |events| + EventsLeft(flow, r) <= EventsLeft(flow, s)
            && r.players + PromptsLeft(flow, r) <= s.players + PromptsLeft(flow, s)
    decreases |events|
  {
    if events != [] {
      match events[0] {
        case PromptEnds(p, failed) => PromptEndCosts(flow, s, p, failed);
        case TimerFires(c) => TimerCosts(flow, s, c);
      }
      SilentRunCosts(flow, Next(flow, s, events[0]), events[1..]);
    }
  }

  // ---- Main results ----

  /** A session begun at a node. */
  function Begun(flow: Flow, id: NodeId): Session { Navigated(flow, IDLE.(listening := true), id) }

  /** A run from the flow's start begins at the start node's first target, and one
      resumed at a node there is begins at that node. */
  lemma WhereItBegins(flow: Flow, id: NodeId)
    ensures flow.Get(id).Some? ==> StartedAt(flow, IDLE, id) == Begun(flow, id)
    ensures flow.Get(id).None? ==> StartedAt(flow, IDLE, id) == Started(flow, IDLE)
    ensures var start := flow.FirstOfKind(StartNode);
            if start.Some? && flow.Out(start.value).Some?
            then Started(flow, IDLE) == Begun(flow, flow.Out(start.value).value)
            else Started(flow, IDLE).completed == [Error] && Started(flow, IDLE).players == 0
  {}

  /** A silent caller leaves: after at most thirteen events more than there are
      play nodes, and at most four prompts more plus one error prompt, the engine
      has completed, once; until then it is waiting for something. */
  lemma SilentCallerLeaves(flow: Flow, id: NodeId, events: seq<Event>)
    requires LeadsOut(flow, id) && SilentRun(flow, Begun(flow, id), events)
    ensures var s := RunAll(flow, Begun(flow, id), events);
            && |events| <= Ahead(flow, id) + 13 <= |Plays(flow)| + 13
            && s.players <= Ahead(flow, id) + 5 <= |Plays(flow)| + 5
            && |s.completed| == (if s.stopped then 1 else 0)
            && (s.stopped || exists e :: Awaited(s, e))
  {
    var s := RunAll(flow, Begun(flow, id), events);
    NavigatingCosts(flow, IDLE.(listening := true), id);
    SilentRunCosts(flow, Begun(flow, id), events);
    EndingChainLeadsOut(flow, id, |Plays(flow)|);
    LeftIsNatural(flow, s);
    if !s.stopped { SomethingIsAwaited(flow, s); }
  }

  /** A play node playing now has a way out of the play nodes. */
  predicate WayOut(flow: Flow, s: Session) {
    s.player.Some? && s.player.value in s.prompts && s.prompts[s.player.value].purpose.PlayPrompt? ==>
      LeadsOut(flow, s.prompts[s.player.value].purpose.node)
  }

  /** A caller who falls silent after whatever they pressed leaves too, unless a play
      node without a way out is playing: the bounds hold from that moment. */
  lemma FallingSilentLeaves(flow: Flow, start: Session, heard: seq<Event>, events: seq<Event>)
    requires start == Started(flow, IDLE) || exists id :: start == StartedAt(flow, IDLE, id)
    requires var s := RunAll(flow, start, heard);
             !s.stopped && WayOut(flow, s) && SilentRun(flow, s, events)
    ensures var s := RunAll(flow, start, heard);
            var t := RunAll(flow, s, events);
            && |events| <= |Plays(flow)| + 13
            && t.players <= s.players + |Plays(flow)| + 4
            && |t.completed| == (if t.stopped then 1 else 0)
            && (t.stopped || exists e :: Awaited(t, e))
  {
    StartedIsInv(flow, start);
    RunKeeps(flow, start, heard);
    SilentFromHere(flow, RunAll(flow, start, heard), events);
  }

  lemma SilentFromHere(flow: Flow, s: Session, events: seq<Event>)
    requires Inv(flow, s) && !s.stopped && WayOut(flow, s) && SilentRun(flow, s, events)
    ensures var t := RunAll(flow, s, events);
            && |events| <= |Plays(flow)| + 13
            && t.players <= s.players + |Plays(flow)| + 4
            && |t.completed| == (if t.stopped then 1 else 0)
            && (t.stopped || exists e :: Awaited(t, e))
  {
    LeftIsBounded(flow, s);
    SilentRunCosts(flow, s, events);
    var t := RunAll(flow, s, events);
    LeftIsNatural(flow, t);
    if !t.stopped { SomethingIsAwaited(flow, t); }
  }

  lemma LeftIsBounded(flow: Flow, s: Session)
    requires Inv(flow, s) && !s.stopped && WayOut(flow, s)
    ensures OnCourse(flow, s) && EventsLeft(flow, s) <= |Plays(flow)| + 13 && PromptsLeft(flow, s) <= |Plays(flow)| + 4
  {
    if s.player.Some? && s.prompts[s.player.value].purpose.PlayPrompt? {
      var node := s.prompts[s.player.value].purpose.node;
      assert LeadsOut(flow, node);
      EndingChainLeadsOut(flow, node, |Plays(flow)|);
    }
  }

  /** No silent run from the session is longer. */
  ghost predicate SilentBound(flow: Flow, s: Session, bound: nat) {
    forall events :: SilentRun(flow, s, events) ==> |events| <= bound
  }

  /** For every session any run leads to, what is left for a silent caller is bounded
      exactly if no play node without a way out is playing. */
  lemma FallingSilentIff(flow: Flow, start: Session, heard: seq<Event>)
    requires start == Started(flow, IDLE) || exists id :: start == StartedAt(flow, IDLE, id)
    requires !RunAll(flow, start, heard).stopped
    ensures var s := RunAll(flow, start, heard);
            WayOut(flow, s) <==> exists bound: nat :: SilentBound(flow, s, bound)
  {
    StartedIsInv(flow, start);
    RunKeeps(flow, start, heard);
    SilentIff(flow, RunAll(flow, start, heard));
  }

  lemma SilentIff(flow: Flow, s: Session)
    requires Inv(flow, s) && !s.stopped
    ensures WayOut(flow, s) <==> exists bound: nat :: SilentBound(flow, s, bound)
  {
    if WayOut(flow, s) {
      forall events | SilentRun(flow, s, events)
        ensures |events| <= |Plays(flow)| + 13
      {
        SilentFromHere(flow, s, events);
      }
      assert SilentBound(flow, s, |Plays(flow)| + 13);
    } else if bound: nat :| SilentBound(flow, s, bound) {
      var events := StaysInCircle(flow, s, bound);
      assert false;
    }
  }

  lemma StaysInCircle(flow: Flow, s: Session, n: nat) returns (events: seq<Event>)
    requires Inv(flow, s) && !s.stopped && !WayOut(flow, s)
    ensures |events| == n + 1 && SilentRun(flow, s, events)
  {
    var p := s.player.value;
    assert Prompting(flow, s, p);
    var node := s.prompts[p].purpose.node;
    CircleGoesOn(flow, node);
    var t := s.(prompts := s.prompts - {p});
    var rest := CircleNeverLeaves(flow, t, flow.Out(node).value, n);
    events := [PromptEnds(p, false)] + rest;
    assert events[1..] == rest;
    assert Next(flow, s, events[0]) == Navigated(flow, t, flow.Out(node).value);
  }

  lemma CircleGoesOn(flow: Flow, id: NodeId)
    requires !LeadsOut(flow, id)
    ensures flow.AudioPlay(id) && flow.Out(id).Some? && !LeadsOut(flow, flow.Out(id).value)
  {
    assert id in Plays(flow);
    if flow.Out(id).Some? && LeadsOut(flow, flow.Out(id).value) {
      assert Hops(flow, id, |Plays(flow)| + 1).Some?;
      EndingChainLeadsOut(flow, id, |Plays(flow)| + 1);
    }
  }

  /** In a circle of play nodes, a caller whose prompts all play hears them for
      ever. */
  lemma {:induction false} CircleNeverLeaves(flow: Flow, s: Session, id: NodeId, n: nat) returns (events: seq<Event>)
    requires Between(s) && s.listening && !LeadsOut(flow, id)
    ensures |events| == n && SilentRun(flow, Navigated(flow, s, id), events)
    ensures !RunAll(flow, Navigated(flow, s, id), events).stopped
    decreases n
  {
    if n == 0 {
      events := [];
      var _, _ := NavigatedPlays(flow, s, id);
    } else {
      var t, e := NavigatedPlays(flow, s, id);
      var rest := CircleNeverLeaves(flow, t, flow.Out(id).value, n - 1);
      events := [e] + rest;
      assert events[1..] == rest;
    }
  }

  lemma NavigatedPlays(flow: Flow, s: Session, id: NodeId) returns (t: Session, e: Event)
    requires Between(s) && s.listening && !LeadsOut(flow, id)
    ensures var at := Navigated(flow, s, id);
            && !at.stopped && Awaited(at, e) && Between(t) && t.listening
            && flow.Out(id).Some? && !LeadsOut(flow, flow.Out(id).value)
            && Next(flow, at, e) == Navigated(flow, t, flow.Out(id).value)
  {
    var at, p := Navigated(flow, s, id), s.players;
    CircleGoesOn(flow, id);
    EnteredIsBetween(s, id);
    NavigatedWaits(flow, s, id);
    assert Prompting(flow, at, p);
    t, e := at.(prompts := at.prompts - {p}), PromptEnds(p, false);
  }

  /** No silent run from a node is longer. */
  ghost predicate BoundedBy(flow: Flow, id: NodeId, bound: nat) {
    forall events :: SilentRun(flow, Begun(flow, id), events) ==> |events| <= bound
  }

  /** Exactly when a silent caller's session is bounded. */
  lemma SilentCallerLeavesIff(flow: Flow, id: NodeId)
    ensures LeadsOut(flow, id) <==> exists bound: nat :: BoundedBy(flow, id, bound)
  {
    if LeadsOut(flow, id) {
      var bound := Ahead(flow, id) + 13;
      forall events | SilentRun(flow, Begun(flow, id), events) ensures |events| <= bound {
        SilentCallerLeaves(flow, id, events);
      }
      assert BoundedBy(flow, id, bound);
    } else if bound: nat :| BoundedBy(flow, id, bound) {
      var events := CircleNeverLeaves(flow, IDLE.(listening := true), id, bound + 1);
      assert false;
    }
  }

  /** Silent callers leave from every node exactly if the flow has no circle of
      play nodes. */
  lemma NoCircleIff(flow: Flow)
    ensures (forall id :: LeadsOut(flow, id)) <==> !exists circle :: IsCircle(flow, circle)
  {
    if circle :| IsCircle(flow, circle) {
      var id :| id in circle;
      CircleStays(flow, circle, id, |Plays(flow)|);
      assert !LeadsOut(flow, id);
    }
    if id :| !LeadsOut(flow, id) {
      var circle := set n | n in Plays(flow) && !LeadsOut(flow, n);
      forall n | n in circle ensures Circles(flow, circle, n) {
        CircleGoesOn(flow, n);
        CircleGoesOn(flow, flow.Out(n).value);
      }
      CircleGoesOn(flow, id);
      assert id in circle;
      assert IsCircle(flow, circle);
    }
  }

  /** A set of play nodes each of which leads to another of them. */
  ghost predicate IsCircle(flow: Flow, circle: set<NodeId>) {
    circle != {} && forall id :: id in circle ==> Circles(flow, circle, id)
  }

  predicate Circles(flow: Flow, circle: set<NodeId>, id: NodeId) {
    flow.AudioPlay(id) && flow.Out(id).Some? && flow.Out(id).value in circle
  }

  lemma {:induction false} CircleStays(flow: Flow, circle: set<NodeId>, id: NodeId, limit: nat)
    requires id in circle && IsCircle(flow, circle)
    ensures Hops(flow, id, limit).None?
    decreases limit
  {
    assert Circles(flow, circle, id);
    if limit > 0 { CircleStays(flow, circle, flow.Out(id).value, limit - 1); }
  }
}
