/** One call's IVR session, driven by prompts that end, timers that fire and
    digits that arrive. */
module IvrEngine {
  import opened CallTypes
  import opened IvrFlow

  type PlayerId = nat
  type TimerId = nat

  datatype Purpose = MenuPrompt(node: NodeId) | PlayPrompt(node: NodeId) | ErrorPrompt

  /** A prompt whose end has not been reported yet; `halted` once its player was
      told to stop. */
  datatype Prompt = Prompt(purpose: Purpose, halted: bool)

  /** A no-input timer and the grace period after it. */
  datatype Clock = NoInput(node: NodeId) | Grace(node: NodeId)

  datatype Action = Transferred(node: NodeId) | HungUp | TimedOut | Error

  /** The engine's fields, what the player and the timers still owe it, and the
      events it has emitted. Players and timers are numbered as they are made. */
  datatype Session = Session(
    current: Option<NodeId>,
    menu: Option<NodeId>,
    player: Option<PlayerId>,
    timer: Option<TimerId>,
    stopped: bool,
    replays: nat,
    listening: bool,
    prompts: map<PlayerId, Prompt>,
    clocks: map<TimerId, Clock>,
    players: nat,
    timers: nat,
    entered: seq<NodeId>,
    completed: seq<Action>)

  const IDLE := Session(None, None, None, None, false, 0, false, map[], map[], 0, 0, [], [])

  const MAX_REPLAYS: nat := 3

  // ---- What each method does to the session ----

  function ClearedPlayer(s: Session): Session {
    if s.player.None? then s
    else if s.player.value in s.prompts then
      s.(player := None, prompts := s.prompts[s.player.value := s.prompts[s.player.value].(halted := true)])
    else s.(player := None)
  }

  function ClearedTimer(s: Session): Session {
    if s.timer.None? then s else s.(timer := None, clocks := s.clocks - {s.timer.value})
  }

  function Cleared(s: Session): Session { ClearedTimer(ClearedPlayer(s)) }

  function Stopped(s: Session): Session {
    if s.stopped then s else Cleared(s.(stopped := true)).(listening := false)
  }

  function Completed(s: Session, action: Action): Session {
    if s.stopped then s else Stopped(s).(completed := s.completed + [action])
  }

  function Playing(s: Session, purpose: Purpose): Session {
    s.(prompts := s.prompts[s.players := Prompt(purpose, false)], players := s.players + 1)
  }

  function Armed(s: Session, clock: Clock): Session {
    s.(timer := Some(s.timers), clocks := s.clocks[s.timers := clock], timers := s.timers + 1)
  }

  function ErrorThenHangup(flow: Flow, s: Session): Session {
    var t := Cleared(s).(listening := false);
    if flow.errorAudio then Playing(t, ErrorPrompt) else Completed(t, HungUp)
  }

  function At(s: Session, id: NodeId): Session {
    s.(menu := None, replays := if s.current == Some(id) then s.replays else 0, current := Some(id),
       entered := s.entered + [id])
  }

  function Entered(s: Session, id: NodeId): Session { At(Cleared(s), id) }

  function Arrived(flow: Flow, s: Session, id: NodeId, kind: NodeType): Session {
    match kind
    case Menu =>
      if id in flow.audible then Playing(s.(menu := Some(id), player := Some(s.players)), MenuPrompt(id))
      else ErrorThenHangup(flow, s)
    case Play =>
      if id in flow.audible then Playing(s.(player := Some(s.players)), PlayPrompt(id))
      else ErrorThenHangup(flow, s)
    case Transfer => Completed(s, Transferred(id))
    case Hangup => Completed(s, HungUp)
    case _ => Completed(s, Error)
  }

  function Navigated(flow: Flow, s: Session, id: NodeId): Session {
    if s.stopped then s
    else match flow.Get(id)
      case None => Completed(s, Error)
      case Some(node) => Arrived(flow, Entered(s, id), id, node.kind)
  }

  function Started(flow: Flow, s: Session): Session {
    match flow.FirstOfKind(StartNode)
    case None => Completed(s, Error)
    case Some(start) =>
      match flow.Out(start)
      case None => Completed(s, Error)
      case Some(first) => Navigated(flow, s.(listening := true), first)
  }

  function StartedAt(flow: Flow, s: Session, id: NodeId): Session {
    if flow.Get(id).None? then Started(flow, s) else Navigated(flow, s.(stopped := false, listening := true), id)
  }

  function Pressed(flow: Flow, s: Session, digit: string): Session {
    if !s.listening || s.menu.None? || s.stopped then s
    else match flow.Route(s.menu.value, digit)
      case None => s
      case Some(target) => Navigated(flow, s, target)
  }

  /** A prompt's end is reported: it played to its end or was stopped, or it
      failed. */
  function Settled(flow: Flow, s: Session, p: PlayerId, failed: bool): Session {
    if p !in s.prompts then s
    else
      var t := s.(prompts := s.prompts - {p});
      var prompt := s.prompts[p];
      if s.stopped then t
      else match prompt.purpose
        case ErrorPrompt => Completed(t, HungUp)
        case MenuPrompt(node) =>
          if failed && !prompt.halted then ErrorThenHangup(flow, t)
          else if s.player != Some(p) then t
          else Armed(t.(player := None), NoInput(node))
        case PlayPrompt(node) =>
          if failed && !prompt.halted then ErrorThenHangup(flow, t)
          else Onwards(flow, t, node)
  }

  function Onwards(flow: Flow, s: Session, node: NodeId): Session {
    match flow.Out(node)
    case None => Completed(s, HungUp)
    case Some(next) => Navigated(flow, s, next)
  }

  function TimedOutAt(flow: Flow, s: Session, id: NodeId): Session {
    if s.stopped then s
    else if flow.Get(id).None? || flow.Get(id).value.Replays() then Replayed(flow, s, id, OneMore(s.replays))
    else GivenUp(flow, s)
  }

  function OneMore(n: nat): nat { n + 1 }

  function Counted(s: Session, n: nat): Session { s.(replays := n) }

  /** The n-th replay of the menu, if there are that many. */
  function Replayed(flow: Flow, s: Session, id: NodeId, n: nat): Session {
    if n > MAX_REPLAYS then Completed(Counted(s, n), HungUp) else Navigated(flow, Counted(s, n), id)
  }

  function GivenUp(flow: Flow, s: Session): Session {
    var t := Counted(s, 0);
    match flow.FirstOfKind(Hangup)
    case None => Completed(t, TimedOut)
    case Some(hangup) => Navigated(flow, t, hangup)
  }

  function Fired(flow: Flow, s: Session, c: TimerId): Session {
    if c !in s.clocks then s
    else
      var t := s.(clocks := s.clocks - {c});
      match s.clocks[c]
      case NoInput(node) => if s.stopped then t else Armed(t, Grace(node))
      case Grace(node) => TimedOutAt(flow, t.(timer := None), node)
  }

  // ---- The engine ----

  class Engine {
    const flow: Flow
    const nodes: map<NodeId, Node>
    const order: seq<NodeId>
    var current: Option<NodeId>
    var menu: Option<NodeId>
    var player: Option<PlayerId>
    var timer: Option<TimerId>
    var stopped: bool
    var replays: nat
    var listening: bool
    var prompts: map<PlayerId, Prompt>
    var clocks: map<TimerId, Clock>
    var players: nat
    var timers: nat
    var entered: seq<NodeId>
    var completed: seq<Action>

    /** The index agrees with the flow. */
    ghost predicate Indexed() {
      && (forall id :: id in nodes <==> flow.Get(id).Some?)
      && (forall id :: id in nodes ==> nodes[id] == flow.Get(id).value)
      && |order| == |flow.list|
      && (forall i :: 0 <= i < |order| ==> order[i] == flow.list[i].id && order[i] in nodes)
    }

    ghost function State(): Session
      reads this
    {
      Session(current, menu, player, timer, stopped, replays, listening, prompts, clocks, players, timers,
              entered, completed)
    }

    constructor (flow: Flow)
      ensures this.flow == flow && Indexed() && State() == IDLE
    {
      this.flow := flow;
      current, menu, player, timer := None, None, None, None;
      stopped, replays, listening := false, 0, false;
      prompts, clocks, players, timers := map[], map[], 0, 0;
      entered, completed := [], [];
      var index, seen := map[], [];
      var i := 0;
      while i < |flow.list|
        invariant 0 <= i <= |flow.list|
        invariant forall id :: id in index <==> Find(flow.list[..i], id).Some?
        invariant forall id :: id in index ==> index[id] == Find(flow.list[..i], id).value
        invariant |seen| == i && forall k :: 0 <= k < i ==> seen[k] == flow.list[k].id && seen[k] in index
      {
        assert flow.list[..i + 1][..i] == flow.list[..i];
        index := index[flow.list[i].id := flow.list[i]];
        seen := seen + [flow.list[i].id];
        i := i + 1;
      }
      assert flow.list[..i] == flow.list;
      nodes, order := index, seen;
    }

    method FindNodeByKind(kind: NodeType) returns (found: Option<NodeId>)
      requires Indexed()
      ensures found == flow.FirstOfKind(kind)
    {
      var i := 0;
      while i < |order|
        invariant 0 <= i <= |order|
        invariant flow.FirstOfKind(kind) == flow.FirstFrom(i, kind)
      {
        if nodes[order[i]].kind == kind { return Some(order[i]); }
        i := i + 1;
      }
      return None;
    }

    method FindTarget(id: NodeId, handle: Option<string>) returns (target: Option<NodeId>)
      ensures target == FirstTarget(flow.edges, id, handle)
    {
      var i := 0;
      while i < |flow.edges|
        invariant 0 <= i <= |flow.edges|
        invariant FirstTarget(flow.edges, id, handle) == FirstTarget(flow.edges[i..], id, handle)
      {
        var e := flow.edges[i];
        if e.source == id && (handle.None? || e.handle == handle.value) { return Some(e.target); }
        assert flow.edges[i..][1..] == flow.edges[i + 1..];
        i := i + 1;
      }
      return None;
    }

    method Start()
      requires Indexed()
      modifies this
      ensures State() == Started(flow, old(State()))
    {
      var start := FindNodeByKind(StartNode);
      if start.None? {
        Complete(Error);
        return;
      }
      var first := FindTarget(start.value, None);
      if first.None? {
        Complete(Error);
        return;
      }
      listening := true;
      NavigateTo(first.value);
    }

    method StartAt(id: NodeId)
      requires Indexed()
      modifies this
      ensures State() == StartedAt(flow, old(State()), id)
    {
      if id !in nodes {
        Start();
        return;
      }
      stopped := false;
      listening := true;
      NavigateTo(id);
    }

    method Stop()
      modifies this
      ensures State() == Stopped(old(State()))
    {
      if stopped { return; }
      stopped := true;
      Clear();
      listening := false;
    }

    method NavigateTo(id: NodeId)
      requires Indexed()
      modifies this
      ensures State() == Navigated(flow, old(State()), id)
    {
      if stopped { return; }
      if id !in nodes {
        Complete(Error);
        return;
      }
      LeaveFor(id);
      Arrive(id, nodes[id].kind);
    }

    method LeaveFor(id: NodeId)
      modifies this
      ensures State() == Entered(old(State()), id)
    {
      Clear();
      MoveTo(id);
    }

    method MoveTo(id: NodeId)
      modifies this
      ensures State() == At(old(State()), id)
    {
      menu := None;
      if current != Some(id) { replays := 0; }
      current := Some(id);
      entered := entered + [id];
    }

    method Arrive(id: NodeId, kind: NodeType)
      modifies this
      ensures State() == Arrived(flow, old(State()), id, kind)
    {
      match kind {
        case Menu => EnterMenu(id);
        case Play => EnterPlay(id);
        case Transfer => Complete(Transferred(id));
        case Hangup => Complete(HungUp);
        case _ => Complete(Error);
      }
    }

    method EnterMenu(id: NodeId)
      modifies this
      ensures State() == var s := old(State());
        if id in flow.audible then Playing(s.(menu := Some(id), player := Some(s.players)), MenuPrompt(id))
        else ErrorThenHangup(flow, s)
    {
      if id !in flow.audible {
        PlayErrorAndHangup();
        return;
      }
      menu := Some(id);
      var p := PlayPrompted(MenuPrompt(id));
      player := Some(p);
    }

    method EnterPlay(id: NodeId)
      modifies this
      ensures State() == var s := old(State());
        if id in flow.audible then Playing(s.(player := Some(s.players)), PlayPrompt(id))
        else ErrorThenHangup(flow, s)
    {
      if id !in flow.audible {
        PlayErrorAndHangup();
        return;
      }
      var p := PlayPrompted(PlayPrompt(id));
      player := Some(p);
    }

    method PlayPrompted(purpose: Purpose) returns (p: PlayerId)
      modifies this
      ensures p == old(players) && State() == Playing(old(State()), purpose)
    {
      p := players;
      prompts, players := prompts[p := Prompt(purpose, false)], players + 1;
    }

    method OnPrompt(p: PlayerId, failed: bool)
      requires Indexed()
      modifies this
      ensures State() == Settled(flow, old(State()), p, failed)
    {
      if p !in prompts { return; }
      var prompt := prompts[p];
      prompts := prompts - {p};
      if stopped { return; }
      match prompt.purpose {
        case ErrorPrompt => Complete(HungUp);
        case MenuPrompt(node) =>
          if failed && !prompt.halted {
            PlayErrorAndHangup();
          } else if player == Some(p) {
            player := None;
            SetTimer(NoInput(node));
          }
        case PlayPrompt(node) =>
          if failed && !prompt.halted {
            PlayErrorAndHangup();
            return;
          }
          GoOn(node);
      }
    }

    method GoOn(node: NodeId)
      requires Indexed()
      modifies this
      ensures State() == Onwards(flow, old(State()), node)
    {
      var next := FindTarget(node, None);
      if next.Some? { NavigateTo(next.value); } else { Complete(HungUp); }
    }

    method OnDigit(digit: string)
      requires Indexed()
      modifies this
      ensures State() == Pressed(flow, old(State()), digit)
    {
      if !listening || menu.None? || stopped { return; }
      var target := FindTarget(menu.value, Some(digit));
      if target.None? || target.value == "" {
        target := None;
        if menu.value in nodes && digit in nodes[menu.value].digits {
          var legacy := nodes[menu.value].digits[digit];
          if legacy != "" && legacy in nodes { target := Some(legacy); }
        }
      }
      if target.Some? { NavigateTo(target.value); }
    }

    method OnTimer(c: TimerId)
      requires Indexed()
      modifies this
      ensures State() == Fired(flow, old(State()), c)
    {
      if c !in clocks { return; }
      var clock := clocks[c];
      clocks := clocks - {c};
      match clock {
        case NoInput(node) =>
          if !stopped { SetTimer(Grace(node)); }
        case Grace(node) =>
          timer := None;
          ExecuteTimeout(node);
      }
    }

    method ExecuteTimeout(id: NodeId)
      requires Indexed()
      modifies this
      ensures State() == TimedOutAt(flow, old(State()), id)
    {
      if stopped { return; }
      if id !in nodes || nodes[id].Replays() {
        Replay(id, OneMore(replays));
      } else {
        GiveUp();
      }
    }

    method Replay(id: NodeId, n: nat)
      requires Indexed()
      modifies this
      ensures State() == Replayed(flow, old(State()), id, n)
    {
      CountReplays(n);
      if n > MAX_REPLAYS { Complete(HungUp); } else { NavigateTo(id); }
    }

    method CountReplays(n: nat)
      modifies this
      ensures State() == Counted(old(State()), n)
    {
      replays := n;
    }

    method GiveUp()
      requires Indexed()
      modifies this
      ensures State() == GivenUp(flow, old(State()))
    {
      CountReplays(0);
      var hangup := FindNodeByKind(Hangup);
      if hangup.Some? { NavigateTo(hangup.value); } else { Complete(TimedOut); }
    }

    method SetTimer(clock: Clock)
      modifies this
      ensures State() == Armed(old(State()), clock)
    {
      timer, clocks, timers := Some(timers), clocks[timers := clock], timers + 1;
    }

    method Complete(action: Action)
      modifies this
      ensures State() == Completed(old(State()), action)
    {
      if stopped { return; }
      stopped := true;
      Clear();
      listening := false;
      completed := completed + [action];
    }

    method PlayErrorAndHangup()
      modifies this
      ensures State() == ErrorThenHangup(flow, old(State()))
    {
      Clear();
      listening := false;
      if !flow.errorAudio {
        Complete(HungUp);
        return;
      }
      var _ := PlayPrompted(ErrorPrompt);
    }

    method Clear()
      modifies this
      ensures State() == Cleared(old(State()))
    {
      ClearPlayer();
      ClearTimer();
    }

    method ClearPlayer()
      modifies this
      ensures State() == ClearedPlayer(old(State()))
    {
      if player.Some? {
        if player.value in prompts {
          prompts := prompts[player.value := prompts[player.value].(halted := true)];
        }
        player := None;
      }
    }

    method ClearTimer()
      modifies this
      ensures State() == ClearedTimer(old(State()))
    {
      if timer.Some? {
        clocks := clocks - {timer.value};
        timer := None;
      }
    }
  }
}
