/** What holds of an IVR session under any order of digits, prompt ends, timers
    and a stop. */
module IvrSafety {
  import opened CallTypes
  import opened IvrFlow
  import opened IvrEngine

  datatype Event =
    | Digit(digit: string)
    | PromptEnds(player: PlayerId, failed: bool)
    | TimerFires(timer: TimerId)
    | Hangup

  function Next(flow: Flow, s: Session, e: Event): Session {
    match e
    case Digit(digit) => Pressed(flow, s, digit)
    case PromptEnds(p, failed) => Settled(flow, s, p, failed)
    case TimerFires(c) => Fired(flow, s, c)
    case Hangup => Stopped(s)
  }

  function RunAll(flow: Flow, s: Session, events: seq<Event>): Session
    decreases |events|
  {
    if events == [] then s else RunAll(flow, Next(flow, s, events[0]), events[1..])
  }

  /** Every other prompt still pending is an old menu prompt, already halted. */
  ghost predicate OnlyStale(s: Session, except: Option<PlayerId>) {
    forall p :: p in s.prompts && Some(p) != except ==> s.prompts[p].halted && s.prompts[p].purpose.MenuPrompt?
  }

  /** A node's prompt is playing: the menu's, or the play node's. */
  ghost predicate Prompting(flow: Flow, s: Session, p: PlayerId) {
    && s.player == Some(p) && s.timer.None? && s.clocks == map[] && s.listening
    && p in s.prompts && !s.prompts[p].halted && OnlyStale(s, Some(p))
    && match s.prompts[p].purpose
       case MenuPrompt(node) => flow.AudioMenu(node) && s.current == Some(node) && s.menu == Some(node)
       case PlayPrompt(node) => flow.AudioPlay(node) && s.current == Some(node) && s.menu.None?
       case ErrorPrompt => false
  }

  /** The current menu's no-input timer, or the grace period after it, runs. */
  ghost predicate Timing(flow: Flow, s: Session, c: TimerId) {
    && s.player.None? && s.timer == Some(c) && s.clocks.Keys == {c} && s.listening && OnlyStale(s, None)
    && flow.AudioMenu(s.clocks[c].node) && s.current == Some(s.clocks[c].node) && s.menu == s.current
  }

  /** The error prompt is playing; digits are no longer heard. */
  ghost predicate Apologising(s: Session, p: PlayerId) {
    && s.player.None? && s.timer.None? && s.clocks == map[] && !s.listening
    && p in s.prompts && s.prompts[p] == Prompt(ErrorPrompt, false) && OnlyStale(s, Some(p))
  }

  ghost predicate Numbered(s: Session) {
    && (forall p :: p in s.prompts ==> p < s.players)
    && (forall c :: c in s.clocks ==> c < s.timers)
  }

  /** The session waits for exactly one thing. */
  ghost predicate Waits(flow: Flow, s: Session) {
    || (s.player.Some? && Prompting(flow, s, s.player.value))
    || (s.timer.Some? && Timing(flow, s, s.timer.value))
    || exists p :: Apologising(s, p)
  }

  ghost predicate Quiet(s: Session) {
    s.stopped && s.player.None? && s.timer.None? && s.clocks == map[] && !s.listening && |s.completed| <= 1
  }

  ghost predicate Inv(flow: Flow, s: Session) {
    && Numbered(s)
    && (Quiet(s) || (!s.stopped && s.completed == [] && s.replays <= MAX_REPLAYS && Waits(flow, s)))
  }

  /** An engine between two waits: nothing lives that a new node would orphan
      except through `player` and `timer`. */
  ghost predicate Between(s: Session) {
    && Live(s) && s.replays <= MAX_REPLAYS && OnlyStale(s, s.player)
    && (s.player.Some? && s.player.value in s.prompts ==> s.prompts[s.player.value].purpose.MenuPrompt?)
  }

  /** Not over, and no clock runs but the armed one. */
  ghost predicate Live(s: Session) {
    && Numbered(s) && !s.stopped && s.completed == []
    && (s.timer.None? ==> s.clocks == map[])
    && (s.timer.Some? ==> s.clocks.Keys <= {s.timer.value})
  }

  lemma ClearedIsLive(s: Session)
    requires Live(s)
    ensures var t := Cleared(s);
            Live(t) && t.player.None? && t.timer.None? && t.clocks == map[]
  {}

  lemma CompletedIsQuiet(s: Session, action: Action)
    requires Live(s)
    ensures Quiet(Completed(s, action)) && Numbered(Completed(s, action)) && Completed(s, action).completed == [action]
  {
    ClearedIsLive(s);
    StoppedIsCleared(s);
  }

  lemma StoppedIsCleared(s: Session)
    requires !s.stopped
    ensures Stopped(s) == Cleared(s).(stopped := true, listening := false)
  {
    var t := s.(stopped := true);
    assert ClearedPlayer(t) == ClearedPlayer(s).(stopped := true);
    assert ClearedTimer(ClearedPlayer(t)) == ClearedTimer(ClearedPlayer(s)).(stopped := true);
  }

  lemma ErrorThenWaits(flow: Flow, s: Session)
    requires Between(s)
    ensures Inv(flow, ErrorThenHangup(flow, s))
  {
    ClearedIsBetween(s);
    var t := Cleared(s).(listening := false);
    if flow.errorAudio { ErrorPlays(flow, t); } else { CompletedIsQuiet(t, HungUp); }
  }

  lemma ClearedIsBetween(s: Session)
    requires Between(s)
    ensures var t := Cleared(s);
            && Between(t) && t.player.None? && t.timer.None?
            && t == s.(player := None, timer := None, prompts := t.prompts, clocks := t.clocks)
  {
    ClearedIsLive(s);
  }

  lemma ErrorPlays(flow: Flow, s: Session)
    requires Between(s) && s.player.None? && s.timer.None? && !s.listening
    ensures Inv(flow, Playing(s, ErrorPrompt))
  {
    assert Apologising(Playing(s, ErrorPrompt), s.players);
  }

  lemma NavigatedWaits(flow: Flow, s: Session, id: NodeId)
    requires Between(s) && s.listening
    ensures Inv(flow, Navigated(flow, s, id))
  {
    if flow.Get(id).None? {
      CompletedIsQuiet(s, Error);
    } else {
      EnteredIsBetween(s, id);
      ArrivedWaits(flow, Entered(s, id), id, flow.Get(id).value.kind);
    }
  }

  lemma EnteredIsBetween(s: Session, id: NodeId)
    requires Between(s)
    ensures var t := Entered(s, id);
            && Between(t) && t.listening == s.listening && t.players == s.players
            && t.player.None? && t.timer.None? && t.menu.None? && t.current == Some(id)
            && t.replays == if s.current == Some(id) then s.replays else 0
  {
    ClearedIsBetween(s);
    MovedIsBetween(Cleared(s), id);
  }

  lemma MovedIsBetween(s: Session, id: NodeId)
    requires Between(s) && s.player.None? && s.timer.None?
    ensures Between(At(s, id))
  {}

  lemma ArrivedWaits(flow: Flow, s: Session, id: NodeId, kind: NodeType)
    requires Between(s) && s.listening && s.player.None? && s.timer.None? && s.menu.None? && s.current == Some(id)
    requires flow.Get(id).Some? && flow.Get(id).value.kind == kind
    ensures Inv(flow, Arrived(flow, s, id, kind))
  {
    var r := Arrived(flow, s, id, kind);
    if kind in {Menu, Play} {
      if id in flow.audible {
        assert Prompting(flow, r, s.players);
      } else {
        ErrorThenWaits(flow, s);
      }
    }
  }

  lemma StartedWaits(flow: Flow, id: NodeId)
    ensures Inv(flow, Started(flow, IDLE)) && Inv(flow, StartedAt(flow, IDLE, id))
  {
    var s := IDLE.(listening := true);
    assert Between(IDLE) && Between(s);
    match flow.FirstOfKind(StartNode) {
      case None =>
      case Some(start) =>
        if flow.Out(start).Some? { NavigatedWaits(flow, s, flow.Out(start).value); }
    }
    if flow.Get(id).Some? { NavigatedWaits(flow, s, id); }
  }

  lemma PressedKeeps(flow: Flow, s: Session, digit: string)
    requires Inv(flow, s)
    ensures Inv(flow, Pressed(flow, s, digit))
  {
    if Pressed(flow, s, digit) != s {
      WaitsBetween(flow, s);
      NavigatedWaits(flow, s, flow.Route(s.menu.value, digit).value);
    }
  }

  lemma WaitsBetween(flow: Flow, s: Session)
    requires Inv(flow, s) && !s.stopped && s.listening && s.menu.Some?
    ensures Between(s)
  {}

  lemma SettledKeeps(flow: Flow, s: Session, p: PlayerId, failed: bool)
    requires Inv(flow, s)
    ensures Inv(flow, Settled(flow, s, p, failed))
  {
    if p in s.prompts && !s.stopped {
      var t := s.(prompts := s.prompts - {p});
      if s.player == Some(p) {
        AwaitedEnds(flow, s, p, failed);
      } else if s.prompts[p].purpose.ErrorPrompt? {
        assert Between(t);
        CompletedIsQuiet(t, HungUp);
      } else {
        StaleKeeps(flow, s, p);
      }
    }
  }

  lemma StaleKeeps(flow: Flow, s: Session, p: PlayerId)
    requires Inv(flow, s) && !s.stopped && p in s.prompts && s.prompts[p].halted
    ensures Inv(flow, s.(prompts := s.prompts - {p}))
  {
    var t := s.(prompts := s.prompts - {p});
    if q :| Apologising(s, q) { assert Apologising(t, q); }
  }

  /** The prompt that is awaited ends. */
  lemma AwaitedEnds(flow: Flow, s: Session, p: PlayerId, failed: bool)
    requires Inv(flow, s) && !s.stopped && s.player == Some(p) && p in s.prompts
    ensures Inv(flow, Settled(flow, s, p, failed))
  {
    assert Prompting(flow, s, p);
    var t := s.(prompts := s.prompts - {p});
    assert Between(t);
    match s.prompts[p].purpose
    case MenuPrompt(node) =>
      if failed { ErrorThenWaits(flow, t); } else { ArmedWaits(flow, t.(player := None), NoInput(node)); }
    case PlayPrompt(node) =>
      if failed {
        ErrorThenWaits(flow, t);
      } else if flow.Out(node).Some? {
        NavigatedWaits(flow, t, flow.Out(node).value);
      } else {
        CompletedIsQuiet(t, HungUp);
      }
  }

  lemma ArmedWaits(flow: Flow, s: Session, clock: Clock)
    requires Between(s) && s.clocks == map[] && s.player.None? && s.listening && OnlyStale(s, None)
    requires flow.AudioMenu(clock.node) && s.current == Some(clock.node) && s.menu == s.current
    ensures Inv(flow, Armed(s, clock))
  {
    assert Timing(flow, Armed(s, clock), s.timers);
  }

  lemma FiredKeeps(flow: Flow, s: Session, c: TimerId)
    requires Inv(flow, s)
    ensures Inv(flow, Fired(flow, s, c))
  {
    if c in s.clocks {
      assert Timing(flow, s, c);
      var t := s.(clocks := s.clocks - {c});
      assert t.clocks == map[];
      match s.clocks[c]
      case NoInput(node) => ArmedWaits(flow, t, Grace(node));
      case Grace(node) => TimeoutKeeps(flow, t.(timer := None), node);
    }
  }

  lemma TimeoutKeeps(flow: Flow, s: Session, id: NodeId)
    requires Between(s) && s.listening
    ensures Inv(flow, TimedOutAt(flow, s, id))
  {
    if flow.Get(id).None? || flow.Get(id).value.Replays() {
      ReplayedKeeps(flow, s, id, OneMore(s.replays));
    } else {
      GivenUpKeeps(flow, s);
    }
  }

  lemma CountedIsBetween(s: Session, n: nat)
    requires Between(s)
    ensures Live(Counted(s, n)) && (n <= MAX_REPLAYS ==> Between(Counted(s, n)))
  {}

  lemma ReplayedKeeps(flow: Flow, s: Session, id: NodeId, n: nat)
    requires Between(s) && s.listening
    ensures Inv(flow, Replayed(flow, s, id, n))
  {
    CountedIsBetween(s, n);
    if n > MAX_REPLAYS { CompletedIsQuiet(Counted(s, n), HungUp); } else { NavigatedWaits(flow, Counted(s, n), id); }
  }

  lemma GivenUpKeeps(flow: Flow, s: Session)
    requires Between(s) && s.listening
    ensures Inv(flow, GivenUp(flow, s))
  {
    var t := Counted(s, 0);
    CountedIsBetween(s, 0);
    match flow.FirstOfKind(NodeType.Hangup)
    case None => CompletedIsQuiet(t, TimedOut);
    case Some(hangup) => NavigatedWaits(flow, t, hangup);
  }

  lemma NextKeeps(flow: Flow, s: Session, e: Event)
    requires Inv(flow, s)
    ensures Inv(flow, Next(flow, s, e))
  {
    match e
    case Digit(digit) => PressedKeeps(flow, s, digit);
    case PromptEnds(p, failed) => SettledKeeps(flow, s, p, failed);
    case TimerFires(c) => FiredKeeps(flow, s, c);
    case Hangup =>
  }

  lemma {:induction false} RunKeeps(flow: Flow, s: Session, events: seq<Event>)
    requires Inv(flow, s)
    ensures Inv(flow, RunAll(flow, s, events))
    decreases |events|
  {
    if events != [] {
      NextKeeps(flow, s, events[0]);
      RunKeeps(flow, Next(flow, s, events[0]), events[1..]);
    }
  }

  // ---- Main results: any run, however its events are ordered ----

  /** What a session that is not over may still react to. */
  predicate Awaited(s: Session, e: Event) {
    match e
    case PromptEnds(p, _) => p in s.prompts && (s.player == Some(p) || s.prompts[p].purpose.ErrorPrompt?)
    case TimerFires(c) => c in s.clocks
    case _ => false
  }

  /** A player and a timer are never both live, a live timer is the armed one and
      belongs to the current menu, the engine completes at most once, and until
      then something is awaited. */
  lemma RunIsSound(flow: Flow, start: Session, events: seq<Event>)
    requires start == Started(flow, IDLE) || exists id :: start == StartedAt(flow, IDLE, id)
    ensures var s := RunAll(flow, start, events);
            && |s.completed| <= 1
            && (s.stopped ==> s.player.None? && s.clocks == map[] && !s.listening)
            && (s.player.Some? ==>
                  s.clocks == map[] && s.player.value in s.prompts && !s.prompts[s.player.value].halted)
            && (forall c :: c in s.clocks ==>
                  s.timer == Some(c) && s.menu == Some(s.clocks[c].node) && s.current == s.menu)
            && (!s.stopped ==> s.completed == [] && exists e :: Awaited(s, e))
  {
    var s := RunAll(flow, start, events);
    StartedIsInv(flow, start);
    RunKeeps(flow, start, events);
    if !s.stopped { SomethingIsAwaited(flow, s); }
  }

  lemma StartedIsInv(flow: Flow, start: Session)
    requires start == Started(flow, IDLE) || exists id :: start == StartedAt(flow, IDLE, id)
    ensures Inv(flow, start)
  {
    if id :| start == StartedAt(flow, IDLE, id) { StartedWaits(flow, id); }
    StartedWaits(flow, "");
  }

  lemma SomethingIsAwaited(flow: Flow, s: Session)
    requires Inv(flow, s) && !s.stopped
    ensures exists e :: Awaited(s, e)
  {
    if s.player.Some? && Prompting(flow, s, s.player.value) {
      assert Awaited(s, PromptEnds(s.player.value, false));
    } else if s.timer.Some? && Timing(flow, s, s.timer.value) {
      assert Awaited(s, TimerFires(s.timer.value));
    } else {
      var p :| Apologising(s, p);
      assert Awaited(s, PromptEnds(p, false));
    }
  }

  /** The end of any prompt but the awaited one changes nothing, and neither does
      anything once the session is over. */
  lemma StaleIsInert(flow: Flow, start: Session, events: seq<Event>, e: Event)
    requires start == Started(flow, IDLE) || exists id :: start == StartedAt(flow, IDLE, id)
    requires var s := RunAll(flow, start, events);
             s.stopped || (!Awaited(s, e) && !e.Digit? && !e.Hangup?)
    ensures var s := RunAll(flow, start, events);
            Next(flow, s, e) == s.(prompts := Next(flow, s, e).prompts)
  {
    StartedIsInv(flow, start);
    RunKeeps(flow, start, events);
    InertIn(flow, RunAll(flow, start, events), e);
  }

  lemma InertIn(flow: Flow, s: Session, e: Event)
    requires Inv(flow, s) && (s.stopped || (!Awaited(s, e) && !e.Digit? && !e.Hangup?))
    ensures Next(flow, s, e) == s.(prompts := Next(flow, s, e).prompts)
  {}

  /** At most one awaited event is there at a time, up to how a prompt ends. */
  lemma OneThingAwaited(flow: Flow, s: Session, e: Event, f: Event)
    requires Inv(flow, s) && !s.stopped && Awaited(s, e) && Awaited(s, f)
    ensures e == f || (e.PromptEnds? && f.PromptEnds? && e.player == f.player)
  {}
}
