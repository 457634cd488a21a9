/** The routing procedures of one worker, run without interleaving. */
module Coordinator {
  import opened CallTypes
  import opened OfferHistory
  import opened QueueOrder
  import opened QueueDrain
  import opened Tables
  import R = RowSteps

  const DRAIN_LIMIT: nat := 25
  const DRAIN_ATTEMPTS: nat := 3
  const SAFETY_NET_LIMIT: nat := 200

  /** What routing reads and writes: the rows, the stored order of the queue being
      routed, and the offer history. */
  datatype Routing = Routing(w: World, line: Line, history: History)

  // ---- What the procedures do ----

  /** What the history allows for each waiting call. */
  function OffersFor(h: History, calls: seq<CallId>, members: seq<Member>): (r: seq<seq<Member>>)
    requires DistinctIds(members)
    ensures |r| == |calls| && forall i | 0 <= i < |r| :: r[i] == Offerable(h.Of(calls[i]), members) && DistinctIds(r[i])
  {
    if calls == [] then [] else [Offerable(h.Of(calls[0]), members)] + OffersFor(h, calls[1..], members)
  }

  /** The history after looks at the first n calls. */
  function LookedAt(h: History, calls: seq<CallId>, n: nat, members: seq<Member>): History
    requires n <= |calls|
  {
    if n == 0 then h else LookedAt(h, calls, n - 1, members).Look(calls[n - 1], members)
  }

  /** How many calls a drain looks at: up to the one it gives away. */
  ghost predicate Looks(calls: seq<CallId>, given: Option<(CallId, AgentId)>, n: nat) {
    n <= |calls| && if given.Some? then n > 0 && calls[n - 1] == given.value.0 else n == |calls|
  }

  ghost predicate OffersMade(before: Routing, after: Routing, calls: seq<CallId>, members: seq<Member>,
                             strategy: Strategy,
                             now: Millis, time: Time, given: Option<(CallId, AgentId)>)
    requires DistinctIds(members)
  {
    var d := DrainCalls(before.w, before.line, strategy, now, time, calls, OffersFor(before.history, calls, members));
    && given == d.given && after.w == d.w && after.line == d.line
    && exists n :: Looks(calls, given, n) && after.history == LookedAt(before.history, calls, n, members)
  }

  /** One drain: nothing with no member available; else the oldest waiting calls
      are looked at in order until one can be given away. */
  ghost predicate DrainDone(before: Routing, after: Routing, queue: QueueId, roster: seq<(AgentId, nat)>,
                            strategy: Strategy,
                          now: Millis, time: Time, given: Option<(CallId, AgentId)>)
    requires DistinctIds(MembersOf(before.w, roster))
  {
    var members := MembersOf(before.w, roster);
    if !AnyAvailable(members) then after == before && given.None?
    else exists waiting ::
      && OldestWaiting(before.w, queue, 25, waiting)
      && OffersMade(before, after, waiting, members, strategy, now, time, given)
  }

  /** How a waiting call is routed: its queue is not active, rings everyone at
      once, or offers to one member at a time. */
  datatype Route = NoQueue | RingAll | OneAtATime(strategy: Strategy)

  /** Routing a waiting call. Ringing everyone changes no row: each of them accepts
      for themselves. */
  ghost predicate Routed(before: Routing, after: Routing, c: CallId, route: Route, queue: QueueId,
                         roster: seq<(AgentId, nat)>, now: Millis, time: Time)
    requires DistinctIds(MembersOf(before.w, roster))
  {
    match route
    case NoQueue => after == before
    case RingAll =>
      after == if c in before.w.calls
               then before.(history := before.history.Look(c, OnlyAvailable(MembersOf(before.w, roster))))
               else before
    case OneAtATime(strategy) => exists given :: DrainDone(before, after, queue, roster, strategy, now, time, given)
  }

  function OnlyAvailable(members: seq<Member>): seq<Member> {
    if members == [] then []
    else if IsAvailable(members[0]) then [members[0]] + OnlyAvailable(members[1..])
    else OnlyAvailable(members[1..])
  }

  lemma {:induction false} OnlyAvailableAre(members: seq<Member>, m: Member)
    ensures m in OnlyAvailable(members) <==> m in members && IsAvailable(m)
  {
    if members != [] {
      OnlyAvailableAre(members[1..], m);
      assert members == [members[0]] + members[1..];
    }
  }

  lemma RingableAreOnLine(w: World, roster: seq<(AgentId, nat)>, a: AgentId)
    ensures HasId(OnlyAvailable(MembersOf(w, roster)), a) <==> OnLine(w, roster, a)
  {
    var members := MembersOf(w, roster);
    AvailableAreOnLine(w, roster, a);
    forall m | m in members || m in OnlyAvailable(members)
      ensures m in OnlyAvailable(members) <==> m in members && IsAvailable(m)
    {
      OnlyAvailableAre(members, m);
    }
  }

  /** A RING_ALL queue rings exactly the members on the line who have not declined the
      call, and have not missed it either unless all of these have. */
  lemma RingAllRingsIff(w: World, p: Passed, roster: seq<(AgentId, nat)>, a: AgentId)
    ensures HasId(Offerable(p, OnlyAvailable(MembersOf(w, roster))), a) <==>
              && OnLine(w, roster, a) && a !in p.declined
              && (a in p.missed ==> forall b | OnLine(w, roster, b) && b !in p.declined :: b in p.missed)
  {
    var ringing := OnlyAvailable(MembersOf(w, roster));
    forall m | m in ringing
      ensures IsAvailable(m)
    {
      OnlyAvailableAre(MembersOf(w, roster), m);
    }
    forall b: AgentId
      ensures HasId(ringing, b) <==> OnLine(w, roster, b)
    {
      RingableAreOnLine(w, roster, b);
    }
    OfferableIdIff(p, ringing, a);
  }

  function Withdrawn(w: World, c: CallId, a: AgentId): World {
    R.Release(R.Put(w, c, if c in w.calls then Some(w.calls[c].(agent := None, offeredAt := None)) else None), a, c)
  }

  /** An offer passed on: withdrawn, recorded, its agent released. */
  function PassedOn(r: Routing, c: CallId, a: AgentId, kind: PassKind): Routing {
    Routing(Withdrawn(r.w, c, a), r.line, r.history.Record(c, a, kind))
  }

  /** A call in its overflow queue: whoever it rang released, its round over. */
  function MovedOn(r: Routing, c: CallId, ringing: Option<AgentId>): Routing {
    Routing(if ringing.Some? then R.Release(r.w, ringing.value, c) else r.w, r.line, r.history.ClearMissed(c))
  }

  /** The first n agents released from the calls that held them. */
  function ReleasedAll(w: World, held: seq<(AgentId, CallId)>, n: nat): World
    requires n <= |held|
  {
    if n == 0 then w else R.Release(ReleasedAll(w, held, n - 1), held[n - 1].0, held[n - 1].1)
  }

  /** The rows after a claim for the call, if somebody could be claimed. */
  function AfterClaim(w: World, agent: Option<AgentId>, c: CallId, time: Time): World {
    if agent.Some? then R.ClaimAndAssign(w, agent.value, c, false, time) else w
  }

  class AgentAssignmentCoordinator {
    const db: Database
    const history: OfferHistory
    const line: QueueOrder
    var last: Option<AgentId>

    constructor (db: Database, history: OfferHistory, line: QueueOrder)
      ensures this.db == db && this.history == history && this.line == line && last == None
    {
      this.db, this.history, this.line, last := db, history, line, None;
    }

    ghost function State(): Routing
      reads db, history, line
    {
      Routing(db.Rows(), line.Stored(), history.Stored())
    }

    /** Candidates in order until one can be claimed for the call. A call another
        worker has taken is found out by the first claim that gets its agent, and
        rolled back. */
    method ClaimInOrder(ids: seq<AgentId>, c: CallId, time: Time) returns (agent: Option<AgentId>, takenByAnother: bool)
      modifies db, this`last
      ensures takenByAnother <==> !Assignable(old(db.Rows()), c) && FirstFree(old(db.Rows()), ids).Some?
      ensures agent == if Assignable(old(db.Rows()), c) then FirstFree(old(db.Rows()), ids) else None
      ensures db.Rows() == AfterClaim(old(db.Rows()), agent, c, time)
      ensures last == if agent.Some? then agent else old(last)
    {
      takenByAnother := false;
      for i := 0 to |ids|
        invariant db.Rows() == old(db.Rows()) && last == old(last)
        invariant Assignable(old(db.Rows()), c) ==> !takenByAnother
        invariant Assignable(old(db.Rows()), c) ==>
                    FirstFree(old(db.Rows()), ids) == FirstFree(old(db.Rows()), ids[i..])
        invariant !Assignable(old(db.Rows()), c) ==>
                    (FirstFree(old(db.Rows()), ids).Some? <==>
                       takenByAnother || FirstFree(old(db.Rows()), ids[i..]).Some?)
      {
        var claimed, taken := db.ClaimAgentAndAssignCall(ids[i], c, false, time);
        if claimed && !taken { takenByAnother := true; }
        if taken {
          last := Some(ids[i]);
          return Some(ids[i]), takenByAnother;
        }
        assert ids[i..][1..] == ids[i + 1..];
      }
      agent := None;
    }

    method Pick(strategy: Strategy, c: CallId, members: seq<Member>, now: Millis, time: Time)
      returns (agent: Option<AgentId>, takenByAnother: bool)
      requires DistinctIds(members)
      modifies db, line, this`last
      ensures var (next, ids) := Candidates(strategy, old(line.Stored()), now, members);
              && line.Stored() == next
              && (takenByAnother <==> !Assignable(old(db.Rows()), c) && FirstFree(old(db.Rows()), ids).Some?)
              && agent == (if Assignable(old(db.Rows()), c) then FirstFree(old(db.Rows()), ids) else None)
              && db.Rows() == AfterClaim(old(db.Rows()), agent, c, time)
    {
      if strategy == Priority {
        agent, takenByAnother := ClaimInOrder(IdsOf(ByPriority(members)), c, time);
      } else if !AnyAvailable(members) {
        return None, false;
      } else {
        var ids := line.ReconcileQueueOrder(now, members);
        agent, takenByAnother := ClaimInOrder(ids, c, time);
      }
    }

    method ReadMembers(roster: seq<(AgentId, nat)>) returns (members: seq<Member>)
      ensures members == MembersOf(db.Rows(), roster)
    {
      members := [];
      var i := |roster|;
      while i > 0
        invariant 0 <= i <= |roster| && members == MembersOf(db.Rows(), roster[i..])
      {
        i := i - 1;
        var (a, priority) := roster[i];
        assert roster[i..][1..] == roster[i + 1..];
        if a in db.agents && !db.agents[a].deleted {
          members := [Member(a, db.agents[a].Reported(), priority)] + members;
        }
      }
    }

    /** One waiting call: offered to whom its history allows. */
    method OfferCall(c: CallId, members: seq<Member>, strategy: Strategy, now: Millis, time: Time)
      returns (agent: Option<AgentId>, takenByAnother: bool)
      requires DistinctIds(members) && Assignable(db.Rows(), c)
      modifies db, line, history, this`last
      ensures !takenByAnother
      ensures history.Stored() == old(history.Stored()).Look(c, members)
      ensures var (next, ids) := Candidates(strategy, old(line.Stored()), now,
                                            Offerable(old(history.Stored()).Of(c), members));
              && line.Stored() == next && agent == FirstFree(old(db.Rows()), ids)
              && db.Rows() == AfterClaim(old(db.Rows()), agent, c, time)
    {
      var eligible := history.Eligible(c, members);
      agent, takenByAnother := Pick(strategy, c, eligible, now, time);
    }

    /** The loop over the waiting calls. */
    method OfferCalls(calls: seq<CallId>, members: seq<Member>, strategy: Strategy, now: Millis, time: Time)
      returns (given: Option<(CallId, AgentId)>, raceLost: bool)
      requires DistinctIds(members)
      requires forall i, j | 0 <= i < j < |calls| :: calls[i] != calls[j]
      requires forall i | 0 <= i < |calls| :: Assignable(db.Rows(), calls[i])
      modifies db, line, history, this`last
      ensures !raceLost
      ensures OffersMade(old(State()), State(), calls, members, strategy, now, time, given)
    {
      ghost var w, h := db.Rows(), history.Stored();
      ghost var offers := OffersFor(h, calls, members);
      raceLost := false;
      for i := 0 to |calls|
        invariant db.Rows() == w && !raceLost
        invariant history.Stored() == LookedAt(h, calls, i, members)
        invariant DrainCalls(w, old(line.Stored()), strategy, now, time, calls, offers)
               == DrainCalls(w, line.Stored(), strategy, now, time, calls[i..], offers[i..])
      {
        assert calls[i..][1..] == calls[i + 1..] && offers[i..][1..] == offers[i + 1..];
        NotLookedAt(h, calls, i, members, calls[i]);
        var agent, takenByAnother := OfferCall(calls[i], members, strategy, now, time);
        if agent.Some? {
          assert Looks(calls, Some((calls[i], agent.value)), i + 1);
          return Some((calls[i], agent.value)), raceLost;
        }
        if takenByAnother { raceLost := true; }
      }
      given := None;
      assert Looks(calls, given, |calls|);
    }

    /** One attempt of a drain. Without interleaving no claim race is lost. */
    method DrainOnce(queue: QueueId, roster: seq<(AgentId, nat)>, strategy: Strategy, now: Millis, time: Time)
      returns (given: Option<(CallId, AgentId)>, raceLost: bool)
      requires DistinctIds(MembersOf(db.Rows(), roster))
      modifies db, line, history, this`last
      ensures !raceLost
      ensures DrainDone(old(State()), State(), queue, roster, strategy, now, time, given)
    {
      var members := ReadMembers(roster);
      given, raceLost := None, false;
      if AnyAvailable(members) {
        var calls := FindOldestUnassignedCalls(db, queue, DRAIN_LIMIT);
        given, raceLost := OfferCalls(calls, members, strategy, now, time);
      }
    }

    /** The drain: up to three attempts, a new one only after a lost race. */
    method DrainQueue(queue: QueueId, roster: seq<(AgentId, nat)>, strategy: Strategy, now: Millis, time: Time)
      returns (given: Option<(CallId, AgentId)>)
      requires DistinctRoster(roster)
      modifies db, line, history, this`last
      ensures DistinctIds(MembersOf(old(db.Rows()), roster))
      ensures DrainDone(old(State()), State(), queue, roster, strategy, now, time, given)
    {
      var attempt, again := 0, true;
      given := None;
      MembersAreDistinct(db.Rows(), roster);
      while attempt < DRAIN_ATTEMPTS && again
        invariant attempt <= DRAIN_ATTEMPTS && (attempt == 0 <==> again)
        invariant again ==> State() == old(State())
        invariant !again ==> DrainDone(old(State()), State(), queue, roster, strategy, now, time, given)
      {
        var raceLost;
        given, raceLost := DrainOnce(queue, roster, strategy, now, time);
        again := given.None? && raceLost;
        attempt := attempt + 1;
      }
    }

    // ---- Offers passing on ----

    /** Returns whether the call is offered to one member now, and whom it rings. */
    method RouteWaitingCall(c: CallId, route: Route, queue: QueueId, roster: seq<(AgentId, nat)>, now: Millis,
                            time: Time)
      returns (offered: bool, ringing: seq<Member>)
      requires DistinctRoster(roster)
      modifies db, line, history, this`last
      ensures DistinctIds(MembersOf(old(db.Rows()), roster))
      ensures Routed(old(State()), State(), c, route, queue, roster, now, time)
      ensures offered <==> route.OneAtATime? && c in db.calls && db.calls[c].agent.Some?
      ensures ringing == if route.RingAll? && c in db.calls
                         then Offerable(old(history.Stored()).Of(c), OnlyAvailable(MembersOf(old(db.Rows()), roster)))
                         else []
    {
      offered, ringing := false, [];
      MembersAreDistinct(db.Rows(), roster);
      match route {
        case NoQueue =>
        case RingAll =>
          if c in db.calls {
            var members := ReadMembers(roster);
            ringing := history.Eligible(c, OnlyAvailable(members));
          }
        case OneAtATime(strategy) =>
          var given := DrainQueue(queue, roster, strategy, now, time);
          offered := c in db.calls && db.calls[c].agent.Some?;
      }
    }

    /** An offer its agent declined, or let ring out: withdrawn, recorded, its agent
        released, and the call routed again. */
    method PassOffer(c: CallId, a: AgentId, kind: PassKind, expiredBefore: Option<Time>,
                     route: Route, queue: QueueId, roster: seq<(AgentId, nat)>, now: Millis, time: Time)
      returns (passed: bool)
      requires DistinctRoster(roster)
      modifies db, line, history, this`last
      ensures passed == R.Lift(old(db.Rows()), c, r => R.Withdraw(r, a, expiredBefore)).Some?
      ensures !passed ==> State() == old(State())
      ensures DistinctIds(MembersOf(PassedOn(old(State()), c, a, kind).w, roster))
      ensures passed ==> Routed(PassedOn(old(State()), c, a, kind), State(), c, route, queue, roster, now, time)
    {
      MembersAreDistinct(PassedOn(State(), c, a, kind).w, roster);
      passed := db.WithdrawOffer(c, a, expiredBefore);
      if !passed { return; }
      history.Record(c, a, kind);
      var released := db.ReleaseFromCall(a, c);
      assert State() == PassedOn(old(State()), c, a, kind);
      var offered, ringing := RouteWaitingCall(c, route, queue, roster, now, time);
    }

    /** The call has moved to its overflow queue: whoever it was ringing is released,
        every member may be offered it again, and it is routed there. */
    method CallOverflowed(c: CallId, ringing: Option<AgentId>,
                          route: Route, queue: QueueId, roster: seq<(AgentId, nat)>, now: Millis, time: Time)
      requires DistinctRoster(roster)
      modifies db, line, history, this`last
      ensures DistinctIds(MembersOf(MovedOn(old(State()), c, ringing).w, roster))
      ensures Routed(MovedOn(old(State()), c, ringing), State(), c, route, queue, roster, now, time)
    {
      MembersAreDistinct(MovedOn(State(), c, ringing).w, roster);
      if ringing.Some? { var released := db.ReleaseFromCall(ringing.value, c); }
      history.ClearMissed(c);
      assert State() == MovedOn(old(State()), c, ringing);
      var offered, rung := RouteWaitingCall(c, route, queue, roster, now, time);
    }

    // ---- Safety net ----

    /** One pass: frees up to 200 agents held by calls that are over or gone, and
        nobody held by a live call. */
    method ReleaseAgentsOfEndedCalls() returns (found: nat, ghost held: seq<(AgentId, CallId)>)
      modifies db
      ensures found == |held|
      ensures HeldByEnded(old(db.Rows()), held, AgentsOf(held))
      ensures db.Rows() == ReleasedAll(old(db.Rows()), held, |held|)
      ensures var all := |Stranded(old(db.Rows()))|;
              found == if all <= 200 then all else 200
      ensures Stranded(db.Rows()) <= Stranded(old(db.Rows()))
      ensures |Stranded(db.Rows())| == |Stranded(old(db.Rows()))| - found
      ensures db.calls == old(db.calls)
      ensures forall c, a | old(db.Rows()).ActiveCall(c) :: db.Rows().Holds(c, a) == old(db.Rows()).Holds(c, a)
    {
      var rows := db.FindHeldByEndedCalls(SAFETY_NET_LIMIT);
      held, found := rows, |rows|;
      AgentsOfHeld(db.Rows(), rows);
      ReleasedAllFrees(db.Rows(), rows, |rows|);
      ReleaseAll(rows);
    }

    method ReleaseAll(rows: seq<(AgentId, CallId)>)
      modifies db
      ensures db.Rows() == ReleasedAll(old(db.Rows()), rows, |rows|)
    {
      for i := 0 to |rows|
        invariant db.Rows() == ReleasedAll(old(db.Rows()), rows, i)
      {
        var released := db.ReleaseFromCall(rows[i].0, rows[i].1);
      }
    }

    /** Passes of the cleanup loop with no new strandings in between: enough of
        them leave nobody stranded. */
    method CleanupPasses(passes: nat)
      modifies db
      ensures 200 * passes >= |Stranded(old(db.Rows()))| ==> Stranded(db.Rows()) == {}
      ensures forall c, a | old(db.Rows()).ActiveCall(c) :: db.Rows().Holds(c, a) == old(db.Rows()).Holds(c, a)
    {
      for i := 0 to passes
        invariant db.calls == old(db.calls)
        invariant |Stranded(db.Rows())| <= if |Stranded(old(db.Rows()))| >= SAFETY_NET_LIMIT * i
                                           then |Stranded(old(db.Rows()))| - SAFETY_NET_LIMIT * i else 0
        invariant forall c, a | old(db.Rows()).ActiveCall(c) :: db.Rows().Holds(c, a) == old(db.Rows()).Holds(c, a)
      {
        var found, _ := ReleaseAgentsOfEndedCalls();
      }
    }
  }

  function AgentsOf(held: seq<(AgentId, CallId)>): set<AgentId> { set h | h in held :: h.0 }

  lemma {:induction false} AgentsOfHeld(w: World, held: seq<(AgentId, CallId)>)
    requires forall i | 0 <= i < |held| :: w.Holds(held[i].1, held[i].0) && !w.ActiveCall(held[i].1)
    requires forall i, j | 0 <= i < j < |held| :: held[i].0 != held[j].0
    ensures HeldByEnded(w, held, AgentsOf(held))
  {
    if held != [] {
      var n := |held| - 1;
      AgentsOfHeld(w, held[..n]);
      assert held == held[..n] + [held[n]];
      assert AgentsOf(held) == AgentsOf(held[..n]) + {held[n].0};
    }
  }

  /** The releases free the agents found, and nobody held by a live call. */
  lemma {:induction false} ReleasedAllFrees(w: World, held: seq<(AgentId, CallId)>, n: nat)
    requires HeldByEnded(w, held, AgentsOf(held)) && n <= |held|
    ensures var r := ReleasedAll(w, held, n);
            && r.calls == w.calls
            && Stranded(r) <= Stranded(w) && |Stranded(r)| == |Stranded(w)| - n
            && (forall j | n <= j < |held| :: r.Holds(held[j].1, held[j].0))
            && (forall c, a | w.ActiveCall(c) :: r.Holds(c, a) == w.Holds(c, a))
  {
    if n > 0 {
      ReleasedAllFrees(w, held, n - 1);
      ReleasedOne(ReleasedAll(w, held, n - 1), held[n - 1].0, held[n - 1].1);
    }
  }

  lemma ReleasedOne(w: World, a: AgentId, c: CallId)
    requires w.Holds(c, a) && !w.ActiveCall(c)
    ensures var r := R.Release(w, a, c);
            && r.calls == w.calls && Stranded(r) == Stranded(w) - {a} && a in Stranded(w)
            && forall d, b :: r.Holds(d, b) == (w.Holds(d, b) && b != a)
  {
  }

  /** A call not looked at yet has the sets it had. */
  lemma {:induction false} NotLookedAt(h: History, calls: seq<CallId>, n: nat, members: seq<Member>, c: CallId)
    requires n <= |calls| && forall i | 0 <= i < n :: calls[i] != c
    ensures LookedAt(h, calls, n, members).Of(c) == h.Of(c)
  {
    if n > 0 {
      NotLookedAt(h, calls, n - 1, members, c);
      LookIsAfterLook(LookedAt(h, calls, n - 1, members), calls[n - 1], members, c);
    }
  }

  // ---- Whom a drain serves ----

  /** The call a drain gives away goes to a member its history allows who comes
      first: by the order stored with it nobody ahead of them, or by priority and
      id nobody before them, is available, allowed and free to be claimed. */
  lemma DrainGivesToTheFirst(before: Routing, after: Routing, queue: QueueId, roster: seq<(AgentId, nat)>,
                             strategy: Strategy, now: Millis, time: Time, c: CallId, a: AgentId)
    requires DistinctIds(MembersOf(before.w, roster))
    requires DrainDone(before, after, queue, roster, strategy, now, time, Some((c, a)))
    ensures var allowed := Offerable(before.history.Of(c), MembersOf(before.w, roster));
            Servable(before.w, allowed, a) && ServedFirst(before.w, after.line, strategy, allowed, a)
  {
    var members := MembersOf(before.w, roster);
    var waiting :| OldestWaiting(before.w, queue, DRAIN_LIMIT, waiting)
      && OffersMade(before, after, waiting, members, strategy, now, time, Some((c, a)));
    OffersServeFirst(before, after, waiting, members, strategy, now, time, c, a);
  }

  lemma OffersServeFirst(before: Routing, after: Routing, calls: seq<CallId>, members: seq<Member>, strategy: Strategy,
                         now: Millis, time: Time, c: CallId, a: AgentId)
    requires DistinctIds(members) && OffersMade(before, after, calls, members, strategy, now, time, Some((c, a)))
    ensures var allowed := Offerable(before.history.Of(c), members);
            Servable(before.w, allowed, a) && ServedFirst(before.w, after.line, strategy, allowed, a)
  {
    var offers := OffersFor(before.history, calls, members);
    DrainServesFirst(before.w, before.line, strategy, now, time, calls, offers);
    var k: nat :| Serves(before.w, after.line, strategy, calls, offers, k, c, a);
  }

  // ---- What passing on guarantees ----

  /** However a call is routed after an agent declined it, it is not given back to
      them. */
  lemma DeclinedGoesToAnother(before: Routing, after: Routing, c: CallId, a: AgentId, expiredBefore: Option<Time>,
                              route: Route, queue: QueueId, roster: seq<(AgentId, nat)>, now: Millis, time: Time)
    requires c in before.w.calls && R.Withdraw(before.w.calls[c], a, expiredBefore).Some?
    requires DistinctIds(MembersOf(PassedOn(before, c, a, Declined).w, roster))
    requires Routed(PassedOn(before, c, a, Declined), after, c, route, queue, roster, now, time)
    ensures c in after.w.calls && after.w.calls[c].agent != Some(a)
  {
    var mid := PassedOn(before, c, a, Declined);
    if route.OneAtATime? {
      var given :| DrainDone(mid, after, queue, roster, route.strategy, now, time, given);
      DrainSkipsDecliner(mid, after, c, a, queue, roster, route.strategy, now, time, given);
    }
  }

  lemma DrainSkipsDecliner(before: Routing, after: Routing, c: CallId, a: AgentId, queue: QueueId,
                           roster: seq<(AgentId, nat)>, strategy: Strategy, now: Millis, time: Time,
                           given: Option<(CallId, AgentId)>)
    requires c in before.w.calls && before.w.calls[c].agent.None? && a in before.history.Of(c).declined
    requires DistinctIds(MembersOf(before.w, roster))
    requires DrainDone(before, after, queue, roster, strategy, now, time, given)
    ensures c in after.w.calls && after.w.calls[c].agent != Some(a)
  {
    var members := MembersOf(before.w, roster);
    if AnyAvailable(members) {
      var waiting :| OldestWaiting(before.w, queue, DRAIN_LIMIT, waiting)
        && OffersMade(before, after, waiting, members, strategy, now, time, given);
      OffersSkipDecliner(before, after, c, a, waiting, members, strategy, now, time, given);
    }
  }

  lemma OffersSkipDecliner(before: Routing, after: Routing, c: CallId, a: AgentId, calls: seq<CallId>,
                           members: seq<Member>, strategy: Strategy, now: Millis, time: Time,
                           given: Option<(CallId, AgentId)>)
    requires c in before.w.calls && before.w.calls[c].agent.None? && a in before.history.Of(c).declined
    requires DistinctIds(members) && OffersMade(before, after, calls, members, strategy, now, time, given)
    ensures c in after.w.calls && after.w.calls[c].agent != Some(a)
  {
    GivenIsOfferable(before, after, calls, members, strategy, now, time, given);
    NeverTheDecliner(before.history.Of(c), members, a);
  }

  lemma NeverTheDecliner(p: Passed, members: seq<Member>, a: AgentId)
    requires a in p.declined
    ensures forall m | m in Offerable(p, members) :: m.id != a
  {
  }

  /** A drain gives away a call to a member it may be offered to, and changes no
      other call. */
  lemma GivenIsOfferable(before: Routing, after: Routing, calls: seq<CallId>, members: seq<Member>, strategy: Strategy,
                         now: Millis, time: Time, given: Option<(CallId, AgentId)>)
    requires DistinctIds(members) && OffersMade(before, after, calls, members, strategy, now, time, given)
    ensures given.None? ==> after.w == before.w
    ensures given.Some? ==>
              && after.w == R.ClaimAndAssign(before.w, given.value.1, given.value.0, false, time)
              && exists m :: m in Offerable(before.history.Of(given.value.0), members) && m.id == given.value.1
  {
    var k := FirstFit(before.w, before.line, strategy, now, time, calls, OffersFor(before.history, calls, members));
  }
}
