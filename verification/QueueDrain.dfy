/** Draining a queue without interleaving: which waiting call gets which member. */
module QueueDrain {
  import opened CallTypes
  import opened OfferHistory
  import opened QueueOrder
  import opened RowLaws
  import opened Tables
  import R = RowSteps

  datatype Strategy = RoundRobin | Priority

  // ---- Reads ----

  /** The queue's members with their reported status, in the order of the rows
      (priority, then agent id). */
  function MembersOf(w: World, roster: seq<(AgentId, nat)>): seq<Member> {
    if roster == [] then []
    else
      var (a, priority) := roster[0];
      var rest := MembersOf(w, roster[1..]);
      if a in w.agents && !w.agents[a].deleted then [Member(a, w.agents[a].Reported(), priority)] + rest else rest
  }

  ghost predicate DistinctRoster(roster: seq<(AgentId, nat)>) {
    forall i, j | 0 <= i < j < |roster| :: roster[i].0 != roster[j].0
  }

  lemma {:induction false} MembersAreDistinct(w: World, roster: seq<(AgentId, nat)>)
    requires DistinctRoster(roster)
    ensures DistinctIds(MembersOf(w, roster))
    ensures forall m | m in MembersOf(w, roster) :: exists k :: 0 <= k < |roster| && roster[k].0 == m.id
  {
    if roster != [] {
      MembersAreDistinct(w, roster[1..]);
      var rest := MembersOf(w, roster[1..]);
      forall m | m in rest
        ensures m.id != roster[0].0 && exists k :: 0 <= k < |roster| && roster[k].0 == m.id
      {
        var k :| 0 <= k < |roster[1..]| && roster[1..][k].0 == m.id;
        assert roster[k + 1].0 == m.id;
      }
      assert forall i | 0 <= i < |rest| :: rest[i] in rest;
    }
  }

  /** A member of the queue who can be offered calls: not deleted, on no call and on
      shift. */
  ghost predicate OnLine(w: World, roster: seq<(AgentId, nat)>, a: AgentId) {
    && (exists k :: 0 <= k < |roster| && roster[k].0 == a)
    && a in w.agents && !w.agents[a].deleted && w.agents[a].busy == None && w.agents[a].shift in {Available, OnCall}
  }

  /** The members read as available are those, with the priority of their row. */
  lemma {:induction false} AvailableAreOnLine(w: World, roster: seq<(AgentId, nat)>, a: AgentId)
    ensures (exists m :: m in MembersOf(w, roster) && m.id == a && IsAvailable(m)) <==> OnLine(w, roster, a)
    ensures forall m | m in MembersOf(w, roster) :: (m.id, m.priority) in roster
  {
    if roster != [] {
      var rest := roster[1..];
      AvailableAreOnLine(w, rest, a);
      assert roster == [roster[0]] + rest;
      if roster[0].0 == a {
        var m := Member(a, if a in w.agents then w.agents[a].Reported() else Offline, roster[0].1);
        assert OnLine(w, roster, a) ==> m in MembersOf(w, roster) && IsAvailable(m);
      }
    }
  }

  function WaitingIn(w: World, queue: QueueId): set<CallId> {
    set c | c in w.calls && w.calls[c].queue == Some(queue) && w.calls[c].Waiting()
  }

  /** The scan: up to `limit` waiting calls, longest ringing first. */
  ghost predicate OldestWaiting(w: World, queue: QueueId, limit: nat, calls: seq<CallId>) {
    && (forall i | 0 <= i < |calls| :: calls[i] in WaitingIn(w, queue))
    && (forall i, j | 0 <= i < j < |calls| ::
          calls[i] != calls[j] && w.calls[calls[i]].ringingAt <= w.calls[calls[j]].ringingAt)
    && (forall c, i | c in WaitingIn(w, queue) && c !in calls && 0 <= i < |calls| ::
          w.calls[calls[i]].ringingAt <= w.calls[c].ringingAt)
    && |calls| == if |WaitingIn(w, queue)| <= limit then |WaitingIn(w, queue)| else limit
  }

  lemma {:induction false} EarliestExists(w: World, s: set<CallId>) returns (c: CallId)
    requires s != {} && s <= w.calls.Keys
    ensures c in s && forall d | d in s :: w.calls[c].ringingAt <= w.calls[d].ringingAt
  {
    c :| c in s;
    if s != {c} {
      var d := EarliestExists(w, s - {c});
      if w.calls[d].ringingAt < w.calls[c].ringingAt { c := d; }
    }
  }

  /** The calls picked so far, longest ringing first, and the waiting ones left. */
  ghost predicate Picked(w: World, calls: seq<CallId>, rest: set<CallId>) {
    && rest <= w.calls.Keys && (forall i | 0 <= i < |calls| :: calls[i] in w.calls && calls[i] !in rest)
    && (forall i, j | 0 <= i < j < |calls| ::
          calls[i] != calls[j] && w.calls[calls[i]].ringingAt <= w.calls[calls[j]].ringingAt)
    && (forall c, i | c in rest && 0 <= i < |calls| :: w.calls[calls[i]].ringingAt <= w.calls[c].ringingAt)
  }

  lemma PickedNext(w: World, calls: seq<CallId>, rest: set<CallId>, c: CallId)
    requires Picked(w, calls, rest) && c in rest && forall d | d in rest :: w.calls[c].ringingAt <= w.calls[d].ringingAt
    ensures Picked(w, calls + [c], rest - {c})
  {
  }

  /** The calls of the scan, by their columns: unassigned calls of the queue. If one is
      left out the limit is reached, and it has not rung longer than any of them. */
  ghost predicate LongestRinging(calls: map<CallId, Call>, queue: QueueId, limit: nat, found: seq<CallId>) {
    && (forall i | 0 <= i < |found| ::
          found[i] in calls && calls[found[i]].queue == Some(queue) && Unassigned(calls[found[i]])
          && calls[found[i]].phase in {None, Some(Queued)})
    && (forall c | c in calls && calls[c].queue == Some(queue) && Unassigned(calls[c])
                   && calls[c].phase in {None, Some(Queued)} && c !in found ::
          |found| == limit && forall i | 0 <= i < |found| :: calls[found[i]].ringingAt <= calls[c].ringingAt)
    && (forall i, j | 0 <= i < j < |found| ::
          found[i] != found[j] && calls[found[i]].ringingAt <= calls[found[j]].ringingAt)
  }

  lemma OldestAreLongestRinging(w: World, queue: QueueId, limit: nat, calls: seq<CallId>)
    requires OldestWaiting(w, queue, limit, calls)
    ensures LongestRinging(w.calls, queue, limit, calls)
  {
    forall c | c in WaitingIn(w, queue) && c !in calls
      ensures |calls| == limit
    {
      assert CallSet(calls) <= WaitingIn(w, queue);
      SetSize(calls);
      SmallerSubset(CallSet(calls), WaitingIn(w, queue));
    }
    assert forall c | c in w.calls && w.calls[c].queue == Some(queue) && Unassigned(w.calls[c])
                      && w.calls[c].phase in {None, Some(Queued)} :: c in WaitingIn(w, queue);
  }

  function CallSet(calls: seq<CallId>): set<CallId> { set c | c in calls }

  lemma {:induction false} SetSize(calls: seq<CallId>)
    requires forall i, j | 0 <= i < j < |calls| :: calls[i] != calls[j]
    ensures |CallSet(calls)| == |calls|
    decreases |calls|
  {
    if calls != [] {
      var n := |calls| - 1;
      var init := calls[..n];
      SetSize(init);
      assert calls == init + [calls[n]] && calls[n] !in init;
      assert CallSet(calls) == CallSet(init) + {calls[n]};
    }
  }

  lemma {:induction false} SmallerSubset(a: set<CallId>, b: set<CallId>)
    requires a < b
    ensures |a| < |b|
    decreases a
  {
    if a != {} {
      var x :| x in a;
      SmallerSubset(a - {x}, b - {x});
    }
  }

  method FindOldestUnassignedCalls(db: Database, queue: QueueId, limit: nat) returns (calls: seq<CallId>)
    ensures OldestWaiting(db.Rows(), queue, limit, calls)
    ensures LongestRinging(db.calls, queue, limit, calls)
  {
    ghost var w := db.Rows();
    var rest := set c | c in db.calls && db.calls[c].queue == Some(queue) && db.calls[c].Waiting();
    assert rest == WaitingIn(w, queue);
    calls := [];
    while rest != {} && |calls| < limit
      invariant Picked(w, calls, rest) && |calls| <= limit
      invariant |calls| + |rest| == |WaitingIn(w, queue)|
      invariant forall c :: c in WaitingIn(w, queue) <==> c in calls || c in rest
      decreases rest
    {
      ghost var e := EarliestExists(w, rest);
      var c :| c in rest && forall d | d in rest :: db.calls[c].ringingAt <= db.calls[d].ringingAt;
      PickedNext(w, calls, rest, c);
      calls := calls + [c];
      rest := rest - {c};
    }
    OldestAreLongestRinging(w, queue, limit, calls);
  }

  // ---- Candidates ----

  predicate Before(m: Member, n: Member) {
    m.priority < n.priority || (m.priority == n.priority && m.id <= n.id)
  }

  function InsertByPriority(members: seq<Member>, m: Member): seq<Member> {
    if members == [] || Before(m, members[0]) then [m] + members
    else [members[0]] + InsertByPriority(members[1..], m)
  }

  /** The available members, lowest priority value first, then agent id. */
  function ByPriority(members: seq<Member>): seq<Member> {
    if members == [] then []
    else if IsAvailable(members[0]) then InsertByPriority(ByPriority(members[1..]), members[0])
    else ByPriority(members[1..])
  }

  function IdsOf(members: seq<Member>): (r: seq<AgentId>)
    ensures |r| == |members|
  {
    if members == [] then [] else [members[0].id] + IdsOf(members[1..])
  }

  /** The candidates in strategy order, and the stored order afterwards. */
  function Candidates(strategy: Strategy, line: Line, now: Millis, members: seq<Member>): (Line, seq<AgentId>)
    requires DistinctIds(members)
  {
    if strategy == Priority then (line, IdsOf(ByPriority(members)))
    else if !AnyAvailable(members) then (line, [])
    else
      var next := Reconciled(line, now, members);
      (next, Among(next.order, Ids(AvailableIds(members)), true))
  }

  /** The call waits for an agent: a claim that gets its agent gets the call too. */
  predicate Assignable(w: World, c: CallId) {
    c in w.calls && R.Assign(w.calls[c], 0, 0).Some?
  }

  function FirstFree(w: World, ids: seq<AgentId>): Option<AgentId> {
    if ids == [] then None
    else if R.CanClaim(w, ids[0], false) then Some(ids[0])
    else FirstFree(w, ids[1..])
  }

  // ---- One attempt over the waiting calls ----

  datatype Drained = Drained(w: World, line: Line, given: Option<(CallId, AgentId)>)

  /** offers[i]: the members calls[i] may be offered to. */
  function DrainCalls(w: World, line: Line, strategy: Strategy, now: Millis, time: Time,
                      calls: seq<CallId>, offers: seq<seq<Member>>): Drained
    requires |calls| == |offers| && forall i | 0 <= i < |offers| :: DistinctIds(offers[i])
    decreases |calls|
  {
    if calls == [] then Drained(w, line, None)
    else
      var (next, ids) := Candidates(strategy, line, now, offers[0]);
      match FirstFree(w, ids)
      case Some(a) => Drained(R.ClaimAndAssign(w, a, calls[0], false, time), next, Some((calls[0], a)))
      case None => DrainCalls(w, next, strategy, now, time, calls[1..], offers[1..])
  }

  /** A member the call may be offered to, available, and free to be claimed. */
  ghost predicate Takes(w: World, members: seq<Member>, a: AgentId) {
    R.CanClaim(w, a, false) && exists m :: m in members && m.id == a && IsAvailable(m)
  }

  lemma {:induction false} InsertHas(members: seq<Member>, m: Member)
    ensures forall n :: n in InsertByPriority(members, m) <==> n in members || n == m
  {
    if members != [] && !Before(m, members[0]) { InsertHas(members[1..], m); }
  }

  lemma {:induction false} ByPriorityHas(members: seq<Member>)
    ensures forall n :: n in ByPriority(members) <==> n in members && IsAvailable(n)
  {
    if members != [] {
      ByPriorityHas(members[1..]);
      if IsAvailable(members[0]) { InsertHas(ByPriority(members[1..]), members[0]); }
    }
  }

  ghost predicate SortedByPriority(members: seq<Member>) {
    forall i, j | 0 <= i < j < |members| :: Before(members[i], members[j])
  }

  lemma {:induction false} InsertKeepsSorted(members: seq<Member>, m: Member)
    requires SortedByPriority(members)
    ensures SortedByPriority(InsertByPriority(members, m))
  {
    if members != [] && !Before(m, members[0]) {
      InsertKeepsSorted(members[1..], m);
      InsertHas(members[1..], m);
      assert forall x :: x in InsertByPriority(members[1..], m) ==> Before(members[0], x);
    }
  }

  lemma {:induction false} InsertAddsOne(members: seq<Member>, m: Member)
    ensures multiset(InsertByPriority(members, m)) == multiset(members) + multiset{m}
  {
    if members != [] {
      assert members == [members[0]] + members[1..];
      if !Before(m, members[0]) { InsertAddsOne(members[1..], m); }
    }
  }

  /** The priority order: the lowest value first, then the lowest agent id, each
      available member once. */
  lemma {:induction false} ByPriorityIsSorted(members: seq<Member>)
    ensures SortedByPriority(ByPriority(members))
    ensures forall m :: multiset(ByPriority(members))[m] == if IsAvailable(m) then multiset(members)[m] else 0
  {
    if members != [] {
      assert members == [members[0]] + members[1..];
      ByPriorityIsSorted(members[1..]);
      if IsAvailable(members[0]) {
        InsertKeepsSorted(ByPriority(members[1..]), members[0]);
        InsertAddsOne(ByPriority(members[1..]), members[0]);
      }
    }
  }

  /** With nobody available the drain stops before it looks at a call, and rightly:
      nobody would take one. */
  lemma NobodyAvailableTakesNothing(w: World, p: Passed, members: seq<Member>, a: AgentId)
    ensures !AnyAvailable(members) ==> !Takes(w, Offerable(p, members), a)
  {
    var left := Without(members, p.declined);
    assert forall m :: m in Offerable(p, members) ==> m in left && m in members;
  }

  lemma {:induction false} IdsOfHas(members: seq<Member>)
    ensures forall a :: a in IdsOf(members) <==> exists m :: m in members && m.id == a
  {
    if members != [] {
      IdsOfHas(members[1..]);
      forall a
        ensures a in IdsOf(members) <==> exists m :: m in members && m.id == a
      {
        if m :| m in members && m.id == a {
          assert m == members[0] || m in members[1..];
        }
      }
    }
  }

  lemma CandidatesAreAvailable(strategy: Strategy, line: Line, now: Millis, members: seq<Member>)
    requires DistinctIds(members)
    ensures forall a :: a in Candidates(strategy, line, now, members).1 <==>
                        exists m :: m in members && m.id == a && IsAvailable(m)
  {
    if strategy == Priority {
      ByPriorityHas(members);
      IdsOfHas(ByPriority(members));
    } else {
      AvailableIdsAre(members);
      forall x: AgentId | x in AvailableIds(members)
        ensures x in NextOrder(line, now, members)
      {
        assert x in Staying(line, now, members) || x in Newcomers(line, now, members);
      }
    }
  }

  lemma {:induction false} FirstFreeIs(w: World, ids: seq<AgentId>)
    ensures match FirstFree(w, ids)
            case None => forall a | a in ids :: !R.CanClaim(w, a, false)
            case Some(a) => exists k :: 0 <= k < |ids| && ids[k] == a && R.CanClaim(w, a, false)
                                        && forall i | 0 <= i < k :: !R.CanClaim(w, ids[i], false)
  {
    if ids != [] && !R.CanClaim(w, ids[0], false) {
      FirstFreeIs(w, ids[1..]);
      if FirstFree(w, ids[1..]).Some? {
        var k :| 0 <= k < |ids[1..]| && ids[1..][k] == FirstFree(w, ids).value && R.CanClaim(w, ids[1..][k], false)
                 && forall i | 0 <= i < k :: !R.CanClaim(w, ids[1..][i], false);
        assert ids[k + 1] == FirstFree(w, ids).value;
        assert forall i | 1 <= i < k + 1 :: ids[i] == ids[1..][i - 1];
      }
    }
  }

  /** The pick takes a member who can take the call, if anybody can. */
  lemma PickTakes(w: World, line: Line, strategy: Strategy, now: Millis, members: seq<Member>)
    requires DistinctIds(members)
    ensures match FirstFree(w, Candidates(strategy, line, now, members).1)
            case None => forall a :: !Takes(w, members, a)
            case Some(a) => Takes(w, members, a)
  {
    var ids := Candidates(strategy, line, now, members).1;
    CandidatesAreAvailable(strategy, line, now, members);
    FirstFreeIs(w, ids);
    if FirstFree(w, ids).Some? { assert FirstFree(w, ids).value in ids; }
  }

  /** The stored order when the drain comes to call k: the one it started with,
      reconciled with the members each earlier call may be offered to. */
  function LineAt(line: Line, strategy: Strategy, now: Millis, offers: seq<seq<Member>>, k: nat): Line
    requires k <= |offers| && forall i | 0 <= i < |offers| :: DistinctIds(offers[i])
  {
    if k == 0 then line
    else Candidates(strategy, LineAt(line, strategy, now, offers, k - 1), now, offers[k - 1]).0
  }

  lemma {:induction false} LineAtLater(line: Line, strategy: Strategy, now: Millis, offers: seq<seq<Member>>, k: nat)
    requires k < |offers| && forall i | 0 <= i < |offers| :: DistinctIds(offers[i])
    ensures LineAt(line, strategy, now, offers, k + 1)
         == LineAt(Candidates(strategy, line, now, offers[0]).0, strategy, now, offers[1..], k)
  {
    if k == 0 {
      assert LineAt(line, strategy, now, offers, 0) == line;
    } else {
      LineAtLater(line, strategy, now, offers, k - 1);
      assert offers[k] == offers[1..][k - 1];
    }
  }

  /** Call k goes to a: nobody takes an earlier call, and a is the first in
      strategy order, under the stored order at that call, who can be claimed. */
  ghost predicate FirstFitAt(w: World, line: Line, strategy: Strategy, now: Millis, offers: seq<seq<Member>>, k: nat,
                             a: AgentId)
    requires forall i | 0 <= i < |offers| :: DistinctIds(offers[i])
  {
    && k < |offers| && Takes(w, offers[k], a)
    && (forall i, b | 0 <= i < k :: !Takes(w, offers[i], b))
    && FirstFree(w, Candidates(strategy, LineAt(line, strategy, now, offers, k), now, offers[k]).1) == Some(a)
  }

  lemma FirstFitLater(w: World, line: Line, strategy: Strategy, now: Millis, offers: seq<seq<Member>>, k: nat,
                      a: AgentId)
    requires offers != [] && forall i | 0 <= i < |offers| :: DistinctIds(offers[i])
    requires FirstFitAt(w, Candidates(strategy, line, now, offers[0]).0, strategy, now, offers[1..], k, a)
    requires forall b :: !Takes(w, offers[0], b)
    ensures FirstFitAt(w, line, strategy, now, offers, k + 1, a)
  {
    LineAtLater(line, strategy, now, offers, k);
    assert forall i | 1 <= i < |offers| :: offers[i] == offers[1..][i - 1];
  }

  /** The outcome of a drain that gives away call k, or looks at all k calls and
      gives none away; nothing changes but the stored order, reconciled once for
      each call looked at. */
  ghost predicate IsFirstFit(w: World, line: Line, strategy: Strategy, now: Millis, time: Time,
                             calls: seq<CallId>, offers: seq<seq<Member>>, k: nat, d: Drained)
    requires |calls| == |offers| && forall i | 0 <= i < |offers| :: DistinctIds(offers[i])
  {
    match d.given
    case None =>
      && k == |calls| && d.w == w && d.line == LineAt(line, strategy, now, offers, k)
      && forall i, a | 0 <= i < |calls| :: !Takes(w, offers[i], a)
    case Some((c, a)) =>
      && k < |calls| && FirstFitAt(w, line, strategy, now, offers, k, a) && calls[k] == c
      && d.w == R.ClaimAndAssign(w, a, c, false, time) && d.line == LineAt(line, strategy, now, offers, k + 1)
  }

  lemma FirstFitGoesOn(w: World, line: Line, strategy: Strategy, now: Millis, time: Time,
                       calls: seq<CallId>, offers: seq<seq<Member>>, k: nat, d: Drained)
    requires |calls| == |offers| && calls != [] && forall i | 0 <= i < |offers| :: DistinctIds(offers[i])
    requires forall b :: !Takes(w, offers[0], b)
    requires var next := Candidates(strategy, line, now, offers[0]).0;
             IsFirstFit(w, next, strategy, now, time, calls[1..], offers[1..], k, d)
    ensures IsFirstFit(w, line, strategy, now, time, calls, offers, k + 1, d)
  {
    if d.given.Some? {
      FirstFitLater(w, line, strategy, now, offers, k, d.given.value.1);
      LineAtLater(line, strategy, now, offers, k + 1);
    } else {
      LineAtLater(line, strategy, now, offers, k);
      forall i, a | 0 <= i < |calls|
        ensures !Takes(w, offers[i], a)
      {
        if i > 0 { assert offers[i] == offers[1..][i - 1]; }
      }
    }
  }

  /** First fit: the drain gives a call to somebody exactly when some waiting
      call has a member who takes it; it is the first such call, and its first
      such member in strategy order. */
  lemma {:induction false} FirstFit(w: World, line: Line, strategy: Strategy, now: Millis, time: Time,
                                    calls: seq<CallId>, offers: seq<seq<Member>>) returns (k: nat)
    requires |calls| == |offers| && forall i | 0 <= i < |offers| :: DistinctIds(offers[i])
    ensures IsFirstFit(w, line, strategy, now, time, calls, offers, k,
                       DrainCalls(w, line, strategy, now, time, calls, offers))
    decreases |calls|
  {
    k := 0;
    if calls != [] {
      var (next, ids) := Candidates(strategy, line, now, offers[0]);
      PickTakes(w, line, strategy, now, offers[0]);
      if FirstFree(w, ids).None? {
        var j := FirstFit(w, next, strategy, now, time, calls[1..], offers[1..]);
        var d := DrainCalls(w, next, strategy, now, time, calls[1..], offers[1..]);
        FirstFitGoesOn(w, line, strategy, now, time, calls, offers, j, d);
        k := j + 1;
      } else {
        assert LineAt(line, strategy, now, offers, 0) == line;
      }
    }
  }

  // ---- Whom the drain serves ----

  /** A member the call may be offered to, available, and free to be claimed. */
  ghost predicate Servable(w: World, members: seq<Member>, a: AgentId) {
    Free(w, a, false) && exists m :: m in members && m.id == a && IsAvailable(m)
  }

  lemma TakesIsServable(w: World, members: seq<Member>, a: AgentId)
    ensures Takes(w, members, a) <==> Servable(w, members, a)
  {
    ClaimsTheFree(w, a, false);
  }

  /** The agent stands in the order, and nobody ahead of them could be served. */
  ghost predicate FirstInLine(w: World, members: seq<Member>, order: seq<AgentId>, p: nat, a: AgentId) {
    p < |order| && order[p] == a && forall q | 0 <= q < p :: !Servable(w, members, order[q])
  }

  /** Nobody of a better priority could be served, nor of the same and a lower id. */
  ghost predicate FirstByPriority(w: World, members: seq<Member>, m: Member) {
    && m in members && IsAvailable(m)
    && forall n | n in members && IsAvailable(n) ::
         n.priority < m.priority || (n.priority == m.priority && n.id < m.id) ==> !Free(w, n.id, false)
  }

  ghost predicate ServedFirst(w: World, line: Line, strategy: Strategy, members: seq<Member>, a: AgentId) {
    match strategy
    case RoundRobin => exists p: nat :: FirstInLine(w, members, line.order, p, a)
    case Priority => exists m: Member :: m.id == a && FirstByPriority(w, members, m)
  }

  /** The drain gives away call k, to the member who comes first; nobody could be
      served for an earlier call. */
  ghost predicate Serves(w: World, line: Line, strategy: Strategy, calls: seq<CallId>, offers: seq<seq<Member>>, k: nat,
                         c: CallId, a: AgentId)
    requires |calls| == |offers|
  {
    && k < |calls| && calls[k] == c && Servable(w, offers[k], a) && ServedFirst(w, line, strategy, offers[k], a)
    && forall i, b | 0 <= i < k :: !Servable(w, offers[i], b)
  }

  lemma RoundRobinFirst(w: World, line: Line, now: Millis, members: seq<Member>, a: AgentId)
    requires DistinctIds(members)
    requires FirstFree(w, Candidates(RoundRobin, line, now, members).1) == Some(a)
    ensures ServedFirst(w, Candidates(RoundRobin, line, now, members).0, RoundRobin, members, a)
  {
    var (next, ids) := Candidates(RoundRobin, line, now, members);
    FirstFreeIs(w, ids);
    ReturnsAvailableInOrder(line, now, members);
    var k: nat :| k < |ids| && ids[k] == a && forall i | 0 <= i < k :: !R.CanClaim(w, ids[i], false);
    assert a in next.order;
    var p: nat :| p < |next.order| && next.order[p] == a;
    StandsFirst(w, members, next.order, ids, k, p);
  }

  lemma StandsFirst(w: World, members: seq<Member>, order: seq<AgentId>, ids: seq<AgentId>, k: nat, p: nat)
    requires Distinct(order) && InOrderOf(ids, order) && p < |order| && k < |ids| && ids[k] == order[p]
    requires forall x :: x in ids <==> exists m :: m in members && m.id == x && IsAvailable(m)
    requires forall i | 0 <= i < k :: !R.CanClaim(w, ids[i], false)
    ensures FirstInLine(w, members, order, p, order[p])
  {
    forall q | 0 <= q < p
      ensures !Servable(w, members, order[q])
    {
      NobodyAhead(w, members, order, ids, k, p, q);
    }
  }

  lemma NobodyAhead(w: World, members: seq<Member>, order: seq<AgentId>, ids: seq<AgentId>, k: nat, p: nat, q: nat)
    requires Distinct(order) && InOrderOf(ids, order) && q < p < |order| && k < |ids| && ids[k] == order[p]
    requires forall x :: x in ids <==> exists m :: m in members && m.id == x && IsAvailable(m)
    requires forall i | 0 <= i < k :: !R.CanClaim(w, ids[i], false)
    ensures !Servable(w, members, order[q])
  {
    if order[q] in ids {
      var i :| 0 <= i < |ids| && ids[i] == order[q];
      assert i < k;
      ClaimsTheFree(w, order[q], false);
    }
  }

  lemma {:induction false} IdAt(members: seq<Member>, k: nat)
    requires k < |members|
    ensures IdsOf(members)[k] == members[k].id
  {
    if k > 0 { IdAt(members[1..], k - 1); }
  }

  lemma BetterIsTaken(w: World, sorted: seq<Member>, ids: seq<AgentId>, k: nat, i: nat)
    requires SortedByPriority(sorted) && ids == IdsOf(sorted) && k < |sorted| && i < |sorted|
    requires forall j | 0 <= j < k :: !R.CanClaim(w, ids[j], false)
    ensures var m, n := sorted[k], sorted[i];
            n.priority < m.priority || (n.priority == m.priority && n.id < m.id) ==> !Free(w, n.id, false)
  {
    IdAt(sorted, i);
    ClaimsTheFree(w, sorted[i].id, false);
    if k < i { assert Before(sorted[k], sorted[i]); }
  }

  lemma PriorityFirst(w: World, line: Line, now: Millis, members: seq<Member>, a: AgentId)
    requires DistinctIds(members)
    requires FirstFree(w, Candidates(Priority, line, now, members).1) == Some(a)
    ensures ServedFirst(w, line, Priority, members, a)
  {
    var sorted := ByPriority(members);
    var ids := IdsOf(sorted);
    FirstFreeIs(w, ids);
    ByPriorityIsSorted(members);
    ByPriorityHas(members);
    var k: nat :| k < |ids| && ids[k] == a && forall i | 0 <= i < k :: !R.CanClaim(w, ids[i], false);
    IdAt(sorted, k);
    assert sorted[k] in sorted;
    forall n | n in members && IsAvailable(n)
      ensures n.priority < sorted[k].priority || (n.priority == sorted[k].priority && n.id < sorted[k].id) ==>
                !Free(w, n.id, false)
    {
      var i: nat :| i < |sorted| && sorted[i] == n;
      BetterIsTaken(w, sorted, ids, k, i);
    }
    assert FirstByPriority(w, members, sorted[k]);
  }

  /** The first call somebody could be served for goes to the member who comes first:
      in the order stored with that call, or by priority and id. If none is given
      away nobody could be served for any. */
  lemma DrainServesFirst(w: World, line: Line, strategy: Strategy, now: Millis, time: Time, calls: seq<CallId>,
                         offers: seq<seq<Member>>)
    requires |calls| == |offers| && forall i | 0 <= i < |offers| :: DistinctIds(offers[i])
    ensures var d := DrainCalls(w, line, strategy, now, time, calls, offers);
            match d.given
            case None => forall i, a | 0 <= i < |calls| :: !Servable(w, offers[i], a)
            case Some((c, a)) => exists k: nat :: Serves(w, d.line, strategy, calls, offers, k, c, a)
  {
    var d := DrainCalls(w, line, strategy, now, time, calls, offers);
    var k := FirstFit(w, line, strategy, now, time, calls, offers);
    forall i, a | 0 <= i < |calls|
      ensures Takes(w, offers[i], a) <==> Servable(w, offers[i], a)
    {
      TakesIsServable(w, offers[i], a);
    }
    if d.given.Some? {
      var (c, a) := d.given.value;
      var at := LineAt(line, strategy, now, offers, k);
      match strategy {
        case RoundRobin => RoundRobinFirst(w, at, now, offers[k], a);
        case Priority => PriorityFirst(w, at, now, offers[k], a);
      }
      assert Serves(w, d.line, strategy, calls, offers, k, c, a);
    }
  }
}
