/** What reconciliation does to the order: its specification, and fairness over
    any sequence of reconciliations with arbitrary member lists. */
module QueueFairness {
  import opened CallTypes
  import opened OfferHistory
  import opened QueueOrder

  // ---- Specification of one reconciliation ----

  /** A member passed as neither available nor briefly offline, or not passed at
      all, is not in the order afterwards. */
  lemma OthersLeave(line: Line, now: Millis, members: seq<Member>, x: AgentId)
    requires DistinctIds(members) && !Stays(line.meta, now, members, x)
    ensures x !in NextOrder(line, now, members)
  {
    AvailableIdsAre(members);
  }

  lemma {:induction false} DedupOfDistinct(ids: seq<AgentId>)
    requires Distinct(ids)
    ensures Dedup(ids) == ids
    decreases |ids|
  {
    if ids != [] {
      var n := |ids| - 1;
      DedupOfDistinct(ids[..n]);
      assert ids[n] !in ids[..n];
      assert ids[..n] + [ids[n]] == ids;
    }
  }

  lemma {:induction false} AllStay(ids: seq<AgentId>, meta: map<AgentId, Meta>, now: Millis, members: seq<Member>)
    requires forall x | x in ids :: Stays(meta, now, members, x)
    ensures StayingOf(ids, meta, now, members) == ids
    decreases |ids|
  {
    if ids != [] {
      var n := |ids| - 1;
      AllStay(ids[..n], meta, now, members);
      assert ids[..n] + [ids[n]] == ids;
    }
  }

  lemma {:induction false} JoinedKeeps(kept: map<AgentId, Meta>, newcomers: seq<AgentId>, n: nat, joins: nat,
                                       now: Millis)
    requires n <= |newcomers| && Distinct(newcomers)
    ensures Joined(kept, newcomers, n, joins, now).Keys == kept.Keys + Ids(newcomers[..n])
    ensures forall x | x in kept && x !in newcomers :: Joined(kept, newcomers, n, joins, now)[x] == kept[x]
    ensures forall x | x in newcomers[..n] ::
              var next := Joined(kept, newcomers, n, joins, now);
              x in next && next[x].unavailableSince.None?
  {
    if n > 0 {
      JoinedKeeps(kept, newcomers, n - 1, joins, now);
      assert newcomers[..n] == newcomers[..n - 1] + [newcomers[n - 1]];
    } else {
      assert newcomers[..0] == [];
    }
  }

  /** The fields after a reconciliation are those of its order, and reconciling
      a member again at the same instant leaves theirs alone. */
  lemma FieldsSettled(line: Line, now: Millis, members: seq<Member>)
    requires DistinctIds(members)
    ensures var next := Reconciled(line, now, members);
            && next.meta.Keys == Ids(next.order)
            && (forall x | x in next.order :: Stays(next.meta, now, members, x))
            && (forall x | x in next.order :: MetaOfStayer(next, now, members, x) == next.meta[x])
  {
    var next := Reconciled(line, now, members);
    var kept, joined := Staying(line, now, members), Newcomers(line, now, members);
    AvailableIdsAre(members);
    JoinedKeeps(KeptMeta(line, now, members), joined, |joined|, line.joins, now);
    assert joined[..|joined|] == joined;
    forall x | x in next.order
      ensures Stays(next.meta, now, members, x) && MetaOfStayer(next, now, members, x) == next.meta[x]
    {
      if x in kept {
        assert x !in joined && next.meta[x] == MetaOfStayer(line, now, members, x);
      } else {
        assert x in joined[..|joined|] && x in AvailableIds(members);
      }
    }
  }

  lemma KeptAgain(next: Line, now: Millis, members: seq<Member>)
    requires Staying(next, now, members) == next.order && next.meta.Keys == Ids(next.order)
    requires forall x | x in next.order :: MetaOfStayer(next, now, members, x) == next.meta[x]
    ensures KeptMeta(next, now, members) == next.meta
  {
  }

  lemma AllStayAgain(line: Line, now: Millis, members: seq<Member>)
    requires DistinctIds(members)
    ensures var next := Reconciled(line, now, members);
            Staying(next, now, members) == next.order && KeptMeta(next, now, members) == next.meta
  {
    var next := Reconciled(line, now, members);
    FieldsSettled(line, now, members);
    assert Staying(next, now, members) == next.order by {
      NextOrderDistinct(line, now, members);
      DedupOfDistinct(next.order);
      AllStay(next.order, next.meta, now, members);
    }
    KeptAgain(next, now, members);
  }

  lemma SettledStays(next: Line, now: Millis, members: seq<Member>)
    requires DistinctIds(members) && Newcomers(next, now, members) == []
    requires Staying(next, now, members) == next.order && KeptMeta(next, now, members) == next.meta
    ensures Reconciled(next, now, members) == next
  {
    assert next.order + [] == next.order;
  }

  /** Repeating a reconciliation at the same instant changes nothing: not the
      order, not the fields, not the join counter. */
  lemma ReconcileTwiceIsOnce(line: Line, now: Millis, members: seq<Member>)
    requires DistinctIds(members)
    ensures Reconciled(Reconciled(line, now, members), now, members) == Reconciled(line, now, members)
  {
    AllStayAgain(line, now, members);
    NobodyNew(line, now, members);
    SettledStays(Reconciled(line, now, members), now, members);
  }

  lemma {:induction false} AmongNone(ids: seq<AgentId>, s: set<AgentId>)
    requires forall x | x in ids :: x in s
    ensures Among(ids, s, false) == []
    decreases |ids|
  {
    if ids != [] { AmongNone(ids[..|ids| - 1], s); }
  }

  lemma NobodyNew(line: Line, now: Millis, members: seq<Member>)
    requires DistinctIds(members)
    requires Staying(Reconciled(line, now, members), now, members) == NextOrder(line, now, members)
    ensures Newcomers(Reconciled(line, now, members), now, members) == []
  {
    AvailableInOrder(line, now, members);
    AmongNone(AvailableIds(members), Ids(NextOrder(line, now, members)));
  }

  // ---- Places ----

  function IndexOf(ids: seq<AgentId>, x: AgentId): (k: nat)
    requires x in ids
    ensures k < |ids| && ids[k] == x && x !in ids[..k]
  {
    if ids[0] == x then 0 else 1 + IndexOf(ids[1..], x)
  }

  function Ahead(ids: seq<AgentId>, x: AgentId): seq<AgentId>
    requires x in ids
  {
    ids[..IndexOf(ids, x)]
  }

  lemma IndexIs(ids: seq<AgentId>, x: AgentId, k: nat)
    requires Distinct(ids) && k < |ids| && ids[k] == x
    ensures IndexOf(ids, x) == k
  {
  }

  lemma {:induction false} StayingSplit(a: seq<AgentId>, b: seq<AgentId>, meta: map<AgentId, Meta>, now: Millis,
                                        members: seq<Member>)
    ensures StayingOf(a + b, meta, now, members) == StayingOf(a, meta, now, members) + StayingOf(b, meta, now, members)
    decreases |b|
  {
    if b == [] {
      assert a + b == a;
    } else {
      var n := |b| - 1;
      StayingSplit(a, b[..n], meta, now, members);
      StayingOfLast(b, meta, now, members);
      StayingOfLast(a + b, meta, now, members);
      assert (a + b)[..|a + b| - 1] == a + b[..n];
    }
  }

  lemma {:induction false} StayingOfLast(ids: seq<AgentId>, meta: map<AgentId, Meta>, now: Millis,
                                         members: seq<Member>)
    requires ids != []
    ensures var n := |ids| - 1;
            StayingOf(ids, meta, now, members) ==
            StayingOf(ids[..n], meta, now, members) + if Stays(meta, now, members, ids[n]) then [ids[n]] else []
  {}

  lemma StayingOfOne(x: AgentId, meta: map<AgentId, Meta>, now: Millis, members: seq<Member>)
    ensures StayingOf([x], meta, now, members) == if Stays(meta, now, members, x) then [x] else []
  {
    StayingOfLast([x], meta, now, members);
  }

  lemma StayingAround(ids: seq<AgentId>, x: AgentId, meta: map<AgentId, Meta>, now: Millis, members: seq<Member>)
    requires x in ids && Stays(meta, now, members, x)
    ensures StayingOf(Ahead(ids, x), meta, now, members) + [x] <= StayingOf(ids, meta, now, members)
  {
    var ahead, rest := Ahead(ids, x), ids[IndexOf(ids, x) + 1..];
    assert ahead + [x] + rest == ids;
    StayingSplit(ahead + [x], rest, meta, now, members);
    StayingSplit(ahead, [x], meta, now, members);
    StayingOfOne(x, meta, now, members);
  }

  lemma AheadOf(ids: seq<AgentId>, ahead: seq<AgentId>, x: AgentId)
    requires Distinct(ids) && ahead + [x] <= ids
    ensures x in ids && Ahead(ids, x) == ahead
  {
    assert ids[|ahead|] == (ahead + [x])[|ahead|] == x;
    IndexIs(ids, x, |ahead|);
    assert ids[..|ahead|] == (ahead + [x])[..|ahead|] == ahead;
  }

  /** After a reconciliation that passes x as available, those ahead of x are
      exactly those who were ahead and stay, in their order. */
  lemma AheadAfter(line: Line, now: Millis, members: seq<Member>, x: AgentId)
    requires DistinctIds(members) && Distinct(line.order) && x in line.order && x in AvailableIds(members)
    ensures x in NextOrder(line, now, members)
    ensures Ahead(NextOrder(line, now, members), x) == StayingOf(Ahead(line.order, x), line.meta, now, members)
  {
    DedupOfDistinct(line.order);
    StayingAround(line.order, x, line.meta, now, members);
    NextOrderDistinct(line, now, members);
    AheadOf(NextOrder(line, now, members), StayingOf(Ahead(line.order, x), line.meta, now, members), x);
  }

  /** Members who stay, available or briefly offline, keep their relative order. */
  lemma KeepsRelativeOrder(line: Line, now: Millis, members: seq<Member>, x: AgentId, y: AgentId)
    requires DistinctIds(members) && Distinct(line.order) && x in line.order && y in Ahead(line.order, x)
    requires Stays(line.meta, now, members, x) && Stays(line.meta, now, members, y)
    ensures x in NextOrder(line, now, members) && y in Ahead(NextOrder(line, now, members), x)
  {
    DedupOfDistinct(line.order);
    StayingAround(line.order, x, line.meta, now, members);
    NextOrderDistinct(line, now, members);
    AheadOf(NextOrder(line, now, members), StayingOf(Ahead(line.order, x), line.meta, now, members), x);
  }

  // ---- Whole runs ----

  datatype Reconciliation = Reconciliation(now: Millis, members: seq<Member>)

  ghost predicate Proper(runs: seq<Reconciliation>) {
    forall k | 0 <= k < |runs| :: DistinctIds(runs[k].members)
  }

  function ReconciledAll(line: Line, runs: seq<Reconciliation>): Line
    requires forall k | 0 <= k < |runs| :: DistinctIds(runs[k].members)
    decreases |runs|
  {
    if runs == [] then line
    else
      var n := |runs| - 1;
      Reconciled(ReconciledAll(line, runs[..n]), runs[n].now, runs[n].members)
  }

  ghost predicate AlwaysAvailable(runs: seq<Reconciliation>, x: AgentId) {
    forall k | 0 <= k < |runs| :: x in AvailableIds(runs[k].members)
  }

  lemma {:induction false} StayingSize(ids: seq<AgentId>, meta: map<AgentId, Meta>, now: Millis, members: seq<Member>)
    ensures |StayingOf(ids, meta, now, members)| <= |ids|
    ensures (exists y :: y in ids && !Stays(meta, now, members, y)) ==> |StayingOf(ids, meta, now, members)| < |ids|
    decreases |ids|
  {
    if ids != [] { StayingSize(ids[..|ids| - 1], meta, now, members); }
  }

  /** Round-robin never overtakes: while x is passed as available in every
      reconciliation, nobody gets ahead of x who was not ahead at the start, and
      x's place never grows. */
  lemma {:induction false} NeverOvertaken(line: Line, runs: seq<Reconciliation>, x: AgentId)
    requires Proper(runs) && AlwaysAvailable(runs, x) && Distinct(line.order) && x in line.order
    ensures var last := ReconciledAll(line, runs).order;
            && Distinct(last) && x in last
            && IndexOf(last, x) <= IndexOf(line.order, x)
            && forall y | y in Ahead(last, x) :: y in Ahead(line.order, x)
    decreases |runs|
  {
    if runs != [] {
      var n := |runs| - 1;
      var m := ReconciledAll(line, runs[..n]);
      NeverOvertaken(line, runs[..n], x);
      var now, members := runs[n].now, runs[n].members;
      AheadAfter(m, now, members, x);
      NextOrderDistinct(m, now, members);
      StayingSize(Ahead(m.order, x), m.meta, now, members);
    }
  }

  /** The place shrinks whenever somebody ahead leaves: is claimed, stays offline
      for over a minute, or is left out of the list passed. */
  lemma PlaceShrinks(line: Line, now: Millis, members: seq<Member>, x: AgentId, y: AgentId)
    requires DistinctIds(members) && Distinct(line.order) && x in line.order && x in AvailableIds(members)
    requires y in Ahead(line.order, x) && !Stays(line.meta, now, members, y)
    ensures x in NextOrder(line, now, members)
    ensures IndexOf(NextOrder(line, now, members), x) < IndexOf(line.order, x)
  {
    AheadAfter(line, now, members, x);
    StayingSize(Ahead(line.order, x), line.meta, now, members);
  }

  lemma NotAheadIsBehind(ids: seq<AgentId>, x: AgentId, y: AgentId)
    requires Distinct(ids) && x in ids && y in ids && x != y && y !in Ahead(ids, x)
    ensures IndexOf(ids, x) < IndexOf(ids, y)
  {
  }

  /** Somebody who joins while x is in the order and available stays behind x for
      as long as x is passed as available. */
  lemma JoinedLaterStaysBehind(line: Line, runs: seq<Reconciliation>, x: AgentId, y: AgentId)
    requires Proper(runs) && AlwaysAvailable(runs, x) && Distinct(line.order) && x in line.order
    requires y !in line.order && y in ReconciledAll(line, runs).order
    ensures var last := ReconciledAll(line, runs).order;
            x in last && IndexOf(last, x) < IndexOf(last, y)
  {
    NeverOvertaken(line, runs, x);
    NotAheadIsBehind(ReconciledAll(line, runs).order, x, y);
  }

  lemma ReconciledOnce(line: Line, r: Reconciliation)
    requires DistinctIds(r.members)
    ensures ReconciledAll(line, [r]) == Reconciled(line, r.now, r.members)
  {
    assert [r][..0] == [];
  }

  /** The list passed matters: a member left out of one reconciliation (a drain
      passes only the members the call may be offered to) rejoins behind every
      member who was in the order then and is available. */
  lemma LeftOutGoesToTheTail(line: Line, now: Millis, others: seq<Member>, later: Millis, members: seq<Member>,
                             x: AgentId, y: AgentId)
    requires DistinctIds(others) && DistinctIds(members)
    requires !Stays(line.meta, now, others, x) && x in AvailableIds(members)
    requires y in NextOrder(line, now, others) && y in AvailableIds(members)
    ensures var last := NextOrder(Reconciled(line, now, others), later, members);
            x in last && y in last && IndexOf(last, y) < IndexOf(last, x)
  {
    var mid, last := Reconciled(line, now, others), Reconciliation(later, members);
    OthersLeave(line, now, others, x);
    NextOrderDistinct(line, now, others);
    ReconciledOnce(mid, last);
    assert x in Staying(mid, later, members) || x in Newcomers(mid, later, members) by { AvailableIdsAre(members); }
    JoinedLaterStaysBehind(mid, [last], y, x);
  }

  // ---- The fields ----

  lemma {:induction false} JoinedFields(kept: map<AgentId, Meta>, newcomers: seq<AgentId>, n: nat, joins: nat,
                                        now: Millis, k: nat)
    requires k < n <= |newcomers| && Distinct(newcomers)
    ensures var next := Joined(kept, newcomers, n, joins, now);
            newcomers[k] in next && next[newcomers[k]] == Meta(now, Some(joins + k + 1), None)
  {
    if k < n - 1 {
      JoinedFields(kept, newcomers, n - 1, joins, now, k);
    }
  }

  lemma StayerFields(line: Line, now: Millis, members: seq<Member>, k: nat)
    requires DistinctIds(members) && k < |Staying(line, now, members)|
    ensures var next := Reconciled(line, now, members);
            && next.order[k] == Staying(line, now, members)[k] && next.order[k] in next.meta
            && next.meta[next.order[k]] == KeptMeta(line, now, members)[next.order[k]]
  {
    var kept, joined := Staying(line, now, members), Newcomers(line, now, members);
    AvailableIdsAre(members);
    assert kept[k] in kept && kept[k] !in joined;
    JoinedKeeps(KeptMeta(line, now, members), joined, |joined|, line.joins, now);
  }

  lemma NewcomerFields(line: Line, now: Millis, members: seq<Member>, j: nat)
    requires DistinctIds(members) && j < |Newcomers(line, now, members)|
    ensures var next, x := Reconciled(line, now, members), Newcomers(line, now, members)[j];
            && next.order[|Staying(line, now, members)| + j] == x
            && x in next.meta && next.meta[x] == Meta(now, Some(line.joins + j + 1), None)
  {
    var joined := Newcomers(line, now, members);
    AvailableIdsAre(members);
    JoinedFields(KeptMeta(line, now, members), joined, |joined|, line.joins, now, j);
  }

  /** Whoever stays keeps the time and number they joined with; the newcomers, lowest
      id first, get this instant and the next numbers. */
  lemma FieldsOfTheOrder(line: Line, now: Millis, members: seq<Member>, k: nat)
    requires DistinctIds(members) && k < |NextOrder(line, now, members)|
    ensures var next := Reconciled(line, now, members);
            var x, stayers := next.order[k], |Staying(line, now, members)|;
            && x in next.meta
            && (k < stayers && x in line.meta ==>
                  && next.meta[x].enteredAt == line.meta[x].enteredAt
                  && next.meta[x].joinSequence == line.meta[x].joinSequence)
            && (k >= stayers ==> next.meta[x] == Meta(now, Some(line.joins + (k - stayers) + 1), None))
            && next.joins == line.joins + (|next.order| - stayers)
  {
    var stayers := |Staying(line, now, members)|;
    if k < stayers { StayerFields(line, now, members, k); } else { NewcomerFields(line, now, members, k - stayers); }
  }

  /** Those who join in one reconciliation do so in the order of their ids. */
  lemma NewcomersByIds(line: Line, now: Millis, members: seq<Member>, i: nat, j: nat)
    requires DistinctIds(members) && |Staying(line, now, members)| <= i < j < |NextOrder(line, now, members)|
    ensures NextOrder(line, now, members)[i] < NextOrder(line, now, members)[j]
  {
    var k := |Staying(line, now, members)|;
    assert NextOrder(line, now, members)[i] == Newcomers(line, now, members)[i - k];
    assert NextOrder(line, now, members)[j] == Newcomers(line, now, members)[j - k];
  }

  // ---- Going offline ----

  /** The member is passed, and passed as offline. */
  ghost predicate PassedOffline(r: Reconciliation, x: AgentId) {
    DistinctIds(r.members) && exists m :: m in r.members && m.id == x && m.availability == Offline
  }

  lemma {:induction false} StatusIs(members: seq<Member>, m: Member)
    requires DistinctIds(members) && m in members
    ensures StatusOf(members, m.id) == Some(m.availability)
  {
    if members[0] != m { StatusIs(members[1..], m); }
  }

  lemma {:induction false} StatusFrom(members: seq<Member>, x: AgentId)
    ensures StatusOf(members, x).Some? ==>
              exists m :: m in members && m.id == x && StatusOf(members, x) == Some(m.availability)
  {
    if members != [] {
      StatusFrom(members[1..], x);
      assert members[0] in members;
    }
  }

  /** The member may keep a place: available, or offline for a minute at most. */
  predicate Keeps(m: Member, meta: map<AgentId, Meta>, now: Millis) {
    || m.availability == Available
    || (m.availability == Offline
        && (m.id in meta && meta[m.id].unavailableSince.Some? ==> now - meta[m.id].unavailableSince.value <= 60000))
  }

  /** Whoever was in the order stays in it exactly if they are passed as such a member;
      on a call, or not passed, they lose their place at once. */
  lemma StaysIff(line: Line, now: Millis, members: seq<Member>, x: AgentId)
    requires DistinctIds(members) && x in line.order
    ensures x in NextOrder(line, now, members) <==> exists m :: m in members && m.id == x && Keeps(m, line.meta, now)
  {
    AvailableIdsAre(members);
    StatusFrom(members, x);
    forall m | m in members && m.id == x
      ensures StatusOf(members, x) == Some(m.availability)
    {
      StatusIs(members, m);
    }
    assert x in Staying(line, now, members) <==> Stays(line.meta, now, members, x);
  }

  lemma OfflineStays(line: Line, r: Reconciliation, x: AgentId)
    requires PassedOffline(r, x)
    ensures x !in AvailableIds(r.members) && StatusOf(r.members, x) == Some(Offline)
  {
    var m :| m in r.members && m.id == x && m.availability == Offline;
    StatusIs(r.members, m);
    AvailableIdsAre(r.members);
    forall n | n in r.members && n.id == x ensures !IsAvailable(n) { StatusIs(r.members, n); }
  }

  lemma OfflineStep(line: Line, r: Reconciliation, x: AgentId, since: Millis)
    requires PassedOffline(r, x) && x in line.order && UnavailableSince(MetaOf(line.meta, x, r.now), r.now) == since
    ensures var next := Reconciled(line, r.now, r.members);
            && (x in next.order <==> r.now - since <= RECONNECT_HOLD_MS)
            && (x in next.order ==> x in next.meta && next.meta[x].unavailableSince == Some(since))
  {
    OfflineStays(line, r, x);
    var joined := Newcomers(line, r.now, r.members);
    JoinedKeeps(KeptMeta(line, r.now, r.members), joined, |joined|, line.joins, r.now);
  }

  /** The member is in the order or not, and has been offline since then. */
  ghost predicate OfflineSince(line: Line, x: AgentId, since: Millis, held: bool) {
    && (x in line.order <==> held)
    && (held ==> x in line.meta && line.meta[x].unavailableSince == Some(since))
  }

  lemma OfflineNext(line: Line, r: Reconciliation, x: AgentId, since: Millis, held: bool)
    requires PassedOffline(r, x) && OfflineSince(line, x, since, held)
    ensures OfflineSince(Reconciled(line, r.now, r.members), x, since, held && r.now - since <= 60000)
  {
    if held { OfflineStep(line, r, x, since); } else { OfflineStays(line, r, x); }
  }

  ghost predicate Within(runs: seq<Reconciliation>, since: Millis) {
    forall k | 0 <= k < |runs| :: runs[k].now - since <= 60000
  }

  lemma AvailableStayer(line: Line, r: Reconciliation, x: AgentId, i: nat)
    requires DistinctIds(r.members) && x in AvailableIds(r.members)
    requires i < |Staying(line, r.now, r.members)| && Staying(line, r.now, r.members)[i] == x
    ensures var next := Reconciled(line, r.now, r.members);
            x in next.meta && next.meta[x].unavailableSince.None?
  {
    StayerFields(line, r.now, r.members, i);
    assert x in Staying(line, r.now, r.members);
  }

  lemma {:induction false} AvailableAgain(line: Line, r: Reconciliation, x: AgentId)
    requires DistinctIds(r.members) && x in AvailableIds(r.members)
    ensures var next := Reconciled(line, r.now, r.members);
            x in next.order && x in next.meta && next.meta[x].unavailableSince.None?
  {
    var kept, joined := Staying(line, r.now, r.members), Newcomers(line, r.now, r.members);
    AvailableInOrder(line, r.now, r.members);
    if x in kept {
      var i: nat :| i < |kept| && kept[i] == x;
      AvailableStayer(line, r, x, i);
    } else {
      var j: nat :| j < |joined| && joined[j] == x;
      NewcomerFields(line, r.now, r.members, j);
    }
  }

  lemma {:induction false} HeldFromFirst(line: Line, runs: seq<Reconciliation>, x: AgentId)
    requires Proper(runs) && x in line.order && x in line.meta && line.meta[x].unavailableSince.None?
    requires runs != [] && forall k | 0 <= k < |runs| :: PassedOffline(runs[k], x)
    ensures OfflineSince(ReconciledAll(line, runs), x, runs[0].now, Within(runs, runs[0].now))
    decreases |runs|
  {
    var n := |runs| - 1;
    assert runs == runs[..n] + [runs[n]];
    if n == 0 {
      ReconciledOnce(line, runs[0]);
      OfflineStep(line, runs[0], x, runs[0].now);
    } else {
      HeldFromFirst(line, runs[..n], x);
      OfflineNext(ReconciledAll(line, runs[..n]), runs[n], x, runs[0].now, Within(runs[..n], runs[0].now));
      WithinNext(runs, n, runs[0].now);
    }
  }

  /** A member who was available, however often they had been offline before, and goes
      offline keeps the place for one minute and no longer, however often the order
      is reconciled meanwhile: it is theirs after these reconciliations if and only
      if none came more than 60 000 ms after the first. */
  lemma {:induction false} PlaceIsHeldAMinute(line: Line, last: Reconciliation, runs: seq<Reconciliation>, x: AgentId)
    requires DistinctIds(last.members) && x in AvailableIds(last.members) && Proper(runs)
    requires runs != [] && forall k | 0 <= k < |runs| :: PassedOffline(runs[k], x)
    ensures var before := Reconciled(line, last.now, last.members);
            x in ReconciledAll(before, runs).order <==> Within(runs, runs[0].now)
  {
    AvailableAgain(line, last, x);
    HeldFromFirst(Reconciled(line, last.now, last.members), runs, x);
  }

  lemma WithinNext(runs: seq<Reconciliation>, n: nat, since: Millis)
    requires n == |runs| - 1
    ensures Within(runs, since) <==> Within(runs[..n], since) && runs[n].now - since <= 60000
  {
    forall k | 0 <= k < n ensures runs[..n][k] == runs[k] {}
  }
}
