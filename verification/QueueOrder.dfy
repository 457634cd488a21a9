/** The order in which a queue's members became available, kept across
    reconciliations: the "longest available first" order of ROUND_ROBIN. */
module QueueOrder {
  import opened CallTypes
  import opened OfferHistory

  type Millis = t: int | t > 0 witness 1  // Date.now()

  const RECONNECT_HOLD_MS: int := 60000

  datatype Meta = Meta(enteredAt: Millis, joinSequence: Option<nat>, unavailableSince: Option<Millis>)

  // ---- Sequences of ids ----

  predicate Distinct(ids: seq<AgentId>) {
    forall i, j | 0 <= i < j < |ids| :: ids[i] != ids[j]
  }

  function Dedup(ids: seq<AgentId>): (r: seq<AgentId>)
    ensures Distinct(r) && forall x :: x in r <==> x in ids
    decreases |ids|
  {
    if ids == [] then []
    else
      var n := |ids| - 1;
      var init := Dedup(ids[..n]);
      if ids[n] in init then init else init + [ids[n]]
  }

  function Ids(ids: seq<AgentId>): set<AgentId> { set x | x in ids }

  /** The ids that are (or are not) in s, in their order. */
  function Among(ids: seq<AgentId>, s: set<AgentId>, within: bool): (r: seq<AgentId>)
    ensures forall x :: x in r <==> x in ids && (x in s) == within
    ensures Distinct(ids) ==> Distinct(r)
    decreases |ids|
  {
    if ids == [] then []
    else
      var n := |ids| - 1;
      var init := Among(ids[..n], s, within);
      if (ids[n] in s) == within then init + [ids[n]] else init
  }

  /** Whoever comes before somebody in `r` has the lower place in `ids`. */
  ghost predicate InOrderOf(r: seq<AgentId>, ids: seq<AgentId>) {
    forall i, j, p, q | 0 <= i < j < |r| && 0 <= p < |ids| && 0 <= q < |ids| && ids[p] == r[i] && ids[q] == r[j] ::
      p < q
  }

  lemma {:induction false} AmongKeepsOrder(ids: seq<AgentId>, s: set<AgentId>, within: bool)
    requires Distinct(ids)
    ensures InOrderOf(Among(ids, s, within), ids)
    decreases |ids|
  {
    if ids != [] {
      var n := |ids| - 1;
      var init, r := Among(ids[..n], s, within), Among(ids, s, within);
      AmongKeepsOrder(ids[..n], s, within);
      forall i, j, p, q | 0 <= i < j < |r| && 0 <= p < |ids| && 0 <= q < |ids| && ids[p] == r[i] && ids[q] == r[j]
        ensures p < q
      {
        assert r[i] == init[i] && init[i] in ids[..n];
        if q < n { assert ids[..n][p] == init[i] && j < |init| && ids[..n][q] == init[j]; }
      }
    }
  }

  predicate Ascending(ids: seq<AgentId>) {
    forall i, j | 0 <= i < j < |ids| :: ids[i] < ids[j]
  }

  /** The ids below x, then x, then the others. */
  function Insert(ids: seq<AgentId>, x: AgentId): (r: seq<AgentId>)
    requires Ascending(ids) && x !in ids
    ensures Ascending(r) && forall y :: y in r <==> y in ids || y == x
  {
    if ids == [] then [x]
    else if x < ids[0] then [x] + ids
    else
      var rest := Insert(ids[1..], x);
      assert forall k | 0 <= k < |rest| :: rest[k] in rest && (rest[k] in ids[1..] || rest[k] == x);
      [ids[0]] + rest
  }

  function Sorted(ids: seq<AgentId>): (r: seq<AgentId>)
    requires Distinct(ids)
    ensures Ascending(r) && forall y :: y in r <==> y in ids
  {
    if ids == [] then [] else Insert(Sorted(ids[1..]), ids[0])
  }

  // ---- What one reconciliation does ----

  function StatusOf(members: seq<Member>, id: AgentId): Option<Availability> {
    if members == [] then None
    else if members[0].id == id then Some(members[0].availability)
    else StatusOf(members[1..], id)
  }

  function AvailableIds(members: seq<Member>): seq<AgentId> {
    if members == [] then []
    else if IsAvailable(members[0]) then [members[0].id] + AvailableIds(members[1..])
    else AvailableIds(members[1..])
  }

  lemma {:induction false} AvailableIdsAre(members: seq<Member>)
    ensures forall x :: x in AvailableIds(members) <==> exists m :: m in members && m.id == x && IsAvailable(m)
    ensures DistinctIds(members) ==> Distinct(AvailableIds(members))
  {
    if members != [] {
      AvailableIdsAre(members[1..]);
      var rest := AvailableIds(members[1..]);
      assert forall k | 0 <= k < |rest| :: rest[k] in rest;
      forall x
        ensures x in AvailableIds(members) <==> exists m :: m in members && m.id == x && IsAvailable(m)
      {
        if m :| m in members && m.id == x && IsAvailable(m) {
          assert m == members[0] || m in members[1..];
        }
      }
    }
  }

  function MetaOf(meta: map<AgentId, Meta>, id: AgentId, now: Millis): Meta {
    if id in meta then meta[id] else Meta(now, None, None)
  }

  function UnavailableSince(m: Meta, now: Millis): Millis {
    if m.unavailableSince.Some? then m.unavailableSince.value else now
  }

  /** Briefly offline: a member keeps the place for a minute. */
  predicate HoldsPlace(meta: map<AgentId, Meta>, now: Millis, members: seq<Member>, id: AgentId) {
    StatusOf(members, id) == Some(Offline) && now - UnavailableSince(MetaOf(meta, id, now), now) <= RECONNECT_HOLD_MS
  }

  predicate Stays(meta: map<AgentId, Meta>, now: Millis, members: seq<Member>, id: AgentId) {
    id in AvailableIds(members) || HoldsPlace(meta, now, members, id)
  }

  /** One queue's stored order, with its per-member fields and join counter. */
  datatype Line = Line(order: seq<AgentId>, meta: map<AgentId, Meta>, joins: nat)

  function StayingOf(ids: seq<AgentId>, meta: map<AgentId, Meta>, now: Millis, members: seq<Member>): (r: seq<AgentId>)
    ensures Distinct(ids) ==> Distinct(r)
    ensures forall x :: x in r <==> x in ids && Stays(meta, now, members, x)
    decreases |ids|
  {
    if ids == [] then []
    else
      var n := |ids| - 1;
      var init := StayingOf(ids[..n], meta, now, members);
      if Stays(meta, now, members, ids[n]) then init + [ids[n]] else init
  }

  function Staying(line: Line, now: Millis, members: seq<Member>): (r: seq<AgentId>)
    ensures Distinct(r)
  {
    StayingOf(Dedup(line.order), line.meta, now, members)
  }

  function Newcomers(line: Line, now: Millis, members: seq<Member>): (r: seq<AgentId>)
    requires DistinctIds(members)
    ensures Ascending(r)
  {
    AvailableIdsAre(members);
    Sorted(Among(AvailableIds(members), Ids(Staying(line, now, members)), false))
  }

  function NextOrder(line: Line, now: Millis, members: seq<Member>): seq<AgentId>
    requires DistinctIds(members)
  {
    Staying(line, now, members) + Newcomers(line, now, members)
  }

  function MetaOfStayer(line: Line, now: Millis, members: seq<Member>, id: AgentId): Meta {
    var m := MetaOf(line.meta, id, now);
    if id in AvailableIds(members) then m.(unavailableSince := None)
    else m.(unavailableSince := Some(UnavailableSince(m, now)))
  }

  function KeptMeta(line: Line, now: Millis, members: seq<Member>): map<AgentId, Meta> {
    map id | id in Staying(line, now, members) :: MetaOfStayer(line, now, members, id)
  }

  /** `kept`, with the fields of the first n newcomers, who draw consecutive
      join numbers. */
  function Joined(kept: map<AgentId, Meta>, newcomers: seq<AgentId>, n: nat, joins: nat,
                  now: Millis): map<AgentId, Meta>
    requires n <= |newcomers|
  {
    if n == 0 then kept
    else Joined(kept, newcomers, n - 1, joins, now)[newcomers[n - 1] := Meta(now, Some(joins + n), None)]
  }

  function NextMeta(line: Line, now: Millis, members: seq<Member>): map<AgentId, Meta>
    requires DistinctIds(members)
  {
    var joined := Newcomers(line, now, members);
    Joined(KeptMeta(line, now, members), joined, |joined|, line.joins, now)
  }

  function Reconciled(line: Line, now: Millis, members: seq<Member>): Line
    requires DistinctIds(members)
  {
    Line(NextOrder(line, now, members), NextMeta(line, now, members), line.joins + |Newcomers(line, now, members)|)
  }

  // ---- The order it stores ----

  lemma NextOrderDistinct(line: Line, now: Millis, members: seq<Member>)
    requires DistinctIds(members)
    ensures Distinct(NextOrder(line, now, members))
  {
    var kept, joined := Staying(line, now, members), Newcomers(line, now, members);
    AvailableIdsAre(members);
    forall i, j | 0 <= i < j < |kept + joined|
      ensures (kept + joined)[i] != (kept + joined)[j]
    {
      if i < |kept| <= j {
        assert kept[i] in kept && joined[j - |kept|] in joined;
      }
    }
  }

  lemma AvailableInOrder(line: Line, now: Millis, members: seq<Member>)
    requires DistinctIds(members)
    ensures forall x | x in AvailableIds(members) :: x in NextOrder(line, now, members)
  {
    AvailableIdsAre(members);
    forall x | x in AvailableIds(members)
      ensures x in NextOrder(line, now, members)
    {
      assert x in Staying(line, now, members) || x in Newcomers(line, now, members);
    }
  }

  /** The reconciler returns exactly the available members passed in, each once, in
      the stored order. */
  lemma ReturnsAvailableInOrder(line: Line, now: Millis, members: seq<Member>)
    requires DistinctIds(members)
    ensures var order := NextOrder(line, now, members);
            var r := Among(order, Ids(AvailableIds(members)), true);
            && Distinct(order) && Distinct(r) && InOrderOf(r, order)
            && forall x :: x in r <==> exists m :: m in members && m.id == x && IsAvailable(m)
  {
    NextOrderDistinct(line, now, members);
    AvailableIdsAre(members);
    AvailableInOrder(line, now, members);
    AmongKeepsOrder(NextOrder(line, now, members), Ids(AvailableIds(members)), true);
  }

  // ---- The stored order of one queue ----

  class QueueOrder {
    var order: seq<AgentId>
    var meta: map<AgentId, Meta>
    var joins: nat

    constructor ()
      ensures Stored() == Line([], map[], 0)
    {
      order, meta, joins := [], map[], 0;
    }

    ghost function Stored(): Line
      reads this
    {
      Line(order, meta, joins)
    }

    method ReconcileQueueOrder(now: Millis, members: seq<Member>) returns (result: seq<AgentId>)
      requires DistinctIds(members)
      modifies this
      ensures Stored() == Reconciled(old(Stored()), now, members)
      ensures result == Among(order, Ids(AvailableIds(members)), true)
      ensures Distinct(order) && Distinct(result) && InOrderOf(result, order)
      ensures forall x :: x in result <==> exists m :: m in members && m.id == x && IsAvailable(m)
    {
      var available := AvailableIds(members);
      var nextOrder, nextMeta := KeepPlaces(now, members, available);
      AvailableIdsAre(members);
      var newcomers := Sorted(Among(available, Ids(nextOrder), false));
      nextOrder, nextMeta := JoinTail(now, newcomers, nextOrder, nextMeta);
      order := nextOrder;
      StaleGone(meta, nextMeta);
      meta := (meta - (meta.Keys - nextMeta.Keys)) + nextMeta;
      result := Among(order, Ids(AvailableIds(members)), true);
      ReturnsAvailableInOrder(old(Stored()), now, members);
    }

    /** The loop over the stored order. */
    method KeepPlaces(now: Millis, members: seq<Member>, available: seq<AgentId>)
      returns (nextOrder: seq<AgentId>, nextMeta: map<AgentId, Meta>)
      requires available == AvailableIds(members)
      ensures nextOrder == Staying(Stored(), now, members)
      ensures nextMeta == KeptMeta(Stored(), now, members)
    {
      var previousOrder := Dedup(order);
      nextOrder, nextMeta := [], map[];
      for i := 0 to |previousOrder|
        invariant nextOrder == StayingOf(previousOrder[..i], meta, now, members)
        invariant MetaKept(nextMeta, nextOrder, Stored(), now, members)
      {
        var id := previousOrder[i];
        StayingNext(previousOrder, i, meta, now, members);
        var m := MetaOf(meta, id, now);
        MetaKeptNext(nextMeta, nextOrder, id, Stored(), now, members);
        if id in available {
          nextOrder := nextOrder + [id];
          nextMeta := nextMeta[id := Meta(m.enteredAt, m.joinSequence, None)];
        } else {
          var unavailableSince := UnavailableSince(m, now);
          if StatusOf(members, id) == Some(Offline) && now - unavailableSince <= RECONNECT_HOLD_MS {
            nextOrder := nextOrder + [id];
            nextMeta := nextMeta[id := Meta(m.enteredAt, m.joinSequence, Some(unavailableSince))];
          }
        }
      }
      assert previousOrder[..|previousOrder|] == previousOrder;
    }

    /** The loop over the members who join at the tail. */
    method JoinTail(now: Millis, newcomers: seq<AgentId>, placed: seq<AgentId>, kept: map<AgentId, Meta>)
      returns (nextOrder: seq<AgentId>, nextMeta: map<AgentId, Meta>)
      modifies this`joins
      ensures nextOrder == placed + newcomers
      ensures nextMeta == Joined(kept, newcomers, |newcomers|, old(joins), now)
      ensures joins == old(joins) + |newcomers|
    {
      nextOrder, nextMeta := placed, kept;
      for i := 0 to |newcomers|
        invariant joins == old(joins) + i && nextOrder == placed + newcomers[..i]
        invariant nextMeta == Joined(kept, newcomers, i, old(joins), now)
      {
        var id := newcomers[i];
        assert placed + newcomers[..i + 1] == placed + newcomers[..i] + [id];
        nextOrder := nextOrder + [id];
        joins := joins + 1;
        nextMeta := nextMeta[id := Meta(now, Some(joins), None)];
      }
      assert newcomers[..|newcomers|] == newcomers;
    }
  }

  ghost predicate MetaKept(meta: map<AgentId, Meta>, ids: seq<AgentId>, line: Line, now: Millis, members: seq<Member>) {
    && (forall id :: id in meta <==> id in ids)
    && (forall id | id in meta :: meta[id] == MetaOfStayer(line, now, members, id))
  }

  lemma MetaKeptNext(meta: map<AgentId, Meta>, ids: seq<AgentId>, id: AgentId, line: Line, now: Millis,
                     members: seq<Member>)
    requires MetaKept(meta, ids, line, now, members)
    ensures MetaKept(meta[id := MetaOfStayer(line, now, members, id)], ids + [id], line, now, members)
  {
  }

  lemma StayingNext(ids: seq<AgentId>, i: nat, meta: map<AgentId, Meta>, now: Millis, members: seq<Member>)
    requires i < |ids|
    ensures StayingOf(ids[..i + 1], meta, now, members)
         == StayingOf(ids[..i], meta, now, members) + (if Stays(meta, now, members, ids[i]) then [ids[i]] else [])
  {
    assert ids[..i + 1][..i] == ids[..i];
  }

  /** Deleting the stale fields and writing the new ones leaves the new ones. */
  lemma StaleGone(stored: map<AgentId, Meta>, next: map<AgentId, Meta>)
    ensures (stored - (stored.Keys - next.Keys)) + next == next
  {
  }
}
