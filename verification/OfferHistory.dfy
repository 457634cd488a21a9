/** Who has passed on a waiting call, and the rounds of offers that follow from
    it: a decliner is out for good, a member who missed the offer is skipped
    until every available member left has missed it too. */
module OfferHistory {
  import opened CallTypes

  /** A queue member with the status it was read with. */
  datatype Member = Member(id: AgentId, availability: Availability, priority: nat)

  predicate IsAvailable(m: Member) { m.availability == Available }

  predicate DistinctIds(members: seq<Member>) {
    forall i, j | 0 <= i < j < |members| :: members[i].id != members[j].id
  }

  datatype Passed = Passed(declined: set<AgentId>, missed: set<AgentId>)

  function Without(members: seq<Member>, ids: set<AgentId>): (r: seq<Member>)
    ensures forall m :: m in r <==> m in members && m.id !in ids
    ensures DistinctIds(members) ==> DistinctIds(r)
  {
    if members == [] then []
    else if members[0].id in ids then Without(members[1..], ids)
    else [members[0]] + Without(members[1..], ids)
  }

  predicate AnyAvailable(members: seq<Member>) {
    exists m | m in members :: IsAvailable(m)
  }

  /** Everyone available who has not declined has missed it this round. */
  predicate RoundOver(p: Passed, members: seq<Member>) {
    var left := Without(members, p.declined);
    p.missed != {} && AnyAvailable(left) && !AnyAvailable(Without(left, p.missed))
  }

  /** The members the call may be offered to now. */
  function Offerable(p: Passed, members: seq<Member>): seq<Member> {
    var left := Without(members, p.declined);
    if p.missed == {} || AnyAvailable(Without(left, p.missed)) then Without(left, p.missed) else left
  }

  function AfterLook(p: Passed, members: seq<Member>): Passed {
    if RoundOver(p, members) then p.(missed := {}) else p
  }

  /** The stored sets of every call; a call without one has passed nobody. */
  datatype History = History(declined: map<CallId, set<AgentId>>, missed: map<CallId, set<AgentId>>) {
    function Of(c: CallId): Passed {
      Passed(if c in declined then declined[c] else {}, if c in missed then missed[c] else {})
    }

    function Record(c: CallId, a: AgentId, kind: PassKind): History {
      if kind == Declined then this.(declined := declined[c := Of(c).declined + {a}])
      else this.(missed := missed[c := Of(c).missed + {a}])
    }

    function ClearMissed(c: CallId): History { this.(missed := missed - {c}) }

    /** After a look at a call: its missed set is gone if the round was over. */
    function Look(c: CallId, members: seq<Member>): History {
      if RoundOver(Of(c), members) then ClearMissed(c) else this
    }
  }

  /** A look changes its own call's sets alone, and as the rounds say. */
  lemma LookIsAfterLook(h: History, c: CallId, members: seq<Member>, d: CallId)
    ensures h.Look(c, members).Of(d) == if d == c then AfterLook(h.Of(c), members) else h.Of(d)
  {
  }

  class OfferHistory {
    var declined: map<CallId, set<AgentId>>
    var missed: map<CallId, set<AgentId>>

    constructor ()
      ensures Stored() == History(map[], map[])
    {
      declined, missed := map[], map[];
    }

    ghost function Stored(): History
      reads this
    {
      History(declined, missed)
    }

    method Record(c: CallId, a: AgentId, kind: PassKind)
      modifies this
      ensures Stored() == old(Stored()).Record(c, a, kind)
    {
      if kind == Declined {
        declined := declined[c := (if c in declined then declined[c] else {}) + {a}];
      } else {
        missed := missed[c := (if c in missed then missed[c] else {}) + {a}];
      }
    }

    method ClearMissed(c: CallId)
      modifies this`missed
      ensures Stored() == old(Stored()).ClearMissed(c)
    {
      missed := missed - {c};
    }

    method Eligible(c: CallId, members: seq<Member>) returns (eligible: seq<Member>)
      modifies this`missed
      ensures eligible == Offerable(old(Stored()).Of(c), members)
      ensures Stored() == old(Stored()).Look(c, members)
    {
      var p := Passed(if c in declined then declined[c] else {}, if c in missed then missed[c] else {});
      if p.declined == {} && p.missed == {} {
        WithoutNobody(members);
        return members;
      }
      var notDeclined := Without(members, p.declined);
      var untried := Without(notDeclined, p.missed);
      if p.missed == {} || AnyAvailable(untried) { return untried; }
      if AnyAvailable(notDeclined) { ClearMissed(c); }
      eligible := notDeclined;
    }
  }

  lemma {:induction false} WithoutNobody(members: seq<Member>)
    ensures Without(members, {}) == members
  {
    if members != [] { WithoutNobody(members[1..]); }
  }

  // ---- Rounds ----

  /** What happens to one waiting call, offers being serial: a drain looks at it
      with the members it read and may offer it to one of them, who passes; or
      the call overflows to another queue. */
  datatype Event =
    | Look(members: seq<Member>, offer: Option<(AgentId, PassKind)>)
    | Overflowed

  function After(p: Passed, e: Event): Passed {
    match e
    case Overflowed => p.(missed := {})
    case Look(members, None) => AfterLook(p, members)
    case Look(members, Some(offer)) =>
      var q := AfterLook(p, members);
      if offer.1 == Declined then q.(declined := q.declined + {offer.0}) else q.(missed := q.missed + {offer.0})
  }

  function AfterAll(p: Passed, events: seq<Event>): Passed
    decreases |events|
  {
    if events == [] then p else After(AfterAll(p, events[..|events| - 1]), events[|events| - 1])
  }

  /** A drain offers the call only to an available member it may be offered to. */
  predicate Possible(p: Passed, e: Event) {
    e.Look? && e.offer.Some? ==>
      exists m | m in Offerable(p, e.members) :: m.id == e.offer.value.0 && IsAvailable(m)
  }

  ghost predicate Serial(p: Passed, events: seq<Event>) {
    forall k | 0 <= k < |events| :: Possible(AfterAll(p, events[..k]), events[k])
  }

  /** Event k starts a new round. */
  predicate Clears(p: Passed, e: Event) {
    e.Overflowed? || RoundOver(p, e.members)
  }

  /** A drain starts a new round only when every available member who has not
      declined the call has missed it, and there is one. */
  lemma NewRoundOnlyWhenAllMissed(p: Passed, members: seq<Member>)
    ensures RoundOver(p, members) <==>
              (exists m :: m in members && IsAvailable(m) && m.id !in p.declined)
              && (forall m | m in members && IsAvailable(m) && m.id !in p.declined :: m.id in p.missed)
  {
    var left := Without(members, p.declined);
    if RoundOver(p, members) {
      var m :| m in left && IsAvailable(m);
      forall n | n in members && IsAvailable(n) && n.id !in p.declined
        ensures n.id in p.missed
      {
        assert n in left && (n.id !in p.missed ==> n in Without(left, p.missed));
      }
    } else if exists m :: m in members && IsAvailable(m) && m.id !in p.declined {
      var m :| m in members && IsAvailable(m) && m.id !in p.declined;
      assert m in left;
      if p.missed != {} {
        var n :| n in Without(left, p.missed) && IsAvailable(n);
      }
    }
  }

  /** The available members a call may be offered to are those who have not declined
      it, and have not missed it either unless all of these have. */
  lemma OfferableIff(p: Passed, members: seq<Member>, m: Member)
    requires IsAvailable(m)
    ensures m in Offerable(p, members) <==>
              && m in members && m.id !in p.declined
              && (m.id in p.missed ==>
                    forall n | n in members && IsAvailable(n) && n.id !in p.declined :: n.id in p.missed)
  {
    var left := Without(members, p.declined);
    NewRoundOnlyWhenAllMissed(p, members);
    assert m in left <==> m in members && m.id !in p.declined;
  }

  ghost predicate HasId(members: seq<Member>, a: AgentId) { exists m :: m in members && m.id == a }

  lemma OfferableIdIff(p: Passed, members: seq<Member>, a: AgentId)
    requires forall m | m in members :: IsAvailable(m)
    ensures HasId(Offerable(p, members), a) <==>
              && HasId(members, a) && a !in p.declined
              && (a in p.missed ==> forall b | HasId(members, b) && b !in p.declined :: b in p.missed)
  {
    var left := Without(members, p.declined);
    assert forall m | m in members && m.id !in p.declined :: HasId(members, m.id);
    if HasId(members, a) {
      var m :| m in members && m.id == a;
      OfferableIff(p, members, m);
    }
    if HasId(Offerable(p, members), a) {
      var m :| m in Offerable(p, members) && m.id == a;
      assert m in left;
      OfferableIff(p, members, m);
    }
  }

  /** A member offered the call has not declined it, and has not missed it since
      the last new round. */
  lemma OfferedIsFresh(p: Passed, e: Event)
    requires Possible(p, e) && e.Look? && e.offer.Some?
    ensures e.offer.value.0 !in p.declined
    ensures e.offer.value.0 in p.missed ==> Clears(p, e)
  {
    var m :| m in Offerable(p, e.members) && m.id == e.offer.value.0 && IsAvailable(m);
    assert m in Without(e.members, p.declined);
  }

  /** A decline lasts: nobody who declined the call is offered it again. */
  lemma {:induction false} DeclineLasts(p: Passed, events: seq<Event>, a: AgentId)
    requires a in p.declined
    ensures a in AfterAll(p, events).declined
    decreases |events|
  {
    if events != [] { DeclineLasts(p, events[..|events| - 1], a); }
  }

  lemma {:induction false} AfterSplit(p: Passed, xs: seq<Event>, ys: seq<Event>)
    ensures AfterAll(p, xs + ys) == AfterAll(AfterAll(p, xs), ys)
    decreases |ys|
  {
    if ys == [] {
      assert xs + ys == xs;
    } else {
      AfterSplit(p, xs, ys[..|ys| - 1]);
      assert (xs + ys)[..|xs + ys| - 1] == xs + ys[..|ys| - 1];
    }
  }

  /** Event k starts a new round for the call. */
  ghost predicate NewRound(p: Passed, events: seq<Event>, k: nat)
    requires k < |events|
  {
    Clears(AfterAll(p, events[..k]), events[k])
  }

  ghost predicate SomeNewRound(p: Passed, events: seq<Event>) {
    exists k :: 0 <= k < |events| && NewRound(p, events, k)
  }

  predicate Offers(e: Event, a: AgentId) {
    e.Look? && e.offer.Some? && e.offer.value.0 == a
  }

  lemma MissLastsOne(p: Passed, e: Event, a: AgentId)
    requires a in p.missed && !Clears(p, e)
    ensures a in After(p, e).missed
  {
  }

  lemma NewRoundInPrefix(p: Passed, events: seq<Event>, n: nat)
    requires n <= |events| && SomeNewRound(p, events[..n])
    ensures SomeNewRound(p, events)
  {
    var k :| 0 <= k < n && NewRound(p, events[..n], k);
    assert events[..n][..k] == events[..k];
    assert NewRound(p, events, k);
  }

  /** A miss lasts until a new round starts. */
  lemma {:induction false} MissLasts(p: Passed, events: seq<Event>, a: AgentId)
    requires a in p.missed
    ensures a in AfterAll(p, events).missed || SomeNewRound(p, events)
    decreases |events|
  {
    if events != [] {
      var n := |events| - 1;
      var q := AfterAll(p, events[..n]);
      MissLasts(p, events[..n], a);
      if SomeNewRound(p, events[..n]) {
        NewRoundInPrefix(p, events, n);
      } else if Clears(q, events[n]) {
        assert NewRound(p, events, n);
      } else {
        MissLastsOne(q, events[n], a);
      }
    }
  }

  /** From just after an offer its member passed on, up to their next offer of
      the same call: it was missed, not declined, and a new round started. */
  lemma SecondOffer(q: Passed, events: seq<Event>, e: Event, a: AgentId)
    requires Offers(e, a) && Possible(AfterAll(q, events), e)
    requires a in q.declined || a in q.missed
    ensures a !in q.declined
    ensures SomeNewRound(q, events) || Clears(AfterAll(q, events), e)
  {
    OfferedIsFresh(AfterAll(q, events), e);
    if a in q.declined { DeclineLasts(q, events, a); } else { MissLasts(q, events, a); }
  }

  /** The same events, told from the start. */
  lemma RoundsShift(p: Passed, events: seq<Event>, i: nat, j: nat)
    requires i <= j < |events|
    ensures AfterAll(AfterAll(p, events[..i]), events[i..j]) == AfterAll(p, events[..j])
    ensures SomeNewRound(AfterAll(p, events[..i]), events[i..j]) ==> exists k | i <= k < j :: NewRound(p, events, k)
  {
    var q, mid := AfterAll(p, events[..i]), events[i..j];
    AfterPart(p, events, i, j);
    if SomeNewRound(q, mid) {
      var k :| 0 <= k < |mid| && NewRound(q, mid, k);
      RoundShifts(p, events, i, j, k, i + k);
    }
  }

  lemma AfterPart(p: Passed, events: seq<Event>, i: nat, j: nat)
    requires i <= j <= |events|
    ensures AfterAll(AfterAll(p, events[..i]), events[i..j]) == AfterAll(p, events[..j])
  {
    var xs, ys, all := events[..i], events[i..j], events[..j];
    assert xs + ys == all;
    AfterSplit(p, xs, ys);
  }

  lemma RoundShifts(p: Passed, events: seq<Event>, i: nat, j: nat, k: nat, n: nat)
    requires n == i + k < j < |events| && NewRound(AfterAll(p, events[..i]), events[i..j], k)
    ensures NewRound(p, events, n)
  {
    Within(events, i, j, k, n);
    AfterPart(p, events, i, n);
  }

  lemma Within(events: seq<Event>, i: nat, j: nat, k: nat, n: nat)
    requires n == i + k < j <= |events|
    ensures events[i..j][..k] == events[i..n] && events[i..j][k] == events[n]
  {}

  /** Rounds: a call offered to the same member twice was not declined by them,
      and a new round started after the first offer and by the second. */
  lemma OfferedOncePerRound(p: Passed, events: seq<Event>, i: nat, j: nat, a: AgentId)
    requires Serial(p, events) && i < j < |events| && Offers(events[i], a) && Offers(events[j], a)
    ensures events[i].offer.value.1 == Missed
    ensures exists k | i < k <= j :: NewRound(p, events, k)
  {
    var q := AfterAll(p, events[..i + 1]);
    PassedOnRecords(p, events, i, a);
    RoundsShift(p, events, i + 1, j);
    SecondOffer(q, events[i + 1..j], events[j], a);
    if Clears(AfterAll(p, events[..j]), events[j]) { assert NewRound(p, events, j); }
  }

  lemma PassedOnRecords(p: Passed, events: seq<Event>, i: nat, a: AgentId)
    requires i < |events| && Offers(events[i], a)
    ensures var q := AfterAll(p, events[..i + 1]);
            if events[i].offer.value.1 == Declined then a in q.declined else a in q.missed
  {
    assert events[..i + 1][..i] == events[..i];
  }
}
