/** The calls an agent's client holds: one object per call, whatever the server
    repeats, reorders or resends after a reconnect. */
module AgentRegistry {
  import opened CallTypes

  type Id = string
  type DeviceId = string

  datatype CallState = Ringing | Dialing | Connecting | Active | Elsewhere | Ended

  /** A call object; objects are numbered as they are made. */
  datatype CallObject = CallObject(id: Id, state: CallState)

  /** An entry of the server's list of ongoing calls. */
  datatype Entry = Entry(id: Id, mine: bool, over: bool, offered: bool, device: Option<DeviceId>)

  /** `ended` lists the callEnded events by object, `dialled` the ids ever passed to
      startOutbound. */
  datatype Registry = Registry(
    objects: seq<CallObject>,
    calls: map<Id, nat>,
    resolved: set<Id>,
    ended: seq<nat>,
    dialled: set<Id>)

  const INITIAL := Registry([], map[], {}, [], {})

  function Made(r: Registry, id: Id, state: CallState): Registry {
    r.(objects := r.objects + [CallObject(id, state)], calls := r.calls[id := |r.objects|])
  }

  function EndedCall(r: Registry, n: nat): Registry {
    if n >= |r.objects| || r.objects[n].state == Ended then r
    else r.(objects := r.objects[n := r.objects[n].(state := Ended)],
            calls := r.calls - {r.objects[n].id}, resolved := r.resolved + {r.objects[n].id}, ended := r.ended + [n])
  }

  function Offered(r: Registry, id: Id): Registry {
    if id in r.resolved || id in r.calls then r else Made(r, id, CallState.Ringing)
  }

  function Listed(r: Registry, e: Entry, here: DeviceId): Registry {
    if !e.mine || e.id in r.calls || e.id in r.resolved || e.over then r
    else if e.offered && (e.device.None? || e.device.value == "") then Made(r, e.id, CallState.Ringing)
    else if e.device.Some? && e.device.value != "" && e.device.value != here then Made(r, e.id, Elsewhere)
    else if e.device == Some(here) then Made(r, e.id, Connecting)
    else r
  }

  function AllListed(r: Registry, list: seq<Entry>, here: DeviceId): Registry {
    if list == [] then r else Listed(AllListed(r, list[..|list| - 1], here), list[|list| - 1], here)
  }

  function Seen(list: seq<Entry>): set<Id> { set e | e in list && e.mine :: e.id }

  /** The first `n` objects, those ended that the list no longer names. */
  function GoneEnded(r: Registry, n: nat, seen: set<Id>): Registry {
    if n == 0 then r else EndedIfGone(GoneEnded(r, n - 1, seen), n - 1, seen)
  }

  function EndedIfGone(r: Registry, n: nat, seen: set<Id>): Registry {
    if Gone(r, n, seen) then EndedCall(r, n) else r
  }

  predicate Gone(r: Registry, n: nat, seen: set<Id>) {
    && n < |r.objects| && r.objects[n].id in r.calls && r.calls[r.objects[n].id] == n
    && r.objects[n].id !in seen && r.objects[n].state != Dialing
  }

  function Reconciled(r: Registry, list: seq<Entry>, here: DeviceId): Registry {
    var listed := AllListed(r, list, here);
    GoneEnded(listed, |listed.objects|, Seen(list))
  }

  class CallioAgent {
    const here: DeviceId
    var objects: seq<CallObject>
    var calls: map<Id, nat>
    var resolved: set<Id>
    var ended: seq<nat>
    ghost var dialled: set<Id>

    ghost function State(): Registry
      reads this
    {
      Registry(objects, calls, resolved, ended, dialled)
    }

    constructor (here: DeviceId)
      ensures this.here == here && State() == INITIAL
    {
      this.here := here;
      objects, calls, resolved, ended, dialled := [], map[], {}, [], {};
    }

    method New(id: Id, state: CallState)
      modifies this
      ensures State() == Made(old(State()), id, state)
    {
      calls := calls[id := |objects|];
      objects := objects + [CallObject(id, state)];
    }

    method StartOutbound(id: Id)
      modifies this
      ensures State() == Made(old(State()), id, Dialing).(dialled := old(dialled) + {id})
    {
      New(id, Dialing);
      dialled := dialled + {id};
    }

    method End(n: nat)
      modifies this
      ensures State() == EndedCall(old(State()), n)
    {
      if n >= |objects| || objects[n].state == Ended { return; }
      var id := objects[n].id;
      objects := objects[n := objects[n].(state := Ended)];
      calls := calls - {id};
      resolved := resolved + {id};
      ended := ended + [n];
    }

    method Offer(id: Id)
      modifies this
      ensures State() == Offered(old(State()), id)
    {
      if id in resolved || id in calls { return; }
      New(id, CallState.Ringing);
    }

    method Reconcile(list: seq<Entry>)
      modifies this
      ensures State() == Reconciled(old(State()), list, here)
    {
      var seen: set<Id> := {};
      var i := 0;
      while i < |list|
        invariant 0 <= i <= |list|
        invariant seen == Seen(list[..i])
        invariant State() == AllListed(old(State()), list[..i], here)
      {
        var e := list[i];
        assert list[..i + 1] == list[..i] + [e] && list[..i + 1][..i] == list[..i];
        if e.mine { seen := seen + {e.id}; }
        ListOne(e);
        i := i + 1;
      }
      assert list[..i] == list;
      ghost var listed := State();
      var n, all := 0, |objects|;
      while n < all
        invariant 0 <= n <= all && all == |objects|
        invariant State() == GoneEnded(listed, n, seen)
      {
        var o := objects[n];
        if o.id in calls && calls[o.id] == n && o.id !in seen && o.state != Dialing {
          End(n);
        }
        n := n + 1;
      }
    }

    method ListOne(e: Entry)
      modifies this
      ensures State() == Listed(old(State()), e, here)
    {
      if !e.mine || e.id in calls || e.id in resolved || e.over { return; }
      if e.offered && (e.device.None? || e.device.value == "") {
        Offer(e.id);
      } else if e.device.Some? && e.device.value != "" && e.device.value != here {
        New(e.id, Elsewhere);
      } else if e.device == Some(here) {
        New(e.id, Connecting);
      }
    }
  }

  // ---- Any stream of events ----

  datatype Event =
    | Incoming(id: Id)                         // an offer for this agent
    | CallsList(list: seq<Entry>)
    | EndCall(id: Id, ifRinging: bool)         // terminated, failed; withdrawn, answered elsewhere
    | EndObject(object: nat)                   // the object itself: hung up, declined, media lost, however late
    | Move(object: nat, state: CallState)      // accepted, connected, taken to another device
    | Dial(id: Id)

  function Next(r: Registry, e: Event, here: DeviceId): Registry {
    match e
    case Incoming(id) => Offered(r, id)
    case CallsList(list) => Reconciled(r, list, here)
    case EndCall(id, ifRinging) =>
      if id in r.calls && r.calls[id] < |r.objects| && (ifRinging ==> r.objects[r.calls[id]].state == CallState.Ringing)
      then EndedCall(r, r.calls[id]) else r
    case EndObject(n) => EndedCall(r, n)
    case Move(n, state) =>
      if n < |r.objects| && r.objects[n].state != Ended && state != Ended
      then r.(objects := r.objects[n := r.objects[n].(state := state)]) else r
    case Dial(id) => Made(r, id, Dialing).(dialled := r.dialled + {id})
  }

  function RunAll(r: Registry, events: seq<Event>, here: DeviceId): Registry
    decreases |events|
  {
    if events == [] then r else RunAll(Next(r, events[0], here), events[1..], here)
  }

  /** The registry's calls are their own live objects. */
  ghost predicate Named(r: Registry) {
    forall id :: id in r.calls ==>
      r.calls[id] < |r.objects| && r.objects[r.calls[id]].id == id && r.objects[r.calls[id]].state != Ended
  }

  ghost predicate Inv(r: Registry) {
    && Named(r)
    && (forall n :: 0 <= n < |r.objects| && r.objects[n].id !in r.dialled ==>
          if r.objects[n].state == Ended then r.objects[n].id in r.resolved && r.objects[n].id !in r.calls
          else r.objects[n].id in r.calls && r.calls[r.objects[n].id] == n)
    && (forall m, n :: 0 <= m < n < |r.objects| && r.objects[m].id !in r.dialled ==> r.objects[m].id != r.objects[n].id)
    && (forall n :: n in r.ended <==> 0 <= n < |r.objects| && r.objects[n].state == Ended)
    && (forall i, j :: 0 <= i < j < |r.ended| ==> r.ended[i] != r.ended[j])
  }

  lemma MadeKeeps(r: Registry, id: Id, state: CallState)
    requires Inv(r) && state != Ended && (id in r.dialled || (id !in r.calls && id !in r.resolved))
    ensures Inv(Made(r, id, state))
  {
    var t := Made(r, id, state);
    forall n | 0 <= n < |t.objects| && t.objects[n].id !in t.dialled
      ensures n < |r.objects| ==> t.objects[n].id != id
    {
      if n < |r.objects| { assert t.objects[n] == r.objects[n]; }
    }
  }

  lemma EndedKeeps(r: Registry, n: nat)
    requires Inv(r)
    ensures Inv(EndedCall(r, n))
  {}

  lemma {:induction false} AllListedKeeps(r: Registry, list: seq<Entry>, here: DeviceId)
    requires Inv(r)
    ensures Inv(AllListed(r, list, here))
  {
    if list != [] {
      AllListedKeeps(r, list[..|list| - 1], here);
      var before, e := AllListed(r, list[..|list| - 1], here), list[|list| - 1];
      if Listed(before, e, here) != before {
        MadeKeeps(before, e.id, CallState.Ringing);
        MadeKeeps(before, e.id, Elsewhere);
        MadeKeeps(before, e.id, Connecting);
      }
    }
  }

  lemma {:induction false} GoneEndedKeeps(r: Registry, n: nat, seen: set<Id>)
    requires Inv(r)
    ensures Inv(GoneEnded(r, n, seen))
  {
    if n > 0 {
      var m: nat := n - 1;
      GoneEndedKeeps(r, m, seen);
      OneGoneKeeps(GoneEnded(r, m, seen), m, seen);
      GoneEndedNext(r, m, n, seen);
    }
  }

  lemma {:induction false} GoneEndedNext(r: Registry, m: nat, n: nat, seen: set<Id>)
    requires n == m + 1
    ensures GoneEnded(r, n, seen) == EndedIfGone(GoneEnded(r, m, seen), m, seen)
  {}

  lemma OneGoneKeeps(r: Registry, n: nat, seen: set<Id>)
    requires Inv(r)
    ensures Inv(EndedIfGone(r, n, seen))
  {
    EndedKeeps(r, n);
  }

  lemma ListKeeps(r: Registry, list: seq<Entry>, here: DeviceId)
    requires Inv(r)
    ensures Inv(Reconciled(r, list, here))
  {
    var listed := AllListed(r, list, here);
    AllListedKeeps(r, list, here);
    GoneEndedKeeps(listed, |listed.objects|, Seen(list));
  }

  lemma NextKeeps(r: Registry, e: Event, here: DeviceId)
    requires Inv(r)
    ensures Inv(Next(r, e, here))
  {
    match e
    case Incoming(id) => if Offered(r, id) != r { MadeKeeps(r, id, CallState.Ringing); }
    case CallsList(list) =>
      ListKeeps(r, list, here);
    case EndCall(id, ifRinging) => if id in r.calls { EndedKeeps(r, r.calls[id]); }
    case EndObject(n) => EndedKeeps(r, n);
    case Move(n, state) =>
    case Dial(id) =>
      var d := r.(dialled := r.dialled + {id});
      MadeKeeps(d, id, Dialing);
  }

  lemma {:induction false} InvHolds(r: Registry, events: seq<Event>, here: DeviceId)
    requires Inv(r)
    ensures Inv(RunAll(r, events, here))
    decreases |events|
  {
    if events != [] {
      NextKeeps(r, events[0], here);
      InvHolds(Next(r, events[0], here), events[1..], here);
    }
  }

  // ---- Main results ----

  /** An id never dialled gets at most one call object and at most one callEnded,
      over any stream of events, and no event brings it back once it ended. */
  lemma OneObjectPerCall(events: seq<Event>, here: DeviceId, id: Id)
    requires id !in RunAll(INITIAL, events, here).dialled
    ensures var r := RunAll(INITIAL, events, here);
            && (forall m, n :: 0 <= m < n < |r.objects| ==> r.objects[m].id != id || r.objects[n].id != id)
            && (forall i, j :: 0 <= i < j < |r.ended| ==> EndedId(r, i) != Some(id) || EndedId(r, j) != Some(id))
            && (id in r.calls ==> forall i :: 0 <= i < |r.ended| ==> EndedId(r, i) != Some(id))
  {
    InvHolds(INITIAL, events, here);
    var r := RunAll(INITIAL, events, here);
    forall i | 0 <= i < |r.ended| ensures r.ended[i] < |r.objects| { assert r.ended[i] in r.ended; }
  }

  function EndedId(r: Registry, i: nat): Option<Id>
    requires i < |r.ended|
  {
    if r.ended[i] < |r.objects| then Some(r.objects[r.ended[i]].id) else None
  }

  function HeldState(r: Registry, id: Id): Option<CallState> {
    if id in r.calls && r.calls[id] < |r.objects| then Some(r.objects[r.calls[id]].state) else None
  }

  /** After a list, every call held is one the list names as this agent's, or one
      still being dialled. */
  lemma ListIsTheTruth(events: seq<Event>, list: seq<Entry>, here: DeviceId)
    ensures var r := Reconciled(RunAll(INITIAL, events, here), list, here);
            forall id :: id in r.calls ==>
              HeldState(r, id) == Some(Dialing) || exists e :: e in list && e.mine && e.id == id
  {
    InvHolds(INITIAL, events, here);
    var listed := AllListed(RunAll(INITIAL, events, here), list, here);
    AllListedKeeps(RunAll(INITIAL, events, here), list, here);
    GoneAreEnded(listed, |listed.objects|, Seen(list));
    GoneEndedKeeps(listed, |listed.objects|, Seen(list));
  }

  /** Calls only leave the registry, and those that stay are as they were. */
  ghost predicate Shrinks(r: Registry, t: Registry) {
    && |t.objects| == |r.objects|
    && forall id :: id in t.calls ==>
         id in r.calls && t.calls[id] == r.calls[id] && HeldState(t, id) == HeldState(r, id)
  }

  /** Of the first `n` objects, those held are named by the list or being dialled. */
  ghost predicate NamedOrDialled(r: Registry, n: nat, seen: set<Id>) {
    forall id :: id in r.calls && r.calls[id] < n ==> id in seen || HeldState(r, id) == Some(Dialing)
  }

  lemma {:induction false} GoneAreEnded(r: Registry, n: nat, seen: set<Id>)
    requires Named(r) && n <= |r.objects|
    ensures var t := GoneEnded(r, n, seen);
            Named(t) && Shrinks(r, t) && NamedOrDialled(t, n, seen)
  {
    if n > 0 {
      var before := GoneEnded(r, n - 1, seen);
      GoneAreEnded(r, n - 1, seen);
      OneGone(before, n - 1, seen);
    }
  }

  lemma OneGone(r: Registry, n: nat, seen: set<Id>)
    requires Named(r) && n < |r.objects| && NamedOrDialled(r, n, seen)
    ensures var t := EndedIfGone(r, n, seen);
            Named(t) && Shrinks(r, t) && NamedOrDialled(t, n + 1, seen)
  {}

  lemma {:induction false} HeldStays(r: Registry, list: seq<Entry>, here: DeviceId, id: Id)
    requires Named(r) && id in r.calls
    ensures var t := AllListed(r, list, here);
            && id in t.calls && t.calls[id] == r.calls[id] < |r.objects| <= |t.objects|
            && HeldState(t, id) == HeldState(r, id)
  {
    if list != [] { HeldStays(r, list[..|list| - 1], here, id); }
  }

  lemma {:induction false} DialledStays(r: Registry, n: nat, seen: set<Id>, id: Id)
    requires Named(r) && n <= |r.objects| && HeldState(r, id) == Some(Dialing)
    ensures HeldState(GoneEnded(r, n, seen), id) == Some(Dialing)
  {
    if n > 0 {
      var m: nat := n - 1;
      DialledStays(r, m, seen, id);
      GoneAreEnded(r, m, seen);
      GoneEndedNext(r, m, n, seen);
    }
  }

  lemma KeptIff(r: Registry, n: nat, seen: set<Id>, id: Id)
    requires Named(r) && n == |r.objects| && id in r.calls
    ensures var t := GoneEnded(r, n, seen);
            && (id in t.calls <==> HeldState(r, id) == Some(Dialing) || id in seen)
            && (id in t.calls ==> t.calls[id] == r.calls[id] && HeldState(t, id) == HeldState(r, id))
  {
    GoneAreEnded(r, n, seen);
    if id in seen { SeenStays(r, n, seen, id); }
    if HeldState(r, id) == Some(Dialing) { DialledStays(r, n, seen, id); }
  }

  /** In any run, a list leaves a held call in the registry, and as it was, exactly if
      it names it as this agent's, over or not, or it is still being dialled. */
  lemma ListKeepsIff(events: seq<Event>, list: seq<Entry>, here: DeviceId, id: Id)
    requires id in RunAll(INITIAL, events, here).calls
    ensures var r := RunAll(INITIAL, events, here);
            var t := Next(r, CallsList(list), here);
            && (id in t.calls <==> HeldState(r, id) == Some(Dialing) || exists e :: e in list && e.mine && e.id == id)
            && (id in t.calls ==> t.calls[id] == r.calls[id] && HeldState(t, id) == HeldState(r, id))
  {
    var r := RunAll(INITIAL, events, here);
    var listed := AllListed(r, list, here);
    InvHolds(INITIAL, events, here);
    AllListedKeeps(r, list, here);
    HeldStays(r, list, here, id);
    KeptIff(listed, |listed.objects|, Seen(list), id);
  }

  /** In any run, an offer rings if its call was neither held nor over, and else it
      changes nothing. */
  lemma OfferRingsOnce(events: seq<Event>, here: DeviceId, id: Id)
    ensures var r := RunAll(INITIAL, events, here);
            var t := Next(r, Incoming(id), here);
            if id in r.calls || id in r.resolved then t == r
            else HeldState(t, id) == Some(CallState.Ringing) && t.resolved == r.resolved && t.ended == r.ended
  {
  }

  /** In any run, the server's end of a call ends the one held, or for an end of its
      ringing only the one that still rings; any other changes nothing. */
  lemma EndCallIff(events: seq<Event>, here: DeviceId, id: Id, ifRinging: bool)
    ensures var r := RunAll(INITIAL, events, here);
            var t := Next(r, EndCall(id, ifRinging), here);
            if id in r.calls && (!ifRinging || HeldState(r, id) == Some(CallState.Ringing))
            then id !in t.calls && id in t.resolved && t.ended == r.ended + [r.calls[id]]
            else t == r
  {
    InvHolds(INITIAL, events, here);
  }

  /** In any run, a held call that has been taken further, accepted here or elsewhere,
      is so from then on, and the end of its ringing no longer ends it. */
  lemma TakenOutlivesRinging(events: seq<Event>, here: DeviceId, id: Id, state: CallState)
    requires id in RunAll(INITIAL, events, here).calls && state !in {CallState.Ringing, Ended}
    ensures var r := RunAll(INITIAL, events, here);
            var t := Next(r, Move(r.calls[id], state), here);
            && HeldState(t, id) == Some(state) && Next(t, EndCall(id, true), here) == t
            && t.calls == r.calls && t.ended == r.ended && t.resolved == r.resolved
  {
    InvHolds(INITIAL, events, here);
  }

  /** What the list makes of a call of this agent that was not held: it rings if it is
      offered to no device yet, is elsewhere if another device has it, and is
      connecting if this one has. */
  function Shown(e: Entry, here: DeviceId): Option<CallState> {
    match e.device
    case None => if e.offered then Some(CallState.Ringing) else None
    case Some(device) =>
      if device == "" && e.offered then Some(CallState.Ringing)
      else if device == here then Some(Connecting)
      else if device == "" then None
      else Some(Elsewhere)
  }

  lemma {:induction false} ListedOnce(r: Registry, list: seq<Entry>, here: DeviceId, k: nat, n: nat)
    requires k < |list| && n <= |list| && list[k].mine && !list[k].over
    requires list[k].id !in r.calls && list[k].id !in r.resolved
    requires forall j | 0 <= j < |list| && j != k :: list[j].id != list[k].id
    ensures var t, id := AllListed(r, list[..n], here), list[k].id;
            && id !in t.resolved && HeldState(t, id) == (if k < n then Shown(list[k], here) else None)
            && (id in t.calls ==> t.calls[id] < |t.objects|)
            && (n <= k ==> id !in t.calls)
  {
    if n > 0 {
      ListedOnce(r, list, here, k, n - 1);
      assert list[..n][..n - 1] == list[..n - 1];
    }
  }

  lemma {:induction false} SeenStays(r: Registry, n: nat, seen: set<Id>, id: Id)
    requires Named(r) && n <= |r.objects| && id in seen
    ensures HeldState(GoneEnded(r, n, seen), id) == HeldState(r, id)
  {
    if n > 0 {
      var m: nat := n - 1;
      SeenStays(r, m, seen, id);
      GoneAreEnded(r, m, seen);
      GoneEndedNext(r, m, n, seen);
    }
  }

  /** In any run, a call that a list names once and that was neither held nor ended
      before is shown as the list says. */
  lemma ListShowsTheCall(events: seq<Event>, list: seq<Entry>, here: DeviceId, k: nat)
    requires k < |list| && list[k].mine && !list[k].over
    requires var r := RunAll(INITIAL, events, here);
             list[k].id !in r.calls && list[k].id !in r.resolved
    requires forall j | 0 <= j < |list| && j != k :: list[j].id != list[k].id
    ensures HeldState(Next(RunAll(INITIAL, events, here), CallsList(list), here), list[k].id) == Shown(list[k], here)
  {
    var r := RunAll(INITIAL, events, here);
    InvHolds(INITIAL, events, here);
    AllListedKeeps(r, list, here);
    ListedOnce(r, list, here, k, |list|);
    assert list[..|list|] == list && list[k] in list;
    var listed := AllListed(r, list, here);
    SeenStays(listed, |listed.objects|, Seen(list), list[k].id);
  }

  /** A dialled id is excepted with reason: dialled twice, it ends twice, and the
      first end takes the second call out of the registry. */
  lemma DialledTwice(id: Id, here: DeviceId)
    ensures var r := RunAll(INITIAL, [Dial(id), Dial(id), EndObject(0), EndObject(1)], here);
            |r.ended| == 2 && EndedId(r, 0) == Some(id) && EndedId(r, 1) == Some(id)
    ensures var r := RunAll(INITIAL, [Dial(id), Dial(id), EndObject(0)], here);
            id !in r.calls && |r.objects| == 2 && r.objects[1] == CallObject(id, Dialing)
  {
    var two := Next(Next(INITIAL, Dial(id), here), Dial(id), here);
    assert RunAll(INITIAL, [Dial(id), Dial(id), EndObject(0)], here) == RunAll(two, [EndObject(0)], here);
    assert RunAll(two, [EndObject(0)], here) == Next(two, EndObject(0), here);
    var three := Next(two, EndObject(0), here);
    var ends := [EndObject(0), EndObject(1)];
    assert RunAll(INITIAL, [Dial(id), Dial(id), EndObject(0), EndObject(1)], here) == RunAll(two, ends, here);
    assert [EndObject(0), EndObject(1)][1..] == [EndObject(1)];
    assert RunAll(three, [EndObject(1)], here) == Next(three, EndObject(1), here);
  }
}
