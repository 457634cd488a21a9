/** One worker's serial procedures are runs of the interleaved protocol: what is
    proved of every interleaving holds of them, and they show what the protocol
    does when nothing comes in between. */
module ProtocolLinks {
  import opened CallTypes
  import opened Coordinator
  import opened QueueDrain
  import H = OfferHistory
  import P = OfferProtocol
  import Q = QueueOrder
  import R = RowSteps
  import T = Tables

  /** The agents of call `d` in the set. */
  function AgentsFor(pairs: set<(CallId, AgentId)>, d: CallId): set<AgentId> { set p | p in pairs && p.0 == d :: p.1 }

  function PassedOf(s: P.State, c: CallId): H.Passed {
    H.Passed(AgentsFor(s.declined, c), AgentsFor(s.missed, c))
  }

  /** The protocol's history is the stored one. */
  ghost predicate SameHistory(s: P.State, h: H.History) {
    forall c: CallId :: PassedOf(s, c) == h.Of(c)
  }

  /** The protocol is in the state the procedures read and write. */
  ghost predicate Same(s: P.State, r: Routing) { s.w == r.w && SameHistory(s, r.history) }

  function AvailableOf(members: seq<H.Member>): set<AgentId> {
    set m | m in members && H.IsAvailable(m) :: m.id
  }

  /** What holds of states and the steps that led to them. */
  type Trail = (P.State, seq<P.Step>) -> bool

  ghost predicate Closed(G: Trail) {
    forall s, xs, step :: G(s, xs) ==> G(P.Apply(s, step), xs + [step])
  }

  /** The steps lead to the state. */
  ghost predicate At(G: Trail, s: P.State, xs: seq<P.Step>) { Closed(G) && G(s, xs) }

  lemma Goes(G: Trail, s: P.State, xs: seq<P.Step>, step: P.Step)
    returns (ys: seq<P.Step>, t: P.State)
    requires At(G, s, xs)
    ensures ys == xs + [step] && t == P.Apply(s, step) && At(G, t, ys)
  {
    ys, t := xs + [step], P.Apply(s, step);
  }

  /** Being led to by a run from `s` is such a trail. */
  lemma RunsClosed(s: P.State)
    ensures At((t: P.State, xs: seq<P.Step>) => t == P.RunAll(s, xs), s, [])
  {
    forall t: P.State, xs, step | t == P.RunAll(s, xs)
      ensures P.Apply(t, step) == P.RunAll(s, xs + [step])
    {
      P.RunMore(s, xs, step);
    }
  }

  // ---- Passing an offer on ----

  lemma WithdrawRuns(G: Trail, s: P.State, xs: seq<P.Step>, id: P.TaskId, c: CallId, a: AgentId, kind: PassKind,
                     before: Option<Time>)
    returns (ys: seq<P.Step>, t: P.State)
    requires At(G, s, xs)
    requires id !in s.tasks && c in s.w.calls && R.Withdraw(s.w.calls[c], a, before).Some?
    ensures ys == xs + [P.PassOffer(id, c, a, kind, before)] && At(G, t, ys)
    ensures t.w == R.Put(s.w, c, R.Withdraw(s.w.calls[c], a, before))
    ensures t.tasks == s.tasks[id := P.PassRecord(c, a, kind)]
    ensures t.declined == s.declined && t.missed == s.missed && t.time == s.time
  {
    ys, t := Goes(G, s, xs, P.PassOffer(id, c, a, kind, before));
  }

  lemma RecordRuns(G: Trail, s: P.State, xs: seq<P.Step>, id: P.TaskId, c: CallId, a: AgentId, kind: PassKind)
    returns (ys: seq<P.Step>, t: P.State)
    requires At(G, s, xs)
    requires id in s.tasks && s.tasks[id] == P.PassRecord(c, a, kind)
    ensures ys == xs + [P.Run(id)] && At(G, t, ys)
    ensures t.w == s.w && t.tasks == s.tasks[id := P.PassRelease(c, a)] && t.time == s.time
    ensures t.declined == if kind == Declined then s.declined + {(c, a)} else s.declined
    ensures t.missed == if kind == Missed then s.missed + {(c, a)} else s.missed
  {
    ys, t := Goes(G, s, xs, P.Run(id));
  }

  lemma ReleaseRuns(G: Trail, s: P.State, xs: seq<P.Step>, id: P.TaskId, c: CallId, a: AgentId)
    returns (ys: seq<P.Step>, t: P.State)
    requires At(G, s, xs)
    requires id in s.tasks && (s.tasks[id] == P.PassRelease(c, a) || s.tasks[id] == P.EndedRelease(c, a))
    ensures ys == xs + [P.Run(id)] && At(G, t, ys)
    ensures t.w == R.Release(s.w, a, c) && t.tasks == s.tasks - {id} && t.time == s.time
    ensures t.declined == s.declined && t.missed == s.missed
  {
    ys, t := Goes(G, s, xs, P.Run(id));
  }

  lemma RecordedHistory(s: P.State, t: P.State, h: H.History, c: CallId, a: AgentId, kind: PassKind)
    requires SameHistory(s, h)
    requires t.declined == if kind == Declined then s.declined + {(c, a)} else s.declined
    requires t.missed == if kind == Missed then s.missed + {(c, a)} else s.missed
    ensures SameHistory(t, h.Record(c, a, kind))
  {
    forall d: CallId { RecordedFor(s, t, h, c, a, kind, d); }
  }

  lemma RecordedFor(s: P.State, t: P.State, h: H.History, c: CallId, a: AgentId, kind: PassKind, d: CallId)
    requires SameHistory(s, h)
    requires t.declined == if kind == Declined then s.declined + {(c, a)} else s.declined
    requires t.missed == if kind == Missed then s.missed + {(c, a)} else s.missed
    ensures PassedOf(t, d) == h.Record(c, a, kind).Of(d)
  {
    assert PassedOf(s, d) == h.Of(d);
    AgentsAfter(s.declined, c, a, d);
    AgentsAfter(s.missed, c, a, d);
  }

  lemma AgentsAfter(pairs: set<(CallId, AgentId)>, c: CallId, a: AgentId, d: CallId)
    ensures AgentsFor(pairs + {(c, a)}, d) == AgentsFor(pairs, d) + if c == d then {a} else {}
  {
    assert forall b :: b in AgentsFor(pairs + {(c, a)}, d) <==> (d, b) in pairs + {(c, a)};
    assert forall b :: b in AgentsFor(pairs, d) <==> (d, b) in pairs;
  }

  lemma PassOfferGoes(G: Trail, s: P.State, xs: seq<P.Step>, r: Routing, id: P.TaskId, c: CallId, a: AgentId,
                      kind: PassKind, before: Option<Time>)
    returns (ys: seq<P.Step>, t: P.State)
    requires At(G, s, xs)
    requires Same(s, r) && id !in s.tasks && c in s.w.calls && R.Withdraw(s.w.calls[c], a, before).Some?
    ensures At(G, t, ys) && ys == xs + [P.PassOffer(id, c, a, kind, before)] + [P.Run(id)] + [P.Run(id)]
    ensures Same(t, PassedOn(r, c, a, kind)) && t.tasks == s.tasks && t.time == s.time
  {
    var s1, s2;
    ys, s1 := WithdrawRuns(G, s, xs, id, c, a, kind, before);
    ys, s2 := RecordRuns(G, s1, ys, id, c, a, kind);
    ys, t := ReleaseRuns(G, s2, ys, id, c, a);
    PassOfferLeaves(s, s1, s2, t, r, id, c, a, kind, before);
  }

  /** passOffer's three statements in a row withdraw the offer, record the pass and
      release the agent, as the serial method does, and leave no task. */
  lemma PassOfferRuns(s: P.State, r: Routing, id: P.TaskId, c: CallId, a: AgentId, kind: PassKind, before: Option<Time>)
    returns (steps: seq<P.Step>, t: P.State)
    requires Same(s, r) && id !in s.tasks && c in s.w.calls && R.Withdraw(s.w.calls[c], a, before).Some?
    ensures steps == [P.PassOffer(id, c, a, kind, before), P.Run(id), P.Run(id)] && t == P.RunAll(s, steps)
    ensures Same(t, PassedOn(r, c, a, kind)) && t.tasks == s.tasks && t.time == s.time
  {
    RunsClosed(s);
    steps, t := PassOfferGoes((u, xs) => u == P.RunAll(s, xs), s, [], r, id, c, a, kind, before);
    InARow(steps, P.PassOffer(id, c, a, kind, before), P.Run(id), P.Run(id));
  }

  lemma InARow(steps: seq<P.Step>, x: P.Step, y: P.Step, z: P.Step)
    requires steps == [] + [x] + [y] + [z]
    ensures steps == [x, y, z]
  {
  }

  lemma PassOfferLeaves(s: P.State, s1: P.State, s2: P.State, t: P.State, r: Routing,
                        id: P.TaskId, c: CallId, a: AgentId, kind: PassKind, before: Option<Time>)
    requires Same(s, r) && id !in s.tasks && c in s.w.calls && R.Withdraw(s.w.calls[c], a, before).Some?
    requires s1.w == R.Put(s.w, c, R.Withdraw(s.w.calls[c], a, before))
    requires s1.tasks == s.tasks[id := P.PassRecord(c, a, kind)]
    requires s1.declined == s.declined && s1.missed == s.missed
    requires s2.w == s1.w && s2.tasks == s1.tasks[id := P.PassRelease(c, a)]
    requires s2.declined == if kind == Declined then s1.declined + {(c, a)} else s1.declined
    requires s2.missed == if kind == Missed then s1.missed + {(c, a)} else s1.missed
    requires t.w == R.Release(s2.w, a, c) && t.tasks == s2.tasks - {id}
    requires t.declined == s2.declined && t.missed == s2.missed
    ensures Same(t, PassedOn(r, c, a, kind)) && t.tasks == s.tasks
  {
    RecordedHistory(s, t, r.history, c, a, kind);
    assert t.tasks == s.tasks;
  }

  // ---- Overflowing ----

  lemma OverflowStep(G: Trail, s: P.State, xs: seq<P.Step>, id: P.TaskId, c: CallId, from: QueueId, to: QueueId,
                     offered: Option<AgentId>)
    returns (ys: seq<P.Step>, t: P.State)
    requires At(G, s, xs)
    requires id !in s.tasks && c in s.w.calls && R.Overflow(s.w.calls[c], from, to, offered, s.time).Some?
    ensures ys == xs + [P.Overflow(id, c, from, to, offered)] && At(G, t, ys)
    ensures t.w == R.Put(s.w, c, R.Overflow(s.w.calls[c], from, to, offered, s.time)) && t.time == s.time
    ensures t.tasks == s.tasks[id := if offered.Some? then P.OverflowRelease(c, offered.value) else P.OverflowClear(c)]
    ensures t.declined == s.declined && t.missed == s.missed
  {
    ys, t := Goes(G, s, xs, P.Overflow(id, c, from, to, offered));
  }

  lemma OverflowReleaseRuns(G: Trail, s: P.State, xs: seq<P.Step>, id: P.TaskId, c: CallId, a: AgentId)
    returns (ys: seq<P.Step>, t: P.State)
    requires At(G, s, xs)
    requires id in s.tasks && s.tasks[id] == P.OverflowRelease(c, a)
    ensures ys == xs + [P.Run(id)] && At(G, t, ys)
    ensures t.w == R.Release(s.w, a, c) && t.tasks == s.tasks[id := P.OverflowClear(c)] && t.time == s.time
    ensures t.declined == s.declined && t.missed == s.missed
  {
    ys, t := Goes(G, s, xs, P.Run(id));
  }

  lemma ClearRuns(G: Trail, s: P.State, xs: seq<P.Step>, id: P.TaskId, c: CallId) returns (ys: seq<P.Step>, t: P.State)
    requires At(G, s, xs)
    requires id in s.tasks && s.tasks[id] == P.OverflowClear(c)
    ensures ys == xs + [P.Run(id)] && At(G, t, ys)
    ensures t.w == s.w && t.tasks == s.tasks - {id} && t.time == s.time
    ensures t.declined == s.declined && t.missed == set p | p in s.missed && p.0 != c
  {
    ys, t := Goes(G, s, xs, P.Run(id));
  }

  lemma ClearedHistory(s: P.State, t: P.State, h: H.History, c: CallId)
    requires SameHistory(s, h) && t.declined == s.declined && t.missed == set p | p in s.missed && p.0 != c
    ensures SameHistory(t, h.ClearMissed(c))
  {
    forall d: CallId
      ensures PassedOf(t, d) == h.ClearMissed(c).Of(d)
    {
      assert PassedOf(s, d) == h.Of(d);
      assert forall b :: b in PassedOf(t, d).missed <==> (d, b) in t.missed;
      assert forall b :: b in PassedOf(s, d).missed <==> (d, b) in s.missed;
      assert PassedOf(t, d).missed == if d == c then {} else PassedOf(s, d).missed;
    }
  }

  lemma OverflowGoes(G: Trail, s: P.State, xs: seq<P.Step>, r: Routing, id: P.TaskId, c: CallId, from: QueueId,
                     to: QueueId, offered: Option<AgentId>)
    returns (ys: seq<P.Step>, t: P.State)
    requires At(G, s, xs)
    requires Same(s, r) && id !in s.tasks && c in s.w.calls && R.Overflow(s.w.calls[c], from, to, offered, s.time).Some?
    ensures At(G, t, ys) && t.tasks == s.tasks && t.time == s.time
    ensures ys == xs + [P.Overflow(id, c, from, to, offered)] +
                  (if offered.Some? then [P.Run(id)] else []) + [P.Run(id)]
    ensures Same(t, MovedOn(Moved(r, c, from, to, offered, s.time), c, offered))
  {
    var s1;
    ys, s1 := OverflowStep(G, s, xs, id, c, from, to, offered);
    var s2 := s1;
    if offered.Some? { ys, s2 := OverflowReleaseRuns(G, s1, ys, id, c, offered.value); }
    ys, t := ClearRuns(G, s2, ys, id, c);
    OverflowLeaves(s, s1, s2, t, r, id, c, from, to, offered);
  }

  /** The call in its overflow queue, as the statement leaves it. */
  function Moved(r: Routing, c: CallId, from: QueueId, to: QueueId, offered: Option<AgentId>, time: Time): Routing
    requires c in r.w.calls
  {
    r.(w := R.Put(r.w, c, R.Overflow(r.w.calls[c], from, to, offered, time)))
  }

  lemma OverflowLeaves(s: P.State, s1: P.State, s2: P.State, t: P.State, r: Routing, id: P.TaskId, c: CallId,
                       from: QueueId, to: QueueId, offered: Option<AgentId>)
    requires Same(s, r) && id !in s.tasks && c in s.w.calls
    requires s1.w == R.Put(s.w, c, R.Overflow(s.w.calls[c], from, to, offered, s.time))
    requires s2.w == if offered.Some? then R.Release(s1.w, offered.value, c) else s1.w
    requires id in s1.tasks && s1.tasks - {id} == s2.tasks - {id} == s.tasks && t.tasks == s2.tasks - {id}
    requires s1.declined == s.declined && s2.declined == s.declined && s2.missed == s.missed
    requires t.w == s2.w && t.declined == s.declined && t.missed == set p | p in s.missed && p.0 != c
    ensures Same(t, MovedOn(Moved(r, c, from, to, offered, s.time), c, offered)) && t.tasks == s.tasks
  {
    ClearedHistory(s, t, r.history, c);
  }

  /** The overflow's statements in a row move the call on, release whoever it rang
      and end the round, as the serial methods do. */
  lemma OverflowRuns(s: P.State, r: Routing, id: P.TaskId, c: CallId, from: QueueId, to: QueueId,
                     offered: Option<AgentId>)
    returns (steps: seq<P.Step>, t: P.State)
    requires Same(s, r) && id !in s.tasks && c in s.w.calls && R.Overflow(s.w.calls[c], from, to, offered, s.time).Some?
    ensures steps == [P.Overflow(id, c, from, to, offered)] + (if offered.Some? then [P.Run(id)] else []) + [P.Run(id)]
    ensures t == P.RunAll(s, steps) && t.tasks == s.tasks && t.time == s.time
    ensures var moved := r.(w := R.Put(r.w, c, R.Overflow(r.w.calls[c], from, to, offered, s.time)));
            Same(t, MovedOn(moved, c, offered))
  {
    RunsClosed(s);
    steps, t := OverflowGoes((u, xs) => u == P.RunAll(s, xs), s, [], r, id, c, from, to, offered);
    assert [] + [P.Overflow(id, c, from, to, offered)] == [P.Overflow(id, c, from, to, offered)];
  }

  // ---- The safety net ----

  lemma FindRuns(G: Trail, s: P.State, xs: seq<P.Step>, id: P.TaskId, a: AgentId, c: CallId)
    returns (ys: seq<P.Step>, t: P.State)
    requires At(G, s, xs)
    requires id !in s.tasks && s.w.Holds(c, a) && !s.w.ActiveCall(c)
    ensures At(G, t, ys)
    ensures t.w == s.w && t.tasks == s.tasks[id := P.EndedRelease(c, a)] && t.time == s.time
    ensures t.declined == s.declined && t.missed == s.missed
  {
    ys, t := Goes(G, s, xs, P.FindHeldByEnded(id, a));
  }

  lemma ReleaseOneRuns(G: Trail, s: P.State, xs: seq<P.Step>, id: P.TaskId, a: AgentId, c: CallId)
    returns (ys: seq<P.Step>, t: P.State)
    requires At(G, s, xs)
    requires id !in s.tasks && s.w.Holds(c, a) && !s.w.ActiveCall(c)
    ensures At(G, t, ys) && t.w == R.Release(s.w, a, c) && t.tasks == s.tasks
    ensures t.declined == s.declined && t.missed == s.missed
  {
    var s1;
    ys, s1 := FindRuns(G, s, xs, id, a, c);
    ys, t := ReleaseRuns(G, s1, ys, id, c, a);
    assert t.tasks == s.tasks;
  }

  lemma {:induction false} SafetyNetGoes(G: Trail, s: P.State, xs: seq<P.Step>, id: P.TaskId,
                                         held: seq<(AgentId, CallId)>, n: nat)
    returns (ys: seq<P.Step>, t: P.State)
    requires At(G, s, xs)
    requires id !in s.tasks && n <= |held| && T.HeldByEnded(s.w, held, AgentsOf(held))
    ensures At(G, t, ys) && t.w == ReleasedAll(s.w, held, n) && t.tasks == s.tasks
    ensures t.declined == s.declined && t.missed == s.missed
  {
    if n == 0 {
      ys, t := xs, s;
    } else {
      var s1;
      ys, s1 := SafetyNetGoes(G, s, xs, id, held, n - 1);
      StillHeld(s.w, held, n - 1);
      ys, t := ReleaseOneRuns(G, s1, ys, id, held[n - 1].0, held[n - 1].1);
    }
  }

  /** A pass of the safety net is a run of its reads and releases. */
  lemma SafetyNetRuns(s: P.State, id: P.TaskId, held: seq<(AgentId, CallId)>, n: nat)
    returns (steps: seq<P.Step>, t: P.State)
    requires id !in s.tasks && n <= |held| && T.HeldByEnded(s.w, held, AgentsOf(held))
    ensures t == P.RunAll(s, steps) && t.w == ReleasedAll(s.w, held, n) && t.tasks == s.tasks
    ensures t.declined == s.declined && t.missed == s.missed
  {
    RunsClosed(s);
    steps, t := SafetyNetGoes((u, xs) => u == P.RunAll(s, xs), s, [], id, held, n);
  }

  /** The releases made so far leave the later holds. */
  lemma {:induction false} StillHeld(w: World, held: seq<(AgentId, CallId)>, n: nat)
    requires n <= |held| && T.HeldByEnded(w, held, AgentsOf(held))
    ensures ReleasedAll(w, held, n).calls == w.calls
    ensures forall i | n <= i < |held| :: ReleasedAll(w, held, n).Holds(held[i].1, held[i].0)
  {
    if n > 0 { StillHeld(w, held, n - 1); }
  }

  // ---- A drain ----

  /** A drain's look at a call in the protocol is the history's: the members it
      will try are the available ones the call may be offered to, and it clears
      the missed set exactly when the round is over. */
  lemma DrainReadsHistory(s: P.State, id: P.TaskId, c: CallId, members: seq<H.Member>, readAt: nat)
    requires H.DistinctIds(members)
    requires id in s.tasks && s.tasks[id] == P.DrainScan(AvailableOf(members), readAt)
    ensures var t := P.DrainPicked(s, id, c).tasks[id];
            && (t.DrainClear? <==> H.RoundOver(PassedOf(s, c), members))
            && (t.DrainClear? || t.DrainClaim?)
            && t.call == c && t.candidates == AvailableOf(H.Offerable(PassedOf(s, c), members))
  {
    var p, available := PassedOf(s, c), AvailableOf(members);
    var left := H.Without(members, p.declined);
    var untried := H.Without(left, p.missed);
    forall a | a in available
      ensures a in P.DeclinedOf(s, c, available) <==> a in p.declined
      ensures a in P.MissedOf(s, c, available) <==> a in p.missed
    {
      assert (c, a) in s.declined <==> a in p.declined;
      assert (c, a) in s.missed <==> a in p.missed;
    }
    assert available - P.DeclinedOf(s, c, available) == AvailableOf(left);
    assert AvailableOf(left) - P.MissedOf(s, c, available) == AvailableOf(untried);
    AvailableIff(left);
    AvailableIff(untried);
    if p.missed == {} { assert untried == left by { H.WithoutNobody(left); } }
  }

  lemma AvailableIff(members: seq<H.Member>)
    ensures H.AnyAvailable(members) <==> AvailableOf(members) != {}
  {
    if m :| m in members && H.IsAvailable(m) { assert m.id in AvailableOf(members); }
  }

  lemma PickStep(G: Trail, s: P.State, xs: seq<P.Step>, id: P.TaskId, c: CallId) returns (ys: seq<P.Step>, t: P.State)
    requires At(G, s, xs)
    requires id in s.tasks && s.tasks[id].DrainScan?
    ensures At(G, t, ys)
    ensures t.tasks == s.tasks[id := P.DrainPicked(s, id, c).tasks[id]]
    ensures t.w == s.w && t.time == s.time && t.declined == s.declined && t.missed == s.missed
  {
    ys, t := Goes(G, s, xs, P.DrainPick(id, c));
  }

  lemma ClearStep(G: Trail, s: P.State, xs: seq<P.Step>, id: P.TaskId) returns (ys: seq<P.Step>, t: P.State)
    requires At(G, s, xs)
    requires id in s.tasks && s.tasks[id].DrainClear?
    ensures At(G, t, ys)
    ensures var d := s.tasks[id];
            && t.tasks == s.tasks[id := P.DrainClaim(d.call, d.available, d.readAt, d.candidates)]
            && t.missed == (set p | p in s.missed && p.0 != d.call)
    ensures t.w == s.w && t.time == s.time && t.declined == s.declined
  {
    ys, t := Goes(G, s, xs, P.Run(id));
  }

  /** A drain about to claim for a call, as the history allows. */
  function ClaimTask(c: CallId, members: seq<H.Member>, readAt: nat, h: H.History): P.Task {
    P.DrainClaim(c, AvailableOf(members), readAt, AvailableOf(H.Offerable(h.Of(c), members)))
  }

  /** A look at one call. */
  lemma LookRuns(G: Trail, s: P.State, xs: seq<P.Step>, base: map<P.TaskId, P.Task>, id: P.TaskId, c: CallId,
                 members: seq<H.Member>,
                 readAt: nat, h: H.History)
    returns (ys: seq<P.Step>, t: P.State)
    requires At(G, s, xs)
    requires H.DistinctIds(members) && SameHistory(s, h)
    requires s.tasks == base[id := P.DrainScan(AvailableOf(members), readAt)]
    ensures At(G, t, ys) && t.w == s.w && t.time == s.time && SameHistory(t, h.Look(c, members))
    ensures t.tasks == base[id := ClaimTask(c, members, readAt, h)]
  {
    var task: P.Task;
    ys, t, task := PickRuns(G, s, xs, base, id, c, members, readAt, h);
    if task.DrainClear? {
      ys, t := ClearedRuns(G, t, ys, base, id, task, h);
    }
  }

  lemma PickRuns(G: Trail, s: P.State, xs: seq<P.Step>, base: map<P.TaskId, P.Task>, id: P.TaskId, c: CallId,
                 members: seq<H.Member>,
                 readAt: nat, h: H.History)
    returns (ys: seq<P.Step>, t: P.State, task: P.Task)
    requires At(G, s, xs)
    requires H.DistinctIds(members) && SameHistory(s, h)
    requires s.tasks == base[id := P.DrainScan(AvailableOf(members), readAt)]
    ensures At(G, t, ys) && t.w == s.w && t.time == s.time && SameHistory(t, h)
    ensures t.tasks == base[id := task]
    ensures task.DrainClear? || task.DrainClaim?
    ensures task.DrainClear? ==>
              && h.Look(c, members) == h.ClearMissed(c) && task.call == c
              && P.DrainClaim(c, task.available, task.readAt, task.candidates) == ClaimTask(c, members, readAt, h)
    ensures task.DrainClaim? ==> h.Look(c, members) == h && task == ClaimTask(c, members, readAt, h)
  {
    ys, t, task := PickTask(G, s, xs, base, id, c, members, readAt, h);
    SameSets(s, t, h);
    assert t.tasks == base[id := task];
  }

  lemma PickTask(G: Trail, s: P.State, xs: seq<P.Step>, base: map<P.TaskId, P.Task>, id: P.TaskId, c: CallId,
                 members: seq<H.Member>,
                 readAt: nat, h: H.History)
    returns (ys: seq<P.Step>, t: P.State, task: P.Task)
    requires At(G, s, xs)
    requires H.DistinctIds(members) && SameHistory(s, h)
    requires s.tasks == base[id := P.DrainScan(AvailableOf(members), readAt)]
    ensures At(G, t, ys) && t.w == s.w && t.time == s.time
    ensures t.tasks == s.tasks[id := task] && t.declined == s.declined && t.missed == s.missed
    ensures task == LookTask(c, members, readAt, h)
  {
    Picked(s, base, id, c, members, readAt, h);
    ys, t := PickStep(G, s, xs, id, c);
    task := P.DrainPicked(s, id, c).tasks[id];
  }

  /** What a look leaves of the drain: the claims, after a clear if the round is over. */
  function LookTask(c: CallId, members: seq<H.Member>, readAt: nat, h: H.History): P.Task {
    var claim := ClaimTask(c, members, readAt, h);
    if H.RoundOver(h.Of(c), members) then P.DrainClear(c, claim.available, readAt, claim.candidates) else claim
  }

  lemma SameSets(s: P.State, t: P.State, h: H.History)
    requires SameHistory(s, h) && t.declined == s.declined && t.missed == s.missed
    ensures SameHistory(t, h)
  {
    forall d: CallId
      ensures PassedOf(t, d) == h.Of(d)
    {
      assert PassedOf(s, d) == h.Of(d);
    }
  }

  lemma ClearedRuns(G: Trail, s: P.State, xs: seq<P.Step>, base: map<P.TaskId, P.Task>, id: P.TaskId, d: P.Task,
                    h: H.History)
    returns (ys: seq<P.Step>, t: P.State)
    requires At(G, s, xs)
    requires d.DrainClear? && s.tasks == base[id := d] && SameHistory(s, h)
    ensures At(G, t, ys) && t.w == s.w && t.time == s.time && SameHistory(t, h.ClearMissed(d.call))
    ensures t.tasks == base[id := P.DrainClaim(d.call, d.available, d.readAt, d.candidates)]
  {
    ys, t := ClearStep(G, s, xs, id);
    ClearedHistory(s, t, h, d.call);
  }

  lemma Picked(s: P.State, base: map<P.TaskId, P.Task>, id: P.TaskId, c: CallId, members: seq<H.Member>, readAt: nat,
               h: H.History)
    requires H.DistinctIds(members) && SameHistory(s, h)
    requires s.tasks == base[id := P.DrainScan(AvailableOf(members), readAt)]
    ensures P.DrainPicked(s, id, c).tasks[id] == LookTask(c, members, readAt, h)
  {
    DrainReadsHistory(s, id, c, members, readAt);
    assert PassedOf(s, c) == h.Of(c);
    PickedFrom(s, id, c);
  }

  lemma PickedFrom(s: P.State, id: P.TaskId, c: CallId)
    requires id in s.tasks && s.tasks[id].DrainScan?
    ensures var t := P.DrainPicked(s, id, c).tasks[id];
            (t.DrainClear? || t.DrainClaim?) && t.available == s.tasks[id].available && t.readAt == s.tasks[id].readAt
  {
  }

  lemma TryStep(G: Trail, s: P.State, xs: seq<P.Step>, id: P.TaskId, a: AgentId) returns (ys: seq<P.Step>, t: P.State)
    requires At(G, s, xs)
    requires id in s.tasks && s.tasks[id].DrainClaim? && Assignable(s.w, s.tasks[id].call)
    requires a in s.tasks[id].candidates || !R.CanClaim(s.w, a, false)
    ensures At(G, t, ys) && t.time == s.time && t.declined == s.declined && t.missed == s.missed
    ensures var d := s.tasks[id];
            if R.CanClaim(s.w, a, false)
            then t.w == R.ClaimAndAssign(s.w, a, d.call, false, s.time) && t.tasks == s.tasks - {id}
            else t.w == s.w && t.tasks == s.tasks[id := P.DrainClaim(d.call, d.available, d.readAt, d.candidates - {a})]
  {
    ys, t := Goes(G, s, xs, P.DrainTry(id, a));
    assert a !in s.tasks[id].candidates ==> s.tasks[id].candidates - {a} == s.tasks[id].candidates;
  }

  /** The claim loop: candidates tried in order, up to the first who can be claimed. */
  lemma {:induction false} TriesRun(G: Trail, s: P.State, xs: seq<P.Step>, base: map<P.TaskId, P.Task>, id: P.TaskId,
                                    d: P.Task, ids: seq<AgentId>)
    returns (ys: seq<P.Step>, t: P.State, left: P.Task)
    requires At(G, s, xs)
    requires id !in base && d.DrainClaim? && s.tasks == base[id := d] && Assignable(s.w, d.call)
    requires forall a | a in ids :: a in d.candidates || !R.CanClaim(s.w, a, false)
    ensures At(G, t, ys) && t.time == s.time && t.declined == s.declined && t.missed == s.missed
    ensures match FirstFree(s.w, ids)
            case None =>
              t.w == s.w && t.tasks == base[id := left]
              && left.DrainClaim? && left.available == d.available && left.readAt == d.readAt
            case Some(a) => t.w == R.ClaimAndAssign(s.w, a, d.call, false, s.time) && t.tasks == base
    decreases |ids|
  {
    left := d;
    if ids == [] {
      ys, t := xs, s;
    } else {
      ys, t := TryStep(G, s, xs, id, ids[0]);
      if R.CanClaim(s.w, ids[0], false) {
        assert t.tasks == base;
      } else {
        var rest := P.DrainClaim(d.call, d.available, d.readAt, d.candidates - {ids[0]});
        ys, t, left := TriesRun(G, t, ys, base, id, rest, ids[1..]);
      }
    }
  }

  lemma NextStep(G: Trail, s: P.State, xs: seq<P.Step>, base: map<P.TaskId, P.Task>, id: P.TaskId, d: P.Task)
    returns (ys: seq<P.Step>, t: P.State)
    requires At(G, s, xs)
    requires d.DrainClaim? && s.tasks == base[id := d]
    ensures At(G, t, ys) && t.w == s.w && t.time == s.time && t.declined == s.declined
    ensures t.missed == s.missed
    ensures t.tasks == base[id := P.DrainScan(d.available, d.readAt)]
  {
    ys, t := Goes(G, s, xs, P.DrainNext(id));
  }

  lemma EndStep(G: Trail, s: P.State, xs: seq<P.Step>, base: map<P.TaskId, P.Task>, id: P.TaskId)
    returns (ys: seq<P.Step>, t: P.State)
    requires At(G, s, xs)
    requires id !in base && id in s.tasks && s.tasks[id].DrainScan? && s.tasks == base[id := s.tasks[id]]
    ensures At(G, t, ys) && t.w == s.w && t.time == s.time && t.declined == s.declined
    ensures t.missed == s.missed
    ensures t.tasks == base
  {
    ys, t := Goes(G, s, xs, P.Run(id));
    assert t.tasks == base;
  }

  /** One call of the drain: a look, and claims for members it may be offered to, in
      the order of `ids`. */
  lemma CallRuns(G: Trail, s: P.State, xs: seq<P.Step>, base: map<P.TaskId, P.Task>, id: P.TaskId, c: CallId,
                 members: seq<H.Member>, readAt: nat,
                 h: H.History, ids: seq<AgentId>)
    returns (ys: seq<P.Step>, t: P.State)
    requires At(G, s, xs)
    requires id !in base && H.DistinctIds(members) && SameHistory(s, h) && Assignable(s.w, c)
    requires s.tasks == base[id := P.DrainScan(AvailableOf(members), readAt)]
    requires forall a | a in ids :: a in AvailableOf(H.Offerable(h.Of(c), members))
    ensures At(G, t, ys) && t.time == s.time && SameHistory(t, h.Look(c, members))
    ensures match FirstFree(s.w, ids)
            case None => t.w == s.w && t.tasks == s.tasks
            case Some(a) => t.w == R.ClaimAndAssign(s.w, a, c, false, s.time) && t.tasks == base
  {
    var u, left;
    ys, u := LookRuns(G, s, xs, base, id, c, members, readAt, h);
    ys, t, left := TriesRun(G, u, ys, base, id, u.tasks[id], ids);
    SameSets(u, t, h.Look(c, members));
    if FirstFree(s.w, ids).None? {
      var v := t;
      ys, t := NextStep(G, v, ys, base, id, left);
      SameSets(v, t, h.Look(c, members));
    }
  }

  lemma {:induction false} LookedAtFront(h: H.History, calls: seq<CallId>, m: nat, n: nat, members: seq<H.Member>)
    requires n == m + 1 <= |calls|
    ensures LookedAt(h, calls, n, members) == LookedAt(h.Look(calls[0], members), calls[1..], m, members)
  {
    if m == 0 {
      assert LookedAt(h, calls, 0, members) == h;
    } else {
      LookedAtFront(h, calls, m - 1, m, members);
      assert calls[1..][m - 1] == calls[m];
    }
  }

  /** The first call some candidate of which can be claimed, and that candidate. */
  function FirstGiven(w: World, tries: seq<seq<AgentId>>): Option<(nat, AgentId)> {
    if tries == [] then None
    else match FirstFree(w, tries[0])
      case Some(a) => Some((0, a))
      case None =>
        var rest := FirstGiven(w, tries[1..]);
        if rest.None? then None else Some((rest.value.0 + 1, rest.value.1))
  }

  /** The candidates of each call are members it may be offered to. */
  ghost predicate AllOfferable(h: H.History, calls: seq<CallId>, members: seq<H.Member>, tries: seq<seq<AgentId>>) {
    && |tries| == |calls|
    && forall i, a | 0 <= i < |tries| && a in tries[i] :: a in AvailableOf(H.Offerable(h.Of(calls[i]), members))
  }

  /** The loop over the waiting calls is a run: it looks at each call up to the one
      it gives away, or at all of them. */
  lemma {:induction false} LoopRuns(G: Trail, s: P.State, xs: seq<P.Step>, base: map<P.TaskId, P.Task>, id: P.TaskId,
                                    members: seq<H.Member>,
                                    readAt: nat, h: H.History, calls: seq<CallId>, tries: seq<seq<AgentId>>)
    returns (ys: seq<P.Step>, t: P.State, n: nat)
    requires At(G, s, xs)
    requires id !in base && H.DistinctIds(members) && SameHistory(s, h) && AllOfferable(h, calls, members, tries)
    requires AllWaiting(s.w, calls)
    requires s.tasks == base[id := P.DrainScan(AvailableOf(members), readAt)]
    ensures At(G, t, ys) && t.tasks == base && n <= |calls| && SameHistory(t, LookedAt(h, calls, n, members))
    ensures GivesFirst(s.w, s.time, calls, tries, n, t.w)
    decreases |calls|, 1
  {
    if calls == [] {
      n := 0;
      ys, t := EndStep(G, s, xs, base, id);
      SameSets(s, t, h);
    } else {
      ys, t := CallRuns(G, s, xs, base, id, calls[0], members, readAt, h, tries[0]);
      if FirstFree(s.w, tries[0]).Some? {
        n := 1;
        assert LookedAt(h, calls, 0, members) == h;
      } else {
        ys, t, n := LoopGoesOn(G, t, ys, base, id, members, readAt, h, calls, tries);
      }
    }
  }

  /** The rows after the first call that can be is given away, and how many calls
      were looked at. */
  ghost predicate GivesFirst(w: World, time: Time, calls: seq<CallId>, tries: seq<seq<AgentId>>, n: nat, left: World) {
    match FirstGiven(w, tries)
    case None => n == |calls| && left == w
    case Some((i, a)) => i < |calls| && n == i + 1 && left == R.ClaimAndAssign(w, a, calls[i], false, time)
  }

  /** From a state in which nobody took the first call, on with the rest. */
  lemma {:induction false} LoopGoesOn(G: Trail, s: P.State, xs: seq<P.Step>, base: map<P.TaskId, P.Task>,
                                      id: P.TaskId, members: seq<H.Member>,
                                      readAt: nat, h: H.History, calls: seq<CallId>, tries: seq<seq<AgentId>>)
    returns (ys: seq<P.Step>, t: P.State, n: nat)
    requires At(G, s, xs)
    requires id !in base && H.DistinctIds(members) && AllOfferable(h, calls, members, tries)
    requires calls != [] && SameHistory(s, h.Look(calls[0], members)) && FirstFree(s.w, tries[0]).None?
    requires AllWaiting(s.w, calls)
    requires s.tasks == base[id := P.DrainScan(AvailableOf(members), readAt)]
    ensures At(G, t, ys) && t.tasks == base && n <= |calls| && SameHistory(t, LookedAt(h, calls, n, members))
    ensures GivesFirst(s.w, s.time, calls, tries, n, t.w)
    decreases |calls|, 0
  {
    OthersOfferable(h, calls, members, tries);
    LaterCalls(s.w, calls);
    var m;
    ys, t, m := LoopRuns(G, s, xs, base, id, members, readAt, h.Look(calls[0], members), calls[1..], tries[1..]);
    n := m + 1;
    LookedAtFront(h, calls, m, n, members);
    GivesLater(s.w, s.time, calls, tries, m, n, t.w);
  }

  lemma GivesLater(w: World, time: Time, calls: seq<CallId>, tries: seq<seq<AgentId>>, m: nat, n: nat,
                   left: World)
    requires n == m + 1 && calls != [] && |tries| == |calls| && FirstFree(w, tries[0]).None?
    requires GivesFirst(w, time, calls[1..], tries[1..], m, left)
    ensures GivesFirst(w, time, calls, tries, n, left)
  {
  }

  /** The waiting calls a drain still has before it: each once, each to be given. */
  ghost predicate AllWaiting(w: World, calls: seq<CallId>) {
    && (forall i, j | 0 <= i < j < |calls| :: calls[i] != calls[j])
    && (forall i | 0 <= i < |calls| :: Assignable(w, calls[i]))
  }

  lemma LaterCalls(w: World, calls: seq<CallId>)
    requires calls != [] && AllWaiting(w, calls)
    ensures AllWaiting(w, calls[1..])
  {
  }

  lemma OthersOfferable(h: H.History, calls: seq<CallId>, members: seq<H.Member>, tries: seq<seq<AgentId>>)
    requires AllOfferable(h, calls, members, tries) && calls != []
    requires forall i, j | 0 <= i < j < |calls| :: calls[i] != calls[j]
    ensures AllOfferable(h.Look(calls[0], members), calls[1..], members, tries[1..])
  {
    var h1 := h.Look(calls[0], members);
    forall i, a | 0 <= i < |tries[1..]| && a in tries[1..][i]
      ensures a in AvailableOf(H.Offerable(h1.Of(calls[1..][i]), members))
    {
      assert calls[1..][i] == calls[i + 1] && tries[1..][i] == tries[i + 1];
      H.LookIsAfterLook(h, calls[0], members, calls[i + 1]);
    }
  }

  // ---- The serial drain's candidates ----

  /** The candidates of each call in strategy order, under the stored order then. */
  function TriesOf(strategy: Strategy, line: Q.Line, now: Q.Millis, offers: seq<seq<H.Member>>): seq<seq<AgentId>>
    requires forall i | 0 <= i < |offers| :: H.DistinctIds(offers[i])
    decreases |offers|
  {
    if offers == [] then []
    else
      var (next, ids) := Candidates(strategy, line, now, offers[0]);
      [ids] + TriesOf(strategy, next, now, offers[1..])
  }

  lemma {:induction false} TriesAreOfferable(strategy: Strategy, line: Q.Line, now: Q.Millis,
                                             offers: seq<seq<H.Member>>)
    requires forall i | 0 <= i < |offers| :: H.DistinctIds(offers[i])
    ensures |TriesOf(strategy, line, now, offers)| == |offers|
    ensures var tries := TriesOf(strategy, line, now, offers);
            forall i, a | 0 <= i < |offers| && a in tries[i] :: a in AvailableOf(offers[i])
    decreases |offers|
  {
    if offers != [] {
      var next := Candidates(strategy, line, now, offers[0]).0;
      CandidatesAreAvailable(strategy, line, now, offers[0]);
      TriesAreOfferable(strategy, next, now, offers[1..]);
      var tries, rest := TriesOf(strategy, line, now, offers), TriesOf(strategy, next, now, offers[1..]);
      forall i, a | 0 <= i < |offers| && a in tries[i]
        ensures a in AvailableOf(offers[i])
      {
        if i > 0 { assert tries[i] == rest[i - 1] && offers[i] == offers[1..][i - 1]; }
      }
    }
  }

  /** The serial drain gives away the first call a candidate of which can be claimed. */
  lemma {:induction false} DrainIsFirstGiven(w: World, line: Q.Line, strategy: Strategy, now: Q.Millis, time: Time,
                                             calls: seq<CallId>, offers: seq<seq<H.Member>>)
    requires |calls| == |offers| && forall i | 0 <= i < |offers| :: H.DistinctIds(offers[i])
    ensures var d := DrainCalls(w, line, strategy, now, time, calls, offers);
            match FirstGiven(w, TriesOf(strategy, line, now, offers))
            case None => d.given.None? && d.w == w
            case Some((i, a)) =>
              i < |calls| && d.given == Some((calls[i], a)) && d.w == R.ClaimAndAssign(w, a, calls[i], false, time)
    decreases |calls|
  {
    if calls != [] {
      var (next, ids) := Candidates(strategy, line, now, offers[0]);
      assert TriesOf(strategy, line, now, offers)[1..] == TriesOf(strategy, next, now, offers[1..]);
      DrainIsFirstGiven(w, next, strategy, now, time, calls[1..], offers[1..]);
    }
  }

  lemma StartStep(G: Trail, s: P.State, xs: seq<P.Step>, id: P.TaskId, ids: set<AgentId>)
    returns (ys: seq<P.Step>, t: P.State)
    requires At(G, s, xs)
    requires id !in s.tasks
    ensures At(G, t, ys) && t.w == s.w && t.time == s.time && t.declined == s.declined
    ensures t.missed == s.missed
    ensures t.tasks == s.tasks[id := P.DrainScan(P.AvailableOf(s.w, ids), s.clock)]
  {
    ys, t := Goes(G, s, xs, P.StartDrain(id, ids));
  }

  function RosterIds(roster: seq<(AgentId, nat)>): set<AgentId> { set r | r in roster :: r.0 }

  lemma {:induction false} SameAvailable(w: World, roster: seq<(AgentId, nat)>)
    ensures P.AvailableOf(w, RosterIds(roster)) == AvailableOf(MembersOf(w, roster))
  {
    if roster != [] {
      SameAvailable(w, roster[1..]);
      var (a, priority) := roster[0];
      var rest := MembersOf(w, roster[1..]);
      assert RosterIds(roster) == RosterIds(roster[1..]) + {a};
      if a in w.agents && !w.agents[a].deleted {
        assert MembersOf(w, roster) == [H.Member(a, w.agents[a].Reported(), priority)] + rest;
        var more := if w.agents[a].Reported() == Available then {a} else {};
        assert AvailableOf(MembersOf(w, roster)) == AvailableOf(rest) + more;
      }
    }
  }

  lemma ScanRuns(G: Trail, s: P.State, xs: seq<P.Step>, before: Routing, after: Routing, id: P.TaskId,
                 roster: seq<(AgentId, nat)>,
                 calls: seq<CallId>, strategy: Strategy, now: Q.Millis, given: Option<(CallId, AgentId)>)
    returns (ys: seq<P.Step>, t: P.State)
    requires At(G, s, xs)
    requires Same(s, before) && id !in s.tasks && H.DistinctIds(MembersOf(before.w, roster))
    requires AllWaiting(s.w, calls)
    requires OffersMade(before, after, calls, MembersOf(before.w, roster), strategy, now, s.time, given)
    ensures At(G, t, ys) && Same(t, after) && t.tasks == s.tasks
  {
    var members := MembersOf(before.w, roster);
    var tries, offered := OffersOf(before, calls, members, strategy, now, s.time);
    SameAvailable(s.w, roster);
    var u, n;
    ys, u := StartStep(G, s, xs, id, RosterIds(roster));
    SameSets(s, u, before.history);
    ys, t, n := LoopRuns(G, u, ys, s.tasks, id, members, s.clock, before.history, calls, tries);
    OneLook(calls, offered.given, n);
  }

  /** What the serial loop tries, and with what outcome. */
  lemma OffersOf(before: Routing, calls: seq<CallId>, members: seq<H.Member>, strategy: Strategy, now: Q.Millis,
                 time: Time)
    returns (tries: seq<seq<AgentId>>, d: Drained)
    requires H.DistinctIds(members)
    ensures var offers := OffersFor(before.history, calls, members);
            d == DrainCalls(before.w, before.line, strategy, now, time, calls, offers)
    ensures AllOfferable(before.history, calls, members, tries)
    ensures match FirstGiven(before.w, tries)
            case None => d.given.None? && d.w == before.w && Looks(calls, d.given, |calls|)
            case Some((i, a)) =>
              && i < |calls| && Looks(calls, d.given, i + 1)
              && d.w == R.ClaimAndAssign(before.w, a, calls[i], false, time)
  {
    var offers := OffersFor(before.history, calls, members);
    d := DrainCalls(before.w, before.line, strategy, now, time, calls, offers);
    tries := TriesOf(strategy, before.line, now, offers);
    TriesAreOfferable(strategy, before.line, now, offers);
    DrainIsFirstGiven(before.w, before.line, strategy, now, time, calls, offers);
  }

  /** The calls a drain that found somebody available looked at. */
  lemma WaitingCalls(before: Routing, after: Routing, queue: QueueId, roster: seq<(AgentId, nat)>, strategy: Strategy,
                     now: Q.Millis, time: Time, given: Option<(CallId, AgentId)>)
    returns (waiting: seq<CallId>)
    requires H.DistinctIds(MembersOf(before.w, roster)) && H.AnyAvailable(MembersOf(before.w, roster))
    requires DrainDone(before, after, queue, roster, strategy, now, time, given)
    ensures AllWaiting(before.w, waiting)
    ensures OffersMade(before, after, waiting, MembersOf(before.w, roster), strategy, now, time, given)
  {
    waiting :| OldestWaiting(before.w, queue, DRAIN_LIMIT, waiting)
      && OffersMade(before, after, waiting, MembersOf(before.w, roster), strategy, now, time, given);
    OldestAreWaiting(before.w, queue, DRAIN_LIMIT, waiting);
  }

  lemma OldestAreWaiting(w: World, queue: QueueId, limit: nat, calls: seq<CallId>)
    requires OldestWaiting(w, queue, limit, calls)
    ensures AllWaiting(w, calls)
  {
  }

  lemma DrainGoes(G: Trail, s: P.State, xs: seq<P.Step>, before: Routing, after: Routing, id: P.TaskId,
                  queue: QueueId, roster: seq<(AgentId, nat)>, strategy: Strategy, now: Q.Millis,
                  given: Option<(CallId, AgentId)>)
    returns (ys: seq<P.Step>, t: P.State)
    requires At(G, s, xs)
    requires Same(s, before) && id !in s.tasks && H.DistinctIds(MembersOf(before.w, roster))
    requires DrainDone(before, after, queue, roster, strategy, now, s.time, given)
    ensures At(G, t, ys) && Same(t, after) && t.tasks == s.tasks
  {
    if !H.AnyAvailable(MembersOf(before.w, roster)) {
      ys, t := xs, s;
    } else {
      var waiting := WaitingCalls(before, after, queue, roster, strategy, now, s.time, given);
      ys, t := ScanRuns(G, s, xs, before, after, id, roster, waiting, strategy, now, given);
    }
  }

  /** A serial drain is a run of the protocol: it ends with the same rows, the same
      history and no task left. */
  lemma DrainRuns(s: P.State, before: Routing, after: Routing, id: P.TaskId, queue: QueueId,
                  roster: seq<(AgentId, nat)>, strategy: Strategy, now: Q.Millis, given: Option<(CallId, AgentId)>)
    returns (steps: seq<P.Step>, t: P.State)
    requires Same(s, before) && id !in s.tasks && H.DistinctIds(MembersOf(before.w, roster))
    requires DrainDone(before, after, queue, roster, strategy, now, s.time, given)
    ensures t == P.RunAll(s, steps) && Same(t, after) && t.tasks == s.tasks
  {
    RunsClosed(s);
    steps, t := DrainGoes((u, xs) => u == P.RunAll(s, xs), s, [], before, after, id, queue, roster, strategy, now,
                          given);
  }

  lemma OneLook(calls: seq<CallId>, given: Option<(CallId, AgentId)>, n: nat)
    requires forall i, j | 0 <= i < j < |calls| :: calls[i] != calls[j]
    requires Looks(calls, given, n)
    ensures forall m | Looks(calls, given, m) :: m == n
  {
  }

  lemma PassAndDrainGoes(G: Trail, s: P.State, xs: seq<P.Step>, before: Routing, after: Routing, id: P.TaskId,
                         c: CallId, a: AgentId, kind: PassKind, expiredBefore: Option<Time>, strategy: Strategy,
                         queue: QueueId, roster: seq<(AgentId, nat)>, now: Q.Millis)
    returns (ys: seq<P.Step>, t: P.State)
    requires At(G, s, xs) && Same(s, before) && id !in s.tasks
    requires c in s.w.calls && R.Withdraw(s.w.calls[c], a, expiredBefore).Some?
    requires H.DistinctIds(MembersOf(PassedOn(before, c, a, kind).w, roster))
    requires Routed(PassedOn(before, c, a, kind), after, c, OneAtATime(strategy), queue, roster, now, s.time)
    ensures At(G, t, ys) && Same(t, after) && t.tasks == s.tasks
  {
    var mid := PassedOn(before, c, a, kind);
    var given :| DrainDone(mid, after, queue, roster, strategy, now, s.time, given);
    var u;
    ys, u := PassOfferGoes(G, s, xs, before, id, c, a, kind, expiredBefore);
    ys, t := DrainGoes(G, u, ys, mid, after, id, queue, roster, strategy, now, given);
  }

  /** A passed offer and the drain that follows it, the whole of serial passOffer in
      a queue that offers to one member at a time, are one run. */
  lemma PassAndDrainRuns(s: P.State, before: Routing, after: Routing, id: P.TaskId, c: CallId, a: AgentId,
                         kind: PassKind, expiredBefore: Option<Time>, strategy: Strategy, queue: QueueId,
                         roster: seq<(AgentId, nat)>, now: Q.Millis)
    returns (steps: seq<P.Step>, t: P.State)
    requires Same(s, before) && id !in s.tasks
    requires c in s.w.calls && R.Withdraw(s.w.calls[c], a, expiredBefore).Some?
    requires H.DistinctIds(MembersOf(PassedOn(before, c, a, kind).w, roster))
    requires Routed(PassedOn(before, c, a, kind), after, c, OneAtATime(strategy), queue, roster, now, s.time)
    ensures t == P.RunAll(s, steps) && Same(t, after) && t.tasks == s.tasks
  {
    RunsClosed(s);
    steps, t := PassAndDrainGoes((u, xs) => u == P.RunAll(s, xs), s, [], before, after, id, c, a, kind, expiredBefore,
                                 strategy, queue, roster, now);
  }
}
