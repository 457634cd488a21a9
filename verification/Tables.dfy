/** The two shared tables with the statements of AgentRepository and
    CallRepository, each one atomic. */
module Tables {
  import opened CallTypes
  import opened RowLaws
  import R = RowSteps

  class Database {
    var agents: map<AgentId, Agent>
    var calls: map<CallId, Call>

    constructor ()
      ensures agents == map[] && calls == map[]
    {
      agents, calls := map[], map[];
    }

    ghost function Rows(): World
      reads this
    {
      World(agents, calls)
    }

    // ---- AgentRepository ----

    method ClaimAgentAndAssignCall(a: AgentId, c: CallId, anyShift: bool, now: Time)
      returns (claimed: bool, taken: bool)
      modifies this`agents, this`calls
      ensures Rows() == R.ClaimAndAssign(old(Rows()), a, c, anyShift, now)
      ensures claimed == (R.ClaimOutcomeOf(old(Rows()), a, c, anyShift) != R.AgentNotFree)
      ensures taken == (R.ClaimOutcomeOf(old(Rows()), a, c, anyShift) == R.Assigned)
      ensures claimed <==> Free(old(Rows()), a, anyShift)
      ensures taken <==> claimed && c in old(calls) && Unassigned(old(calls[c]))
      ensures !taken ==> agents == old(agents) && calls == old(calls)
      ensures taken ==> agents == old(agents)[a := old(agents[a]).(busy := Some(c))]
      ensures taken ==> calls == old(calls)[c := old(calls[c]).(agent := Some(a), offeredAt := Some(now))]
    {
      ClaimsTheFree(Rows(), a, anyShift);
      var before := agents;
      claimed := ClaimAgentRow(a, c, anyShift);
      if !claimed { return false, false; }
      if c in calls && calls[c].agent.None? && calls[c].RingingInbound() && !calls[c].InIvr() {
        calls := calls[c := calls[c].(agent := Some(a), offeredAt := Some(now))];
        return true, true;
      }
      agents := before;  // rollback
      return true, false;
    }

    method ClaimAgentRow(a: AgentId, c: CallId, anyShift: bool) returns (claimed: bool)
      modifies this`agents
      ensures claimed == R.CanClaim(old(Rows()), a, anyShift)
      ensures agents == if claimed then R.SetBusy(old(Rows()), a, Some(c)).agents else old(agents)
    {
      claimed := false;
      if a in agents && agents[a].busy.None? && (anyShift || agents[a].OnShift()) && !agents[a].deleted {
        var other := HasActiveCall(a, None);
        if !other {
          agents := agents[a := agents[a].(busy := Some(c))];
          claimed := true;
        }
      }
    }

    /** NOT EXISTS in the claims: an active call with the agent on it. */
    method HasActiveCall(a: AgentId, except: Option<CallId>) returns (found: bool)
      ensures found == Rows().OnActiveCall(a, except)
    {
      var rest := calls.Keys;
      found := false;
      while rest != {}
        invariant rest <= calls.Keys
        invariant found <==>
                    exists c | c in calls.Keys - rest ::
                      calls[c].Active() && calls[c].agent == Some(a) && Some(c) != except
        decreases rest
      {
        var c :| c in rest;
        rest := rest - {c};
        if calls[c].Active() && calls[c].agent == Some(a) && Some(c) != except { found := true; }
      }
    }

    method ClaimAgentForCall(a: AgentId, c: CallId) returns (claimed: bool)
      modifies this`agents
      ensures Rows() == R.ClaimForCall(old(Rows()), a, c) && claimed == R.CanClaim(old(Rows()), a, false)
      ensures claimed <==> Free(old(Rows()), a, false)
      ensures agents == if claimed then old(agents)[a := old(agents[a]).(busy := Some(c))] else old(agents)
    {
      ClaimsTheFree(Rows(), a, false);
      claimed := ClaimAgentRow(a, c, false);
    }

    /** True when the call now holds the agent, also when it already did. */
    method HoldForOwnCall(a: AgentId, c: CallId) returns (held: bool)
      modifies this`agents
      ensures Rows() == R.Hold(old(Rows()), a, c) && held == Rows().Holds(c, a)
      ensures held <==> a in old(agents) && (old(agents[a]).busy == Some(c) || Owned(old(Rows()), a, c))
      ensures agents == if held then old(agents)[a := old(agents[a]).(busy := Some(c))] else old(agents)
    {
      if a in agents && (agents[a].busy.None? || agents[a].busy == Some(c)) && !agents[a].deleted
         && c in calls && calls[c].agent == Some(a) && calls[c].Active() {
        var other := HasActiveCall(a, Some(c));
        if !other {
          agents := agents[a := agents[a].(busy := Some(c))];
          return true;
        }
      }
      held := a in agents && agents[a].busy == Some(c);
    }

    method ReleaseFromCall(a: AgentId, c: CallId) returns (released: bool)
      modifies this`agents
      ensures Rows() == R.Release(old(Rows()), a, c) && released == old(Rows()).Holds(c, a)
      ensures released <==> a in old(agents) && old(agents[a]).busy == Some(c)
      ensures agents == if released then old(agents)[a := old(agents[a]).(busy := None)] else old(agents)
    {
      released := a in agents && agents[a].busy == Some(c);
      if released { agents := agents[a := agents[a].(busy := None)]; }
    }

    /** Up to `limit` agents held by a call that is over or gone. */
    method FindHeldByEndedCalls(limit: nat) returns (held: seq<(AgentId, CallId)>)
      ensures forall i | 0 <= i < |held| :: Rows().Holds(held[i].1, held[i].0) && !Rows().ActiveCall(held[i].1)
      ensures forall i, j | 0 <= i < j < |held| :: held[i].0 != held[j].0
      ensures |held| == if |Stranded(Rows())| <= limit then |Stranded(Rows())| else limit
    {
      var rest := agents.Keys;
      held := [];
      ghost var found: set<AgentId> := {};
      while rest != {} && |held| < limit
        invariant rest <= agents.Keys && found == Stranded(Rows()) - rest && |held| <= limit
        invariant HeldByEnded(Rows(), held, found)
        decreases rest
      {
        var a :| a in rest;
        rest := rest - {a};
        if agents[a].busy.Some? {
          var c := agents[a].busy.value;
          if c !in calls || !calls[c].Active() {
            OneMoreHeld(Rows(), held, found, a, c);
            held := held + [(a, c)];
            found := found + {a};
          }
        }
        assert found == Stranded(Rows()) - rest;
      }
      SubsetSize(found, Stranded(Rows()));
      if rest == {} { assert found == Stranded(Rows()); }
    }

    // ---- CallRepository ----

    method WithdrawOffer(c: CallId, a: AgentId, expiredBefore: Option<Time>) returns (withdrawn: bool)
      modifies this`calls
      ensures Rows() == R.Put(old(Rows()), c, R.Lift(old(Rows()), c, r => R.Withdraw(r, a, expiredBefore)))
      ensures withdrawn == R.Lift(old(Rows()), c, r => R.Withdraw(r, a, expiredBefore)).Some?
      ensures withdrawn <==> c in old(calls) && (var r := old(calls[c]);
                r.agent == Some(a) && r.status == Ringing && r.direction == Inbound && r.offeredAt.Some?
                && (expiredBefore.Some? ==> r.offeredAt.value <= expiredBefore.value))
      ensures calls == if withdrawn
                       then old(calls)[c := old(calls[c]).(agent := None, offeredAt := None)]
                       else old(calls)
    {
      withdrawn := c in calls && calls[c].agent == Some(a) && calls[c].RingingInbound() && calls[c].offeredAt.Some?
        && (expiredBefore.None? || calls[c].offeredAt.value <= expiredBefore.value);
      if withdrawn { calls := calls[c := calls[c].(agent := None, offeredAt := None)]; }
    }

    method OverflowToQueue(c: CallId, from: QueueId, to: QueueId, offered: Option<AgentId>, now: Time)
      returns (moved: bool)
      modifies this`calls
      ensures Rows() == R.Put(old(Rows()), c, R.Lift(old(Rows()), c, r => R.Overflow(r, from, to, offered, now)))
      ensures moved == R.Lift(old(Rows()), c, r => R.Overflow(r, from, to, offered, now)).Some?
      ensures moved <==> c in old(calls) && (var r := old(calls[c]);
                r.queue == Some(from) && r.status == Ringing && r.direction == Inbound && r.agent == offered
                && (r.agent == None || r.offeredAt != None))
      ensures calls == if moved then old(calls)[c := old(calls[c]).(queue := Some(to), queuedAt := Some(now),
                  overflows := old(calls[c]).overflows + 1, agent := None, offeredAt := None)] else old(calls)
    {
      moved := c in calls && calls[c].queue == Some(from) && calls[c].RingingInbound() && calls[c].agent == offered
        && (calls[c].agent.None? || calls[c].offeredAt.Some?);
      if moved {
        var r := calls[c];
        r := r.(queue := Some(to), queuedAt := Some(now), overflows := r.overflows + 1);
        calls := calls[c := r.(agent := None, offeredAt := None)];
      }
    }

    method AssignCallToAgentIfEligible(c: CallId, a: AgentId) returns (claimed: bool)
      modifies this`calls
      ensures Rows() == R.Put(old(Rows()), c, R.Lift(old(Rows()), c, r => R.Accept(r, a)))
      ensures claimed == R.Lift(old(Rows()), c, r => R.Accept(r, a)).Some?
      ensures claimed <==> c in old(calls) && (var r := old(calls[c]);
                Live(r) && r.agent in {None, Some(a)} && r.phase != Some(Ivr))
      ensures calls == if claimed
                       then old(calls)[c := old(calls[c]).(agent := Some(a), offeredAt := None)]
                       else old(calls)
    {
      claimed := c in calls && calls[c].Active() && (calls[c].agent.None? || calls[c].agent == Some(a))
                 && !calls[c].InIvr();
      if claimed { calls := calls[c := calls[c].(agent := Some(a), offeredAt := None)]; }
    }

    method UpdateCallAgentIfCurrent(c: CallId, from: AgentId, to: AgentId) returns (moved: bool)
      modifies this`calls
      ensures Rows() == R.Put(old(Rows()), c, R.Lift(old(Rows()), c, r => R.MoveAgent(r, from, to)))
      ensures moved == R.Lift(old(Rows()), c, r => R.MoveAgent(r, from, to)).Some?
      ensures moved <==> c in old(calls) && (var r := old(calls[c]);
                Live(r) && r.agent == Some(from) && r.phase != Some(Ivr))
      ensures calls == if moved then old(calls)[c := old(calls[c]).(agent := Some(to))] else old(calls)
    {
      moved := c in calls && calls[c].agent == Some(from) && calls[c].Active() && !calls[c].InIvr();
      if moved { calls := calls[c := calls[c].(agent := Some(to))]; }
    }

    method MarkHandoverOffered(c: CallId, a: AgentId, now: Time)
      modifies this`calls
      ensures Rows() == R.Put(old(Rows()), c, R.Lift(old(Rows()), c, r => R.MarkHandover(r, a, now)))
      ensures calls == if c in old(calls) && old(calls[c]).agent == Some(a) && old(calls[c]).status == InProgress
                       then old(calls)[c := old(calls[c]).(offeredAt := Some(now))] else old(calls)
    {
      if c in calls && calls[c].agent == Some(a) && calls[c].status == InProgress {
        calls := calls[c := calls[c].(offeredAt := Some(now))];
      }
    }

    /** The target accepts the handover, unless it is no longer theirs. */
    method ClaimHandover(c: CallId, a: AgentId) returns (claimed: bool)
      modifies this`calls
      ensures Rows() == R.Put(old(Rows()), c, R.Lift(old(Rows()), c, r => R.ClaimHandover(r, a)))
      ensures claimed <==> c in old(calls) && old(calls[c]).agent == Some(a) && old(calls[c]).status == InProgress
      ensures calls == if claimed then old(calls)[c := old(calls[c]).(offeredAt := None)] else old(calls)
    {
      claimed := c in calls && calls[c].agent == Some(a) && calls[c].status == InProgress;
      if claimed { calls := calls[c := calls[c].(offeredAt := None)]; }
    }

    /** A handover nobody accepted goes back to ringing in its queue; the offer stays
        for the pass that follows. */
    method ReturnHandoverToQueue(c: CallId, a: AgentId, offeredBy: Time, now: Time) returns (returned: bool)
      modifies this`calls
      ensures Rows() == R.Put(old(Rows()), c, R.Lift(old(Rows()), c, r => R.ReturnHandover(r, a, offeredBy, now)))
      ensures returned <==> c in old(calls) && (var r := old(calls[c]);
                r.agent == Some(a) && r.status == InProgress && r.offeredAt.Some? && r.offeredAt.value <= offeredBy)
      ensures calls == if returned then old(calls)[c := old(calls[c]).(status := Ringing, phase := Some(Queued),
                  queuedAt := Some(now))] else old(calls)
    {
      returned := c in calls && calls[c].agent == Some(a) && calls[c].status == InProgress
                  && calls[c].offeredAt.Some? && calls[c].offeredAt.value <= offeredBy;
      if returned { calls := calls[c := calls[c].(status := Ringing, phase := Some(Queued), queuedAt := Some(now))]; }
    }

    /** A handover nobody accepted that has no queue to go back to. */
    method ExpireHandover(c: CallId, a: AgentId, offeredBy: Time) returns (expired: bool)
      modifies this`calls
      ensures Rows() == R.Put(old(Rows()), c, R.Lift(old(Rows()), c, r => R.ExpireHandover(r, a, offeredBy)))
      ensures expired <==> c in old(calls) && (var r := old(calls[c]);
                r.agent == Some(a) && r.status == InProgress && r.offeredAt.Some? && r.offeredAt.value <= offeredBy)
      ensures calls == if expired then old(calls)[c := old(calls[c]).(offeredAt := None)] else old(calls)
    {
      expired := c in calls && calls[c].agent == Some(a) && calls[c].status == InProgress
                 && calls[c].offeredAt.Some? && calls[c].offeredAt.value <= offeredBy;
      if expired { calls := calls[c := calls[c].(offeredAt := None)]; }
    }

    method TerminateCallIfNotTerminated(c: CallId, only: Option<Status>) returns (ended: bool)
      modifies this`calls
      ensures Rows() == R.Put(old(Rows()), c, R.Lift(old(Rows()), c, r => R.Terminate(r, only)))
      ensures ended == R.Lift(old(Rows()), c, r => R.Terminate(r, only)).Some?
      ensures ended <==> c in old(calls) && (var r := old(calls[c]);
                Live(r) && (only.Some? ==> r.status == only.value))
      ensures calls == if ended
                       then old(calls)[c := old(calls[c]).(status := Terminated, phase := None, offeredAt := None)]
                       else old(calls)
    {
      ended := c in calls && calls[c].Active() && (only.None? || calls[c].status == only.value);
      if ended { calls := calls[c := calls[c].(status := Terminated, phase := None, offeredAt := None)]; }
    }
  }

  /** Agents held by a call that is over or gone. */
  function Stranded(w: World): set<AgentId> {
    set a | a in w.agents && w.agents[a].busy.Some? && !w.ActiveCall(w.agents[a].busy.value)
  }

  lemma {:induction false} SubsetSize<T>(s: set<T>, t: set<T>)
    requires s <= t
    ensures |s| <= |t| && (|s| == |t| ==> s == t)
  {
    if s != {} {
      var x :| x in s;
      SubsetSize(s - {x}, t - {x});
    }
  }

  /** The agents found so far, each held by a call that is over or gone. */
  ghost predicate HeldByEnded(w: World, held: seq<(AgentId, CallId)>, found: set<AgentId>) {
    && |held| == |found|
    && (forall i | 0 <= i < |held| :: held[i].0 in found && w.Holds(held[i].1, held[i].0) && !w.ActiveCall(held[i].1))
    && (forall i, j | 0 <= i < j < |held| :: held[i].0 != held[j].0)
  }

  lemma OneMoreHeld(w: World, held: seq<(AgentId, CallId)>, found: set<AgentId>, a: AgentId, c: CallId)
    requires HeldByEnded(w, held, found) && a !in found && w.Holds(c, a) && !w.ActiveCall(c)
    ensures HeldByEnded(w, held + [(a, c)], found + {a})
  {
  }
}
