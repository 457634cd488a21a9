/** What the guards of the claims ask of the rows, column by column. */
module RowLaws {
  import opened CallTypes
  import R = RowSteps

  predicate Live(r: Call) { r.status in {Initiated, Ringing, InProgress} }

  /** An agent a claim may take: on no call, not deleted, on shift unless the claim
      rings them on any shift, and the agent of no live call. */
  ghost predicate Free(w: World, a: AgentId, anyShift: bool) {
    && a in w.agents && w.agents[a].busy == None && !w.agents[a].deleted
    && (w.agents[a].shift in {Available, OnCall} || anyShift)
    && forall d | d in w.calls && w.calls[d].agent == Some(a) :: !Live(w.calls[d])
  }

  /** An agent whom a live call of theirs may hold: on no call, not deleted, and the
      agent of no other live call. */
  ghost predicate Owned(w: World, a: AgentId, c: CallId) {
    && a in w.agents && w.agents[a].busy == None && !w.agents[a].deleted
    && c in w.calls && Live(w.calls[c]) && w.calls[c].agent == Some(a)
    && forall d | d in w.calls && d != c && w.calls[d].agent == Some(a) :: !Live(w.calls[d])
  }

  /** A waiting inbound call that may be given to an agent. */
  predicate Unassigned(r: Call) {
    r.agent == None && r.status == Ringing && r.direction == Inbound && r.phase != Some(Ivr)
  }

  /** The claim takes a free agent and nobody else. */
  lemma ClaimsTheFree(w: World, a: AgentId, anyShift: bool)
    ensures R.CanClaim(w, a, anyShift) <==> Free(w, a, anyShift)
  {
    forall d | R.CanClaim(w, a, anyShift) && d in w.calls && w.calls[d].agent == Some(a)
      ensures !Live(w.calls[d])
    {}
  }
}
