/** What a successful execution leaves behind: its response, which every later
    request of the key gets until the key expires. */
module IdempotencyReplay {
  import opened CallTypes
  import opened Idempotency
  import opened IdempotencyRuns

  /** What of a response is kept: its status, and its body if that was JSON. */
  predicate SameAnswer(kept: Response, response: Response) {
    kept.status == response.status && kept.body == if response.json then response.body else None
  }

  /** The row as it was, but completed with the response. */
  predicate CompletedWith(row: KeyRow, before: KeyRow, response: Response) {
    && row.id == before.id && row.hash == before.hash && row.expiresAt == before.expiresAt
    && row.progress.Completed? && SameAnswer(row.progress.response, response)
  }

  /** A request of the key that came after: still at its two reads, or answered. */
  predicate Answers(t: Task, hash: Hash, response: Response) {
    || t.stage in {Claiming(ATTEMPTS), Finding(ATTEMPTS)}
    || (t.stage.Done? && t.hash == hash && t.stage.outcome.Replayed? && SameAnswer(t.stage.outcome.response, response))
    || (t.stage.Done? && t.hash != hash && t.stage.outcome.Reused?)
  }

  // ---- A row is only removed once it has expired ----

  ghost predicate RemovalsDue(s: State) {
    forall i, k | 0 <= i < |s.tasks| && s.tasks[i].stage.Removing? && k in s.table.rows ::
      s.table.rows[k].id == s.tasks[i].stage.id ==> s.table.rows[k].expiresAt <= s.now
  }

  lemma RunIsDue(s: State, i: nat, k: Slot)
    requires Inv(s) && RemovalsDue(s) && i < |s.tasks|
    ensures var t := RunTask(s, i);
            t.tasks[i].stage.Removing? && k in t.table.rows && t.table.rows[k].id == t.tasks[i].stage.id ==>
              t.table.rows[k].expiresAt <= t.now
  {
  }

  lemma OthersStayDue(s: State, i: nat, j: nat, k: Slot)
    requires Inv(s) && RemovalsDue(s) && i < |s.tasks| && j < |s.tasks| && i != j
    ensures var t := RunTask(s, i);
            s.tasks[j].stage.Removing? && k in t.table.rows && t.table.rows[k].id == s.tasks[j].stage.id ==>
              t.table.rows[k].expiresAt <= t.now
  {
    assert TaskOwned(s, s.tasks[j]);
  }

  lemma RunKeepsDue(s: State, i: nat)
    requires Inv(s) && RemovalsDue(s) && i < |s.tasks|
    ensures RemovalsDue(RunTask(s, i))
  {
    var t := RunTask(s, i);
    forall j: nat, k | j < |t.tasks| && t.tasks[j].stage.Removing? && k in t.table.rows
      ensures t.table.rows[k].id == t.tasks[j].stage.id ==> t.table.rows[k].expiresAt <= t.now
    {
      if i == j { RunIsDue(s, i, k); } else { RunLeavesOthers(s, i, j); OthersStayDue(s, i, j, k); }
    }
  }

  lemma NextKeepsDue(s: State, step: Step)
    requires Inv(s) && RemovalsDue(s)
    ensures RemovalsDue(Next(s, step))
  {
    match step
    case Run(i) => if i < |s.tasks| { RunKeepsDue(s, i); }
    case _ =>
  }

  lemma {:induction false} RemovalsStayDue(s: State, steps: seq<Step>)
    requires Inv(s) && RemovalsDue(s)
    ensures RemovalsDue(RunAll(s, steps))
    decreases |steps|
  {
    if steps != [] {
      NextKeeps(s, steps[0]);
      NextKeepsDue(s, steps[0]);
      RemovalsStayDue(Next(s, steps[0]), steps[1..]);
    }
  }

  // ---- A stored response stays ----

  /** The key's row is completed, no execution and no removal of it is under way, and
      the requests from number `first` on are answered from it. */
  ghost predicate Settled(s: State, slot: Slot, row: KeyRow, response: Response, first: nat) {
    && slot in s.table.rows && CompletedWith(s.table.rows[slot], row, response)
    && (forall i | 0 <= i < |s.tasks| :: s.tasks[i].stage != Running(row.id))
    && (forall i | 0 <= i < |s.tasks| && s.tasks[i].stage.Removing? :: s.tasks[i].stage.id != row.id)
    && (forall i | first <= i < |s.tasks| && s.tasks[i].slot == slot :: Answers(s.tasks[i], row.hash, response))
  }

  /** One statement of one request leaves the others alone. */
  lemma RunLeavesOthers(s: State, i: nat, j: nat)
    requires i < |s.tasks| && j < |s.tasks| && i != j
    ensures var t := RunTask(s, i);
            |t.tasks| == |s.tasks| && t.tasks[j] == s.tasks[j] && t.tasks[i].slot == s.tasks[i].slot
  {
  }

  /** What a request of the key makes of its settled row. */
  lemma RunOfSettled(s: State, i: nat, slot: Slot, row: KeyRow, response: Response, first: nat)
    requires Inv(s) && Settled(s, slot, row, response, first) && s.now < row.expiresAt && i < |s.tasks|
    ensures var t := RunTask(s, i);
            && slot in t.table.rows && t.table.rows[slot] == s.table.rows[slot]
            && t.tasks[i].stage != Running(row.id) && (t.tasks[i].stage.Removing? ==> t.tasks[i].stage.id != row.id)
            && (first <= i && t.tasks[i].slot == slot ==> Answers(t.tasks[i], row.hash, response))
  {
    assert TaskOwned(s, s.tasks[i]);
    assert row.id in s.owner && s.owner[row.id].slot == slot;
  }

  lemma RunKeepsSettled(s: State, i: nat, slot: Slot, row: KeyRow, response: Response, first: nat)
    requires Inv(s) && Settled(s, slot, row, response, first) && s.now < row.expiresAt && i < |s.tasks|
    ensures Settled(RunTask(s, i), slot, row, response, first)
  {
    RunOfSettled(s, i, slot, row, response, first);
    forall j: nat | j < |s.tasks| && j != i
      ensures RunTask(s, i).tasks[j] == s.tasks[j]
    {
      RunLeavesOthers(s, i, j);
    }
  }

  lemma FinishKeepsSettled(s: State, i: nat, given: Response, storing: bool, slot: Slot, row: KeyRow,
                           response: Response, first: nat)
    requires Inv(s) && Settled(s, slot, row, response, first) && s.Executing(i)
    ensures Settled(FinishTask(s, i, given, storing), slot, row, response, first)
  {
    var t := FinishTask(s, i, given, storing);
    assert TaskOwned(s, s.tasks[i]) && s.tasks[i].stage.id != row.id;
  }

  lemma NextKeepsSettled(s: State, step: Step, slot: Slot, row: KeyRow, response: Response, first: nat)
    requires Inv(s) && Settled(s, slot, row, response, first) && s.now < row.expiresAt && first <= |s.tasks|
    ensures Settled(Next(s, step), slot, row, response, first)
  {
    match step
    case Run(i) => if i < |s.tasks| { RunKeepsSettled(s, i, slot, row, response, first); }
    case Finish(i, given, storing) =>
      if s.Executing(i) { FinishKeepsSettled(s, i, given, storing, slot, row, response, first); }
    case _ =>
  }

  lemma TimeGoesOn(s: State, step: Step)
    ensures s.now <= Next(s, step).now && |s.tasks| <= |Next(s, step).tasks|
  {
  }

  lemma {:induction false} SettledStays(s: State, steps: seq<Step>, slot: Slot, row: KeyRow, response: Response,
                                        first: nat)
    requires Inv(s) && Settled(s, slot, row, response, first) && first <= |s.tasks|
    requires RunAll(s, steps).now < row.expiresAt
    ensures Settled(RunAll(s, steps), slot, row, response, first)
    decreases |steps|
  {
    if steps != [] {
      TimesGoOn(s, steps);
      NextKeeps(s, steps[0]);
      TimeGoesOn(s, steps[0]);
      NextKeepsSettled(s, steps[0], slot, row, response, first);
      SettledStays(Next(s, steps[0]), steps[1..], slot, row, response, first);
    }
  }

  lemma {:induction false} TimesGoOn(s: State, steps: seq<Step>)
    ensures s.now <= RunAll(s, steps).now
    decreases |steps|
  {
    if steps != [] {
      TimeGoesOn(s, steps[0]);
      TimesGoOn(Next(s, steps[0]), steps[1..]);
    }
  }

  // ---- Main results ----

  /** In any run, when an undisturbed execution ends with a status below 500 and its
      statement succeeds, the key's row stays and is completed with that status, and
      with the body if it was JSON. */
  lemma SuccessIsStored(steps: seq<Step>, i: nat, response: Response)
    requires var s := RunAll(INITIAL, steps);
             s.Executing(i) && s.Undisturbed(s.tasks[i].stage.id) && response.status < 500
    ensures var s := RunAll(INITIAL, steps);
            var slot, t := s.tasks[i].slot, Next(s, Finish(i, response, true));
            && slot in s.table.rows && slot in t.table.rows
            && CompletedWith(t.table.rows[slot], s.table.rows[slot], response)
  {
    InvHolds(INITIAL, steps);
    assert Holds(RunAll(INITIAL, steps), i);
  }

  lemma SettledBySuccess(s: State, i: nat, response: Response)
    requires Inv(s) && RemovalsDue(s) && s.Executing(i) && s.Undisturbed(s.tasks[i].stage.id) && response.status < 500
    requires s.tasks[i].slot in s.table.rows && s.now < s.table.rows[s.tasks[i].slot].expiresAt
    ensures var slot, t := s.tasks[i].slot, Next(s, Finish(i, response, true));
            Inv(t) && Settled(t, slot, s.table.rows[slot], response, |t.tasks|)
  {
    NextKeeps(s, Finish(i, response, true));
    assert Holds(s, i) && TaskOwned(s, s.tasks[i]);
  }

  /** Until the key expires, whatever runs in between, every later request of it is
      answered with exactly that response, or refused if it is another request. None
      of them executes. */
  lemma RetryGetsTheAnswer(steps: seq<Step>, i: nat, response: Response, more: seq<Step>, j: nat)
    requires var s := RunAll(INITIAL, steps);
             s.Executing(i) && s.Undisturbed(s.tasks[i].stage.id) && response.status < 500
    requires var s := RunAll(INITIAL, steps);
             var u := RunAll(Next(s, Finish(i, response, true)), more);
             && s.tasks[i].slot in s.table.rows && u.now < s.table.rows[s.tasks[i].slot].expiresAt
             && |s.tasks| <= j < |u.tasks| && u.tasks[j].slot == s.tasks[i].slot
    ensures var s := RunAll(INITIAL, steps);
            var u := RunAll(Next(s, Finish(i, response, true)), more);
            var slot := s.tasks[i].slot;
            && slot in u.table.rows && CompletedWith(u.table.rows[slot], s.table.rows[slot], response)
            && Answers(u.tasks[j], s.table.rows[slot].hash, response)
            && Next(Next(u, Run(j)), Run(j)).tasks[j].stage.Done?
            && Answers(Next(Next(u, Run(j)), Run(j)).tasks[j], s.table.rows[slot].hash, response)
  {
    var s := RunAll(INITIAL, steps);
    var slot, t := s.tasks[i].slot, Next(s, Finish(i, response, true));
    var row := s.table.rows[slot];
    InvHolds(INITIAL, steps);
    RemovalsStayDue(INITIAL, steps);
    TimeGoesOn(s, Finish(i, response, true));
    TimesGoOn(t, more);
    SettledBySuccess(s, i, response);
    SettledStays(t, more, slot, row, response, |t.tasks|);
    InvHolds(t, more);
    AnsweredInTwo(RunAll(t, more), j, slot, row, response, |t.tasks|);
  }

  lemma AnsweredInTwo(u: State, j: nat, slot: Slot, row: KeyRow, response: Response, first: nat)
    requires Inv(u) && Settled(u, slot, row, response, first) && u.now < row.expiresAt
    requires first <= j < |u.tasks| && u.tasks[j].slot == slot
    ensures var v := Next(Next(u, Run(j)), Run(j));
            v.tasks[j].stage.Done? && Answers(v.tasks[j], row.hash, response)
  {
    RunKeeps(u, j);
    RunKeepsSettled(u, j, slot, row, response, first);
    RunKeepsSettled(Next(u, Run(j)), j, slot, row, response, first);
  }

  // ---- One request alone ----

  /** A request that arrives and runs its reads and writes with nothing in between. */
  function Alone(s: State, slot: Slot, hash: Hash): State {
    var i, t := |s.tasks|, Next(s, Arrive(slot, hash));
    Next(Next(Next(Next(t, Run(i)), Run(i)), Run(i)), Run(i))
  }

  ghost predicate Serves(s: State, t: State, slot: Slot, stage: Stage, rows: map<Slot, KeyRow>) {
    && |t.tasks| == |s.tasks| + 1 && t.tasks[..|s.tasks|] == s.tasks && t.tasks[|s.tasks|].slot == slot
    && t.tasks[|s.tasks|].stage == stage && t.table.rows == rows
  }

  lemma RemovedOne(s: State, slot: Slot)
    requires Inv(s) && slot in s.table.rows
    ensures Removed(s.table, s.table.rows[slot].id).rows == s.table.rows - {slot}
  {
  }

  lemma TakenOverOne(s: State, slot: Slot)
    requires Inv(s) && slot in s.table.rows && CanTakeOver(s.table, slot, s.table.rows[slot].id, s.now)
    ensures TakenOver(s.table, s.table.rows[slot].id, s.now).rows ==
            s.table.rows[slot := s.table.rows[slot].(updatedAt := s.now)]
  {
  }

  /** The last request stands at that stage, having left the table so. */
  ghost predicate At(s: State, t: State, slot: Slot, hash: Hash, stage: Stage, table: Table) {
    && t.tasks == s.tasks + [Task(slot, hash, stage)] && t.table == table && t.now == s.now
  }

  /** One statement of the last request. */
  lemma RunsOn(s: State, t: State, slot: Slot, hash: Hash, stage: Stage, table: Table)
    requires At(s, t, slot, hash, stage, table)
    ensures var u := Next(t, Run(|s.tasks|));
            match stage
            case Claiming(tries) =>
              if slot in table.rows then At(s, u, slot, hash, Finding(tries), table)
              else At(s, u, slot, hash, Running(table.nextId), Claimed(table, slot, hash, s.now))
            case Finding(tries) => At(s, u, slot, hash, AfterFind(RowOf(table, slot), hash, tries, s.now), table)
            case Removing(id, tries) => At(s, u, slot, hash, Retry(tries), Removed(table, id))
            case TakingOver(id) =>
              CanTakeOver(table, slot, id, s.now) ==> At(s, u, slot, hash, Running(id), TakenOver(table, id, s.now))
            case _ => u == t
  {
  }

  lemma NewRuns(s: State, t: State, slot: Slot, hash: Hash, tries: nat, table: Table)
    requires At(s, t, slot, hash, Claiming(tries), table) && slot !in table.rows
    ensures var i := |s.tasks|;
            At(s, Next(t, Run(i)), slot, hash, Running(table.nextId), Claimed(table, slot, hash, s.now))
            && Next(Next(t, Run(i)), Run(i)) == Next(t, Run(i))
  {
    RunsOn(s, t, slot, hash, Claiming(tries), table);
    RunsOn(s, Next(t, Run(|s.tasks|)), slot, hash, Running(table.nextId), Claimed(table, slot, hash, s.now));
  }

  /** In any state of a run, a request run alone does what the pre-handler does in
      `KeyTable.PreHandle`, and changes no other key's row. */
  lemma PreHandlerRuns(steps: seq<Step>, slot: Slot, hash: Hash)
    ensures var s := RunAll(INITIAL, steps);
            RunsAlone(s, Alone(s, slot, hash), slot, hash)
  {
    InvHolds(INITIAL, steps);
    AloneRuns(RunAll(INITIAL, steps), slot, hash);
  }

  ghost predicate RunsAlone(s: State, t: State, slot: Slot, hash: Hash) {
    var rows, claim := s.table.rows, KeyRow(s.table.nextId, hash, Pending, s.now + 86400, s.now);
    match RowOf(s.table, slot)
    case None => Serves(s, t, slot, Running(claim.id), rows[slot := claim])
    case Some(row) =>
      if row.expiresAt <= s.now then Serves(s, t, slot, Running(claim.id), rows[slot := claim])
      else if row.hash != hash then Serves(s, t, slot, Done(Reused), rows)
      else if row.progress.Completed? then Serves(s, t, slot, Done(Replayed(row.progress.response)), rows)
      else if row.updatedAt + 120 <= s.now
      then Serves(s, t, slot, Running(row.id), rows[slot := row.(updatedAt := s.now)])
      else Serves(s, t, slot, Done(InUse), rows)
  }

  lemma AloneRuns(s: State, slot: Slot, hash: Hash)
    requires Inv(s)
    ensures RunsAlone(s, Alone(s, slot, hash), slot, hash)
  {
    var i := |s.tasks|;
    var t := Next(s, Arrive(slot, hash));
    if slot !in s.table.rows {
      NewRuns(s, t, slot, hash, ATTEMPTS, s.table);
    } else {
      var row := s.table.rows[slot];
      var u := Next(t, Run(i));
      RunsOn(s, t, slot, hash, Claiming(ATTEMPTS), s.table);
      if row.expiresAt <= s.now { ExpiredRuns(s, u, slot, hash); } else { FoundRuns(s, u, slot, hash); }
    }
  }

  lemma ExpiredRuns(s: State, u: State, slot: Slot, hash: Hash)
    requires Inv(s) && slot in s.table.rows && s.table.rows[slot].expiresAt <= s.now
    requires At(s, u, slot, hash, Finding(ATTEMPTS), s.table)
    ensures var i := |s.tasks|;
            RunsAlone(s, Next(Next(Next(u, Run(i)), Run(i)), Run(i)), slot, hash)
  {
    var i, row := |s.tasks|, s.table.rows[slot];
    var v := Next(u, Run(i));
    RunsOn(s, u, slot, hash, Finding(ATTEMPTS), s.table);
    RunsOn(s, v, slot, hash, Removing(row.id, ATTEMPTS), s.table);
    RemovedOne(s, slot);
    NewRuns(s, Next(v, Run(i)), slot, hash, ATTEMPTS - 1, Removed(s.table, row.id));
  }

  lemma FoundRuns(s: State, u: State, slot: Slot, hash: Hash)
    requires Inv(s) && slot in s.table.rows && s.now < s.table.rows[slot].expiresAt
    requires At(s, u, slot, hash, Finding(ATTEMPTS), s.table)
    ensures var i := |s.tasks|;
            RunsAlone(s, Next(Next(Next(u, Run(i)), Run(i)), Run(i)), slot, hash)
  {
    var i, row := |s.tasks|, s.table.rows[slot];
    var stage := AfterFind(Some(row), hash, ATTEMPTS, s.now);
    var v := Next(u, Run(i));
    RunsOn(s, u, slot, hash, Finding(ATTEMPTS), s.table);
    RunsOn(s, v, slot, hash, stage, s.table);
    if stage.TakingOver? {
      TakenOverOne(s, slot);
      RunsOn(s, Next(v, Run(i)), slot, hash, Running(row.id), TakenOver(s.table, row.id, s.now));
    }
  }
}
