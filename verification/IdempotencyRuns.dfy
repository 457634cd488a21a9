/** Racing requests with Idempotency-Keys: what is replayed, and when a request
    can execute twice. */
module IdempotencyRuns {
  import opened CallTypes
  import opened Idempotency

  /** What a row id was claimed for, and a response some execution produced. */
  datatype Claimant = Claimant(slot: Slot, hash: Hash)
  datatype Product = Product(claimant: Claimant, response: Response)

  /** The table, the clock and the requests. The last four fields only observe:
      what each id was claimed for, which ids were taken over, which were removed
      as expired, and the first response stored under an id. `produced` holds
      every response an execution gave. */
  datatype State = State(
    table: Table,
    now: Time,
    tasks: seq<Task>,
    owner: map<RowId, Claimant>,
    produced: set<Product>,
    takenOver: set<RowId>,
    lapsed: set<RowId>,
    stored: map<RowId, Response>)
  {
    /** Neither taken over nor removed as expired. */
    predicate Undisturbed(id: RowId) { id !in takenOver && id !in lapsed }

    predicate Executing(i: nat) { i < |tasks| && tasks[i].stage.Running? }
  }

  const INITIAL := State(Table(map[], 0), 0, [], map[], {}, {}, {}, map[])

  datatype Step =
    | Wait(seconds: nat)
    | Arrive(slot: Slot, hash: Hash)
    | Run(task: nat)
    | Finish(task: nat, response: Response, storing: bool)  // not storing: the statement failed
    | Purge(chosen: set<Slot>)

  function Stay(s: State, i: nat, stage: Stage): State
    requires i < |s.tasks|
  {
    s.(tasks := s.tasks[i := s.tasks[i].(stage := stage)])
  }

  function RunTask(s: State, i: nat): State
    requires i < |s.tasks|
  {
    var t := s.tasks[i];
    match t.stage
    case Claiming(tries) =>
      if t.slot in s.table.rows then Stay(s, i, Finding(tries))
      else Stay(s, i, Running(s.table.nextId)).(
             table := Claimed(s.table, t.slot, t.hash, s.now),
             owner := s.owner[s.table.nextId := Claimant(t.slot, t.hash)])
    case Finding(tries) => Stay(s, i, AfterFind(RowOf(s.table, t.slot), t.hash, tries, s.now))
    case Removing(id, tries) => Stay(s, i, Retry(tries)).(table := Removed(s.table, id), lapsed := s.lapsed + {id})
    case TakingOver(id) =>
      if CanTakeOver(s.table, t.slot, id, s.now)
      then Stay(s, i, Running(id)).(table := TakenOver(s.table, id, s.now), takenOver := s.takenOver + {id})
      else Stay(s, i, Done(InUse))
    case _ => s
  }

  function FinishTask(s: State, i: nat, response: Response, storing: bool): State
    requires i < |s.tasks| && s.tasks[i].stage.Running?
  {
    var t := s.tasks[i];
    var id := t.stage.id;
    var done := Stay(s, i, Done(Executed(response))).(
      produced := s.produced + {Product(Claimant(t.slot, t.hash), response.Kept())});
    if !storing then done
    else if response.status >= 500 then done.(table := Removed(s.table, id))
    else done.(table := Updated(s.table, id, Completed(response.Kept()), s.now),
               stored := if id in s.stored then s.stored else s.stored[id := response.Kept()])
  }

  /** The ids of the expired rows among those a purge chose. */
  function LapsedNow(s: State, chosen: set<Slot>): set<RowId> {
    set k | k in s.table.rows && k in chosen && s.table.rows[k].expiresAt <= s.now :: s.table.rows[k].id
  }

  function Next(s: State, step: Step): State {
    match step
    case Wait(seconds) => s.(now := s.now + seconds)
    case Arrive(slot, hash) => s.(tasks := s.tasks + [Task(slot, hash, Claiming(ATTEMPTS))])
    case Run(i) => if i < |s.tasks| then RunTask(s, i) else s
    case Finish(i, response, storing) => if s.Executing(i) then FinishTask(s, i, response, storing) else s
    case Purge(chosen) =>
      s.(table := Purged(s.table, chosen, s.now),
         lapsed := s.lapsed + LapsedNow(s, chosen))
  }

  function RunAll(s: State, steps: seq<Step>): State
    decreases |steps|
  {
    if steps == [] then s else RunAll(Next(s, steps[0]), steps[1..])
  }

  // ---- The invariant ----

  /** Each row belongs to the request that claimed it, and keeps a response that
      request's execution produced. */
  ghost predicate RowsOwned(s: State) {
    && (forall id :: id in s.owner ==> id < s.table.nextId)
    && (forall k :: k in s.table.rows ==>
          var r := s.table.rows[k];
          && r.id in s.owner && s.owner[r.id] == Claimant(k, r.hash)
          && (r.progress.Completed? ==> Product(s.owner[r.id], r.progress.response) in s.produced))
  }

  ghost predicate TaskOwned(s: State, t: Task) {
    match t.stage
    case Running(id) => id in s.owner && s.owner[id] == Claimant(t.slot, t.hash)
    case TakingOver(id) => id in s.owner && s.owner[id] == Claimant(t.slot, t.hash)
    case Removing(id, _) => id in s.owner
    case Done(Replayed(response)) => Product(Claimant(t.slot, t.hash), response) in s.produced
    case Done(Reused) => exists id :: id in s.owner && s.owner[id].slot == t.slot && s.owner[id].hash != t.hash
    case _ => true
  }

  /** An undisturbed execution holds its row, alone. */
  ghost predicate Holds(s: State, i: nat)
    requires i < |s.tasks|
  {
    s.tasks[i].stage.Running? && s.Undisturbed(s.tasks[i].stage.id) ==>
      var id := s.tasks[i].stage.id;
      && s.tasks[i].slot in s.table.rows && s.table.rows[s.tasks[i].slot].id == id
      && s.table.rows[s.tasks[i].slot].progress.Pending?
      && forall j :: 0 <= j < |s.tasks| && s.tasks[j].stage == Running(id) ==> j == i
  }

  /** A stored response stays with its key until it expires. */
  ghost predicate Kept(s: State, id: RowId)
    requires id in s.stored
  {
    && id in s.owner
    && (s.Undisturbed(id) ==>
          && s.owner[id].slot in s.table.rows && s.table.rows[s.owner[id].slot].id == id
          && s.table.rows[s.owner[id].slot].progress == Completed(s.stored[id]))
  }

  ghost predicate Inv(s: State) {
    && RowsOwned(s)
    && (forall i :: 0 <= i < |s.tasks| ==> TaskOwned(s, s.tasks[i]))
    && (forall i :: 0 <= i < |s.tasks| ==> Holds(s, i))
    && (forall id :: id in s.stored ==> Kept(s, id))
  }

  /** What is observed only grows. */
  ghost predicate Grows(s: State, t: State) {
    && s.produced <= t.produced && s.takenOver <= t.takenOver && s.lapsed <= t.lapsed
    && (forall id :: id in s.owner ==> id in t.owner && t.owner[id] == s.owner[id])
    && (forall id :: id in s.stored ==> id in t.stored && t.stored[id] == s.stored[id])
  }

  lemma TaskStaysOwned(s: State, t: State, task: Task)
    requires Grows(s, t) && TaskOwned(s, task)
    ensures TaskOwned(t, task)
  {}

  // ---- Each step keeps it ----

  /** A step that only moves one task on, to a stage without a row. */
  lemma StayKeeps(s: State, i: nat, stage: Stage)
    requires Inv(s) && i < |s.tasks| && !stage.Running? && TaskOwned(s, s.tasks[i].(stage := stage))
    ensures Inv(Stay(s, i, stage)) && Grows(s, Stay(s, i, stage))
  {
    var t := Stay(s, i, stage);
    forall j | 0 <= j < |t.tasks| ensures Holds(t, j) && TaskOwned(t, t.tasks[j]) {
      assert Holds(s, j);
      if j != i { TaskStaysOwned(s, t, s.tasks[j]); } else { assert TaskOwned(s, t.tasks[j]); }
    }
  }

  lemma ClaimKeeps(s: State, i: nat)
    requires Inv(s) && i < |s.tasks| && s.tasks[i].stage.Claiming? && s.tasks[i].slot !in s.table.rows
    ensures Inv(RunTask(s, i)) && Grows(s, RunTask(s, i))
  {
    var t := RunTask(s, i);
    assert s.table.nextId !in s.owner;
    assert Grows(s, t);
    forall j | 0 <= j < |t.tasks|
      ensures TaskOwned(t, t.tasks[j]) && (j != i ==> t.tasks[j].stage != Running(s.table.nextId))
    {
      if j != i {
        assert TaskOwned(s, s.tasks[j]);
        TaskStaysOwned(s, t, s.tasks[j]);
      }
    }
    forall j | 0 <= j < |t.tasks| ensures Holds(t, j) {
      if j != i { assert Holds(s, j); }
    }
    forall id | id in t.stored ensures Kept(t, id) { assert Kept(s, id); }
  }

  lemma TakeOverKeeps(s: State, i: nat, id: RowId)
    requires Inv(s) && i < |s.tasks| && s.tasks[i].stage == TakingOver(id)
    requires CanTakeOver(s.table, s.tasks[i].slot, id, s.now)
    ensures Inv(RunTask(s, i)) && Grows(s, RunTask(s, i))
  {
    var t := RunTask(s, i);
    assert Grows(s, t);
    forall j | 0 <= j < |t.tasks| ensures TaskOwned(t, t.tasks[j]) {
      assert TaskOwned(s, s.tasks[j]);
      if j != i { TaskStaysOwned(s, t, s.tasks[j]); }
    }
    forall j | 0 <= j < |t.tasks| ensures Holds(t, j) { assert Holds(s, j); }
    forall x | x in t.stored ensures Kept(t, x) { assert Kept(s, x); }
  }

  /** Rows disappear, each because its id is no longer undisturbed. */
  lemma DropKeeps(s: State, t: State)
    requires Inv(s) && Grows(s, t) && t.tasks == s.tasks && t.owner == s.owner && t.stored == s.stored
    requires t.table.nextId == s.table.nextId
    requires forall k :: k in t.table.rows ==> k in s.table.rows && t.table.rows[k] == s.table.rows[k]
    requires forall k :: k in s.table.rows && k !in t.table.rows ==> s.table.rows[k].id in t.lapsed
    ensures Inv(t)
  {
    forall j | 0 <= j < |t.tasks| ensures TaskOwned(t, t.tasks[j]) && Holds(t, j) {
      TaskStaysOwned(s, t, s.tasks[j]);
      assert Holds(s, j);
    }
    forall x | x in t.stored ensures Kept(t, x) { assert Kept(s, x); }
  }

  lemma RunKeeps(s: State, i: nat)
    requires Inv(s) && i < |s.tasks|
    ensures Inv(RunTask(s, i)) && Grows(s, RunTask(s, i))
  {
    var t := s.tasks[i];
    match t.stage
    case Claiming(tries) => if t.slot in s.table.rows { StayKeeps(s, i, Finding(tries)); } else { ClaimKeeps(s, i); }
    case Finding(tries) =>
      var row := RowOf(s.table, t.slot);
      if row.Some? { assert row.value.id in s.owner; }
      StayKeeps(s, i, AfterFind(row, t.hash, tries, s.now));
    case Removing(id, tries) =>
      StayKeeps(s, i, Retry(tries));
      DropKeeps(Stay(s, i, Retry(tries)), RunTask(s, i));
    case TakingOver(id) =>
      if CanTakeOver(s.table, t.slot, id, s.now) { TakeOverKeeps(s, i, id); } else { StayKeeps(s, i, Done(InUse)); }
    case _ =>
  }

  lemma FinishKeeps(s: State, i: nat, response: Response, storing: bool)
    requires Inv(s) && s.Executing(i)
    ensures Inv(FinishTask(s, i, response, storing)) && Grows(s, FinishTask(s, i, response, storing))
  {
    FinishGrows(s, i, response, storing);
    FinishedRowsOwned(s, i, response, storing);
    FinishedTasks(s, i, response, storing);
    FinishedKept(s, i, response, storing);
  }

  lemma FinishGrows(s: State, i: nat, response: Response, storing: bool)
    requires s.Executing(i)
    ensures Grows(s, FinishTask(s, i, response, storing))
  {}

  lemma FinishedTasks(s: State, i: nat, response: Response, storing: bool)
    requires Inv(s) && s.Executing(i)
    ensures var t := FinishTask(s, i, response, storing);
            forall j :: 0 <= j < |t.tasks| ==> TaskOwned(t, t.tasks[j]) && Holds(t, j)
  {
    var t := FinishTask(s, i, response, storing);
    FinishGrows(s, i, response, storing);
    forall j | 0 <= j < |t.tasks| ensures TaskOwned(t, t.tasks[j]) && Holds(t, j) {
      if j != i {
        assert TaskOwned(s, s.tasks[j]);
        TaskStaysOwned(s, t, s.tasks[j]);
        FinishedHolds(s, i, response, storing, j);
      }
    }
  }

  lemma FinishedHolds(s: State, i: nat, response: Response, storing: bool, j: nat)
    requires Inv(s) && s.Executing(i) && j < |s.tasks| && j != i
    ensures Holds(FinishTask(s, i, response, storing), j)
  {
    assert Holds(s, i) && Holds(s, j);
  }

  lemma FinishedKept(s: State, i: nat, response: Response, storing: bool)
    requires Inv(s) && s.Executing(i)
    ensures var t := FinishTask(s, i, response, storing);
            forall x :: x in t.stored ==> Kept(t, x)
  {
    var t := FinishTask(s, i, response, storing);
    var id := s.tasks[i].stage.id;
    assert TaskOwned(s, s.tasks[i]) && Holds(s, i);
    if id in s.stored { assert Kept(s, id); }
    forall x | x in t.stored ensures Kept(t, x) {
      if x in s.stored { assert Kept(s, x); }
    }
  }

  lemma FinishedRowsOwned(s: State, i: nat, response: Response, storing: bool)
    requires Inv(s) && s.Executing(i)
    ensures RowsOwned(FinishTask(s, i, response, storing))
  {
    assert TaskOwned(s, s.tasks[i]);
  }

  lemma NextKeeps(s: State, step: Step)
    requires Inv(s)
    ensures Inv(Next(s, step)) && Grows(s, Next(s, step))
  {
    var t := Next(s, step);
    match step
    case Wait(_) => QuietKeeps(s, t);
    case Arrive(slot, hash) => QuietKeeps(s, t);
    case Run(i) => if i < |s.tasks| { RunKeeps(s, i); }
    case Finish(i, response, storing) => if s.Executing(i) { FinishKeeps(s, i, response, storing); }
    case Purge(chosen) => DropKeeps(s, t);
  }

  lemma QuietKeeps(s: State, t: State)
    requires Inv(s) && t == s.(now := t.now, tasks := t.tasks)
    requires t.tasks == s.tasks || exists slot, hash :: t.tasks == s.tasks + [Task(slot, hash, Claiming(ATTEMPTS))]
    ensures Inv(t) && Grows(s, t)
  {
    forall j | 0 <= j < |t.tasks| ensures TaskOwned(t, t.tasks[j]) && Holds(t, j) {
      if j < |s.tasks| {
        TaskStaysOwned(s, t, s.tasks[j]);
        assert Holds(s, j);
      }
    }
    forall x | x in t.stored ensures Kept(t, x) { assert Kept(s, x); }
  }

  lemma {:induction false} InvHolds(s: State, steps: seq<Step>)
    requires Inv(s)
    ensures Inv(RunAll(s, steps)) && Grows(s, RunAll(s, steps))
    decreases |steps|
  {
    if steps != [] {
      NextKeeps(s, steps[0]);
      InvHolds(Next(s, steps[0]), steps[1..]);
    }
  }

  // ---- Main results, of every run ----

  /** A replayed response is one an execution of the same consumer, key and request
      produced; and a request refused for reuse met a key claimed for another. */
  lemma ReplayIsGenuine(steps: seq<Step>, i: nat)
    requires i < |RunAll(INITIAL, steps).tasks| && RunAll(INITIAL, steps).tasks[i].stage.Done?
    ensures var s := RunAll(INITIAL, steps);
            var t := s.tasks[i];
            match t.stage.outcome {
              case Replayed(response) => Product(Claimant(t.slot, t.hash), response) in s.produced
              case Reused => exists id :: id in s.owner && s.owner[id].slot == t.slot && s.owner[id].hash != t.hash
              case _ => true
            }
  {
    InvHolds(INITIAL, steps);
    assert TaskOwned(RunAll(INITIAL, steps), RunAll(INITIAL, steps).tasks[i]);
  }

  /** Two executions of one key are in flight only if one of them was taken over or
      its key was removed as expired. */
  lemma OneExecutionAtATime(steps: seq<Step>, i: nat, j: nat)
    requires var s := RunAll(INITIAL, steps);
             s.Executing(i) && s.Executing(j) && i != j && s.tasks[i].slot == s.tasks[j].slot
    ensures var s := RunAll(INITIAL, steps);
            !s.Undisturbed(s.tasks[i].stage.id) || !s.Undisturbed(s.tasks[j].stage.id)
  {
    InvHolds(INITIAL, steps);
    var s := RunAll(INITIAL, steps);
    assert Holds(s, i) && Holds(s, j);
  }

  /** The step at which a second execution of a key starts beside one in flight, in
      any run: the later request claims the key, which the one in flight has lost,
      or takes over a row idle for two minutes. Nothing else starts one, and
      either way the one in flight is disturbed from then on. */
  lemma SecondStartIff(steps: seq<Step>, step: Step, i: nat, j: nat)
    requires var s := RunAll(INITIAL, steps);
             i < |s.tasks| && !s.Executing(i) && s.Executing(j) && s.tasks[i].slot == s.tasks[j].slot
    ensures var s := RunAll(INITIAL, steps);
            Next(s, step).Executing(i) <==>
              step == Run(i) && match s.tasks[i].stage {
                case Claiming(_) => s.tasks[i].slot !in s.table.rows
                case TakingOver(id) => CanTakeOver(s.table, s.tasks[i].slot, id, s.now)
                case _ => false
              }
    ensures var s := RunAll(INITIAL, steps);
            Next(s, step).Executing(i) && Next(s, step).Executing(j) ==>
              !Next(s, step).Undisturbed(s.tasks[j].stage.id)
  {
    InvHolds(INITIAL, steps);
    SecondStartIn(RunAll(INITIAL, steps), step, i, j);
  }

  lemma SecondStartIn(s: State, step: Step, i: nat, j: nat)
    requires Inv(s) && i < |s.tasks| && !s.Executing(i) && s.Executing(j) && s.tasks[i].slot == s.tasks[j].slot
    ensures Next(s, step).Executing(i) <==>
              step == Run(i) && match s.tasks[i].stage {
                case Claiming(_) => s.tasks[i].slot !in s.table.rows
                case TakingOver(id) => CanTakeOver(s.table, s.tasks[i].slot, id, s.now)
                case _ => false
              }
    ensures Next(s, step).Executing(i) && Next(s, step).Executing(j) ==>
              !Next(s, step).Undisturbed(s.tasks[j].stage.id)
  {
    assert Holds(s, j) && TaskOwned(s, s.tasks[i]);
  }

  /** Once a response is stored, its key keeps it and no execution of that key
      starts, until the key expires or unless its request was taken over. */
  lemma NoneStartsAfterStored(steps: seq<Step>, more: seq<Step>, step: Step, id: RowId, i: nat)
    requires id in RunAll(INITIAL, steps).stored
    requires var s := RunAll(RunAll(INITIAL, steps), more);
             && Next(s, step).Undisturbed(id)
             && id in s.owner && i < |Next(s, step).tasks| && Next(s, step).tasks[i].slot == s.owner[id].slot
    ensures var s := RunAll(RunAll(INITIAL, steps), more);
            && RowOf(s.table, s.owner[id].slot).Some?
            && s.table.rows[s.owner[id].slot].progress == Completed(RunAll(INITIAL, steps).stored[id])
            && (Next(s, step).Executing(i) ==> s.Executing(i))
  {
    InvHolds(INITIAL, steps);
    InvHolds(RunAll(INITIAL, steps), more);
    var s := RunAll(RunAll(INITIAL, steps), more);
    NextKeeps(s, step);
    assert Kept(s, id);
    if Next(s, step).Executing(i) && !s.Executing(i) { NoStart(s, step, id, i); }
  }

  lemma NoStart(s: State, step: Step, id: RowId, i: nat)
    requires Inv(s) && id in s.stored && s.Undisturbed(id) && id in s.owner
    requires i < |Next(s, step).tasks| && Next(s, step).tasks[i].slot == s.owner[id].slot
    ensures Next(s, step).Executing(i) ==> s.Executing(i)
  {
    if i < |s.tasks| && step == Run(i) { NoStartNow(s, id, i); } else { OnlyItselfStarts(s, step, i); }
  }

  lemma OnlyItselfStarts(s: State, step: Step, i: nat)
    requires step != Run(i)
    ensures Next(s, step).Executing(i) ==> s.Executing(i)
  {}

  lemma NoStartNow(s: State, id: RowId, i: nat)
    requires Inv(s) && id in s.stored && s.Undisturbed(id) && id in s.owner
    requires i < |s.tasks| && s.tasks[i].slot == s.owner[id].slot
    ensures RunTask(s, i).Executing(i) ==> s.Executing(i)
  {
    assert Kept(s, id) && TaskOwned(s, s.tasks[i]);
  }

  /** A retry that finds the stored response gets exactly it, if it is the same
      request, and is refused if it is another. */
  lemma RetryIsAnswered(steps: seq<Step>, i: nat, id: RowId)
    requires var s := RunAll(INITIAL, steps);
             && id in s.stored && s.Undisturbed(id)
             && i < |s.tasks| && id in s.owner && s.tasks[i].slot == s.owner[id].slot
             && s.tasks[i].slot in s.table.rows && s.now < s.table.rows[s.tasks[i].slot].expiresAt
    ensures var s := RunAll(INITIAL, steps);
            && (s.tasks[i].stage.Claiming? ==> RunTask(s, i) == Stay(s, i, Finding(s.tasks[i].stage.tries)))
            && (s.tasks[i].stage.Finding? ==>
                  var answer := if s.tasks[i].hash == s.owner[id].hash then Replayed(s.stored[id]) else Reused;
                  RunTask(s, i) == Stay(s, i, Done(answer)))
  {
    InvHolds(INITIAL, steps);
    assert Kept(RunAll(INITIAL, steps), id);
  }

  /** A failed execution frees its key, so a retry executes. */
  lemma FailureFreesKey(steps: seq<Step>, i: nat, response: Response)
    requires var s := RunAll(INITIAL, steps);
             s.Executing(i) && s.Undisturbed(s.tasks[i].stage.id) && response.status >= 500
    ensures var s := RunAll(INITIAL, steps);
            s.tasks[i].slot !in FinishTask(s, i, response, true).table.rows
  {
    InvHolds(INITIAL, steps);
    assert Holds(RunAll(INITIAL, steps), i);
  }

  // ---- Both exceptions happen ----

  /** Two requests of one key executing at once. */
  ghost predicate ExecutesTwice(s: State) {
    && |s.tasks| == 2 && s.Executing(0) && s.Executing(1)
    && s.tasks[0].slot == s.tasks[1].slot && s.tasks[0].hash == s.tasks[1].hash
  }

  lemma ThenTwo(s: State, x: Step, y: Step, rest: seq<Step>) returns (t: State)
    ensures t == Next(Next(s, x), y) && RunAll(s, [x] + ([y] + rest)) == RunAll(t, rest)
  {
    t := Next(Next(s, x), y);
    assert ([x] + ([y] + rest))[1..] == [y] + rest && ([y] + rest)[1..] == rest;
  }

  /** The state in which one request executes, after some time. */
  function OneRuns(slot: Slot, hash: Hash, now: Time): State {
    State(Table(map[slot := KeyRow(0, hash, Pending, TTL, 0)], 1), now, [Task(slot, hash, Running(0))],
          map[0 := Claimant(slot, hash)], {}, {}, {}, map[])
  }

  lemma OneArrives(slot: Slot, hash: Hash, rest: seq<Step>) returns (steps: seq<Step>)
    ensures RunAll(INITIAL, steps) == RunAll(OneRuns(slot, hash, 0), rest)
  {
    steps := [Arrive(slot, hash)] + ([Run(0)] + rest);
    var s := ThenTwo(INITIAL, Arrive(slot, hash), Run(0), rest);
    assert s == OneRuns(slot, hash, 0);
  }

  /** Another request of the same key joins it. */
  function TwoRequests(slot: Slot, hash: Hash, now: Time, stage: Stage): State {
    OneRuns(slot, hash, now).(tasks := [Task(slot, hash, Running(0)), Task(slot, hash, stage)])
  }

  lemma AnotherArrives(slot: Slot, hash: Hash, seconds: nat, rest: seq<Step>) returns (steps: seq<Step>)
    ensures RunAll(OneRuns(slot, hash, 0), steps) == RunAll(TwoRequests(slot, hash, seconds, Finding(ATTEMPTS)), rest)
  {
    var last := [Run(1)] + ([Wait(0)] + rest);
    steps := [Wait(seconds)] + ([Arrive(slot, hash)] + last);
    var s := ThenTwo(OneRuns(slot, hash, 0), Wait(seconds), Arrive(slot, hash), last);
    s := ThenTwo(s, Run(1), Wait(0), rest);
    assert s == TwoRequests(slot, hash, seconds, Finding(ATTEMPTS));
  }

  lemma TakeOverExecutesTwice(slot: Slot, hash: Hash)
    ensures exists steps :: ExecutesTwice(RunAll(INITIAL, steps)) && RunAll(INITIAL, steps).lapsed == {}
  {
    var last := [Run(1)] + ([Run(1)] + []);
    var late := AnotherArrives(slot, hash, ABANDONED_AFTER, last);
    var steps := OneArrives(slot, hash, late);
    var t := ThenTwo(TwoRequests(slot, hash, ABANDONED_AFTER, Finding(ATTEMPTS)), Run(1), Run(1), []);
    assert RunAll(INITIAL, steps) == t;
  }

  /** The second request finds the row expired and removes it. */
  lemma ExpiredIsRemoved(slot: Slot, hash: Hash)
    ensures Next(Next(TwoRequests(slot, hash, TTL, Finding(ATTEMPTS)), Run(1)), Run(1)) ==
            TwoRequests(slot, hash, TTL, Claiming(1)).(table := Table(map[], 1), lapsed := {0})
  {
    var s := Next(TwoRequests(slot, hash, TTL, Finding(ATTEMPTS)), Run(1));
    assert s == TwoRequests(slot, hash, TTL, Removing(0, ATTEMPTS));
    assert Removed(s.table, 0).rows == map[];
  }

  lemma ClaimsAgain(slot: Slot, hash: Hash)
    ensures var s := TwoRequests(slot, hash, TTL, Claiming(1)).(table := Table(map[], 1), lapsed := {0});
            var t := Next(Next(s, Run(1)), Wait(0));
            ExecutesTwice(t) && t.takenOver == {}
  {
  }

  lemma ExpiryExecutesTwice(slot: Slot, hash: Hash)
    ensures exists steps :: ExecutesTwice(RunAll(INITIAL, steps)) && RunAll(INITIAL, steps).takenOver == {}
  {
    var last := [Run(1)] + ([Wait(0)] + []);
    var late := AnotherArrives(slot, hash, TTL, [Run(1)] + ([Run(1)] + last));
    var steps := OneArrives(slot, hash, late);
    var s := ThenTwo(TwoRequests(slot, hash, TTL, Finding(ATTEMPTS)), Run(1), Run(1), last);
    var t := ThenTwo(s, Run(1), Wait(0), []);
    ExpiredIsRemoved(slot, hash);
    ClaimsAgain(slot, hash);
    assert RunAll(INITIAL, steps) == t;
  }
}
