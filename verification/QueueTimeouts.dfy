/** A queue's maximum wait: expired waits overflow to another queue or end the
    call, and a chain of overflows is bounded even where queues overflow in a
    circle. */
module QueueTimeouts {
  import opened CallTypes
  import opened Tables
  import R = RowSteps

  const MAX_OVERFLOWS: nat := 3

  /** Where a call read as expired goes: its queue's overflow queue, unless that
      is the queue itself, is not usable (gone, disabled, another tenant's), or
      the call has overflowed too often. */
  function Target(read: Call, overflowQueue: Option<QueueId>, usable: bool): Option<QueueId> {
    if overflowQueue.Some? && overflowQueue != read.queue && read.overflows < MAX_OVERFLOWS && usable
    then overflowQueue
    else None
  }

  /** The guarded statement the scan then runs on the row. */
  function ExpireRow(r: Call, read: Call, target: Option<QueueId>, now: Time): Option<Call> {
    match target
    case Some(to) => if read.queue.Some? then R.Overflow(r, read.queue.value, to, read.agent, now) else None
    case None => R.Terminate(r, Some(Ringing))
  }

  type WorkerId = nat

  /** The lock the workers share, with the worker that set it. */
  class ScanLock {
    var holder: Option<WorkerId>

    constructor ()
      ensures holder == None
    { holder := None; }

    /** SET NX: taken only if nobody has it. */
    method TryTake(worker: WorkerId) returns (taken: bool)
      modifies this
      ensures taken <==> old(holder) == None
      ensures holder == if taken then Some(worker) else old(holder)
    {
      taken := holder == None;
      if taken { holder := Some(worker); }
    }

    /** Given back only by its own holder: it may have expired and be another's. */
    method GiveBack(worker: WorkerId)
      modifies this
      ensures holder == if old(holder) == Some(worker) then None else old(holder)
    {
      if holder == Some(worker) { holder := None; }
    }
  }

  class QueueTimeoutService {
    const db: Database
    const lock: ScanLock
    const worker: WorkerId
    var running: bool

    constructor (db: Database, lock: ScanLock, worker: WorkerId)
      ensures this.db == db && this.lock == lock && this.worker == worker && !running
    {
      this.db, this.lock, this.worker, running := db, lock, worker, false;
    }

    method WaitExpired(c: CallId, read: Call, overflowQueue: Option<QueueId>, usable: bool, now: Time)
      returns (tookEffect: bool)
      requires read.queue.Some?
      modifies db
      ensures var target := Target(read, overflowQueue, usable);
              var r := R.Lift(old(db.Rows()), c, r => ExpireRow(r, read, target, now));
              db.Rows() == R.Put(old(db.Rows()), c, r) && tookEffect == r.Some?
    {
      if overflowQueue.Some? && overflowQueue != read.queue && read.overflows < MAX_OVERFLOWS && usable {
        tookEffect := db.OverflowToQueue(c, read.queue.value, overflowQueue.value, read.agent, now);
      } else {
        tookEffect := db.TerminateCallIfNotTerminated(c, Some(Ringing));
      }
    }

    /** A scan: none while one runs in this worker or another worker has the lock;
        afterwards the lock is free for the next. */
    method Tick(expired: seq<Expired>, now: Time) returns (effects: nat)
      requires forall i | 0 <= i < |expired| :: expired[i].read.queue.Some?
      modifies this, lock, db
      ensures running == old(running) && lock.holder == old(lock.holder)
      ensures if old(running) || old(lock.holder).Some? then effects == 0 && db.Rows() == old(db.Rows())
              else (db.Rows(), effects) == ScanEffect(old(db.Rows()), expired, now)
    {
      effects := 0;
      if running { return; }
      running := true;
      var locked := lock.TryTake(worker);
      if locked {
        for i := 0 to |expired|
          invariant running && lock.holder == Some(worker)
          invariant (db.Rows(), effects) == ScanEffect(old(db.Rows()), expired[..i], now)
        {
          var e := expired[i];
          assert expired[..i + 1][..i] == expired[..i];
          var tookEffect := WaitExpired(e.call, e.read, e.overflowQueue, e.usable, now);
          if tookEffect { effects := effects + 1; }
        }
        assert expired[..|expired|] == expired;
        lock.GiveBack(worker);
      }
      running := false;
    }
  }

  /** A call the scan read as expired, with its queue's overflow queue. */
  datatype Expired = Expired(call: CallId, read: Call, overflowQueue: Option<QueueId>, usable: bool)

  /** The rows after the scan acted on each, and how many took effect. */
  function ScanEffect(w: World, expired: seq<Expired>, now: Time): (World, nat)
    decreases |expired|
  {
    if expired == [] then (w, 0)
    else
      var n := |expired| - 1;
      var (v, effects) := ScanEffect(w, expired[..n], now);
      var e := expired[n];
      var r := R.Lift(v, e.call, r => ExpireRow(r, e.read, Target(e.read, e.overflowQueue, e.usable), now));
      (R.Put(v, e.call, r), if r.Some? then effects + 1 else effects)
  }

  // ---- One call over any number of scans ----

  type ScanId = nat

  /** The call's row, the shared lock, the scans under way with what each has read
      of the call and not yet acted on, and how many expired waits took effect. */
  datatype State = State(
    row: Call,
    lock: Option<ScanId>,
    scans: set<ScanId>,
    seen: map<ScanId, Call>,
    effects: nat,
    ended: nat)

  datatype Step =
    | Others(row: Call)    // anything else in the system
    | Take(id: ScanId)     // a scan begins, if the lock is free
    | Read(id: ScanId)     // it finds the wait expired
    | Act(id: ScanId, overflowQueue: Option<QueueId>, usable: bool, now: Time)
    | Finish(id: ScanId)   // it is over, or gave up, and gives back its lock
    | Die(id: ScanId)      // its worker is gone; the lock stays
    | Expire               // the lock's time runs out

  /** Nothing but an expired wait counts an overflow, and a call that is over
      stays so. */
  predicate OthersMay(r: Call, next: Call) {
    next.overflows == r.overflows && (r.Active() || !next.Active())
  }

  /** What the scan for expired waits selects, but for the clock. */
  predicate Selected(r: Call) {
    r.RingingInbound() && r.phase in {None, Some(Queued)} && (r.agent.None? || r.offeredAt.Some?) && r.queue.Some?
  }

  function Apply(s: State, step: Step): State {
    match step
    case Others(next) => if OthersMay(s.row, next) then s.(row := next) else s
    case Take(id) => if s.lock.None? && id !in s.scans then s.(lock := Some(id), scans := s.scans + {id}) else s
    case Read(id) => if id in s.scans && id !in s.seen && Selected(s.row) then s.(seen := s.seen[id := s.row]) else s
    case Act(id, overflowQueue, usable, now) =>
      if id !in s.seen then s else
      var target := Target(s.seen[id], overflowQueue, usable);
      var r := ExpireRow(s.row, s.seen[id], target, now);
      var t := s.(seen := s.seen - {id});
      if r.None? then t
      else t.(row := r.value, effects := s.effects + 1, ended := if target.None? then s.ended + 1 else s.ended)
    case Finish(id) =>
      s.(lock := if s.lock == Some(id) then None else s.lock, scans := s.scans - {id}, seen := s.seen - {id})
    case Die(id) => s.(scans := s.scans - {id}, seen := s.seen - {id})
    case Expire => s.(lock := None)
  }

  function RunAll(s: State, steps: seq<Step>): State
    decreases |steps|
  {
    if steps == [] then s else Apply(RunAll(s, steps[..|steps| - 1]), steps[|steps| - 1])
  }

  function Fresh(row: Call): State { State(row, None, {}, map[], 0, 0) }

  /** The lock outlasts every scan: it expires only when none is under way. */
  ghost predicate LockOutlasts(s: State, steps: seq<Step>) {
    forall k | 0 <= k < |steps| && steps[k].Expire? :: RunAll(s, steps[..k]).scans == {}
  }

  /** So at most one scan is under way, the lock's, and the count it read is the
      row's. */
  ghost predicate Bounded(s: State) {
    && (forall id | id in s.scans :: s.lock == Some(id))
    && s.seen.Keys <= s.scans
    && s.row.overflows <= MAX_OVERFLOWS
    && (forall id | id in s.seen :: s.seen[id].overflows == s.row.overflows)
    && s.effects == s.row.overflows + s.ended && s.ended <= 1 && (s.ended == 1 ==> !s.row.Active())
  }

  /** A step keeps that exactly if it is not the lock expiring under a scan. */
  lemma BoundedIff(s: State, step: Step)
    requires Bounded(s)
    ensures Bounded(Apply(s, step)) <==> (step.Expire? ==> s.scans == {})
  {
    if step.Act? && step.id in s.seen {
      assert forall id | id in s.seen :: id in s.scans && id == step.id;
    }
  }

  /** While the lock outlasts every scan, whoever dies, a call overflows at most
      three times and at most four expired waits take effect on it, over any
      overflow graph. */
  lemma {:induction false} OverflowsAreBounded(row: Call, steps: seq<Step>)
    requires row.overflows == 0 && LockOutlasts(Fresh(row), steps)
    ensures var s := RunAll(Fresh(row), steps);
            Bounded(s) && s.row.overflows <= 3 && s.effects <= 4
    decreases |steps|
  {
    if steps != [] {
      var n := |steps| - 1;
      forall k | 0 <= k < n && steps[..n][k].Expire?
        ensures RunAll(Fresh(row), steps[..n][..k]).scans == {}
      {
        assert steps[..n][..k] == steps[..k];
      }
      OverflowsAreBounded(row, steps[..n]);
      BoundedIff(RunAll(Fresh(row), steps[..n]), steps[n]);
    }
  }

  /** In any state, within the invariant or not: an expired wait takes a call past the
      bound exactly if it acts on an old read, of the same queue and offer but with
      fewer overflows than the row has. */
  lemma PastTheBoundIff(s: State, id: ScanId, overflowQueue: Option<QueueId>, usable: bool, now: Time)
    requires id in s.seen && Selected(s.seen[id]) && s.row.overflows <= MAX_OVERFLOWS
    ensures Apply(s, Act(id, overflowQueue, usable, now)).row.overflows > MAX_OVERFLOWS <==>
              && s.row.overflows == MAX_OVERFLOWS && s.seen[id].overflows < s.row.overflows
              && Target(s.seen[id], overflowQueue, usable).Some?
              && s.row.RingingInbound() && s.row.queue == s.seen[id].queue && s.row.agent == s.seen[id].agent
              && (s.row.agent.None? || s.row.offeredAt.Some?)
  {
  }

  /** An expired wait that finds the row it read unchanged always takes effect:
      the call moves on, or it ends. */
  lemma UnchangedReadTakesEffect(s: State, id: ScanId, overflowQueue: Option<QueueId>, usable: bool, now: Time)
    requires id in s.seen && s.seen[id] == s.row && Selected(s.row)
    ensures Apply(s, Act(id, overflowQueue, usable, now)).effects == s.effects + 1
    ensures var t := Apply(s, Act(id, overflowQueue, usable, now));
            t.row.overflows == s.row.overflows + 1 || !t.row.Active()
  {
  }

  /** In any state, an expired wait moves the call on if and only if there is an
      overflow queue, usable and another than the one read, and fewer than three
      overflows were read; then only while the call rings in the queue and with the
      offer that were read, and it waits in the new queue, offered to nobody. If not
      it ends the call where it is, and only while it rings. */
  lemma WaitMovesOnIff(s: State, id: ScanId, overflowQueue: Option<QueueId>, usable: bool, now: Time)
    requires id in s.seen && s.seen[id].queue.Some?
    ensures var t, r, read := Apply(s, Act(id, overflowQueue, usable, now)), s.row, s.seen[id];
            if overflowQueue.Some? && overflowQueue != read.queue && usable && read.overflows < 3 then
              if r.status == Ringing && r.direction == Inbound && r.queue == read.queue && r.agent == read.agent
                 && (r.agent == None || r.offeredAt != None)
              then t.effects == s.effects + 1
                   && t.row == r.(queue := overflowQueue, queuedAt := Some(now), overflows := r.overflows + 1,
                                  agent := None, offeredAt := None)
              else t.effects == s.effects && t.row == r
            else if r.status == Ringing
            then t.effects == s.effects + 1 && t.row == r.(status := Terminated, phase := None, offeredAt := None)
            else t.effects == s.effects && t.row == r
  {
  }

  /** The scan reads a call that rings in a queue, out of the IVR, and is not being
      answered: nobody's, or an offer still pending. */
  lemma ScanReadsIff(s: State, id: ScanId)
    requires id in s.scans && id !in s.seen
    ensures var t, r := Apply(s, Read(id)), s.row;
            if r.status == Ringing && r.direction == Inbound && r.phase in {None, Some(Queued)} && r.queue != None
               && (r.agent == None || r.offeredAt != None)
            then t == s.(seen := s.seen[id := r])
            else t == s
  {
  }

  /** An agent has accepted the call, and it has not gone in progress yet. */
  predicate BeingAnswered(r: Call) { r.status == Ringing && r.agent.Some? && r.offeredAt.None? }

  /** A call being answered by the time an expired wait acts on it is spared if and only
      if the wait would have moved it on: the end asks only that it rings. */
  lemma AnsweringIsSparedIff(s: State, id: ScanId, overflowQueue: Option<QueueId>, usable: bool, now: Time)
    requires id in s.seen && s.seen[id].queue.Some? && BeingAnswered(s.row)
    ensures Apply(s, Act(id, overflowQueue, usable, now)).row == s.row <==>
              overflowQueue.Some? && overflowQueue != s.seen[id].queue && usable && s.seen[id].overflows < 3
  {
  }

  const QUEUED: Call := Call(Ringing, None, Inbound, None, None, Some(1), Some(0), 0, 0)

  lemma Then(s: State, steps: seq<Step>, step: Step) returns (t: State)
    ensures t == Apply(RunAll(s, steps), step) && RunAll(s, steps + [step]) == t
  {
    t := Apply(RunAll(s, steps), step);
    assert (steps + [step])[..|steps|] == steps;
  }

  /** It happens: the scan reads the call waiting, an agent is offered it and accepts, and
      the expired wait ends it. */
  lemma AnsweringCanEnd(a: AgentId) returns (steps: seq<Step>)
    ensures var n := |steps| - 1;
            && n >= 0 && BeingAnswered(RunAll(Fresh(QUEUED), steps[..n]).row)
            && RunAll(Fresh(QUEUED), steps).row.status == Terminated
  {
    var s0 := Fresh(QUEUED);
    var accepted := QUEUED.(agent := Some(a));
    steps := [];
    var s := Then(s0, steps, Take(8));
    steps := steps + [Take(8)];
    s := Then(s0, steps, Read(8));
    steps := steps + [Read(8)];
    s := Then(s0, steps, Others(accepted));
    steps := steps + [Others(accepted)];
    assert s == State(accepted, Some(8), {8}, map[8 := QUEUED], 0, 0);
    AnsweringIsSparedIff(s, 8, None, true, 0);
    var t := Then(s0, steps, Act(8, None, true, 0));
    steps := steps + [Act(8, None, true, 0)];
    assert steps[..|steps| - 1] == steps[..3] && t.row.status == Terminated;
  }

  /** A lock that expires under a slow scan breaks the bound: the scan read the call
      in queue 1, another takes it round 1, 2, 3, and the first acts once more. */
  lemma ExpiredLockExceedsTheBound() returns (steps: seq<Step>)
    ensures RunAll(Fresh(QUEUED), steps).row.overflows == 4
  {
    var s0 := Fresh(QUEUED);
    var s: State;
    steps, s := TwoScans();
    var two, three := QUEUED.(queue := Some(2), overflows := 1), QUEUED.(queue := Some(3), overflows := 2);
    steps, s := GoesRound(s0, steps, s, QUEUED, 2);
    assert s.row == two;
    steps, s := GoesRound(s0, steps, s, two, 3);
    assert s.row == three;
    steps, s := GoesRound(s0, steps, s, three, 1);
    var t := Then(s0, steps, Act(8, Some(2), true, 0));
    steps := steps + [Act(8, Some(2), true, 0)];
  }

  lemma TwoScans() returns (steps: seq<Step>, s: State)
    ensures s == RunAll(Fresh(QUEUED), steps) == State(QUEUED, Some(9), {8, 9}, map[8 := QUEUED], 0, 0)
  {
    steps := [];
    s := Then(Fresh(QUEUED), steps, Take(8));
    steps := steps + [Take(8)];
    s := Then(Fresh(QUEUED), steps, Read(8));
    steps := steps + [Read(8)];
    s := Then(Fresh(QUEUED), steps, Expire);
    steps := steps + [Expire];
    s := Then(Fresh(QUEUED), steps, Take(9));
    steps := steps + [Take(9)];
  }

  lemma GoesRound(s0: State, steps: seq<Step>, s: State, row: Call, to: QueueId) returns (more: seq<Step>, t: State)
    requires s == RunAll(s0, steps) && s == State(row, Some(9), {8, 9}, map[8 := QUEUED], row.overflows, 0)
    requires Selected(row) && row.agent.None? && row.queue != Some(to) && row.overflows < MAX_OVERFLOWS
    ensures t == RunAll(s0, more)
    ensures t.row == row.(queue := Some(to), queuedAt := Some(0), overflows := row.overflows + 1, offeredAt := None)
    ensures t == State(t.row, Some(9), {8, 9}, map[8 := QUEUED], row.overflows + 1, 0)
  {
    var read, act := Read(9), Act(9, Some(to), true, 0);
    var r := Then(s0, steps, read);
    assert r.seen == map[8 := QUEUED, 9 := row];
    t := Then(s0, steps + [read], act);
    more := steps + [read] + [act];
    assert t.seen == map[8 := QUEUED];
  }
}
