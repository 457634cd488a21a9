/** How one call's row ends, and what any number of racing enders can jointly
    make of it. Each repository statement is one atomic step; the enders' other
    statements interleave freely. */
module Finalization {
  import opened CallTypes
  import R = RowSteps

  datatype Reason = Completed | NoAnswer | Cancelled | ProviderError | Other(name: string)

  type Party = nat

  datatype Row = Row(
    status: Status,
    reason: Option<Reason>,
    endedBy: Option<Party>,
    answeredAt: Option<Time>,
    endedAt: Option<Time>,
    inbound: bool,
    ivr: bool)
  {
    /** live < TERMINATED < FAILED */
    function Rank(): nat { if status == Failed then 2 else if status == Terminated then 1 else 0 }

    predicate Final() { Rank() > 0 }

    /** NO_ANSWER on a call that was answered by a person. */
    predicate Contradictory() {
      status == Terminated && reason == Some(NoAnswer) && answeredAt.Some? && !ivr
    }
  }

  /** COALESCE */
  function Or<T>(first: Option<T>, second: Option<T>): (r: Option<T>)
    ensures r.None? <==> first.None? && second.None?
    ensures r.Some? ==> r.value == if first.Some? then first.value else second.value
  {
    if first.Some? then first else second
  }

  // ---- The statements ----

  function TerminatedIfLive(r: Row, reason: Reason, party: Party, endedAt: Option<Time>, only: Option<Status>,
                            now: Time): Row {
    if !r.Final() && (only.Some? ==> r.status == only.value)
    then r.(status := Terminated, reason := Some(reason), endedBy := Some(party), endedAt := Or(endedAt, Some(now)))
    else r
  }

  function FailedIfLive(r: Row, reason: Reason, party: Party, now: Time): Row {
    if !r.Final()
    then r.(status := Failed, reason := Some(reason), endedBy := Some(party), endedAt := Or(r.endedAt, Some(now)))
    else r
  }

  function Stamped(r: Row, answeredAt: Option<Time>, endedAt: Option<Time>): Row {
    r.(answeredAt := Or(answeredAt, r.answeredAt), endedAt := Or(endedAt, r.endedAt))
  }

  function Flipped(r: Row, reason: Reason, party: Party, now: Time): Row {
    if !r.Final()
    then r.(status := Terminated, reason := Or(r.reason, Some(reason)), endedBy := Or(r.endedBy, Some(party)),
            endedAt := Or(r.endedAt, Some(now)))
    else r
  }

  function ForcedFailed(r: Row, party: Party, now: Time): Row {
    if r.status != Failed
    then r.(status := Failed, reason := Some(ProviderError), endedBy := Or(r.endedBy, Some(party)),
            endedAt := Or(r.endedAt, Some(now)))
    else r
  }

  function Corrected(r: Row): Row { if r.Contradictory() then r.(reason := Some(Completed)) else r }

  /** The routing model's statements on the same row have the same guards and leave
      the same status. */
  lemma SameEnds(r: Call, e: Row, reason: Reason, party: Party, endedAt: Option<Time>, only: Option<Status>, now: Time)
    requires r.status == e.status
    ensures var t := TerminatedIfLive(e, reason, party, endedAt, only, now);
            match R.Terminate(r, only) { case None => t == e case Some(n) => t != e && t.status == n.status }
    ensures var t := FailedIfLive(e, reason, party, now);
            match R.Fail(r) { case None => t == e case Some(n) => t != e && t.status == n.status }
  {
  }

  /** What the provider's end event carries; the two spans are measured to the
      call's end. */
  datatype Report = Report(answeredAt: Option<Time>, endedAt: Option<Time>, rungFor: nat, waitedFor: nat, party: Party)

  /** The caller never reached an agent: nobody answered, or only the IVR did and
      the call was still waiting. */
  predicate NeverReached(seen: Row, report: Report) {
    if report.answeredAt.None? then seen.status in {Initiated, Ringing} else seen.status == Ringing && seen.ivr
  }

  /** How long the caller held on: ringing, or after the IVR in the queue. */
  function HeldOn(report: Report): nat { if report.answeredAt.None? then report.rungFor else report.waitedFor }

  /** The reason a provider's end gives, from the row as it read it: NO_ANSWER to a
      caller who held on, CANCELLED to an inbound one who gave up within five
      seconds or as the agent accepted, else COMPLETED. */
  function EndReason(seen: Row, report: Report): (r: Reason)
    ensures r == NoAnswer <==> NeverReached(seen, report) && (seen.inbound ==> HeldOn(report) >= 5)
    ensures r == Cancelled <==>
              || (NeverReached(seen, report) && seen.inbound && HeldOn(report) < 5)
              || (report.answeredAt.None? && seen.status == InProgress)
    ensures r in {NoAnswer, Cancelled, Completed}
  {
    if report.answeredAt.None? then
      if seen.status in {Initiated, Ringing} then
        if seen.inbound && report.rungFor < 5 then Cancelled else NoAnswer
      else if seen.status == InProgress then Cancelled else Completed
    else if seen.status == Ringing && seen.ivr then
      if seen.inbound && report.waitedFor < 5 then Cancelled else NoAnswer
    else Completed
  }

  /** The reason a hang-up gives, from the row as its handler read it. */
  function HangUpReason(seen: Row, cancelled: bool): (r: Reason)
    ensures r == Cancelled <==> cancelled
    ensures r == NoAnswer <==> !cancelled && seen.answeredAt.None? && seen.status in {Initiated, Ringing}
    ensures r in {Cancelled, NoAnswer, Completed}
  {
    if cancelled then Cancelled
    else if seen.answeredAt.None? && seen.status in {Ringing, Initiated} then NoAnswer
    else Completed
  }

  /** The call's row, as the repository's methods change it when nothing else
      runs between their statements. */
  class CallRow {
    var row: Row

    constructor (row: Row)
      ensures this.row == row
    { this.row := row; }

    method TerminateCallIfNotTerminated(reason: Reason, party: Party, endedAt: Option<Time>, only: Option<Status>,
                                        now: Time)
      returns (won: bool)
      modifies this
      ensures won <==> !old(row).Final() && (only.None? || only.value == old(row).status)
      ensures !won ==> row == old(row)
      ensures won ==> row == old(row).(status := Terminated, reason := Some(reason), endedBy := Some(party),
                                       endedAt := Or(endedAt, Some(now)))
    {
      won := !row.Final() && (only.Some? ==> row.status == only.value);
      row := TerminatedIfLive(row, reason, party, endedAt, only, now);
    }

    method MarkCallFailedIfNotFinal(reason: Reason, party: Party, now: Time) returns (won: bool)
      modifies this
      ensures won <==> !old(row).Final()
      ensures !won ==> row == old(row)
      ensures won ==> row == old(row).(status := Failed, reason := Some(reason), endedBy := Some(party),
                                       endedAt := Or(old(row).endedAt, Some(now)))
    {
      won := !row.Final();
      row := FailedIfLive(row, reason, party, now);
    }

    method CorrectNoAnswerIfAnswered() returns (changed: bool)
      modifies this
      ensures changed <==> old(row).Contradictory()
      ensures changed <==> old(row).status == Terminated && old(row).reason == Some(NoAnswer)
                           && old(row).answeredAt != None && !old(row).ivr
      ensures row == if changed then old(row).(reason := Some(Completed)) else old(row)
    {
      changed := row.Contradictory();
      row := Corrected(row);
    }

    /** The provider's end: late times are filled in even on a row that is already
        final, the row ends at most once, and no contradiction is left. */
    method FinalizeFromWebhook(reason: Reason, report: Report, now: Time) returns (won: bool)
      modifies this
      ensures won <==> !old(row).Final()
      ensures row.Final() && row.Rank() == if won then 1 else old(row).Rank()
      ensures row.answeredAt == Or(report.answeredAt, old(row).answeredAt)
      ensures row.endedAt == Or(report.endedAt, if won then Or(old(row).endedAt, Some(now)) else old(row).endedAt)
      ensures row.endedBy == if won then Or(old(row).endedBy, Some(report.party)) else old(row).endedBy
      ensures !row.Contradictory()
      ensures var given := if won then Or(old(row).reason, Some(reason)) else old(row).reason;
              || row.reason == given
              || (row.reason == Some(Completed) && given == Some(NoAnswer) && row.answeredAt.Some? && !row.ivr)
      ensures row.inbound == old(row).inbound && row.ivr == old(row).ivr
    {
      row := Stamped(row, report.answeredAt, report.endedAt);
      won := !row.Final();
      row := Flipped(row, reason, report.party, now);
      var _ := CorrectNoAnswerIfAnswered();
    }

    /** The provider's failure outranks every earlier end. */
    method FinalizeCallAsFailed(report: Report, now: Time) returns (won: bool)
      modifies this
      ensures won <==> old(row).status != Failed
      ensures row.status == Failed
      ensures row.reason == if won then Some(ProviderError) else old(row).reason
      ensures row.answeredAt == Or(report.answeredAt, old(row).answeredAt)
      ensures row.endedAt == Or(report.endedAt, if won then Or(old(row).endedAt, Some(now)) else old(row).endedAt)
      ensures row.endedBy == if won then Or(old(row).endedBy, Some(report.party)) else old(row).endedBy
      ensures row.inbound == old(row).inbound && row.ivr == old(row).ivr
    {
      row := Stamped(row, report.answeredAt, report.endedAt);
      won := row.status != Failed;
      row := ForcedFailed(row, report.party, now);
    }
  }

  // ---- Racing writers ----

  datatype Writer =
    | LocalEnd(reason: Reason, party: Party, only: Option<Status>)  // CallTerminator.end
    | LocalFailure(reason: Reason, party: Party)                    // CallTerminator.end with a failure
    | ProviderEnd(report: Report)
    | ProviderFailure(report: Report)
    | AnswerTime(at: Time)                                          // a late answered_at
  {
    predicate Local() { LocalEnd? || LocalFailure? }

    /** Ends the call whatever state it is in. */
    predicate Unconditional() { (LocalEnd? && only.None?) || LocalFailure? || ProviderEnd? || ProviderFailure? }
  }

  /** How a writer finished: it ended the call, it closed its local media for a
      call someone else ended, or it had nothing to do. */
  datatype Outcome = Settled | ClosedMedia | Nothing

  datatype Stage =
    | Start
    | Stamping(reason: Reason)
    | Flipping(reason: Reason)
    | Correcting(won: bool)
    | LookingBack
    | Done(outcome: Outcome)

  datatype Task = Task(writer: Writer, stage: Stage)

  /** An end that took effect, with the row it saw and its task. */
  datatype Win = Win(ender: Writer, saw: Row, task: nat)

  /** The last two fields only observe: the ends that took effect, and how many
      correcting statements have run since the call was over. */
  datatype State = State(row: Row, tasks: seq<Task>, wins: seq<Win>, corrections: nat)

  datatype Step =
    | Progress(status: Status, answeredAt: Option<Time>)  // a live call moves on: rings, is answered
    | Begin(writer: Writer)
    | Run(task: nat, now: Time)

  function Enter(s: State, i: nat, row: Row, stage: Stage, won: bool): State
    requires i < |s.tasks|
  {
    State(row, s.tasks[i := s.tasks[i].(stage := stage)],
          if won then s.wins + [Win(s.tasks[i].writer, s.row, i)] else s.wins,
          if s.tasks[i].stage.Correcting? && s.row.Final() then s.corrections + 1 else s.corrections)
  }

  /** The next statement of task `i`. */
  function RunTask(s: State, i: nat, now: Time): State
    requires i < |s.tasks|
  {
    var r := s.row;
    match s.tasks[i]
    case Task(LocalEnd(reason, party, only), Start) =>
      var won := !r.Final() && (only.Some? ==> r.status == only.value);
      Enter(s, i, TerminatedIfLive(r, reason, party, None, only, now),
            if won then Done(Settled) else if only.Some? then LookingBack else Done(ClosedMedia), won)
    case Task(LocalEnd(_, _, _), LookingBack) =>
      Enter(s, i, r, Done(if r.Final() then ClosedMedia else Nothing), false)
    case Task(LocalFailure(reason, party), Start) =>
      Enter(s, i, FailedIfLive(r, reason, party, now), Done(if r.Final() then ClosedMedia else Settled), !r.Final())
    case Task(ProviderEnd(report), Start) => Enter(s, i, r, Stamping(EndReason(r, report)), false)
    case Task(ProviderEnd(report), Stamping(reason)) =>
      Enter(s, i, Stamped(r, report.answeredAt, report.endedAt), Flipping(reason), false)
    case Task(ProviderEnd(report), Flipping(reason)) =>
      Enter(s, i, Flipped(r, reason, report.party, now), Correcting(!r.Final()), !r.Final())
    case Task(ProviderFailure(report), Start) =>
      Enter(s, i, Stamped(r, report.answeredAt, report.endedAt), Flipping(ProviderError), false)
    case Task(ProviderFailure(report), Flipping(_)) =>
      var won := r.status != Failed;
      Enter(s, i, ForcedFailed(r, report.party, now), Done(if won then Settled else Nothing), won)
    case Task(AnswerTime(at), Start) => Enter(s, i, Stamped(r, Some(at), None), Correcting(false), false)
    case Task(_, Correcting(won)) => Enter(s, i, Corrected(r), Done(if won then Settled else Nothing), false)
    case _ => s
  }

  function Next(s: State, step: Step): State {
    match step
    case Progress(status, answeredAt) =>
      if s.row.Final() || status in {Terminated, Failed} then s
      else s.(row := s.row.(status := status, answeredAt := Or(answeredAt, s.row.answeredAt)))
    case Begin(writer) => s.(tasks := s.tasks + [Task(writer, Start)])
    case Run(i, now) => if i < |s.tasks| then RunTask(s, i, now) else s
  }

  function RunAll(s: State, steps: seq<Step>): State
    decreases |steps|
  {
    if steps == [] then s else RunAll(Next(s, steps[0]), steps[1..])
  }

  /** A live call nobody has begun to end. */
  ghost predicate Init(s: State) { s.tasks == [] && s.wins == [] && s.corrections == 0 && !s.row.Final() }

  // ---- What holds in every interleaving ----

  function Height(w: Win): nat {
    if w.ender.LocalFailure? || w.ender.ProviderFailure? then 2 else 1
  }

  ghost predicate WinsTell(row: Row, wins: seq<Win>) {
    && |wins| <= 2
    && (wins == [] ==> !row.Final())
    && (wins != [] ==> !wins[0].saw.Final() && !wins[0].ender.AnswerTime? && row.Rank() == Height(wins[|wins| - 1]))
    && (|wins| == 2 ==> wins[1].saw.status == Terminated && wins[1].ender.ProviderFailure? && Height(wins[0]) == 1)
    && (forall w :: w in wins && w.ender.LocalEnd? && w.ender.only.Some? ==> w.saw.status == w.ender.only.value)
    && (row.status == Failed ==> row.reason == Some(
          if |wins| == 1 && wins[0].ender.LocalFailure? then wins[0].ender.reason else ProviderError))
  }

  /** A TERMINATED row with a NO_ANSWER for an answered call: a local end said so
      though the call had been answered, or a writer still owes the correction. */
  ghost predicate Explained(s: State) {
    s.row.Contradictory() ==>
      || WronglyEnded(s)
      || exists i :: 0 <= i < |s.tasks| && Corrects(s.tasks[i])
  }

  /** A local end gave NO_ANSWER to a call it saw answered. */
  ghost predicate WronglyEnded(s: State) {
    && |s.wins| == 1 && !s.row.ivr && s.wins[0].saw.answeredAt.Some?
    && s.wins[0].ender.LocalEnd? && s.wins[0].ender.reason == NoAnswer
  }

  /** What a correction leaves for good, and what stays until one. */
  ghost predicate CorrectionsTell(s: State) {
    && (!s.row.Final() ==> s.corrections == 0)
    && (s.wins != [] && s.wins[0].saw.answeredAt.Some? ==> s.row.answeredAt.Some?)
    && (s.wins != [] && s.wins[0].saw.answeredAt.Some? && s.corrections > 0 ==> !s.row.Contradictory())
    && (WronglyEnded(s) && s.corrections == 0 ==> s.row.Contradictory())
  }

  predicate Corrects(t: Task) {
    || t.stage.Correcting?
    || t.stage.Flipping?
  }

  predicate Sensible(t: Task) {
    match t.stage
    case Start => true
    case Stamping(_) => t.writer.ProviderEnd?
    case Flipping(_) => t.writer.ProviderEnd? || t.writer.ProviderFailure?
    case Correcting(won) => t.writer.ProviderEnd? || (t.writer.AnswerTime? && !won)
    case LookingBack => t.writer.LocalEnd? && t.writer.only.Some?
    case Done(o) => o == ClosedMedia ==> t.writer.Local()
  }

  predicate PastStamping(stage: Stage) { stage.Flipping? || stage.Correcting? || stage.Done? }

  /** What a task's progress says about the row. */
  ghost predicate TaskTells(row: Row, t: Task) {
    && Sensible(t)
    && (t.stage.Done? && (t.writer.Unconditional() || t.stage.outcome != Nothing) ==> row.Final())
    && (t.writer.ProviderEnd? && t.stage.Correcting? ==> row.Final())
    && (t.writer.ProviderEnd? && t.writer.report.answeredAt.Some? && PastStamping(t.stage) ==> row.answeredAt.Some?)
    && (t.writer.ProviderEnd? && t.writer.report.answeredAt.Some? && t.stage.Done? ==> !row.Contradictory())
    && (t.writer.ProviderFailure? && t.stage.Done? ==> row.status == Failed)
  }

  ghost predicate Inv(s: State) {
    && WinsTell(s.row, s.wins)
    && Explained(s)
    && CorrectionsTell(s)
    && (forall i :: 0 <= i < |s.tasks| ==> TaskTells(s.row, s.tasks[i]))
  }

  // ---- Each statement keeps the invariant ----

  /** The row's final part only rises, and an answer time is never lost. */
  ghost predicate Rises(a: Row, b: Row) {
    && a.Rank() <= b.Rank()
    && (a.answeredAt.Some? ==> b.answeredAt.Some?)
    && a.ivr == b.ivr
    && (a.Final() && b.status == Terminated && a.reason != Some(NoAnswer) ==> b.reason != Some(NoAnswer))
  }

  /** What a writer's next statement does to the row. */
  ghost predicate Statement(r: Row, t: Row, w: Writer, now: Time) {
    || t == r
    || t == Corrected(r)
    || match w
       case LocalEnd(reason, party, only) => t == TerminatedIfLive(r, reason, party, None, only, now)
       case LocalFailure(reason, party) => t == FailedIfLive(r, reason, party, now)
       case ProviderEnd(report) =>
         || t == Stamped(r, report.answeredAt, report.endedAt)
         || exists reason :: t == Flipped(r, reason, report.party, now)
       case ProviderFailure(report) =>
         t == Stamped(r, report.answeredAt, report.endedAt) || t == ForcedFailed(r, report.party, now)
       case AnswerTime(at) => t == Stamped(r, Some(at), None)
  }

  lemma RunIsStatement(s: State, i: nat, now: Time)
    requires i < |s.tasks|
    ensures Statement(s.row, RunTask(s, i, now).row, s.tasks[i].writer, now)
  {}

  lemma StatementRises(r: Row, t: Row, w: Writer, now: Time)
    requires Statement(r, t, w, now)
    ensures Rises(r, t)
  {}

  lemma RunRises(s: State, i: nat, now: Time)
    requires i < |s.tasks|
    ensures Rises(s.row, RunTask(s, i, now).row)
  {
    RunIsStatement(s, i, now);
    StatementRises(s.row, RunTask(s, i, now).row, s.tasks[i].writer, now);
  }

  lemma WinsKept(s: State, i: nat, now: Time)
    requires i < |s.tasks| && WinsTell(s.row, s.wins) && Sensible(s.tasks[i])
    ensures WinsTell(RunTask(s, i, now).row, RunTask(s, i, now).wins)
  {}

  /** The task that ran leaves a row it accounts for. */
  lemma RanTells(s: State, i: nat, now: Time)
    requires i < |s.tasks| && TaskTells(s.row, s.tasks[i])
    ensures TaskTells(RunTask(s, i, now).row, RunTask(s, i, now).tasks[i])
  {}

  lemma OtherTells(a: Row, b: Row, t: Task)
    requires Rises(a, b) && TaskTells(a, t)
    ensures TaskTells(b, t)
  {}

  lemma ExplainedKept(s: State, i: nat, now: Time)
    requires i < |s.tasks| && WinsTell(s.row, s.wins) && Explained(s) && TaskTells(s.row, s.tasks[i])
    ensures Explained(RunTask(s, i, now))
  {
    var t := RunTask(s, i, now);
    if t.row.Contradictory() {
      if s.row.Contradictory() {
        if j :| 0 <= j < |s.tasks| && Corrects(s.tasks[j]) {
          if j != i { assert Corrects(t.tasks[j]); }
        }
      } else if |t.tasks| > i && Corrects(t.tasks[i]) {
      }
    }
  }

  lemma CorrectionsKept(s: State, i: nat, now: Time)
    requires i < |s.tasks| && WinsTell(s.row, s.wins) && CorrectionsTell(s) && TaskTells(s.row, s.tasks[i])
    ensures CorrectionsTell(RunTask(s, i, now))
  {
    if s.tasks[i].stage.Correcting? {
      CorrectingKept(s, i, now);
    } else if s.tasks[i].writer.Local() {
      LocalKept(s, i, now);
    } else {
      OthersKept(s, i, now);
    }
  }

  lemma CorrectingKept(s: State, i: nat, now: Time)
    requires i < |s.tasks| && CorrectionsTell(s) && s.tasks[i].stage.Correcting?
    ensures CorrectionsTell(RunTask(s, i, now))
  {}

  lemma LocalKept(s: State, i: nat, now: Time)
    requires i < |s.tasks| && WinsTell(s.row, s.wins) && CorrectionsTell(s)
    requires s.tasks[i].writer.Local() && !s.tasks[i].stage.Correcting?
    ensures CorrectionsTell(RunTask(s, i, now))
  {}

  lemma OthersKept(s: State, i: nat, now: Time)
    requires i < |s.tasks| && WinsTell(s.row, s.wins) && CorrectionsTell(s)
    requires !s.tasks[i].writer.Local() && !s.tasks[i].stage.Correcting?
    ensures CorrectionsTell(RunTask(s, i, now))
  {}

  lemma NextRises(s: State, step: Step)
    ensures Rises(s.row, Next(s, step).row)
  {
    match step
    case Progress(_, _) =>
    case Begin(_) =>
    case Run(i, now) => if i < |s.tasks| { RunRises(s, i, now); }
  }

  lemma ProgressKeeps(s: State, status: Status, answeredAt: Option<Time>)
    requires Inv(s)
    ensures Inv(Next(s, Progress(status, answeredAt)))
  {
    var t := Next(s, Progress(status, answeredAt));
    NextRises(s, Progress(status, answeredAt));
    forall i | 0 <= i < |t.tasks| ensures TaskTells(t.row, t.tasks[i]) { OtherTells(s.row, t.row, s.tasks[i]); }
  }

  lemma BeginKeeps(s: State, writer: Writer)
    requires Inv(s)
    ensures Inv(Next(s, Begin(writer)))
  {
    var t := Next(s, Begin(writer));
    if i :| 0 <= i < |s.tasks| && Corrects(s.tasks[i]) { assert Corrects(t.tasks[i]); }
  }

  lemma RunKeeps(s: State, i: nat, now: Time)
    requires Inv(s) && i < |s.tasks|
    ensures Inv(RunTask(s, i, now))
  {
    WinsKept(s, i, now);
    ExplainedKept(s, i, now);
    CorrectionsKept(s, i, now);
    TasksKept(s, i, now);
  }

  lemma TasksKept(s: State, i: nat, now: Time)
    requires i < |s.tasks| && forall j :: 0 <= j < |s.tasks| ==> TaskTells(s.row, s.tasks[j])
    ensures var t := RunTask(s, i, now);
            forall j :: 0 <= j < |t.tasks| ==> TaskTells(t.row, t.tasks[j])
  {
    var t := RunTask(s, i, now);
    RunRises(s, i, now);
    RanTells(s, i, now);
    forall j | 0 <= j < |t.tasks| ensures TaskTells(t.row, t.tasks[j]) {
      if j != i { OtherTells(s.row, t.row, s.tasks[j]); }
    }
  }

  lemma NextKeepsInv(s: State, step: Step)
    requires Inv(s)
    ensures Inv(Next(s, step)) && Rises(s.row, Next(s, step).row)
    ensures s.wins <= Next(s, step).wins
  {
    NextRises(s, step);
    WinsGrow(s, step);
    match step
    case Progress(status, answeredAt) => ProgressKeeps(s, status, answeredAt);
    case Begin(writer) => BeginKeeps(s, writer);
    case Run(i, now) => if i < |s.tasks| { RunKeeps(s, i, now); }
  }

  lemma WinsGrow(s: State, step: Step)
    ensures s.wins <= Next(s, step).wins
  {}

  lemma {:induction false} InvHolds(s: State, steps: seq<Step>)
    requires Inv(s)
    ensures Inv(RunAll(s, steps)) && Rises(s.row, RunAll(s, steps).row)
    ensures s.wins <= RunAll(s, steps).wins
    decreases |steps|
  {
    if steps != [] {
      NextKeepsInv(s, steps[0]);
      InvHolds(Next(s, steps[0]), steps[1..]);
    }
  }

  // ---- Main results: every run from a live call ----

  /** The final status only rises, and each writer that is told it ended the call
      raised it strictly. */
  lemma StatusOnlyRises(s: State, step: Step)
    requires Inv(s)
    ensures s.row.Rank() <= Next(s, step).row.Rank()
    ensures s.wins != Next(s, step).wins <==> s.row.Rank() < Next(s, step).row.Rank()
    ensures s.wins != Next(s, step).wins ==>
              |Next(s, step).wins| == |s.wins| + 1 && Next(s, step).wins[|s.wins|].saw == s.row
  {
    WinsGrow(s, step);
    match step
    case Progress(_, _) =>
    case Begin(_) =>
    case Run(i, now) => if i < |s.tasks| { WinIsRise(s, i, now); }
  }

  lemma WinIsRise(s: State, i: nat, now: Time)
    requires i < |s.tasks| && WinsTell(s.row, s.wins) && Sensible(s.tasks[i])
    ensures var t := RunTask(s, i, now);
            && s.row.Rank() <= t.row.Rank()
            && (if s.row.Rank() < t.row.Rank() then t.wins == s.wins + [Win(s.tasks[i].writer, s.row, i)]
                else t.wins == s.wins)
  {
    RunRises(s, i, now);
  }

  /** At most two writers ever end a call, exactly one of them if it ended saw it
      live, and a second one is a provider failure overriding a plain end. Of the
      local enders at most one settles. */
  lemma EndsAtMostTwice(s: State, steps: seq<Step>)
    requires Init(s)
    ensures var t := RunAll(s, steps);
            && (t.row.Final() <==> t.wins != [])
            && |t.wins| <= 2
            && (forall i :: 0 <= i < |t.wins| ==> (i == 0 <==> !t.wins[i].saw.Final()))
            && (|t.wins| == 2 ==> !t.wins[0].ender.LocalFailure? && t.wins[1].ender.ProviderFailure?)
            && (forall i, j :: 0 <= i < j < |t.wins| ==> !t.wins[i].ender.Local() || !t.wins[j].ender.Local())
  {
    InvHolds(s, steps);
  }

  // ---- Who is told ----

  /** The writer is told that it ended the call, or will be once it has corrected. */
  predicate Told(t: Task) { t.stage in {Done(Settled), Correcting(true)} }

  /** The ends that took effect are those of the writers told so, one each. */
  ghost predicate ToldIffWon(s: State) {
    && (forall k | 0 <= k < |s.wins| ::
          var i := s.wins[k].task;
          i < |s.tasks| && Told(s.tasks[i]) && s.tasks[i].writer == s.wins[k].ender)
    && (forall i | 0 <= i < |s.tasks| && Told(s.tasks[i]) :: WinOf(s, i))
    && (forall k, l | 0 <= k < l < |s.wins| :: s.wins[k].task != s.wins[l].task)
  }

  ghost predicate WinOf(s: State, i: nat) { exists k :: 0 <= k < |s.wins| && s.wins[k].task == i }

  /** A statement ends the call if and only if its own writer is told so from then on. */
  ghost predicate TellsOwn(s: State, t: State, i: nat)
    requires i < |s.tasks|
  {
    && |t.tasks| == |s.tasks| && t.tasks[i].writer == s.tasks[i].writer
    && (forall j | 0 <= j < |s.tasks| && j != i :: t.tasks[j] == s.tasks[j])
    && (if !Told(s.tasks[i]) && Told(t.tasks[i]) then t.wins == s.wins + [Win(s.tasks[i].writer, s.row, i)]
        else t.wins == s.wins && (Told(s.tasks[i]) <==> Told(t.tasks[i])))
  }

  lemma RunTellsOwn(s: State, i: nat, now: Time)
    requires i < |s.tasks| && Sensible(s.tasks[i])
    ensures TellsOwn(s, RunTask(s, i, now), i)
  {
  }

  lemma ToldGoesOn(s: State, t: State, i: nat)
    requires i < |s.tasks| && TellsOwn(s, t, i) && ToldIffWon(s)
    ensures ToldIffWon(t)
  {
    var n := |s.wins|;
    forall j | 0 <= j < |t.tasks| && Told(t.tasks[j])
      ensures WinOf(t, j)
    {
      if j == i && !Told(s.tasks[i]) {
        assert t.wins[n].task == j;
      } else {
        assert WinOf(s, j);
        var k :| 0 <= k < n && s.wins[k].task == j;
        assert t.wins[k].task == j;
      }
    }
    assert forall k | 0 <= k < n :: t.wins[k] == s.wins[k];
  }

  lemma SameWins(s: State, t: State)
    requires ToldIffWon(s) && t.wins == s.wins && |s.tasks| <= |t.tasks| && t.tasks[..|s.tasks|] == s.tasks
    requires forall i | |s.tasks| <= i < |t.tasks| :: !Told(t.tasks[i])
    ensures ToldIffWon(t)
  {
    forall i | 0 <= i < |t.tasks| && Told(t.tasks[i])
      ensures WinOf(t, i)
    {
      assert t.tasks[i] == s.tasks[i] && WinOf(s, i);
    }
    assert forall i | 0 <= i < |s.tasks| :: t.tasks[i] == t.tasks[..|s.tasks|][i];
  }

  lemma NextKeepsTold(s: State, step: Step)
    requires Inv(s) && ToldIffWon(s)
    ensures ToldIffWon(Next(s, step))
  {
    match step
    case Progress(_, _) => SameWins(s, Next(s, step));
    case Begin(_) => SameWins(s, Next(s, step));
    case Run(i, now) =>
      if i < |s.tasks| {
        assert TaskTells(s.row, s.tasks[i]);
        RunTellsOwn(s, i, now);
        ToldGoesOn(s, RunTask(s, i, now), i);
      }
  }

  lemma {:induction false} RunIsTold(s: State, steps: seq<Step>)
    requires Inv(s) && ToldIffWon(s)
    ensures ToldIffWon(RunAll(s, steps))
    decreases |steps|
  {
    if steps != [] {
      NextKeepsInv(s, steps[0]);
      NextKeepsTold(s, steps[0]);
      RunIsTold(Next(s, steps[0]), steps[1..]);
    }
  }

  lemma OneLocalSettles(t: State, i: nat, j: nat)
    requires ToldIffWon(t) && i < |t.tasks| && j < |t.tasks| && Told(t.tasks[i]) && Told(t.tasks[j])
    requires t.tasks[i].writer.Local() && t.tasks[j].writer.Local()
    requires forall k, l :: 0 <= k < l < |t.wins| ==> !t.wins[k].ender.Local() || !t.wins[l].ender.Local()
    ensures i == j
  {
    assert WinOf(t, i) && WinOf(t, j);
    var k :| 0 <= k < |t.wins| && t.wins[k].task == i;
    var l :| 0 <= l < |t.wins| && t.wins[l].task == j;
    assert t.wins[k].ender.Local() && t.wins[l].ender.Local();
  }

  /** In any run, a writer is told that it ended the call if and only if its statement
      did, so of the local enders at most one settles. */
  lemma SettlesIff(s: State, steps: seq<Step>, i: nat)
    requires Init(s) && i < |RunAll(s, steps).tasks|
    ensures var t := RunAll(s, steps);
            && (Told(t.tasks[i]) <==> WinOf(t, i))
            && forall j | 0 <= j < |t.tasks| && Told(t.tasks[i]) && Told(t.tasks[j]) ::
                 t.tasks[i].writer.Local() && t.tasks[j].writer.Local() ==> i == j
  {
    var t := RunAll(s, steps);
    InvHolds(s, steps);
    RunIsTold(s, steps);
    EndsAtMostTwice(s, steps);
    forall j | 0 <= j < |t.tasks| && Told(t.tasks[i]) && Told(t.tasks[j])
      ensures t.tasks[i].writer.Local() && t.tasks[j].writer.Local() ==> i == j
    {
      if t.tasks[i].writer.Local() && t.tasks[j].writer.Local() { OneLocalSettles(t, i, j); }
    }
  }

  /** Once a writer that ends the call unconditionally has finished, the call is
      over and stays over; media is only ever closed for a call that is over. */
  lemma FinishedEndIsFinal(s: State, steps: seq<Step>, more: seq<Step>, i: nat)
    requires Init(s) && i < |RunAll(s, steps).tasks|
    requires var t := RunAll(s, steps).tasks[i];
             t.stage.Done? && (t.writer.Unconditional() || t.stage.outcome != Nothing)
    ensures RunAll(RunAll(s, steps), more).row.Final()
  {
    InvHolds(s, steps);
    InvHolds(RunAll(s, steps), more);
  }

  /** Answered beats NO_ANSWER. Once a provider's end that carries an answer time
      has finished on a call no IVR answered, the call is over and its reason is
      NO_ANSWER exactly if a local failure carrying that reason ended it. */
  lemma AnsweredBeatsNoAnswer(s: State, steps: seq<Step>, i: nat)
    requires Init(s) && !s.row.ivr && i < |RunAll(s, steps).tasks|
    requires var t := RunAll(s, steps).tasks[i];
             t.stage.Done? && t.writer.ProviderEnd? && t.writer.report.answeredAt.Some?
    ensures var t := RunAll(s, steps);
            && t.row.Final() && t.row.answeredAt.Some?
            && (t.row.reason == Some(NoAnswer) <==>
                  |t.wins| == 1 && t.wins[0].ender.LocalFailure? && t.wins[0].ender.reason == NoAnswer)
  {
    InvHolds(s, steps);
    var t := RunAll(s, steps);
    assert TaskTells(t.row, t.tasks[i]);
  }

  /** A failure that carries another reason than NO_ANSWER, as every one in the
      repository does, is no exception: an answered end then never leaves it. */
  lemma AnsweredNeverNoAnswer(s: State, steps: seq<Step>, i: nat)
    requires Init(s) && !s.row.ivr && i < |RunAll(s, steps).tasks|
    requires var t := RunAll(s, steps).tasks[i];
             t.stage.Done? && t.writer.ProviderEnd? && t.writer.report.answeredAt.Some?
    requires forall k | 0 <= k < |steps| && steps[k].Begin? :: FailsForReason(steps[k].writer)
    ensures RunAll(s, steps).row.Final() && RunAll(s, steps).row.reason != Some(NoAnswer)
  {
    AnsweredBeatsNoAnswer(s, steps, i);
    WritersAreBegun(s, steps);
  }

  predicate FailsForReason(w: Writer) { w.LocalFailure? ==> w.reason != NoAnswer }

  lemma {:induction false} WritersAreBegun(s: State, steps: seq<Step>)
    requires forall t :: t in s.tasks ==> FailsForReason(t.writer)
    requires forall w :: w in s.wins ==> FailsForReason(w.ender)
    requires forall k | 0 <= k < |steps| && steps[k].Begin? :: FailsForReason(steps[k].writer)
    ensures forall w :: w in RunAll(s, steps).wins ==> FailsForReason(w.ender)
    decreases |steps|
  {
    if steps != [] {
      WritersStay(s, steps[0]);
      WritersAreBegun(Next(s, steps[0]), steps[1..]);
    }
  }

  lemma WritersStay(s: State, step: Step)
    requires forall t :: t in s.tasks ==> FailsForReason(t.writer)
    requires forall w :: w in s.wins ==> FailsForReason(w.ender)
    requires step.Begin? ==> FailsForReason(step.writer)
    ensures forall t :: t in Next(s, step).tasks ==> FailsForReason(t.writer)
    ensures forall w :: w in Next(s, step).wins ==> FailsForReason(w.ender)
  {
    if step.Run? && step.task < |s.tasks| {
      assert s.tasks[step.task] in s.tasks;
      assert RunTask(s, step.task, step.now).tasks[step.task].writer == s.tasks[step.task].writer;
    }
  }

  /** When no writer owes a correction, a TERMINATED call says NO_ANSWER beside an
      answer time if and only if a local end gave that reason to a call it saw
      answered, and no correcting statement has run since. */
  lemma ContradictionIff(s: State, steps: seq<Step>)
    requires Init(s)
    requires forall t :: t in RunAll(s, steps).tasks ==> !Corrects(t)
    ensures var t := RunAll(s, steps);
            t.row.Contradictory() <==> WronglyEnded(t) && t.corrections == 0
  {
    InvHolds(s, steps);
    var t := RunAll(s, steps);
    forall i | 0 <= i < |t.tasks|
      ensures !Corrects(t.tasks[i])
    {
      assert t.tasks[i] in t.tasks;
    }
  }

  /** The condition on failures is needed: one carrying NO_ANSWER stands though the
      provider's answer time is on the row. */
  lemma NoAnswerCanStand(party: Party, at: Time)
    ensures exists s, steps :: Init(s) && !s.row.ivr && var t := RunAll(s, steps);
              |t.tasks| == 2 && t.tasks[1] == Task(ProviderEnd(Report(Some(at), Some(at), 0, 0, party)), Done(Nothing))
              && t.row.reason == Some(NoAnswer)
  {
    var end := ProviderEnd(Report(Some(at), Some(at), 0, 0, party));
    var s := State(Row(InProgress, None, None, None, None, true, false), [], [], 0);
    var run := Run(1, at);
    var s1, first := FailsThenEnds(s, party, end, at);
    var s2 := Then(s1, run, [run] + ([run] + ([run] + [])));
    var s3 := Then(s2, run, [run] + ([run] + []));
    var s4 := Then(s3, run, [run] + []);
    var s5 := Then(s4, run, []);
    RunSplit(s, first, [run] + ([run] + ([run] + ([run] + []))));
    assert RunAll(s, first + ([run] + ([run] + ([run] + ([run] + []))))) == s5;
  }

  lemma FailsThenEnds(s: State, party: Party, end: Writer, at: Time) returns (t: State, steps: seq<Step>)
    requires Init(s)
    ensures t == RunAll(s, steps)
    ensures t.row == FailedIfLive(s.row, NoAnswer, party, at) && |t.tasks| == 2 && t.tasks[1] == Task(end, Start)
  {
    var s1 := Then(s, Begin(LocalFailure(NoAnswer, party)), [Begin(end)] + ([Run(0, at)] + []));
    var s2 := Then(s1, Begin(end), [Run(0, at)] + []);
    t := Then(s2, Run(0, at), []);
    steps := [Begin(LocalFailure(NoAnswer, party))] + ([Begin(end)] + ([Run(0, at)] + []));
  }

  lemma {:induction false} RunSplit(s: State, xs: seq<Step>, ys: seq<Step>)
    ensures RunAll(s, xs + ys) == RunAll(RunAll(s, xs), ys)
    decreases |xs|
  {
    if xs == [] {
      assert xs + ys == ys;
    } else {
      RunSplit(Next(s, xs[0]), xs[1..], ys);
      assert (xs + ys)[1..] == xs[1..] + ys;
    }
  }

  /** The contradiction does arise: a hang-up read the call ringing and unanswered,
      the agent answers, and the hang-up then commits the reason it chose. */
  lemma ContradictionCanRest(party: Party, at: Time)
    ensures exists s, steps :: Init(s) && s.row.status == Ringing && s.row.answeredAt.None?
              && steps != [] && steps[0] == Begin(LocalEnd(HangUpReason(s.row, false), party, None))
              && RunAll(s, steps).row.Contradictory()
              && forall t :: t in RunAll(s, steps).tasks ==> t.stage.Done?
  {
    var s := State(Row(Ringing, None, None, None, None, true, false), [], [], 0);
    var hangUp := Begin(LocalEnd(HangUpReason(s.row, false), party, None));
    var answer := Progress(InProgress, Some(at));
    var steps := [hangUp] + ([answer] + ([Run(0, at)] + []));
    var s1 := Then(s, hangUp, [answer] + ([Run(0, at)] + []));
    var s2 := Then(s1, answer, [Run(0, at)] + []);
    var s3 := Then(s2, Run(0, at), []);
    assert RunAll(s, steps) == s3 && steps[0] == hangUp;
  }

  lemma Then(s: State, step: Step, rest: seq<Step>) returns (t: State)
    ensures t == Next(s, step) && RunAll(s, [step] + rest) == RunAll(t, rest)
  {
    t := Next(s, step);
    assert ([step] + rest)[1..] == rest;
  }
}
