/** A tenant's call report: every call of a window counted in the totals and in
    the bucket of the hour or day it was created in. Times are milliseconds. */
module CallReports {
  import opened CallTypes

  type Millis = int

  datatype Record = Record(
    direction: Direction,
    ended: bool,
    endedByCustomer: bool,
    createdAt: Millis,
    queuedAt: Option<Millis>,
    answeredAt: Option<Millis>,
    agentAnsweredAt: Option<Millis>,
    talked: Option<int>)
  {
    predicate Answered() { direction == Inbound && agentAnsweredAt.Some? }

    /** Answered by an agent after waiting in a queue. */
    predicate WaitEnded() { Answered() && queuedAt.Some? }

    /** Entered a queue, and is answered or over. */
    predicate Measured() { direction == Inbound && queuedAt.Some? && (ended || agentAnsweredAt.Some?) }

    function Wait(): nat
      requires WaitEnded()
    {
      SecondsBetween(queuedAt.value, agentAnsweredAt.value)
    }

    predicate TalkCounts() {
      ended && if direction == Outbound then answeredAt.Some? else agentAnsweredAt.Some?
    }
  }

  /** Seconds rounded to the nearest, halves up, never negative. */
  function SecondsBetween(a: Millis, b: Millis): (r: nat)
    ensures if b - a < 500 then r == 0 else 1000 * r - 500 <= b - a < 1000 * r + 500
  {
    var s := (b - a + 500) / 1000;
    if s < 0 then 0 else s
  }

  /** The inbound calls, by how they ended. */
  datatype Outcomes = Outcomes(inbound: nat, answered: nat, abandoned: nat, missed: nat, inProgress: nat) {
    function Plus(o: Outcomes): Outcomes {
      Outcomes(inbound + o.inbound, answered + o.answered, abandoned + o.abandoned, missed + o.missed,
               inProgress + o.inProgress)
    }
  }

  /** The waits in a queue, and those within the service level. */
  datatype Waits = Waits(within: nat, measured: nat, sum: nat, count: nat, longest: nat) {
    function Plus(w: Waits): Waits {
      Waits(within + w.within, measured + w.measured, sum + w.sum, count + w.count, Max(longest, w.longest))
    }
  }

  datatype Counters = Counters(
    outcomes: Outcomes, outbound: nat, connected: nat, waits: Waits, talkSum: int, talks: nat)

  const EMPTY := Counters(Outcomes(0, 0, 0, 0, 0), 0, 0, Waits(0, 0, 0, 0, 0), 0, 0)

  function Max(a: nat, b: nat): nat { if a < b then b else a }

  function Plus(a: Counters, b: Counters): Counters {
    Counters(a.outcomes.Plus(b.outcomes), a.outbound + b.outbound, a.connected + b.connected,
             a.waits.Plus(b.waits), a.talkSum + b.talkSum, a.talks + b.talks)
  }

  function One(counts: bool): nat { if counts then 1 else 0 }

  function OutcomeOf(c: Record): Outcomes {
    Outcomes(
      One(c.direction == Inbound),
      One(c.Answered()),
      One(c.direction == Inbound && c.agentAnsweredAt.None? && c.ended && c.endedByCustomer),
      One(c.direction == Inbound && c.agentAnsweredAt.None? && c.ended && !c.endedByCustomer),
      One(c.direction == Inbound && c.agentAnsweredAt.None? && !c.ended))
  }

  function WaitOf(c: Record, goal: nat): Waits {
    var wait := if c.WaitEnded() then c.Wait() else 0;
    Waits(One(c.WaitEnded() && c.Wait() <= goal), One(c.Measured()), wait, One(c.WaitEnded()), wait)
  }

  /** What one call adds to a bucket: the definition of each counter. */
  function Share(c: Record, goal: nat): Counters {
    Counters(
      OutcomeOf(c),
      One(c.direction == Outbound),
      One(c.direction == Outbound && c.answeredAt.Some?),
      WaitOf(c, goal),
      if c.TalkCounts() && c.talked.Some? then c.talked.value else 0,
      One(c.TalkCounts()))
  }

  /** One call counted into a bucket. */
  method Add(b: Counters, c: Record, goal: nat) returns (r: Counters)
    ensures r == Plus(b, Share(c, goal))
  {
    r := b;
    var talked := if c.talked.Some? then c.talked.value else 0;
    if c.direction == Outbound {
      r := r.(outbound := r.outbound + 1);
      if c.answeredAt.Some? {
        r := r.(connected := r.connected + 1);
        if c.ended { r := r.(talkSum := r.talkSum + talked, talks := r.talks + 1); }
      }
      return;
    }
    var o, w := r.outcomes, r.waits;
    o := o.(inbound := o.inbound + 1);
    if c.agentAnsweredAt.Some? {
      o := o.(answered := o.answered + 1);
      if c.ended { r := r.(talkSum := r.talkSum + talked, talks := r.talks + 1); }
      if c.queuedAt.Some? {
        var wait := SecondsBetween(c.queuedAt.value, c.agentAnsweredAt.value);
        w := w.(sum := w.sum + wait, count := w.count + 1, longest := Max(w.longest, wait));
      }
    } else if !c.ended {
      o := o.(inProgress := o.inProgress + 1);
    } else if c.endedByCustomer {
      o := o.(abandoned := o.abandoned + 1);
    } else {
      o := o.(missed := o.missed + 1);
    }
    if c.queuedAt.Some? && (c.agentAnsweredAt.Some? || c.ended) {
      w := w.(measured := w.measured + 1);
      if c.agentAnsweredAt.Some? && SecondsBetween(c.queuedAt.value, c.agentAnsweredAt.value) <= goal {
        w := w.(within := w.within + 1);
      }
    }
    r := r.(outcomes := o, waits := w);
  }

  /** The first `n` calls, together. */
  function Tally(rows: seq<Record>, n: nat, goal: nat): Counters
    requires n <= |rows|
  {
    if n == 0 then EMPTY else Plus(Tally(rows, n - 1, goal), Share(rows[n - 1], goal))
  }

  /** Those of the first `n` calls that fall in one bucket. */
  function TallyAt(rows: seq<Record>, n: nat, grid: Grid, start: Millis, goal: nat): Counters
    requires n <= |rows|
  {
    if n == 0 then EMPTY
    else if grid.Start(rows[n - 1].createdAt) == start
    then Plus(TallyAt(rows, n - 1, grid, start, goal), Share(rows[n - 1], goal))
    else TallyAt(rows, n - 1, grid, start, goal)
  }

  type Step = n: int | n > 0 witness 3600000

  const HOUR: Step := 3600000
  const DAY: Step := 86400000

  /** Bucket boundaries: every `step`, in a fixed signed offset from UTC. */
  datatype Grid = Grid(step: Step, offset: int) {
    function Start(t: Millis): Millis { (t + offset) / step * step - offset }
  }

  function Starts(first: Millis, until: Millis, step: Step): seq<Millis>
    decreases until - first
  {
    if first < until then [first] + Starts(first + step, until, step) else []
  }

  /** The calls created in the window. */
  function InWindow(table: seq<Record>, from: Millis, until: Millis): seq<Record> {
    if table == [] then []
    else
      var before := InWindow(table[..|table| - 1], from, until);
      var last := table[|table| - 1];
      if from <= last.createdAt < until then before + [last] else before
  }

  method Calls(rows: seq<Record>, from: Millis, until: Millis, hourly: bool, offsetMinutes: int, goal: nat)
    returns (totals: Counters, starts: seq<Millis>, buckets: map<Millis, Counters>)
    ensures totals == Tally(rows, |rows|, goal)
    ensures var grid := Grid(if hourly then HOUR else DAY, offsetMinutes * 60000);
            && starts == Starts(grid.Start(from), until, grid.step)
            && buckets.Keys == Keys(starts)
            && (forall t :: t in buckets ==> buckets[t] == TallyAt(rows, |rows|, grid, t, goal))
  {
    var grid := Grid(if hourly then HOUR else DAY, offsetMinutes * 60000);
    starts, buckets := EmptyBuckets(grid.Start(from), until, grid.step);
    totals, buckets := CountInto(rows, grid, buckets, goal);
  }

  method CountInto(rows: seq<Record>, grid: Grid, empty: map<Millis, Counters>, goal: nat)
    returns (totals: Counters, buckets: map<Millis, Counters>)
    requires forall t :: t in empty ==> empty[t] == EMPTY
    ensures totals == Tally(rows, |rows|, goal)
    ensures buckets.Keys == empty.Keys
    ensures forall t :: t in buckets ==> buckets[t] == TallyAt(rows, |rows|, grid, t, goal)
  {
    totals, buckets := EMPTY, empty;
    var i := 0;
    while i < |rows|
      invariant 0 <= i <= |rows|
      invariant totals == Tally(rows, i, goal)
      invariant buckets.Keys == empty.Keys
      invariant forall t :: t in buckets ==> buckets[t] == TallyAt(rows, i, grid, t, goal)
    {
      totals := Add(totals, rows[i], goal);
      buckets := AddToBucket(buckets, grid.Start(rows[i].createdAt), rows[i], goal);
      i := i + 1;
    }
  }

  function Keys(starts: seq<Millis>): set<Millis> { set t | t in starts }

  method AddToBucket(buckets: map<Millis, Counters>, at: Millis, c: Record, goal: nat)
    returns (r: map<Millis, Counters>)
    ensures r == map t | t in buckets :: if t == at then Plus(buckets[t], Share(c, goal)) else buckets[t]
  {
    r := buckets;
    if at in buckets {
      var b := Add(buckets[at], c, goal);
      r := buckets[at := b];
    }
  }

  method EmptyBuckets(first: Millis, until: Millis, step: Step)
    returns (starts: seq<Millis>, buckets: map<Millis, Counters>)
    ensures starts == Starts(first, until, step)
    ensures buckets.Keys == Keys(starts)
    ensures forall t :: t in buckets ==> buckets[t] == EMPTY
  {
    buckets, starts := map[], [];
    var t := first;
    while t < until
      invariant Starts(first, until, step) == starts + Starts(t, until, step)
      invariant buckets.Keys == Keys(starts)
      invariant forall u :: u in buckets ==> buckets[u] == EMPTY
      decreases until - t
    {
      buckets, starts := buckets[t := EMPTY], starts + [t];
      t := t + step;
    }
  }

  // ---- Each call of the window is in exactly one bucket ----

  lemma StartBounds(grid: Grid, t: Millis)
    ensures grid.Start(t) <= t < grid.Start(t) + grid.step
  {}

  lemma {:induction false} Multiples(n: int, step: int)
    requires n >= 1 && step > 0
    ensures n * step >= step
  {
    if n > 1 { Multiples(n - 1, step); }
  }

  lemma {:induction false} StartsHold(first: Millis, until: Millis, step: Step, k: nat)
    requires first + k * step < until
    ensures first + k * step in Starts(first, until, step)
    decreases k
  {
    if k > 0 {
      assert first + k * step == (first + step) + (k - 1) * step;
      Multiples(k, step);
      StartsHold(first + step, until, step, k - 1);
    }
  }

  ghost predicate Spaced(s: seq<Millis>, first: Millis, until: Millis, step: Step) {
    && (forall i :: 0 <= i < |s| ==> first <= s[i] < until)
    && (forall i, j :: 0 <= i < j < |s| ==> s[i] != s[j] && s[i] + step <= s[j])
  }

  lemma {:induction false} StartsAreDistinct(first: Millis, until: Millis, step: Step)
    ensures Spaced(Starts(first, until, step), first, until, step)
    decreases until - first
  {
    if first < until {
      var s, rest := Starts(first, until, step), Starts(first + step, until, step);
      StartsAreDistinct(first + step, until, step);
      assert s == [first] + rest && Spaced(rest, first + step, until, step);
      forall i, j | 0 <= i < j < |s| ensures s[i] != s[j] && s[i] + step <= s[j] {
        assert s[j] == rest[j - 1] && (i > 0 ==> s[i] == rest[i - 1]);
      }
      forall i | 0 <= i < |s| ensures first <= s[i] < until {
        if i > 0 { assert s[i] == rest[i - 1]; }
      }
    }
  }

  /** A call created in the window falls in exactly one bucket: the one that starts
      at or before it and ends after it. */
  lemma InOneBucket(grid: Grid, from: Millis, until: Millis, t: Millis)
    requires from <= t < until
    ensures var s := Starts(grid.Start(from), until, grid.step);
            grid.Start(t) in s && forall u :: u in s && u <= t < u + grid.step ==> u == grid.Start(t)
  {
    var first := grid.Start(from);
    var q, r := (from + grid.offset) / grid.step, (t + grid.offset) / grid.step;
    QuotientsGrow(from + grid.offset, t + grid.offset, grid.step);
    StartBounds(grid, t);
    var k: nat := r - q;
    assert first + k * grid.step == grid.Start(t) by { assert r * grid.step == q * grid.step + k * grid.step; }
    StartsHold(first, until, grid.step, k);
    StartsAreDistinct(first, until, grid.step);
  }

  /** The bucket of a call is the one of the grid, aligned to the offset, that it is
      in: a boundary at `start` is where midnight or the hour is at that offset. */
  lemma BucketIff(grid: Grid, t: Millis, start: Millis)
    ensures grid.Start(t) == start <==> (start + grid.offset) % grid.step == 0 && start <= t < start + grid.step
  {
    StartBounds(grid, t);
    var q, r := (t + grid.offset) / grid.step, (start + grid.offset) / grid.step;
    MultipleIs(q, grid.step);
    if (start + grid.offset) % grid.step == 0 && start <= t < start + grid.step {
      assert start == r * grid.step - grid.offset;
      QuotientsGrow(start + grid.offset, t + grid.offset, grid.step);
      assert (q - r) * grid.step == q * grid.step - r * grid.step;
      if q > r { Multiples(q - r, grid.step); }
    }
  }

  lemma MultipleIs(q: int, step: Step)
    ensures (q * step) % step == 0
  {
    var m, r := (q * step) / step, (q * step) % step;
    assert q * step == m * step + r;
    assert (q - m) * step == r && (m - q) * step == -r;
    if q > m { Multiples(q - m, step); }
    if q < m { Multiples(m - q, step); }
  }

  lemma QuotientsGrow(a: int, b: int, step: Step)
    requires a <= b
    ensures a / step <= b / step
  {
    if a / step > b / step { Multiples(a / step - b / step, step); }
  }

  // ---- The totals are the sum of the buckets ----

  function Sum(starts: seq<Millis>, rows: seq<Record>, n: nat, grid: Grid, goal: nat): Counters
    requires n <= |rows|
  {
    if starts == [] then EMPTY else Plus(TallyAt(rows, n, grid, starts[0], goal), Sum(starts[1..], rows, n, grid, goal))
  }

  lemma {:induction false} OneMoreCall(starts: seq<Millis>, rows: seq<Record>, n: nat, grid: Grid, goal: nat)
    requires 0 < n <= |rows|
    requires forall i, j :: 0 <= i < j < |starts| ==> starts[i] != starts[j]
    ensures Sum(starts, rows, n, grid, goal) ==
            if grid.Start(rows[n - 1].createdAt) in starts
            then Plus(Sum(starts, rows, n - 1, grid, goal), Share(rows[n - 1], goal))
            else Sum(starts, rows, n - 1, grid, goal)
  {
    if starts != [] {
      var at, share := grid.Start(rows[n - 1].createdAt), Share(rows[n - 1], goal);
      OneMoreCall(starts[1..], rows, n, grid, goal);
      PlusMoves(TallyAt(rows, n - 1, grid, starts[0], goal), share, Sum(starts[1..], rows, n - 1, grid, goal));
      if at == starts[0] { assert at !in starts[1..]; }
    }
  }

  lemma PlusMoves(a: Counters, b: Counters, c: Counters)
    ensures Plus(Plus(a, b), c) == Plus(Plus(a, c), b) && Plus(a, Plus(c, b)) == Plus(Plus(a, c), b)
  {}

  lemma {:induction false} SumIsTally(starts: seq<Millis>, rows: seq<Record>, n: nat, grid: Grid, goal: nat)
    requires n <= |rows|
    requires forall i, j :: 0 <= i < j < |starts| ==> starts[i] != starts[j]
    requires forall c :: c in rows ==> grid.Start(c.createdAt) in starts
    ensures Sum(starts, rows, n, grid, goal) == Tally(rows, n, goal)
  {
    if n == 0 {
      NothingCounted(starts, rows, grid, goal);
    } else {
      SumIsTally(starts, rows, n - 1, grid, goal);
      OneMoreCall(starts, rows, n, grid, goal);
      assert rows[n - 1] in rows;
    }
  }

  lemma {:induction false} NothingCounted(starts: seq<Millis>, rows: seq<Record>, grid: Grid, goal: nat)
    ensures Sum(starts, rows, 0, grid, goal) == EMPTY
  {
    NothingBefore(starts, |starts|, rows, grid, goal);
    assert starts[|starts|..] == [];
  }

  lemma {:induction false} NothingBefore(starts: seq<Millis>, k: nat, rows: seq<Record>, grid: Grid, goal: nat)
    requires k <= |starts|
    ensures Sum(starts, rows, 0, grid, goal) == Sum(starts[k..], rows, 0, grid, goal)
    decreases k
  {
    if k == 0 {
      assert starts[0..] == starts;
    } else {
      NothingBefore(starts, k - 1, rows, grid, goal);
      NothingInFirst(starts[k - 1..], rows, grid, goal);
      assert starts[k - 1..][1..] == starts[k..];
    }
  }

  lemma {:induction false} NothingInFirst(starts: seq<Millis>, rows: seq<Record>, grid: Grid, goal: nat)
    requires starts != []
    ensures Sum(starts, rows, 0, grid, goal) == Sum(starts[1..], rows, 0, grid, goal)
  {
    PlusNothing(Sum(starts[1..], rows, 0, grid, goal));
  }

  lemma PlusNothing(a: Counters)
    ensures Plus(EMPTY, a) == a
  {}

  lemma {:induction false} WindowOnly(table: seq<Record>, from: Millis, until: Millis)
    ensures forall c :: c in InWindow(table, from, until) <==> c in table && from <= c.createdAt < until
  {
    if table != [] { WindowOnly(table[..|table| - 1], from, until); }
  }

  /** For every window, step and signed offset, each counter and sum of the totals
      is the sum over the buckets, and the longest wait the longest of theirs. */
  lemma TotalsAreTheSum(table: seq<Record>, from: Millis, until: Millis, grid: Grid, goal: nat)
    ensures var rows := InWindow(table, from, until);
            Tally(rows, |rows|, goal) == Sum(Starts(grid.Start(from), until, grid.step), rows, |rows|, grid, goal)
  {
    var rows := InWindow(table, from, until);
    WindowOnly(table, from, until);
    StartsAreDistinct(grid.Start(from), until, grid.step);
    forall c | c in rows ensures grid.Start(c.createdAt) in Starts(grid.Start(from), until, grid.step) {
      InOneBucket(grid, from, until, c.createdAt);
    }
    SumIsTally(Starts(grid.Start(from), until, grid.step), rows, |rows|, grid, goal);
  }

  // ---- What a report shows ----

  /** Rounded to the nearest, halves up. */
  function Average(sum: int, n: nat): Option<int> { if n == 0 then None else Some((2 * sum + n) / (2 * n)) }

  /** The service level is in tenths of a percent. */
  datatype View = View(
    serviceLevel: Option<int>,
    averageWait: Option<int>,
    maxWait: Option<nat>,
    talked: int,
    averageTalk: Option<int>)

  function ViewOf(b: Counters): View {
    var w := b.waits;
    View(if w.measured == 0 then None else Average(1000 * w.within, w.measured), Average(w.sum, w.count),
         if w.count == 0 then None else Some(w.longest), b.talkSum, Average(b.talkSum, b.talks))
  }

  ghost predicate Consistent(b: Counters) {
    var o, w := b.outcomes, b.waits;
    && o.inbound == o.answered + o.abandoned + o.missed + o.inProgress
    && w.within <= w.count <= w.measured <= o.inbound
    && w.count <= o.answered && b.connected <= b.outbound
    && b.talks <= o.answered + b.connected
    && w.longest <= w.sum <= w.count * w.longest
  }

  /** Every tally, of the totals or of a bucket, agrees with itself. */
  lemma {:induction false} TallyIsConsistent(rows: seq<Record>, n: nat, grid: Grid, start: Millis, goal: nat)
    requires n <= |rows|
    ensures Consistent(Tally(rows, n, goal)) && Consistent(TallyAt(rows, n, grid, start, goal))
  {
    if n > 0 {
      TallyIsConsistent(rows, n - 1, grid, start, goal);
      TallyGrows(rows, n, grid, start, goal);
      ShareIsConsistent(rows[n - 1], goal);
      PlusIsConsistent(Tally(rows, n - 1, goal), Share(rows[n - 1], goal));
      PlusIsConsistent(TallyAt(rows, n - 1, grid, start, goal), Share(rows[n - 1], goal));
    }
  }

  lemma {:induction false} TallyGrows(rows: seq<Record>, n: nat, grid: Grid, start: Millis, goal: nat)
    requires 0 < n <= |rows|
    ensures Tally(rows, n, goal) == Plus(Tally(rows, n - 1, goal), Share(rows[n - 1], goal))
    ensures TallyAt(rows, n, grid, start, goal) == TallyAt(rows, n - 1, grid, start, goal) ||
            TallyAt(rows, n, grid, start, goal) ==
              Plus(TallyAt(rows, n - 1, grid, start, goal), Share(rows[n - 1], goal))
  {}

  lemma ShareIsConsistent(c: Record, goal: nat)
    ensures Consistent(Share(c, goal))
  {}

  lemma PlusIsConsistent(a: Counters, b: Counters)
    requires Consistent(a) && Consistent(b)
    ensures Consistent(Plus(a, b))
  {
    WaitsAtMost(a.waits.sum, a.waits.count, a.waits.longest, b.waits.sum, b.waits.count, b.waits.longest);
  }

  lemma WaitsAtMost(sum: nat, n: nat, longest: nat, sum': nat, n': nat, longest': nat)
    requires longest <= sum <= n * longest && longest' <= sum' <= n' * longest'
    ensures Max(longest, longest') <= sum + sum' <= (n + n') * Max(longest, longest')
  {
    var m := Max(longest, longest');
    AtMost(n, longest, m);
    AtMost(n', longest', m);
    assert (n + n') * m == n * m + n' * m;
  }

  lemma AtMost(n: nat, a: nat, b: nat)
    requires a <= b
    ensures n * a <= n * b
  {}

  /** So what is shown makes sense: the average wait is at most the longest, and
      the service level is a share. */
  lemma ViewMakesSense(b: Counters)
    requires Consistent(b)
    ensures var v := ViewOf(b);
            && (v.averageWait.Some? <==> v.maxWait.Some?)
            && (v.averageWait.Some? ==> 0 <= v.averageWait.value <= v.maxWait.value)
            && (v.serviceLevel.Some? ==> 0 <= v.serviceLevel.value <= 1000)
  {
    var w := b.waits;
    if w.count > 0 { AverageAtMost(w.sum, w.count, w.longest); }
    if w.measured > 0 { AverageAtMost(1000 * w.within, w.measured, 1000); }
  }

  lemma AverageAtMost(sum: nat, n: nat, top: nat)
    requires n > 0 && sum <= n * top
    ensures 0 <= (2 * sum + n) / (2 * n) <= top
  {
    var d := 2 * n;
    var q := (2 * sum + n) / d;
    assert d * top == 2 * (n * top);
    if q > top { Multiples(q - top, d); }
  }

  // ---- The counters, from the calls ----

  datatype Kind =
    Received | Answered | Abandoned | Missed | InProgress | Placed | Connected | Talked | Waited
    | FromQueue(within: Option<nat>)

  /** Which calls are of a kind. The queued ones are those the service level is of:
      they entered a queue and are answered or over; within a time, those answered in it. */
  predicate Is(c: Record, k: Kind) {
    var picked := c.agentAnsweredAt.Some?;
    match k
    case Received => c.direction == Inbound
    case Answered => c.direction == Inbound && picked
    case Abandoned => c.direction == Inbound && !picked && c.ended && c.endedByCustomer
    case Missed => c.direction == Inbound && !picked && c.ended && !c.endedByCustomer
    case InProgress => c.direction == Inbound && !picked && !c.ended
    case Placed => c.direction == Outbound
    case Connected => c.direction == Outbound && c.answeredAt.Some?
    case Talked => c.ended && if c.direction == Inbound then picked else c.answeredAt.Some?
    case Waited => c.direction == Inbound && picked && c.queuedAt.Some?
    case FromQueue(None) => c.direction == Inbound && c.queuedAt.Some? && (picked || c.ended)
    case FromQueue(Some(t)) =>
      c.direction == Inbound && c.queuedAt.Some? && picked
      && SecondsBetween(c.queuedAt.value, c.agentAnsweredAt.value) <= t
  }

  function Those(k: Kind): Record -> bool { c => Is(c, k) }

  /** How many of the first n calls are like that. */
  function Count(rows: seq<Record>, n: nat, p: Record -> bool): nat
    requires n <= |rows|
  {
    |set i | 0 <= i < n && p(rows[i])|
  }

  function CounterOf(b: Counters, k: Kind): nat {
    match k
    case Received => b.outcomes.inbound
    case Answered => b.outcomes.answered
    case Abandoned => b.outcomes.abandoned
    case Missed => b.outcomes.missed
    case InProgress => b.outcomes.inProgress
    case Placed => b.outbound
    case Connected => b.connected
    case Talked => b.talks
    case Waited => b.waits.count
    case FromQueue(t) => if t.Some? then b.waits.within else b.waits.measured
  }

  lemma CountNext(rows: seq<Record>, m: nat, n: nat, p: Record -> bool)
    requires n == m + 1 <= |rows|
    ensures Count(rows, n, p) == Count(rows, m, p) + One(p(rows[m]))
  {
    var before := set i | 0 <= i < m && p(rows[i]);
    assert (set i | 0 <= i < n && p(rows[i])) == before + (if p(rows[m]) then {m} else {});
  }

  lemma ShareIs(b: Counters, c: Record, goal: nat, k: Kind)
    requires k.FromQueue? && k.within.Some? ==> k.within.value == goal
    ensures CounterOf(Plus(b, Share(c, goal)), k) == CounterOf(b, k) + One(Is(c, k))
  {}

  /** Each counter of a report is the number of its calls that are of that kind. */
  lemma {:induction false} CountersCount(rows: seq<Record>, n: nat, goal: nat, k: Kind)
    requires n <= |rows|
    requires k.FromQueue? && k.within.Some? ==> k.within.value == goal
    ensures CounterOf(Tally(rows, n, goal), k) == Count(rows, n, Those(k))
  {
    if n > 0 {
      var m: nat := n - 1;
      CountersCount(rows, m, goal, k);
      CountNext(rows, m, n, Those(k));
      ShareIs(Tally(rows, m, goal), rows[m], goal, k);
    }
  }

  function SecondsWaited(c: Record): int {
    if Is(c, Waited) then SecondsBetween(c.queuedAt.value, c.agentAnsweredAt.value) else 0
  }

  function SecondsTalked(c: Record): int {
    if Is(c, Talked) && c.talked.Some? then c.talked.value else 0
  }

  function Total(rows: seq<Record>, n: nat, f: Record -> int): int
    requires n <= |rows|
  {
    if n == 0 then 0 else Total(rows, n - 1, f) + f(rows[n - 1])
  }

  lemma ShareOfSeconds(c: Record, goal: nat)
    ensures Share(c, goal).waits.sum == SecondsWaited(c) && Share(c, goal).waits.longest == SecondsWaited(c)
    ensures Share(c, goal).talkSum == SecondsTalked(c)
  {}

  /** The seconds of each call are added up. */
  lemma {:induction false} SecondsAddUp(rows: seq<Record>, n: nat, goal: nat)
    requires n <= |rows|
    ensures Tally(rows, n, goal).waits.sum == Total(rows, n, SecondsWaited)
    ensures Tally(rows, n, goal).talkSum == Total(rows, n, SecondsTalked)
  {
    if n > 0 {
      SecondsAddUp(rows, n - 1, goal);
      ShareOfSeconds(rows[n - 1], goal);
    }
  }

  ghost predicate Longest(longest: nat, rows: seq<Record>, n: nat, f: Record -> int)
    requires n <= |rows|
  {
    && (forall i | 0 <= i < n :: f(rows[i]) <= longest)
    && (longest == 0 || exists i :: 0 <= i < n && f(rows[i]) == longest)
  }

  lemma LongestNext(longest: nat, rows: seq<Record>, m: nat, n: nat, f: Record -> int, next: nat)
    requires n == m + 1 <= |rows| && Longest(longest, rows, m, f) && f(rows[m]) == next
    ensures Longest(Max(longest, next), rows, n, f)
  {}

  /** The longest wait is that of a call, and no call waited longer. */
  lemma {:induction false} LongestIsLongest(rows: seq<Record>, n: nat, goal: nat)
    requires n <= |rows|
    ensures Longest(Tally(rows, n, goal).waits.longest, rows, n, SecondsWaited)
  {
    if n > 0 {
      var m: nat := n - 1;
      LongestIsLongest(rows, m, goal);
      ShareOfSeconds(rows[m], goal);
      LongestNext(Tally(rows, m, goal).waits.longest, rows, m, n, SecondsWaited, Share(rows[m], goal).waits.longest);
    }
  }

  /** The service level shown is the share of the queued calls answered in time, in
      tenths of a percent rounded to the nearest, and is left out if there are none. */
  lemma ServiceLevelIsTheShare(rows: seq<Record>, goal: nat)
    ensures var all := Count(rows, |rows|, Those(FromQueue(None)));
            var within := Count(rows, |rows|, Those(FromQueue(Some(goal))));
            AverageIs(ViewOf(Tally(rows, |rows|, goal)).serviceLevel, 1000 * within, all)
  {
    CountersCount(rows, |rows|, goal, FromQueue(None));
    CountersCount(rows, |rows|, goal, FromQueue(Some(goal)));
    ShownIsNearest(Tally(rows, |rows|, goal));
  }

  /** The averages shown are those of the seconds, over the calls that have them. */
  lemma AveragesAreOfTheCalls(rows: seq<Record>, goal: nat)
    ensures var v := ViewOf(Tally(rows, |rows|, goal));
            && v.talked == Total(rows, |rows|, SecondsTalked)
            && AverageIs(v.averageWait, Total(rows, |rows|, SecondsWaited), Count(rows, |rows|, Those(Waited)))
            && AverageIs(v.averageTalk, v.talked, Count(rows, |rows|, Those(Talked)))
            && (v.maxWait.Some? ==> Longest(v.maxWait.value, rows, |rows|, SecondsWaited))
  {
    LongestIsLongest(rows, |rows|, goal);
    SecondsAddUp(rows, |rows|, goal);
    CountersCount(rows, |rows|, goal, Waited);
    CountersCount(rows, |rows|, goal, Talked);
    ShownIsNearest(Tally(rows, |rows|, goal));
  }

  predicate AverageIs(v: Option<int>, total: int, n: nat) {
    match v
    case None => n == 0
    case Some(a) => n > 0 && Nearest(a, total, n)
  }

  /** v is a / n, rounded to the nearest, halves up. */
  predicate Nearest(v: int, a: int, n: nat) { 2 * v * n - n <= 2 * a < 2 * v * n + n }

  lemma ShownIsNearest(b: Counters)
    ensures AverageIs(ViewOf(b).serviceLevel, 1000 * b.waits.within, b.waits.measured)
    ensures AverageIs(ViewOf(b).averageWait, b.waits.sum, b.waits.count)
    ensures AverageIs(ViewOf(b).averageTalk, b.talkSum, b.talks) && ViewOf(b).talked == b.talkSum
  {
    AverageIsNearest(1000 * b.waits.within, b.waits.measured);
    AverageIsNearest(b.waits.sum, b.waits.count);
    AverageIsNearest(b.talkSum, b.talks);
  }

  lemma AverageIsNearest(total: int, n: nat)
    ensures AverageIs(Average(total, n), total, n)
  {
    if n > 0 {
      var d := 2 * n;
      var v := (2 * total + n) / d;
      assert v * d <= 2 * total + n < v * d + d;
      assert v * d == 2 * v * n;
    }
  }
}
