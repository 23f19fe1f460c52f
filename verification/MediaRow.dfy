/** The life of one media row: the lease a worker takes on it, the outcome it writes back
    and the retries between (internal/media/pgstore.go, retry.go, and process and failure
    of pipeline.go). Times and delays are in seconds.
 */
module MediaRow {
  import opened Wrappers

  const ITEM_TIMEOUT := 600
  const RETRY_MAX_ATTEMPTS := 5
  const RETRY_BASE_DELAY := 300
  const RETRY_MAX_DELAY := 3600

  datatype Status = Pending | Processing | Analyzed | Cached | Disabled | Unsupported | Failed {
    predicate Final() {
      this != Pending && this != Processing
    }
  }

  /** nextRetryAt: when the row may be tried, or when the lease on it runs out. */
  datatype Row = Row(status: Status, retryCount: nat, nextRetryAt: Option<int>)

  function Max(a: int, b: int): int {
    if a >= b then a else b
  }

  function Min(a: int, b: int): int {
    if a <= b then a else b
  }

  // ----- Retry delays -----

  function Pow2(n: nat): (p: nat)
    ensures p >= 1
  {
    if n == 0 then 1 else 2 * Pow2(n - 1)
  }

  /** The wait after the n-th attempt: the base doubled n - 1 times, never over the ceiling. */
  function RetryDelay(attempts: int): (d: int)
    ensures RETRY_BASE_DELAY <= d <= RETRY_MAX_DELAY
  {
    Min(RETRY_BASE_DELAY * Pow2(Max(attempts - 1, 0)), RETRY_MAX_DELAY)
  }

  /** Five minutes, twice as long after each further attempt, an hour at most. */
  lemma DelayDoubles(n: nat)
    requires n >= 1
    ensures forall attempts :: attempts <= 1 ==> RetryDelay(attempts) == 300
    ensures RetryDelay(n + 1) == Min(2 * RetryDelay(n), 3600)
  {
    assert Pow2(n) == 2 * Pow2(n - 1);
  }

  method ComputeRetryDelay(attempts: int) returns (d: int)
    ensures d == RetryDelay(attempts)
  {
    var base := Max(1, RETRY_BASE_DELAY);
    var ceiling := Max(base, RETRY_MAX_DELAY);
    d := base;
    var i := 1;
    while i < attempts && d < ceiling
      invariant 1 <= i && (i <= attempts || i == 1)
      invariant d == base * Pow2(i - 1)
    {
      d := d * 2;
      i := i + 1;
    }
    if i < attempts {
      Pow2Grows(i - 1, attempts - 1);
    }
    d := Min(d, ceiling);
  }

  lemma {:induction false} Pow2Grows(m: nat, n: nat)
    requires m <= n
    ensures Pow2(m) <= Pow2(n)
    decreases n
  {
    if m < n {
      Pow2Grows(m, n - 1);
    }
  }

  // ----- One statement on the row each -----

  predicate Claimable(row: Row, now: int) {
    !row.status.Final() && (row.nextRetryAt.None? || row.nextRetryAt.value <= now)
  }

  /** The row under a new lease. Taking it from a worker that never finished costs an attempt. */
  function Leased(row: Row, now: int): Row {
    Row(Processing, row.retryCount + (if row.status == Processing then 1 else 0), Some(now + ITEM_TIMEOUT))
  }

  /** What Finish writes; None leaves retry_count as it is. */
  datatype Result = Result(status: Status, retryCount: Option<nat>, nextRetryAt: Option<int>)

  function Written(row: Row, r: Result): Row {
    Row(r.status, if r.retryCount.Some? then r.retryCount.value else row.retryCount, r.nextRetryAt)
  }

  // ----- How an analysis ends -----

  datatype Ending =
    | Outcome(status: Status)
    | Temporary(countsAsAttempt: bool, retryAfter: int)
    | TimedOut
    | Permanent

  /** A result the analysis itself gives is final. */
  predicate Possible(e: Ending) {
    e.Outcome? ==> e.status.Final()
  }

  function RetryResult(item: Row, counts: bool, retryAfter: int, now: int): Result {
    var count := if counts then item.retryCount + 1 else item.retryCount;
    if counts && count >= RETRY_MAX_ATTEMPTS then Result(Failed, Some(count), None)
    else Result(Pending, Some(count), Some(now + Max(RetryDelay(Max(1, count)), retryAfter)))
  }

  function ResultOf(item: Row, e: Ending, now: int): Result {
    match e
    case Outcome(status) => Result(status, None, None)
    case Temporary(counts, retryAfter) => RetryResult(item, counts, retryAfter, now)
    case TimedOut => RetryResult(item, true, 0, now)
    case Permanent => Result(Failed, None, None)
  }

  // ----- The row through any run -----

  /** The worker that has the row, if one does. It keeps the row as it was when claimed. */
  datatype Worker = Idle | Analysing(item: Row) | GivingUp(item: Row)

  /** starts: analyses begun. uncounted: outcomes stored that did not count as attempts.
      lastStart: when the last analysis began. */
  datatype State = State(row: Row, worker: Worker, starts: nat, uncounted: nat, lastStart: Option<int>)

  /** Claim: heard is false when the statement took effect but its answer was lost.
      End: the analysis ends, and its result is stored or lost.
      Stop: the process ends, or the job is cancelled; whatever the worker held is gone. */
  datatype Event = Claim(now: int, heard: bool) | End(ending: Ending, now: int, stored: bool) | Stop

  function Apply(s: State, e: Event): State {
    match e
    case Claim(now, heard) =>
      if s.worker != Idle || !Claimable(s.row, now) then s
      else
        var row := Leased(s.row, now);
        if !heard then s.(row := row)
        else if row.retryCount >= RETRY_MAX_ATTEMPTS then s.(row := row, worker := GivingUp(row))
        else s.(row := row, worker := Analysing(row), starts := s.starts + 1, lastStart := Some(now))
    case End(ending, now, stored) =>
      (match s.worker
       case Idle => s
       case GivingUp(item) =>
         s.(worker := Idle,
            row := if stored then Written(s.row, Result(Failed, Some(item.retryCount), None)) else s.row)
       case Analysing(item) =>
         if !Possible(ending) then s
         else
           s.(worker := Idle,
              row := if stored then Written(s.row, ResultOf(item, ending, now)) else s.row,
              uncounted := s.uncounted + if stored && ending.Temporary? && !ending.countsAsAttempt then 1 else 0))
    case Stop => s.(worker := Idle)
  }

  function Run(s: State, events: seq<Event>): State
    decreases |events|
  {
    if events == [] then s else Apply(Run(s, events[..|events| - 1]), events[|events| - 1])
  }

  function Begin(row: Row): State {
    State(row, Idle, 0, 0, None)
  }

  // ----- The statements and the job as they run -----

  class Store {
    var row: Row

    constructor (row: Row)
      ensures this.row == row
    {
      this.row := row;
    }

    /** The row as claimed, or None when it cannot be. */
    method ClaimRow(now: int) returns (item: Option<Row>)
      modifies this
      ensures Claimable(old(row), now) ==> row == Leased(old(row), now) && item == Some(row)
      ensures !Claimable(old(row), now) ==> row == old(row) && item == None
    {
      item := None;
      if row.status in {Pending, Processing} && (row.nextRetryAt.None? || row.nextRetryAt.value <= now) {
        var attempts := row.retryCount;
        if row.status == Processing {
          attempts := attempts + 1;
        }
        row := Row(Processing, attempts, Some(now + ITEM_TIMEOUT));
        item := Some(row);
      }
    }

    method Finish(r: Result)
      modifies this
      ensures row == Written(old(row), r)
    {
      var attempts := row.retryCount;
      if r.retryCount.Some? {
        attempts := r.retryCount.value;
      }
      row := Row(r.status, attempts, r.nextRetryAt);
    }
  }

  /** Unfinished, and not waiting for anything. */
  predicate IsFree(row: Row, now: int) {
    row.status in {Pending, Processing} && (row.nextRetryAt.Some? ==> now >= row.nextRetryAt.value)
  }

  /** The attempts used, with that of a worker that held the row and never finished. */
  function Tries(row: Row): nat {
    if row.status == Processing then row.retryCount + 1 else row.retryCount
  }

  /** The row after an analysis that ended so, on a row with this many attempts used. */
  predicate EndsAs(row: Row, tries: nat, ending: Ending, endAt: int) {
    match ending
    case Outcome(status) => row == Row(status, tries, None)
    case Permanent => row == Row(Failed, tries, None)
    case TimedOut => FailsAs(row, tries + 1, true, endAt, 0)
    case Temporary(true, retryAfter) => FailsAs(row, tries + 1, true, endAt, retryAfter)
    case Temporary(false, retryAfter) => FailsAs(row, tries, false, endAt, retryAfter)
  }

  /** The last attempt is final. Before it, and when none was used up, the row waits: as long
      as its attempts ask and as long as the failure does. */
  predicate FailsAs(row: Row, tries: nat, counted: bool, endAt: int, retryAfter: int) {
    row.retryCount == tries
    && if counted && tries >= RETRY_MAX_ATTEMPTS then row.status == Failed && row.nextRetryAt.None?
       else
         && row.status == Pending && row.nextRetryAt.Some?
         && var wait := row.nextRetryAt.value - endAt;
            && wait >= RetryDelay(tries) && wait >= retryAfter
            && (wait == RetryDelay(tries) || wait == retryAfter)
  }

  /** process: lease, analysis, outcome. What the world answers is given: whether the claim
      was heard, how the analysis ends and when, whether the process is stopping by then,
      whether the outcome is stored. It is a claim and then an end of the run above. */
  method Process(store: Store, claimAt: int, heard: bool, ending: Ending, endAt: int, stopping: bool, stored: bool)
    requires Possible(ending)
    modifies store
    ensures var s := Apply(Begin(old(store.row)), Claim(claimAt, heard));
            var giving := s.worker.GivingUp?;
            store.row == Apply(s, if stopping && !giving then Stop else End(ending, endAt, stored)).row
    ensures !IsFree(old(store.row), claimAt) ==> store.row == old(store.row)
    ensures IsFree(old(store.row), claimAt) ==>
              var tries := Tries(old(store.row));
              var givesUp := tries >= RETRY_MAX_ATTEMPTS;
              if !heard || !stored || (stopping && !givesUp) then
                store.row == Row(Processing, tries, Some(claimAt + ITEM_TIMEOUT))
              else if givesUp then store.row == Row(Failed, tries, None)
              else EndsAs(store.row, tries, ending, endAt)
  {
    var claimed := store.ClaimRow(claimAt);
    if !heard || claimed.None? {
      return;
    }
    var item := claimed.value;
    if item.retryCount >= Max(1, RETRY_MAX_ATTEMPTS) {
      if stored {
        store.Finish(Result(Failed, Some(item.retryCount), None));
      }
      return;
    }
    if stopping {
      return;
    }
    var res := ResultOf(item, ending, endAt);
    if stored {
      store.Finish(res);
    }
  }

  // ----- What every run keeps -----

  /** One worker at most has the row, and while it does nobody else writes it. */
  predicate Held(s: State) {
    s.worker != Idle ==> s.row == s.worker.item && s.row.status == Processing
  }

  /** Starts that counted have been paid for, but for the one that may still be running or
      whose end was not an attempt. */
  predicate Paid(s: State) {
    s.starts - s.uncounted <= s.row.retryCount + (if s.row.status == Pending then 0 else 1)
  }

  predicate Inv(s: State) {
    && Held(s)
    && Paid(s)
    && s.starts - s.uncounted <= RETRY_MAX_ATTEMPTS
    && (s.worker.Analysing? ==> s.row.retryCount < RETRY_MAX_ATTEMPTS)
    && (s.worker.GivingUp? ==> s.row.retryCount >= RETRY_MAX_ATTEMPTS)
  }

  lemma EventKeeps(s: State, e: Event)
    requires Inv(s)
    ensures Inv(Apply(s, e))
  {
  }

  /** Through any claims, failures, timeouts, lost results and restarts, an analysis of one
      row starts at most five times beyond the outcomes stored as uncounted, and a pending
      row has paid for every start. */
  lemma {:induction false} AttemptsBounded(row: Row, events: seq<Event>)
    ensures var s := Run(Begin(row), events);
            && Inv(s)
            && s.starts - s.uncounted <= RETRY_MAX_ATTEMPTS
            && (s.row.status == Pending ==> s.starts - s.uncounted <= s.row.retryCount)
    decreases |events|
  {
    if events != [] {
      AttemptsBounded(row, events[..|events| - 1]);
      EventKeeps(Run(Begin(row), events[..|events| - 1]), events[|events| - 1]);
    }
  }

  /** A file that stops the process every time it is tried, claimed again as each lease
      runs out. */
  function CrashLoop(tries: nat): (r: seq<Event>)
    ensures |r| == 2 * tries
  {
    if tries == 0 then [] else CrashLoop(tries - 1) + [Claim((tries - 1) * ITEM_TIMEOUT, true), Stop]
  }

  lemma {:induction false} RunTwo(s: State, events: seq<Event>, e: Event, f: Event)
    ensures Run(s, events + [e, f]) == Apply(Apply(Run(s, events), e), f)
  {
    var all := events + [e, f];
    assert all[..|all| - 1] == events + [e];
    assert (events + [e])[..|events|] == events;
  }

  lemma {:induction false} CrashLoopTries(tries: nat)
    requires 1 <= tries <= RETRY_MAX_ATTEMPTS
    ensures Run(Begin(Row(Pending, 0, None)), CrashLoop(tries)) ==
              State(Row(Processing, tries - 1, Some(tries * ITEM_TIMEOUT)), Idle, tries, 0,
                    Some((tries - 1) * ITEM_TIMEOUT))
    decreases tries
  {
    RunTwo(Begin(Row(Pending, 0, None)), CrashLoop(tries - 1), Claim((tries - 1) * ITEM_TIMEOUT, true), Stop);
    if tries > 1 {
      CrashLoopTries(tries - 1);
    }
  }

  /** The bound is met: such a file is tried five times, and the sixth claim, whenever it
      comes, gives it up without trying. */
  lemma CrashLoopEnds(now: int, later: int, e: Ending)
    requires now >= RETRY_MAX_ATTEMPTS * ITEM_TIMEOUT
    ensures var s := Run(Begin(Row(Pending, 0, None)), CrashLoop(RETRY_MAX_ATTEMPTS));
            var s' := Apply(Apply(s, Claim(now, true)), End(e, later, true));
            s.starts == RETRY_MAX_ATTEMPTS && s'.starts == s.starts && s'.row.status == Failed
  {
    CrashLoopTries(RETRY_MAX_ATTEMPTS);
  }

  /** A row once finished is never leased, analysed or written again. */
  lemma {:induction false} FinalStaysFinal(s: State, events: seq<Event>)
    requires Held(s) && s.row.status.Final()
    ensures Run(s, events) == s
    decreases |events|
  {
    if events != [] {
      FinalStaysFinal(s, events[..|events| - 1]);
    }
  }

  /** The event stores this final status: as what the analysis said, or for good failure. */
  predicate Gives(e: Event, status: Status) {
    e.End? && e.stored && (e.ending == Outcome(status) || (status == Failed && e.ending == Permanent))
  }

  /** Through any run, a row ends with a status an analysis gave it, or failed with its
      attempts used up. */
  lemma {:induction false} FinalStatusWasGiven(row: Row, events: seq<Event>)
    requires !row.status.Final()
    ensures var s := Run(Begin(row), events);
            s.row.status.Final() ==>
              || (s.row.status == Failed && s.row.retryCount >= RETRY_MAX_ATTEMPTS)
              || exists i :: 0 <= i < |events| && Gives(events[i], s.row.status)
    decreases |events|
  {
    AttemptsBounded(row, events);
    if events != [] {
      var last := |events| - 1;
      FinalStatusWasGiven(row, events[..last]);
      AttemptsBounded(row, events[..last]);
      var before := Run(Begin(row), events[..last]);
      if before.row.status.Final() {
        FinalStaysFinal(before, [events[last]]);
        assert [events[last]][..0] == [];
        if i :| 0 <= i < last && Gives(events[..last][i], before.row.status) {
          assert Gives(events[i], before.row.status);
        }
      } else if Apply(before, events[last]).row.status.Final() {
        GivenByLast(before, events[last]);
      }
    }
  }

  lemma GivenByLast(s: State, e: Event)
    requires Inv(s) && !s.row.status.Final() && Apply(s, e).row.status.Final()
    ensures Gives(e, Apply(s, e).row.status)
            || (Apply(s, e).row.status == Failed && Apply(s, e).row.retryCount >= RETRY_MAX_ATTEMPTS)
  {
  }

  // ----- Time between starts -----

  function TimeOf(e: Event, last: int): int {
    if e.Stop? then last else e.now
  }

  /** The clock does not go back from one event to the next. */
  predicate Clocked(events: seq<Event>, from: int)
    decreases |events|
  {
    events == [] ||
    (var last := |events| - 1;
     Clocked(events[..last], from) && Clock(events[..last], from) <= TimeOf(events[last], Clock(events[..last], from)))
  }

  function Clock(events: seq<Event>, from: int): int
    decreases |events|
  {
    if events == [] then from
    else TimeOf(events[|events| - 1], Clock(events[..|events| - 1], from))
  }

  /** A row that may be leased again has waited since its last start. */
  predicate Waits(s: State, clock: int) {
    s.lastStart.Some? ==>
      && s.lastStart.value <= clock
      && (s.row.status.Final()
          || (s.row.nextRetryAt.Some? && s.row.nextRetryAt.value >= s.lastStart.value + RETRY_BASE_DELAY))
  }

  lemma {:induction false} AlwaysWaits(row: Row, events: seq<Event>, from: int)
    requires Clocked(events, from)
    ensures Held(Run(Begin(row), events)) && Waits(Run(Begin(row), events), Clock(events, from))
    decreases |events|
  {
    if events != [] {
      var last := |events| - 1;
      AlwaysWaits(row, events[..last], from);
      WaitStep(Run(Begin(row), events[..last]), events[last], Clock(events[..last], from));
    }
  }

  lemma WaitStep(s: State, e: Event, clock: int)
    requires Held(s) && Waits(s, clock) && clock <= TimeOf(e, clock)
    ensures Held(Apply(s, e)) && Waits(Apply(s, e), TimeOf(e, clock))
  {
  }

  /** Two analyses of one row begin at least five minutes apart, however the first ended. */
  lemma StartsAreSpaced(row: Row, events: seq<Event>, from: int, e: Event)
    requires Clocked(events, from)
    ensures var s := Run(Begin(row), events);
            Apply(s, e).starts > s.starts && s.lastStart.Some? ==>
              e.now >= s.lastStart.value + RETRY_BASE_DELAY
  {
    AlwaysWaits(row, events, from);
  }
}
