/** The arithmetic of a group's day (internal/window): where its cutoff falls on the
    time line, which window that cutoff closes, and when a window is due.

    Instants and wall-clock readings are whole seconds, calendar dates are day
    numbers, and a time zone is the function from an instant to the offset its clock
    shows then. A wall-clock reading is the second the clock would show if the zone
    were UTC.
 */
module DayWindow {

  const DAY := 86400
  // How long after its cutoff a day can still be started by the minute tick.
  const CATCH_UP := 7200
  // How long the retention job keeps messages (internal/scheduler).
  const RETENTION := 72 * 3600

  type Zone = int -> int

  datatype Window = Window(quoteDay: int, start: int, end: int)

  /** The reading hour:minute on a date, as the source's cutoffClock. */
  function Wall(day: int, hour: int, minute: int): int {
    day * DAY + hour * 3600 + minute * 60
  }

  /** What the zone's clock reads at t. */
  function WallClock(t: int, zone: Zone): int {
    t + zone(t)
  }

  function Date(t: int, zone: Zone): int {
    WallClock(t, zone) / DAY
  }

  /** The instant of the wall-clock time hour:minute on day. */
  function At(day: int, zone: Zone, hour: int, minute: int): int {
    var wall := Wall(day, hour, minute);
    var before := zone(wall - DAY);
    var after := zone(wall + DAY);
    if before == after then wall - before
    else
      var atBefore := wall - before;
      var atAfter := wall - after;
      var okBefore := zone(atBefore) == before;
      var okAfter := zone(atAfter) == after;
      if okBefore && okAfter then (if atBefore < atAfter then atBefore else atAfter)
      else if okBefore then atBefore
      else if okAfter then atAfter
      else atBefore
  }

  function ClosedForDay(quoteDay: int, zone: Zone, hour: int, minute: int): Window {
    Window(quoteDay, At(quoteDay - 1, zone, hour, minute), At(quoteDay, zone, hour, minute))
  }

  function QuoteDayOf(t: int, zone: Zone, hour: int, minute: int): int {
    var local := WallClock(t, zone);
    var day := local / DAY;
    if local < Wall(day, hour, minute) then day - 1 else day
  }

  /** The latest window whose cutoff has passed, and whether that cutoff is today's. */
  function LastClosed(now: int, zone: Zone, hour: int, minute: int): (Window, bool) {
    var day := QuoteDayOf(now, zone, hour, minute);
    (ClosedForDay(day, zone, hour, minute), day == Date(now, zone))
  }

  datatype DueResult = NotDue | Due(window: Window)

  /** The window to process at now: today's cutoff is tried before yesterday's. */
  function DueAt(now: int, zone: Zone, hour: int, minute: int): DueResult {
    var local := WallClock(now, zone);
    var today := local / DAY;
    if 0 <= local - Wall(today, hour, minute) < CATCH_UP then
      Due(ClosedForDay(today, zone, hour, minute))
    else if 0 <= local - Wall(today - 1, hour, minute) < CATCH_UP then
      Due(ClosedForDay(today - 1, zone, hour, minute))
    else
      NotDue
  }

  // ----- What is assumed of a zone -----

  ghost predicate ChangesAt(zone: Zone, lo: int, hi: int, c: int) {
    forall t :: lo <= t <= hi ==> zone(t) == if t < c then zone(lo) else zone(hi)
  }

  /** The offset changes at most once between lo and hi. */
  ghost predicate OneChange(zone: Zone, lo: int, hi: int) {
    exists c :: ChangesAt(zone, lo, hi, c)
  }

  ghost predicate BelowADay(zone: Zone) {
    forall t :: -DAY < zone(t) < DAY
  }

  /** Offsets in force within four days of each other differ by at most jump. */
  ghost predicate JumpsWithin(zone: Zone, jump: int) {
    forall t, u :: t - 4 * DAY <= u <= t + 4 * DAY ==> zone(t) - zone(u) <= jump
  }

  ghost predicate Reads(zone: Zone, t: int, wall: int) {
    WallClock(t, zone) == wall
  }

  ghost predicate ValidTime(hour: int, minute: int) {
    0 <= hour < 24 && 0 <= minute < 60
  }

  // ----- At -----

  /** At is the earliest instant whose clock reads hour:minute on day whenever there is
      one. When the clock skips that time, it is the reading under the offset in force
      before the change. */
  lemma AtIsEarliestReading(day: int, zone: Zone, hour: int, minute: int)
    requires BelowADay(zone)
    requires OneChange(zone, Wall(day, hour, minute) - DAY, Wall(day, hour, minute) + DAY)
    ensures var wall := Wall(day, hour, minute);
            var at := At(day, zone, hour, minute);
            if exists t :: Reads(zone, t, wall)
            then Reads(zone, at, wall) && forall t :: Reads(zone, t, wall) ==> at <= t
            else at == wall - zone(wall - DAY)
  {
    var wall := Wall(day, hour, minute);
    var lo, hi := wall - DAY, wall + DAY;
    var c :| ChangesAt(zone, lo, hi, c);
    var atBefore, atAfter := wall - zone(lo), wall - zone(hi);
    assert zone(atBefore) == if atBefore < c then zone(lo) else zone(hi);
    assert zone(atAfter) == if atAfter < c then zone(lo) else zone(hi);
    forall t | Reads(zone, t, wall)
      ensures t == atBefore || t == atAfter
    {
      assert lo <= t <= hi;
    }
    assert Reads(zone, atBefore, wall) <==> zone(atBefore) == zone(lo);
    assert Reads(zone, atAfter, wall) <==> zone(atAfter) == zone(hi);
  }

  /** At differs from the reading by an offset in force at the end of the bracket. */
  lemma AtOffset(day: int, zone: Zone, hour: int, minute: int)
    ensures var wall := Wall(day, hour, minute);
            || At(day, zone, hour, minute) == wall - zone(wall - DAY)
            || At(day, zone, hour, minute) == wall - zone(wall + DAY)
  {
  }

  // ----- The windows partition time -----

  lemma AtIncreasesDaily(day: int, zone: Zone, hour: int, minute: int)
    requires JumpsWithin(zone, DAY - 1)
    ensures At(day - 1, zone, hour, minute) < At(day, zone, hour, minute)
  {
    var wall := Wall(day, hour, minute);
    assert Wall(day - 1, hour, minute) == wall - DAY;
    AtOffset(day, zone, hour, minute);
    AtOffset(day - 1, zone, hour, minute);
    assert forall a, b :: a in {wall - DAY, wall + DAY} && b in {wall - 2 * DAY, wall} ==>
        zone(a) - zone(b) <= DAY - 1;
  }

  lemma {:induction false} AtIncreases(d: int, e: int, zone: Zone, hour: int, minute: int)
    requires JumpsWithin(zone, DAY - 1)
    requires d < e
    ensures At(d, zone, hour, minute) < At(e, zone, hour, minute)
    decreases e - d
  {
    AtIncreasesDaily(e, zone, hour, minute);
    if d < e - 1 {
      AtIncreases(d, e - 1, zone, hour, minute);
    }
  }

  ghost predicate InWindow(t: int, w: Window) {
    w.start <= t < w.end
  }

  /** Every instant lies in exactly one day's window, so no message is claimed by two
      days and none by no day; and no window is empty. */
  lemma WindowsPartitionTime(t: int, zone: Zone, hour: int, minute: int) returns (day: int)
    requires BelowADay(zone) && JumpsWithin(zone, DAY - 1)
    ensures InWindow(t, ClosedForDay(day, zone, hour, minute))
    ensures forall e :: InWindow(t, ClosedForDay(e, zone, hour, minute)) ==> e == day
    ensures forall e :: ClosedForDay(e, zone, hour, minute).start < ClosedForDay(e, zone, hour, minute).end
  {
    hide At, JumpsWithin, BelowADay;
    day := FirstCutoffAfter(t, zone, hour, minute);
    forall e
      ensures ClosedForDay(e, zone, hour, minute).start < ClosedForDay(e, zone, hour, minute).end
      ensures InWindow(t, ClosedForDay(e, zone, hour, minute)) ==> e == day
    {
      AtIncreasesDaily(e, zone, hour, minute);
      if e < day {
        if e < day - 1 { AtIncreases(e, day - 1, zone, hour, minute); }
      } else if day < e {
        if day < e - 1 { AtIncreases(day, e - 1, zone, hour, minute); }
      }
    }
  }

  lemma FirstCutoffAfter(t: int, zone: Zone, hour: int, minute: int) returns (day: int)
    requires BelowADay(zone)
    ensures At(day - 1, zone, hour, minute) <= t < At(day, zone, hour, minute)
  {
    var start := (t - hour * 3600 - minute * 60) / DAY;
    day := start - 2;
    AtOffset(day - 1, zone, hour, minute);
    while At(day, zone, hour, minute) <= t
      invariant At(day - 1, zone, hour, minute) <= t
      invariant day <= start + 4
      decreases start + 4 - day
    {
      AtOffset(day, zone, hour, minute);
      day := day + 1;
    }
  }

  // ----- The wall-clock day against the windows -----

  /** A moment farther from the two cutoffs around it than the size of the offset
      changes belongs to the quote day the wall clock says. */
  lemma QuoteDayAgrees(t: int, zone: Zone, hour: int, minute: int, jump: int)
    requires JumpsWithin(zone, jump) && BelowADay(zone) && ValidTime(hour, minute)
    requires var day := QuoteDayOf(t, zone, hour, minute);
             && (t - At(day, zone, hour, minute) > jump || At(day, zone, hour, minute) - t > jump)
             && (t - At(day + 1, zone, hour, minute) > jump || At(day + 1, zone, hour, minute) - t > jump)
    ensures var day := QuoteDayOf(t, zone, hour, minute);
            InWindow(t, ClosedForDay(day + 1, zone, hour, minute))
  {
    var day := QuoteDayOf(t, zone, hour, minute);
    CutoffDistance(t, day, zone, hour, minute, jump);
    CutoffDistance(t, day + 1, zone, hour, minute, jump);
  }

  /** How far an instant is from a cutoff and how far the wall clock says it is differ
      by at most the size of the offset changes. */
  lemma CutoffDistance(t: int, day: int, zone: Zone, hour: int, minute: int, jump: int)
    requires JumpsWithin(zone, jump) && BelowADay(zone)
    requires -DAY <= WallClock(t, zone) - Wall(day, hour, minute) < DAY
    ensures var delay := WallClock(t, zone) - Wall(day, hour, minute);
            -jump <= (t - At(day, zone, hour, minute)) - delay <= jump
  {
    var wall := Wall(day, hour, minute);
    AtOffset(day, zone, hour, minute);
    forall u | u == wall - DAY || u == wall + DAY
      ensures -jump <= zone(u) - zone(t) <= jump
    {
      assert t - 4 * DAY <= u <= t + 4 * DAY;
      assert u - 4 * DAY <= t <= u + 4 * DAY;
    }
  }

  /** What the cutoff would be under the offset in force before a change, and after it. */
  function ReadBefore(day: int, zone: Zone, hour: int, minute: int): int {
    Wall(day, hour, minute) - zone(Wall(day, hour, minute) - DAY)
  }

  function ReadAfter(day: int, zone: Zone, hour: int, minute: int): int {
    Wall(day, hour, minute) - zone(Wall(day, hour, minute) + DAY)
  }

  /** The change at c falls after one of these two readings, has happened at t, and t is
      before the other. */
  predicate BetweenReadings(t: int, c: int, day: int, zone: Zone, hour: int, minute: int) {
    var before, after := ReadBefore(day, zone, hour, minute), ReadAfter(day, zone, hour, minute);
    c <= t && ((t < before && after < c) || (t < after && before < c))
  }

  ghost predicate ChangesOnceAround(day: int, zone: Zone, hour: int, minute: int, c: int) {
    ChangesAt(zone, Wall(day, hour, minute) - DAY, Wall(day, hour, minute) + DAY, c)
  }

  /** The clock has reached a cutoff's reading exactly when the cutoff has passed, but
      between the two readings of a change; there, never. */
  lemma ClockTellsCutoffExactly(t: int, c: int, day: int, zone: Zone, hour: int, minute: int)
    requires BelowADay(zone) && ChangesOnceAround(day, zone, hour, minute, c)
    ensures (Wall(day, hour, minute) <= WallClock(t, zone) <==> At(day, zone, hour, minute) <= t)
            <==> !BetweenReadings(t, c, day, zone, hour, minute)
  {
    var wall := Wall(day, hour, minute);
    var lo, hi := wall - DAY, wall + DAY;
    AtOffset(day, zone, hour, minute);
    assert -DAY < zone(lo) < DAY && -DAY < zone(hi) < DAY && -DAY < zone(t) < DAY;
    if lo <= t <= hi {
      assert zone(t) == if t < c then zone(lo) else zone(hi);
      var atBefore, atAfter := wall - zone(lo), wall - zone(hi);
      assert zone(atBefore) == if atBefore < c then zone(lo) else zone(hi);
      assert zone(atAfter) == if atAfter < c then zone(lo) else zone(hi);
    }
  }

  /** The quote day on the wall clock is the day whose window holds the instant exactly when
      the instant lies between the two readings of neither cutoff. */
  lemma QuoteDayAgreesExactly(t: int, zone: Zone, hour: int, minute: int, c: int, d: int)
    requires BelowADay(zone) && ValidTime(hour, minute)
    requires ChangesOnceAround(QuoteDayOf(t, zone, hour, minute), zone, hour, minute, c)
    requires ChangesOnceAround(QuoteDayOf(t, zone, hour, minute) + 1, zone, hour, minute, d)
    ensures var day := QuoteDayOf(t, zone, hour, minute);
            InWindow(t, ClosedForDay(day + 1, zone, hour, minute)) <==>
              !BetweenReadings(t, c, day, zone, hour, minute) && !BetweenReadings(t, d, day + 1, zone, hour, minute)
  {
    hide At, BetweenReadings, ChangesOnceAround, BelowADay;
    var day := QuoteDayOf(t, zone, hour, minute);
    QuoteDayBracket(t, zone, hour, minute, day);
    ClockTellsCutoffExactly(t, c, day, zone, hour, minute);
    ClockTellsCutoffExactly(t, d, day + 1, zone, hour, minute);
  }

  /** An autumn zone: at second 97200 (03:00 on day 1) the clock goes back one hour. */
  function AutumnZone(): Zone {
    t => if t < 97200 then 7200 else 3600
  }

  /** Such instants exist: at the repeated hour the cutoff 04:30 of day 1 has passed, yet the
      wall clock still files the moment under day 0. */
  lemma QuoteDayDisagreesInTheRepeatedHour()
    ensures var t := 97200;
            && QuoteDayOf(t, AutumnZone(), 4, 30) == 0
            && ChangesOnceAround(1, AutumnZone(), 4, 30, 97200)
            && BetweenReadings(t, 97200, 1, AutumnZone(), 4, 30)
            && At(1, AutumnZone(), 4, 30) < t
            && !InWindow(t, ClosedForDay(1, AutumnZone(), 4, 30))
  {
    var t := 97200;
    var zone := AutumnZone();
    assert WallClock(t, zone) == 100800;
    assert Wall(1, 4, 30) == 102600;
    assert zone(102600 - DAY) == 7200 && zone(102600 + DAY) == 3600;
    assert zone(95400) == 7200 && zone(99000) == 3600;
  }

  // ----- Due -----

  /** A window that is due is the one LastClosed names, its cutoff is less than two
      hours ago on the wall clock, and the real distance to its end differs from that by
      at most the size of the offset changes. */
  lemma DueIsLastClosed(now: int, zone: Zone, hour: int, minute: int, jump: int)
    requires JumpsWithin(zone, jump) && BelowADay(zone) && ValidTime(hour, minute)
    requires DueAt(now, zone, hour, minute).Due?
    ensures var w := DueAt(now, zone, hour, minute).window;
            && w == LastClosed(now, zone, hour, minute).0
            && -jump <= now - w.end < CATCH_UP + jump
  {
    var day := QuoteDayOf(now, zone, hour, minute);
    CutoffDistance(now, day, zone, hour, minute, jump);
  }

  /** The quote day is the one whose cutoff reading is the latest not after the clock. */
  lemma QuoteDayBracket(t: int, zone: Zone, hour: int, minute: int, day: int)
    requires ValidTime(hour, minute)
    ensures day == QuoteDayOf(t, zone, hour, minute) <==>
              Wall(day, hour, minute) <= WallClock(t, zone) < Wall(day + 1, hour, minute)
    ensures LastClosed(t, zone, hour, minute).1 <==>
              Wall(Date(t, zone), hour, minute) <= WallClock(t, zone)
  {
    var own := QuoteDayOf(t, zone, hour, minute);
    assert Wall(own, hour, minute) <= WallClock(t, zone) < Wall(own + 1, hour, minute);
  }

  /** A day is due exactly while its cutoff is less than two hours ago on the wall
      clock. */
  lemma DueExactly(now: int, zone: Zone, hour: int, minute: int)
    requires ValidTime(hour, minute)
    ensures var day := QuoteDayOf(now, zone, hour, minute);
            DueAt(now, zone, hour, minute).Due? <==> WallClock(now, zone) - Wall(day, hour, minute) < CATCH_UP
  {
  }

  /** A spring zone: at second 93600 the clock skips from 02:00 to 03:00 of day 1. */
  function SpringZone(): Zone {
    t => if t < 93600 then 0 else 3600
  }

  /** The end of a due window has come exactly unless the clock skipped a time after the
      reading under the new offset, and now is not yet at the one under the old. */
  lemma DueEndsExactly(now: int, zone: Zone, hour: int, minute: int, c: int)
    requires BelowADay(zone) && ValidTime(hour, minute)
    requires DueAt(now, zone, hour, minute).Due?
    requires ChangesOnceAround(DueAt(now, zone, hour, minute).window.quoteDay, zone, hour, minute, c)
    ensures var w := DueAt(now, zone, hour, minute).window;
            w.end <= now <==>
              !(ReadAfter(w.quoteDay, zone, hour, minute) < c <= now < ReadBefore(w.quoteDay, zone, hour, minute))
  {
    hide At;
    var day := DueAt(now, zone, hour, minute).window.quoteDay;
    ClockTellsCutoffExactly(now, c, day, zone, hour, minute);
    assert BelowADay(zone) && -DAY < zone(now) < DAY;
    var wall := Wall(day, hour, minute);
    if wall - DAY <= now <= wall + DAY {
      assert zone(now) == if now < c then zone(wall - DAY) else zone(wall + DAY);
    }
  }

  /** The end of a due window can lie in the future: the skipped cutoff 02:30 is read with
      the old offset, half an hour after the instant the clock jumped over it. */
  lemma DueBeforeItsEnd()
    ensures var now := 93600;
            && DueAt(now, SpringZone(), 2, 30).Due?
            && ChangesOnceAround(1, SpringZone(), 2, 30, 93600)
            && ReadAfter(1, SpringZone(), 2, 30) < 93600 <= now < ReadBefore(1, SpringZone(), 2, 30)
            && now < DueAt(now, SpringZone(), 2, 30).window.end
  {
    var zone := SpringZone();
    assert WallClock(93600, zone) == 97200;
    assert Wall(1, 2, 30) == 95400;
    assert zone(95400 - DAY) == 0 && zone(95400 + DAY) == 3600;
    assert zone(95400) == 3600 && zone(91800) == 0;
  }

  /** Retention never reaches a window that can still be processed: one that is due, or
      the one a catch-up takes because today's cutoff has passed. */
  lemma ProcessableWindowIsRetained(now: int, zone: Zone, hour: int, minute: int)
    requires JumpsWithin(zone, DAY) && BelowADay(zone) && ValidTime(hour, minute)
    ensures DueAt(now, zone, hour, minute).Due? ==>
              now - DueAt(now, zone, hour, minute).window.start < RETENTION
    ensures LastClosed(now, zone, hour, minute).1 ==>
              now - LastClosed(now, zone, hour, minute).0.start < RETENTION
  {
    var day := QuoteDayOf(now, zone, hour, minute);
    var wall := Wall(day, hour, minute);
    AtOffset(day - 1, zone, hour, minute);
    assert Wall(day - 1, hour, minute) == wall - DAY;
    assert 0 <= WallClock(now, zone) - wall < DAY;
    forall u | u == wall - 2 * DAY || u == wall
      ensures zone(u) - zone(now) <= DAY
    {
      assert u - 4 * DAY <= now <= u + 4 * DAY;
    }
  }
}
