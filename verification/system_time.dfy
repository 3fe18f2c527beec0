/**
 * The time service: the isTimeSet year check, systime_setup and the
 * bounded NTP wait loop of systime_obtainTime.
 *
 * The clock is an input: `clock(i)` is the tm_year field that the i-th
 * re-read of the time inside the wait loop yields (0-based).
 */
module SystemTime {
  import opened Trace

  /** struct tm counts years from 1900. */
  const TM_YEAR_BASE: int := 1900

  /** The first year the firmware accepts as a real date. */
  const FIRST_PLAUSIBLE_YEAR: int := 2016

  const RETRY_COUNT: nat := 10
  const SNTP_WAIT_MS: nat := 2000

  /** The POSIX TZ rule systime_setup installs. */
  const TIMEZONE: string := "cet-1cest,m3.5.0,m10.5.0"

  /** The isTimeSet() macro on a tm_year value. */
  predicate IsTimeSet(tmYear: int)
  {
    tmYear >= FIRST_PLAUSIBLE_YEAR - TM_YEAR_BASE
  }

  /** The clock counts as set iff the calendar year is 2016 or later; an unset clock reads 1970. */
  lemma IsTimeSetMeansYear(tmYear: int)
    ensures IsTimeSet(tmYear) <==> tmYear + TM_YEAR_BASE >= 2016
    ensures IsTimeSet(tmYear) <==> tmYear >= 116
    ensures !IsTimeSet(1970 - TM_YEAR_BASE) && !IsTimeSet(0)
  {
  }

  const SNTP_INITS: set<Kind> := {SntpInitKind}
  const SNTP_STOPS: set<Kind> := {SntpStopKind}
  const CLOCK_READS: set<Kind> := {ReadClockKind}
  const TIMEZONE_SETS: set<Kind> := {SetTimezoneKind}

  /** The kinds of event the NTP wait produces. */
  const SYNC_KINDS: set<Kind> := SNTP_INITS + SNTP_STOPS + CLOCK_READS + {DelayKind(SNTP_WAIT_MS)}

  /** One turn of the wait loop: two seconds, then a re-read of the clock. */
  const WAIT_ROUND: seq<Event> := [Delay(SNTP_WAIT_MS), ReadClock]

  /**
   * The wait loop, fed the successive re-reads `clock(0), clock(1), ...`,
   * runs its body exactly `k` times: at least once (tm_year starts at 0),
   * at most 9 times (`++retry < 10` with retry starting at 0), with no
   * earlier re-read plausible, and fewer than 9 only because the last one was.
   */
  ghost predicate WaitStopsAfter(clock: nat -> int, k: nat)
  {
    && 1 <= k <= RETRY_COUNT - 1
    && (forall i :: 0 <= i < k - 1 ==> !IsTimeSet(clock(i)))
    && (k < RETRY_COUNT - 1 ==> IsTimeSet(clock(k - 1)))
  }

  lemma WaitStopsAfterUnique(clock: nat -> int, k1: nat, k2: nat)
    requires WaitStopsAfter(clock, k1) && WaitStopsAfter(clock, k2)
    ensures k1 == k2
  {
  }

  function RoundsFrom(clock: nat -> int, i: nat): (k: nat)
    requires 1 <= i <= RETRY_COUNT - 1
    requires forall j :: 0 <= j < i - 1 ==> !IsTimeSet(clock(j))
    ensures i <= k && WaitStopsAfter(clock, k)
    decreases RETRY_COUNT - i
  {
    if i == RETRY_COUNT - 1 || IsTimeSet(clock(i - 1)) then i
    else RoundsFrom(clock, i + 1)
  }

  /** The number of times the wait loop of systime_obtainTime runs its body. */
  function WaitRounds(clock: nat -> int): (k: nat)
    ensures WaitStopsAfter(clock, k)
  {
    RoundsFrom(clock, 1)
  }

  /** An SNTP session of `k` wait rounds: start SNTP, wait and re-read `k` times, stop SNTP. */
  function Session(k: nat): seq<Event>
  {
    [SntpInit] + Repeat(WAIT_ROUND, k) + [SntpStop]
  }

  /** Effects of systime_obtainTime: a session of `WaitRounds` rounds. */
  function ObtainTime(clock: nat -> int): seq<Event>
  {
    Session(WaitRounds(clock))
  }

  /**
   * systime_obtainTime with its loop as written: the guard
   * `!isTimeSet() && ++retry < retry_count` checks the year first and only
   * then increments and tests the counter.
   */
  method ObtainTimeLoop(clock: nat -> int) returns (t: seq<Event>, timeSet: bool)
    ensures t == ObtainTime(clock)
    ensures timeSet == IsTimeSet(clock(WaitRounds(clock) - 1))
  {
    t := [SntpInit];
    var retry: nat := 0;
    var tmYear := 0;    // the zero-initialised struct tm
    var rounds: nat := 0;
    while true
      invariant rounds == retry <= RETRY_COUNT - 1
      invariant t == [SntpInit] + Repeat(WAIT_ROUND, rounds)
      invariant rounds == 0 ==> tmYear == 0
      invariant rounds > 0 ==> tmYear == clock(rounds - 1)
      invariant forall j :: 0 <= j < rounds - 1 ==> !IsTimeSet(clock(j))
      decreases RETRY_COUNT - retry
    {
      if IsTimeSet(tmYear) {
        break;
      }
      retry := retry + 1;
      if retry >= RETRY_COUNT {
        break;
      }
      t := t + WAIT_ROUND;
      tmYear := clock(retry - 1);
      rounds := rounds + 1;
    }
    WaitStopsAfterUnique(clock, rounds, WaitRounds(clock));
    t := t + [SntpStop];
    timeSet := IsTimeSet(tmYear);
  }

  lemma WaitRoundFilters()
    ensures Filter(WAIT_ROUND, CLOCK_READS) == [ReadClock]
    ensures TotalDelay(WAIT_ROUND) == SNTP_WAIT_MS
  {
    assert WAIT_ROUND == [Delay(SNTP_WAIT_MS)] + [ReadClock];
    FilterAppend([Delay(SNTP_WAIT_MS)], [ReadClock], CLOCK_READS);
    FilterSingle(Delay(SNTP_WAIT_MS), CLOCK_READS);
    FilterSingle(ReadClock, CLOCK_READS);
    TotalDelayAppend([Delay(SNTP_WAIT_MS)], [ReadClock]);
    assert TotalDelay([ReadClock]) == 0;
  }

  /** The kinds of event one wait round produces. */
  const ROUND_KINDS: set<Kind> := {DelayKind(SNTP_WAIT_MS), ReadClockKind}

  lemma RoundsKinds(k: nat)
    ensures AllOf(Repeat(WAIT_ROUND, k), ROUND_KINDS)
  {
    RepeatMembers(WAIT_ROUND, k);
  }

  lemma RoundsApart()
    ensures ROUND_KINDS !! SNTP_INITS && ROUND_KINDS !! SNTP_STOPS
  {
  }

  lemma SessionStarts(k: nat)
    ensures Filter(Session(k), SNTP_INITS) == [SntpInit]
  {
    var rounds := Repeat(WAIT_ROUND, k);
    RoundsKinds(k);
    RoundsApart();
    FilterNoneOf(rounds, ROUND_KINDS, SNTP_INITS);
    FilterSingle(SntpStop, SNTP_INITS);
    FilterOnlyFirstOfThree([SntpInit], rounds, [SntpStop], SNTP_INITS);
    FilterSingle(SntpInit, SNTP_INITS);
  }

  lemma SessionStops(k: nat)
    ensures Filter(Session(k), SNTP_STOPS) == [SntpStop]
  {
    var rounds := Repeat(WAIT_ROUND, k);
    RoundsKinds(k);
    RoundsApart();
    FilterNoneOf(rounds, ROUND_KINDS, SNTP_STOPS);
    FilterSingle(SntpInit, SNTP_STOPS);
    FilterOnlyThirdOfThree([SntpInit], rounds, [SntpStop], SNTP_STOPS);
    FilterSingle(SntpStop, SNTP_STOPS);
  }

  /** A session re-reads the clock once per round. */
  lemma SessionReads(k: nat)
    ensures Count(Session(k), CLOCK_READS) == k
  {
    var rounds := Repeat(WAIT_ROUND, k);
    WaitRoundFilters();
    RepeatFilter(WAIT_ROUND, k, CLOCK_READS);
    RepeatLength([ReadClock], k);
    FilterSingle(SntpInit, CLOCK_READS);
    FilterSingle(SntpStop, CLOCK_READS);
    FilterOnlySecondOfThree([SntpInit], rounds, [SntpStop], CLOCK_READS);
  }

  /** A session waits two seconds per round. */
  lemma SessionDelay(k: nat)
    ensures TotalDelay(Session(k)) == SNTP_WAIT_MS * k
  {
    var rounds := Repeat(WAIT_ROUND, k);
    WaitRoundFilters();
    TotalDelayAppend([SntpInit] + rounds, [SntpStop]);
    TotalDelayAppend([SntpInit], rounds);
    RepeatTotalDelay(WAIT_ROUND, k);
    assert TotalDelay([SntpInit]) == 0 && TotalDelay([SntpStop]) == 0;
  }

  lemma ObtainTimeStartStop(clock: nat -> int)
    ensures Filter(ObtainTime(clock), SNTP_INITS) == [SntpInit]
    ensures Filter(ObtainTime(clock), SNTP_STOPS) == [SntpStop]
  {
    SessionStarts(WaitRounds(clock));
    SessionStops(WaitRounds(clock));
  }

  lemma ObtainTimeReads(clock: nat -> int)
    ensures Count(ObtainTime(clock), CLOCK_READS) == WaitRounds(clock)
  {
    SessionReads(WaitRounds(clock));
  }

  lemma ObtainTimeDelay(clock: nat -> int)
    ensures TotalDelay(ObtainTime(clock)) == SNTP_WAIT_MS * WaitRounds(clock)
  {
    SessionDelay(WaitRounds(clock));
  }

  /**
   * systime_obtainTime starts SNTP once, first, and stops it once, last,
   * whether or not the time was obtained; in between it re-reads the clock
   * 1 to 9 times, two seconds before each, and stops early only on a
   * plausible year.
   */
  lemma ObtainTimeBounded(clock: nat -> int)
    ensures var t := ObtainTime(clock);
      && t[0] == SntpInit && t[|t| - 1] == SntpStop
      && Filter(t, SNTP_INITS) == [SntpInit] && Filter(t, SNTP_STOPS) == [SntpStop]
      && 1 <= Count(t, CLOCK_READS) <= RETRY_COUNT - 1
      && TotalDelay(t) == SNTP_WAIT_MS * Count(t, CLOCK_READS)
      && (forall i :: 0 <= i < Count(t, CLOCK_READS) - 1 ==> !IsTimeSet(clock(i)))
      && (Count(t, CLOCK_READS) < RETRY_COUNT - 1 ==> IsTimeSet(clock(Count(t, CLOCK_READS) - 1)))
  {
    ObtainTimeStartStop(clock);
    ObtainTimeReads(clock);
    ObtainTimeDelay(clock);
  }

  /** The NTP wait only starts and stops SNTP, waits and re-reads the clock. */
  lemma SessionKinds(k: nat)
    ensures AllOf(Session(k), SYNC_KINDS)
  {
    RoundsKinds(k);
    AllOfWiden(Repeat(WAIT_ROUND, k), ROUND_KINDS, SYNC_KINDS);
    AllOfAppend([SntpInit], Repeat(WAIT_ROUND, k), SYNC_KINDS);
    AllOfAppend([SntpInit] + Repeat(WAIT_ROUND, k), [SntpStop], SYNC_KINDS);
  }

  /** The part of systime_setup that runs only on an implausible year: the wait, then a fresh time(&now). */
  function SyncIfUnset(initialTmYear: int, clock: nat -> int): seq<Event>
  {
    if IsTimeSet(initialTmYear) then [] else ObtainTime(clock) + [ReadClock]
  }

  lemma SyncIfUnsetKinds(initialTmYear: int, clock: nat -> int)
    ensures AllOf(SyncIfUnset(initialTmYear, clock), SYNC_KINDS)
  {
    if !IsTimeSet(initialTmYear) {
      SessionKinds(WaitRounds(clock));
      AllOfAppend(ObtainTime(clock), [ReadClock], SYNC_KINDS);
    }
  }

  /**
   * Effects of systime_setup for the tm_year of the first clock read: the
   * NTP wait only when that year is implausible, followed by another
   * read of the clock; the time zone is set in every case.
   */
  function SystemTimeSetup(initialTmYear: int, clock: nat -> int): (t: seq<Event>)
    ensures |t| >= 2 && t[0] == ReadClock && t[|t| - 1] == SetTimezone(TIMEZONE)
  {
    [ReadClock] + SyncIfUnset(initialTmYear, clock) + [SetTimezone(TIMEZONE)]
  }

  lemma SystemTimeSetupFilter(initialTmYear: int, clock: nat -> int, keep: set<Kind>)
    requires ReadClockKind !in keep && SetTimezoneKind !in keep
    ensures Filter(SystemTimeSetup(initialTmYear, clock), keep) == Filter(SyncIfUnset(initialTmYear, clock), keep)
  {
    var middle := SyncIfUnset(initialTmYear, clock);
    FilterSingle(ReadClock, keep);
    FilterSingle(SetTimezone(TIMEZONE), keep);
    FilterOnlySecondOfThree([ReadClock], middle, [SetTimezone(TIMEZONE)], keep);
  }

  lemma SyncIfUnsetStartStop(initialTmYear: int, clock: nat -> int)
    ensures Filter(SyncIfUnset(initialTmYear, clock), SNTP_INITS) == (if IsTimeSet(initialTmYear) then [] else [SntpInit])
    ensures Filter(SyncIfUnset(initialTmYear, clock), SNTP_STOPS) == (if IsTimeSet(initialTmYear) then [] else [SntpStop])
  {
    if !IsTimeSet(initialTmYear) {
      ObtainTimeStartStop(clock);
      FilterAppend(ObtainTime(clock), [ReadClock], SNTP_INITS);
      FilterSingle(ReadClock, SNTP_INITS);
      FilterAppend(ObtainTime(clock), [ReadClock], SNTP_STOPS);
      FilterSingle(ReadClock, SNTP_STOPS);
    }
  }

  /**
   * systime_setup starts SNTP iff the clock was not yet set, and stops it
   * again whenever it started it.
   */
  lemma SystemTimeSetupSyncs(initialTmYear: int, clock: nat -> int)
    ensures var t := SystemTimeSetup(initialTmYear, clock);
      && Filter(t, SNTP_INITS) == (if IsTimeSet(initialTmYear) then [] else [SntpInit])
      && Filter(t, SNTP_STOPS) == (if IsTimeSet(initialTmYear) then [] else [SntpStop])
  {
    SystemTimeSetupFilter(initialTmYear, clock, SNTP_INITS);
    SystemTimeSetupFilter(initialTmYear, clock, SNTP_STOPS);
    SyncIfUnsetStartStop(initialTmYear, clock);
  }

  /** The NTP wait never touches the time zone. */
  lemma SyncApart()
    ensures SYNC_KINDS !! TIMEZONE_SETS
  {
  }

  /** Around a middle part that never touches the time zone, only the final step sets it. */
  lemma TimezoneLast(middle: seq<Event>, tz: string)
    requires AllOf(middle, SYNC_KINDS)
    ensures Filter([ReadClock] + middle + [SetTimezone(tz)], TIMEZONE_SETS) == [SetTimezone(tz)]
  {
    SyncApart();
    FilterNoneOf(middle, SYNC_KINDS, TIMEZONE_SETS);
    FilterSingle(ReadClock, TIMEZONE_SETS);
    FilterOnlyThirdOfThree([ReadClock], middle, [SetTimezone(tz)], TIMEZONE_SETS);
    FilterSingle(SetTimezone(tz), TIMEZONE_SETS);
  }

  /** systime_setup sets the time zone exactly once, as its last step, whatever the clock said. */
  lemma SystemTimeSetupTimezone(initialTmYear: int, clock: nat -> int)
    ensures Filter(SystemTimeSetup(initialTmYear, clock), TIMEZONE_SETS) == [SetTimezone(TIMEZONE)]
  {
    SyncIfUnsetKinds(initialTmYear, clock);
    TimezoneLast(SyncIfUnset(initialTmYear, clock), TIMEZONE);
  }
}
