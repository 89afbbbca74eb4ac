/** Local days and the two staleness tests of the live overlay. */
module Calendar {
  import opened Common

  ghost predicate Increasing(starts: int -> int) {
    forall d, e :: d < e ==> starts(d) < starts(e)
  }

  /** When each local day starts, as an instant; time zone rules appear here only as strictly increasing starts. */
  type DayStarts = starts: int -> int | Increasing(starts) witness ((d: int) => d)

  function DayUp(starts: DayStarts, t: int, d: int): (r: int)
    requires starts(d) <= t
    ensures starts(r) <= t < starts(r + 1)
    decreases t - starts(d)
  {
    if t < starts(d + 1) then d else DayUp(starts, t, d + 1)
  }

  function DayDown(starts: DayStarts, t: int, d: int): (r: int)
    requires t < starts(d)
    ensures starts(r) <= t < starts(r + 1)
    decreases starts(d) - t
  {
    if starts(d - 1) <= t then d - 1 else DayDown(starts, t, d - 1)
  }

  /** The local date of an instant. */
  function DateOf(starts: DayStarts, t: int): (r: int)
    ensures starts(r) <= t < starts(r + 1)
  {
    if starts(0) <= t then DayUp(starts, t, 0) else DayDown(starts, t, 0)
  }

  /** The local midnight at or before an instant. */
  function Midnight(starts: DayStarts, t: int): int {
    starts(DateOf(starts, t))
  }

  /** The wall clock and the two zones the overlay reads dates in. */
  datatype Clock = Clock(now: int, chicago: DayStarts, denver: DayStarts)

  const CONTINUOUS_MARK_MAX_AGE := 3600

  /** The account's newest settled snapshot is dated after the capture's Chicago day. */
  predicate IsOverlaySuperseded(fetchedAt: Option<int>, asOf: Option<int>, clock: Clock) {
    fetchedAt.Some? && asOf.Some? && asOf.value > DateOf(clock.chicago, fetchedAt.value)
  }

  /** The set-based form: the instant before which a capture is superseded. */
  function SupersededCutoff(asOf: int, clock: Clock): int {
    clock.chicago(asOf)
  }

  predicate IsLiveStale(liveAt: Option<int>, settledAt: Option<int>, clock: Clock) {
    && liveAt.Some? && settledAt.Some?
    && liveAt.value < Midnight(clock.denver, clock.now)
    && settledAt.value > Midnight(clock.denver, liveAt.value)
  }

  predicate IsContinuous(secType: Option<string>) {
    secType == Some("FUT") || secType == Some("FOP")
  }

  function MarkIfFresh(mark: Option<real>, marketTs: Option<int>, secType: Option<string>, clock: Clock): Option<real> {
    if mark.None? || marketTs.None? || !IsContinuous(secType) then mark
    else if clock.now - marketTs.value > CONTINUOUS_MARK_MAX_AGE then None
    else mark
  }

  /** An instant has one date: the day whose start is at or before it and whose successor's start is after it. */
  lemma DateIsUnique(starts: DayStarts, t: int, d: int)
    requires starts(d) <= t < starts(d + 1)
    ensures DateOf(starts, t) == d
  {
    var r := DateOf(starts, t);
    assert r < d ==> starts(r + 1) <= starts(d);
    assert d < r ==> starts(d + 1) <= starts(r);
  }

  /** The per-row date test and the instant cutoff pick the same captures. */
  lemma CutoffIsTheDateTest(fetchedAt: int, asOf: int, clock: Clock)
    ensures IsOverlaySuperseded(Some(fetchedAt), Some(asOf), clock) <==> fetchedAt < SupersededCutoff(asOf, clock)
  {
    var day := DateOf(clock.chicago, fetchedAt);
    assert asOf <= day ==> clock.chicago(asOf) <= clock.chicago(day);
    assert day < asOf ==> clock.chicago(day + 1) <= clock.chicago(asOf);
  }

  /** A capture is stale exactly when its Denver day is before today and the import postdates that day's start. */
  lemma StaleMeansPriorDay(liveAt: int, settledAt: int, clock: Clock)
    ensures IsLiveStale(Some(liveAt), Some(settledAt), clock) <==>
      DateOf(clock.denver, liveAt) < DateOf(clock.denver, clock.now) && settledAt > Midnight(clock.denver, liveAt)
  {
    var starts, day, today := clock.denver, DateOf(clock.denver, liveAt), DateOf(clock.denver, clock.now);
    assert day < today ==> starts(day + 1) <= starts(today);
    assert today <= day ==> starts(today) <= starts(day);
  }
}
