/**
 * The cache countdown shown in the page corner: the seconds left until the
 * 300-second cache window ends, counted down once a second and shown as m:ss.
 * The timestamp endpoint and the clock are inputs.
 */
module CacheTimer {
  import opened Optional
  import opened Decimal

  /** The cache window, in seconds. */
  const WindowSeconds: nat := 300

  /** The answer of the timestamp endpoint: the cache's write instant in milliseconds, or a failure. */
  datatype TimestampFetch = Fetched(timestamp: int) | FetchFailed

  /** `Math.floor((now - timestamp) / 1000)`: with a positive divisor, `/` rounds down. */
  function ElapsedSeconds(now: int, timestamp: int): int {
    (now - timestamp) / 1000
  }

  /**
   * `fetchTimestamp()`: the whole seconds left in the window, never negative;
   * the full window when the endpoint could not be read.
   */
  function RemainingSeconds(now: int, fetch: TimestampFetch): (r: nat)
    ensures fetch.FetchFailed? ==> r == WindowSeconds
    ensures fetch.Fetched? ==> (r == 0 <==> now - fetch.timestamp >= WindowSeconds * 1000)
    ensures fetch.Fetched? && r > 0 ==>
              fetch.timestamp + (WindowSeconds - r) * 1000 <= now < fetch.timestamp + (WindowSeconds - r + 1) * 1000
    ensures fetch.Fetched? && now >= fetch.timestamp ==> r <= WindowSeconds
  {
    match fetch
    case FetchFailed => WindowSeconds
    case Fetched(timestamp) =>
      var left := WindowSeconds - ElapsedSeconds(now, timestamp);
      if left > 0 then left else 0
  }

  /** `Math.floor(t / 60)` and `t % 60` for a non-negative `t`. */
  function MinutesSeconds(t: nat): (ms: (nat, nat))
    ensures ms.0 * 60 + ms.1 == t && ms.1 < 60
  {
    (t / 60, t % 60)
  }

  /** `s.toString().padStart(2, '0')` for `s < 60`. */
  function TwoDigits(s: nat): (r: string)
    requires s < 60
    ensures |r| == 2 && AllDigits(r) && DigitsValue(r) == s
  {
    var d := NatToString(s);
    NatToStringValue(s);
    if s < 10 then
      assert d == [Digit(s)];
      "0" + d
    else
      assert d == NatToString(s / 10) + [Digit(s % 10)];
      assert NatToString(s / 10) == [Digit(s / 10)];
      d
  }

  /** `${minutes}:${seconds.padStart(2, '0')}` */
  function Clock(t: nat): (r: string)
    ensures ParseClock(r) == Some(t)
  {
    var ms := MinutesSeconds(t);
    var minutes := NatToString(ms.0);
    var seconds := TwoDigits(ms.1);
    NatToStringValue(ms.0);
    var r := minutes + ":" + seconds;
    assert r[..|r| - 3] == minutes && r[|r| - 2..] == seconds;
    r
  }

  /** Reads "m:ss" back into seconds: digits, a colon, two digits below 60. */
  function ParseClock(text: string): Option<nat> {
    var n := |text|;
    if n >= 4 && text[n - 3] == ':' && AllDigits(text[..n - 3]) && AllDigits(text[n - 2..])
       && DigitsValue(text[n - 2..]) < 60
    then Some(DigitsValue(text[..n - 3]) * 60 + DigitsValue(text[n - 2..]))
    else None
  }

  /** The component's `timeLeft` state. */
  class Countdown {
    var timeLeft: int

    ghost predicate Valid()
      reads this
    {
      timeLeft >= 0
    }

    /** `useState<number>(0)` */
    constructor ()
      ensures Valid() && timeLeft == 0
    {
      timeLeft := 0;
    }

    /** `fetchTimestamp().then(setTimeLeft)` */
    method Refresh(now: int, fetch: TimestampFetch)
      modifies this
      ensures Valid() && timeLeft == RemainingSeconds(now, fetch)
    {
      timeLeft := RemainingSeconds(now, fetch);
    }

    /**
     * The one-second tick: count down, or, once nothing is left, stay at 0 and
     * ask for a fresh timestamp.
     */
    method Tick() returns (refetch: bool)
      modifies this
      ensures old(timeLeft) > 0 ==> timeLeft == old(timeLeft) - 1 && !refetch
      ensures old(timeLeft) <= 0 ==> timeLeft == 0 && refetch
      ensures Valid()
    {
      if timeLeft <= 0 {
        refetch := true;
        timeLeft := 0;
      } else {
        refetch := false;
        timeLeft := timeLeft - 1;
      }
    }

    /** The rendered text. */
    function Display(): (r: string)
      reads this
      requires Valid()
      ensures ParseClock(r) == Some(timeLeft)
    {
      Clock(timeLeft)
    }
  }
}
