/**
 * The countdown overlay: whole seconds left until the target instant,
 * their hours/minutes/seconds display with two-digit padding, the
 * once-only completion latch of the per-second tick, and the flip-digit
 * state machine each displayed character runs.
 */
module Countdown {
  import opened Geometry

  // ------------------------------------------------------------ the target

  /** Days from 1970-01-01 to the proleptic Gregorian date `year-month-day` (month 1..12). */
  function DaysFromCivil(year: nat, month: nat, day: nat): int
    requires 1 <= year && 1 <= month <= 12
  {
    var y := if month <= 2 then year - 1 else year;
    var era := y / 400;
    var yoe := y - era * 400;
    var mp := if month > 2 then month - 3 else month + 9;
    var doy := (153 * mp + 2) / 5 + day - 1;
    var doe := yoe * 365 + yoe / 4 - yoe / 100 + doy;
    era * 146097 + doe - 719468
  }

  /** `Date.UTC(year, monthIndex, day, hours, minutes, seconds)`, month counted from 0. */
  function UtcMs(year: nat, monthIndex: nat, day: nat, hours: nat, minutes: nat, seconds: nat): int
    requires 1 <= year && monthIndex < 12
  {
    DaysFromCivil(year, monthIndex + 1, day) * 86_400_000 + hours * 3_600_000 + minutes * 60_000 + seconds * 1000
  }

  /** 2025-12-24 14:40:00 UTC (22:40 in Beijing), in milliseconds since the epoch. */
  const TargetTimeMs: int := 1_766_587_200_000

  lemma TargetIsChristmasEve()
    ensures TargetTimeMs == UtcMs(2025, 11, 24, 14, 40, 0)
    ensures DaysFromCivil(1970, 1, 1) == 0
  {
  }

  /**
   * `getRemainingSeconds`: `Math.max(0, Math.floor((target - now) / 1000))`.
   * The divisor is positive, so Dafny's Euclidean `/` is the floor.
   * Before the target the result counts the whole seconds left; from one
   * second before the target on it is 0.
   */
  function RemainingSeconds(now: int): (r: nat)
    ensures now < TargetTimeMs ==> r * 1000 <= TargetTimeMs - now < r * 1000 + 1000
    ensures r == 0 <==> now > TargetTimeMs - 1000
  {
    var q := (TargetTimeMs - now) / 1000;
    if q >= 0 then q else 0
  }

  /** As the clock advances the remaining count never goes up. */
  lemma {:induction false} RemainingNonIncreasing(earlier: int, later: int)
    requires earlier <= later
    ensures RemainingSeconds(later) <= RemainingSeconds(earlier)
  {
    assert (TargetTimeMs - later) / 1000 <= (TargetTimeMs - earlier) / 1000;
  }

  // --------------------------------------------------------------- digits

  predicate IsDigit(c: char) {
    '0' <= c <= '9'
  }

  predicate IsDigits(s: string) {
    forall i :: 0 <= i < |s| ==> IsDigit(s[i])
  }

  function DigitChar(d: nat): (c: char)
    requires d < 10
    ensures IsDigit(c)
  {
    ('0' as int + d) as char
  }

  function DigitValue(c: char): (d: nat)
    requires IsDigit(c)
    ensures d < 10 && DigitChar(d) == c
  {
    (c as int - '0' as int)
  }

  /** `String(n)` for a whole number: its decimal digits without leading zeros. */
  function Decimal(n: nat): (s: string)
    ensures 1 <= |s| && IsDigits(s)
    ensures n < 10 <==> |s| == 1
    ensures 10 <= n < 100 ==> |s| == 2
    ensures n >= 10 ==> s[0] != '0'
  {
    if n < 10 then [DigitChar(n)] else Decimal(n / 10) + [DigitChar(n % 10)]
  }

  /** The value of a string of decimal digits, the inverse of `Decimal`. */
  function ParseDecimal(s: string): nat
    requires IsDigits(s)
    decreases |s|
  {
    if s == [] then 0 else ParseDecimal(s[..|s| - 1]) * 10 + DigitValue(s[|s| - 1])
  }

  lemma {:induction false} DecimalRoundTrip(n: nat)
    ensures ParseDecimal(Decimal(n)) == n
  {
    var s := Decimal(n);
    if n >= 10 {
      DecimalRoundTrip(n / 10);
      assert s[..|s| - 1] == Decimal(n / 10);
    } else {
      assert s[..|s| - 1] == [];
    }
  }

  /** `s.padStart(width, fill)` with a one-character fill. */
  function PadStart(s: string, width: nat, fill: char): (r: string)
    ensures |r| == if |s| >= width then |s| else width
    ensures r[|r| - |s|..] == s
    ensures forall i :: 0 <= i < |r| - |s| ==> r[i] == fill
  {
    if |s| >= width then s else seq(width - |s|, _ => fill) + s
  }

  /**
   * `padTwo` (and `String(hours).padStart(2, '0')`): at least two digits,
   * exactly two below 100, a leading '0' below 10, and the value reads back.
   */
  function PadTwo(v: nat): (r: string)
    ensures |r| >= 2 && IsDigits(r)
    ensures v < 100 ==> |r| == 2
    ensures v < 10 ==> r == ['0', DigitChar(v)]
    ensures 10 <= v < 100 ==> r == [DigitChar(v / 10), DigitChar(v % 10)]
    ensures ParseDecimal(r) == v
  {
    var r := PadStart(Decimal(v), 2, '0');
    if v < 10 then
      PadOneDigit(v);
      r
    else
      PadSeveralDigits(v);
      r
  }

  /** From 10 on the decimal string is already two digits or more and is left as it is. */
  lemma {:induction false} PadSeveralDigits(v: nat)
    requires 10 <= v
    ensures PadStart(Decimal(v), 2, '0') == Decimal(v) && |Decimal(v)| >= 2
    ensures ParseDecimal(Decimal(v)) == v
    ensures v < 100 ==> Decimal(v) == [DigitChar(v / 10), DigitChar(v % 10)]
  {
    DecimalRoundTrip(v);
    if v < 100 {
      assert Decimal(v / 10) == [DigitChar(v / 10)];
    }
  }

  /** Below 10 the padding adds a single '0', which reads back as nothing. */
  lemma {:induction false} PadOneDigit(v: nat)
    requires v < 10
    ensures PadStart(Decimal(v), 2, '0') == ['0', DigitChar(v)]
    ensures IsDigits(['0', DigitChar(v)]) && ParseDecimal(['0', DigitChar(v)]) == v
  {
    var r := ['0', DigitChar(v)];
    assert IsDigit(r[0]) && IsDigit(r[1]);
    assert r[..1] == ['0'];
    assert ['0'][..0] == [];
  }

  // -------------------------------------------------------------- display

  /** Hours, minutes and seconds of a second count. */
  datatype Clock = Clock(hours: nat, minutes: nat, seconds: nat)

  function Decompose(secondsLeft: nat): (c: Clock)
    ensures c.hours * 3600 + c.minutes * 60 + c.seconds == secondsLeft
    ensures c.minutes < 60 && c.seconds < 60
  {
    var rest := secondsLeft % 3600;
    assert rest % 60 == secondsLeft % 60 by {
      assert secondsLeft == (secondsLeft / 3600 * 60 + rest / 60) * 60 + rest % 60;
    }
    Clock(secondsLeft / 3600, rest / 60, secondsLeft % 60)
  }

  datatype Display = Display(hours: string, minutes: string, seconds: string)

  /**
   * The `display` memo: the three padded fields. Minutes and seconds are
   * exactly two digits, hours at least two, and reading the fields back
   * gives the second count.
   */
  function DisplayOf(secondsLeft: nat): (d: Display)
    ensures |d.hours| >= 2 && |d.minutes| == 2 && |d.seconds| == 2
    ensures IsDigits(d.hours) && IsDigits(d.minutes) && IsDigits(d.seconds)
    ensures ParseDecimal(d.hours) * 3600 + ParseDecimal(d.minutes) * 60 + ParseDecimal(d.seconds) == secondsLeft
  {
    var c := Decompose(secondsLeft);
    Display(PadTwo(c.hours), PadTwo(c.minutes), PadTwo(c.seconds))
  }

  /**
   * The values of the flip digits, left to right: one per hour character,
   * then the two minute and the two second characters.
   */
  function FaceValues(d: Display): (faces: seq<string>)
    requires |d.minutes| == 2 && |d.seconds| == 2
    ensures |faces| == |d.hours| + 4
    ensures forall i :: 0 <= i < |faces| ==> |faces[i]| == 1
    ensures forall i :: 0 <= i < |d.hours| ==> faces[i] == [d.hours[i]]
    ensures faces[|d.hours|..] == [[d.minutes[0]], [d.minutes[1]], [d.seconds[0]], [d.seconds[1]]]
  {
    seq(|d.hours|, i requires 0 <= i < |d.hours| => [d.hours[i]])
      + [[d.minutes[0]], [d.minutes[1]], [d.seconds[0]], [d.seconds[1]]]
  }

  // -------------------------------------------------------- the latch

  /**
   * How many times `onComplete` fires over a run of ticks at the instants
   * `nows`, starting with the latch in state `done`.
   */
  function Completions(done: bool, nows: seq<int>): nat
    decreases |nows|
  {
    if nows == [] then 0
    else
      var fires := RemainingSeconds(nows[0]) == 0 && !done;
      (if fires then 1 else 0) + Completions(done || RemainingSeconds(nows[0]) == 0, nows[1..])
  }

  /**
   * `onComplete` fires at most once, never once the latch is set, and
   * exactly once from an unset latch if some tick sees 0 seconds left.
   */
  lemma {:induction false} CompletesAtMostOnce(done: bool, nows: seq<int>)
    ensures Completions(done, nows) <= 1
    ensures done ==> Completions(done, nows) == 0
    ensures !done ==> (Completions(done, nows) == 1 <==> exists i :: 0 <= i < |nows| && RemainingSeconds(nows[i]) == 0)
    decreases |nows|
  {
    if nows != [] {
      var zero := RemainingSeconds(nows[0]) == 0;
      CompletesAtMostOnce(done || zero, nows[1..]);
      if !done && !zero {
        if Completions(done, nows) == 1 {
          var i :| 0 <= i < |nows[1..]| && RemainingSeconds(nows[1..][i]) == 0;
          assert RemainingSeconds(nows[i + 1]) == 0;
        }
        if exists i :: 0 <= i < |nows| && RemainingSeconds(nows[i]) == 0 {
          var i :| 0 <= i < |nows| && RemainingSeconds(nows[i]) == 0;
          assert i > 0 && RemainingSeconds(nows[1..][i - 1]) == 0;
        }
      }
    }
  }

  /** `CountdownOverlay`'s state: the second count on display and `doneRef`. */
  class Overlay {
    var secondsLeft: nat
    var done: bool
    /** How many times `onComplete` has been called. */
    ghost var completions: nat

    ghost predicate Valid()
      reads this
    {
      completions == if done then 1 else 0
    }

    /** Mounting at instant `now`: the initial state value, the latch unset. */
    constructor (now: int)
      ensures Valid()
      ensures secondsLeft == RemainingSeconds(now) && !done && completions == 0
    {
      secondsLeft := RemainingSeconds(now);
      done := false;
      completions := 0;
    }

    /** `tick` at instant `now`; `fired` says whether `onComplete` was called. */
    method Tick(now: int) returns (fired: bool)
      requires Valid()
      modifies this
      ensures Valid() && completions <= 1
      ensures secondsLeft == RemainingSeconds(now)
      ensures fired <==> secondsLeft == 0 && !old(done)
      ensures done == (old(done) || secondsLeft == 0)
      ensures completions == old(completions) + (if fired then 1 else 0)
    {
      var next := RemainingSeconds(now);
      secondsLeft := next;
      fired := false;
      if next == 0 && !done {
        done := true;
        fired := true;
        completions := completions + 1;
      }
    }
  }

  // -------------------------------------------------------- the flip digit

  /**
   * `FlipDigit`: the two faces, the flip counter, `currentRef`,
   * `mountedRef`, and the value the pending flip timer will copy to the
   * front face (None when no timer is pending).
   */
  class FlipDigit {
    var current: string
    var previous: string
    var flipToken: nat
    var currentRef: string
    var mounted: bool
    var timer: Option<string>

    ghost predicate Valid()
      reads this
    {
      && currentRef == current
      && (timer.Some? ==> mounted && timer.value == current)
    }

    /** The first render with `value`: both faces show it, no flip yet. */
    constructor (value: string)
      ensures Valid() && !mounted && timer.None?
      ensures current == value && previous == value && flipToken == 0
    {
      current, previous, flipToken := value, value, 0;
      currentRef := value;
      mounted := false;
      timer := None;
    }

    /**
     * The `[value]` effect. Its first run only records the value. Later
     * runs ignore an unchanged value; a new one moves the old value to the
     * front face, shows the new one on the back, counts one flip and
     * (re)starts the timer.
     */
    method ValueEffect(value: string)
      requires Valid()
      modifies this
      ensures Valid() && mounted
      ensures !old(mounted) ==> current == value && previous == value && flipToken == old(flipToken) && timer == old(timer)
      ensures old(mounted) && value == old(current) ==>
                current == old(current) && previous == old(previous) && flipToken == old(flipToken) && timer == old(timer)
      ensures old(mounted) && value != old(current) ==>
                current == value && previous == old(current) && flipToken == old(flipToken) + 1 && timer == Some(value)
      ensures old(mounted) && value != old(current) ==> Flipping()
      ensures old(Flipping()) ==> Flipping()
    {
      if !mounted {
        mounted := true;
        current := value;
        previous := value;
        currentRef := value;
        return;
      }
      if value == currentRef {
        return;
      }
      previous := currentRef;
      current := value;
      currentRef := value;
      flipToken := flipToken + 1;
      timer := Some(value);
    }

    /** The flip timer fires: the front face catches up with the back face. */
    method TimerFired()
      requires Valid()
      modifies this
      ensures Valid() && timer.None?
      ensures old(timer).Some? ==> previous == current
      ensures old(timer).None? ==> previous == old(previous)
      ensures current == old(current) && flipToken == old(flipToken)
      ensures Flipping() == old(Flipping())
    {
      if timer.Some? {
        previous := timer.value;
        timer := None;
      }
    }

    /** Unmounting clears the pending timer. */
    method Unmount()
      requires Valid()
      modifies this
      ensures Valid() && timer.None?
      ensures current == old(current) && previous == old(previous) && flipToken == old(flipToken)
      ensures Flipping() == old(Flipping())
    {
      timer := None;
    }

    /**
     * The card carries the `is-flipping` class once it has flipped at least
     * once. No transition removes it again: the animation replays only
     * because each flip changes the card's `key` and so remounts it.
     */
    function Flipping(): (b: bool)
      reads this
      ensures b <==> flipToken > 0
    {
      flipToken > 0
    }
  }
}
