/**
  The `stats` record that static/dist/app.js and static/app.ts keep (both
  declare it identically) and the figures the pages derive from it: the CPU
  load proxy, interrupts per second, the average response time and the
  `HH:MM:SS` uptime.  Times are integer milliseconds from `Date.now()`.
 */
module DashboardStats {
  import opened Text
  import opened Wrappers
  import opened SeqMath

  /** The three sensors of the page and their fixed priorities (`sensorPriority`). */
  datatype Sensor = Brake | Collision | Speed {
    function Name(): (n: string)
      ensures n in {"Brake", "Collision", "Speed"}
    {
      match this
      case Brake => "Brake"
      case Collision => "Collision"
      case Speed => "Speed"
    }

    function Priority(): (p: nat)
      ensures 5 <= p <= 7
    {
      match this
      case Brake => 7
      case Collision => 6
      case Speed => 5
    }
  }

  /** Distinct sensors have distinct names and distinct priorities. */
  lemma SensorTableInjective(a: Sensor, b: Sensor)
    ensures a.Name() == b.Name() <==> a == b
    ensures a.Priority() == b.Priority() <==> a == b
  {
  }

  /** How the request of `triggerSensor` ended: it threw with a message, or a JSON body came back. */
  datatype Outcome = Thrown(message: string) | Replied(success: bool, endMs: int)

  /** The response time pushed for an outcome: only a decoded reply measures one. */
  function ResponseOf(startMs: int, outcome: Outcome): (r: Option<int>)
    ensures r.Some? <==> outcome.Replied?
    ensures r.Some? ==> r.value + startMs == outcome.endMs
  {
    match outcome
    case Thrown(_) => None
    case Replied(_, endMs) => Some(endMs - startMs)
  }

  class Statistics {
    var startTime: int
    var brakeCounts: nat
    var collisionCounts: nat
    var speedCounts: nat
    var totalEvents: nat
    var totalInterrupts: nat
    var eventTimestamps: seq<int>
    var responseTimes: seq<int>

    /**
      What every update keeps: both totals move together, one timestamp per
      trigger, no more response times than triggers, and the per-sensor
      counters never exceed the total.
     */
    predicate Valid()
      reads this
    {
      && totalEvents == totalInterrupts
      && |eventTimestamps| == totalInterrupts
      && |responseTimes| <= totalInterrupts
      && brakeCounts + collisionCounts + speedCounts <= totalEvents
    }

    /** Every trigger so far named one of the three sensors. */
    predicate Balanced()
      reads this
    {
      brakeCounts + collisionCounts + speedCounts == totalEvents
    }

    /** The initial record, `startTime: Date.now()` and everything else empty. */
    constructor(nowMs: int)
      ensures startTime == nowMs && Zeroed()
      ensures Valid() && Balanced()
    {
      startTime := nowMs;
      brakeCounts, collisionCounts, speedCounts := 0, 0, 0;
      totalEvents, totalInterrupts := 0, 0;
      eventTimestamps, responseTimes := [], [];
    }

    predicate Zeroed()
      reads this
    {
      && brakeCounts == 0 && collisionCounts == 0 && speedCounts == 0
      && totalEvents == 0 && totalInterrupts == 0
      && eventTimestamps == [] && responseTimes == []
    }

    /**
      The bookkeeping of one `triggerSensor(sensorName)`: both totals and the
      sensor's own counter go up before the request; `response` is the
      measured response time when the request and its decoding succeed, and
      `None` when they throw.
     */
    method RecordTrigger(sensorName: string, startMs: int, response: Option<int>)
      requires Valid()
      modifies this
      ensures Valid()
      ensures totalInterrupts == old(totalInterrupts) + 1 && totalEvents == old(totalEvents) + 1
      ensures eventTimestamps == old(eventTimestamps) + [startMs]
      ensures brakeCounts == old(brakeCounts) + (if sensorName == "Brake" then 1 else 0)
      ensures collisionCounts == old(collisionCounts) + (if sensorName == "Collision" then 1 else 0)
      ensures speedCounts == old(speedCounts) + (if sensorName == "Speed" then 1 else 0)
      ensures responseTimes == old(responseTimes) + (if response.Some? then [response.value] else [])
      ensures startTime == old(startTime)
      ensures old(Balanced()) && sensorName in {"Brake", "Collision", "Speed"} ==> Balanced()
    {
      totalInterrupts := totalInterrupts + 1;
      totalEvents := totalEvents + 1;
      eventTimestamps := eventTimestamps + [startMs];
      if sensorName == "Brake" {
        brakeCounts := brakeCounts + 1;
      } else if sensorName == "Collision" {
        collisionCounts := collisionCounts + 1;
      } else if sensorName == "Speed" {
        speedCounts := speedCounts + 1;
      }
      if response.Some? {
        responseTimes := responseTimes + [response.value];
      }
    }

    /** The statistics part of `resetDashboard`: every counter and list emptied and the clock restarted. */
    method Reset(nowMs: int)
      modifies this
      ensures startTime == nowMs && Zeroed()
      ensures Valid() && Balanced()
    {
      brakeCounts, collisionCounts, speedCounts := 0, 0, 0;
      totalEvents, totalInterrupts := 0, 0;
      eventTimestamps, responseTimes := [], [];
      startTime := nowMs;
    }
  }

  // ---------------------------------------------------------------------------
  // Derived figures
  // ---------------------------------------------------------------------------

  /** `Math.round(num / den)` for a non-negative rational: the nearest integer, halves rounded up. */
  function RoundHalfUp(num: nat, den: nat): (q: nat)
    requires den > 0
    ensures 2 * q * den <= 2 * num + den < 2 * (q + 1) * den
    ensures num == 0 ==> q == 0
  {
    assert num == 0 ==> (2 * num + den) / (2 * den) == 0 by {
      if num == 0 {
        DivModUnique(den, 2 * den, 0, den);
      }
    }
    (2 * num + den) / (2 * den)
  }

  /**
    `Math.min(100, Math.round(totalEvents / Math.max(elapsedMs / 1000, 1)))`
    (the `/ 100 * 100` of the source cancels): events per second over at least
    one second, rounded, saturating at 100.
   */
  function CpuLoad(totalEvents: nat, elapsedMs: int): (load: nat)
    ensures load <= 100
    ensures totalEvents == 0 ==> load == 0
    ensures elapsedMs <= 1000 ==> load == if totalEvents < 100 then totalEvents else 100
  {
    var rate := if elapsedMs <= 1000 then totalEvents else RoundHalfUp(1000 * totalEvents, elapsedMs);
    if rate < 100 then rate else 100
  }

  /**
    Below saturation the load is the event rate rounded to the nearest whole
    number: it differs from `1000 * totalEvents / elapsedMs` by at most one half.
   */
  lemma CpuLoadIsNearestRate(totalEvents: nat, elapsedMs: int)
    requires elapsedMs > 1000 && CpuLoad(totalEvents, elapsedMs) < 100
    ensures var load := CpuLoad(totalEvents, elapsedMs);
            (2 * load - 1) * elapsedMs <= 2000 * totalEvents < (2 * load + 1) * elapsedMs
  {
  }

  /** More events over the same time never lower the load. */
  lemma CpuLoadMonotonic(a: nat, b: nat, elapsedMs: int)
    requires a <= b
    ensures CpuLoad(a, elapsedMs) <= CpuLoad(b, elapsedMs)
  {
    if elapsedMs > 1000 {
      RoundHalfUpMonotonic(1000 * a, 1000 * b, elapsedMs);
    }
  }

  lemma RoundHalfUpMonotonic(a: nat, b: nat, den: nat)
    requires a <= b && den > 0
    ensures RoundHalfUp(a, den) <= RoundHalfUp(b, den)
  {
    var qa, qb := RoundHalfUp(a, den), RoundHalfUp(b, den);
    assert qa * (2 * den) < (qb + 1) * (2 * den);
    ProductOrder(qa, qb + 1, 2 * den);
  }

  /** Dividing both sides of `x * d < y * d` by a positive `d`. */
  lemma ProductOrder(x: nat, y: nat, d: nat)
    requires d > 0 && x * d < y * d
    ensures x < y
  {
    if y <= x {
      ProductMonotonic(y, x, d);
    }
  }

  lemma ProductMonotonic(x: nat, y: nat, d: nat)
    requires x <= y
    ensures x * d <= y * d
  {
  }

  /** A JavaScript number that the dashboard divides out: finite, `Infinity` or `NaN`. */
  datatype Rate = Finite(value: real) | PosInfinity | NotANumber

  /**
    `totalInterrupts / ((Date.now() - startTime) / 1000)` of `updateStatistics`,
    which has no guard against a zero elapsed time.
   */
  function InterruptRate(totalInterrupts: nat, elapsedMs: int): (r: Rate)
    ensures elapsedMs == 0 ==> (r == NotANumber <==> totalInterrupts == 0)
    ensures elapsedMs == 0 ==> (r == PosInfinity <==> totalInterrupts > 0)
    ensures elapsedMs != 0 ==> r.Finite? && r.value * (elapsedMs as real) == 1000.0 * (totalInterrupts as real)
  {
    if elapsedMs == 0 then (if totalInterrupts == 0 then NotANumber else PosInfinity)
    else Finite(1000.0 * (totalInterrupts as real) / (elapsedMs as real))
  }

  /** The mean of the response times; `None` when there is none, and then the page leaves the figure as it was. */
  function AverageResponse(times: seq<int>): (r: Option<real>)
    ensures r.None? <==> times == []
    ensures r.Some? ==> r.value * (|times| as real) == Sum(times) as real
  {
    if times == [] then None else Some((Sum(times) as real) / (|times| as real))
  }

  /** The mean lies between the smallest and the largest response time. */
  lemma AverageWithinBounds(times: seq<int>, lo: int, hi: int)
    requires times != []
    requires forall i :: 0 <= i < |times| ==> lo <= times[i] <= hi
    ensures lo as real <= AverageResponse(times).value <= hi as real
  {
    SumBounds(times, lo, hi);
  }

  lemma {:induction false} SumBounds(times: seq<int>, lo: int, hi: int)
    requires forall i :: 0 <= i < |times| ==> lo <= times[i] <= hi
    ensures lo * |times| <= Sum(times) <= hi * |times|
  {
    if times != [] {
      SumBounds(times[..|times| - 1], lo, hi);
    }
  }

  /**
    `pad` of `formatUptime`: `'0' + n` below 10, negative numbers included,
    and `n.toString()` otherwise.
   */
  function Pad(n: int): (s: string)
    ensures |s| >= 2
    ensures n >= 0 ==> AllDigits(s) && ParseDigits(s) == n
    ensures n < 0 ==> s == "0-" + NatToString(-n)
  {
    if n < 10 then
      SmallPad(n);
      "0" + IntToString(n)
    else
      ParseNatToString(n);
      NatToStringLength2(n);
      NatToString(n)
  }

  lemma SmallPad(n: int)
    requires n < 10
    ensures var s := "0" + IntToString(n);
            && |s| >= 2
            && (n >= 0 ==> AllDigits(s) && ParseDigits(s) == n)
            && (n < 0 ==> s == "0-" + NatToString(-n))
  {
    if n >= 0 {
      ParseNatToString(n);
      ParseLeadingZeros(1, NatToString(n));
      assert Repeat('0', 1) == "0";
    }
  }

  lemma NatToStringLength2(n: nat)
    requires n >= 10
    ensures |NatToString(n)| >= 2
  {
    NatToStringSnoc(n);
  }

  /** `${pad(hours)}:${pad(minutes)}:${pad(seconds)}`. */
  function Clock(h: int, m: int, s: int): (r: string)
    ensures |r| >= 8
    ensures 0 <= m < 60 && 0 <= s < 60 ==> r[|r| - 6] == ':' && r[|r| - 3] == ':'
  {
    TwoDigitPad(m);
    TwoDigitPad(s);
    Pad(h) + ":" + Pad(m) + ":" + Pad(s)
  }

  /**
    `r` is a clock text `H:MM:SS` whose three fields read back as the
    numbers `h`, `m` and `s`.
   */
  predicate ReadsAsClock(r: string, h: nat, m: nat, s: nat) {
    && |r| >= 8 && r[|r| - 6] == ':' && r[|r| - 3] == ':'
    && AllDigits(r[..|r| - 6]) && AllDigits(r[|r| - 5..|r| - 3]) && AllDigits(r[|r| - 2..])
    && ParseDigits(r[..|r| - 6]) == h && ParseDigits(r[|r| - 5..|r| - 3]) == m
    && ParseDigits(r[|r| - 2..]) == s
  }

  /** The clock text splits back into its three fields. */
  lemma ClockDecodes(h: nat, m: nat, s: nat)
    requires m < 60 && s < 60
    ensures ReadsAsClock(Clock(h, m, s), h, m, s)
  {
    TwoDigitPad(m);
    TwoDigitPad(s);
    ThreeFields(Pad(h), Pad(m), Pad(s));
  }

  /** JavaScript's `a % b` for a positive `b`: the remainder takes the sign of `a`. */
  function JsRem(a: int, b: int): (r: int)
    requires b > 0
    ensures -b < r < b && (a >= 0 ==> 0 <= r) && (a <= 0 ==> r <= 0)
    ensures (a - r) % b == 0
    ensures a >= 0 ==> r == a % b
  {
    var x := if a >= 0 then a else -a;
    var m := x % b;
    RemainderFacts(x, b);
    if a >= 0 then m else -m
  }

  /** The remainder of `x` lies below `b`, and taking it away leaves a multiple of `b`, in either sign. */
  lemma RemainderFacts(x: int, b: int)
    requires x >= 0 && b > 0
    ensures 0 <= x % b < b
    ensures (x - x % b) % b == 0 && (-x + x % b) % b == 0
  {
    var q, m := x / b, x % b;
    assert x == b * q + m;
    DivModUnique(x - m, b, q, 0);
    assert -x + m == b * (0 - q);
    DivModUnique(-x + m, b, 0 - q, 0);
  }

  /**
    `formatUptime(ms)` of static/app.ts and the uptime panel of
    static/dist/app.js: `Math.floor` of divisions and of JavaScript's
    remainders.  `Date.now()` is a wall clock; when it has gone back past
    `startTime` every field is negative or zero, and the text shows a minus
    sign right after its first digit.
   */
  function FormatUptime(ms: int): (r: string)
    ensures |r| >= 8
    ensures r[1] == '-' <==> ms < 0
  {
    var h := ms / 3600000;
    var r := Clock(h, JsRem(ms, 3600000) / 60000, JsRem(ms, 60000) / 1000);
    assert r[1] == Pad(h)[1];
    r
  }

  /** A wall clock one millisecond behind the start shows `0-1:0-1:0-1`. */
  lemma UptimeOfClockGoneBack()
    ensures FormatUptime(-1) == "0-1:0-1:0-1"
  {
    assert -1 / 3600000 == -1 && -1 / 60000 == -1 && -1 / 1000 == -1;
    assert JsRem(-1, 3600000) == -1 && JsRem(-1, 60000) == -1;
    NatToStringSnoc(1);
    assert Pad(-1) == "0-1";
  }

  /**
    The uptime text reads back: the hours are the whole hours elapsed,
    minutes and seconds are two digits below 60, and together they give the
    whole seconds elapsed.
   */
  lemma FormatUptimeDecodes(ms: nat)
    ensures var h, m, s := ms / 3600000, (ms % 3600000) / 60000, (ms % 60000) / 1000;
            && ReadsAsClock(FormatUptime(ms), h, m, s)
            && m < 60 && s < 60 && h * 3600 + m * 60 + s == ms / 1000
  {
    UptimeFields(ms);
    ClockDecodes(ms / 3600000, (ms % 3600000) / 60000, (ms % 60000) / 1000);
  }

  lemma ThreeFields(h: string, m: string, s: string)
    requires |m| == 2 && |s| == 2
    ensures var r := h + ":" + m + ":" + s;
            r[..|r| - 6] == h && r[|r| - 5..|r| - 3] == m && r[|r| - 2..] == s
  {
  }

  /** Whole hours, the minutes and the seconds within them make up the whole seconds elapsed. */
  lemma UptimeFields(ms: nat)
    ensures (ms % 3600000) / 60000 < 60 && (ms % 60000) / 1000 < 60
    ensures (ms / 3600000) * 3600 + ((ms % 3600000) / 60000) * 60 + (ms % 60000) / 1000 == ms / 1000
  {
    var x, c := ms / 1000, ms % 1000;
    var a, b := x / 3600, x % 3600;
    var m, s := b / 60, b % 60;
    var rest := 60000 * m + (1000 * s + c);
    assert ms == 3600000 * a + rest;
    DivModUnique(ms, 3600000, a, rest);
    DivModUnique(rest, 60000, m, 1000 * s + c);
    DivModUnique(ms, 60000, 60 * a + m, 1000 * s + c);
    DivModUnique(1000 * s + c, 1000, s, c);
  }

  lemma TwoDigitPad(n: int)
    ensures 0 <= n < 60 ==> |Pad(n)| == 2
  {
    if 0 <= n {
      NatToStringSnoc(n);
    }
    if 10 <= n < 60 {
      assert Pow10(2) == 100;
      NatToStringLength(n, 2);
    }
  }

  /**
    `formatUptime(seconds)` of static/script.js for a whole number of
    seconds: `Math.floor` of a division by a positive number is `/`, and
    JavaScript's `%` is `JsRem`. Every field is padded to at least two
    characters; a negative uptime (the backend's clock gone back) shows a
    minus sign in every field.
   */
  function FormatUptimeSeconds(seconds: int): (r: string)
    ensures |r| >= 8
    ensures r[0] == '-' <==> seconds < 0
  {
    var h := IntToString(seconds / 3600);
    var r := PadStart(h, 2, '0') + ":"
      + PadStart(IntToString(JsRem(seconds, 3600) / 60), 2, '0') + ":"
      + PadStart(IntToString(JsRem(seconds, 60)), 2, '0');
    assert r[0] == PadStart(h, 2, '0')[0];
    assert seconds >= 0 ==> IsDigit(NatToString(seconds / 3600)[0]);
    r
  }

  /** One second before the start: every field reads `-1`, unlike app.ts's `0-1`. */
  lemma UptimeSecondsGoneBack()
    ensures FormatUptimeSeconds(-1) == "-1:-1:-1"
  {
    assert JsRem(-1, 3600) == -1 && JsRem(-1, 60) == -1;
    assert -1 / 3600 == -1 && -1 / 60 == -1;
    var one := IntToString(-1);
    assert one == "-1" by {
      assert NatToString(1) == "1";
    }
    assert PadStart(one, 2, '0') == one;
  }

  /** The two uptime formats agree: `formatUptime(s)` of script.js is `formatUptime(1000 * s)` of app.ts. */
  lemma UptimeFormatsAgree(seconds: nat)
    ensures FormatUptimeSeconds(seconds) == FormatUptime(1000 * seconds)
  {
    SecondsToMillis(seconds);
    PadIsPadStart(seconds / 3600);
    PadIsPadStart((seconds % 3600) / 60);
    PadIsPadStart(seconds % 60);
  }

  lemma SecondsToMillis(seconds: nat)
    ensures (1000 * seconds) / 3600000 == seconds / 3600
    ensures ((1000 * seconds) % 3600000) / 60000 == (seconds % 3600) / 60
    ensures ((1000 * seconds) % 60000) / 1000 == seconds % 60
  {
    var h, r := seconds / 3600, seconds % 3600;
    var m, sec := r / 60, r % 60;
    var ms := 1000 * seconds;
    assert ms == 3600000 * h + (60000 * m + 1000 * sec);
    DivModUnique(ms, 3600000, h, 60000 * m + 1000 * sec);
    DivModUnique(60000 * m + 1000 * sec, 60000, m, 1000 * sec);
    DivModUnique(ms, 60000, 60 * h + m, 1000 * sec);
    DivModUnique(1000 * sec, 1000, sec, 0);
    DivModUnique(seconds, 60, 60 * h + m, sec);
  }

  lemma PadIsPadStart(n: nat)
    ensures Pad(n) == PadStart(NatToString(n), 2, '0')
  {
    if n < 10 {
      assert Repeat('0', 1) == "0";
    } else {
      NatToStringLength2(n);
    }
  }

  function Abs(x: int): nat {
    if x < 0 then -x else x
  }

  /**
    `(num / den).toFixed(2)` for an exact quotient: the sign, the whole part,
    a point and two decimals, the value rounded to the nearest hundredth with
    halves rounded away from zero.
   */
  function ToFixed2(num: int, den: nat): (r: string)
    requires den > 0
    ensures |r| >= 4 && r[|r| - 3] == '.'
    ensures r[0] == '-' <==> num < 0
  {
    var q := RoundHalfUp(100 * Abs(num), den);
    PaddedDecimal(q % 100, 2);
    (if num < 0 then "-" else "") + NatToString(q / 100) + "." + PadStart(NatToString(q % 100), 2, '0')
  }

  /** The digits of `r` from `start` up to the point, and the two after it, read as `v` hundredths. */
  predicate ReadsAsHundredths(r: string, start: nat, v: nat) {
    && start + 3 <= |r|
    && AllDigits(r[start..|r| - 3]) && AllDigits(r[|r| - 2..])
    && 100 * ParseDigits(r[start..|r| - 3]) + ParseDigits(r[|r| - 2..]) == v
  }

  /**
    The text reads back as the nearest hundredth: after the sign, its digits
    are a count of hundredths `v` with `|v/100 - |num|/den| <= 1/200`.
   */
  lemma ToFixed2Decodes(num: int, den: nat)
    requires den > 0
    ensures var v := RoundHalfUp(100 * Abs(num), den);
            && ReadsAsHundredths(ToFixed2(num, den), if num < 0 then 1 else 0, v)
            && 2 * v * den <= 200 * Abs(num) + den < 2 * (v + 1) * den
  {
    var q := RoundHalfUp(100 * Abs(num), den);
    var sign := if num < 0 then "-" else "";
    var w, f := NatToString(q / 100), PadStart(NatToString(q % 100), 2, '0');
    PaddedDecimal(q % 100, 2);
    ParseNatToString(q / 100);
    assert ToFixed2(num, den) == sign + w + "." + f;
    FixedFields(sign, w, f);
    DivModUnique(q, 100, q / 100, q % 100);
  }

  lemma FixedFields(sign: string, w: string, f: string)
    requires |f| == 2
    ensures var r := sign + w + "." + f;
            r[|sign|..|r| - 3] == w && r[|r| - 2..] == f
  {
  }
}
