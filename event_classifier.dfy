/**
  The event classifier of the dashboard: `createLogEntry` in static/script.js and
  `createDetailedLogEntry` in static/dist/app.js (the two are the same code), and
  the `formatMicrosecondTimestamp` both files carry.

  A raw event text looks like `[<microseconds>] <free text>`.  The first
  `[digits]` token anywhere in the text is the timestamp, the first matching
  keyword decides the category, and the displayed message is the text with that
  token (and the white space after it) cut out.
 */
module EventClassifier {
  import opened Text
  import opened Wrappers

  /** The class suffix an entry gets: `priority-7`, `priority-6`, `priority-5`, `preemption`, `isr`, `task`, `info`. */
  datatype Category = Priority7 | Priority6 | Priority5 | Preemption | Isr | TaskBoundary | Info

  /** The status a caller passes to `addSystemEventLog` (`success`, `error`, `info`, `warning`). */
  datatype Level = Success | Error | InfoLevel | Warning

  /** What follows `log-item` in an entry's class attribute. */
  datatype Kind = Classified(category: Category) | Status(level: Level)

  /**
    One element of the dashboard's log container: the text of its `log-time` span,
    its class, the text of its badge (empty when it has none), the text of its
    `log-msg` span, and its `data-event` attribute when one is set.
   */
  datatype Entry = Entry(time: string, kind: Kind, badge: string, msg: string, key: Option<string>)

  // ---------------------------------------------------------------------------
  // Bracketed number tokens: the regular expressions /\[(\d+)\]/ (lead "")
  // and /\[P(\d+)\]/ (lead "P").
  // ---------------------------------------------------------------------------

  /** The token `[` lead digits `]` starts at index `i` of `s`. */
  predicate MarkerAt(s: string, lead: string, i: nat) {
    var d := i + 1 + |lead|;
    d <= |s| && s[i] == '[' && s[i + 1..d] == lead
    && DigitRunEnd(s, d) > d && DigitRunEnd(s, d) < |s| && s[DigitRunEnd(s, d)] == ']'
  }

  /** The leftmost token at or after `from`, as a regular-expression search finds it. */
  function FindMarker(s: string, lead: string, from: nat): (r: Option<nat>)
    requires from <= |s|
    ensures r.Some? ==> from <= r.value < |s| && MarkerAt(s, lead, r.value)
    ensures r.Some? ==> forall k :: from <= k < r.value ==> !MarkerAt(s, lead, k)
    ensures r.None? ==> forall k :: from <= k < |s| ==> !MarkerAt(s, lead, k)
    decreases |s| - from
  {
    if from == |s| then None
    else if MarkerAt(s, lead, from) then Some(from)
    else FindMarker(s, lead, from + 1)
  }

  /** The digits of the token at `i` (the capture group). */
  function MarkerDigits(s: string, lead: string, i: nat): (d: string)
    requires MarkerAt(s, lead, i)
    ensures |d| >= 1 && AllDigits(d)
  {
    s[i + 1 + |lead|..DigitRunEnd(s, i + 1 + |lead|)]
  }

  /** The index just after the closing bracket of the token at `i`. */
  function MarkerEnd(s: string, lead: string, i: nat): (e: nat)
    requires MarkerAt(s, lead, i)
    ensures i < e <= |s| && s[e - 1] == ']'
  {
    DigitRunEnd(s, i + 1 + |lead|) + 1
  }

  /** `s.replace(/\[<lead>\d+\]\s*&#47;, '')` when the token is at `i`: cut out the token and the white space after it. */
  function RemoveMarker(s: string, lead: string, i: nat): (r: string)
    requires MarkerAt(s, lead, i)
    ensures |r| < |s|
  {
    s[..i] + s[SpaceRunEnd(s, MarkerEnd(s, lead, i))..]
  }

  // ---------------------------------------------------------------------------
  // formatMicrosecondTimestamp
  // ---------------------------------------------------------------------------

  function TwoDigits(n: nat): string {
    PadStart(NatToString(n), 2, '0')
  }

  /**
    `HH:MM:SS.UUUUUU`: the wall-clock time of `micros / 1000` milliseconds
    (taken in UTC here) and `micros mod 1_000_000` padded to six digits.
   */
  function FormatMicrosecondTimestamp(micros: nat): (r: string)
    ensures |r| == 15 && r[2] == ':' && r[5] == ':' && r[8] == '.'
  {
    var secs := micros / 1_000_000;
    PaddedDecimal((secs / 3600) % 24, 2);
    PaddedDecimal((secs / 60) % 60, 2);
    PaddedDecimal(secs % 60, 2);
    PaddedDecimal(micros % 1_000_000, 6);
    TwoDigits((secs / 3600) % 24) + ":" + TwoDigits((secs / 60) % 60) + ":" + TwoDigits(secs % 60)
      + "." + PadStart(NatToString(micros % 1_000_000), 6, '0')
  }

  /**
    The formatted timestamp reads back: every field is digits, the fraction is
    `micros mod 1_000_000`, and hours, minutes and seconds are in range and give
    the second of the day.
   */
  lemma FormatMicrosecondTimestampDecodes(micros: nat)
    ensures var r := FormatMicrosecondTimestamp(micros);
      && AllDigits(r[..2]) && AllDigits(r[3..5]) && AllDigits(r[6..8]) && AllDigits(r[9..])
      && ParseDigits(r[9..]) == micros % 1_000_000
      && ParseDigits(r[..2]) < 24 && ParseDigits(r[3..5]) < 60 && ParseDigits(r[6..8]) < 60
      && ParseDigits(r[..2]) * 3600 + ParseDigits(r[3..5]) * 60 + ParseDigits(r[6..8])
         == (micros / 1_000_000) % 86400
  {
    var secs := micros / 1_000_000;
    var h, m, s := (secs / 3600) % 24, (secs / 60) % 60, secs % 60;
    PaddedDecimal(h, 2);
    PaddedDecimal(m, 2);
    PaddedDecimal(s, 2);
    PaddedDecimal(micros % 1_000_000, 6);
    var r := FormatMicrosecondTimestamp(micros);
    var hh, mm, ss := TwoDigits(h), TwoDigits(m), TwoDigits(s);
    var uu := PadStart(NatToString(micros % 1_000_000), 6, '0');
    assert r == hh + ":" + mm + ":" + ss + "." + uu;
    assert r[..2] == hh && r[3..5] == mm && r[6..8] == ss && r[9..] == uu;
    SecondOfDay(secs);
  }

  lemma SecondOfDay(x: nat)
    ensures ((x / 3600) % 24) * 3600 + ((x / 60) % 60) * 60 + x % 60 == x % 86400
  {
    var q, y := x / 86400, x % 86400;
    var h, r := y / 3600, y % 3600;
    var m, s := r / 60, r % 60;
    assert x == 3600 * (24 * q + h) + r;
    DivModUnique(x, 3600, 24 * q + h, r);
    DivModUnique(24 * q + h, 24, q, h);
    DivModUnique(x, 60, 1440 * q + 60 * h + m, s);
    DivModUnique(1440 * q + 60 * h + m, 60, 24 * q + h, m);
  }

  // ---------------------------------------------------------------------------
  // createLogEntry / createDetailedLogEntry
  // ---------------------------------------------------------------------------

  /** First match in the order Brake, Collision, Speed, PREEMPT, ISR_ENTRY/ISR_EXIT, TASK_START/TASK_END. */
  function Categorize(text: string): (c: Category)
    ensures c == Priority7 <==> Contains(text, "Brake")
    ensures c == Priority6 <==> !Contains(text, "Brake") && Contains(text, "Collision")
    ensures c == Priority5 <==> !Contains(text, "Brake") && !Contains(text, "Collision") && Contains(text, "Speed")
    ensures c == Preemption <==>
      && !Contains(text, "Brake") && !Contains(text, "Collision") && !Contains(text, "Speed")
      && Contains(text, "PREEMPT")
    ensures c == Isr <==>
      && !Contains(text, "Brake") && !Contains(text, "Collision") && !Contains(text, "Speed")
      && !Contains(text, "PREEMPT") && (Contains(text, "ISR_ENTRY") || Contains(text, "ISR_EXIT"))
    ensures c == TaskBoundary <==>
      && !Contains(text, "Brake") && !Contains(text, "Collision") && !Contains(text, "Speed")
      && !Contains(text, "PREEMPT") && !Contains(text, "ISR_ENTRY") && !Contains(text, "ISR_EXIT")
      && (Contains(text, "TASK_START") || Contains(text, "TASK_END"))
    ensures c == Info <==>
      && !Contains(text, "Brake") && !Contains(text, "Collision") && !Contains(text, "Speed")
      && !Contains(text, "PREEMPT") && !Contains(text, "ISR_ENTRY") && !Contains(text, "ISR_EXIT")
      && !Contains(text, "TASK_START") && !Contains(text, "TASK_END")
  {
    if Contains(text, "Brake") then Priority7
    else if Contains(text, "Collision") then Priority6
    else if Contains(text, "Speed") then Priority5
    else if Contains(text, "PREEMPT") then Preemption
    else if Contains(text, "ISR_ENTRY") || Contains(text, "ISR_EXIT") then Isr
    else if Contains(text, "TASK_START") || Contains(text, "TASK_END") then TaskBoundary
    else Info
  }

  /** The text inside the priority badge; `info` entries get no badge. */
  function Badge(c: Category): (b: string)
    ensures b == [] <==> c == Info
  {
    match c
    case Priority7 => "[P7]"
    case Priority6 => "[P6]"
    case Priority5 => "[P5]"
    case Preemption => "[PREEMPT]"
    case Isr => "[ISR]"
    case TaskBoundary => "[TASK]"
    case Info => ""
  }

  /**
    The microsecond value that gets displayed: the first `[digits]` token, or,
    when there is none, `Date.now()` in milliseconds (formatted as if it were
    microseconds, as the source does).
   */
  function EventMicros(text: string, nowMs: nat): (t: nat)
    ensures FindMarker(text, "", 0).None? ==> t == nowMs
    ensures FindMarker(text, "", 0).Some? ==> t == ParseDigits(MarkerDigits(text, "", FindMarker(text, "", 0).value))
  {
    match FindMarker(text, "", 0)
    case Some(i) => ParseDigits(MarkerDigits(text, "", i))
    case None => nowMs
  }

  /** The text with its first `[digits]` token and the white space after it removed. */
  function DisplayMessage(text: string): (m: string)
    ensures FindMarker(text, "", 0).None? ==> m == text
    ensures FindMarker(text, "", 0).Some? ==> |m| < |text|
  {
    match FindMarker(text, "", 0)
    case Some(i) => RemoveMarker(text, "", i)
    case None => text
  }

  /** `createLogEntry(eventText)` of static/script.js: the entry carries the raw text as its `data-event` key. */
  function CreateLogEntry(text: string, nowMs: nat): (e: Entry)
    ensures e.key == Some(text)
    ensures e.kind == Classified(Categorize(text))
    ensures e.badge == Badge(Categorize(text)) && (e.badge == [] <==> e.kind == Classified(Info))
    ensures e.msg == DisplayMessage(text)
    ensures e.time == FormatMicrosecondTimestamp(EventMicros(text, nowMs)) && |e.time| == 15
  {
    Entry(FormatMicrosecondTimestamp(EventMicros(text, nowMs)), Classified(Categorize(text)),
          Badge(Categorize(text)), DisplayMessage(text), Some(text))
  }

  /**
    `createDetailedLogEntry(eventText)` of static/dist/app.js: the same time,
    class, badge and message as `createLogEntry`, without the `data-event` key.
   */
  function CreateDetailedLogEntry(text: string, nowMs: nat): (e: Entry)
    ensures e == CreateLogEntry(text, nowMs).(key := None)
  {
    Entry(FormatMicrosecondTimestamp(EventMicros(text, nowMs)), Classified(Categorize(text)),
          Badge(Categorize(text)), DisplayMessage(text), None)
  }

  /**
    The displayed message is the raw text with exactly one span cut out: the
    first `[digits]` token and the white space that follows it.  Everything
    before and after (a `[P7]` marker included) stays in place.
   */
  lemma DisplayMessageCutsFirstToken(text: string)
    requires FindMarker(text, "", 0).Some?
    ensures var i := FindMarker(text, "", 0).value;
            var k := SpaceRunEnd(text, MarkerEnd(text, "", i));
            && text == text[..i] + ("[" + MarkerDigits(text, "", i) + "]") + text[MarkerEnd(text, "", i)..k] + text[k..]
            && DisplayMessage(text) == text[..i] + text[k..]
            && (forall j :: MarkerEnd(text, "", i) <= j < k ==> IsJsSpace(text[j]))
  {
    var i := FindMarker(text, "", 0).value;
    RemoveMarkerCuts(text, "", i);
    var d := MarkerDigits(text, "", i);
    assert "[" + "" + d + "]" == "[" + d + "]" by {
      assert "[" + "" == "[";
    }
  }

  /**
    Removing the token at `i` cuts exactly one span out of the text: the
    bracket, the lead, the digits, the closing bracket and the white space
    after it.
   */
  lemma RemoveMarkerCuts(s: string, lead: string, i: nat)
    requires MarkerAt(s, lead, i)
    ensures var e := MarkerEnd(s, lead, i);
            var k := SpaceRunEnd(s, e);
            && s == s[..i] + ("[" + lead + MarkerDigits(s, lead, i) + "]") + s[e..k] + s[k..]
            && RemoveMarker(s, lead, i) == s[..i] + s[k..]
            && (forall j :: e <= j < k ==> IsJsSpace(s[j]))
  {
    var e := MarkerEnd(s, lead, i);
    SplitAt(s, i, e, SpaceRunEnd(s, e));
    TokenText(s, lead, i);
  }

  /** The token at `i` reads `[`, the lead, its digits and `]`. */
  lemma TokenText(s: string, lead: string, i: nat)
    requires MarkerAt(s, lead, i)
    ensures s[i..MarkerEnd(s, lead, i)] == "[" + lead + MarkerDigits(s, lead, i) + "]"
  {
    var d := i + 1 + |lead|;
    var de := DigitRunEnd(s, d);
    assert s[i..d] == "[" + lead by {
      assert s[i..d] == s[i..i + 1] + s[i + 1..d];
    }
    assert s[i..de] == s[i..d] + s[d..de];
    assert s[i..de + 1] == s[i..de] + s[de..de + 1];
  }

  /** A text is its pieces between three cut points, put back together. */
  lemma SplitAt(s: string, i: nat, e: nat, k: nat)
    requires i <= e <= k <= |s|
    ensures s == s[..i] + s[i..e] + s[e..k] + s[k..]
  {
    assert s[..e] == s[..i] + s[i..e];
    assert s[..k] == s[..e] + s[e..k];
    assert s == s[..k] + s[k..];
  }

  /** Over a run of digits ended by a non-digit (or the end), the digit run ends exactly there. */
  lemma {:induction false} DigitRunEndAt(s: string, j: nat, e: nat)
    requires j <= e <= |s| && AllDigits(s[j..e]) && (e < |s| ==> !IsDigit(s[e]))
    ensures DigitRunEnd(s, j) == e
    decreases e - j
  {
    if j < e {
      assert IsDigit(s[j..e][0]);
      assert s[j + 1..e] == s[j..e][1..];
      DigitRunEndAt(s, j + 1, e);
    }
  }

  /**
    A text stamped the way the backend stamps it, `[<t>] <rest>`, is displayed
    with time `t` and message `rest` (when `rest` does not itself start with white
    space), whatever keywords or brackets `rest` holds.
   */
  lemma StampedTextRoundTrip(t: nat, rest: string, nowMs: nat)
    requires rest == [] || !IsJsSpace(rest[0])
    ensures var text := "[" + NatToString(t) + "] " + rest;
            && FindMarker(text, "", 0) == Some(0)
            && EventMicros(text, nowMs) == t
            && DisplayMessage(text) == rest
  {
    var text := "[" + NatToString(t) + "] " + rest;
    assert text == [] + "[" + [] + NatToString(t) + "] " + rest;
    MarkerAtStart([], [], t, rest);
    ParseNatToString(t);
  }

  /** A token with no token before it is the one the search finds. */
  lemma FindMarkerIs(s: string, lead: string, j: nat)
    requires MarkerAt(s, lead, j)
    requires forall k :: 0 <= k < j ==> !MarkerAt(s, lead, k)
    ensures FindMarker(s, lead, 0) == Some(j)
  {
  }

  /** A bracket, the lead, a digit run and a closing bracket at `i` make a token there. */
  lemma MarkerAtIndex(s: string, lead: string, i: nat, d: string)
    requires |d| >= 1 && AllDigits(d)
    requires i + |lead| + |d| + 1 < |s|
    requires s[i] == '[' && s[i + 1..i + 1 + |lead|] == lead
    requires s[i + 1 + |lead|..i + 1 + |lead| + |d|] == d && s[i + 1 + |lead| + |d|] == ']'
    ensures MarkerAt(s, lead, i) && MarkerDigits(s, lead, i) == d
    ensures MarkerEnd(s, lead, i) == i + |lead| + |d| + 2
  {
    var b := i + 1 + |lead|;
    DigitRunEndAt(s, b, b + |d|);
  }

  /** The token `[` lead n `]` followed by a non-blank `rest` (or nothing) sits right after `pre` in `pre + "[" + lead + n + "] " + rest`. */
  lemma MarkerAtStart(pre: string, lead: string, n: nat, rest: string)
    requires rest == [] || !IsJsSpace(rest[0])
    ensures var s := pre + "[" + lead + NatToString(n) + "] " + rest;
            var i := |pre|;
            && MarkerAt(s, lead, i)
            && MarkerDigits(s, lead, i) == NatToString(n)
            && SpaceRunEnd(s, MarkerEnd(s, lead, i)) == |s| - |rest|
            && s[..i] == pre && s[|s| - |rest|..] == rest
  {
    var d := NatToString(n);
    var head := pre + "[" + lead;
    var s := head + d + ("] " + rest);
    assert s == pre + "[" + lead + d + "] " + rest;
    TokenFields(head, pre, lead, d, "] " + rest);
    MarkerAtIndex(s, lead, |pre|, d);
    TokenTail(s, |head| + |d|, rest);
  }

  lemma TokenFields(head: string, pre: string, lead: string, d: string, tail: string)
    requires head == pre + "[" + lead && |tail| >= 1 && tail[0] == ']'
    ensures var s := head + d + tail;
            && s[|pre|] == '[' && s[|pre| + 1..|head|] == lead && s[..|pre|] == pre
            && s[|head|..|head| + |d|] == d && s[|head| + |d|] == ']'
  {
    var s := head + d + tail;
    assert s[..|head|] == head;
    assert head[|pre| + 1..] == lead;
    assert head[..|pre|] == pre;
  }

  lemma TokenTail(s: string, e: nat, rest: string)
    requires e + 2 + |rest| == |s| && s[e..] == "] " + rest
    requires rest == [] || !IsJsSpace(rest[0])
    ensures SpaceRunEnd(s, e + 1) == |s| - |rest| && s[|s| - |rest|..] == rest
  {
    assert s[e + 1] == ' ';
    assert s[e + 2..] == rest by { assert s[e + 2..] == s[e..][2..]; }
    if rest != [] {
      assert s[e + 2] == rest[0];
    }
  }

  /** No token starts where there is no `[`. */
  lemma NoMarkerBefore(s: string, lead: string, j: nat)
    requires j <= |s| && '[' !in s[..j]
    ensures forall k :: 0 <= k < j ==> !MarkerAt(s, lead, k)
  {
    forall k | 0 <= k < j
      ensures !MarkerAt(s, lead, k)
    {
      assert s[..j][k] == s[k];
    }
  }
}
