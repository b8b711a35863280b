/**
  The `system-events-log` container of the dashboard pages, kept as a sequence
  of entries (first element = first child), and `addSystemEventLog`, which
  static/dist/app.js and static/app.ts share word for word.
 */
module LogView {
  import opened Text
  import opened Wrappers
  import opened EventClassifier

  /** Every page keeps at most this many entries (`while (children.length > 50)`). */
  const MaxEntries: nat := 50

  /** What the trimming loop leaves of `s`: its first `MaxEntries` elements, the tail evicted. */
  function Cap(s: seq<Entry>): (r: seq<Entry>)
    ensures |r| <= MaxEntries
    ensures |s| <= MaxEntries ==> r == s
    ensures |s| > MaxEntries ==> |r| == MaxEntries
    ensures r == s[..|r|]
  {
    if |s| <= MaxEntries then s else s[..MaxEntries]
  }

  /** Prepending to a capped log and capping again keeps the new entry first and the older ones after it, oldest evicted. */
  lemma PrependCapped(e: Entry, s: seq<Entry>)
    ensures var r := Cap([e] + Cap(s));
            r == Cap([e] + s) && r[0] == e && r[1..] == s[..|r| - 1]
  {
  }

  /** Some entry carries the `data-event` key `k`. */
  predicate KeyIn(entries: seq<Entry>, k: string) {
    exists i :: 0 <= i < |entries| && entries[i].key == Some(k)
  }

  function Reverse<T>(s: seq<T>): (r: seq<T>)
    ensures |r| == |s| && forall i :: 0 <= i < |s| ==> r[i] == s[|s| - 1 - i]
  {
    if s == [] then [] else [s[|s| - 1]] + Reverse(s[..|s| - 1])
  }

  /** How many raw lines a poll shows: `slice(-20)`. */
  const PollWindow: nat := 20

  /** `events.slice(-20).reverse()`: the newest line first, at most 20 of them. */
  function RecentWindow(events: seq<string>): (w: seq<string>)
    ensures |w| == if |events| < PollWindow then |events| else PollWindow
    ensures forall i :: 0 <= i < |w| ==> w[i] == events[|events| - 1 - i]
  {
    var k := if |events| < PollWindow then |events| else PollWindow;
    Reverse(events[|events| - k..])
  }

  /** A log element on the page. */
  class LogContainer {
    var entries: seq<Entry>

    constructor()
      ensures entries == []
    {
      entries := [];
    }

    /** `querySelector('[data-event="k"]')` finds an element. */
    predicate HasKey(k: string)
      reads this
    {
      KeyIn(entries, k)
    }

    /** `appendChild`. */
    method Append(e: Entry)
      modifies this
      ensures entries == old(entries) + [e]
    {
      entries := entries + [e];
    }

    /** `lines.forEach(line => appendChild(make(line)))`: one new entry per line, in order, after the existing ones. */
    method AppendEach(lines: seq<string>, make: string -> Entry)
      modifies this
      ensures |entries| == |old(entries)| + |lines| && entries[..|old(entries)|] == old(entries)
      ensures forall i :: 0 <= i < |lines| ==> entries[|old(entries)| + i] == make(lines[i])
    {
      var i := 0;
      while i < |lines|
        invariant 0 <= i <= |lines|
        invariant |entries| == |old(entries)| + i && entries[..|old(entries)|] == old(entries)
        invariant forall j :: 0 <= j < i ==> entries[|old(entries)| + j] == make(lines[j])
      {
        Append(make(lines[i]));
        i := i + 1;
      }
    }

    /** `innerHTML = ''`. */
    method Clear()
      modifies this
      ensures entries == []
    {
      entries := [];
    }

    /** `while (children.length > 50) removeChild(lastChild)`. */
    method TrimToCap()
      modifies this
      ensures entries == Cap(old(entries))
    {
      ghost var original := entries;
      while |entries| > MaxEntries
        invariant |entries| >= MaxEntries || entries == original
        invariant entries == original[..|entries|]
        decreases |entries|
      {
        entries := entries[..|entries| - 1];
      }
    }

    /** `insertBefore(entry, firstChild)` followed by the trimming loop. */
    method Prepend(e: Entry)
      modifies this
      ensures entries == Cap([e] + old(entries))
      ensures entries[0] == e
    {
      entries := [e] + entries;
      TrimToCap();
    }
  }

  /**
    The entry `addSystemEventLog(message, type)` builds, `clock` being the
    `toLocaleTimeString` text.  A `[P<digits>]` marker gives a `P<digits>`
    badge, and the message then loses that marker, the white space after it,
    and the white space at both ends; without a marker the message is kept
    as it is and there is no badge.
   */
  function SystemEntry(message: string, level: Level, clock: string): (e: Entry)
    ensures e.kind == Status(level) && e.time == clock && e.key == None
    ensures FindMarker(message, "P", 0).None? ==> e.badge == [] && e.msg == message
    ensures FindMarker(message, "P", 0).Some? ==>
      var i := FindMarker(message, "P", 0).value;
      && e.badge == "P" + MarkerDigits(message, "P", i)
      && e.msg == Trim(RemoveMarker(message, "P", i)) && |e.msg| < |message|
  {
    match FindMarker(message, "P", 0)
    case None => Entry(clock, Status(level), [], message, None)
    case Some(i) =>
      Entry(clock, Status(level), "P" + MarkerDigits(message, "P", i), Trim(RemoveMarker(message, "P", i)), None)
  }

  /**
    A message `pre + "[P<p>] " + rest` with no `[` in `pre` shows the badge
    `P<p>` and the message `trim(pre + rest)`; so `"[P7] Triggered Brake sensor"`
    shows `P7` and `"Triggered Brake sensor"`.
   */
  lemma SystemEntryOfMarkedMessage(message: string, pre: string, p: nat, rest: string, level: Level, clock: string)
    requires message == pre + "[P" + NatToString(p) + "] " + rest
    requires '[' !in pre
    requires rest == [] || !IsJsSpace(rest[0])
    ensures SystemEntry(message, level, clock).badge == "P" + NatToString(p)
    ensures SystemEntry(message, level, clock).msg == Trim(pre + rest)
  {
    MarkedMessageParts(pre, p, rest);
  }

  lemma MarkedMessageParts(pre: string, p: nat, rest: string)
    requires '[' !in pre
    requires rest == [] || !IsJsSpace(rest[0])
    ensures var s := pre + "[P" + NatToString(p) + "] " + rest;
            && FindMarker(s, "P", 0) == Some(|pre|)
            && MarkerDigits(s, "P", |pre|) == NatToString(p)
            && RemoveMarker(s, "P", |pre|) == pre + rest
  {
    var s := pre + "[" + "P" + NatToString(p) + "] " + rest;
    assert s == pre + "[P" + NatToString(p) + "] " + rest;
    MarkerAtStart(pre, "P", p, rest);
    NoMarkerBefore(s, "P", |pre|);
    FindMarkerIs(s, "P", |pre|);
  }

  /** A message without any `[` gets no badge and is shown unchanged. */
  lemma SystemEntryOfPlainMessage(message: string, level: Level, clock: string)
    requires '[' !in message
    ensures SystemEntry(message, level, clock) == Entry(clock, Status(level), [], message, None)
  {
    assert message[..|message|] == message;
    NoMarkerBefore(message, "P", |message|);
  }
}
