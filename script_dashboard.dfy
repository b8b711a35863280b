/**
  The page driven by static/script.js: the pause flag, the polling of the
  backend event log into the `system-events-log` container (append new lines,
  skip lines already shown, trim to 50) and the local `addEventLog`.
 */
module ScriptDashboard {
  import opened Text
  import opened Wrappers
  import opened EventClassifier
  import opened LogView

  /**
    The texts `querySelector('[data-event="<text>"]')` accepts as written.  A
    double quote, a line break or a form feed usually makes the selector
    invalid and the call throws; here every such text counts as throwing.  A
    backslash is counted as throwing too, although a browser reads it as the
    start of a CSS escape.
   */
  predicate SelectorSafe(t: string) {
    '"' !in t && '\\' !in t && '\n' !in t && '\r' !in t && '\U{000C}' !in t
  }

  /** Where the `forEach` of one poll stops: the container it leaves and whether a selector threw. */
  datatype Ingested = Ingested(entries: seq<Entry>, aborted: bool)

  /** `createLogEntry` as called during a poll at `nowMs`. */
  function LogEntryAt(nowMs: nat): string -> Entry {
    line => CreateLogEntry(line, nowMs)
  }

  /** An entry builder that files each line under its own text as `data-event` key, as `createLogEntry` does. */
  ghost predicate KeyedByLine(make: string -> Entry) {
    forall line :: make(line).key == Some(line)
  }

  lemma LogEntryAtKeyedByLine(nowMs: nat)
    ensures KeyedByLine(LogEntryAt(nowMs))
  {
    forall line
      ensures LogEntryAt(nowMs)(line).key == Some(line)
    {
      assert LogEntryAt(nowMs)(line) == CreateLogEntry(line, nowMs);
    }
  }

  /**
    The `forEach` of `fetchEventLog` over `window`, `make` being the entry
    builder (`LogEntryAt` the poll's clock): each line not yet present as a
    `data-event` is appended as `make(line)`; a line the selector cannot
    express throws, which ends the poll where it stands.
   */
  function Ingest(entries: seq<Entry>, window: seq<string>, make: string -> Entry): Ingested
    decreases |window|
  {
    if window == [] then Ingested(entries, false)
    else if !SelectorSafe(window[0]) then Ingested(entries, true)
    else
      var next := if KeyIn(entries, window[0]) then entries else entries + [make(window[0])];
      Ingest(next, window[1..], make)
  }

  /** One line of the `forEach`: a line the selector accepts is appended unless its text is already shown. */
  lemma IngestStep(entries: seq<Entry>, window: seq<string>, make: string -> Entry)
    requires window != [] && SelectorSafe(window[0])
    ensures KeyIn(entries, window[0]) ==> Ingest(entries, window, make) == Ingest(entries, window[1..], make)
    ensures !KeyIn(entries, window[0]) ==> Ingest(entries, window, make) == Ingest(entries + [make(window[0])], window[1..], make)
  {
  }

  /** A poll throws exactly when one of its lines cannot be put in a selector. */
  lemma {:induction false} IngestAbortsOnlyOnUnsafe(entries: seq<Entry>, window: seq<string>, make: string -> Entry)
    ensures Ingest(entries, window, make).aborted <==> exists i :: 0 <= i < |window| && !SelectorSafe(window[i])
    decreases |window|
  {
    if window != [] && SelectorSafe(window[0]) {
      var next := if KeyIn(entries, window[0]) then entries else entries + [make(window[0])];
      IngestAbortsOnlyOnUnsafe(next, window[1..], make);
      assert forall i :: 1 <= i < |window| ==> window[i] == window[1..][i - 1];
    }
  }

  /**
    A poll only appends, and what it appends is one `make(line)` per line of
    the window whose text was not shown before: no text is added twice and
    none that was already there.
   */
  lemma IngestAppendsFreshLines(entries: seq<Entry>, window: seq<string>, make: string -> Entry)
    requires KeyedByLine(make)
    ensures var r := Ingest(entries, window, make).entries;
      && |entries| <= |r| && r[..|entries|] == entries
      && (forall j :: |entries| <= j < |r| ==>
            r[j].key.Some? && r[j].key.value in window && r[j] == make(r[j].key.value))
      && (forall j, k :: |entries| <= j < |r| && 0 <= k < |r| && k != j ==> r[k].key != r[j].key)
  {
    IngestExtends(entries, window, make);
    IngestAddsWindowLines(entries, window, make);
    IngestAddsNoDuplicate(entries, window, make);
  }

  lemma {:induction false} IngestExtends(entries: seq<Entry>, window: seq<string>, make: string -> Entry)
    ensures var r := Ingest(entries, window, make).entries;
            |entries| <= |r| && r[..|entries|] == entries
    decreases |window|
  {
    if window != [] && SelectorSafe(window[0]) {
      var next := if KeyIn(entries, window[0]) then entries else entries + [make(window[0])];
      IngestExtends(next, window[1..], make);
      var r := Ingest(next, window[1..], make).entries;
      assert r[..|entries|] == r[..|next|][..|entries|];
    }
  }

  lemma {:induction false} IngestAddsWindowLines(entries: seq<Entry>, window: seq<string>, make: string -> Entry)
    requires KeyedByLine(make)
    ensures var r := Ingest(entries, window, make).entries;
            forall j :: |entries| <= j < |r| ==>
              r[j].key.Some? && r[j].key.value in window && r[j] == make(r[j].key.value)
    decreases |window|
  {
    if window != [] && SelectorSafe(window[0]) {
      var t := window[0];
      var next := if KeyIn(entries, t) then entries else entries + [make(t)];
      IngestAddsWindowLines(next, window[1..], make);
      IngestExtends(next, window[1..], make);
      var r := Ingest(next, window[1..], make).entries;
      forall j | |entries| <= j < |r|
        ensures r[j].key.Some? && r[j].key.value in window && r[j] == make(r[j].key.value)
      {
        if j < |next| {
          assert r[j] == r[..|next|][j] == next[j];
        } else {
          assert r[j].key.value in window[1..];
        }
      }
    }
  }

  lemma {:induction false} IngestAddsNoDuplicate(entries: seq<Entry>, window: seq<string>, make: string -> Entry)
    requires KeyedByLine(make)
    ensures var r := Ingest(entries, window, make).entries;
            forall j, k :: |entries| <= j < |r| && 0 <= k < |r| && k != j ==> r[k].key != r[j].key
    decreases |window|
  {
    if window != [] && SelectorSafe(window[0]) {
      var t := window[0];
      var next := if KeyIn(entries, t) then entries else entries + [make(t)];
      IngestAddsNoDuplicate(next, window[1..], make);
      IngestExtends(next, window[1..], make);
      var r := Ingest(next, window[1..], make).entries;
      forall j, k | |entries| <= j < |r| && 0 <= k < |r| && k != j
        ensures r[k].key != r[j].key
      {
        if j < |next| && k < |next| {
          assert r[j] == r[..|next|][j] == next[j];
          assert r[k] == r[..|next|][k] == next[k];
          assert j == |entries| && next[j].key == Some(t);
          assert k < |entries| && next[k] == entries[k];
        }
      }
    }
  }

  /**
    A poll that does not throw leaves every line of its window shown: a text
    that was already there stays, and any other is appended.
   */
  lemma {:induction false} IngestShowsEveryLine(entries: seq<Entry>, window: seq<string>, make: string -> Entry)
    requires KeyedByLine(make)
    ensures var r := Ingest(entries, window, make);
            !r.aborted ==> forall t :: t in window ==> KeyIn(r.entries, t)
    decreases |window|
  {
    if window != [] && SelectorSafe(window[0]) {
      var t := window[0];
      var next := if KeyIn(entries, t) then entries else entries + [make(t)];
      assert KeyIn(next, t) by {
        if !KeyIn(entries, t) {
          assert next[|entries|] == make(t);
        }
      }
      IngestShowsEveryLine(next, window[1..], make);
      IngestExtends(next, window[1..], make);
      var r := Ingest(next, window[1..], make).entries;
      var i :| 0 <= i < |next| && next[i].key == Some(t);
      assert r[i] == r[..|next|][i];
      forall u | u in window && !Ingest(entries, window, make).aborted
        ensures KeyIn(r, u)
      {
        if u != t {
          assert u in window[1..];
        }
      }
    }
  }

  class Page {
    var paused: bool
    const log: LogContainer

    constructor()
      ensures !paused && fresh(log) && log.entries == []
    {
      paused := false;
      log := new LogContainer();
    }

    /**
      One `fetchEventLog()` given the lines the backend returned.  While paused
      nothing happens; an empty answer changes nothing; otherwise the last 20
      lines, newest first, go through `Ingest`, and a poll that did not throw
      ends by trimming the container to 50 entries.
     */
    method FetchEventLog(events: seq<string>, nowMs: nat)
      modifies log
      ensures paused || events == [] ==> log.entries == old(log.entries)
      ensures !paused && events != [] ==>
        var r := Ingest(old(log.entries), RecentWindow(events), LogEntryAt(nowMs));
        log.entries == if r.aborted then r.entries else Cap(r.entries)
    {
      if paused {
        return;
      }
      if |events| > 0 {
        var aborted := IngestWindow(RecentWindow(events), LogEntryAt(nowMs));
        if aborted {
          return;
        }
        log.TrimToCap();
      }
    }

    /** The `forEach` of a poll over `window`, building entries with `make`; `aborted` tells whether a selector threw. */
    method IngestWindow(window: seq<string>, make: string -> Entry) returns (aborted: bool)
      modifies log
      ensures var r := Ingest(old(log.entries), window, make);
              log.entries == r.entries && aborted == r.aborted
    {
      ghost var target := Ingest(log.entries, window, make);
      var i := 0;
      while i < |window|
        invariant 0 <= i <= |window|
        invariant Ingest(log.entries, window[i..], make) == target
      {
        var t := window[i];
        assert window[i..][0] == t && window[i..][1..] == window[i + 1..];
        if !SelectorSafe(t) {
          return true;
        }
        IngestStep(log.entries, window[i..], make);
        if !log.HasKey(t) {
          log.Append(make(t));
        }
        i := i + 1;
      }
      return false;
    }

    /**
      `addEventLog(message, type)`: the message stamped with `Date.now()` (in
      milliseconds, later shown as if microseconds) goes in front, then the
      container is trimmed to 50.  The `type` argument is not used.
     */
    method AddEventLog(message: string, nowMs: nat)
      modifies log
      ensures log.entries == Cap([CreateLogEntry("[" + NatToString(nowMs) + "] " + message, nowMs)] + old(log.entries))
    {
      log.Prepend(CreateLogEntry("[" + NatToString(nowMs) + "] " + message, nowMs));
    }

    /** `togglePause()`: flips the flag and logs `System paused` or `System resumed`. */
    method TogglePause(nowMs: nat)
      modifies this, log
      ensures paused == !old(paused)
      ensures var m := if paused then "System paused" else "System resumed";
              log.entries == Cap([CreateLogEntry("[" + NatToString(nowMs) + "] " + m, nowMs)] + old(log.entries))
    {
      paused := !paused;
      if paused {
        AddEventLog("System paused", nowMs);
      } else {
        AddEventLog("System resumed", nowMs);
      }
    }
  }

  /**
    A poll whose newest 20 lines all fit in a selector runs to its end: each
    of those lines is then shown, and the trim that follows keeps the first
    50 entries.
   */
  lemma CompletedPollShowsWindow(entries: seq<Entry>, events: seq<string>, make: string -> Entry)
    requires KeyedByLine(make)
    requires forall i :: 0 <= i < |events| ==> SelectorSafe(events[i])
    ensures var r := Ingest(entries, RecentWindow(events), make);
            && !r.aborted
            && (forall t :: t in RecentWindow(events) ==> KeyIn(r.entries, t))
  {
    var w := RecentWindow(events);
    forall i | 0 <= i < |w|
      ensures SelectorSafe(w[i])
    {
      assert w[i] in events;
    }
    IngestAbortsOnlyOnUnsafe(entries, w, make);
    IngestShowsEveryLine(entries, w, make);
  }

  /** A locally added message shows the time `nowMs` and the message itself. */
  lemma AddedEntryShowsMessage(message: string, nowMs: nat)
    requires message == [] || !IsJsSpace(message[0])
    ensures var e := CreateLogEntry("[" + NatToString(nowMs) + "] " + message, nowMs);
            e.time == FormatMicrosecondTimestamp(nowMs) && e.msg == message
  {
    StampedTextRoundTrip(nowMs, message, nowMs);
  }
}
