/**
  The backend event log of logger.py: a `deque(maxlen=max_logs)` of text lines.
  Each logged message either already carries a `[...]` stamp and is stored as
  it is, or gets `[<now in microseconds>] ` put in front of it.
 */
module EventLogger {
  import opened Text
  import opened EventClassifier

  /** `Logger()` keeps at most this many lines. */
  const DefaultMaxLogs: nat := 10000

  /** `message.startswith('[') and ']' in message`. */
  predicate HasTimestamp(message: string) {
    |message| > 0 && message[0] == '[' && ']' in message
  }

  /** The line `log(message)` stores when the clock reads `nowUs` microseconds. */
  function Stamp(message: string, nowUs: nat): (line: string)
    ensures HasTimestamp(line)
    ensures HasTimestamp(message) ==> line == message
    ensures |line| >= |message| && line[|line| - |message|..] == message
  {
    if HasTimestamp(message) then message
    else
      var line := Line(nowUs, message);
      assert line[|NatToString(nowUs)| + 1] == ']';
      assert line[|line| - |message|..] == message;
      line
  }

  /** Stamping is idempotent: a stored line is stored unchanged when logged again, whatever the clock reads. */
  lemma StampIdempotent(message: string, t1: nat, t2: nat)
    ensures Stamp(Stamp(message, t1), t2) == Stamp(message, t1)
  {
  }

  /** A message logged without a stamp is stamped with the clock, and a stored line shows back that time and that message on the dashboard. */
  lemma StampedLineShowsTime(message: string, nowUs: nat, nowMs: nat)
    requires !HasTimestamp(message)
    requires message == [] || !IsJsSpace(message[0])
    ensures Stamp(message, nowUs) == Line(nowUs, message)
    ensures EventMicros(Stamp(message, nowUs), nowMs) == nowUs
    ensures DisplayMessage(Stamp(message, nowUs)) == message
  {
    StampedTextRoundTrip(nowUs, message, nowMs);
  }

  /** `f"[{t}] {rest}"`, the shape of every line the backend components log. */
  function Line(t: nat, rest: string): string {
    "[" + NatToString(t) + "] " + rest
  }

  /** A line that starts with a decimal stamp is stored verbatim. */
  lemma LineKept(t: nat, rest: string, nowUs: nat)
    ensures Stamp(Line(t, rest), nowUs) == Line(t, rest)
  {
    assert Line(t, rest)[|NatToString(t)| + 1] == ']';
  }

  /**
    What a `deque(maxlen=n)` holds after the lines `s` were appended to an
    empty one: the newest `n`, oldest dropped first.  It is also Python's
    slice `s[-n:]` for `n > 0`.
   */
  function Bounded<T>(s: seq<T>, n: nat): (r: seq<T>)
    ensures |r| == if |s| <= n then |s| else n
    ensures r == s[|s| - |r|..]
  {
    if |s| <= n then s else s[|s| - n..]
  }

  /** Bounding before more lines arrive loses nothing the final bound would keep. */
  lemma BoundedSuffixAppend<T>(s: seq<T>, t: seq<T>, n: nat)
    ensures Bounded(Bounded(s, n) + t, n) == Bounded(s + t, n)
  {
    if |s| > n {
      var x := s + t;
      var i := |s| - n;
      assert Bounded(s, n) + t == x[i..];
      SuffixOfSuffix(x, i, n);
    }
  }

  /** The last `k` elements of a suffix are the last `k` of the whole. */
  lemma SuffixOfSuffix<T>(x: seq<T>, i: nat, k: nat)
    requires i <= |x| && k <= |x| - i
    ensures x[i..][|x| - i - k..] == x[|x| - k..]
  {
  }

  /** Appending one line to a deque within its bound drops the oldest line exactly when the bound is passed. */
  lemma BoundedSnoc<T>(s: seq<T>, x: T, n: nat)
    requires |s| <= n
    ensures Bounded(s + [x], n) == if |s| + 1 > n then (s + [x])[1..] else s + [x]
  {
  }

  /** Lines logged one batch after another make up one batch: `(h + a) + b == h + (a + b)`. */
  lemma AppendBatches<T>(h: seq<T>, a: seq<T>, b: seq<T>)
    ensures h + a + b == h + (a + b)
  {
  }

  class Logger {
    var logs: seq<string>
    const maxLogs: nat
    /** Every line logged since the deque was created or last cleared, including those it has dropped. */
    ghost var history: seq<string>

    /** `Logger(max_logs)`: an empty deque. */
    constructor(maxLogs: nat)
      ensures this.maxLogs == maxLogs && logs == [] && history == []
      ensures Valid()
    {
      this.maxLogs := maxLogs;
      logs := [];
      history := [];
    }

    /** The deque holds the newest `maxlen` lines of its history, so never more than `maxlen`. */
    ghost predicate Valid()
      reads this
      ensures Valid() ==> |logs| <= maxLogs
    {
      logs == Bounded(history, maxLogs)
    }

    /**
      `log(message, level)`: one line appended at the end, the oldest dropped
      once the deque is full.  `level` plays no part in what is stored.
     */
    method Log(message: string, level: string, nowUs: nat)
      requires Valid()
      modifies this
      ensures Valid()
      ensures history == old(history) + [Stamp(message, nowUs)]
      ensures logs == Bounded(old(logs) + [Stamp(message, nowUs)], maxLogs)
      ensures maxLogs > 0 ==> |logs| > 0 && logs[|logs| - 1] == Stamp(message, nowUs)
      ensures |old(logs)| < maxLogs ==> logs == old(logs) + [Stamp(message, nowUs)]
    {
      var line := Stamp(message, nowUs);
      BoundedSuffixAppend(history, [line], maxLogs);
      BoundedSnoc(logs, line, maxLogs);
      history := history + [line];
      logs := logs + [line];
      if |logs| > maxLogs {
        logs := logs[1..];
      }
      assert logs == Bounded(old(logs) + [line], maxLogs);
    }

    /** A line already stamped with `t`, logged (its own stamp is kept). */
    method LogLine(t: nat, rest: string)
      requires Valid()
      modifies this
      ensures Valid()
      ensures history == old(history) + [Line(t, rest)]
    {
      LineKept(t, rest, t);
      Log(Line(t, rest), "INFO", t);
    }

    /** `get_logs()`: the lines in the order they were logged; nothing changes. */
    method GetLogs() returns (r: seq<string>)
      ensures r == logs
    {
      r := logs;
    }

    /** `clear()`. */
    method Clear()
      modifies this
      ensures logs == [] && history == [] && Valid()
    {
      logs := [];
      history := [];
    }
  }
}
