/** The relay's trace log, which suppresses bursts: within a window after a line with some key, further
    lines with that key are only counted, and reported later as one tail line.
    Times and durations are integers (nanoseconds); an emitted line carries its key for bookkeeping. */
module Trace {

  const STATE_TTL := 300_000_000_000

  datatype KeyState = KeyState(lastSeen: int, pendingTail: string, pendingSeen: nat, sampledSeen: nat)

  datatype Line =
    | Plain(key: string, summary: string)
    | Tail(key: string, summary: string, suppressed: nat)
    | Sampled(key: string, summary: string, count: nat)

  datatype Logger = Logger(window: int, states: map<string, KeyState>, lines: seq<Line>)

  datatype Op =
    | LogAt(now: int, key: string, summary: string)
    | LogEveryN(now: int, key: string, summary: string, n: int)
    | FlushAgedAt(now: int, order: seq<string>)

  // ---- The operations ----

  function FlushPending(g: Logger, key: string): Logger
    requires key in g.states
  {
    var s := g.states[key];
    if s.pendingSeen == 0 || s.pendingTail == "" then g
    else g.(states := g.states[key := s.(pendingTail := "", pendingSeen := 0)],
            lines := g.lines + [Tail(key, s.pendingTail, s.pendingSeen - 1)])
  }

  function Logged(g: Logger, now: int, key: string, summary: string): Logger {
    if key !in g.states then
      g.(states := g.states[key := KeyState(now, "", 0, 0)], lines := g.lines + [Plain(key, summary)])
    else if now - g.states[key].lastSeen <= g.window then
      var s := g.states[key];
      g.(states := g.states[key := s.(lastSeen := now, pendingTail := summary, pendingSeen := s.pendingSeen + 1)])
    else
      var f := FlushPending(g, key);
      f.(states := f.states[key := f.states[key].(lastSeen := now)], lines := f.lines + [Plain(key, summary)])
  }

  function SampledEvery(g: Logger, now: int, key: string, summary: string, n: int): Logger {
    if n <= 0 then g
    else
      var s := if key in g.states then g.states[key] else KeyState(now, "", 0, 0);
      var s' := s.(lastSeen := now, sampledSeen := s.sampledSeen + 1);
      g.(states := g.states[key := s'],
         lines := if s'.sampledSeen % n == 0 then g.lines + [Sampled(key, summary, s'.sampledSeen)] else g.lines)
  }

  /** One key's turn in the periodic flush. */
  function FlushKey(g: Logger, now: int, key: string): Logger {
    if key !in g.states then g
    else
      var f := if g.states[key].pendingSeen > 0 && now - g.states[key].lastSeen > g.window
               then FlushPending(g, key) else g;
      if f.states[key].pendingSeen == 0 && now - f.states[key].lastSeen > STATE_TTL
      then f.(states := f.states - {key}) else f
  }

  function FlushAll(g: Logger, now: int, order: seq<string>): Logger {
    if order == [] then g else FlushKey(FlushAll(g, now, order[..|order| - 1]), now, order[|order| - 1])
  }

  function Apply(g: Logger, op: Op): Logger {
    match op
    case LogAt(now, key, summary) => Logged(g, now, key, summary)
    case LogEveryN(now, key, summary, n) => SampledEvery(g, now, key, summary, n)
    case FlushAgedAt(now, order) => FlushAll(g, now, order)
  }

  function Run(g: Logger, ops: seq<Op>): Logger {
    if ops == [] then g else Apply(Run(g, ops[..|ops| - 1]), ops[|ops| - 1])
  }

  // ---- Conservation ----

  /** How many calls a line accounts for. */
  function Weight(line: Line, key: string): nat {
    if line.key != key then 0
    else match line
      case Plain(_, _) => 1
      case Tail(_, _, suppressed) => suppressed + 1
      case Sampled(_, _, _) => 0
  }

  function Reported(lines: seq<Line>, key: string): nat {
    if lines == [] then 0 else Reported(lines[..|lines| - 1], key) + Weight(lines[|lines| - 1], key)
  }

  function Pending(g: Logger, key: string): nat {
    if key in g.states then g.states[key].pendingSeen else 0
  }

  function Calls(ops: seq<Op>, key: string): nat {
    if ops == [] then 0
    else Calls(ops[..|ops| - 1], key) + (if ops[|ops| - 1].LogAt? && ops[|ops| - 1].key == key then 1 else 0)
  }

  /** Calls with this key that the logger has reported or still holds. */
  function Account(g: Logger, key: string): nat {
    Reported(g.lines, key) + Pending(g, key)
  }

  lemma ReportedAppend(lines: seq<Line>, line: Line, key: string)
    ensures Reported(lines + [line], key) == Reported(lines, key) + Weight(line, key)
  {
    assert (lines + [line])[..|lines|] == lines;
  }

  lemma FlushPendingAccount(g: Logger, k: string, key: string)
    requires k in g.states
    ensures Account(FlushPending(g, k), key) == Account(g, key)
  {
    var s := g.states[k];
    if s.pendingSeen > 0 {
      ReportedAppend(g.lines, Tail(k, s.pendingTail, s.pendingSeen - 1), key);
    }
  }

  lemma LoggedAccount(g: Logger, now: int, k: string, summary: string, key: string)
    ensures Account(Logged(g, now, k, summary), key) == Account(g, key) + (if k == key then 1 else 0)
  {
    if k !in g.states {
      ReportedAppend(g.lines, Plain(k, summary), key);
    } else if now - g.states[k].lastSeen > g.window {
      FlushPendingAccount(g, k, key);
      ReportedAppend(FlushPending(g, k).lines, Plain(k, summary), key);
    }
  }

  lemma SampledAccount(g: Logger, now: int, k: string, summary: string, n: int, key: string)
    ensures Account(SampledEvery(g, now, k, summary, n), key) == Account(g, key)
  {
    if n > 0 {
      ReportedAppend(g.lines, Sampled(k, summary, (if k in g.states then g.states[k].sampledSeen else 0) + 1), key);
    }
  }

  lemma {:induction false} FlushAllAccount(g: Logger, now: int, order: seq<string>, key: string)
    ensures Account(FlushAll(g, now, order), key) == Account(g, key)
    decreases |order|
  {
    if order != [] {
      FlushAllAccount(g, now, order[..|order| - 1], key);
      var f, k := FlushAll(g, now, order[..|order| - 1]), order[|order| - 1];
      if k in f.states {
        FlushPendingAccount(f, k, key);
      }
    }
  }

  /** For every key and every sequence of calls at any times: the calls made equal the plain lines, plus
      the calls the tail lines stand for, plus the calls still pending. */
  lemma {:induction false} Conservation(window: int, ops: seq<Op>, key: string)
    ensures Calls(ops, key) == Account(Run(Logger(window, map[], []), ops), key)
  {
    if ops != [] {
      var before, op := ops[..|ops| - 1], ops[|ops| - 1];
      Conservation(window, before, key);
      var g := Run(Logger(window, map[], []), before);
      match op
      case LogAt(now, k, summary) => LoggedAccount(g, now, k, summary, key);
      case LogEveryN(now, k, summary, n) => SampledAccount(g, now, k, summary, n, key);
      case FlushAgedAt(now, order) => FlushAllAccount(g, now, order, key);
    }
  }

  /** A flush after the window reports everything pending on the key, exactly when the last suppressed
      summary was not empty; an empty one keeps the count until a non-empty summary arrives. */
  lemma FlushReportsIff(g: Logger, now: int, key: string)
    requires key in g.states && g.states[key].pendingSeen > 0 && now - g.states[key].lastSeen > g.window
    ensures Pending(FlushKey(g, now, key), key) == 0 <==> g.states[key].pendingTail != ""
    ensures Reported(FlushKey(g, now, key).lines, key) ==
            Reported(g.lines, key) + (if g.states[key].pendingTail != "" then g.states[key].pendingSeen else 0)
  {
    ReportedAppend(g.lines, Tail(key, g.states[key].pendingTail, g.states[key].pendingSeen - 1), key);
  }

  // ---- Suppression ----

  /** A call writes its line exactly when its key is new or was last seen longer ago than the window; the line
      is then the last one written, after at most the tail of the burst before it. */
  lemma WritesIff(g: Logger, now: int, key: string, summary: string)
    ensures var f := Logged(g, now, key, summary);
            var writes := key !in g.states || now - g.states[key].lastSeen > g.window;
            && key in f.states && f.states[key].lastSeen == now
            && (writes ==> |g.lines| < |f.lines| <= |g.lines| + 2 && f.lines[..|g.lines|] == g.lines
                           && f.lines[|f.lines| - 1] == Plain(key, summary))
            && (writes && |f.lines| == |g.lines| + 2 ==>
                  f.lines[|g.lines|] == Tail(key, g.states[key].pendingTail, g.states[key].pendingSeen - 1))
            && (!writes ==> f.lines == g.lines && f.states[key].pendingTail == summary
                            && f.states[key].pendingSeen == g.states[key].pendingSeen + 1)
            && (forall k :: k != key ==> (k in f.states <==> k in g.states) && (k in g.states ==> f.states[k] == g.states[k]))
  {
  }

  function Burst(key: string, calls: seq<(int, string)>): seq<Op> {
    seq(|calls|, i requires 0 <= i < |calls| => LogAt(calls[i].0, key, calls[i].1))
  }

  predicate Close(window: int, calls: seq<(int, string)>) {
    forall i :: 0 <= i < |calls| - 1 ==> calls[i + 1].0 - calls[i].0 <= window
  }

  lemma {:induction false} BurstState(g: Logger, key: string, calls: seq<(int, string)>)
    requires key !in g.states && calls != [] && Close(g.window, calls)
    ensures var f := Run(g, Burst(key, calls));
            && f.window == g.window && f.lines == g.lines + [Plain(key, calls[0].1)] && key in f.states
            && f.states[key].lastSeen == calls[|calls| - 1].0 && f.states[key].pendingSeen == |calls| - 1
            && (|calls| > 1 ==> f.states[key].pendingTail == calls[|calls| - 1].1)
    decreases |calls|
  {
    var n := |calls| - 1;
    assert Burst(key, calls)[..n] == Burst(key, calls[..n]);
    if n == 0 {
      assert Burst(key, calls)[..0] == [];
    } else {
      BurstState(g, key, calls[..n]);
      assert calls[n].0 - calls[n - 1].0 <= g.window;
    }
  }

  /** A burst of calls with a new key, each within the window of the one before: only the first is written, and
      a flush after the window reports all the others in one tail line that carries the last summary. */
  lemma BurstIsTwoLines(g: Logger, key: string, calls: seq<(int, string)>, now: int)
    requires key !in g.states && |calls| >= 2 && Close(g.window, calls)
    requires calls[|calls| - 1].1 != "" && now - calls[|calls| - 1].0 > g.window
    ensures FlushKey(Run(g, Burst(key, calls)), now, key).lines ==
            g.lines + [Plain(key, calls[0].1)] + [Tail(key, calls[|calls| - 1].1, |calls| - 2)]
  {
    BurstState(g, key, calls);
  }

  /** A flush forgets a key exactly when nothing of it is pending any more and it is older than the limit. */
  lemma FlushForgetsIff(g: Logger, now: int, key: string)
    requires key in g.states
    ensures var s := g.states[key]; var age := now - s.lastSeen; var f := FlushKey(g, now, key);
            && (key !in f.states <==>
                age > 300_000_000_000 && (s.pendingSeen == 0 || (age > g.window && s.pendingTail != "")))
            && (age <= g.window ==> f.lines == g.lines)
            && (forall k :: k != key ==> (k in f.states <==> k in g.states) && (k in g.states ==> f.states[k] == g.states[k]))
  {
  }

  function Samples(key: string, summary: string, n: int, times: seq<int>): seq<Op> {
    seq(|times|, i requires 0 <= i < |times| => LogEveryN(times[i], key, summary, n))
  }

  /** Of the samples of a new key every n-th is written, with its number. */
  lemma {:induction false} EveryNth(g: Logger, key: string, summary: string, n: int, times: seq<int>)
    requires key !in g.states && n > 0
    ensures var f := Run(g, Samples(key, summary, n, times));
            && |f.lines| == |g.lines| + |times| / n
            && (times == [] ==> f == g)
            && (times != [] ==>
                  && key in f.states && f.states[key].sampledSeen == |times| && f.states[key].pendingSeen == 0
                  && f.states[key].lastSeen == times[|times| - 1])
            && (times != [] && |times| % n == 0 ==> f.lines[|f.lines| - 1] == Sampled(key, summary, |times|))
    decreases |times|
  {
    if times != [] {
      var m := |times| - 1;
      assert Samples(key, summary, n, times)[..m] == Samples(key, summary, n, times[..m]);
      EveryNth(g, key, summary, n, times[..m]);
      NextMultiple(m, n);
    }
  }

  lemma NextMultiple(m: nat, n: int)
    requires n > 0
    ensures (m + 1) / n == m / n + if (m + 1) % n == 0 then 1 else 0
  {
    var q, r := m / n, m % n;
    assert m + 1 == n * q + (r + 1);
    if r + 1 == n {
      assert m + 1 == n * (q + 1);
      Quotient(m + 1, n, q + 1, 0);
    } else {
      Quotient(m + 1, n, q, r + 1);
    }
  }

  lemma Quotient(x: nat, n: int, q: nat, r: nat)
    requires n > 0 && x == n * q + r && r < n
    ensures x / n == q && x % n == r
  {
    var d := x / n - q;
    assert x == n * (x / n) + x % n;
    assert n * d == n * (x / n) - n * q;
    assert d >= 1 ==> n * d >= n;
    assert d <= -1 ==> n * d <= -n;
  }

  // ---- The logger as the program runs it ----

  class TraceLogger {
    const window: int
    var states: map<string, KeyState>
    var lines: seq<Line>

    constructor (window: int)
      ensures View() == Logger(if window <= 0 then 1_500_000_000 else window, map[], [])
    {
      this.window := if window <= 0 then 1_500_000_000 else window;
      states, lines := map[], [];
    }

    function View(): Logger
      reads this
    {
      Logger(window, states, lines)
    }

    method FlushPendingLocked(key: string)
      requires key in states
      modifies this
      ensures View() == FlushPending(old(View()), key)
    {
      var s := states[key];
      if s.pendingSeen == 0 || s.pendingTail == "" {
        return;
      }
      lines := lines + [Tail(key, s.pendingTail, s.pendingSeen - 1)];
      states := states[key := s.(pendingTail := "", pendingSeen := 0)];
    }

    method LogAt(now: int, key: string, summary: string)
      modifies this
      ensures View() == Logged(old(View()), now, key, summary)
    {
      if key !in states {
        lines := lines + [Plain(key, summary)];
        states := states[key := KeyState(now, "", 0, 0)];
        return;
      }
      var s := states[key];
      if now - s.lastSeen <= window {
        states := states[key := s.(lastSeen := now, pendingTail := summary, pendingSeen := s.pendingSeen + 1)];
        return;
      }
      FlushPendingLocked(key);
      lines := lines + [Plain(key, summary)];
      states := states[key := states[key].(lastSeen := now)];
    }

    method LogEveryN(now: int, key: string, summary: string, n: int)
      modifies this
      ensures View() == SampledEvery(old(View()), now, key, summary, n)
    {
      if n <= 0 {
        return;
      }
      if key !in states {
        states := states[key := KeyState(now, "", 0, 0)];
      }
      var s := states[key].(lastSeen := now, sampledSeen := states[key].sampledSeen + 1);
      states := states[key := s];
      if s.sampledSeen % n != 0 {
        return;
      }
      lines := lines + [Sampled(key, summary, s.sampledSeen)];
    }

    /** Visits each key once, in some order, flushing and deleting aged states as it goes. */
    method FlushAgedAt(now: int) returns (ghost order: seq<string>)
      modifies this
      ensures View() == FlushAll(old(View()), now, order)
      ensures forall k :: k in old(states) <==> k in order
      ensures forall i, j :: 0 <= i < j < |order| ==> order[i] != order[j]
    {
      order := [];
      var rest := states.Keys;
      while rest != {}
        invariant View() == FlushAll(old(View()), now, order)
        invariant rest <= states.Keys
        invariant forall k :: k in old(states) <==> k in order || k in rest
        invariant forall k :: k in rest ==> k !in order
        invariant forall i, j :: 0 <= i < j < |order| ==> order[i] != order[j]
        decreases |rest|
      {
        var key :| key in rest;
        rest := rest - {key};
        FlushOne(now, key);
        ghost var next := order + [key];
        assert next[..|next| - 1] == order;
        order := next;
      }
    }

    method FlushOne(now: int, key: string)
      requires key in states
      modifies this
      ensures View() == FlushKey(old(View()), now, key)
      ensures forall k :: k in old(states) && k != key ==> k in states
    {
      var s := states[key];
      if s.pendingSeen > 0 && now - s.lastSeen > window {
        FlushPendingLocked(key);
      }
      if states[key].pendingSeen == 0 && now - states[key].lastSeen > STATE_TTL {
        states := states - {key};
      }
    }
  }
}
