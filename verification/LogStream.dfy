/** The log stream: a ring buffer of recent lines and a capped queue of undelivered ones.
    `Log` is the simple form, the whole list of lines written and how far delivery has got; the class
    keeps only the ring and the queue and is proved to agree with it. */
module LogStream {

  const MAX_PENDING := 5000

  /** A written line, or the marker that stands for a run of dropped lines starting at `seqNo`. */
  datatype Entry =
    | Line(seqNo: int, category: string, message: string, time: string)
    | Overflow(seqNo: int, dropped: nat, limit: nat)

  // ---- The simple form ----

  /** Every line written so far, and how many of them delivery has accounted for. */
  datatype Log = Log(enabled: bool, lines: seq<Entry>, delivered: nat, limit: nat)

  datatype Op = Write(category: string, message: string, time: string) | Drain | Enable(on: bool)

  predicate Sound(g: Log) {
    && g.delivered <= |g.lines| && g.limit > 0
    && forall i :: 0 <= i < |g.lines| ==> g.lines[i].Line? && g.lines[i].seqNo == i + 1
  }

  function Min(a: int, b: int): int { if a < b then a else b }

  /** The undelivered lines that the queue still holds: the newest, up to its limit. */
  function Queued(g: Log): seq<Entry>
    requires Sound(g)
  {
    g.lines[|g.lines| - Min(g.limit, |g.lines| - g.delivered)..]
  }

  function DrainOut(g: Log): seq<Entry>
    requires Sound(g)
  {
    var lost := |g.lines| - g.delivered - |Queued(g)|;
    if g.delivered == |g.lines| then []
    else if lost > 0 then [Overflow(g.delivered + 1, lost, g.limit)] + Queued(g)
    else Queued(g)
  }

  function Apply(g: Log, op: Op): Log {
    match op
    case Write(category, message, time) =>
      if g.enabled then g.(lines := g.lines + [Line(|g.lines| + 1, category, message, time)]) else g
    case Drain => g.(delivered := |g.lines|)
    case Enable(on) => g.(enabled := on)
  }

  function Recent(g: Log, n: int, capacity: nat): seq<Entry> {
    var k := Min(n, Min(capacity, |g.lines|));
    if k <= 0 then [] else g.lines[|g.lines| - k..]
  }

  // ---- Delivery covers every sequence number once ----

  /** The first sequence number after what an entry stands for. */
  function Next(e: Entry): int {
    match e
    case Line(n, _, _, _) => n + 1
    case Overflow(n, dropped, _) => n + dropped
  }

  /** The entries stand for the numbers lo + 1 .. hi, each exactly once and in order. */
  predicate Covers(out: seq<Entry>, lo: int, hi: int) {
    if out == [] then lo == hi
    else
      var last := out[|out| - 1];
      Next(last) == hi + 1 && last.seqNo > lo && last.seqNo <= hi && Covers(out[..|out| - 1], lo, last.seqNo - 1)
  }

  lemma {:induction false} CoversConcat(a: seq<Entry>, b: seq<Entry>, lo: int, mid: int, hi: int)
    requires Covers(a, lo, mid) && Covers(b, mid, hi) && lo <= mid
    ensures Covers(a + b, lo, hi)
    decreases |b|
  {
    if b == [] {
      assert a + b == a;
    } else {
      CoversConcat(a, b[..|b| - 1], lo, mid, b[|b| - 1].seqNo - 1);
      assert (a + b)[..|a + b| - 1] == a + b[..|b| - 1];
    }
  }

  lemma {:induction false} LinesCover(g: Log, lo: nat, hi: nat)
    requires Sound(g) && lo <= hi <= |g.lines|
    ensures Covers(g.lines[lo..hi], lo, hi)
    decreases hi
  {
    if lo < hi {
      LinesCover(g, lo, hi - 1);
      assert g.lines[lo..hi][..hi - lo - 1] == g.lines[lo..hi - 1];
    }
  }

  lemma DrainCovers(g: Log)
    requires Sound(g)
    ensures Covers(DrainOut(g), g.delivered, |g.lines|)
  {
    var start := |g.lines| - |Queued(g)|;
    if g.delivered < |g.lines| {
      LinesCover(g, start, |g.lines|);
      assert g.lines[start..|g.lines|] == Queued(g);
      if start > g.delivered {
        var marker := Overflow(g.delivered + 1, start - g.delivered, g.limit);
        assert [marker][..0] == [];
        CoversConcat([marker], Queued(g), g.delivered, start, |g.lines|);
      } else {
        assert DrainOut(g) == Queued(g);
      }
    }
  }

  function Run(g: Log, ops: seq<Op>): Log {
    if ops == [] then g else Apply(Run(g, ops[..|ops| - 1]), ops[|ops| - 1])
  }

  lemma {:induction false} RunSound(g: Log, ops: seq<Op>)
    requires Sound(g)
    ensures Sound(Run(g, ops))
  {
    if ops != [] {
      RunSound(g, ops[..|ops| - 1]);
    }
  }

  /** Everything the drains of a run hand out, one after the other. */
  function AllDrained(g: Log, ops: seq<Op>): seq<Entry>
    requires Sound(g)
  {
    if ops == [] then []
    else
      RunSound(g, ops[..|ops| - 1]);
      AllDrained(g, ops[..|ops| - 1]) + (if ops[|ops| - 1].Drain? then DrainOut(Run(g, ops[..|ops| - 1])) else [])
  }

  /** For every run of writes, drains and toggles, the drains together cover the sequence numbers from
      where delivery stood to where it stands, with no gap and no overlap. */
  lemma {:induction false} DrainsCover(g: Log, ops: seq<Op>)
    requires Sound(g)
    ensures g.delivered <= Run(g, ops).delivered && Covers(AllDrained(g, ops), g.delivered, Run(g, ops).delivered)
  {
    if ops != [] {
      var before := ops[..|ops| - 1];
      RunSound(g, before);
      DrainsCover(g, before);
      if ops[|ops| - 1].Drain? {
        DrainCovers(Run(g, before));
        CoversConcat(AllDrained(g, before), DrainOut(Run(g, before)),
                     g.delivered, Run(g, before).delivered, |Run(g, before).lines|);
      } else {
        assert AllDrained(g, ops) == AllDrained(g, before);
      }
    }
  }

  // ---- What is handed out ----

  /** A line handed out is the line written under its number. */
  lemma DrainGivesLines(g: Log, i: nat)
    requires Sound(g) && i < |DrainOut(g)| && DrainOut(g)[i].Line?
    ensures var e := DrainOut(g)[i]; 1 <= e.seqNo <= |g.lines| && e == g.lines[e.seqNo - 1]
  {
    var out, q := DrainOut(g), Queued(g);
    var k := if |out| == |q| then i else i - 1;
    assert out[i] == q[k] == g.lines[|g.lines| - |q| + k];
  }

  /** Lines are dropped exactly when more are undelivered than the queue holds, then only the excess, and
      behind one marker, which comes first. */
  lemma DrainDropsIff(g: Log)
    requires Sound(g)
    ensures var out := DrainOut(g); var undelivered := |g.lines| - g.delivered;
            && (undelivered > g.limit ==>
                  |out| == g.limit + 1 && out[0] == Overflow(g.delivered + 1, undelivered - g.limit, g.limit))
            && (undelivered <= g.limit ==> out == g.lines[g.delivered..])
  {
  }

  /** A write while the stream is enabled adds one line, numbered next and carrying what was given; otherwise it
      adds none. Neither touches what was delivered. */
  lemma WriteAdds(g: Log, category: string, message: string, time: string)
    requires Sound(g)
    ensures var g' := Apply(g, Write(category, message, time));
            && g'.delivered == g.delivered && g'.enabled == g.enabled && g'.limit == g.limit
            && (g.enabled ==> |g'.lines| == |g.lines| + 1 && g'.lines[..|g.lines|] == g.lines
                              && g'.lines[|g.lines|] == Line(|g.lines| + 1, category, message, time))
            && (!g.enabled ==> g'.lines == g.lines)
  {
  }

  /** The recent lines are the end of what was written: as many as asked for, kept and written. */
  lemma RecentIsEnd(g: Log, n: int, capacity: nat)
    ensures var r := Recent(g, n, capacity);
            && |r| <= |g.lines| && r == g.lines[|g.lines| - |r|..]
            && |r| <= capacity && (n >= 0 ==> |r| <= n) && (n <= 0 ==> r == [])
            && (|r| == |g.lines| || |r| == capacity || |r| == n || n < 0)
  {
  }

  // ---- The ring and the queue ----

  class Stream {
    var enabled: bool
    const buf: array<Entry>
    var head: nat
    var count: nat
    var seqNo: nat
    var pending: seq<Entry>
    const maxPend: nat
    var overflow: nat
    ghost var log: Log

    constructor (capacity: int)
      ensures Valid() && fresh(buf) && buf.Length == (if capacity <= 0 then 2000 else capacity)
      ensures log == Log(false, [], 0, 5000)
    {
      var n := if capacity <= 0 then 2000 else capacity;
      buf := new Entry[n](_ => Line(0, "", "", ""));
      enabled, head, count, seqNo, pending, maxPend, overflow := false, 0, 0, 0, [], MAX_PENDING, 0;
      log := Log(false, [], 0, MAX_PENDING);
    }

    ghost predicate Valid()
      reads this, buf
    {
      && Sound(log) && buf.Length > 0 && log.limit == maxPend && log.enabled == enabled
      && seqNo == |log.lines| && RingHolds(buf[..], head, count, log.lines)
      && pending == Queued(log) && overflow == |log.lines| - log.delivered - |pending|
    }

    method SetEnabled(on: bool)
      requires Valid()
      modifies this`enabled, this`log
      ensures Valid() && log == Apply(old(log), Enable(on))
    {
      enabled := on;
      log := Apply(log, Enable(on));
    }

    method Write(category: string, message: string, time: string)
      requires Valid()
      modifies this, buf
      ensures Valid() && log == Apply(old(log), Op.Write(category, message, time))
    {
      if !enabled {
        return;
      }
      seqNo := seqNo + 1;
      var entry := Line(seqNo, category, message, time);
      QueueWrite(log, category, message, time);
      PutInRing(entry, log.lines);
      PutInQueue(entry);
      ghost var next := Apply(log, Op.Write(category, message, time));
      assert next.lines == log.lines + [entry] && pending == Queued(next);
      log := next;
    }

    method PutInRing(entry: Entry, ghost lines: seq<Entry>)
      requires RingHolds(buf[..], head, count, lines)
      modifies this`head, this`count, buf
      ensures RingHolds(buf[..], head, count, lines + [entry])
    {
      RingWrite(buf[..], head, count, lines, entry);
      ghost var ring := buf[..];
      buf[head] := entry;
      assert buf[..] == ring[head := entry];
      head := (head + 1) % buf.Length;
      if count < buf.Length {
        count := count + 1;
      }
    }

    method PutInQueue(entry: Entry)
      requires maxPend > 0
      modifies this`pending, this`overflow
      ensures pending == (if |old(pending)| >= maxPend then old(pending)[1..] else old(pending)) + [entry]
      ensures overflow == old(overflow) + (if |old(pending)| >= maxPend then 1 else 0)
    {
      if |pending| >= maxPend {
        pending := pending[1..] + [entry];
        overflow := overflow + 1;
      } else {
        pending := pending + [entry];
      }
    }

    method Drain() returns (out: seq<Entry>)
      requires Valid()
      modifies this`pending, this`overflow, this`log
      ensures Valid() && log == Apply(old(log), Op.Drain) && out == DrainOut(old(log))
    {
      if |pending| == 0 {
        log := Apply(log, Op.Drain);
        return [];
      }
      out := pending;
      if overflow > 0 {
        out := [Overflow(pending[0].seqNo - overflow, overflow, maxPend)] + out;
        overflow := 0;
      }
      pending := [];
      log := Apply(log, Op.Drain);
    }

    method History(n: int) returns (out: seq<Entry>)
      requires Valid()
      ensures out == Recent(log, n, buf.Length)
    {
      var k := n;
      if k > count {
        k := count;
      }
      if k <= 0 {
        return [];
      }
      var start := (head - k + buf.Length) % buf.Length;
      out := CopyFrom(start, k, log.lines[|log.lines| - k..]) by {
        forall i | 0 <= i < k
          ensures buf[..][Slot(start, i, buf.Length)] == log.lines[|log.lines| - k..][i]
        {
          RingRead(buf[..], head, count, log.lines, k, i);
        }
      }
    }

    method CopyFrom(start: nat, k: nat, ghost lines: seq<Entry>) returns (out: seq<Entry>)
      requires buf.Length > 0 && |lines| == k
      requires forall i :: 0 <= i < k ==> buf[..][Slot(start, i, buf.Length)] == lines[i]
      ensures out == lines
    {
      out := [];
      for i := 0 to k
        invariant out == lines[..i]
      {
        out := out + [buf[Slot(start, i, buf.Length)]];
      }
    }
  }

  // ---- Slots of the ring ----

  /** The ring holds the last `count` lines, line i in slot i mod capacity. */
  predicate RingHolds(ring: seq<Entry>, head: nat, count: nat, lines: seq<Entry>) {
    && |ring| > 0 && count == Min(|lines|, |ring|) && head == |lines| % |ring|
    && forall i :: |lines| - count <= i < |lines| ==> ring[i % |ring|] == lines[i]
  }

  lemma RingWrite(ring: seq<Entry>, head: nat, count: nat, lines: seq<Entry>, entry: Entry)
    requires RingHolds(ring, head, count, lines)
    ensures RingHolds(ring[head := entry], (head + 1) % |ring|, if count < |ring| then count + 1 else count,
                      lines + [entry])
  {
    var c, n, ring', all := |ring|, |lines|, ring[head := entry], lines + [entry];
    RingIndex(n, 1, c);
    forall i | |all| - Min(|all|, c) <= i < |all| ensures ring'[i % c] == all[i] {
      if i < n {
        DistinctSlots(i, n, c);
        assert ring'[i % c] == ring[i % c] == lines[i];
      }
    }
  }

  lemma MulBounds(c: int, k: int)
    requires c > 0
    ensures k >= 1 ==> c * k >= c
    ensures k <= -1 ==> c * k <= -c
  {
  }

  lemma DistinctSlots(i: nat, n: nat, c: nat)
    requires 0 < n - i < c
    ensures i % c != n % c
  {
    var k := n / c - i / c;
    MulBounds(c, k);
    assert n == c * (n / c) + n % c && i == c * (i / c) + i % c;
    assert c * k == c * (n / c) - c * (i / c);
  }

  lemma ModShift(q: int, r: int, c: nat)
    requires c > 0
    ensures (c * q + r) % c == r % c
  {
    var x := c * q + r;
    var k := x / c - q - r / c;
    MulBounds(c, k);
    assert x == c * (x / c) + x % c && r == c * (r / c) + r % c;
    assert c * k == c * (x / c) - c * q - c * (r / c);
  }

  /** The slot i places after `start`, going around. */
  function Slot(start: nat, i: nat, c: nat): (slot: nat)
    requires c > 0
    ensures slot < c
  {
    (start + i) % c
  }

  /** The i-th of the last k lines is where the reader looks for it. */
  lemma RingRead(ring: seq<Entry>, head: nat, count: nat, lines: seq<Entry>, k: nat, i: nat)
    requires RingHolds(ring, head, count, lines) && i < k <= count
    ensures var start := (head - k + |ring|) % |ring|; ring[Slot(start, i, |ring|)] == lines[|lines| - k + i]
  {
    RingStart(|lines|, k, |ring|);
    RingIndex(|lines| - k, i, |ring|);
  }

  lemma RingStart(n: nat, k: nat, c: nat)
    requires 0 < k <= c && k <= n
    ensures (n % c - k + c) % c == (n - k) % c
  {
    var q := n / c - 1;
    assert c * q == c * (n / c) - c;
    assert n - k == c * q + (n % c - k + c);
    ModShift(q, n % c - k + c, c);
  }

  lemma RingIndex(base: nat, i: nat, c: nat)
    requires c > 0
    ensures (base % c + i) % c == (base + i) % c
  {
    var q := base / c;
    assert base == c * q + base % c;
    assert base + i == c * q + (base % c + i);
    ModShift(q, base % c + i, c);
  }

  /** The queue after a write: it grows by the entry, or shifts out its oldest when full. */
  lemma QueueWrite(g: Log, category: string, message: string, time: string)
    requires Sound(g) && g.enabled
    ensures var g' := Apply(g, Op.Write(category, message, time)); var q := Queued(g);
            && Sound(g')
            && Queued(g') == (if |q| >= g.limit then q[1..] else q) + [g'.lines[|g.lines|]]
  {
  }
}
