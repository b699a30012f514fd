/** The reassembler of fragmented handshake messages: buffers per source and
    message, byte coverage kept as a bitset, bounded in four ways. The class
    updates its table with loops; `Step` says on values what one Add does. Which of
    several equally old buffers an eviction takes is left open (`victim`). */
module Reassembly {
  import opened Words
  import opened Bytes
  import opened DatagramCodec

  /** The identity of a remote, as its address would give it. */
  type Source = nat

  datatype BufferKey = BufferKey(sender: uint32, msgType: uint8)

  datatype Buffer = Buffer(total: nat, buf: Bytes, covered: seq<uint64>, coveredN: nat, createdAt: int)

  /** The buffers a reassembler holds: see Sized. */
  type Tallied = b: Buffer | Sized(b) witness Buffer(0, [], [], 0, 0)

  type Table = map<BufferKey, Tallied>

  datatype Limits = Limits(maxSources: nat, maxPerSource: nat, maxMessageSize: nat, timeout: nat)

  datatype State = State(limits: Limits, tables: map<Source, Table>)

  datatype Result = Refused | Partial | Whole(msg: Bytes)

  datatype Arrival = Arrival(source: Source, h: HandshakeHeader, fragment: Bytes, now: int)

  // ---- coverage ----

  /** How many of the first n positions are covered. */
  ghost function Count(covered: seq<uint64>, n: nat): (c: nat)
    requires n <= 64 * |covered|
    ensures c <= n
  {
    if n == 0 then 0 else Count(covered, n - 1) + if BitAt(covered, n - 1) then 1 else 0
  }

  lemma {:induction false} CountSet(covered: seq<uint64>, p: nat, n: nat)
    requires p < 64 * |covered| && n <= 64 * |covered|
    ensures Count(SetAt(covered, p), n) == Count(covered, n) + if p < n && !BitAt(covered, p) then 1 else 0
  {
    if n > 0 {
      CountSet(covered, p, n - 1);
      BitAtSet(covered, p, n - 1);
    }
  }

  /** The count is full exactly when every position is covered. */
  lemma {:induction false} CountFull(covered: seq<uint64>, n: nat)
    requires n <= 64 * |covered|
    ensures Count(covered, n) == n <==> forall p: nat :: p < n ==> BitAt(covered, p)
  {
    if n > 0 { CountFull(covered, n - 1); }
  }

  /** Equal counts leave nothing covered between. */
  lemma {:induction false} CountGap(covered: seq<uint64>, m: nat, n: nat, p: nat)
    requires m <= p < n <= 64 * |covered|
    ensures Count(covered, m) <= Count(covered, n)
    ensures Count(covered, m) == Count(covered, n) ==> !BitAt(covered, p)
  {
    if p < n - 1 {
      CountGap(covered, m, n - 1, p);
    } else if m < n - 1 {
      CountGap(covered, m, n - 1, m);
    }
  }

  /** No covered position lies beyond the end. */
  lemma NoneBeyond(b: Buffer, p: nat)
    requires Sized(b) && b.total <= p < 64 * |b.covered|
    ensures !BitAt(b.covered, p)
  {
    CountGap(b.covered, b.total, 64 * |b.covered|, p);
  }

  /** Covers one position, if it was not covered yet. */
  function Mark(covered: seq<uint64>, p: nat): (r: seq<uint64>)
    requires p < 64 * |covered|
    ensures |r| == |covered|
  {
    if BitAt(covered, p) then covered else SetAt(covered, p)
  }

  function Marked(covered: seq<uint64>, lo: nat, hi: nat): (r: seq<uint64>)
    requires lo <= hi <= 64 * |covered|
    ensures |r| == |covered|
    decreases (hi as int) - lo
  {
    if lo == hi then covered else Marked(Mark(covered, lo), lo + 1, hi)
  }

  /** How many positions of a range a marking newly covers. */
  function Gained(covered: seq<uint64>, lo: nat, hi: nat): nat
    requires lo <= hi <= 64 * |covered|
    decreases (hi as int) - lo
  {
    if lo == hi then 0
    else (if BitAt(covered, lo) then 0 else 1) + Gained(Mark(covered, lo), lo + 1, hi)
  }

  lemma {:induction false} MarkedBit(covered: seq<uint64>, lo: nat, hi: nat, p: nat)
    requires lo <= hi <= 64 * |covered| && p < 64 * |covered|
    ensures BitAt(Marked(covered, lo, hi), p) <==> BitAt(covered, p) || lo <= p < hi
    decreases (hi as int) - lo
  {
    if lo < hi {
      BitAtSet(covered, lo, p);
      MarkedBit(Mark(covered, lo), lo + 1, hi, p);
    }
  }

  lemma {:induction false} MarkedCount(covered: seq<uint64>, lo: nat, hi: nat, n: nat)
    requires lo <= hi <= n <= 64 * |covered|
    ensures Count(Marked(covered, lo, hi), n) == Count(covered, n) + Gained(covered, lo, hi)
    decreases (hi as int) - lo
  {
    if lo < hi {
      CountSet(covered, lo, n);
      MarkedCount(Mark(covered, lo), lo + 1, hi, n);
    }
  }

  function ZeroWords(n: nat): (r: seq<uint64>)
    ensures |r| == n
  {
    seq(n, _ => 0)
  }

  lemma {:induction false} ZeroCount(words: nat, n: nat)
    requires n <= 64 * words
    ensures Count(ZeroWords(words), n) == 0
  {
    if n > 0 {
      ZeroBit((n - 1) % 64);
      ZeroCount(words, n - 1);
    }
  }

  // ---- one buffer ----

  function NewBuffer(total: nat, now: int): Tallied
  {
    NewSized(total, now);
    Buffer(total, Zeros(total), ZeroWords((total + 63) / 64), 0, now)
  }

  /** A buffer's own bounds: its arrays fit its length, and the counter counts the
      covered positions, of which none lies beyond the end. */
  ghost predicate Sized(b: Buffer)
  {
    && |b.buf| == b.total
    && b.total <= 64 * |b.covered| < b.total + 64
    && forall n: nat :: b.total <= n <= 64 * |b.covered| ==> Count(b.covered, n) == b.coveredN
  }

  function Filled(b: Tallied, off: nat, fragment: Bytes): Tallied
    requires off + |fragment| <= b.total
  {
    FilledSized(b, off, fragment);
    var end := off + |fragment|;
    b.(buf := b.buf[..off] + fragment + b.buf[end..],
       covered := Marked(b.covered, off, end),
       coveredN := b.coveredN + Gained(b.covered, off, end))
  }

  lemma NewSized(total: nat, now: int)
    ensures Sized(Buffer(total, Zeros(total), ZeroWords((total + 63) / 64), 0, now))
  {
    var words := (total + 63) / 64;
    forall n: nat | total <= n <= 64 * words ensures Count(ZeroWords(words), n) == 0 { ZeroCount(words, n); }
  }

  lemma FilledSized(b: Buffer, off: nat, fragment: Bytes)
    requires Sized(b) && off + |fragment| <= b.total
    ensures var end := off + |fragment|;
            Sized(b.(buf := b.buf[..off] + fragment + b.buf[end..],
                     covered := Marked(b.covered, off, end),
                     coveredN := b.coveredN + Gained(b.covered, off, end)))
  {
    var end := off + |fragment|;
    forall n: nat | b.total <= n <= 64 * |b.covered|
      ensures Count(Marked(b.covered, off, end), n) == b.coveredN + Gained(b.covered, off, end)
    {
      MarkedCount(b.covered, off, end, n);
    }
  }

  /** The counter reaches the length exactly when every byte is there. */
  lemma CountsAll(b: Buffer)
    requires Sized(b)
    ensures b.coveredN <= b.total
    ensures b.coveredN == b.total <==> forall p: nat :: p < b.total ==> BitAt(b.covered, p)
  {
    CountFull(b.covered, b.total);
  }

  // ---- one arrival ----

  function Live(t: Table, deadline: int): Table
  {
    map k | k in t && t[k].createdAt >= deadline :: t[k]
  }

  /** Every buffer older than the deadline is gone, and every table emptied by it. */
  function Swept(all: map<Source, Table>, deadline: int): map<Source, Table>
  {
    map s | s in all && |Live(all[s], deadline)| > 0 :: Live(all[s], deadline)
  }

  predicate Oldest(t: Table, victim: BufferKey)
  {
    victim in t && forall k :: k in t ==> t[victim].createdAt <= t[k].createdAt
  }

  predicate Accepts(limits: Limits, a: Arrival)
  {
    && 0 < a.h.total <= limits.maxMessageSize
    && a.h.fragOffset + a.h.fragLength <= a.h.total
    && a.h.fragLength == |a.fragment|
  }

  function KeyOf(a: Arrival): BufferKey { BufferKey(a.h.sender, a.h.msgType) }

  function TableOf(all: map<Source, Table>, source: Source): Table { if source in all then all[source] else map[] }

  /** The table the fragment goes into, with room for its buffer. */
  function Roomy(st: State, t: Table, key: BufferKey, victim: BufferKey): Table
  {
    if key !in t && |t| >= st.limits.maxPerSource then t - {victim} else t
  }

  function BufferFor(t: Table, a: Arrival): Tallied
  {
    if KeyOf(a) in t then t[KeyOf(a)] else NewBuffer(a.h.total, a.now)
  }

  predicate Bounded(st: State)
  {
    && |st.tables| <= st.limits.maxSources
    && forall s :: s in st.tables ==> BoundedTable(st.limits, st.tables[s]) && |st.tables[s]| > 0
  }

  /** A stored buffer is incomplete and within the message size. */
  predicate Stored(limits: Limits, b: Buffer)
  {
    0 < b.total <= limits.maxMessageSize && b.coveredN < b.total
  }

  predicate BoundedTable(limits: Limits, t: Table)
  {
    |t| <= limits.maxPerSource && forall k :: k in t ==> Stored(limits, t[k])
  }

  /** A filled buffer is kept while bytes are missing, and otherwise handed out
      and forgotten, with its table if that is then empty. */
  function Settled(st: State, source: Source, t: Table, key: BufferKey, b: Tallied): (State, Result)
  {
    if b.coveredN < b.total then (st.(tables := st.tables[source := t[key := b]]), Partial)
    else
      var rest := t - {key};
      (st.(tables := if |rest| == 0 then st.tables - {source} else st.tables[source := rest]), Whole(b.buf))
  }

  function Placed(st: State, a: Arrival, victim: BufferKey): (State, Result)
    requires Accepts(st.limits, a)
  {
    var t := TableOf(st.tables, a.source);
    var key := KeyOf(a);
    if a.source !in st.tables && |st.tables| >= st.limits.maxSources then (st, Refused)
    else if key in t && t[key].total != a.h.total then (st, Refused)
    else Settled(st, a.source, Roomy(st, t, key, victim), key, Filled(BufferFor(t, a), a.h.fragOffset, a.fragment))
  }

  function Aged(st: State, now: int): State { st.(tables := Swept(st.tables, now - st.limits.timeout)) }

  function Step(st: State, a: Arrival, victim: BufferKey): (State, Result)
  {
    if Accepts(st.limits, a) then Placed(Aged(st, a.now), a, victim) else (st, Refused)
  }

  // ---- the bounds hold in every reachable state ----

  lemma {:induction false} SubsetSize<T>(a: set<T>, b: set<T>)
    requires a <= b
    ensures |a| <= |b|
  {
    if a != {} {
      var x :| x in a;
      SubsetSize(a - {x}, b - {x});
    }
  }

  lemma LiveBounded(limits: Limits, t: Table, deadline: int)
    requires BoundedTable(limits, t)
    ensures BoundedTable(limits, Live(t, deadline))
  {
    SubsetSize(Live(t, deadline).Keys, t.Keys);
  }

  lemma SweptSize(all: map<Source, Table>, deadline: int)
    ensures |Swept(all, deadline)| <= |all|
  {
    hide Live;
    SubsetSize(Swept(all, deadline).Keys, all.Keys);
  }

  lemma SweptAt(all: map<Source, Table>, deadline: int, s: Source)
    requires s in Swept(all, deadline)
    ensures s in all && Swept(all, deadline)[s] == Live(all[s], deadline) && |Live(all[s], deadline)| > 0
  {}

  lemma AgedBounded(st: State, now: int)
    requires Bounded(st)
    ensures Bounded(Aged(st, now))
  {
    hide BoundedTable, Live, Swept;
    var deadline := now - st.limits.timeout;
    var swept := Swept(st.tables, deadline);
    SweptSize(st.tables, deadline);
    forall s | s in swept ensures BoundedTable(st.limits, swept[s]) && |swept[s]| > 0 {
      SweptAt(st.tables, deadline, s);
      LiveBounded(st.limits, st.tables[s], deadline);
    }
  }

  lemma WithoutSize<K, V>(m: map<K, V>, k: K)
    ensures |m - {k}| == if k in m then |m| - 1 else |m|
  {
    assert (m - {k}).Keys == m.Keys - {k};
  }

  /** The eviction rule, for the arrival at hand. */
  predicate Evicts(st: State, a: Arrival, victim: BufferKey)
  {
    var t := TableOf(st.tables, a.source);
    KeyOf(a) !in t && |t| >= st.limits.maxPerSource ==> Oldest(t, victim)
  }

  lemma RoomySize(st: State, t: Table, key: BufferKey, victim: BufferKey)
    requires st.limits.maxPerSource > 0 && BoundedTable(st.limits, t)
    requires key !in t && |t| >= st.limits.maxPerSource ==> victim in t
    ensures var room := Roomy(st, t, key, victim);
            BoundedTable(st.limits, room) && (key !in t ==> |room| < st.limits.maxPerSource)
  {
    WithoutSize(t, victim);
  }

  lemma PutBuffer(limits: Limits, t: Table, key: BufferKey, b: Tallied)
    requires BoundedTable(limits, t) && Stored(limits, b) && (key in t || |t| < limits.maxPerSource)
    ensures BoundedTable(limits, t[key := b])
  {}

  lemma DropBuffer(limits: Limits, t: Table, key: BufferKey)
    requires BoundedTable(limits, t)
    ensures BoundedTable(limits, t - {key})
  {
    WithoutSize(t, key);
  }

  lemma PutTable(st: State, source: Source, t: Table)
    requires Bounded(st) && BoundedTable(st.limits, t) && |t| > 0
    requires source in st.tables || |st.tables| < st.limits.maxSources
    ensures Bounded(st.(tables := st.tables[source := t]))
  {}

  lemma DropTable(st: State, source: Source)
    requires Bounded(st)
    ensures Bounded(st.(tables := st.tables - {source}))
  {
    WithoutSize(st.tables, source);
  }

  lemma SettledBounded(st: State, source: Source, t: Table, key: BufferKey, b: Tallied)
    requires Bounded(st) && (source in st.tables || |st.tables| < st.limits.maxSources)
    requires BoundedTable(st.limits, t) && (key in t || |t| < st.limits.maxPerSource)
    requires b.coveredN < b.total ==> Stored(st.limits, b)
    ensures Bounded(Settled(st, source, t, key, b).0)
  {
    if b.coveredN < b.total {
      PutBuffer(st.limits, t, key, b);
      PutTable(st, source, t[key := b]);
    } else if |t - {key}| == 0 {
      DropTable(st, source);
    } else {
      DropBuffer(st.limits, t, key);
      PutTable(st, source, t - {key});
    }
  }

  lemma PlacedBounded(st: State, a: Arrival, victim: BufferKey)
    requires Bounded(st) && st.limits.maxPerSource > 0 && Accepts(st.limits, a) && Evicts(st, a, victim)
    ensures Bounded(Placed(st, a, victim).0) && Placed(st, a, victim).0.limits == st.limits
  {
    var t := TableOf(st.tables, a.source);
    var key := KeyOf(a);
    var b := BufferFor(t, a);
    if b.total == a.h.total && (a.source in st.tables || |st.tables| < st.limits.maxSources) {
      RoomySize(st, t, key, victim);
      SettledBounded(st, a.source, Roomy(st, t, key, victim), key, Filled(b, a.h.fragOffset, a.fragment));
    }
  }

  /** Every arrival keeps the bounds: sources, buffers per source, message size,
      no empty table, and a counter that counts the covered bytes. */
  lemma StepBounded(st: State, a: Arrival, victim: BufferKey)
    requires Bounded(st) && st.limits.maxPerSource > 0
    requires Accepts(st.limits, a) ==> Evicts(Aged(st, a.now), a, victim)
    ensures Bounded(Step(st, a, victim).0) && Step(st, a, victim).0.limits == st.limits
  {
    hide Bounded, Placed, Swept, Evicts;
    if Accepts(st.limits, a) {
      AgedBounded(st, a.now);
      PlacedBounded(Aged(st, a.now), a, victim);
    }
  }

  // ---- the object ----

  const DEFAULT_LIMITS := Limits(1024, 4, 4096, 10)

  /** The coverage loop: each byte's bit is tested and set through its word. */
  method Cover(b: Tallied, off: nat, fragment: Bytes) returns (r: Tallied)
    requires off + |fragment| <= b.total
    ensures r == Filled(b, off, fragment)
  {
    var covered: seq<uint64>, coveredN := b.covered, b.coveredN;
    var end := off + |fragment|;
    for i := off to end
      invariant |covered| == |b.covered|
      invariant Marked(b.covered, off, end) == Marked(covered, i, end)
      invariant b.coveredN + Gained(b.covered, off, end) == coveredN + Gained(covered, i, end)
    {
      MaskTest(covered[i / 64], i % 64);
      if And(covered[i / 64], Shl(1, i % 64)) == 0 {
        covered := covered[i / 64 := Or(covered[i / 64], Shl(1, i % 64))];
        coveredN := coveredN + 1;
      }
    }
    FilledSized(b, off, fragment);
    r := b.(buf := b.buf[..off] + fragment + b.buf[end..], covered := covered, coveredN := coveredN);
  }

  method SweepTable(t: Table, deadline: int) returns (r: Table)
    ensures r == Live(t, deadline)
  {
    r := t;
    var todo := t.Keys;
    while todo != {}
      invariant todo <= t.Keys && r.Keys <= t.Keys
      invariant forall k :: k in t && (k in todo || t[k].createdAt >= deadline) ==> k in r
      invariant forall k :: k in r ==> r[k] == t[k] && (k in todo || t[k].createdAt >= deadline)
      decreases |todo|
    {
      var k :| k in todo;
      if t[k].createdAt < deadline {
        r := r - {k};
      }
      todo := todo - {k};
    }
  }

  /** The tables when those of `todo` are still to be swept. */
  function PartlySwept(all: map<Source, Table>, todo: set<Source>, deadline: int): map<Source, Table>
  {
    map s | s in all && (s in todo || |Live(all[s], deadline)| > 0) :: if s in todo then all[s] else Live(all[s], deadline)
  }

  lemma SweepBounds(all: map<Source, Table>, deadline: int)
    ensures PartlySwept(all, all.Keys, deadline) == all
    ensures PartlySwept(all, {}, deadline) == Swept(all, deadline)
  {}

  lemma SweepOne(all: map<Source, Table>, todo: set<Source>, s: Source, deadline: int)
    requires s in todo && s in all
    ensures var before := PartlySwept(all, todo, deadline);
            var bufs := Live(all[s], deadline);
            && s in before && before[s] == all[s]
            && PartlySwept(all, todo - {s}, deadline) == if |bufs| == 0 then before - {s} else before[s := bufs]
  {}

  method SweepTables(all: map<Source, Table>, deadline: int) returns (r: map<Source, Table>)
    ensures r == Swept(all, deadline)
  {
    r := all;
    var todo := all.Keys;
    SweepBounds(all, deadline);
    while todo != {}
      invariant todo <= all.Keys && r == PartlySwept(all, todo, deadline)
      decreases |todo|
    {
      var s :| s in todo;
      SweepOne(all, todo, s, deadline);
      var bufs := SweepTable(r[s], deadline);
      r := if |bufs| == 0 then r - {s} else r[s := bufs];
      todo := todo - {s};
    }
  }

  method EvictOldest(t: Table) returns (r: Table, victim: BufferKey)
    requires |t| > 0
    ensures Oldest(t, victim) && r == t - {victim}
  {
    var todo := t.Keys;
    victim :| victim in todo;
    todo := todo - {victim};
    while todo != {}
      invariant victim in t && todo <= t.Keys
      invariant forall k :: k in t && k !in todo ==> t[victim].createdAt <= t[k].createdAt
      decreases |todo|
    {
      var k :| k in todo;
      if t[k].createdAt < t[victim].createdAt {
        victim := k;
      }
      todo := todo - {k};
    }
    r := t - {victim};
  }

  /** The buffer is found or made, filled, and kept or handed out. */
  method Place(limits: Limits, tables: map<Source, Table>, a: Arrival)
    returns (next: map<Source, Table>, r: Result, victim: BufferKey)
    requires Accepts(limits, a) && limits.maxPerSource > 0
    ensures Evicts(State(limits, tables), a, victim)
    ensures (State(limits, next), r) == Placed(State(limits, tables), a, victim)
  {
    victim := BufferKey(0, 0);
    var bufs: Table := map[];
    if a.source in tables {
      bufs := tables[a.source];
    } else if |tables| >= limits.maxSources {
      return tables, Refused, victim;
    }
    var key := KeyOf(a);
    if key in bufs && bufs[key].total != a.h.total {
      return tables, Refused, victim;
    }
    var fb: Tallied := if key in bufs then bufs[key] else NewBuffer(a.h.total, a.now);
    if key !in bufs && |bufs| >= limits.maxPerSource {
      bufs, victim := EvictOldest(bufs);
    }
    fb := Cover(fb, a.h.fragOffset, a.fragment);
    next, r := Settle(limits, tables, a.source, bufs, key, fb);
  }

  method Settle(limits: Limits, tables: map<Source, Table>, source: Source, bufs: Table, key: BufferKey, fb: Tallied)
    returns (next: map<Source, Table>, r: Result)
    ensures (State(limits, next), r) == Settled(State(limits, tables), source, bufs, key, fb)
  {
    if fb.coveredN < fb.total {
      return tables[source := bufs[key := fb]], Partial;
    }
    var rest := bufs - {key};
    next := if |rest| == 0 then tables - {source} else tables[source := rest];
    return next, Whole(fb.buf);
  }

  lemma StepPlaces(st: State, aged: State, a: Arrival, victim: BufferKey)
    requires Accepts(st.limits, a) && aged == Aged(st, a.now)
    ensures Step(st, a, victim) == Placed(aged, a, victim)
  {}

  method AddTo(limits: Limits, tables: map<Source, Table>, a: Arrival)
    returns (next: map<Source, Table>, r: Result, victim: BufferKey)
    requires limits.maxPerSource > 0
    ensures Accepts(limits, a) ==> Evicts(Aged(State(limits, tables), a.now), a, victim)
    ensures (State(limits, next), r) == Step(State(limits, tables), a, victim)
  {
    hide Placed, Swept, Evicts;
    victim := BufferKey(0, 0);
    if a.h.total == 0 || a.h.total > limits.maxMessageSize {
      return tables, Refused, victim;
    }
    if a.h.fragOffset + a.h.fragLength > a.h.total || a.h.fragLength != |a.fragment| {
      return tables, Refused, victim;
    }
    var live := SweepTables(tables, a.now - limits.timeout);
    assert State(limits, live) == Aged(State(limits, tables), a.now);
    next, r, victim := Place(limits, live, a);
    StepPlaces(State(limits, tables), State(limits, live), a, victim);
  }

  class Reassembler {
    const limits: Limits
    var tables: map<Source, Table>

    function Value(): State
      reads this
    {
      State(limits, tables)
    }

    ghost predicate Valid()
      reads this
    {
      limits.maxPerSource > 0 && Bounded(Value())
    }

    /** Non-positive bounds fall back to the defaults. */
    constructor (maxPerSource: int, maxMessageSize: int, timeout: int)
      ensures Valid() && tables == map[]
      ensures limits == Limits(1024, if maxPerSource > 0 then maxPerSource else 4,
                               if maxMessageSize > 0 then maxMessageSize else 4096, if timeout > 0 then timeout else 10)
    {
      limits := Limits(DEFAULT_LIMITS.maxSources,
                       if maxPerSource <= 0 then DEFAULT_LIMITS.maxPerSource else maxPerSource,
                       if maxMessageSize <= 0 then DEFAULT_LIMITS.maxMessageSize else maxMessageSize,
                       if timeout <= 0 then DEFAULT_LIMITS.timeout else timeout);
      tables := map[];
    }

    method Add(a: Arrival) returns (r: Result, ghost victim: BufferKey)
      requires Valid()
      modifies this
      ensures Valid()
      ensures Accepts(limits, a) ==> Evicts(Aged(old(Value()), a.now), a, victim)
      ensures (Value(), r) == Step(old(Value()), a, victim)
    {
      ghost var before := Value();
      tables, r, victim := AddTo(limits, tables, a);
      StepBounded(before, a, victim);
    }

    /** Forgets a source. */
    method Drop(source: Source)
      requires Valid()
      modifies this
      ensures Valid() && Value() == old(Value()).(tables := old(tables) - {source})
    {
      DropTable(Value(), source);
      tables := tables - {source};
    }
  }
}
