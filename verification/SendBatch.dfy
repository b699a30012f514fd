/** Batch sending: sealed frames laid out back to back, runs of equal-size frames
    offered to the kernel as one segmented send, everything else sent plainly.
    Whether the kernel takes a run, and whether a plain send fails, is up to an
    oracle; the theorem holds for every one. */
module SendBatch {
  import opened Bytes

  const MAX_GSO_SEGMENTS: nat := 64
  const MAX_GSO_BYTES: nat := 65507

  /** One write to the socket. */
  datatype Send = Plain(data: Bytes) | Segmented(data: Bytes, segSize: int)

  // ---- splitting ----

  /** The pieces of `data` at a fixed size; the last may be shorter. */
  function Split(data: Bytes, segSize: int): seq<Bytes>
    decreases |data|
  {
    if segSize <= 0 || |data| <= segSize then [data] else [data[..segSize]] + Split(data[segSize..], segSize)
  }

  method SplitSegments(data: Bytes, segSize: int) returns (dispatched: seq<Bytes>)
    ensures dispatched == Split(data, segSize)
  {
    dispatched := [];
    if segSize <= 0 || |data| <= segSize {
      return [data];
    }
    var off := 0;
    while off < |data|
      invariant 0 <= off
      invariant off < |data| ==> Split(data, segSize) == dispatched + Split(data[off..], segSize)
      invariant off >= |data| ==> Split(data, segSize) == dispatched
    {
      var end := off + segSize;
      if end > |data| {
        end := |data|;
      }
      if end < |data| {
        assert data[off..][segSize..] == data[end..] && data[off..][..segSize] == data[off..end];
      } else {
        assert data[off..] == data[off..end];
      }
      dispatched := dispatched + [data[off..end]];
      off := off + segSize;
    }
  }

  function Concat(frames: seq<Bytes>): Bytes
  {
    if frames == [] then [] else frames[0] + Concat(frames[1..])
  }

  /** Frames of one size, the last of which may be shorter but not empty. */
  predicate Run(frames: seq<Bytes>, segSize: int)
  {
    && frames != [] && segSize > 0
    && (forall k :: 0 <= k < |frames| - 1 ==> |frames[k]| == segSize)
    && 0 < |frames[|frames| - 1]| <= segSize
  }

  lemma {:induction false} ConcatNonempty(frames: seq<Bytes>, segSize: int)
    requires Run(frames, segSize)
    ensures |Concat(frames)| > 0
  {
    if |frames| > 1 { ConcatNonempty(frames[1..], segSize); }
  }

  /** Splitting a run at its segment size gives back its frames. */
  lemma {:induction false} SplitRun(frames: seq<Bytes>, segSize: int)
    requires Run(frames, segSize)
    ensures Split(Concat(frames), segSize) == frames
  {
    if |frames| == 1 {
      assert frames[1..] == [];
      assert Concat(frames) == frames[0];
    } else {
      var rest := frames[1..];
      ConcatNonempty(rest, segSize);
      SplitRun(rest, segSize);
      assert Concat(frames)[..segSize] == frames[0];
      assert Concat(frames)[segSize..] == Concat(rest);
      assert frames == [frames[0]] + rest;
    }
  }

  lemma {:induction false} ConcatAppend(a: seq<Bytes>, b: seq<Bytes>)
    ensures Concat(a + b) == Concat(a) + Concat(b)
  {
    if a == [] {
      assert a + b == b;
    } else {
      assert (a + b)[1..] == a[1..] + b;
      ConcatAppend(a[1..], b);
    }
  }

  // ---- the layout ----

  /** The offsets at which the frames end in their concatenation. */
  ghost predicate Laid(frames: seq<Bytes>, buf: Bytes, ends: seq<nat>)
  {
    && |ends| == |frames|
    && buf == Concat(frames)
    && forall k :: 0 <= k < |frames| ==> ends[k] == |Concat(frames[..k + 1])|
  }

  ghost function StartOf(frames: seq<Bytes>, i: nat): nat
    requires i <= |frames|
  {
    |Concat(frames[..i])|
  }

  /** The bytes between two frame boundaries are the frames between them. */
  lemma SliceIsRun(frames: seq<Bytes>, i: nat, j: nat)
    requires i <= j <= |frames|
    ensures StartOf(frames, i) <= StartOf(frames, j) <= |Concat(frames)|
    ensures Concat(frames)[StartOf(frames, i)..StartOf(frames, j)] == Concat(frames[i..j])
  {
    assert frames == frames[..i] + frames[i..j] + frames[j..];
    assert frames[..j] == frames[..i] + frames[i..j];
    ConcatAppend(frames[..i], frames[i..j]);
    ConcatAppend(frames[..i] + frames[i..j], frames[j..]);
  }

  lemma FrameSize(frames: seq<Bytes>, i: nat)
    requires i < |frames|
    ensures StartOf(frames, i + 1) == StartOf(frames, i) + |frames[i]|
  {
    assert frames[..i + 1] == frames[..i] + [frames[i]];
    ConcatAppend(frames[..i], [frames[i]]);
    assert Concat([frames[i]]) == frames[i];
  }

  method LayOut(frames: seq<Bytes>) returns (buf: Bytes, ends: seq<nat>)
    ensures Laid(frames, buf, ends)
  {
    buf, ends := [], [];
    for k := 0 to |frames|
      invariant |ends| == k && buf == Concat(frames[..k])
      invariant forall m :: 0 <= m < k ==> ends[m] == |Concat(frames[..m + 1])|
    {
      assert frames[..k + 1] == frames[..k] + [frames[k]];
      ConcatAppend(frames[..k], [frames[k]]);
      buf := buf + frames[k];
      ends := ends + [|buf|];
    }
    assert frames[..|frames|] == frames;
  }

  // ---- the batch ----

  /** What a write puts on the wire: the kernel slices a segmented send. */
  function Wire(s: Send): seq<Bytes>
  {
    match s
    case Plain(data) => [data]
    case Segmented(data, segSize) => Split(data, segSize)
  }

  function WireAll(sends: seq<Send>): seq<Bytes>
  {
    if sends == [] then [] else WireAll(sends[..|sends| - 1]) + Wire(sends[|sends| - 1])
  }

  predicate WithinLimits(s: Send)
  {
    s.Segmented? ==> |Wire(s)| <= MAX_GSO_SEGMENTS && |s.data| <= MAX_GSO_BYTES
  }

  /** Two frames that one segmented send may carry. */
  predicate Joinable(a: Bytes, b: Bytes) { |b| <= |a| && |a| + |b| <= MAX_GSO_BYTES }

  /** The frames from i to next cannot be extended by one more in a segmented send. */
  predicate Longest(frames: seq<Bytes>, i: nat, next: nat)
    requires i < next <= |frames|
  {
    || next - i == 64 || next == |frames| || |frames[next - 1]| < |frames[i]| || |frames[next]| > |frames[i]|
    || |Concat(frames[i..next])| + |frames[next]| > 65507
  }

  /** The longest run from frame i that one segmented send may carry. */
  method FindRun(ghost frames: seq<Bytes>, ends: seq<nat>, start: nat, i: nat) returns (runEnd: nat, n: nat)
    requires |ends| == |frames| && i < |frames| && start == StartOf(frames, i)
    requires forall k :: 0 <= k < |frames| ==> ends[k] == StartOf(frames, k + 1)
    requires forall k :: 0 <= k < |frames| ==> |frames[k]| > 0
    ensures 1 <= n <= MAX_GSO_SEGMENTS && i + n <= |frames| && runEnd == StartOf(frames, i + n)
    ensures Run(frames[i..i + n], ends[i] - start)
    ensures n > 1 ==> runEnd - start <= MAX_GSO_BYTES
    ensures Longest(frames, i, i + n) && (n > 1 <==> i + 1 < |frames| && Joinable(frames[i], frames[i + 1]))
  {
    FrameSize(frames, i);
    var segSize := ends[i] - start;
    runEnd, n := ends[i], 1;
    var j := i + 1;
    var short := false;
    while j < |ends| && n < MAX_GSO_SEGMENTS && !short
      invariant j == i + n <= |frames| && 1 <= n <= MAX_GSO_SEGMENTS && runEnd == StartOf(frames, j)
      invariant Run(frames[i..j], segSize)
      invariant if short then |frames[j - 1]| < segSize else |frames[j - 1]| == segSize
      invariant n > 1 ==> runEnd - start <= MAX_GSO_BYTES
    {
      FrameSize(frames, j);
      var size := ends[j] - ends[j - 1];
      if size > segSize || runEnd + size - start > MAX_GSO_BYTES {
        break;
      }
      runEnd := ends[j];
      n := n + 1;
      short := size < segSize;
      assert frames[i..j + 1] == frames[i..j] + [frames[j]];
      j := j + 1;
    }
    SliceIsRun(frames, i, j);
  }

  lemma Sent(sends: seq<Send>, s: Send)
    ensures WireAll(sends + [s]) == WireAll(sends) + Wire(s)
  {
    assert (sends + [s])[..|sends|] == sends;
  }

  lemma Extended(frames: seq<Bytes>, sends: seq<Send>, s: Send, i: nat, next: nat)
    requires i <= next <= |frames| && WireAll(sends) == frames[..i] && Wire(s) == frames[i..next]
    ensures WireAll(sends + [s]) == frames[..next]
  {
    Sent(sends, s);
    assert frames[..next] == frames[..i] + frames[i..next];
  }

  lemma RunWire(frames: seq<Bytes>, i: nat, n: nat, segSize: int)
    requires i + n <= |frames| && Run(frames[i..i + n], segSize)
    ensures StartOf(frames, i) <= StartOf(frames, i + n) <= |Concat(frames)|
    ensures Wire(Segmented(Concat(frames)[StartOf(frames, i)..StartOf(frames, i + n)], segSize)) == frames[i..i + n]
  {
    hide Concat, StartOf, Run;
    SliceIsRun(frames, i, i + n);
    SplitRun(frames[i..i + n], segSize);
  }

  lemma FrameWire(frames: seq<Bytes>, i: nat)
    requires i < |frames|
    ensures StartOf(frames, i) <= StartOf(frames, i + 1) <= |Concat(frames)|
    ensures Wire(Plain(Concat(frames)[StartOf(frames, i)..StartOf(frames, i + 1)])) == frames[i..i + 1]
  {
    SliceIsRun(frames, i, i + 1);
    assert frames[i..i + 1] == [frames[i]] && Concat([frames[i]]) == frames[i];
  }

  /** The write for the frames from i to next: as many as possible in one segmented
      send where the kernel takes it, and otherwise frame i alone. */
  predicate Chosen(frames: seq<Bytes>, takes: bool, s: Send, i: nat, next: nat)
    requires i < next <= |frames|
  {
    if takes && i + 1 < |frames| && Joinable(frames[i], frames[i + 1])
    then s.Segmented? && Longest(frames, i, next)
    else s.Plain? && next == i + 1
  }

  /** One round of the walk: the run from frame i if the kernel takes it, else
      frame i alone; nothing when that write fails. */
  method SendNext(ghost frames: seq<Bytes>, buf: Bytes, ends: seq<nat>, start: nat, i: nat, takes: bool, writes: bool)
    returns (sent: seq<Send>, next: nat, end: nat)
    requires Laid(frames, buf, ends) && i < |frames| && start == StartOf(frames, i)
    requires forall k :: 0 <= k < |frames| ==> |frames[k]| > 0
    ensures sent == [] ==> !writes
    ensures sent != [] ==> i < next <= |frames| && end == StartOf(frames, next)
    ensures sent != [] ==> |sent| == 1 && Wire(sent[0]) == frames[i..next] && WithinLimits(sent[0])
    ensures sent != [] ==> Chosen(frames, takes, sent[0], i, next)
    ensures takes && i + 1 < |frames| && Joinable(frames[i], frames[i + 1]) ==> sent != []
  {
    hide Concat, Longest, Run, Split;
    next, end := i, start;
    var runEnd, n := FindRun(frames, ends, start, i);
    FrameSize(frames, i);
    if n > 1 && takes {
      RunWire(frames, i, n, ends[i] - start);
      return [Segmented(buf[start..runEnd], ends[i] - start)], i + n, runEnd;
    }
    if !writes {
      return [], i, start;
    }
    FrameWire(frames, i);
    return [Plain(buf[start..ends[i]])], i + 1, ends[i];
  }

  /** Write k is the one to choose for the frames that are left after those before it. */
  predicate AsChosen(frames: seq<Bytes>, takes: nat -> bool, sends: seq<Send>, k: nat)
    requires k < |sends|
  {
    var i, next := |WireAll(sends[..k])|, |WireAll(sends[..k + 1])|;
    i < next <= |frames| && Chosen(frames, takes(i), sends[k], i, next)
  }

  lemma ChosenSoFar(frames: seq<Bytes>, takes: nat -> bool, sends: seq<Send>, s: Send, i: nat, next: nat)
    requires i < next <= |frames| && WireAll(sends) == frames[..i] && WireAll(sends + [s]) == frames[..next]
    requires Chosen(frames, takes(i), s, i, next)
    requires forall k :: 0 <= k < |sends| ==> AsChosen(frames, takes, sends, k)
    ensures forall k :: 0 <= k < |sends| + 1 ==> AsChosen(frames, takes, sends + [s], k)
  {
    hide Chosen, WireAll;
    var more := sends + [s];
    forall k | 0 <= k < |more| ensures AsChosen(frames, takes, more, k) {
      if k < |sends| {
        assert AsChosen(frames, takes, sends, k);
        assert more[..k] == sends[..k] && more[..k + 1] == sends[..k + 1];
      } else {
        assert more[..k] == sends && more[..k + 1] == more;
      }
    }
  }

  /** Every frame goes out once, in order, in frames of its own size: all of them
      when no plain send fails, and otherwise those before the failure. Each write
      is the one to choose where it starts. The oracles answer for the frame a send
      starts at. */
  method SendFrames(frames: seq<Bytes>, takes: nat -> bool, writes: nat -> bool) returns (ok: bool, sends: seq<Send>)
    requires forall k :: 0 <= k < |frames| ==> |frames[k]| > 0
    ensures ok ==> WireAll(sends) == frames
    ensures !ok ==> exists i :: 0 <= i < |frames| && !writes(i) && WireAll(sends) == frames[..i]
    ensures forall k :: 0 <= k < |sends| ==> WithinLimits(sends[k]) && AsChosen(frames, takes, sends, k)
  {
    var buf, ends := LayOut(frames);
    sends := [];
    var start, i := 0, 0;
    while i < |ends|
      invariant i <= |frames| && start == StartOf(frames, i)
      invariant WireAll(sends) == frames[..i]
      invariant forall k :: 0 <= k < |sends| ==> WithinLimits(sends[k]) && AsChosen(frames, takes, sends, k)
      decreases |ends| - i
    {
      var sent, next, end := SendNext(frames, buf, ends, start, i, takes(i), writes(i));
      if sent == [] {
        return false, sends;
      }
      Extended(frames, sends, sent[0], i, next);
      ChosenSoFar(frames, takes, sends, sent[0], i, next);
      sends := sends + [sent[0]];
      i, start := next, end;
    }
    assert frames[..|frames|] == frames;
    return true, sends;
  }
}
