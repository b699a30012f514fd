/** The anti-replay filter: a bitmap of 64-bit words shifted in place, proved to
    be a set of accepted sequence numbers.

    Three layers. `DatagramReplayWindow` is the object of the source, with its
    word array. `Window` is its value: which offsets below the highest sequence
    number are marked. `Fresh` on a plain set of accepted numbers is the service
    the filter is there to provide. */
module ReplayWindow {
  import opened Words

  /** marks holds i when sequence number high - i has been accepted. */
  datatype Window = Window(size: nat, seen: bool, high: nat, marks: set<nat>)

  function Shifted(marks: set<nat>, delta: nat, size: nat): set<nat>
  {
    set m | m in marks && m + delta < size :: m + delta
  }

  lemma InShifted(marks: set<nat>, delta: nat, size: nat, i: nat)
    ensures i in Shifted(marks, delta, size) <==> delta <= i < size && i - delta in marks
  {
    if delta <= i < size && i - delta in marks {
      assert (i - delta) + delta == i;
    }
  }

  /** The verdict of the peek, which records nothing. */
  predicate Admits(w: Window, n: nat)
  {
    if !w.seen then true
    else if n > w.high then true
    else if n == w.high then false
    else w.high - n < w.size && w.high - n !in w.marks
  }

  /** The effect and the verdict of one Check. */
  function Checked(w: Window, n: nat): (Window, bool)
  {
    if !w.seen then
      (w.(seen := true, high := n, marks := w.marks + {0}), true)
    else if n > w.high then
      (w.(high := n, marks := Shifted(w.marks, n - w.high, w.size) + {0}), true)
    else if n == w.high then
      (w, false)
    else if w.high - n >= w.size || w.high - n in w.marks then
      (w, false)
    else
      (w.(marks := w.marks + {w.high - n}), true)
  }

  // ---- the service: a set of accepted numbers ----

  /** n is new, and not size or more behind any accepted number. */
  predicate Fresh(size: nat, accepted: set<nat>, n: nat)
  {
    n !in accepted && forall a :: a in accepted ==> a < n + size
  }

  /** The window stands for exactly this set of accepted numbers. */
  ghost predicate Represents(w: Window, accepted: set<nat>)
  {
    && w.size > 0
    && (w.seen <==> accepted != {})
    && (w.seen ==> w.high in accepted && forall a :: a in accepted ==> a <= w.high)
    && forall i: nat ::
         i in w.marks <==> w.seen && i < w.size && i <= w.high && w.high - i in accepted
  }

  lemma CheckRefines(w: Window, accepted: set<nat>, n: nat)
    requires Represents(w, accepted)
    ensures Checked(w, n).1 <==> Fresh(w.size, accepted, n)
    ensures Represents(Checked(w, n).0, if Checked(w, n).1 then accepted + {n} else accepted)
  {
    var w' := Checked(w, n).0;
    if w.seen && n > w.high {
      forall i: nat
        ensures i in w'.marks <==> i < w.size && i <= n && n - i in accepted + {n}
      {
        InShifted(w.marks, n - w.high, w.size, i);
      }
    } else if w.seen && n < w.high {
      assert w.high - n in w.marks <==> w.high - n < w.size && n in accepted;
      forall i: nat
        ensures i in w'.marks <==>
                i < w.size && i <= w.high && w.high - i in if Checked(w, n).1 then accepted + {n} else accepted
      {}
    }
  }

  // ---- whole runs ----

  function Run(w: Window, ns: seq<nat>): (Window, seq<bool>)
    decreases |ns|
  {
    if ns == [] then (w, [])
    else
      var (w1, ok) := Checked(w, ns[0]);
      var (w2, oks) := Run(w1, ns[1..]);
      (w2, [ok] + oks)
  }

  /** The same run on the set. */
  function SetRun(size: nat, accepted: set<nat>, ns: seq<nat>): (r: (set<nat>, seq<bool>))
    ensures |r.1| == |ns|
    decreases |ns|
  {
    if ns == [] then (accepted, [])
    else
      var ok := Fresh(size, accepted, ns[0]);
      var (a, oks) := SetRun(size, if ok then accepted + {ns[0]} else accepted, ns[1..]);
      (a, [ok] + oks)
  }

  /** After any sequence of Check calls the verdicts are those of the set, and
      offset i is marked exactly when high - i was accepted. */
  lemma {:induction false} RunRefinesSet(w: Window, accepted: set<nat>, ns: seq<nat>)
    requires Represents(w, accepted)
    ensures Run(w, ns).1 == SetRun(w.size, accepted, ns).1
    ensures Represents(Run(w, ns).0, SetRun(w.size, accepted, ns).0)
    decreases |ns|
  {
    if ns != [] {
      CheckRefines(w, accepted, ns[0]);
      var (w1, ok) := Checked(w, ns[0]);
      RunRefinesSet(w1, if ok then accepted + {ns[0]} else accepted, ns[1..]);
    }
  }

  function Empty(size: nat): Window { Window(size, false, 0, {}) }

  /** No number is accepted twice in any run of a new window. */
  lemma NeverTwice(size: nat, ns: seq<nat>, i: nat, j: nat)
    requires size > 0 && i < j < |ns| && ns[i] == ns[j]
    ensures |Run(Empty(size), ns).1| == |ns|
    ensures !(Run(Empty(size), ns).1[i] && Run(Empty(size), ns).1[j])
  {
    RunRefinesSet(Empty(size), {}, ns);
    SetNeverTwice(size, {}, ns, i, j);
  }

  lemma {:induction false} SetNeverTwice(size: nat, accepted: set<nat>, ns: seq<nat>, i: nat, j: nat)
    requires i < j < |ns| && ns[i] == ns[j]
    ensures !(SetRun(size, accepted, ns).1[i] && SetRun(size, accepted, ns).1[j])
    decreases |ns|
  {
    var next := if Fresh(size, accepted, ns[0]) then accepted + {ns[0]} else accepted;
    if i > 0 {
      SetNeverTwice(size, next, ns[1..], i - 1, j - 1);
    } else if Fresh(size, accepted, ns[0]) {
      AcceptedStaysRefused(size, next, ns[1..], j - 1);
    }
  }

  lemma {:induction false} AcceptedStaysRefused(size: nat, accepted: set<nat>, ns: seq<nat>, j: nat)
    requires j < |ns| && ns[j] in accepted
    ensures !SetRun(size, accepted, ns).1[j]
    decreases |ns|
  {
    if j > 0 {
      AcceptedStaysRefused(size, if Fresh(size, accepted, ns[0]) then accepted + {ns[0]} else accepted, ns[1..], j - 1);
    }
  }

  /** The peek of the receive path tells in advance what Check will answer. */
  lemma AdmissiblePredictsCheck(w: Window, accepted: set<nat>, n: nat)
    requires Represents(w, accepted)
    ensures Admits(w, n) <==> Checked(w, n).1
    ensures Admits(w, n) <==> Fresh(w.size, accepted, n)
  {
    CheckRefines(w, accepted, n);
  }

  // ---- the in-place shift ----

  /** The set positions of a bitmap. */
  function Marks(words: seq<uint64>): set<nat>
  {
    set p: nat | p < 64 * |words| && BitAt(words, p)
  }

  /** What the loop of advance stores in word i: two source words joined. */
  function ShiftedWord(words: seq<uint64>, i: nat, wordShift: nat, bitShift: nat): uint64
    requires i < |words| && bitShift < 64
  {
    if i < wordShift then 0
    else
      var src := i - wordShift;
      var v := Shl(words[src], bitShift);
      if bitShift != 0 && src >= 1 then Or(v, Shr(words[src - 1], 64 - bitShift)) else v
  }

  /** Bit b of the joined word: a bit of the source word, or a carry from the word below. */
  lemma JoinedBit(words: seq<uint64>, i: nat, b: nat, ws: nat, bs: nat)
    requires i < |words| && b < 64 && bs < 64
    ensures Bit(ShiftedWord(words, i, ws, bs), b) <==>
            || (i >= ws && b >= bs && Bit(words[i - ws], b - bs))
            || (i >= ws + 1 && b < bs && Bit(words[i - ws - 1], b + 64 - bs))
  {
    hide Bit, Shl, Shr, OrBits;
    if i < ws {
      ZeroBit(b);
    } else {
      var src := i - ws;
      ShlBit(words[src], bs, b);
      if bs != 0 && src >= 1 {
        OrBit(Shl(words[src], bs), Shr(words[src - 1], 64 - bs), b);
        ShrBit(words[src - 1], 64 - bs, b);
        if b >= bs {
          CarryIsClear(words[src - 1], b + 64 - bs);
        }
      }
    }
  }

  lemma BitOfWord(words: seq<uint64>, w: nat, b: nat)
    requires w < |words| && b < 64
    ensures BitAt(words, 64 * w + b) <==> Bit(words[w], b)
  {
    hide Bit;
  }

  /** Bit p of the shifted bitmap is bit p - delta of the original. */
  lemma ShiftedBit(words: seq<uint64>, delta: nat, p: nat)
    requires p < 64 * |words|
    ensures Bit(ShiftedWord(words, p / 64, delta / 64, delta % 64), p % 64)
       <==> p >= delta && BitAt(words, p - delta)
  {
    hide Bit, BitAt, ShiftedWord;
    var i, b, ws, bs := p / 64, p % 64, delta / 64, delta % 64;
    JoinedBit(words, i, b, ws, bs);
    if i >= ws && b >= bs {
      BitOfWord(words, i - ws, b - bs);
    } else if i >= ws + 1 && b < bs {
      BitOfWord(words, i - ws - 1, b + 64 - bs);
    }
  }

  /** Shifting all words shifts the marks. */
  lemma MarksAfterShift(was: seq<uint64>, now: seq<uint64>, delta: nat)
    requires |now| == |was|
    requires forall k :: 0 <= k < |was| ==> now[k] == ShiftedWord(was, k, delta / 64, delta % 64)
    ensures Marks(now) == Shifted(Marks(was), delta, 64 * |was|)
  {
    forall p: nat | p < 64 * |was|
      ensures BitAt(now, p) <==> p in Shifted(Marks(was), delta, 64 * |was|)
    {
      ShiftedBit(was, delta, p);
      InShifted(Marks(was), delta, 64 * |was|, p);
    }
  }

  lemma CarryIsClear(w: uint64, i: nat)
    requires i >= 64
    ensures !Bit(w, i)
  {
    PowerOf64();
    HighBitsClear(w, 64, i);
  }

  // ---- the object ----

  class DatagramReplayWindow {
    const bitmap: array<uint64>
    const size: nat
    var highSeq: uint64
    var seen: bool

    ghost predicate Valid()
      reads this
    {
      bitmap.Length > 0 && size == 64 * bitmap.Length
    }

    ghost function Value(): Window
      requires Valid()
      reads this, bitmap
    {
      Window(size, seen, highSeq, Marks(bitmap[..]))
    }

    /** A window of at least `width` bits; zero asks for the default of 1024. The
        rounding up wraps for the last 63 widths, which get no bitmap at all. */
    constructor (width: uint64)
      ensures fresh(bitmap) && size == 64 * bitmap.Length && !seen
      ensures width == 0 ==> size == 1024
      ensures 0 < width <= TWO_64 - 64 ==> width <= size < width + 64
      ensures width <= TWO_64 - 64 <==> Valid()
      ensures Valid() ==> Value() == Empty(size)
    {
      var bits := if width == 0 then 1024 else width;
      var words := ((bits + 63) % TWO_64) / 64;
      bitmap := new uint64[words](_ => 0);
      size := words * 64;
      highSeq := 0;
      seen := false;
      new;
      forall p: nat | p < size ensures !BitAt(bitmap[..], p) { ZeroBit(p % 64); }
    }

    method Check(n: uint64) returns (ok: bool)
      requires Valid()
      modifies this, bitmap
      ensures Valid()
      ensures (Value(), ok) == Checked(old(Value()), n)
    {
      if !seen {
        seen := true;
        highSeq := n;
        SetBit(0);
        return true;
      }
      if n > highSeq {
        Slide(n);
        return true;
      } else if n == highSeq {
        return false;
      } else {
        var diff := highSeq - n;
        if diff >= size {
          return false;
        }
        var marked := TestBit(diff);
        if marked {
          return false;
        }
        SetBit(diff);
        return true;
      }
    }

    /** The branch of Check for a number beyond the highest: move the window and
        mark its new head. */
    method Slide(n: uint64)
      requires Valid() && highSeq < n
      modifies this, bitmap
      ensures Value() == old(Value()).(high := n, marks := Shifted(old(Value()).marks, n - old(highSeq), size) + {0})
    {
      hide Shifted, Marks;
      Advance(n - highSeq);
      highSeq := n;
      SetBit(0);
    }

    method Admissible(n: uint64) returns (ok: bool)
      requires Valid()
      ensures ok == Admits(Value(), n)
    {
      if !seen {
        return true;
      }
      if n > highSeq {
        return true;
      } else if n == highSeq {
        return false;
      } else {
        var diff := highSeq - n;
        if diff >= size {
          return false;
        }
        var marked := TestBit(diff);
        return !marked;
      }
    }

    /** Moves every mark up by delta, dropping what leaves the window. */
    method Advance(delta: nat)
      requires Valid()
      modifies bitmap
      ensures Value() == old(Value()).(marks := Shifted(old(Value()).marks, delta, size))
    {
      ghost var was, before := bitmap[..], Value();
      if delta >= size {
        for i := 0 to bitmap.Length
          invariant forall k :: 0 <= k < i ==> bitmap[k] == 0
        {
          bitmap[i] := 0;
        }
        forall p: nat | p < size ensures !BitAt(bitmap[..], p) { ZeroBit(p % 64); }
        assert Value().marks == {};
      } else {
        ShiftWords(delta / 64, delta % 64);
        MarksAfterShift(was, bitmap[..], delta);
        assert Value().marks == Shifted(before.marks, delta, size);
      }
    }

    /** The descending loop: each word is read before any word it came from is
        overwritten, so every word ends as a join of two original words. */
    method ShiftWords(wordShift: nat, bitShift: nat)
      requires Valid() && bitShift < 64
      modifies bitmap
      ensures forall k :: 0 <= k < bitmap.Length ==> bitmap[k] == ShiftedWord(old(bitmap[..]), k, wordShift, bitShift)
    {
      ghost var was := bitmap[..];
      var i := bitmap.Length - 1;
      while i >= 0
        invariant -1 <= i < bitmap.Length
        invariant forall k :: 0 <= k <= i ==> bitmap[k] == was[k]
        invariant forall k :: i < k < bitmap.Length ==> bitmap[k] == ShiftedWord(was, k, wordShift, bitShift)
      {
        var v: uint64 := 0;
        if i >= wordShift {
          var src := i - wordShift;
          v := Shl(bitmap[src], bitShift);
          if bitShift != 0 && src >= 1 {
            v := Or(v, Shr(bitmap[src - 1], 64 - bitShift));
          }
        }
        bitmap[i] := v;
        i := i - 1;
      }
    }

    method SetBit(pos: nat)
      requires Valid() && pos < size
      modifies bitmap
      ensures Value() == old(Value()).(marks := old(Value()).marks + {pos})
    {
      ghost var was := bitmap[..];
      bitmap[pos / 64] := Or(bitmap[pos / 64], Shl(1, pos % 64));
      assert bitmap[..] == SetAt(was, pos);
      forall q: nat | q < size ensures BitAt(bitmap[..], q) <==> q == pos || BitAt(was, q) {
        BitAtSet(was, pos, q);
      }
    }

    method TestBit(pos: nat) returns (r: bool)
      requires Valid() && pos < size
      ensures r <==> pos in Value().marks
    {
      r := And(bitmap[pos / 64], Shl(1, pos % 64)) != 0;
      MaskTest(bitmap[pos / 64], pos % 64);
      assert bitmap[..][pos / 64] == bitmap[pos / 64];
    }
  }
}
