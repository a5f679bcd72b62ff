/*
 * The sliding-window accumulator of the monitor (class Buffer in main.py).
 *
 * The buffer holds W rows (one per sample, each row opaque here) and a parallel
 * vector of W timestamps, with a write cursor `ptr`. A batch of n rows is
 * absorbed in two steps: if ptr + n overflows W, both vectors are rotated left
 * by the overflow (np.roll) and the cursor moves back by the same amount,
 * clamped at 0; then as many rows of the batch as fit are written at the cursor.
 *
 * The sequence-level function Absorb follows those steps literally and is the
 * specification of Buffer.Add; the lemmas below say what Absorb means.
 */
module WindowBuffer {

  /** Sampling rate of the headset, in Hz. */
  const FS: nat := 256

  function Min(a: int, b: int): int
  {
    if a <= b then a else b
  }

  /**
   * np.roll(s, -k): the sequence rotated left by k places. It holds the same
   * elements; RotateAt says where each one goes.
   */
  function Rotate<T>(s: seq<T>, k: nat): (r: seq<T>)
    ensures |r| == |s| && multiset(r) == multiset(s)
  {
    if |s| == 0 then s
    else
      var m := k % |s|;
      assert s == s[..m] + s[m..];
      s[m..] + s[..m]
  }

  /**
   * With m = k mod |s|, element i of the rotation is element i + m of s,
   * wrapping past the end.
   */
  lemma RotateAt<T>(s: seq<T>, k: nat)
    ensures |s| > 0 ==> forall i :: 0 <= i < |s| - k % |s| ==> Rotate(s, k)[i] == s[i + k % |s|]
    ensures |s| > 0 ==> forall i :: |s| - k % |s| <= i < |s| ==> Rotate(s, k)[i] == s[i + k % |s| - |s|]
  {
  }

  /** The slice assignment s[start : start + |xs|] = xs. */
  function Splice<T>(s: seq<T>, start: nat, xs: seq<T>): (r: seq<T>)
    requires start + |xs| <= |s|
    ensures |r| == |s|
  {
    s[..start] + xs + s[start + |xs|..]
  }

  /** Where the write of a batch of n rows starts: the cursor after eviction, clamped at 0. */
  function WriteStart(ptr: nat, n: nat, w: nat): (r: nat)
    ensures r <= ptr
    ensures ptr + n <= w ==> r == ptr
    ensures ptr + n > w ==> r + Min(n, w) == w
  {
    if ptr + n > w then
      var moved := ptr - (ptr + n - w);
      if moved < 0 then 0 else moved
    else ptr
  }

  /** The cursor after a batch of n rows has been absorbed. */
  function Cursor(ptr: nat, n: nat, w: nat): (r: nat)
    requires ptr <= w
    ensures r == Min(ptr + n, w)
  {
    var p := WriteStart(ptr, n, w);
    var end := Min(p + n, w);
    if end - p > 0 then end else p
  }

  /** The eviction step: if n more rows overflow, rotate left by the overflow. */
  function Evicted<T>(buf: seq<T>, ptr: nat, n: nat): (r: seq<T>)
    ensures |r| == |buf| && multiset(r) == multiset(buf)
    ensures ptr + n <= |buf| ==> r == buf
  {
    if ptr + n > |buf| then Rotate(buf, ptr + n - |buf|) else buf
  }

  /** The write step: as many leading rows of the batch as fit, written at `start`. */
  function Written<T>(buf: seq<T>, start: nat, batch: seq<T>): (r: seq<T>)
    requires start <= |buf|
    ensures |r| == |buf|
    ensures start + |batch| <= |buf| ==> r == buf[..start] + batch + buf[start + |batch|..]
    ensures |buf| < start + |batch| ==> r == buf[..start] + batch[..|buf| - start]
  {
    var len := Min(start + |batch|, |buf|) - start;
    assert buf == buf[..start] + buf[start..] && buf[start + len..] == buf[start..][len..];
    if len > 0 then Splice(buf, start, batch[..len]) else buf
  }

  /** The contents of a buffer `buf` with cursor `ptr` after absorbing `batch`. */
  function Absorb<T>(buf: seq<T>, ptr: nat, batch: seq<T>): (r: seq<T>)
    requires ptr <= |buf|
    ensures |r| == |buf|
  {
    Written(Evicted(buf, ptr, |batch|), WriteStart(ptr, |batch|, |buf|), batch)
  }

  /** While the batch fits, it lands right after the rows already held and nothing else moves. */
  lemma AbsorbFits<T>(buf: seq<T>, ptr: nat, batch: seq<T>)
    requires ptr + |batch| <= |buf|
    ensures Absorb(buf, ptr, batch) == buf[..ptr] + batch + buf[ptr + |batch|..]
  {
    if |batch| == 0 {
      assert buf[..ptr] + batch + buf[ptr..] == buf;
    }
  }

  /**
   * A batch that overflows but is no longer than the window evicts exactly the
   * oldest rows: the buffer holds the last W rows of (held rows ++ batch), in order.
   */
  lemma AbsorbEvictsOldest<T>(buf: seq<T>, ptr: nat, batch: seq<T>)
    requires ptr <= |buf| < ptr + |batch|
    requires |batch| <= |buf|
    ensures Absorb(buf, ptr, batch) == (buf[..ptr] + batch)[ptr + |batch| - |buf|..]
  {
    var w, n := |buf|, |batch|;
    var shift := ptr + n - w;
    var rolled := Rotate(buf, shift);
    assert WriteStart(ptr, n, w) == w - n;
    assert Absorb(buf, ptr, batch) == rolled[..w - n] + batch + rolled[w..];
    if shift < w {
      ModSmall(shift, w);
      assert rolled[..w - n] == buf[shift..ptr];
    }
    assert (buf[..ptr] + batch)[shift..] == buf[shift..ptr] + batch;
  }

  /** A batch longer than the window overwrites all of it with its FIRST W rows. */
  lemma AbsorbKeepsBatchHead<T>(buf: seq<T>, ptr: nat, batch: seq<T>)
    requires ptr <= |buf| < |batch|
    ensures Absorb(buf, ptr, batch) == batch[..|buf|]
  {
    var w := |buf|;
    assert WriteStart(ptr, |batch|, w) == 0;
    if w > 0 {
      var rolled := Rotate(buf, ptr + |batch| - w);
      assert Absorb(buf, ptr, batch) == rolled[..0] + batch[..w] + rolled[w..];
    }
  }

  lemma ModSmall(x: int, m: int)
    requires 0 <= x < m
    ensures x % m == x
  {
  }

  /**
   * The last slot, which Buffer.Add returns as the latest timestamp: untouched while
   * the window is not yet full, otherwise the newest row written by this batch.
   */
  lemma AbsorbLastSlot<T>(buf: seq<T>, ptr: nat, batch: seq<T>)
    requires ptr <= |buf| && 0 < |buf|
    ensures ptr + |batch| < |buf| ==> Absorb(buf, ptr, batch)[|buf| - 1] == buf[|buf| - 1]
    ensures |buf| <= ptr + |batch| && 0 < |batch| ==>
      Absorb(buf, ptr, batch)[|buf| - 1] == batch[Min(|batch|, |buf|) - 1]
  {
    var w, n := |buf|, |batch|;
    if ptr + n <= w {
      LastSlotWhenFits(buf, ptr, batch);
    } else if n <= w {
      LastSlotWhenEvicting(buf, ptr, batch);
      assert Min(n, w) == n;
    } else {
      AbsorbKeepsBatchHead(buf, ptr, batch);
      assert Min(n, w) == w && batch[..w][w - 1] == batch[w - 1];
    }
  }

  lemma LastSlotWhenFits<T>(buf: seq<T>, ptr: nat, batch: seq<T>)
    requires ptr + |batch| <= |buf| && 0 < |buf|
    ensures ptr + |batch| < |buf| ==> Absorb(buf, ptr, batch)[|buf| - 1] == buf[|buf| - 1]
    ensures ptr + |batch| == |buf| && 0 < |batch| ==> Absorb(buf, ptr, batch)[|buf| - 1] == batch[|batch| - 1]
  {
    AbsorbFits(buf, ptr, batch);
  }

  lemma LastSlotWhenEvicting<T>(buf: seq<T>, ptr: nat, batch: seq<T>)
    requires ptr <= |buf| < ptr + |batch|
    requires |batch| <= |buf|
    ensures Absorb(buf, ptr, batch)[|buf| - 1] == batch[|batch| - 1]
  {
    AbsorbEvictsOldest(buf, ptr, batch);
    var ys := buf[..ptr] + batch;
    assert ys[ptr + |batch| - |buf|..][|buf| - 1] == ys[ptr + |batch| - 1];
  }

  /**
   * Rows and timestamps go through the same eviction and write, so once the window
   * is full the returned timestamp belongs to the row in the last slot.
   */
  lemma LatestStampPairsWithLastRow<T>(rows: seq<T>, stamps: seq<real>, ptr: nat, batch: seq<T>, ts: seq<real>)
    requires |rows| == |stamps| && 0 < |rows| && ptr <= |rows|
    requires |batch| == |ts| && 0 < |batch| && |rows| <= ptr + |batch|
    ensures var k := Min(|batch|, |rows|) - 1;
      Absorb(rows, ptr, batch)[|rows| - 1] == batch[k] &&
      Absorb(stamps, ptr, ts)[|rows| - 1] == ts[k]
  {
    AbsorbLastSlot(rows, ptr, batch);
    AbsorbLastSlot(stamps, ptr, ts);
  }

  /** All the rows of a sequence of batches, in delivery order. */
  function Concat<T>(batches: seq<seq<T>>): seq<T>
  {
    if batches == [] then [] else batches[0] + Concat(batches[1..])
  }

  /** The buffer contents after absorbing each batch in turn. */
  function Feed<T>(buf: seq<T>, ptr: nat, batches: seq<seq<T>>): (r: seq<T>)
    requires ptr <= |buf|
    ensures |r| == |buf|
    decreases |batches|
  {
    if batches == [] then buf
    else Feed(Absorb(buf, ptr, batches[0]), Cursor(ptr, |batches[0]|, |buf|), batches[1..])
  }

  /** The cursor after absorbing each batch in turn. */
  function FeedCursor<T>(ptr: nat, w: nat, batches: seq<seq<T>>): nat
    requires ptr <= w
    decreases |batches|
  {
    if batches == [] then ptr else FeedCursor(Cursor(ptr, |batches[0]|, w), w, batches[1..])
  }

  /**
   * The cursor is the number of rows delivered so far, clamped at W. Nothing
   * resets it, so once the window is full every later add reports full again.
   */
  lemma {:induction false} FeedCursorClamps<T>(ptr: nat, w: nat, batches: seq<seq<T>>)
    requires ptr <= w
    ensures FeedCursor(ptr, w, batches) == Min(ptr + |Concat(batches)|, w)
    decreases |batches|
  {
    if batches != [] {
      FeedCursorClamps(Cursor(ptr, |batches[0]|, w), w, batches[1..]);
    }
  }

  /**
   * No data loss under normal flow: while the rows delivered fit, the buffer holds
   * them in delivery order right after the rows it started with, and the slots
   * past the cursor keep their old contents.
   */
  lemma {:induction false} FeedBelowCapacity<T>(buf: seq<T>, ptr: nat, batches: seq<seq<T>>)
    requires ptr + |Concat(batches)| <= |buf|
    ensures Feed(buf, ptr, batches) ==
      buf[..ptr] + Concat(batches) + buf[ptr + |Concat(batches)|..]
    decreases |batches|
  {
    if batches != [] {
      var b, rest := batches[0], batches[1..];
      AbsorbFits(buf, ptr, b);
      var next := Absorb(buf, ptr, b);
      var m := ptr + |b|;
      assert Cursor(ptr, |b|, |buf|) == m;
      FeedBelowCapacity(next, m, rest);
      assert next[..m] == buf[..ptr] + b;
      assert next[m + |Concat(rest)|..] == buf[m + |Concat(rest)|..];
    }
  }

  /**
   * Starting from the freshly created buffer (every slot `zero`, cursor 0), the
   * first rows are exactly the delivered rows while they fit.
   */
  lemma FreshBufferFill<T>(w: nat, zero: T, batches: seq<seq<T>>)
    requires |Concat(batches)| <= w
    ensures var total := |Concat(batches)|;
      Feed(seq(w, _ => zero), 0, batches) == Concat(batches) + seq(w - total, _ => zero) &&
      FeedCursor(0, w, batches) == total
  {
    var initial := seq(w, _ => zero);
    FeedBelowCapacity(initial, 0, batches);
    FeedCursorClamps(0, w, batches);
    assert initial[|Concat(batches)|..] == seq(w - |Concat(batches)|, _ => zero);
  }

  /** np.roll(a, -shift) into a new array. */
  method Roll<U>(a: array<U>, shift: nat) returns (b: array<U>)
    requires a.Length > 0
    ensures fresh(b) && b[..] == Rotate(a[..], shift)
  {
    var n := a.Length;
    var m := shift % n;
    b := new U[n](i requires 0 <= i < n reads a => if i + m < n then a[i + m] else a[i + m - n]);
    RotateAt(a[..], shift);
  }

  /** The roll of one vector in the eviction step, when ptr + n overflows it. */
  method RollPart<U>(a: array<U>, ptr: nat, n: nat) returns (b: array<U>)
    requires 0 < a.Length && ptr <= a.Length < ptr + n
    ensures fresh(b) && b[..] == Evicted(a[..], ptr, n)
  {
    b := Roll(a, ptr + n - a.Length);
  }

  /** In-place slice assignment a[start : start + |xs|] = xs. */
  method WriteSlice<U>(a: array<U>, start: nat, xs: seq<U>)
    requires start + |xs| <= a.Length
    modifies a
    ensures a[..] == Splice(old(a[..]), start, xs)
  {
    for k := 0 to |xs|
      invariant forall j :: 0 <= j < a.Length ==>
        a[j] == if start <= j < start + k then xs[j - start] else old(a[j])
    {
      a[start + k] := xs[k];
    }
    assert a[..] == Splice(old(a[..]), start, xs) by {
      var s := Splice(old(a[..]), start, xs);
      forall j | 0 <= j < a.Length
        ensures a[j] == s[j]
      {
        if j < start {
        } else if j < start + |xs| {
          assert s[j] == xs[j - start];
        } else {
          assert s[j] == old(a[..])[start + |xs|..][j - start - |xs|];
        }
      }
    }
  }

  /** Buffer: W rows of samples, their timestamps, and the write cursor. */
  class Buffer<T> {
    const W: nat
    var data: array<T>
    var timestamps: array<real>
    var ptr: nat

    ghost predicate Valid()
      reads this
    {
      data.Length == W && timestamps.Length == W && ptr <= W &&
      data as object != timestamps as object
    }

    /** A buffer of FS * duration rows (truncated), all `zero`, with zero timestamps. */
    constructor (duration: real, zero: T)
      requires duration >= 0.0
      ensures Valid() && fresh(data) && fresh(timestamps)
      ensures W == (FS as real * duration).Floor
      ensures ptr == 0
      ensures data[..] == seq(W, _ => zero) && timestamps[..] == seq(W, _ => 0.0)
    {
      var w := (FS as real * duration).Floor;
      W := w;
      data := new T[w](_ => zero);
      timestamps := new real[w](_ => 0.0);
      ptr := 0;
    }

    /**
     * Absorbs a batch of rows with their timestamps and returns whether the
     * window is full, the window itself and the timestamp in its last slot.
     */
    method Add(ts: seq<real>, batch: seq<T>) returns (full: bool, window: array<T>, latest: real)
      requires Valid() && W > 0
      requires |ts| == |batch|
      modifies this, data, timestamps
      ensures Valid()
      ensures data == old(data) || fresh(data)
      ensures timestamps == old(timestamps) || fresh(timestamps)
      ensures ptr == Cursor(old(ptr), |batch|, W)
      ensures data[..] == Absorb(old(data[..]), old(ptr), batch)
      ensures timestamps[..] == Absorb(old(timestamps[..]), old(ptr), ts)
      ensures full <==> ptr == W
      ensures window == data && latest == timestamps[W - 1]
    {
      Evict(|batch|);
      WriteBatch(ts, batch);
      full := ptr >= W;
      window := data;
      latest := timestamps[W - 1];
    }

    /**
     * The eviction step of Add: when n more rows would overflow, rotate both
     * vectors left by the overflow and move the cursor back by as much, clamped at 0.
     */
    method Evict(n: nat)
      requires Valid() && W > 0
      modifies this
      ensures Valid()
      ensures data == old(data) || fresh(data)
      ensures timestamps == old(timestamps) || fresh(timestamps)
      ensures ptr == WriteStart(old(ptr), n, W)
      ensures data[..] == Evicted(old(data[..]), old(ptr), n)
      ensures timestamps[..] == Evicted(old(timestamps[..]), old(ptr), n)
    {
      if ptr + n > W {
        var shift := ptr + n - W;
        var rows := RollPart(data, ptr, n);
        var stamps := RollPart(timestamps, ptr, n);
        var moved := ptr - shift;
        data, timestamps := rows, stamps;
        ptr := if moved < 0 then 0 else moved;
      }

    }

    /**
     * The write step of Add: copy as many leading rows of the batch as fit
     * at the cursor, with their timestamps, and advance the cursor past them.
     */
    method WriteBatch(ts: seq<real>, batch: seq<T>)
      requires Valid() && |ts| == |batch|
      modifies this`ptr, data, timestamps
      ensures Valid()
      ensures ptr == Min(old(ptr) + |batch|, W)
      ensures data[..] == Written(old(data[..]), old(ptr), batch)
      ensures timestamps[..] == Written(old(timestamps[..]), old(ptr), ts)
    {
      var end := Min(ptr + |batch|, W);
      var len := end - ptr;
      if len > 0 {
        WriteSlice(data, ptr, batch[..len]);
        WriteSlice(timestamps, ptr, ts[..len]);
        ptr := end;
      }
    }
  }
}
