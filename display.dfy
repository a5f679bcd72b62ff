/*
 * The data side of the visualizer process in main.py: one history of the last
 * 200 values per band, and the timer tick `update` that drains the queue into
 * those histories. Windows, plots and the timer itself are not modelled.
 *
 * A tick takes the items in the queue in FIFO order. The end-of-stream marker
 * ends the tick at once. A record shifts each band's history left by one and
 * stores the band's value in the last slot; the shift comes before the lookup,
 * so a record missing a band leaves that band shifted with its old last value
 * repeated, and the bare `except` skips the remaining bands of that record.
 * Only a tick that empties the queue goes on to honour the stop flag.
 */
module Display {
  import opened BandPowers
  import opened Channel

  /** Number of updates each plot keeps. */
  const HISTORY: nat := 200

  /** The bands the visualizer plots, top to bottom. */
  const BAND_NAMES: seq<string> := ["Delta", "Theta", "Alpha", "Beta", "Gamma"]

  /** Shift left by one and set the last slot: index i + 1 moves to i, v lands at the end. */
  function Push(s: seq<real>, v: real): (r: seq<real>)
    requires |s| > 0
    ensures |r| == |s| && r[|s| - 1] == v
    ensures forall i :: 0 <= i < |s| - 1 ==> r[i] == s[i + 1]
  {
    s[1..] + [v]
  }

  /** One history per plotted band, each HISTORY long. */
  predicate Shaped(traces: seq<seq<real>>)
  {
    |traces| == |BAND_NAMES| && forall b :: 0 <= b < |traces| ==> |traces[b]| == HISTORY
  }

  /** The histories after one record, from band index b on. */
  function ApplyRecord(traces: seq<seq<real>>, p: Powers, b: nat): (r: seq<seq<real>>)
    requires Shaped(traces) && b <= |BAND_NAMES|
    ensures Shaped(r)
    decreases |BAND_NAMES| - b
  {
    if b == |BAND_NAMES| then traces
    else
      var s := traces[b];
      match Find(p, BAND_NAMES[b])
      case None => traces[b := Push(s, s[|s| - 1])]
      case Some(v) => ApplyRecord(traces[b := Push(s, v)], p, b + 1)
  }

  /** What one tick did: the new histories, how many items it took, whether it met the marker. */
  datatype Drained = Drained(traces: seq<seq<real>>, consumed: nat, sentinel: bool)

  /** One tick over the queue contents `inbox`. */
  function Drain(traces: seq<seq<real>>, inbox: seq<Item>): (d: Drained)
    requires Shaped(traces)
    ensures Shaped(d.traces) && d.consumed <= |inbox|
    ensures d.sentinel <==> Stop in inbox
    ensures d.sentinel ==>
      0 < d.consumed && inbox[d.consumed - 1] == Stop && Stop !in inbox[..d.consumed - 1]
    ensures !d.sentinel ==> d.consumed == |inbox|
    decreases |inbox|
  {
    if inbox == [] then Drained(traces, 0, false)
    else match inbox[0]
      case Stop => Drained(traces, 1, true)
      case Record(p) =>
        var d := Drain(ApplyRecord(traces, p, 0), inbox[1..]);
        assert inbox == [inbox[0]] + inbox[1..];
        assert d.sentinel ==> inbox[..d.consumed] == [inbox[0]] + inbox[1..][..d.consumed - 1];
        Drained(d.traces, d.consumed + 1, d.sentinel)
  }

  /** The visualizer's list names the bands in the order compute_band_powers produces them. */
  lemma BandNamesAreBands()
    ensures |BAND_NAMES| == |BANDS|
    ensures forall b :: 0 <= b < |BANDS| ==> BAND_NAMES[b] == BANDS[b].name
  {
  }

  /** The value of the b-th plotted band in a complete record. */
  function BandValue(p: Powers, b: nat): real
    requires Complete(p) && b < |BAND_NAMES|
  {
    BandNamesAreBands();
    Find(p, BAND_NAMES[b]).value
  }

  /** Pushing the values vs one after the other. */
  function PushAll(s: seq<real>, vs: seq<real>): (r: seq<real>)
    requires |s| > 0
    ensures |r| == |s|
    decreases |vs|
  {
    if vs == [] then s else PushAll(Push(s, vs[0]), vs[1..])
  }

  /** A history after k pushes is the last |s| values of the old history followed by the new values. */
  lemma {:induction false} PushAllSlides(s: seq<real>, vs: seq<real>)
    requires |s| > 0
    ensures PushAll(s, vs) == (s + vs)[|vs|..]
    decreases |vs|
  {
    if vs != [] {
      var t := Push(s, vs[0]);
      PushAllSlides(t, vs[1..]);
      assert t + vs[1..] == (s + vs)[1..];
    }
  }

  /** A record holding every band pushes each band's value onto that band's history. */
  lemma {:induction false} CompleteRecordPushesEach(traces: seq<seq<real>>, p: Powers, b: nat)
    requires Shaped(traces) && Complete(p) && b <= |BAND_NAMES|
    ensures var r := ApplyRecord(traces, p, b);
      forall c :: 0 <= c < |BAND_NAMES| ==>
        r[c] == if c < b then traces[c] else Push(traces[c], BandValue(p, c))
    decreases |BAND_NAMES| - b
  {
    BandNamesAreBands();
    if b < |BAND_NAMES| {
      var v := BandValue(p, b);
      CompleteRecordPushesEach(traces[b := Push(traces[b], v)], p, b + 1);
    }
  }

  /** The values of band b in a queue of complete records, in queue order. */
  function Column(inbox: seq<Item>, b: nat): (col: seq<real>)
    requires b < |BAND_NAMES|
    requires forall j :: 0 <= j < |inbox| ==> inbox[j].Record? && Complete(inbox[j].powers)
    ensures |col| == |inbox|
  {
    seq(|inbox|, j requires 0 <= j < |inbox| => BandValue(inbox[j].powers, b))
  }

  /**
   * Draining complete records takes all of them, in FIFO order: afterwards each
   * band's history is the last HISTORY values of the old history followed by
   * that band's values from the queue.
   */
  lemma {:induction false} DrainInOrder(traces: seq<seq<real>>, inbox: seq<Item>)
    requires Shaped(traces)
    requires forall j :: 0 <= j < |inbox| ==> inbox[j].Record? && Complete(inbox[j].powers)
    ensures var d := Drain(traces, inbox);
      d.consumed == |inbox| && !d.sentinel &&
      forall b :: 0 <= b < |BAND_NAMES| ==> d.traces[b] == (traces[b] + Column(inbox, b))[|inbox|..]
    decreases |inbox|
  {
    if inbox != [] {
      var p := inbox[0].powers;
      var next := ApplyRecord(traces, p, 0);
      CompleteRecordPushesEach(traces, p, 0);
      DrainInOrder(next, inbox[1..]);
      var d := Drain(next, inbox[1..]);
      forall b | 0 <= b < |BAND_NAMES|
        ensures d.traces[b] == (traces[b] + Column(inbox, b))[|inbox|..]
      {
        ColumnCons(inbox, b);
        SlideStep(traces[b], BandValue(p, b), Column(inbox[1..], b), d.traces[b]);
      }
    }
  }

  lemma ColumnCons(inbox: seq<Item>, b: nat)
    requires b < |BAND_NAMES| && inbox != []
    requires forall j :: 0 <= j < |inbox| ==> inbox[j].Record? && Complete(inbox[j].powers)
    ensures Column(inbox, b) == [BandValue(inbox[0].powers, b)] + Column(inbox[1..], b)
  {
    var rest := Column(inbox[1..], b);
    assert forall j :: 0 <= j < |rest| ==> rest[j] == BandValue(inbox[j + 1].powers, b);
  }

  /** One more push in front of a slide is one longer slide. */
  lemma SlideStep(s: seq<real>, v: real, col: seq<real>, r: seq<real>)
    requires |s| > 0 && r == (Push(s, v) + col)[|col|..]
    ensures r == (s + ([v] + col))[|col| + 1..]
  {
    assert Push(s, v) + col == (s + ([v] + col))[1..];
  }

  /** The marker ends the tick: the records before it are applied, nothing after it is taken. */
  lemma {:induction false} DrainStopsAtMarker(traces: seq<seq<real>>, before: seq<Item>, after: seq<Item>)
    requires Shaped(traces) && Stop !in before
    ensures Drain(traces, before + [Stop] + after) ==
      Drained(Drain(traces, before).traces, |before| + 1, true)
    decreases |before|
  {
    if before != [] {
      assert (before + [Stop] + after)[1..] == before[1..] + [Stop] + after;
      DrainStopsAtMarker(ApplyRecord(traces, before[0].powers, 0), before[1..], after);
    }
  }

  /** Shifting a history and then overwriting its last slot pushes the new value. */
  lemma ShiftThenSet(traces: seq<seq<real>>, b: nat, v: real)
    requires Shaped(traces) && b < |BAND_NAMES|
    ensures var s := traces[b];
      var shifted := traces[b := Push(s, s[HISTORY - 1])];
      shifted[b := shifted[b][..HISTORY - 1] + [v]] == traces[b := Push(s, v)]
  {
    var s := traces[b];
    assert Push(s, s[HISTORY - 1])[..HISTORY - 1] + [v] == Push(s, v);
  }

  /** The histories of the visualizer, one row per band. */
  class Visualizer {
    const history: array2<real>

    ghost predicate Valid()
      reads this
    {
      history.Length0 == |BAND_NAMES| && history.Length1 == HISTORY
    }

    ghost function Row(b: nat): (s: seq<real>)
      requires Valid() && b < |BAND_NAMES|
      reads this, history
      ensures |s| == HISTORY
    {
      seq(HISTORY, i requires 0 <= i < HISTORY reads history => history[b, i])
    }

    ghost function Traces(): (t: seq<seq<real>>)
      requires Valid()
      reads this, history
      ensures Shaped(t)
    {
      seq(|BAND_NAMES|, b requires 0 <= b < |BAND_NAMES| reads this, history => Row(b))
    }

    /** Every history starts as HISTORY zeros. */
    constructor ()
      ensures Valid() && fresh(history)
      ensures Traces() == seq(|BAND_NAMES|, _ => seq(HISTORY, _ => 0.0))
    {
      history := new real[|BAND_NAMES|, HISTORY]((_, _) => 0.0);
      new;
      forall b | 0 <= b < |BAND_NAMES|
        ensures Row(b) == seq(HISTORY, _ => 0.0)
      {
      }
    }

    /** data_buffers[band][:-1] = data_buffers[band][1:] */
    method ShiftRow(b: nat)
      requires Valid() && b < |BAND_NAMES|
      modifies history
      ensures Traces() == old(Traces())[b := Push(old(Row(b)), old(Row(b))[HISTORY - 1])]
    {
      for i := 0 to HISTORY - 1
        invariant forall c, j :: 0 <= c < |BAND_NAMES| && 0 <= j < HISTORY ==>
          history[c, j] == if c == b && j < i then old(history[c, j + 1]) else old(history[c, j])
      {
        history[b, i] := history[b, i + 1];
      }
      assert Row(b) == Push(old(Row(b)), old(Row(b))[HISTORY - 1]);
      assert forall c :: 0 <= c < |BAND_NAMES| && c != b ==> Row(c) == old(Row(c));
    }

    /** data_buffers[band][-1] = value */
    method SetLast(b: nat, v: real)
      requires Valid() && b < |BAND_NAMES|
      modifies history
      ensures Traces() == old(Traces())[b := old(Row(b))[..HISTORY - 1] + [v]]
    {
      history[b, HISTORY - 1] := v;
      assert Row(b) == old(Row(b))[..HISTORY - 1] + [v];
      assert forall c :: 0 <= c < |BAND_NAMES| && c != b ==> Row(c) == old(Row(c));
    }

    /** The body of the per-band loop for one record, with the KeyError ending it. */
    method ApplyItem(p: Powers)
      requires Valid()
      modifies history
      ensures Traces() == ApplyRecord(old(Traces()), p, 0)
    {
      var b := 0;
      while b < |BAND_NAMES|
        invariant 0 <= b <= |BAND_NAMES|
        invariant ApplyRecord(old(Traces()), p, 0) == ApplyRecord(Traces(), p, b)
      {
        ghost var before := Traces();
        ShiftRow(b);
        match Find(p, BAND_NAMES[b]) {
          case None =>
            return;
          case Some(v) =>
            SetLast(b, v);
            ShiftThenSet(before, b, v);
        }
        b := b + 1;
      }
    }

    /**
     * One timer tick over the items now in the queue. Returns how many items it
     * took and whether it ends the event loop (the stop flag is only looked at
     * when the queue was emptied without meeting the marker).
     */
    method Update(inbox: seq<Item>, stopSet: bool) returns (consumed: nat, quit: bool)
      requires Valid()
      modifies history
      ensures var d := Drain(old(Traces()), inbox);
        Traces() == d.traces && consumed == d.consumed && quit == (stopSet && !d.sentinel)
    {
      consumed := 0;
      while consumed < |inbox|
        invariant consumed <= |inbox|
        invariant var rest := Drain(Traces(), inbox[consumed..]);
          Drain(old(Traces()), inbox) == Drained(rest.traces, rest.consumed + consumed, rest.sentinel)
      {
        var item := inbox[consumed];
        assert inbox[consumed..] == [item] + inbox[consumed + 1..];
        consumed := consumed + 1;
        match item {
          case Stop =>
            quit := false;
            return;
          case Record(p) =>
            ApplyItem(p);
        }
      }
      quit := stopSet;
    }
  }
}
