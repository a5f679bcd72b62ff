/*
 * eeg_callback in main.py, together with the state it touches: the window
 * buffer, the CSV writer (modelled as the sequence of rows written) and the
 * queue to the visualizer (modelled as the sequence of items put).
 *
 * The spectral estimator is a parameter of the model, fixed at construction:
 * a total function from the window and the sampling rate to a well-formed
 * spectrum. Whether a CSV write raises ValueError is an input of each call.
 */
module Ingest {
  import opened WindowBuffer
  import opened BandPowers
  import opened Channel

  /** One sample: one reading per EEG channel. */
  type Sample = seq<real>

  /** The all-zero sample the window buffer starts with (four channels). */
  const ZERO_SAMPLE: Sample := [0.0, 0.0, 0.0, 0.0]

  /** The band columns of a CSV row, as listed in the callback. */
  const CSV_BANDS: seq<string> := ["Delta", "Theta", "Alpha", "Beta", "Gamma"]

  /** The header row written when the log file is opened. */
  const HEADER: seq<string> := ["Timestamp", "Delta", "Theta", "Alpha", "Beta", "Gamma"]

  datatype CsvRow = Header(names: seq<string>) | Values(fields: seq<real>)

  type Estimator = (seq<Sample>, nat) -> EstimatedSpectrum

  type EstimatedSpectrum = s: Spectrum | WellFormed(s) witness Spectrum([], [])

  /** [latest_ts] followed by the power of each band in CSV_BANDS. */
  function CsvLine(latest: real, p: Powers): (row: seq<real>)
    requires forall k :: 0 <= k < |CSV_BANDS| ==> Find(p, CSV_BANDS[k]).Some?
    ensures |row| == |HEADER| && row[0] == latest
    ensures forall k :: 0 <= k < |CSV_BANDS| ==> exists j :: 0 <= j < |p| && p[j] == (CSV_BANDS[k], row[k + 1])
  {
    [latest] + seq(|CSV_BANDS|, k requires 0 <= k < |CSV_BANDS| => Find(p, CSV_BANDS[k]).value)
  }

  /** The powers of a result, in its own order. */
  function PowerValues(p: Powers): (vs: seq<real>)
  {
    seq(|p|, k requires 0 <= k < |p| => p[k].1)
  }

  /** The callback's column list names the bands in the order compute_band_powers produces them. */
  lemma CsvBandsAreBands()
    ensures |CSV_BANDS| == |BANDS|
    ensures forall k :: 0 <= k < |BANDS| ==> CSV_BANDS[k] == BANDS[k].name
  {
  }

  /** Looking up each CSV column in a computed result finds the power at the same position. */
  lemma ComputedHasCsvColumns(s: Spectrum)
    requires WellFormed(s)
    ensures var p := ComputeBandPowers(s);
      forall k :: 0 <= k < |CSV_BANDS| ==> p[k].0 == CSV_BANDS[k] && Find(p, CSV_BANDS[k]) == Some(p[k].1)
  {
    CsvBandsAreBands();
  }

  /**
   * A data row has one field per header column: the timestamp under "Timestamp",
   * then each band's power under that band's name.
   */
  lemma CsvLineMatchesHeader(latest: real, p: Powers)
    requires |p| == |CSV_BANDS|
    requires forall k :: 0 <= k < |CSV_BANDS| ==> p[k].0 == CSV_BANDS[k] && Find(p, CSV_BANDS[k]) == Some(p[k].1)
    ensures var row := CsvLine(latest, p);
      |row| == |HEADER| && HEADER[0] == "Timestamp" && row[0] == latest &&
      (forall k :: 0 <= k < |p| ==> HEADER[k + 1] == p[k].0 && row[k + 1] == p[k].1) &&
      row == [latest] + PowerValues(p)
  {
    HeaderIsTimestampThenBands();
    var row := CsvLine(latest, p);
    assert row[1..] == PowerValues(p);
    assert row == [latest] + row[1..];
  }

  lemma HeaderIsTimestampThenBands()
    ensures HEADER == ["Timestamp"] + CSV_BANDS
  {
  }

  /** The log file: the header row, then data rows with one field per header column. */
  predicate LogShaped(log: seq<CsvRow>)
  {
    |log| > 0 && log[0] == Header(HEADER) &&
    forall i :: 1 <= i < |log| ==> log[i].Values? && |log[i].fields| == |HEADER|
  }

  /** The queue as the acquisition side fills it: complete band-power records only. */
  predicate QueueShaped(queue: seq<Item>)
  {
    forall i :: 0 <= i < |queue| ==> queue[i].Record? && Complete(queue[i].powers)
  }

  lemma AppendRow(log: seq<CsvRow>, row: seq<real>)
    requires LogShaped(log) && |row| == |HEADER|
    ensures LogShaped(log + [Values(row)])
  {
  }

  lemma AppendRecord(queue: seq<Item>, p: Powers)
    requires QueueShaped(queue) && Complete(p)
    ensures QueueShaped(queue + [Record(p)])
  {
  }

  /** Everything eeg_callback reads and writes. */
  class Ingestor {
    const buffer: Buffer<Sample>
    const estimate: Estimator
    var log: seq<CsvRow>
    var queue: seq<Item>

    ghost predicate Valid()
      reads this, buffer
    {
      buffer.Valid() && buffer.W == FS && LogShaped(log) && QueueShaped(queue)
    }

    /** The one-second buffer, the log with its header row, and an empty queue. */
    constructor (estimate: Estimator)
      ensures Valid() && fresh(buffer) && fresh(buffer.data) && fresh(buffer.timestamps)
      ensures buffer.ptr == 0
      ensures buffer.data[..] == seq(FS, _ => ZERO_SAMPLE)
      ensures buffer.timestamps[..] == seq(FS, _ => 0.0)
      ensures this.estimate == estimate
      ensures log == [Header(HEADER)] && queue == []
    {
      buffer := new Buffer(1.0, ZERO_SAMPLE);
      this.estimate := estimate;
      log := [Header(HEADER)];
      queue := [];
    }

    /**
     * One delivery from the headset: absorb the batch; if the window is full,
     * estimate the band powers, write one CSV row unless the write fails, and
     * put the powers on the queue either way.
     */
    method Callback(ts: seq<real>, batch: seq<Sample>, writeFails: bool)
      requires Valid() && |ts| == |batch|
      modifies this, buffer, buffer.data, buffer.timestamps
      ensures Valid()
      ensures buffer.ptr == Cursor(old(buffer.ptr), |batch|, FS)
      ensures buffer.data[..] == Absorb(old(buffer.data[..]), old(buffer.ptr), batch)
      ensures buffer.timestamps[..] == Absorb(old(buffer.timestamps[..]), old(buffer.ptr), ts)
      ensures buffer.ptr < FS ==> log == old(log) && queue == old(queue)
      ensures buffer.ptr == FS ==>
        var p := ComputeBandPowers(estimate(buffer.data[..], FS));
        queue == old(queue) + [Record(p)] &&
        log == old(log) + (if writeFails then [] else [Values([buffer.timestamps[FS - 1]] + PowerValues(p))])
    {
      var ready, window, latest := buffer.Add(ts, batch);
      ghost var rows, stamp := buffer.data[..], buffer.timestamps[FS - 1];
      if ready {
        Publish(window[..], latest, writeFails);
      }
      assert buffer.data[..] == rows && buffer.timestamps[FS - 1] == stamp;
    }

    /**
     * The ready branch of eeg_callback: estimate the band powers of the window,
     * write [latest] and the five powers as one CSV row unless the write raises
     * ValueError, and put the powers on the queue either way.
     */
    method Publish(window: seq<Sample>, latest: real, writeFails: bool)
      requires Valid()
      modifies this`log, this`queue
      ensures Valid()
      ensures var p := ComputeBandPowers(estimate(window, FS));
        queue == old(queue) + [Record(p)] &&
        log == old(log) + (if writeFails then [] else [Values([latest] + PowerValues(p))])
    {
      var powers := ComputeBandPowers(estimate(window, FS));
      ComputedHasCsvColumns(estimate(window, FS));
      CsvLineMatchesHeader(latest, powers);
      var row := CsvLine(latest, powers);
      if !writeFails {
        AppendRow(log, row);
        log := log + [Values(row)];
      }
      AppendRecord(queue, powers);
      queue := queue + [Record(powers)];
    }
  }
}
