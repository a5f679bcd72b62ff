/*
 * The band-selection half of compute_band_powers in main.py.
 *
 * The spectral estimate itself (Welch's method) is not modelled: a Spectrum is
 * its output, one frequency per bin and, per bin, one power density per
 * channel. From it the densities are averaged across channels, and each of the
 * five fixed bands gets the mean of the averaged densities whose bin frequency
 * lies in [low, high], both ends included, or 0 when no bin does.
 * Arithmetic is on exact reals; the source computes in floating point.
 */
module BandPowers {

  datatype Option<T> = None | Some(value: T)

  /** A named frequency band [low, high] in Hz. */
  datatype Band = Band(name: string, low: real, high: real)

  /** The bands, in the order the result lists them. */
  const BANDS: seq<Band> := [
    Band("Delta", 0.5, 4.0),
    Band("Theta", 4.0, 8.0),
    Band("Alpha", 8.0, 13.0),
    Band("Beta", 13.0, 30.0),
    Band("Gamma", 30.0, 100.0)
  ]

  /** What the spectral estimator returns: frequencies and, per bin, one density per channel. */
  datatype Spectrum = Spectrum(freqs: seq<real>, psd: seq<seq<real>>)

  /** One frequency per bin, and at least one channel per bin. */
  predicate WellFormed(s: Spectrum)
  {
    |s.freqs| == |s.psd| && forall i :: 0 <= i < |s.psd| ==> |s.psd[i]| > 0
  }

  /** The result of compute_band_powers: band name to power, in insertion order. */
  type Powers = seq<(string, real)>

  function Sum(xs: seq<real>): (s: real)
    ensures (forall i :: 0 <= i < |xs| ==> xs[i] >= 0.0) ==> s >= 0.0
  {
    if xs == [] then 0.0 else xs[0] + Sum(xs[1..])
  }

  function Mean(xs: seq<real>): (m: real)
    requires |xs| > 0
    ensures (forall i :: 0 <= i < |xs| ==> xs[i] >= 0.0) ==> m >= 0.0
  {
    Sum(xs) / |xs| as real
  }

  lemma {:induction false} SumOfConstant(xs: seq<real>, c: real)
    requires forall i :: 0 <= i < |xs| ==> xs[i] == c
    ensures Sum(xs) == |xs| as real * c
  {
    if xs != [] {
      SumOfConstant(xs[1..], c);
    }
  }

  /** The mean of values that are all c is c. */
  lemma MeanOfConstant(xs: seq<real>, c: real)
    requires |xs| > 0 && forall i :: 0 <= i < |xs| ==> xs[i] == c
    ensures Mean(xs) == c
  {
    SumOfConstant(xs, c);
  }

  /** np.mean(psd, axis=1): per bin, the density averaged across channels. */
  function ChannelAverage(psd: seq<seq<real>>): (avg: seq<real>)
    requires forall i :: 0 <= i < |psd| ==> |psd[i]| > 0
    ensures |avg| == |psd|
    ensures forall i :: 0 <= i < |psd| ==>
      (forall j :: 0 <= j < |psd[i]| ==> psd[i][j] >= 0.0) ==> avg[i] >= 0.0
  {
    seq(|psd|, i requires 0 <= i < |psd| => Mean(psd[i]))
  }

  predicate InRange(f: real, low: real, high: real)
  {
    low <= f <= high
  }

  /** values[mask] for the mask low <= freqs <= high: the values of the bins inside the band, in bin order. */
  function InBand(freqs: seq<real>, values: seq<real>, low: real, high: real): (r: seq<real>)
    requires |freqs| == |values|
    ensures |r| <= |values|
    ensures r == [] <==> forall i :: 0 <= i < |freqs| ==> !InRange(freqs[i], low, high)
    ensures forall i :: 0 <= i < |freqs| && InRange(freqs[i], low, high) ==> values[i] in r
    ensures forall j :: 0 <= j < |r| ==>
      exists i :: 0 <= i < |freqs| && InRange(freqs[i], low, high) && values[i] == r[j]
    decreases |freqs|
  {
    if freqs == [] then []
    else
      var rest := InBand(freqs[1..], values[1..], low, high);
      assert forall i :: 1 <= i < |freqs| ==> freqs[i] == freqs[1..][i - 1] && values[i] == values[1..][i - 1];
      if InRange(freqs[0], low, high) then [values[0]] + rest else rest
  }

  /** The power of one band: the mean over the bins inside it, or 0 when there is none. */
  function BandPower(freqs: seq<real>, avg: seq<real>, band: Band): (p: real)
    requires |freqs| == |avg|
    ensures (forall i :: 0 <= i < |freqs| ==> !InRange(freqs[i], band.low, band.high)) ==> p == 0.0
    ensures (forall i :: 0 <= i < |avg| ==> avg[i] >= 0.0) ==> p >= 0.0
  {
    var selected := InBand(freqs, avg, band.low, band.high);
    assert (forall i :: 0 <= i < |avg| ==> avg[i] >= 0.0) ==>
      forall j :: 0 <= j < |selected| ==> selected[j] >= 0.0;
    if |selected| > 0 then Mean(selected) else 0.0
  }

  /** A spectrum whose averaged densities are all 0 gives power 0 in any band. */
  lemma BandPowerOfZero(freqs: seq<real>, avg: seq<real>, band: Band)
    requires |freqs| == |avg| && forall i :: 0 <= i < |avg| ==> avg[i] == 0.0
    ensures BandPower(freqs, avg, band) == 0.0
  {
    var selected := InBand(freqs, avg, band.low, band.high);
    if |selected| > 0 {
      assert forall j :: 0 <= j < |selected| ==> selected[j] == 0.0;
      MeanOfConstant(selected, 0.0);
    }
  }

  /** compute_band_powers after the spectral estimate: one entry per band, in band order. */
  function ComputeBandPowers(s: Spectrum): (r: Powers)
    requires WellFormed(s)
    ensures |r| == |BANDS|
    ensures forall k :: 0 <= k < |BANDS| ==> r[k].0 == BANDS[k].name
    ensures forall k :: 0 <= k < |BANDS| ==> Find(r, BANDS[k].name) == Some(r[k].1)
    ensures forall k :: 0 <= k < |BANDS| ==> r[k].1 == BandPower(s.freqs, ChannelAverage(s.psd), BANDS[k])
  {
    var avg := ChannelAverage(s.psd);
    var r := seq(|BANDS|, k requires 0 <= k < |BANDS| => (BANDS[k].name, BandPower(s.freqs, avg, BANDS[k])));
    FindByBandName(r);
    r
  }

  /** Each value is the band power of the channel-averaged spectrum for that band. */
  lemma PowerOfBand(s: Spectrum, k: nat)
    requires WellFormed(s) && k < |BANDS|
    ensures ComputeBandPowers(s)[k].1 == BandPower(s.freqs, ChannelAverage(s.psd), BANDS[k])
  {
  }

  /** The first entry under `key`, as a Python dict lookup; None where the dict raises KeyError. */
  function Find(p: Powers, key: string): (r: Option<real>)
    ensures r.Some? <==> exists k :: 0 <= k < |p| && p[k].0 == key
    ensures r.Some? ==> exists k :: 0 <= k < |p| && p[k] == (key, r.value)
  {
    if p == [] then None
    else if p[0].0 == key then Some(p[0].1)
    else
      assert forall k :: 1 <= k < |p| ==> p[k] == p[1..][k - 1];
      Find(p[1..], key)
  }

  /** In a result that lists the bands in order, looking a band up by name finds its own entry. */
  lemma FindByBandName(p: Powers)
    requires |p| == |BANDS| && forall k :: 0 <= k < |BANDS| ==> p[k].0 == BANDS[k].name
    ensures forall k :: 0 <= k < |BANDS| ==> Find(p, BANDS[k].name) == Some(p[k].1)
  {
    BandNamesDistinct();
    FindFirst(p);
  }

  lemma BandNamesDistinct()
    ensures forall j, k :: 0 <= j < k < |BANDS| ==> BANDS[j].name != BANDS[k].name
  {
    assert BANDS[0].name[0] == 'D' && BANDS[1].name[0] == 'T' && BANDS[2].name[0] == 'A';
    assert BANDS[3].name[0] == 'B' && BANDS[4].name[0] == 'G';
  }

  /** When no two entries share a key, Find returns the value stored under each key. */
  lemma {:induction false} FindFirst(p: Powers)
    requires forall j, k :: 0 <= j < k < |p| ==> p[j].0 != p[k].0
    ensures forall k :: 0 <= k < |p| ==> Find(p, p[k].0) == Some(p[k].1)
  {
    if p != [] {
      FindFirst(p[1..]);
      assert forall k :: 1 <= k < |p| ==> p[k] == p[1..][k - 1];
    }
  }

  /** Band powers are non-negative whenever the estimated densities are. */
  lemma PowersNonNegative(s: Spectrum)
    requires WellFormed(s)
    requires forall i, j :: 0 <= i < |s.psd| && 0 <= j < |s.psd[i]| ==> s.psd[i][j] >= 0.0
    ensures forall k :: 0 <= k < |BANDS| ==> ComputeBandPowers(s)[k].1 >= 0.0
  {
    var avg := ChannelAverage(s.psd);
    forall k | 0 <= k < |BANDS|
      ensures ComputeBandPowers(s)[k].1 >= 0.0
    {
      assert forall i :: 0 <= i < |avg| ==> avg[i] >= 0.0;
      PowerOfBand(s, k);
    }
  }

  /** A band with no bin inside it gets power 0 rather than an error. */
  lemma EmptyBandIsZero(s: Spectrum, k: nat)
    requires WellFormed(s) && k < |BANDS|
    requires forall i :: 0 <= i < |s.freqs| ==> !InRange(s.freqs[i], BANDS[k].low, BANDS[k].high)
    ensures ComputeBandPowers(s)[k].1 == 0.0
  {
    PowerOfBand(s, k);
  }

  /** An all-zero spectrum gives power 0 in every band. */
  lemma ZeroSpectrumZeroPowers(s: Spectrum)
    requires WellFormed(s)
    requires forall i, j :: 0 <= i < |s.psd| && 0 <= j < |s.psd[i]| ==> s.psd[i][j] == 0.0
    ensures forall k :: 0 <= k < |BANDS| ==> ComputeBandPowers(s)[k].1 == 0.0
  {
    var avg := ChannelAverage(s.psd);
    forall i | 0 <= i < |avg|
      ensures avg[i] == 0.0
    {
      MeanOfConstant(s.psd[i], 0.0);
    }
    forall k | 0 <= k < |BANDS|
      ensures ComputeBandPowers(s)[k].1 == 0.0
    {
      PowerOfBand(s, k);
      BandPowerOfZero(s.freqs, avg, BANDS[k]);
    }
  }

  /**
   * Adjacent bands share their boundary frequency, and a bin exactly on it
   * (4, 8, 13 or 30 Hz) is counted in both.
   */
  lemma BoundaryBinInBothBands(freqs: seq<real>, avg: seq<real>, i: nat, k: nat)
    requires |freqs| == |avg| && i < |freqs|
    requires k + 1 < |BANDS| && freqs[i] == BANDS[k].high
    ensures avg[i] in InBand(freqs, avg, BANDS[k].low, BANDS[k].high)
    ensures avg[i] in InBand(freqs, avg, BANDS[k + 1].low, BANDS[k + 1].high)
  {
    AdjacentBandsShareEdges(k);
    assert InRange(freqs[i], BANDS[k].low, BANDS[k].high);
    assert InRange(freqs[i], BANDS[k + 1].low, BANDS[k + 1].high);
  }

  /** Consecutive bands meet: each band ends where the next begins. */
  lemma AdjacentBandsShareEdges(k: nat)
    requires k + 1 < |BANDS|
    ensures BANDS[k].low < BANDS[k].high == BANDS[k + 1].low < BANDS[k + 1].high
  {
  }

  /** The number of bins inside a band. */
  function CountInBand(freqs: seq<real>, low: real, high: real): nat
  {
    if freqs == [] then 0
    else (if InRange(freqs[0], low, high) then 1 else 0) + CountInBand(freqs[1..], low, high)
  }

  /** The total of the values whose bins lie inside a band (the masked sum). */
  function SumInBand(freqs: seq<real>, values: seq<real>, low: real, high: real): real
    requires |freqs| == |values|
  {
    if freqs == [] then 0.0
    else (if InRange(freqs[0], low, high) then values[0] else 0.0) + SumInBand(freqs[1..], values[1..], low, high)
  }

  /** The band power is the masked sum divided by the masked count, or 0 for an empty band. */
  lemma {:induction false} BandPowerIsMaskedMean(freqs: seq<real>, avg: seq<real>, band: Band)
    requires |freqs| == |avg|
    ensures var n := CountInBand(freqs, band.low, band.high);
      BandPower(freqs, avg, band) ==
        if n == 0 then 0.0 else SumInBand(freqs, avg, band.low, band.high) / n as real
  {
    SelectionMatchesMask(freqs, avg, band.low, band.high);
  }

  lemma {:induction false} SelectionMatchesMask(freqs: seq<real>, values: seq<real>, low: real, high: real)
    requires |freqs| == |values|
    ensures |InBand(freqs, values, low, high)| == CountInBand(freqs, low, high)
    ensures Sum(InBand(freqs, values, low, high)) == SumInBand(freqs, values, low, high)
    decreases |freqs|
  {
    if freqs != [] {
      SelectionMatchesMask(freqs[1..], values[1..], low, high);
    }
  }
}
