/** Construction of `FeatExtractor` (Offline/model.py): the order of the FIR
    filter and the choice between a lowpass and a bandpass design. The filter
    coefficients (`signal.firwin`) and the zero-phase filtering
    (`signal.filtfilt`) are not part of this model. */
module FeatExtraction {
  import opened Common

  /** The request `signal.firwin(numTaps, cutoff, fs = fs, pass_zero = passZero)`. */
  datatype FirDesign = FirDesign(numTaps: int, cutoff: seq<real>, fs: int, passZero: bool)

  /** A constructed extractor. Its filter is FIR: the denominator is the constant 1. */
  datatype FeatExtractor = FeatExtractor(sfreq: int, bandErp: seq<real>, filterErp: FirDesign)

  /** The default filter order `int(sfreq / 5)`: sfreq / 5 rounded toward zero. */
  function DefaultOrder(sfreq: int): (n: int)
    ensures sfreq >= 0 ==> 0 <= n && 5 * n <= sfreq < 5 * n + 5
    ensures sfreq < 0 ==> n <= 0 && 5 * n - 5 < sfreq <= 5 * n
  {
    TruncDiv(sfreq, 5)
  }

  /** The number of taps the constructor requests: `n + 1`, with `n` defaulting
      to `int(sfreq / 5)`. */
  function RequestedTaps(sfreq: int, n: Option<int>): int
  {
    (if n.Some? then n.value else DefaultOrder(sfreq)) + 1
  }

  /** The cutoffs as fractions of the Nyquist frequency `fs / 2`, as `firwin`
      normalises them before checking them. */
  function Normalized(cutoff: seq<real>, fs: int): (c: seq<real>)
    requires fs != 0
    ensures |c| == |cutoff|
    ensures forall i :: 0 <= i < |c| ==> c[i] == cutoff[i] / (fs as real / 2.0)
  {
    seq(|cutoff|, i requires 0 <= i < |cutoff| => cutoff[i] / (fs as real / 2.0))
  }

  /** `firwin` designs a filter with a nonzero response at the Nyquist frequency
      exactly when an odd number of cutoffs is combined with `pass_zero=False`,
      or an even number with `pass_zero=True`. */
  predicate PassNyquist(d: FirDesign)
  {
    (|d.cutoff| % 2 == 1) != d.passZero
  }

  /** The argument checks `signal.firwin` makes before designing anything, each of
      which raises ValueError: at least one cutoff; every normalised cutoff
      strictly between 0 and 1; cutoffs strictly increasing; and an odd number of
      taps whenever the design passes the Nyquist frequency. */
  predicate FirwinAccepts(d: FirDesign)
  {
    && d.fs != 0
    && |d.cutoff| > 0
    && (forall i :: 0 <= i < |d.cutoff| ==> 0.0 < Normalized(d.cutoff, d.fs)[i] < 1.0)
    && (forall i :: 0 <= i < |d.cutoff| - 1 ==> Normalized(d.cutoff, d.fs)[i] < Normalized(d.cutoff, d.fs)[i + 1])
    && !(PassNyquist(d) && d.numTaps % 2 == 0)
  }

  /** `FeatExtractor(sfreq, band_erp, n)`. A band given as a scalar is the
      one-element sequence here (numpy gives it size 1 either way). The assertion
      on the band comes first; `firwin` then rejects a design it cannot make. */
  function NewFeatExtractor(sfreq: int, bandErp: Option<seq<real>>, n: Option<int>): (r: Result<FeatExtractor>)
    ensures bandErp.None? ==> r == Err(AssertionError)
    ensures bandErp.Some? ==>
      (r.Err? <==> !FirwinAccepts(FirDesign(RequestedTaps(sfreq, n), bandErp.value, sfreq, |bandErp.value| == 1)))
    ensures bandErp.Some? && r.Err? ==> r.error == ValueError
    ensures r.Ok? ==> FirwinAccepts(r.value.filterErp)
    ensures r.Ok? ==> r.value.sfreq == sfreq && r.value.bandErp == bandErp.value
    ensures r.Ok? ==> r.value.filterErp.cutoff == bandErp.value && r.value.filterErp.fs == sfreq
    ensures r.Ok? && n.Some? ==> r.value.filterErp.numTaps == n.value + 1
    ensures r.Ok? && n.None? && sfreq >= 0 ==>
      var taps := r.value.filterErp.numTaps;
      5 * (taps - 1) <= sfreq < 5 * taps
    ensures r.Ok? ==> (r.value.filterErp.passZero <==> |bandErp.value| == 1)
  {
    match bandErp
    case None => Err(AssertionError)
    case Some(band) =>
      var order := if n.Some? then n.value else DefaultOrder(sfreq);
      var design := FirDesign(order + 1, band, sfreq, |band| == 1);
      if FirwinAccepts(design) then Ok(FeatExtractor(sfreq, band, design)) else Err(ValueError)
  }

  /** An empty band passes the assertion but gives `firwin` no cutoff. */
  lemma EmptyBandRejected(sfreq: int, n: Option<int>)
    ensures NewFeatExtractor(sfreq, Some([]), n) == Err(ValueError)
  {
  }

  /** A cutoff at or above the Nyquist frequency `sfreq / 2`, or at or below zero,
      is rejected whatever the rest of the band. */
  lemma CutoffOutOfRangeRejected(sfreq: int, band: seq<real>, n: Option<int>, i: nat)
    requires sfreq > 0 && i < |band|
    requires band[i] <= 0.0 || band[i] >= sfreq as real / 2.0
    ensures NewFeatExtractor(sfreq, Some(band), n) == Err(ValueError)
  {
    var half := sfreq as real / 2.0;
    var c := Normalized(band, sfreq);
    assert c[i] == band[i] / half;
    if band[i] <= 0.0 {
      FractionSign(band[i], half);
    } else {
      FractionAtLeastOne(band[i], half);
    }
  }

  /** The two designs the constructor is meant for are accepted for any order: a
      lowpass edge, or an increasing pair of band edges, strictly inside
      (0, sfreq / 2). */
  lemma {:induction false} OrdinaryBandsAccepted(sfreq: int, band: seq<real>, n: Option<int>)
    requires sfreq > 0
    requires |band| == 1 || (|band| == 2 && band[0] < band[1])
    requires forall i :: 0 <= i < |band| ==> 0.0 < band[i] < sfreq as real / 2.0
    ensures NewFeatExtractor(sfreq, Some(band), n).Ok?
  {
    var half := sfreq as real / 2.0;
    var c := Normalized(band, sfreq);
    forall i | 0 <= i < |band|
      ensures 0.0 < c[i] < 1.0
    {
      FractionInUnit(band[i], half);
    }
    if |band| == 2 {
      FractionMonotone(band[0], band[1], half);
    }
  }

  lemma FractionInUnit(x: real, h: real)
    requires 0.0 < x < h
    ensures 0.0 < x / h < 1.0
  {
    var q := x / h;
    assert q * h == x;
    PositiveFactor(q, h);
    assert (1.0 - q) * h == h - x;
    PositiveFactor(1.0 - q, h);
  }

  lemma FractionSign(x: real, h: real)
    requires x <= 0.0 && h > 0.0
    ensures x / h <= 0.0
  {
    var q := x / h;
    assert q * h == x;
    if x < 0.0 {
      assert (-q) * h == -x;
      PositiveFactor(-q, h);
    }
  }

  lemma FractionAtLeastOne(x: real, h: real)
    requires x >= h && h > 0.0
    ensures x / h >= 1.0
  {
    var q := x / h;
    assert q * h == x;
    if x > h {
      assert (q - 1.0) * h == x - h;
      PositiveFactor(q - 1.0, h);
    }
  }

  lemma PositiveFactor(u: real, h: real)
    requires h > 0.0 && u * h > 0.0
    ensures u > 0.0
  {
  }

  lemma FractionMonotone(x: real, y: real, h: real)
    requires x < y && h > 0.0
    ensures x / h < y / h
  {
  }
}
