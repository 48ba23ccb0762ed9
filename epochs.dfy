/** The index transforms of `Model` (Offline/model.py): channel selection by an
    integer index array (`data[ch_ind]`) and the downsampling slice that ends
    `raw2epoch` (`epochs[..., ::down_ratio]`). Arrays are nested sequences,
    outermost axis first. */
module Epochs {
  import opened Common

  type Tensor3<T> = seq<seq<seq<T>>>

  // ---------------------------------------------------------------------------
  // Integer-array indexing along the first axis

  /** numpy accepts index i on an axis of length n when -n <= i < n. */
  predicate InAxis(i: int, n: nat)
  {
    -(n as int) <= i < n
  }

  /** The position a valid index denotes: negative indices count from the end. */
  function Resolve(i: int, n: nat): (k: nat)
    requires InAxis(i, n)
    ensures k < n && (k == i || k == i + n)
  {
    if i < 0 then i + n else i
  }

  /** `data[ind]` for a one-dimensional integer index array `ind`: the rows named by
      `ind`, in the order of `ind`, repeats allowed; IndexError if any index is
      outside the axis. */
  function SelectRows<R>(data: seq<R>, ind: seq<int>): (r: Result<seq<R>>)
    ensures r.Ok? <==> forall k :: 0 <= k < |ind| ==> InAxis(ind[k], |data|)
    ensures r.Err? ==> r.error == IndexError
    ensures r.Ok? ==> |r.value| == |ind|
    ensures r.Ok? ==> forall k :: 0 <= k < |ind| ==> r.value[k] == data[Resolve(ind[k], |data|)]
  {
    if ind == [] then Ok([])
    else if !InAxis(ind[0], |data|) then Err(IndexError)
    else
      match SelectRows(data, ind[1..])
      case Err(e) => Err(e)
      case Ok(rest) => Ok([data[Resolve(ind[0], |data|)]] + rest)
  }

  /** Selecting every row once, in order, gives the data back. */
  lemma {:induction false} SelectAllRows<R>(data: seq<R>)
    ensures SelectRows(data, seq(|data|, i => i)) == Ok(data)
  {
    var ind := seq(|data|, i => i);
    var r := SelectRows(data, ind);
    assert forall k :: 0 <= k < |ind| ==> InAxis(ind[k], |data|);
    assert r.Ok?;
    assert forall k :: 0 <= k < |data| ==> r.value[k] == data[k];
    assert r.value == data;
  }

  // ---------------------------------------------------------------------------
  // Slicing with a step: s[::step]

  /** s[::k] for k > 0: every k-th element, starting with the first. */
  function Every<T>(s: seq<T>, k: nat): seq<T>
    requires k > 0
  {
    if s == [] then [] else [s[0]] + Every(s[if k < |s| then k else |s| ..], k)
  }

  function Reverse<T>(s: seq<T>): seq<T>
  {
    if s == [] then [] else Reverse(s[1..]) + [s[0]]
  }

  /** Python's `s[::step]`. A negative step walks from the last element
      backwards, so `s[::-k]` is `s[::-1][::k]`. A zero step is rejected. */
  function StepSlice<T>(s: seq<T>, step: int): seq<T>
    requires step != 0
  {
    if step > 0 then Every(s, step) else Every(Reverse(s), -step)
  }

  lemma MulSucc(m: int, k: int)
    ensures (m + 1) * k == m * k + k
  {
  }

  /** The output has ceil(|s| / k) elements. */
  lemma {:induction false} EveryLength<T>(s: seq<T>, k: nat)
    requires k > 0
    ensures |s| <= |Every(s, k)| * k < |s| + k
  {
    if s != [] {
      var rest := s[if k < |s| then k else |s| ..];
      EveryLength(rest, k);
      MulSucc(|Every(rest, k)|, k);
      if k >= |s| {
        assert rest == [];
      }
    }
  }

  /** Position i of the output holds s[i * k]. */
  lemma {:induction false} EveryAt<T>(s: seq<T>, k: nat, i: nat)
    requires k > 0 && i < |Every(s, k)|
    ensures i * k < |s| && Every(s, k)[i] == s[i * k]
  {
    if i > 0 {
      var rest := s[if k < |s| then k else |s| ..];
      assert Every(s, k)[i] == Every(rest, k)[i - 1];
      EveryAt(rest, k, i - 1);
      MulSucc(i - 1, k);
    }
  }

  lemma {:induction false} ReverseAt<T>(s: seq<T>)
    ensures |Reverse(s)| == |s|
    ensures forall i :: 0 <= i < |s| ==> Reverse(s)[i] == s[|s| - 1 - i]
  {
    if s != [] {
      ReverseAt(s[1..]);
    }
  }

  /** What `s[::step]` keeps: ceil(|s| / |step|) elements; output position i holds
      s[i * step] for a positive step and s[|s| - 1 - i * |step|] for a negative one. */
  lemma StepSliceAt<T>(s: seq<T>, step: int, i: nat)
    requires step != 0
    ensures |s| <= |StepSlice(s, step)| * Abs(step) < |s| + Abs(step)
    ensures i < |StepSlice(s, step)| && step > 0 ==> i * step < |s| && StepSlice(s, step)[i] == s[i * step]
    ensures i < |StepSlice(s, step)| && step < 0 ==>
      i * Abs(step) < |s| && StepSlice(s, step)[i] == s[|s| - 1 - i * Abs(step)]
  {
    var k := Abs(step);
    if step > 0 {
      EveryLength(s, k);
      if i < |StepSlice(s, step)| {
        EveryAt(s, k, i);
      }
    } else {
      var rev := Reverse(s);
      ReverseAt(s);
      EveryLength(rev, k);
      assert StepSlice(s, step) == Every(rev, k);
      if i < |Every(rev, k)| {
        EveryAt(rev, k, i);
        assert rev[i * k] == s[|s| - 1 - i * k];
      }
    }
  }

  // ---------------------------------------------------------------------------
  // raw2epoch

  /** The configuration values `raw2epoch` reads: the recording type, the
      amplifier sample rate and the target rate after downsampling. */
  datatype EpochConfig = EpochConfig(recordingType: string, samplerate: int, downsamp: int)

  /** `down_ratio = int(samplerate / downsamp)`. */
  function DownRatio(samplerate: int, downsamp: int): (r: Result<int>)
    ensures r.Err? <==> downsamp == 0
    ensures r.Err? ==> r.error == ZeroDivisionError
    ensures r.Ok? && samplerate >= 0 && downsamp > 0 ==>
      0 <= r.value && r.value * downsamp <= samplerate < r.value * downsamp + downsamp
  {
    if downsamp == 0 then Err(ZeroDivisionError) else Ok(TruncDiv(samplerate, downsamp))
  }

  /** `Model.raw2epoch`. `segment` stands for the steps delegated to helpers this
      model does not contain (cutting, sorting by the event matrix, linear
      detrending, baseline correction, re-windowing); what is modelled is the
      recording-type check and the downsampling slice on the last axis. */
  function Raw2Epoch<Raw, T>(cfg: EpochConfig, segment: Raw -> Tensor3<T>, raw: Raw): (r: Result<Tensor3<T>>)
    ensures cfg.recordingType != "eeg" ==> r == Err(KeyError("Unsupported recording type."))
    ensures cfg.recordingType == "eeg" && cfg.downsamp == 0 ==> r == Err(ZeroDivisionError)
    ensures r.Ok? <==> cfg.recordingType == "eeg" && cfg.downsamp != 0 && TruncDiv(cfg.samplerate, cfg.downsamp) != 0
    ensures cfg.recordingType == "eeg" && r.Err? && cfg.downsamp != 0 ==> r == Err(ValueError)
    ensures r.Ok? ==>
      var epochs := segment(raw);
      var step := TruncDiv(cfg.samplerate, cfg.downsamp);
      && |r.value| == |epochs|
      && (forall e :: 0 <= e < |epochs| ==> |r.value[e]| == |epochs[e]|)
      && (forall e, c :: 0 <= e < |epochs| && 0 <= c < |epochs[e]| ==> r.value[e][c] == StepSlice(epochs[e][c], step))
  {
    if cfg.recordingType != "eeg" then Err(KeyError("Unsupported recording type."))
    else
      var epochs := segment(raw);
      match DownRatio(cfg.samplerate, cfg.downsamp)
      case Err(e) => Err(e)
      case Ok(step) =>
        if step == 0 then Err(ValueError)
        else Ok(seq(|epochs|, e requires 0 <= e < |epochs| =>
                  seq(|epochs[e]|, c requires 0 <= c < |epochs[e]| => StepSlice(epochs[e][c], step))))
  }

  /** For an ordinary configuration (positive rates, an EEG recording and a ratio
      of at least one), every epoch and channel keeps ceil(T / r) samples along
      time, and output sample i is input sample i * r. */
  lemma Raw2EpochSamples<Raw, T>(cfg: EpochConfig, segment: Raw -> Tensor3<T>, raw: Raw, e: nat, c: nat, i: nat)
    requires cfg.recordingType == "eeg" && cfg.downsamp > 0 && cfg.samplerate >= cfg.downsamp
    requires e < |segment(raw)| && c < |segment(raw)[e]|
    ensures var step := TruncDiv(cfg.samplerate, cfg.downsamp);
      var r := Raw2Epoch(cfg, segment, raw);
      var row := segment(raw)[e][c];
      && step >= 1
      && r.Ok?
      && |row| <= |r.value[e][c]| * step < |row| + step
      && (i < |r.value[e][c]| ==> i * step < |row| && r.value[e][c][i] == row[i * step])
  {
    var step := TruncDiv(cfg.samplerate, cfg.downsamp);
    assert step >= 1;
    StepSliceAt(segment(raw)[e][c], step, i);
  }
}
