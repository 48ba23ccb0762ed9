/** `ChannelScaler` (Offline/model.py): standardisation of epoch data with
    statistics fitted once and reused verbatim. Epoch data is a numpy array of
    shape (epochs, channels, times), here an `array3<real>`. The statistics come
    from `np.mean`/`np.std` with `keepdims=True`, so their leading axis has length
    one; a `Stat` stores the remaining (channels, times) block. Computing them is
    not part of this model: `Fit` receives them as inputs. */
module Scaling {
  import opened Common

  datatype NormMethod = Channel | Dim

  const UnsupportedNorm: Error := KeyError("Unsupported normalization method")

  /** `norm_method.lower()` checked against `channel` and `dim`. */
  function ParseNormMethod(name: string): (r: Result<NormMethod>)
    ensures r == Ok(Channel) <==> CaseVariant(name, "channel")
    ensures r == Ok(Dim) <==> CaseVariant(name, "dim")
    ensures r.Err? <==> !CaseVariant(name, "channel") && !CaseVariant(name, "dim")
    ensures r.Err? ==> r.error == UnsupportedNorm
  {
    LowerEqualsIffCaseVariant(name, "channel");
    LowerEqualsIffCaseVariant(name, "dim");
    var m := Lower(name);
    if m == "channel" then Ok(Channel)
    else if m == "dim" then Ok(Dim)
    else Err(UnsupportedNorm)
  }

  /** The reduction axes: epochs and times for `channel` (one statistic per
      channel), epochs only for `dim` (one statistic per channel and time). */
  function NormAxes(m: NormMethod): seq<nat>
  {
    match m
    case Channel => [0, 2]
    case Dim => [0]
  }

  /** A statistic of keepdims shape (1, rows, cols). */
  datatype Stat = Stat(rows: nat, cols: nat, at: seq<seq<real>>)
  {
    predicate Valid()
    {
      |at| == rows && forall i :: 0 <= i < rows ==> |at[i]| == cols
    }

    predicate NonZero()
    {
      Valid() && forall i, j :: 0 <= i < rows && 0 <= j < cols ==> at[i][j] != 0.0
    }

    /** numpy can apply it in place to data with `channels` x `times` per epoch:
        each axis is equal or has length one. */
    predicate Broadcasts(channels: nat, times: nat)
    {
      Valid() && (rows == channels || rows == 1) && (cols == times || cols == 1)
    }

    /** The value numpy's broadcasting pairs with element (_, c, t). */
    function Value(c: nat, t: nat): real
      requires Valid() && rows > 0 && cols > 0
      requires c < rows || rows == 1
      requires t < cols || cols == 1
    {
      at[if rows == 1 then 0 else c][if cols == 1 then 0 else t]
    }
  }

  /** The keepdims shape numpy gives a statistic of (epochs, channels, times)
      data reduced over the axes of `m`. */
  predicate FittedShape(m: NormMethod, s: Stat, channels: nat, times: nat)
  {
    s.Valid() && s.rows == channels && s.cols == (if m == Channel then 1 else times)
  }

  /** `y` is `(x - mean) / std` element-wise with numpy broadcasting. */
  ghost predicate Standardized(x: array3<real>, y: array3<real>, mean: Stat, std: Stat)
    reads x, y
  {
    && y.Length0 == x.Length0 && y.Length1 == x.Length1 && y.Length2 == x.Length2
    && mean.Broadcasts(x.Length1, x.Length2)
    && std.Broadcasts(x.Length1, x.Length2)
    && std.NonZero()
    && forall e, c, t :: 0 <= e < x.Length0 && 0 <= c < x.Length1 && 0 <= t < x.Length2 ==>
         y[e, c, t] == (x[e, c, t] - mean.Value(c, t)) / std.Value(c, t)
  }

  /** Standardisation loses nothing: each input element is recovered from the
      output as `y * std + mean`. */
  lemma StandardizedInverse(x: array3<real>, y: array3<real>, mean: Stat, std: Stat, e: nat, c: nat, t: nat)
    requires Standardized(x, y, mean, std)
    requires e < x.Length0 && c < x.Length1 && t < x.Length2
    ensures x[e, c, t] == y[e, c, t] * std.Value(c, t) + mean.Value(c, t)
  {
  }

  /** The two in-place numpy operators `transform` uses. */
  datatype InPlaceOp = Subtract | Divide

  function Apply(op: InPlaceOp, x: real, s: real): real
    requires op == Divide ==> s != 0.0
  {
    match op
    case Subtract => x - s
    case Divide => x / s
  }

  predicate Applicable(op: InPlaceOp, s: Stat)
  {
    op == Divide ==> s.NonZero()
  }

  /** `y op= s` on one channel of one epoch. */
  method ApplyToChannel(y: array3<real>, e: nat, c: nat, s: Stat, op: InPlaceOp)
    requires e < y.Length0 && c < y.Length1
    requires s.Broadcasts(y.Length1, y.Length2) && Applicable(op, s)
    modifies y
    ensures forall t :: 0 <= t < y.Length2 ==> y[e, c, t] == Apply(op, old(y[e, c, t]), s.Value(c, t))
    ensures forall i, j, t :: 0 <= i < y.Length0 && 0 <= j < y.Length1 && 0 <= t < y.Length2 && (i != e || j != c) ==>
      y[i, j, t] == old(y[i, j, t])
  {
    var t := 0;
    while t < y.Length2
      invariant 0 <= t <= y.Length2
      invariant forall k :: 0 <= k < t ==> y[e, c, k] == Apply(op, old(y[e, c, k]), s.Value(c, k))
      invariant forall i, j, k :: 0 <= i < y.Length0 && 0 <= j < y.Length1 && 0 <= k < y.Length2 && (i != e || j != c || k >= t) ==>
        y[i, j, k] == old(y[i, j, k])
    {
      y[e, c, t] := Apply(op, y[e, c, t], s.Value(c, t));
      t := t + 1;
    }
  }

  /** `y op= s` on one epoch. */
  method ApplyToEpoch(y: array3<real>, e: nat, s: Stat, op: InPlaceOp)
    requires e < y.Length0
    requires s.Broadcasts(y.Length1, y.Length2) && Applicable(op, s)
    modifies y
    ensures forall c, t :: 0 <= c < y.Length1 && 0 <= t < y.Length2 ==>
      y[e, c, t] == Apply(op, old(y[e, c, t]), s.Value(c, t))
    ensures forall i, c, t :: 0 <= i < y.Length0 && 0 <= c < y.Length1 && 0 <= t < y.Length2 && i != e ==>
      y[i, c, t] == old(y[i, c, t])
  {
    var c := 0;
    while c < y.Length1
      invariant 0 <= c <= y.Length1
      invariant forall j, t :: 0 <= j < c && 0 <= t < y.Length2 ==>
        y[e, j, t] == Apply(op, old(y[e, j, t]), s.Value(j, t))
      invariant forall i, j, t :: 0 <= i < y.Length0 && 0 <= j < y.Length1 && 0 <= t < y.Length2 && (i != e || j >= c) ==>
        y[i, j, t] == old(y[i, j, t])
    {
      ApplyToChannel(y, e, c, s, op);
      c := c + 1;
    }
  }

  /** numpy's `y op= s` with `s` broadcast over epochs (and over any axis of length one). */
  method ApplyInPlace(y: array3<real>, s: Stat, op: InPlaceOp)
    requires s.Broadcasts(y.Length1, y.Length2) && Applicable(op, s)
    modifies y
    ensures forall e, c, t :: 0 <= e < y.Length0 && 0 <= c < y.Length1 && 0 <= t < y.Length2 ==>
      y[e, c, t] == Apply(op, old(y[e, c, t]), s.Value(c, t))
  {
    var e := 0;
    while e < y.Length0
      invariant 0 <= e <= y.Length0
      invariant forall i, c, t :: 0 <= i < e && 0 <= c < y.Length1 && 0 <= t < y.Length2 ==>
        y[i, c, t] == Apply(op, old(y[i, c, t]), s.Value(c, t))
      invariant forall i, c, t :: e <= i < y.Length0 && 0 <= c < y.Length1 && 0 <= t < y.Length2 ==>
        y[i, c, t] == old(y[i, c, t])
    {
      ApplyToEpoch(y, e, s, op);
      e := e + 1;
    }
  }

  class ChannelScaler {
    var normMethod: NormMethod
    var normAxis: seq<nat>
    var channelMean: Option<Stat>
    var channelStd: Option<Stat>

    /** Fitted statistics come in pairs and the deviations are nonzero. */
    ghost predicate Valid()
      reads this
    {
      && normAxis == NormAxes(normMethod)
      && channelMean.Some? == channelStd.Some?
      && (channelStd.Some? ==> channelStd.value.NonZero())
    }

    /** Construction with an already checked method name; see New. */
    constructor (m: NormMethod)
      ensures Valid()
      ensures normMethod == m && channelMean == None && channelStd == None
    {
      normMethod := m;
      normAxis := NormAxes(m);
      channelMean := None;
      channelStd := None;
    }

    /** `ChannelScaler(norm_method='channel')`: KeyError for a name other than
        `channel` or `dim` in any letter case, raised before any statistic
        exists. `None` stands for the omitted argument. */
    static method New(normMethod: Option<string>) returns (r: Result<ChannelScaler>)
      ensures var name := if normMethod.Some? then normMethod.value else "channel";
        && (r.Err? <==> !CaseVariant(name, "channel") && !CaseVariant(name, "dim"))
        && (r.Ok? && CaseVariant(name, "channel") ==> r.value.normMethod == Channel && r.value.normAxis == [0, 2])
        && (r.Ok? && CaseVariant(name, "dim") ==> r.value.normMethod == Dim && r.value.normAxis == [0])
      ensures normMethod.None? ==> r.Ok? && r.value.normMethod == Channel
      ensures r.Err? ==> r.error == UnsupportedNorm
      ensures r.Ok? ==> fresh(r.value) && r.value.Valid()
      ensures r.Ok? ==> r.value.channelMean.None? && r.value.channelStd.None?
    {
      var name := if normMethod.Some? then normMethod.value else "channel";
      match ParseNormMethod(name)
      case Err(e) =>
        r := Err(e);
      case Ok(m) =>
        var s := new ChannelScaler(m);
        r := Ok(s);
    }

    /** `fit(X)`: stores the statistics and returns the scaler itself. `mean`
        and `std` stand for `np.mean(X, axis=norm_axis, keepdims=True)` and the
        matching `np.std`. */
    method Fit(x: array3<real>, mean: Stat, std: Stat) returns (self: ChannelScaler)
      requires Valid()
      requires FittedShape(normMethod, mean, x.Length1, x.Length2)
      requires FittedShape(normMethod, std, x.Length1, x.Length2) && std.NonZero()
      modifies this
      ensures self == this
      ensures Valid()
      ensures normMethod == old(normMethod) && normAxis == old(normAxis)
      ensures channelMean == Some(mean) && channelStd == Some(std)
    {
      channelMean := Some(mean);
      channelStd := Some(std);
      self := this;
    }

    /** `transform(X)`: copies X, then subtracts the mean and divides by the
        deviation in place on the copy. X itself is never written. */
    method Transform(x: array3<real>) returns (r: Result<array3<real>>)
      requires Valid()
      ensures unchanged(x)
      ensures channelMean.None? ==> r == Err(TypeError)
      ensures channelMean.Some? && !channelMean.value.Broadcasts(x.Length1, x.Length2) ==> r == Err(ValueError)
      ensures (channelMean.Some? && channelMean.value.Broadcasts(x.Length1, x.Length2)
               && channelStd.Some? && !channelStd.value.Broadcasts(x.Length1, x.Length2)) ==> r == Err(ValueError)
      ensures r.Ok? <==> channelMean.Some? && channelMean.value.Broadcasts(x.Length1, x.Length2)
                         && channelStd.value.Broadcasts(x.Length1, x.Length2)
      ensures r.Err? ==> r.error == TypeError || r.error == ValueError
      ensures r.Ok? ==> fresh(r.value) && r.value != x
      ensures r.Ok? ==> Standardized(x, r.value, channelMean.value, channelStd.value)
    {
      var y := new real[x.Length0, x.Length1, x.Length2]((e: nat, c: nat, t: nat) reads x =>
        if e < x.Length0 && c < x.Length1 && t < x.Length2 then x[e, c, t] else 0.0);
      assert forall e, c, t :: 0 <= e < x.Length0 && 0 <= c < x.Length1 && 0 <= t < x.Length2 ==> y[e, c, t] == x[e, c, t];
      if channelMean.None? {
        return Err(TypeError);
      }
      var mean := channelMean.value;
      if !mean.Broadcasts(x.Length1, x.Length2) {
        return Err(ValueError);
      }
      ApplyInPlace(y, mean, Subtract);
      var std := channelStd.value;
      if !std.Broadcasts(x.Length1, x.Length2) {
        return Err(ValueError);
      }
      ApplyInPlace(y, std, Divide);
      r := Ok(y);
    }

    /** `fit_transform(X)`: `fit(X)` followed by `transform(X)`. */
    method FitTransform(x: array3<real>, mean: Stat, std: Stat) returns (r: Result<array3<real>>)
      requires Valid()
      requires FittedShape(normMethod, mean, x.Length1, x.Length2)
      requires FittedShape(normMethod, std, x.Length1, x.Length2) && std.NonZero()
      modifies this
      ensures Valid()
      ensures normMethod == old(normMethod) && normAxis == old(normAxis)
      ensures channelMean == Some(mean) && channelStd == Some(std)
      ensures unchanged(x)
      ensures r.Ok? && fresh(r.value) && Standardized(x, r.value, mean, std)
    {
      var _ := Fit(x, mean, std);
      r := Transform(x);
    }
  }
}
