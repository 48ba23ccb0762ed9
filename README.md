# Offline model wrapper of the Dual-mVEPs speller, in Dafny

This project models the bookkeeping core of `Offline/model.py` in the
Dual-mVEPs-Speller repository. That file is the offline training side of a
brain-computer-interface speller. Most of it hands work to SciPy, scikit-learn
and MNE. What this model captures is the logic around those calls:

- **`FeatExtractor` construction** (module `FeatExtraction`). It asserts that a
  band is given. The default FIR order is `int(sfreq / 5)` and the design uses
  order + 1 taps. A one-element band requests a lowpass design (`pass_zero=True`);
  any other band requests a bandpass design. `signal.firwin` checks the request
  and raises `ValueError` for a design it cannot make.
- **`ChannelScaler`** (module `Scaling`). This is a class over `array3<real>`
  epoch data. Its constructor accepts `channel` or `dim` in any letter case and
  raises `KeyError` for any other name. The reduction axes are (0, 2) for
  `channel` and 0 for `dim`. `Fit` stores the statistics. `Transform` copies its
  input, subtracts the mean in place on the copy, then divides by the deviation
  in place, with numpy broadcasting. The caller's array is never written.
  `FitTransform` is `Fit` followed by `Transform`.
- **`Model`** (module `ModelWrapper`):
  - Construction lower-cases the mode and fails its assertion unless the mode is
    `train` or `test`.
  - Test mode takes `ind_ch_scores` from the loaded coefficient archive and
    keeps the loaded pipeline.
  - Train mode starts with an empty dict, no `_ch_ind` and a freshly built
    pipeline. The defaults are `C = 1` and `n_components = 3`.
  - The `ch_ind` getter raises `AttributeError` until the property is assigned.
  - The `ch_ind` setter sorts the caller's array in place. It keeps that same
    array object as `_ch_ind` and as `data_dict['ind_ch_scores']`.
  - `extract_feature` selects rows with numpy integer-array indexing, so
    negative indices count from the end and an out-of-range index raises
    `IndexError`.
  - `dump` writes the coefficient archive only when the store is non-empty, and
    the pipeline only when one is present. The two decisions are independent.
- **`raw2epoch`** (module `Epochs`). Only the `eeg` recording type is accepted;
  any other type raises `KeyError`. After the delegated segmentation steps,
  `epochs[..., ::down_ratio]` keeps every `down_ratio`-th time sample, where
  `down_ratio = int(samplerate / downsamp)`. A zero `downsamp` raises
  `ZeroDivisionError`. A zero ratio raises `ValueError`, because a slice step
  cannot be zero. A negative ratio walks backwards from the last sample, as
  Python slicing does.

Supporting modules: `Common` holds the Python exceptions, the result wrappers,
`str.lower()` and the truncating `int(a / b)`. `Sorting` holds numpy's in-place
sort of an integer array.

Three behaviours of the code worth knowing. The model follows the code in each
case:

- **Test-mode setter.** In test mode, `data_dict` is the read-only archive that
  `np.load` returns. The setter sorts the caller's array and assigns `_ch_ind`.
  Only then does the item assignment raise `TypeError`. After that failure, the
  property and the stored coefficients no longer agree. `Model.SetChInd` states
  exactly this.
- **Bandpass choice.** The code tests `band_erp.size == 1`. Every band that does
  not have exactly one element therefore selects `pass_zero=False`, including an
  empty band or a band of three or more values. `firwin` then rejects the empty
  band with `ValueError`, as it rejects cutoffs outside (0, sfreq / 2) and
  cutoffs that do not increase, so construction fails for those bands.
- **Downsampling ratio.** The ratio is truncated with `int(...)`, so it is not
  required to divide the sample rate evenly. A ratio below one is not rejected
  up front. A ratio of zero fails at the slice, and a negative ratio reverses
  the time axis.

## Model

| member | source | states |
|---|---|---|
| `FeatExtraction.DefaultOrder` | Offline/model.py:37-38 | the default order is sfreq / 5 rounded toward zero: for sfreq >= 0, `5n <= sfreq < 5n + 5`; for negative sfreq, the mirrored bound |
| `FeatExtraction.NewFeatExtractor` | Offline/model.py:32-45 | AssertionError when no band is given. Otherwise ValueError exactly when `firwin` rejects the request: no cutoff, a cutoff outside (0, sfreq / 2), cutoffs not increasing, or an even taps count for a design that passes the Nyquist frequency. On success the design has n + 1 taps (from the given n, or the default order with `5(taps-1) <= sfreq < 5 taps`), cutoff = band, fs = sfreq, and it is lowpass (`pass_zero`) exactly when the band has one element |
| `FeatExtraction.EmptyBandRejected` | Offline/model.py:37-44 | an empty band passes the assertion, selects the bandpass branch, and construction then fails with ValueError |
| `FeatExtraction.CutoffOutOfRangeRejected` | Offline/model.py:37-44 | a band with any edge at or below 0, or at or above sfreq / 2, fails with ValueError |
| `FeatExtraction.OrdinaryBandsAccepted` | Offline/model.py:37-44 | for a positive sample rate, a one-edge lowpass band or an increasing two-edge band strictly inside (0, sfreq / 2) is accepted, whatever the order |
| `Common.LowerEqualsIffCaseVariant` | Offline/model.py:106 | comparing `s.lower()` with a lower-case word holds exactly when `s` spells that word with any letters in upper case (both directions) |
| `Common.TruncDiv` | Offline/model.py:191 | `int(a / b)`: the magnitude is the floor of abs(a) / abs(b), and the sign is that of a / b (truncation toward zero, not Dafny's Euclidean division) |
| `Scaling.ParseNormMethod` | Offline/model.py:61-63 | the result is `channel` or `dim` exactly for case variants of those names, and KeyError('Unsupported normalization method') for every other name |
| `Scaling.ChannelScaler.New` | Offline/model.py:58-67 | the name defaults to `channel`; construction fails with that KeyError for every other name, before any statistic exists; on success no statistics are fitted, and the axes are [0, 2] for `channel` and [0] for `dim` |
| `Scaling.ChannelScaler.Fit` | Offline/model.py:69-78 | stores the given mean and deviation, which have the keepdims shape of the reduction, and returns the scaler itself; the method and its axes stay unchanged |
| `Scaling.ApplyInPlace` | Offline/model.py:82-83 | numpy's in-place `y -= s` / `y /= s`: each element becomes `op(old element, broadcast statistic)` |
| `Scaling.ChannelScaler.Transform` | Offline/model.py:80-84 | input unchanged; TypeError before fitting; ValueError when the mean, or else the deviation, cannot broadcast to the input; otherwise a fresh array of the same shape holding `(x - mean) / std` element-wise |
| `Scaling.StandardizedInverse` | Offline/model.py:80-84 | transformed data determines the input: `x = y * std + mean` element-wise |
| `Scaling.ChannelScaler.FitTransform` | Offline/model.py:86-89 | the same new state as `Fit`, and the same result as `Transform` applied afterwards to the unchanged input |
| `ModelWrapper.ParseMode` | Offline/model.py:106-107 | `train` or `test` exactly for case variants of those words; AssertionError otherwise |
| `ModelWrapper.Model.Create` | Offline/model.py:93-123 | the mode defaults to `train`; AssertionError for a bad mode. Test mode: KeyError('ind_ch_scores is not a file in the archive') when the archive lacks that key; otherwise the archive becomes the store, the loaded pipeline is kept, and `ch_ind` is a new array equal to the stored indices. Train mode: an empty dict, no `ch_ind`, and the Xdawn, scaler, vectorizer and logistic-regression pipeline with C = 1 and n_components = 3 by default |
| `ModelWrapper.Model.ChInd` | Offline/model.py:125-127 | AttributeError exactly while `_ch_ind` is unassigned; otherwise the stored array object |
| `Sorting.SortInPlace` | Offline/model.py:131 | after the in-place sort the array is ascending and a permutation of its old contents |
| `Sorting.SortedPermutationUnique` | Offline/model.py:131 | two sorted sequences with the same multiset are equal, so the sorted result does not depend on numpy's choice of sort algorithm |
| `ModelWrapper.Model.SetChInd` | Offline/model.py:129-133 | the caller's array is sorted in place and is a permutation of what it held, and it becomes `_ch_ind`. With a dict store, that same array is stored under `ind_ch_scores`, no other key changes, and both views agree. With the read-only test store, TypeError is raised and the store is unchanged |
| `ModelWrapper.SetUnsortedIndices` | Offline/model.py:129-133 | setting [3, 1, 2] on a dict-backed model gives [1, 2, 3] both as the property and in the coefficient store |
| `ModelWrapper.ReadBeforeAssign` | Offline/model.py:114-127 | in a train-mode model, reading `ch_ind` before it is assigned raises AttributeError |
| `Epochs.SelectRows` | Offline/model.py:163 | `data[ind]`: succeeds exactly when every index lies in `-n..n-1`, and then has one row per index, in index order, with negative indices counted from the end; IndexError otherwise |
| `Epochs.SelectAllRows` | Offline/model.py:163 | selecting with `0, 1, ..., n-1` returns the data unchanged |
| `ModelWrapper.Model.ExtractFeature` | Offline/model.py:154-165 | selection is on by default; without selection, the extractor is applied to the data unchanged. With selection: AttributeError when `ch_ind` is unset; success exactly when every stored index lies on the channel axis, and then the extractor receives the rows `data[ch_ind[k]]` in stored order; IndexError otherwise |
| `Epochs.DownRatio` | Offline/model.py:191 | ZeroDivisionError exactly when `downsamp` is 0; for non-negative rates, r is the largest value with `r * downsamp <= samplerate` |
| `Epochs.StepSliceAt` | Offline/model.py:192 | `s[::r]` has ceil(abs(s) / abs(r)) elements. Output position i holds `s[i*r]` for r > 0, and `s[len-1-i*abs(r)]` for r < 0 |
| `Epochs.Raw2Epoch` | Offline/model.py:177-193 | KeyError('Unsupported recording type.') unless the type is `eeg`; ZeroDivisionError for `downsamp = 0`; ValueError for a zero ratio. On success, the epoch and channel axes are kept and every time row is sliced with step `int(samplerate / downsamp)` |
| `Epochs.Raw2EpochSamples` | Offline/model.py:191-192 | for an `eeg` recording with `samplerate >= downsamp > 0`, the ratio r is at least 1, every row keeps ceil(T / r) samples, and output sample i is input sample i * r |
| `ModelWrapper.Model.Snapshot` | Offline/model.py:198 | the archive contents `np.savez` receives: the same keys as the store, each with the current contents of its array |
| `ModelWrapper.Model.Dump` | Offline/model.py:195-201 | the archive is written (with the store's contents) exactly when the store is non-empty; the pipeline is written exactly when one is present; they go to `[subject path, date, coef.npz]` and `[subject path, date, model.pkl]` |
| `ModelWrapper.DumpThenLoad` | Offline/model.py:195-201 | for a train-mode model whose `ch_ind` is set, re-creating it in test mode from what `dump` writes restores the same channel-index contents and the same pipeline |

## Left out

- FIR coefficient design (`signal.firwin`) and zero-phase filtering (`FeatExtractor.__call__`, `signal.filtfilt`). These are floating-point numerics inside SciPy. Only the requested design (taps, cutoff, fs, `pass_zero`) is modelled.
- FeatExtraction.NewFeatExtractor: `sfreq` is an integer here. A float sample rate, and the rounding of `sfreq / 5` and of the normalised cutoffs in floating point, are not modelled. A taps count below one, which `firwin`'s window code rejects or turns into an empty filter, is not flagged. A zero `sfreq`, where `firwin` divides by zero and numpy yields inf or nan, is modelled as rejected.
- Scaling.ChannelScaler.Fit: the mean and standard deviation are inputs, not computed. Computing them is floating-point statistics, and Dafny's `real` has no square root. The deviation is required to be nonzero. For a constant channel, numpy would produce inf/nan, which real arithmetic cannot represent. The "mean ≈ 0, std ≈ 1 after fit_transform" property therefore cannot be stated.
- Scaling.ChannelScaler.Transform, Scaling.StandardizedInverse: the epoch data and the statistics are float64 arrays in numpy, and the model computes over exact reals. Rounding is not modelled, so `(x - mean) / std` is exact here, and the recovery `x = y * std + mean` holds only over the reals, not after float64 rounding.
- Scaling.ChannelScaler.Transform: only three-dimensional input is modelled, and the error raised for a non-numeric or non-3D input is not modelled.
- `Model.fit`, `Model.decision_function` and the `@verbose` decorator. These delegate to the scikit-learn/MNE pipeline, whose estimators are opaque. A pipeline is modelled only by the description of its stages. The train/test round trip of decision scores through disk is therefore not modelled.
- The raw2epoch steps delegated to `utils.cut_epochs`, `utils.sort_epochs`, `signal.detrend`, `utils.apply_baseline` and `utils.timewindow`. The `utils` module is not part of this model. These steps are one abstract function parameter (`segment`), so their own errors and the epoch-count and ordering properties are not modelled.
- Epochs.DownRatio: the sample rates are integers. Float rates, and float rounding in `samplerate / downsamp`, are not modelled.
- File I/O and configuration: `np.load`, `joblib.load`, `np.savez` and `joblib.dump`, the `cfg` lookups, `utils.find_nearest_time`, the `datetime.strftime` conversion of a date, and the building of the subject path. Loaded values are parameters of `Model.Create`. `Model.Dump` returns what it would write. Storage errors are not modelled.
- The lazy archive: every read of a key of the test-mode archive returns a new array. The model reads the key once, at construction, and compares the property with the archive by contents.
- Common.Lower: `str.lower()` is modelled on ASCII letters only. For the words compared here (`train`, `test`, `channel`, `dim`), no non-ASCII character lowers to one of their letters, so which names are accepted is unaffected. The lower-cased string that Python keeps in `self.mode` and `self.norm_method` is kept here as an enumeration.
- Keyword arguments of `Model` other than `C` and `n_components` are ignored by the source. They are not parameters of `Model.Create`.
