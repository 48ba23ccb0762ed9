/** `Model` (Offline/model.py): the train/test wrapper around the classifier
    pipeline. What is modelled is its bookkeeping: the mode check, what each mode
    starts with, the channel-index property and its mirror in the coefficient
    store, channel selection before feature extraction, and which artifacts `dump`
    writes. Loading and saving files, and the scikit-learn/MNE estimators, are
    outside the model: loaded values arrive as parameters, and a pipeline is a
    description of its stages. */
module ModelWrapper {
  import opened Common
  import opened Sorting
  import Epochs
  import Scaling

  /** The coefficient-store key that mirrors the channel indices. */
  const CoefKey: string := "ind_ch_scores"
  const CoefFile: string := "coef.npz"
  const ModelFile: string := "model.pkl"

  /** The KeyError `np.load`'s archive raises for a key it does not hold. */
  const MissingCoef: Error := KeyError(CoefKey + " is not a file in the archive")

  datatype Mode = Train | Test

  /** `mode.lower()` followed by `assert mode in ['train', 'test']`. */
  function ParseMode(mode: string): (r: Result<Mode>)
    ensures r == Ok(Train) <==> CaseVariant(mode, "train")
    ensures r == Ok(Test) <==> CaseVariant(mode, "test")
    ensures r.Err? <==> !CaseVariant(mode, "train") && !CaseVariant(mode, "test")
    ensures r.Err? ==> r.error == AssertionError
  {
    LowerEqualsIffCaseVariant(mode, "train");
    LowerEqualsIffCaseVariant(mode, "test");
    var m := Lower(mode);
    if m == "train" then Ok(Train)
    else if m == "test" then Ok(Test)
    else Err(AssertionError)
  }

  /** One stage of the scikit-learn pipeline, by its hyperparameters. */
  datatype Stage =
    | XdawnTransformer(nComponents: int)
    | ScalerStage(norm: Scaling.NormMethod)
    | Vectorizer
    | LogisticRegression(c: real, classWeight: string, solver: string, multiClass: string)

  /** A pipeline built here from its stages, or one restored by `joblib.load`,
      known only by the identity of the loaded object. */
  datatype Pipeline = Built(stages: seq<Stage>) | Restored(handle: nat)

  /** The unfitted pipeline train mode builds. */
  function TrainPipeline(c: real, nComponents: int): Pipeline
  {
    Built([XdawnTransformer(nComponents), ScalerStage(Scaling.Channel), Vectorizer,
           LogisticRegression(c, "balanced", "liblinear", "ovr")])
  }

  /** `data_dict`: a Python dict of numpy arrays (held by reference) in train mode,
      the read-only archive object `np.load` returns in test mode. Reading a key of
      the archive yields a new array each time; assigning one raises TypeError. */
  datatype Store = Dict(entries: map<string, array<int>>) | Archive(files: map<string, seq<int>>)

  /** What `dump` writes: the coefficient archive (its contents) and the pickled
      pipeline, each one optional, each with its path as a list of components. */
  datatype DumpPlan = DumpPlan(coefPath: seq<string>, coef: Option<map<string, seq<int>>>,
                               modelPath: seq<string>, model: Option<Pipeline>)

  /** The mode name, `train` when the argument is omitted. */
  function ModeName(mode: Option<string>): string
  {
    if mode.Some? then mode.value else "train"
  }

  class Model {
    var subjPath: string
    var date: string
    var mode: Mode
    var dataDict: Store
    /** `_ch_ind`; null while it has never been assigned. */
    var chIndField: array?<int>
    /** `__cls`. */
    var cls: Option<Pipeline>

    /** The channel indices and the store entry under CoefKey are the same: one
        array object in a dict, equal contents in an archive. */
    ghost predicate Mirrored()
      reads this, chIndField
    {
      && chIndField != null
      && match dataDict
         case Dict(m) => CoefKey in m && m[CoefKey] == chIndField
         case Archive(f) => CoefKey in f && f[CoefKey] == chIndField[..]
    }

    constructor Init(subjPath: string, date: string, mode: Mode, dataDict: Store, chInd: array?<int>, cls: Option<Pipeline>)
      ensures this.subjPath == subjPath && this.date == date && this.mode == mode
      ensures this.dataDict == dataDict && this.chIndField == chInd && this.cls == cls
    {
      this.subjPath := subjPath;
      this.date := date;
      this.mode := mode;
      this.dataDict := dataDict;
      this.chIndField := chInd;
      this.cls := cls;
    }

    /** `Model(subject, date, mode='train', **kwargs)` once the subject directory
        and the session have been resolved. `archive` and `saved` stand for what
        `np.load` and `joblib.load` return for that session; train mode does not
        read them. `mode`, `c` and `nComponents` are optional; `None` stands for
        an omitted argument. */
    static method Create(subjPath: string, date: string, mode: Option<string>,
                         archive: map<string, seq<int>>, saved: Option<Pipeline>,
                         c: Option<real>, nComponents: Option<int>)
      returns (r: Result<Model>)
      ensures ParseMode(ModeName(mode)).Err? ==> r == Err(AssertionError)
      ensures ParseMode(ModeName(mode)) == Ok(Test) && CoefKey !in archive ==> r == Err(MissingCoef)
      ensures r.Ok? <==> ParseMode(ModeName(mode)) == Ok(Train) || (ParseMode(ModeName(mode)) == Ok(Test) && CoefKey in archive)
      ensures r.Ok? ==> fresh(r.value) && r.value.subjPath == subjPath && r.value.date == date
      ensures r.Ok? && ParseMode(ModeName(mode)) == Ok(Test) ==>
        && r.value.mode == Test
        && r.value.dataDict == Archive(archive)
        && r.value.cls == saved
        && r.value.chIndField != null && fresh(r.value.chIndField)
        && r.value.chIndField[..] == archive[CoefKey]
        && r.value.Mirrored()
      ensures r.Ok? && ParseMode(ModeName(mode)) == Ok(Train) ==>
        && r.value.mode == Train
        && r.value.dataDict == Dict(map[])
        && r.value.chIndField == null
        && r.value.cls == Some(TrainPipeline(if c.Some? then c.value else 1.0,
                                             if nComponents.Some? then nComponents.value else 3))
    {
      var m := ParseMode(ModeName(mode));
      if m.Err? {
        return Err(m.error);
      }
      if m.value == Test {
        if CoefKey !in archive {
          return Err(MissingCoef);
        }
        var stored := archive[CoefKey];
        var ind := new int[|stored|](i requires 0 <= i < |stored| => stored[i]);
        assert ind[..] == stored;
        var model := new Model.Init(subjPath, date, Test, Archive(archive), ind, saved);
        r := Ok(model);
      } else {
        var cValue := if c.Some? then c.value else 1.0;
        var n := if nComponents.Some? then nComponents.value else 3;
        var model := new Model.Init(subjPath, date, Train, Dict(map[]), null, Some(TrainPipeline(cValue, n)));
        r := Ok(model);
      }
    }

    /** The `ch_ind` getter: AttributeError until `_ch_ind` has been assigned. */
    function ChInd(): (r: Result<array<int>>)
      reads this
      ensures r.Err? <==> chIndField == null
      ensures r.Err? ==> r.error == AttributeError
      ensures r.Ok? ==> r.value == chIndField
    {
      if chIndField == null then Err(AttributeError) else Ok(chIndField)
    }

    /** The `ch_ind` setter: sorts the caller's array in place, keeps that very
        array as `_ch_ind`, then stores it under CoefKey. A test-mode store is
        read-only, so there the last step raises TypeError after the first two
        have happened. */
    method SetChInd(value: array<int>) returns (r: Outcome)
      modifies this, value
      ensures Sorted(value[..]) && multiset(value[..]) == multiset(old(value[..]))
      ensures chIndField == value
      ensures subjPath == old(subjPath) && date == old(date) && mode == old(mode) && cls == old(cls)
      ensures old(dataDict).Dict? ==>
        r == Pass && dataDict == Dict(old(dataDict).entries[CoefKey := value]) && Mirrored()
      ensures old(dataDict).Archive? ==> r == Fail(TypeError) && dataDict == old(dataDict)
    {
      SortInPlace(value);
      chIndField := value;
      match dataDict
      case Dict(m) =>
        dataDict := Dict(m[CoefKey := value]);
        r := Pass;
      case Archive(_) =>
        r := Fail(TypeError);
    }

    /** `extract_feature(extractor, data, channel_selection=True)`: with
        selection, the extractor sees the rows `data[ch_ind[0]], data[ch_ind[1]],
        ...` in that order; without, it sees `data` itself. `None` stands for the
        omitted argument. */
    function ExtractFeature<R, U>(extractor: seq<R> -> U, data: seq<R>, selectionArg: Option<bool>): (r: Result<U>)
      reads this, chIndField
      ensures selectionArg == Some(false) ==> r == Ok(extractor(data))
      ensures selectionArg != Some(false) && chIndField == null ==> r == Err(AttributeError)
      ensures selectionArg != Some(false) && chIndField != null ==>
        (r.Ok? <==> forall k :: 0 <= k < chIndField.Length ==> Epochs.InAxis(chIndField[k], |data|))
      ensures selectionArg != Some(false) && r.Err? && chIndField != null ==> r.error == IndexError
      ensures selectionArg != Some(false) && r.Ok? ==>
        chIndField != null && r.value == extractor(Epochs.SelectRows(data, chIndField[..]).value)
    {
      if selectionArg == Some(false) then Ok(extractor(data))
      else
        match ChInd()
        case Err(e) => Err(e)
        case Ok(ind) =>
          match Epochs.SelectRows(data, ind[..])
          case Err(e) => Err(e)
          case Ok(rows) => Ok(extractor(rows))
    }

    /** The contents of the coefficient store as `np.savez` would write them. */
    function Snapshot(): (s: map<string, seq<int>>)
      reads this, if dataDict.Dict? then dataDict.entries.Values else {}
      ensures dataDict.Dict? ==> s.Keys == dataDict.entries.Keys
      ensures dataDict.Dict? ==> forall k :: k in s ==> s[k] == dataDict.entries[k][..]
      ensures dataDict.Archive? ==> s == dataDict.files
    {
      match dataDict
      case Dict(m) => map k | k in m :: m[k][..]
      case Archive(f) => f
    }

    /** `dump()`: the coefficient archive is written exactly when the store is
        non-empty and the pipeline exactly when there is one; neither decision
        depends on the other. */
    method Dump() returns (plan: DumpPlan)
      ensures plan.coefPath == [subjPath, date, CoefFile]
      ensures plan.modelPath == [subjPath, date, ModelFile]
      ensures plan.coef.Some? <==> |Snapshot()| > 0
      ensures plan.coef.Some? ==> plan.coef.value == Snapshot()
      ensures plan.model == cls
    {
      var contents := Snapshot();
      var coef := if |contents| > 0 then Some(contents) else None;
      plan := DumpPlan([subjPath, date, CoefFile], coef, [subjPath, date, ModelFile], cls);
    }
  }

  /** What `dump` leaves on disk is what test mode reads back: a train-mode model
      whose channel indices were set, once dumped and re-created in test mode
      from the written artifacts, has the same channel indices (equal contents,
      a new array) and the same pipeline. */
  method DumpThenLoad(trained: Model) returns (loaded: Result<Model>)
    requires trained.dataDict.Dict? && trained.Mirrored()
    ensures loaded.Ok?
    ensures loaded.value.mode == Test && loaded.value.chIndField != null
    ensures loaded.value.chIndField[..] == trained.chIndField[..]
    ensures loaded.value.cls == trained.cls
  {
    var plan := trained.Dump();
    assert CoefKey in trained.Snapshot();
    loaded := Model.Create(trained.subjPath, trained.date, Some("test"), plan.coef.value, plan.model, None, None);
  }

  /** In train mode, reading `ch_ind` before it is assigned fails. */
  method ReadBeforeAssign() returns (before: Result<array<int>>)
    ensures before == Err(AttributeError)
  {
    assert CaseVariant("Train", "train");
    var r := Model.Create("subject", "2020-01-01-00-00-00", Some("Train"), map[], None, None, None);
    before := r.value.ChInd();
  }

  lemma SortedOneTwoThree(v: seq<int>, given: seq<int>)
    requires given == [3, 1, 2]
    requires Sorted(v) && multiset(v) == multiset(given)
    ensures v == [1, 2, 3]
  {
    assert multiset([3, 1, 2]) == multiset([1, 2, 3]);
    assert Sorted([1, 2, 3]);
    SortedPermutationUnique(v, [1, 2, 3]);
  }

  /** Setting `ch_ind` to [3, 1, 2] on a train-mode model stores [1, 2, 3] both as
      the property and in the coefficient store. */
  method SetUnsortedIndices(m: Model) returns (after: seq<int>, stored: seq<int>)
    requires m.dataDict.Dict?
    modifies m
    ensures after == [1, 2, 3] && stored == [1, 2, 3]
  {
    var value := new int[3];
    value[0], value[1], value[2] := 3, 1, 2;
    ghost var given := value[..];
    assert given == [3, 1, 2];
    var outcome := m.SetChInd(value);
    SortedOneTwoThree(value[..], given);
    after := m.chIndField[..];
    assert m.dataDict.entries[CoefKey] == value;
    stored := m.Snapshot()[CoefKey];
  }
}
