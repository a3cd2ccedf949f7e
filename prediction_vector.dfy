/** The prediction vector object: numeric storage plus the `label`,
    `predictor`, `prediction` and optional `tag` attributes, with the
    construction, derivation hook, persistence, equality and rendering of
    pySPACE's PredictionVector. */
module PredictionVectors {
  import opened Numerics
  import opened Predictions

  /** The object a new instance is derived from, as the derivation hook sees
      it: none, a plain ndarray, another array type carrying whichever of the
      three attributes it has (None for a missing one), or a prediction vector. */
  datatype Origin =
    | NoOrigin
    | PlainArray
    | OtherArray(classLabel: Option<Label>, predictor: Option<Predictor>, prediction: Option<Pred>)
    | Derived(source: PredictionVector)

  /** The right-hand side of `==`: a prediction vector, or an object of any
      other concrete type (a bare array, a number, a subclass). */
  datatype Operand = Foreign | Instance(pv: PredictionVector)

  class PredictionVector {
    var storage: Grid
    var classLabel: Label
    var predictor: Predictor
    var prediction: Pred
    /** The `tag` attribute; None means the attribute was never created. */
    var tag: Option<string>
    /** The state last handed to the base array's own restore. */
    var baseState: seq<StateItem>

    function Attributes(): Attrs
      reads this
    {
      Attrs(classLabel, predictor, prediction)
    }

    /** Base construction: storage from the given rows, then the derivation
        hook with a plain-array source, which resets the three attributes. */
    constructor (rows: Grid)
      ensures storage == rows && tag == None && baseState == []
      ensures Attributes() == Attrs(NoLabel, NoPredictor, PNone)
    {
      storage := rows;
      classLabel, predictor, prediction := NoLabel, NoPredictor, PNone;
      tag := None;
      baseState := [];
    }

    /** `__new__`, lines deriving the array: with no input array, a list or
        ndarray prediction becomes one row, a scalar is coerced to a float
        (warning for an unknown type) and becomes `[[p]]`, and no prediction
        at all is an error. */
    static method DeriveArray(inputArray: Option<Grid>, prediction: Pred)
      returns (r: Result<Stage>)
      ensures r == Derive(inputArray, prediction)
    {
      var input, pred, warned := inputArray, prediction, false;
      if input.None? {
        match pred {
          case PyList(xs) => input := Some([xs]);
          case NdArray(xs) => input := Some([xs]);
          case PNone => return Err(MissingPrediction);
          case Float64(x) =>
          case PyFloat(x) => pred := Float64(x);
          case PyInt(n) => pred := PyFloat(Finite(n as real));
          case Int64(n) => pred := Float64(Finite(n as real));
          case OtherScalar(x) =>
            warned := true;
            pred := PyFloat(x);
        }
        if input.None? {
          input := Some([[pred.Value()]]);
        }
      }
      r := Ok(Stage(input.value, pred, warned));
    }

    /** `__new__`, lines replacing a non-finite array: zeros for a list
        prediction, otherwise the sentinel 10**9 signed by `prediction > 0`. */
    static method SanitiseArray(s: Stage) returns (r: Result<Stage>)
      ensures r == Sanitise(s)
    {
      var rows, pred := s.grid, s.pred;
      if !AllFinite(rows) {
        if pred.PyList? {
          rows := [Zeros(|pred.items|)];
        } else {
          var positive: bool;
          match pred {
            case NdArray(xs) =>
              if |xs| > 1 {
                return Err(AmbiguousTruth);
              }
              positive := |xs| == 1 && Positive(xs[0]);
            case PNone => positive := false;
            case PyInt(n) => positive := n > 0;
            case Int64(n) => positive := n > 0;
            case PyFloat(x) => positive := Positive(x);
            case Float64(x) => positive := Positive(x);
            case OtherScalar(x) => positive := Positive(x);
          }
          if positive {
            pred := PyInt(SENTINEL);
          } else {
            pred := PyInt(-SENTINEL);
          }
          rows := [[Finite(pred.n as real)]];
        }
      }
      r := Ok(Stage(rows, pred, s.warned));
    }

    /** `__new__`: derive and sanitise the array, build the base object,
        then attach label, predictor, prediction and (when given) tag. A
        failure returns no object. */
    static method New(inputArray: Option<Grid>, classLabel: Label, prediction: Pred,
                      predictor: Predictor, tag: Option<string>)
      returns (obj: PredictionVector?, failure: Option<Failure>, warned: bool)
      ensures Normalise(inputArray, prediction).Err? ==>
        obj == null && !warned && failure == Some(Normalise(inputArray, prediction).failure)
      ensures Normalise(inputArray, prediction).Ok? ==>
        && obj != null && fresh(obj) && failure == None
        && obj.storage == Normalise(inputArray, prediction).value.storage
        && obj.prediction == Normalise(inputArray, prediction).value.prediction
        && warned == Normalise(inputArray, prediction).value.warned
        && obj.classLabel == classLabel && obj.predictor == predictor
        && obj.tag == tag
    {
      var derived := DeriveArray(inputArray, prediction);
      if derived.Err? {
        return null, Some(derived.failure), false;
      }
      var sanitised := SanitiseArray(derived.value);
      if sanitised.Err? {
        return null, Some(sanitised.failure), false;
      }
      var rows, pred := sanitised.value.grid, sanitised.value.pred;
      warned := sanitised.value.warned;
      obj := new PredictionVector(rows);
      obj.classLabel := classLabel;
      obj.predictor := predictor;
      if pred.PNone? {
        if |rows| == 0 {
          return null, Some(EmptyInput), warned;
        }
        var first := rows[0];
        if |first| == 1 {
          obj.prediction := Float64(first[0]);
        } else {
          obj.prediction := PyList(first);
        }
      } else {
        obj.prediction := pred;
      }
      if tag.Some? {
        obj.tag := tag;
      }
      failure := None;
    }

    /** `__array_finalize__`: a derived instance takes the three attributes
        of its source, each one None when the source lacks it; from no source
        or a plain ndarray all three are None. */
    method ArrayFinalize(origin: Origin)
      modifies this`classLabel, this`predictor, this`prediction
      ensures origin.Derived? ==> Attributes() == old(origin.source.Attributes())
      ensures origin.OtherArray? ==>
        Attributes() == Attrs(origin.classLabel.GetOr(NoLabel), origin.predictor.GetOr(NoPredictor),
                              origin.prediction.GetOr(PNone))
      ensures origin.NoOrigin? || origin.PlainArray? ==>
        Attributes() == Attrs(NoLabel, NoPredictor, PNone)
    {
      if !origin.NoOrigin? && !origin.PlainArray? {
        if origin.Derived? {
          var src := origin.source;
          classLabel, predictor, prediction := src.classLabel, src.predictor, src.prediction;
        } else {
          classLabel := origin.classLabel.GetOr(NoLabel);
          predictor := origin.predictor.GetOr(NoPredictor);
          prediction := origin.prediction.GetOr(PNone);
        }
      } else {
        classLabel := NoLabel;
        predictor := NoPredictor;
        prediction := PNone;
      }
    }

    /** `__reduce__`: the base reduction with the attribute triple appended
        to its state list. */
    method Reduce(base: Reduction) returns (r: Reduction)
      ensures r.rebuild == base.rebuild && r.args == base.args
      ensures r.state == Extend(base.state, Attributes())
    {
      var state := base.state;
      state := state + [Own(Attributes())];
      r := Reduction(base.rebuild, base.args, state);
    }

    /** `__setstate__`: unpack three elements, hand the first two to the
        base restore, then take the attributes from the third. A state of
        another length changes nothing; a third element that is not a triple
        fails after the base restore. */
    method SetState(state: seq<StateItem>) returns (failure: Option<Failure>)
      modifies this`classLabel, this`predictor, this`prediction, this`baseState
      ensures failure.None? <==> Split(state).Ok?
      ensures Split(state).Ok? ==>
        baseState == Split(state).value.0 && Attributes() == Split(state).value.1
      ensures Split(state).Err? ==> Attributes() == old(Attributes())
      ensures |state| != 3 ==> baseState == old(baseState)
      ensures |state| == 3 ==> baseState == state[..2]
    {
      if |state| != 3 {
        return Some(BadState);
      }
      baseState := [state[0], state[1]];
      if !state[2].Own? {
        return Some(BadState);
      }
      var own := state[2].attrs;
      classLabel, predictor, prediction := own.classLabel, own.predictor, own.prediction;
      failure := None;
    }

    /** `__eq__`: false for an object of another type; otherwise equal
        labels and `allclose` predictions (allclose is not reached when the
        labels differ). Storage and predictor play no part. */
    function Equals(other: Operand): (r: Result<bool>)
      reads this, if other.Instance? then {other.pv} else {}
      ensures other.Foreign? ==> r == Ok(false)
      ensures other.Instance? && classLabel != other.pv.classLabel ==> r == Ok(false)
      ensures r == Ok(true) ==> other.Instance? && classLabel == other.pv.classLabel
    {
      match other
      case Foreign => Ok(false)
      case Instance(pv) =>
        if classLabel != pv.classLabel then Ok(false)
        else AllClose(prediction, pv.prediction)
    }

    /** `__str__`: accumulate the segments pair by pair. */
    method Render() returns (r: Result<seq<Segment>>)
      ensures r == Segments(classLabel, prediction)
    {
      if classLabel.Names? {
        if !(prediction.PyList? || prediction.NdArray?) {
          return Err(NotIterable);
        }
        var names, values := classLabel.names, prediction.items;
        var n := if |names| < |values| then |names| else |values|;
        var acc: seq<Segment> := [];
        var i := 0;
        while i < n
          invariant 0 <= i <= n
          invariant |acc| == i
          invariant forall k :: 0 <= k < i ==> acc[k] == Segment(names[k], values[k])
        {
          acc := acc + [Segment(names[i], values[i])];
          i := i + 1;
        }
        assert acc == Zip(names, values);
        r := Ok(acc);
      } else if prediction.IsScalar() {
        r := Ok([Segment(LabelText(classLabel), prediction.Value())]);
      } else if prediction.NdArray? && |prediction.items| == 1 {
        r := Ok([Segment(LabelText(classLabel), prediction.items[0])]);
      } else {
        r := Err(NotFormattable);
      }
    }
  }

  /** Equality reads only label and prediction: two right-hand sides that
      agree on those compare alike, whatever their storage and predictor. */
  lemma EqualsIgnoresPredictorAndStorage(a: PredictionVector, b: PredictionVector, c: PredictionVector)
    requires b.classLabel == c.classLabel && b.prediction == c.prediction
    ensures a.Equals(Instance(b)) == a.Equals(Instance(c))
    ensures b.Equals(Instance(a)) == c.Equals(Instance(a))
  {
  }

  /** A vector whose prediction has only finite values equals itself. */
  lemma EqualsReflexive(a: PredictionVector)
    requires FiniteValues(a.prediction)
    ensures a.Equals(Instance(a)) == Ok(true)
  {
    AllCloseReflexive(a.prediction);
  }

  /** A list prediction holding NaN, which construction keeps as given while
      zeroing the storage, makes the vector unequal to itself. */
  lemma EqualsNaNList(a: PredictionVector, k: nat)
    requires a.prediction.PyList? && k < |a.prediction.items| && a.prediction.items[k].NaN?
    ensures a.Equals(Instance(a)) == Ok(false)
  {
    AllCloseNaN(a.prediction, k);
  }

  /** Equality is not symmetric: with the same label, predictions 0.0 and
      1.000005e-8 compare equal one way and unequal the other. */
  lemma EqualsAsymmetric(a: PredictionVector, b: PredictionVector)
    requires a.classLabel == b.classLabel
    requires a.prediction == Float64(Finite(0.0)) && b.prediction == Float64(Finite(1.000005e-8))
    ensures a.Equals(Instance(b)) == Ok(true)
    ensures b.Equals(Instance(a)) == Ok(false)
  {
    CloseAsymmetric();
  }

  /** Persisting one vector and restoring into another: the restored
      instance carries the same label, predictor and prediction (the same
      references), the base restore receives the base state unchanged, and
      when the prediction's values are finite the two compare equal. */
  method RoundTrip(v: PredictionVector, w: PredictionVector, base: Reduction)
    returns (failure: Option<Failure>)
    requires |base.state| == 2
    modifies w`classLabel, w`predictor, w`prediction, w`baseState
    ensures failure == None
    ensures w.Attributes() == old(v.Attributes()) && w.baseState == base.state
    ensures FiniteValues(v.prediction) ==> w.Equals(Instance(v)) == Ok(true)
  {
    var r := v.Reduce(base);
    SplitExtend(base.state, v.Attributes());
    failure := w.SetState(r.state);
    if FiniteValues(v.prediction) {
      AllCloseReflexive(v.prediction);
    }
  }
}
