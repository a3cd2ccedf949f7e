/** The values a prediction vector carries and the specification of its
    construction, equality, persistence and rendering rules, as functions
    on values. The class in module PredictionVectors is proved against them. */
module Predictions {
  import opened Numerics

  datatype Option<T> = None | Some(value: T) {
    /** The value, or the default when there is none (`getattr` with a default). */
    function GetOr(default: T): T {
      if Some? then value else default
    }
  }

  /** The Python exceptions the operations can raise. */
  datatype Failure =
    | MissingPrediction   // TypeError: neither an input array nor a prediction
    | AmbiguousTruth      // ValueError: `array > 0` used as a truth value, array size > 1
    | EmptyInput          // IndexError: `input_array[0]` on an array without rows
    | NotNumeric          // TypeError: allclose on None
    | ShapeMismatch       // ValueError: allclose on shapes that do not broadcast
    | NotIterable         // TypeError: zip over a prediction that is not a sequence
    | NotFormattable      // TypeError: `%.4f` applied to a sequence or to None
    | BadState            // ValueError/TypeError: persisted state that does not unpack

  datatype Result<T> = Ok(value: T) | Err(failure: Failure)

  /** Numeric storage: a grid of rows. */
  type Grid = seq<seq<Num>>

  /** `label`: None, a single class name, or one name per prediction. */
  datatype Label = NoLabel | Name(name: string) | Names(names: seq<string>)

  /** `predictor`: None, or references (identities) of the producing nodes. */
  datatype Predictor = NoPredictor | Node(id: nat) | Nodes(ids: seq<nat>)

  /** `prediction`, by its Python type: None, a scalar of one of the numeric
      types the constructor tells apart, a list, or a one-dimensional ndarray.
      OtherScalar is any other numeric type, held as the value `float()` gives. */
  datatype Pred =
    | PNone
    | PyFloat(x: Num)
    | Float64(x: Num)
    | PyInt(n: int)
    | Int64(n: int)
    | OtherScalar(x: Num)
    | PyList(items: seq<Num>)
    | NdArray(items: seq<Num>)
  {
    predicate IsScalar() {
      PyFloat? || Float64? || PyInt? || Int64? || OtherScalar?
    }

    /** The numeric value of a scalar. */
    function Value(): Num
      requires IsScalar()
    {
      match this
      case PyFloat(x) => x
      case Float64(x) => x
      case OtherScalar(x) => x
      case PyInt(n) => Finite(n as real)
      case Int64(n) => Finite(n as real)
    }
  }

  /** The attribute triple that travels with derived and restored instances. */
  datatype Attrs = Attrs(classLabel: Label, predictor: Predictor, prediction: Pred)

  // ---------------------------------------------------------------------
  // Construction (`__new__`)
  // ---------------------------------------------------------------------

  /** The locals of `__new__` between its steps: the array that will become
      storage, the prediction as coerced so far, and whether a warning was issued. */
  datatype Stage = Stage(grid: Grid, pred: Pred, warned: bool)

  /** What a successful construction produces. */
  datatype Normal = Normal(storage: Grid, prediction: Pred, warned: bool)

  const SENTINEL: int := 1_000_000_000

  /** Scalar coercion when no input array is given: float64 is kept, float
      becomes float64, `int`/`int64` times 1.0 become float/float64, anything
      else is converted with float() after a warning. */
  function Coerce(p: Pred): (r: Pred)
    requires p.IsScalar()
  {
    match p
    case Float64(x) => p
    case PyFloat(x) => Float64(x)
    case PyInt(n) => PyFloat(Finite(n as real))
    case Int64(n) => Float64(Finite(n as real))
    case OtherScalar(x) => PyFloat(x)
  }

  /** Step 1: derive the array from the prediction when no array is given. */
  function Derive(input: Option<Grid>, p: Pred): Result<Stage> {
    if input.Some? then Ok(Stage(input.value, p, false))
    else match p
      case PNone => Err(MissingPrediction)
      case PyList(xs) => Ok(Stage([xs], p, false))
      case NdArray(xs) => Ok(Stage([xs], p, false))
      case _ => Ok(Stage([[Coerce(p).Value()]], Coerce(p), p.OtherScalar?))
  }

  /** Python 2's `prediction > 0` for a prediction that is not a list:
      None orders below every number; an ndarray is a truth value only when
      it has at most one element (an empty one is false). */
  function IsPositive(p: Pred): Result<bool>
    requires !p.PyList?
  {
    match p
    case PNone => Ok(false)
    case NdArray(xs) =>
      if |xs| > 1 then Err(AmbiguousTruth)
      else Ok(|xs| == 1 && Positive(xs[0]))
    case PyFloat(x) => Ok(Positive(x))
    case Float64(x) => Ok(Positive(x))
    case OtherScalar(x) => Ok(Positive(x))
    case PyInt(n) => Ok(n > 0)
    case Int64(n) => Ok(n > 0)
  }

  function Zeros(n: nat): (r: seq<Num>)
    ensures |r| == n && forall i :: 0 <= i < n ==> r[i] == Finite(0.0)
  {
    seq(n, _ => Finite(0.0))
  }

  /** Step 2: replace a non-finite array. For a list prediction the array
      becomes zeros (one per list element, the list itself is kept);
      otherwise array and prediction become the signed sentinel 10**9. */
  function Sanitise(s: Stage): Result<Stage> {
    if AllFinite(s.grid) then Ok(s)
    else if s.pred.PyList? then Ok(s.(grid := [Zeros(|s.pred.items|)]))
    else match IsPositive(s.pred)
      case Err(f) => Err(f)
      case Ok(pos) =>
        if pos then Ok(Stage([[Finite(SENTINEL as real)]], PyInt(SENTINEL), s.warned))
        else Ok(Stage([[Finite(-SENTINEL as real)]], PyInt(-SENTINEL), s.warned))
  }

  /** Step 5: the `prediction` attribute. A supplied prediction is kept;
      otherwise the first row of the array, collapsed to its element when it
      has exactly one. */
  function Attribute(s: Stage): Result<Pred> {
    if !s.pred.PNone? then Ok(s.pred)
    else if |s.grid| == 0 then Err(EmptyInput)
    else if |s.grid[0]| == 1 then Ok(Float64(s.grid[0][0]))
    else Ok(PyList(s.grid[0]))
  }

  /** The whole normalisation of `__new__`: derive, sanitise, attach. */
  function Normalise(input: Option<Grid>, p: Pred): (r: Result<Normal>)
    ensures r.Ok? ==> AllFinite(r.value.storage) && !r.value.prediction.PNone?
    ensures r == Err(MissingPrediction) <==> input.None? && p.PNone?
    ensures r.Ok? ==> (r.value.warned <==> input.None? && p.OtherScalar?)
  {
    match Derive(input, p)
    case Err(f) => Err(f)
    case Ok(d) =>
      match Sanitise(d)
      case Err(f) => Err(f)
      case Ok(s) =>
        match Attribute(s)
        case Err(f) => Err(f)
        case Ok(a) => Ok(Normal(s.grid, a, s.warned))
  }

  /** Construction fails exactly in three situations: nothing supplied; an
      ndarray prediction of several elements beside a non-finite array; only
      an (all-finite) array is supplied and it has no rows. */
  lemma ConstructionFailsExactly(input: Option<Grid>, p: Pred)
    ensures Normalise(input, p).Err? <==>
      || (input.None? && p.PNone?)
      || (p.NdArray? && |p.items| > 1 &&
          !AllFinite(if input.Some? then input.value else [p.items]))
      || (input.Some? && p.PNone? && |input.value| == 0)
    ensures Normalise(input, p).Err? && p.NdArray? ==> Normalise(input, p) == Err(AmbiguousTruth)
  {
  }

  /** A finite list prediction alone becomes the single storage row and is
      kept as the attribute. */
  lemma FiniteListConstruction(xs: seq<Num>)
    requires forall i :: 0 <= i < |xs| ==> xs[i].Finite?
    ensures Normalise(None, PyList(xs)) == Ok(Normal([xs], PyList(xs), false))
  {
  }

  /** A finite scalar alone becomes storage `[[v]]`; the attribute is a float
      of the same value (ints are multiplied by 1.0); only an unknown numeric
      type warns. */
  lemma FiniteScalarConstruction(p: Pred)
    requires p.IsScalar() && p.Value().Finite?
    ensures Normalise(None, p).Ok?
    ensures Normalise(None, p).value.storage == [[p.Value()]]
    ensures var a := Normalise(None, p).value.prediction;
      (a.PyFloat? || a.Float64?) && a.Value() == p.Value()
    ensures p.Float64? ==> Normalise(None, p).value.prediction == p
  {
  }

  /** A list with a non-finite element yields a row of zeros of the list's
      length, while the attribute keeps the list as given, whatever array
      was passed along. */
  lemma NonFiniteListConstruction(input: Option<Grid>, xs: seq<Num>)
    requires !AllFinite(if input.Some? then input.value else [xs])
    ensures Normalise(input, PyList(xs)) == Ok(Normal([Zeros(|xs|)], PyList(xs), false))
  {
  }

  /** A non-finite scalar alone becomes the sentinel with its sign: +10**9
      for +inf, -10**9 for -inf and for NaN. */
  lemma NonFiniteScalarConstruction(p: Pred)
    requires p.IsScalar() && !p.Value().Finite?
    ensures p.Value().PosInf? ==>
      Normalise(None, p) == Ok(Normal([[Finite(1e9)]], PyInt(1_000_000_000), p.OtherScalar?))
    ensures !p.Value().PosInf? ==>
      Normalise(None, p) == Ok(Normal([[Finite(-1e9)]], PyInt(-1_000_000_000), p.OtherScalar?))
  {
    var d := Derive(None, p).value;
    assert d.grid == [[Coerce(p).Value()]] && Coerce(p).Value() == p.Value();
    assert !d.grid[0][0].Finite?;
  }

  /** Whenever the array is non-finite and the prediction is not a list,
      storage and attribute become the sentinel signed by Python's
      `prediction > 0` on the prediction as supplied, whether or not an array
      was given alongside it: coercion never changes that sign. */
  lemma SentinelConstruction(input: Option<Grid>, p: Pred, pos: bool)
    requires !p.PyList? && Derive(input, p).Ok? && !AllFinite(Derive(input, p).value.grid)
    requires IsPositive(p) == Ok(pos)
    ensures Normalise(input, p) ==
      Ok(Normal([[Finite(if pos then 1e9 else -1e9)]],
                PyInt(if pos then SENTINEL else -SENTINEL),
                input.None? && p.OtherScalar?))
  {
    if input.None? && p.IsScalar() {
      assert Coerce(p).Value() == p.Value();
      assert IsPositive(Coerce(p)) == IsPositive(p);
    }
  }

  /** A finite ndarray prediction alone becomes the single storage row and
      is kept, still an ndarray, as the attribute. */
  lemma FiniteArrayConstruction(xs: seq<Num>)
    requires forall i :: 0 <= i < |xs| ==> xs[i].Finite?
    ensures Normalise(None, NdArray(xs)) == Ok(Normal([xs], NdArray(xs), false))
  {
  }

  /** Only an array, all finite and with a first row: storage is that array
      and the attribute is its first row, collapsed when of length one. */
  lemma ArrayOnlyConstruction(rows: Grid)
    requires AllFinite(rows) && |rows| > 0
    ensures Normalise(Some(rows), PNone) ==
      Ok(Normal(rows, if |rows[0]| == 1 then Float64(rows[0][0]) else PyList(rows[0]), false))
  {
  }

  /** Only an array, with a non-finite entry: under Python 2 `None > 0` is
      false, so the negative sentinel is used. */
  lemma ArrayOnlyNonFiniteConstruction(rows: Grid)
    requires !AllFinite(rows)
    ensures Normalise(Some(rows), PNone) ==
      Ok(Normal([[Finite(-1e9)]], PyInt(-1_000_000_000), false))
  {
  }

  /** Array and prediction both given, array finite: both are trusted and
      stored as given, without coercion. */
  lemma BothGivenConstruction(rows: Grid, p: Pred)
    requires AllFinite(rows) && !p.PNone?
    ensures Normalise(Some(rows), p) == Ok(Normal(rows, p, false))
  {
  }

  // ---------------------------------------------------------------------
  // Equality (`numpy.allclose` on the predictions)
  // ---------------------------------------------------------------------

  /** numpy.allclose on two predictions, scalars as 0-d and sequences as
      1-d arrays: shapes broadcast when equal or when one side has one
      element or is a scalar; None is not numeric. */
  function AllClose(a: Pred, b: Pred): Result<bool> {
    if a.PNone? || b.PNone? then Err(NotNumeric)
    else if a.IsScalar() && b.IsScalar() then Ok(Close(a.Value(), b.Value()))
    else if a.IsScalar() then
      Ok(forall j :: 0 <= j < |b.items| ==> Close(a.Value(), b.items[j]))
    else if b.IsScalar() then
      Ok(forall i :: 0 <= i < |a.items| ==> Close(a.items[i], b.Value()))
    else if |a.items| == |b.items| then
      Ok(forall i :: 0 <= i < |a.items| ==> Close(a.items[i], b.items[i]))
    else if |a.items| == 1 then
      Ok(forall j :: 0 <= j < |b.items| ==> Close(a.items[0], b.items[j]))
    else if |b.items| == 1 then
      Ok(forall i :: 0 <= i < |a.items| ==> Close(a.items[i], b.items[0]))
    else Err(ShapeMismatch)
  }

  /** Every value of a prediction is finite. */
  predicate FiniteValues(p: Pred) {
    if p.IsScalar() then p.Value().Finite?
    else if p.PNone? then false
    else forall i :: 0 <= i < |p.items| ==> p.items[i].Finite?
  }

  /** A prediction with only finite values is close to itself. */
  lemma AllCloseReflexive(p: Pred)
    requires FiniteValues(p)
    ensures AllClose(p, p) == Ok(true)
  {
  }

  /** A sequence prediction holding a NaN is not close to itself. */
  lemma AllCloseNaN(p: Pred, k: nat)
    requires (p.PyList? || p.NdArray?) && k < |p.items| && p.items[k].NaN?
    ensures AllClose(p, p) == Ok(false)
  {
  }

  /** Sequence predictions of different lengths, neither of length one,
      cannot be compared. */
  lemma AllCloseShapeMismatch(a: seq<Num>, b: seq<Num>)
    requires |a| != |b| && |a| != 1 && |b| != 1
    ensures AllClose(PyList(a), NdArray(b)) == Err(ShapeMismatch)
  {
  }

  // ---------------------------------------------------------------------
  // Persistence (`__reduce__` / `__setstate__`)
  // ---------------------------------------------------------------------

  /** One element of the persisted state list: a piece of the base array's
      own state (opaque) or the appended attribute triple. */
  datatype StateItem = Opaque(id: nat) | Own(attrs: Attrs)

  /** What `__reduce__` returns: the reconstructor, its arguments and the
      state list. */
  datatype Reduction = Reduction(rebuild: nat, args: nat, state: seq<StateItem>)

  /** `__reduce__`'s state: the base state with the triple appended. */
  function Extend(base: seq<StateItem>, a: Attrs): seq<StateItem> {
    base + [Own(a)]
  }

  /** `__setstate__`'s unpacking: exactly three elements, the last one the
      triple; the first two go to the base restore. */
  function Split(state: seq<StateItem>): Result<(seq<StateItem>, Attrs)> {
    if |state| != 3 || !state[2].Own? then Err(BadState)
    else Ok((state[..2], state[2].attrs))
  }

  /** The state `__reduce__` produces has exactly one element more than the
      base state, and unpacking it gives back the base part and the triple. */
  lemma {:induction false} SplitExtend(base: seq<StateItem>, a: Attrs)
    requires |base| == 2
    ensures |Extend(base, a)| == |base| + 1
    ensures Split(Extend(base, a)) == Ok((base, a))
  {
    assert Extend(base, a)[..2] == base;
  }

  /** Conversely every state that unpacks is the extension of its base part
      by its triple. */
  lemma {:induction false} ExtendSplit(state: seq<StateItem>, base: seq<StateItem>, a: Attrs)
    requires Split(state) == Ok((base, a))
    ensures |base| == 2 && Extend(base, a) == state
  {
    assert state == state[..2] + [state[2]];
  }

  /** A base state of any other length than two does not survive the round trip. */
  lemma SplitExtendOtherLength(base: seq<StateItem>, a: Attrs)
    requires |base| != 2
    ensures Split(Extend(base, a)) == Err(BadState)
  {
  }

  // ---------------------------------------------------------------------
  // Rendering (`__str__`)
  // ---------------------------------------------------------------------

  /** One `"<label> : <value> \t"` segment; the number is written with
      four decimals. */
  datatype Segment = Segment(name: string, value: Num)

  /** `"%s" % label` for a label that is not a list. */
  function LabelText(l: Label): string
    requires !l.Names?
  {
    if l.NoLabel? then "None" else l.name
  }

  /** Python's zip of names and values: pairs up to the shorter length. */
  function Zip(names: seq<string>, values: seq<Num>): seq<Segment> {
    seq(if |names| < |values| then |names| else |values|, i
      requires 0 <= i < |names| && i < |values| => Segment(names[i], values[i]))
  }

  /** The segments `__str__` writes: one per (name, value) pair when the
      label is a list (Python 2 strings are not iterable), otherwise the
      single pair of label and prediction. */
  function Segments(l: Label, p: Pred): Result<seq<Segment>> {
    if l.Names? then
      if p.PyList? || p.NdArray? then Ok(Zip(l.names, p.items)) else Err(NotIterable)
    else if p.IsScalar() then Ok([Segment(LabelText(l), p.Value())])
    else if p.NdArray? && |p.items| == 1 then Ok([Segment(LabelText(l), p.items[0])])
    else Err(NotFormattable)
  }

  /** Names and values of different lengths are silently truncated to the
      shorter one; each segment pairs the name and value of one position. */
  lemma SegmentsTruncate(names: seq<string>, p: Pred)
    requires p.PyList? || p.NdArray?
    ensures Segments(Names(names), p).Ok?
    ensures var s := Segments(Names(names), p).value;
      && |s| <= |names| && |s| <= |p.items|
      && (|s| == |names| || |s| == |p.items|)
      && forall i :: 0 <= i < |s| ==> s[i] == Segment(names[i], p.items[i])
  {
  }
}
