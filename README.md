# PredictionVector, modelled in Dafny

pySPACE's `PredictionVector` carries the output of a classifier or
regressor through a node chain. It is a numpy array (for historical reasons
a 1×k matrix) with three companion attributes: `label` (class name or
names), `predictor` (the node that produced it) and `prediction` (the value
or values), plus an optional `tag`. This project models the logic around the
array:

- construction (`__new__`): which inputs produce which storage and which
  `prediction` attribute, how scalars of different numeric types are
  coerced, how non-finite values are replaced, and when construction fails;
- the derivation hook (`__array_finalize__`) that passes the attributes on
  to views, slices and arithmetic results;
- persistence (`__reduce__` / `__setstate__`), which appends the attribute
  triple to the base array's state and splits it off again;
- equality (`__eq__`): same type, equal labels, `numpy.allclose` predictions;
- the structure of the string form (`__str__`).

Files:

- `numerics.dfy`, module `Numerics`: floats as `Finite(real) | NaN | PosInf | NegInf`,
  Python's `x > 0`, and numpy's element-wise `isclose` with its default
  tolerances (`rtol = 1e-5`, `atol = 1e-8`).
- `predictions.dfy`, module `Predictions`: the value types (`Label`,
  `Predictor`, `Pred` for the Python type of `prediction`, `Failure` for the
  exceptions raised), the construction steps as functions (`Derive`,
  `Sanitise`, `Attribute`, composed in `Normalise`), `AllClose`, the
  persisted-state functions `Extend`/`Split`, the `__str__` segments, and
  the lemmas about them.
- `prediction_vector.dfy`, module `PredictionVectors`: the class
  `PredictionVector` with fields `storage`, `classLabel` (the `label`
  attribute; `label` is a Dafny keyword), `predictor`, `prediction`, `tag`
  and `baseState`, whose methods are proved against the functions above, and
  the lemmas about equality and the persistence round trip.

Python 2 semantics are modelled, as the source was written for them:
`None > 0` is false, and a `str` has no `__iter__`, so a string label takes
the single-pair branch of `__str__`.

Behaviour of the code worth noting:

- Construction without an input array and without a prediction raises
  `TypeError` (line 92).
- The sign that chooses the sentinel is tested on the prediction after
  scalar coercion (line 110); coercion never changes the sign.
- The storage is always finite, but the `prediction` attribute of a list
  with a non-finite element keeps that element (lines 108-109 and 132);
  with a NaN such a vector is not equal to itself (`EqualsNaNList`).
- Equality is not symmetric: numpy's `isclose` scales the tolerance with its
  second operand only (line 185, `EqualsAsymmetric`).
- `__str__` pairs labels and values with `zip` (line 156), which silently
  truncates to the shorter sequence.
- An ndarray prediction of several elements beside a non-finite array makes
  `prediction > 0` (line 110) raise numpy's ambiguous-truth `ValueError`;
  this is the failure `AmbiguousTruth`.

## Model

| member | source | states |
|---|---|---|
| `Predictions.Normalise` | pySPACE/resources/data_types/prediction_vector.py:81-136 | a successful construction has all-finite storage and a `prediction` attribute that is not None; it fails with the missing-prediction error exactly when neither array nor prediction is given; it warns exactly when only a scalar of unknown type is given |
| `Predictions.ConstructionFailsExactly` | pySPACE/resources/data_types/prediction_vector.py:86-130 | construction fails exactly when nothing is given, when a multi-element ndarray prediction meets a non-finite array (then with the ambiguous-truth error), or when only an array without rows is given |
| `Predictions.FiniteListConstruction` | pySPACE/resources/data_types/prediction_vector.py:86-88 | a finite list prediction alone gives storage `[P]` and keeps `P` as the attribute, without warning |
| `Predictions.FiniteScalarConstruction` | pySPACE/resources/data_types/prediction_vector.py:95-106 | a finite scalar alone gives storage `[[p]]` and an attribute that is a float of the same value (ints times 1.0); a float64 is kept as is |
| `Predictions.NonFiniteListConstruction` | pySPACE/resources/data_types/prediction_vector.py:107-109 | a non-finite array beside a list prediction becomes one row of zeros of the list's length, and the attribute keeps the unsanitised list |
| `Predictions.NonFiniteScalarConstruction` | pySPACE/resources/data_types/prediction_vector.py:107-115 | a non-finite scalar gives storage `[[1e9]]` and attribute `10**9` for +inf, and `[[-1e9]]` / `-10**9` for NaN and -inf |
| `Predictions.SentinelConstruction` | pySPACE/resources/data_types/prediction_vector.py:107-115 | for any input with a non-finite array and a prediction that is not a list, storage is `[[±1e9]]` and the attribute `±10**9`, signed by `prediction > 0` on the supplied prediction, with or without an array alongside |
| `Predictions.FiniteArrayConstruction` | pySPACE/resources/data_types/prediction_vector.py:89-90 | a finite ndarray prediction alone gives its single row as storage and is kept as the attribute |
| `Predictions.ArrayOnlyConstruction` | pySPACE/resources/data_types/prediction_vector.py:125-130 | an all-finite array alone is the storage, and the attribute is its first row, collapsed to the element when the row has length one |
| `Predictions.ArrayOnlyNonFiniteConstruction` | pySPACE/resources/data_types/prediction_vector.py:107-115 | a non-finite array alone takes the negative sentinel, since `None > 0` is false |
| `Predictions.BothGivenConstruction` | pySPACE/resources/data_types/prediction_vector.py:131-132 | with a finite array and a prediction both given, both are stored exactly as given, without coercion |
| `Predictions.Zeros` | pySPACE/resources/data_types/prediction_vector.py:109 | the replacement row has the requested length and only zeros |
| `Predictions.AllCloseReflexive` | pySPACE/resources/data_types/prediction_vector.py:185 | a prediction with only finite values is allclose to itself |
| `Predictions.AllCloseNaN` | pySPACE/resources/data_types/prediction_vector.py:185 | a sequence prediction holding a NaN is not allclose to itself |
| `Predictions.AllCloseShapeMismatch` | pySPACE/resources/data_types/prediction_vector.py:185 | sequences of different lengths, neither of length one, do not broadcast and the comparison raises |
| `Predictions.SplitExtend` | pySPACE/resources/data_types/prediction_vector.py:162-177 | the persisted state has one element more than the base state, and unpacking it returns the base state and the attribute triple |
| `Predictions.ExtendSplit` | pySPACE/resources/data_types/prediction_vector.py:173-177 | every state that unpacks is a two-element base state extended by its triple |
| `Predictions.SplitExtendOtherLength` | pySPACE/resources/data_types/prediction_vector.py:174 | a base state of any length other than two does not unpack after extension |
| `Predictions.SegmentsTruncate` | pySPACE/resources/data_types/prediction_vector.py:155-157 | with a list label, one segment per position up to the shorter of labels and values, each pairing the name and value of that position |
| `Numerics.CloseReflexive` | pySPACE/resources/data_types/prediction_vector.py:185 | every value except NaN is close to itself |
| `Numerics.CloseAsymmetric` | pySPACE/resources/data_types/prediction_vector.py:185 | 0.0 is close to 1.000005e-8 but not the other way round |
| `PredictionVectors.PredictionVector.constructor` | pySPACE/resources/data_types/prediction_vector.py:117 | base construction stores the rows, and the hook, run with a plain-array source, leaves the three attributes None and no tag |
| `PredictionVectors.PredictionVector.DeriveArray` | pySPACE/resources/data_types/prediction_vector.py:86-106 | the branch chain over the prediction's type computes the derivation step `Derive` |
| `PredictionVectors.PredictionVector.SanitiseArray` | pySPACE/resources/data_types/prediction_vector.py:107-115 | the non-finite replacement computes the sanitisation step `Sanitise` |
| `PredictionVectors.PredictionVector.New` | pySPACE/resources/data_types/prediction_vector.py:81-136 | on failure no object and the error of `Normalise`; on success a fresh object whose storage, prediction and warning are those of `Normalise`, with label and predictor as passed and the tag set only when given |
| `PredictionVectors.PredictionVector.ArrayFinalize` | pySPACE/resources/data_types/prediction_vector.py:138-150 | a derived instance takes the source's label, predictor and prediction, each None when the source lacks it; from no source or a plain ndarray all three become None |
| `PredictionVectors.PredictionVector.Reduce` | pySPACE/resources/data_types/prediction_vector.py:162-171 | the reduction keeps the base reconstructor and arguments and its state is the base state extended by the attribute triple |
| `PredictionVectors.PredictionVector.SetState` | pySPACE/resources/data_types/prediction_vector.py:173-177 | succeeds exactly when the state unpacks; then the base restore receives the first two elements and the attributes are the triple; on failure the attributes are unchanged |
| `PredictionVectors.PredictionVector.Equals` | pySPACE/resources/data_types/prediction_vector.py:179-185 | another type is never equal; different labels are unequal without comparing predictions; equality implies the same type and equal labels |
| `PredictionVectors.PredictionVector.Render` | pySPACE/resources/data_types/prediction_vector.py:153-160 | the accumulated segments are those of `Segments`: the zipped pairs for a list label, else the one pair of label and prediction, else the formatting error |
| `PredictionVectors.EqualsIgnoresPredictorAndStorage` | pySPACE/resources/data_types/prediction_vector.py:179-185 | on either side, vectors that agree on label and prediction compare alike, whatever their predictor and storage |
| `PredictionVectors.EqualsReflexive` | pySPACE/resources/data_types/prediction_vector.py:184-185 | a vector with finite prediction values equals itself |
| `PredictionVectors.EqualsNaNList` | pySPACE/resources/data_types/prediction_vector.py:179-185 | a vector whose list prediction holds a NaN is not equal to itself |
| `PredictionVectors.EqualsAsymmetric` | pySPACE/resources/data_types/prediction_vector.py:184-185 | with equal labels, predictions 0.0 and 1.000005e-8 are equal one way and unequal the other |
| `PredictionVectors.RoundTrip` | pySPACE/resources/data_types/prediction_vector.py:162-177 | persisting one vector and restoring into another restores the same label, predictor and prediction, hands the base state over unchanged, and the restored vector equals the original when its prediction is finite |

## Left out

- The base data type and numpy machinery are not part of this model: base construction is "storage := the given rows", `numpy.atleast_2d` of a one-dimensional ndarray gives its single row, and the flat list of zeros from list sanitisation is taken to become one row.
- The base array's own persisted state is opaque (`Opaque` items); `baseState` records what the base restore receives, not what it does to the storage.
- The call to the base class's `__array_finalize__` (line 139) is not modelled; its code is not part of this model.
- Floating point is modelled as exact reals: rounding (of large ints times 1.0, or inside `isclose`) is not captured. `isclose` follows numpy's documented formula with the default tolerances.
- `input_array` is modelled as a grid of rows and an ndarray `prediction` as one-dimensional; other objects convertible to arrays, and multi-dimensional ndarray predictions, are not modelled.
- `label` is None, a string or a list of strings and compares by value; labels of other types (numpy arrays) are not modelled. `predictor` is a node identity or a list of them; Python object identity ("the same reference") is modelled as the same value.
- Integers are unbounded: a Python 2 `long` beyond the machine word (which would take the unknown-type warning branch, lines 102-105) and an `int * 1.0` overflowing the double range (`OverflowError`) are not modelled; `Int64` values are not bounded to 64 bits.
- Predictions.ArrayOnlyConstruction: the element of a one-element first row (line 128) is always taken as a numpy float64; when `input_array` is a nested Python list it is in fact the list's own Python float or int.
- Ragged grids (rows of different lengths) are accepted, although `numpy.isfinite` at line 107 raises on them.
- A scalar of unknown type is modelled by the value `float()` gives it; types that `float()` rejects are not modelled.
- The `warnings.warn` side effect is the `warned` result of `New`; extra keyword arguments (`**kwargs`) are ignored by the source and not modelled.
- PredictionVectors.PredictionVector.Render: produces the list of (label text, value) segments; the text `"%s : %.4f \t"` per segment, with four-decimal float formatting, is not modelled.
- The Python 3 behaviour (`None > 0` raising, `str` being iterable) is not modelled; the source targets Python 2.
