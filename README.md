# Bangalore house-price service: feature encoding and request outcome

The service has a single `POST /` endpoint, `predict_price`. It takes a JSON body
describing a listing (`total_sqft`, `bath`, `bhk`, `location`) and coerces the
fields. It then builds a feature vector laid out like the model's column schema:
the three numbers go in slots 0, 1 and 2, and a one-hot 1 goes at the schema
position of the lowered location. Finally it hands the vector to a pre-trained
scaler and regression model and answers with the price in INR. This project
models two parts of that handler:

- the **feature encoder** (module `FeatureEncoder`, `feature_encoder.dfy`). It is
  written imperatively, as in the source: a zero-filled `array<real>` as long as
  the schema, three slot writes, and a one-hot write at the index that
  two linear scans find (`location.lower() in columns`, then
  `columns.index(location.lower())`).
  The method `Encode` is proved equal to the specification function `Features`.
  The lemmas about `Features` state each property of the vector.
- the **request outcome** (module `PredictHandler`, `predict_handler.dfy`). The
  400/500/200 decision is the pure function `Respond` over a decoded body.
  `PredictPrice`, the handler as it runs, calls `Encode` and is proved to give
  the same response. The scaler and the model are one `Estimator` parameter
  that either yields a price or raises with a message.

Module `Python` (`python.dfy`) holds the Python semantics the handler relies
on: the decoded JSON value, truthiness, the coercions `float`, `int` and `str`,
and `str.lower`. `Get` is the definition of `dict.get`: a missing key gives
`None`. `ToStr` is the definition of `str` on a decoded value: `None` becomes
`"None"`, a string is itself, and anything else goes through an abstract
formatting parameter. `Wrappers` (`wrappers.dfy`) holds `Option` and
`Result`.

The model follows the code, which behaves as follows in three places a reader might not expect:

- A body is refused with 400 whenever it decodes to a falsy value: `null`,
  `{}`, `[]`, `""`, `0` or `false`. A request with no body at all does not get
  here, except on Flask releases before 2.1: `get_json` raises instead, and the
  answer is the 500 listed under "## Left out".
- A 500 is not only a scaler or model failure. A schema of fewer than three
  columns raises `IndexError` at the first slot write past its end. A truthy
  body that is not an object raises `AttributeError` on `.get`, which the
  inner handler does not catch because it catches only `TypeError` and
  `ValueError`. The `IndexError` is raised after the inner `try` has closed.
  Both reach the outer handler, which answers 500.
- Slots 0 to 2 are not reserved. A location whose lowered form is `bath` (or
  `total_sqft`, or `bhk`) overwrites that numeric slot with 1.

## Model

| member | source | states |
|---|---|---|
| Python.TruncateTowardZero | app.py:45-46 | `int` of a float lies within 1 of it, on the same side of zero, and is no farther from zero |
| Python.ToFloat | app.py:44 | `float` fails exactly on `None`, lists, objects and strings the parser rejects. Booleans become 1.0 or 0.0, and integers and floats keep their value |
| Python.ToInt | app.py:45-46 | `int` fails exactly on `None`, lists, objects and strings the parser rejects. Booleans become 1 or 0, integers keep their value, and a float is truncated toward zero |
| Python.Lower | app.py:71 | lowering keeps the length and maps each character to its lower-case form |
| Python.LowerAgrees | app.py:71 | two strings lower to the same string exactly when they differ only in the case of letters |
| Python.UpperNeverLowered | app.py:71 | no lowered string contains a capital letter |
| FeatureEncoder.FirstIndex | app.py:71 | `columns.index(key)`: absent exactly when `key` is not in the schema, else a position holding `key` with no earlier one |
| FeatureEncoder.Contains | app.py:71 | the scan for `key in columns` answers true exactly when some schema entry equals the key |
| FeatureEncoder.Index | app.py:71 | the `columns.index` scan, called only when the key is present, returns the first position holding it |
| FeatureEncoder.LocationIndex | app.py:71 | `location_index` is -1 exactly when the key is absent, and otherwise the first occurrence |
| FeatureEncoder.Features | app.py:59-76 | encoding succeeds exactly when the schema has at least 3 columns, giving a vector of the schema's length; otherwise it raises `IndexError(len, len)` |
| FeatureEncoder.Encode | app.py:59-73 | the in-place encoding on a freshly allocated array leaves exactly the vector (or raises exactly the error) that `Features` gives |
| FeatureEncoder.UnmatchedSlotsAreZero | app.py:60-73 | every position from 3 on other than the matched index stays 0 |
| FeatureEncoder.KnownLocation | app.py:71-73 | a known location sets its first schema position to 1, and every other slot from 3 on is 0 |
| FeatureEncoder.UnknownLocation | app.py:71-76 | an unknown location raises nothing and leaves `[total_sqft, bath, bhk, 0, ..., 0]` |
| FeatureEncoder.NumericSlots | app.py:63-73 | slot k < 3 holds the k-th numeric input, unless the lowered location first occurs at k, when it holds 1 |
| FeatureEncoder.OneHotSlots | app.py:70-73 | every slot from 3 on is 1 exactly when it is the match and 0 exactly when it is not |
| FeatureEncoder.CaseInsensitive | app.py:71 | locations that differ only in case produce identical results |
| FeatureEncoder.CapitalisedColumnNeverSet | app.py:71 | a schema entry holding a capital letter is never set, whatever the location |
| FeatureEncoder.DuplicateColumnsFirstWins | app.py:71 | with a duplicated schema entry only the first occurrence is set; a later one from slot 3 on stays 0, also when the first is a numeric column's name |
| FeatureEncoder.KnownLocationExample | app.py:59-73 | with schema `total_sqft, bath, bhk, whitefield, indiranagar`, inputs 1000, 2, 2 and any location that lowers to "whitefield" give `[1000, 2, 2, 1, 0]` |
| FeatureEncoder.UnknownLocationExample | app.py:59-76 | with the same schema, a location that lowers to "unknown_place" gives `[1000, 2, 2, 0, 0]` |
| FeatureEncoder.NumericColumnOverwrittenExample | app.py:63-73 | with the same schema, a location that lowers to "bath" gives `[1000, 1, 2, 0, 0]`: the bathroom count is overwritten |
| PredictHandler.ExtractListing | app.py:43-57 | the coercion block fails exactly when `float(total_sqft)`, `int(bath)` or `int(bhk)` fails. Otherwise it holds exactly those three results and `str` of the location, never lowered, which the response echoes |
| PredictHandler.Respond | app.py:33-100 | 400 exactly for a falsy body or a failed coercion; a 200 names INR and echoes the coerced fields of an object body |
| PredictHandler.PredictPrice | app.py:33-100 | the handler as it runs, encoding into a fresh array, gives exactly the response `Respond` describes |
| PredictHandler.FalsyBodyRejected | app.py:39-40 | a body that decodes to a falsy value gets 400 "No JSON data provided", whatever the schema and model |
| PredictHandler.NonObjectBodyFails | app.py:44-56 | a truthy non-object body fails `.get` with an `AttributeError`. The inner handler does not catch it, and the outer handler (lines 98-100) returns 500 |
| PredictHandler.RejectionPrecedesEncoding | app.py:39-60 | every 400 is decided before the vector is built: it is the same for any schema and any model |
| PredictHandler.CoercionFailureRejected | app.py:43-57 | a failed coercion gives the invalid-types 400, even with a schema too short to encode |
| PredictHandler.MissingLocationIsNone | app.py:47 | a body without `location` is answered exactly as one whose location is the string "None" |
| PredictHandler.ShortSchemaFails | app.py:60-66 | a valid request against a schema of fewer than 3 columns gets 500 with `IndexError(len, len)` |
| PredictHandler.EstimatorFailureIsServerError | app.py:83-100 | a scaler or model that raises gives 500 carrying its message |
| PredictHandler.SuccessCharacterised | app.py:87-96 | 200 happens exactly when the body is a non-empty object, the fields coerce, the schema has at least 3 columns and the model prices the encoded vector. The response names INR and echoes the coerced fields with the location as sent |
| PredictHandler.StatusCharacterised | app.py:39-100 | 400 exactly for a falsy body or a failed coercion. 500 exactly for a non-object body, a short schema or a raising model. Nothing else |
| PredictHandler.MissingSqftExample | app.py:43-57 | `{"bath": 2, "bhk": 2, "location": "x"}` gets the invalid-types 400 |
| PredictHandler.NonNumericSqftExample | app.py:44-57 | `total_sqft: "abc"` gets 400 when `float("abc")` fails |
| PredictHandler.PricedExample | app.py:59-96 | a location that lowers to "whitefield", in any case: the model is handed `[1000, 2, 2, 1, 0]` and the echo keeps the location as sent |

## Left out

- HTTP plumbing is left out: Flask routing, `request.get_json`, `jsonify` and `app.run` (app.py:1, 7, 32, 36, 102-103). The model starts from the decoded body. `get_json` can also raise: for a malformed body, a wrong content type, or (from Flask 2.1 on) a request with no body. The outer handler turns that into a 500, and this model does not cover it.
- The CORS configuration (app.py:10-14) is left out. It is deployment configuration with no logic.
- Loading the pickled model, the scaler and `columns.json` (app.py:17-26) is file I/O. The schema is a given `seq<string>` and the two artifacts are the `Estimator` parameter.
- `scaler.transform` and `model.predict` (app.py:83-84) are opaque floating-point library calls. They are one abstract step that yields a price or raises.
- `reshape(1, -1)` (app.py:79) only changes the shape, so it is left out.
- The debug `print` calls are left out as console output. The two at app.py:74 and 76 put `location` into an f-string without escaping it. A location that standard output cannot encode, such as a lone surrogate decoded from `"\ud800"`, makes that print raise `UnicodeEncodeError`, and the answer is 500. Strings here are sequences of Unicode scalar values, so lone surrogates are outside the model.
- Floating point is modelled by `real`. The rounding of `np.float64` (including large `bath`/`bhk` integers stored in float slots) is left out. So are JSON `Infinity`/`NaN`, and the `OverflowError` that `int(inf)` would raise.
- A JSON integer beyond the float range is left out. `float(total_sqft)` on it raises `OverflowError` (app.py:44), which the inner handler does not catch, so the answer is 500. Storing such a `bath` or `bhk` into the float array (app.py:65-66) raises `OverflowError` too, also giving 500. The model converts every integer with `i as real` and goes on to encode and price.
- Python.ToFloat: parsing a string with `float(s)` is a parameter (`Builtins.parseFloat`), not Python's literal grammar.
- Python.ToInt: parsing a string with `int(s)` is a parameter (`Builtins.parseInt`), not Python's literal grammar.
- Python.ToStr: `str` of a value that is neither `None` nor a string is a parameter (`Builtins.repr`), not Python's formatting.
- Python.Lower: lowers ASCII capitals only; Python's full Unicode `str.lower` mapping is not modelled.
- PredictHandler.Respond: a 500 carries the exception as a structured value. The text `str(e)` that the source returns (numpy's and Python's wording) is not modelled.
