/**
  The request outcome of `predict_price`: a falsy body or a failed coercion
  is a client error (400), any exception after that is a server error (500)
  carrying the exception, and otherwise the predicted price is returned in
  INR together with an echo of the coerced inputs.
 */
module PredictHandler {
  import opened Wrappers
  import opened Python
  import opened FeatureEncoder

  /** The four coerced request fields, as echoed back under `input_data`. */
  datatype Listing = Listing(totalSqft: real, bath: int, bhk: int, location: string)

  datatype Response =
    | Priced(predictedPrice: real, currency: string, inputData: Listing)
    | BadRequest(error: string)
    | ServerError(cause: Exception)

  function Status(r: Response): int {
    match r
    case Priced(_, _, _) => 200
    case BadRequest(_) => 400
    case ServerError(_) => 500
  }

  const NoData := "No JSON data provided"
  const InvalidTypes := "Invalid data types. Ensure total_sqft is float, bath and bhk are integers"
  const Currency := "INR"

  /**
    `scaler.transform` followed by `model.predict`, as one step that either
    yields a price or raises with a message.
   */
  type Estimator = seq<real> -> Result<real, string>

  /**
    The coercion block: `float` of `total_sqft`, then `int` of `bath` and of
    `bhk`; any of them failing makes the whole extraction fail. `str` of the
    location cannot fail, and a missing location becomes "None".
   */
  function ExtractListing(py: Builtins, fields: map<string, Value>): (r: Option<Listing>)
    ensures r.None? <==>
      ToFloat(py, Get(fields, "total_sqft")).None?
      || ToInt(py, Get(fields, "bath")).None?
      || ToInt(py, Get(fields, "bhk")).None?
    ensures r.Some? ==> r.value == Listing(ToFloat(py, Get(fields, "total_sqft")).value,
                                           ToInt(py, Get(fields, "bath")).value,
                                           ToInt(py, Get(fields, "bhk")).value,
                                           ToStr(py, Get(fields, "location")))
  {
    match ToFloat(py, Get(fields, "total_sqft"))
    case None => None
    case Some(totalSqft) =>
      match ToInt(py, Get(fields, "bath"))
      case None => None
      case Some(bath) =>
        match ToInt(py, Get(fields, "bhk"))
        case None => None
        case Some(bhk) => Some(Listing(totalSqft, bath, bhk, ToStr(py, Get(fields, "location"))))
  }

  /** The response `predict_price` gives for a decoded body. */
  function Respond(py: Builtins, columns: seq<string>, estimate: Estimator, body: Value): (r: Response)
    ensures r.BadRequest? <==> !Truthy(body) || (body.Dict? && ExtractListing(py, body.fields).None?)
    ensures r.Priced? ==> r.currency == "INR" && body.Dict? && ExtractListing(py, body.fields) == Some(r.inputData)
  {
    if !Truthy(body) then BadRequest(NoData)
    else if !body.Dict? then ServerError(AttributeError(TypeName(body), "get"))
    else
      match ExtractListing(py, body.fields)
      case None => BadRequest(InvalidTypes)
      case Some(input) =>
        match Features(columns, input.totalSqft, input.bath, input.bhk, input.location)
        case Failure(e) => ServerError(e)
        case Success(x) =>
          match estimate(x)
          case Failure(message) => ServerError(Raised(message))
          case Success(price) => Priced(price, Currency, input)
  }

  /**
    The handler as it runs: the encoder fills a fresh array, and the
    estimator is handed that array's contents.
   */
  method PredictPrice(py: Builtins, columns: seq<string>, estimate: Estimator, body: Value)
    returns (response: Response)
    ensures response == Respond(py, columns, estimate, body)
  {
    if !Truthy(body) {
      return BadRequest(NoData);
    }
    if !body.Dict? {
      return ServerError(AttributeError(TypeName(body), "get"));
    }
    var input := ExtractListing(py, body.fields);
    if input.None? {
      return BadRequest(InvalidTypes);
    }
    var l := input.value;
    var encoded := Encode(columns, l.totalSqft, l.bath, l.bhk, l.location);
    if encoded.Failure? {
      return ServerError(encoded.error);
    }
    var x := encoded.value;
    match estimate(x[..]) {
      case Failure(message) =>
        response := ServerError(Raised(message));
      case Success(price) =>
        response := Priced(price, Currency, l);
    }
  }

  // ---------------------------------------------------------------------
  // Properties of the outcome

  /** A body that decodes to a falsy value is refused with 400 whatever the schema or model. */
  lemma FalsyBodyRejected(py: Builtins, columns: seq<string>, estimate: Estimator, body: Value)
    requires !Truthy(body)
    ensures Respond(py, columns, estimate, body) == BadRequest(NoData)
    ensures Status(Respond(py, columns, estimate, body)) == 400
  {
  }

  /**
    A truthy body that is not a JSON object has no `.get`; the AttributeError
    escapes the inner handler and becomes a 500.
   */
  lemma NonObjectBodyFails(py: Builtins, columns: seq<string>, estimate: Estimator, body: Value)
    requires Truthy(body) && !body.Dict?
    ensures Respond(py, columns, estimate, body) == ServerError(AttributeError(TypeName(body), "get"))
  {
  }

  /**
    Every 400 is decided before the vector is built: it does not depend on
    the schema or on the model.
   */
  lemma RejectionPrecedesEncoding(py: Builtins, columns: seq<string>, estimate: Estimator,
                                  otherColumns: seq<string>, otherEstimate: Estimator, body: Value)
    requires Status(Respond(py, columns, estimate, body)) == 400
    ensures Respond(py, otherColumns, otherEstimate, body) == Respond(py, columns, estimate, body)
  {
  }

  /** A field that fails coercion gives 400, even when the schema is too short to encode. */
  lemma CoercionFailureRejected(py: Builtins, columns: seq<string>, estimate: Estimator, fields: map<string, Value>)
    requires fields != map[]
    requires ToFloat(py, Get(fields, "total_sqft")).None?
      || ToInt(py, Get(fields, "bath")).None?
      || ToInt(py, Get(fields, "bhk")).None?
    ensures Respond(py, columns, estimate, Dict(fields)) == BadRequest(InvalidTypes)
  {
  }

  /**
    A missing location is not rejected: the request is answered exactly as
    if the location had been the string "None".
   */
  lemma MissingLocationIsNone(py: Builtins, columns: seq<string>, estimate: Estimator, fields: map<string, Value>)
    requires fields != map[]
    requires "location" !in fields
    ensures Respond(py, columns, estimate, Dict(fields))
      == Respond(py, columns, estimate, Dict(fields["location" := Text("None")]))
  {
  }

  /** A schema of fewer than three columns turns a valid request into a 500 IndexError. */
  lemma ShortSchemaFails(py: Builtins, columns: seq<string>, estimate: Estimator, fields: map<string, Value>)
    requires fields != map[]
    requires ExtractListing(py, fields).Some?
    requires |columns| < 3
    ensures Respond(py, columns, estimate, Dict(fields)) == ServerError(IndexError(|columns|, |columns|))
  {
  }

  /** A scaler or model that raises gives a 500 carrying its message. */
  lemma EstimatorFailureIsServerError(py: Builtins, columns: seq<string>, estimate: Estimator,
                                      fields: map<string, Value>, message: string)
    requires fields != map[] && 3 <= |columns|
    requires ExtractListing(py, fields).Some?
    requires var l := ExtractListing(py, fields).value;
      estimate(Features(columns, l.totalSqft, l.bath, l.bhk, l.location).value) == Failure(message)
    ensures Respond(py, columns, estimate, Dict(fields)) == ServerError(Raised(message))
  {
  }

  /**
    A 200 happens exactly when the body is a non-empty object whose fields
    coerce, the schema has at least three columns and the model, handed the
    encoded vector, yields a price; the response echoes the coerced fields,
    the location as given and not lowered, and names the currency INR.
   */
  lemma SuccessCharacterised(py: Builtins, columns: seq<string>, estimate: Estimator, body: Value,
                             price: real, currency: string, echo: Listing)
    ensures Respond(py, columns, estimate, body) == Priced(price, currency, echo)
      <==>
      body.Dict? && body.fields != map[]
      && ExtractListing(py, body.fields) == Some(echo)
      && 3 <= |columns|
      && estimate(Features(columns, echo.totalSqft, echo.bath, echo.bhk, echo.location).value) == Success(price)
      && currency == "INR"
  {
  }

  /** The status codes, each by its cause. */
  lemma StatusCharacterised(py: Builtins, columns: seq<string>, estimate: Estimator, body: Value)
    ensures var s := Status(Respond(py, columns, estimate, body));
      (s == 400 <==> !Truthy(body) || (body.Dict? && ExtractListing(py, body.fields).None?))
      && (s == 500 <==>
            Truthy(body)
            && (!body.Dict?
                || (ExtractListing(py, body.fields).Some?
                    && var l := ExtractListing(py, body.fields).value;
                       (|columns| < 3
                        || estimate(Features(columns, l.totalSqft, l.bath, l.bhk, l.location).value).Failure?))))
      && (s == 200 || s == 400 || s == 500)
  {
  }

  // ---------------------------------------------------------------------
  // Worked requests against the sample schema

  /** A body without `total_sqft` is refused with the invalid-types message. */
  lemma MissingSqftExample(py: Builtins, estimate: Estimator)
    ensures Respond(py, Sample, estimate,
                    Dict(map["bath" := Integer(2), "bhk" := Integer(2), "location" := Text("x")]))
      == BadRequest(InvalidTypes)
  {
    var fields := map["bath" := Integer(2), "bhk" := Integer(2), "location" := Text("x")];
    assert "total_sqft" !in fields;
    assert "bath" in fields;
  }

  /** A non-numeric `total_sqft` string is refused with 400. */
  lemma NonNumericSqftExample(py: Builtins, estimate: Estimator)
    requires py.parseFloat("abc").None?
    ensures Status(Respond(py, Sample, estimate,
                           Dict(map["total_sqft" := Text("abc"), "bath" := Integer(2),
                                    "bhk" := Integer(2), "location" := Text("whitefield")]))) == 400
  {
    var fields := map["total_sqft" := Text("abc"), "bath" := Integer(2),
                      "bhk" := Integer(2), "location" := Text("whitefield")];
    assert Get(fields, "total_sqft") == Text("abc");
  }

  /** The sample request's fields coerce to 1000.0, 2, 2 and the location as sent. */
  lemma SampleListing(py: Builtins, fields: map<string, Value>, location: string)
    requires fields == map["total_sqft" := Integer(1000), "bath" := Integer(2),
                           "bhk" := Integer(2), "location" := Text(location)]
    ensures ExtractListing(py, fields) == Some(Listing(1000.0, 2, 2, location))
  {
    assert Get(fields, "total_sqft") == Integer(1000);
    assert Get(fields, "bath") == Integer(2);
    assert Get(fields, "bhk") == Integer(2);
    assert Get(fields, "location") == Text(location);
  }

  /**
    A location that lowers to "whitefield", sent in any case: the model sees
    the one-hot vector, and the echo keeps the location as it was sent.
   */
  lemma PricedExample(py: Builtins, estimate: Estimator, price: real, location: string)
    requires Lower(location) == "whitefield"
    requires estimate([1000.0, 2.0, 2.0, 1.0, 0.0]) == Success(price)
    ensures Respond(py, Sample, estimate,
                    Dict(map["total_sqft" := Integer(1000), "bath" := Integer(2),
                             "bhk" := Integer(2), "location" := Text(location)]))
      == Priced(price, "INR", Listing(1000.0, 2, 2, location))
  {
    var fields := map["total_sqft" := Integer(1000), "bath" := Integer(2),
                      "bhk" := Integer(2), "location" := Text(location)];
    SampleListing(py, fields, location);
    assert Truthy(Dict(fields)) by {
      assert "bath" in fields;
    }
    KnownLocationExample(Sample, location);
  }
}
