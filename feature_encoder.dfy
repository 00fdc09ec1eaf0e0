/**
  The feature encoder of `predict_price`: a zero vector as long as the column
  schema, the three numeric inputs written into slots 0, 1 and 2, and a one-hot
  1 written at the first schema position equal to the lowered location.
 */
module FeatureEncoder {
  import opened Wrappers
  import opened Python

  /** `columns.index(key)`, or None where `key in columns` is false. */
  function FirstIndex(columns: seq<string>, key: string): (r: Option<nat>)
    ensures r.None? <==> key !in columns
    ensures r.Some? ==> r.value < |columns| && columns[r.value] == key
    ensures r.Some? ==> forall j :: 0 <= j < r.value ==> columns[j] != key
  {
    if columns == [] then None
    else if columns[0] == key then Some(0)
    else match FirstIndex(columns[1..], key)
      case None => None
      case Some(i) => Some(i + 1)
  }

  /** A linear scan answering `key in columns`. */
  method Contains(columns: seq<string>, key: string) returns (found: bool)
    ensures found <==> key in columns
  {
    found := false;
    var i := 0;
    while i < |columns|
      invariant 0 <= i <= |columns|
      invariant found <==> key in columns[..i]
    {
      if columns[i] == key {
        found := true;
      }
      i := i + 1;
    }
    assert columns[..i] == columns;
  }

  /** `columns.index(key)`: the first position holding `key`. */
  method Index(columns: seq<string>, key: string) returns (index: nat)
    requires key in columns
    ensures index < |columns| && columns[index] == key
    ensures forall j :: 0 <= j < index ==> columns[j] != key
  {
    index := 0;
    while columns[index] != key
      invariant index < |columns|
      invariant forall j :: 0 <= j < index ==> columns[j] != key
      decreases |columns| - index
    {
      index := index + 1;
    }
  }

  /** The `location_index` expression: the first position of `key`, or -1. */
  method LocationIndex(columns: seq<string>, key: string) returns (index: int)
    ensures -1 <= index < |columns|
    ensures index == -1 <==> key !in columns
    ensures 0 <= index ==> FirstIndex(columns, key) == Some(index)
  {
    var found := Contains(columns, key);
    if found {
      var i := Index(columns, key);
      index := i;
    } else {
      index := -1;
    }
  }

  function Zeros(n: nat): (z: seq<real>)
    ensures |z| == n && forall k :: 0 <= k < n ==> z[k] == 0.0
  {
    seq(n, _ => 0.0)
  }

  /**
    The vector the encoder produces, or the IndexError the slot writes raise
    when the schema has fewer than three columns: the write that fails is the
    first one past the end, at index `|columns|`.
   */
  function Features(columns: seq<string>, totalSqft: real, bath: int, bhk: int, location: string)
    : (r: Result<seq<real>, Exception>)
    ensures r.Success? <==> 3 <= |columns|
    ensures r.Success? ==> |r.value| == |columns|
    ensures r.Failure? ==> r.error == IndexError(|columns|, |columns|)
  {
    if |columns| < 3 then Failure(IndexError(|columns|, |columns|))
    else
      var base := [totalSqft, bath as real, bhk as real] + Zeros(|columns| - 3);
      match FirstIndex(columns, Lower(location))
      case None => Success(base)
      case Some(i) => Success(base[i := 1.0])
  }

  /**
    The encoding block itself: allocate `np.zeros(len(columns))`, write the
    three numeric slots in order (the first write past the end raises), then
    write 1 at the location's index when there is one.
   */
  method Encode(columns: seq<string>, totalSqft: real, bath: int, bhk: int, location: string)
    returns (r: Result<array<real>, Exception>)
    ensures r.Failure? ==> Features(columns, totalSqft, bath, bhk, location) == Failure(r.error)
    ensures r.Success? ==> fresh(r.value)
    ensures r.Success? ==> Features(columns, totalSqft, bath, bhk, location) == Success(r.value[..])
  {
    var x := new real[|columns|](_ => 0.0);
    if x.Length <= 0 {
      return Failure(IndexError(0, x.Length));
    }
    x[0] := totalSqft;
    if x.Length <= 1 {
      return Failure(IndexError(1, x.Length));
    }
    x[1] := bath as real;
    if x.Length <= 2 {
      return Failure(IndexError(2, x.Length));
    }
    x[2] := bhk as real;
    assert x[..] == [totalSqft, bath as real, bhk as real] + Zeros(|columns| - 3);
    var index := LocationIndex(columns, Lower(location));
    if index != -1 {
      x[index] := 1.0;
    }
    r := Success(x);
  }

  // ---------------------------------------------------------------------
  // Properties of the encoding

  /** Positions other than 0, 1, 2 and the matched index stay zero. */
  lemma UnmatchedSlotsAreZero(columns: seq<string>, totalSqft: real, bath: int, bhk: int, location: string, k: nat)
    requires 3 <= k < |columns|
    requires FirstIndex(columns, Lower(location)) != Some(k)
    ensures Features(columns, totalSqft, bath, bhk, location).value[k] == 0.0
  {
  }

  /**
    A known location sets the first schema position equal to its lowered
    form to 1, and leaves every other location slot at 0.
   */
  lemma KnownLocation(columns: seq<string>, totalSqft: real, bath: int, bhk: int, location: string)
    requires 3 <= |columns|
    requires Lower(location) in columns
    ensures var v := Features(columns, totalSqft, bath, bhk, location).value;
      exists i :: 0 <= i < |columns| && columns[i] == Lower(location)
        && (forall j :: 0 <= j < i ==> columns[j] != Lower(location))
        && v[i] == 1.0
        && forall j :: 3 <= j < |columns| && j != i ==> v[j] == 0.0
  {
    var i := FirstIndex(columns, Lower(location)).value;
    var v := Features(columns, totalSqft, bath, bhk, location).value;
    assert v[i] == 1.0;
  }

  /** An unknown location leaves the vector `[totalSqft, bath, bhk, 0, ..., 0]`. */
  lemma UnknownLocation(columns: seq<string>, totalSqft: real, bath: int, bhk: int, location: string)
    requires 3 <= |columns|
    requires Lower(location) !in columns
    ensures Features(columns, totalSqft, bath, bhk, location)
      == Success([totalSqft, bath as real, bhk as real] + Zeros(|columns| - 3))
  {
  }

  /**
    Slots 0, 1 and 2 hold the numeric inputs, unless the lowered location
    first occurs at that slot, in which case the one-hot write overwrites it.
   */
  lemma NumericSlots(columns: seq<string>, totalSqft: real, bath: int, bhk: int, location: string, k: nat)
    requires 3 <= |columns| && k < 3
    ensures var v := Features(columns, totalSqft, bath, bhk, location).value;
      v[k] == if columns[k] == Lower(location) && (forall j :: 0 <= j < k ==> columns[j] != Lower(location))
              then 1.0
              else [totalSqft, bath as real, bhk as real][k]
  {
  }

  /** Every slot past the numeric ones holds 0 or 1. */
  lemma OneHotSlots(columns: seq<string>, totalSqft: real, bath: int, bhk: int, location: string, k: nat)
    requires 3 <= k < |columns|
    ensures var v := Features(columns, totalSqft, bath, bhk, location).value;
      (v[k] == 1.0 <==> FirstIndex(columns, Lower(location)) == Some(k))
      && (v[k] == 0.0 <==> FirstIndex(columns, Lower(location)) != Some(k))
  {
  }

  /** Locations that differ only in case encode to the same vector. */
  lemma CaseInsensitive(columns: seq<string>, totalSqft: real, bath: int, bhk: int, a: string, b: string)
    requires SameIgnoringCase(a, b)
    ensures Features(columns, totalSqft, bath, bhk, a) == Features(columns, totalSqft, bath, bhk, b)
  {
    LowerAgrees(a, b);
  }

  /**
    A schema entry holding a capital letter can never be matched, whatever
    the location, because the location is lowered before the search.
   */
  lemma CapitalisedColumnNeverSet(columns: seq<string>, totalSqft: real, bath: int, bhk: int, location: string, k: nat)
    requires 3 <= k < |columns|
    requires exists c :: 0 <= c < |columns[k]| && IsUpper(columns[k][c])
    ensures Features(columns, totalSqft, bath, bhk, location).value[k] == 0.0
  {
  }

  /**
    Duplicate schema entries: only the first occurrence is set, also when the
    first one is a numeric column's name.
   */
  lemma DuplicateColumnsFirstWins(columns: seq<string>, totalSqft: real, bath: int, bhk: int, location: string, i: nat, j: nat)
    requires i < j && 3 <= j < |columns|
    requires columns[i] == columns[j] == Lower(location)
    ensures var v := Features(columns, totalSqft, bath, bhk, location).value;
      v[j] == 0.0
  {
  }

  // ---------------------------------------------------------------------
  // The schema of the trained model, cut to its first five columns

  const Sample: seq<string> := ["total_sqft", "bath", "bhk", "whitefield", "indiranagar"]

  /** The five-column schema's vector before the one-hot write. */
  lemma BaseVector(n: nat, totalSqft: real, bath: int, bhk: int)
    requires n == 5
    ensures [totalSqft, bath as real, bhk as real] + Zeros(n - 3)
      == [totalSqft, bath as real, bhk as real, 0.0, 0.0]
  {
  }

  /** The five-column schema's vector when the location matches position `i`. */
  lemma MatchedVector(columns: seq<string>, totalSqft: real, bath: int, bhk: int, location: string, i: nat)
    requires |columns| == 5
    requires FirstIndex(columns, Lower(location)) == Some(i)
    ensures Features(columns, totalSqft, bath, bhk, location)
      == Success([totalSqft, bath as real, bhk as real, 0.0, 0.0][i := 1.0])
  {
    BaseVector(|columns|, totalSqft, bath, bhk);
  }

  /** "whitefield" first occurs at position 3 of the sample schema. */
  lemma WhitefieldIndex()
    ensures FirstIndex(Sample, "whitefield") == Some(3)
  {
    var key := "whitefield";
    assert Sample[3] == key;
    assert Sample[0] != key && Sample[1] != key && Sample[2] != key by {
      assert Sample[0][0] != key[0] && |Sample[1]| != |key| && |Sample[2]| != |key|;
    }
  }

  /** Any location that lowers to "whitefield" lights slot 3. */
  lemma KnownLocationExample(columns: seq<string>, location: string)
    requires columns == Sample
    requires Lower(location) == "whitefield"
    ensures Features(columns, 1000.0, 2, 2, location) == Success([1000.0, 2.0, 2.0, 1.0, 0.0])
  {
    WhitefieldIndex();
    MatchedVector(columns, 1000.0, 2, 2, location, 3);
    assert [1000.0, 2.0, 2.0, 0.0, 0.0][3 := 1.0] == [1000.0, 2.0, 2.0, 1.0, 0.0];
  }

  /** Any location that lowers to "unknown_place" matches no column and lights nothing. */
  lemma UnknownLocationExample(columns: seq<string>, location: string)
    requires columns == Sample
    requires Lower(location) == "unknown_place"
    ensures Features(columns, 1000.0, 2, 2, location) == Success([1000.0, 2.0, 2.0, 0.0, 0.0])
  {
    assert forall j :: 0 <= j < |columns| ==> |columns[j]| != |Lower(location)|;
    assert FirstIndex(columns, Lower(location)) == None;
    BaseVector(|columns|, 1000.0, 2, 2);
  }

  /** Any location that lowers to "bath" overwrites the bathroom count with 1. */
  lemma NumericColumnOverwrittenExample(columns: seq<string>, location: string)
    requires columns == Sample
    requires Lower(location) == "bath"
    ensures Features(columns, 1000.0, 2, 2, location) == Success([1000.0, 1.0, 2.0, 0.0, 0.0])
  {
    assert columns[1] == "bath" && columns[0] != "bath";
    assert FirstIndex(columns, Lower(location)) == Some(1);
    MatchedVector(columns, 1000.0, 2, 2, location, 1);
    assert [1000.0, 2.0, 2.0, 0.0, 0.0][1 := 1.0] == [1000.0, 1.0, 2.0, 0.0, 0.0];
  }
}
