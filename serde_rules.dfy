/** The decoding and encoding rules that the derived (de)serialisers of the
    message types follow: how a struct finds its fields, what each field type
    accepts, and what it is written as. */
module Serde {
  import opened Wrappers
  import opened JsonTree
  import opened Rfc3339

  const U64_LIMIT: int := 0x1_0000_0000_0000_0000
  /** The least integer the JSON reader keeps exact (Rust's `i64::MIN`). */
  const I64_MIN: int := -0x8000_0000_0000_0000

  /** Rust's `u64`. */
  type u64 = x: int | 0 <= x < U64_LIMIT

  /** Why a frame does not decode. */
  datatype DecodeError =
    | InvalidType(expected: string)       // the JSON value is of the wrong kind
    | InvalidValue(expected: string)      // the right kind, but out of range
    | InvalidLength(length: nat)          // an array with too few or too many elements
    | MissingField(field: string)
    | DuplicateField(field: string)
    | UnknownVariant(variant: string)     // a tag naming no variant
    | NoMatchingVariant(enumName: string) // no variant of an untagged enum fits
    | InvalidTimestamp(text: string)

  type Decoded<T> = Result<T, DecodeError>

  // ---------------------------------------------------------------- scalars

  function DecodeString(j: Json): Decoded<string> {
    if j.JStr? then Ok(j.s) else Err(InvalidType("a string"))
  }

  function DecodeBool(j: Json): Decoded<bool> {
    if j.JBool? then Ok(j.b) else Err(InvalidType("a boolean"))
  }

  /** A `u64` is read only from an integer token in 0 .. 2^64-1. A negative
      integer down to -2^63 is out of range. An integer outside -2^63 .. 2^64-1
      is read by the JSON reader as a floating-point number, so a `JInt` there
      stands for that number and has the wrong type. */
  function DecodeU64(j: Json): (r: Decoded<u64>)
    ensures r.Ok? <==> j.JInt? && 0 <= j.i < U64_LIMIT
    ensures r.Ok? ==> r.value == j.i
    ensures j.JInt? && I64_MIN <= j.i < 0 ==> r == Err(InvalidValue("u64"))
  {
    match j
    case JInt(i) =>
      if i < I64_MIN then Err(InvalidType("u64"))
      else if i < 0 then Err(InvalidValue("u64"))
      else if i < U64_LIMIT then Ok(i)
      else Err(InvalidType("u64"))
    case _ => Err(InvalidType("u64"))
  }

  /** A timestamp is read from a string holding an RFC 3339 date-time. */
  function DecodeDateTime(j: Json): (r: Decoded<DateTime>)
    ensures r.Ok? <==> j.JStr? && IsDateTime(j.s)
    ensures r.Ok? ==> r.value == j.s
  {
    match j
    case JStr(s) => if IsDateTime(s) then Ok(s) else Err(InvalidTimestamp(s))
    case _ => Err(InvalidType("a date-time string"))
  }

  /** An `Option<String>` that is present: `null` is no value, a string is that
      string, anything else is an error. */
  function DecodeOptionalString(j: Json): Decoded<Option<string>> {
    match j
    case JNull => Ok(None)
    case JStr(s) => Ok(Some(s))
    case _ => Err(InvalidType("a string or null"))
  }

  function OptionalStringJson(o: Option<string>): Json {
    match o
    case None => JNull
    case Some(s) => JStr(s)
  }

  // -------------------------------------------------------------- sequences

  /** A `Vec<T>`: the elements in order, stopping at the first that fails. */
  function DecodeEach<T>(items: seq<Json>, decode: Json -> Decoded<T>): (r: Decoded<seq<T>>)
    ensures r.Ok? <==> forall i :: 0 <= i < |items| ==> decode(items[i]).Ok?
    ensures r.Ok? ==> |r.value| == |items|
    ensures r.Ok? ==> forall i :: 0 <= i < |items| ==> r.value[i] == decode(items[i]).value
  {
    if |items| == 0 then Ok([])
    else
      assert forall i :: 1 <= i < |items| ==> items[i] == items[1..][i - 1];
      var head :- decode(items[0]);
      var tail :- DecodeEach(items[1..], decode);
      Ok([head] + tail)
  }

  function EncodeEach<T>(xs: seq<T>, encode: T -> Json): (r: seq<Json>) {
    seq(|xs|, i requires 0 <= i < |xs| => encode(xs[i]))
  }

  /** Encoding each element and decoding the result gives the elements back
      whenever it does so for each of them. */
  lemma EachRoundTrip<T>(xs: seq<T>, encode: T -> Json, decode: Json -> Decoded<T>)
    requires forall i :: 0 <= i < |xs| ==> decode(encode(xs[i])) == Ok(xs[i])
    ensures DecodeEach(EncodeEach(xs, encode), decode) == Ok(xs)
  {
    var r := DecodeEach(EncodeEach(xs, encode), decode);
    assert r.Ok?;
    assert r.value == xs;
  }

  function DecodeStrings(j: Json): Decoded<seq<string>> {
    if j.JArr? then DecodeEach(j.items, DecodeString) else Err(InvalidType("a sequence"))
  }

  function StringsJson(ss: seq<string>): Json {
    JArr(EncodeEach(ss, s => JStr(s)))
  }

  lemma StringsRoundTrip(ss: seq<string>)
    ensures DecodeStrings(StringsJson(ss)) == Ok(ss)
  {
    EachRoundTrip(ss, s => JStr(s), DecodeString);
  }

  // ----------------------------------------------------------------- structs

  /** Where a derived struct decoder takes its fields from: the members of a JSON
      object, found by key (other keys are ignored, a repeated one is an error),
      or the elements of a JSON array, taken by position. */
  datatype FieldSource = Named(members: seq<Member>) | Positional(items: seq<Json>)

  function StructFields(j: Json): Decoded<FieldSource> {
    match j
    case JObj(ms) => Ok(Named(ms))
    case JArr(items) => Ok(Positional(items))
    case _ => Err(InvalidType("a struct"))
  }

  /** The field declared at `index` under the name `key`. */
  function Field(src: FieldSource, index: nat, key: string): Decoded<Json> {
    match src
    case Named(ms) =>
      (match Find(ms, key)
       case Absent => Err(MissingField(key))
       case Repeated => Err(DuplicateField(key))
       case Present(v) => Ok(v))
    case Positional(items) =>
      if index < |items| then Ok(items[index]) else Err(InvalidLength(|items|))
  }

  /** An `Option` field: by key it may be missing, which is no value; by
      position it must be there like any other. */
  function OptionalField(src: FieldSource, index: nat, key: string): Decoded<Option<Json>> {
    match src
    case Named(ms) =>
      (match Find(ms, key)
       case Absent => Ok(None)
       case Repeated => Err(DuplicateField(key))
       case Present(v) => Ok(Some(v)))
    case Positional(items) =>
      if index < |items| then Ok(Some(items[index])) else Err(InvalidLength(|items|))
  }

  /** After the last of `count` fields: an array must not hold more elements. */
  function NoMoreFields(src: FieldSource, count: nat): Decoded<()> {
    match src
    case Named(_) => Ok(())
    case Positional(items) => if |items| == count then Ok(()) else Err(InvalidLength(|items|))
  }

  /** In an object built from distinct keys, the field under key `i` is the
      value paired with it. */
  lemma FieldAt(keys: seq<string>, values: seq<Json>, i: nat, index: nat)
    requires |keys| == |values| && DistinctStrings(keys) && i < |keys|
    ensures Field(Named(Zip(keys, values)), index, keys[i]) == Ok(values[i])
    ensures OptionalField(Named(Zip(keys, values)), index, keys[i]) == Ok(Some(values[i]))
  {
    FindZip(keys, values, i);
  }

  function StringField(src: FieldSource, index: nat, key: string): Decoded<string> {
    var j :- Field(src, index, key);
    DecodeString(j)
  }

  function BoolField(src: FieldSource, index: nat, key: string): Decoded<bool> {
    var j :- Field(src, index, key);
    DecodeBool(j)
  }

  function U64Field(src: FieldSource, index: nat, key: string): Decoded<u64> {
    var j :- Field(src, index, key);
    DecodeU64(j)
  }

  function DateTimeField(src: FieldSource, index: nat, key: string): Decoded<DateTime> {
    var j :- Field(src, index, key);
    DecodeDateTime(j)
  }

  function StringsField(src: FieldSource, index: nat, key: string): Decoded<seq<string>> {
    var j :- Field(src, index, key);
    DecodeStrings(j)
  }

  function OptionalStringField(src: FieldSource, index: nat, key: string): Decoded<Option<string>> {
    var o :- OptionalField(src, index, key);
    match o
    case None => Ok(None)
    case Some(j) => DecodeOptionalString(j)
  }

  /** An optional string field is no value when its key is missing or its value
      is null, and the string when the value is one; any other value fails. */
  lemma OptionalStringFieldRule(ms: seq<Member>, index: nat, key: string)
    ensures Find(ms, key).Absent? ==> OptionalStringField(Named(ms), index, key) == Ok(None)
    ensures Find(ms, key) == Present(JNull) ==> OptionalStringField(Named(ms), index, key) == Ok(None)
    ensures forall s :: Find(ms, key) == Present(JStr(s)) ==>
              OptionalStringField(Named(ms), index, key) == Ok(Some(s))
    ensures OptionalStringField(Named(ms), index, key).Ok? ==>
              Find(ms, key).Absent? || Find(ms, key) == Present(OptionalStringJson(OptionalStringField(Named(ms), index, key).value))
  {
  }

  // Each typed field is its value once its key finds that value.

  lemma StringFrom(ms: seq<Member>, index: nat, key: string, v: string)
    requires Find(ms, key) == Present(JStr(v))
    ensures StringField(Named(ms), index, key) == Ok(v)
  {
  }

  lemma BoolFrom(ms: seq<Member>, index: nat, key: string, v: bool)
    requires Find(ms, key) == Present(JBool(v))
    ensures BoolField(Named(ms), index, key) == Ok(v)
  {
  }

  lemma U64From(ms: seq<Member>, index: nat, key: string, v: u64)
    requires Find(ms, key) == Present(JInt(v))
    ensures U64Field(Named(ms), index, key) == Ok(v)
  {
  }

  lemma DateTimeFrom(ms: seq<Member>, index: nat, key: string, v: DateTime)
    requires Find(ms, key) == Present(JStr(v))
    ensures DateTimeField(Named(ms), index, key) == Ok(v)
  {
  }

  lemma StringsFrom(ms: seq<Member>, index: nat, key: string, v: seq<string>)
    requires Find(ms, key) == Present(StringsJson(v))
    ensures StringsField(Named(ms), index, key) == Ok(v)
  {
    StringsRoundTrip(v);
  }

  /** A missing key is also read as no value. */
  lemma OptionalStringFrom(ms: seq<Member>, index: nat, key: string, v: Option<string>)
    requires Find(ms, key) == Present(OptionalStringJson(v)) || (v.None? && Find(ms, key).Absent?)
    ensures OptionalStringField(Named(ms), index, key) == Ok(v)
  {
  }

  /** Fields are read by key alone: two objects in which a key finds the same
      thing give the same field under it, whatever its type. */
  lemma SameField(a: seq<Member>, b: seq<Member>, index: nat, key: string)
    requires Find(a, key) == Find(b, key)
    ensures Field(Named(a), index, key) == Field(Named(b), index, key)
    ensures StringField(Named(a), index, key) == StringField(Named(b), index, key)
    ensures BoolField(Named(a), index, key) == BoolField(Named(b), index, key)
    ensures U64Field(Named(a), index, key) == U64Field(Named(b), index, key)
    ensures DateTimeField(Named(a), index, key) == DateTimeField(Named(b), index, key)
    ensures StringsField(Named(a), index, key) == StringsField(Named(b), index, key)
    ensures OptionalStringField(Named(a), index, key) == OptionalStringField(Named(b), index, key)
  {
    SameString(a, b, index, key);
    SameBool(a, b, index, key);
    SameU64(a, b, index, key);
    SameDateTime(a, b, index, key);
    SameStrings(a, b, index, key);
    SameOptionalString(a, b, index, key);
  }

  // The same, one field type at a time.

  lemma SameString(a: seq<Member>, b: seq<Member>, index: nat, key: string)
    requires Find(a, key) == Find(b, key)
    ensures StringField(Named(a), index, key) == StringField(Named(b), index, key)
  {
  }

  lemma SameBool(a: seq<Member>, b: seq<Member>, index: nat, key: string)
    requires Find(a, key) == Find(b, key)
    ensures BoolField(Named(a), index, key) == BoolField(Named(b), index, key)
  {
  }

  lemma SameU64(a: seq<Member>, b: seq<Member>, index: nat, key: string)
    requires Find(a, key) == Find(b, key)
    ensures U64Field(Named(a), index, key) == U64Field(Named(b), index, key)
  {
  }

  lemma SameDateTime(a: seq<Member>, b: seq<Member>, index: nat, key: string)
    requires Find(a, key) == Find(b, key)
    ensures DateTimeField(Named(a), index, key) == DateTimeField(Named(b), index, key)
  {
  }

  lemma SameStrings(a: seq<Member>, b: seq<Member>, index: nat, key: string)
    requires Find(a, key) == Find(b, key)
    ensures StringsField(Named(a), index, key) == StringsField(Named(b), index, key)
  {
  }

  lemma SameOptionalString(a: seq<Member>, b: seq<Member>, index: nat, key: string)
    requires Find(a, key) == Find(b, key)
    ensures OptionalStringField(Named(a), index, key) == OptionalStringField(Named(b), index, key)
  {
  }

  /** A `u64` field read by key is the integer its key finds. */
  lemma U64FieldRule(ms: seq<Member>, index: nat, key: string)
    ensures U64Field(Named(ms), index, key).Ok? ==>
              Find(ms, key) == Present(JInt(U64Field(Named(ms), index, key).value))
  {
  }
}
