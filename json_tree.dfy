/** The JSON document tree that the message codec reads and writes.
    JSON text (lexing, escapes, whitespace, member order on output) is not part
    of the model: a frame is given to the decoders already parsed into this tree. */
module JsonTree {

  /** A JSON value. Object members keep their order and any repeated key, as the
      JSON reader hands them on. `JInt` is a number written without fraction or
      exponent that fits in -2^63 .. 2^64-1, the integers the reader keeps
      exact; every other number is a `JFloat`. */
  datatype Json =
    | JNull
    | JBool(b: bool)
    | JInt(i: int)
    | JFloat(r: real)
    | JStr(s: string)
    | JArr(items: seq<Json>)
    | JObj(members: seq<Member>)

  /** One `"key": value` member of an object. */
  type Member = (string, Json)

  /** What looking a key up in an object finds: no member, exactly one, or several. */
  datatype Lookup = Absent | Present(value: Json) | Repeated

  predicate HasKey(ms: seq<Member>, key: string) {
    exists i :: 0 <= i < |ms| && ms[i].0 == key
  }

  /** Looks `key` up among the members `ms`. */
  function Find(ms: seq<Member>, key: string): Lookup {
    if |ms| == 0 then Absent
    else
      var rest := Find(ms[1..], key);
      if ms[0].0 != key then rest
      else if rest.Absent? then Present(ms[0].1)
      else Repeated
  }

  /** What `Find` finds, stated on the positions of the members: nothing when
      no member has the key, two positions when it is repeated, and otherwise
      the one member with that key. */
  lemma {:induction false} FindMeaning(ms: seq<Member>, key: string)
    ensures Find(ms, key).Absent? <==> !HasKey(ms, key)
    ensures Find(ms, key).Repeated? <==>
              exists i, j :: 0 <= i < j < |ms| && ms[i].0 == key && ms[j].0 == key
    ensures Find(ms, key).Present? ==>
              exists i :: 0 <= i < |ms| && ms[i] == (key, Find(ms, key).value) && UniqueAt(ms, i)
  {
    if |ms| > 0 {
      var tail := ms[1..];
      FindMeaning(tail, key);
      assert forall i :: 1 <= i < |ms| ==> ms[i] == tail[i - 1];
      if ms[0].0 == key && Find(tail, key).Absent? {
        assert UniqueAt(ms, 0);
      } else if ms[0].0 == key {
        var j :| 0 <= j < |tail| && tail[j].0 == key;
        assert ms[0].0 == key && ms[j + 1].0 == key;
      } else if Find(tail, key).Present? {
        var i :| 0 <= i < |tail| && tail[i] == (key, Find(tail, key).value) && UniqueAt(tail, i);
        assert UniqueAt(ms, i + 1);
      } else if Find(tail, key).Repeated? {
        var i, j :| 0 <= i < j < |tail| && tail[i].0 == key && tail[j].0 == key;
        assert ms[i + 1].0 == key && ms[j + 1].0 == key;
      }
    }
  }

  /** No other member of `ms` has the key of member `i`. */
  predicate UniqueAt(ms: seq<Member>, i: nat)
    requires i < |ms|
  {
    forall j :: 0 <= j < |ms| && j != i ==> ms[j].0 != ms[i].0
  }

  /** A key held by exactly one member is found with that member's value. */
  lemma {:induction false} FindUnique(ms: seq<Member>, i: nat)
    requires i < |ms| && UniqueAt(ms, i)
    ensures Find(ms, ms[i].0) == Present(ms[i].1)
  {
    var tail := ms[1..];
    assert forall k :: 1 <= k < |ms| ==> ms[k] == tail[k - 1];
    if i == 0 {
      FindMeaning(tail, ms[0].0);
    } else {
      FindUnique(tail, i - 1);
    }
  }

  /** The members of `ms` whose key is not in `drop`, in their order. */
  function Without(ms: seq<Member>, drop: set<string>): (r: seq<Member>)
    ensures forall k :: k !in drop ==> Find(r, k) == Find(ms, k)
  {
    if |ms| == 0 then []
    else
      var rest := Without(ms[1..], drop);
      if ms[0].0 in drop then rest
      else
        assert ([ms[0]] + rest)[1..] == rest;
        [ms[0]] + rest
  }

  /** The members of `ms` whose value is not `null`, in their order. */
  function WithoutNulls(ms: seq<Member>): seq<Member> {
    if |ms| == 0 then []
    else
      var rest := WithoutNulls(ms[1..]);
      if ms[0].1 == JNull then rest else [ms[0]] + rest
  }

  /** What a key with value `v` finds once null members are left out. */
  function PresentUnlessNull(v: Json): Lookup {
    if v == JNull then Absent else Present(v)
  }

  /** Dropping the null members of an object hides a key whose one member was
      null, and leaves the lookup of every other key that is not repeated as it was. */
  lemma {:induction false} FindWithoutNulls(ms: seq<Member>, key: string)
    requires !Find(ms, key).Repeated?
    ensures Find(WithoutNulls(ms), key) ==
            if Find(ms, key) == Present(JNull) then Absent else Find(ms, key)
  {
    if |ms| > 0 {
      FindWithoutNulls(ms[1..], key);
      var rest := WithoutNulls(ms[1..]);
      if ms[0].1 != JNull {
        assert WithoutNulls(ms) == [ms[0]] + rest;
        assert ([ms[0]] + rest)[1..] == rest;
      }
    }
  }

  /** Appending a member with a key `ms` lacks makes that key present and leaves
      every other lookup as it was. */
  lemma {:induction false} FindAppend(ms: seq<Member>, key: string, v: Json, other: string)
    requires !HasKey(ms, key)
    ensures Find(ms + [(key, v)], key) == Present(v)
    ensures other != key ==> Find(ms + [(key, v)], other) == Find(ms, other)
  {
    if |ms| == 0 {
      assert Find([(key, v)], key) == Present(v);
    } else {
      assert (ms + [(key, v)])[1..] == ms[1..] + [(key, v)];
      assert !HasKey(ms[1..], key) by {
        assert forall i :: 1 <= i < |ms| ==> ms[i] == ms[1..][i - 1];
      }
      FindAppend(ms[1..], key, v, other);
    }
  }

  /** No string occurs twice in `ss`. */
  predicate DistinctStrings(ss: seq<string>) {
    forall i, j :: 0 <= i < j < |ss| ==> ss[i] != ss[j]
  }

  /** The object members pairing each key with the value at the same position. */
  function Zip(keys: seq<string>, values: seq<Json>): (ms: seq<Member>)
    requires |keys| == |values|
    ensures |ms| == |keys|
    ensures forall i :: 0 <= i < |ms| ==> ms[i] == (keys[i], values[i])
  {
    seq(|keys|, i requires 0 <= i < |keys| => (keys[i], values[i]))
  }

  /** When the keys are distinct, each key finds the value paired with it. */
  lemma FindZip(keys: seq<string>, values: seq<Json>, i: nat)
    requires |keys| == |values| && DistinctStrings(keys) && i < |keys|
    ensures Find(Zip(keys, values), keys[i]) == Present(values[i])
  {
    var ms := Zip(keys, values);
    assert UniqueAt(ms, i);
    FindUnique(ms, i);
  }

  lemma ZipHasOnlyItsKeys(keys: seq<string>, values: seq<Json>, key: string)
    requires |keys| == |values| && key !in keys
    ensures !HasKey(Zip(keys, values), key)
  {
  }

  /** Leaving out keys that no member has leaves the members as they are. */
  lemma {:induction false} WithoutNone(ms: seq<Member>, drop: set<string>)
    requires forall i :: 0 <= i < |ms| ==> ms[i].0 !in drop
    ensures Without(ms, drop) == ms
  {
    if |ms| > 0 {
      WithoutNone(ms[1..], drop);
      assert ms == [ms[0]] + ms[1..];
    }
  }

  /** A first member whose key no later member has is what that key finds. */
  lemma FindFirst(first: Member, rest: seq<Member>)
    requires !HasKey(rest, first.0)
    ensures Find([first] + rest, first.0) == Present(first.1)
    ensures forall k :: k != first.0 ==> Find([first] + rest, k) == Find(rest, k)
  {
    assert ([first] + rest)[1..] == rest;
    FindMeaning(rest, first.0);
  }
}
