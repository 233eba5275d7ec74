/** The values the client passes to and receives from the JSON layer: the JSON
    values of RFC 8259 without numbers other than integers, seen as the PHP
    values they become (arrays with string keys for objects, lists for arrays). */
module JsonValue {
  import opened Php

  datatype Json =
    | Null
    | Bool(b: bool)
    | Int(i: int)
    | Str(s: Bytes)
    | Arr(items: seq<Json>)
    | Obj(members: seq<Member>)

  datatype Member = Member(key: Bytes, value: Json)

  /** PHP's conversion to boolean when every JSON object is a PHP array (the
      associative decode): empty arrays, 0, "", "0", false and null are false. */
  predicate Truthy(v: Json) {
    match v
    case Null => false
    case Bool(b) => b
    case Int(i) => i != 0
    case Str(s) => StrTruthy(s)
    case Arr(items) => items != []
    case Obj(members) => members != []
  }

  /** PHP's conversion to boolean when JSON objects are decoded to stdClass
      objects: an object is always true, even an empty one. */
  predicate TruthyAsObject(v: Json) {
    v.Obj? || Truthy(v)
  }

  /** PHP's conversion of a value to a string, as `.` performs it, when every
      JSON object is a PHP array (the associative decode). */
  function ToPhpString(v: Json): Bytes {
    match v
    case Null => []
    case Bool(b) => if b then ['1' as byte] else []
    case Int(i) => DecimalString(i)
    case Str(s) => s
    case Arr(_) => Ascii("Array")
    case Obj(_) => Ascii("Array")
  }

  /** The result of a conversion to a string that can fail. */
  datatype Converted = Converted(text: Bytes) | NotConvertible

  /** PHP's conversion of a value to a string when JSON objects are decoded to
      stdClass objects: such an object has no string form, and PHP raises an
      Error; every other value converts as under the associative decode. */
  function ToPhpStringAsObject(v: Json): (r: Converted)
    ensures r.NotConvertible? <==> v.Obj?
    ensures r.Converted? ==> r.text == ToPhpString(v)
  {
    match v
    case Obj(_) => NotConvertible
    case Arr(_) => Converted(Ascii("Array"))
    case _ => Converted(ToPhpString(v))
  }

  /** `$v[key]` (or `$v->key`) for a non-numeric key: the member's value when
      `v` is an object that has the key, null otherwise. */
  function Field(v: Json, key: Bytes): (r: Json)
    ensures r != Null ==> v.Obj? && exists i :: 0 <= i < |v.members| && v.members[i] == Member(key, r)
    ensures v.Obj? ==> forall i :: FirstWithKey(v.members, key, i) ==> r == v.members[i].value
  {
    if v.Obj? then FieldOf(v.members, key) else Null
  }

  /** Member i is the first one with the key. */
  predicate FirstWithKey(members: seq<Member>, key: Bytes, i: int) {
    0 <= i < |members| && members[i].key == key && forall j :: 0 <= j < i ==> members[j].key != key
  }

  /** The value of the first member with the key, null when there is none. */
  function FieldOf(members: seq<Member>, key: Bytes): (r: Json)
    ensures r != Null ==> exists i :: 0 <= i < |members| && members[i] == Member(key, r)
    ensures forall i :: FirstWithKey(members, key, i) ==> r == members[i].value
    ensures (forall i :: 0 <= i < |members| ==> members[i].key != key) ==> r == Null
  {
    if members == [] then Null
    else if members[0].key == key then members[0].value
    else FieldOf(members[1..], key)
  }

  /** `isset($v[key])`: the key is there and its value is not null. */
  predicate Isset(v: Json, key: Bytes) {
    Field(v, key) != Null
  }

  /** Either some member is the first with the key, or no member has it. */
  lemma {:induction false} FirstKeyOrAbsent(members: seq<Member>, key: Bytes)
    ensures (exists i :: FirstWithKey(members, key, i)) || forall i :: 0 <= i < |members| ==> members[i].key != key
  {
    if members != [] {
      if members[0].key == key {
        assert FirstWithKey(members, key, 0);
      } else {
        FirstKeyOrAbsent(members[1..], key);
        if i :| FirstWithKey(members[1..], key, i) {
          assert FirstWithKey(members, key, i + 1);
        } else {
          forall i | 0 <= i < |members| ensures members[i].key != key {
            if i > 0 { assert members[i] == members[1..][i - 1]; }
          }
        }
      }
    }
  }

  /** `isset($v[key])` holds exactly when `v` is a map whose first member with
      the key has a value other than null. */
  lemma IssetSpec(v: Json, key: Bytes)
    ensures Isset(v, key) <==> v.Obj? && exists i :: FirstWithKey(v.members, key, i) && v.members[i].value != Null
  {
    if v.Obj? {
      FirstKeyOrAbsent(v.members, key);
    }
  }

  /** Whether `unset($v[key])` can run: PHP raises an error for strings, true
      and numbers, and does nothing for null and false. */
  predicate CanUnset(v: Json) {
    v.Null? || v == Bool(false) || v.Arr? || v.Obj?
  }

  /** `unset($v[key])` for a non-numeric key: drops the key from an object and
      leaves every other value unchanged. */
  function Unset(v: Json, key: Bytes): Json {
    if v.Obj? then Obj(Without(v.members, key)) else v
  }

  /** Of the values that are true, only arrays can be unset from; after an
      unset that runs, the key is no longer set. */
  lemma CanUnsetSpec(v: Json, key: Bytes)
    ensures Truthy(v) ==> (CanUnset(v) <==> v.Arr? || v.Obj?)
    ensures CanUnset(v) ==> !Isset(Unset(v, key), key)
  {
    if v.Obj? {
      UnsetSpec(v, key, key + [0]);
    }
  }

  function Without(members: seq<Member>, key: Bytes): seq<Member> {
    if members == [] then []
    else if members[0].key == key then Without(members[1..], key)
    else [members[0]] + Without(members[1..], key)
  }

  /** After the unset the key is gone, every other key reads as before, and
      exactly the members with other keys remain. */
  lemma {:induction false} WithoutSpec(members: seq<Member>, key: Bytes, other: Bytes)
    requires other != key
    ensures FieldOf(Without(members, key), key) == Null
    ensures FieldOf(Without(members, key), other) == FieldOf(members, other)
    ensures forall m :: m in Without(members, key) <==> m in members && m.key != key
  {
    if members != [] {
      WithoutSpec(members[1..], key, other);
    }
  }

  lemma UnsetSpec(v: Json, key: Bytes, other: Bytes)
    requires other != key
    ensures Field(Unset(v, key), key) == Null
    ensures Field(Unset(v, key), other) == Field(v, other)
    ensures v.Obj? ==> Unset(v, key).Obj? && forall m :: m in Unset(v, key).members <==> m in v.members && m.key != key
    ensures !v.Obj? ==> Unset(v, key) == v
  {
    if v.Obj? {
      WithoutSpec(v.members, key, other);
    }
  }

  /** The member list of a PHP list written as an object: the keys "0", "1",
      … in order. */
  predicate IsListKeys(members: seq<Member>) {
    forall i :: 0 <= i < |members| ==> members[i].key == DecimalString(i)
  }

  /** A value written in the one form a PHP value has: every object has at
      least one member, distinct keys, and keys other than "0", "1", … in
      order (PHP writes an empty array, and an array with those keys, as a
      JSON list). */
  predicate WellFormed(v: Json) {
    match v
    case Arr(items) => forall i :: 0 <= i < |items| ==> WellFormed(items[i])
    case Obj(members) =>
      && members != [] && !IsListKeys(members)
      && (forall i, j :: 0 <= i < j < |members| ==> members[i].key != members[j].key)
      && (forall i :: 0 <= i < |members| ==> WellFormed(members[i].value))
    case _ => true
  }
}
