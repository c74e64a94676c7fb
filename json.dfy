/** JavaScript values as the core sees them: JSON-shaped data with the
    language's truthiness, `typeof`, property access, `String(...)` and
    object spread. Objects are ordered lists of own properties, in the
    order JavaScript enumerates them. */
module JsValue {
  import opened Text

  datatype Option<+T> = None | Some(value: T)

  /** A thrown error is an `Err`; a value returned normally is an `Ok`. */
  datatype Result<+T, +E> = Ok(value: T) | Err(error: E) {
    predicate IsFailure() {
      Err?
    }

    function PropagateFailure<U>(): Result<U, E>
      requires Err?
    {
      Err(error)
    }

    function Extract(): T
      requires Ok?
    {
      value
    }
  }

  /** A JavaScript value. Numbers are the integers, the two infinities and NaN. */
  datatype Json =
    | JNull
    | JBool(b: bool)
    | JNum(n: int)
    | JInf(negative: bool)
    | JNaN
    | JStr(s: string)
    | JArr(elems: seq<Json>)
    | JObj(fields: seq<(string, Json)>)

  /** The own properties of an object, in enumeration order. */
  type Fields = seq<(string, Json)>

  /** `Boolean(v)`: false exactly for `null`, `false`, `0`, NaN and `""`. */
  predicate IsTruthy(v: Json) {
    match v
    case JNull => false
    case JBool(b) => b
    case JNum(n) => n != 0
    case JInf(_) => true
    case JNaN => false
    case JStr(s) => s != ""
    case JArr(_) => true
    case JObj(_) => true
  }

  /** Truthiness of a value that may be `undefined` (`None`). */
  predicate Truthy(o: Option<Json>) {
    o.Some? && IsTruthy(o.value)
  }

  /** `o == null`: `undefined` or `null`. */
  predicate Nullish(o: Option<Json>) {
    o.None? || o.value.JNull?
  }

  /** `a ?? b`: `b` when `a` is `null` or `undefined`. */
  function Coalesce(a: Option<Json>, b: Option<Json>): Option<Json> {
    if Nullish(a) then b else a
  }

  /** `Array.isArray(o)`. */
  predicate IsArray(o: Option<Json>) {
    o.Some? && o.value.JArr?
  }

  predicate IsNonEmptyArray(o: Option<Json>) {
    IsArray(o) && |o.value.elems| > 0
  }

  /** The value when it is a non-empty array, nothing otherwise. */
  function IfNonEmptyArray(o: Option<Json>): Option<Json> {
    if IsNonEmptyArray(o) then o else None
  }

  /** `typeof o`. */
  function TypeOf(o: Option<Json>): (t: string)
    ensures t in {"undefined", "object", "boolean", "number", "string"}
  {
    match o
    case None => "undefined"
    case Some(v) =>
      match v
      case JBool(_) => "boolean"
      case JNum(_) => "number"
      case JInf(_) => "number"
      case JNaN => "number"
      case JStr(_) => "string"
      case _ => "object"
  }

  /** `typeof o === "number"`: an integer, an infinity or NaN. */
  predicate IsNumber(o: Option<Json>) {
    TypeOf(o) == "number"
  }

  /** `o && typeof o === "object"`: an array or a non-null object. */
  predicate IsObjectLike(o: Option<Json>) {
    Truthy(o) && TypeOf(o) == "object"
  }

  lemma ObjectLikeIsArrayOrObject(o: Option<Json>)
    ensures IsObjectLike(o) <==> o.Some? && (o.value.JArr? || o.value.JObj?)
  {
  }

  function Keys(fs: Fields): (ks: seq<string>)
    ensures |ks| == |fs| && forall i :: 0 <= i < |fs| ==> ks[i] == fs[i].0
  {
    if fs == [] then [] else [fs[0].0] + Keys(fs[1..])
  }

  predicate DistinctKeys(fs: Fields) {
    forall i, j :: 0 <= i < j < |fs| ==> fs[i].0 != fs[j].0
  }

  /** Reading own property `key`: the value of its first entry, `None` when there is none. */
  function Lookup(fs: Fields, key: string): Option<Json> {
    if fs == [] then None
    else if fs[0].0 == key then Some(fs[0].1)
    else Lookup(fs[1..], key)
  }

  /** A key is missing exactly when no entry has it. */
  lemma {:induction false} LookupNone(fs: Fields, key: string)
    ensures Lookup(fs, key).None? <==> key !in Keys(fs)
  {
    if fs != [] {
      LookupNone(fs[1..], key);
    }
  }

  lemma LookupDistinct(fs: Fields, i: nat)
    requires DistinctKeys(fs) && i < |fs|
    ensures Lookup(fs, fs[i].0) == Some(fs[i].1)
  {
    if i > 0 {
      LookupDistinct(fs[1..], i - 1);
    }
  }

  lemma LookupAppend(fs: Fields, key: string, v: Json, k: string)
    ensures Lookup(fs + [(key, v)], k) == if k in Keys(fs) then Lookup(fs, k)
                                          else if k == key then Some(v) else None
  {
    if fs != [] {
      assert (fs + [(key, v)])[1..] == fs[1..] + [(key, v)];
      LookupAppend(fs[1..], key, v, k);
    }
  }

  /** `v.key` for a value that is not `null` or `undefined`. Only objects have
      named own properties here: the core reads no `length` and no index of
      an array or a string through this. */
  function Get(v: Json, key: string): Option<Json> {
    if v.JObj? then Lookup(v.fields, key) else None
  }

  /** `obj[key] = v`: an existing key keeps its position, a new key goes last. */
  function Set(fs: Fields, key: string, v: Json): Fields {
    if fs == [] then [(key, v)]
    else if fs[0].0 == key then [(key, v)] + fs[1..]
    else [fs[0]] + Set(fs[1..], key, v)
  }

  /** Reading back what was just assigned. */
  lemma {:induction false} SetLookup(fs: Fields, key: string, v: Json)
    ensures Lookup(Set(fs, key, v), key) == Some(v)
  {
    if fs != [] && fs[0].0 != key {
      SetLookup(fs[1..], key, v);
    }
  }

  /** A new key is appended. */
  lemma {:induction false} SetNew(fs: Fields, key: string, v: Json)
    requires key !in Keys(fs)
    ensures Set(fs, key, v) == fs + [(key, v)]
  {
    if fs != [] {
      assert Keys(fs) == [fs[0].0] + Keys(fs[1..]);
      SetNew(fs[1..], key, v);
      assert [fs[0]] + (fs[1..] + [(key, v)]) == fs + [(key, v)];
    }
  }

  /** Assigning a key the value it already reads as changes nothing. */
  lemma {:induction false} SetSame(fs: Fields, key: string, v: Json)
    requires Lookup(fs, key) == Some(v)
    ensures Set(fs, key, v) == fs
  {
    if fs[0].0 != key {
      SetSame(fs[1..], key, v);
    }
  }

  lemma SetKeys(fs: Fields, key: string, v: Json)
    ensures Keys(Set(fs, key, v)) == if key in Keys(fs) then Keys(fs) else Keys(fs) + [key]
  {
    if fs != [] && fs[0].0 != key {
      SetKeys(fs[1..], key, v);
      assert Keys(fs) == [fs[0].0] + Keys(fs[1..]);
    }
  }

  lemma SetOther(fs: Fields, key: string, v: Json, k: string)
    requires k != key
    ensures Lookup(Set(fs, key, v), k) == Lookup(fs, k)
  {
    if fs != [] && fs[0].0 != key {
      SetOther(fs[1..], key, v, k);
    }
  }

  lemma SetKeepsDistinct(fs: Fields, key: string, v: Json)
    requires DistinctKeys(fs)
    ensures DistinctKeys(Set(fs, key, v))
  {
    var r := Set(fs, key, v);
    SetKeys(fs, key, v);
    if key in Keys(fs) {
      forall i, j | 0 <= i < j < |r| ensures r[i].0 != r[j].0 {
        assert r[i].0 == Keys(r)[i] == Keys(fs)[i];
        assert r[j].0 == Keys(r)[j] == Keys(fs)[j];
      }
    }
  }

  lemma KeysConcat(a: Fields, b: Fields)
    ensures Keys(a + b) == Keys(a) + Keys(b)
  {
    assert forall i :: 0 <= i < |a| + |b| ==> (a + b)[i].0 == (Keys(a) + Keys(b))[i];
  }

  /** `obj[key] = v` when there is a value to assign, nothing otherwise. */
  function SetSlot(fs: Fields, key: string, o: Option<Json>): Fields {
    if o.Some? then Set(fs, key, o.value) else fs
  }

  /** What the assignments `obj[keys[i]] = v`, for the slots with
      `vals[i] == Some(v)` taken in order, leave in an object that starts as `fs`. */
  function AssignFrom(fs: Fields, keys: seq<string>, vals: seq<Option<Json>>): Fields
    requires |keys| == |vals|
  {
    if keys == [] then fs
    else SetSlot(AssignFrom(fs, keys[..|keys| - 1], vals[..|vals| - 1]), keys[|keys| - 1], vals[|vals| - 1])
  }

  /** One more slot. */
  lemma AssignFromSnoc(fs: Fields, keys: seq<string>, vals: seq<Option<Json>>, key: string, v: Option<Json>)
    requires |keys| == |vals|
    ensures AssignFrom(fs, keys + [key], vals + [v]) == SetSlot(AssignFrom(fs, keys, vals), key, v)
  {
    assert (keys + [key])[..|keys|] == keys && (vals + [v])[..|vals|] == vals;
  }

  /* Short runs of slots, written out. */

  lemma AssignFrom2(fs: Fields, k0: string, k1: string, v0: Option<Json>, v1: Option<Json>)
    ensures AssignFrom(fs, [k0, k1], [v0, v1]) == SetSlot(SetSlot(fs, k0, v0), k1, v1)
  {
    AssignFromSnoc(fs, [], [], k0, v0);
    AssignFromSnoc(fs, [k0], [v0], k1, v1);
    assert [k0] + [k1] == [k0, k1] && [v0] + [v1] == [v0, v1];
  }

  lemma AssignFrom3(fs: Fields, k0: string, k1: string, k2: string,
                    v0: Option<Json>, v1: Option<Json>, v2: Option<Json>)
    ensures AssignFrom(fs, [k0, k1, k2], [v0, v1, v2])
         == SetSlot(SetSlot(SetSlot(fs, k0, v0), k1, v1), k2, v2)
  {
    AssignFrom2(fs, k0, k1, v0, v1);
    AssignFromSnoc(fs, [k0, k1], [v0, v1], k2, v2);
    assert [k0, k1] + [k2] == [k0, k1, k2] && [v0, v1] + [v2] == [v0, v1, v2];
  }

  lemma AssignFrom4(fs: Fields, k0: string, k1: string, k2: string, k3: string,
                    v0: Option<Json>, v1: Option<Json>, v2: Option<Json>, v3: Option<Json>)
    ensures AssignFrom(fs, [k0, k1, k2, k3], [v0, v1, v2, v3])
         == SetSlot(SetSlot(SetSlot(SetSlot(fs, k0, v0), k1, v1), k2, v2), k3, v3)
  {
    AssignFrom3(fs, k0, k1, k2, v0, v1, v2);
    AssignFromSnoc(fs, [k0, k1, k2], [v0, v1, v2], k3, v3);
    assert [k0, k1, k2] + [k3] == [k0, k1, k2, k3] && [v0, v1, v2] + [v3] == [v0, v1, v2, v3];
  }

  lemma AssignFrom5(fs: Fields, k0: string, k1: string, k2: string, k3: string, k4: string,
                    v0: Option<Json>, v1: Option<Json>, v2: Option<Json>, v3: Option<Json>, v4: Option<Json>)
    ensures AssignFrom(fs, [k0, k1, k2, k3, k4], [v0, v1, v2, v3, v4])
         == SetSlot(SetSlot(SetSlot(SetSlot(SetSlot(fs, k0, v0), k1, v1), k2, v2), k3, v3), k4, v4)
  {
    AssignFrom4(fs, k0, k1, k2, k3, v0, v1, v2, v3);
    AssignFromSnoc(fs, [k0, k1, k2, k3], [v0, v1, v2, v3], k4, v4);
    assert [k0, k1, k2, k3] + [k4] == [k0, k1, k2, k3, k4];
    assert [v0, v1, v2, v3] + [v4] == [v0, v1, v2, v3, v4];
  }

  lemma AssignFrom6(fs: Fields, k0: string, k1: string, k2: string, k3: string, k4: string, k5: string,
                    v0: Option<Json>, v1: Option<Json>, v2: Option<Json>, v3: Option<Json>, v4: Option<Json>,
                    v5: Option<Json>)
    ensures AssignFrom(fs, [k0, k1, k2, k3, k4, k5], [v0, v1, v2, v3, v4, v5])
         == SetSlot(SetSlot(SetSlot(SetSlot(SetSlot(SetSlot(fs, k0, v0), k1, v1), k2, v2), k3, v3), k4, v4), k5, v5)
  {
    AssignFrom5(fs, k0, k1, k2, k3, k4, v0, v1, v2, v3, v4);
    AssignFromSnoc(fs, [k0, k1, k2, k3, k4], [v0, v1, v2, v3, v4], k5, v5);
    assert [k0, k1, k2, k3, k4] + [k5] == [k0, k1, k2, k3, k4, k5];
    assert [v0, v1, v2, v3, v4] + [v5] == [v0, v1, v2, v3, v4, v5];
  }

  /** Two runs of assignments, one after the other. */
  lemma {:induction false} AssignFromConcat(fs: Fields, k1: seq<string>, v1: seq<Option<Json>>,
                                            k2: seq<string>, v2: seq<Option<Json>>)
    requires |k1| == |v1| && |k2| == |v2|
    ensures AssignFrom(fs, k1 + k2, v1 + v2) == AssignFrom(AssignFrom(fs, k1, v1), k2, v2)
    decreases |k2|
  {
    if k2 == [] {
      assert k1 + k2 == k1 && v1 + v2 == v1;
    } else {
      var n := |k2| - 1;
      assert k1 + k2 == (k1 + k2[..n]) + [k2[n]];
      assert v1 + v2 == (v1 + v2[..n]) + [v2[n]];
      AssignFromSnoc(fs, k1 + k2[..n], v1 + v2[..n], k2[n], v2[n]);
      AssignFromConcat(fs, k1, v1, k2[..n], v2[..n]);
    }
  }

  /** Only the starting keys and the slot keys become properties. */
  lemma {:induction false} AssignFromKeys(fs: Fields, keys: seq<string>, vals: seq<Option<Json>>, k: string)
    requires |keys| == |vals| && k in Keys(AssignFrom(fs, keys, vals))
    ensures k in Keys(fs) || k in keys
  {
    if keys != [] {
      var n := |keys| - 1;
      var p := AssignFrom(fs, keys[..n], vals[..n]);
      if vals[n].Some? {
        SetKeys(p, keys[n], vals[n].value);
      }
      if k != keys[n] {
        AssignFromKeys(fs, keys[..n], vals[..n], k);
        if k in keys[..n] {
          assert k in keys;
        }
      }
    }
  }

  /** No property occurs twice. */
  lemma {:induction false} AssignFromDistinct(fs: Fields, keys: seq<string>, vals: seq<Option<Json>>)
    requires |keys| == |vals| && DistinctKeys(fs)
    ensures DistinctKeys(AssignFrom(fs, keys, vals))
  {
    if keys != [] {
      var n := |keys| - 1;
      AssignFromDistinct(fs, keys[..n], vals[..n]);
      if vals[n].Some? {
        SetKeepsDistinct(AssignFrom(fs, keys[..n], vals[..n]), keys[n], vals[n].value);
      }
    }
  }

  /** A key no slot names keeps its starting value. */
  lemma {:induction false} AssignFromMissing(fs: Fields, keys: seq<string>, vals: seq<Option<Json>>, k: string)
    requires |keys| == |vals| && k !in keys
    ensures Lookup(AssignFrom(fs, keys, vals), k) == Lookup(fs, k)
  {
    if keys != [] {
      var n := |keys| - 1;
      if vals[n].Some? {
        SetOther(AssignFrom(fs, keys[..n], vals[..n]), keys[n], vals[n].value, k);
      }
      assert keys == keys[..n] + [keys[n]];
      AssignFromMissing(fs, keys[..n], vals[..n], k);
    }
  }

  /** A key named by one slot only holds what that slot holds, or its
      starting value when the slot is empty. */
  lemma {:induction false} AssignFromLookup(fs: Fields, keys: seq<string>, vals: seq<Option<Json>>, i: nat)
    requires |keys| == |vals| && i < |keys|
    requires forall j :: 0 <= j < |keys| && j != i ==> keys[j] != keys[i]
    ensures Lookup(AssignFrom(fs, keys, vals), keys[i]) == if vals[i].Some? then vals[i] else Lookup(fs, keys[i])
  {
    var n := |keys| - 1;
    var p := AssignFrom(fs, keys[..n], vals[..n]);
    if i == n {
      if vals[n].Some? {
        SetLookup(p, keys[n], vals[n].value);
      } else {
        assert forall j :: 0 <= j < n ==> keys[..n][j] != keys[n];
        AssignFromMissing(fs, keys[..n], vals[..n], keys[n]);
      }
    } else {
      if vals[n].Some? {
        SetOther(p, keys[n], vals[n].value, keys[i]);
      }
      AssignFromLookup(fs, keys[..n], vals[..n], i);
      assert keys[..n][i] == keys[i];
    }
  }

  /** `xs.map((x, i) => f(x, i))` over the elements from position `start`
      on, for a callback that may throw: the first throw aborts the map. */
  function MapIndexed<E>(f: (Json, nat) -> Result<Json, E>, xs: seq<Json>, start: nat): Result<seq<Json>, E>
    decreases |xs|
  {
    if xs == [] then Ok([])
    else
      var y :- f(xs[0], start);
      var rest :- MapIndexed(f, xs[1..], start + 1);
      Ok([y] + rest)
  }

  /** The map succeeds exactly when every call does, and then it holds the
      calls' results in order. */
  lemma {:induction false} MapIndexedOk<E>(f: (Json, nat) -> Result<Json, E>, xs: seq<Json>, start: nat)
    ensures MapIndexed(f, xs, start).Ok? <==> forall i :: 0 <= i < |xs| ==> f(xs[i], start + i).Ok?
    ensures MapIndexed(f, xs, start).Ok? ==>
              |MapIndexed(f, xs, start).value| == |xs|
              && forall i :: 0 <= i < |xs| ==> MapIndexed(f, xs, start).value[i] == f(xs[i], start + i).value
    decreases |xs|
  {
    if xs != [] {
      MapIndexedOk(f, xs[1..], start + 1);
      assert forall i :: 1 <= i < |xs| ==> xs[i] == xs[1..][i - 1] && start + i == (start + 1) + (i - 1);
    }
  }

  /** The first call that throws decides the error. */
  lemma {:induction false} MapIndexedFirstError<E>(f: (Json, nat) -> Result<Json, E>, xs: seq<Json>, start: nat, i: nat)
    requires i < |xs| && f(xs[i], start + i).Err?
    requires forall j :: 0 <= j < i ==> f(xs[j], start + j).Ok?
    ensures MapIndexed(f, xs, start) == Err(f(xs[i], start + i).error)
    decreases i
  {
    if i > 0 {
      assert xs[1..][i - 1] == xs[i];
      assert forall j :: 0 <= j < i - 1 ==> xs[1..][j] == xs[j + 1];
      MapIndexedFirstError(f, xs[1..], start + 1, i - 1);
    }
  }

  /** `MapIndexedOk` for a map over a whole array, indices from 0. */
  lemma MapIndexedOkFromZero<E>(f: (Json, nat) -> Result<Json, E>, xs: seq<Json>)
    ensures MapIndexed(f, xs, 0).Ok? <==> forall i :: 0 <= i < |xs| ==> f(xs[i], i).Ok?
    ensures MapIndexed(f, xs, 0).Ok? ==>
              |MapIndexed(f, xs, 0).value| == |xs|
              && forall i :: 0 <= i < |xs| ==> MapIndexed(f, xs, 0).value[i] == f(xs[i], i).value
  {
    MapIndexedOk(f, xs, 0);
  }

  /** `MapIndexedFirstError` for a map over a whole array, indices from 0. */
  lemma MapIndexedFirstErrorFromZero<E>(f: (Json, nat) -> Result<Json, E>, xs: seq<Json>, i: nat)
    requires i < |xs| && f(xs[i], i).Err?
    requires forall j :: 0 <= j < i ==> f(xs[j], j).Ok?
    ensures MapIndexed(f, xs, 0) == Err(f(xs[i], i).error)
  {
    MapIndexedFirstError(f, xs, 0, i);
  }

  /** A JavaScript object whose properties are assigned in place. */
  class JsObject {
    var fields: Fields

    /** `{}` */
    constructor ()
      ensures fields == []
    {
      fields := [];
    }

    /** `{ ...o }` */
    constructor Copy(o: Option<Json>)
      ensures fields == ShallowCopy(o)
    {
      fields := ShallowCopy(o);
    }

    /** `this[key] = v` */
    method Put(key: string, v: Json)
      modifies this
      ensures fields == Set(old(fields), key, v)
    {
      fields := Set(fields, key, v);
    }

    /** `delete this[key]` */
    method Remove(key: string)
      modifies this
      ensures fields == Delete(old(fields), key)
    {
      fields := Delete(fields, key);
    }
  }

  /** `delete obj[key]`: every entry of `key` goes. */
  function Delete(fs: Fields, key: string): (r: Fields)
    ensures Lookup(r, key) == None
    ensures |r| <= |fs|
    ensures key !in Keys(fs) ==> r == fs
  {
    if fs == [] then []
    else if fs[0].0 == key then Delete(fs[1..], key)
    else [fs[0]] + Delete(fs[1..], key)
  }

  lemma DeleteOther(fs: Fields, key: string, k: string)
    requires k != key
    ensures Lookup(Delete(fs, key), k) == Lookup(fs, k)
  {
    if fs != [] {
      DeleteOther(fs[1..], key, k);
    }
  }

  /** `Object.entries(v)` for a value other than `null` and `undefined`: the
      properties of an object, the indexed elements of an array, the indexed
      characters of a string, and nothing for a boolean or a number. */
  function OwnEntries(v: Json): (r: Fields)
    ensures v.JObj? ==> r == v.fields
    ensures v.JArr? ==> |r| == |v.elems|
    ensures v.JStr? ==> |r| == |v.s|
    ensures !(v.JObj? || v.JArr? || v.JStr?) ==> r == []
  {
    match v
    case JObj(fs) => fs
    case JArr(es) => seq(|es|, i requires 0 <= i < |es| => (NatToString(i), es[i]))
    case JStr(s) => seq(|s|, i requires 0 <= i < |s| => (NatToString(i), JStr([s[i]])))
    case _ => []
  }

  /** `Object.keys(v).length`. */
  function OwnKeyCount(v: Json): nat {
    |OwnEntries(v)|
  }

  /** The own properties of `{ ...o }`: nothing from `null` or `undefined`. */
  function ShallowCopy(o: Option<Json>): (r: Fields)
    ensures o.Some? && o.value.JObj? ==> r == o.value.fields
  {
    if Nullish(o) then [] else OwnEntries(o.value)
  }

  /** `String(v)`, also what a template literal `${v}` inserts. An array is
      its elements joined with ",", `null` elements as empty strings. */
  function ToJsString(v: Json): string
    decreases v
  {
    match v
    case JNull => "null"
    case JBool(b) => if b then "true" else "false"
    case JNum(n) => IntToString(n)
    case JInf(neg) => if neg then "-Infinity" else "Infinity"
    case JNaN => "NaN"
    case JStr(s) => s
    case JArr(es) => Join(seq(|es|, i requires 0 <= i < |es| =>
                            if es[i].JNull? then "" else ToJsString(es[i])), ",")
    case JObj(_) => "[object Object]"
  }

  /** `String(o)` where `o` may be `undefined`. */
  function OptToString(o: Option<Json>): string {
    if o.None? then "undefined" else ToJsString(o.value)
  }

  lemma ToJsStringOfString(s: string)
    ensures ToJsString(JStr(s)) == s
  {
  }
}
