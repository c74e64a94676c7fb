/** The field-shape diff of scripts/diff-normalized.js: the first record of
    a baseline dataset and of the current dataset are each summarized as a
    map from key to a type tag, and the two summaries are compared key by
    key. Loading the datasets from files is not part of this model. */
module Diff {
  import opened JsValue

  datatype DiffError =
    /** `Object.entries(null)`: a TypeError. */
    | EntriesOfNull

  /* ---------------------------------------------------------------
     summarizeFields
     --------------------------------------------------------------- */

  /** The tag of one value: `"array"`, `"null"` or its `typeof`. */
  function FieldTag(v: Json): (t: string)
    ensures t in {"array", "null", "object", "boolean", "number", "string"}
    ensures t == "array" <==> v.JArr?
    ensures t == "null" <==> v.JNull?
    ensures v.JStr? ==> t == "string"
    ensures v.JBool? ==> t == "boolean"
    ensures v.JNum? || v.JInf? || v.JNaN? ==> t == "number"
    ensures v.JObj? ==> t == "object"
  {
    if v.JArr? then "array" else if v.JNull? then "null" else TypeOf(Some(v))
  }

  /** `summary[key] = tag`. Assigning a string to `__proto__` goes to the
      prototype setter, which ignores it. */
  function PutTag(summary: Fields, key: string, tag: string): Fields {
    if key == "__proto__" then summary else Set(summary, key, JStr(tag))
  }

  /** The summary after the loop has visited `entries`, in order. */
  function Summary(entries: Fields): Fields
    decreases |entries|
  {
    if entries == [] then []
    else
      var last := entries[|entries| - 1];
      PutTag(Summary(entries[..|entries| - 1]), last.0, FieldTag(last.1))
  }

  /** `summarizeFields(entry)`: the loop over `Object.entries(entry)`. */
  method SummarizeFields(entry: Json) returns (r: Result<Fields, DiffError>)
    ensures r == if entry.JNull? then Err(EntriesOfNull) else Ok(Summary(OwnEntries(entry)))
  {
    if entry.JNull? {
      return Err(EntriesOfNull);
    }
    var entries := OwnEntries(entry);
    var summary: Fields := [];
    var i := 0;
    while i < |entries|
      invariant 0 <= i <= |entries|
      invariant summary == Summary(entries[..i])
    {
      var (key, value) := entries[i];
      summary := PutTag(summary, key, FieldTag(value));
      assert entries[..i + 1][..i] == entries[..i];
      i := i + 1;
    }
    assert entries[..|entries|] == entries;
    return Ok(summary);
  }

  /** The keys of `ks` other than `x`, in order. */
  function Without(ks: seq<string>, x: string): seq<string>
    decreases |ks|
  {
    if ks == [] then [] else Without(ks[..|ks| - 1], x) + (if ks[|ks| - 1] == x then [] else [ks[|ks| - 1]])
  }

  lemma {:induction false} WithoutMember(ks: seq<string>, x: string, k: string)
    ensures k in Without(ks, x) <==> k in ks && k != x
    decreases |ks|
  {
    if ks != [] {
      WithoutMember(ks[..|ks| - 1], x, k);
      assert ks == ks[..|ks| - 1] + [ks[|ks| - 1]];
    }
  }

  /** For an entry with distinct keys, the summary has the same keys in the
      same order, bar `__proto__`. */
  lemma {:induction false} SummaryKeys(entries: Fields)
    requires DistinctKeys(entries)
    ensures Keys(Summary(entries)) == Without(Keys(entries), "__proto__")
    ensures DistinctKeys(Summary(entries))
    decreases |entries|
  {
    if entries != [] {
      var n := |entries| - 1;
      var prev := entries[..n];
      var (key, value) := entries[n];
      assert DistinctKeys(prev);
      SummaryKeys(prev);
      assert Summary(entries) == PutTag(Summary(prev), key, FieldTag(value));
      assert Keys(entries)[..n] == Keys(prev);
      assert Keys(entries)[n] == key;
      assert Without(Keys(entries), "__proto__")
          == Without(Keys(prev), "__proto__") + (if key == "__proto__" then [] else [key]);
      if key != "__proto__" {
        assert key !in Keys(prev);
        WithoutMember(Keys(prev), "__proto__", key);
        SetNew(Summary(prev), key, JStr(FieldTag(value)));
        KeysConcat(Summary(prev), [(key, JStr(FieldTag(value)))]);
        SetKeepsDistinct(Summary(prev), key, JStr(FieldTag(value)));
      }
    }
  }

  /** Each key of an entry with distinct keys, bar `__proto__`, reads its
      value's tag in the summary; any other key is missing. */
  lemma {:induction false} SummaryLookup(entries: Fields, k: string)
    requires DistinctKeys(entries) && k != "__proto__"
    ensures Lookup(Summary(entries), k) ==
              if Lookup(entries, k).Some? then Some(JStr(FieldTag(Lookup(entries, k).value))) else None
    decreases |entries|
  {
    if entries != [] {
      var n := |entries| - 1;
      var prev := entries[..n];
      var (key, value) := entries[n];
      assert DistinctKeys(prev);
      SummaryLookup(prev, k);
      assert entries == prev + [(key, value)];
      LookupAppend(prev, key, value, k);
      if key != "__proto__" {
        if k == key {
          assert Keys(entries)[..n] == Keys(prev);
          assert Keys(entries)[n] == key;
          assert key !in Keys(prev);
          SetLookup(Summary(prev), key, JStr(FieldTag(value)));
        } else {
          SetOther(Summary(prev), key, JStr(FieldTag(value)), k);
        }
      }
      LookupNone(prev, k);
    }
  }

  /* ---------------------------------------------------------------
     The key diff of diffDataset
     --------------------------------------------------------------- */

  /** The keys of `ks` that are not own keys of `fs`, in order. */
  function KeysNotIn(ks: seq<string>, fs: Fields): seq<string>
    decreases |ks|
  {
    if ks == [] then []
    else KeysNotIn(ks[..|ks| - 1], fs) + (if ks[|ks| - 1] in Keys(fs) then [] else [ks[|ks| - 1]])
  }

  /** A key of `ks` that both summaries have, with different tags. */
  predicate IsChanged(k: string, base: Fields, curr: Fields) {
    k in Keys(base) && Lookup(base, k) != Lookup(curr, k)
  }

  /** The keys of `ks` whose tags differ, in order. */
  function ChangedKeys(ks: seq<string>, base: Fields, curr: Fields): seq<string>
    decreases |ks|
  {
    if ks == [] then []
    else ChangedKeys(ks[..|ks| - 1], base, curr) + (if IsChanged(ks[|ks| - 1], base, curr) then [ks[|ks| - 1]] else [])
  }

  /** `${key}: ${baseFields[key]} → ${currFields[key]}` */
  function ChangeLine(k: string, base: Fields, curr: Fields): string {
    k + ": " + OptToString(Lookup(base, k)) + " → " + OptToString(Lookup(curr, k))
  }

  function ChangeLines(ks: seq<string>, base: Fields, curr: Fields): (r: seq<string>)
    ensures |r| == |ks|
  {
    seq(|ks|, i requires 0 <= i < |ks| => ChangeLine(ks[i], base, curr))
  }

  /** The two loops of `diffDataset`, with `key in obj` read as an own-key
      test (see `AddedAsWritten` for what the `in` operator really does). */
  method DiffFields(base: Fields, curr: Fields) returns (added: seq<string>, removed: seq<string>, changed: seq<string>)
    ensures added == KeysNotIn(Keys(curr), base)
    ensures removed == KeysNotIn(Keys(base), curr)
    ensures changed == ChangeLines(ChangedKeys(Keys(curr), base, curr), base, curr)
  {
    added, removed, changed := [], [], [];
    var currKeys := Keys(curr);
    var i := 0;
    while i < |currKeys|
      invariant 0 <= i <= |currKeys|
      invariant added == KeysNotIn(currKeys[..i], base)
      invariant changed == ChangeLines(ChangedKeys(currKeys[..i], base, curr), base, curr)
    {
      var key := currKeys[i];
      assert currKeys[..i + 1][..i] == currKeys[..i];
      if key !in Keys(base) {
        added := added + [key];
      } else if Lookup(base, key) != Lookup(curr, key) {
        changed := changed + [ChangeLine(key, base, curr)];
      }
      i := i + 1;
    }
    assert currKeys[..|currKeys|] == currKeys;
    var baseKeys := Keys(base);
    var j := 0;
    while j < |baseKeys|
      invariant 0 <= j <= |baseKeys|
      invariant removed == KeysNotIn(baseKeys[..j], curr)
    {
      var key := baseKeys[j];
      assert baseKeys[..j + 1][..j] == baseKeys[..j];
      if key !in Keys(curr) {
        removed := removed + [key];
      }
      j := j + 1;
    }
    assert baseKeys[..|baseKeys|] == baseKeys;
  }

  lemma {:induction false} KeysNotInMember(ks: seq<string>, fs: Fields, k: string)
    ensures k in KeysNotIn(ks, fs) <==> k in ks && k !in Keys(fs)
    decreases |ks|
  {
    if ks != [] {
      KeysNotInMember(ks[..|ks| - 1], fs, k);
      assert ks == ks[..|ks| - 1] + [ks[|ks| - 1]];
    }
  }

  lemma {:induction false} ChangedKeysMember(ks: seq<string>, base: Fields, curr: Fields, k: string)
    ensures k in ChangedKeys(ks, base, curr) <==> k in ks && IsChanged(k, base, curr)
    decreases |ks|
  {
    if ks != [] {
      ChangedKeysMember(ks[..|ks| - 1], base, curr, k);
      assert ks == ks[..|ks| - 1] + [ks[|ks| - 1]];
    }
  }

  /** `added` is the current keys missing from the baseline, `removed` the
      baseline keys missing from the current summary, and `changed` has one
      line per key in both whose tags differ; no key is in two of them. */
  lemma DiffSpec(base: Fields, curr: Fields, k: string)
    ensures k in KeysNotIn(Keys(curr), base) <==> k in Keys(curr) && k !in Keys(base)
    ensures k in KeysNotIn(Keys(base), curr) <==> k in Keys(base) && k !in Keys(curr)
    ensures k in ChangedKeys(Keys(curr), base, curr) <==>
              k in Keys(curr) && k in Keys(base) && Lookup(base, k) != Lookup(curr, k)
    ensures !(k in KeysNotIn(Keys(curr), base) && k in KeysNotIn(Keys(base), curr))
    ensures !(k in KeysNotIn(Keys(curr), base) && k in ChangedKeys(Keys(curr), base, curr))
    ensures !(k in KeysNotIn(Keys(base), curr) && k in ChangedKeys(Keys(curr), base, curr))
  {
    KeysNotInMember(Keys(curr), base, k);
    KeysNotInMember(Keys(base), curr, k);
    ChangedKeysMember(Keys(curr), base, curr, k);
  }

  /** Two identical summaries differ in nothing. */
  lemma IdenticalNoDiff(fs: Fields)
    ensures KeysNotIn(Keys(fs), fs) == [] && ChangedKeys(Keys(fs), fs, fs) == []
  {
    if KeysNotIn(Keys(fs), fs) != [] {
      KeysNotInMember(Keys(fs), fs, KeysNotIn(Keys(fs), fs)[0]);
    }
    if ChangedKeys(Keys(fs), fs, fs) != [] {
      ChangedKeysMember(Keys(fs), fs, fs, ChangedKeys(Keys(fs), fs, fs)[0]);
    }
  }

  /* ---------------------------------------------------------------
     diffDataset
     --------------------------------------------------------------- */

  /** `{ name, added, removed, changed }` */
  datatype DatasetDiff = DatasetDiff(name: string, added: seq<string>, removed: seq<string>, changed: seq<string>)

  /** The diff of the two first records. */
  function FirstRecordDiff(name: string, baseFirst: Json, currFirst: Json): Result<DatasetDiff, DiffError> {
    if baseFirst.JNull? || currFirst.JNull? then Err(EntriesOfNull)
    else
      var base := Summary(OwnEntries(baseFirst));
      var curr := Summary(OwnEntries(currFirst));
      Ok(DatasetDiff(name, KeysNotIn(Keys(curr), base), KeysNotIn(Keys(base), curr),
                     ChangeLines(ChangedKeys(Keys(curr), base, curr), base, curr)))
  }

  /** `diffDataset` once both files are loaded: both loaders reject an empty
      dataset, so each has a first record, and only that one is compared. */
  method DiffDataset(name: string, baseline: seq<Json>, current: seq<Json>) returns (r: Result<DatasetDiff, DiffError>)
    requires |baseline| >= 1 && |current| >= 1
    ensures r == FirstRecordDiff(name, baseline[0], current[0])
  {
    var baseFields := SummarizeFields(baseline[0]);
    if baseFields.Err? {
      return Err(baseFields.error);
    }
    var currFields := SummarizeFields(current[0]);
    if currFields.Err? {
      return Err(currFields.error);
    }
    var added, removed, changed := DiffFields(baseFields.value, currFields.value);
    return Ok(DatasetDiff(name, added, removed, changed));
  }

  /** A record compared with itself shows no difference. */
  lemma SameRecordNoDiff(name: string, entry: Json)
    requires !entry.JNull?
    ensures FirstRecordDiff(name, entry, entry) == Ok(DatasetDiff(name, [], [], []))
  {
    IdenticalNoDiff(Summary(OwnEntries(entry)));
  }

  /* ---------------------------------------------------------------
     The `in` operator of the source
     --------------------------------------------------------------- */

  /** The properties every object inherits from `Object.prototype`. */
  const ObjectPrototypeNames: seq<string> :=
    ["constructor", "__defineGetter__", "__defineSetter__", "hasOwnProperty", "__lookupGetter__",
     "__lookupSetter__", "isPrototypeOf", "propertyIsEnumerable", "toString", "valueOf", "__proto__",
     "toLocaleString"]

  /** `key in obj` for a summary object: own keys and inherited ones. */
  predicate InOperator(k: string, fs: Fields) {
    k in Keys(fs) || k in ObjectPrototypeNames
  }

  /** `added` as written: a current key counts as added only if the `in`
      test fails on the baseline summary. */
  function AddedAsWritten(ks: seq<string>, base: Fields): seq<string>
    decreases |ks|
  {
    if ks == [] then []
    else AddedAsWritten(ks[..|ks| - 1], base) + (if InOperator(ks[|ks| - 1], base) then [] else [ks[|ks| - 1]])
  }

  /** The keys that land in `changed` as written: the `in` test succeeds,
      and the value read (inherited, for a name the baseline lacks, and so
      never a tag string) differs. */
  function ChangedKeysAsWritten(ks: seq<string>, base: Fields, curr: Fields): seq<string>
    decreases |ks|
  {
    if ks == [] then []
    else
      var k := ks[|ks| - 1];
      ChangedKeysAsWritten(ks[..|ks| - 1], base, curr)
        + (if InOperator(k, base) && (k !in Keys(base) || Lookup(base, k) != Lookup(curr, k)) then [k] else [])
  }

  /** `removed` as written. */
  function RemovedAsWritten(ks: seq<string>, curr: Fields): seq<string>
    decreases |ks|
  {
    if ks == [] then []
    else RemovedAsWritten(ks[..|ks| - 1], curr) + (if InOperator(ks[|ks| - 1], curr) then [] else [ks[|ks| - 1]])
  }

  /** A current record that gains a field named `constructor` shows it as
      changed, not added, where the own-key reading reports it added. */
  lemma InheritedNameNotAdded()
    ensures var base := Summary([("name", JStr("x"))]);
            var curr := Summary([("name", JStr("x")), ("constructor", JStr("y"))]);
            && AddedAsWritten(Keys(curr), base) == []
            && ChangedKeysAsWritten(Keys(curr), base, curr) == ["constructor"]
            && KeysNotIn(Keys(curr), base) == ["constructor"]
            && ChangedKeys(Keys(curr), base, curr) == []
  {
    var base := Summary([("name", JStr("x"))]);
    var curr := Summary([("name", JStr("x")), ("constructor", JStr("y"))]);
    assert [("name", JStr("x")), ("constructor", JStr("y"))][..1] == [("name", JStr("x"))];
    assert base == [("name", JStr("string"))];
    assert curr == [("name", JStr("string")), ("constructor", JStr("string"))];
    var ks := Keys(curr);
    assert ks == ["name", "constructor"];
    assert ks[..1] == ["name"] && ks[..1][..0] == [];
    assert Keys(base) == ["name"];
    assert "constructor" in ObjectPrototypeNames;
    assert "constructor" !in Keys(base);
    assert Lookup(base, "name") == Lookup(curr, "name");
    assert AddedAsWritten(ks[..1], base) == [];
    assert ChangedKeysAsWritten(ks[..1], base, curr) == [];
    assert KeysNotIn(ks[..1], base) == [];
    assert ChangedKeys(ks[..1], base, curr) == [];
  }

  /** A current record that loses a field named `valueOf` shows nothing,
      where the own-key reading reports it removed. */
  lemma InheritedNameNotRemoved()
    ensures var base := Summary([("valueOf", JNum(1))]);
            var curr := Summary([]);
            && RemovedAsWritten(Keys(base), curr) == []
            && KeysNotIn(Keys(base), curr) == ["valueOf"]
  {
    var base := Summary([("valueOf", JNum(1))]);
    assert [("valueOf", JNum(1))][..0] == [];
    assert base == [("valueOf", JStr("number"))];
    var ks := Keys(base);
    assert ks == ["valueOf"] && ks[..0] == [];
    assert "valueOf" in ObjectPrototypeNames;
  }
  /** Away from the inherited names the `in` operator and the own-key test
      agree: for keys none of which `Object.prototype` provides, the lists
      as written are exactly the own-key lists. */
  lemma {:induction false} AsWrittenOffPrototype(ks: seq<string>, base: Fields, curr: Fields)
    requires forall i :: 0 <= i < |ks| ==> ks[i] !in ObjectPrototypeNames
    ensures AddedAsWritten(ks, base) == KeysNotIn(ks, base)
    ensures RemovedAsWritten(ks, curr) == KeysNotIn(ks, curr)
    ensures ChangedKeysAsWritten(ks, base, curr) == ChangedKeys(ks, base, curr)
    decreases |ks|
  {
    if ks != [] {
      AsWrittenOffPrototype(ks[..|ks| - 1], base, curr);
    }
  }

  /** The diff as written equals the own-key diff whenever neither summary
      has a key named like a property of `Object.prototype`. */
  lemma DiffAsWrittenAgrees(base: Fields, curr: Fields)
    requires forall k :: k in Keys(base) ==> k !in ObjectPrototypeNames
    requires forall k :: k in Keys(curr) ==> k !in ObjectPrototypeNames
    ensures AddedAsWritten(Keys(curr), base) == KeysNotIn(Keys(curr), base)
    ensures RemovedAsWritten(Keys(base), curr) == KeysNotIn(Keys(base), curr)
    ensures ChangedKeysAsWritten(Keys(curr), base, curr) == ChangedKeys(Keys(curr), base, curr)
  {
    AsWrittenOffPrototype(Keys(curr), base, curr);
    AsWrittenOffPrototype(Keys(base), base, curr);
  }
}
