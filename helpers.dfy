/** The pure string and number helpers of loaders/helpers.js that the
    record views use, and the one helper that updates an object in place. */
module Helpers {
  import opened Text
  import opened JsValue

  /* ---------------------------------------------------------------
     safe, capitalizeFirst
     --------------------------------------------------------------- */

  /** `safe(text)`: `""` for `null` and `undefined`, the trimmed string otherwise. */
  function Safe(text: Option<Json>): string {
    if Nullish(text) then "" else Trim(ToJsString(text.value))
  }

  /** `r` is `s` with a prefix and a suffix of whitespace cut off. */
  predicate IsWhitespaceCut(r: string, s: string) {
    exists i, j :: 0 <= i <= j <= |s| && r == s[i..j]
      && (forall k :: 0 <= k < i ==> IsJsWhitespace(s[k]))
      && (forall k :: j <= k < |s| ==> IsJsWhitespace(s[k]))
  }

  /** The result is `String(text)` with its outer whitespace cut off, and it
      is trimmed; a trimmed string is kept, and applying `safe` to its own
      result changes nothing. */
  lemma SafeSpec(text: Option<Json>)
    ensures Nullish(text) ==> Safe(text) == ""
    ensures !Nullish(text) ==> IsWhitespaceCut(Safe(text), ToJsString(text.value))
    ensures IsTrimmed(Safe(text))
    ensures text.Some? && text.value.JStr? && IsTrimmed(text.value.s) ==> Safe(text) == text.value.s
    ensures Safe(Some(JStr(Safe(text)))) == Safe(text)
  {
    if !Nullish(text) {
      var s := ToJsString(text.value);
      TrimStartSpec(s);
      var i := |s| - |TrimStart(s)|;
      TrimEndSpec(TrimStart(s));
      var j := i + |Trim(s)|;
      assert TrimStart(s) == s[i..];
      assert Safe(text) == s[i..][..|Trim(s)|] == s[i..j];
      forall k | j <= k < |s|
        ensures IsJsWhitespace(s[k])
      {
        assert s[k] == TrimStart(s)[k - i];
      }
      assert IsWhitespaceCut(Safe(text), s);
      TrimResultIsTrimmed(s);
      if text.value.JStr? && IsTrimmed(text.value.s) {
        TrimOfTrimmed(text.value.s);
      }
    }
    TrimOfTrimmed(Safe(text));
  }

  /** `capitalizeFirst(str)`: `""` for a falsy value, otherwise `String(str)`
      with its first character upper-cased. */
  function CapitalizeFirst(str: Option<Json>): string {
    if !Truthy(str) then ""
    else
      var s := ToJsString(str.value);
      if s == "" then "" else [ToUpperAscii(s[0])] + s[1..]
  }

  /** Only the first character changes, the length is kept, and
      capitalizing a capitalized string changes nothing. */
  lemma CapitalizeFirstSpec(str: Option<Json>)
    ensures !Truthy(str) ==> CapitalizeFirst(str) == ""
    ensures Truthy(str) ==>
              var s := ToJsString(str.value);
              var r := CapitalizeFirst(str);
              && |r| == |s|
              && (s != "" ==> r[0] == ToUpperAscii(s[0]) && r[1..] == s[1..])
    ensures CapitalizeFirst(Some(JStr(CapitalizeFirst(str)))) == CapitalizeFirst(str)
  {
    var r := CapitalizeFirst(str);
    if r != "" {
      assert ToJsString(JStr(r)) == r;
      assert [ToUpperAscii(r[0])] + r[1..] == r;
    }
  }

  /* ---------------------------------------------------------------
     formatAbilityMod
     --------------------------------------------------------------- */

  /** `Math.floor((score - 10) / 2)` for an integer score. */
  function AbilityModifier(score: int): (m: int)
    ensures 2 * m <= score - 10 < 2 * m + 2
  {
    (score - 10) / 2
  }

  /** `formatAbilityMod(score)`: the modifier with a `+` in front of a
      non-negative one. */
  function FormatAbilityMod(score: int): string {
    var m := AbilityModifier(score);
    if m >= 0 then "+" + IntToString(m) else IntToString(m)
  }

  /** A sign character, `+` exactly for a non-negative modifier, then the
      decimal digits of the modifier's magnitude. */
  lemma FormatAbilityModSpec(score: int)
    ensures var r := FormatAbilityMod(score);
            var m := AbilityModifier(score);
            && |r| >= 2
            && (r[0] == '+' <==> m >= 0)
            && (r[0] == '-' <==> m < 0)
            && AllDigits(r[1..])
            && DigitsValue(r[1..]) == if m >= 0 then m else -m
  {
    var m := AbilityModifier(score);
    var n: nat := if m >= 0 then m else -m;
    NatToStringDigits(n);
    NatToStringRoundTrip(n);
    assert FormatAbilityMod(score)[1..] == NatToString(n);
  }

  lemma FormatAbilityModExamples()
    ensures FormatAbilityMod(10) == "+0" && FormatAbilityMod(11) == "+0"
    ensures FormatAbilityMod(9) == "-1" && FormatAbilityMod(8) == "-1"
    ensures FormatAbilityMod(20) == "+5" && FormatAbilityMod(1) == "-5"
  {
    assert AbilityModifier(10) == 0 && AbilityModifier(11) == 0;
    assert AbilityModifier(9) == -1 && AbilityModifier(8) == -1;
    assert AbilityModifier(20) == 5 && AbilityModifier(1) == -5;
  }

  /* ---------------------------------------------------------------
     ensureArrayField
     --------------------------------------------------------------- */

  /** `ensureArrayField(obj, key)`: a missing, falsy or non-array property
      becomes `[]`. */
  method EnsureArrayField(obj: JsObject, key: string)
    modifies obj
    ensures IsArray(Lookup(obj.fields, key))
    ensures IsArray(Lookup(old(obj.fields), key)) ==> obj.fields == old(obj.fields)
    ensures !IsArray(Lookup(old(obj.fields), key)) ==> obj.fields == Set(old(obj.fields), key, JArr([]))
    ensures forall k :: k != key ==> Lookup(obj.fields, k) == Lookup(old(obj.fields), k)
  {
    var v := Lookup(obj.fields, key);
    if !Truthy(v) || !IsArray(v) {
      ghost var before := obj.fields;
      obj.Put(key, JArr([]));
      SetLookup(before, key, JArr([]));
      forall k | k != key ensures Lookup(obj.fields, k) == Lookup(before, k) {
        SetOther(before, key, JArr([]), k);
      }
    }
  }

  /* ---------------------------------------------------------------
     FIELD_HELPERS.simple
     --------------------------------------------------------------- */

  /** What `Array.prototype.join` writes for each element: nothing for `null`. */
  function ElemStrings(es: seq<Json>): (r: seq<string>)
    ensures |r| == |es|
  {
    if es == [] then [] else [if es[0].JNull? then "" else ToJsString(es[0])] + ElemStrings(es[1..])
  }

  lemma {:induction false} ElemStringsAt(es: seq<Json>, i: nat)
    requires i < |es|
    ensures ElemStrings(es)[i] == if es[i].JNull? then "" else ToJsString(es[i])
  {
    if i > 0 {
      ElemStringsAt(es[1..], i - 1);
    }
  }

  /** `FIELD_HELPERS.simple(arr)`: `""` for a falsy value, an array's
      elements joined with `", "`, `String(arr)` for anything else. */
  function FieldSimple(arr: Option<Json>): string {
    if !Truthy(arr) then ""
    else if arr.value.JArr? then Join(ElemStrings(arr.value.elems), ", ")
    else ToJsString(arr.value)
  }

  /** A list of trimmed strings without commas can be read back from its
      rendering: split on `,` and trim each piece. */
  lemma FieldSimpleReadBack(names: seq<string>)
    requires |names| >= 1
    requires forall i :: 0 <= i < |names| ==> IsTrimmed(names[i]) && Free(names[i], ',')
    ensures var pieces := Split(FieldSimple(Some(JArr(seq(|names|, i requires 0 <= i < |names| => JStr(names[i]))))), ',');
            |pieces| == |names| && forall i :: 0 <= i < |names| ==> Trim(pieces[i]) == names[i]
  {
    var es := seq(|names|, i requires 0 <= i < |names| => JStr(names[i]));
    forall i | 0 <= i < |names| ensures ElemStrings(es)[i] == names[i] {
      ElemStringsAt(es, i);
    }
    assert ElemStrings(es) == names;
    SplitJoinSpaced(names, ',');
    SpacedTrim(names);
  }

  /* ---------------------------------------------------------------
     formatSource
     --------------------------------------------------------------- */

  /** `formatSource(source, page)`: `"—"` when both are falsy, the two
      joined with a space when both are truthy, otherwise the truthy one
      itself (not converted to a string). */
  function FormatSource(source: Option<Json>, page: Option<Json>): Json {
    if !Truthy(source) && !Truthy(page) then JStr("—")
    else if Truthy(source) && Truthy(page) then JStr(OptToString(source) + " " + OptToString(page))
    else if Truthy(source) then source.value
    else if Truthy(page) then page.value
    else JStr("—")
  }

  /** The result is always truthy, and it is built from the truthy arguments only. */
  lemma FormatSourceSpec(source: Option<Json>, page: Option<Json>)
    ensures IsTruthy(FormatSource(source, page))
    ensures !Truthy(source) && !Truthy(page) ==> FormatSource(source, page) == JStr("—")
    ensures Truthy(source) && !Truthy(page) ==> FormatSource(source, page) == source.value
    ensures !Truthy(source) && Truthy(page) ==> FormatSource(source, page) == page.value
    ensures Truthy(source) && Truthy(page) ==>
              FormatSource(source, page).JStr?
              && FormatSource(source, page).s[..|OptToString(source)|] == OptToString(source)
              && FormatSource(source, page).s[|OptToString(source)|..] == " " + OptToString(page)
  {
  }

  /* ---------------------------------------------------------------
     objectToKeyValueString / keyValueStringToObject
     --------------------------------------------------------------- */

  /** The `"k: v"` pieces of `Object.entries(obj)`. */
  function PairStrings(fs: Fields): (r: seq<string>)
    ensures |r| == |fs|
  {
    if fs == [] then [] else [fs[0].0 + ": " + ToJsString(fs[0].1)] + PairStrings(fs[1..])
  }

  lemma {:induction false} PairStringsAt(fs: Fields, i: nat)
    requires i < |fs|
    ensures PairStrings(fs)[i] == fs[i].0 + ": " + ToJsString(fs[i].1)
  {
    if i > 0 {
      PairStringsAt(fs[1..], i - 1);
    }
  }

  /** `objectToKeyValueString(obj)`: `""` unless `obj` is an array or a
      non-null object; otherwise its entries as `"k: v"`, joined with `"; "`. */
  function ObjectToKeyValueString(obj: Option<Json>): string {
    if !Truthy(obj) || TypeOf(obj) != "object" then ""
    else Join(PairStrings(OwnEntries(obj.value)), "; ")
  }

  /** One `;`-segment split on `:`: the trimmed first part, and the trimmed
      second part when there is one. Anything after a second `:` is dropped. */
  function SegmentPair(pair: string): (string, Option<string>) {
    var parts := Split(pair, ':');
    (Trim(parts[0]), if |parts| >= 2 then Some(Trim(parts[1])) else None)
  }

  /** `if (k && v != null) out[k] = v` on the properties of `out`. Assigning
      a string to `__proto__` goes to the prototype setter, which ignores
      anything that is not an object, so that key never appears. */
  function DecodeSegment(out: Fields, pair: string): Fields {
    var (k, v) := SegmentPair(pair);
    if k != "" && v.Some? && k != "__proto__" then Set(out, k, JStr(v.value)) else out
  }

  /** The properties after the callback has run on `segs`, in order. */
  function Decoded(segs: seq<string>): Fields
    decreases |segs|
  {
    if segs == [] then [] else DecodeSegment(Decoded(segs[..|segs| - 1]), segs[|segs| - 1])
  }

  /** What `keyValueStringToObject(str)` returns, as a property list. */
  function DecodeKeyValue(str: Option<Json>): Fields {
    if !Truthy(str) || !str.value.JStr? then [] else Decoded(Split(str.value.s, ';'))
  }

  /** `keyValueStringToObject(str)`: `out` starts empty and the `forEach`
      callback assigns one property per well-formed segment. */
  method KeyValueStringToObject(str: Option<Json>) returns (r: Json)
    ensures r == JObj(DecodeKeyValue(str))
  {
    var out: Fields := [];
    if !Truthy(str) || TypeOf(str) != "string" {
      return JObj(out);
    }
    var segs := Split(str.value.s, ';');
    var i := 0;
    while i < |segs|
      invariant 0 <= i <= |segs|
      invariant out == Decoded(segs[..i])
    {
      var (k, v) := SegmentPair(segs[i]);
      if k != "" && v.Some? {
        if k != "__proto__" {
          out := Set(out, k, JStr(v.value));
        }
      }
      assert segs[..i + 1][..i] == segs[..i];
      i := i + 1;
    }
    assert segs[..|segs|] == segs;
    return JObj(out);
  }

  /** The value the last well-formed segment with key `k` gave, if any: a
      later duplicate overwrites an earlier one. */
  function LastValue(segs: seq<string>, k: string): Option<Json>
    decreases |segs|
  {
    if segs == [] then None
    else
      var (key, v) := SegmentPair(segs[|segs| - 1]);
      if key == k && k != "" && v.Some? then Some(JStr(v.value)) else LastValue(segs[..|segs| - 1], k)
  }

  /** Every key reads the value of its last well-formed segment; `__proto__`
      is never an own property. */
  lemma {:induction false} DecodedLookup(segs: seq<string>, k: string)
    ensures Lookup(Decoded(segs), k) == if k == "__proto__" then None else LastValue(segs, k)
    decreases |segs|
  {
    if segs != [] {
      var prev := segs[..|segs| - 1];
      DecodedLookup(prev, k);
      var (key, v) := SegmentPair(segs[|segs| - 1]);
      if key != "" && v.Some? && key != "__proto__" {
        if k == key { SetLookup(Decoded(prev), key, JStr(v.value)); }
        else { SetOther(Decoded(prev), key, JStr(v.value), k); }
      }
    }
  }

  /** An entry of `Set(fs, key, v)` is the assigned one or an entry of `fs`. */
  lemma {:induction false} SetEntry(fs: Fields, key: string, v: Json, i: nat)
    requires i < |Set(fs, key, v)|
    ensures Set(fs, key, v)[i] == (key, v) || Set(fs, key, v)[i] in fs
  {
    if fs != [] && fs[0].0 != key && i > 0 {
      SetEntry(fs[1..], key, v, i - 1);
    }
  }

  /** A decoded property: a non-empty trimmed key other than `__proto__`,
      holding a trimmed string. */
  predicate IsDecodedEntry(e: (string, Json)) {
    e.0 != "" && e.0 != "__proto__" && IsTrimmed(e.0) && e.1.JStr? && IsTrimmed(e.1.s)
  }

  /** The decoded object has distinct keys, every one well-formed. */
  lemma {:induction false} DecodedShape(segs: seq<string>)
    ensures DistinctKeys(Decoded(segs))
    ensures forall i :: 0 <= i < |Decoded(segs)| ==> IsDecodedEntry(Decoded(segs)[i])
    decreases |segs|
  {
    if segs != [] {
      var prev := Decoded(segs[..|segs| - 1]);
      DecodedShape(segs[..|segs| - 1]);
      var pair := segs[|segs| - 1];
      var parts := Split(pair, ':');
      var (k, v) := SegmentPair(pair);
      if k != "" && v.Some? && k != "__proto__" {
        TrimResultIsTrimmed(parts[0]);
        TrimResultIsTrimmed(parts[1]);
        SetKeepsDistinct(prev, k, JStr(v.value));
        forall i | 0 <= i < |Decoded(segs)| ensures IsDecodedEntry(Decoded(segs)[i]) {
          SetEntry(prev, k, JStr(v.value), i);
        }
      }
    }
  }

  /** A segment without `:` sets nothing. */
  lemma SegmentWithoutColon(pair: string)
    requires Free(pair, ':')
    ensures SegmentPair(pair).1 == None
  {
    SplitFree(pair, ':');
  }

  /** Only the text up to a second `:` is read. */
  lemma SegmentExtraColonDropped(k: string, v: string, rest: string)
    requires Free(k, ':') && Free(v, ':')
    ensures SegmentPair(k + ":" + v + ":" + rest) == (Trim(k), Some(Trim(v)))
  {
    var tail := Split(rest, ':');
    SplitFreePrefix(v, ":" + rest, ':');
    assert (":" + rest)[1..] == rest;
    assert Split(":" + rest, ':') == [""] + tail;
    assert v + "" == v;
    var inner := Split(v + (":" + rest), ':');
    assert inner == [v] + tail;
    SplitFreePrefix(k, ":" + (v + (":" + rest)), ':');
    assert (":" + (v + (":" + rest)))[1..] == v + (":" + rest);
    assert Split(":" + (v + (":" + rest)), ':') == [""] + inner;
    assert k + "" == k;
    assert k + ":" + v + ":" + rest == k + (":" + (v + (":" + rest)));
  }

  /** A property the codec can carry: a non-empty trimmed key other than
      `__proto__` and a trimmed string value, neither holding `:` or `;`. */
  predicate Encodable(e: (string, Json)) {
    && e.0 != "" && e.0 != "__proto__" && IsTrimmed(e.0) && Free(e.0, ':') && Free(e.0, ';')
    && e.1.JStr? && IsTrimmed(e.1.s) && Free(e.1.s, ':') && Free(e.1.s, ';')
  }

  lemma FreeConcat(a: string, b: string, c: char)
    requires Free(a, c) && Free(b, c)
    ensures Free(a + b, c)
  {
    assert forall i :: 0 <= i < |a + b| ==> (a + b)[i] == if i < |a| then a[i] else b[i - |a|];
  }

  /** One encoded pair, with or without the space the `"; "` join leaves, decodes to itself. */
  lemma SegmentOfPair(e: (string, Json), pre: string)
    requires Encodable(e) && (pre == "" || pre == " ")
    ensures SegmentPair(pre + (e.0 + ": " + ToJsString(e.1))) == (e.0, Some(e.1.s))
  {
    var (k, v) := (e.0, e.1.s);
    assert Free(pre, ':') && Free(" ", ':');
    FreeConcat(pre, k, ':');
    FreeConcat(" ", v, ':');
    SplitJoin([pre + k, " " + v], ':');
    assert Join([pre + k, " " + v], [':']) == pre + (k + ": " + ToJsString(e.1));
    if pre == "" {
      assert pre + k == k;
      TrimOfTrimmed(k);
    } else {
      TrimAfterSpace(k);
    }
    TrimAfterSpace(v);
  }

  lemma {:induction false} DecodeSpacedPrefix(fs: Fields, n: nat)
    requires 1 <= |fs| && n <= |fs|
    requires DistinctKeys(fs) && forall i :: 0 <= i < |fs| ==> Encodable(fs[i])
    ensures Decoded(Spaced(PairStrings(fs))[..n]) == fs[..n]
    decreases n
  {
    var sp := Spaced(PairStrings(fs));
    if n > 0 {
      DecodeSpacedPrefix(fs, n - 1);
      assert sp[..n][..n - 1] == sp[..n - 1];
      var e := fs[n - 1];
      PairStringsAt(fs, n - 1);
      if n == 1 {
        assert sp[0] == "" + (e.0 + ": " + ToJsString(e.1));
        SegmentOfPair(e, "");
      } else {
        AddSpaceAt(PairStrings(fs)[1..], n - 2);
        assert sp[n - 1] == " " + (e.0 + ": " + ToJsString(e.1));
        SegmentOfPair(e, " ");
      }
      assert e.0 !in Keys(fs[..n - 1]);
      SetNew(fs[..n - 1], e.0, JStr(e.1.s));
      assert fs[..n - 1] + [e] == fs[..n];
    }
  }

  /** Decoding the encoding of an object gives the object back, when its
      keys are distinct and every property is one the codec can carry. */
  lemma KeyValueRoundTrip(fs: Fields)
    requires DistinctKeys(fs)
    requires forall i :: 0 <= i < |fs| ==> Encodable(fs[i])
    ensures DecodeKeyValue(Some(JStr(ObjectToKeyValueString(Some(JObj(fs)))))) == fs
  {
    var ps := PairStrings(fs);
    var str := ObjectToKeyValueString(Some(JObj(fs)));
    assert str == Join(ps, "; ");
    if fs != [] {
      forall i | 0 <= i < |ps| ensures Free(ps[i], ';') {
        PairStringsAt(fs, i);
        assert Free(": ", ';');
        FreeConcat(fs[i].0, ": ", ';');
        FreeConcat(fs[i].0 + ": ", fs[i].1.s, ';');
      }
      assert "; " == [';', ' '];
      SplitJoinSpaced(ps, ';');
      PairStringsAt(fs, 0);
      assert Spaced(ps)[0] == ps[0] && |ps[0]| > 0;
      assert str != "";
      DecodeSpacedPrefix(fs, |fs|);
      assert Spaced(ps)[..|fs|] == Spaced(ps) && fs[..|fs|] == fs;
    }
  }

  /* ---------------------------------------------------------------
     FIELD_HELPERS.sources
     --------------------------------------------------------------- */

  datatype HelperError =
    /** `s.page` read from a `null` entry: a TypeError. */
    | PageOfNull

  /** One entry: `${s.source}`, then `" p. "` and the page when it is truthy. */
  function SourceText(s: Json): Result<string, HelperError> {
    if s.JNull? then Err(PageOfNull)
    else
      var page := if Truthy(Get(s, "page")) then " p. " + ToJsString(Get(s, "page").value) else "";
      Ok(OptToString(Get(s, "source")) + page)
  }

  function SourceTexts(es: seq<Json>): Result<seq<string>, HelperError>
    decreases |es|
  {
    if es == [] then Ok([])
    else
      var t :- SourceText(es[0]);
      var rest :- SourceTexts(es[1..]);
      Ok([t] + rest)
  }

  /** `FIELD_HELPERS.sources(arr)`: `""` unless a non-empty array, then the
      entries' texts joined with `", "`. */
  function FieldSources(arr: Option<Json>): Result<string, HelperError> {
    if !IsNonEmptyArray(arr) then Ok("")
    else
      var parts :- SourceTexts(arr.value.elems);
      Ok(Join(parts, ", "))
  }

  /** The texts exist exactly when no entry is `null`, one per entry in order. */
  lemma {:induction false} SourceTextsSpec(es: seq<Json>)
    ensures SourceTexts(es).Ok? <==> forall i :: 0 <= i < |es| ==> !es[i].JNull?
    ensures SourceTexts(es).Err? ==> SourceTexts(es).error == PageOfNull
    ensures SourceTexts(es).Ok? ==>
              |SourceTexts(es).value| == |es|
              && forall i :: 0 <= i < |es| ==> SourceTexts(es).value[i] == SourceText(es[i]).value
    decreases |es|
  {
    if es != [] {
      SourceTextsSpec(es[1..]);
      assert forall i :: 1 <= i < |es| ==> es[i] == es[1..][i - 1];
    }
  }

  /** An entry's text starts with its `source`; it goes on with `" p. "`
      and the page exactly when the page is truthy. */
  lemma SourceTextSpec(s: Json)
    requires !s.JNull?
    ensures var t := SourceText(s).value;
            var src := OptToString(Get(s, "source"));
            && t[..|src|] == src
            && (Truthy(Get(s, "page")) ==> t[|src|..] == " p. " + ToJsString(Get(s, "page").value))
            && (!Truthy(Get(s, "page")) ==> t == src)
  {
  }

  /** The rendering of a non-empty list of entries without commas can be
      read back: split on `,` and trim each piece. */
  lemma FieldSourcesReadBack(arr: Option<Json>)
    requires IsNonEmptyArray(arr) && SourceTexts(arr.value.elems).Ok?
    requires forall i :: 0 <= i < |SourceTexts(arr.value.elems).value| ==>
               IsTrimmed(SourceTexts(arr.value.elems).value[i]) && Free(SourceTexts(arr.value.elems).value[i], ',')
    ensures FieldSources(arr).Ok?
    ensures var pieces := Split(FieldSources(arr).value, ',');
            var parts := SourceTexts(arr.value.elems).value;
            |pieces| == |parts| && forall i :: 0 <= i < |parts| ==> Trim(pieces[i]) == parts[i]
  {
    var parts := SourceTexts(arr.value.elems).value;
    SourceTextsSpec(arr.value.elems);
    SplitJoinSpaced(parts, ',');
    SpacedTrim(parts);
  }
}
