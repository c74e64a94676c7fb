/** `normalizeSpells` (norm/normalizeSpells.js): every legacy spell is
    shallow-copied and then completed step by step: defaults for missing
    fields, `desc` renamed to `spell_desc`, `sources` rebuilt entry by
    entry, and the two flags coerced to booleans. Every property the steps
    do not touch passes through. */
module Spells {
  import opened JsValue

  datatype SpellError =
    | DatasetNotArray
    /** `src.source` read from a `null` source entry: a TypeError. */
    | SourceOfNull

  /* ---------------------------------------------------------------
     Steps of the map callback, on the copy's properties
     --------------------------------------------------------------- */

  /** `if (!s.type) s.type = "spell"` */
  function DefaultType(fs: Fields): Fields {
    if !Truthy(Lookup(fs, "type")) then Set(fs, "type", JStr("spell")) else fs
  }

  /** `if (s.desc) { s.spell_desc = s.desc; delete s.desc; }` */
  function RenameDesc(fs: Fields): Fields {
    if Truthy(Lookup(fs, "desc")) then Delete(Set(fs, "spell_desc", Lookup(fs, "desc").value), "desc") else fs
  }

  /** `if (!s[key]) s[key] = ""` (`higher_level`, `material`) */
  function DefaultText(fs: Fields, key: string): Fields {
    if !Truthy(Lookup(fs, key)) then Set(fs, key, JStr("")) else fs
  }

  /** The source entry a spell without a `sources` array gets. */
  const UnknownSource: Json := JObj([("source", JStr("Unknown")), ("page", JStr(""))])

  /** `if (!Array.isArray(s.sources)) s.sources = [{ source: "Unknown", page: "" }]` */
  function DefaultSources(fs: Fields): (r: Fields)
    ensures IsArray(Lookup(r, "sources"))
  {
    if !IsArray(Lookup(fs, "sources")) then
      SetLookup(fs, "sources", JArr([UnknownSource]));
      Set(fs, "sources", JArr([UnknownSource]))
    else fs
  }

  /** `src => ({ source: src.source || "Unknown", page: typeof src.page === "string" ? src.page : "" })` */
  function RebuildSource(src: Json): Result<Json, SpellError> {
    if src.JNull? then Err(SourceOfNull)
    else
      var source := if Truthy(Get(src, "source")) then Get(src, "source").value else JStr("Unknown");
      var page := if Get(src, "page").Some? && Get(src, "page").value.JStr? then Get(src, "page").value else JStr("");
      Ok(JObj([("source", source), ("page", page)]))
  }

  /** `RebuildSource` as a `.map` callback, which ignores the position. */
  function RebuildSourceAt(src: Json, i: nat): Result<Json, SpellError> {
    RebuildSource(src)
  }

  /** A rebuilt entry is exactly a truthy `source` and a string `page`. */
  predicate IsSourceEntry(e: Json) {
    e.JObj? && |e.fields| == 2 && e.fields[0].0 == "source" && e.fields[1].0 == "page"
    && IsTruthy(e.fields[0].1) && e.fields[1].1.JStr?
  }

  /** Every non-null entry is rebuilt into the two-key shape, keeping a
      truthy `source` and a string `page` (`""` for any other page) and
      dropping every other key;
      a rebuilt entry is rebuilt into itself. */
  lemma RebuildSourceSpec(src: Json)
    ensures RebuildSource(src).Ok? <==> !src.JNull?
    ensures RebuildSource(src).Ok? ==>
              var e := RebuildSource(src).value;
              && IsSourceEntry(e)
              && (Truthy(Get(src, "source")) ==> Some(e.fields[0].1) == Get(src, "source"))
              && (!Truthy(Get(src, "source")) ==> e.fields[0].1 == JStr("Unknown"))
              && (Get(src, "page").Some? && Get(src, "page").value.JStr? ==> Some(e.fields[1].1) == Get(src, "page"))
              && (!(Get(src, "page").Some? && Get(src, "page").value.JStr?) ==> e.fields[1].1 == JStr(""))
              && RebuildSource(e) == Ok(e)
  {
    if !src.JNull? {
      SourceEntryFixed(RebuildSource(src).value);
    }
  }

  lemma SourceEntryFixed(e: Json)
    requires IsSourceEntry(e)
    ensures RebuildSource(e) == Ok(e)
  {
    assert Get(e, "source") == Some(e.fields[0].1);
    assert "source" != "page";
    assert Lookup(e.fields[1..], "page") == Some(e.fields[1].1);
    assert e.fields == [("source", e.fields[0].1), ("page", e.fields[1].1)];
  }

  /** `s.sources = s.sources.map(...)`, once `s.sources` is an array. */
  function RebuildSources(fs: Fields): Result<Fields, SpellError>
    requires IsArray(Lookup(fs, "sources"))
  {
    var rebuilt :- MapIndexed(RebuildSourceAt, Lookup(fs, "sources").value.elems, 0);
    Ok(Set(fs, "sources", JArr(rebuilt)))
  }

  /** `if (!Array.isArray(s[key])) s[key] = []` (`classes`, `components`) */
  function DefaultArray(fs: Fields, key: string): Fields {
    if !IsArray(Lookup(fs, key)) then Set(fs, key, JArr([])) else fs
  }

  /** `s[key] = !!s[key]` (`ritual`, `concentration`) */
  function ToBool(fs: Fields, key: string): Fields {
    Set(fs, key, JBool(Truthy(Lookup(fs, key))))
  }

  /** The steps before `sources` is rebuilt. */
  function Prepare(fs: Fields): (r: Fields)
    ensures IsArray(Lookup(r, "sources"))
  {
    DefaultSources(DefaultText(RenameDesc(DefaultType(fs)), "higher_level"))
  }

  /** The steps after `sources` is rebuilt. */
  function Finish(fs: Fields): Fields {
    ToBool(ToBool(DefaultText(DefaultArray(DefaultArray(fs, "classes"), "components"), "material"), "ritual"),
           "concentration")
  }

  /** All steps, on the copy's properties. */
  function NormalizeFields(fs: Fields): Result<Fields, SpellError> {
    var withSources :- RebuildSources(Prepare(fs));
    Ok(Finish(withSources))
  }

  /** What the map callback returns or throws for `spell`. */
  function NormalizeSpellSpec(spell: Json): Result<Json, SpellError> {
    var out :- NormalizeFields(ShallowCopy(Some(spell)));
    Ok(JObj(out))
  }

  /* The steps in place, on the copy. */

  method DefaultTypeIn(s: JsObject)
    modifies s
    ensures s.fields == DefaultType(old(s.fields))
  {
    if !Truthy(Lookup(s.fields, "type")) {
      s.Put("type", JStr("spell"));
    }
  }

  method RenameDescIn(s: JsObject)
    modifies s
    ensures s.fields == RenameDesc(old(s.fields))
  {
    var desc := Lookup(s.fields, "desc");
    if Truthy(desc) {
      s.Put("spell_desc", desc.value);
      s.Remove("desc");
    }
  }

  method DefaultTextIn(s: JsObject, key: string)
    modifies s
    ensures s.fields == DefaultText(old(s.fields), key)
  {
    if !Truthy(Lookup(s.fields, key)) {
      s.Put(key, JStr(""));
    }
  }

  method DefaultSourcesIn(s: JsObject)
    modifies s
    ensures s.fields == DefaultSources(old(s.fields))
  {
    if !IsArray(Lookup(s.fields, "sources")) {
      s.Put("sources", JArr([UnknownSource]));
    }
  }

  /** Returns the TypeError instead of assigning when an entry is `null`. */
  method RebuildSourcesIn(s: JsObject) returns (e: Option<SpellError>)
    requires IsArray(Lookup(s.fields, "sources"))
    modifies s
    ensures e.Some? <==> RebuildSources(old(s.fields)).Err?
    ensures e.Some? ==> e.value == RebuildSources(old(s.fields)).error
    ensures e.None? ==> s.fields == RebuildSources(old(s.fields)).value
  {
    var rebuilt := MapIndexed(RebuildSourceAt, Lookup(s.fields, "sources").value.elems, 0);
    if rebuilt.Err? {
      return Some(rebuilt.error);
    }
    s.Put("sources", JArr(rebuilt.value));
    return None;
  }

  method DefaultArrayIn(s: JsObject, key: string)
    modifies s
    ensures s.fields == DefaultArray(old(s.fields), key)
  {
    if !IsArray(Lookup(s.fields, key)) {
      s.Put(key, JArr([]));
    }
  }

  method ToBoolIn(s: JsObject, key: string)
    modifies s
    ensures s.fields == ToBool(old(s.fields), key)
  {
    s.Put(key, JBool(Truthy(Lookup(s.fields, key))));
  }

  /** The map callback, on a fresh shallow copy that it updates in place.
      It allocates the copy and changes nothing that existed before, so the
      input spell is left as it was. */
  method NormalizeSpell(spell: Json) returns (r: Result<Json, SpellError>)
    ensures r == NormalizeSpellSpec(spell)
  {
    var s := new JsObject.Copy(Some(spell));
    DefaultTypeIn(s);
    RenameDescIn(s);
    DefaultTextIn(s, "higher_level");
    DefaultSourcesIn(s);
    var e := RebuildSourcesIn(s);
    if e.Some? {
      return Err(e.value);
    }
    DefaultArrayIn(s, "classes");
    DefaultArrayIn(s, "components");
    DefaultTextIn(s, "material");
    ToBoolIn(s, "ritual");
    ToBoolIn(s, "concentration");
    return Ok(JObj(s.fields));
  }

  /* ---------------------------------------------------------------
     What each step does to one property
     --------------------------------------------------------------- */

  /** `o || d` as a property value. */
  function OrDefault(o: Option<Json>, d: Json): Option<Json> {
    if Truthy(o) then o else Some(d)
  }

  /** Array-valued: kept if it is an array, `[]` otherwise. */
  function ArrayOrEmpty(o: Option<Json>): Option<Json> {
    if IsArray(o) then o else Some(JArr([]))
  }

  lemma SetLookupAt(fs: Fields, key: string, v: Json, k: string)
    ensures Lookup(Set(fs, key, v), k) == if k == key then Some(v) else Lookup(fs, k)
  {
    if k == key { SetLookup(fs, key, v); } else { SetOther(fs, key, v, k); }
  }

  lemma DefaultTypeAt(fs: Fields, k: string)
    ensures Lookup(DefaultType(fs), k) ==
              if k == "type" then OrDefault(Lookup(fs, "type"), JStr("spell")) else Lookup(fs, k)
  {
    SetLookupAt(fs, "type", JStr("spell"), k);
  }

  lemma RenameDescAt(fs: Fields, k: string)
    ensures Lookup(RenameDesc(fs), k) ==
              if k == "desc" then (if Truthy(Lookup(fs, "desc")) then None else Lookup(fs, "desc"))
              else if k == "spell_desc" && Truthy(Lookup(fs, "desc")) then Lookup(fs, "desc")
              else Lookup(fs, k)
  {
    var desc := Lookup(fs, "desc");
    if Truthy(desc) && k != "desc" {
      DeleteOther(Set(fs, "spell_desc", desc.value), "desc", k);
      SetLookupAt(fs, "spell_desc", desc.value, k);
    }
  }

  lemma DefaultTextAt(fs: Fields, key: string, k: string)
    ensures Lookup(DefaultText(fs, key), k) == if k == key then OrDefault(Lookup(fs, key), JStr("")) else Lookup(fs, k)
  {
    SetLookupAt(fs, key, JStr(""), k);
  }

  lemma DefaultSourcesAt(fs: Fields, k: string)
    ensures Lookup(DefaultSources(fs), k) ==
              if k == "sources" && !IsArray(Lookup(fs, "sources")) then Some(JArr([UnknownSource])) else Lookup(fs, k)
  {
    SetLookupAt(fs, "sources", JArr([UnknownSource]), k);
  }

  lemma DefaultArrayAt(fs: Fields, key: string, k: string)
    ensures Lookup(DefaultArray(fs, key), k) == if k == key then ArrayOrEmpty(Lookup(fs, key)) else Lookup(fs, k)
  {
    SetLookupAt(fs, key, JArr([]), k);
  }

  lemma ToBoolAt(fs: Fields, key: string, k: string)
    ensures Lookup(ToBool(fs, key), k) == if k == key then Some(JBool(Truthy(Lookup(fs, key)))) else Lookup(fs, k)
  {
    SetLookupAt(fs, key, JBool(Truthy(Lookup(fs, key))), k);
  }

  /** The entries `sources` holds once defaulted. */
  function SourceList(fs: Fields): seq<Json> {
    if IsArray(Lookup(fs, "sources")) then Lookup(fs, "sources").value.elems else [UnknownSource]
  }

  /** What property `k` reads after the early steps, which touch `type`,
      `desc`, `spell_desc`, `higher_level` and `sources` only. */
  function PreparedValue(fs: Fields, k: string): Option<Json> {
    if k == "type" then OrDefault(Lookup(fs, "type"), JStr("spell"))
    else if k == "desc" then (if Truthy(Lookup(fs, "desc")) then None else Lookup(fs, "desc"))
    else if k == "spell_desc" then (if Truthy(Lookup(fs, "desc")) then Lookup(fs, "desc") else Lookup(fs, "spell_desc"))
    else if k == "higher_level" then OrDefault(Lookup(fs, "higher_level"), JStr(""))
    else if k == "sources" then Some(JArr(SourceList(fs)))
    else Lookup(fs, k)
  }

  lemma PrepareAt(fs: Fields, k: string)
    ensures Lookup(Prepare(fs), k) == PreparedValue(fs, k)
  {
    var f1 := DefaultType(fs);
    var f2 := RenameDesc(f1);
    var f3 := DefaultText(f2, "higher_level");
    DefaultTypeAt(fs, k);
    DefaultTypeAt(fs, "desc");
    DefaultTypeAt(fs, "higher_level");
    DefaultTypeAt(fs, "sources");
    RenameDescAt(f1, k);
    RenameDescAt(f1, "higher_level");
    RenameDescAt(f1, "sources");
    DefaultTextAt(f2, "higher_level", k);
    DefaultTextAt(f2, "higher_level", "sources");
    DefaultSourcesAt(f3, k);
  }

  /** What property `k` reads after the late steps, which touch `classes`,
      `components`, `material`, `ritual` and `concentration` only. */
  function FinishedValue(fs: Fields, k: string): Option<Json> {
    if k == "classes" || k == "components" then ArrayOrEmpty(Lookup(fs, k))
    else if k == "material" then OrDefault(Lookup(fs, "material"), JStr(""))
    else if k == "ritual" || k == "concentration" then Some(JBool(Truthy(Lookup(fs, k))))
    else Lookup(fs, k)
  }

  lemma FinishAt(fs: Fields, k: string)
    ensures Lookup(Finish(fs), k) == FinishedValue(fs, k)
  {
    var f1 := DefaultArray(fs, "classes");
    var f2 := DefaultArray(f1, "components");
    var f3 := DefaultText(f2, "material");
    var f4 := ToBool(f3, "ritual");
    DefaultArrayAt(fs, "classes", k);
    DefaultArrayAt(fs, "classes", "components");
    DefaultArrayAt(fs, "classes", "material");
    DefaultArrayAt(fs, "classes", "ritual");
    DefaultArrayAt(fs, "classes", "concentration");
    DefaultArrayAt(f1, "components", k);
    DefaultArrayAt(f1, "components", "material");
    DefaultArrayAt(f1, "components", "ritual");
    DefaultArrayAt(f1, "components", "concentration");
    DefaultTextAt(f2, "material", k);
    DefaultTextAt(f2, "material", "ritual");
    DefaultTextAt(f2, "material", "concentration");
    ToBoolAt(f3, "ritual", k);
    ToBoolAt(f3, "ritual", "concentration");
    ToBoolAt(f4, "concentration", k);
  }

  /** The rebuilt entries, once `sources` is an array. */
  function Rebuilt(fs: Fields): Result<seq<Json>, SpellError> {
    MapIndexed(RebuildSourceAt, SourceList(fs), 0)
  }

  lemma RebuildSourcesAt(fs: Fields, k: string)
    requires IsArray(Lookup(fs, "sources")) && RebuildSources(fs).Ok?
    ensures Rebuilt(fs).Ok?
    ensures Lookup(RebuildSources(fs).value, k) == if k == "sources" then Some(JArr(Rebuilt(fs).value)) else Lookup(fs, k)
  {
    SetLookupAt(fs, "sources", JArr(Rebuilt(fs).value), k);
  }

  /* ---------------------------------------------------------------
     What the map callback promises
     --------------------------------------------------------------- */

  /** The position of the first `null` among `xs[..i+1]`, when `xs[i]` is one. */
  function FirstNull(xs: seq<Json>, i: nat): (j: nat)
    requires i < |xs| && xs[i].JNull?
    ensures j <= i && xs[j].JNull? && forall m :: 0 <= m < j ==> !xs[m].JNull?
  {
    if exists m :: 0 <= m < i && xs[m].JNull? then
      var m :| 0 <= m < i && xs[m].JNull?;
      FirstNull(xs, m)
    else i
  }

  /** Normalizing succeeds exactly when no source entry is `null`, and the
      only error is that TypeError. */
  lemma NormalizeFieldsOk(fs: Fields)
    ensures NormalizeFields(fs).Ok? <==> forall i :: 0 <= i < |SourceList(fs)| ==> !SourceList(fs)[i].JNull?
    ensures NormalizeFields(fs).Err? ==> NormalizeFields(fs).error == SourceOfNull
  {
    var src := SourceList(fs);
    PrepareAt(fs, "sources");
    assert Lookup(Prepare(fs), "sources").value.elems == src;
    MapIndexedOkFromZero(RebuildSourceAt, src);
    forall i | 0 <= i < |src| ensures RebuildSource(src[i]).Ok? <==> !src[i].JNull? {
      RebuildSourceSpec(src[i]);
    }
    if NormalizeFields(fs).Err? {
      var i :| 0 <= i < |src| && RebuildSourceAt(src[i], i).Err?;
      var j := FirstNull(src, i);
      MapIndexedFirstErrorFromZero(RebuildSourceAt, src, j);
    }
  }

  lemma NormalizeSpellOk(spell: Json)
    ensures var src := SourceList(ShallowCopy(Some(spell)));
            NormalizeSpellSpec(spell).Ok? <==> forall i :: 0 <= i < |src| ==> !src[i].JNull?
    ensures NormalizeSpellSpec(spell).Err? ==> NormalizeSpellSpec(spell).error == SourceOfNull
  {
    NormalizeFieldsOk(ShallowCopy(Some(spell)));
  }

  /** The properties some step writes or deletes. */
  const HandledKeys: seq<string> :=
    ["type", "desc", "spell_desc", "higher_level", "sources", "classes", "components", "material",
     "ritual", "concentration"]

  /** Property `k` after all steps. */
  lemma NormalizedAt(fs: Fields, k: string)
    requires NormalizeFields(fs).Ok?
    ensures Rebuilt(fs).Ok?
    ensures Lookup(NormalizeFields(fs).value, k) ==
              if k == "sources" then Some(JArr(Rebuilt(fs).value)) else FinishedValue(Prepare(fs), k)
  {
    var p := Prepare(fs);
    var w := RebuildSources(p).value;
    PrepareAt(fs, "sources");
    assert SourceList(p) == SourceList(fs);
    FinishAt(w, k);
    RebuildSourcesAt(p, k);
    if k != "sources" {
      RebuildSourcesAt(p, "classes");
      RebuildSourcesAt(p, "components");
      RebuildSourcesAt(p, "material");
      RebuildSourcesAt(p, "ritual");
      RebuildSourcesAt(p, "concentration");
    }
  }

  /** A property only the early steps touch reads what they leave. */
  lemma NormalizedEarly(fs: Fields, k: string)
    requires NormalizeFields(fs).Ok?
    requires k !in ["sources", "classes", "components", "material", "ritual", "concentration"]
    ensures Lookup(NormalizeFields(fs).value, k) == PreparedValue(fs, k)
  {
    NormalizedAt(fs, k);
    PrepareAt(fs, k);
  }

  /** The text properties: `type` defaults to `"spell"`, a truthy `desc`
      moves to `spell_desc`, `higher_level` defaults to `""`. */
  lemma SpellTextFields(fs: Fields)
    requires NormalizeFields(fs).Ok?
    ensures var out := NormalizeFields(fs).value;
            && Lookup(out, "type") == OrDefault(Lookup(fs, "type"), JStr("spell"))
            && Lookup(out, "desc") == (if Truthy(Lookup(fs, "desc")) then None else Lookup(fs, "desc"))
            && Lookup(out, "spell_desc") ==
                 (if Truthy(Lookup(fs, "desc")) then Lookup(fs, "desc") else Lookup(fs, "spell_desc"))
            && Lookup(out, "higher_level") == OrDefault(Lookup(fs, "higher_level"), JStr(""))
  {
    var out := NormalizeFields(fs).value;
    assert Lookup(out, "type") == OrDefault(Lookup(fs, "type"), JStr("spell")) by {
      NormalizedEarly(fs, "type");
    }
    assert Lookup(out, "desc") == (if Truthy(Lookup(fs, "desc")) then None else Lookup(fs, "desc")) by {
      NormalizedEarly(fs, "desc");
    }
    assert Lookup(out, "spell_desc") ==
             (if Truthy(Lookup(fs, "desc")) then Lookup(fs, "desc") else Lookup(fs, "spell_desc")) by {
      NormalizedEarly(fs, "spell_desc");
    }
    assert Lookup(out, "higher_level") == OrDefault(Lookup(fs, "higher_level"), JStr("")) by {
      NormalizedEarly(fs, "higher_level");
    }
  }

  /** The late properties: array defaults, `material` defaults to `""`, and
      the two flags become booleans of the values' truthiness. */
  lemma SpellLateFields(fs: Fields)
    requires NormalizeFields(fs).Ok?
    ensures var out := NormalizeFields(fs).value;
            && Lookup(out, "classes") == ArrayOrEmpty(Lookup(fs, "classes"))
            && Lookup(out, "components") == ArrayOrEmpty(Lookup(fs, "components"))
            && Lookup(out, "material") == OrDefault(Lookup(fs, "material"), JStr(""))
            && Lookup(out, "ritual") == Some(JBool(Truthy(Lookup(fs, "ritual"))))
            && Lookup(out, "concentration") == Some(JBool(Truthy(Lookup(fs, "concentration"))))
  {
    NormalizedAt(fs, "classes");
    NormalizedAt(fs, "components");
    NormalizedAt(fs, "material");
    NormalizedAt(fs, "ritual");
    NormalizedAt(fs, "concentration");
    PrepareAt(fs, "classes");
    PrepareAt(fs, "components");
    PrepareAt(fs, "material");
    PrepareAt(fs, "ritual");
    PrepareAt(fs, "concentration");
  }

  /** Every property no step handles passes through unchanged. */
  lemma SpellOtherFields(fs: Fields, k: string)
    requires NormalizeFields(fs).Ok?
    requires k !in HandledKeys
    ensures Lookup(NormalizeFields(fs).value, k) == Lookup(fs, k)
  {
    NormalizedAt(fs, k);
    PrepareAt(fs, k);
  }

  /** `sources` holds one rebuilt entry per defaulted entry, in order. */
  lemma SpellSources(fs: Fields)
    requires NormalizeFields(fs).Ok?
    ensures var out := NormalizeFields(fs).value;
            && IsArray(Lookup(out, "sources"))
            && |Lookup(out, "sources").value.elems| == |SourceList(fs)|
            && forall i :: 0 <= i < |SourceList(fs)| ==>
                 RebuildSource(SourceList(fs)[i]).Ok?
                 && Lookup(out, "sources").value.elems[i] == RebuildSource(SourceList(fs)[i]).value
  {
    NormalizedAt(fs, "sources");
    MapIndexedOkFromZero(RebuildSourceAt, SourceList(fs));
  }

  lemma DefaultTextFixed(fs: Fields, key: string)
    requires Lookup(fs, key) == OrDefault(Lookup(fs, key), JStr(""))
    ensures DefaultText(fs, key) == fs
  {
    if !Truthy(Lookup(fs, key)) {
      SetSame(fs, key, JStr(""));
    }
  }

  lemma ToBoolFixed(fs: Fields, key: string)
    requires Lookup(fs, key).Some? && Lookup(fs, key).value.JBool?
    ensures ToBool(fs, key) == fs
  {
    SetSame(fs, key, Lookup(fs, key).value);
  }

  /** The rebuilt entries are rebuilt into themselves. */
  lemma RebuildSourcesFixed(fs: Fields)
    requires IsArray(Lookup(fs, "sources"))
    requires forall i :: 0 <= i < |Lookup(fs, "sources").value.elems| ==>
               IsSourceEntry(Lookup(fs, "sources").value.elems[i])
    ensures RebuildSources(fs) == Ok(fs)
  {
    var xs := Lookup(fs, "sources").value.elems;
    forall i | 0 <= i < |xs| ensures RebuildSourceAt(xs[i], i) == Ok(xs[i]) {
      SourceEntryFixed(xs[i]);
    }
    MapIndexedOkFromZero(RebuildSourceAt, xs);
    assert MapIndexed(RebuildSourceAt, xs, 0).value == xs;
    SetSame(fs, "sources", JArr(xs));
  }

  /** Normalizing a normalized spell's properties changes nothing. */
  lemma {:induction false} NormalizeFieldsIdempotent(fs: Fields)
    requires NormalizeFields(fs).Ok?
    ensures NormalizeFields(NormalizeFields(fs).value) == NormalizeFields(fs)
  {
    var out := NormalizeFields(fs).value;
    SpellTextFields(fs);
    SpellLateFields(fs);
    SpellSources(fs);
    assert DefaultType(out) == out;
    assert RenameDesc(out) == out;
    DefaultTextFixed(out, "higher_level");
    assert Prepare(out) == out;
    forall i | 0 <= i < |Lookup(out, "sources").value.elems|
      ensures IsSourceEntry(Lookup(out, "sources").value.elems[i]) {
      RebuildSourceSpec(SourceList(fs)[i]);
    }
    RebuildSourcesFixed(out);
    DefaultTextFixed(out, "material");
    ToBoolFixed(out, "ritual");
    ToBoolFixed(out, "concentration");
  }

  lemma NormalizeSpellIdempotent(spell: Json)
    requires NormalizeSpellSpec(spell).Ok?
    ensures NormalizeSpellSpec(NormalizeSpellSpec(spell).value) == NormalizeSpellSpec(spell)
  {
    NormalizeFieldsIdempotent(ShallowCopy(Some(spell)));
  }

  /* ---------------------------------------------------------------
     The dataset
     --------------------------------------------------------------- */

  /** `normalizeSpells` as a `.map` callback, which ignores the position. */
  function NormalizeSpellAt(spell: Json, i: nat): Result<Json, SpellError> {
    NormalizeSpellSpec(spell)
  }

  /** `normalizeSpells(legacySpells)` */
  function NormalizeSpells(spells: Option<Json>): Result<seq<Json>, SpellError> {
    if !IsArray(spells) then Err(DatasetNotArray)
    else MapIndexed(NormalizeSpellAt, spells.value.elems, 0)
  }

  /** The dataset must be an array; then every spell is normalized in order,
      and the first spell with a `null` source entry aborts the whole map. */
  lemma NormalizeSpellsSpec(spells: Option<Json>)
    ensures NormalizeSpells(spells).Ok? <==>
              IsArray(spells) && forall i :: 0 <= i < |spells.value.elems| ==> NormalizeSpellSpec(spells.value.elems[i]).Ok?
    ensures NormalizeSpells(spells).Ok? ==>
              |NormalizeSpells(spells).value| == |spells.value.elems|
              && forall i :: 0 <= i < |spells.value.elems| ==>
                   NormalizeSpells(spells).value[i] == NormalizeSpellSpec(spells.value.elems[i]).value
    ensures NormalizeSpells(spells).Err? ==>
              NormalizeSpells(spells).error == if IsArray(spells) then SourceOfNull else DatasetNotArray
  {
    if IsArray(spells) {
      var xs := spells.value.elems;
      MapIndexedOkFromZero(NormalizeSpellAt, xs);
      if NormalizeSpells(spells).Err? {
        var i :| 0 <= i < |xs| && NormalizeSpellAt(xs[i], i).Err?;
        NormalizeSpellOk(xs[i]);
        var j := FirstFailing(xs, i);
        MapIndexedFirstErrorFromZero(NormalizeSpellAt, xs, j);
        NormalizeSpellOk(xs[j]);
      }
    }
  }

  /** The position of the first spell that fails among `xs[..i+1]`. */
  function FirstFailing(xs: seq<Json>, i: nat): (j: nat)
    requires i < |xs| && NormalizeSpellSpec(xs[i]).Err?
    ensures j <= i && NormalizeSpellAt(xs[j], j).Err?
    ensures forall m :: 0 <= m < j ==> NormalizeSpellAt(xs[m], m).Ok?
  {
    if exists m :: 0 <= m < i && NormalizeSpellSpec(xs[m]).Err? then
      var m :| 0 <= m < i && NormalizeSpellSpec(xs[m]).Err?;
      FirstFailing(xs, m)
    else i
  }

  /** Normalizing the normalized dataset gives it back. */
  lemma NormalizeSpellsIdempotent(spells: Option<Json>)
    requires NormalizeSpells(spells).Ok?
    ensures NormalizeSpells(Some(JArr(NormalizeSpells(spells).value))) == NormalizeSpells(spells)
  {
    var out := NormalizeSpells(spells).value;
    NormalizeSpellsSpec(spells);
    forall i | 0 <= i < |out| ensures NormalizeSpellAt(out[i], i) == Ok(out[i]) {
      NormalizeSpellIdempotent(spells.value.elems[i]);
    }
    MapIndexedOkFromZero(NormalizeSpellAt, out);
    assert MapIndexed(NormalizeSpellAt, out, 0).value == out;
  }
}
