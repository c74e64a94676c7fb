/** `normalizeMagicItems` (norm/normalizeMagicItems.js): every legacy magic
    item is coerced field by field into the canonical magic-item record. The
    first item that fails aborts the whole dataset.

    The md5 digest the synthetic ids use is a parameter: any function from
    strings to 32 lower-case hexadecimal digits. */
module MagicItems {
  import opened Text
  import opened JsValue

  predicate IsLowerHex(c: char) {
    '0' <= c <= '9' || 'a' <= c <= 'f'
  }

  /** `digest("hex")` of an md5 hash: 32 lower-case hexadecimal digits. */
  type Md5Hex = s: string | |s| == 32 && forall i :: 0 <= i < |s| ==> IsLowerHex(s[i])
    witness "00000000000000000000000000000000"

  datatype ItemError =
    | DatasetNotArray
    | InvalidItem(index: nat)
    | NotAnArray(field: string)
    | MissingField(field: string)
    | MissingSources(name: string)
    | MissingItemDesc(name: string)
    /** `sources[0].source` read from a `null` first source: a TypeError. */
    | SourceOfNull

  /* ---------------------------------------------------------------
     Coercion helpers
     --------------------------------------------------------------- */

  /** `ensureArray(value, fieldName)` */
  function EnsureArray(value: Option<Json>, field: string): Result<seq<Json>, ItemError> {
    if Nullish(value) then Ok([])
    else if !value.value.JArr? then Err(NotAnArray(field))
    else Ok(value.value.elems)
  }

  /** `null` and `undefined` read as the empty array, an array as its
      elements, and anything else is refused naming the field. */
  lemma EnsureArraySpec(value: Option<Json>, field: string)
    ensures EnsureArray(value, field).Ok? <==> Nullish(value) || IsArray(value)
    ensures EnsureArray(value, field).Ok? ==>
              if IsArray(value) then EnsureArray(value, field).value == value.value.elems
              else EnsureArray(value, field).value == []
    ensures EnsureArray(value, field).Err? ==> EnsureArray(value, field).error == NotAnArray(field)
  {
  }

  /** The values `ensureString` treats as missing. */
  predicate IsBlankInput(value: Option<Json>) {
    Nullish(value) || value.value == JStr("")
  }

  /** `ensureString(value, fieldName, required)`: `undefined` (`None`) for
      a missing optional value, `String(value)` otherwise. */
  function EnsureString(value: Option<Json>, field: string, required: bool): (r: Result<Option<string>, ItemError>)
    ensures required && r.Ok? ==> r.value.Some?
  {
    if IsBlankInput(value) then
      if required then Err(MissingField(field)) else Ok(None)
    else Ok(Some(ToJsString(value.value)))
  }

  /** A missing value is refused exactly when it is required; any other
      value is its `String` conversion, so a string comes back unchanged. */
  lemma EnsureStringSpec(value: Option<Json>, field: string, required: bool)
    ensures EnsureString(value, field, required).Err? <==> required && IsBlankInput(value)
    ensures EnsureString(value, field, required).Err? ==> EnsureString(value, field, required).error == MissingField(field)
    ensures EnsureString(value, field, required) == Ok(None) <==> !required && IsBlankInput(value)
    ensures !IsBlankInput(value) ==> EnsureString(value, field, required) == Ok(Some(ToJsString(value.value)))
    ensures !IsBlankInput(value) && value.value.JStr? ==>
              EnsureString(value, field, required) == Ok(Some(value.value.s)) && value.value.s != ""
  {
  }

  /** `ensureBoolean(value, defaultValue)` */
  function EnsureBoolean(value: Option<Json>, default: bool): bool {
    if Nullish(value) then default else IsTruthy(value.value)
  }

  /** `null` and `undefined` give the default, any other value its
      truthiness; a boolean is kept, so coercing twice is coercing once. */
  lemma EnsureBooleanSpec(value: Option<Json>, default: bool, other: bool)
    ensures Nullish(value) ==> EnsureBoolean(value, default) == default
    ensures !Nullish(value) ==> EnsureBoolean(value, default) == Truthy(value)
    ensures EnsureBoolean(Some(JBool(EnsureBoolean(value, default))), other) == EnsureBoolean(value, default)
  {
  }

  /* ---------------------------------------------------------------
     Synthetic ids
     --------------------------------------------------------------- */

  /** The `source` text `generateId` uses: the `${}` rendering of the first
      source's `source` property, or `"UNKNOWN"` without sources. */
  function FirstSource(item: Json): Result<string, ItemError> {
    var sources := Get(item, "sources");
    if IsArray(sources) && |sources.value.elems| > 0 then
      var first := sources.value.elems[0];
      if first.JNull? then Err(SourceOfNull) else Ok(OptToString(Get(first, "source")))
    else Ok("UNKNOWN")
  }

  /** `generateId(item)`: `mi-<source>-<first 8 hex digits of md5("<name>-<source>")>`. */
  function GenerateId(item: Json, md5: string -> Md5Hex): Result<string, ItemError> {
    var source :- FirstSource(item);
    var hash := md5(OptToString(Get(item, "name")) + "-" + source)[..8];
    Ok("mi-" + source + "-" + hash)
  }

  /** A synthetic id is `mi-`, the source, `-` and eight hexadecimal digits
      of the digest of the name and the source. */
  lemma GenerateIdShape(item: Json, md5: string -> Md5Hex)
    requires GenerateId(item, md5).Ok?
    ensures FirstSource(item).Ok?
    ensures var id, source := GenerateId(item, md5).value, FirstSource(item).value;
            && |id| == |source| + 12
            && id[..3] == "mi-" && id[3..|source| + 3] == source && id[|source| + 3] == '-'
            && id[|source| + 4..] == md5(OptToString(Get(item, "name")) + "-" + source)[..8]
            && forall i :: |source| + 4 <= i < |id| ==> IsLowerHex(id[i])
  {
    var source := FirstSource(item).value;
    var digest := md5(OptToString(Get(item, "name")) + "-" + source);
    var id := GenerateId(item, md5).value;
    assert id == "mi-" + source + "-" + digest[..8];
    forall i | |source| + 4 <= i < |id|
      ensures IsLowerHex(id[i])
    {
      assert id[i] == digest[i - |source| - 4];
    }
  }

  /** The id is a function of the name and the first source only, and it
      gives the first source back: two synthetic ids that are equal come
      from the same source text. */
  lemma GenerateIdSource(a: Json, b: Json, md5: string -> Md5Hex)
    requires GenerateId(a, md5).Ok? && GenerateId(b, md5).Ok?
    ensures Get(a, "name") == Get(b, "name") && FirstSource(a) == FirstSource(b) ==>
              GenerateId(a, md5) == GenerateId(b, md5)
    ensures GenerateId(a, md5) == GenerateId(b, md5) ==> FirstSource(a) == FirstSource(b)
  {
    GenerateIdShape(a, md5);
    GenerateIdShape(b, md5);
  }

  /* ---------------------------------------------------------------
     One item
     --------------------------------------------------------------- */

  /** The values an item's checks produce, before the record is built. */
  datatype ItemParts = ItemParts(
    id: string, name: string, sources: seq<Json>, category: string, rarity: string,
    itemDesc: seq<Json>, itemType: Option<string>, attunement: bool,
    restrictions: seq<Json>, properties: seq<Json>, bonus: Option<string>, lastUpdated: Option<string>)

  /** The checks of the map callback, in the source's order: the first one
      that throws decides the error. */
  function CheckItem(item: Json, index: nat, md5: string -> Md5Hex): Result<ItemParts, ItemError> {
    if !IsObjectLike(Some(item)) then Err(InvalidItem(index))
    else
      var name :- EnsureString(Get(item, "name"), "name", true);
      var sources :- EnsureArray(Get(item, "sources"), "sources");
      if |sources| == 0 then Err(MissingSources(name.value))
      else
        var given :- EnsureString(Get(item, "id"), "id", false);
        var id :- if given.Some? && given.value != "" then Ok(given.value) else GenerateId(item, md5);
        var category :- EnsureString(Get(item, "magic_item_category"), "magic_item_category", true);
        var rarity :- EnsureString(Get(item, "rarity"), "rarity", true);
        var itemDesc :- EnsureArray(Coalesce(Get(item, "item_desc"), Get(item, "desc")), "item_desc");
        if |itemDesc| == 0 then Err(MissingItemDesc(name.value))
        else
          var itemType :- EnsureString(Coalesce(Get(item, "magic_item_type"), Get(item, "item_type")), "magic_item_type", false);
          var attunement := EnsureBoolean(Get(item, "attunement"), false);
          var restrictions :- EnsureArray(Get(item, "attunement_restrictions"), "attunement_restrictions");
          var properties :- EnsureArray(Get(item, "properties"), "properties");
          var bonus :- EnsureString(Get(item, "bonus"), "bonus", false);
          var lastUpdated :- EnsureString(Get(item, "last_updated"), "last_updated", false);
          Ok(ItemParts(id, name.value, sources, category.value, rarity.value, itemDesc,
                       itemType, attunement, restrictions, properties, bonus, lastUpdated))
  }

  /** The keys of the object literal, in order, and the keys added after it when their values are truthy or non-empty. */
  const BaseKeys: seq<string> := ["id", "name", "sources", "magic_item_category", "rarity", "item_desc"]
  const OptionalKeys: seq<string> :=
    ["magic_item_type", "attunement", "attunement_restrictions", "properties", "bonus", "last_updated"]

  /** `if (s) normalized[key] = s` for a string that may be `undefined`. */
  function TextSlot(o: Option<string>): Option<Json> {
    if o.Some? && o.value != "" then Some(JStr(o.value)) else None
  }

  /** `if (xs.length > 0) normalized[key] = xs` */
  function ListSlot(xs: seq<Json>): Option<Json> {
    if |xs| > 0 then Some(JArr(xs)) else None
  }

  function BaseSlots(p: ItemParts): seq<Option<Json>> {
    [Some(JStr(p.id)), Some(JStr(p.name)), Some(JArr(p.sources)), Some(JStr(p.category)),
     Some(JStr(p.rarity)), Some(JArr(p.itemDesc))]
  }

  function OptionalSlots(p: ItemParts): seq<Option<Json>> {
    [TextSlot(p.itemType), if p.attunement then Some(JBool(true)) else None,
     ListSlot(p.restrictions), ListSlot(p.properties), TextSlot(p.bonus), TextSlot(p.lastUpdated)]
  }

  /** The properties of the record: the literal, then the optional assignments. */
  function ItemFields(p: ItemParts): Fields {
    AssignFrom(AssignFrom([], BaseKeys, BaseSlots(p)), OptionalKeys, OptionalSlots(p))
  }

  /** What the map callback returns or throws for `item` at `index`. */
  function NormalizeItemSpec(item: Json, index: nat, md5: string -> Md5Hex): Result<Json, ItemError> {
    var p :- CheckItem(item, index, md5);
    Ok(JObj(ItemFields(p)))
  }

  lemma BaseUnroll(p: ItemParts)
    ensures AssignFrom([], BaseKeys, BaseSlots(p))
         == SetSlot(SetSlot(SetSlot(SetSlot(SetSlot(SetSlot([],
              "id", Some(JStr(p.id))), "name", Some(JStr(p.name))), "sources", Some(JArr(p.sources))),
              "magic_item_category", Some(JStr(p.category))), "rarity", Some(JStr(p.rarity))),
              "item_desc", Some(JArr(p.itemDesc)))
  {
    AssignFrom6([], "id", "name", "sources", "magic_item_category", "rarity", "item_desc",
                Some(JStr(p.id)), Some(JStr(p.name)), Some(JArr(p.sources)), Some(JStr(p.category)),
                Some(JStr(p.rarity)), Some(JArr(p.itemDesc)));
  }

  lemma OptionalUnroll(fs: Fields, p: ItemParts)
    ensures AssignFrom(fs, OptionalKeys, OptionalSlots(p))
         == SetSlot(SetSlot(SetSlot(SetSlot(SetSlot(SetSlot(fs,
              "magic_item_type", TextSlot(p.itemType)),
              "attunement", if p.attunement then Some(JBool(true)) else None),
              "attunement_restrictions", ListSlot(p.restrictions)),
              "properties", ListSlot(p.properties)),
              "bonus", TextSlot(p.bonus)),
              "last_updated", TextSlot(p.lastUpdated))
  {
    AssignFrom6(fs, "magic_item_type", "attunement", "attunement_restrictions", "properties", "bonus", "last_updated",
                TextSlot(p.itemType), if p.attunement then Some(JBool(true)) else None,
                ListSlot(p.restrictions), ListSlot(p.properties), TextSlot(p.bonus), TextSlot(p.lastUpdated));
  }

  /** `if (s) normalized[key] = s` */
  method PutText(normalized: JsObject, key: string, s: Option<string>)
    modifies normalized
    ensures normalized.fields == SetSlot(old(normalized.fields), key, TextSlot(s))
  {
    if s.Some? && s.value != "" {
      normalized.Put(key, JStr(s.value));
    }
  }

  /** `if (xs.length > 0) normalized[key] = xs` */
  method PutList(normalized: JsObject, key: string, xs: seq<Json>)
    modifies normalized
    ensures normalized.fields == SetSlot(old(normalized.fields), key, ListSlot(xs))
  {
    if |xs| > 0 {
      normalized.Put(key, JArr(xs));
    }
  }

  /** The map callback: the checks one after the other, then the object
      literal and the optional assignments. */
  method NormalizeItem(item: Json, index: nat, md5: string -> Md5Hex) returns (r: Result<Json, ItemError>)
    ensures r == NormalizeItemSpec(item, index, md5)
  {
    if !IsObjectLike(Some(item)) {
      return Err(InvalidItem(index));
    }

    // REQUIRED METADATA
    var name := EnsureString(Get(item, "name"), "name", true);
    if name.Err? { return Err(name.error); }
    var sources := EnsureArray(Get(item, "sources"), "sources");
    if sources.Err? { return Err(sources.error); }
    if |sources.value| == 0 { return Err(MissingSources(name.value.value)); }
    var given := EnsureString(Get(item, "id"), "id", false);
    if given.Err? { return Err(given.error); }
    var id: string;
    if given.value.Some? && given.value.value != "" {
      id := given.value.value;
    } else {
      var generated := GenerateId(item, md5);
      if generated.Err? { return Err(generated.error); }
      id := generated.value;
    }

    // REQUIRED MAGIC ITEM FIELDS
    var category := EnsureString(Get(item, "magic_item_category"), "magic_item_category", true);
    if category.Err? { return Err(category.error); }
    var rarity := EnsureString(Get(item, "rarity"), "rarity", true);
    if rarity.Err? { return Err(rarity.error); }
    var itemDesc := EnsureArray(Coalesce(Get(item, "item_desc"), Get(item, "desc")), "item_desc");
    if itemDesc.Err? { return Err(itemDesc.error); }
    if |itemDesc.value| == 0 { return Err(MissingItemDesc(name.value.value)); }

    // OPTIONAL FIELDS
    var itemType := EnsureString(Coalesce(Get(item, "magic_item_type"), Get(item, "item_type")), "magic_item_type", false);
    if itemType.Err? { return Err(itemType.error); }
    var attunement := EnsureBoolean(Get(item, "attunement"), false);
    var restrictions := EnsureArray(Get(item, "attunement_restrictions"), "attunement_restrictions");
    if restrictions.Err? { return Err(restrictions.error); }
    var properties := EnsureArray(Get(item, "properties"), "properties");
    if properties.Err? { return Err(properties.error); }
    var bonus := EnsureString(Get(item, "bonus"), "bonus", false);
    if bonus.Err? { return Err(bonus.error); }
    var lastUpdated := EnsureString(Get(item, "last_updated"), "last_updated", false);
    if lastUpdated.Err? { return Err(lastUpdated.error); }
    ghost var p := ItemParts(id, name.value.value, sources.value, category.value.value, rarity.value.value,
                             itemDesc.value, itemType.value, attunement, restrictions.value, properties.value,
                             bonus.value, lastUpdated.value);

    // FINAL CANONICAL OBJECT: the literal's properties in order, then the optional ones
    BaseUnroll(p);
    var normalized := new JsObject();
    normalized.Put("id", JStr(id));
    normalized.Put("name", JStr(name.value.value));
    normalized.Put("sources", JArr(sources.value));
    normalized.Put("magic_item_category", JStr(category.value.value));
    normalized.Put("rarity", JStr(rarity.value.value));
    normalized.Put("item_desc", JArr(itemDesc.value));
    OptionalUnroll(normalized.fields, p);
    PutText(normalized, "magic_item_type", itemType.value);
    if attunement {
      normalized.Put("attunement", JBool(true));
    }
    PutList(normalized, "attunement_restrictions", restrictions.value);
    PutList(normalized, "properties", properties.value);
    PutText(normalized, "bonus", bonus.value);
    PutText(normalized, "last_updated", lastUpdated.value);
    return Ok(JObj(normalized.fields));
  }

  /* ---------------------------------------------------------------
     What a normalized item holds
     --------------------------------------------------------------- */

  lemma ItemKeysApart()
    ensures forall i :: 0 <= i < |BaseKeys| ==> BaseKeys[i] !in OptionalKeys
    ensures forall i, j :: 0 <= i < |BaseKeys| && 0 <= j < |BaseKeys| && i != j ==> BaseKeys[i] != BaseKeys[j]
    ensures forall i, j :: 0 <= i < |OptionalKeys| && 0 <= j < |OptionalKeys| && i != j ==> OptionalKeys[i] != OptionalKeys[j]
  {
  }

  /** A key of the literal holds the literal's value. */
  lemma BaseLookup(p: ItemParts, i: nat)
    requires i < |BaseKeys|
    ensures Lookup(ItemFields(p), BaseKeys[i]) == BaseSlots(p)[i]
  {
    ItemKeysApart();
    AssignFromLookup([], BaseKeys, BaseSlots(p), i);
    AssignFromMissing(AssignFrom([], BaseKeys, BaseSlots(p)), OptionalKeys, OptionalSlots(p), BaseKeys[i]);
  }

  /** An optional key holds its value when it was assigned, and is missing otherwise. */
  lemma OptionalLookup(p: ItemParts, i: nat)
    requires i < |OptionalKeys|
    ensures Lookup(ItemFields(p), OptionalKeys[i]) == OptionalSlots(p)[i]
  {
    ItemKeysApart();
    AssignFromMissing([], BaseKeys, BaseSlots(p), OptionalKeys[i]);
    AssignFromLookup(AssignFrom([], BaseKeys, BaseSlots(p)), OptionalKeys, OptionalSlots(p), i);
  }

  /** A normalized item has no property twice and none outside the twelve
      keys the source writes. */
  lemma ItemRecordKeys(item: Json, index: nat, md5: string -> Md5Hex, k: string)
    requires NormalizeItemSpec(item, index, md5).Ok?
    ensures NormalizeItemSpec(item, index, md5).value.JObj?
    ensures DistinctKeys(NormalizeItemSpec(item, index, md5).value.fields)
    ensures k in Keys(NormalizeItemSpec(item, index, md5).value.fields) ==> k in BaseKeys || k in OptionalKeys
  {
    var p := CheckItem(item, index, md5).value;
    var base := AssignFrom([], BaseKeys, BaseSlots(p));
    AssignFromDistinct([], BaseKeys, BaseSlots(p));
    AssignFromDistinct(base, OptionalKeys, OptionalSlots(p));
    if k in Keys(ItemFields(p)) {
      AssignFromKeys(base, OptionalKeys, OptionalSlots(p), k);
      if k in Keys(base) {
        AssignFromKeys([], BaseKeys, BaseSlots(p), k);
      }
    }
  }

  /** A property of a normalized item: `String(value)` when the value is
      present, not `null`, and renders as a non-empty string. */
  function TextOf(o: Option<Json>): Option<Json> {
    if Nullish(o) || ToJsString(o.value) == "" then None else Some(JStr(ToJsString(o.value)))
  }

  /** The six required properties: `name`, `magic_item_category` and
      `rarity` are given and not `""`, and hold their `String`
      conversions; `sources` and `item_desc` (else `desc`) are non-empty
      arrays, passed through; `id` is the given id's `String`, or the
      synthetic id when that is empty. */
  lemma ItemRequiredFields(item: Json, index: nat, md5: string -> Md5Hex)
    requires NormalizeItemSpec(item, index, md5).Ok?
    ensures var f := NormalizeItemSpec(item, index, md5).value.fields;
            && !IsBlankInput(Get(item, "name")) && Lookup(f, "name") == Some(JStr(ToJsString(Get(item, "name").value)))
            && !IsBlankInput(Get(item, "magic_item_category"))
            && Lookup(f, "magic_item_category") == Some(JStr(ToJsString(Get(item, "magic_item_category").value)))
            && !IsBlankInput(Get(item, "rarity")) && Lookup(f, "rarity") == Some(JStr(ToJsString(Get(item, "rarity").value)))
            && IsNonEmptyArray(Get(item, "sources")) && Lookup(f, "sources") == Get(item, "sources")
            && var desc := Coalesce(Get(item, "item_desc"), Get(item, "desc"));
               IsNonEmptyArray(desc) && Lookup(f, "item_desc") == desc
  {
    var p := CheckItem(item, index, md5).value;
    EnsureStringSpec(Get(item, "name"), "name", true);
    EnsureStringSpec(Get(item, "magic_item_category"), "magic_item_category", true);
    EnsureStringSpec(Get(item, "rarity"), "rarity", true);
    BaseLookup(p, 1);
    BaseLookup(p, 2);
    BaseLookup(p, 3);
    BaseLookup(p, 4);
    BaseLookup(p, 5);
  }

  /** The given id's `String` when that is non-empty, else the synthetic
      id, which must then be computable. */
  lemma ItemIdField(item: Json, index: nat, md5: string -> Md5Hex)
    requires NormalizeItemSpec(item, index, md5).Ok?
    ensures var f, given := NormalizeItemSpec(item, index, md5).value.fields, Get(item, "id");
            if TextOf(given).Some? then Lookup(f, "id") == TextOf(given)
            else GenerateId(item, md5).Ok? && Lookup(f, "id") == Some(JStr(GenerateId(item, md5).value))
  {
    var p := CheckItem(item, index, md5).value;
    EnsureStringSpec(Get(item, "id"), "id", false);
    BaseLookup(p, 0);
  }

  /** The optional properties are present only when they carry something:
      `magic_item_type` (else `item_type`), `bonus` and `last_updated` when
      their `String` is non-empty, `attunement` only as `true`, and the two
      lists only when they are non-empty arrays. The lists must be arrays
      when present even though they are optional. */
  lemma ItemOptionalFields(item: Json, index: nat, md5: string -> Md5Hex)
    requires NormalizeItemSpec(item, index, md5).Ok?
    ensures var f := NormalizeItemSpec(item, index, md5).value.fields;
            && Lookup(f, "magic_item_type") == TextOf(Coalesce(Get(item, "magic_item_type"), Get(item, "item_type")))
            && Lookup(f, "attunement") == (if EnsureBoolean(Get(item, "attunement"), false) then Some(JBool(true)) else None)
            && (Nullish(Get(item, "attunement_restrictions")) || IsArray(Get(item, "attunement_restrictions")))
            && Lookup(f, "attunement_restrictions") == IfNonEmptyArray(Get(item, "attunement_restrictions"))
            && (Nullish(Get(item, "properties")) || IsArray(Get(item, "properties")))
            && Lookup(f, "properties") == IfNonEmptyArray(Get(item, "properties"))
            && Lookup(f, "bonus") == TextOf(Get(item, "bonus"))
            && Lookup(f, "last_updated") == TextOf(Get(item, "last_updated"))
  {
    var p := CheckItem(item, index, md5).value;
    EnsureStringSpec(Coalesce(Get(item, "magic_item_type"), Get(item, "item_type")), "magic_item_type", false);
    EnsureStringSpec(Get(item, "bonus"), "bonus", false);
    EnsureStringSpec(Get(item, "last_updated"), "last_updated", false);
    EnsureArraySpec(Get(item, "attunement_restrictions"), "attunement_restrictions");
    EnsureArraySpec(Get(item, "properties"), "properties");
    OptionalLookup(p, 0);
    OptionalLookup(p, 1);
    OptionalLookup(p, 2);
    OptionalLookup(p, 3);
    OptionalLookup(p, 4);
    OptionalLookup(p, 5);
  }

  /* ---------------------------------------------------------------
     The dataset
     --------------------------------------------------------------- */

  /** `normalizeMagicItems(legacyItems)` */
  function NormalizeMagicItems(items: Option<Json>, md5: string -> Md5Hex): Result<seq<Json>, ItemError> {
    if !IsArray(items) then Err(DatasetNotArray)
    else MapIndexed((x, i) => NormalizeItemSpec(x, i, md5), items.value.elems, 0)
  }

  /** The dataset must be an array; it is normalized exactly when every
      item is, and then item `i` of the output is item `i` of the input
      normalized with index `i`. The first item that throws decides the error. */
  lemma NormalizeMagicItemsSpec(items: Option<Json>, md5: string -> Md5Hex)
    ensures !IsArray(items) ==> NormalizeMagicItems(items, md5) == Err(DatasetNotArray)
    ensures IsArray(items) ==>
              var xs := items.value.elems;
              && (NormalizeMagicItems(items, md5).Ok? <==> forall i :: 0 <= i < |xs| ==> NormalizeItemSpec(xs[i], i, md5).Ok?)
              && (NormalizeMagicItems(items, md5).Ok? ==>
                    |NormalizeMagicItems(items, md5).value| == |xs|
                    && forall i :: 0 <= i < |xs| ==> NormalizeMagicItems(items, md5).value[i] == NormalizeItemSpec(xs[i], i, md5).value)
  {
    if IsArray(items) {
      MapIndexedOkFromZero((x, i) => NormalizeItemSpec(x, i, md5), items.value.elems);
    }
  }

  lemma NormalizeMagicItemsFirstError(items: Option<Json>, md5: string -> Md5Hex, i: nat)
    requires IsArray(items) && i < |items.value.elems|
    requires NormalizeItemSpec(items.value.elems[i], i, md5).Err?
    requires forall j :: 0 <= j < i ==> NormalizeItemSpec(items.value.elems[j], j, md5).Ok?
    ensures NormalizeMagicItems(items, md5) == Err(NormalizeItemSpec(items.value.elems[i], i, md5).error)
  {
    MapIndexedFirstErrorFromZero((x, i) => NormalizeItemSpec(x, i, md5), items.value.elems, i);
  }
  /* ---------------------------------------------------------------
     Normalizing twice
     --------------------------------------------------------------- */

  /** The required texts of an item render as non-empty strings. `String`
      of a string that passed `ensureString` always does; `String([])` and
      `String([null])` do not. */
  predicate RendersRequired(item: Json) {
    && OptToString(Get(item, "name")) != ""
    && OptToString(Get(item, "magic_item_category")) != ""
    && OptToString(Get(item, "rarity")) != ""
  }

  lemma LegacyKeysDropped(p: ItemParts)
    ensures Lookup(ItemFields(p), "item_type").None?
  {
    assert "item_type" !in BaseKeys && "item_type" !in OptionalKeys;
    AssignFromMissing([], BaseKeys, BaseSlots(p), "item_type");
    AssignFromMissing(AssignFrom([], BaseKeys, BaseSlots(p)), OptionalKeys, OptionalSlots(p), "item_type");
  }

  /** A record's own properties read back as the parts it was built from. */
  lemma ReadBack(p: ItemParts)
    ensures var r := JObj(ItemFields(p));
            && Get(r, "id") == Some(JStr(p.id)) && Get(r, "name") == Some(JStr(p.name))
            && Get(r, "sources") == Some(JArr(p.sources))
            && Get(r, "magic_item_category") == Some(JStr(p.category))
            && Get(r, "rarity") == Some(JStr(p.rarity)) && Get(r, "item_desc") == Some(JArr(p.itemDesc))
            && Get(r, "magic_item_type") == TextSlot(p.itemType) && Get(r, "item_type").None?
            && Get(r, "attunement") == (if p.attunement then Some(JBool(true)) else None)
            && Get(r, "attunement_restrictions") == ListSlot(p.restrictions)
            && Get(r, "properties") == ListSlot(p.properties)
            && Get(r, "bonus") == TextSlot(p.bonus) && Get(r, "last_updated") == TextSlot(p.lastUpdated)
  {
    BaseLookup(p, 0);
    BaseLookup(p, 1);
    BaseLookup(p, 2);
    BaseLookup(p, 3);
    BaseLookup(p, 4);
    BaseLookup(p, 5);
    OptionalLookup(p, 0);
    OptionalLookup(p, 1);
    OptionalLookup(p, 2);
    OptionalLookup(p, 3);
    OptionalLookup(p, 4);
    OptionalLookup(p, 5);
    LegacyKeysDropped(p);
  }

  /** The parts of an item that passes its checks: the required texts are
      non-empty when they render so, and the id is never empty. */
  lemma PartsShape(item: Json, index: nat, md5: string -> Md5Hex)
    requires CheckItem(item, index, md5).Ok? && RendersRequired(item)
    ensures var p := CheckItem(item, index, md5).value;
            && p.id != "" && p.name != "" && p.category != "" && p.rarity != ""
            && |p.sources| > 0 && |p.itemDesc| > 0
  {
    if !(TextOf(Get(item, "id")).Some?) {
      GenerateIdShape(item, md5);
    }
  }

  /** The checks pass on an object whose fields coerce to the given parts
      and whose id is given. */
  lemma CheckItemOk(x: Json, index: nat, md5: string -> Md5Hex, p: ItemParts)
    requires IsObjectLike(Some(x))
    requires EnsureString(Get(x, "name"), "name", true) == Ok(Some(p.name))
    requires EnsureArray(Get(x, "sources"), "sources") == Ok(p.sources) && |p.sources| > 0
    requires EnsureString(Get(x, "id"), "id", false) == Ok(Some(p.id)) && p.id != ""
    requires EnsureString(Get(x, "magic_item_category"), "magic_item_category", true) == Ok(Some(p.category))
    requires EnsureString(Get(x, "rarity"), "rarity", true) == Ok(Some(p.rarity))
    requires EnsureArray(Coalesce(Get(x, "item_desc"), Get(x, "desc")), "item_desc") == Ok(p.itemDesc)
    requires |p.itemDesc| > 0
    requires EnsureString(Coalesce(Get(x, "magic_item_type"), Get(x, "item_type")), "magic_item_type", false)
             == Ok(p.itemType)
    requires EnsureBoolean(Get(x, "attunement"), false) == p.attunement
    requires EnsureArray(Get(x, "attunement_restrictions"), "attunement_restrictions") == Ok(p.restrictions)
    requires EnsureArray(Get(x, "properties"), "properties") == Ok(p.properties)
    requires EnsureString(Get(x, "bonus"), "bonus", false) == Ok(p.bonus)
    requires EnsureString(Get(x, "last_updated"), "last_updated", false) == Ok(p.lastUpdated)
    ensures CheckItem(x, index, md5) == Ok(p)
  {
  }

  /** The optional texts as a second pass reads them: an empty rendering
      was never written, so it comes back absent. */
  function Reread(o: Option<string>): Option<string> {
    if o.Some? && o.value != "" then o else None
  }

  /** The checks, run on a normalized item, find parts that build the same record. */
  lemma CheckItemAgain(item: Json, index: nat, index2: nat, md5: string -> Md5Hex)
    requires CheckItem(item, index, md5).Ok? && RendersRequired(item)
    ensures var p := CheckItem(item, index, md5).value;
            var again := CheckItem(JObj(ItemFields(p)), index2, md5);
            again.Ok? && ItemFields(again.value) == ItemFields(p)
  {
    var p := CheckItem(item, index, md5).value;
    PartsShape(item, index, md5);
    ReadBack(p);
    var r := JObj(ItemFields(p));
    var p2 := p.(itemType := Reread(p.itemType), bonus := Reread(p.bonus), lastUpdated := Reread(p.lastUpdated));
    CheckItemOk(r, index2, md5, p2);
    assert BaseSlots(p2) == BaseSlots(p);
    assert OptionalSlots(p2) == OptionalSlots(p);
  }

  /** Normalizing a normalized item again, at any index, gives it back,
      provided its required texts rendered as non-empty strings. */
  lemma NormalizeItemIdempotent(item: Json, index: nat, index2: nat, md5: string -> Md5Hex)
    requires NormalizeItemSpec(item, index, md5).Ok? && RendersRequired(item)
    ensures var r := NormalizeItemSpec(item, index, md5).value;
            NormalizeItemSpec(r, index2, md5) == Ok(r)
  {
    CheckItemAgain(item, index, index2, md5);
  }

  /** Normalizing a normalized magic-item dataset gives it back, provided
      every item's required texts rendered as non-empty strings. */
  lemma NormalizeMagicItemsIdempotent(items: Option<Json>, md5: string -> Md5Hex)
    requires NormalizeMagicItems(items, md5).Ok?
    requires forall i :: 0 <= i < |items.value.elems| ==> RendersRequired(items.value.elems[i])
    ensures NormalizeMagicItems(Some(JArr(NormalizeMagicItems(items, md5).value)), md5) == NormalizeMagicItems(items, md5)
  {
    var out := NormalizeMagicItems(items, md5).value;
    NormalizeMagicItemsSpec(items, md5);
    NormalizeMagicItemsSpec(Some(JArr(out)), md5);
    var xs := items.value.elems;
    forall i | 0 <= i < |out|
      ensures NormalizeItemSpec(out[i], i, md5) == Ok(out[i])
    {
      NormalizeItemIdempotent(xs[i], i, i, md5);
    }
    var again := NormalizeMagicItems(Some(JArr(out)), md5);
    assert again.value == out;
  }

  /** A record whose name is `""` is refused for a missing name. */
  lemma EmptyNameRefused(p: ItemParts, index: nat, md5: string -> Md5Hex)
    requires p.name == ""
    ensures NormalizeItemSpec(JObj(ItemFields(p)), index, md5) == Err(MissingField("name"))
  {
    ReadBack(p);
  }

  /** Without that proviso a second pass can fail: a `name` of `[]` is not
      missing to `ensureString`, becomes `String([])`, that is `""`, and the
      record holding that `""` is then refused for a missing name. */
  lemma EmptyRenderedNameNotIdempotent(item: Json, index: nat, md5: string -> Md5Hex)
    requires NormalizeItemSpec(item, index, md5).Ok? && Get(item, "name") == Some(JArr([]))
    ensures Lookup(NormalizeItemSpec(item, index, md5).value.fields, "name") == Some(JStr(""))
    ensures NormalizeItemSpec(NormalizeItemSpec(item, index, md5).value, index, md5) == Err(MissingField("name"))
  {
    var p := CheckItem(item, index, md5).value;
    assert ToJsString(JArr([])) == "";
    assert p.name == "";
    ReadBack(p);
    EmptyNameRefused(p, index, md5);
  }
}
