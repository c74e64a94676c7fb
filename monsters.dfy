/** `normalizeMonsters` (norm/normalizeMonsters.js): every legacy monster
    record is checked field by field and rebuilt as a canonical record. The
    first record that fails aborts the whole dataset.

    The `...Spec` functions say what a call returns or throws; the methods
    are the source's step-by-step code (a fresh object filled by successive
    assignments, loops over the six ability keys), each proved equal to
    its specification. */
module Monsters {
  import opened Text
  import opened JsValue

  datatype MonsterError =
    | DatasetNotArray
    | InvalidEntry(index: nat)
    | MissingSources
    | MissingString(field: string)
    | NotANumber(field: string)
    | AcNotANumber
    | ArmorTypeNotString
    | MissingSpeed
    | EmptySpeed
    | StatNotANumber(key: string)
    | MissingStats

  /** The six ability scores, in the order the source checks them. */
  const StatKeys: seq<string> := ["str", "dex", "con", "int", "wis", "cha"]

  const SyntheticIdPrefix: string := "mo-UNKNOWN-"

  /* ---------------------------------------------------------------
     Field helpers
     --------------------------------------------------------------- */

  /** A string with content once trimmed. */
  predicate IsNonBlankString(o: Option<Json>) {
    o.Some? && o.value.JStr? && Trim(o.value.s) != ""
  }

  /** `normalizeId`: a string id with non-blank content, or a synthetic id
      built from the record's index. */
  function NormalizeId(id: Option<Json>, index: nat): string {
    if IsNonBlankString(id) then id.value.s
    else SyntheticIdPrefix + PadStart(NatToString(index), 4, '0')
  }

  /** `normalizeSources`: a non-empty array, passed through. */
  function NormalizeSources(sources: Option<Json>): Result<Json, MonsterError> {
    if !IsArray(sources) || |sources.value.elems| == 0 then Err(MissingSources)
    else Ok(sources.value)
  }

  /** `requireString`: a string that is not blank after trimming. */
  function RequireString(value: Option<Json>, field: string): Result<Json, MonsterError> {
    if IsNonBlankString(value) then Ok(value.value)
    else Err(MissingString(field))
  }

  /** `typeof v === "number" && !Number.isNaN(v)`: the infinities pass. */
  predicate IsNonNaNNumber(value: Option<Json>) {
    IsNumber(value) && !value.value.JNaN?
  }

  /** `normalizeNumber` */
  function NormalizeNumber(value: Option<Json>, field: string): Result<Json, MonsterError> {
    if IsNonNaNNumber(value) then Ok(value.value) else Err(NotANumber(field))
  }

  /** `normalizeAC` */
  function NormalizeAC(ac: Option<Json>): Result<Json, MonsterError> {
    if IsNonNaNNumber(ac) then Ok(ac.value) else Err(AcNotANumber)
  }

  /** `normalizeArmorType`: `null` and `undefined` become `""`. */
  function NormalizeArmorType(armorType: Option<Json>): Result<Json, MonsterError> {
    if Nullish(armorType) then Ok(JStr(""))
    else if armorType.value.JStr? then Ok(armorType.value)
    else Err(ArmorTypeNotString)
  }

  /** `normalizeSpeed`: an object (or array) with at least one key. */
  function NormalizeSpeed(speed: Option<Json>): Result<Json, MonsterError> {
    if !IsObjectLike(speed) then Err(MissingSpeed)
    else if OwnKeyCount(speed.value) == 0 then Err(EmptySpeed)
    else Ok(speed.value)
  }

  /** The first of `keys` whose value in `v` is not of type number. */
  function FirstNonNumber(v: Json, keys: seq<string>): Option<string> {
    if keys == [] then None
    else if !IsNumber(Get(v, keys[0])) then Some(keys[0])
    else FirstNonNumber(v, keys[1..])
  }

  /** No key is found exactly when every value is a number. */
  lemma {:induction false} FirstNonNumberNone(v: Json, keys: seq<string>)
    ensures FirstNonNumber(v, keys).None? <==> forall i :: 0 <= i < |keys| ==> IsNumber(Get(v, keys[i]))
  {
    if keys != [] {
      FirstNonNumberNone(v, keys[1..]);
      if IsNumber(Get(v, keys[0])) {
        assert forall i :: 1 <= i < |keys| ==> keys[i] == keys[1..][i - 1];
      }
    }
  }

  /** The key found is the first one whose value is not a number. */
  lemma {:induction false} FirstNonNumberAt(v: Json, keys: seq<string>, i: nat)
    requires i < |keys| && !IsNumber(Get(v, keys[i]))
    requires forall j :: 0 <= j < i ==> IsNumber(Get(v, keys[j]))
    ensures FirstNonNumber(v, keys) == Some(keys[i])
  {
    if i > 0 {
      assert keys[1..][i - 1] == keys[i];
      assert forall j :: 0 <= j < i - 1 ==> keys[1..][j] == keys[j + 1];
      FirstNonNumberAt(v, keys[1..], i - 1);
    }
  }

  /** What `validateStats` throws, if anything. */
  function CheckStats(stats: Json): Option<MonsterError> {
    match FirstNonNumber(stats, StatKeys)
    case None => None
    case Some(k) => Some(StatNotANumber(k))
  }

  /** The loop of `validateStats`. */
  method ValidateStats(stats: Json) returns (r: Option<MonsterError>)
    ensures r == CheckStats(stats)
  {
    for i := 0 to |StatKeys|
      invariant forall j :: 0 <= j < i ==> IsNumber(Get(stats, StatKeys[j]))
    {
      if !IsNumber(Get(stats, StatKeys[i])) {
        FirstNonNumberAt(stats, StatKeys, i);
        return Some(StatNotANumber(StatKeys[i]));
      }
    }
    FirstNonNumberNone(stats, StatKeys);
    return None;
  }

  /** What `extractTopLevelStats` returns: the object literal of the six
      top-level scores when all are numbers, `null` (`None`) otherwise. */
  function TopLevelStats(m: Json): Option<Json> {
    if FirstNonNumber(m, StatKeys).Some? then None
    else
      FirstNonNumberNone(m, StatKeys);
      assert IsNumber(Get(m, StatKeys[0])) && IsNumber(Get(m, StatKeys[1])) && IsNumber(Get(m, StatKeys[2]));
      assert IsNumber(Get(m, StatKeys[3])) && IsNumber(Get(m, StatKeys[4])) && IsNumber(Get(m, StatKeys[5]));
      Some(JObj([("str", Get(m, "str").value), ("dex", Get(m, "dex").value),
                 ("con", Get(m, "con").value), ("int", Get(m, "int").value),
                 ("wis", Get(m, "wis").value), ("cha", Get(m, "cha").value)]))
  }

  /** A result exactly when all six scores are numbers, and then an object
      with exactly the six score keys, in order, each holding its top-level value. */
  lemma TopLevelStatsSpec(m: Json)
    ensures TopLevelStats(m).Some? <==> forall i :: 0 <= i < |StatKeys| ==> IsNumber(Get(m, StatKeys[i]))
    ensures TopLevelStats(m).Some? ==>
              TopLevelStats(m).value.JObj? && Keys(TopLevelStats(m).value.fields) == StatKeys
              && forall i :: 0 <= i < |StatKeys| ==> Some(TopLevelStats(m).value.fields[i].1) == Get(m, StatKeys[i])
  {
    FirstNonNumberNone(m, StatKeys);
    if TopLevelStats(m).Some? {
      var fs := TopLevelStats(m).value.fields;
      assert Keys(fs) == StatKeys by {
        assert |Keys(fs)| == 6;
        assert Keys(fs)[0] == fs[0].0;
      }
    }
  }

  /** The loop of `extractTopLevelStats`. */
  method ExtractTopLevelStats(m: Json) returns (r: Option<Json>)
    ensures r == TopLevelStats(m)
  {
    for i := 0 to |StatKeys|
      invariant forall j :: 0 <= j < i ==> IsNumber(Get(m, StatKeys[j]))
    {
      if !IsNumber(Get(m, StatKeys[i])) {
        FirstNonNumberAt(m, StatKeys, i);
        return None;
      }
    }
    FirstNonNumberNone(m, StatKeys);
    assert IsNumber(Get(m, StatKeys[0])) && IsNumber(Get(m, StatKeys[1])) && IsNumber(Get(m, StatKeys[2]));
    assert IsNumber(Get(m, StatKeys[3])) && IsNumber(Get(m, StatKeys[4])) && IsNumber(Get(m, StatKeys[5]));
    r := Some(JObj([("str", Get(m, "str").value), ("dex", Get(m, "dex").value),
                    ("con", Get(m, "con").value), ("int", Get(m, "int").value),
                    ("wis", Get(m, "wis").value), ("cha", Get(m, "cha").value)]));
  }

  /** What `normalizeStats(monster.stats, monster)` returns or throws: a
      `stats` object, else an `abilities` object, else the six top-level
      scores. An object that is present but invalid throws; the later
      shapes are not tried. */
  function NormalizeStatsSpec(stats: Option<Json>, m: Json): Result<Json, MonsterError> {
    if IsObjectLike(stats) then
      (match CheckStats(stats.value) case Some(e) => Err(e) case None => Ok(stats.value))
    else if IsObjectLike(Get(m, "abilities")) then
      (match CheckStats(Get(m, "abilities").value) case Some(e) => Err(e) case None => Ok(Get(m, "abilities").value))
    else
      match TopLevelStats(m)
      case Some(t) => Ok(t)
      case None => Err(MissingStats)
  }

  /** `normalizeStats` */
  method NormalizeStats(stats: Option<Json>, m: Json) returns (r: Result<Json, MonsterError>)
    ensures r == NormalizeStatsSpec(stats, m)
  {
    if IsObjectLike(stats) {
      var e := ValidateStats(stats.value);
      if e.Some? {
        return Err(e.value);
      }
      return Ok(stats.value);
    }
    var abilities := Get(m, "abilities");
    if IsObjectLike(abilities) {
      var e := ValidateStats(abilities.value);
      if e.Some? {
        return Err(e.value);
      }
      return Ok(abilities.value);
    }
    var topLevelStats := ExtractTopLevelStats(m);
    if topLevelStats.Some? {
      return Ok(topLevelStats.value);
    }
    return Err(MissingStats);
  }

  /** Reading a score back from the extracted object gives the monster's own score. */
  lemma TopLevelStatsRead(m: Json, i: nat)
    requires TopLevelStats(m).Some? && i < |StatKeys|
    ensures Get(TopLevelStats(m).value, StatKeys[i]) == Get(m, StatKeys[i])
  {
    TopLevelStatsSpec(m);
    var fs := TopLevelStats(m).value.fields;
    StatKeysDistinct();
    assert DistinctKeys(fs);
    LookupDistinct(fs, i);
  }

  lemma StatKeysDistinct()
    ensures forall i, j :: 0 <= i < j < |StatKeys| ==> StatKeys[i] != StatKeys[j]
  {
  }

  /** A stats object is valid exactly when it holds the six scores as numbers. */
  lemma CheckStatsSpec(stats: Json)
    ensures CheckStats(stats).None? <==> forall i :: 0 <= i < |StatKeys| ==> IsNumber(Get(stats, StatKeys[i]))
    ensures CheckStats(stats).Some? ==>
              CheckStats(stats).value.StatNotANumber? && CheckStats(stats).value.key in StatKeys
  {
    FirstNonNumberNone(stats, StatKeys);
    FirstNonNumberIn(stats, StatKeys);
  }

  lemma {:induction false} FirstNonNumberIn(v: Json, keys: seq<string>)
    ensures FirstNonNumber(v, keys).Some? ==>
              FirstNonNumber(v, keys).value in keys && !IsNumber(Get(v, FirstNonNumber(v, keys).value))
  {
    if keys != [] && IsNumber(Get(v, keys[0])) {
      FirstNonNumberIn(v, keys[1..]);
    }
  }

  /** Whatever shape it came from, resolved stats are an object holding
      the six scores as numbers. */
  lemma NormalizeStatsValid(stats: Option<Json>, m: Json)
    requires NormalizeStatsSpec(stats, m).Ok?
    ensures IsObjectLike(Some(NormalizeStatsSpec(stats, m).value))
    ensures forall i :: 0 <= i < |StatKeys| ==> IsNumber(Get(NormalizeStatsSpec(stats, m).value, StatKeys[i]))
  {
    if IsObjectLike(stats) {
      CheckStatsSpec(stats.value);
    } else if IsObjectLike(Get(m, "abilities")) {
      CheckStatsSpec(Get(m, "abilities").value);
    } else {
      TopLevelStatsSpec(m);
      forall i | 0 <= i < |StatKeys|
        ensures IsNumber(Get(NormalizeStatsSpec(stats, m).value, StatKeys[i]))
      {
        TopLevelStatsRead(m, i);
      }
    }
  }

  /** A canonical `stats` object decides alone: it is returned when valid,
      its own first bad score is thrown otherwise, and nothing else of the
      monster (`abilities`, the top-level scores) is consulted. */
  lemma StatsCanonicalFirst(stats: Option<Json>, m: Json, other: Json)
    requires IsObjectLike(stats)
    ensures NormalizeStatsSpec(stats, m) == NormalizeStatsSpec(stats, other)
    ensures NormalizeStatsSpec(stats, m).Ok? <==> forall i :: 0 <= i < |StatKeys| ==> IsNumber(Get(stats.value, StatKeys[i]))
    ensures NormalizeStatsSpec(stats, m).Ok? ==> NormalizeStatsSpec(stats, m).value == stats.value
  {
    CheckStatsSpec(stats.value);
  }

  /** The legacy `abilities` object is treated exactly as a canonical `stats`
      object would be. */
  lemma StatsAbilitiesLikeCanonical(stats: Option<Json>, m: Json)
    requires !IsObjectLike(stats) && IsObjectLike(Get(m, "abilities"))
    ensures NormalizeStatsSpec(stats, m) == NormalizeStatsSpec(Get(m, "abilities"), m)
  {
  }

  /** With neither object, the six top-level scores are gathered when all
      are numbers, and `MissingStats` is thrown otherwise. */
  lemma StatsFromTopLevel(stats: Option<Json>, m: Json)
    requires !IsObjectLike(stats) && !IsObjectLike(Get(m, "abilities"))
    ensures NormalizeStatsSpec(stats, m).Ok? <==> forall i :: 0 <= i < |StatKeys| ==> IsNumber(Get(m, StatKeys[i]))
    ensures NormalizeStatsSpec(stats, m).Err? ==> NormalizeStatsSpec(stats, m).error == MissingStats
    ensures NormalizeStatsSpec(stats, m).Ok? ==>
              forall i :: 0 <= i < |StatKeys| ==> Get(NormalizeStatsSpec(stats, m).value, StatKeys[i]) == Get(m, StatKeys[i])
  {
    TopLevelStatsSpec(m);
    if TopLevelStats(m).Some? {
      forall i | 0 <= i < |StatKeys|
        ensures Get(NormalizeStatsSpec(stats, m).value, StatKeys[i]) == Get(m, StatKeys[i])
      {
        TopLevelStatsRead(m, i);
      }
    }
  }

  /** `xp`: absent stays absent, `""` stays `""`, anything else must be a number. */
  function NormalizeXp(xp: Option<Json>): Result<Option<Json>, MonsterError> {
    if xp.None? then Ok(None)
    else if xp.value == JStr("") then Ok(Some(JStr("")))
    else
      match NormalizeNumber(xp, "xp")
      case Ok(n) => Ok(Some(n))
      case Err(e) => Err(e)
  }

  /* ---------------------------------------------------------------
     The record
     --------------------------------------------------------------- */

  /** Every key a normalized monster can have, in the order the source assigns them. */
  // The keys each section of `normalizeMonster` assigns, in order.
  const UniversalKeys: seq<string> := ["id", "sources", "last_updated"]
  const IdentityKeys: seq<string> := ["name", "creature_type", "subtype", "size", "alignment"]
  const DefenseKeys: seq<string> := ["ac", "armor_type", "hp", "hit_dice"]
  const AbilitiesKeys: seq<string> := ["speed", "stats", "saving_throws", "skills"]
  const DamageAndSensesKeys: seq<string> :=
    ["damage_vulnerabilities", "damage_resistances", "damage_immunities", "condition_immunities",
     "senses", "languages"]
  const CrXpKeys: seq<string> := ["cr", "xp"]
  const TraitsKeys: seq<string> :=
    ["traits", "actions", "legendary_actions", "reactions", "lair_actions", "regional_effects"]

  /** Every key a normalized monster can have, in the order the source assigns them. */
  const MonsterKeys: seq<string> :=
    ["id", "sources", "last_updated", "name", "creature_type", "subtype", "size", "alignment",
     "ac", "armor_type", "hp", "hit_dice", "speed", "stats", "saving_throws", "skills",
     "damage_vulnerabilities", "damage_resistances", "damage_immunities", "condition_immunities",
     "senses", "languages", "cr", "xp",
     "traits", "actions", "legendary_actions", "reactions", "lair_actions", "regional_effects"]

  lemma MonsterKeysBySection()
    ensures MonsterKeys == UniversalKeys + IdentityKeys + DefenseKeys + AbilitiesKeys
                           + DamageAndSensesKeys + CrXpKeys + TraitsKeys
  {
  }

  /** The value a check produces, `None` for the error. */
  function ValueOf(r: Result<Json, MonsterError>): Option<Json> {
    if r.Ok? then Some(r.value) else None
  }

  /** `if (monster[key]) normalized[key] = monster[key]` */
  function IfTruthy(o: Option<Json>): Option<Json> {
    if Truthy(o) then o else None
  }

  /** `if (monster[key] && Object.keys(monster[key]).length) normalized[key] = monster[key]` */
  function IfHasKeys(o: Option<Json>): Option<Json> {
    if Truthy(o) && OwnKeyCount(o.value) > 0 then o else None
  }

  /** What `xp` is assigned when its check passes: nothing when absent. */
  function XpSlot(xp: Option<Json>): Option<Json> {
    match NormalizeXp(xp)
    case Ok(o) => o
    case Err(_) => None
  }

  /* What each assignment stores when every check passes, section by
     section and aligned with the keys above: `None` where the source
     assigns nothing. */

  function UniversalSlots(m: Json, index: nat): seq<Option<Json>> {
    [Some(JStr(NormalizeId(Get(m, "id"), index))),
     ValueOf(NormalizeSources(Get(m, "sources"))),
     IfTruthy(Get(m, "last_updated"))]
  }

  function IdentitySlots(m: Json): seq<Option<Json>> {
    [ValueOf(RequireString(Get(m, "name"), "name")),
     ValueOf(RequireString(Get(m, "creature_type"), "creature_type")),
     IfTruthy(Get(m, "subtype")),
     ValueOf(RequireString(Get(m, "size"), "size")),
     ValueOf(RequireString(Get(m, "alignment"), "alignment"))]
  }

  function DefenseSlots(m: Json): seq<Option<Json>> {
    [ValueOf(NormalizeAC(Get(m, "ac"))),
     ValueOf(NormalizeArmorType(Get(m, "armor_type"))),
     ValueOf(NormalizeNumber(Get(m, "hp"), "hp")),
     ValueOf(RequireString(Get(m, "hit_dice"), "hit_dice"))]
  }

  function AbilitiesSlots(m: Json): seq<Option<Json>> {
    [ValueOf(NormalizeSpeed(Get(m, "speed"))),
     ValueOf(NormalizeStatsSpec(Get(m, "stats"), m)),
     IfHasKeys(Get(m, "saving_throws")),
     IfHasKeys(Get(m, "skills"))]
  }

  function DamageAndSensesSlots(m: Json): seq<Option<Json>> {
    [IfNonEmptyArray(Get(m, "damage_vulnerabilities")),
     IfNonEmptyArray(Get(m, "damage_resistances")),
     IfNonEmptyArray(Get(m, "damage_immunities")),
     IfNonEmptyArray(Get(m, "condition_immunities")),
     IfHasKeys(Get(m, "senses")),
     IfNonEmptyArray(Get(m, "languages"))]
  }

  function CrXpSlots(m: Json): seq<Option<Json>> {
    [ValueOf(NormalizeNumber(Get(m, "cr"), "cr")), XpSlot(Get(m, "xp"))]
  }

  function TraitsSlots(m: Json): seq<Option<Json>> {
    [IfNonEmptyArray(Get(m, "traits")),
     IfNonEmptyArray(Get(m, "actions")),
     IfNonEmptyArray(Get(m, "legendary_actions")),
     IfNonEmptyArray(Get(m, "reactions")),
     IfNonEmptyArray(Get(m, "lair_actions")),
     IfNonEmptyArray(Get(m, "regional_effects"))]
  }

  /** The slots of a monster, one per key of `MonsterKeys`. */
  function MonsterSlots(m: Json, index: nat): seq<Option<Json>> {
    UniversalSlots(m, index) + IdentitySlots(m) + DefenseSlots(m) + AbilitiesSlots(m)
    + DamageAndSensesSlots(m) + CrXpSlots(m) + TraitsSlots(m)
  }

  /* What each section leaves in an object that holds `fs` when it starts. */

  function UniversalFields(fs: Fields, m: Json, index: nat): Fields {
    AssignFrom(fs, UniversalKeys, UniversalSlots(m, index))
  }

  function IdentityFields(fs: Fields, m: Json): Fields {
    AssignFrom(fs, IdentityKeys, IdentitySlots(m))
  }

  function DefenseFields(fs: Fields, m: Json): Fields {
    AssignFrom(fs, DefenseKeys, DefenseSlots(m))
  }

  function AbilitiesFields(fs: Fields, m: Json): Fields {
    AssignFrom(fs, AbilitiesKeys, AbilitiesSlots(m))
  }

  function DamageAndSensesFields(fs: Fields, m: Json): Fields {
    AssignFrom(fs, DamageAndSensesKeys, DamageAndSensesSlots(m))
  }

  function CrXpFields(fs: Fields, m: Json): Fields {
    AssignFrom(fs, CrXpKeys, CrXpSlots(m))
  }

  function TraitsFields(fs: Fields, m: Json): Fields {
    AssignFrom(fs, TraitsKeys, TraitsSlots(m))
  }

  /** The properties of the record `normalizeMonster` builds, section after section. */
  function MonsterFields(m: Json, index: nat): Fields {
    TraitsFields(CrXpFields(DamageAndSensesFields(AbilitiesFields(DefenseFields(
      IdentityFields(UniversalFields([], m, index), m), m), m), m), m), m)
  }

  /** The sections together are the slot assignments of all of `MonsterKeys`. */
  lemma MonsterFieldsAssigned(m: Json, index: nat)
    ensures MonsterFields(m, index) == AssignFrom([], MonsterKeys, MonsterSlots(m, index))
  {
    MonsterKeysBySection();
    var k1, v1 := UniversalKeys, UniversalSlots(m, index);
    var k2, v2 := k1 + IdentityKeys, v1 + IdentitySlots(m);
    var k3, v3 := k2 + DefenseKeys, v2 + DefenseSlots(m);
    var k4, v4 := k3 + AbilitiesKeys, v3 + AbilitiesSlots(m);
    var k5, v5 := k4 + DamageAndSensesKeys, v4 + DamageAndSensesSlots(m);
    var k6, v6 := k5 + CrXpKeys, v5 + CrXpSlots(m);
    AssignFromConcat([], k1, v1, IdentityKeys, IdentitySlots(m));
    AssignFromConcat([], k2, v2, DefenseKeys, DefenseSlots(m));
    AssignFromConcat([], k3, v3, AbilitiesKeys, AbilitiesSlots(m));
    AssignFromConcat([], k4, v4, DamageAndSensesKeys, DamageAndSensesSlots(m));
    AssignFromConcat([], k5, v5, CrXpKeys, CrXpSlots(m));
    AssignFromConcat([], k6, v6, TraitsKeys, TraitsSlots(m));
  }

  /* Each section is its assignments one after the other. */

  lemma UniversalUnroll(fs: Fields, m: Json, index: nat)
    ensures UniversalFields(fs, m, index)
         == SetSlot(SetSlot(SetSlot(fs,
              "id", Some(JStr(NormalizeId(Get(m, "id"), index)))),
              "sources", ValueOf(NormalizeSources(Get(m, "sources")))),
              "last_updated", IfTruthy(Get(m, "last_updated")))
  {
    AssignFrom3(fs, "id", "sources", "last_updated",
                Some(JStr(NormalizeId(Get(m, "id"), index))), ValueOf(NormalizeSources(Get(m, "sources"))),
                IfTruthy(Get(m, "last_updated")));
  }

  lemma IdentityUnroll(fs: Fields, m: Json)
    ensures IdentityFields(fs, m)
         == SetSlot(SetSlot(SetSlot(SetSlot(SetSlot(fs,
              "name", ValueOf(RequireString(Get(m, "name"), "name"))),
              "creature_type", ValueOf(RequireString(Get(m, "creature_type"), "creature_type"))),
              "subtype", IfTruthy(Get(m, "subtype"))),
              "size", ValueOf(RequireString(Get(m, "size"), "size"))),
              "alignment", ValueOf(RequireString(Get(m, "alignment"), "alignment")))
  {
    AssignFrom5(fs, "name", "creature_type", "subtype", "size", "alignment",
                ValueOf(RequireString(Get(m, "name"), "name")),
                ValueOf(RequireString(Get(m, "creature_type"), "creature_type")),
                IfTruthy(Get(m, "subtype")),
                ValueOf(RequireString(Get(m, "size"), "size")),
                ValueOf(RequireString(Get(m, "alignment"), "alignment")));
  }

  lemma DefenseUnroll(fs: Fields, m: Json)
    ensures DefenseFields(fs, m)
         == SetSlot(SetSlot(SetSlot(SetSlot(fs,
              "ac", ValueOf(NormalizeAC(Get(m, "ac")))),
              "armor_type", ValueOf(NormalizeArmorType(Get(m, "armor_type")))),
              "hp", ValueOf(NormalizeNumber(Get(m, "hp"), "hp"))),
              "hit_dice", ValueOf(RequireString(Get(m, "hit_dice"), "hit_dice")))
  {
    AssignFrom4(fs, "ac", "armor_type", "hp", "hit_dice",
                ValueOf(NormalizeAC(Get(m, "ac"))),
                ValueOf(NormalizeArmorType(Get(m, "armor_type"))),
                ValueOf(NormalizeNumber(Get(m, "hp"), "hp")),
                ValueOf(RequireString(Get(m, "hit_dice"), "hit_dice")));
  }

  lemma AbilitiesUnroll(fs: Fields, m: Json)
    ensures AbilitiesFields(fs, m)
         == SetSlot(SetSlot(SetSlot(SetSlot(fs,
              "speed", ValueOf(NormalizeSpeed(Get(m, "speed")))),
              "stats", ValueOf(NormalizeStatsSpec(Get(m, "stats"), m))),
              "saving_throws", IfHasKeys(Get(m, "saving_throws"))),
              "skills", IfHasKeys(Get(m, "skills")))
  {
    AssignFrom4(fs, "speed", "stats", "saving_throws", "skills",
                ValueOf(NormalizeSpeed(Get(m, "speed"))),
                ValueOf(NormalizeStatsSpec(Get(m, "stats"), m)),
                IfHasKeys(Get(m, "saving_throws")),
                IfHasKeys(Get(m, "skills")));
  }

  lemma DamageAndSensesUnroll(fs: Fields, m: Json)
    ensures DamageAndSensesFields(fs, m)
         == SetSlot(SetSlot(SetSlot(SetSlot(SetSlot(SetSlot(fs,
              "damage_vulnerabilities", IfNonEmptyArray(Get(m, "damage_vulnerabilities"))),
              "damage_resistances", IfNonEmptyArray(Get(m, "damage_resistances"))),
              "damage_immunities", IfNonEmptyArray(Get(m, "damage_immunities"))),
              "condition_immunities", IfNonEmptyArray(Get(m, "condition_immunities"))),
              "senses", IfHasKeys(Get(m, "senses"))),
              "languages", IfNonEmptyArray(Get(m, "languages")))
  {
    AssignFrom6(fs, "damage_vulnerabilities", "damage_resistances", "damage_immunities",
                "condition_immunities", "senses", "languages",
                IfNonEmptyArray(Get(m, "damage_vulnerabilities")),
                IfNonEmptyArray(Get(m, "damage_resistances")),
                IfNonEmptyArray(Get(m, "damage_immunities")),
                IfNonEmptyArray(Get(m, "condition_immunities")),
                IfHasKeys(Get(m, "senses")),
                IfNonEmptyArray(Get(m, "languages")));
  }

  lemma CrXpUnroll(fs: Fields, m: Json)
    ensures CrXpFields(fs, m)
         == SetSlot(SetSlot(fs, "cr", ValueOf(NormalizeNumber(Get(m, "cr"), "cr"))), "xp", XpSlot(Get(m, "xp")))
  {
    AssignFrom2(fs, "cr", "xp", ValueOf(NormalizeNumber(Get(m, "cr"), "cr")), XpSlot(Get(m, "xp")));
  }

  lemma TraitsUnroll(fs: Fields, m: Json)
    ensures TraitsFields(fs, m)
         == SetSlot(SetSlot(SetSlot(SetSlot(SetSlot(SetSlot(fs,
              "traits", IfNonEmptyArray(Get(m, "traits"))),
              "actions", IfNonEmptyArray(Get(m, "actions"))),
              "legendary_actions", IfNonEmptyArray(Get(m, "legendary_actions"))),
              "reactions", IfNonEmptyArray(Get(m, "reactions"))),
              "lair_actions", IfNonEmptyArray(Get(m, "lair_actions"))),
              "regional_effects", IfNonEmptyArray(Get(m, "regional_effects")))
  {
    AssignFrom6(fs, "traits", "actions", "legendary_actions", "reactions", "lair_actions", "regional_effects",
                IfNonEmptyArray(Get(m, "traits")),
                IfNonEmptyArray(Get(m, "actions")),
                IfNonEmptyArray(Get(m, "legendary_actions")),
                IfNonEmptyArray(Get(m, "reactions")),
                IfNonEmptyArray(Get(m, "lair_actions")),
                IfNonEmptyArray(Get(m, "regional_effects")));
  }

  /** The error a check throws, if any. */
  function ErrorOf<T>(r: Result<T, MonsterError>): Option<MonsterError> {
    if r.Ok? then None else Some(r.error)
  }

  /** The first of two checks that throws. */
  function OrElse(first: Option<MonsterError>, next: Option<MonsterError>): Option<MonsterError> {
    if first.Some? then first else next
  }

  // The checks of each section of `normalizeMonster`, in the source's order.

  function UniversalError(m: Json): Option<MonsterError> {
    ErrorOf(NormalizeSources(Get(m, "sources")))
  }

  function IdentityError(m: Json): Option<MonsterError> {
    OrElse(ErrorOf(RequireString(Get(m, "name"), "name")),
    OrElse(ErrorOf(RequireString(Get(m, "creature_type"), "creature_type")),
    OrElse(ErrorOf(RequireString(Get(m, "size"), "size")),
           ErrorOf(RequireString(Get(m, "alignment"), "alignment")))))
  }

  function DefenseError(m: Json): Option<MonsterError> {
    OrElse(ErrorOf(NormalizeAC(Get(m, "ac"))),
    OrElse(ErrorOf(NormalizeArmorType(Get(m, "armor_type"))),
    OrElse(ErrorOf(NormalizeNumber(Get(m, "hp"), "hp")),
           ErrorOf(RequireString(Get(m, "hit_dice"), "hit_dice")))))
  }

  function SpeedError(m: Json): Option<MonsterError> {
    ErrorOf(NormalizeSpeed(Get(m, "speed")))
  }

  function AbilitiesError(m: Json): Option<MonsterError> {
    ErrorOf(NormalizeStatsSpec(Get(m, "stats"), m))
  }

  function CrXpError(m: Json): Option<MonsterError> {
    OrElse(ErrorOf(NormalizeNumber(Get(m, "cr"), "cr")), ErrorOf(NormalizeXp(Get(m, "xp"))))
  }

  /** The first check of `normalizeMonster` that throws, for an object entry. */
  function MonsterCheck(m: Json): Option<MonsterError> {
    OrElse(UniversalError(m), OrElse(IdentityError(m), OrElse(DefenseError(m),
    OrElse(SpeedError(m), OrElse(AbilitiesError(m), CrXpError(m))))))
  }

  /** What `normalizeMonster(monster, index)` returns or throws: the first
      failing check, or else the record the sections build. */
  function NormalizeMonsterSpec(m: Json, index: nat): Result<Json, MonsterError> {
    if !IsObjectLike(Some(m)) then Err(InvalidEntry(index))
    else if MonsterCheck(m).Some? then Err(MonsterCheck(m).value)
    else Ok(JObj(MonsterFields(m, index)))
  }

  /** `copyIfArray(target, source, field)` */
  method CopyIfArray(target: JsObject, source: Json, field: string)
    modifies target
    ensures target.fields == SetSlot(old(target.fields), field, IfNonEmptyArray(Get(source, field)))
  {
    var v := Get(source, field);
    if IsArray(v) && |v.value.elems| > 0 {
      target.Put(field, v.value);
    }
  }

  /* The assignment patterns of `normalizeMonster`. */

  /** `normalized[key] = check(...)`: the check throws, or its value is assigned. */
  method PutChecked(normalized: JsObject, key: string, checked: Result<Json, MonsterError>)
    returns (e: Option<MonsterError>)
    modifies normalized
    ensures e == ErrorOf(checked)
    ensures e.None? ==> normalized.fields == SetSlot(old(normalized.fields), key, ValueOf(checked))
  {
    if checked.Err? {
      return Some(checked.error);
    }
    normalized.Put(key, checked.value);
    e := None;
  }

  /** `if (monster[field]) normalized[field] = monster[field]` */
  method CopyIfTruthy(normalized: JsObject, m: Json, field: string)
    modifies normalized
    ensures normalized.fields == SetSlot(old(normalized.fields), field, IfTruthy(Get(m, field)))
  {
    var v := Get(m, field);
    if Truthy(v) {
      normalized.Put(field, v.value);
    }
  }

  /** `if (monster[field] && Object.keys(monster[field]).length) normalized[field] = monster[field]` */
  method CopyIfHasKeys(normalized: JsObject, m: Json, field: string)
    modifies normalized
    ensures normalized.fields == SetSlot(old(normalized.fields), field, IfHasKeys(Get(m, field)))
  {
    var v := Get(m, field);
    if Truthy(v) && OwnKeyCount(v.value) > 0 {
      normalized.Put(field, v.value);
    }
  }

  /** `if (monster.xp !== undefined) normalized.xp = monster.xp === "" ? "" : normalizeNumber(monster.xp, "xp")` */
  method PutXp(normalized: JsObject, xp: Option<Json>) returns (e: Option<MonsterError>)
    modifies normalized
    ensures e == ErrorOf(NormalizeXp(xp))
    ensures e.None? ==> normalized.fields == SetSlot(old(normalized.fields), "xp", XpSlot(xp))
  {
    if xp.Some? {
      if xp.value == JStr("") {
        normalized.Put("xp", JStr(""));
      } else {
        var n := NormalizeNumber(xp, "xp");
        if n.Err? {
          return Some(n.error);
        }
        normalized.Put("xp", n.value);
      }
    }
    e := None;
  }

  /** `normalizeMonster(monster, index)`: the assignments of each section in
      turn on a fresh object, stopping at the first check that throws. */
  method NormalizeMonster(m: Json, index: nat) returns (r: Result<Json, MonsterError>)
    ensures r == NormalizeMonsterSpec(m, index)
  {
    if !IsObjectLike(Some(m)) {
      return Err(InvalidEntry(index));
    }
    var normalized := new JsObject();
    var e: Option<MonsterError>;

    // REQUIRED – UNIVERSAL
    UniversalUnroll([], m, index);
    normalized.Put("id", JStr(NormalizeId(Get(m, "id"), index)));
    e := PutChecked(normalized, "sources", NormalizeSources(Get(m, "sources")));
    if e.Some? { return Err(e.value); }
    CopyIfTruthy(normalized, m, "last_updated");

    // CORE IDENTITY
    ghost var f := normalized.fields;
    IdentityUnroll(f, m);
    e := PutChecked(normalized, "name", RequireString(Get(m, "name"), "name"));
    if e.Some? { return Err(e.value); }
    e := PutChecked(normalized, "creature_type", RequireString(Get(m, "creature_type"), "creature_type"));
    if e.Some? { return Err(e.value); }
    CopyIfTruthy(normalized, m, "subtype");
    e := PutChecked(normalized, "size", RequireString(Get(m, "size"), "size"));
    if e.Some? { return Err(e.value); }
    e := PutChecked(normalized, "alignment", RequireString(Get(m, "alignment"), "alignment"));
    if e.Some? { return Err(e.value); }

    // DEFENSE
    f := normalized.fields;
    DefenseUnroll(f, m);
    e := PutChecked(normalized, "ac", NormalizeAC(Get(m, "ac")));
    if e.Some? { return Err(e.value); }
    e := PutChecked(normalized, "armor_type", NormalizeArmorType(Get(m, "armor_type")));
    if e.Some? { return Err(e.value); }
    e := PutChecked(normalized, "hp", NormalizeNumber(Get(m, "hp"), "hp"));
    if e.Some? { return Err(e.value); }
    e := PutChecked(normalized, "hit_dice", RequireString(Get(m, "hit_dice"), "hit_dice"));
    if e.Some? { return Err(e.value); }

    // SPEED, then ABILITIES & PROFICIENCIES
    f := normalized.fields;
    AbilitiesUnroll(f, m);
    e := PutChecked(normalized, "speed", NormalizeSpeed(Get(m, "speed")));
    if e.Some? { return Err(e.value); }
    var stats := NormalizeStats(Get(m, "stats"), m);
    e := PutChecked(normalized, "stats", stats);
    if e.Some? { return Err(e.value); }
    CopyIfHasKeys(normalized, m, "saving_throws");
    CopyIfHasKeys(normalized, m, "skills");

    // DAMAGE & CONDITIONS, then SENSES & LANGUAGES (the `languages` test is `copyIfArray`'s)
    f := normalized.fields;
    DamageAndSensesUnroll(f, m);
    CopyIfArray(normalized, m, "damage_vulnerabilities");
    CopyIfArray(normalized, m, "damage_resistances");
    CopyIfArray(normalized, m, "damage_immunities");
    CopyIfArray(normalized, m, "condition_immunities");
    CopyIfHasKeys(normalized, m, "senses");
    CopyIfArray(normalized, m, "languages");

    // CR & XP
    f := normalized.fields;
    CrXpUnroll(f, m);
    e := PutChecked(normalized, "cr", NormalizeNumber(Get(m, "cr"), "cr"));
    if e.Some? { return Err(e.value); }
    e := PutXp(normalized, Get(m, "xp"));
    if e.Some? { return Err(e.value); }

    // TRAITS & ACTIONS
    f := normalized.fields;
    TraitsUnroll(f, m);
    CopyIfArray(normalized, m, "traits");
    CopyIfArray(normalized, m, "actions");
    CopyIfArray(normalized, m, "legendary_actions");
    CopyIfArray(normalized, m, "reactions");
    CopyIfArray(normalized, m, "lair_actions");
    CopyIfArray(normalized, m, "regional_effects");

    return Ok(JObj(normalized.fields));
  }

  /* ---------------------------------------------------------------
     The dataset
     --------------------------------------------------------------- */

  /** `normalizeMonsters(monsters)`: the array's records normalized with
      their positions as indices; the first record that throws aborts the map. */
  function NormalizeMonsters(monsters: Option<Json>): Result<seq<Json>, MonsterError> {
    if !IsArray(monsters) then Err(DatasetNotArray) else MapIndexed(NormalizeMonsterSpec, monsters.value.elems, 0)
  }

  /** The dataset must be an array; it is normalized exactly when every
      record is, and then record `i` of the output is record `i` of the
      input normalized with index `i`. The first record that throws decides the error. */
  lemma NormalizeMonstersSpec(monsters: Option<Json>)
    ensures !IsArray(monsters) ==> NormalizeMonsters(monsters) == Err(DatasetNotArray)
    ensures IsArray(monsters) ==>
              var ms := monsters.value.elems;
              && (NormalizeMonsters(monsters).Ok? <==> forall i :: 0 <= i < |ms| ==> NormalizeMonsterSpec(ms[i], i).Ok?)
              && (NormalizeMonsters(monsters).Ok? ==>
                    |NormalizeMonsters(monsters).value| == |ms|
                    && forall i :: 0 <= i < |ms| ==> NormalizeMonsters(monsters).value[i] == NormalizeMonsterSpec(ms[i], i).value)
  {
    if IsArray(monsters) {
      MapIndexedOkFromZero(NormalizeMonsterSpec, monsters.value.elems);
    }
  }

  lemma NormalizeMonstersFirstError(monsters: Option<Json>, i: nat)
    requires IsArray(monsters) && i < |monsters.value.elems|
    requires NormalizeMonsterSpec(monsters.value.elems[i], i).Err?
    requires forall j :: 0 <= j < i ==> NormalizeMonsterSpec(monsters.value.elems[j], j).Ok?
    ensures NormalizeMonsters(monsters) == Err(NormalizeMonsterSpec(monsters.value.elems[i], i).error)
  {
    MapIndexedFirstErrorFromZero(NormalizeMonsterSpec, monsters.value.elems, i);
  }

  /* ---------------------------------------------------------------
     What a normalized monster holds
     --------------------------------------------------------------- */

  /** A synthetic id is the prefix and then the index in decimal, padded
      with zeros to four digits; a non-blank string id is kept. */
  lemma NormalizeIdSpec(id: Option<Json>, index: nat)
    ensures IsNonBlankString(id) ==> NormalizeId(id, index) == id.value.s
    ensures !IsNonBlankString(id) ==>
              var n, p := NormalizeId(id, index), |SyntheticIdPrefix|;
              && |n| >= p + 4 && n[..p] == SyntheticIdPrefix
              && AllDigits(n[p..]) && DigitsValue(n[p..]) == index
              && (index < 10000 ==> |n| == p + 4)
  {
    if !IsNonBlankString(id) {
      var d := NatToString(index);
      var padded := PadStart(d, 4, '0');
      var n := SyntheticIdPrefix + padded;
      PadStartSpec(d, 4, '0');
      NatToStringRoundTrip(index);
      assert n[..|SyntheticIdPrefix|] == SyntheticIdPrefix && n[|SyntheticIdPrefix|..] == padded;
      if |d| < 4 {
        LeadingZerosValue(4 - |d|, d);
      }
      if index < 10000 {
        NatToStringLength(index, 4);
      }
    }
  }

  /** Two records without a usable id get different synthetic ids. */
  lemma SyntheticIdsDiffer(a: Option<Json>, b: Option<Json>, i: nat, j: nat)
    requires !IsNonBlankString(a) && !IsNonBlankString(b) && i != j
    ensures NormalizeId(a, i) != NormalizeId(b, j)
  {
    NormalizeIdSpec(a, i);
    NormalizeIdSpec(b, j);
  }

  /* Looking one key up in the record. The sections assign disjoint keys,
     so a key holds what its own section's slot holds. */

  lemma UniversalKeysApart()
    ensures forall i :: 0 <= i < |UniversalKeys| ==>
              && UniversalKeys[i] !in IdentityKeys && UniversalKeys[i] !in DefenseKeys
              && UniversalKeys[i] !in AbilitiesKeys && UniversalKeys[i] !in DamageAndSensesKeys
              && UniversalKeys[i] !in CrXpKeys && UniversalKeys[i] !in TraitsKeys
    ensures forall i, j :: 0 <= i < |UniversalKeys| && 0 <= j < |UniversalKeys| && i != j ==> UniversalKeys[i] != UniversalKeys[j]
  {
  }

  lemma UniversalLookup(m: Json, index: nat, i: nat)
    requires i < |UniversalKeys|
    ensures Lookup(MonsterFields(m, index), UniversalKeys[i]) == UniversalSlots(m, index)[i]
  {
    var k := UniversalKeys[i];
    UniversalKeysApart();
    var f1 := UniversalFields([], m, index);
    AssignFromLookup([], UniversalKeys, UniversalSlots(m, index), i);
    var f2 := IdentityFields(f1, m);
    AssignFromMissing(f1, IdentityKeys, IdentitySlots(m), k);
    var f3 := DefenseFields(f2, m);
    AssignFromMissing(f2, DefenseKeys, DefenseSlots(m), k);
    var f4 := AbilitiesFields(f3, m);
    AssignFromMissing(f3, AbilitiesKeys, AbilitiesSlots(m), k);
    var f5 := DamageAndSensesFields(f4, m);
    AssignFromMissing(f4, DamageAndSensesKeys, DamageAndSensesSlots(m), k);
    var f6 := CrXpFields(f5, m);
    AssignFromMissing(f5, CrXpKeys, CrXpSlots(m), k);
    AssignFromMissing(f6, TraitsKeys, TraitsSlots(m), k);
  }

  lemma IdentityKeysApart()
    ensures forall i :: 0 <= i < |IdentityKeys| ==>
              && IdentityKeys[i] !in UniversalKeys && IdentityKeys[i] !in DefenseKeys
              && IdentityKeys[i] !in AbilitiesKeys && IdentityKeys[i] !in DamageAndSensesKeys
              && IdentityKeys[i] !in CrXpKeys && IdentityKeys[i] !in TraitsKeys
    ensures forall i, j :: 0 <= i < |IdentityKeys| && 0 <= j < |IdentityKeys| && i != j ==> IdentityKeys[i] != IdentityKeys[j]
  {
  }

  lemma IdentityLookup(m: Json, index: nat, i: nat)
    requires i < |IdentityKeys|
    ensures Lookup(MonsterFields(m, index), IdentityKeys[i]) == IdentitySlots(m)[i]
  {
    var k := IdentityKeys[i];
    IdentityKeysApart();
    var f1 := UniversalFields([], m, index);
    AssignFromMissing([], UniversalKeys, UniversalSlots(m, index), k);
    var f2 := IdentityFields(f1, m);
    AssignFromLookup(f1, IdentityKeys, IdentitySlots(m), i);
    var f3 := DefenseFields(f2, m);
    AssignFromMissing(f2, DefenseKeys, DefenseSlots(m), k);
    var f4 := AbilitiesFields(f3, m);
    AssignFromMissing(f3, AbilitiesKeys, AbilitiesSlots(m), k);
    var f5 := DamageAndSensesFields(f4, m);
    AssignFromMissing(f4, DamageAndSensesKeys, DamageAndSensesSlots(m), k);
    var f6 := CrXpFields(f5, m);
    AssignFromMissing(f5, CrXpKeys, CrXpSlots(m), k);
    AssignFromMissing(f6, TraitsKeys, TraitsSlots(m), k);
  }

  lemma DefenseKeysApart()
    ensures forall i :: 0 <= i < |DefenseKeys| ==>
              && DefenseKeys[i] !in UniversalKeys && DefenseKeys[i] !in IdentityKeys
              && DefenseKeys[i] !in AbilitiesKeys && DefenseKeys[i] !in DamageAndSensesKeys
              && DefenseKeys[i] !in CrXpKeys && DefenseKeys[i] !in TraitsKeys
    ensures forall i, j :: 0 <= i < |DefenseKeys| && 0 <= j < |DefenseKeys| && i != j ==> DefenseKeys[i] != DefenseKeys[j]
  {
  }

  lemma DefenseLookup(m: Json, index: nat, i: nat)
    requires i < |DefenseKeys|
    ensures Lookup(MonsterFields(m, index), DefenseKeys[i]) == DefenseSlots(m)[i]
  {
    var k := DefenseKeys[i];
    DefenseKeysApart();
    var f1 := UniversalFields([], m, index);
    AssignFromMissing([], UniversalKeys, UniversalSlots(m, index), k);
    var f2 := IdentityFields(f1, m);
    AssignFromMissing(f1, IdentityKeys, IdentitySlots(m), k);
    var f3 := DefenseFields(f2, m);
    AssignFromLookup(f2, DefenseKeys, DefenseSlots(m), i);
    var f4 := AbilitiesFields(f3, m);
    AssignFromMissing(f3, AbilitiesKeys, AbilitiesSlots(m), k);
    var f5 := DamageAndSensesFields(f4, m);
    AssignFromMissing(f4, DamageAndSensesKeys, DamageAndSensesSlots(m), k);
    var f6 := CrXpFields(f5, m);
    AssignFromMissing(f5, CrXpKeys, CrXpSlots(m), k);
    AssignFromMissing(f6, TraitsKeys, TraitsSlots(m), k);
  }

  lemma AbilitiesKeysApart()
    ensures forall i :: 0 <= i < |AbilitiesKeys| ==>
              && AbilitiesKeys[i] !in UniversalKeys && AbilitiesKeys[i] !in IdentityKeys
              && AbilitiesKeys[i] !in DefenseKeys && AbilitiesKeys[i] !in DamageAndSensesKeys
              && AbilitiesKeys[i] !in CrXpKeys && AbilitiesKeys[i] !in TraitsKeys
    ensures forall i, j :: 0 <= i < |AbilitiesKeys| && 0 <= j < |AbilitiesKeys| && i != j ==> AbilitiesKeys[i] != AbilitiesKeys[j]
  {
  }

  lemma AbilitiesLookup(m: Json, index: nat, i: nat)
    requires i < |AbilitiesKeys|
    ensures Lookup(MonsterFields(m, index), AbilitiesKeys[i]) == AbilitiesSlots(m)[i]
  {
    var k := AbilitiesKeys[i];
    AbilitiesKeysApart();
    var f1 := UniversalFields([], m, index);
    AssignFromMissing([], UniversalKeys, UniversalSlots(m, index), k);
    var f2 := IdentityFields(f1, m);
    AssignFromMissing(f1, IdentityKeys, IdentitySlots(m), k);
    var f3 := DefenseFields(f2, m);
    AssignFromMissing(f2, DefenseKeys, DefenseSlots(m), k);
    var f4 := AbilitiesFields(f3, m);
    AssignFromLookup(f3, AbilitiesKeys, AbilitiesSlots(m), i);
    var f5 := DamageAndSensesFields(f4, m);
    AssignFromMissing(f4, DamageAndSensesKeys, DamageAndSensesSlots(m), k);
    var f6 := CrXpFields(f5, m);
    AssignFromMissing(f5, CrXpKeys, CrXpSlots(m), k);
    AssignFromMissing(f6, TraitsKeys, TraitsSlots(m), k);
  }

  lemma DamageAndSensesKeysApart()
    ensures forall i :: 0 <= i < |DamageAndSensesKeys| ==>
              && DamageAndSensesKeys[i] !in UniversalKeys && DamageAndSensesKeys[i] !in IdentityKeys
              && DamageAndSensesKeys[i] !in DefenseKeys && DamageAndSensesKeys[i] !in AbilitiesKeys
              && DamageAndSensesKeys[i] !in CrXpKeys && DamageAndSensesKeys[i] !in TraitsKeys
    ensures forall i, j :: 0 <= i < |DamageAndSensesKeys| && 0 <= j < |DamageAndSensesKeys| && i != j ==> DamageAndSensesKeys[i] != DamageAndSensesKeys[j]
  {
  }

  lemma DamageAndSensesLookup(m: Json, index: nat, i: nat)
    requires i < |DamageAndSensesKeys|
    ensures Lookup(MonsterFields(m, index), DamageAndSensesKeys[i]) == DamageAndSensesSlots(m)[i]
  {
    var k := DamageAndSensesKeys[i];
    DamageAndSensesKeysApart();
    var f1 := UniversalFields([], m, index);
    AssignFromMissing([], UniversalKeys, UniversalSlots(m, index), k);
    var f2 := IdentityFields(f1, m);
    AssignFromMissing(f1, IdentityKeys, IdentitySlots(m), k);
    var f3 := DefenseFields(f2, m);
    AssignFromMissing(f2, DefenseKeys, DefenseSlots(m), k);
    var f4 := AbilitiesFields(f3, m);
    AssignFromMissing(f3, AbilitiesKeys, AbilitiesSlots(m), k);
    var f5 := DamageAndSensesFields(f4, m);
    AssignFromLookup(f4, DamageAndSensesKeys, DamageAndSensesSlots(m), i);
    var f6 := CrXpFields(f5, m);
    AssignFromMissing(f5, CrXpKeys, CrXpSlots(m), k);
    AssignFromMissing(f6, TraitsKeys, TraitsSlots(m), k);
  }

  lemma CrXpKeysApart()
    ensures forall i :: 0 <= i < |CrXpKeys| ==>
              && CrXpKeys[i] !in UniversalKeys && CrXpKeys[i] !in IdentityKeys
              && CrXpKeys[i] !in DefenseKeys && CrXpKeys[i] !in AbilitiesKeys
              && CrXpKeys[i] !in DamageAndSensesKeys && CrXpKeys[i] !in TraitsKeys
    ensures forall i, j :: 0 <= i < |CrXpKeys| && 0 <= j < |CrXpKeys| && i != j ==> CrXpKeys[i] != CrXpKeys[j]
  {
  }

  lemma CrXpLookup(m: Json, index: nat, i: nat)
    requires i < |CrXpKeys|
    ensures Lookup(MonsterFields(m, index), CrXpKeys[i]) == CrXpSlots(m)[i]
  {
    var k := CrXpKeys[i];
    CrXpKeysApart();
    var f1 := UniversalFields([], m, index);
    AssignFromMissing([], UniversalKeys, UniversalSlots(m, index), k);
    var f2 := IdentityFields(f1, m);
    AssignFromMissing(f1, IdentityKeys, IdentitySlots(m), k);
    var f3 := DefenseFields(f2, m);
    AssignFromMissing(f2, DefenseKeys, DefenseSlots(m), k);
    var f4 := AbilitiesFields(f3, m);
    AssignFromMissing(f3, AbilitiesKeys, AbilitiesSlots(m), k);
    var f5 := DamageAndSensesFields(f4, m);
    AssignFromMissing(f4, DamageAndSensesKeys, DamageAndSensesSlots(m), k);
    var f6 := CrXpFields(f5, m);
    AssignFromLookup(f5, CrXpKeys, CrXpSlots(m), i);
    AssignFromMissing(f6, TraitsKeys, TraitsSlots(m), k);
  }

  lemma TraitsKeysApart()
    ensures forall i :: 0 <= i < |TraitsKeys| ==>
              && TraitsKeys[i] !in UniversalKeys && TraitsKeys[i] !in IdentityKeys
              && TraitsKeys[i] !in DefenseKeys && TraitsKeys[i] !in AbilitiesKeys
              && TraitsKeys[i] !in DamageAndSensesKeys && TraitsKeys[i] !in CrXpKeys
    ensures forall i, j :: 0 <= i < |TraitsKeys| && 0 <= j < |TraitsKeys| && i != j ==> TraitsKeys[i] != TraitsKeys[j]
  {
  }

  lemma TraitsLookup(m: Json, index: nat, i: nat)
    requires i < |TraitsKeys|
    ensures Lookup(MonsterFields(m, index), TraitsKeys[i]) == TraitsSlots(m)[i]
  {
    var k := TraitsKeys[i];
    TraitsKeysApart();
    var f1 := UniversalFields([], m, index);
    AssignFromMissing([], UniversalKeys, UniversalSlots(m, index), k);
    var f2 := IdentityFields(f1, m);
    AssignFromMissing(f1, IdentityKeys, IdentitySlots(m), k);
    var f3 := DefenseFields(f2, m);
    AssignFromMissing(f2, DefenseKeys, DefenseSlots(m), k);
    var f4 := AbilitiesFields(f3, m);
    AssignFromMissing(f3, AbilitiesKeys, AbilitiesSlots(m), k);
    var f5 := DamageAndSensesFields(f4, m);
    AssignFromMissing(f4, DamageAndSensesKeys, DamageAndSensesSlots(m), k);
    var f6 := CrXpFields(f5, m);
    AssignFromMissing(f5, CrXpKeys, CrXpSlots(m), k);
    AssignFromLookup(f6, TraitsKeys, TraitsSlots(m), i);
  }

  /** A normalized monster has no property twice and none outside
      `MonsterKeys`: keys the source does not handle (`bonus_actions`, say)
      are never copied. */
  lemma MonsterRecordKeys(m: Json, index: nat, k: string)
    requires NormalizeMonsterSpec(m, index).Ok?
    ensures NormalizeMonsterSpec(m, index).value.JObj?
    ensures DistinctKeys(NormalizeMonsterSpec(m, index).value.fields)
    ensures k in Keys(NormalizeMonsterSpec(m, index).value.fields) ==> k in MonsterKeys
  {
    MonsterFieldsAssigned(m, index);
    AssignFromDistinct([], MonsterKeys, MonsterSlots(m, index));
    if k in Keys(MonsterFields(m, index)) {
      AssignFromKeys([], MonsterKeys, MonsterSlots(m, index), k);
    }
  }

  lemma NoBonusActions(m: Json, index: nat)
    requires NormalizeMonsterSpec(m, index).Ok?
    ensures Lookup(NormalizeMonsterSpec(m, index).value.fields, "bonus_actions").None?
  {
    MonsterRecordKeys(m, index, "bonus_actions");
    BonusActionsNotAKey();
    LookupNone(MonsterFields(m, index), "bonus_actions");
  }

  lemma BonusActionsNotAKey()
    ensures "bonus_actions" !in MonsterKeys
  {
  }

  /* Unfolds the specification into its section checks and its record. */
  lemma NormalizeMonsterUnfold(m: Json, index: nat)
    ensures NormalizeMonsterSpec(m, index).Ok? <==>
              && IsObjectLike(Some(m))
              && UniversalError(m).None? && IdentityError(m).None? && DefenseError(m).None?
              && SpeedError(m).None? && AbilitiesError(m).None? && CrXpError(m).None?
    ensures NormalizeMonsterSpec(m, index).Ok? ==> NormalizeMonsterSpec(m, index).value == JObj(MonsterFields(m, index))
  {
  }

  /** An entry normalizes exactly when it is an object (or array) whose
      `sources` is a non-empty array; whose `name`, `creature_type`,
      `size`, `alignment` and `hit_dice` are non-blank strings; whose `ac`,
      `hp` and `cr` are numbers other than NaN; whose `armor_type` is
      `null`, absent or a string; whose `speed` is an object with a key;
      whose ability scores resolve; and whose `xp` is absent, `""` or a
      number other than NaN. Nothing else of the entry can make it fail,
      and its index never does. */
  lemma NormalizedRecord(m: Json, index: nat)
    ensures NormalizeMonsterSpec(m, index).Ok? <==>
              && IsObjectLike(Some(m))
              && IsNonEmptyArray(Get(m, "sources"))
              && IsNonBlankString(Get(m, "name")) && IsNonBlankString(Get(m, "creature_type"))
              && IsNonBlankString(Get(m, "size")) && IsNonBlankString(Get(m, "alignment"))
              && IsNonBlankString(Get(m, "hit_dice"))
              && IsNonNaNNumber(Get(m, "ac")) && IsNonNaNNumber(Get(m, "hp")) && IsNonNaNNumber(Get(m, "cr"))
              && (Nullish(Get(m, "armor_type")) || Get(m, "armor_type").value.JStr?)
              && IsObjectLike(Get(m, "speed")) && OwnKeyCount(Get(m, "speed").value) > 0
              && NormalizeStatsSpec(Get(m, "stats"), m).Ok?
              && (Get(m, "xp").None? || Get(m, "xp") == Some(JStr("")) || IsNonNaNNumber(Get(m, "xp")))
  {
    NormalizeMonsterUnfold(m, index);
  }

  /** The number checks turn away only `NaN`: both infinities pass, as
      does every finite number, and every value of another type fails. */
  lemma NumberCheckSpec(v: Option<Json>, field: string)
    ensures NormalizeNumber(v, field).Ok? <==> v.Some? && (v.value.JNum? || v.value.JInf?)
    ensures NormalizeNumber(v, field).Ok? ==> NormalizeNumber(v, field).value == v.value
    ensures NormalizeNumber(v, field).Err? ==> NormalizeNumber(v, field).error == NotANumber(field)
    ensures NormalizeAC(v).Ok? <==> NormalizeNumber(v, field).Ok?
  {
  }

  /** A monster whose checks pass up to `hp` but that has no `hp` is
      rejected with the error naming `hp`. */
  lemma MissingHpRejected(m: Json, index: nat)
    requires IsObjectLike(Some(m)) && IsNonEmptyArray(Get(m, "sources"))
    requires IsNonBlankString(Get(m, "name")) && IsNonBlankString(Get(m, "creature_type"))
    requires IsNonBlankString(Get(m, "size")) && IsNonBlankString(Get(m, "alignment"))
    requires IsNonNaNNumber(Get(m, "ac"))
    requires Nullish(Get(m, "armor_type")) || Get(m, "armor_type").value.JStr?
    requires Get(m, "hp").None?
    ensures NormalizeMonsterSpec(m, index) == Err(NotANumber("hp"))
  {
  }

  /** The universal fields: the id `normalizeId` gives, the `sources`
      array (non-empty, passed through), and `last_updated` only when truthy. */
  lemma MonsterUniversalFields(m: Json, index: nat)
    requires NormalizeMonsterSpec(m, index).Ok?
    ensures var f := NormalizeMonsterSpec(m, index).value.fields;
            && Lookup(f, "id") == Some(JStr(NormalizeId(Get(m, "id"), index)))
            && IsArray(Get(m, "sources")) && |Get(m, "sources").value.elems| > 0
            && Lookup(f, "sources") == Get(m, "sources")
            && Lookup(f, "last_updated") == (if Truthy(Get(m, "last_updated")) then Get(m, "last_updated") else None)
  {
    NormalizeMonsterUnfold(m, index);
    UniversalLookup(m, index, 0);
    UniversalLookup(m, index, 1);
    UniversalLookup(m, index, 2);
  }

  /** The identity fields: `name`, `creature_type`, `size` and
      `alignment` are non-blank strings, passed through; `subtype` only when truthy. */
  lemma MonsterIdentityFields(m: Json, index: nat)
    requires NormalizeMonsterSpec(m, index).Ok?
    ensures var f := NormalizeMonsterSpec(m, index).value.fields;
            && IsNonBlankString(Get(m, "name")) && Lookup(f, "name") == Get(m, "name")
            && IsNonBlankString(Get(m, "creature_type")) && Lookup(f, "creature_type") == Get(m, "creature_type")
            && IsNonBlankString(Get(m, "size")) && Lookup(f, "size") == Get(m, "size")
            && IsNonBlankString(Get(m, "alignment")) && Lookup(f, "alignment") == Get(m, "alignment")
            && Lookup(f, "subtype") == (if Truthy(Get(m, "subtype")) then Get(m, "subtype") else None)
  {
    NormalizeMonsterUnfold(m, index);
    IdentityLookup(m, index, 0);
    IdentityLookup(m, index, 1);
    IdentityLookup(m, index, 2);
    IdentityLookup(m, index, 3);
    IdentityLookup(m, index, 4);
  }

  /** The defense fields and `speed`: `ac` and `hp` are numbers other than
      NaN, `armor_type` is always a string (`""` for `null` or absent),
      `hit_dice` a non-blank string, `speed` an object with at least one key;
      all but a missing `armor_type` are passed through. */
  lemma MonsterDefenseFields(m: Json, index: nat)
    requires NormalizeMonsterSpec(m, index).Ok?
    ensures var f := NormalizeMonsterSpec(m, index).value.fields;
            && IsNonNaNNumber(Get(m, "ac")) && Lookup(f, "ac") == Get(m, "ac")
            && Lookup(f, "armor_type") == (if Nullish(Get(m, "armor_type")) then Some(JStr("")) else Get(m, "armor_type"))
            && Lookup(f, "armor_type").Some? && Lookup(f, "armor_type").value.JStr?
            && IsNonNaNNumber(Get(m, "hp")) && Lookup(f, "hp") == Get(m, "hp")
            && IsNonBlankString(Get(m, "hit_dice")) && Lookup(f, "hit_dice") == Get(m, "hit_dice")
            && IsObjectLike(Get(m, "speed")) && OwnKeyCount(Get(m, "speed").value) > 0
            && Lookup(f, "speed") == Get(m, "speed")
  {
    NormalizeMonsterUnfold(m, index);
    DefenseLookup(m, index, 0);
    DefenseLookup(m, index, 1);
    DefenseLookup(m, index, 2);
    DefenseLookup(m, index, 3);
    AbilitiesLookup(m, index, 0);
  }

  /** `stats` holds what `normalizeStats` resolves; `saving_throws` and
      `skills` are copied only when they are truthy and have a key. */
  lemma MonsterAbilitiesFields(m: Json, index: nat)
    requires NormalizeMonsterSpec(m, index).Ok?
    ensures NormalizeStatsSpec(Get(m, "stats"), m).Ok?
    ensures var f := NormalizeMonsterSpec(m, index).value.fields;
            && Lookup(f, "stats") == Some(NormalizeStatsSpec(Get(m, "stats"), m).value)
            && Lookup(f, "saving_throws") == IfHasKeys(Get(m, "saving_throws"))
            && Lookup(f, "skills") == IfHasKeys(Get(m, "skills"))
  {
    NormalizeMonsterUnfold(m, index);
    AbilitiesLookup(m, index, 1);
    AbilitiesLookup(m, index, 2);
    AbilitiesLookup(m, index, 3);
  }

  /** The damage lists and `languages` are copied only when they are
      non-empty arrays, `senses` only when truthy with a key. */
  lemma MonsterDamageAndSensesFields(m: Json, index: nat)
    requires NormalizeMonsterSpec(m, index).Ok?
    ensures var f := NormalizeMonsterSpec(m, index).value.fields;
            && Lookup(f, "damage_vulnerabilities") == IfNonEmptyArray(Get(m, "damage_vulnerabilities"))
            && Lookup(f, "damage_resistances") == IfNonEmptyArray(Get(m, "damage_resistances"))
            && Lookup(f, "damage_immunities") == IfNonEmptyArray(Get(m, "damage_immunities"))
            && Lookup(f, "condition_immunities") == IfNonEmptyArray(Get(m, "condition_immunities"))
            && Lookup(f, "senses") == IfHasKeys(Get(m, "senses"))
            && Lookup(f, "languages") == IfNonEmptyArray(Get(m, "languages"))
  {
    NormalizeMonsterUnfold(m, index);
    DamageAndSensesLookup(m, index, 0);
    DamageAndSensesLookup(m, index, 1);
    DamageAndSensesLookup(m, index, 2);
    DamageAndSensesLookup(m, index, 3);
    DamageAndSensesLookup(m, index, 4);
    DamageAndSensesLookup(m, index, 5);
  }

  /** `cr` is a number other than NaN, passed through. `xp` is passed
      through as well, absent when absent, and otherwise `""` or a number
      other than NaN. */
  lemma MonsterCrXpFields(m: Json, index: nat)
    requires NormalizeMonsterSpec(m, index).Ok?
    ensures var f := NormalizeMonsterSpec(m, index).value.fields;
            && IsNonNaNNumber(Get(m, "cr")) && Lookup(f, "cr") == Get(m, "cr")
            && Lookup(f, "xp") == Get(m, "xp")
            && (Get(m, "xp").Some? ==> Get(m, "xp") == Some(JStr("")) || IsNonNaNNumber(Get(m, "xp")))
  {
    NormalizeMonsterUnfold(m, index);
    CrXpLookup(m, index, 0);
    CrXpLookup(m, index, 1);
  }

  /** The trait and action lists are copied only when they are non-empty arrays. */
  lemma MonsterTraitsFields(m: Json, index: nat)
    requires NormalizeMonsterSpec(m, index).Ok?
    ensures var f := NormalizeMonsterSpec(m, index).value.fields;
            && Lookup(f, "traits") == IfNonEmptyArray(Get(m, "traits"))
            && Lookup(f, "actions") == IfNonEmptyArray(Get(m, "actions"))
            && Lookup(f, "legendary_actions") == IfNonEmptyArray(Get(m, "legendary_actions"))
            && Lookup(f, "reactions") == IfNonEmptyArray(Get(m, "reactions"))
            && Lookup(f, "lair_actions") == IfNonEmptyArray(Get(m, "lair_actions"))
            && Lookup(f, "regional_effects") == IfNonEmptyArray(Get(m, "regional_effects"))
  {
    NormalizeMonsterUnfold(m, index);
    TraitsLookup(m, index, 0);
    TraitsLookup(m, index, 1);
    TraitsLookup(m, index, 2);
    TraitsLookup(m, index, 3);
    TraitsLookup(m, index, 4);
    TraitsLookup(m, index, 5);
  }
  /* ---------------------------------------------------------------
     Legacy shapes and normalizing twice
     --------------------------------------------------------------- */

  /** The three shapes of ability scores agree: a `stats` object holding
      the six scores as numbers, the same object given as a legacy
      `abilities` object, and the same six scores given as top-level
      fields all resolve to that object. */
  lemma LegacyShapesAgree(s: Json, m1: Json, m2: Json, m3: Json)
    requires s.JObj? && Keys(s.fields) == StatKeys
    requires forall i :: 0 <= i < |StatKeys| ==> IsNumber(Get(s, StatKeys[i]))
    requires Get(m1, "stats") == Some(s)
    requires !IsObjectLike(Get(m2, "stats")) && Get(m2, "abilities") == Some(s)
    requires !IsObjectLike(Get(m3, "stats")) && !IsObjectLike(Get(m3, "abilities"))
    requires forall i :: 0 <= i < |StatKeys| ==> Get(m3, StatKeys[i]) == Get(s, StatKeys[i])
    ensures NormalizeStatsSpec(Get(m1, "stats"), m1) == Ok(s)
    ensures NormalizeStatsSpec(Get(m2, "stats"), m2) == Ok(s)
    ensures NormalizeStatsSpec(Get(m3, "stats"), m3) == Ok(s)
  {
    CheckStatsSpec(s);
    TopLevelStatsSpec(m3);
    var t := TopLevelStats(m3).value;
    assert |t.fields| == |s.fields| == 6;
    StatKeysDistinct();
    forall i | 0 <= i < 6
      ensures t.fields[i] == s.fields[i]
    {
      assert t.fields[i].0 == Keys(t.fields)[i] == StatKeys[i] == Keys(s.fields)[i] == s.fields[i].0;
      LookupDistinct(s.fields, i);
    }
    assert t.fields == s.fields;
  }

  /** A synthetic id is a non-blank string, so a normalized id is always kept. */
  lemma NormalizeIdNonBlank(id: Option<Json>, index: nat, index2: nat)
    ensures IsNonBlankString(Some(JStr(NormalizeId(id, index))))
    ensures NormalizeId(Some(JStr(NormalizeId(id, index))), index2) == NormalizeId(id, index)
  {
    var n := NormalizeId(id, index);
    if !IsNonBlankString(id) {
      assert n[0] == 'm';
      TrimResultIsTrimmed(n);
    }
  }

  /** Resolved stats resolve to themselves. */
  lemma StatsAgain(stats: Option<Json>, m: Json, other: Json)
    requires NormalizeStatsSpec(stats, m).Ok?
    ensures var s := NormalizeStatsSpec(stats, m).value;
            NormalizeStatsSpec(Some(s), other) == Ok(s)
  {
    var s := NormalizeStatsSpec(stats, m).value;
    NormalizeStatsValid(stats, m);
    CheckStatsSpec(s);
  }

  /** An `xp` that passes its check is assigned as it is. */
  lemma XpSlotKeeps(xp: Option<Json>)
    requires NormalizeXp(xp).Ok?
    ensures XpSlot(xp) == xp && NormalizeXp(XpSlot(xp)).Ok?
  {
  }

  /* Each section, run again on the record it helped build, passes its
     checks and stores the same slots. */

  lemma UniversalAgain(m: Json, index: nat, index2: nat)
    requires NormalizeMonsterSpec(m, index).Ok?
    ensures var r := JObj(MonsterFields(m, index));
            UniversalError(r).None? && UniversalSlots(r, index2) == UniversalSlots(m, index)
  {
    NormalizeMonsterUnfold(m, index);
    UniversalLookup(m, index, 0);
    UniversalLookup(m, index, 1);
    UniversalLookup(m, index, 2);
    NormalizeIdNonBlank(Get(m, "id"), index, index2);
  }

  lemma IdentityAgain(m: Json, index: nat)
    requires NormalizeMonsterSpec(m, index).Ok?
    ensures var r := JObj(MonsterFields(m, index));
            IdentityError(r).None? && IdentitySlots(r) == IdentitySlots(m)
  {
    NormalizeMonsterUnfold(m, index);
    IdentityLookup(m, index, 0);
    IdentityLookup(m, index, 1);
    IdentityLookup(m, index, 2);
    IdentityLookup(m, index, 3);
    IdentityLookup(m, index, 4);
  }

  lemma DefenseAgain(m: Json, index: nat)
    requires NormalizeMonsterSpec(m, index).Ok?
    ensures var r := JObj(MonsterFields(m, index));
            DefenseError(r).None? && DefenseSlots(r) == DefenseSlots(m)
  {
    NormalizeMonsterUnfold(m, index);
    DefenseLookup(m, index, 0);
    DefenseLookup(m, index, 1);
    DefenseLookup(m, index, 2);
    DefenseLookup(m, index, 3);
  }

  lemma AbilitiesAgain(m: Json, index: nat)
    requires NormalizeMonsterSpec(m, index).Ok?
    ensures var r := JObj(MonsterFields(m, index));
            SpeedError(r).None? && AbilitiesError(r).None? && AbilitiesSlots(r) == AbilitiesSlots(m)
  {
    var r := JObj(MonsterFields(m, index));
    NormalizeMonsterUnfold(m, index);
    AbilitiesLookup(m, index, 0);
    AbilitiesLookup(m, index, 1);
    AbilitiesLookup(m, index, 2);
    AbilitiesLookup(m, index, 3);
    StatsAgain(Get(m, "stats"), m, r);
  }

  lemma DamageAndSensesAgain(m: Json, index: nat)
    requires NormalizeMonsterSpec(m, index).Ok?
    ensures var r := JObj(MonsterFields(m, index));
            DamageAndSensesSlots(r) == DamageAndSensesSlots(m)
  {
    DamageAndSensesLookup(m, index, 0);
    DamageAndSensesLookup(m, index, 1);
    DamageAndSensesLookup(m, index, 2);
    DamageAndSensesLookup(m, index, 3);
    DamageAndSensesLookup(m, index, 4);
    DamageAndSensesLookup(m, index, 5);
  }

  lemma CrXpAgain(m: Json, index: nat)
    requires NormalizeMonsterSpec(m, index).Ok?
    ensures var r := JObj(MonsterFields(m, index));
            CrXpError(r).None? && CrXpSlots(r) == CrXpSlots(m)
  {
    NormalizeMonsterUnfold(m, index);
    CrXpLookup(m, index, 0);
    CrXpLookup(m, index, 1);
    XpSlotKeeps(Get(m, "xp"));
  }

  lemma TraitsAgain(m: Json, index: nat)
    requires NormalizeMonsterSpec(m, index).Ok?
    ensures var r := JObj(MonsterFields(m, index));
            TraitsSlots(r) == TraitsSlots(m)
  {
    TraitsLookup(m, index, 0);
    TraitsLookup(m, index, 1);
    TraitsLookup(m, index, 2);
    TraitsLookup(m, index, 3);
    TraitsLookup(m, index, 4);
    TraitsLookup(m, index, 5);
  }

  /** Normalizing a normalized monster again, at any index, gives it back:
      its id is a non-blank string and is kept, and every field it holds
      passes its own check unchanged. */
  lemma NormalizeMonsterIdempotent(m: Json, index: nat, index2: nat)
    requires NormalizeMonsterSpec(m, index).Ok?
    ensures var r := NormalizeMonsterSpec(m, index).value;
            NormalizeMonsterSpec(r, index2) == Ok(r)
  {
    NormalizeMonsterUnfold(m, index);
    var r := JObj(MonsterFields(m, index));
    UniversalAgain(m, index, index2);
    IdentityAgain(m, index);
    DefenseAgain(m, index);
    AbilitiesAgain(m, index);
    DamageAndSensesAgain(m, index);
    CrXpAgain(m, index);
    TraitsAgain(m, index);
    assert MonsterSlots(r, index2) == MonsterSlots(m, index);
    MonsterFieldsAssigned(m, index);
    MonsterFieldsAssigned(r, index2);
  }

  /** Normalizing a normalized monster dataset gives it back. */
  lemma NormalizeMonstersIdempotent(monsters: Option<Json>)
    requires NormalizeMonsters(monsters).Ok?
    ensures NormalizeMonsters(Some(JArr(NormalizeMonsters(monsters).value))) == NormalizeMonsters(monsters)
  {
    var out := NormalizeMonsters(monsters).value;
    NormalizeMonstersSpec(monsters);
    NormalizeMonstersSpec(Some(JArr(out)));
    var ms := monsters.value.elems;
    forall i | 0 <= i < |out|
      ensures NormalizeMonsterSpec(out[i], i) == Ok(out[i])
    {
      NormalizeMonsterIdempotent(ms[i], i, i);
    }
    var again := NormalizeMonsters(Some(JArr(out)));
    assert again.value == out;
  }
}
