# DND-Sandbox data pipeline, modelled in Dafny

DND-Sandbox keeps three D&D data domains: spells, monsters and magic items.
Legacy records in each domain are loosely shaped. A normalizer per domain
checks and coerces every record into a canonical shape and aborts the whole
dataset at the first bad record. An aggregator then merges a base (SRD)
collection with a custom collection by `id`, and the custom entry wins. A
few helpers sit around this pipeline:

- string and number helpers: ability modifiers, a `k: v; k: v` codec, and
  source formatting;
- a dataset loader that concatenates SRD and custom globals and normalizes
  each entry, keeping the raw entry when the normalizer throws;
- the browser loader's guarded dataset registry and its base-path
  computation;
- a script that diffs the field shape of a legacy dataset against its
  normalized one.

This project models that pipeline and proves properties of the model.
Values are a JSON-like datatype (`JsValue.Json`):

- Objects are ordered property lists, because JavaScript enumerates
  properties in insertion order. Several results depend on that order.
- An absent property, that is `undefined`, is `None`.
- A thrown error is the `Err` case of a `Result`.
- A record builder that assigns properties one after another is a method
  that updates a `JsObject` in place. It is proved equal to a specification
  function, and the lemmas are stated about that function.
- The loops of the aggregator and of the diff are proved against
  prefix-recursive specifications.

Files, one module each:

| file | module | models |
|---|---|---|
| `text.dfy` | `Text` | trimming, decimal rendering, padding, split and join, ASCII upper-casing |
| `json.dfy` | `JsValue` | values, truthiness, `typeof`, property lists, `String(v)`, `Object.entries` |
| `aggregate.dfy` | `Aggregate` | `norm/aggregate-domain.js` |
| `monsters.dfy` | `Monsters` | `norm/normalizeMonsters.js` |
| `magic_items.dfy` | `MagicItems` | `norm/normalizeMagicItems.js` |
| `spells.dfy` | `Spells` | `norm/normalizeSpells.js` |
| `helpers.dfy` | `Helpers` | the non-DOM helpers of `loaders/helpers.js` |
| `dataset_loader.dfy` | `DatasetLoader` | `loaders/dataset-loader.js` |
| `unified_loader.dfy` | `UnifiedLoader` | `js/unified-loader.js` |
| `diff.dfy` | `Diff` | `summarizeFields` and `diffDataset` of `scripts/diff-normalized.js` |

## Model

| member | source | states |
|---|---|---|
| Aggregate.Aggregate | norm/aggregate-domain.js:7-38 | succeeds exactly when the domain is truthy, both inputs are arrays and every entry has a truthy id; a falsy domain, then non-arrays, are the first errors |
| Aggregate.AggregateDomain | norm/aggregate-domain.js:12-38 | the validation and the two insertion loops over an ordered key list and a map give exactly `Aggregate`'s result |
| Aggregate.FirstMissingId | norm/aggregate-domain.js:23-36 | no error exactly when every entry has an id |
| Aggregate.FirstMissingIdAt | norm/aggregate-domain.js:23-36 | the error comes from the first entry without an id, and a `null` entry is a TypeError |
| Aggregate.AggregateSrdMissing | norm/aggregate-domain.js:23-26 | an SRD entry without an id aborts with the SRD error and no partial result |
| Aggregate.AggregateCustomMissing | norm/aggregate-domain.js:31-34 | a custom entry without an id, after valid SRD entries, aborts with the custom error |
| Aggregate.Dedup | norm/aggregate-domain.js:20-38 | the first-seen order of ids contains every id and no other value, and is no longer than its input |
| Aggregate.DedupDistinct | norm/aggregate-domain.js:20-38 | the first-seen order lists no id twice |
| Aggregate.DedupFirstSeenOrder | norm/aggregate-domain.js:20-38 | ids are listed by increasing position of their first occurrence |
| Aggregate.DedupLength | norm/aggregate-domain.js:20-38 | nothing is dropped exactly when nothing repeats |
| Aggregate.LastWithId | norm/aggregate-domain.js:27-35 | the entry found carries the id and comes from the list |
| Aggregate.LastWithIdIsLast | norm/aggregate-domain.js:27-35 | the entry found is the last one with that id |
| Aggregate.MergeIds | norm/aggregate-domain.js:38 | output entry `i` carries the `i`-th id in first-seen order over SRD then custom |
| Aggregate.MergeIdSet | norm/aggregate-domain.js:20-38 | output ids are pairwise distinct and are exactly the SRD ids together with the custom ids |
| Aggregate.MergeWinner | norm/aggregate-domain.js:27-38 | every output entry is an input entry taken whole; it comes from custom when its id is a custom id, from SRD otherwise |
| Aggregate.MergeCustomOverrides | norm/aggregate-domain.js:35 | the last custom entry with an id is in the output |
| Aggregate.MergeSrdKept | norm/aggregate-domain.js:27 | for an id only in SRD, the last SRD entry with it is in the output |
| Aggregate.MergeOrder | norm/aggregate-domain.js:20-38 | output order is the order of first occurrence across SRD followed by custom |
| Aggregate.MergeOverrideKeepsSlot | norm/aggregate-domain.js:35 | adding custom entries never moves an SRD id: the SRD-only order is a prefix |
| Aggregate.MergeLength | norm/aggregate-domain.js:20-38 | at most one output entry per input entry, and exactly one each when all ids are distinct |
| Aggregate.MergeOfDistinct | norm/aggregate-domain.js:20-38 | with distinct ids the merge is SRD followed by custom |
| Aggregate.MergeOneOverride | norm/aggregate-domain.js:27-35 | an SRD entry and a custom entry with the same id give the custom entry alone |
| Aggregate.AggregateSmokeErrors | test-aggregation.js:42-69 | a missing domain, a `null` input and an entry without an id each give their error |
| Aggregate.AggregateOverrideExample | norm/aggregate-domain.js:27-35 | a custom spell replaces the SRD spell with the same id |
| Aggregate.AggregateOrderExample | norm/aggregate-domain.js:20-38 | new custom ids follow the SRD ids in their own order |
| Monsters.NormalizeMonstersSpec | norm/normalizeMonsters.js:8-14 | a non-array dataset is refused; otherwise one record per input record in the same order, each normalized with its index, and the dataset is normalized exactly when every record is |
| Monsters.NormalizeMonstersFirstError | norm/normalizeMonsters.js:13 | the first record that fails decides the error |
| Monsters.NormalizeMonster | norm/normalizeMonsters.js:20-118 | the section-by-section assignments on a fresh object give exactly the specified record or the first check's error |
| Monsters.NormalizedRecord | norm/normalizeMonsters.js:20-118 | an entry normalizes exactly when it is an object whose `sources` is a non-empty array, whose five required strings are non-blank, whose `ac`, `hp` and `cr` are non-NaN numbers, whose `armor_type` is nullish or a string, whose `speed` is an object with a key, whose ability scores resolve and whose `xp` is absent, `""` or a non-NaN number |
| Monsters.MonsterRecordKeys | norm/normalizeMonsters.js:25-117 | a normalized monster has no key twice and no key the source does not assign |
| Monsters.NoBonusActions | data/monsters-custom.js:85 | a `bonus_actions` field of the input is never copied |
| Monsters.MonsterUniversalFields | norm/normalizeMonsters.js:31-35 | the id `normalizeId` gives, the non-empty `sources` array passed through, `last_updated` only when truthy |
| Monsters.MonsterIdentityFields | norm/normalizeMonsters.js:41-45 | `name`, `creature_type`, `size`, `alignment` are non-blank strings kept as given; `subtype` only when truthy |
| Monsters.MonsterDefenseFields | norm/normalizeMonsters.js:51-60 | `ac` and `hp` are non-NaN numbers, `armor_type` is always a string, `hit_dice` non-blank, `speed` an object with a key |
| Monsters.MonsterAbilitiesFields | norm/normalizeMonsters.js:66-74 | `stats` is what `normalizeStats` resolves; `saving_throws` and `skills` only when truthy with a key |
| Monsters.MonsterDamageAndSensesFields | norm/normalizeMonsters.js:80-95 | the damage and condition lists and `languages` only when non-empty arrays, `senses` only when truthy with a key |
| Monsters.MonsterCrXpFields | norm/normalizeMonsters.js:101-104 | `cr` a non-NaN number; `xp` absent stays absent, `""` stays `""`, anything else must be a non-NaN number |
| Monsters.MonsterTraitsFields | norm/normalizeMonsters.js:110-115 | the trait and action lists only when non-empty arrays |
| Monsters.MissingHpRejected | norm/normalizeMonsters.js:146-151 | an object with non-empty `sources`, non-blank `name`, `creature_type`, `size` and `alignment`, a non-NaN `ac` and a string or missing `armor_type`, but no `hp`, is rejected with the error naming `hp` |
| Monsters.NormalizeIdSpec | norm/normalizeMonsters.js:124-130 | a non-blank string id is kept; otherwise `mo-UNKNOWN-` then the index in decimal, zero-padded to four digits |
| Monsters.SyntheticIdsDiffer | norm/normalizeMonsters.js:124-130 | two different indices give different synthetic ids |
| Monsters.NumberCheckSpec | norm/normalizeMonsters.js:146-158 | the number checks refuse only NaN and non-numbers; both infinities pass, and the value is kept |
| Monsters.ValidateStats | norm/normalizeMonsters.js:223-230 | the loop over the six score keys reports the first score that is not a number |
| Monsters.FirstNonNumberNone | norm/normalizeMonsters.js:223-230 | no score is reported exactly when all six are numbers |
| Monsters.CheckStatsSpec | norm/normalizeMonsters.js:223-230 | a stats object is valid exactly when it holds the six scores as numbers |
| Monsters.ExtractTopLevelStats | norm/normalizeMonsters.js:203-221 | the loop gives the six top-level scores when all are numbers, else nothing |
| Monsters.TopLevelStatsSpec | norm/normalizeMonsters.js:203-221 | the extracted object has exactly the keys `str`, `dex`, `con`, `int`, `wis`, `cha` in order, each the monster's own value |
| Monsters.NormalizeStats | norm/normalizeMonsters.js:181-201 | the method gives the three-shape resolution of the specification function |
| Monsters.NormalizeStatsValid | norm/normalizeMonsters.js:181-201 | resolved stats are always an object holding six numbers |
| Monsters.StatsCanonicalFirst | norm/normalizeMonsters.js:183-186 | a present `stats` object decides alone: invalid throws, and `abilities` and the top-level scores are not consulted |
| Monsters.StatsAbilitiesLikeCanonical | norm/normalizeMonsters.js:188-191 | an `abilities` object is treated exactly as a `stats` object would be |
| Monsters.StatsFromTopLevel | norm/normalizeMonsters.js:193-200 | without either object the six top-level numbers are gathered, else the missing-stats error |
| Monsters.LegacyShapesAgree | norm/normalizeMonsters.js:181-221 | a `stats` object holding the six scores, the same object as `abilities`, and the same six scores as top-level fields all resolve to that object |
| Monsters.NormalizeMonsterIdempotent | norm/normalizeMonsters.js:20-118 | normalizing a normalized monster again, at any index, gives it back |
| Monsters.NormalizeMonstersIdempotent | norm/normalizeMonsters.js:8-14 | normalizing a normalized monster dataset gives it back |
| Monsters.CopyIfArray | norm/normalizeMonsters.js:231-235 | the target gains the field exactly when the source's field is a non-empty array; nothing else changes |
| MagicItems.NormalizeMagicItemsSpec | norm/normalizeMagicItems.js:54-62 | a non-array dataset is refused; otherwise one record per item in order, and the dataset is normalized exactly when every item is |
| MagicItems.NormalizeMagicItemsFirstError | norm/normalizeMagicItems.js:59-62 | the first failing item decides the error of the whole dataset |
| MagicItems.NormalizeItem | norm/normalizeMagicItems.js:59-140 | the checks, the literal and the conditional assignments give exactly the specified record or the first error |
| MagicItems.EnsureArraySpec | norm/normalizeMagicItems.js:27-33 | `null` and `undefined` give `[]`, an array is returned unchanged, anything else is refused naming the field |
| MagicItems.EnsureStringSpec | norm/normalizeMagicItems.js:35-43 | a missing value (`null`, `undefined`, `""`) is refused exactly when required, else absent; anything else is `String(value)` |
| MagicItems.EnsureBooleanSpec | norm/normalizeMagicItems.js:45-48 | `null` and `undefined` give the default, anything else its truthiness; a boolean is kept |
| MagicItems.GenerateIdShape | norm/normalizeMagicItems.js:12-25 | `mi-`, the first source's `source`, `-`, then the first eight hex digits of the digest of `name-source` |
| MagicItems.GenerateIdSource | norm/normalizeMagicItems.js:12-25 | the id depends only on the name and the first source, and equal ids come from the same source text |
| MagicItems.ItemRequiredFields | norm/normalizeMagicItems.js:68-128 | `name`, `magic_item_category`, `rarity` given and non-empty; `sources` and `item_desc` (else `desc`) non-empty arrays passed through |
| MagicItems.ItemIdField | norm/normalizeMagicItems.js:75 | a non-empty given id is kept as its `String`, else the synthetic id |
| MagicItems.ItemOptionalFields | norm/normalizeMagicItems.js:99-137 | `magic_item_type` (else `item_type`), `bonus`, `last_updated` only when non-empty, `attunement` only as `true`, the two lists only when non-empty |
| MagicItems.ItemRecordKeys | norm/normalizeMagicItems.js:121-137 | a normalized item has no key twice and none beyond the twelve the source writes |
| MagicItems.NormalizeItemIdempotent | norm/normalizeMagicItems.js:59-140 | normalizing a normalized item again, at any index, gives it back when its name, category and rarity rendered as non-empty strings |
| MagicItems.NormalizeMagicItemsIdempotent | norm/normalizeMagicItems.js:54-62 | the same for a whole dataset |
| MagicItems.EmptyRenderedNameNotIdempotent | norm/normalizeMagicItems.js:35-43 | an item whose `name` is `[]` normalizes with the name `""`, and its record is then refused for a missing name |
| Spells.NormalizeSpellsSpec | norm/normalizeSpells.js:6-11 | a non-array dataset is refused; otherwise one spell per input spell in order, the first failing spell deciding the error |
| Spells.NormalizeSpell | norm/normalizeSpells.js:11-47 | the step-by-step updates of a fresh shallow copy give exactly the specified spell, and the input is not modified |
| Spells.NormalizeFieldsOk | norm/normalizeSpells.js:27-31 | normalizing fails exactly when a source entry is `null`, and only with that TypeError |
| Spells.NormalizeSpellOk | norm/normalizeSpells.js:11-47 | the same condition for a whole spell |
| Spells.SpellTextFields | norm/normalizeSpells.js:16-24 | a falsy `type` becomes `"spell"`; a truthy `desc` moves to `spell_desc` and `desc` is deleted, a falsy one stays; a falsy `higher_level` becomes `""` |
| Spells.SpellSources | norm/normalizeSpells.js:27-31 | `sources` holds one rebuilt entry per entry, in order; a non-array becomes the single `Unknown` entry first |
| Spells.RebuildSourceSpec | norm/normalizeSpells.js:28-31 | each entry becomes exactly `{source, page}` with the source or `"Unknown"` and a string page or `""`; extra keys are dropped |
| Spells.DefaultSources | norm/normalizeSpells.js:27 | after defaulting, `sources` is an array |
| Spells.SpellLateFields | norm/normalizeSpells.js:34-44 | non-array `classes` and `components` become `[]`, a falsy `material` becomes `""`, `ritual` and `concentration` become booleans of their truthiness |
| Spells.SpellOtherFields | norm/normalizeSpells.js:13 | every key no step handles passes through unchanged |
| Spells.NormalizeFieldsIdempotent | norm/normalizeSpells.js:11-47 | normalizing a normalized spell's properties fails nowhere and changes nothing |
| Spells.NormalizeSpellIdempotent | norm/normalizeSpells.js:11-47 | the same for a whole spell |
| Spells.NormalizeSpellsIdempotent | norm/normalizeSpells.js:6-48 | normalizing a normalized dataset gives it back |
| Helpers.SafeSpec | loaders/helpers.js:9-11 | `null` and `undefined` give `""`; otherwise the result is `String(text)` with its outer whitespace cut off and is trimmed; a trimmed string is kept, and `safe` is idempotent |
| Helpers.CapitalizeFirstSpec | loaders/helpers.js:538-542 | a falsy value gives `""`; otherwise the length is kept, only the first character changes, and capitalizing twice changes nothing |
| Helpers.AbilityModifier | loaders/helpers.js:43-46 | the modifier is `floor((score - 10) / 2)` |
| Helpers.FormatAbilityModSpec | loaders/helpers.js:43-46 | a sign, `+` exactly when the modifier is at least 0, then the decimal digits of its magnitude |
| Helpers.FormatAbilityModExamples | loaders/helpers.js:43-46 | 10 gives `+0`, 9 gives `-1`, 20 gives `+5`, 1 gives `-5` |
| Helpers.EnsureArrayField | loaders/helpers.js:51-53 | afterwards the property is an array, unchanged if it was one, and no other property changes |
| Helpers.FieldSimpleReadBack | loaders/helpers.js:60-63 | a list of trimmed comma-free strings joined with `", "` splits back into the list |
| Helpers.SourceTextsSpec | loaders/helpers.js:141-147 | the entries render exactly when none is `null`, one text per entry in order |
| Helpers.SourceTextSpec | loaders/helpers.js:143-145 | an entry renders as its `source`, followed by `" p. "` and the page exactly when the page is truthy |
| Helpers.FieldSourcesReadBack | loaders/helpers.js:141-147 | a rendered non-empty list of comma-free entries splits back on commas into the entry texts |
| Helpers.KeyValueStringToObject | loaders/helpers.js:569-579 | the `forEach` loop builds exactly the decoded object; a falsy or non-string input gives `{}` |
| Helpers.DecodedLookup | loaders/helpers.js:573-577 | each key reads the value of its last well-formed segment, and `__proto__` is never an own key |
| Helpers.DecodedShape | loaders/helpers.js:573-577 | decoded keys are distinct, non-empty and trimmed, and values are trimmed strings |
| Helpers.SegmentWithoutColon | loaders/helpers.js:575-576 | a segment without `:` sets nothing |
| Helpers.SegmentExtraColonDropped | loaders/helpers.js:574 | text after a second `:` is dropped |
| Helpers.KeyValueRoundTrip | loaders/helpers.js:562-579 | decoding the encoding of an object with distinct, trimmed, non-empty, `:`- and `;`-free keys and values gives the object back |
| Helpers.FormatSourceSpec | loaders/helpers.js:581-585 | `"—"` when both arguments are falsy, `"source page"` when both are truthy, else the truthy one; the result is always truthy |
| DatasetLoader.LoadDatasetSpec | loaders/dataset-loader.js:13-44 | length is the sum of the two arrays with no de-duplication; without a normalizer the merge is base then custom; with one each entry is its normalized value or, when that throws, the entry itself |
| DatasetLoader.MissingGlobalIsEmpty | loaders/dataset-loader.js:15-16 | a missing or non-array global loads like an empty array |
| DatasetLoader.NormalizerExtremes | loaders/dataset-loader.js:28-37 | a normalizer that never throws is applied to every entry; one that always throws leaves the merged array as it was |
| UnifiedLoader.ComputeBasePathSpec | js/unified-loader.js:40-52 | the base path starts and ends with `/`, and its own non-empty segments are exactly the path's directories: empty segments and the file name dropped |
| UnifiedLoader.NonEmptyPartsSpec | js/unified-loader.js:44 | every kept segment is non-empty and is a segment of the input |
| UnifiedLoader.LoadOutcomeSpec | js/unified-loader.js:72-117 | a load succeeds exactly when the domain is a non-empty unregistered string and the module is an array flagged normalized for that domain, and then returns the data; a registered domain is an error, never the cached data |
| UnifiedLoader.RegisterGrows | js/unified-loader.js:95-116 | a rejection leaves the registry unchanged; an acceptance adds its own domain and touches no other |
| UnifiedLoader.SecondLoadRejected | js/unified-loader.js:77-79 | a second load of an accepted domain fails whatever it imports |
| UnifiedLoader.DndLoader.GetBasePath | js/unified-loader.js:62-68 | returns the path computed from the page, stored on the first call and read from the cache after |
| UnifiedLoader.DndLoader.LoadDataset | js/unified-loader.js:72-117 | the result is the load outcome for the registry before the call, and the registry afterwards is the registered one; an unset base path is computed and cached exactly when both domain guards pass |
| UnifiedLoader.DndLoader.HasDataset | js/unified-loader.js:121-127 | `hasDataset` holds exactly when `getDataset` finds data |
| Diff.FieldTag | scripts/diff-normalized.js:94-98 | a tag is `"array"` exactly for arrays, `"null"` exactly for `null`, and otherwise the value's own `typeof`: `"string"`, `"boolean"`, `"number"` (NaN and the infinities included) or `"object"` |
| Diff.SummarizeFields | scripts/diff-normalized.js:90-102 | the loop over `Object.entries` builds exactly the tag summary; a `null` entry throws |
| Diff.SummaryKeys | scripts/diff-normalized.js:93-99 | the summary has the entry's keys in order, except `__proto__`, and no key twice |
| Diff.SummaryLookup | scripts/diff-normalized.js:93-99 | each key reads its value's tag, and keys the entry lacks are missing |
| Diff.DiffFields | scripts/diff-normalized.js:122-134 | the corrected (own-key) reading of the two loops named under Findings: they build `added`, `removed` and `changed` as the own-key filters and change lines |
| Diff.DiffSpec | scripts/diff-normalized.js:118-134 | `added` holds the current keys missing from the baseline, `removed` the baseline keys missing from the current summary, `changed` the shared keys whose tags differ; no key is in two lists |
| Diff.IdenticalNoDiff | scripts/diff-normalized.js:118-134 | identical summaries give no added, removed or changed keys |
| Diff.DiffDataset | scripts/diff-normalized.js:108-137 | only the first record of each dataset is compared, and the result is the corrected (own-key) diff of the two summaries named under Findings |
| Diff.SameRecordNoDiff | scripts/diff-normalized.js:108-137 | a record compared with itself gives three empty lists |
| Diff.DiffAsWrittenAgrees | scripts/diff-normalized.js:122-134 | when neither summary has a key named like a property of `Object.prototype`, the lists the `in` operator gives are exactly the own-key lists |
| Diff.InheritedNameNotAdded | scripts/diff-normalized.js:123 | with the `in` operator, a new `constructor` field is reported as changed, not added |
| Diff.InheritedNameNotRemoved | scripts/diff-normalized.js:131 | with the `in` operator, a dropped `valueOf` field is not reported as removed |

## Left out

- Numbers are integers, the two infinities and NaN. Fractional numbers, such as a `cr` of `0.25` in the data, are not modelled, because `String` of a float needs float formatting.
- JavaScript enumerates integer-like keys before other keys. That rule is not modelled: objects enumerate in insertion order only.
- Strings are sequences of characters. `capitalizeFirst` upper-cases ASCII letters only; Unicode case mapping is not modelled.
- md5 in `generateId` is a parameter that returns 32 lowercase hex characters. Its algorithm is not modelled.
- The window globals read by `loadDataset` of `loaders/dataset-loader.js` are parameters. So is the page's `location.pathname`.
- The dynamic `import()` of `js/unified-loader.js`, and the URL built for it, is the `imported` parameter: a module's default export and its two flags, or a failed import.
- `js/unified-loader.js` performs its loads asynchronously. Interleaved loads of the same domain are not modelled: each call is atomic here.
- `debugState`, console logging and `window.DnDLoader` exposure in `js/unified-loader.js` are not modelled.
- The convenience loaders `loadSpells`, `loadMonsters` and `loadMagicItems` in `loaders/dataset-loader.js` pass `DnDHelpers` normalizers. Those normalizers are not part of this model, so only the generic `loadDataset` is.
- The DOM and presentation code of `loaders/helpers.js` is not modelled. That covers `renderTable`, `renderCard`, table sorting, and the HTML-producing field helpers.
- The float-, locale- and Unicode-dependent helpers of `loaders/helpers.js` are not modelled: `numericOrString`, `formatCRValue`, `normalizeString` and `deepClone`.
- Reading the datasets from files in `scripts/diff-normalized.js` is not modelled (regex, `JSON.parse`, dynamic import). Both of its loaders refuse an empty dataset, so `Diff.DiffDataset` requires one record in each.
- JsValue.ToJsString: renders every object as `"[object Object]"`, also inside an array. JavaScript throws a TypeError instead for an object with an own `toString` property, which in JSON data is never a function: `String(v)`, `${v}` and `join` find it not callable (loaders/helpers.js:10, 62, 144-145 and 565; norm/normalizeMagicItems.js:20 and 42). So `MagicItems.EnsureString`, `Helpers.Safe`, `MagicItems.GenerateId` and the key-value encoding return a string where the source throws, for such objects only.
- Numbers are unbounded integers, where JavaScript numbers are doubles. Integers beyond 2^53 are not rounded, and `JsValue.ToJsString` renders numbers of 10^21 and more in plain digits where `String` switches to exponent notation (`"1e+21"`). `Helpers.AbilityModifier` and `Helpers.FormatAbilityMod` are therefore exact where JavaScript rounds.
- Aggregate.Aggregate: ids are compared as values. The source's `Map` compares object and array ids by reference, so two distinct but equal object ids stay apart there and merge here. Ids in the data are strings, for which both agree.
- DatasetLoader.LoadDatasetSpec: a normalizer is a function from an entry to a value or a throw. A normalizer that mutates its entry before throwing, which makes the source keep the mutated entry, and one that returns `undefined` cannot be expressed.
- Helpers.EnsureArrayField: the key `__proto__` is treated like any other key. In JavaScript, assigning `[]` to `obj.__proto__` replaces the prototype and adds no own property.
- MagicItems.NormalizeMagicItemsIdempotent: holds only when every item's `name`, `magic_item_category` and `rarity` render as non-empty strings. `ensureString` tests for `""` before it converts, so a value such as `[]` passes as `String([])`, that is `""`, and a second pass then refuses the record (`MagicItems.EmptyRenderedNameNotIdempotent`). This is how the source behaves, not a gap in the model: the model keeps `ensureString` as written.
- Reading a property of a primitive is modelled only for objects. The core reads no `length`, no index and no string method of a primitive through `Get`.

## Findings

| source | as written | input that shows it | evidently intended | confidence | as-written member | corrected member |
|---|---|---|---|---|---|---|
| scripts/diff-normalized.js:123-131 | `key in baseFields` and `key in currFields` also see the names every object inherits from `Object.prototype` | a current record that gains a `constructor` field is listed under `changed`, not `added`; a record that loses a `valueOf` field is not listed under `removed` | a test for own keys (`Object.hasOwn`) | not executed; follows from the semantics of the `in` operator | Diff.InheritedNameNotAdded | Diff.DiffSpec |

`Diff.AddedAsWritten`, `Diff.ChangedKeysAsWritten` and `Diff.RemovedAsWritten` model the two loops as
written, with the `in` operator. `Diff.DiffFields` and its specification
read the test as an own-key test. `Diff.DiffAsWrittenAgrees` shows that the two
readings differ only on the names `Object.prototype` provides.
