/** `loadDataset` of loaders/dataset-loader.js: the SRD and the custom
    globals concatenated, each entry then passed through an optional
    normalizer that falls back to the raw entry when it throws. The two
    globals are parameters; a normalizer is a function that either returns
    a value or throws. */
module DatasetLoader {
  import opened JsValue

  /** `Array.isArray(g) ? g : []` */
  function RawArray(g: Option<Json>): seq<Json> {
    if IsArray(g) then g.value.elems else []
  }

  /** The `.map` callback: the normalizer's value, or the entry when it throws. */
  function NormalizeOrKeep<E>(normalizeFn: Json -> Result<Json, E>, entry: Json): Json {
    var r := normalizeFn(entry);
    if r.Ok? then r.value else entry
  }

  function MapNormalize<E>(normalizeFn: Json -> Result<Json, E>, xs: seq<Json>): (r: seq<Json>)
    ensures |r| == |xs|
  {
    if xs == [] then [] else [NormalizeOrKeep(normalizeFn, xs[0])] + MapNormalize(normalizeFn, xs[1..])
  }

  lemma {:induction false} MapNormalizeAt<E>(normalizeFn: Json -> Result<Json, E>, xs: seq<Json>, i: nat)
    requires i < |xs|
    ensures MapNormalize(normalizeFn, xs)[i] == NormalizeOrKeep(normalizeFn, xs[i])
  {
    if i > 0 {
      MapNormalizeAt(normalizeFn, xs[1..], i - 1);
    }
  }

  /** `loadDataset(base, custom, normalizeFn)`; `None` stands for a
      `normalizeFn` that is not a function. */
  function LoadDataset<E>(base: Option<Json>, custom: Option<Json>,
                          normalizeFn: Option<Json -> Result<Json, E>>): seq<Json> {
    var merged := RawArray(base) + RawArray(custom);
    if normalizeFn.None? then merged else MapNormalize(normalizeFn.value, merged)
  }

  /** One output entry per entry of the two arrays, SRD first: there is no
      de-duplication by id. Without a normalizer the entries are the raw
      ones; with one, each is the normalizer's value for the entry in the
      same position, or that entry itself when the normalizer throws. */
  lemma LoadDatasetSpec<E>(base: Option<Json>, custom: Option<Json>, normalizeFn: Option<Json -> Result<Json, E>>)
    ensures var r := LoadDataset(base, custom, normalizeFn);
            var b := RawArray(base);
            var c := RawArray(custom);
            && |r| == |b| + |c|
            && (normalizeFn.None? ==> r == b + c && multiset(r) == multiset(b) + multiset(c))
            && (normalizeFn.Some? ==>
                  (forall i :: 0 <= i < |b| ==> r[i] == NormalizeOrKeep(normalizeFn.value, b[i]))
                  && (forall i :: 0 <= i < |c| ==> r[|b| + i] == NormalizeOrKeep(normalizeFn.value, c[i])))
  {
    var b := RawArray(base);
    var c := RawArray(custom);
    if normalizeFn.Some? {
      forall i | 0 <= i < |b| ensures LoadDataset(base, custom, normalizeFn)[i] == NormalizeOrKeep(normalizeFn.value, b[i]) {
        MapNormalizeAt(normalizeFn.value, b + c, i);
      }
      forall i | 0 <= i < |c|
        ensures LoadDataset(base, custom, normalizeFn)[|b| + i] == NormalizeOrKeep(normalizeFn.value, c[i]) {
        MapNormalizeAt(normalizeFn.value, b + c, |b| + i);
      }
    }
  }

  /** A missing or non-array global loads like an empty array. */
  lemma MissingGlobalIsEmpty<E>(base: Option<Json>, custom: Option<Json>, normalizeFn: Option<Json -> Result<Json, E>>)
    ensures !IsArray(base) ==>
              LoadDataset(base, custom, normalizeFn) == LoadDataset(Some(JArr([])), custom, normalizeFn)
    ensures !IsArray(custom) ==>
              LoadDataset(base, custom, normalizeFn) == LoadDataset(base, Some(JArr([])), normalizeFn)
  {
  }

  /** A normalizer that never throws is applied to every entry; one that
      always throws leaves the merged entries as they were. */
  lemma NormalizerExtremes<E>(base: Option<Json>, custom: Option<Json>, normalizeFn: Json -> Result<Json, E>)
    ensures var merged := RawArray(base) + RawArray(custom);
            var r := LoadDataset(base, custom, Some(normalizeFn));
            && ((forall x :: normalizeFn(x).Ok?) ==>
                  forall i :: 0 <= i < |merged| ==> r[i] == normalizeFn(merged[i]).value)
            && ((forall x :: normalizeFn(x).Err?) ==> r == merged)
  {
    var merged := RawArray(base) + RawArray(custom);
    forall i | 0 <= i < |merged|
      ensures LoadDataset(base, custom, Some(normalizeFn))[i] == NormalizeOrKeep(normalizeFn, merged[i]) {
      MapNormalizeAt(normalizeFn, merged, i);
    }
  }
}
