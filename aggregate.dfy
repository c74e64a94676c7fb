/** `aggregateDomain` (norm/aggregate-domain.js): the merge of an SRD
    collection and a custom collection by `id`. The source fills an
    insertion-ordered `Map` with every SRD entry and then every custom
    entry, and returns the map's values. A later `set` of a key that is
    already present replaces the value and keeps the key's position.

    `Aggregate` is a declarative statement of that result: the ids in the
    order of their first appearance, each with the last custom entry that
    has it, or failing that the last SRD entry. `AggregateDomain` is the
    source's two loops over an explicit key sequence and value map, proved
    equal to it. */
module Aggregate {
  import opened JsValue

  datatype AggregateError =
    | DomainRequired
    | InputsNotArrays(domain: Json)
    | SrdEntryMissingId(domain: Json)
    | CustomEntryMissingId(domain: Json)
      /** the `TypeError` of reading `entry.id` when the entry is `null` */
    | EntryIsNull

  predicate Distinct<T(==)>(s: seq<T>) {
    forall i, j :: 0 <= i < j < |s| ==> s[i] != s[j]
  }

  /** `entry.id` is truthy (`null` and non-objects have no `id`). */
  predicate HasId(e: Json) {
    Truthy(Get(e, "id"))
  }

  function IdOf(e: Json): Json
    requires HasId(e)
  {
    Get(e, "id").value
  }

  predicate AllHaveIds(es: seq<Json>) {
    forall i :: 0 <= i < |es| ==> HasId(es[i])
  }

  function Ids(es: seq<Json>): (r: seq<Json>)
    requires AllHaveIds(es)
    ensures |r| == |es| && forall i :: 0 <= i < |es| ==> r[i] == IdOf(es[i])
  {
    seq(|es|, i requires 0 <= i < |es| => IdOf(es[i]))
  }

  lemma IdsPrefix(es: seq<Json>, i: nat)
    requires i < |es| && AllHaveIds(es[..i]) && HasId(es[i])
    ensures AllHaveIds(es[..i + 1])
    ensures Ids(es[..i + 1]) == Ids(es[..i]) + [IdOf(es[i])]
  {
    assert forall k :: 0 <= k < i ==> es[..i][k] == es[..i + 1][k];
  }

  lemma IdsConcat(a: seq<Json>, b: seq<Json>)
    requires AllHaveIds(a) && AllHaveIds(b)
    ensures AllHaveIds(a + b) && Ids(a + b) == Ids(a) + Ids(b)
  {
    assert forall k :: 0 <= k < |a| + |b| ==> (a + b)[k] == if k < |a| then a[k] else b[k - |a|];
  }

  /** The error the loop raises at the first entry without an id, if there is one. */
  function FirstMissingId(es: seq<Json>, missing: AggregateError): (r: Option<AggregateError>)
    ensures r.None? <==> AllHaveIds(es)
  {
    if es == [] then None
    else if !HasId(es[0]) then Some(if es[0].JNull? then EntryIsNull else missing)
    else FirstMissingId(es[1..], missing)
  }

  lemma {:induction false} FirstMissingIdAt(es: seq<Json>, i: nat, missing: AggregateError)
    requires i < |es| && AllHaveIds(es[..i]) && !HasId(es[i])
    ensures FirstMissingId(es, missing) == Some(if es[i].JNull? then EntryIsNull else missing)
  {
    if i > 0 {
      assert HasId(es[..i][0]);
      assert es[1..][..i - 1] == es[..i][1..];
      FirstMissingIdAt(es[1..], i - 1, missing);
    }
  }

  /** The elements of `s` in the order of their first occurrence. */
  function Dedup(s: seq<Json>): (r: seq<Json>)
    ensures forall x :: x in r <==> x in s
    ensures |r| <= |s|
  {
    if s == [] then []
    else
      var d := Dedup(s[..|s| - 1]);
      var x := s[|s| - 1];
      assert forall y :: y in s <==> y in s[..|s| - 1] || y == x;
      if x in d then d else d + [x]
  }

  /** No element is listed twice. */
  lemma {:induction false} DedupDistinct(s: seq<Json>)
    ensures Distinct(Dedup(s))
  {
    if s != [] {
      DedupDistinct(s[..|s| - 1]);
    }
  }

  lemma DedupSnoc(s: seq<Json>, x: Json)
    ensures Dedup(s + [x]) == if x in s then Dedup(s) else Dedup(s) + [x]
  {
    assert (s + [x])[..|s|] == s;
  }

  /** Where `x` first occurs in `s`. */
  function FirstIndex(s: seq<Json>, x: Json): (k: nat)
    requires x in s
    ensures k < |s| && s[k] == x && x !in s[..k]
  {
    if s[0] == x then 0 else 1 + FirstIndex(s[1..], x)
  }

  lemma FirstIndexSnoc(s: seq<Json>, x: Json, y: Json)
    requires y in s
    ensures FirstIndex(s + [x], y) == FirstIndex(s, y)
  {
    if s[0] != y {
      assert (s + [x])[1..] == s[1..] + [x];
      FirstIndexSnoc(s[1..], x, y);
    }
  }

  /** Of two listed elements, the one listed first occurs first. */
  lemma {:induction false} DedupOrderPair(s: seq<Json>, i: nat, j: nat)
    requires i < j < |Dedup(s)|
    ensures FirstIndex(s, Dedup(s)[i]) < FirstIndex(s, Dedup(s)[j])
    decreases |s|
  {
    var p, x := s[..|s| - 1], s[|s| - 1];
    assert s == p + [x];
    DedupSnoc(p, x);
    var d := Dedup(s);
    assert i < |Dedup(p)| && d[i] == Dedup(p)[i];
    FirstIndexSnoc(p, x, d[i]);
    if j < |Dedup(p)| {
      DedupOrderPair(p, i, j);
      FirstIndexSnoc(p, x, d[j]);
    } else {
      assert d[j] == x && x !in p;
      assert FirstIndex(s, x) == |p|;
    }
  }

  /** `Dedup` lists the distinct elements by increasing first occurrence. */
  lemma DedupFirstSeenOrder(s: seq<Json>)
    ensures forall i, j :: 0 <= i < j < |Dedup(s)| ==>
              FirstIndex(s, Dedup(s)[i]) < FirstIndex(s, Dedup(s)[j])
  {
    forall i, j | 0 <= i < j < |Dedup(s)|
      ensures FirstIndex(s, Dedup(s)[i]) < FirstIndex(s, Dedup(s)[j]) {
      DedupOrderPair(s, i, j);
    }
  }

  /** What comes first stays first: the first-seen order of a prefix is a prefix. */
  lemma {:induction false} DedupPrefix(a: seq<Json>, b: seq<Json>)
    ensures Dedup(a) <= Dedup(a + b)
    decreases |b|
  {
    if b == [] {
      assert a + b == a;
    } else {
      var b' := b[..|b| - 1];
      assert a + b == (a + b') + [b[|b| - 1]];
      DedupPrefix(a, b');
      DedupSnoc(a + b', b[|b| - 1]);
    }
  }

  /** Nothing is dropped exactly when nothing repeats. */
  lemma {:induction false} DedupLength(s: seq<Json>)
    ensures |Dedup(s)| == |s| <==> Distinct(s)
  {
    if s != [] {
      var p, x := s[..|s| - 1], s[|s| - 1];
      assert s == p + [x];
      DedupLength(p);
      DedupSnoc(p, x);
      if !Distinct(p) {
        var i, j :| 0 <= i < j < |p| && p[i] == p[j];
        assert s[i] == s[j];
      }
      if x in p {
        var i :| 0 <= i < |p| && p[i] == x;
        assert s[i] == s[|s| - 1];
      }
    }
  }

  /** The last entry of `es` whose id is `id`. */
  function LastWithId(es: seq<Json>, id: Json): (e: Json)
    requires AllHaveIds(es) && id in Ids(es)
    ensures e in es && HasId(e) && IdOf(e) == id
  {
    var last := es[|es| - 1];
    if IdOf(last) == id then last
    else
      assert forall k :: 0 <= k < |es| - 1 ==> Ids(es[..|es| - 1])[k] == Ids(es)[k];
      LastWithId(es[..|es| - 1], id)
  }

  lemma LastWithIdSnoc(es: seq<Json>, i: nat, id: Json)
    requires i < |es| && AllHaveIds(es[..i]) && HasId(es[i])
    requires AllHaveIds(es[..i + 1]) && id in Ids(es[..i + 1])
    ensures LastWithId(es[..i + 1], id) ==
            if IdOf(es[i]) == id then es[i] else LastWithId(es[..i], id)
  {
    IdsPrefix(es, i);
    assert es[..i + 1][..i] == es[..i];
  }

  /** The entry an id ends up with: custom wins over SRD, the last one wins
      within each. */
  function Winner(srd: seq<Json>, custom: seq<Json>, id: Json): Json
    requires AllHaveIds(srd) && AllHaveIds(custom)
    requires id in Ids(srd) + Ids(custom)
  {
    if id in Ids(custom) then LastWithId(custom, id) else LastWithId(srd, id)
  }

  /** The merged collection: one entry per id, in first-seen order. */
  function Merge(srd: seq<Json>, custom: seq<Json>): seq<Json>
    requires AllHaveIds(srd) && AllHaveIds(custom)
  {
    var order := Dedup(Ids(srd) + Ids(custom));
    seq(|order|, i requires 0 <= i < |order| => Winner(srd, custom, order[i]))
  }

  /** The result `aggregateDomain({domain, srd, custom})` returns or throws. */
  function Aggregate(domain: Option<Json>, srd: Option<Json>, custom: Option<Json>)
    : (r: Result<seq<Json>, AggregateError>)
    ensures r.Ok? <==> Truthy(domain) && IsArray(srd) && IsArray(custom)
                       && AllHaveIds(srd.value.elems) && AllHaveIds(custom.value.elems)
    ensures !Truthy(domain) ==> r == Err(DomainRequired)
    ensures Truthy(domain) && !(IsArray(srd) && IsArray(custom)) ==> r == Err(InputsNotArrays(domain.value))
  {
    if !Truthy(domain) then Err(DomainRequired)
    else if !IsArray(srd) || !IsArray(custom) then Err(InputsNotArrays(domain.value))
    else
      var s, c := srd.value.elems, custom.value.elems;
      match FirstMissingId(s, SrdEntryMissingId(domain.value))
      case Some(e) => Err(e)
      case None =>
        match FirstMissingId(c, CustomEntryMissingId(domain.value))
        case Some(e) => Err(e)
        case None => Ok(Merge(s, c))
  }

  /** The loops' invariant: `keys` and `values` are the insertion-ordered
      map after inserting every entry of `srd` and then of `custom`. */
  ghost predicate MapHolds(keys: seq<Json>, values: map<Json, Json>, srd: seq<Json>, custom: seq<Json>)
    requires AllHaveIds(srd) && AllHaveIds(custom)
  {
    && keys == Dedup(Ids(srd) + Ids(custom))
    && (forall k :: k in values <==> k in keys)
    && (forall k :: k in values ==> k in Ids(srd) + Ids(custom) && values[k] == Winner(srd, custom, k))
  }

  /** `map.set(id, e)` on the insertion-ordered map whose keys are the
      first-seen order of `ids`: the keys become the first-seen order of `ids + [id]`. */
  lemma InsertKey(keys: seq<Json>, values: map<Json, Json>, ids: seq<Json>, id: Json)
    requires keys == Dedup(ids) && forall k :: k in values <==> k in keys
    ensures (if id in values then keys else keys + [id]) == Dedup(ids + [id])
    ensures forall k :: (k == id || k in values) <==> k in (if id in values then keys else keys + [id])
  {
    DedupSnoc(ids, id);
  }

  lemma SrdStep(s: seq<Json>, i: nat, keys: seq<Json>, values: map<Json, Json>)
    requires i < |s| && AllHaveIds(s[..i]) && HasId(s[i])
    requires MapHolds(keys, values, s[..i], [])
    ensures AllHaveIds(s[..i + 1])
    ensures MapHolds(if IdOf(s[i]) in values then keys else keys + [IdOf(s[i])],
                     values[IdOf(s[i]) := s[i]], s[..i + 1], [])
  {
    var id := IdOf(s[i]);
    IdsPrefix(s, i);
    assert Ids(s[..i]) + Ids([]) == Ids(s[..i]);
    assert Ids(s[..i + 1]) + Ids([]) == Ids(s[..i]) + [id];
    DedupSnoc(Ids(s[..i]), id);
    var values' := values[id := s[i]];
    forall k | k in values'
      ensures k in Ids(s[..i + 1]) + Ids([]) && values'[k] == Winner(s[..i + 1], [], k)
    {
      if k != id {
        assert k in Ids(s[..i]);
      }
      LastWithIdSnoc(s, i, k);
    }
  }

  /** The winner of every id after one more custom entry. */
  lemma CustomStepWinners(s: seq<Json>, c: seq<Json>, j: nat, values: map<Json, Json>, values': map<Json, Json>)
    requires AllHaveIds(s)
    requires j < |c| && AllHaveIds(c[..j]) && HasId(c[j]) && AllHaveIds(c[..j + 1])
    requires forall k :: k in values ==> k in Ids(s) + Ids(c[..j]) && values[k] == Winner(s, c[..j], k)
    requires values' == values[IdOf(c[j]) := c[j]]
    ensures forall k :: k in values' ==> k in Ids(s) + Ids(c[..j + 1]) && values'[k] == Winner(s, c[..j + 1], k)
  {
    IdsPrefix(c, j);
    forall k | k in values'
      ensures k in Ids(s) + Ids(c[..j + 1]) && values'[k] == Winner(s, c[..j + 1], k)
    {
      if k in Ids(c[..j + 1]) {
        LastWithIdSnoc(c, j, k);
      }
    }
  }

  lemma CustomStep(s: seq<Json>, c: seq<Json>, j: nat, keys: seq<Json>, values: map<Json, Json>)
    requires AllHaveIds(s)
    requires j < |c| && AllHaveIds(c[..j]) && HasId(c[j])
    requires MapHolds(keys, values, s, c[..j])
    ensures AllHaveIds(c[..j + 1])
    ensures MapHolds(if IdOf(c[j]) in values then keys else keys + [IdOf(c[j])],
                     values[IdOf(c[j]) := c[j]], s, c[..j + 1])
  {
    var id := IdOf(c[j]);
    IdsPrefix(c, j);
    var ids := Ids(s) + Ids(c[..j]);
    assert Ids(s) + Ids(c[..j + 1]) == ids + [id];
    InsertKey(keys, values, ids, id);
    CustomStepWinners(s, c, j, values, values[id := c[j]]);
  }

  lemma MapValuesAreMerge(keys: seq<Json>, values: map<Json, Json>, s: seq<Json>, c: seq<Json>,
                          out: seq<Json>)
    requires AllHaveIds(s) && AllHaveIds(c) && MapHolds(keys, values, s, c)
    requires out == seq(|keys|, k requires 0 <= k < |keys| => values[keys[k]])
    ensures out == Merge(s, c)
  {
  }

  lemma AggregateSrdMissing(domain: Option<Json>, srd: Option<Json>, custom: Option<Json>, i: nat)
    requires Truthy(domain) && IsArray(srd) && IsArray(custom)
    requires i < |srd.value.elems| && AllHaveIds(srd.value.elems[..i]) && !HasId(srd.value.elems[i])
    ensures Aggregate(domain, srd, custom) ==
            Err(if srd.value.elems[i].JNull? then EntryIsNull else SrdEntryMissingId(domain.value))
  {
    FirstMissingIdAt(srd.value.elems, i, SrdEntryMissingId(domain.value));
  }

  lemma AggregateCustomMissing(domain: Option<Json>, srd: Option<Json>, custom: Option<Json>, j: nat)
    requires Truthy(domain) && IsArray(srd) && IsArray(custom) && AllHaveIds(srd.value.elems)
    requires j < |custom.value.elems| && AllHaveIds(custom.value.elems[..j])
    requires !HasId(custom.value.elems[j])
    ensures Aggregate(domain, srd, custom) ==
            Err(if custom.value.elems[j].JNull? then EntryIsNull else CustomEntryMissingId(domain.value))
  {
    FirstMissingIdAt(custom.value.elems, j, CustomEntryMissingId(domain.value));
  }

  /** The source: validation, then the SRD loop and the custom loop over an
      insertion-ordered map (`keys` in insertion order, `values` the current
      value of each key), then the map's values. */
  method AggregateDomain(domain: Option<Json>, srd: Option<Json>, custom: Option<Json>)
    returns (r: Result<seq<Json>, AggregateError>)
    ensures r == Aggregate(domain, srd, custom)
  {
    if !Truthy(domain) {
      return Err(DomainRequired);
    }
    if !IsArray(srd) || !IsArray(custom) {
      return Err(InputsNotArrays(domain.value));
    }
    var s, c := srd.value.elems, custom.value.elems;
    var keys: seq<Json> := [];
    var values: map<Json, Json> := map[];

    for i := 0 to |s|
      invariant AllHaveIds(s[..i])
      invariant MapHolds(keys, values, s[..i], [])
    {
      var entry := s[i];
      if !HasId(entry) {
        AggregateSrdMissing(domain, srd, custom, i);
        if entry.JNull? {
          return Err(EntryIsNull);
        }
        return Err(SrdEntryMissingId(domain.value));
      }
      SrdStep(s, i, keys, values);
      var id := IdOf(entry);
      if id !in values {
        keys := keys + [id];
      }
      values := values[id := entry];
    }
    assert s[..|s|] == s;
    assert c[..0] == [];

    for j := 0 to |c|
      invariant AllHaveIds(c[..j])
      invariant MapHolds(keys, values, s, c[..j])
    {
      var entry := c[j];
      if !HasId(entry) {
        AggregateCustomMissing(domain, srd, custom, j);
        if entry.JNull? {
          return Err(EntryIsNull);
        }
        return Err(CustomEntryMissingId(domain.value));
      }
      CustomStep(s, c, j, keys, values);
      var id := IdOf(entry);
      if id !in values {
        keys := keys + [id];
      }
      values := values[id := entry];
    }
    assert c[..|c|] == c;
    var out := seq(|keys|, k requires 0 <= k < |keys| => values[keys[k]]);
    MapValuesAreMerge(keys, values, s, c, out);
    r := Ok(out);
  }

  /** The last entry with a given id is the one `LastWithId` finds. */
  lemma {:induction false} LastWithIdIsLast(es: seq<Json>, id: Json, k: nat)
    requires AllHaveIds(es) && k < |es| && IdOf(es[k]) == id
    requires forall j :: k < j < |es| ==> IdOf(es[j]) != id
    ensures id in Ids(es) && LastWithId(es, id) == es[k]
  {
    assert Ids(es)[k] == id;
    if k < |es| - 1 {
      var p := es[..|es| - 1];
      assert AllHaveIds(p) && p[k] == es[k];
      assert forall j :: k < j < |p| ==> IdOf(p[j]) != id by {
        forall j | k < j < |p| ensures IdOf(p[j]) != id {
          assert p[j] == es[j];
        }
      }
      LastWithIdIsLast(p, id, k);
    }
  }

  /** Every output entry carries the id at its position in the first-seen order. */
  lemma MergeIds(s: seq<Json>, c: seq<Json>)
    requires AllHaveIds(s) && AllHaveIds(c)
    ensures AllHaveIds(Merge(s, c))
    ensures Ids(Merge(s, c)) == Dedup(Ids(s) + Ids(c))
  {
  }

  /** The output ids are pairwise distinct, and they are exactly the SRD ids
      together with the custom ids. */
  lemma MergeIdSet(s: seq<Json>, c: seq<Json>)
    requires AllHaveIds(s) && AllHaveIds(c)
    ensures AllHaveIds(Merge(s, c)) && Distinct(Ids(Merge(s, c)))
    ensures forall id :: id in Ids(Merge(s, c)) <==> id in Ids(s) || id in Ids(c)
  {
    MergeIds(s, c);
    DedupDistinct(Ids(s) + Ids(c));
  }

  /** Entries are taken whole from the inputs, and each id gets its last
      custom entry if it has one, otherwise its last SRD entry. */
  lemma MergeWinner(s: seq<Json>, c: seq<Json>, i: nat)
    requires AllHaveIds(s) && AllHaveIds(c) && i < |Merge(s, c)|
    ensures Merge(s, c)[i] in s + c
    ensures HasId(Merge(s, c)[i])
    ensures IdOf(Merge(s, c)[i]) in Ids(c) ==> Merge(s, c)[i] in c
    ensures IdOf(Merge(s, c)[i]) !in Ids(c) ==> Merge(s, c)[i] in s
  {
  }

  /** An id in `custom` whose last occurrence there is at `k` ends up as `custom[k]`. */
  lemma MergeCustomOverrides(s: seq<Json>, c: seq<Json>, k: nat)
    requires AllHaveIds(s) && AllHaveIds(c) && k < |c|
    requires forall j :: k < j < |c| ==> IdOf(c[j]) != IdOf(c[k])
    ensures c[k] in Merge(s, c)
  {
    var id := IdOf(c[k]);
    LastWithIdIsLast(c, id, k);
    MergeIds(s, c);
    var m := Merge(s, c);
    assert id in Ids(s) + Ids(c);
    var i := FirstIndex(Ids(m), id);
    assert m[i] == Winner(s, c, id);
  }

  /** An id only in `srd` whose last occurrence there is at `k` ends up as `srd[k]`. */
  lemma MergeSrdKept(s: seq<Json>, c: seq<Json>, k: nat)
    requires AllHaveIds(s) && AllHaveIds(c) && k < |s| && IdOf(s[k]) !in Ids(c)
    requires forall j :: k < j < |s| ==> IdOf(s[j]) != IdOf(s[k])
    ensures s[k] in Merge(s, c)
  {
    var id := IdOf(s[k]);
    LastWithIdIsLast(s, id, k);
    MergeIds(s, c);
    var m := Merge(s, c);
    assert id in Ids(s) + Ids(c);
    var i := FirstIndex(Ids(m), id);
    assert m[i] == Winner(s, c, id);
  }

  /** Output order is first-seen order over SRD then custom: an entry that
      comes before another in the output has an id that appears earlier. */
  lemma MergeOrder(s: seq<Json>, c: seq<Json>, i: nat, j: nat)
    requires AllHaveIds(s) && AllHaveIds(c) && i < j < |Merge(s, c)|
    ensures FirstIndex(Ids(s) + Ids(c), IdOf(Merge(s, c)[i])) <
            FirstIndex(Ids(s) + Ids(c), IdOf(Merge(s, c)[j]))
  {
    MergeIds(s, c);
    DedupFirstSeenOrder(Ids(s) + Ids(c));
    assert Ids(Merge(s, c))[i] == IdOf(Merge(s, c)[i]);
    assert Ids(Merge(s, c))[j] == IdOf(Merge(s, c)[j]);
  }

  /** An override does not move an entry: the ids of the SRD-only result are
      a prefix of the ids of the merged result. */
  lemma MergeOverrideKeepsSlot(s: seq<Json>, c: seq<Json>)
    requires AllHaveIds(s) && AllHaveIds(c)
    ensures AllHaveIds(Merge(s, [])) && AllHaveIds(Merge(s, c))
    ensures Ids(Merge(s, [])) <= Ids(Merge(s, c))
  {
    MergeIds(s, []);
    MergeIds(s, c);
    assert Ids(s) + Ids([]) == Ids(s);
    DedupPrefix(Ids(s), Ids(c));
  }

  /** At most one output entry per input entry, and exactly one each when no
      id repeats across both inputs. */
  lemma MergeLength(s: seq<Json>, c: seq<Json>)
    requires AllHaveIds(s) && AllHaveIds(c)
    ensures |Merge(s, c)| <= |s| + |c|
    ensures |Merge(s, c)| == |s| + |c| <==> Distinct(Ids(s) + Ids(c))
  {
    DedupLength(Ids(s) + Ids(c));
  }

  /** The first entry of each missing-id test case: a missing domain, a
      `null` SRD input and a custom entry `{}`. */
  lemma AggregateSmokeErrors()
    ensures Aggregate(None, Some(JArr([])), Some(JArr([]))) == Err(DomainRequired)
    ensures Aggregate(Some(JStr("test")), Some(JNull), Some(JArr([]))) == Err(InputsNotArrays(JStr("test")))
    ensures Aggregate(Some(JStr("test")), Some(JArr([])), Some(JArr([JObj([])]))) ==
            Err(CustomEntryMissingId(JStr("test")))
  {
    FirstMissingIdAt([JObj([])], 0, CustomEntryMissingId(JStr("test")));
  }

  /** One SRD entry and one custom entry with the same id: the custom one is the result. */
  lemma MergeOneOverride(x: Json, y: Json)
    requires HasId(x) && HasId(y) && IdOf(x) == IdOf(y)
    ensures Merge([x], [y]) == [y]
  {
    var a := IdOf(x);
    var ids := Ids([x]) + Ids([y]);
    assert ids == [a] + [a];
    assert Dedup(ids) == [a] by {
      DedupSnoc([], a);
      assert [] + [a] == [a];
      DedupSnoc([a], a);
    }
    LastWithIdIsLast([y], a, 0);
    var m := Merge([x], [y]);
    assert |m| == 1 && m[0] == Winner([x], [y], a);
  }

  lemma {:induction false} DedupOfDistinct(s: seq<Json>)
    requires Distinct(s)
    ensures Dedup(s) == s
  {
    if s != [] {
      var p, x := s[..|s| - 1], s[|s| - 1];
      assert s == p + [x];
      assert Distinct(p) by {
        forall i, j | 0 <= i < j < |p| ensures p[i] != p[j] {
          assert p[i] == s[i] && p[j] == s[j];
        }
      }
      DedupOfDistinct(p);
      DedupSnoc(p, x);
    }
  }

  lemma DistinctConcat(a: seq<Json>, b: seq<Json>)
    requires Distinct(a + b)
    ensures Distinct(a) && Distinct(b)
    ensures forall x :: x in a ==> x !in b
  {
    forall i, j | 0 <= i < j < |a| ensures a[i] != a[j] {
      assert (a + b)[i] == a[i] && (a + b)[j] == a[j];
    }
    forall i, j | 0 <= i < j < |b| ensures b[i] != b[j] {
      assert (a + b)[|a| + i] == b[i] && (a + b)[|a| + j] == b[j];
    }
    forall x | x in a ensures x !in b {
      var i :| 0 <= i < |a| && a[i] == x;
      assert (a + b)[i] == x;
      forall j | 0 <= j < |b| ensures b[j] != x {
        assert (a + b)[|a| + j] == b[j];
      }
    }
  }

  lemma WinnerOfDistinctSrd(s: seq<Json>, c: seq<Json>, i: nat)
    requires AllHaveIds(s) && AllHaveIds(c) && Distinct(Ids(s) + Ids(c)) && i < |s|
    ensures IdOf(s[i]) in Ids(s) + Ids(c) && Winner(s, c, IdOf(s[i])) == s[i]
  {
    var a, b := Ids(s), Ids(c);
    DistinctConcat(a, b);
    var id := a[i];
    assert forall j :: i < j < |s| ==> IdOf(s[j]) != id by {
      forall j | i < j < |s| ensures IdOf(s[j]) != id {
        assert a[j] == IdOf(s[j]);
      }
    }
    LastWithIdIsLast(s, id, i);
    assert id !in b;
  }

  lemma WinnerOfDistinctCustom(s: seq<Json>, c: seq<Json>, k: nat)
    requires AllHaveIds(s) && AllHaveIds(c) && Distinct(Ids(s) + Ids(c)) && k < |c|
    ensures IdOf(c[k]) in Ids(s) + Ids(c) && Winner(s, c, IdOf(c[k])) == c[k]
  {
    var a, b := Ids(s), Ids(c);
    DistinctConcat(a, b);
    var id := b[k];
    assert forall j :: k < j < |c| ==> IdOf(c[j]) != id by {
      forall j | k < j < |c| ensures IdOf(c[j]) != id {
        assert b[j] == IdOf(c[j]);
      }
    }
    LastWithIdIsLast(c, id, k);
  }

  lemma MergeOfDistinctAt(s: seq<Json>, c: seq<Json>, i: nat)
    requires AllHaveIds(s) && AllHaveIds(c) && Distinct(Ids(s) + Ids(c))
    requires Dedup(Ids(s) + Ids(c)) == Ids(s) + Ids(c) && i < |s| + |c|
    ensures |Merge(s, c)| == |s| + |c| && Merge(s, c)[i] == (s + c)[i]
  {
    var ids := Ids(s) + Ids(c);
    if i < |s| {
      WinnerOfDistinctSrd(s, c, i);
      assert ids[i] == IdOf(s[i]);
    } else {
      WinnerOfDistinctCustom(s, c, i - |s|);
      assert ids[i] == IdOf(c[i - |s|]);
    }
  }

  /** When no id repeats, the merge is the SRD entries followed by the custom entries. */
  lemma MergeOfDistinct(s: seq<Json>, c: seq<Json>)
    requires AllHaveIds(s) && AllHaveIds(c) && Distinct(Ids(s) + Ids(c))
    ensures Merge(s, c) == s + c
  {
    DedupOfDistinct(Ids(s) + Ids(c));
    var m := Merge(s, c);
    assert |m| == |s + c|;
    forall i | 0 <= i < |m| ensures m[i] == (s + c)[i] {
      MergeOfDistinctAt(s, c, i);
    }
  }

  /** A custom entry replaces the SRD entry with the same id. */
  lemma AggregateOverrideExample()
    ensures var base := JObj([("id", JStr("sp-1")), ("name", JStr("Fireball"))]);
            var homebrew := JObj([("id", JStr("sp-1")), ("name", JStr("Fireball (Homebrew)"))]);
            Aggregate(Some(JStr("spells")), Some(JArr([base])), Some(JArr([homebrew]))) == Ok([homebrew])
  {
    var base := JObj([("id", JStr("sp-1")), ("name", JStr("Fireball"))]);
    var homebrew := JObj([("id", JStr("sp-1")), ("name", JStr("Fireball (Homebrew)"))]);
    assert Get(base, "id") == Some(JStr("sp-1")) && Get(homebrew, "id") == Some(JStr("sp-1"));
    MergeOneOverride(base, homebrew);
  }

  /** New custom ids go after the SRD ids, in order. */
  lemma AggregateOrderExample()
    ensures var e1, e2, e3 := JObj([("id", JStr("sp-1"))]), JObj([("id", JStr("sp-2"))]), JObj([("id", JStr("sp-3"))]);
            Aggregate(Some(JStr("spells")), Some(JArr([e1, e2])), Some(JArr([e3]))) == Ok([e1, e2, e3])
  {
    var e1, e2, e3 := JObj([("id", JStr("sp-1"))]), JObj([("id", JStr("sp-2"))]), JObj([("id", JStr("sp-3"))]);
    assert Get(e1, "id") == Some(JStr("sp-1")) && Get(e2, "id") == Some(JStr("sp-2"));
    assert Get(e3, "id") == Some(JStr("sp-3"));
    assert JStr("sp-1") != JStr("sp-2") && JStr("sp-1") != JStr("sp-3") && JStr("sp-2") != JStr("sp-3");
    assert Ids([e1, e2]) + Ids([e3]) == [JStr("sp-1"), JStr("sp-2"), JStr("sp-3")];
    MergeOfDistinct([e1, e2], [e3]);
    assert [e1, e2] + [e3] == [e1, e2, e3];
  }
}
