/** js/unified-loader.js: the base path of the page, computed once and
    cached, and the register of loaded datasets, one per domain, guarded so
    that only arrays marked as normalized for that very domain get in. The
    page's `location.pathname` is a constructor parameter and the result of
    the dynamic `import` is a parameter of `LoadDataset`. */
module UnifiedLoader {
  import opened Text
  import opened JsValue

  /* ---------------------------------------------------------------
     computeBasePath
     --------------------------------------------------------------- */

  /** `parts.filter(Boolean)`: the non-empty pieces, in order. */
  function NonEmptyParts(ps: seq<string>): seq<string>
    decreases |ps|
  {
    if ps == [] then [] else (if ps[0] == "" then [] else [ps[0]]) + NonEmptyParts(ps[1..])
  }

  /** `parts.pop()`: the last piece removed, nothing when there is none. */
  function DropLast(ps: seq<string>): seq<string> {
    if ps == [] then [] else ps[..|ps| - 1]
  }

  /** The directories of the path: its non-empty segments but the last. */
  function Directories(pathname: string): seq<string> {
    DropLast(NonEmptyParts(Split(pathname, '/')))
  }

  /** `computeBasePath()` for `location.pathname == pathname`. */
  function ComputeBasePath(pathname: string): string {
    var parts := Directories(pathname);
    if |parts| == 0 then "/" else "/" + Join(parts, "/") + "/"
  }

  lemma {:induction false} SplitPiecesFree(s: string, sep: char)
    ensures forall i :: 0 <= i < |Split(s, sep)| ==> Free(Split(s, sep)[i], sep)
    decreases |s|
  {
    if |s| > 0 {
      SplitPiecesFree(s[1..], sep);
      if s[0] != sep {
        var t := Split(s[1..], sep);
        assert Free(t[0], sep);
        assert forall j :: 0 <= j < |[s[0]] + t[0]| ==> ([s[0]] + t[0])[j] == if j == 0 then s[0] else t[0][j - 1];
      }
    }
  }

  /** The kept pieces are non-empty and are pieces of the input. */
  lemma {:induction false} NonEmptyPartsSpec(ps: seq<string>)
    ensures forall x :: x in NonEmptyParts(ps) ==> x != "" && x in ps
    ensures (forall i :: 0 <= i < |ps| ==> ps[i] != "") ==> NonEmptyParts(ps) == ps
    decreases |ps|
  {
    if ps != [] {
      NonEmptyPartsSpec(ps[1..]);
      if forall i :: 0 <= i < |ps| ==> ps[i] != "" {
        assert forall i :: 0 <= i < |ps[1..]| ==> ps[1..][i] == ps[i + 1];
        assert [ps[0]] + ps[1..] == ps;
      }
    }
  }

  lemma {:induction false} NonEmptyPartsConcat(a: seq<string>, b: seq<string>)
    ensures NonEmptyParts(a + b) == NonEmptyParts(a) + NonEmptyParts(b)
    decreases |a|
  {
    if a != [] {
      var head := if a[0] == "" then [] else [a[0]];
      assert (a + b)[0] == a[0] && (a + b)[1..] == a[1..] + b;
      NonEmptyPartsConcat(a[1..], b);
      assert NonEmptyParts(a + b) == head + (NonEmptyParts(a[1..]) + NonEmptyParts(b));
      assert NonEmptyParts(a) == head + NonEmptyParts(a[1..]);
    } else {
      assert a + b == b;
    }
  }

  lemma {:induction false} JoinSnoc(ps: seq<string>, x: string, sep: string)
    requires |ps| >= 1
    ensures Join(ps + [x], sep) == Join(ps, sep) + sep + x
    decreases |ps|
  {
    if |ps| > 1 {
      assert (ps + [x])[1..] == ps[1..] + [x];
      JoinSnoc(ps[1..], x, sep);
    } else {
      assert (ps + [x])[1..] == [x];
    }
  }

  /** The directories are non-empty and hold no `/`. */
  lemma DirectoriesShape(pathname: string)
    ensures forall i :: 0 <= i < |Directories(pathname)| ==>
              Directories(pathname)[i] != "" && Free(Directories(pathname)[i], '/')
  {
    var pieces := Split(pathname, '/');
    var all := NonEmptyParts(pieces);
    var parts := Directories(pathname);
    SplitPiecesFree(pathname, '/');
    NonEmptyPartsSpec(pieces);
    forall i | 0 <= i < |parts| ensures parts[i] != "" && Free(parts[i], '/') {
      assert parts[i] == all[i] && all[i] in all;
      var j :| 0 <= j < |pieces| && pieces[j] == parts[i];
    }
  }

  /** A `/` on each side is a join with an empty piece on each side. */
  lemma FramedJoin(parts: seq<string>)
    requires |parts| >= 1
    ensures Join([""] + parts + [""], "/") == "/" + Join(parts, "/") + "/"
  {
    var framed := [""] + parts + [""];
    var x := Join(parts, "/");
    JoinSnoc(parts, "", "/");
    assert framed[0] == "" && framed[1..] == parts + [""];
    assert Join(framed, "/") == "" + "/" + Join(parts + [""], "/");
    assert Join(parts + [""], "/") == x + "/" + "";
    FramedAlgebra(x);
  }

  lemma FramedAlgebra(x: string)
    ensures "" + "/" + (x + "/" + "") == "/" + x + "/"
  {
  }

  /** Filtering the framed pieces gives the non-empty pieces back. */
  lemma FramedNonEmpty(parts: seq<string>)
    requires forall i :: 0 <= i < |parts| ==> parts[i] != ""
    ensures NonEmptyParts([""] + parts + [""]) == parts
  {
    NonEmptyPartsConcat([""] + parts, [""]);
    NonEmptyPartsConcat([""], parts);
    NonEmptyPartsSpec(parts);
    assert NonEmptyParts([""]) == [];
  }

  /** The base path starts and ends with `/`, and its own segments are the
      directories of the path it was computed from: nothing empty, nothing
      added, the file name dropped. */
  lemma ComputeBasePathSpec(pathname: string)
    ensures var r := ComputeBasePath(pathname);
            && |r| >= 1 && r[0] == '/' && r[|r| - 1] == '/'
            && NonEmptyParts(Split(r, '/')) == Directories(pathname)
  {
    var parts := Directories(pathname);
    if |parts| == 0 {
      assert Split("/", '/') == [""] + Split("", '/');
    } else {
      var framed := [""] + parts + [""];
      DirectoriesShape(pathname);
      forall i | 0 <= i < |framed| ensures Free(framed[i], '/') {
        if 0 < i < |framed| - 1 {
          assert framed[i] == parts[i - 1];
        }
      }
      FramedJoin(parts);
      SplitJoin(framed, '/');
      FramedNonEmpty(parts);
    }
  }

  /* ---------------------------------------------------------------
     The dataset register
     --------------------------------------------------------------- */

  datatype LoaderError =
    | InvalidDomain
    | AlreadyLoaded(domain: string)
    | ImportFailed(domain: string)
    | DefaultNotArray(domain: string)
    | NotNormalized(domain: string)
    | DomainMismatch(domain: string, got: Option<Json>)

  /** What `await import(url)` gave: a throw, or the module's `default`,
      `__normalized` and `__domain` exports. */
  datatype ImportResult =
    | ImportThrew
    | Module(defaultExport: Option<Json>, normalizedMark: Option<Json>, domainMark: Option<Json>)

  /** What `loadDataset(domain, relativePath)` resolves to or rejects with,
      given the register before the call and the import's result. */
  function LoadOutcome(datasets: map<string, seq<Json>>, domain: Option<Json>, imported: ImportResult)
    : Result<seq<Json>, LoaderError>
  {
    if !Truthy(domain) || TypeOf(domain) != "string" then Err(InvalidDomain)
    else
      var d := domain.value.s;
      if d in datasets then Err(AlreadyLoaded(d))
      else if imported.ImportThrew? then Err(ImportFailed(d))
      else if !IsArray(imported.defaultExport) then Err(DefaultNotArray(d))
      else if imported.normalizedMark != Some(JBool(true)) then Err(NotNormalized(d))
      else if imported.domainMark != Some(JStr(d)) then Err(DomainMismatch(d, imported.domainMark))
      else Ok(imported.defaultExport.value.elems)
  }

  /** The register after that call. */
  function Registered(datasets: map<string, seq<Json>>, domain: Option<Json>, imported: ImportResult)
    : map<string, seq<Json>>
  {
    var r := LoadOutcome(datasets, domain, imported);
    if r.Ok? then datasets[domain.value.s := r.value] else datasets
  }

  /** A module gets in exactly when the domain is a non-empty string not yet
      registered and the module is an array marked as normalized for that
      domain; a registered domain is an error, never the cached data. */
  lemma LoadOutcomeSpec(datasets: map<string, seq<Json>>, domain: Option<Json>, imported: ImportResult)
    ensures LoadOutcome(datasets, domain, imported).Ok? <==>
              && domain.Some? && domain.value.JStr? && domain.value.s != ""
              && domain.value.s !in datasets
              && imported.Module? && IsArray(imported.defaultExport)
              && imported.normalizedMark == Some(JBool(true))
              && imported.domainMark == Some(JStr(domain.value.s))
    ensures LoadOutcome(datasets, domain, imported).Ok? ==>
              LoadOutcome(datasets, domain, imported).value == imported.defaultExport.value.elems
    ensures domain.Some? && domain.value.JStr? && domain.value.s in datasets ==>
              LoadOutcome(datasets, domain, imported) ==
                (if domain.value.s == "" then Err(InvalidDomain) else Err(AlreadyLoaded(domain.value.s)))
  {
  }

  /** The register only grows: a rejection changes nothing, an acceptance
      adds its own domain, and data once registered is never replaced. */
  lemma RegisterGrows(datasets: map<string, seq<Json>>, domain: Option<Json>, imported: ImportResult)
    ensures var after := Registered(datasets, domain, imported);
            var r := LoadOutcome(datasets, domain, imported);
            && (forall k :: k in datasets ==> k in after && after[k] == datasets[k])
            && (r.Err? ==> after == datasets)
            && (r.Ok? ==> after.Keys == datasets.Keys + {domain.value.s} && after[domain.value.s] == r.value)
  {
  }

  /** A second load of a domain that was accepted fails, whatever it imports. */
  lemma SecondLoadRejected(datasets: map<string, seq<Json>>, domain: Option<Json>, first: ImportResult, second: ImportResult)
    requires LoadOutcome(datasets, domain, first).Ok?
    ensures LoadOutcome(Registered(datasets, domain, first), domain, second) == Err(AlreadyLoaded(domain.value.s))
  {
  }

  /** The `DnDLoader` object with its module-level `state`. */
  class DndLoader {
    const pathname: string
    var basePath: Option<string>
    var datasets: map<string, seq<Json>>

    /** A cached base path is the one the page's path gives. */
    ghost predicate Valid()
      reads this
    {
      basePath.Some? ==> basePath.value == ComputeBasePath(pathname)
    }

    /** `state = { basePath: null, datasets: new Map() }` on a page at `pathname`. */
    constructor (pathname: string)
      ensures this.pathname == pathname && basePath == None && datasets == map[]
      ensures Valid()
    {
      this.pathname := pathname;
      basePath := None;
      datasets := map[];
    }

    /** `getBasePath()`: computed on the first call, read from the cache after. */
    method GetBasePath() returns (p: string)
      requires Valid()
      modifies this
      ensures Valid()
      ensures p == ComputeBasePath(pathname) && basePath == Some(p)
      ensures old(basePath).Some? ==> basePath == old(basePath)
      ensures datasets == old(datasets)
    {
      if basePath.None? || basePath.value == "" {
        basePath := Some(ComputeBasePath(pathname));
      }
      p := basePath.value;
    }

    /** `loadDataset(domain, relativePath)` with `imported` the result of
      importing the dataset: the guard rails, then the registration. */
    method LoadDataset(domain: Option<Json>, imported: ImportResult) returns (r: Result<seq<Json>, LoaderError>)
      requires Valid()
      modifies this
      ensures Valid()
      ensures r == LoadOutcome(old(datasets), domain, imported)
      ensures datasets == Registered(old(datasets), domain, imported)
      ensures r.Ok? ==> GetDataset(domain) == Some(r.value)
      ensures old(basePath).Some? ==> basePath == old(basePath)
      ensures old(basePath).None? ==>
                (basePath.Some? <==> Truthy(domain) && TypeOf(domain) == "string" && domain.value.s !in old(datasets))
    {
      if !Truthy(domain) || TypeOf(domain) != "string" {
        return Err(InvalidDomain);
      }
      var d := domain.value.s;
      if d in datasets {
        return Err(AlreadyLoaded(d));
      }
      var base := GetBasePath();
      if imported.ImportThrew? {
        return Err(ImportFailed(d));
      }
      var data := imported.defaultExport;
      if !IsArray(data) {
        return Err(DefaultNotArray(d));
      }
      if imported.normalizedMark != Some(JBool(true)) {
        return Err(NotNormalized(d));
      }
      if imported.domainMark != Some(JStr(d)) {
        return Err(DomainMismatch(d, imported.domainMark));
      }
      datasets := datasets[d := data.value.elems];
      return Ok(data.value.elems);
    }

    /** `getDataset(domain)`: only string keys are ever registered. */
    function GetDataset(domain: Option<Json>): Option<seq<Json>>
      reads this
    {
      if domain.Some? && domain.value.JStr? && domain.value.s in datasets then Some(datasets[domain.value.s])
      else None
    }

    /** `hasDataset(domain)`, which agrees with `getDataset`. */
    predicate HasDataset(domain: Option<Json>)
      reads this
      ensures HasDataset(domain) <==> GetDataset(domain).Some?
    {
      domain.Some? && domain.value.JStr? && domain.value.s in datasets
    }
  }
}
