/**
 * The region-list hook: regions from the API become table rows keyed by a slug of the region's
 * name, and one fetch updates the loading flag, the error and the list.
 */
module RegionList {
  import opened Wrappers
  import opened Js

  const DEFAULT_ERROR := "Failed to fetch region list"

  /** One entry of `response.data.regions`. */
  datatype Region = Region(name: string, averageStrength: real, averageQuality: real,
                           measurementCount: int, strengthClass: string, qualityClass: string)

  /** One row of the table. */
  datatype RegionMetric = RegionMetric(id: string, region: string, averageStrength: real, averageQuality: real,
                                       measurementCount: int, strengthClass: string, qualityClass: string)

  // ---------------------------------------------------------------- slug

  /** `s.replace(/\s+/g, '-')`: every maximal white-space run becomes one '-'. */
  function CollapseWhitespace(s: string): (r: string)
    ensures |r| <= |s|
  {
    if s == [] then []
    else if IsWhitespace(s[0]) then "-" + CollapseWhitespace(TrimStart(s[1..]))
    else [s[0]] + CollapseWhitespace(s[1..])
  }

  /** The row id: `name.toLowerCase().replace(/\s+/g, '-')`. */
  function Slug(name: string): (id: string)
    ensures forall i :: 0 <= i < |id| ==> !IsWhitespace(id[i])
    ensures |id| <= |name|
  {
    CollapseHasNoWhitespace(ToLower(name));
    CollapseWhitespace(ToLower(name))
  }

  /** Collapsing distributes over a cut that does not split a white-space run. */
  lemma {:induction false} CollapseAppend(a: string, b: string)
    requires a == [] || !IsWhitespace(a[|a| - 1])
    ensures CollapseWhitespace(a + b) == CollapseWhitespace(a) + CollapseWhitespace(b)
    decreases |a|, 1
  {
    if a == [] {
      assert a + b == b;
    } else if IsWhitespace(a[0]) {
      CollapseAppendAtRun(a, b);
    } else {
      CollapseAppendAtChar(a, b);
    }
  }

  /** `CollapseAppend` when `a` starts with white space. */
  lemma {:induction false} CollapseAppendAtRun(a: string, b: string)
    requires a != [] && IsWhitespace(a[0]) && !IsWhitespace(a[|a| - 1])
    ensures CollapseWhitespace(a + b) == CollapseWhitespace(a) + CollapseWhitespace(b)
    decreases |a|, 0
  {
    var a' := a[1..];
    assert (a + b)[1..] == a' + b;
    var t := TrimStart(a');
    TrimStartAppend(a', b);
    assert t[|t| - 1] == a[|a| - 1];
    CollapseAppend(t, b);
  }

  /** `CollapseAppend` when `a` starts with a character that is not white space. */
  lemma {:induction false} CollapseAppendAtChar(a: string, b: string)
    requires a != [] && !IsWhitespace(a[0]) && !IsWhitespace(a[|a| - 1])
    ensures CollapseWhitespace(a + b) == CollapseWhitespace(a) + CollapseWhitespace(b)
    decreases |a|, 0
  {
    var a' := a[1..];
    assert (a + b)[1..] == a' + b;
    assert a' == [] || a'[|a'| - 1] == a[|a| - 1];
    CollapseAppend(a', b);
  }

  /** When `a` ends in a non-white-space character, `trimStart` never reaches `b`. */
  lemma {:induction false} TrimStartAppend(a: string, b: string)
    requires a != [] && !IsWhitespace(a[|a| - 1])
    ensures TrimStart(a + b) == TrimStart(a) + b
  {
    var ab := a + b;
    assert ab[0] == a[0];
    if IsWhitespace(a[0]) {
      var a' := a[1..];
      assert ab[1..] == a' + b;
      assert a'[|a'| - 1] == a[|a| - 1];
      TrimStartAppend(a', b);
    }
  }

  /** A non-empty white-space run followed by a non-white-space character (or nothing) becomes one '-'. */
  lemma {:induction false} CollapseRun(run: string, b: string)
    requires run != [] && forall i :: 0 <= i < |run| ==> IsWhitespace(run[i])
    requires b == [] || !IsWhitespace(b[0])
    ensures CollapseWhitespace(run + b) == "-" + CollapseWhitespace(b)
  {
    assert (run + b)[1..] == run[1..] + b;
    TrimStartOfRun(run[1..], b);
  }

  lemma {:induction false} TrimStartOfRun(run: string, b: string)
    requires forall i :: 0 <= i < |run| ==> IsWhitespace(run[i])
    requires b == [] || !IsWhitespace(b[0])
    ensures TrimStart(run + b) == b
  {
    if run == [] {
      assert run + b == b;
    } else {
      assert (run + b)[1..] == run[1..] + b;
      TrimStartOfRun(run[1..], b);
    }
  }

  /** Each maximal white-space run between two parts of a name is replaced by exactly one '-'. */
  lemma SlugSeparatesWords(a: string, run: string, b: string)
    requires a == [] || !IsWhitespace(a[|a| - 1])
    requires run != [] && forall i :: 0 <= i < |run| ==> IsWhitespace(run[i])
    requires b == [] || !IsWhitespace(b[0])
    ensures CollapseWhitespace(a + (run + b)) == CollapseWhitespace(a) + ("-" + CollapseWhitespace(b))
  {
    CollapseAppend(a, run + b);
    CollapseRun(run, b);
  }

  /** A string without white space is left as it is. */
  lemma {:induction false} CollapseNoWhitespace(s: string)
    requires forall i :: 0 <= i < |s| ==> !IsWhitespace(s[i])
    ensures CollapseWhitespace(s) == s
  {
    if s != [] {
      CollapseNoWhitespace(s[1..]);
    }
  }

  /** Slugging an id again changes nothing. */
  lemma SlugIdempotent(name: string)
    ensures Slug(Slug(name)) == Slug(name)
  {
    LowerOfSlug(name);
    CollapseNoWhitespace(Slug(name));
  }

  /** An id holds no upper-case ASCII letter, so lower-casing it is the identity. */
  lemma LowerOfSlug(name: string)
    ensures ToLower(Slug(name)) == Slug(name)
  {
    var lower := ToLower(name);
    forall i | 0 <= i < |lower| ensures !('A' <= lower[i] <= 'Z') {}
    CollapseKeepsLower(lower);
    ToLowerOfNoUpper(Slug(name));
  }

  /** A character of the result: a '-' or a non-white-space character of the input. */
  predicate FromInput(c: char, s: string) {
    c == '-' || (c in s && !IsWhitespace(c))
  }

  lemma InSuffix(s: string, k: nat, c: char)
    requires k <= |s| && c in s[k..]
    ensures c in s
  {
    var j :| 0 <= j < |s[k..]| && s[k..][j] == c;
    assert s[k + j] == c;
  }

  /** Every character of the result is a '-' or a non-white-space character of the input. */
  lemma {:induction false} CollapseCharAt(s: string, i: nat)
    requires i < |CollapseWhitespace(s)|
    ensures FromInput(CollapseWhitespace(s)[i], s)
    decreases |s|, 1
  {
    if IsWhitespace(s[0]) {
      CollapseCharAtRun(s, i);
    } else {
      CollapseCharAtChar(s, i);
    }
  }

  lemma {:induction false} CollapseCharAtRun(s: string, i: nat)
    requires s != [] && IsWhitespace(s[0]) && i < |CollapseWhitespace(s)|
    ensures FromInput(CollapseWhitespace(s)[i], s)
    decreases |s|, 0
  {
    var rest := TrimStart(s[1..]);
    assert CollapseWhitespace(s) == "-" + CollapseWhitespace(rest);
    if i > 0 {
      CollapseCharAt(rest, i - 1);
      var c := CollapseWhitespace(rest)[i - 1];
      assert CollapseWhitespace(s)[i] == c;
      if c != '-' {
        assert rest == s[|s| - |rest|..];
        InSuffix(s, |s| - |rest|, c);
      }
    }
  }

  lemma {:induction false} CollapseCharAtChar(s: string, i: nat)
    requires s != [] && !IsWhitespace(s[0]) && i < |CollapseWhitespace(s)|
    ensures FromInput(CollapseWhitespace(s)[i], s)
    decreases |s|, 0
  {
    var rest := s[1..];
    assert CollapseWhitespace(s) == [s[0]] + CollapseWhitespace(rest);
    if i > 0 {
      CollapseCharAt(rest, i - 1);
      var c := CollapseWhitespace(rest)[i - 1];
      assert CollapseWhitespace(s)[i] == c;
      if c != '-' {
        InSuffix(s, 1, c);
      }
    }
  }

  /** The result contains no white space. */
  lemma CollapseHasNoWhitespace(s: string)
    ensures forall i :: 0 <= i < |CollapseWhitespace(s)| ==> !IsWhitespace(CollapseWhitespace(s)[i])
  {
    forall i | 0 <= i < |CollapseWhitespace(s)| ensures !IsWhitespace(CollapseWhitespace(s)[i]) {
      CollapseCharAt(s, i);
    }
  }

  /** No ASCII upper-case letter occurs in `s`. */
  predicate NoUpper(s: string) {
    forall i :: 0 <= i < |s| ==> !('A' <= s[i] <= 'Z')
  }

  /** Collapsing only drops characters and adds '-', so a string free of 'A'..'Z' stays free of them. */
  lemma CollapseKeepsLower(s: string)
    requires NoUpper(s)
    ensures NoUpper(CollapseWhitespace(s))
  {
    forall i | 0 <= i < |CollapseWhitespace(s)| ensures !('A' <= CollapseWhitespace(s)[i] <= 'Z') {
      CollapseCharAt(s, i);
    }
  }

  /** Lower-casing changes nothing in a string free of 'A'..'Z'. */
  lemma ToLowerOfNoUpper(s: string)
    requires NoUpper(s)
    ensures ToLower(s) == s
  {
  }

  // ---------------------------------------------------------------- rows

  /** One table row: the id is a white-space-free slug of the name; the rest is copied. */
  function ToRow(region: Region): (row: RegionMetric)
    ensures forall i :: 0 <= i < |row.id| ==> !IsWhitespace(row.id[i])
    ensures |row.id| <= |region.name| && row.region == region.name
    ensures row.averageStrength == region.averageStrength && row.averageQuality == region.averageQuality
    ensures row.measurementCount == region.measurementCount
    ensures row.strengthClass == region.strengthClass && row.qualityClass == region.qualityClass
  {
    RegionMetric(Slug(region.name), region.name, region.averageStrength, region.averageQuality,
                 region.measurementCount, region.strengthClass, region.qualityClass)
  }

  /** `response.data.regions.map(...)`: one row per region, in order. */
  function TransformRegions(regions: seq<Region>): (rows: seq<RegionMetric>)
    ensures |rows| == |regions|
    ensures forall i :: 0 <= i < |regions| ==>
      && rows[i].id == Slug(regions[i].name)
      && rows[i].region == regions[i].name
      && rows[i].averageStrength == regions[i].averageStrength
      && rows[i].averageQuality == regions[i].averageQuality
      && rows[i].measurementCount == regions[i].measurementCount
      && rows[i].strengthClass == regions[i].strengthClass
      && rows[i].qualityClass == regions[i].qualityClass
  {
    seq(|regions|, i requires 0 <= i < |regions| => ToRow(regions[i]))
  }


  // ---------------------------------------------------------------- the hook

  /** What `MetricsService.getRegionList()` settles to. */
  datatype RegionListResult = Regions(regions: seq<Region>) | Threw(thrown: Thrown)

  class RegionListHook {
    var metrics: seq<RegionMetric>
    var isLoading: bool
    var error: Option<string>

    /** The initial state: no rows, loading, no error. */
    constructor()
      ensures metrics == [] && isLoading && error == None
    {
      metrics := [];
      isLoading := true;
      error := None;
    }

    /** `fetchRegionList`: clears the error, then either replaces the rows or records the error
        and keeps the old rows; loading is off afterwards either way. */
    method FetchRegionList(result: RegionListResult)
      modifies this
      ensures !isLoading
      ensures result.Regions? ==> metrics == TransformRegions(result.regions) && error == None
      ensures result.Threw? ==> metrics == old(metrics) && error == Some(MessageOr(result.thrown, DEFAULT_ERROR))
    {
      isLoading := true;
      error := None;
      match result {
        case Regions(regions) =>
          metrics := TransformRegions(regions);
        case Threw(thrown) =>
          error := Some(MessageOr(thrown, DEFAULT_ERROR));
      }
      isLoading := false;
    }
  }

  /** Mounting runs one fetch; a later `refetch` is the same method. */
  method Mount(result: RegionListResult) returns (hook: RegionListHook)
    ensures fresh(hook) && !hook.isLoading
    ensures result.Regions? ==> hook.metrics == TransformRegions(result.regions) && hook.error == None
    ensures result.Threw? ==> hook.metrics == [] && hook.error == Some(MessageOr(result.thrown, DEFAULT_ERROR))
  {
    hook := new RegionListHook();
    hook.FetchRegionList(result);
  }
}
