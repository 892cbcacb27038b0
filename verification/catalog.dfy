/** The catalog page: a client-side filter over the fetched prompt list and
    the two facet lists (platforms, categories) offered by its selectors. */
module Catalog {
  import opened Types
  import opened Text

  /** A row of the `prompts` table. */
  datatype Prompt = Prompt(
    id: string,
    title: string,
    category: string,
    platform: string,
    creditCost: int,
    isPremium: bool,
    promptText: string,
    usageTips: Option<string>,
    exampleImageUrl: Option<string>,
    createdAt: string)

  /** The wildcard value of the platform and category selectors. */
  const AllFilter: string := "all"

  /** The three controls of the catalog page. */
  datatype Query = Query(searchTerm: string, platformFilter: string, categoryFilter: string)

  /** The initial state of the controls: empty search, both selectors on the wildcard. */
  const InitialQuery: Query := Query("", AllFilter, AllFilter)

  predicate TitleMatches(p: Prompt, term: string) {
    Includes(Lower(p.title), Lower(term))
  }

  predicate PlatformMatches(p: Prompt, filter: string) {
    filter == AllFilter || p.platform == filter
  }

  predicate CategoryMatches(p: Prompt, filter: string) {
    filter == AllFilter || p.category == filter
  }

  /** The catalog's keep-predicate: all three controls accept the prompt. */
  predicate Matches(p: Prompt, q: Query) {
    && TitleMatches(p, q.searchTerm)
    && PlatformMatches(p, q.platformFilter)
    && CategoryMatches(p, q.categoryFilter)
  }

  /** `sub` is `s` with some elements removed and the rest kept in order. */
  ghost predicate IsSubsequence(sub: seq<Prompt>, s: seq<Prompt>)
    decreases |s|
  {
    || |sub| == 0
    || (&& |s| > 0
        && (|| (sub[0] == s[0] && IsSubsequence(sub[1..], s[1..]))
            || IsSubsequence(sub, s[1..])))
  }

  /** `prompts.filter(matches)`. */
  function Filter(ps: seq<Prompt>, q: Query): (r: seq<Prompt>)
    ensures IsSubsequence(r, ps)
    ensures forall p :: p in r <==> p in ps && Matches(p, q)
    decreases |ps|
  {
    if |ps| == 0 then []
    else if Matches(ps[0], q) then [ps[0]] + Filter(ps[1..], q)
    else Filter(ps[1..], q)
  }

  /** The list the page shows: nothing until the prompts have been fetched,
      then the prompts all three controls accept, in fetched order. */
  function FilteredPrompts(prompts: Option<seq<Prompt>>, q: Query): (r: seq<Prompt>)
    ensures prompts.None? ==> r == []
    ensures prompts.Some? ==> IsSubsequence(r, prompts.value)
    ensures prompts.Some? ==>
              forall p :: p in r <==> p in prompts.value && Matches(p, q)
  {
    match prompts
    case None => []
    case Some(ps) => Filter(ps, q)
  }

  /** Filtering distributes over concatenation: whether a prompt is kept
      depends on that prompt alone. */
  lemma {:induction false} FilterAppend(a: seq<Prompt>, b: seq<Prompt>, q: Query)
    ensures Filter(a + b, q) == Filter(a, q) + Filter(b, q)
    decreases |a|
  {
    if |a| > 0 {
      assert (a + b)[1..] == a[1..] + b;
      FilterAppend(a[1..], b, q);
    } else {
      assert a + b == b;
    }
  }

  /** With an empty search term and both selectors on the wildcard, the
      page shows every fetched prompt in fetched order. */
  lemma {:induction false} FilterKeepsAll(ps: seq<Prompt>, q: Query)
    requires q.searchTerm == "" && q.platformFilter == AllFilter && q.categoryFilter == AllFilter
    ensures Filter(ps, q) == ps
    decreases |ps|
  {
    if |ps| > 0 {
      IncludesEmpty(Lower(ps[0].title));
      FilterKeepsAll(ps[1..], q);
      assert ps == [ps[0]] + ps[1..];
    }
  }

  /** The initial controls show the whole catalog. */
  lemma InitialQueryShowsAll(prompts: seq<Prompt>)
    ensures FilteredPrompts(Some(prompts), InitialQuery) == prompts
  {
    FilterKeepsAll(prompts, InitialQuery);
  }

  /** A non-wildcard platform selection keeps exactly the prompts of that
      platform (among those the other two controls accept). */
  lemma PlatformSelection(ps: seq<Prompt>, q: Query, p: Prompt)
    requires q.platformFilter != AllFilter
    requires p in Filter(ps, q)
    ensures p.platform == q.platformFilter
  {
  }

  // ---------------------------------------------------------------------------
  // Facets
  // ---------------------------------------------------------------------------

  /** No value occurs twice in `s`. */
  predicate Distinct(s: seq<string>) {
    forall i, j :: 0 <= i < j < |s| ==> s[i] != s[j]
  }

  /** `Array.from(new Set(s))`: the values of `s` in order of first
      appearance, each once. A `Set` is filled by inserting the elements
      of `s` one after the other, ignoring values it already holds. */
  function Dedup(s: seq<string>): (r: seq<string>)
    ensures forall x :: x in r <==> x in s
    ensures Distinct(r)
    decreases |s|
  {
    if |s| == 0 then []
    else
      var d := Dedup(s[..|s| - 1]);
      var x := s[|s| - 1];
      assert forall y :: y in s <==> y in s[..|s| - 1] || y == x by {
        assert s == s[..|s| - 1] + [x];
      }
      if x in d then d else d + [x]
  }

  /** The index of the first occurrence of `x` in `s`. */
  function FirstIndex(s: seq<string>, x: string): (k: nat)
    requires x in s
    ensures k < |s| && s[k] == x
    ensures forall i :: 0 <= i < k ==> s[i] != x
  {
    if s[0] == x then 0 else 1 + FirstIndex(s[1..], x)
  }

  lemma {:induction false} FirstIndexOfPrefix(s: seq<string>, y: string, x: string)
    requires x in s
    ensures FirstIndex(s + [y], x) == FirstIndex(s, x)
  {
    if s[0] != x {
      assert (s + [y])[1..] == s[1..] + [y];
      FirstIndexOfPrefix(s[1..], y, x);
    }
  }

  /** The values of `r`, all taken from `s`, are listed in the order in which
      they first appear in `s`. */
  predicate FirstAppearanceOrder(s: seq<string>, r: seq<string>) {
    forall i, j :: 0 <= i < j < |r| && r[i] in s && r[j] in s ==>
      FirstIndex(s, r[i]) < FirstIndex(s, r[j])
  }

  /** The values of `Dedup(s)` are listed in order of their first
      appearance in `s`. */
  lemma {:induction false} DedupFirstAppearance(s: seq<string>)
    ensures FirstAppearanceOrder(s, Dedup(s))
    decreases |s|
  {
    if |s| > 0 {
      var init := s[..|s| - 1];
      var x := s[|s| - 1];
      assert s == init + [x];
      var d := Dedup(init);
      var r := Dedup(s);
      assert r == if x in d then d else d + [x];
      DedupFirstAppearance(init);
      forall i, j | 0 <= i < j < |r|
        ensures FirstIndex(s, r[i]) < FirstIndex(s, r[j])
      {
        assert r[i] == d[i] && r[i] in init;
        FirstIndexOfPrefix(init, x, r[i]);
        if j < |d| {
          assert r[j] == d[j] && r[j] in init;
          FirstIndexOfPrefix(init, x, r[j]);
          assert FirstIndex(init, d[i]) < FirstIndex(init, d[j]);
          assert FirstIndex(s, r[i]) == FirstIndex(init, d[i]);
        } else {
          assert r[j] == x && x !in init;
          FirstIndexOfNew(init, x);
          assert FirstIndex(s, x) == |init|;
          assert FirstIndex(s, r[i]) < |init|;
        }
      }
    }
  }

  lemma FirstIndexOfNew(s: seq<string>, x: string)
    requires x !in s
    ensures FirstIndex(s + [x], x) == |s|
  {
  }

  /** The JavaScript `Set` as the page uses it: walk the values, remember
      those already seen, append the others. */
  method DistinctInOrder(xs: seq<string>) returns (r: seq<string>)
    ensures r == Dedup(xs)
  {
    r := [];
    var seen: set<string> := {};
    var i := 0;
    while i < |xs|
      invariant 0 <= i <= |xs|
      invariant r == Dedup(xs[..i])
      invariant forall x :: x in seen <==> x in r
    {
      assert xs[..i + 1][..i] == xs[..i];
      if xs[i] !in seen {
        r := r + [xs[i]];
        seen := seen + {xs[i]};
      }
      i := i + 1;
    }
    assert xs[..|xs|] == xs;
  }

  function Platforms(ps: seq<Prompt>): (r: seq<string>)
    ensures |r| == |ps| && forall i :: 0 <= i < |ps| ==> r[i] == ps[i].platform
  {
    seq(|ps|, i requires 0 <= i < |ps| => ps[i].platform)
  }

  function Categories(ps: seq<Prompt>): (r: seq<string>)
    ensures |r| == |ps| && forall i :: 0 <= i < |ps| ==> r[i] == ps[i].category
  {
    seq(|ps|, i requires 0 <= i < |ps| => ps[i].category)
  }

  /** A facet list: nothing until the prompts have been fetched, then the
      wildcard followed by each distinct value once, in order of first
      appearance. */
  function Facets(values: Option<seq<string>>): (r: seq<string>)
    ensures values.None? ==> r == []
    ensures values.Some? ==> |r| >= 1 && r[0] == AllFilter
    ensures values.Some? ==> Distinct(r[1..])
    ensures values.Some? ==> forall x :: x in r[1..] <==> x in values.value
    ensures values.Some? ==> FirstAppearanceOrder(values.value, r[1..])
  {
    match values
    case None => []
    case Some(vs) =>
      DedupFirstAppearance(vs);
      var r := [AllFilter] + Dedup(vs);
      assert r[1..] == Dedup(vs);
      r
  }

  /** The platform selector's options. */
  function PlatformFacets(prompts: Option<seq<Prompt>>): (r: seq<string>)
    ensures prompts.None? ==> r == []
    ensures prompts.Some? ==> |r| >= 1 && r[0] == AllFilter && Distinct(r[1..])
    ensures prompts.Some? ==>
              forall x :: x in r[1..] <==> exists p :: p in prompts.value && p.platform == x
    ensures prompts.Some? ==> FirstAppearanceOrder(Platforms(prompts.value), r[1..])
  {
    match prompts
    case None => Facets(None)
    case Some(ps) =>
      var vs := Platforms(ps);
      assert forall x :: x in vs <==> exists p :: p in ps && p.platform == x by {
        forall x ensures x in vs <==> exists p :: p in ps && p.platform == x {
          if exists p :: p in ps && p.platform == x {
            var p :| p in ps && p.platform == x;
            var k :| 0 <= k < |ps| && ps[k] == p;
            assert vs[k] == x;
          }
        }
      }
      Facets(Some(vs))
  }

  /** The category selector's options. */
  function CategoryFacets(prompts: Option<seq<Prompt>>): (r: seq<string>)
    ensures prompts.None? ==> r == []
    ensures prompts.Some? ==> |r| >= 1 && r[0] == AllFilter && Distinct(r[1..])
    ensures prompts.Some? ==>
              forall x :: x in r[1..] <==> exists p :: p in prompts.value && p.category == x
    ensures prompts.Some? ==> FirstAppearanceOrder(Categories(prompts.value), r[1..])
  {
    match prompts
    case None => Facets(None)
    case Some(ps) =>
      var vs := Categories(ps);
      assert forall x :: x in vs <==> exists p :: p in ps && p.category == x by {
        forall x ensures x in vs <==> exists p :: p in ps && p.category == x {
          if exists p :: p in ps && p.category == x {
            var p :| p in ps && p.category == x;
            var k :| 0 <= k < |ps| && ps[k] == p;
            assert vs[k] == x;
          }
        }
      }
      Facets(Some(vs))
  }
}
