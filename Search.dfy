/** Web search and article collection: the href de-duplication shared by
    `search_ddgs` and `step2_search_ddgs`, the sequential `scrape_urls`, and the
    concurrent `step3_scrape_urls`. The search engine and the page fetch (HTTP
    request plus paragraph extraction) are oracles. */
module Search {
  import opened Common
  import opened PyText

  /** One search hit; `href` may be missing, a missing title or body reads as "". */
  datatype SearchResult = SearchResult(href: Option<string>, title: string, body: string)

  /** A collected article: the hit's title and body, its URL and the page text. */
  datatype Article = Article(title: string, body: string, href: string, article: string)

  /** The search engine: (query, max_results) to its hits, None when the call raises. */
  type SearchEngine = (string, int) -> Option<seq<SearchResult>>

  /** A page fetch: URL to the extracted paragraph text, None when the request
      raises or the status is not 200. */
  type Fetcher = string -> Option<string>

  /** Python truthiness of `result.get("href")`. */
  predicate HasHref(r: SearchResult)
  {
    r.href.Some? && r.href.value != ""
  }

  /** `rs[j]` carries a truthy href that no earlier hit carries. */
  predicate IsFirstOfHref(rs: seq<SearchResult>, j: nat)
    requires j < |rs|
  {
    HasHref(rs[j]) && forall i :: 0 <= i < j ==> rs[i].href != rs[j].href
  }

  /** The positions below `n` that hold the first hit of their href, increasing. */
  function FirstIndices(rs: seq<SearchResult>, n: nat): (ix: seq<nat>)
    requires n <= |rs|
    ensures forall k :: 0 <= k < |ix| ==> ix[k] < n && IsFirstOfHref(rs, ix[k])
    ensures forall k, l :: 0 <= k < l < |ix| ==> ix[k] < ix[l]
    ensures forall j :: 0 <= j < n && IsFirstOfHref(rs, j) ==> j in ix
  {
    if n == 0 then [] else FirstIndices(rs, n - 1) + (if IsFirstOfHref(rs, n - 1) then [n - 1] else [])
  }

  function Pick(rs: seq<SearchResult>, ix: seq<nat>): (r: seq<SearchResult>)
    requires forall k :: 0 <= k < |ix| ==> ix[k] < |rs|
    ensures |r| == |ix| && forall k :: 0 <= k < |ix| ==> r[k] == rs[ix[k]]
  {
    seq(|ix|, k requires 0 <= k < |ix| => rs[ix[k]])
  }

  /** The hits that are the first of their href, in the engine's order. */
  function Deduplicated(rs: seq<SearchResult>): (r: seq<SearchResult>)
  {
    Pick(rs, FirstIndices(rs, |rs|))
  }

  /** The truthy hrefs among the first `n` hits. */
  function SeenHrefs(rs: seq<SearchResult>, n: nat): set<string>
    requires n <= |rs|
  {
    set j | 0 <= j < n && HasHref(rs[j]) :: rs[j].href.value
  }

  lemma SeenHrefsStep(rs: seq<SearchResult>, i: nat)
    requires i < |rs|
    ensures SeenHrefs(rs, i + 1) == SeenHrefs(rs, i) + (if HasHref(rs[i]) then {rs[i].href.value} else {})
  {
  }

  /** Membership in the seen set decides first occurrence. */
  lemma SeenDecidesFirst(rs: seq<SearchResult>, i: nat)
    requires i < |rs| && HasHref(rs[i])
    ensures IsFirstOfHref(rs, i) <==> rs[i].href.value !in SeenHrefs(rs, i)
  {
    if rs[i].href.value in SeenHrefs(rs, i) {
      var j :| 0 <= j < i && HasHref(rs[j]) && rs[j].href.value == rs[i].href.value;
      assert rs[j].href == rs[i].href;
    }
  }

  /** The de-duplication loop of `search_ddgs` and `step2_search_ddgs`: a `seen`
      set and the kept hits grow together. */
  method Dedup(results: seq<SearchResult>) returns (deduped: seq<SearchResult>)
    ensures deduped == Deduplicated(results)
  {
    var seen: set<string> := {};
    deduped := [];
    var i := 0;
    while i < |results|
      invariant i <= |results|
      invariant seen == SeenHrefs(results, i)
      invariant deduped == Pick(results, FirstIndices(results, i))
    {
      var r := results[i];
      SeenHrefsStep(results, i);
      if r.href.Some? && r.href.value != "" {
        SeenDecidesFirst(results, i);
      }
      if r.href.Some? && r.href.value != "" && r.href.value !in seen {
        seen := seen + {r.href.value};
        deduped := deduped + [r];
      }
      i := i + 1;
    }
  }

  /** No two kept hits share an href, every kept hit has a truthy href, and each
      kept hit is the first of its href in the engine's order. */
  lemma DedupDistinct(rs: seq<SearchResult>)
    ensures forall k :: 0 <= k < |Deduplicated(rs)| ==> HasHref(Deduplicated(rs)[k])
    ensures forall k, l :: 0 <= k < l < |Deduplicated(rs)| ==> Deduplicated(rs)[k].href != Deduplicated(rs)[l].href
  {
    var ix := FirstIndices(rs, |rs|);
    var d := Deduplicated(rs);
    forall k, l | 0 <= k < l < |d| ensures d[k].href != d[l].href {
      assert IsFirstOfHref(rs, ix[l]) && ix[k] < ix[l];
    }
  }

  /** Every truthy href of the engine's hits survives de-duplication. */
  lemma {:induction false} DedupCovers(rs: seq<SearchResult>, j: nat)
    requires j < |rs| && HasHref(rs[j])
    ensures exists k :: 0 <= k < |Deduplicated(rs)| && Deduplicated(rs)[k].href == rs[j].href
    decreases j
  {
    var ix := FirstIndices(rs, |rs|);
    var d := Deduplicated(rs);
    if IsFirstOfHref(rs, j) {
      var k :| 0 <= k < |ix| && ix[k] == j;
      assert d[k] == rs[j];
    } else {
      var i :| 0 <= i < j && rs[i].href == rs[j].href;
      DedupCovers(rs, i);
    }
  }

  /** Kept hits appear in the engine's order: they form a subsequence of it. */
  lemma {:induction false} DedupIsSubsequence(rs: seq<SearchResult>, n: nat)
    requires n <= |rs|
    ensures IsSubsequence(Pick(rs, FirstIndices(rs, n)), rs[..n])
    decreases n
  {
    if n > 0 {
      var ix := FirstIndices(rs, n - 1);
      var p := Pick(rs, ix);
      DedupIsSubsequence(rs, n - 1);
      assert rs[..n] == rs[..n - 1] + [rs[n - 1]];
      if IsFirstOfHref(rs, n - 1) {
        assert Pick(rs, ix + [n - 1]) == p + [rs[n - 1]];
        SubsequenceExtendBoth(p, rs[..n - 1], rs[n - 1]);
      } else {
        assert FirstIndices(rs, n) == ix;
        SubsequenceExtendRight(p, rs[..n - 1], rs[n - 1]);
      }
    }
  }

  /** `search_ddgs` (sync copies): ask for twice `num_urls` hits, keep the first
      hit of each truthy href, return at most `num_urls` of them. None: the
      engine raised. */
  method SearchDdgs(engine: SearchEngine, query: string, numUrls: int) returns (r: Option<seq<SearchResult>>)
    ensures engine(query, numUrls * 2).None? ==> r.None?
    ensures engine(query, numUrls * 2).Some? ==>
              r == Some(PyPrefix(Deduplicated(engine(query, numUrls * 2).value), numUrls))
  {
    var hits := engine(query, numUrls * 2);
    if hits.None? {
      return None;
    }
    var deduped := Dedup(hits.value);
    r := Some(PyPrefix(deduped, numUrls));
  }

  /** `step2_search_ddgs`: the same de-duplication without the final truncation. */
  method Step2SearchDdgs(engine: SearchEngine, query: string, numUrls: int) returns (r: Option<seq<SearchResult>>)
    ensures engine(query, numUrls * 2).None? ==> r.None?
    ensures engine(query, numUrls * 2).Some? ==> r == Some(Deduplicated(engine(query, numUrls * 2).value))
  {
    var hits := engine(query, numUrls * 2);
    if hits.None? {
      return None;
    }
    var deduped := Dedup(hits.value);
    r := Some(deduped);
  }

  /** What `search_ddgs` returns: at most `num_urls` hits with pairwise distinct
      truthy hrefs, each the first of its href, in the engine's order. */
  lemma SearchDdgsResult(hits: seq<SearchResult>, numUrls: int)
    ensures var r := PyPrefix(Deduplicated(hits), numUrls);
            && (numUrls >= 0 ==> |r| <= numUrls)
            && (forall k :: 0 <= k < |r| ==> HasHref(r[k]))
            && (forall k, l :: 0 <= k < l < |r| ==> r[k].href != r[l].href)
            && IsSubsequence(r, hits)
  {
    var d := Deduplicated(hits);
    var r := PyPrefix(d, numUrls);
    DedupDistinct(hits);
    assert forall k :: 0 <= k < |r| ==> r[k] == d[k];
    DedupIsSubsequence(hits, |hits|);
    assert hits[..|hits|] == hits;
    SubsequencePrefix(d, hits, |r|);
  }

  /** The length guard on extracted page text. */
  predicate TextInRange(text: string)
  {
    200 <= |text| <= 100000
  }

  /** One URL of `scrape_urls`: nothing for a falsy href, a failed fetch or a
      text outside the length guard; otherwise the article. */
  function Visit(fetch: Fetcher, r: SearchResult): (a: Option<Article>)
    ensures a.Some? <==> HasHref(r) && fetch(r.href.value).Some? && TextInRange(fetch(r.href.value).value)
    ensures a.Some? ==> a.value == Article(r.title, r.body, r.href.value, fetch(r.href.value).value)
  {
    if !HasHref(r) then None
    else match fetch(r.href.value)
      case None => None
      case Some(text) => if TextInRange(text) then Some(Article(r.title, r.body, r.href.value, text)) else None
  }

  function VisitWith(fetch: Fetcher): SearchResult -> Option<Article>
  {
    r => Visit(fetch, r)
  }

  /** `scrape_urls`: visit the first `num_urls` hits in order; a failure on one
      URL only skips that URL. */
  method ScrapeUrls(results: seq<SearchResult>, numUrls: int, fetch: Fetcher) returns (contents: seq<Article>)
    ensures contents == FilterMap(VisitWith(fetch), PyPrefix(results, numUrls))
  {
    var candidates := PyPrefix(results, numUrls);
    contents := [];
    var i := 0;
    while i < |candidates|
      invariant i <= |candidates|
      invariant contents == FilterMap(VisitWith(fetch), candidates[..i])
    {
      var result := candidates[i];
      FilterMapAppend(VisitWith(fetch), candidates[..i], [result]);
      assert candidates[..i + 1] == candidates[..i] + [result];
      i := i + 1;
      if result.href.None? || result.href.value == "" {
        continue;
      }
      var url := result.href.value;
      var text := fetch(url);
      if text.None? {
        continue;
      }
      if 200 <= |text.value| <= 100000 {
        contents := contents + [Article(result.title, result.body, url, text.value)];
      }
    }
    assert candidates[..i] == candidates;
  }

  /** What `scrape_urls` returns: no more articles than visited hits (at most
      `num_urls`), each with text inside the length guard, in the order of the
      hits they came from, each carrying that hit's href. */
  lemma ScrapeUrlsResult(results: seq<SearchResult>, numUrls: int, fetch: Fetcher)
    ensures var c := FilterMap(VisitWith(fetch), PyPrefix(results, numUrls));
            var ix := KeptIndices(VisitWith(fetch), PyPrefix(results, numUrls), 0);
            && |c| <= |results| && (numUrls >= 0 ==> |c| <= numUrls)
            && (forall k :: 0 <= k < |c| ==> TextInRange(c[k].article))
            && (forall k :: 0 <= k < |c| ==> ix[k] < |results| && results[ix[k]].href == Some(c[k].href))
            && (forall k, l :: 0 <= k < l < |c| ==> ix[k] < ix[l])
  {
    var p := PyPrefix(results, numUrls);
    var c := FilterMap(VisitWith(fetch), p);
    var ix := KeptIndices(VisitWith(fetch), p, 0);
    KeptIndicesFacts(VisitWith(fetch), p, 0);
    assert p[0..] == p;
    forall k | 0 <= k < |c| ensures TextInRange(c[k].article) && ix[k] < |results| && results[ix[k]].href == Some(c[k].href) {
      assert Visit(fetch, p[ix[k]]) == Some(c[k]);
      assert p[ix[k]] == results[ix[k]];
    }
  }

  predicate IsWebUrl(url: string)
  {
    StartsWith(url, "http://") || StartsWith(url, "https://")
  }

  /** `fetch_parse` of `step3_scrape_urls`: like Visit, but only http(s) URLs are fetched. */
  function FetchParse(fetch: Fetcher, r: SearchResult): (a: Option<Article>)
    ensures a.Some? <==> HasHref(r) && IsWebUrl(r.href.value) && fetch(r.href.value).Some?
                         && TextInRange(fetch(r.href.value).value)
    ensures a.Some? ==> a.value == Article(r.title, r.body, r.href.value, fetch(r.href.value).value)
  {
    if !HasHref(r) || !IsWebUrl(r.href.value) then None
    else match fetch(r.href.value)
      case None => None
      case Some(text) => if TextInRange(text) then Some(Article(r.title, r.body, r.href.value, text)) else None
  }

  function FetchParseWith(fetch: Fetcher): SearchResult -> Option<Article>
  {
    r => FetchParse(fetch, r)
  }

  /** The number of articles after which the collection loop stops: it tests
      `len(contents) >= num_urls` only after an append, so at least one. */
  function Quota(numUrls: int): (q: nat)
    ensures q >= 1 && (numUrls >= 1 ==> q == numUrls)
  {
    if numUrls >= 1 then numUrls else 1
  }

  /** The articles `step3_scrape_urls` keeps when the fetches complete in the
      order `arrivals`: the accepted ones, up to the quota. */
  function Step3Collected(fetch: Fetcher, arrivals: seq<SearchResult>, numUrls: int): (c: seq<Article>)
    ensures var accepted := FilterMap(FetchParseWith(fetch), arrivals);
            && |c| <= Quota(numUrls) && |c| <= |accepted| && c == accepted[..|c|]
            && (|c| < Quota(numUrls) ==> c == accepted)
  {
    var accepted := FilterMap(FetchParseWith(fetch), arrivals);
    if |accepted| <= Quota(numUrls) then accepted else accepted[..Quota(numUrls)]
  }

  /** `step3_scrape_urls`: every hit is fetched concurrently and the results are
      consumed in completion order, given here as `arrivals`, a rearrangement of
      the hits; collection stops once the quota is met. */
  method Step3ScrapeUrls(results: seq<SearchResult>, numUrls: int, fetch: Fetcher, arrivals: seq<SearchResult>)
    returns (contents: seq<Article>)
    requires multiset(arrivals) == multiset(results)
    ensures contents == Step3Collected(fetch, arrivals, numUrls)
  {
    var f := FetchParseWith(fetch);
    contents := [];
    var k := 0;
    while k < |arrivals|
      invariant k <= |arrivals|
      invariant contents == FilterMap(f, arrivals[..k])
      invariant |contents| < Quota(numUrls)
    {
      var item := FetchParse(fetch, arrivals[k]);
      FilterMapSnoc(f, arrivals, k);
      k := k + 1;
      if item.Some? {
        contents := contents + [item.value];
        if |contents| >= numUrls {
          FilterMapPrefix(f, arrivals, k);
          assert |contents| == Quota(numUrls);
          return;
        }
      }
    }
    assert arrivals[..k] == arrivals;
  }

  /** Which articles `step3_scrape_urls` can collect does not depend on the
      completion order: they are always drawn from the accepted hits, and when
      the quota is not met they are exactly the accepted hits. */
  lemma Step3OrderIndependent(results: seq<SearchResult>, numUrls: int, fetch: Fetcher, arrivals: seq<SearchResult>)
    requires multiset(arrivals) == multiset(results)
    ensures var contents := Step3Collected(fetch, arrivals, numUrls);
            && multiset(contents) <= multiset(FilterMap(FetchParseWith(fetch), results))
            && (|contents| < Quota(numUrls) ==> multiset(contents) == multiset(FilterMap(FetchParseWith(fetch), results)))
  {
    var contents := Step3Collected(fetch, arrivals, numUrls);
    var accepted := FilterMap(FetchParseWith(fetch), arrivals);
    FilterMapMultiset(FetchParseWith(fetch), arrivals, results);
    PrefixIsSubsequence(accepted, |contents|);
    SubsequenceMultiset(contents, accepted);
  }

  /** Every collected article came from an http(s) hit and has text inside the
      length guard. */
  lemma Step3Articles(fetch: Fetcher, arrivals: seq<SearchResult>, numUrls: int)
    ensures var contents := Step3Collected(fetch, arrivals, numUrls);
            forall k :: 0 <= k < |contents| ==> TextInRange(contents[k].article) && IsWebUrl(contents[k].href)
  {
    var contents := Step3Collected(fetch, arrivals, numUrls);
    var f := FetchParseWith(fetch);
    var accepted := FilterMap(f, arrivals);
    var ix := KeptIndices(f, arrivals, 0);
    KeptIndicesFacts(f, arrivals, 0);
    assert arrivals[0..] == arrivals;
    forall k | 0 <= k < |contents| ensures TextInRange(contents[k].article) && IsWebUrl(contents[k].href) {
      assert FetchParse(fetch, arrivals[ix[k]]) == Some(accepted[k]);
    }
  }
}
