/*
 * The forum-index crawler of the ForexFactory tools: which anchors of an
 * index page become thread links (at most forty per page, no repeated
 * address, one entry per title), the index-page addresses it visits, and
 * the list of (title, link) pairs it assembles from the pages, fetched in
 * batches with one session per page.
 */
module ThreadsLink {
  import opened Wrappers
  import opened Text

  const Site := "https://www.forexfactory.com"
  const ThreadPrefix := "https://www.forexfactory.com/thread/"
  const PostPrefix := "https://www.forexfactory.com/thread/post/"
  const MaxLinks := 40
  const ForumPage := "https://www.forexfactory.com/forum/71-trading-systems?sort=replycount&order=desc&page="
  const SessionPrefix := "page_session_"

  /** An `<a href=...>` element of the page: its `href` attribute and its text. */
  datatype Anchor = Anchor(href: string, text: string)

  /** The links of one page in insertion order, as (title, link): a dict whose keys are the titles. */
  type Links = seq<(string, string)>

  // ----- the links dict -----

  /** The position of `key` among the titles, at or after `i`, or -1. */
  function KeyIndex(d: Links, key: string, i: nat): (r: int)
    requires i <= |d|
    ensures r == -1 || (i <= r < |d| && d[r].0 == key)
    ensures r == -1 ==> forall k :: i <= k < |d| ==> d[k].0 != key
    decreases |d| - i
  {
    if i == |d| then -1 else if d[i].0 == key then i else KeyIndex(d, key, i + 1)
  }

  /** `d[key] = value`: an existing title keeps its place and takes the new link; a new title goes last. */
  function Put(d: Links, key: string, value: string): Links
  {
    var i := KeyIndex(d, key, 0);
    if i < 0 then d + [(key, value)] else d[i := (key, value)]
  }

  /** No title and no link occurs twice; every link is a thread address and every title is non-empty. */
  predicate WellFormed(d: Links)
  {
    (forall i, j :: 0 <= i < j < |d| ==> d[i].0 != d[j].0 && d[i].1 != d[j].1) &&
    (forall k :: 0 <= k < |d| ==> d[k].0 != "" && IsThreadLink(d[k].1))
  }

  /** Every entry of `d` is the stripped text and completed address of some anchor of `page`. */
  predicate FromPage(d: Links, page: seq<Anchor>)
  {
    forall k :: 0 <= k < |d| ==> exists a :: a in page && Yields(a, d[k])
  }

  /** The anchor's stripped text and completed address are the entry's title and link. */
  predicate Yields(a: Anchor, e: (string, string))
  {
    Strip(a.text) == e.0 && Absolute(a.href) == e.1
  }

  /** Storing a new thread link under a non-empty title keeps the dict well formed. */
  lemma PutWellFormed(d: Links, key: string, value: string)
    requires WellFormed(d) && key != "" && IsThreadLink(value) && value !in Seconds(d)
    ensures WellFormed(Put(d, key, value))
    ensures |Put(d, key, value)| <= |d| + 1
  {
    var i := KeyIndex(d, key, 0);
    var r := Put(d, key, value);
    forall k | 0 <= k < |d| ensures d[k].1 != value {
      assert Seconds(d)[k] == d[k].1;
    }
    if i >= 0 {
      forall k | 0 <= k < |r| && k != i ensures r[k] == d[k] && d[k].0 != key {
      }
    }
  }

  // ----- the filter -----

  /** A relative address is completed with the site's origin; an absolute or empty one is kept. */
  function Absolute(href: string): string
  {
    if href != "" && !At(href, 0, "http") then Site + href else href
  }

  /** An address of a thread, not of a single post in it. */
  predicate IsThreadLink(href: string)
  {
    At(href, 0, ThreadPrefix) && !At(href, 0, PostPrefix)
  }

  /**
   * One anchor of the filter loop: an anchor with text whose completed address
   * is a thread address not yet among the links is stored under its title and
   * counted; any other anchor changes nothing.
   */
  function Step(a: Anchor, d: Links, count: int): (Links, int)
  {
    var title := Strip(a.text);
    var href := Absolute(a.href);
    if title != "" && IsThreadLink(href) && href !in Seconds(d) then (Put(d, title, href), count + 1) else (d, count)
  }

  /** The filter loop from the anchor list on, given the links so far and the number accepted: it stops once forty were accepted. */
  function Accept(page: seq<Anchor>, d: Links, count: int): (Links, int)
    decreases |page|
  {
    if page == [] || count >= MaxLinks then (d, count)
    else Accept(page[1..], Step(page[0], d, count).0, Step(page[0], d, count).1)
  }

  lemma AcceptAt(page: seq<Anchor>, i: nat, d: Links, count: int)
    requires i < |page| && count < MaxLinks
    ensures Accept(page[i..], d, count) == Accept(page[i + 1..], Step(page[i], d, count).0, Step(page[i], d, count).1)
  {
    assert page[i..][1..] == page[i + 1..];
  }

  /** `extract_thread_links` on a page the crawler fetched. */
  function ThreadLinks(page: seq<Anchor>): Links
  {
    Accept(page, [], 0).0
  }

  /** One step keeps the links well formed, drawn from the page, and within the count. */
  lemma StepShape(a: Anchor, d: Links, count: int, all: seq<Anchor>)
    requires WellFormed(d) && FromPage(d, all) && 0 <= |d| <= count < MaxLinks && a in all
    ensures WellFormed(Step(a, d, count).0) && FromPage(Step(a, d, count).0, all)
    ensures |Step(a, d, count).0| <= Step(a, d, count).1 <= MaxLinks
  {
    var title := Strip(a.text);
    var href := Absolute(a.href);
    if title != "" && IsThreadLink(href) && href !in Seconds(d) {
      var d' := Put(d, title, href);
      PutWellFormed(d, title, href);
      var i := KeyIndex(d, title, 0);
      forall k | 0 <= k < |d'| ensures exists b :: b in all && Yields(b, d'[k]) {
        if k == i || k == |d| {
          assert Yields(a, d'[k]);
        } else {
          assert d'[k] == d[k];
        }
      }
    }
  }

  lemma {:induction false} AcceptShape(page: seq<Anchor>, d: Links, count: int, all: seq<Anchor>)
    requires WellFormed(d) && FromPage(d, all) && 0 <= |d| <= count <= MaxLinks
    requires forall a :: a in page ==> a in all
    ensures WellFormed(Accept(page, d, count).0) && FromPage(Accept(page, d, count).0, all)
    ensures |Accept(page, d, count).0| <= Accept(page, d, count).1 <= MaxLinks
    decreases |page|
  {
    if page != [] && count < MaxLinks {
      assert page[0] in page;
      StepShape(page[0], d, count, all);
      forall a | a in page[1..] ensures a in all {
        assert a in page;
      }
      AcceptShape(page[1..], Step(page[0], d, count).0, Step(page[0], d, count).1, all);
    }
  }

  /**
   * The links of a page: at most forty; titles are non-empty stripped anchor
   * texts and no two are equal; every link is a thread address (not a post
   * address), completed from the href of an anchor carrying that title, and no
   * link occurs twice.
   */
  lemma ThreadLinksShape(page: seq<Anchor>)
    ensures var r := ThreadLinks(page);
      |r| <= MaxLinks &&
      (forall i, j :: 0 <= i < j < |r| ==> r[i].0 != r[j].0 && r[i].1 != r[j].1) &&
      (forall k :: 0 <= k < |r| ==>
        r[k].0 != "" && At(r[k].1, 0, ThreadPrefix) && !At(r[k].1, 0, PostPrefix) &&
        exists a :: a in page && Strip(a.text) == r[k].0 && Absolute(a.href) == r[k].1)
  {
    AcceptShape(page, [], 0, page);
  }

  /** An anchor with no text, or whose address is not a thread, changes nothing. */
  lemma SkippedAnchor(a: Anchor, rest: seq<Anchor>, d: Links, count: int)
    requires Strip(a.text) == "" || !IsThreadLink(Absolute(a.href))
    ensures Accept([a] + rest, d, count) == Accept(rest, d, count) || count >= MaxLinks
  {
    assert ([a] + rest)[1..] == rest;
  }

  /**
   * Two anchors with the same title and different thread addresses leave one
   * entry, holding the second address, while both count towards the forty.
   */
  lemma RepeatedTitle(t: string, h1: string, h2: string)
    requires Strip(t) != "" && IsThreadLink(h1) && IsThreadLink(h2) && h1 != h2
    ensures Accept([Anchor(h1, t), Anchor(h2, t)], [], 0) == ([(Strip(t), h2)], 2)
  {
    var page := [Anchor(h1, t), Anchor(h2, t)];
    var title := Strip(t);
    assert At(h1, 0, "http") by { AtPrefix(h1, 0, ThreadPrefix, 4); }
    assert At(h2, 0, "http") by { AtPrefix(h2, 0, ThreadPrefix, 4); }
    assert Absolute(h1) == h1 && Absolute(h2) == h2;
    var d1 := [(title, h1)];
    assert Put([], title, h1) == d1;
    assert Step(page[0], [], 0) == (d1, 1);
    assert Seconds(d1) == [h1];
    assert KeyIndex(d1, title, 0) == 0;
    assert Put(d1, title, h2) == [(title, h2)];
    assert Step(page[1], d1, 1) == ([(title, h2)], 2);
    assert page[1..] == [page[1]] && page[1..][1..] == [];
    assert Accept(page[1..][1..], [(title, h2)], 2) == ([(title, h2)], 2);
    assert Accept(page[1..], d1, 1) == ([(title, h2)], 2);
    assert Accept(page, [], 0) == Accept(page[1..], d1, 1);
  }

  /** The body of the filter loop for one anchor. */
  method VisitAnchor(link: Anchor, threadLinks: Links, linkCount: int) returns (links: Links, count: int)
    ensures (links, count) == Step(link, threadLinks, linkCount)
  {
    links, count := threadLinks, linkCount;
    var href := link.href;
    var title := Strip(link.text);
    if title == "" {
      return;
    }
    if href != "" && !At(href, 0, "http") {
      href := Site + href;
    }
    if IsThreadLink(href) && href !in Seconds(links) {
      links := Put(links, title, href);
      count := count + 1;
    }
  }

  /** `extract_thread_links`: an empty dict when the fetch failed, else the filter loop over the anchors. */
  method ExtractThreadLinks(page: Option<seq<Anchor>>) returns (threadLinks: Links)
    ensures threadLinks == ThreadLinksOf(page)
  {
    threadLinks := [];
    if page.None? {
      return;
    }
    var allLinks := page.value;
    var linkCount := 0;
    var i := 0;
    while i < |allLinks|
      invariant 0 <= i <= |allLinks|
      invariant Accept(allLinks[i..], threadLinks, linkCount) == Accept(allLinks, [], 0)
    {
      if linkCount >= MaxLinks {
        break;
      }
      AcceptAt(allLinks, i, threadLinks, linkCount);
      threadLinks, linkCount := VisitAnchor(allLinks[i], threadLinks, linkCount);
      i := i + 1;
    }
  }

  // ----- the index pages -----

  /** The address of page `page` of the trading-systems forum, most replies first. */
  function ForumUrl(page: int): string
  {
    ForumPage + IntStr(page)
  }

  /** The session under which the `n`-th address of the run is fetched. */
  function SessionId(n: nat): string
  {
    SessionPrefix + NatStr(n)
  }

  /** `[f(lo), f(lo + 1), ..., f(hi)]`. */
  function MapRange(f: int -> string, lo: int, hi: int): seq<string>
    decreases hi - lo
  {
    if hi < lo then [] else MapRange(f, lo, hi - 1) + [f(hi)]
  }

  lemma {:induction false} MapRangeIndex(f: int -> string, lo: int, hi: int)
    ensures |MapRange(f, lo, hi)| == if hi >= lo then hi - lo + 1 else 0
    ensures forall k :: 0 <= k < |MapRange(f, lo, hi)| ==> MapRange(f, lo, hi)[k] == f(lo + k)
    decreases hi - lo
  {
    if hi >= lo {
      var prev := MapRange(f, lo, hi - 1);
      var r := MapRange(f, lo, hi);
      MapRangeIndex(f, lo, hi - 1);
      forall k | 0 <= k < |r| ensures r[k] == f(lo + k) {
        if k < |prev| {
          assert r[k] == prev[k];
        }
      }
    }
  }

  /** The index pages from `startPage` to `endPage`, both included. */
  function PageUrls(startPage: int, endPage: int): seq<string>
  {
    MapRange(ForumUrl, startPage, endPage)
  }

  /** One address per page of the range, in page order. */
  lemma PageUrlsIndex(startPage: int, endPage: int)
    ensures |PageUrls(startPage, endPage)| == if endPage >= startPage then endPage - startPage + 1 else 0
    ensures forall k :: 0 <= k < |PageUrls(startPage, endPage)| ==> PageUrls(startPage, endPage)[k] == ForumUrl(startPage + k)
  {
    MapRangeIndex(ForumUrl, startPage, endPage);
  }

  /** An injective `f` gives a repetition-free range. */
  lemma MapRangeDistinct(f: int -> string, lo: int, hi: int)
    requires forall a, b :: lo <= a < b <= hi ==> f(a) != f(b)
    ensures Distinct(MapRange(f, lo, hi))
  {
    var r := MapRange(f, lo, hi);
    MapRangeIndex(f, lo, hi);
    forall i, j | 0 <= i < j < |r| ensures r[i] != r[j] {
      assert f(lo + i) != f(lo + j);
    }
  }

  /** No two pages of the range share an address. */
  lemma PageUrlsDistinct(startPage: int, endPage: int)
    ensures Distinct(PageUrls(startPage, endPage))
  {
    forall a, b | startPage <= a < b <= endPage ensures ForumUrl(a) != ForumUrl(b) {
      ForumUrlsDistinct(a, b);
    }
    MapRangeDistinct(ForumUrl, startPage, endPage);
  }

  predicate Distinct(s: seq<string>)
  {
    forall i, j :: 0 <= i < j < |s| ==> s[i] != s[j]
  }

  lemma ForumUrlsDistinct(p: int, q: int)
    requires p != q
    ensures ForumUrl(p) != ForumUrl(q)
  {
    IntStrInjective(p, q);
    PrefixKeepsDistinct(ForumPage, IntStr(p), IntStr(q));
  }

  /** No two fetches of a run share a session. */
  lemma SessionIdsDistinct(m: nat, n: nat)
    requires m != n
    ensures SessionId(m) != SessionId(n)
  {
    if NatStr(m) == NatStr(n) {
      NatStrInjective(m, n);
    }
    PrefixKeepsDistinct(SessionPrefix, NatStr(m), NatStr(n));
  }

  /** `get_threads_link`'s URL loop. */
  method BuildUrls(startPage: int, endPage: int) returns (urls: seq<string>)
    ensures urls == PageUrls(startPage, endPage)
  {
    urls := [];
    var page := startPage;
    while page < endPage + 1
      invariant startPage <= page && (page == startPage || page <= endPage + 1)
      invariant urls == PageUrls(startPage, page - 1)
    {
      urls := urls + [ForumUrl(page)];
      page := page + 1;
    }
  }

  // ----- the run -----

  /** The pairs gathered from the first `n` addresses, the `k`-th fetched under session `k`. */
  function Gathered(urls: seq<string>, crawl: (string, string) -> Option<seq<Anchor>>, n: nat): Links
    requires n <= |urls|
  {
    if n == 0 then []
    else
      Gathered(urls, crawl, n - 1) + ThreadLinksOf(crawl(urls[n - 1], SessionId(n - 1)))
  }

  /**
   * `get_threads_link` before the JSON rendering: the pairs of every page in
   * page order, or nothing at all when the batch size is zero (the batch loop
   * raises), or an empty list when it is negative (the batch loop runs no batch).
   */
  function ThreadsLinkRun(startPage: int, endPage: int, maxConcurrent: int, crawl: (string, string) -> Option<seq<Anchor>>): Option<Links>
  {
    if maxConcurrent == 0 then None
    else if maxConcurrent < 0 then Some([])
    else var urls := PageUrls(startPage, endPage); Some(Gathered(urls, crawl, |urls|))
  }

  /** The `k`-th page of the run, fetched under session `k`, yields `e`. */
  predicate PageYields(urls: seq<string>, crawl: (string, string) -> Option<seq<Anchor>>, k: nat, e: (string, string))
    requires k < |urls|
  {
    e in ThreadLinksOf(crawl(urls[k], SessionId(k)))
  }

  /** A pair is gathered exactly when some page of the range, fetched under its own session, yields it. */
  lemma {:induction false} GatheredMembers(urls: seq<string>, crawl: (string, string) -> Option<seq<Anchor>>, n: nat, e: (string, string))
    requires n <= |urls|
    ensures e in Gathered(urls, crawl, n) <==> exists k :: 0 <= k < n && PageYields(urls, crawl, k, e)
  {
    if n > 0 {
      GatheredMembers(urls, crawl, n - 1, e);
      var prev, last := Gathered(urls, crawl, n - 1), ThreadLinksOf(crawl(urls[n - 1], SessionId(n - 1)));
      assert Gathered(urls, crawl, n) == prev + last;
      if e in prev + last {
        if e in last {
          assert PageYields(urls, crawl, n - 1, e);
        } else {
          var k :| 0 <= k < n - 1 && PageYields(urls, crawl, k, e);
          assert 0 <= k < n;
        }
      }
      if exists k :: 0 <= k < n && PageYields(urls, crawl, k, e) {
        var k :| 0 <= k < n && PageYields(urls, crawl, k, e);
        if k < n - 1 {
          assert e in prev;
        } else {
          assert e in last;
        }
      }
    }
  }

  /** A page adds at most forty pairs. */
  lemma {:induction false} GatheredLength(urls: seq<string>, crawl: (string, string) -> Option<seq<Anchor>>, n: nat)
    requires n <= |urls|
    ensures |Gathered(urls, crawl, n)| <= MaxLinks * n
  {
    if n > 0 {
      GatheredLength(urls, crawl, n - 1);
      var page := crawl(urls[n - 1], SessionId(n - 1));
      if page.Some? {
        ThreadLinksShape(page.value);
      }
      assert |ThreadLinksOf(page)| <= MaxLinks;
    }
  }

  /** Every gathered pair is a thread address under a non-empty title. */
  lemma GatheredThreadLinks(urls: seq<string>, crawl: (string, string) -> Option<seq<Anchor>>, n: nat, e: (string, string))
    requires n <= |urls| && e in Gathered(urls, crawl, n)
    ensures e.0 != "" && IsThreadLink(e.1)
  {
    GatheredMembers(urls, crawl, n, e);
    var k :| 0 <= k < n && PageYields(urls, crawl, k, e);
    var page := crawl(urls[k], SessionId(k));
    ThreadLinksShape(page.value);
    var links := ThreadLinks(page.value);
    var j :| 0 <= j < |links| && links[j] == e;
  }

  /**
   * The run fails exactly when the batch size is zero; it yields nothing when
   * the batch size is negative or the range is empty; otherwise it holds at
   * most forty pairs per page, each a thread address under a non-empty title.
   */
  lemma ThreadsLinkRunShape(startPage: int, endPage: int, maxConcurrent: int, crawl: (string, string) -> Option<seq<Anchor>>)
    ensures ThreadsLinkRun(startPage, endPage, maxConcurrent, crawl).None? <==> maxConcurrent == 0
    ensures maxConcurrent != 0 && (maxConcurrent < 0 || endPage < startPage) ==>
      ThreadsLinkRun(startPage, endPage, maxConcurrent, crawl) == Some([])
    ensures ThreadsLinkRun(startPage, endPage, maxConcurrent, crawl).Some? ==>
      var r := ThreadsLinkRun(startPage, endPage, maxConcurrent, crawl).value;
      |r| <= MaxLinks * (if endPage >= startPage then endPage - startPage + 1 else 0) &&
      forall e :: e in r ==> e.0 != "" && IsThreadLink(e.1)
  {
    var urls := PageUrls(startPage, endPage);
    PageUrlsIndex(startPage, endPage);
    if maxConcurrent > 0 {
      GatheredLength(urls, crawl, |urls|);
      forall e | e in Gathered(urls, crawl, |urls|) ensures e.0 != "" && IsThreadLink(e.1) {
        GatheredThreadLinks(urls, crawl, |urls|, e);
      }
    }
  }

  /** `get_threads_link`: the URL list, then batch after batch of at most `maxConcurrent` pages, each page under session `i + j`. */
  method GetThreadsLink(startPage: int, endPage: int, maxConcurrent: int, crawl: (string, string) -> Option<seq<Anchor>>)
    returns (allThreads: Option<Links>)
    ensures allThreads == ThreadsLinkRun(startPage, endPage, maxConcurrent, crawl)
  {
    var urls := BuildUrls(startPage, endPage);
    if maxConcurrent == 0 {
      // `range` with a zero step raises out of the run
      return None;
    }
    var threads: Links := [];
    if maxConcurrent > 0 {
      threads := RunBatches(urls, maxConcurrent, crawl);
    }
    return Some(threads);
  }

  /** The batch loop: batch after batch of at most `maxConcurrent` addresses, the `n`-th address of the run under session `n`. */
  method RunBatches(urls: seq<string>, maxConcurrent: nat, crawl: (string, string) -> Option<seq<Anchor>>) returns (threads: Links)
    requires maxConcurrent > 0
    ensures threads == Gathered(urls, crawl, |urls|)
  {
    ghost var pages := PageResults(urls, crawl);
    threads := [];
    var i := 0;
    while i < |urls|
      invariant 0 <= i
      invariant threads == Flat(pages[..if i <= |urls| then i else |urls|])
      decreases |urls| - i
    {
      var batchEnd := if i + maxConcurrent <= |urls| then i + maxConcurrent else |urls|;
      threads := RunBatch(urls, i, batchEnd, crawl, threads);
      i := i + maxConcurrent;
    }
    GatheredFlat(urls, crawl, |urls|);
  }

  /** One batch of the run: addresses `lo .. hi - 1` fetched and their links appended in order. */
  method RunBatch(urls: seq<string>, lo: nat, hi: nat, crawl: (string, string) -> Option<seq<Anchor>>, threads: Links) returns (merged: Links)
    requires lo <= hi <= |urls| && threads == Flat(PageResults(urls, crawl)[..lo])
    ensures merged == Flat(PageResults(urls, crawl)[..hi])
  {
    var batch := urls[lo..hi];
    var results := FetchBatch(batch, lo, crawl);
    BatchResults(urls, crawl, lo, hi, batch, results);
    merged := MergeBatch(results, threads);
    FlatSplit(PageResults(urls, crawl), lo, hi);
  }

  /** What each address of the run yields, fetched under its own session. */
  function PageResults(urls: seq<string>, crawl: (string, string) -> Option<seq<Anchor>>): (r: seq<Links>)
    ensures |r| == |urls|
  {
    seq(|urls|, k requires 0 <= k < |urls| => ThreadLinksOf(crawl(urls[k], SessionId(k))))
  }

  /** A batch fetched from offset `lo`, the `j`-th page under session `lo + j`, yields what those addresses of the run yield. */
  lemma BatchResults(urls: seq<string>, crawl: (string, string) -> Option<seq<Anchor>>, lo: nat, hi: nat, batch: seq<string>, results: seq<Links>)
    requires lo <= hi <= |urls| && batch == urls[lo..hi] && |results| == |batch|
    requires forall j :: 0 <= j < |batch| ==> results[j] == ThreadLinksOf(crawl(batch[j], SessionId(lo + j)))
    ensures results == PageResults(urls, crawl)[lo..hi]
  {
    var pages := PageResults(urls, crawl);
    forall j | 0 <= j < hi - lo ensures results[j] == pages[lo + j] {
      assert batch[j] == urls[lo + j];
    }
  }

  /** The gathered pairs are what the first `n` addresses yield, in order. */
  lemma {:induction false} GatheredFlat(urls: seq<string>, crawl: (string, string) -> Option<seq<Anchor>>, n: nat)
    requires n <= |urls|
    ensures Gathered(urls, crawl, n) == Flat(PageResults(urls, crawl)[..n])
  {
    if n > 0 {
      GatheredFlat(urls, crawl, n - 1);
      var pages := PageResults(urls, crawl);
      assert pages[..n][..n - 1] == pages[..n - 1];
    }
  }

  /** Flattening a prefix in two parts. */
  lemma {:induction false} FlatSplit(parts: seq<Links>, i: nat, e: nat)
    requires i <= e <= |parts|
    ensures Flat(parts[..e]) == Flat(parts[..i]) + Flat(parts[i..e])
    decreases e - i
  {
    if e > i {
      FlatSplit(parts, i, e - 1);
      assert parts[..e][..e - 1] == parts[..e - 1];
      assert parts[i..e][..e - 1 - i] == parts[i..e - 1];
    } else {
      assert parts[i..e] == [];
    }
  }

  /** One batch of the run: the page at position `j` of the batch is fetched under session `offset + j`. */
  method FetchBatch(batch: seq<string>, offset: nat, crawl: (string, string) -> Option<seq<Anchor>>) returns (results: seq<Links>)
    ensures |results| == |batch|
    ensures forall j :: 0 <= j < |batch| ==> results[j] == ThreadLinksOf(crawl(batch[j], SessionId(offset + j)))
  {
    ghost var fetched := seq(|batch|, k requires 0 <= k < |batch| => ThreadLinksOf(crawl(batch[k], SessionId(offset + k))));
    results := [];
    for j := 0 to |batch|
      invariant results == fetched[..j]
    {
      var threadLinks := ExtractThreadLinks(crawl(batch[j], SessionId(offset + j)));
      assert fetched[..j + 1] == fetched[..j] + [threadLinks];
      results := results + [threadLinks];
    }
    assert results == fetched;
  }

  /** The result loop of one batch: each page's pairs, when it has any, are appended in batch order. */
  method MergeBatch(results: seq<Links>, threads: Links) returns (merged: Links)
    ensures merged == threads + Flat(results)
  {
    merged := threads;
    for j := 0 to |results|
      invariant merged == threads + Flat(results[..j])
    {
      assert results[..j + 1][..j] == results[..j];
      if results[j] != [] {
        merged := merged + results[j];
      } else {
        assert merged + results[j] == merged;
      }
    }
    assert results[..|results|] == results;
  }

  /** The pairs of several pages, in order. */
  function Flat(parts: seq<Links>): (r: Links)
    ensures parts == [] ==> r == []
  {
    if parts == [] then [] else Flat(parts[..|parts| - 1]) + parts[|parts| - 1]
  }

  /** What a fetch contributes: nothing when it failed, else the page's links. */
  function ThreadLinksOf(page: Option<seq<Anchor>>): Links
  {
    if page.None? then [] else ThreadLinks(page.value)
  }
}
