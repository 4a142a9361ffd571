/*
 * The thread-detail crawler of the Forex Factory scraper: the title taken
 * from a thread URL, the page count read from the first page, the reformatted
 * posts, the plan of pages fetched batch by batch, the stop at the first page
 * that repeats the previous one, and the assembled document.
 */
module ThreadsDetail {
  import opened Wrappers
  import opened Text

  // ----- extract_title_from_url -----

  /** `s.rstrip(c)` for a single character. */
  function RStrip(s: string, c: char): (r: string)
    ensures r <= s
    ensures r == [] || r[|r| - 1] != c
    ensures forall k :: |r| <= k < |s| ==> s[k] == c
  {
    if s != [] && s[|s| - 1] == c then RStrip(s[..|s| - 1], c) else s
  }

  /** `s.split('/')[-1]`: what follows the last '/', or the whole string. */
  function LastPart(s: string): (r: string)
    ensures |r| <= |s| && s[|s| - |r|..] == r
    ensures forall k :: 0 <= k < |r| ==> r[k] != '/'
    ensures |r| < |s| ==> s[|s| - |r| - 1] == '/'
  {
    if s == [] || s[|s| - 1] == '/' then [] else LastPart(s[..|s| - 1]) + [s[|s| - 1]]
  }

  /** The end of the run of characters other than a newline that starts at `q`. */
  function LineEnd(s: string, q: nat): (r: nat)
    requires q <= |s|
    ensures q <= r <= |s|
    ensures forall k :: q <= k < r ==> s[k] != '\n'
    ensures r < |s| ==> s[r] == '\n'
    decreases |s| - q
  {
    if q < |s| && s[q] != '\n' then LineEnd(s, q + 1) else q
  }

  /**
   * The group of `\d+-(.+)$` when the match starts at `p`: a run of digits,
   * a hyphen, then a non-empty run of characters other than a newline that
   * reaches the end of the string or a newline that ends it.
   */
  function GroupAt(s: string, p: nat): (g: Option<string>)
    requires p <= |s|
  {
    var d := DigitRun(s, p);
    if d == 0 || p + d >= |s| || s[p + d] != '-' then None
    else
      var q := p + d + 1;
      var r := LineEnd(s, q);
      if r > q && (r == |s| || (r == |s| - 1 && s[r] == '\n')) then Some(s[q .. r]) else None
  }

  /** `re.search(r'\d+-(.+)$', s)` from `p` on: the group of the leftmost match. */
  function SearchGroup(s: string, p: nat): (g: Option<string>)
    requires p <= |s|
    ensures g.Some? ==> exists k :: p <= k <= |s| && GroupAt(s, k) == g
    ensures g.None? ==> forall k :: p <= k <= |s| ==> GroupAt(s, k).None?
    decreases |s| - p
  {
    if GroupAt(s, p).Some? then GroupAt(s, p)
    else if p == |s| then None
    else SearchGroup(s, p + 1)
  }

  predicate IsUpper(c: char) { 'A' <= c <= 'Z' }
  predicate IsLower(c: char) { 'a' <= c <= 'z' }
  predicate IsCased(c: char) { IsUpper(c) || IsLower(c) }

  function ToUpper(c: char): (u: char)
    ensures IsCased(u) == IsCased(c) && !IsLower(u)
    ensures !IsCased(c) ==> u == c
  {
    if IsLower(c) then (c as int - 32) as char else c
  }

  function ToLower(c: char): (l: char)
    ensures IsCased(l) == IsCased(c) && !IsUpper(l)
    ensures !IsCased(c) ==> l == c
  {
    if IsUpper(c) then (c as int + 32) as char else c
  }

  /** `str.title()`, walking the string as CPython does: a cased character after a cased one is lowered, any other is raised. */
  function TitleFrom(s: string, previousIsCased: bool): (r: string)
    ensures |r| == |s|
  {
    if s == [] then []
    else [if previousIsCased then ToLower(s[0]) else ToUpper(s[0])] + TitleFrom(s[1..], IsCased(s[0]))
  }

  function Title(s: string): string
  {
    TitleFrom(s, false)
  }

  /** Character by character, the title case of a word start is upper case and of the rest of a word lower case. */
  lemma {:induction false} TitleFromAt(s: string, previousIsCased: bool, k: nat)
    requires k < |s|
    ensures TitleFrom(s, previousIsCased)[k] ==
      if (if k == 0 then previousIsCased else IsCased(s[k - 1])) then ToLower(s[k]) else ToUpper(s[k])
    decreases k
  {
    if k > 0 {
      TitleFromAt(s[1..], IsCased(s[0]), k - 1);
      assert s[1..][k - 1] == s[k];
      if k > 1 {
        assert s[1..][k - 2] == s[k - 1];
      }
    }
  }

  /** Title-casing twice is title-casing once. */
  lemma TitleIdempotent(s: string)
    ensures Title(Title(s)) == Title(s)
  {
    var t := Title(s);
    forall k | 0 <= k < |s| ensures Title(t)[k] == t[k] {
      TitleFromAt(s, false, k);
      TitleFromAt(t, false, k);
      if k > 0 {
        TitleFromAt(s, false, k - 1);
      }
    }
  }

  /** `s.replace('-', ' ')`. */
  function Dehyphen(s: string): (r: string)
    ensures |r| == |s|
    ensures forall k :: 0 <= k < |s| ==> r[k] == if s[k] == '-' then ' ' else s[k]
  {
    seq(|s|, k requires 0 <= k < |s| => if s[k] == '-' then ' ' else s[k])
  }

  /** `extract_title_from_url`. */
  function ExtractTitle(threadUrl: string): string
  {
    var lastPart := LastPart(RStrip(threadUrl, '/'));
    match SearchGroup(lastPart, 0)
    case Some(group) => Title(Dehyphen(group))
    case None => lastPart
  }

  /**
   * The title is the last path segment, title-cased with its hyphens turned
   * into spaces when the segment holds `<digits>-<rest>`: then it has no
   * hyphen left; otherwise it is the segment unchanged.
   */
  lemma ExtractTitleCases(threadUrl: string)
    ensures var lastPart := LastPart(RStrip(threadUrl, '/'));
      var group := SearchGroup(lastPart, 0);
      var title := ExtractTitle(threadUrl);
      (group.None? ==> title == lastPart) &&
      (group.Some? ==> |title| == |group.value| && forall k :: 0 <= k < |title| ==> title[k] != '-')
  {
    var lastPart := LastPart(RStrip(threadUrl, '/'));
    if SearchGroup(lastPart, 0).Some? {
      TitleKeepsHyphenFree(Dehyphen(SearchGroup(lastPart, 0).value));
    }
  }

  /** Title-casing a string without a hyphen gives none. */
  lemma TitleKeepsHyphenFree(s: string)
    requires forall k :: 0 <= k < |s| ==> s[k] != '-'
    ensures forall k :: 0 <= k < |Title(s)| ==> Title(s)[k] != '-'
  {
    forall k | 0 <= k < |s| ensures Title(s)[k] != '-' {
      TitleFromAt(s, false, k);
    }
  }

  // ----- extract_max_page -----

  /** The number written by a string of ASCII digits. */
  function DecimalValue(ds: string): nat
    requires forall k :: 0 <= k < |ds| ==> IsDigit(ds[k])
  {
    if ds == [] then 0 else 10 * DecimalValue(ds[..|ds| - 1]) + DigitValue(ds[|ds| - 1])
  }

  function DigitValue(c: char): (v: nat)
    requires IsDigit(c)
    ensures v < 10
  {
    assert '0' as int <= c as int <= '9' as int;
    c as int - '0' as int
  }

  /** Reading back the decimal rendering of a number gives the number. */
  lemma {:induction false} DecimalValueOfNatStr(n: nat)
    ensures DecimalValue(NatStr(n)) == n
  {
    var s := NatStr(n);
    if n >= 10 {
      assert s[..|s| - 1] == NatStr(n / 10);
      DecimalValueOfNatStr(n / 10);
      DigitValueOfChar(n % 10);
    } else {
      DigitValueOfChar(n);
    }
  }

  lemma DigitValueOfChar(d: int)
    requires 0 <= d < 10
    ensures DigitValue(DigitChar(d)) == d
  {
  }

  /**
   * The page number of `\?page=(\d+)[^"]*"Last Page"` when the match starts at
   * `p`: the digits after `?page=`, provided the first '"' after them opens
   * `"Last Page"`.
   */
  function PageLinkAt(s: string, p: nat): (n: Option<nat>)
  {
    if !At(s, p, "?page=") then None else PageNumberAt(s, p + 6)
  }

  /** The `(\d+)[^"]*"Last Page"` part of the pattern, matched at `i`. */
  function PageNumberAt(s: string, i: nat): (n: Option<nat>)
  {
    if i > |s| then None
    else
      var d := DigitRun(s, i);
      var quote := Find(s, "\"", i + d);
      if d >= 1 && quote != -1 && At(s, quote, "\"Last Page\"") then Some(DecimalValue(s[i .. i + d])) else None
  }

  /** The leftmost match from `p` on. */
  function SearchPageLink(s: string, p: nat): (n: Option<nat>)
    decreases |s| - p
  {
    if p > |s| then None
    else if PageLinkAt(s, p).Some? then PageLinkAt(s, p)
    else SearchPageLink(s, p + 1)
  }

  /** `extract_max_page`: the number of the "Last Page" link, or 1. */
  function ExtractMaxPage(content: string): nat
  {
    match SearchPageLink(content, 0)
    case Some(n) => n
    case None => 1
  }

  /** Without a `"Last Page"` link the thread has one page. */
  lemma MaxPageDefault(content: string)
    requires forall k :: 0 <= k < |content| ==> !At(content, k, "\"Last Page\"")
    ensures ExtractMaxPage(content) == 1
  {
    forall k | 0 <= k <= |content| ensures PageLinkAt(content, k).None? {
    }
    SearchPageLinkSkips(content, 0, |content| + 1);
  }

  lemma {:induction false} SearchPageLinkSkips(s: string, lo: nat, hi: nat)
    requires lo <= hi <= |s| + 1
    requires forall k :: lo <= k < hi ==> PageLinkAt(s, k).None?
    ensures SearchPageLink(s, lo) == SearchPageLink(s, hi)
    decreases hi - lo
  {
    if lo < hi {
      SearchPageLinkSkips(s, lo + 1, hi);
    }
  }

  lemma {:induction false} DigitRunIs(s: string, i: nat, m: nat)
    requires i + m <= |s|
    requires forall k :: i <= k < i + m ==> IsDigit(s[k])
    requires i + m == |s| || !IsDigit(s[i + m])
    ensures DigitRun(s, i) == m
    decreases m
  {
    if m > 0 {
      DigitRunIs(s, i + 1, m - 1);
    }
  }

  /** The link at `p` when its digits, the text before the next '"', and `"Last Page"` are known. */
  lemma PageLinkIs(s: string, p: nat, m: nat, q: nat)
    requires At(s, p, "?page=") && m >= 1 && p + 6 + m <= q && At(s, q, "\"Last Page\"")
    requires forall k :: p + 6 <= k < p + 6 + m ==> IsDigit(s[k])
    requires !IsDigit(s[p + 6 + m])
    requires forall k :: p + 6 + m <= k < q ==> s[k] != '"'
    ensures PageLinkAt(s, p) == Some(DecimalValue(s[p + 6 .. p + 6 + m]))
  {
    PageNumberIs(s, p + 6, m, q);
  }

  /** The digits at `i`, when the first '"' after them opens `"Last Page"`. */
  lemma PageNumberIs(s: string, i: nat, m: nat, q: nat)
    requires m >= 1 && i + m <= q && At(s, q, "\"Last Page\"")
    requires forall k :: i <= k < i + m ==> IsDigit(s[k])
    requires !IsDigit(s[i + m])
    requires forall k :: i + m <= k < q ==> s[k] != '"'
    ensures PageNumberAt(s, i) == Some(DecimalValue(s[i .. i + m]))
  {
    DigitRunIs(s, i, m);
    AtPrefix(s, q, "\"Last Page\"", 1);
    assert "\"Last Page\""[..1] == "\"";
    NoQuoteBefore(s, i + m, q);
    FindIs(s, "\"", i + m, q);
  }

  lemma NoQuoteBefore(s: string, lo: nat, q: nat)
    requires lo <= q <= |s|
    requires forall k :: lo <= k < q ==> s[k] != '"'
    ensures forall k :: lo <= k < q ==> !At(s, k, "\"")
  {
    forall k | lo <= k < q ensures !At(s, k, "\"") {
      assert s[k .. k + 1][0] == s[k];
    }
  }

  /** `Find` reports the first occurrence. */
  lemma FindIs(s: string, sub: string, lo: nat, q: nat)
    requires lo <= q && At(s, q, sub)
    requires forall k :: lo <= k < q ==> !At(s, k, sub)
    ensures Find(s, sub, lo) == q
  {
  }

  /** The leftmost link decides the page count. */
  lemma MaxPageAt(s: string, p: nat, m: nat, q: nat)
    requires At(s, p, "?page=") && m >= 1 && p + 6 + m <= q && At(s, q, "\"Last Page\"")
    requires forall k :: 0 <= k < p ==> s[k] != '?'
    requires forall k :: p + 6 <= k < p + 6 + m ==> IsDigit(s[k])
    requires !IsDigit(s[p + 6 + m])
    requires forall k :: p + 6 + m <= k < q ==> s[k] != '"'
    ensures ExtractMaxPage(s) == DecimalValue(s[p + 6 .. p + 6 + m])
  {
    forall k | 0 <= k < p ensures PageLinkAt(s, k).None? {
      assert s[k .. k + 6][0] == s[k];
    }
    SearchPageLinkSkips(s, 0, p);
    PageLinkIs(s, p, m, q);
  }

  /**
   * A page whose first `?page=` link is followed by the number `n` and then,
   * before any '"', by `"Last Page"` has `n` pages.
   */
  lemma MaxPageRoundTrip(pre: string, n: nat, mid: string, post: string)
    requires forall k :: 0 <= k < |pre| ==> pre[k] != '?'
    requires forall k :: 0 <= k < |mid| ==> mid[k] != '"'
    requires mid == [] || !IsDigit(mid[0])
    ensures ExtractMaxPage(pre + "?page=" + NatStr(n) + mid + "\"Last Page\"" + post) == n
  {
    var digits := NatStr(n);
    var a := pre + "?page=";
    var b := a + digits;
    var c := b + mid;
    var d := c + "\"Last Page\"";
    var s := d + post;
    var p, m := |pre|, |digits|;
    var q := |c|;
    assert s[..|d|] == d && d[..|c|] == c && c[..|b|] == b && b[..|a|] == a;
    assert forall k :: 0 <= k < p ==> s[k] == pre[k];
    assert s[p .. p + 6] == a[p..] == "?page=";
    assert s[p + 6 .. p + 6 + m] == b[|a|..] == digits;
    assert s[p + 6 + m] == if mid != [] then mid[0] else '"';
    assert s[q .. q + 11] == d[|c|..] == "\"Last Page\"";
    assert forall k :: p + 6 + m <= k < q ==> s[k] == mid[k - (p + 6 + m)];
    MaxPageAt(s, p, m, q);
    DecimalValueOfNatStr(n);
  }

  // ----- ForexPostFilter -----

  /** The fields found in one post: number, time, author and cleaned content. */
  datatype PostInfo = PostInfo(number: string, time: string, author: string, content: string)

  /** `_extract_pattern`, given the group of the first match of the pattern, if any. */
  function ExtractPattern(group: Option<string>): (r: string)
    ensures group.None? ==> r == "Unknown"
    ensures group.Some? ==> |r| <= |group.value| && (r == [] || (!IsSpace(r[0]) && !IsSpace(r[|r| - 1])))
  {
    match group
    case Some(g) => Strip(g)
    case None => "Unknown"
  }

  /** `_format_post`. */
  function FormatPost(info: PostInfo): string
  {
    "Post #" + info.number + "\nAuthor: " + info.author + "\nTime: " + info.time + "\n\n" + info.content + "\n"
  }

  /** The first line of `r` and what follows its newline, if it has one. */
  function SplitLine(r: string): Option<(string, string)>
  {
    var e := LineEnd(r, 0);
    if e == |r| then None else Some((r[..e], r[e + 1..]))
  }

  /** Reads the fields back out of a formatted post, line by line: the inverse of `FormatPost`. */
  function ParsePost(s: string): Option<PostInfo>
  {
    if !(|s| >= 6 && s[..6] == "Post #") then None
    else match SplitLine(s[6..])
      case None => None
      case Some((number, rest)) => ParseAuthor(number, rest)
  }

  /** The author line and what follows it. */
  function ParseAuthor(number: string, r: string): Option<PostInfo>
  {
    if !(|r| >= 8 && r[..8] == "Author: ") then None
    else match SplitLine(r[8..])
      case None => None
      case Some((author, rest)) => ParseTime(number, author, rest)
  }

  /** The time line and what follows it. */
  function ParseTime(number: string, author: string, r: string): Option<PostInfo>
  {
    if !(|r| >= 6 && r[..6] == "Time: ") then None
    else match SplitLine(r[6..])
      case None => None
      case Some((time, rest)) => ParseContent(number, author, time, rest)
  }

  /** The content, between a blank line and the final newline. */
  function ParseContent(number: string, author: string, time: string, r: string): Option<PostInfo>
  {
    if !(|r| >= 2 && r[0] == '\n' && r[|r| - 1] == '\n') then None
    else Some(PostInfo(number, time, author, r[1 .. |r| - 1]))
  }

  predicate OneLine(s: string)
  {
    forall k :: 0 <= k < |s| ==> s[k] != '\n'
  }

  /** The first newline at or after `lo` is at `e`. */
  lemma {:induction false} LineEndIs(s: string, lo: nat, e: nat)
    requires lo <= e < |s| && s[e] == '\n'
    requires forall k :: lo <= k < e ==> s[k] != '\n'
    ensures LineEnd(s, lo) == e
    decreases e - lo
  {
    if lo < e {
      LineEndIs(s, lo + 1, e);
    }
  }

  /** A single line followed by a newline splits off at that newline. */
  lemma LineSplit(x: string, rest: string)
    requires OneLine(x)
    ensures SplitLine(x + "\n" + rest) == Some((x, rest))
  {
    var s := x + "\n" + rest;
    LineEndIs(s, 0, |x|);
    assert s[..|x|] == x && s[|x| + 1..] == rest;
  }

  /** A post whose number, author and time are single lines is read back from its formatted text. */
  lemma FormatPostRoundTrip(info: PostInfo)
    requires OneLine(info.number) && OneLine(info.author) && OneLine(info.time)
    ensures ParsePost(FormatPost(info)) == Some(info)
  {
    var body := "\n" + info.content + "\n";
    var timeText := "Time: " + (info.time + "\n" + body);
    var authorText := "Author: " + (info.author + "\n" + timeText);
    FormatPostRegrouped(info);
    PostStage(info.number, authorText);
    AuthorStage(info.number, info.author, timeText);
    TimeStage(info.number, info.author, info.time, body);
    ContentStage(info);
  }

  lemma FormatPostRegrouped(info: PostInfo)
    ensures FormatPost(info) ==
      "Post #" + (info.number + "\n" + ("Author: " + (info.author + "\n" + ("Time: " + (info.time + "\n" + ("\n" + info.content + "\n"))))))
  {
  }

  lemma PostStage(number: string, rest: string)
    requires OneLine(number)
    ensures ParsePost("Post #" + (number + "\n" + rest)) == ParseAuthor(number, rest)
  {
    var r := "Post #" + (number + "\n" + rest);
    LineSplit(number, rest);
    assert r[6..] == number + "\n" + rest;
  }

  lemma ContentStage(info: PostInfo)
    ensures ParseContent(info.number, info.author, info.time, "\n" + info.content + "\n") == Some(info)
  {
    var body := "\n" + info.content + "\n";
    assert body[1 .. |body| - 1] == info.content;
  }

  lemma TimeStage(number: string, author: string, time: string, body: string)
    requires OneLine(time)
    ensures ParseTime(number, author, "Time: " + (time + "\n" + body)) == ParseContent(number, author, time, body)
  {
    var r := "Time: " + (time + "\n" + body);
    LineSplit(time, body);
    assert r[6..] == time + "\n" + body;
  }

  lemma AuthorStage(number: string, author: string, rest: string)
    requires OneLine(author)
    ensures ParseAuthor(number, "Author: " + (author + "\n" + rest)) == ParseTime(number, author, rest)
  {
    var r := "Author: " + (author + "\n" + rest);
    LineSplit(author, rest);
    assert r[8..] == author + "\n" + rest;
  }

  /** The formatted posts with content, in order. */
  function Cleaned(posts: seq<PostInfo>): seq<string>
  {
    if posts == [] then []
    else Cleaned(posts[..|posts| - 1]) + (if posts[|posts| - 1].content != "" then [FormatPost(posts[|posts| - 1])] else [])
  }

  /** `filter_content`, given the fields of the posts the post pattern finds in `html`. */
  function FilterContent(html: string, posts: seq<PostInfo>): seq<string>
  {
    var cleaned := Cleaned(posts);
    if cleaned != [] then cleaned else [html]
  }

  /** `filter_content`, with the loop of the source. */
  method FilterPosts(html: string, posts: seq<PostInfo>) returns (result: seq<string>)
    ensures result == FilterContent(html, posts)
  {
    var cleanedPosts := [];
    for i := 0 to |posts|
      invariant cleanedPosts == Cleaned(posts[..i])
    {
      assert posts[..i + 1][..i] == posts[..i];
      if posts[i].content != "" {
        cleanedPosts := cleanedPosts + [FormatPost(posts[i])];
      }
    }
    assert posts[..|posts|] == posts;
    result := if cleanedPosts != [] then cleanedPosts else [html];
  }

  /**
   * The filter keeps one formatted entry per post with content, each a post
   * of the input with content, and falls back to the whole page exactly when
   * no post has content.
   */
  lemma {:induction false} CleanedPosts(posts: seq<PostInfo>)
    ensures var r := Cleaned(posts);
      |r| <= |posts| &&
      (r == [] <==> forall i :: 0 <= i < |posts| ==> posts[i].content == "") &&
      forall j :: 0 <= j < |r| ==> exists i :: 0 <= i < |posts| && posts[i].content != "" && r[j] == FormatPost(posts[i])
    decreases |posts|
  {
    if posts != [] {
      var init := posts[..|posts| - 1];
      CleanedPosts(init);
      var r := Cleaned(posts);
      forall j | 0 <= j < |r|
        ensures exists i :: 0 <= i < |posts| && posts[i].content != "" && r[j] == FormatPost(posts[i])
      {
        if j < |Cleaned(init)| {
          var i :| 0 <= i < |init| && init[i].content != "" && Cleaned(init)[j] == FormatPost(init[i]);
          assert posts[i] == init[i];
        } else {
          assert posts[|posts| - 1].content != "";
        }
      }
      if forall i :: 0 <= i < |posts| ==> posts[i].content == "" {
        assert forall i :: 0 <= i < |init| ==> init[i] == posts[i];
      } else {
        var i :| 0 <= i < |posts| && posts[i].content != "";
        if i < |init| {
          assert init[i] == posts[i];
        }
      }
    }
  }

  lemma FilterContentFallback(html: string, posts: seq<PostInfo>)
    ensures FilterContent(html, posts) != []
    ensures FilterContent(html, posts) == [html] <== forall i :: 0 <= i < |posts| ==> posts[i].content == ""
    ensures (exists i :: 0 <= i < |posts| && posts[i].content != "") ==> FilterContent(html, posts) == Cleaned(posts)
  {
    CleanedPosts(posts);
  }

  // ----- URLs -----

  /** `url.split('?')[0]`: the URL up to its first '?'. */
  function BaseUrl(url: string): (b: string)
    ensures b <= url
    ensures forall k :: 0 <= k < |b| ==> b[k] != '?'
    ensures |b| < |url| ==> url[|b|] == '?'
  {
    if url == [] || url[0] == '?' then [] else [url[0]] + BaseUrl(url[1..])
  }

  /** The address of page `page` of the thread. */
  function PageUrl(baseUrl: string, page: int): string
  {
    baseUrl + "?page=" + IntStr(page)
  }

  /** Distinct pages have distinct addresses, so a page's content can be keyed by its number. */
  lemma PageUrlsDistinct(baseUrl: string, p: int, q: int)
    requires p != q
    ensures PageUrl(baseUrl, p) != PageUrl(baseUrl, q)
  {
    IntStrInjective(p, q);
    if PageUrl(baseUrl, p) == PageUrl(baseUrl, q) {
      PrefixCancels(baseUrl + "?page=", IntStr(p), IntStr(q));
      assert false;
    }
  }

  // ----- the page plan -----

  /** The page numbers `lo`, `lo + 1`, ..., `hi - 1`: `range(lo, hi)`. */
  function Interval(lo: int, hi: int): (r: seq<int>)
    ensures |r| == if lo < hi then hi - lo else 0
    ensures forall k :: 0 <= k < |r| ==> r[k] == lo + k
  {
    if lo < hi then seq(hi - lo, k requires 0 <= k < hi - lo => lo + k) else []
  }

  /** The batches of at most `maxConcurrent` pages taken from `range(lo, hi, maxConcurrent)`. */
  function Batches(lo: int, hi: int, maxConcurrent: nat): seq<seq<int>>
    requires maxConcurrent >= 1
    decreases hi - lo
  {
    if lo >= hi then []
    else [Interval(lo, if lo + maxConcurrent < hi then lo + maxConcurrent else hi)] + Batches(lo + maxConcurrent, hi, maxConcurrent)
  }

  function Flatten(batches: seq<seq<int>>): seq<int>
  {
    if batches == [] then [] else batches[0] + Flatten(batches[1..])
  }

  /** The batches are non-empty, hold at most `maxConcurrent` pages each, and together are the pages from `lo` to `hi - 1` in order. */
  lemma {:induction false} BatchesCover(lo: int, hi: int, maxConcurrent: nat)
    requires maxConcurrent >= 1
    ensures var b := Batches(lo, hi, maxConcurrent);
      Flatten(b) == Interval(lo, hi) && forall k :: 0 <= k < |b| ==> 1 <= |b[k]| <= maxConcurrent
    decreases hi - lo
  {
    if lo < hi {
      var b := Batches(lo, hi, maxConcurrent);
      var mid := if lo + maxConcurrent < hi then lo + maxConcurrent else hi;
      BatchesCover(lo + maxConcurrent, hi, maxConcurrent);
      assert b[1..] == Batches(lo + maxConcurrent, hi, maxConcurrent);
      assert Interval(lo + maxConcurrent, hi) == Interval(mid, hi);
      assert Interval(lo, mid) + Interval(mid, hi) == Interval(lo, hi);
      forall k | 1 <= k < |b| ensures 1 <= |b[k]| <= maxConcurrent {
        assert b[k] == b[1..][k - 1];
      }
    }
  }

  /** `min(max_pages, max_page + 1 - start_page)`: how many pages from the start page on are fetched. */
  function Budget(maxPages: int, maxPage: int, startPage: int): int
  {
    var remaining := maxPage + 1 - startPage;
    if maxPages <= remaining then maxPages else remaining
  }

  /**
   * The pages fetched after the start page, or None when `range` is given a
   * zero step and raises, which the crawler's outer handler swallows.
   */
  function LaterPages(maxPages: int, maxPage: int, startPage: int, maxConcurrent: int): Option<seq<int>>
  {
    var budget := Budget(maxPages, maxPage, startPage);
    if budget <= 1 then Some([])
    else if maxConcurrent == 0 then None
    else if maxConcurrent < 0 then Some([])
    else Some(Interval(startPage + 1, startPage + budget))
  }

  /** The later pages are fewer than `maxPages`, follow the start page, and do not pass the last page. */
  lemma LaterPagesBounds(maxPages: int, maxPage: int, startPage: int, maxConcurrent: int)
    requires LaterPages(maxPages, maxPage, startPage, maxConcurrent).Some?
    ensures var pages := LaterPages(maxPages, maxPage, startPage, maxConcurrent).value;
      |pages| < (if maxPages >= 1 then maxPages else 1) &&
      forall k :: 0 <= k < |pages| ==> startPage < pages[k] <= maxPage && pages[k] == startPage + 1 + k
  {
  }

  // ----- the crawl -----

  /** What the crawler returns for the start page: its raw markdown and its cleaned content. */
  datatype Page = Page(raw: string, cleaned: string)

  /**
   * The (page, content) entries kept from `pages`, in order: a page that
   * fails is skipped, and the crawl stops at the first page whose content
   * equals the last content kept.
   */
  function Kept(pages: seq<int>, fetch: int -> Option<string>, last: string): seq<(int, string)>
    decreases |pages|
  {
    if pages == [] then []
    else match fetch(pages[0])
      case None => Kept(pages[1..], fetch, last)
      case Some(c) => if c == last then [] else [(pages[0], c)] + Kept(pages[1..], fetch, c)
  }

  /** Every kept page is one of the pages, fetched with the content kept, and no kept content repeats the one before it. */
  lemma {:induction false} KeptShape(pages: seq<int>, fetch: int -> Option<string>, last: string)
    ensures var r := Kept(pages, fetch, last);
      |r| <= |pages| &&
      (forall k :: 0 <= k < |r| ==> r[k].0 in pages && fetch(r[k].0) == Some(r[k].1)) &&
      (|r| > 0 ==> r[0].1 != last) &&
      (forall k :: 0 < k < |r| ==> r[k].1 != r[k - 1].1)
    decreases |pages|
  {
    if pages != [] {
      KeptShape(pages[1..], fetch, last);
      match fetch(pages[0])
      case None =>
      case Some(c) =>
        if c != last {
          var rest := Kept(pages[1..], fetch, c);
          KeptShape(pages[1..], fetch, c);
          var r := [(pages[0], c)] + rest;
          forall k | 0 < k < |r| ensures r[k].1 != r[k - 1].1 && r[k].0 in pages {
            assert r[k] == rest[k - 1];
          }
        }
    }
  }

  /** Pages crawled in increasing order are kept in increasing order, so sorting the kept pages by number keeps their order. */
  lemma {:induction false} KeptAscending(pages: seq<int>, fetch: int -> Option<string>, last: string)
    requires forall i, j :: 0 <= i < j < |pages| ==> pages[i] < pages[j]
    ensures var r := Kept(pages, fetch, last);
      (forall i, j :: 0 <= i < j < |r| ==> r[i].0 < r[j].0) && (pages != [] ==> forall k :: 0 <= k < |r| ==> pages[0] <= r[k].0)
    decreases |pages|
  {
    if pages != [] {
      var tail := pages[1..];
      KeptAscending(tail, fetch, last);
      KeptShape(tail, fetch, last);
      match fetch(pages[0])
      case None =>
        forall k | 0 <= k < |Kept(tail, fetch, last)| ensures pages[0] <= Kept(tail, fetch, last)[k].0 {
          TailAbove(pages, Kept(tail, fetch, last)[k].0);
        }
      case Some(c) =>
        if c != last {
          var rest := Kept(tail, fetch, c);
          KeptAscending(tail, fetch, c);
          KeptShape(tail, fetch, c);
          forall k | 0 <= k < |rest| ensures pages[0] < rest[k].0 {
            TailAbove(pages, rest[k].0);
          }
          var r := [(pages[0], c)] + rest;
          forall i, j | 0 <= i < j < |r| ensures r[i].0 < r[j].0 {
            assert r[j] == rest[j - 1];
            if i > 0 {
              assert r[i] == rest[i - 1];
            }
          }
        }
    }
  }

  /** In an increasing sequence, everything after the first element is above it. */
  lemma TailAbove(pages: seq<int>, x: int)
    requires forall i, j :: 0 <= i < j < |pages| ==> pages[i] < pages[j]
    requires pages != [] && x in pages[1..]
    ensures pages[0] < x
  {
    var i :| 0 <= i < |pages| - 1 && pages[1..][i] == x;
    assert pages[i + 1] == x;
  }

  /** A kept page's number is one of the pages. */
  lemma KeptInPages(pages: seq<int>, fetch: int -> Option<string>, last: string, k: nat)
    requires k < |Kept(pages, fetch, last)|
    ensures exists i :: 0 <= i < |pages| && pages[i] == Kept(pages, fetch, last)[k].0
  {
    KeptShape(pages, fetch, last);
  }

  lemma KeptStep(p: int, endPage: int, fetch: int -> Option<string>, last: string)
    requires p < endPage
    ensures Kept(Interval(p, endPage), fetch, last) ==
      match fetch(p)
      case None => Kept(Interval(p + 1, endPage), fetch, last)
      case Some(c) => if c == last then [] else [(p, c)] + Kept(Interval(p + 1, endPage), fetch, c)
  {
    assert Interval(p, endPage)[1..] == Interval(p + 1, endPage);
  }

  // ----- assembly -----

  /** The document: the title heading, then the contents of the kept pages separated by rules; empty when nothing was kept. */
  function Combine(title: string, items: seq<(int, string)>): string
  {
    if items == [] then "" else "# " + title + "\n\n" + Join("\n\n---\n\n", Seconds(items))
  }

  /**
   * The pages kept, as (page, content) in the order they were stored: the
   * start page, then the later pages up to the first repeat. Nothing when the
   * start page fails or the page loop raises.
   */
  function Items(startPage: int, maxPages: int, maxConcurrent: int, first: Option<Page>, fetch: int -> Option<string>): seq<(int, string)>
  {
    match first
    case None => []
    case Some(page) =>
      match LaterPages(maxPages, ExtractMaxPage(page.raw), startPage, maxConcurrent)
      case None => []
      case Some(pages) => [(startPage, page.cleaned)] + Kept(pages, fetch, page.cleaned)
  }

  /** `get_threads_detail`, given what the crawler returns for the start page and for every later page. */
  function Detail(threadUrl: string, startPage: int, maxPages: int, maxConcurrent: int, first: Option<Page>, fetch: int -> Option<string>): string
  {
    Combine(ExtractTitle(threadUrl), Items(startPage, maxPages, maxConcurrent, first, fetch))
  }

  /**
   * The kept pages begin with the start page, go up in page order (so the
   * source's sort by page number leaves them as stored), never pass the last
   * page, hold what the crawler returned for them, and never repeat the
   * content of the page kept before them.
   */
  lemma ItemsShape(startPage: int, maxPages: int, maxConcurrent: int, first: Option<Page>, fetch: int -> Option<string>)
    ensures var items := Items(startPage, maxPages, maxConcurrent, first, fetch);
      (items == [] <==> first.None? || LaterPages(maxPages, ExtractMaxPage(first.value.raw), startPage, maxConcurrent).None?) &&
      (items != [] ==>
        items[0] == (startPage, first.value.cleaned) &&
        (forall i, j :: 0 <= i < j < |items| ==> items[i].0 < items[j].0) &&
        (forall k :: 0 < k < |items| ==>
          items[k].0 <= ExtractMaxPage(first.value.raw) && fetch(items[k].0) == Some(items[k].1) && items[k].1 != items[k - 1].1))
  {
    var items := Items(startPage, maxPages, maxConcurrent, first, fetch);
    if items != [] {
      var page := first.value;
      var maxPage := ExtractMaxPage(page.raw);
      var pages := LaterPages(maxPages, maxPage, startPage, maxConcurrent).value;
      LaterPagesBounds(maxPages, maxPage, startPage, maxConcurrent);
      var rest := Kept(pages, fetch, page.cleaned);
      KeptShape(pages, fetch, page.cleaned);
      KeptAscending(pages, fetch, page.cleaned);
      forall k | 0 <= k < |rest| ensures startPage < rest[k].0 <= maxPage {
        KeptInPages(pages, fetch, page.cleaned, k);
      }
      forall i, j | 0 <= i < j < |items| ensures items[i].0 < items[j].0 {
        assert items[j] == rest[j - 1];
        if i > 0 {
          assert items[i] == rest[i - 1];
        }
      }
      forall k | 0 < k < |items|
        ensures items[k].0 <= maxPage && fetch(items[k].0) == Some(items[k].1) && items[k].1 != items[k - 1].1
      {
        assert items[k] == rest[k - 1];
        if k > 1 {
          assert items[k - 1] == rest[k - 2];
        }
      }
    }
  }

  /** The document is empty exactly when no page was kept, and otherwise opens with the title heading. */
  lemma DetailHeading(threadUrl: string, startPage: int, maxPages: int, maxConcurrent: int, first: Option<Page>, fetch: int -> Option<string>)
    ensures var items := Items(startPage, maxPages, maxConcurrent, first, fetch);
      var doc := Detail(threadUrl, startPage, maxPages, maxConcurrent, first, fetch);
      var heading := "# " + ExtractTitle(threadUrl) + "\n\n";
      (doc == "" <==> items == []) && (items != [] ==> doc[..|heading|] == heading)
  {
  }

  /** The pages kept once the start page was fetched, by the cases of the page plan. */
  lemma ItemsOfPage(startPage: int, maxPages: int, maxConcurrent: int, page: Page, fetch: int -> Option<string>)
    ensures var budget := Budget(maxPages, ExtractMaxPage(page.raw), startPage);
      Items(startPage, maxPages, maxConcurrent, Some(page), fetch) ==
        if budget <= 1 || maxConcurrent < 0 then [(startPage, page.cleaned)]
        else if maxConcurrent == 0 then []
        else [(startPage, page.cleaned)] + Kept(Interval(startPage + 1, startPage + budget), fetch, page.cleaned)
  {
    var budget := Budget(maxPages, ExtractMaxPage(page.raw), startPage);
    if budget <= 1 || maxConcurrent < 0 {
      assert Kept([], fetch, page.cleaned) == [];
    }
  }

  /** `get_threads_detail`, with the batch loop and the page loop of the source. */
  method GetThreadsDetail(threadUrl: string, startPage: int, maxPages: int, maxConcurrent: int, first: Option<Page>, fetch: int -> Option<string>)
    returns (combinedContent: string)
    ensures combinedContent == Detail(threadUrl, startPage, maxPages, maxConcurrent, first, fetch)
  {
    var threadTitle := ExtractTitle(threadUrl);
    combinedContent := "";
    var allResults := CrawlPages(startPage, maxPages, maxConcurrent, first, fetch);
    if allResults != [] {
      combinedContent := "# " + threadTitle + "\n\n" + Join("\n\n---\n\n", Seconds(allResults));
    }
  }

  /**
   * The crawl of `get_threads_detail`: the start page, then the later pages
   * batch by batch; nothing when the start page fails or the page loop raises.
   */
  method CrawlPages(startPage: int, maxPages: int, maxConcurrent: int, first: Option<Page>, fetch: int -> Option<string>)
    returns (allResults: seq<(int, string)>)
    ensures allResults == Items(startPage, maxPages, maxConcurrent, first, fetch)
  {
    allResults := [];
    if first.Some? {
      ItemsOfPage(startPage, maxPages, maxConcurrent, first.value, fetch);
      var actualMaxPages := ExtractMaxPage(first.value.raw);
      var remainingPages := actualMaxPages + 1 - startPage;
      var budget := if maxPages <= remainingPages then maxPages else remainingPages;
      assert budget == Budget(maxPages, actualMaxPages, startPage);
      var content := first.value.cleaned;
      allResults := [(startPage, content)];
      if budget > 1 {
        var endPage := startPage + budget;
        if maxConcurrent == 0 {
          // `range` with a zero step raises; the outer handler keeps nothing
          return [];
        }
        if maxConcurrent > 0 {
          ghost var batches;
          allResults, batches := CrawlBatches(startPage, endPage, maxConcurrent, content, fetch);
        }
      }
    }
  }

  /** The batch loop: the later pages batch by batch, each batch page by page, until a page repeats the last one kept. */
  method CrawlBatches(startPage: int, endPage: int, maxConcurrent: int, content: string, fetch: int -> Option<string>)
    returns (allResults: seq<(int, string)>, ghost visited: seq<seq<int>>)
    requires maxConcurrent > 0
    ensures allResults == [(startPage, content)] + Kept(Interval(startPage + 1, endPage), fetch, content)
    ensures visited <= Batches(startPage + 1, endPage, maxConcurrent)
  {
    ghost var total := [(startPage, content)] + Kept(Interval(startPage + 1, endPage), fetch, content);
    ghost var plan := Batches(startPage + 1, endPage, maxConcurrent);
    allResults := [(startPage, content)];
    visited := [];
    var lastPageContent := content;
    var foundDuplicate := false;
    var batchStart := startPage + 1;
    while batchStart < endPage && !foundDuplicate
      invariant foundDuplicate ==> allResults == total
      invariant !foundDuplicate ==> allResults + Kept(Interval(batchStart, endPage), fetch, lastPageContent) == total
      invariant visited + Batches(batchStart, endPage, maxConcurrent) == plan
      decreases endPage - batchStart
    {
      var batchEnd := if batchStart + maxConcurrent < endPage then batchStart + maxConcurrent else endPage;
      allResults, lastPageContent, foundDuplicate := CrawlBatch(batchStart, batchEnd, endPage, fetch, allResults, lastPageContent);
      if batchEnd != batchStart + maxConcurrent {
        assert Interval(batchEnd, endPage) == [] == Interval(batchStart + maxConcurrent, endPage);
      }
      ghost var rest := Batches(batchStart + maxConcurrent, endPage, maxConcurrent);
      assert Batches(batchStart, endPage, maxConcurrent) == [Interval(batchStart, batchEnd)] + rest;
      assert visited + ([Interval(batchStart, batchEnd)] + rest) == (visited + [Interval(batchStart, batchEnd)]) + rest;
      visited := visited + [Interval(batchStart, batchEnd)];
      batchStart := batchStart + maxConcurrent;
    }
    assert visited <= visited + Batches(batchStart, endPage, maxConcurrent);
    if !foundDuplicate {
      assert Interval(batchStart, endPage) == [];
    }
  }

  /** One batch: its pages in order, each kept unless it fails, stopping at the first that repeats the last one kept. */
  method CrawlBatch(batchStart: int, batchEnd: int, endPage: int, fetch: int -> Option<string>, results: seq<(int, string)>, last: string)
    returns (allResults: seq<(int, string)>, lastPageContent: string, foundDuplicate: bool)
    requires batchStart <= batchEnd <= endPage
    ensures foundDuplicate ==> allResults == results + Kept(Interval(batchStart, endPage), fetch, last)
    ensures !foundDuplicate ==>
      allResults + Kept(Interval(batchEnd, endPage), fetch, lastPageContent) == results + Kept(Interval(batchStart, endPage), fetch, last)
  {
    ghost var goal := results + Kept(Interval(batchStart, endPage), fetch, last);
    allResults, lastPageContent, foundDuplicate := results, last, false;
    var pageNum := batchStart;
    while pageNum < batchEnd && !foundDuplicate
      invariant batchStart <= pageNum <= batchEnd
      invariant foundDuplicate ==> allResults == goal
      invariant !foundDuplicate ==> allResults + Kept(Interval(pageNum, endPage), fetch, lastPageContent) == goal
    {
      allResults, lastPageContent, foundDuplicate := CrawlPage(pageNum, endPage, fetch, allResults, lastPageContent);
      pageNum := pageNum + 1;
    }
  }

  /** One page of a batch: kept unless it fails, or the stop when it repeats the last page kept. */
  method CrawlPage(pageNum: int, endPage: int, fetch: int -> Option<string>, results: seq<(int, string)>, last: string)
    returns (allResults: seq<(int, string)>, lastPageContent: string, foundDuplicate: bool)
    requires pageNum < endPage
    ensures foundDuplicate ==> allResults == results + Kept(Interval(pageNum, endPage), fetch, last)
    ensures !foundDuplicate ==>
      allResults + Kept(Interval(pageNum + 1, endPage), fetch, lastPageContent) == results + Kept(Interval(pageNum, endPage), fetch, last)
  {
    allResults, lastPageContent, foundDuplicate := results, last, false;
    ghost var rest := Kept(Interval(pageNum, endPage), fetch, last);
    KeptStep(pageNum, endPage, fetch, last);
    match fetch(pageNum) {
      case Some(currentContent) =>
        if currentContent == last {
          assert rest == [];
          assert results + rest == results;
          foundDuplicate := true;
        } else {
          ghost var tail := Kept(Interval(pageNum + 1, endPage), fetch, currentContent);
          assert rest == [(pageNum, currentContent)] + tail;
          assert (results + [(pageNum, currentContent)]) + tail == results + rest;
          allResults := results + [(pageNum, currentContent)];
          lastPageContent := currentContent;
        }
      case None =>
    }
  }
}
