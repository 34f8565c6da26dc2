/**
 * Page-name resolution of the router shell (src/pages/index.jsx): the layout is told
 * which page is current by taking the last path segment of the location, dropping a
 * query part, and matching it case-insensitively against the page table's keys.
 */
module Pages {
  import opened Wrappers
  import opened JsText
  import opened Seqs

  /** The keys of the page table, in declaration order; the first is the fallback. */
  const PageKeys: seq<string> :=
    ["Home", "Diagnosis", "About", "Reports", "Doctors", "Chat", "AdminDashboard"]

  /** Drops exactly one trailing slash, if there is one. */
  function StripTrailingSlash(url: string): (r: string)
    ensures EndsWith(url, "/") ==> r + "/" == url
    ensures !EndsWith(url, "/") ==> r == url
  {
    if EndsWith(url, "/") then url[..|url| - 1] else url
  }

  /** `url.split('/').pop()`: the text after the last slash, or all of it when there is none. */
  function LastSegment(url: string): (r: string)
    ensures '/' !in r
    ensures |r| <= |url| && r == url[|url| - |r|..]
    ensures |r| < |url| ==> url[|url| - |r| - 1] == '/'
  {
    if url == [] then []
    else if url[|url| - 1] == '/' then []
    else LastSegment(url[..|url| - 1]) + [url[|url| - 1]]
  }

  /** `seg.split('?')[0]`: the text before the first question mark. */
  function BeforeQuery(seg: string): (r: string)
    ensures '?' !in r
    ensures |r| <= |seg| && r == seg[..|r|]
    ensures |r| < |seg| ==> seg[|r|] == '?'
  {
    if seg == [] || seg[0] == '?' then [] else [seg[0]] + BeforeQuery(seg[1..])
  }

  /** The segment `_getCurrentPage` matches: last path part, query dropped. */
  function CurrentSegment(url: string): (seg: string)
    ensures '/' !in seg && '?' !in seg
  {
    var last := LastSegment(StripTrailingSlash(url));
    if '?' in last then BeforeQuery(last) else last
  }

  lemma {:induction false} PageKeysLowerDistinct()
    ensures forall i, j :: 0 <= i < j < |PageKeys| ==> ToLowerCase(PageKeys[i]) != ToLowerCase(PageKeys[j])
  {
    forall i, j | 0 <= i < j < |PageKeys|
      ensures ToLowerCase(PageKeys[i]) != ToLowerCase(PageKeys[j])
    {
      var a, b := PageKeys[i], PageKeys[j];
      if |a| == |b| {
        assert ToLowerCase(a)[0] == LowerChar(a[0]) && ToLowerCase(b)[0] == LowerChar(b[0]);
      }
    }
  }

  /**
   * The page key a segment selects: the first key equal to it up to case, else the first
   * key of the table.
   */
  function MatchPage(segment: string): (page: string)
    ensures page in PageKeys
    ensures forall k :: k in PageKeys && ToLowerCase(k) == ToLowerCase(segment) ==> page == k
    ensures (forall k :: k in PageKeys ==> ToLowerCase(k) != ToLowerCase(segment)) ==> page == PageKeys[0]
  {
    var found := Find(PageKeys, (k: string) => ToLowerCase(k) == ToLowerCase(segment));
    PageKeysLowerDistinct();
    if found.Some? then found.value else PageKeys[0]
  }

  /** `_getCurrentPage(url)`; the result is always a key of the page table. */
  function GetCurrentPage(url: string): (page: string)
    ensures page in PageKeys
  {
    MatchPage(CurrentSegment(url))
  }

  lemma {:induction false} LastSegmentAfterSlash(prefix: string, seg: string)
    requires '/' !in seg
    ensures LastSegment(prefix + "/" + seg) == seg
  {
    if seg != [] {
      var s := prefix + "/" + seg;
      var init := seg[..|seg| - 1];
      assert s[..|s| - 1] == prefix + "/" + init;
      LastSegmentAfterSlash(prefix, init);
      assert init + [seg[|seg| - 1]] == seg;
    }
  }

  /** The segment matched for a location ending in a slash-free, non-empty part `tail`. */
  lemma {:induction false} SegmentOfLastPart(prefix: string, tail: string)
    requires '/' !in tail && tail != []
    ensures CurrentSegment(prefix + "/" + tail) == if '?' in tail then BeforeQuery(tail) else tail
  {
    var url := prefix + "/" + tail;
    assert url[|url| - 1] == tail[|tail| - 1];
    assert !EndsWith(url, "/");
    LastSegmentAfterSlash(prefix, tail);
  }

  /** Only the last path segment matters, when it is non-empty and holds no query. */
  lemma LastSegmentDecides(prefix: string, seg: string)
    requires '/' !in seg && '?' !in seg && seg != []
    ensures GetCurrentPage(prefix + "/" + seg) == MatchPage(seg)
  {
    SegmentOfLastPart(prefix, seg);
  }

  /** Matching ignores case: any spelling of a key in the last segment selects that key. */
  lemma MatchIgnoresCase(prefix: string, seg: string, key: string)
    requires key in PageKeys
    requires '/' !in seg && '?' !in seg && ToLowerCase(seg) == ToLowerCase(key)
    ensures GetCurrentPage(prefix + "/" + seg) == key
  {
    assert |seg| == |key|;
    LastSegmentDecides(prefix, seg);
  }

  /** Everything from the first `?` of the last segment on is ignored. */
  lemma QueryIgnored(prefix: string, seg: string, query: string)
    requires '/' !in seg && '?' !in seg && '/' !in query
    ensures GetCurrentPage(prefix + "/" + seg + "?" + query) == MatchPage(seg)
  {
    var tail := seg + "?" + query;
    assert prefix + "/" + seg + "?" + query == prefix + "/" + tail;
    assert '/' !in tail;
    assert tail[|seg|] == '?';
    SegmentOfLastPart(prefix, tail);
    BeforeQueryStopsAtMark(seg, query);
  }

  lemma {:induction false} BeforeQueryStopsAtMark(seg: string, query: string)
    requires '?' !in seg
    ensures BeforeQuery(seg + "?" + query) == seg
  {
    if seg != [] {
      assert (seg + "?" + query)[1..] == seg[1..] + "?" + query;
      BeforeQueryStopsAtMark(seg[1..], query);
    }
  }

  /** One trailing slash is ignored. */
  lemma TrailingSlashIgnored(url: string)
    requires !EndsWith(url, "/")
    ensures GetCurrentPage(url + "/") == GetCurrentPage(url)
  {
    assert EndsWith(url + "/", "/");
    assert (url + "/")[..|url|] == url;
  }

  /** No key is the empty string, so an empty segment always falls back to the first key. */
  lemma EmptySegmentFallsBack()
    ensures MatchPage("") == "Home"
  {
    forall k | k in PageKeys ensures ToLowerCase(k) != ToLowerCase("") {
      assert |ToLowerCase(k)| == |k| > 0;
    }
  }

  /** A second trailing slash is not ignored: the last segment is then empty. */
  lemma DoubleTrailingSlashFallsBack(url: string)
    ensures GetCurrentPage(url + "//") == "Home"
  {
    var u := url + "//";
    assert EndsWith(u, "/");
    assert StripTrailingSlash(u) == url + "/";
    assert LastSegment(url + "/") == [];
    EmptySegmentFallsBack();
  }

  /** The site root resolves to the first key. */
  lemma RootIsHome()
    ensures GetCurrentPage("/") == "Home"
  {
    assert StripTrailingSlash("/") == "";
    assert LastSegment("") == "";
    EmptySegmentFallsBack();
  }
}
