/**
 * The Georgia Public Broadcasting fetcher: find the newest "GPB ... Headlines" entry
 * of the GPB feed, download the page its first link points to, and return the first
 * `href="....mp3"` found in that page, as the regular expression
 * `href="(?P<mp3>.+\.mp3)"` finds it: the leftmost `href="` that starts a match,
 * and from there the longest capture (`.+` is greedy and does not cross a newline).
 */
module Gbp {
  import opened Wrappers
  import opened Text
  import opened Feed

  const GbpFeedUrl := "http://feeds.feedburner.com/gpbnews/GeorgiaRSS?format=xml"
  const HrefOpen := "href=\""

  /** `'GPB' in entry['title'] and 'Headlines' in entry['title']`. */
  predicate IsHeadlines(e: Entry) {
    Contains(e.title, "GPB") && Contains(e.title, "Headlines")
  }

  // ---------------------------------------------------------------- the regular expression

  /** No line break in `page[s..e]` (the regex `.` does not match '\n'). */
  predicate NoNewline(page: string, s: nat, e: nat) {
    forall k | s <= k < e && k < |page| :: page[k] != '\n'
  }

  /**
   * `page[s..e]` can be the capture `.+\.mp3` followed by the closing quote: at least
   * one character, then ".mp3", then '"' at index `e`, all on one line.
   */
  predicate IsEnd(page: string, s: nat, e: nat) {
    s + 5 <= e < |page| && page[e] == '"' && OccursAt(page, ".mp3", e - 4) && NoNewline(page, s, e)
  }

  /** The regex matches with `href="` at `i` and the closing quote at `e`. */
  predicate MatchAt(page: string, i: nat, e: nat) {
    OccursAt(page, HrefOpen, i) && IsEnd(page, i + |HrefOpen|, e)
  }

  /** The greatest closing-quote position `e <= hi` that ends a capture starting at `s`. */
  function LastEnd(page: string, s: nat, hi: int): (r: Option<nat>)
    ensures r.Some? ==> r.value <= hi && IsEnd(page, s, r.value)
    ensures r.Some? ==> forall e: nat :: r.value < e <= hi ==> !IsEnd(page, s, e)
    ensures r.None? ==> forall e: nat :: e <= hi ==> !IsEnd(page, s, e)
    decreases hi - s
  {
    if hi < s + 5 then None
    else if IsEnd(page, s, hi) then Some(hi)
    else LastEnd(page, s, hi - 1)
  }

  /** The leftmost match starting at or after `i`, with its greedy end. */
  function SearchFrom(page: string, i: nat): (r: Option<(nat, nat)>)
    ensures r.Some? ==> i <= r.value.0 && MatchAt(page, r.value.0, r.value.1)
    ensures r.Some? ==> forall e: nat :: r.value.1 < e ==> !MatchAt(page, r.value.0, e)
    ensures r.Some? ==> forall j: nat, e: nat :: i <= j < r.value.0 ==> !MatchAt(page, j, e)
    ensures r.None? ==> forall j: nat, e: nat :: i <= j ==> !MatchAt(page, j, e)
    decreases |page| - i
  {
    if |page| < i + |HrefOpen| then None
    else
      var end := LastEnd(page, i + |HrefOpen|, |page| - 1);
      if OccursAt(page, HrefOpen, i) && end.Some? then Some((i, end.value))
      else SearchFrom(page, i + 1)
  }

  /** `re.search(r'href="(?P<mp3>.+\.mp3)"', page)`, giving the named group or nothing. */
  function FindMp3Href(page: string): (r: Option<string>)
    ensures r.None? <==> forall i: nat, e: nat :: !MatchAt(page, i, e)
    ensures r.Some? ==> exists i: nat, e: nat :: MatchAt(page, i, e) && r.value == page[i + |HrefOpen|..e]
    ensures r.Some? ==> EndsWith(r.value, ".mp3") && |r.value| > 4 && '\n' !in r.value
  {
    match SearchFrom(page, 0)
    case None => None
    case Some((i, e)) =>
      var url := page[i + |HrefOpen|..e];
      assert url[|url| - 4..] == page[e - 4..e];
      assert forall c :: c in url ==> c != '\n' by {
        forall k | 0 <= k < |url|
          ensures url[k] != '\n'
        {
          assert url[k] == page[i + |HrefOpen| + k];
        }
      }
      Some(url)
  }

  /** The pieces of a page `pre`, `href="`, `u`, '"', `post`, by position. */
  lemma LinkPageParts(pre: string, u: string, post: string)
    ensures var page := pre + HrefOpen + u + "\"" + post;
            var s := |pre| + |HrefOpen|;
            && |page| == s + |u| + 1 + |post|
            && page[..|pre|] == pre && page[|pre|..s] == HrefOpen && page[s..s + |u|] == u
            && page[s + |u|] == '"' && page[s + |u| + 1..] == post
  {
    var page := pre + HrefOpen + u + "\"" + post;
    var s := |pre| + |HrefOpen|;
    assert page == pre + (HrefOpen + (u + ("\"" + post)));
    assert page[|pre|..] == HrefOpen + (u + ("\"" + post));
    assert page[s..] == u + ("\"" + post);
    assert page[s + |u|..] == "\"" + post;
  }

  /**
   * No match starts before an `href="` at `|pre|` when `pre` holds none: one lying
   * inside `pre` is excluded, and none can overlap, as 'h' occurs only first in `href="`.
   */
  lemma NoMatchBefore(page: string, pre: string)
    requires |pre| + |HrefOpen| <= |page| && page[..|pre|] == pre && OccursAt(page, HrefOpen, |pre|)
    requires !Contains(pre, HrefOpen)
    ensures forall j: nat, e: nat :: j < |pre| ==> !MatchAt(page, j, e)
  {
    forall j: nat | j < |pre|
      ensures !OccursAt(page, HrefOpen, j)
    {
      if j + |HrefOpen| <= |pre| {
        assert pre[j..j + |HrefOpen|] == page[j..j + |HrefOpen|];
        assert !OccursAt(pre, HrefOpen, j);
      } else {
        var d := |pre| - j;
        assert page[|pre|] == page[|pre|..|pre| + |HrefOpen|][0] == 'h';
        assert page[j..j + |HrefOpen|][d] == page[|pre|];
        assert HrefOpen[d] != 'h' by {
          assert 1 <= d < 6;
          assert HrefOpen == ['h', 'r', 'e', 'f', '=', '"'];
        }
      }
    }
  }

  /**
   * A capture starting at `s` cannot end past the quote at `e` that closes `u`: the four
   * characters after it would have to hold that quote, and a later quote in `post` after
   * ".mp3" has a line break before it.
   */
  lemma NoLaterEnd(page: string, s: nat, e: nat, post: string)
    requires s <= e < |page| && page[e] == '"' && page[e + 1..] == post
    requires forall k: nat :: 4 <= k < |post| && post[k] == '"' && OccursAt(post, ".mp3", k - 4) ==> '\n' in post[..k]
    ensures forall e': nat :: e < e' ==> !IsEnd(page, s, e')
  {
    forall e': nat | e < e' < |page|
      ensures !IsEnd(page, s, e')
    {
      if e' < e + 5 {
        if e' >= 4 {
          assert page[e' - 4..e'][e - (e' - 4)] == page[e];
        }
      } else {
        var k: nat := e' - (e + 1);
        assert post[k] == page[e'];
        assert post[k - 4..k] == page[e' - 4..e'];
        if '\n' in post[..k] {
          var m :| 0 <= m < k && post[..k][m] == '\n';
          assert page[e + 1 + m] == post[m];
        }
      }
    }
  }

  /**
   * A page with an `href="` link to an mp3 file, no `href="` before it and no other
   * quoted ".mp3" on the same line after it, yields that link.
   */
  lemma FindsTheLink(pre: string, u: string, post: string)
    requires !Contains(pre, HrefOpen)
    requires |u| > 4 && EndsWith(u, ".mp3") && '\n' !in u
    requires forall k: nat :: 4 <= k < |post| && post[k] == '"' && OccursAt(post, ".mp3", k - 4) ==> '\n' in post[..k]
    ensures FindMp3Href(pre + HrefOpen + u + "\"" + post) == Some(u)
  {
    var page := pre + HrefOpen + u + "\"" + post;
    var s := |pre| + |HrefOpen|;
    var e := s + |u|;
    LinkPageParts(pre, u, post);
    assert MatchAt(page, |pre|, e) by {
      assert page[e - 4..e] == u[|u| - 4..];
      forall k | s <= k < e
        ensures page[k] != '\n'
      {
        assert page[k] == u[k - s];
      }
    }
    NoMatchBefore(page, pre);
    NoLaterEnd(page, s, e, post);
    var r := SearchFrom(page, 0);
    assert r.Some? && r.value.0 == |pre|;
    assert r.value.1 == e;
  }

  // ---------------------------------------------------------------- get_url

  /**
   * What `get_url` computes from the parsed GPB feed and the page fetcher: the page of
   * the first headlines entry's first link, searched for an mp3 link. Without a
   * headlines entry the page request is made for `None` and the HTTP client raises.
   */
  function HeadlineMp3(entries: Entries, fetchPage: string -> Result<string>): (r: Result<Option<string>>)
    ensures FirstIndex(entries, IsHeadlines) == |entries| ==> r == Err(RequestError)
    ensures var k := FirstIndex(entries, IsHeadlines);
              k < |entries| && entries[k].links == [] ==> r == Err(IndexError)
    ensures var k := FirstIndex(entries, IsHeadlines);
              k < |entries| && entries[k].links != [] ==>
                r == match fetchPage(entries[k].links[0].href)
                     case Err(f) => Err(f)
                     case Ok(page) => Ok(FindMp3Href(page))
    ensures r.Ok? && r.value.Some? ==> EndsWith(r.value.value, ".mp3") && '\n' !in r.value.value
  {
    var k := FirstIndex(entries, IsHeadlines);
    if k == |entries| then Err(RequestError)
    else if entries[k].links == [] then Err(IndexError)
    else
      match fetchPage(entries[k].links[0].href)
      case Err(f) => Err(f)
      case Ok(page) => Ok(FindMp3Href(page))
  }

  /**
   * `get_url`: the loop that keeps the first link of the first headlines entry,
   * followed by the page request and the regex search.
   */
  method GetUrl(entries: Entries, fetchPage: string -> Result<string>) returns (r: Result<Option<string>>)
    ensures r == HeadlineMp3(entries, fetchPage)
  {
    var nextLink: Option<string> := None;
    var i := 0;
    while i < |entries|
      invariant 0 <= i <= |entries|
      invariant forall j :: 0 <= j < i ==> !IsHeadlines(entries[j])
      invariant nextLink == None
    {
      if IsHeadlines(entries[i]) {
        if entries[i].links == [] {
          return Err(IndexError);
        }
        nextLink := Some(entries[i].links[0].href);
        break;
      }
      i := i + 1;
    }
    if nextLink == None {
      return Err(RequestError);
    }
    var page := fetchPage(nextLink.value);
    if page.Err? {
      return Err(page.fault);
    }
    r := Ok(FindMp3Href(page.value));
  }
}
