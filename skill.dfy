/**
 * The feed table and the request-side logic of the news skill: choosing the station
 * to play from the settings, turning a station's source into a playable URL (a
 * direct mp3 link, an RSS feed, or one of the two custom fetchers), finding the
 * stream's MIME type, and answering the common-play query "can you play this phrase".
 */
module Skill {
  import opened Wrappers
  import opened Text
  import opened Feed
  import Gbp
  import Match

  // ---------------------------------------------------------------- the FEEDS table

  /** The two functions the table holds as callables instead of URLs. */
  datatype Callable = TsfFetcher | GbpFetcher

  /** The second field of a table row: a URL, a callable, or nothing. */
  datatype FeedSource = Url(url: string) | Call(fetcher: Callable) | NoUrl

  /**
   * A row of `FEEDS`: the long title, the source, and the logo file under the skill's
   * images directory (the "file://<skill directory>/images/" prefix is left implicit).
   */
  datatype FeedInfo = FeedInfo(title: string, source: FeedSource, image: Option<string>)

  const CustomTitle := "Your custom feed"

  /** The keys of `FEEDS` in insertion order, which is the order `for source in FEEDS` visits. */
  const FeedKeys: seq<string> := ["other", "custom", "ABC", "AP", "BBC", "CBC", "DLF", "Ekot", "FOX", "NPR",
                                  "PBS", "VRT", "WDR", "YLE", "GBP", "RDP", "RNE", "TSF", "NOS", "OE3"]

  const Feeds: map<string, FeedInfo> := map[
    "other" := FeedInfo(CustomTitle, NoUrl, None),
    "custom" := FeedInfo(CustomTitle, NoUrl, None),
    "ABC" := FeedInfo("ABC News Australia", Url("https://rss.whooshkaa.com/rss/podcast/id/2381"), Some("ABC.png")),
    "AP" := FeedInfo("AP Hourly Radio News", Url("https://www.spreaker.com/show/1401466/episodes/feed"),
                     Some("AP.png")),
    "BBC" := FeedInfo("BBC News", Url("https://podcasts.files.bbci.co.uk/p02nq0gn.rss"), Some("BBC.png")),
    "CBC" := FeedInfo("CBC News", Url("https://www.cbc.ca/podcasting/includes/hourlynews.xml"), Some("CBC.png")),
    // the DLF and WDR logos are referenced without an extension, as the table has them
    "DLF" := FeedInfo("DLF", Url("https://www.deutschlandfunk.de/podcast-nachrichten.1257.de.podcast.xml"),
                      Some("DLF")),
    "Ekot" := FeedInfo("Ekot", Url("https://api.sr.se/api/rss/pod/3795"), Some("Ekot.png")),
    "FOX" := FeedInfo("Fox News", Url("http://feeds.foxnewsradio.com/FoxNewsRadio"), Some("FOX.png")),
    "NPR" := FeedInfo("NPR News Now", Url("https://www.npr.org/rss/podcast.php?id=500005"), Some("NPR.png")),
    "PBS" := FeedInfo("PBS NewsHour", Url("https://www.pbs.org/newshour/feeds/rss/podcasts/show"), Some("PBS.png")),
    "VRT" := FeedInfo("VRT Nieuws",
                      Url("https://progressive-audio.lwc.vrtcdn.be/content/fixed/11_11niws-snip_hi.mp3"), None),
    "WDR" := FeedInfo("WDR", Url("https://www1.wdr.de/mediathek/audio/wdr-aktuell-news/wdr-aktuell-152.podcast"),
                      Some("WDR")),
    "YLE" := FeedInfo("YLE", Url("https://feeds.yle.fi/areena/v1/series/1-1440981.rss"), Some("Yle.png")),
    "GBP" := FeedInfo("Georgia Public Radio", Call(GbpFetcher), None),
    "RDP" := FeedInfo("RDP Africa", Url("http://www.rtp.pt//play/itunes/5442"), None),
    "RNE" := FeedInfo("National Spanish Radio", Url("http://api.rtve.es/api/programas/36019/audios.rs"), None),
    "TSF" := FeedInfo("TSF Radio", Call(TsfFetcher), None),
    "NOS" := FeedInfo("NOS Journaal", Url("http://news.nixxfm.nl:81/nieuws.mp3"), Some("NOS.png")),
    "OE3" := FeedInfo("\U{D6}3 Nachrichten", Url("https://oe3meta.orf.at/oe3mdata/StaticAudio/Nachrichten.mp3"), None)
  ]

  /** The ordered key list and the table describe the same dictionary. */
  lemma FeedKeysAreFeeds()
    ensures forall k :: k in Feeds <==> k in FeedKeys
    ensures forall i, j :: 0 <= i < j < |FeedKeys| ==> FeedKeys[i] != FeedKeys[j]
  {
  }

  // ---------------------------------------------------------------- configuration

  /** What the skill reads from its settings, the device and its locale files. */
  datatype Config = Config(
    settings: map<string, string>,        // self.settings
    countryCode: string,                  // location['city']['state']['country']['code']
    defaultFeed: map<string, string>,     // translate_namedvalues('country.default')
    altFeedNames: seq<(string, string)>,  // translate_namedvalues('alt.feed.name'), in file order
    newsWord: string,                     // translate("News")
    vocNews: string -> bool,              // voc_match(phrase, "News")
    fuzzy: Match.Fuzzy)                   // fuzzy_match

  /** `self.settings.get(key, default)`. */
  function Setting(cfg: Config, key: string, default: string): string {
    if key in cfg.settings then cfg.settings[key] else default
  }

  /**
   * `get_station` over the feed table `feeds` (always `Feeds` in the skill): a station
   * selected in the settings wins (any table key, including "other" and "custom", which
   * have no URL); then a non-empty custom URL under the custom row's title; then the
   * country's default feed, or NPR when the country has none. A key missing from the
   * table raises KeyError.
   */
  function GetStation(cfg: Config, feeds: map<string, FeedInfo>): (r: Result<FeedInfo>)
    ensures var code := Setting(cfg, "station", "not_set");
            code in feeds ==> r == Ok(feeds[code])
    ensures var code, url := Setting(cfg, "station", "not_set"), Setting(cfg, "custom_url", "");
            code !in feeds && url != "" ==>
              r == if "custom" in feeds then Ok(FeedInfo(feeds["custom"].title, Url(url), None)) else Err(KeyError)
    ensures var code, url := Setting(cfg, "station", "not_set"), Setting(cfg, "custom_url", "");
            code !in feeds && url == "" ==>
              var fallback := if cfg.countryCode in cfg.defaultFeed then cfg.defaultFeed[cfg.countryCode] else "NPR";
              r == if fallback in feeds then Ok(feeds[fallback]) else Err(KeyError)
    ensures r.Ok? ==> r.value in feeds.Values || r.value.source.Url?
    ensures r.Err? <==> r == Err(KeyError)
  {
    var code := Setting(cfg, "station", "not_set");
    var url := Setting(cfg, "custom_url", "");
    if code in feeds then Ok(feeds[code])
    else if |url| > 0 then
      if "custom" in feeds then Ok(FeedInfo(feeds["custom"].title, Url(url), None)) else Err(KeyError)
    else
      var fallback := if cfg.countryCode in cfg.defaultFeed then cfg.defaultFeed[cfg.countryCode] else "NPR";
      if fallback in feeds then Ok(feeds[fallback]) else Err(KeyError)
  }

  /**
   * Over the skill's own table the fallbacks cannot fail: a custom URL plays under
   * "Your custom feed" with no logo, and a country without a default gets NPR.
   */
  lemma GetStationOverFeeds(cfg: Config)
    ensures var code, url := Setting(cfg, "station", "not_set"), Setting(cfg, "custom_url", "");
            code !in Feeds && url != "" ==> GetStation(cfg, Feeds) == Ok(FeedInfo(CustomTitle, Url(url), None))
    ensures var code, url := Setting(cfg, "station", "not_set"), Setting(cfg, "custom_url", "");
            code !in Feeds && url == "" && cfg.countryCode !in cfg.defaultFeed ==>
              GetStation(cfg, Feeds) == Ok(Feeds["NPR"])
    ensures GetStation(cfg, Feeds).Err? <==>
              && Setting(cfg, "station", "not_set") !in Feeds && Setting(cfg, "custom_url", "") == ""
              && cfg.countryCode in cfg.defaultFeed && cfg.defaultFeed[cfg.countryCode] !in Feeds
  {
  }

  // ---------------------------------------------------------------- find_mime

  /** The answer to a HEAD request: status code and headers keyed by lower-case name. */
  datatype Response = Response(status: int, headers: map<string, string>)

  const DefaultMime := "audio/mpeg"

  /**
   * `find_mime` given the HEAD response: a 2xx answer gives its content type (KeyError
   * when the header is missing); any other status gives "audio/mpeg".
   */
  function FindMime(resp: Response): (r: Result<string>)
    ensures 200 <= resp.status < 300 ==> (r.Ok? <==> "content-type" in resp.headers)
    ensures 200 <= resp.status < 300 && r.Ok? ==> r.value == resp.headers["content-type"]
    ensures 200 <= resp.status < 300 && r.Err? ==> r.fault == KeyError
    ensures !(200 <= resp.status < 300) ==> r == Ok(DefaultMime)
  {
    if 200 <= resp.status < 300 then
      if "content-type" in resp.headers then Ok(resp.headers["content-type"]) else Err(KeyError)
    else Ok(DefaultMime)
  }

  // ---------------------------------------------------------------- tsf

  /** `tsf` gives up after this many probes. */
  const TsfProbes: nat := 5

  /**
   * How many hours before now probe `k` of `tsf` looks: each pass moves the date it
   * already moved back by `i` more hours, so the probes look 0, 1, 3, 6 and 10 hours back.
   */
  function ProbeOffset(k: nat): nat {
    if k == 0 then 0 else k + ProbeOffset(k - 1)
  }

  /** Probe `k` looks back the `k`-th triangular number of hours. */
  lemma {:induction false} ProbeOffsetIsTriangular(k: nat)
    ensures 2 * ProbeOffset(k) == k * (k + 1)
  {
    if k > 0 {
      ProbeOffsetIsTriangular(k - 1);
    }
  }

  /** Whether probe `k` finds its bulletin. */
  predicate Hit(now: int, statusAt: int -> int, k: nat) {
    statusAt(now - ProbeOffset(k)) == 200
  }

  /** The first probe `k .. TsfProbes - 1` whose hour answers 200, or `TsfProbes`. */
  function FirstHit(now: int, statusAt: int -> int, k: nat): (r: nat)
    requires k <= TsfProbes
    ensures k <= r <= TsfProbes
    ensures r < TsfProbes ==> Hit(now, statusAt, r)
    ensures forall j :: k <= j < r ==> !Hit(now, statusAt, j)
    decreases TsfProbes - k
  {
    if k == TsfProbes then TsfProbes
    else if Hit(now, statusAt, k) then k
    else FirstHit(now, statusAt, k + 1)
  }

  /**
   * The bulletin URL `tsf` returns: the URL of the first probed hour whose request
   * answers 200, and nothing when none of the five does.
   */
  function ProbeUrl<U>(now: int, statusAt: int -> int, uriOf: int -> U): (r: Option<U>)
    ensures r == None <==> forall k :: 0 <= k < TsfProbes ==> !Hit(now, statusAt, k)
    ensures r != None ==> exists k :: 0 <= k < TsfProbes && r == Some(uriOf(now - ProbeOffset(k)))
                                      && Hit(now, statusAt, k)
                                      && forall j :: 0 <= j < k ==> !Hit(now, statusAt, j)
  {
    var k := FirstHit(now, statusAt, 0);
    if k < TsfProbes then Some(uriOf(now - ProbeOffset(k))) else None
  }

  /** A probe that hits after only misses, or the end after five misses, is the first hit. */
  lemma {:induction false} FirstHitIs(now: int, statusAt: int -> int, i: nat, k: nat)
    requires i <= k <= TsfProbes
    requires k < TsfProbes ==> Hit(now, statusAt, k)
    requires forall j :: i <= j < k ==> !Hit(now, statusAt, j)
    ensures FirstHit(now, statusAt, i) == k
    decreases k - i
  {
    if i < k {
      assert !Hit(now, statusAt, i);
      FirstHitIs(now, statusAt, i + 1, k);
    }
  }

  /**
   * `tsf`. `now` is the current hour in Portugal (hours counted from an epoch),
   * `statusAt(h)` the status of the GET request for the bulletin of hour `h`, and
   * `uriOf(h)` that bulletin's URL.
   */
  method Tsf<U>(now: int, statusAt: int -> int, uriOf: int -> U) returns (uri: Option<U>)
    ensures uri == ProbeUrl(now, statusAt, uriOf)
  {
    uri := None;
    var i := 0;
    var status := 404;
    var date := now;
    while status != 200 && i < TsfProbes
      invariant 0 <= i <= TsfProbes
      decreases TsfProbes - i
      invariant date + ProbeOffset(i) == now + i
      invariant status != 200 ==> forall j :: 0 <= j < i ==> !Hit(now, statusAt, j)
      invariant status == 200 ==> && 0 < i && Hit(now, statusAt, i - 1)
                                  && (forall j :: 0 <= j < i - 1 ==> !Hit(now, statusAt, j))
                                  && uri == Some(uriOf(now - ProbeOffset(i - 1)))
    {
      date := date - i;
      assert date == now - ProbeOffset(i);
      uri := Some(uriOf(date));
      status := statusAt(date);
      assert status == 200 <==> Hit(now, statusAt, i);
      assert ProbeOffset(i + 1) == ProbeOffset(i) + i + 1;
      i := i + 1;
    }
    if status != 200 {
      FirstHitIs(now, statusAt, 0, TsfProbes);
      return None;
    }
    FirstHitIs(now, statusAt, 0, i - 1);
  }

  /**
   * The probes skip hours: when only the bulletin of two hours ago is published, `tsf`
   * never requests it (it looks 0, 1, 3, 6 and 10 hours back) and returns nothing.
   */
  lemma TsfSkipsTwoHoursAgo<U>(now: int, uriOf: int -> U)
    ensures ProbeUrl(now, (h: int) => if h == now - 2 then 200 else 404, uriOf) == None
  {
    var statusAt := (h: int) => if h == now - 2 then 200 else 404;
    assert ProbeOffset(0) == 0 && ProbeOffset(1) == 1 && ProbeOffset(2) == 3;
    assert ProbeOffset(3) == 6 && ProbeOffset(4) == 10;
    assert forall k :: 0 <= k < TsfProbes ==> !Hit(now, statusAt, k);
  }

  // ---------------------------------------------------------------- get_media_url

  /** The answers of the outside world while a bulletin is fetched and started. */
  datatype Env = Env(
    parse: string -> Entries,             // feedparser.parse(url).entries
    fetchPage: string -> Result<string>,  // requests.get(url).content, or the exception it raises
    head: string -> Result<Response>,     // requests.Session().head(url, allow_redirects=True)
    tsfNow: int,                          // now_local(timezone('Portugal')), in hours
    tsfStatus: int -> int,                // status of the GET request for an hour's TSF bulletin
    tsfUri: int -> string,                // the URL of an hour's TSF bulletin
    fifoOk: bool,                         // removing and re-creating the stream FIFO succeeds
    spawnOk: bool,                        // starting curl succeeds
    playOk: bool)                         // CPS_play succeeds

  /** `station_url and station_url[-4:] in DIRECT_PLAY_FILETYPES`. */
  predicate IsDirectPlay(url: string) {
    url != [] && EndsWith(url, ".mp3")
  }

  /**
   * `get_media_url`: a callable is called; a URL ending in ".mp3" is played as is; a
   * missing URL raises AttributeError on `strip`; any other URL is parsed as a feed and
   * its first entry's audio link, else its first link, is chosen, with IndexError for
   * an empty feed and UnboundLocalError for an entry without links.
   */
  function MediaUrl(src: FeedSource, env: Env): (r: Result<Option<string>>)
    ensures src == Call(TsfFetcher) ==> r == Ok(ProbeUrl(env.tsfNow, env.tsfStatus, env.tsfUri))
    ensures src == Call(GbpFetcher) ==> r == Gbp.HeadlineMp3(env.parse(Gbp.GbpFeedUrl), env.fetchPage)
    ensures src.NoUrl? ==> r == Err(AttributeError)
    ensures src.Url? && IsDirectPlay(src.url) ==> r == Ok(Some(src.url))
    ensures src.Url? && !IsDirectPlay(src.url) && env.parse(Strip(src.url)) == [] ==> r == Err(IndexError)
    ensures src.Url? && !IsDirectPlay(src.url) && env.parse(Strip(src.url)) != [] ==>
              var links := env.parse(Strip(src.url))[0].links;
              if links == [] then r == Err(UnboundLocalError) else r == Ok(AudioLink(links)) && r.value.Some?
  {
    match src
    case Call(TsfFetcher) => Ok(ProbeUrl(env.tsfNow, env.tsfStatus, env.tsfUri))
    case Call(GbpFetcher) => Gbp.HeadlineMp3(env.parse(Gbp.GbpFeedUrl), env.fetchPage)
    case NoUrl => Err(AttributeError)
    case Url(url) =>
      if IsDirectPlay(url) then Ok(Some(url))
      else
        var entries := env.parse(Strip(url));
        if entries == [] then Err(IndexError)
        else if entries[0].links == [] then Err(UnboundLocalError)
        else Ok(AudioLink(entries[0].links))
  }

  /** `get_media_url`, running the fetchers and the link loop. */
  method GetMediaUrl(src: FeedSource, env: Env) returns (r: Result<Option<string>>)
    ensures r == MediaUrl(src, env)
  {
    match src
    case Call(TsfFetcher) =>
      var uri := Tsf(env.tsfNow, env.tsfStatus, env.tsfUri);
      r := Ok(uri);
    case Call(GbpFetcher) =>
      r := Gbp.GetUrl(env.parse(Gbp.GbpFeedUrl), env.fetchPage);
    case NoUrl =>
      r := Err(AttributeError);
    case Url(url) =>
      if IsDirectPlay(url) {
        r := Ok(Some(url));
      } else {
        var entries := env.parse(Strip(url));
        if entries == [] {
          r := Err(IndexError);
        } else {
          var media := ScanLinks(entries[0].links);
          if media == None {
            r := Err(UnboundLocalError);
          } else {
            r := Ok(media);
          }
        }
      }
  }

  /**
   * Selecting "custom" (or "other") as the station takes the table row, which has no
   * URL, so a configured custom URL is not used and fetching the media fails.
   */
  lemma CustomSelectionIgnoresUrl(cfg: Config, env: Env)
    requires Setting(cfg, "station", "not_set") in {"custom", "other"}
    ensures GetStation(cfg, Feeds) == Ok(FeedInfo(CustomTitle, NoUrl, None))
    ensures MediaUrl(GetStation(cfg, Feeds).value.source, env) == Err(AttributeError)
  {
    var row := FeedInfo(CustomTitle, NoUrl, None);
    assert Feeds["custom"] == row && Feeds["other"] == row;
    assert GetStation(cfg, Feeds) == Ok(row);
  }

  // ---------------------------------------------------------------- CPS_match_query_phrase

  /** The common-play match levels this skill answers with. */
  datatype MatchLevel = Exact | Title

  /** A common-play answer: the title, the level and, for an exact answer, the feed to play. */
  datatype CpsMatch = CpsMatch(title: string, level: MatchLevel, feed: Option<string>)

  /** `' '.join(phrase.lower().split())`. */
  function QueryPhrase(phrase: string): string {
    Collapse(Lower(phrase))
  }

  /** The score above which `match_feed_name` accepts a name. */
  const FeedNameThreshold: real := 0.7

  /** `match_feed_name`: the phrase is like the name, or like the name with the word for news appended. */
  predicate FeedNameMatches(cfg: Config, p: string, name: string) {
    cfg.fuzzy(p, name) > FeedNameThreshold || cfg.fuzzy(p, name + cfg.newsWord) > FeedNameThreshold
  }

  /** `match_feed_name` applied to the lower-cased form of a table key or an alternate name. */
  predicate NameMatches(cfg: Config, p: string, name: string) {
    FeedNameMatches(cfg, p, Lower(name))
  }

  /** The position of the first name, in order, that matches the phrase, or the length when none does. */
  function FirstNameMatch(cfg: Config, p: string, names: seq<string>): (k: nat)
    ensures k <= |names|
    ensures k < |names| ==> NameMatches(cfg, p, names[k])
    ensures forall j :: 0 <= j < k ==> !NameMatches(cfg, p, names[j])
  {
    FirstIndex(names, name => NameMatches(cfg, p, name))
  }

  /** The alternate names, in the order the settings list them. */
  function AltNames(alts: seq<(string, string)>): (ns: seq<string>)
    ensures |ns| == |alts|
    ensures forall i :: 0 <= i < |alts| ==> ns[i] == alts[i].0
  {
    seq(|alts|, i requires 0 <= i < |alts| => alts[i].0)
  }

  /**
   * `CPS_match_query_phrase` on the normalised phrase `p`, with `feeds` the feed names
   * in table order: the first matching feed name gives an exact answer for that feed;
   * failing that the first matching alternate name gives an exact answer for the feed
   * it names; failing that a phrase with the word for news gets a title-level "news"
   * answer without a feed; otherwise there is no answer. An exact title carries the
   * word for news when the phrase does.
   */
  function QueryAnswer(p: string, cfg: Config, feeds: seq<string>): (r: Option<CpsMatch>)
    ensures var voc := if cfg.vocNews(p) then cfg.newsWord else "";
            var k := FirstNameMatch(cfg, p, feeds);
            k < |feeds| ==> r == Some(CpsMatch(feeds[k] + voc, Exact, Some(feeds[k])))
    ensures var voc := if cfg.vocNews(p) then cfg.newsWord else "";
            var a, alts := FirstNameMatch(cfg, p, AltNames(cfg.altFeedNames)), cfg.altFeedNames;
            FirstNameMatch(cfg, p, feeds) == |feeds| && a < |alts| ==>
              r == Some(CpsMatch(alts[a].1 + " " + voc, Exact, Some(alts[a].1)))
    ensures && FirstNameMatch(cfg, p, feeds) == |feeds|
            && FirstNameMatch(cfg, p, AltNames(cfg.altFeedNames)) == |cfg.altFeedNames|
            ==> r == if cfg.vocNews(p) then Some(CpsMatch("news", Title, None)) else None
  {
    var voc := if cfg.vocNews(p) then cfg.newsWord else "";
    var k := FirstNameMatch(cfg, p, feeds);
    var alts := cfg.altFeedNames;
    var a := FirstNameMatch(cfg, p, AltNames(alts));
    if k < |feeds| then Some(CpsMatch(feeds[k] + voc, Exact, Some(feeds[k])))
    else if a < |alts| then Some(CpsMatch(alts[a].1 + " " + voc, Exact, Some(alts[a].1)))
    else if cfg.vocNews(p) then Some(CpsMatch("news", Title, None))
    else None
  }

  /**
   * An exact answer always names a feed, and that feed is one of the feed names or the
   * target of an alternate name; every other answer is the generic "news" title.
   */
  lemma QueryAnswerNamesFeed(p: string, cfg: Config, feeds: seq<string>)
    ensures var r := QueryAnswer(p, cfg, feeds);
            r.Some? && r.value.level == Exact ==>
              r.value.feed.Some? && (r.value.feed.value in feeds || exists alt :: alt in cfg.altFeedNames && alt.1 == r.value.feed.value)
    ensures var r := QueryAnswer(p, cfg, feeds);
            r.Some? && r.value.level == Title ==> r.value == CpsMatch("news", Title, None)
  {
    var alts := cfg.altFeedNames;
    var k, a := FirstNameMatch(cfg, p, feeds), FirstNameMatch(cfg, p, AltNames(alts));
    var r := QueryAnswer(p, cfg, feeds);
    if k < |feeds| {
      assert r.value == CpsMatch(feeds[k] + (if cfg.vocNews(p) then cfg.newsWord else ""), Exact, Some(feeds[k]));
      assert feeds[k] in feeds;
    } else if a < |alts| {
      assert r.value.level == Exact && r.value.feed == Some(alts[a].1);
      assert alts[a] in alts;
    } else {
      assert r == if cfg.vocNews(p) then Some(CpsMatch("news", Title, None)) else None;
    }
  }

  /** With the skill's own table, an exact answer names a row of the table or an alternate target. */
  lemma ExactAnswerNamesKeyOrAlias(p: string, cfg: Config)
    ensures var r := QueryAnswer(p, cfg, FeedKeys);
            r.Some? && r.value.level == Exact ==>
              r.value.feed.Some? && (r.value.feed.value in Feeds || exists alt :: alt in cfg.altFeedNames && alt.1 == r.value.feed.value)
  {
    FeedKeysAreFeeds();
    QueryAnswerNamesFeed(p, cfg, FeedKeys);
  }

  /**
   * One `for name in ...: if match_feed_name(phrase, name.lower())` loop: the position
   * of the first name that matches, or the length when none does.
   */
  method FindMatchingName(cfg: Config, p: string, names: seq<string>) returns (k: nat)
    ensures k == FirstNameMatch(cfg, p, names)
  {
    k := 0;
    while k < |names|
      invariant k <= |names|
      invariant forall j :: 0 <= j < k ==> !NameMatches(cfg, p, names[j])
    {
      if FeedNameMatches(cfg, p, Lower(names[k])) {
        return;
      }
      k := k + 1;
    }
  }

  /** The two loops of `CPS_match_query_phrase`, over the feed names and the alternate names. */
  method AnswerQuery(p: string, cfg: Config, feeds: seq<string>) returns (r: Option<CpsMatch>)
    ensures r == QueryAnswer(p, cfg, feeds)
  {
    var voc := if cfg.vocNews(p) then cfg.newsWord else "";
    var k := FindMatchingName(cfg, p, feeds);
    if k < |feeds| {
      var source := feeds[k];
      return Some(CpsMatch(source + voc, Exact, Some(source)));
    }
    var a := FindMatchingName(cfg, p, AltNames(cfg.altFeedNames));
    if a < |cfg.altFeedNames| {
      var feed := cfg.altFeedNames[a].1;
      return Some(CpsMatch(feed + " " + voc, Exact, Some(feed)));
    }
    if cfg.vocNews(p) {
      return Some(CpsMatch("news", Title, None));
    }
    return None;
  }

  /** `CPS_match_query_phrase`: the answer for the lower-cased phrase with its blanks collapsed. */
  method MatchQueryPhrase(phrase: string, cfg: Config) returns (r: Option<CpsMatch>)
    ensures r == QueryAnswer(QueryPhrase(phrase), cfg, FeedKeys)
  {
    var p := Collapse(Lower(phrase));
    r := AnswerQuery(p, cfg, FeedKeys);
  }
}
