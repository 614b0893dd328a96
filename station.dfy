/**
 * News stations: a closed family of three ways to obtain the media to play
 * (a fixed file URL, a custom getter, an RSS feed), the station logo, the
 * dictionary view of a station, and the construction of the user's custom station.
 */
module Station {
  import opened Wrappers
  import opened Text
  import opened Feed

  /** The getter functions the station table is built with; their bodies are not part of this model. */
  datatype Getter = AbcUrl | FtUrl | GpbUrl | TsfUrl

  /** How a station obtains its media URI: one constructor per subclass of `BaseStation`. */
  datatype Media =
    | File(mediaUrl: string)   // FileStation: a static URL
    | Fetcher(getter: Getter)  // FetcherStation: a custom getter
    | Rss(rssUrl: string)      // RSSStation: a podcast feed

  datatype Station = Station(acronym: string, fullName: string, imageFile: Option<string>, media: Media)

  /** The answers of the outside world: the feed parser, the getters and the filesystem. */
  datatype World = World(
    parse: string -> Entries,                 // feedparser.parse(url).entries
    fetch: Getter -> Result<Option<string>>,  // calling a getter: a URL, None, or an exception
    fileExists: string -> bool)               // Path.exists, relative to the skill directory

  const ImagesDir := "images/"
  const GenericImage := "generic.png"
  const NprPrefix := "https://www.npr.org/"
  const CustomAcronym := "custom"
  const CustomName := "Your custom station"

  /**
   * `BaseStation.image_path`: no path without an image file; otherwise the station's
   * own logo under images/ if that file exists, else the generic logo.
   */
  function ImagePath(st: Station, fileExists: string -> bool): (p: Option<string>)
    ensures p == None <==> st.imageFile == None
    ensures p != None ==> StartsWith(p.value, ImagesDir)
    ensures p != None ==> p.value[|ImagesDir|..] == (if fileExists(ImagesDir + st.imageFile.value)
                                                      then st.imageFile.value else GenericImage)
  {
    match st.imageFile
    case None => None
    case Some(f) =>
      var own := ImagesDir + f;
      var p := if fileExists(own) then own else ImagesDir + GenericImage;
      assert p[..|ImagesDir|] == ImagesDir;
      Some(p)
  }

  /** Python's `str()` of an optional path. */
  function PyStr(p: Option<string>): string {
    match p
    case None => "None"
    case Some(s) => s
  }

  /** `BaseStation.as_dict`: exactly the three keys, each mirroring the station. */
  function AsDict(st: Station, fileExists: string -> bool): (d: map<string, string>)
    ensures d.Keys == {"acronym", "full_name", "image_path"}
    ensures d["acronym"] == st.acronym && d["full_name"] == st.fullName
    ensures st.imageFile == None ==> d["image_path"] == "None"
    ensures st.imageFile != None ==> d["image_path"] == ImagePath(st, fileExists).value
  {
    map["acronym" := st.acronym, "full_name" := st.fullName,
        "image_path" := PyStr(ImagePath(st, fileExists))]
  }

  predicate IsQueryMark(c: char) {
    c == '?'
  }

  /** `url.split('?')[0]`: everything before the first '?'. */
  function StripQuery(u: string): (r: string)
    ensures '?' !in r
    ensures |r| <= |u| && r == u[..|r|]
    ensures |r| < |u| ==> u[|r|] == '?'
  {
    var k := FirstIndex(u, IsQueryMark);
    assert forall c :: c in u[..k] ==> !IsQueryMark(c);
    u[..k]
  }

  /** Stripping the query twice changes nothing more, and a URL without '?' is kept whole. */
  lemma StripQueryIdempotent(u: string)
    ensures StripQuery(StripQuery(u)) == StripQuery(u)
    ensures '?' !in u ==> StripQuery(u) == u
  {
  }

  /**
   * The `media_uri` property of each station variant. A file station returns its URL,
   * a fetcher station whatever its getter returns or raises, an RSS station the link
   * chosen from the feed's first entry; for feeds under https://www.npr.org/ the query
   * string is cut off, and calling `split` on a missing link raises AttributeError.
   */
  method MediaUri(st: Station, w: World) returns (r: Result<Option<string>>)
    ensures st.media.File? ==> r == Ok(Some(st.media.mediaUrl))
    ensures st.media.Fetcher? ==> r == w.fetch(st.media.getter)
    ensures st.media.Rss? && !StartsWith(st.media.rssUrl, NprPrefix) ==>
              r == Ok(FeedAudio(w.parse(st.media.rssUrl)))
    ensures st.media.Rss? && StartsWith(st.media.rssUrl, NprPrefix) ==>
              r == match FeedAudio(w.parse(st.media.rssUrl))
                   case None => Err(AttributeError)
                   case Some(u) => Ok(Some(StripQuery(u)))
    ensures r.Ok? && r.value.Some? && st.media.Rss? && StartsWith(st.media.rssUrl, NprPrefix) ==>
              '?' !in r.value.value
  {
    match st.media
    case File(url) =>
      r := Ok(Some(url));
    case Fetcher(getter) =>
      r := w.fetch(getter);
    case Rss(url) =>
      var audio := GetAudioFromRss(w.parse(url));
      if StartsWith(url, NprPrefix) {
        if audio == None {
          r := Err(AttributeError);
        } else {
          r := Ok(Some(StripQuery(audio.value)));
        }
      } else {
        r := Ok(audio);
      }
  }

  /**
   * `create_custom_station` as documented: the custom station is an RSS station when
   * the URL parses as a feed with at least one entry, and a file station otherwise.
   */
  function CreateCustomStation(url: string, entries: Entries): (st: Station)
    ensures st.acronym == CustomAcronym && st.fullName == CustomName && st.imageFile == None
    ensures st.media == Rss(url) || st.media == File(url)
    ensures st.media.Rss? <==> entries != []
  {
    Station(CustomAcronym, CustomName, None, if entries != [] then Rss(url) else File(url))
  }

  /**
   * `create_custom_station` as written: `feedparser.parse(url).entries > 0` orders a
   * list against an int, which Python 3 rejects with TypeError for every feed.
   */
  function CreateCustomStationAsWritten(url: string, entries: Entries): (r: Result<Station>)
    ensures r.Err? && r.fault == TypeError
  {
    Err(TypeError)
  }

  /** A URL that parses to a one-entry feed: the code as written raises, the documented rule gives an RSS station. */
  lemma CustomStationComparisonRaises(url: string)
    ensures CreateCustomStationAsWritten(url, [Entry("", [])]) == Err(TypeError)
    ensures CreateCustomStation(url, [Entry("", [])]).media == Rss(url)
  {
  }
}
