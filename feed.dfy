/**
 * Parsed RSS/Atom feeds as the skill sees them through feedparser, and the rule both
 * `RSSStation._get_audio_from_rss` and the older `get_media_url` use to pick a link
 * from a feed entry: the first link whose type mentions "audio", otherwise the first link.
 */
module Feed {
  import opened Wrappers
  import opened Text

  /** One `<link>` of an entry: its declared MIME type and its target. */
  datatype Link = Link(mime: string, href: string)

  /** One feed entry: its title and its links, in document order. */
  datatype Entry = Entry(title: string, links: seq<Link>)

  /** The `entries` list of a parsed feed (empty when the URL is not a feed). */
  type Entries = seq<Entry>

  /** `'audio' in link['type']`. */
  predicate IsAudio(l: Link) {
    Contains(l.mime, "audio")
  }

  /**
   * The link chosen from one entry: the href of the first audio-typed link, or the
   * first link's href when no link is typed as audio, or nothing when there are no links.
   */
  function AudioLink(links: seq<Link>): (r: Option<string>)
    ensures r == None <==> links == []
    ensures forall k :: 0 <= k < |links| && IsAudio(links[k]) && (forall j :: 0 <= j < k ==> !IsAudio(links[j]))
                        ==> r == Some(links[k].href)
    ensures links != [] && (forall k :: 0 <= k < |links| ==> !IsAudio(links[k])) ==> r == Some(links[0].href)
  {
    if links == [] then None
    else
      var k := FirstIndex(links, IsAudio);
      if k < |links| then Some(links[k].href) else Some(links[0].href)
  }

  /**
   * The `for link in entries[0]['links']` loop: on an audio link take its href and
   * break; on any other link fall back to the first link's href and go on.
   */
  method ScanLinks(links: seq<Link>) returns (audio: Option<string>)
    ensures audio == AudioLink(links)
  {
    audio := None;
    var i := 0;
    while i < |links|
      invariant 0 <= i <= |links|
      invariant forall j :: 0 <= j < i ==> !IsAudio(links[j])
      invariant audio == if i == 0 then None else Some(links[0].href)
    {
      if IsAudio(links[i]) {
        audio := Some(links[i].href);
        break;
      }
      audio := Some(links[0].href);
      i := i + 1;
    }
  }

  /** The link `_get_audio_from_rss` picks: from the first entry, nothing for an empty feed. */
  function FeedAudio(entries: Entries): Option<string> {
    if entries == [] then None else AudioLink(entries[0].links)
  }

  /** `RSSStation._get_audio_from_rss` over the parsed feed. */
  method GetAudioFromRss(entries: Entries) returns (audio: Option<string>)
    ensures entries == [] ==> audio == None
    ensures entries != [] ==> audio == AudioLink(entries[0].links)
    ensures audio == FeedAudio(entries)
  {
    audio := None;
    if entries != [] {
      audio := ScanLinks(entries[0].links);
    }
  }

  /**
   * A first entry with one "audio/mpeg" link and one "text/html" link resolves to the
   * audio link, whichever comes first.
   */
  lemma AudioBeatsHtml(audioHref: string, htmlHref: string)
    ensures AudioLink([Link("text/html", htmlHref), Link("audio/mpeg", audioHref)]) == Some(audioHref)
    ensures AudioLink([Link("audio/mpeg", audioHref), Link("text/html", htmlHref)]) == Some(audioHref)
  {
    var html, mpeg := Link("text/html", htmlHref), Link("audio/mpeg", audioHref);
    assert OccursAt(mpeg.mime, "audio", 0);
    assert !IsAudio(html) by {
      forall i: nat | i <= |html.mime|
        ensures !OccursAt(html.mime, "audio", i)
      {
        if i + 5 <= |html.mime| {
          assert html.mime[i..i + 5][0] == html.mime[i];
        }
      }
    }
    var ls := [html, mpeg];
    assert !IsAudio(ls[0]) && IsAudio(ls[1]);
  }
}
