/**
 * The station catalog: the module-level `stations` dictionary, built once from the
 * table of built-in stations and changed afterwards only by `add_custom_station`,
 * which writes the single "custom" slot.
 */
module Catalog {
  import opened Wrappers
  import opened Feed
  import opened Station

  /** The built-in stations, in the order the dictionary literal lists them. */
  const BuiltIns: seq<Station> := [
    Station("ABC", "ABC News Australia", Some("ABC.png"), Fetcher(AbcUrl)),
    Station("AP", "AP Hourly Radio News", Some("AP.png"),
            Rss("https://www.spreaker.com/show/1401466/episodes/feed")),
    Station("BBC", "BBC News", Some("BBC.png"), Rss("https://podcasts.files.bbci.co.uk/p02nq0gn.rss")),
    Station("CBC", "CBC News", Some("CBC.png"), Rss("https://www.cbc.ca/podcasting/includes/hourlynews.xml")),
    Station("DLF", "DLF", Some("DLF.png"),
            Rss("https://www.deutschlandfunk.de/podcast-nachrichten.1257.de.podcast.xml")),
    Station("Ekot", "Ekot", Some("Ekot.png"), Rss("https://api.sr.se/api/rss/pod/3795")),
    Station("FOX", "Fox News", Some("FOX.png"), Rss("http://feeds.foxnewsradio.com/FoxNewsRadio")),
    Station("FT", "Financial Times", Some("FT.png"), Fetcher(FtUrl)),
    Station("GPB", "Georgia Public Radio", None, Fetcher(GpbUrl)),
    Station("NPR", "NPR News Now", Some("NPR.png"), Rss("https://www.npr.org/rss/podcast.php?id=500005")),
    // the display name is spelled exactly as the source file has it
    Station("OE3", "\U{C3}\U{2013}3 Nachrichten", None,
            File("https://oe3meta.orf.at/oe3mdata/StaticAudio/Nachrichten.mp3")),
    Station("PBS", "PBS NewsHour", Some("PBS.png"), Rss("https://www.pbs.org/newshour/feeds/rss/podcasts/show")),
    Station("RDP", "RDP Africa", None, Rss("http://www.rtp.pt//play/itunes/5442")),
    Station("RNE", "National Spanish Radio", None, Rss("http://api.rtve.es/api/programas/36019/audios.rs")),
    Station("TSF", "TSF Radio", None, Fetcher(TsfUrl)),
    Station("VRT", "VRT Nieuws", None,
            File("https://progressive-audio.lwc.vrtcdn.be/content/fixed/11_11niws-snip_hi.mp3")),
    Station("WDR", "WDR", Some("WDR.png"),
            Rss("https://www1.wdr.de/mediathek/audio/wdr-aktuell-news/wdr-aktuell-152.podcast")),
    Station("YLE", "YLE", Some("Yle.png"), Rss("https://feeds.yle.fi/areena/v1/series/1-1440981.rss"))
  ]

  /** The acronyms of a list of stations, in order. */
  function Acronyms(stations: seq<Station>): (ks: seq<string>)
    ensures |ks| == |stations|
    ensures forall i :: 0 <= i < |stations| ==> ks[i] == stations[i].acronym
  {
    seq(|stations|, i requires 0 <= i < |stations| => stations[i].acronym)
  }

  /** A dictionary keyed by acronym holding the given stations. */
  function ByAcronym(stations: seq<Station>): (t: map<string, Station>)
    requires forall i, j :: 0 <= i < j < |stations| ==> stations[i].acronym != stations[j].acronym
    ensures forall k :: k in t <==> k in Acronyms(stations)
    ensures forall i :: 0 <= i < |stations| ==> t[stations[i].acronym] == stations[i]
    ensures forall k :: k in t ==> t[k].acronym == k
  {
    var t := map s | s in stations :: s.acronym := s;
    assert forall i :: 0 <= i < |stations| ==> stations[i] in stations;
    assert forall k :: k in Acronyms(stations) ==> k in t;
    t
  }

  /** No two built-in stations share an acronym, and none of them is the custom slot. */
  lemma BuiltInAcronymsDistinct()
    ensures forall i, j :: 0 <= i < j < |BuiltIns| ==> BuiltIns[i].acronym != BuiltIns[j].acronym
    ensures forall i :: 0 <= i < |BuiltIns| ==> BuiltIns[i].acronym != CustomAcronym
  {
  }

  class StationCatalog {
    /** The dictionary's keys in insertion order (the order `stations.values()` yields). */
    var keys: seq<string>
    /** The dictionary itself. */
    var table: map<string, Station>

    /** Keys are distinct, match the table, and every key is its station's acronym. */
    ghost predicate Valid()
      reads this
    {
      && (forall i, j :: 0 <= i < j < |keys| ==> keys[i] != keys[j])
      && (forall k :: k in table <==> k in keys)
      && (forall k :: k in table ==> table[k].acronym == k)
    }

    /** The stations in dictionary order. */
    function Values(): (vs: seq<Station>)
      reads this
      requires Valid()
      ensures |vs| == |keys|
      ensures forall i :: 0 <= i < |keys| ==> vs[i] == table[keys[i]] && vs[i].acronym == keys[i]
    {
      var ks, t := keys, table;
      seq(|ks|, i requires 0 <= i < |ks| && ks[i] in t => t[ks[i]])
    }

    /** The catalog as the module defines it at import time: the built-ins and no custom station. */
    constructor ()
      ensures Valid()
      ensures keys == Acronyms(BuiltIns)
      ensures forall i :: 0 <= i < |BuiltIns| ==> table[BuiltIns[i].acronym] == BuiltIns[i]
      ensures CustomAcronym !in table
    {
      BuiltInAcronymsDistinct();
      keys := Acronyms(BuiltIns);
      table := ByAcronym(BuiltIns);
    }

    /**
     * `add_custom_station`: (re)places the station built from `url` under the key
     * "custom"; every other entry and the order of the existing keys are unchanged.
     */
    method AddCustomStation(url: string, w: World)
      requires Valid()
      modifies this
      ensures Valid()
      ensures table == old(table)[CustomAcronym := CreateCustomStation(url, w.parse(url))]
      ensures keys == if CustomAcronym in old(table) then old(keys) else old(keys) + [CustomAcronym]
      ensures table.Keys == old(table.Keys) + {CustomAcronym}
      ensures forall k :: k in old(table) && k != CustomAcronym ==> table[k] == old(table)[k]
    {
      var st := CreateCustomStation(url, w.parse(url));
      if CustomAcronym !in table {
        keys := keys + [CustomAcronym];
      }
      table := table[CustomAcronym := st];
    }
  }
}
