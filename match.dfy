/**
 * Matching an utterance to a station. Every station is scored with a fuzzy
 * similarity against its names, the best-scoring station wins, and a short explicit
 * "play the news" phrase starts the search from the default station at full confidence.
 */
module Match {
  import opened Wrappers
  import opened Text
  import opened Station

  /** A fuzzy similarity, as the host's `fuzzy_match` returns it. */
  type Score = r: real | 0.0 <= r <= 1.0

  /** The host's `fuzzy_match(a, b)`; its algorithm is not part of this model. */
  type Fuzzy = (string, string) -> Score

  // Minimum confidence levels. Only the generic level is used by the matcher itself.
  const ConfExactMatch: real := 0.9
  const ConfLikelyMatch: real := 0.7
  const ConfGenericMatch: real := 0.6

  /** The `Match` named tuple: a station (or none) and the confidence in it. */
  datatype StationMatch = StationMatch(station: Option<Station>, confidence: real)

  const NoMatch := StationMatch(None, 0.0)

  /** `phrase.lower().replace("play", "").strip()`. */
  function NamePhrase(phrase: string): string {
    Strip(RemoveAll(Lower(phrase), "play"))
  }

  /** The phrase scored against each alias of a station, in order. */
  function AliasScores(p: string, al: seq<string>, fuzzy: Fuzzy): (r: seq<real>)
    ensures forall a :: a in al ==> fuzzy(p, a) in r
    ensures forall c :: c in r ==> exists a :: a in al && c == fuzzy(p, a)
  {
    var r := seq(|al|, i requires 0 <= i < |al| => fuzzy(p, al[i]));
    assert forall i :: 0 <= i < |al| ==> r[i] == fuzzy(p, al[i]);
    r
  }

  /** The scores `match_station_name` takes the maximum of, in the order it lists them. */
  function Candidates(p: string, st: Station, aliases: Option<seq<string>>, keyword: string, fuzzy: Fuzzy)
    : (cs: seq<real>)
    ensures var acronym := Lower(st.acronym);
            && fuzzy(p, acronym) in cs && fuzzy(p, Lower(st.fullName)) in cs
            && fuzzy(p, acronym + " " + keyword) in cs
            && (aliases.Some? ==> forall a :: a in aliases.value ==> fuzzy(p, a) in cs)
            && (Contains(p, keyword) && Contains(p, acronym) ==> ConfGenericMatch in cs)
    ensures var acronym := Lower(st.acronym);
            forall c :: c in cs ==>
              || c == fuzzy(p, acronym) || c == fuzzy(p, Lower(st.fullName))
              || c == fuzzy(p, acronym + " " + keyword)
              || (aliases.Some? && exists a :: a in aliases.value && c == fuzzy(p, a))
              || (c == ConfGenericMatch && Contains(p, keyword) && Contains(p, acronym))
    ensures forall c :: c in cs ==> 0.0 <= c <= 1.0
  {
    var acronym := Lower(st.acronym);
    var fixed := [fuzzy(p, acronym), fuzzy(p, Lower(st.fullName)), fuzzy(p, acronym + " " + keyword)];
    var fromAliases := match aliases
      case None => []
      case Some(al) => AliasScores(p, al, fuzzy);
    var generic := if Contains(p, keyword) && Contains(p, acronym) then [ConfGenericMatch] else [];
    fixed + fromAliases + generic
  }

  /**
   * `match_station_name`: the confidence that `phrase` asks for `st` is one of its
   * candidate scores and at least each of them: the fuzzy scores of the cleaned phrase
   * against the lower-cased acronym, the lower-cased full name, the acronym followed by
   * the news keyword and each alias; and it is at least the generic level when the
   * cleaned phrase holds both the news keyword and the acronym.
   */
  function MatchStationName(phrase: string, st: Station, aliases: Option<seq<string>>, keyword: string,
                            fuzzy: Fuzzy): (m: StationMatch)
    ensures m.station == Some(st)
    ensures 0.0 <= m.confidence <= 1.0
    ensures var p, acronym := NamePhrase(phrase), Lower(st.acronym);
            && fuzzy(p, acronym) <= m.confidence
            && fuzzy(p, Lower(st.fullName)) <= m.confidence
            && fuzzy(p, acronym + " " + keyword) <= m.confidence
            && (aliases.Some? ==> forall a :: a in aliases.value ==> fuzzy(p, a) <= m.confidence)
            && (Contains(p, keyword) && Contains(p, acronym) ==> ConfGenericMatch <= m.confidence)
            && m.confidence in Candidates(p, st, aliases, keyword, fuzzy)
  {
    StationMatch(Some(st), Max(Candidates(NamePhrase(phrase), st, aliases, keyword, fuzzy)))
  }

  /** What the matcher needs from the skill: its vocabulary, phrases and settings. */
  datatype MatchContext = MatchContext(
    vocNews: string -> bool,                 // voc_match(phrase, 'News')
    newsPhrases: seq<string>,                // translate_list('PlayTheNews') or []
    defaultStation: Station,                 // get_default_station()
    onlyNews: string,                        // translate('OnlyNews')
    alternates: map<string, seq<string>>,    // alternate_station_names
    fuzzy: Fuzzy)

  /** `utterance.lower().replace('the', '').strip()`: the phrase the news vocabulary is checked in. */
  function SearchPhrase(utterance: string): string {
    Strip(RemoveAll(Lower(utterance), "the"))
  }

  /** The aliases configured for a station, if any. */
  function AliasesOf(ctx: MatchContext, st: Station): Option<seq<string>> {
    if st.acronym in ctx.alternates then Some(ctx.alternates[st.acronym]) else None
  }

  /**
   * `match_station_name` as the station loop applies it: to the raw utterance, with the
   * station's configured aliases and the lower-cased "OnlyNews" keyword.
   */
  function Scorer(utterance: string, ctx: MatchContext): Station -> StationMatch {
    st => MatchStationName(utterance, st, AliasesOf(ctx, st), Lower(ctx.onlyNews), ctx.fuzzy)
  }

  /** The match each station scores, in catalog order. */
  function Scores(catalog: seq<Station>, score: Station -> StationMatch): (ms: seq<StationMatch>)
    ensures |ms| == |catalog|
    ensures forall j :: 0 <= j < |catalog| ==> ms[j] == score(catalog[j])
  {
    seq(|catalog|, j requires 0 <= j < |catalog| => score(catalog[j]))
  }

  /** The match the station search starts from: the default station for an explicit news phrase. */
  function Start(utterance: string, ctx: MatchContext): StationMatch {
    if utterance in ctx.newsPhrases then StationMatch(Some(ctx.defaultStation), 1.0) else NoMatch
  }

  /**
   * `best` is the result of a strict-improvement scan of `ms` from `start`: it is
   * `start` when no score beats it, and otherwise the earliest match with the top score.
   */
  predicate BestOf(best: StationMatch, start: StationMatch, ms: seq<StationMatch>, n: nat)
    requires n <= |ms|
  {
    && start.confidence <= best.confidence
    && (forall j :: 0 <= j < n ==> ms[j].confidence <= best.confidence)
    && ((best == start && forall j :: 0 <= j < n ==> ms[j].confidence <= start.confidence)
        || exists k :: 0 <= k < n && best == ms[k] && start.confidence < ms[k].confidence
                       && forall j :: 0 <= j < k ==> ms[j].confidence < ms[k].confidence)
  }

  /**
   * The `for station in stations.values()` loop of `match_station_from_utterance`:
   * starting from `start`, a station replaces the current choice only when its
   * confidence is strictly higher.
   */
  method ScanStations(catalog: seq<Station>, score: Station -> StationMatch, start: StationMatch)
    returns (m: StationMatch)
    ensures BestOf(m, start, Scores(catalog, score), |catalog|)
  {
    m := start;
    ghost var ms := Scores(catalog, score);
    ghost var best: int := -1;  // index of the current choice in `ms`, or -1 for `start`
    var i := 0;
    while i < |catalog|
      invariant 0 <= i <= |catalog|
      invariant start.confidence <= m.confidence
      invariant forall j :: 0 <= j < i ==> ms[j].confidence <= m.confidence
      invariant best == -1 ==> m == start
      invariant best != -1 ==> 0 <= best < i && m == ms[best] && start.confidence < m.confidence
      invariant best != -1 ==> forall j :: 0 <= j < best ==> ms[j].confidence < m.confidence
    {
      var sm := score(catalog[i]);
      if sm.confidence > m.confidence {
        m := sm;
        best := i;
      }
      i := i + 1;
    }
    if best == -1 {
      assert m == start && forall j :: 0 <= j < |catalog| ==> ms[j].confidence <= start.confidence;
    } else {
      assert m == ms[best];
    }
  }

  /**
   * `match_station_from_utterance`: no station and no confidence without an utterance
   * or when the news vocabulary is absent from the search phrase; otherwise the best
   * station in catalog order, starting from the default station at full confidence for
   * an explicit news phrase, which then wins since no score exceeds 1.0.
   */
  method MatchStationFromUtterance(utterance: Option<string>, catalog: seq<Station>, ctx: MatchContext)
    returns (m: StationMatch)
    ensures utterance == None ==> m == NoMatch
    ensures utterance != None && !ctx.vocNews(SearchPhrase(utterance.value)) ==> m == NoMatch
    ensures utterance != None && ctx.vocNews(SearchPhrase(utterance.value)) ==>
              BestOf(m, Start(utterance.value, ctx), Scores(catalog, Scorer(utterance.value, ctx)), |catalog|)
    ensures utterance != None && ctx.vocNews(SearchPhrase(utterance.value)) ==>
              (utterance.value in ctx.newsPhrases ==> m == StationMatch(Some(ctx.defaultStation), 1.0))
  {
    m := NoMatch;
    if utterance == None {
      return;
    }
    var u := utterance.value;
    if !ctx.vocNews(SearchPhrase(u)) {
      return;
    }
    if u in ctx.newsPhrases {
      m := StationMatch(Some(ctx.defaultStation), 1.0);
    }
    m := ScanStations(catalog, Scorer(u, ctx), m);
  }

  /**
   * Outside the explicit phrases the result names a station exactly when some station
   * scores above zero, and then its confidence is the greatest score.
   */
  lemma {:induction false} BestIsMaximum(u: string, catalog: seq<Station>, ctx: MatchContext, m: StationMatch)
    requires u !in ctx.newsPhrases
    requires BestOf(m, Start(u, ctx), Scores(catalog, Scorer(u, ctx)), |catalog|)
    ensures var ms := Scores(catalog, Scorer(u, ctx));
            m.station.Some? <==> exists k :: 0 <= k < |catalog| && ms[k].confidence > 0.0
    ensures var ms := Scores(catalog, Scorer(u, ctx));
            m.station.Some? ==> exists k :: 0 <= k < |catalog| && m == ms[k]
                                           && forall j :: 0 <= j < |catalog| ==> ms[j].confidence <= m.confidence
  {
    var ms := Scores(catalog, Scorer(u, ctx));
    if exists k :: 0 <= k < |catalog| && ms[k].confidence > 0.0 {
      var k :| 0 <= k < |catalog| && ms[k].confidence > 0.0;
      assert m.confidence >= ms[k].confidence > 0.0;
      assert m != NoMatch;
    }
    if m != NoMatch {
      var k :| 0 <= k < |catalog| && m == ms[k] && 0.0 < ms[k].confidence;
    }
  }
}
