# skill-npr-news in Dafny

A model of the news skill for the Mycroft voice assistant, with proofs about it. The skill:

- picks a news station from what the user said or configured;
- finds the audio bulletin the station currently offers (a fixed file, a custom fetcher, or the first entry of a podcast feed);
- plays it through a FIFO that a `curl` download fills.

The project models two layers of the skill:

- the newer `stations` package: the station variants, the catalog with its custom slot, the utterance matcher and the GPB fetcher;
- the older skill logic in `__init__.py`:
  - the `FEEDS` table and default-station resolution;
  - media-URL dispatch, MIME defaulting and the TSF fetcher;
  - common-play query matching;
  - the playing session that `handle_latest_news`, `stop` and `restart_playback` change.

The outside world is passed in as values:

- feedparser gives `Entries` (entries with titles and typed links);
- HTTP answers are functions from URL to `Result`;
- `fuzzy_match` is a function into `[0, 1]` and `voc_match` a predicate;
- the clock is an hour count;
- whether the FIFO, `curl` and playback start is given as booleans.

Python exceptions are the `Fault` values of an `Err` result.

Modules, one per file:

- `Wrappers` holds `Option`, `Result` and `Fault`.
- `Text` holds the Python string operations the code uses: `lower`, `strip`, `replace(x, '')`, `split`/`join` and `in`.
- `Feed` holds the link-selection rule that `RSSStation` and `get_media_url` share.
- `Station` models `stations/station.py`.
- `Catalog` models `stations/__init__.py`.
- `Match` models `stations/match.py`.
- `Gbp` models `stations/gbp.py`, which is also the `gbp` function of `__init__.py`.
- `Skill` models the pure and looping parts of `__init__.py`.
- `Session` models the `NewsSkill` object: the class `Session.NewsSkill` has the fields the handlers reassign.

The session records what the skill says, plays and reports as an ordered list of `Event`s.

## Model

| member | source | states |
|---|---|---|
| Text.Lower | stations/match.py:42 | `str.lower` keeps the length and lowers each character on its own |
| Text.Strip | stations/match.py:42 | `str.strip` cuts off exactly a leading and a trailing run of whitespace: the result is a slice of the input, everything cut off is whitespace, and the result neither starts nor ends with whitespace |
| Text.RemoveAll | stations/match.py:42 | `str.replace(pat, "")` shortens the string by a whole number of pattern lengths, and by at least one when the pattern occurs |
| Text.RemoveAllUnchanged | stations/match.py:79 | `replace(pat, "")` leaves a string unchanged exactly when the pattern does not occur in it |
| Text.Words | __init__.py:171 | `str.split()` yields non-empty words without whitespace that, run together, are the input with its whitespace taken out; there are no words exactly when the input is all whitespace |
| Text.WordsOfJoin | __init__.py:171 | splitting `' '.join(words)` gives the words back |
| Text.CollapseShape | __init__.py:171 | `' '.join(s.split())` has single inner blanks and no blank at either end |
| Text.CollapseIdempotent | __init__.py:171 | collapsing blanks twice is the same as once |
| Text.Max | stations/match.py:64 | `max` of a non-empty list is an element of the list and at least every element |
| Feed.AudioLink | stations/station.py:123-130 | the href of the first audio-typed link; otherwise the first link's href; nothing exactly when there are no links |
| Feed.ScanLinks | stations/station.py:124-130 | the link loop with `break` computes `AudioLink` |
| Feed.GetAudioFromRss | stations/station.py:120-131 | nothing for a feed without entries; otherwise the link `AudioLink` picks from the first entry |
| Feed.AudioBeatsHtml | stations/station.py:124-127 | an audio link wins over an earlier or later HTML link |
| Station.ImagePath | stations/station.py:48-56 | no path exactly when there is no image file; otherwise `images/<file>` if that file exists, else `images/generic.png` |
| Station.AsDict | stations/station.py:34-39 | exactly the keys `acronym`, `full_name` and `image_path`, each mirroring the station (`"None"` without an image) |
| Station.StripQuery | stations/station.py:105 | `split('?')[0]` is the longest prefix without `'?'`, and it stops at the first `'?'` |
| Station.StripQueryIdempotent | stations/station.py:104-105 | stripping the query twice changes nothing, and a URL without `'?'` is unchanged |
| Station.MediaUri | stations/station.py:71-106 | a file station returns its URL; a fetcher station returns exactly its getter's result; an RSS station returns the chosen feed link, query-stripped (so without `'?'`) under `https://www.npr.org/`, and AttributeError when an NPR feed has no link |
| Station.CreateCustomStation | stations/station.py:134-147 | acronym `custom`, name `Your custom station`, no image, wrapping the URL; an RSS station exactly when the feed has entries, else a file station |
| Station.CreateCustomStationAsWritten | stations/station.py:142 | the code as written raises TypeError for every URL |
| Station.CustomStationComparisonRaises | stations/station.py:142-147 | on a one-entry feed the code as written raises where the documented rule gives an RSS station |
| Catalog.ByAcronym | stations/__init__.py:25-58 | for distinct acronyms, the dictionary holds exactly those keys and maps each key to the station with that acronym |
| Catalog.BuiltInAcronymsDistinct | stations/__init__.py:25-58 | the built-in acronyms are distinct and none of them is `custom` |
| Catalog.StationCatalog.Values | stations/match.py:93 | `stations.values()` lists the stations in key order, each under its own acronym |
| Catalog.StationCatalog.constructor | stations/__init__.py:25-58 | the catalog starts with the built-ins in table order, each key is its station's acronym, and there is no `custom` entry |
| Catalog.StationCatalog.AddCustomStation | stations/__init__.py:61-63 | only the `custom` key is written, with the custom station for the URL; all other entries are unchanged; the key set grows by at most `custom`; the invariant holds. It builds the station with the corrected `create_custom_station` (see Findings): as written, the call raises TypeError and the dictionary is left unchanged |
| Match.AliasScores | stations/match.py:55-56 | the alias scores are exactly the phrase scored against some alias, and every alias is scored |
| Match.Candidates | stations/match.py:48-62 | the candidate list holds the scores against the acronym, the full name, `acronym keyword` and every alias, plus 0.6 when the phrase holds both keyword and acronym, and nothing else; all lie in [0, 1] |
| Match.MatchStationName | stations/match.py:30-65 | returns the given station; its confidence is a candidate score, at least every fuzzy candidate score, at least 0.6 when keyword and acronym are both in the cleaned phrase, and within [0, 1] |
| Match.ScanStations | stations/match.py:93-97 | the strict `>` scan ends with the start match when nothing beats it; otherwise the earliest station with the top score; it is at least every score |
| Match.MatchStationFromUtterance | stations/match.py:68-99 | `Match(None, 0.0)` without an utterance or without the news vocabulary in the search phrase; otherwise the best scan result; an explicit news phrase keeps the default station at 1.0 |
| Match.BestIsMaximum | stations/match.py:91-99 | outside explicit phrases, a station is chosen exactly when some score is positive, and it is a top-scoring station |
| Gbp.LastEnd | stations/gbp.py:35 | the greedy `.+` capture: the last closing quote after `.mp3` on the same line |
| Gbp.SearchFrom | stations/gbp.py:35 | `re.search` finds the leftmost match, with its greedy end |
| Gbp.FindMp3Href | stations/gbp.py:35-40 | nothing exactly when no `href="….mp3"` occurs in the page; otherwise the captured text directly follows `href="`, ends in `.mp3` and holds no line break |
| Gbp.FindsTheLink | stations/gbp.py:35-40 | for every page made of text without `href="`, then `href="`, an mp3 URL on one line and a quote, then text with no other quoted `.mp3` on that line, the search yields that URL |
| Gbp.HeadlineMp3 | stations/gbp.py:21-40 | the page request fails without a GPB Headlines entry; IndexError for a headlines entry without links; otherwise the page of its first link is fetched, a fetch error passes through, and that page's search result is returned; a found URL ends in `.mp3` and holds no line break |
| Gbp.GetUrl | stations/gbp.py:24-40 | the loop keeps the first headlines entry's first link, then searches the page, as `HeadlineMp3` says |
| Skill.FeedKeysAreFeeds | __init__.py:89-133 | the ordered key list and the `FEEDS` table have the same keys, without repeats |
| Skill.GetStation | __init__.py:197-215 | a configured station that is a table key wins; then a non-empty custom URL under the custom title without an image; then the country default; then NPR; a missing key is KeyError |
| Skill.GetStationOverFeeds | __init__.py:202-213 | over `FEEDS`, a custom URL plays as "Your custom feed", a country without a default gets NPR, and only a country default missing from the table fails |
| Skill.CustomSelectionIgnoresUrl | __init__.py:202-203 | selecting `custom` or `other` takes the URL-less row, so the configured custom URL is unused and fetching the media raises |
| Skill.FindMime | __init__.py:140-145 | the `content-type` header for a 2xx answer (KeyError without it); `audio/mpeg` for any other status |
| Skill.ProbeOffsetIsTriangular | __init__.py:49-50 | probe k looks k(k+1)/2 hours back: 0, 1, 3, 6, 10 |
| Skill.FirstHit | __init__.py:49-54 | the first of the remaining probes whose request answers 200, with every earlier one missing |
| Skill.ProbeUrl | __init__.py:41-57 | nothing exactly when none of the five probes answers 200; otherwise the URI of the first probe that does |
| Skill.FirstHitIs | __init__.py:49-54 | a hit after only misses (or five misses) is what `FirstHit` finds |
| Skill.Tsf | __init__.py:41-57 | the probe loop returns `ProbeUrl` |
| Skill.TsfSkipsTwoHoursAgo | __init__.py:49-50 | at any time, when only the bulletin of two hours ago exists, `tsf` never requests it and returns nothing |
| Skill.MediaUrl | __init__.py:217-238 | a callable's result; an `.mp3` URL unchanged; AttributeError for a missing URL; IndexError for an empty feed; UnboundLocalError for an entry without links; otherwise the first entry's audio link, else its first link |
| Skill.GetMediaUrl | __init__.py:217-238 | the dispatch with the TSF loop, the GPB loop and the link loop computes `MediaUrl` |
| Skill.FirstNameMatch | __init__.py:175-184 | the first name, in order, that the phrase matches above 0.7 (alone or followed by the word for news), with none before it |
| Skill.QueryAnswer | __init__.py:165-187 | the first matching feed key gives EXACT for that key; alternate names are tried only when no key matches; then `("news", TITLE)` when the news vocabulary matches; otherwise nothing |
| Skill.QueryAnswerNamesFeed | __init__.py:175-187 | an exact answer always names a feed that is a key or an alternate target; every other answer is `("news", TITLE)` |
| Skill.ExactAnswerNamesKeyOrAlias | __init__.py:175-184 | with the real table, an exact answer's feed is a `FEEDS` key or an alternate target |
| Skill.FindMatchingName | __init__.py:175-184 | the early-return loop finds `FirstNameMatch` |
| Skill.AnswerQuery | __init__.py:174-187 | the two loops and the vocabulary test compute `QueryAnswer` |
| Skill.MatchQueryPhrase | __init__.py:165-187 | `CPS_match_query_phrase` answers `QueryAnswer` for the lower-cased phrase with collapsed blanks, over the `FEEDS` keys in table order |
| Session.ChooseFeed | __init__.py:258-261 | an explicit feed is used only when it is a non-empty table key other than `other`; otherwise `get_station` decides |
| Session.Launch | __init__.py:266-285 | playback starts exactly when the URL exists, the HEAD request and MIME lookup succeed, and the FIFO, curl and play all succeed; then it plays the row's title with the response's MIME type and the row's logo, else the generic logo; curl was started exactly when every step before play succeeded |
| Session.Attempt | __init__.py:254-290 | a run that cannot choose a row ends without a title; otherwise `now_playing` is the chosen row's title and a started run shows the row's logo |
| Session.NewsSkill.constructor | __init__.py:148-159 | no download, no title and no message to replay; the restart intent is disabled |
| Session.NewsSkill.Stop | __init__.py:298-314 | afterwards there is no message to replay, no download and the restart intent is disabled; it answers true and emits a kill and one empty status exactly when a download existed; the title is kept |
| Session.NewsSkill.StartStream | __init__.py:266-290 | the first failing step adds the failure dialog; curl is kept once spawned; the message is kept for a restart only after play succeeded |
| Session.NewsSkill.HandleLatestNews | __init__.py:252-290 | stop first; then the title, process, message to replay and events all follow `Attempt`; the message is kept only when playback started; any failure speaks `could.not.start.the.news.feed` |
| Session.NewsSkill.RestartPlayback | __init__.py:292-296 | a no-op without a message to replay; otherwise `handle_latest_news` with that message and no feed: title, download, process counter, message and events follow `Attempt` for the default choice |
| Session.NewsSkill.CpsStart | __init__.py:189-195 | plays the match data's feed, or the default station without one; title, download, process counter, message and events follow `Attempt` for that choice |
| Session.NewsSkill.HandleLatestNewsAlt | __init__.py:239-250 | KeyError and no change without an utterance; otherwise plays the feed of an exact query answer, or the default station, with title, download, process counter, message and events following `Attempt` for that choice |

The session invariant `Session.NewsSkill.Valid` is kept by every handler. It states three things:

- the restart intent is enabled exactly while there is a message to replay;
- a message to replay implies a running download and a title;
- a running download implies a title.

The `Stop` and `RestartPlayback` contracts together show that `restart_playback` after `stop` changes nothing.

Some behaviour of the code that is easy to misread:

- `restart_playback` calls `handle_latest_news(message)` without a feed (__init__.py:296). So it plays the station `get_station` picks, not the feed played last.
- `stop` leaves `now_playing` as it was. It calls `kill` only, with no terminate-then-kill escalation.
- `tsf` moves the date back by `i` more hours on each pass, so the probes look 0, 1, 3, 6 and 10 hours back, not at each of the five preceding hours.
- The `FEEDS` table spells the OE3 title `Ö3 Nachrichten`. The station catalog spells it as `stations/__init__.py` has it, `Ã–3 Nachrichten`, in characters U+00C3 U+2013.

## Definitions

These members define what the code computes and are used by the contracts above; their own contracts, where they have one, only describe their shape.

- Text.Concat: `''.join(words)`, used to state what `str.split()` keeps.
- Text.DropSpaces: a string without its whitespace, used to state what `str.split()` keeps.
- Text.IsSpace: the characters Python's `str.isspace` accepts, which `str.split()` and `str.strip()` drop.
- Text.Contains: Python's `sub in s` (stations/match.py:60-61, stations/station.py:125, stations/gbp.py:28).
- Text.StartsWith: `str.startswith` (stations/station.py:104).
- Text.JoinSpace: `' '.join(words)` (__init__.py:171).
- Text.Collapse: `' '.join(s.split())` (__init__.py:171).
- Feed.IsAudio: the `'audio' in link['type']` test (stations/station.py:125).
- Feed.FeedAudio: the first entry's links as `get_audio_from_rss` reads them (stations/station.py:120-131).
- Station.PyStr: `str(self.image_path)`, which is `"None"` without an image (stations/station.py:38).
- Catalog.Acronyms: the acronyms of the built-in stations in table order (stations/__init__.py:25-58).
- Match.NamePhrase: `phrase.lower().replace("play", "").strip()` (stations/match.py:42).
- Match.SearchPhrase: `utterance.lower().replace('the', '').strip()` (stations/match.py:79).
- Match.Start: the match the scan starts from, at 1.0 for an explicit news phrase (stations/match.py:85-89).
- Match.AliasesOf: `alternate_station_names.get(station.acronym)` (stations/match.py:94).
- Match.Scores: the scores the loop compares, station by station (stations/match.py:93-95).
- Match.Scorer: `match_station_name(utterance, station, aliases, news_keyword)` with the keyword lower-cased (stations/match.py:92-95).
- Gbp.IsHeadlines: the `'GPB'` and `'Headlines'` title test (stations/gbp.py:28).
- Gbp.IsEnd and Gbp.MatchAt: where a match of `href="(?P<mp3>.+\.mp3)"` can start and end (stations/gbp.py:35).
- Skill.ProbeOffset: the hours probe `k` looks back (__init__.py:50).
- Skill.Hit: the probe of hour `k` answers `status == 200` (__init__.py:49, 53).
- Skill.FeedNameMatches: the fuzzy test of the phrase against a name, alone or with the word for news appended directly (__init__.py:167-169).
- Skill.NameMatches: `match_feed_name(phrase, name.lower())` (__init__.py:176, 181).
- Skill.QueryPhrase: the lower-cased phrase with collapsed blanks (__init__.py:171).
- Skill.Setting: `self.settings.get(key, default)` (__init__.py:200-201).
- Skill.AltNames: the alternate names in settings order (__init__.py:180).
- Skill.IsDirectPlay: the test that a media URL is used as it is (__init__.py:222).
- Session.LogoOf: the row's image, else the generic logo (__init__.py:282).
- Session.StopEvents: what `stop` emits for a running download, the kill and the empty status (__init__.py:307, 313).
- Session.OutcomeEvents: what a run of `handle_latest_news` emits after the intro: playback and status, or the failure dialog (__init__.py:281-282, 290).
- Session.AttemptEvents: the intro `news` dialog once the row is known, then the outcome (__init__.py:264, 281-282, 290).

## Left out

- Network, feed parsing, file system and processes: `feedparser.parse`, `requests`, `os.mkfifo`/`os.remove` and `subprocess.Popen` are inputs. They are either values or functions passed in (`Env`, `World`), or booleans saying whether a step succeeds. `curl` is a process id from a counter.
- Speech, playback, intents and bus messages are recorded as `Event`s or as the `restartEnabled` flag. `wait_while_speaking`, logging and the status dict's `skill`/`status` keys are left out.
- `fuzzy_match`, `voc_match`, `translate`, `translate_list` and `translate_namedvalues` are parameters. Only the [0, 1] range of `fuzzy_match` is assumed.
- Text.Lower: lowers ASCII letters only; Python's Unicode case mapping is not modelled.
- Skill.Tsf: `requests.get` in `tsf` (__init__.py:53) is a status function that cannot raise. A raising request and a run without any hit both end in the failure dialog of `handle_latest_news`, so the outcome is the same.
- Time-zone and calendar arithmetic in `tsf` (`now_local`, `timezone('Portugal')`, `timedelta`, day rollover) is left out. Time is an hour count, and the URI of an hour is an input.
- The `file://<skill directory>/` prefix of `image_path` and of the stream path, `str` of a `Path`, and `quote(url, safe=":/")` in the curl arguments are left out.
- `stations/abc.py` and `stations/rainews.py` scrape HTML and JSON over the network. Every `FetcherStation` getter is an oracle returning a URL, `None` or an exception.
- `test/behave/steps/news_steps.py` is an integration harness and is not part of this model.
- The GPB page is searched as text. The byte pattern and `decode('utf-8')` of the source are left out.
- Session.NewsSkill.Stop: a failing `kill` is not modelled separately. The source catches it and ends in the same state.
- Session.NewsSkill.CpsStart: `data` is a dictionary. A missing `data` behaves like an empty one, as it does in the source.
- The alternate feed names are an ordered list of pairs, in the order the locale file lists them.
- Skill.QueryAnswer: takes the table's key order as a parameter. `MatchQueryPhrase` passes the real `FEEDS` keys.
- Skill.GetStation: takes the table as a parameter. `NewsSkill` holds `FEEDS` and its constructor says so.

## Findings

| source | as written | input that shows it | evidently intended | confidence | as-written member | corrected member |
|---|---|---|---|---|---|---|
| stations/station.py:142 | `feedparser.parse(station_url).entries > 0` orders a list against an int, which raises TypeError in Python 3 | any custom URL, e.g. one whose feed has one entry | an RSS station when the feed has at least one entry, else a file station | high; not executed | Station.CreateCustomStationAsWritten | Station.CreateCustomStation |
