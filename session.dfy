/**
 * The playing session of the news skill: the download process, the title being played
 * and the message to replay, as `handle_latest_news`, `stop`, `restart_playback` and the
 * two entry points that lead to `handle_latest_news` change them. Speech, playback and
 * status messages are recorded as an ordered list of events.
 */
module Session {
  import opened Wrappers
  import opened Skill

  /** A bus message; only its data dictionary is read. */
  datatype Message = Message(data: map<string, string>)

  /** What the skill sends out, in order. */
  datatype Event =
    | Spoke(dialog: string, from: Option<string>)            // speak_dialog(name, data)
    | Played(uri: string, mime: string)                      // CPS_play((uri, mime))
    | Status(artist: string, track: string, image: string)   // CPS_send_status(...)
    | Killed(pid: nat)                                       // curl.kill()

  const NewsDialog := "news"
  const FailureDialog := "could.not.start.the.news.feed"
  const GenericLogo := "generic.png"

  /**
   * The row `handle_latest_news` plays from the table `feeds`: the requested feed when
   * it is a non-empty table key other than "other"; for anything else (no feed, an
   * unknown one, "other") the station the settings choose.
   */
  function ChooseFeed(feed: Option<string>, cfg: Config, feeds: map<string, FeedInfo>): (r: Result<FeedInfo>)
    ensures feed.Some? && feed.value != "" && feed.value in feeds && feed.value != "other" ==>
              r == Ok(feeds[feed.value])
    ensures !(feed.Some? && feed.value != "" && feed.value in feeds && feed.value != "other") ==>
              r == GetStation(cfg, feeds)
  {
    match feed
    case Some(f) => if f != "" && f in feeds && f != "other" then Ok(feeds[f]) else GetStation(cfg, feeds)
    case None => GetStation(cfg, feeds)
  }

  /** How far one run of `handle_latest_news` gets after stopping the previous session. */
  datatype Progress =
    | Failed(title: Option<string>, spawned: bool)       // an exception ended the run
    | Playing(playing: string, mime: string, image: string)
  {
    /** The value `now_playing` is left with. */
    function Title(): Option<string> {
      match this
      case Failed(t, _) => t
      case Playing(t, _, _) => Some(t)
    }

    /** Whether a download process was started. */
    predicate Spawned() {
      match this
      case Failed(_, s) => s
      case Playing(_, _, _) => true
    }
  }

  /** `image or image_path('generic.png')`, as a logo file name. */
  function LogoOf(image: Option<string>): string {
    if image.Some? && image.value != "" then image.value else GenericLogo
  }

  /**
   * The steps of `handle_latest_news` once the row is chosen and its media URL looked
   * up, each of which can raise: the HEAD request (on a missing URL too), finding the
   * MIME type, re-creating the FIFO, starting curl and starting playback.
   */
  function Launch(row: FeedInfo, url: Result<Option<string>>, env: Env): (p: Progress)
    ensures p.Playing? <==>
              && url.Ok? && url.value.Some?
              && env.head(url.value.value).Ok? && FindMime(env.head(url.value.value).value).Ok?
              && env.fifoOk && env.spawnOk && env.playOk
    ensures p.Playing? ==>
              p == Playing(row.title, FindMime(env.head(url.value.value).value).value, LogoOf(row.image))
    ensures p.Title() == Some(row.title)
    ensures p.Spawned() <==> p.Playing? || (url.Ok? && url.value.Some? && env.head(url.value.value).Ok?
                                             && FindMime(env.head(url.value.value).value).Ok?
                                             && env.fifoOk && env.spawnOk)
  {
    var title := Some(row.title);
    match url
    case Err(_) => Failed(title, false)
    case Ok(None) => Failed(title, false)
    case Ok(Some(u)) =>
      match env.head(u)
      case Err(_) => Failed(title, false)
      case Ok(resp) =>
        match FindMime(resp)
        case Err(_) => Failed(title, false)
        case Ok(mime) =>
          if !env.fifoOk || !env.spawnOk then Failed(title, false)
          else if !env.playOk then Failed(title, true)
          else Playing(row.title, mime, LogoOf(row.image))
  }

  /**
   * The whole of `handle_latest_news` after `stop`: a run that cannot choose a row
   * fails with no title; otherwise the chosen row is launched with its media URL.
   */
  function Attempt(feed: Option<string>, cfg: Config, feeds: map<string, FeedInfo>, env: Env): (p: Progress)
    ensures ChooseFeed(feed, cfg, feeds).Err? ==> p == Failed(None, false)
    ensures ChooseFeed(feed, cfg, feeds).Ok? ==>
              var row := ChooseFeed(feed, cfg, feeds).value;
              p.Title() == Some(row.title) && (p.Playing? ==> p.image == LogoOf(row.image))
  {
    match ChooseFeed(feed, cfg, feeds)
    case Err(_) => Failed(None, false)
    case Ok(row) => Launch(row, MediaUrl(row.source, env), env)
  }

  /** The events of `stop`: a kill and an empty status, only when a download was running. */
  function StopEvents(curl: Option<nat>): seq<Event> {
    if curl.Some? then [Killed(curl.value), Status("", "", "")] else []
  }

  /** The events after the intro: playback of the stream and a status naming the title, or the failure dialog. */
  function OutcomeEvents(p: Progress, streamUri: string): seq<Event> {
    if p.Playing? then [Played(streamUri, p.mime), Status("", p.playing, p.image)]
    else [Spoke(FailureDialog, None)]
  }

  /** The events of one run after `stop`: the spoken intro once the row is known, then the outcome. */
  function AttemptEvents(p: Progress, streamUri: string): seq<Event> {
    (if p.Title().Some? then [Spoke(NewsDialog, p.Title())] else []) + OutcomeEvents(p, streamUri)
  }

  class NewsSkill {
    /** The running curl download, by process id, or none. */
    var curl: Option<nat>
    /** The title of the feed being played. */
    var nowPlaying: Option<string>
    /** `(True, message)` after a successful start, as `Some(message)`; `None` otherwise. */
    var lastMessage: Option<Option<Message>>
    /** Whether the restart intent is enabled. */
    var restartEnabled: bool
    /** The process id the next curl download gets. */
    var nextPid: nat
    /** Everything the skill has spoken, played and reported, oldest first. */
    var events: seq<Event>
    /** The module-level `FEEDS` table the handlers read. */
    const feeds: map<string, FeedInfo>
    const cfg: Config
    /** `'file://' + self.STREAM`: the FIFO the download writes and playback reads. */
    const streamUri: string

    /**
     * The restart intent is enabled exactly while there is a message to replay; a
     * message to replay means a download was started for a title; a running download
     * has a process id already handed out.
     */
    ghost predicate Valid()
      reads this
    {
      && (restartEnabled <==> lastMessage.Some?)
      && (lastMessage.Some? ==> curl.Some? && nowPlaying.Some?)
      && (curl.Some? ==> curl.value < nextPid && nowPlaying.Some?)
    }

    /** `__init__` followed by `initialize`, which disables the restart intent. */
    constructor (cfg: Config, streamUri: string)
      ensures Valid()
      ensures curl == None && nowPlaying == None && lastMessage == None && !restartEnabled
      ensures events == [] && feeds == Feeds && this.cfg == cfg && this.streamUri == streamUri
    {
      this.feeds := Feeds;
      this.cfg := cfg;
      this.streamUri := streamUri;
      curl := None;
      nowPlaying := None;
      lastMessage := None;
      restartEnabled := false;
      nextPid := 0;
      events := [];
    }

    /**
     * `stop`: forgets the message to replay and disables the restart intent; kills a
     * running download, reports an empty status and answers true; leaves the title.
     */
    method Stop() returns (stopped: bool)
      requires Valid()
      modifies this
      ensures Valid()
      ensures lastMessage == None && curl == None && !restartEnabled
      ensures stopped <==> old(curl).Some?
      ensures events == old(events) + StopEvents(old(curl))
      ensures nowPlaying == old(nowPlaying) && nextPid == old(nextPid)
    {
      if lastMessage.Some? {
        restartEnabled := false;
        lastMessage := None;
      }
      stopped := false;
      if curl.Some? {
        events := events + [Killed(curl.value)];
        curl := None;
        events := events + [Status("", "", "")];
        stopped := true;
      }
    }

    /**
     * The part of `handle_latest_news` after the intro: the HEAD request for the media
     * URL, the FIFO, curl and playback, ending in the failure dialog at the first step
     * that raises; the message is kept for a restart only once playback started.
     */
    method StartStream(row: FeedInfo, url: Result<Option<string>>, message: Option<Message>, env: Env)
      requires Valid() && curl == None && lastMessage == None && nowPlaying == Some(row.title)
      modifies this
      ensures Valid()
      ensures var p := Launch(row, url, env);
              && nowPlaying == p.Title()
              && curl == (if p.Spawned() then Some(old(nextPid)) else None)
              && nextPid == old(nextPid) + (if p.Spawned() then 1 else 0)
              && lastMessage == (if p.Playing? then Some(message) else None)
              && events == old(events) + OutcomeEvents(p, streamUri)
    {
      if url.Err? || url.value.None? {
        events := events + [Spoke(FailureDialog, None)];
        return;
      }
      var resp := env.head(url.value.value);
      if resp.Err? {
        events := events + [Spoke(FailureDialog, None)];
        return;
      }
      var mime := FindMime(resp.value);
      if mime.Err? || !env.fifoOk || !env.spawnOk {
        events := events + [Spoke(FailureDialog, None)];
        return;
      }
      curl := Some(nextPid);
      nextPid := nextPid + 1;
      if !env.playOk {
        events := events + [Spoke(FailureDialog, None)];
        return;
      }
      events := events + [Played(streamUri, mime.value), Status("", row.title, LogoOf(row.image))];
      lastMessage := Some(message);
      restartEnabled := true;
    }

    /**
     * `handle_latest_news`: stops the previous session, then plays the chosen row; the
     * message is kept for a restart only when playback started, and any exception
     * ends the run with the failure dialog, keeping what was set before it.
     */
    method HandleLatestNews(message: Option<Message>, feed: Option<string>, env: Env)
      requires Valid()
      modifies this
      ensures Valid()
      ensures var p := Attempt(feed, cfg, feeds, env);
              && nowPlaying == p.Title()
              && curl == (if p.Spawned() then Some(old(nextPid)) else None)
              && nextPid == old(nextPid) + (if p.Spawned() then 1 else 0)
              && lastMessage == (if p.Playing? then Some(message) else None)
              && events == old(events) + StopEvents(old(curl)) + AttemptEvents(p, streamUri)
    {
      var _ := Stop();
      nowPlaying := None;
      var row := ChooseFeed(feed, cfg, feeds);
      if row.Err? {
        events := events + [Spoke(FailureDialog, None)];
        return;
      }
      nowPlaying := Some(row.value.title);
      events := events + [Spoke(NewsDialog, Some(row.value.title))];
      var url := GetMediaUrl(row.value.source, env);
      StartStream(row.value, url, message, env);
    }

    /** `restart_playback`: replays the kept message, with no feed, or does nothing. */
    method RestartPlayback(message: Option<Message>, env: Env)
      requires Valid()
      modifies this
      ensures Valid()
      ensures old(lastMessage) == None ==>
                && curl == old(curl) && nowPlaying == old(nowPlaying) && lastMessage == None
                && events == old(events) && nextPid == old(nextPid)
      ensures old(lastMessage) != None ==>
                var p := Attempt(None, cfg, feeds, env);
                && nowPlaying == p.Title()
                && curl == (if p.Spawned() then Some(old(nextPid)) else None)
                && nextPid == old(nextPid) + (if p.Spawned() then 1 else 0)
                && lastMessage == (if p.Playing? then old(lastMessage) else None)
                && events == old(events) + StopEvents(old(curl)) + AttemptEvents(p, streamUri)
    {
      if lastMessage.Some? {
        HandleLatestNews(lastMessage.value, None, env);
      }
    }

    /** `CPS_start`: plays the feed named in the match data, or the default station. */
    method CpsStart(data: map<string, string>, env: Env)
      requires Valid()
      modifies this
      ensures Valid()
      ensures var p := Attempt(if "feed" in data then Some(data["feed"]) else None, cfg, feeds, env);
              && nowPlaying == p.Title()
              && curl == (if p.Spawned() then Some(old(nextPid)) else None)
              && nextPid == old(nextPid) + (if p.Spawned() then 1 else 0)
              && lastMessage == (if p.Playing? then Some(None) else None)
              && events == old(events) + StopEvents(old(curl)) + AttemptEvents(p, streamUri)
    {
      if "feed" in data {
        HandleLatestNews(None, Some(data["feed"]), env);
      } else {
        HandleLatestNews(None, None, env);
      }
    }

    /**
     * `handle_latest_news_alt`: the utterance is matched like a common-play query and
     * an exact answer's feed is played; a message without an utterance raises KeyError
     * before anything changes.
     */
    method HandleLatestNewsAlt(message: Message, env: Env) returns (r: Result<()>)
      requires Valid()
      modifies this
      ensures Valid()
      ensures r.Err? <==> "utterance" !in message.data
      ensures r.Err? ==> r.fault == KeyError && events == old(events) && curl == old(curl)
                         && lastMessage == old(lastMessage) && nowPlaying == old(nowPlaying)
                         && nextPid == old(nextPid)
      ensures r.Ok? ==>
                var m := QueryAnswer(QueryPhrase(message.data["utterance"]), cfg, FeedKeys);
                var p := Attempt(if m.Some? then m.value.feed else None, cfg, feeds, env);
                && nowPlaying == p.Title()
                && curl == (if p.Spawned() then Some(old(nextPid)) else None)
                && nextPid == old(nextPid) + (if p.Spawned() then 1 else 0)
                && lastMessage == (if p.Playing? then Some(Some(message)) else None)
                && events == old(events) + StopEvents(old(curl)) + AttemptEvents(p, streamUri)
    {
      if "utterance" !in message.data {
        return Err(KeyError);
      }
      var m := MatchQueryPhrase(message.data["utterance"], cfg);
      var feed := if m.Some? then m.value.feed else None;
      HandleLatestNews(Some(message), feed, env);
      r := Ok(());
    }
  }
}
