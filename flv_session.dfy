/**
  The HTTP/WebSocket-FLV player session: it connects, asks the listeners,
  checks the play signature, waits as an idle player when nobody publishes the
  path, and otherwise joins the publisher and is sent the FLV header, the
  sequence headers and the cached group of pictures before it counts as
  playing.

  The response is the log `written` of the chunks written to it, plus its
  status code and whether it was ended. The listeners of `preConnect` and
  `prePlay` are modelled only by whether one of them stops the session.
*/
module FlvSession {
  import opened JsText
  import opened Bytes
  import opened CoreUtils
  import opened FlvTag
  import opened Globals

  /** The `auth` section of the server configuration, when present. */
  datatype AuthConfig = AuthConfig(play: bool, secret: string)

  // ---------------------------------------------------------------------------
  // What a joining player is sent
  // ---------------------------------------------------------------------------

  /**
    The sequence-header tags a joining player is sent after the FLV header, in
    order, with their tag type and payload: the metadata when there is some,
    the AAC sequence header when the audio codec is 10 (AAC), the AVC sequence
    header when the video codec is 7 (AVC) or 12 (HEVC).
  */
  function SequenceSources(p: Publisher): seq<(int, Option<seq<byte>>)> {
    (if p.metaData.Some? then [(TAG_TYPE_SCRIPT_DATA, p.metaData)] else [])
    + (if p.audioCodec == 10 then [(TAG_TYPE_AUDIO, p.aacSequenceHeader)] else [])
    + (if p.videoCodec == 7 || p.videoCodec == 12 then [(TAG_TYPE_VIDEO, p.avcSequenceHeader)] else [])
  }

  /** `createFlvTag(new FlvPacket(payload, type))` for each source; None where it throws. */
  function TagsOf(sources: seq<(int, Option<seq<byte>>)>): seq<Option<seq<byte>>> {
    seq(|sources|, i requires 0 <= i < |sources| => CreateFlvTag(NewFlvPacket(sources[i].1, sources[i].0)))
  }

  function SequenceTags(p: Publisher): seq<Option<seq<byte>>> {
    TagsOf(SequenceSources(p))
  }

  /** The tags written before the first one whose creation throws. */
  function WrittenPrefix(tags: seq<Option<seq<byte>>>): (w: seq<seq<byte>>)
    ensures |w| <= |tags|
  {
    if tags == [] || tags[0].None? then [] else [tags[0].value] + WrittenPrefix(tags[1..])
  }

  /** What is written is the leading run of created tags, cut at the first that throws. */
  lemma {:induction false} WrittenPrefixElements(tags: seq<Option<seq<byte>>>)
    ensures var w := WrittenPrefix(tags);
      && (forall i :: 0 <= i < |w| ==> tags[i] == Some(w[i]))
      && (|w| < |tags| ==> tags[|w|].None?)
  {
    if tags != [] && tags[0].Some? {
      WrittenPrefixElements(tags[1..]);
    }
  }

  /** Every sequence-header tag can be created, so the join runs to its end. */
  predicate BackfillCompletes(p: Publisher) {
    |WrittenPrefix(SequenceTags(p))| == |SequenceTags(p)|
  }

  function GopTags(p: Publisher): seq<seq<byte>> {
    if p.flvGopCacheQueue.Some? then p.flvGopCacheQueue.value else []
  }

  /** The chunks a joining player is sent: header, sequence headers up to a failure, then the cache. */
  function Backfill(p: Publisher): seq<seq<byte>> {
    [FlvHeader(p.firstAudioReceived, p.firstVideoReceived)]
    + WrittenPrefix(SequenceTags(p))
    + (if BackfillCompletes(p) then GopTags(p) else [])
  }

  /**
    Writing `a` then `b` writes all of `a` followed by what `b` writes when no
    tag of `a` throws, and only what `a` writes otherwise.
  */
  lemma {:induction false} WrittenPrefixAppend(a: seq<Option<seq<byte>>>, b: seq<Option<seq<byte>>>)
    ensures |WrittenPrefix(a)| == |a| ==> WrittenPrefix(a + b) == WrittenPrefix(a) + WrittenPrefix(b)
    ensures |WrittenPrefix(a)| < |a| ==> WrittenPrefix(a + b) == WrittenPrefix(a)
    ensures |WrittenPrefix(a + b)| == |a + b| <==> |WrittenPrefix(a)| == |a| && |WrittenPrefix(b)| == |b|
  {
    if a == [] {
      assert a + b == b;
    } else {
      var ab := a + b;
      assert ab[0] == a[0] && ab[1..] == a[1..] + b;
      if a[0].Some? {
        WrittenPrefixAppend(a[1..], b);
        assert WrittenPrefix(ab) == [a[0].value] + WrittenPrefix(a[1..] + b);
        assert WrittenPrefix(a) == [a[0].value] + WrittenPrefix(a[1..]);
      }
    }
  }

  lemma TagsOfConcat(a: seq<(int, Option<seq<byte>>)>, b: seq<(int, Option<seq<byte>>)>)
    ensures TagsOf(a + b) == TagsOf(a) + TagsOf(b)
  {
  }

  /**
    A completed join sends the FLV header, then one tag per sequence source that
    reads back as that source's type, timestamp 0 and payload, then the cached
    tags verbatim and in queue order.
  */
  lemma BackfillLayout(p: Publisher)
    requires BackfillCompletes(p)
    ensures var b := Backfill(p); var src := SequenceSources(p); var n := |src|;
      && |b| == 1 + n + |GopTags(p)|
      && b[0] == FlvHeader(p.firstAudioReceived, p.firstVideoReceived)
      && b[1 + n..] == GopTags(p)
      && forall i :: 0 <= i < n ==>
           src[i].1.Some? && ParseFlvTag(b[1 + i]) == Some(TagFields(ByteOf(src[i].0), 0, src[i].1.value))
  {
    var tags := SequenceTags(p);
    var src := SequenceSources(p);
    var w := WrittenPrefix(tags);
    WrittenPrefixElements(tags);
    var b := Backfill(p);
    assert b == [FlvHeader(p.firstAudioReceived, p.firstVideoReceived)] + w + GopTags(p);
    forall i | 0 <= i < |src|
      ensures src[i].1.Some? && ParseFlvTag(b[1 + i]) == Some(TagFields(ByteOf(src[i].0), 0, src[i].1.value))
    {
      assert tags[i].Some?;
      assert b[1 + i] == w[i];
      assert |src[i].1.value| <= MAX_UINT24;
      ParseCreateFlvTag(src[i].1.value, src[i].0, 0);
    }
  }

  /** The sequence headers are the metadata (18), then AAC audio (8), then AVC/HEVC video (9), each iff present. */
  lemma SequenceSourceTypes(p: Publisher)
    ensures var types := seq(|SequenceSources(p)|, i requires 0 <= i < |SequenceSources(p)| => SequenceSources(p)[i].0);
      types == (if p.metaData.Some? then [18] else [])
             + (if p.audioCodec == 10 then [8] else [])
             + (if p.videoCodec == 7 || p.videoCodec == 12 then [9] else [])
  {
  }

  // ---------------------------------------------------------------------------
  // The session
  // ---------------------------------------------------------------------------


  /** What a player session's handlers read and change, as one value: its flags, the registries and its response. */
  datatype PlayState = PlayState(
    starting: bool,
    playing: bool,
    idling: bool,
    sessions: set<string>,
    publishersPaths: map<string, string>,
    idlePlayers: set<string>,
    publisherSessions: map<string, Publisher>,
    playersSessions: set<string>,
    events: seq<Event>,
    chunks: seq<seq<byte>>,
    statusCode: int,
    ended: bool)

  /** The events `stop()` emits for player `id` of `path`: `donePlay` when the path has a publisher id, then `doneConnect`. */
  function StopEvents(id: string, path: string, publishersPaths: map<string, string>): seq<Event> {
    (if path in publishersPaths then [DonePlay(id, path)] else []) + [DoneConnect(id)]
  }

  /** The publisher sessions after player `id` left the publisher of `path`. */
  function WithoutPlayer(id: string, path: string, publishersPaths: map<string, string>, publishers: map<string, Publisher>): map<string, Publisher> {
    if path in publishersPaths && publishersPaths[path] in publishers
    then
      var pid := publishersPaths[path];
      publishers[pid := publishers[pid].(players := publishers[pid].players - {id})]
    else publishers
  }

  /** The publisher id of `path` and its publisher session, when both exist. */
  function PublisherIn(v: PlayState, path: string): Option<(string, Publisher)> {
    if path in v.publishersPaths && v.publishersPaths[path] in v.publisherSessions
    then Some((v.publishersPaths[path], v.publisherSessions[v.publishersPaths[path]]))
    else None
  }

  /** The effect of `stop()` for player `id` of `path`. */
  function Stopped(v: PlayState, id: string, path: string): PlayState {
    if !v.starting then v
    else v.(starting := false, ended := true,
            publisherSessions := WithoutPlayer(id, path, v.publishersPaths, v.publisherSessions),
            events := v.events + StopEvents(id, path, v.publishersPaths),
            idlePlayers := v.idlePlayers - {id},
            sessions := v.sessions - {id})
  }

  /** The effect of `onStartPlay()` for player `id` of `path`. */
  function Joined(v: PlayState, id: string, path: string): PlayState {
    match PublisherIn(v, path)
    case None => v
    case Some((pid, p)) =>
      var complete := BackfillCompletes(p);
      v.(publisherSessions := v.publisherSessions[pid := p.(players := p.players + {id})],
         chunks := v.chunks + Backfill(p),
         playing := v.playing || complete,
         idling := v.idling && !complete,
         events := v.events + (if complete then [PostPlay(id, path)] else []))
  }

  /**
    The effect of `onPlay()` for player `id` of `path`, given whether the
    signature check rejects the request and whether a listener stops it.
  */
  function Played(v: PlayState, id: string, path: string, rejects: bool, listenerStops: bool): PlayState {
    var announced := v.(events := v.events + [PrePlay(id, path)]);
    var w := if listenerStops then Stopped(announced, id, path) else announced;
    if !w.starting then w
    else if rejects then w.(statusCode := 403, ended := true)
    else if path !in w.publishersPaths then w.(idlePlayers := w.idlePlayers + {id}, idling := true)
    else Joined(w, id, path)
  }

  /** `stop()` only appends events. */
  lemma StoppedAppendsEvents(v: PlayState, id: string, path: string)
    ensures v.events <= Stopped(v, id, path).events
  {
  }

  /** `onPlay()` first announces `prePlay` and then only appends events. */
  lemma PlayedAppendsEvents(v: PlayState, id: string, path: string, rejects: bool, listenerStops: bool)
    ensures v.events + [PrePlay(id, path)] <= Played(v, id, path, rejects, listenerStops).events
  {
    var announced := v.(events := v.events + [PrePlay(id, path)]);
    StoppedAppendsEvents(announced, id, path);
  }

  /** A second `stop()` changes nothing. */
  lemma StoppedIdempotent(v: PlayState, id: string, path: string)
    ensures Stopped(Stopped(v, id, path), id, path) == Stopped(v, id, path)
  {
  }

  /**
    A stopped player is no longer starting, is out of `sessions`, of
    `idlePlayers` and of its publisher's players, and its response is ended
    with nothing more written; `players_sessions` keeps it.
  */
  lemma StoppedLeaves(v: PlayState, id: string, path: string)
    requires v.starting
    ensures var r := Stopped(v, id, path);
      && !r.starting && r.ended && r.chunks == v.chunks
      && id !in r.sessions && id !in r.idlePlayers && r.playersSessions == v.playersSessions
      && r.publishersPaths == v.publishersPaths
      && r.publisherSessions.Keys == v.publisherSessions.Keys
      && (path in v.publishersPaths && v.publishersPaths[path] in v.publisherSessions ==>
            id !in r.publisherSessions[v.publishersPaths[path]].players)
  {
  }

  /**
    A joining player is added to its publisher's players and sent the
    backfill; a complete backfill makes it playing and not idle and emits
    `postPlay`. No other registry changes and the response is not ended.
  */
  lemma PlayedJoins(v: PlayState, id: string, path: string, rejects: bool)
    requires v.starting && !rejects && PublisherIn(v, path).Some?
    ensures var r := Played(v, id, path, rejects, false);
      var pid := v.publishersPaths[path];
      var p := v.publisherSessions[pid];
      && r.publisherSessions == v.publisherSessions[pid := p.(players := p.players + {id})]
      && id in r.publisherSessions[pid].players
      && r.chunks == v.chunks + Backfill(p)
      && r.playing == (v.playing || BackfillCompletes(p))
      && r.idling == (v.idling && !BackfillCompletes(p))
      && r.events == v.events + [PrePlay(id, path)] + (if BackfillCompletes(p) then [PostPlay(id, path)] else [])
      && r.starting && r.statusCode == v.statusCode && r.ended == v.ended
      && r.sessions == v.sessions && r.publishersPaths == v.publishersPaths
      && r.idlePlayers == v.idlePlayers && r.playersSessions == v.playersSessions
  {
  }

  /** A path with a publisher id but no publisher session: only `prePlay` is emitted. */
  lemma PlayedWithoutPublisherSession(v: PlayState, id: string, path: string, rejects: bool)
    requires v.starting && !rejects && path in v.publishersPaths && v.publishersPaths[path] !in v.publisherSessions
    ensures Played(v, id, path, rejects, false) == v.(events := v.events + [PrePlay(id, path)])
  {
  }

  /** A path nobody publishes: the player becomes idle and nothing is written. */
  lemma PlayedIdles(v: PlayState, id: string, path: string, rejects: bool)
    requires v.starting && !rejects && path !in v.publishersPaths
    ensures var r := Played(v, id, path, rejects, false);
      && r.idling && r.idlePlayers == v.idlePlayers + {id} && r.starting
      && r.chunks == v.chunks && r.statusCode == v.statusCode && r.ended == v.ended
      && r.events == v.events + [PrePlay(id, path)]
      && r.publisherSessions == v.publisherSessions && r.sessions == v.sessions
  {
  }

  /** A rejected signature: 403, the response ends, and no registry changes. */
  lemma PlayedRejected(v: PlayState, id: string, path: string)
    requires v.starting
    ensures var r := Played(v, id, path, true, false);
      && r.statusCode == 403 && r.ended && r.chunks == v.chunks && r.starting
      && r.events == v.events + [PrePlay(id, path)]
      && r.sessions == v.sessions && r.publishersPaths == v.publishersPaths && r.idlePlayers == v.idlePlayers
      && r.publisherSessions == v.publisherSessions && r.playersSessions == v.playersSessions
  {
  }

  /** A listener that stops the session: `prePlay`, then the effect of `stop()`, and nothing is played. */
  lemma PlayedStopped(v: PlayState, id: string, path: string, rejects: bool)
    ensures var r := Played(v, id, path, rejects, true);
      && !r.starting && r.chunks == v.chunks && r.statusCode == v.statusCode
      && r.events == v.events + [PrePlay(id, path)] + (if v.starting then StopEvents(id, path, v.publishersPaths) else [])
      && r.publisherSessions == (if v.starting then WithoutPlayer(id, path, v.publishersPaths, v.publisherSessions) else v.publisherSessions)
      && r.sessions == (if v.starting then v.sessions - {id} else v.sessions)
      && r.idlePlayers == (if v.starting then v.idlePlayers - {id} else v.idlePlayers)
      && r.ended == (v.starting || v.ended)
  {
  }

  /** Media is written to a player exactly when it joins a publisher. */
  lemma PlayedWritesOnlyOnJoin(v: PlayState, id: string, path: string, rejects: bool, listenerStops: bool)
    ensures Played(v, id, path, rejects, listenerStops).chunks != v.chunks
        <==> v.starting && !listenerStops && !rejects && PublisherIn(v, path).Some?
  {
    if v.starting && !listenerStops && !rejects && PublisherIn(v, path).Some? {
      var p := PublisherIn(v, path).value.1;
      assert |Played(v, id, path, rejects, listenerStops).chunks| == |v.chunks| + |Backfill(p)|;
    }
  }

  /** Whether the play signature check rejects a request for `path` with query `args`. */
  predicate AuthRejects(auth: Option<AuthConfig>, path: string, args: map<string, string>, nowMs: nat, md5: string -> string) {
    auth.Some? && auth.value.play
    && !VerifyAuth(if "sign" in args then Some(args["sign"]) else None, path, auth.value.secret, nowMs, md5)
  }

  /** The HTTP response (or WebSocket) of a session: what was written, the status, whether it was ended. */
  class Response {
    var chunks: seq<seq<byte>>
    var statusCode: int
    var ended: bool

    constructor()
      ensures chunks == [] && statusCode == 200 && !ended
    {
      chunks := [];
      statusCode := 200;
      ended := false;
    }
  }

  class FlvSession {
    const id: string
    const reg: Registry
    const res: Response
    var playStreamPath: string
    var playArgs: map<string, string>
    var starting: bool
    var playing: bool
    var idling: bool

    /**
      A new session takes a fresh session id and registers itself in
      `players_sessions`; nothing else is touched.
    */
    constructor(reg: Registry, res: Response, random: nat -> real, from: nat)
      requires IsRandomSource(random)
      modifies reg
      ensures this.reg == reg && this.res == res
      ensures id !in old(reg.sessions) && |id| > 0 && id == Drawn(SESSION_ID_CHARS, random, from, |id|)
      ensures reg.playersSessions == old(reg.playersSessions) + {id}
      ensures reg.sessions == old(reg.sessions) && reg.publishersPaths == old(reg.publishersPaths)
      ensures reg.idlePlayers == old(reg.idlePlayers) && reg.publisherSessions == old(reg.publisherSessions)
      ensures reg.events == old(reg.events)
      ensures playStreamPath == "" && playArgs == map[] && !starting && !playing && !idling
    {
      var newId, _ := GenerateNewSessionID(reg.sessions, random, from);
      id := newId;
      this.reg := reg;
      this.res := res;
      playStreamPath := "";
      playArgs := map[];
      starting := false;
      playing := false;
      idling := false;
      new;
      reg.playersSessions := reg.playersSessions + {id};
    }

    /** The session's flags, the registries and the response, as one value. */
    function View(): PlayState
      reads this, reg, res
    {
      PlayState(starting, playing, idling,
        reg.sessions, reg.publishersPaths, reg.idlePlayers, reg.publisherSessions, reg.playersSessions, reg.events,
        res.chunks, res.statusCode, res.ended)
    }

    /**
      `stop()`: only while starting, so a second call does nothing. It leaves
      the publisher's players, emits `donePlay` when the path has a publisher,
      emits `doneConnect`, ends the response and drops the id from
      `idlePlayers` and `sessions`; `players_sessions` keeps it.
    */
    method Stop()
      modifies this, reg, res
      ensures playStreamPath == old(playStreamPath) && playArgs == old(playArgs)
      ensures playing == old(playing) && idling == old(idling)
      ensures res.chunks == old(res.chunks) && res.statusCode == old(res.statusCode)
      ensures !old(starting) ==> unchanged(this) && unchanged(reg) && unchanged(res)
      ensures old(starting) ==>
        && !starting && res.ended
        && reg.publisherSessions == WithoutPlayer(id, playStreamPath, old(reg.publishersPaths), old(reg.publisherSessions))
        && reg.events == old(reg.events) + StopEvents(id, playStreamPath, old(reg.publishersPaths))
        && reg.idlePlayers == old(reg.idlePlayers) - {id}
        && reg.sessions == old(reg.sessions) - {id}
        && reg.publishersPaths == old(reg.publishersPaths)
        && reg.playersSessions == old(reg.playersSessions)
      ensures View() == Stopped(old(View()), id, playStreamPath)
    {
      if starting {
        starting := false;
        if playStreamPath in reg.publishersPaths {
          var publisherId := reg.publishersPaths[playStreamPath];
          if publisherId in reg.publisherSessions {
            var p := reg.publisherSessions[publisherId];
            reg.publisherSessions := reg.publisherSessions[publisherId := p.(players := p.players - {id})];
          }
          reg.events := reg.events + [DonePlay(id, playStreamPath)];
        }
        reg.events := reg.events + [DoneConnect(id)];
        res.ended := true;
        reg.idlePlayers := reg.idlePlayers - {id};
        reg.sessions := reg.sessions - {id};
      }
    }

    /** `res.write(createFlvTag(packet))`: false where creating the tag throws, which writes nothing. */
    method WriteTag(tagType: int, payload: Option<seq<byte>>) returns (ok: bool)
      modifies res
      ensures ok <==> |WrittenPrefix(TagsOf([(tagType, payload)]))| == 1
      ensures res.chunks == old(res.chunks) + WrittenPrefix(TagsOf([(tagType, payload)]))
      ensures res.statusCode == old(res.statusCode) && res.ended == old(res.ended)
    {
      var tag := CreateFlvTag(NewFlvPacket(payload, tagType));
      ok := tag.Some?;
      assert TagsOf([(tagType, payload)]) == [tag];
      if ok {
        assert WrittenPrefix([tag]) == [tag.value] + WrittenPrefix([]);
        res.chunks := res.chunks + [tag.value];
      }
    }

    /**
      The sequence headers of a join, written one after the other until one of
      them cannot be created; true when all of them were written.
    */
    method WriteSequenceHeaders(p: Publisher) returns (complete: bool)
      modifies res
      ensures complete == BackfillCompletes(p)
      ensures res.chunks == old(res.chunks) + WrittenPrefix(SequenceTags(p))
      ensures res.statusCode == old(res.statusCode) && res.ended == old(res.ended)
    {
      ghost var a := if p.metaData.Some? then [(TAG_TYPE_SCRIPT_DATA, p.metaData)] else [];
      ghost var b := if p.audioCodec == 10 then [(TAG_TYPE_AUDIO, p.aacSequenceHeader)] else [];
      ghost var c := if p.videoCodec == 7 || p.videoCodec == 12 then [(TAG_TYPE_VIDEO, p.avcSequenceHeader)] else [];
      ghost var ta, tb, tc := TagsOf(a), TagsOf(b), TagsOf(c);
      assert SequenceTags(p) == ta + tb + tc by {
        TagsOfConcat(a, b);
        TagsOfConcat(a + b, c);
      }
      complete := true;
      if p.metaData.Some? {
        complete := WriteTag(TAG_TYPE_SCRIPT_DATA, p.metaData);
      } else {
        assert ta == [];
      }
      assert res.chunks == old(res.chunks) + WrittenPrefix(ta);
      assert complete == (|WrittenPrefix(ta)| == |ta|);

      ghost var sent := res.chunks;
      if complete && p.audioCodec == 10 {
        complete := WriteTag(TAG_TYPE_AUDIO, p.aacSequenceHeader);
        WrittenPrefixAppend(ta, tb);
        Regroup(old(res.chunks), WrittenPrefix(ta), WrittenPrefix(tb));
      } else if complete {
        assert tb == [] && ta + tb == ta;
      } else {
        WrittenPrefixAppend(ta, tb);
      }
      assert res.chunks == old(res.chunks) + WrittenPrefix(ta + tb);
      assert complete == (|WrittenPrefix(ta + tb)| == |ta + tb|) by {
        WrittenPrefixAppend(ta, tb);
      }

      sent := res.chunks;
      if complete && (p.videoCodec == 7 || p.videoCodec == 12) {
        complete := WriteTag(TAG_TYPE_VIDEO, p.avcSequenceHeader);
        WrittenPrefixAppend(ta + tb, tc);
        Regroup(old(res.chunks), WrittenPrefix(ta + tb), WrittenPrefix(tc));
      } else if complete {
        assert tc == [] && ta + tb + tc == ta + tb;
      } else {
        WrittenPrefixAppend(ta + tb, tc);
      }
      assert complete == (|WrittenPrefix(ta + tb + tc)| == |ta + tb + tc|) by {
        WrittenPrefixAppend(ta + tb, tc);
      }
    }

    /** Writes the backfill of a join: the FLV header, the sequence headers, then the cached tags if those all succeeded. */
    method WriteBackfill(p: Publisher) returns (complete: bool)
      modifies res
      ensures complete == BackfillCompletes(p)
      ensures res.chunks == old(res.chunks) + Backfill(p)
      ensures res.statusCode == old(res.statusCode) && res.ended == old(res.ended)
    {
      var header := [FlvHeader(p.firstAudioReceived, p.firstVideoReceived)];
      res.chunks := res.chunks + header;
      complete := WriteSequenceHeaders(p);
      ghost var sent := WrittenPrefix(SequenceTags(p));
      ghost var before := res.chunks;
      assert before == old(res.chunks) + header + sent;
      if complete && p.flvGopCacheQueue.Some? {
        var queue := p.flvGopCacheQueue.value;
        for i := 0 to |queue|
          invariant res.chunks == before + queue[..i]
          invariant res.statusCode == old(res.statusCode) && res.ended == old(res.ended)
        {
          res.chunks := res.chunks + [queue[i]];
        }
        assert queue[..|queue|] == queue;
        assert res.chunks == before + GopTags(p);
      } else {
        assert res.chunks == before + (if complete then GopTags(p) else []);
      }
      assert Backfill(p) == header + sent + (if complete then GopTags(p) else []);
      Regroup(old(res.chunks), header + sent, if complete then GopTags(p) else []);
      Regroup(old(res.chunks), header, sent);
    }

    /**
      `onStartPlay()`: nothing happens unless the path has a publisher id and
      that id a publisher session. Then the player joins the publisher's players
      before anything is written, and is sent the backfill; only when every tag
      of it could be created is the session marked playing (and no longer idle)
      and `postPlay` emitted. A tag that throws ends the join after what was
      already sent, with the player still among the publisher's players.
    */
    method OnStartPlay()
      modifies this, reg, res
      ensures playStreamPath == old(playStreamPath) && playArgs == old(playArgs) && starting == old(starting)
      ensures res.statusCode == old(res.statusCode) && res.ended == old(res.ended)
      ensures reg.sessions == old(reg.sessions) && reg.publishersPaths == old(reg.publishersPaths)
      ensures reg.idlePlayers == old(reg.idlePlayers) && reg.playersSessions == old(reg.playersSessions)
      ensures old(reg.PublisherOf(playStreamPath)).None? ==> unchanged(this) && unchanged(reg) && unchanged(res)
      ensures old(reg.PublisherOf(playStreamPath)).Some? ==>
        var p := old(reg.PublisherOf(playStreamPath)).value;
        var pid := old(reg.publishersPaths[playStreamPath]);
        && reg.publisherSessions == old(reg.publisherSessions)[pid := p.(players := p.players + {id})]
        && res.chunks == old(res.chunks) + Backfill(p)
        && playing == (old(playing) || BackfillCompletes(p))
        && idling == (old(idling) && !BackfillCompletes(p))
        && reg.events == old(reg.events) + (if BackfillCompletes(p) then [PostPlay(id, playStreamPath)] else [])
      ensures View() == Joined(old(View()), id, playStreamPath)
    {
      if playStreamPath !in reg.publishersPaths {
        return;
      }
      var publisherId := reg.publishersPaths[playStreamPath];
      if publisherId !in reg.publisherSessions {
        return;
      }
      var p := reg.publisherSessions[publisherId];
      reg.publisherSessions := reg.publisherSessions[publisherId := p.(players := p.players + {id})];
      var complete := WriteBackfill(p);
      if complete {
        idling := false;
        playing := true;
        reg.events := reg.events + [PostPlay(id, playStreamPath)];
      }
    }

    /**
      `onPlay()`: emits `prePlay`; gives up when a listener stopped the session.
      A failed signature check answers 403 and ends the response without
      touching any registry; a path nobody publishes makes the player idle;
      otherwise the player joins.
    */
    method OnPlay(auth: Option<AuthConfig>, listenerStops: bool, nowMs: nat, md5: string -> string)
      modifies this, reg, res
      ensures playStreamPath == old(playStreamPath) && playArgs == old(playArgs)
      ensures View() == Played(old(View()), id, playStreamPath, AuthRejects(auth, playStreamPath, playArgs, nowMs, md5), listenerStops)
    {
      reg.events := reg.events + [PrePlay(id, playStreamPath)];
      ghost var announced := View();
      if listenerStops {
        Stop();
      }
      ghost var w := View();
      assert w == if listenerStops then Stopped(announced, id, playStreamPath) else announced;
      if !starting {
        return;
      }
      if auth.Some? && auth.value.play {
        var sign := if "sign" in playArgs then Some(playArgs["sign"]) else None;
        var verified := VerifyAuth(sign, playStreamPath, auth.value.secret, nowMs, md5);
        if !verified {
          res.statusCode := 403;
          res.ended := true;
          assert View() == w.(statusCode := 403, ended := true);
          return;
        }
      }
      if playStreamPath !in reg.publishersPaths {
        reg.idlePlayers := reg.idlePlayers + {id};
        idling := true;
        assert View() == w.(idlePlayers := w.idlePlayers + {id}, idling := true);
        return;
      }
      OnStartPlay();
    }

    /**
      `preConnect` is emitted once the session is starting; a listener may
      stop the session from inside it.
    */
    method Connect(listenerStops: bool)
      modifies this, reg, res
      ensures playStreamPath == old(playStreamPath) && playArgs == old(playArgs)
      ensures old(reg.events) + [PreConnect(id)] <= reg.events
      ensures !listenerStops ==> starting && reg.events == old(reg.events) + [PreConnect(id)]
      ensures listenerStops ==> !starting
      ensures var v := old(View()).(starting := true, events := old(reg.events) + [PreConnect(id)]);
        View() == if listenerStops then Stopped(v, id, playStreamPath) else v
    {
      starting := true;
      reg.events := reg.events + [PreConnect(id)];
      if listenerStops {
        assert View() == old(View()).(starting := true, events := old(reg.events) + [PreConnect(id)]);
        StoppedAppendsEvents(View(), id, playStreamPath);
        Stop();
      }
    }

    /**
      After `preConnect`, a session still starting emits `postConnect`; it then
      plays a GET request for `streamPath` and stops any other.
    */
    method Serve(httpMethod: string, streamPath: string, query: map<string, string>,
                 auth: Option<AuthConfig>, playListenerStops: bool, nowMs: nat, md5: string -> string)
      requires starting
      modifies this, reg, res
      ensures httpMethod == "GET" ==>
              && playStreamPath == streamPath && playArgs == query
              && old(reg.events) + [PostConnect(id), PrePlay(id, streamPath)] <= reg.events
              && View() == Played(old(View()).(events := old(reg.events) + [PostConnect(id)]),
                                  id, streamPath, AuthRejects(auth, streamPath, query, nowMs, md5), playListenerStops)
      ensures httpMethod != "GET" ==>
              && playStreamPath == old(playStreamPath) && playArgs == old(playArgs)
              && View() == Stopped(old(View()).(events := old(reg.events) + [PostConnect(id)]), id, old(playStreamPath))
    {
      reg.events := reg.events + [PostConnect(id)];
      ghost var connected := View();
      if httpMethod == "GET" {
        playStreamPath := streamPath;
        playArgs := query;
        assert View() == connected;
        PlayedAppendsEvents(connected, id, playStreamPath, AuthRejects(auth, playStreamPath, playArgs, nowMs, md5), playListenerStops);
        OnPlay(auth, playListenerStops, nowMs, md5);
        assert connected.events + [PrePlay(id, playStreamPath)] == old(reg.events) + [PostConnect(id), PrePlay(id, streamPath)];
      } else {
        Stop();
      }
    }

    /**
      `run()`: the request path up to its first '.' is the stream path. The
      session starts, emits `preConnect`, stops if a listener stopped it, emits
      `postConnect`, and then plays a GET request and stops any other.
    */
    method Run(httpMethod: string, pathname: string, query: map<string, string>,
               connectListenerStops: bool, auth: Option<AuthConfig>, playListenerStops: bool,
               nowMs: nat, md5: string -> string)
      modifies this, reg, res
      ensures old(reg.events) + [PreConnect(id)] <= reg.events
      ensures connectListenerStops ==>
              && !starting && res.ended && res.chunks == old(res.chunks)
              && reg.events == old(reg.events) + [PreConnect(id)] + StopEvents(id, old(playStreamPath), old(reg.publishersPaths))
      ensures !connectListenerStops && httpMethod != "GET" ==>
              && !starting && res.ended && res.chunks == old(res.chunks)
              && reg.events == old(reg.events) + [PreConnect(id), PostConnect(id)] + StopEvents(id, old(playStreamPath), old(reg.publishersPaths))
      ensures !connectListenerStops && httpMethod == "GET" ==>
              && playStreamPath == Split(pathname, '.')[0] && playArgs == query
              && old(reg.events) + [PreConnect(id), PostConnect(id), PrePlay(id, playStreamPath)] <= reg.events
      ensures connectListenerStops ==>
              View() == Stopped(old(View()).(starting := true, events := old(reg.events) + [PreConnect(id)]), id, old(playStreamPath))
      ensures !connectListenerStops && httpMethod != "GET" ==>
              View() == Stopped(old(View()).(starting := true, events := old(reg.events) + [PreConnect(id), PostConnect(id)]), id, old(playStreamPath))
      ensures !connectListenerStops && httpMethod == "GET" ==>
              View() == Played(old(View()).(starting := true, events := old(reg.events) + [PreConnect(id), PostConnect(id)]),
                               id, playStreamPath, AuthRejects(auth, playStreamPath, playArgs, nowMs, md5), playListenerStops)
    {
      var streamPath := Split(pathname, '.')[0];
      Connect(connectListenerStops);
      if !starting {
        Stop();
        return;
      }
      Serve(httpMethod, streamPath, query, auth, playListenerStops, nowMs, md5);
      assert old(reg.events) + [PreConnect(id)] + [PostConnect(id)] == old(reg.events) + [PreConnect(id), PostConnect(id)];
      assert old(reg.events) + [PreConnect(id)] + [PostConnect(id), PrePlay(id, streamPath)]
          == old(reg.events) + [PreConnect(id), PostConnect(id), PrePlay(id, streamPath)];
    }
  }

  /** Two calls of `stop()` have exactly the effect of one: the second changes nothing. */
  method StopTwice(s: FlvSession)
    modifies s, s.reg, s.res
    ensures !s.starting && s.res.chunks == old(s.res.chunks)
    ensures s.reg.events == old(s.reg.events) + (if old(s.starting) then StopEvents(s.id, old(s.playStreamPath), old(s.reg.publishersPaths)) else [])
    ensures s.reg.publisherSessions
         == if old(s.starting) then WithoutPlayer(s.id, old(s.playStreamPath), old(s.reg.publishersPaths), old(s.reg.publisherSessions)) else old(s.reg.publisherSessions)
    ensures s.reg.sessions == if old(s.starting) then old(s.reg.sessions) - {s.id} else old(s.reg.sessions)
    ensures s.reg.idlePlayers == if old(s.starting) then old(s.reg.idlePlayers) - {s.id} else old(s.reg.idlePlayers)
    ensures s.reg.publishersPaths == old(s.reg.publishersPaths) && s.reg.playersSessions == old(s.reg.playersSessions)
  {
    s.Stop();
    ghost var events, sessions, idle := s.reg.events, s.reg.sessions, s.reg.idlePlayers;
    s.Stop();
    assert s.reg.events == events && s.reg.sessions == sessions && s.reg.idlePlayers == idle;
  }
}
