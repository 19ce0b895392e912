/**
  The process-wide state every session shares: the session registries that the
  entry point creates empty, the publisher record as the player session reads
  it, and the server-wide event bus, kept here as the log of emitted events.
*/
module Globals {
  import opened JsText
  import opened Bytes

  /**
    A publishing session as the players see it (`IPublisher`): the ids of its
    players, what it has received so far and the cached packets a joining
    player is sent. Absent buffers (null) are None.
  */
  datatype Publisher = Publisher(
    players: set<string>,
    firstAudioReceived: bool,
    firstVideoReceived: bool,
    metaData: Option<seq<byte>>,
    aacSequenceHeader: Option<seq<byte>>,
    avcSequenceHeader: Option<seq<byte>>,
    audioCodec: int,
    videoCodec: int,
    streamPath: string,
    flvGopCacheQueue: Option<seq<seq<byte>>>)

  /** The events the modelled sessions emit, with the arguments that identify them. */
  datatype Event =
    | PreConnect(id: string)
    | PostConnect(id: string)
    | DoneConnect(id: string)
    | PrePlay(id: string, streamPath: string)
    | PostPlay(id: string, streamPath: string)
    | DonePlay(id: string, streamPath: string)
    | RelayTaskDone(id: string)
    | RelayPullDone(id: string)
    | RelayPushDone(id: string)

  /**
    The global registries: `sessions` (its keys), `publishers_paths` (stream
    path to publisher id), `idlePlayers`, `publisher_sessions`,
    `players_sessions` (its keys) and the emitted events.
  */
  class Registry {
    var sessions: set<string>
    var publishersPaths: map<string, string>
    var idlePlayers: set<string>
    var publisherSessions: map<string, Publisher>
    var playersSessions: set<string>
    var events: seq<Event>

    /** The registries as the entry point creates them: all empty. */
    constructor()
      ensures sessions == {} && publishersPaths == map[] && idlePlayers == {}
      ensures publisherSessions == map[] && playersSessions == {} && events == []
    {
      sessions := {};
      publishersPaths := map[];
      idlePlayers := {};
      publisherSessions := map[];
      playersSessions := {};
      events := [];
    }

    /** The publisher serving a stream path, if there is one. */
    function PublisherOf(path: string): (p: Option<Publisher>)
      reads this
      ensures p.Some? ==> path in publishersPaths && publishersPaths[path] in publisherSessions
    {
      if path in publishersPaths && publishersPaths[path] in publisherSessions
      then Some(publisherSessions[publishersPaths[path]])
      else None
    }
  }
}
