# MediaServer core in Dafny

This project models the core of a Node.js streaming media server, MediaServer. Publishers send RTMP streams to the server. Players receive them over HTTP-FLV or WebSocket-FLV. Published streams can be transmuxed by ffmpeg into HLS, DASH or mp4, with HLS segments uploaded to storage. Streams can also be relayed to or from other RTMP servers.

The model covers these parts, one Dafny module each:

- **RtmpVars and RtmpPacket.** The RTMP wire constants and the packet records.
  - The constants cover the handshake and parser states, the chunk types and their message-header sizes, chunk-stream ids and message type ids. Header sizes follow section 5.3.1.2 of the Adobe RTMP Specification 1.0; the protocol-control type ids 1, 2, 3, 5 and 6 follow its section 5.4, the user-control type id 4 its section 6.2, and the command, data, audio, video and aggregate type ids 8, 9, 15-20 and 22 its section 7.1.
  - The pre-built protocol-control messages are kept as hex text and decoded.
- **FlvTag.** The FLV tag packer and the 13-byte FLV file header. These follow sections E.2, E.3 and E.4.1 of the Adobe Flash Video File Format Specification 10.1.
- **FlvSession.** The player session as a class.
  - It flips `starting`, `playing` and `idling`.
  - It updates the shared registries, which live in `Globals.Registry`.
  - The response is an append-only log of written chunks, with a status code and an ended flag.
- **CoreUtils.** Stream-signature verification, the session-id and name generators, and the ffmpeg download URL.
- **FfmpegTask.** One transmuxing task.
  - Pure helpers: argument lookup, file kinds, playlist scanning, `hlsFlags` tokens and the ffmpeg command line.
  - A class with the segment/playlist bookkeeping, the upload tick and the cleanup on stop.
- **TransmuxServer.** Starts one task per configured task of a published stream's app and keeps the running task by session id.
- **RelayServer.** The static, pull and push relay handlers.
  - They rewrite task configurations in place and build edge and local URLs.
  - They keep the static and dynamic session maps.
- **ApiKeyAuth.** The API-key check.
- **Support modules.**
  - `JsText`: the JavaScript string operations the code relies on (`split`, `parseInt`, `lastIndexOf`, the `/\/(.*)\/(.*)/` stream-path pattern).
  - `Bytes`: big-endian numbers and hex text.

## Foreign calls and the environment

The outside world is passed in as parameters:

- MD5 is `md5: string -> string`.
- `Date.now()` is `nowMs`.
- `Math.random()` is `random: nat -> real`, where `random(k)` is the k-th draw, in [0, 1). The callers thread the draw counter.
- `path.join` is `join`.
- The `dateFormat` stamp of an mp4 file is `stamp`.
- `fs.existsSync`, `readFile` and `readdir` are `fileExists`, `read` and `readdir`.
- `querystring.encode` is `encode`.
- The relay's `publishers.has(streamPath)` is `published`.
- The publisher's player set looked up in `onDonePlay` is `players`.

What the code hands to the outside world is logged instead of performed:

- the argv given to `spawn`;
- storage uploads as (key, contents);
- unlinked paths;
- emitted events;
- relay sessions run.

## Model

| member | source | states |
|---|---|---|
| RtmpVars.HeaderSizeMatchesLayout | src/RTMP/vars.ts:19-22 | `rtmpHeaderSize[fmt]` is the total width of the fields each chunk type carries: 11, 7, 3, 0 |
| RtmpVars.HeaderFieldsByType | src/RTMP/vars.ts:19-22 | only type 0 carries the absolute timestamp and the message stream id; type 3 carries no field |
| RtmpVars.ChunkHeaderMax | src/RTMP/vars.ts:17 | 18 = 3-byte largest basic header + 11-byte type-0 header + 4-byte extended timestamp |
| RtmpVars.StateAndTypeCodes | src/RTMP/vars.ts:5-58 | handshake states 0..3 and parse states 0..4 are consecutive; the protocol-control types are {1,2,3,5,6}; the event type 4 is separate; control, media and command/data types are pairwise disjoint |
| RtmpVars.ParseType0Chunk | src/RTMP/vars.ts:19-30 | a parsed type-0 chunk has fmt < 4 and a chunk-stream id in 2..63 re-encoding to its first byte; the type id is byte 7 and the payload follows the 12-byte header |
| RtmpVars.ControlTemplate | src/RTMP/vars.ts:74-78 | a control template is 12 + length bytes long |
| RtmpVars.ControlTemplateIsControlMessage | src/RTMP/vars.ts:74-78 | a template is fmt 0 on the protocol channel, with timestamp 0 and stream id 0; its length field equals the bytes after the header and its type byte is the given type |
| RtmpVars.AckTemplate | src/RTMP/vars.ts:74 | the ACK hex decodes to a type-3 control message with a 4-byte body |
| RtmpVars.WindowAckTemplate | src/RTMP/vars.ts:75 | the window-ack hex decodes to a type-5 control message with a 4-byte body |
| RtmpVars.PeerBandwidthTemplate | src/RTMP/vars.ts:76-77 | the peer-bandwidth hex decodes to a type-6 message with a 5-byte body, and the chunk-size hex decodes to the same bytes |
| RtmpVars.StreamStatusTemplate | src/RTMP/vars.ts:78 | the stream-status hex decodes to a type-4 message with a 6-byte body |
| RtmpVars.TemplateFromHex | src/RTMP/vars.ts:74-78 | any hex text of the templates' shape decodes to the control template of its length and type |
| RtmpVars.ControlTemplateHex | src/RTMP/vars.ts:74-78 | hex-encoding a template gives the text pattern the constants are written in |
| Bytes.BigEndianRoundTrip | src/FLV/FlvSession.ts:280 | a number below 256^width written big-endian in `width` bytes reads back as itself |
| Bytes.HexRoundTrip | src/RTMP/vars.ts:74-78 | decoding the hex encoding of bytes gives the bytes back |
| Bytes.HexEncodeAppend | src/RTMP/vars.ts:74-78 | hex encoding distributes over concatenation |
| RtmpPacket.NewRtmpPacketHeader | src/RTMP/RtmpPacket.ts:1-8 | a new header takes fmt and cid from its arguments; timestamp, length, type and stream id are 0 |
| RtmpPacket.NewRtmpPacket | src/RTMP/RtmpPacket.ts:10-20 | a new packet owns a header built from its fmt and cid; clock, capacity and bytes are 0 and there is no payload |
| RtmpPacket.NewRtmpPacketDefaults | src/RTMP/RtmpPacket.ts:7-19 | omitted arguments mean fmt 0 and cid 0, and the packet header carries the constructor's fmt and cid |
| FlvTag.NewFlvPacket | src/FLV/FlvSession.ts:9-27 | the header length is the payload length (0 without a payload); timestamp and type are the arguments |
| FlvTag.CreateFlvTag | src/FLV/FlvSession.ts:276-289 | a tag exists exactly when there is a payload and its length fits 24 bits; it is payload length + 15 bytes long |
| FlvTag.CreateFlvTagLayout | src/FLV/FlvSession.ts:276-289 | byte 0 is the type, bytes 1..3 the length, bytes 8..10 zero, the payload verbatim at 11, the last four bytes 11 + length, and the timestamp readable back modulo 2^32 |
| FlvTag.TimestampBytesValue | src/FLV/FlvSession.ts:281-284 | bytes 4..6 hold timestamp bits 23..0 and byte 7 holds bits 31..24, so together they give the timestamp modulo 2^32 |
| FlvTag.TagTimestamp | src/FLV/FlvSession.ts:281-284 | the timestamp read back from a tag is a 32-bit value |
| FlvTag.ParseFlvTag | src/FLV/FlvSession.ts:276-289 | a tag that parses is 15 bytes longer than its payload |
| FlvTag.ParseCreateFlvTag | src/FLV/FlvSession.ts:276-289 | parsing a created tag gives back its type byte, its timestamp modulo 2^32 and its payload |
| FlvTag.FlvHeader | src/FLV/FlvSession.ts:230-240 | the FLV header is 13 bytes |
| FlvTag.FlvHeaderLayout | src/FLV/FlvSession.ts:230-240 | the header starts "FLV", version 1, with data offset 9 and a zero PreviousTagSize0; flag bit 2 is set iff audio was received, bit 0 iff video was, and no other bit is set |
| Globals.Registry.constructor | src/main.ts:13-23 | all registries start empty |
| Globals.Registry.PublisherOf | src/FLV/FlvSession.ts:212-226 | a publisher is found only when the path has a publisher id and that id has a session |
| FlvSession.WrittenPrefixElements | src/FLV/FlvSession.ts:244-260 | what is written is the leading run of created tags, each the tag of its source |
| FlvSession.WrittenPrefixAppend | src/FLV/FlvSession.ts:244-266 | writing two runs of tags is writing the first, then the second only if the first ran to its end |
| FlvSession.SequenceSourceTypes | src/FLV/FlvSession.ts:244-260 | the sequence tags are metadata (18) iff there is metadata, then audio (8) iff the codec is 10, then video (9) iff the codec is 7 or 12, in that order |
| FlvSession.BackfillLayout | src/FLV/FlvSession.ts:229-266 | a completed join sends the header, then one tag per sequence source that reads back as its type, timestamp 0 and payload, then the cached tags verbatim and in queue order |
| FlvSession.FlvSession.constructor | src/FLV/FlvSession.ts:49-74 | a new session has a fresh session id and is added to `players_sessions` only |
| FlvSession.FlvSession.Stop | src/FLV/FlvSession.ts:142-161 | only while starting: leaves the publisher's players, emits `donePlay` iff the path has a publisher, then `doneConnect`; ends the response; drops the id from `idlePlayers` and `sessions`, not from `players_sessions`; otherwise nothing changes. Its whole new state is `Stopped` of the old one |
| FlvSession.StoppedIdempotent | src/FLV/FlvSession.ts:142-144 | a second `stop()` leaves the state as the first left it |
| FlvSession.StoppedLeaves | src/FLV/FlvSession.ts:142-161 | a stopped player is no longer starting, is out of `sessions`, `idlePlayers` and its publisher's players, its response is ended with nothing more written, and `players_sessions` keeps it |
| FlvSession.StopTwice | src/FLV/FlvSession.ts:142-161 | two calls of `stop()` have exactly the effect of one |
| FlvSession.FlvSession.WriteTag | src/FLV/FlvSession.ts:244-260 | writing a tag appends it, or nothing when creating it throws |
| FlvSession.FlvSession.WriteSequenceHeaders | src/FLV/FlvSession.ts:244-260 | appends the sequence-header tags up to the first that throws and reports whether none threw |
| FlvSession.FlvSession.WriteBackfill | src/FLV/FlvSession.ts:229-266 | appends the header, the sequence headers and then the cache, in that order |
| FlvSession.FlvSession.OnStartPlay | src/FLV/FlvSession.ts:211-274 | without a publisher id or publisher session nothing changes; otherwise the player joins the publisher's players, the backfill is appended, and only a complete join marks it playing and not idle and emits `postPlay`. Its whole new state is `Joined` of the old one |
| FlvSession.FlvSession.OnPlay | src/FLV/FlvSession.ts:178-209 | its whole new state is `Played` of the old one: `prePlay` first; a stopping listener gives the effect of `stop()`; a session no longer starting stops there; a failed signature gives 403 and ends the response; an unpublished path makes the player idle; otherwise `onStartPlay()` |
| FlvSession.PlayedStopped | src/FLV/FlvSession.ts:178-182 | a listener that stops the session: `prePlay` then exactly the events, registry changes and ended response of `stop()`, and nothing is written |
| FlvSession.PlayedRejected | src/FLV/FlvSession.ts:183-196 | a rejected signature answers 403 and ends the response; only `prePlay` is emitted and no registry changes |
| FlvSession.PlayedIdles | src/FLV/FlvSession.ts:199-206 | a path nobody publishes adds the player to `idlePlayers` and marks it idle; nothing is written and no other registry changes |
| FlvSession.PlayedWithoutPublisherSession | src/FLV/FlvSession.ts:220-226 | a publisher id without a publisher session: only `prePlay` is emitted and nothing else changes |
| FlvSession.PlayedJoins | src/FLV/FlvSession.ts:208-274 | a joining player is added to its publisher's players and sent the backfill; a complete backfill makes it playing and not idle and emits `postPlay`; sessions, paths, idle players and `players_sessions` are unchanged and the response stays open |
| FlvSession.PlayedWritesOnlyOnJoin | src/FLV/FlvSession.ts:178-274 | media is written to a player iff it is still starting, no listener stopped it, the signature passed and its path has a publisher session |
| FlvSession.StoppedAppendsEvents | src/FLV/FlvSession.ts:142-161 | `stop()` only appends to the events emitted so far |
| FlvSession.PlayedAppendsEvents | src/FLV/FlvSession.ts:178-209 | `onPlay()` first emits `prePlay` for the path and then only appends events |
| FlvSession.FlvSession.Connect | src/FLV/FlvSession.ts:119-125 | the session starts and emits `preConnect`; when a listener stops it, the whole new state is `Stopped`, otherwise nothing else changes |
| FlvSession.FlvSession.Serve | src/FLV/FlvSession.ts:130-139 | a session still starting emits `postConnect`; a GET then plays the stream path with the query as arguments, its whole new state being `Played`, and any other method gives `Stopped` |
| FlvSession.FlvSession.Run | src/FLV/FlvSession.ts:107-140 | emits `preConnect`; a stopping listener gives the effect of `stop()`; a non-GET request stops after `postConnect`; a GET plays the path before the first '.' with the query as arguments, its whole new state being `Played` of the started, connected state |
| CoreUtils.UnixSeconds | src/node_core_utils.js:31 | the current time in whole seconds, for clocks within the 32-bit range |
| CoreUtils.VerifyAuth | src/node_core_utils.js:27-41 | an absent signature fails; success needs a '-' and an expiry that has not passed |
| CoreUtils.VerifyAuthSigned | src/node_core_utils.js:31-40 | `exp-digest[-...]` passes iff exp ≥ now and digest = md5(`streamId-exp-secret`); text after a second '-' is ignored and exp = now is accepted |
| CoreUtils.SignVerifies | src/node_core_utils.js:31-40 | a signature made with the secret verifies exactly until its expiry second |
| CoreUtils.VerifyAuthNeedsDigest | src/node_core_utils.js:33-40 | a signature without '-' has no digest field and always fails |
| CoreUtils.VerifyAuthNaNExpiry | src/node_core_utils.js:32-40 | an expiry that is not a number is never past; the digest is then compared with md5(`streamId-NaN-secret`) |
| CoreUtils.DrawnFromAlphabet | src/node_core_utils.js:10 | every drawn character is in the alphabet |
| CoreUtils.DrawnPrefix | src/node_core_utils.js:8-12 | draws are consumed in order: a longer run extends a shorter one |
| CoreUtils.AppendDraws | src/node_core_utils.js:9-11 | the inner loop appends the next `count` drawn characters |
| CoreUtils.DrawUntilUnused | src/node_core_utils.js:8-12 | the result is not taken; its length is a positive multiple of 8; every shorter 8-multiple prefix was taken, since the accumulator is not reset |
| CoreUtils.NextRound | src/node_core_utils.js:8-12 | one retry round adds eight draws and keeps the earlier taken prefixes |
| CoreUtils.GenerateNewSessionID | src/node_core_utils.js:4-14 | the id is not a key of `sessions`; it is a positive multiple of 8 long and uses only upper-case letters other than 'X' and digits |
| CoreUtils.SessionIdChar | src/node_core_utils.js:6 | the session-id alphabet is A–Z without 'X', plus digits |
| CoreUtils.NameChar | src/node_core_utils.js:18 | the name alphabet is a–z and digits |
| CoreUtils.GenRandomName | src/node_core_utils.js:16-25 | exactly four characters from [a-z0-9], using four draws |
| CoreUtils.GetFFmpegUrl | src/node_core_utils.js:63-80 | darwin, win32 and linux get their fixed URLs; every other platform, and only those, gets the ffmpeg.org page |
| JsText.JoinSplit | src/node_core_utils.js:32-33 | joining the fields of `split` gives back the text |
| JsText.SplitJoin | src/node_core_utils.js:32-33 | splitting joined fields that lack the separator gives back the fields |
| JsText.SplitFirstField | src/node_core_utils.js:32 | the first field is the text before the first separator |
| JsText.ParseIntOfNatToString | src/node_core_utils.js:32-34 | `parseInt(String(n)) == n` for every natural number |
| JsText.LastIndexOf | src/Transmuxing/TransmuxServer.ts:65 | the index of the last occurrence, or -1 iff there is none |
| JsText.ExecAppStreamSplits | src/Transmuxing/TransmuxServer.ts:65-71 | on a one-line path `pre/mid/post` where pre and post have no '/', the app is `mid` (between the first and last '/') and the name is `post` |
| JsText.ExecAppStreamNeedsTwoSlashes | src/Transmuxing/TransmuxServer.ts:65-69 | a path with fewer than two '/' does not match |
| JsText.Filter | src/Transmuxing/FFMPEGTask.ts:246-247 | the kept elements are exactly those that satisfy the predicate |
| ApiKeyAuth.Includes | src/auth/APIKeyAuthentication.ts:13 | true iff some key equals the given one |
| ApiKeyAuth.Verify | src/auth/APIKeyAuthentication.ts:12-14 | true iff the key is one of the configured keys |
| ApiKeyAuth.DefaultRejectsAll | src/auth/APIKeyAuthentication.ts:4-9 | with the default empty key list every key is rejected |
| ApiKeyAuth.VerifyDependsOnKeySet | src/auth/APIKeyAuthentication.ts:13 | the answer depends only on the set of keys, not on their order or repetition |
| FfmpegTask.GetConfig | src/Transmuxing/FFMPEGTask.ts:36-46 | returns `args[key]` only when the key and that value are truthy, otherwise undefined |
| FfmpegTask.GetConfigTruthy | src/Transmuxing/FFMPEGTask.ts:36-46 | the result is truthy iff key, args and `args[key]` are; otherwise it is undefined |
| FfmpegTask.RestArgsNeverKeep | src/Transmuxing/FFMPEGTask.ts:243 | with the rest-argument array the server passes, `hlsKeep` and `dashKeep` are never set |
| FfmpegTask.FileKindsDisjoint | src/Transmuxing/FFMPEGTask.ts:48-58 | no name is two of HLS output (.ts/.m3u8), temporary (.tmp) and DASH output (.mpd/.m4s) |
| FfmpegTask.BaseNameInDir | src/Transmuxing/FFMPEGTask.ts:175 | the base name of `dir/name` is `name` |
| FfmpegTask.ExtNameOfFile | src/Transmuxing/FFMPEGTask.ts:176 | the extension of `dir/stem.ext` is `.ext` |
| FfmpegTask.LastTsLineSpec | src/Transmuxing/FFMPEGTask.ts:200-208 | the last segment is a line ending in ".ts" with no such line after it; there is none iff no line ends in ".ts" |
| FfmpegTask.FFMPEGTask.GetLastSegment | src/Transmuxing/FFMPEGTask.ts:200-208 | the backward scan returns the last ".ts" line of the playlist text |
| FfmpegTask.FlagOptionsOfPairs | src/Transmuxing/FFMPEGTask.ts:92-97 | tokens `k=v` push `k` then `v`, in order |
| FfmpegTask.HlsFlagsPairs | src/Transmuxing/FFMPEGTask.ts:92-97 | `hlsFlags` written as `k1=v1 k2=v2 ...` gives exactly `k1, v1, k2, v2, ...` |
| FfmpegTask.FlagOptionsSkipsEmpty | src/Transmuxing/FFMPEGTask.ts:92-93 | empty tokens add nothing |
| FfmpegTask.FFMPEGTask.PushHlsFlags | src/Transmuxing/FFMPEGTask.ts:92-97 | the loop appends the options of the flag tokens |
| FfmpegTask.RtmpOutputOnlyWhenWanted | src/Transmuxing/FFMPEGTask.ts:68-79 | the rtmp output is added only when rtmp and rtmpApp are set and rtmpApp differs from the stream's app |
| FfmpegTask.RtmpNeverToOwnApp | src/Transmuxing/FFMPEGTask.ts:70-71 | a task never re-publishes into its own app |
| FfmpegTask.MediaOptionsIgnoreRtmp | src/Transmuxing/FFMPEGTask.ts:81-108 | the mp4, HLS and DASH outputs do not depend on the rtmp setting |
| FfmpegTask.ArgvHead | src/Transmuxing/FFMPEGTask.ts:110-123 | the fixed head of the command line has 13 entries |
| FfmpegTask.ArgvLayout | src/Transmuxing/FFMPEGTask.ts:110-133 | argv is `-y -i <input> -c:v <vc or copy> -c:a <ac or copy> -f tee -map 0:a? -map 0:v?`, then the output options, then vcParam, then acParam |
| FfmpegTask.ParamOptions | src/Transmuxing/FFMPEGTask.ts:127-133 | codec parameters are appended verbatim, none when absent |
| FfmpegTask.CleanupSelections | src/Transmuxing/FFMPEGTask.ts:254-273 | cleanup deletes .tmp files, plus DASH files unless `dashKeep`; HLS deletion selects exactly the HLS files; the two never overlap |
| FfmpegTask.SegmentNameInjective | src/Transmuxing/FFMPEGTask.ts:143 | distinct segment numbers name distinct files |
| FfmpegTask.RemoveSegmentsKeepsLater | src/Transmuxing/FFMPEGTask.ts:155 | uploading earlier segments leaves a later segment's playlist entry as it was |
| FfmpegTask.FFMPEGTask.constructor | src/Transmuxing/FFMPEGTask.ts:23-34 | input and rtmp output URLs and the output directory come from the configuration; the bookkeeping starts empty |
| FfmpegTask.FFMPEGTask.Run | src/Transmuxing/FFMPEGTask.ts:60-137 | spawns ffmpeg with exactly `Argv` of the configuration and starts watching, changing nothing else |
| FfmpegTask.FFMPEGTask.OnChange | src/Transmuxing/FFMPEGTask.ts:173-186 | a .m3u8 file is kept under its last segment when it has one; a .ts file adds its base name to the segments; any other extension changes nothing |
| FfmpegTask.FFMPEGTask.Tick | src/Transmuxing/FFMPEGTask.ts:140-158 | when `index<segIndex>.ts` is announced and on disk: upload it, upload its playlist if kept and drop it, and increment segIndex by exactly 1; otherwise nothing changes |
| FfmpegTask.TicksUploadInOrder | src/Transmuxing/FFMPEGTask.ts:140-158 | n ticks over ready segments upload exactly those n segments, in order, each followed by its playlist |
| FfmpegTask.FFMPEGTask.Unlink | src/Transmuxing/FFMPEGTask.ts:248-250 | unlinks each listed file, in order |
| FfmpegTask.FFMPEGTask.CleanTempFiles | src/Transmuxing/FFMPEGTask.ts:254-274 | deletes nothing for an empty path or an unreadable directory; otherwise deletes the temporary selection |
| FfmpegTask.FFMPEGTask.DeleteHlsFiles | src/Transmuxing/FFMPEGTask.ts:242-252 | skipped when `hlsKeep` is set or when the path is empty and HLS is off; otherwise deletes the HLS files of the listing |
| FfmpegTask.FFMPEGTask.Stop | src/Transmuxing/FFMPEGTask.ts:231-240 | its whole new state is `AfterStop` of the old one: 'end' first; a task that never spawned stops there; otherwise it stops watching, then cleans temporary files, then deletes the HLS files |
| FfmpegTask.FFMPEGTask.AfterStopEffect | src/Transmuxing/FFMPEGTask.ts:231-274 | `stop()` emits 'end' once more, keeps the segment bookkeeping, the spawned process and the uploads, keeps every earlier deleted file in place, and only appends paths inside the output directory |
| FfmpegTask.FFMPEGTask.StopAfterStart | src/Transmuxing/FFMPEGTask.ts:231-274 | stopping a task that was just run leaves it with one 'end', not watching, and exactly the temporary and HLS files of its output directory deleted |
| TransmuxServer.StartedConfigsMatch | src/Transmuxing/TransmuxServer.ts:72-73 | one task is started per configured task of the stream's app, in configuration order, and none for other apps |
| TransmuxServer.StartedConfigsFields | src/Transmuxing/TransmuxServer.ts:74-92 | every started task carries the stream path, app, name, ffmpeg and media-root paths, rtmp port and arguments; storage is attached iff it is configured |
| JsText.FilterSnoc | src/Transmuxing/TransmuxServer.ts:72-73 | filtering a sequence extended at its end |
| TransmuxServer.StartTasks | src/Transmuxing/TransmuxServer.ts:72-99 | each matching task is set under the id, replacing the one before; the last started is kept, with its own state that of a task just run (spawned with its command line, watching, no segments, uploads, deletions or 'end'); nothing changes when none matches |
| TransmuxServer.TransmuxServer.OnPostPublish | src/Transmuxing/TransmuxServer.ts:64-100 | a path without `/app/name` starts nothing; otherwise the kept task under the id is a fresh one started with the last matching configuration, spawned and watching with nothing recorded yet; no task is ever kept under two ids (`Valid`) |
| TransmuxServer.TransmuxServer.OnTaskExit | src/Transmuxing/TransmuxServer.ts:96 | the exiting task is stopped, its new state being `AfterStop` of its old one, and its 'end' removes whatever is kept under its id; `Valid()` is preserved |
| TransmuxServer.TransmuxServer.OnDonePublish | src/Transmuxing/TransmuxServer.ts:102-104 | stops only the task under the id, its new state being `AfterStop` of its old one, and its 'end' removes it; nothing when there is none; `Valid()` is preserved |
| TransmuxServer.TransmuxServer.Stop | src/Transmuxing/TransmuxServer.ts:106-111 | every running task is stopped exactly once, each one's new state being `AfterStop` of its old one, and the map ends empty |
| RelayServer.HasAppOfHostApp | src/node_relay_server.js:158 | an edge `rtmp://host/app...` names an application |
| RelayServer.HasAppNotOfHost | src/node_relay_server.js:158 | an edge `rtmp://host` does not |
| RelayServer.Query | src/node_relay_server.js:162-165 | `'?' + encode(args)` iff args has keys, otherwise nothing |
| RelayServer.RequestOf | src/node_relay_server.js:151-152 | app and stream come from the greedy `/app/name` split, both absent when the path does not match |
| RelayServer.Relayed | src/node_relay_server.js:158-165 | a pull reads `edge/stream` when the edge names an app, else `edge + path`, plus the query, into the local URL; a push reads the local URL and writes the edge verbatim when `appendName === false`, else as a pull does, plus the query; only ffmpeg, input and output change |
| RelayServer.DynPassThrows | src/node_relay_server.js:153-158 | the handler throws exactly when a selected task has no edge |
| RelayServer.DynPassTask | src/node_relay_server.js:153-175 | without a throw each selected task is rewritten for the request and every other task is left as it was |
| RelayServer.DynPassRuns | src/node_relay_server.js:153-175 | without a throw the loop runs exactly the sessions of the selected tasks, from the last index to the first |
| RelayServer.NoneSelectedIff | src/node_relay_server.js:155-157 | no task is selected iff no index satisfies the mode, app and unpublished test |
| RelayServer.RunsOfNone | src/node_relay_server.js:153-175 | no session is run iff no task is selected |
| RelayServer.RunsOfLast | src/node_relay_server.js:166-171 | the session kept under the id is that of the lowest selected index |
| RelayServer.StaticPassKeepsMode | src/node_relay_server.js:52-76 | `onStatic` keeps every task's mode |
| RelayServer.StaticPassKeeps | src/node_relay_server.js:54-60 | tasks that already have a session, or are not static, are left unchanged |
| RelayServer.StaticPassNewKeys | src/node_relay_server.js:54-72 | sessions are registered only under indices of static tasks that had none |
| RelayServer.StaticPassStarts | src/node_relay_server.js:58-73 | each static task without a session gets a truthy name, kept when it had one and otherwise four drawn characters, written back; its output is `rtmp://127.0.0.1:<port>/<app>/<name>`; it gets a session under its index |
| RelayServer.StaticPassIdle | src/node_relay_server.js:52-77 | a pass over tasks that all have sessions or are not static changes nothing |
| RelayServer.StaticPassIdempotent | src/node_relay_server.js:52-77 | once a cycle has run, the next one starts nothing and draws no name |
| RelayServer.StaticsLeft | src/node_relay_server.js:224-228 | exactly the static sessions of other stream paths survive, unchanged |
| RelayServer.RelayServer.constructor | src/node_relay_server.js:16-21 | both session maps start empty |
| RelayServer.RelayServer.OnStatic | src/node_relay_server.js:48-77 | the loop from the last index to the first has exactly the effect of `StaticPass`, and leaves the dynamic sessions alone |
| RelayServer.RelayServer.OnStaticEnd | src/node_relay_server.js:68-71 | a static session's 'end' frees its index |
| RelayServer.RelayServer.Register | src/node_relay_server.js:86-96 | a relay request's session is run and registered under its id in both `sessions` and `dynamicSessions` |
| RelayServer.RelayServer.OnRelayTask | src/node_relay_server.js:79-97 | relays the path to the URL with app and name '-', registered under the id in both maps; emits `relayTaskDone`; draws no names and leaves the publisher, idle-player and player registries as they were |
| RelayServer.RelayServer.OnRelayPull | src/node_relay_server.js:100-123 | pulls the URL into `rtmp://127.0.0.1:<port>/<app>/<name>`, with the RTSP transport only when one is given; registered in both maps; emits `relayPullDone`; draws no names and leaves the publisher, idle-player and player registries as they were |
| RelayServer.RelayServer.OnRelayPush | src/node_relay_server.js:126-145 | pushes the local `/<app>/<name>` out to the URL; registered in both maps; emits `relayPushDone`; draws no names and leaves the publisher, idle-player and player registries as they were |
| RelayServer.RelayServer.OnDynamicEnd | src/node_relay_server.js:89-92 | a dynamic session's 'end' removes it from `dynamicSessions`, and from `sessions` when it was registered there; emits nothing and leaves the other registries and the name draws as they were |
| RelayServer.RelayServer.RelayTasks | src/node_relay_server.js:153-175 | the relay loop has exactly the effect of `DynPass`, and keeps the last session run under the id |
| RelayServer.RelayServer.OnPrePlay | src/node_relay_server.js:147-176 | pulls the played path from every pull task of its app, only when nobody publishes it |
| RelayServer.RelayServer.OnPostPublish | src/node_relay_server.js:186-216 | pushes the published path to the edge of every push task of its app |
| RelayServer.RelayServer.OnDonePlay | src/node_relay_server.js:178-184 | ends the session under the id only when the publisher has no players left; throws when a session exists but no publisher is found; it emits nothing, draws no names, and leaves every other registry (`publishersPaths`, `idlePlayers`, `publisherSessions`, `playersSessions`) as they were |
| RelayServer.RelayServer.OnDonePublish | src/node_relay_server.js:218-229 | ends the dynamic session under the id and every static session of the path; it emits nothing, draws no names, and leaves every other registry (`publishersPaths`, `idlePlayers`, `publisherSessions`, `playersSessions`) as they were |

## Left out

- The RTMP chunk engine, handshake, AMF codec and publisher session are not part of this model. They fill the publisher record, which is abstract state here (`Globals.Publisher`).
- `src/HTTP/HttpServer.ts`, `src/Storage/S3Bucket.ts`, `src/MediaServer.ts`, `src/main.ts` and the API routes are transport, network and bootstrap code. Storage `upload` is an appended log entry.
- Asynchronous interleaving is not modelled. Each event handler and each interval tick is one atomic step, so the `_uploading` flag of `uploadToCDN` never blocks a tick. The chokidar watcher is reduced to the `onChange` calls it makes. `mkdirp` is not modelled.
- `getFFmpegVersion` and the relay server's `run()` are not modelled. They check the ffmpeg binary by spawning it and register the listeners. The relay `stop()` only clears the interval.
- `FfmpegTask.FFMPEGTask.Run`: the ffmpeg process itself, its output and its exit are not modelled. Its 'close' and 'error' handlers appear as `TransmuxServer.TransmuxServer.OnTaskExit`.
- `FfmpegTask.FFMPEGTask.OnChange`: file contents are text, not `Buffer`s. A kept playlist buffer is always truthy, so the `if (m3u8Buffer)` test of the tick is presence in the map.
- `FfmpegTask.Lookup`: prototype properties of an array or object other than `length` (for example `constructor`) are not modelled.
- `JsText.ParseInt`: parsed numbers are unbounded integers. Nothing models the loss of precision beyond 2^53 or the exponent forms of `String(x)`.
- `CoreUtils.UnixSeconds` states the value only for clocks below 2^31 seconds. Beyond that the 32-bit truncation is computed but not described.
- Emitted events carry only the arguments that identify them. Listener side effects, other than whether a `preConnect` or `prePlay` listener stops the session, are not modelled.
- `NodeRelaySession` is not part of this model: its ffmpeg process, its own id generation and when it ends. A session keeps a snapshot of its task configuration. Later rewrites of the shared `conf` object are not visible through the session.
- `RelayServer.RelayServer.OnStaticEnd`: the static session's 'end' also calls `sessions.delete` with the numeric index. That key is never present, so the model leaves `sessions` unchanged.
- `RelayServer.RelayServer.OnStatic`: the names `genRandomName()` returns are given by the ghost table `names`, which matches `CoreUtils.GenRandomName` draw for draw. An absent `relay.tasks` list behaves as an empty one.
- `FlvSession.FlvSession.Run`: the query is a map from names to single strings. A repeated key such as `?sign=a&sign=b` makes `URL.parse(url, true)` give an array, on which `verifyAuth` throws at `signStr.split` (src/node_core_utils.js:32); that input is not modelled.
- Logging is not modelled.

## Observations

- `generateNewSessionID` uses the alphabet `ABCDEFGHIJKLMNOPQRSTUVWKYZ0123456789`. 'K' appears twice and 'X' never appears, and the model keeps this (`CoreUtils.SessionIdChar`). The id is not reset between retries, so an id is a positive multiple of 8 characters long.
- `RTMP_CHUNK_SIZE_PACKET_HEX` is byte-identical to the peer-bandwidth message (type 6, 5-byte body), not a set-chunk-size message. The model keeps it as written (`RtmpVars.PeerBandwidthTemplate`).
- The transmuxing server passes the publish event's rest arguments, an array, as a task's `args`. So `getConfig("hlsKeep")` and `getConfig("dashKeep")` are always undefined: HLS output is always deleted on stop, and DASH output always cleaned (`FfmpegTask.RestArgsNeverKeep`).
