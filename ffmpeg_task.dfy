/**
  One transmuxing task: the ffmpeg command line it assembles from its
  configuration, the bookkeeping of the HLS segments ffmpeg writes (which
  segment is next to upload, which playlist goes with it), and the cleanup of
  the output directory when it stops.

  The foreign calls are parameters: `path.join` is `join`, the `dateFormat`
  timestamp of an mp4 recording is `stamp`, `fs.existsSync`, file reads and
  `fs.readdir` are `fileExists`, `read` and `readdir`. File contents are text.
  What the task hands to the outside world is logged: the argv given to
  `spawn`, the uploads to storage, and the files unlinked.
*/
module FfmpegTask {
  import opened JsText

  // ---------------------------------------------------------------------------
  // Configuration values
  // ---------------------------------------------------------------------------

  /** A JavaScript value as `args[key]` can hold it. */
  datatype JsValue = Undefined | Null | Bool(b: bool) | Str(s: string) | Number(n: int) | Object

  predicate Truthy(v: JsValue) {
    match v
    case Bool(b) => b
    case Str(s) => s != ""
    case Number(n) => n != 0
    case Object => true
    case _ => false
  }

  /**
    The `args` of a task: the rest parameter of the publish event, an array, or
    any other object given as a map from property names.
  */
  datatype JsArgs = Array(items: seq<JsValue>) | Dict(entries: map<string, JsValue>)

  /** The array index a property name denotes: a canonical decimal numeral. */
  function ArrayIndex(key: string): (i: Option<nat>)
    ensures i.Some? ==> key != "" && AllDigits(key, 10)
  {
    if key != "" && AllDigits(key, 10) && (key == "0" || key[0] != '0') then Some(DigitsValue(key, 10)) else None
  }

  /** `args[key]`: an element by its index or the `length` of an array, an entry of an object. */
  function Lookup(args: JsArgs, key: string): JsValue {
    match args
    case Array(items) =>
      (match ArrayIndex(key)
       case Some(i) => if i < |items| then items[i] else Undefined
       case None => if key == "length" then Number(|items|) else Undefined)
    case Dict(entries) => if key in entries then entries[key] else Undefined
  }

  /** `getConfig(key)`: `args[key]` when the key and that value are truthy, undefined otherwise. */
  function GetConfig(args: Option<JsArgs>, key: string): (v: JsValue)
    ensures v != Undefined ==> key != "" && args.Some? && Truthy(v) && v == Lookup(args.value, key)
    ensures key != "" && args.Some? && Truthy(Lookup(args.value, key)) ==> v == Lookup(args.value, key)
  {
    if key == "" then Undefined
    else if args.Some? && Truthy(Lookup(args.value, key)) then Lookup(args.value, key)
    else Undefined
  }

  /** A value that is not truthy is never returned. */
  lemma GetConfigTruthy(args: Option<JsArgs>, key: string)
    ensures Truthy(GetConfig(args, key)) <==> key != "" && args.Some? && Truthy(Lookup(args.value, key))
    ensures !Truthy(GetConfig(args, key)) ==> GetConfig(args, key) == Undefined
  {
  }

  /**
    When `args` is the rest array of the publish event, as the transmuxing
    server passes it, `hlsKeep` and `dashKeep` are never set: neither name is
    an array index nor `length`.
  */
  lemma RestArgsNeverKeep(items: seq<JsValue>)
    ensures GetConfig(Some(Array(items)), "hlsKeep") == Undefined
    ensures GetConfig(Some(Array(items)), "dashKeep") == Undefined
  {
    assert RadixDigit("hlsKeep"[0], 10).None?;
    assert RadixDigit("dashKeep"[0], 10).None?;
  }

  /** `x || fallback` on an optional text. */
  function OrElse(x: Option<string>, fallback: string): string {
    if x.Some? && x.value != "" then x.value else fallback
  }

  /** The options of one configured transmuxing task. */
  datatype TaskOptions = TaskOptions(
    app: string,
    vc: Option<string>,
    ac: Option<string>,
    vcParam: Option<seq<string>>,
    acParam: Option<seq<string>>,
    mp4: bool,
    mp4Flags: Option<string>,
    hls: bool,
    hlsFlags: Option<string>,
    dash: bool,
    dashFlags: Option<string>,
    rtmp: bool,
    rtmpApp: Option<string>)

  /** A task's configuration as the transmuxing server builds it for one published stream. */
  datatype TaskConfig = TaskConfig(
    task: TaskOptions,
    ffmpegPath: string,
    mediarootPath: string,
    rtmpPort: Option<string>,
    streamPath: string,
    streamApp: string,
    streamName: string,
    args: Option<JsArgs>,
    storage: bool)

  // ---------------------------------------------------------------------------
  // File names
  // ---------------------------------------------------------------------------

  predicate IsHlsFile(name: string) {
    EndsWith(name, ".ts") || EndsWith(name, ".m3u8")
  }

  predicate IsTemFile(name: string) {
    EndsWith(name, ".tmp")
  }

  predicate IsDashFile(name: string) {
    EndsWith(name, ".mpd") || EndsWith(name, ".m4s")
  }

  /** Two suffixes that differ at the k-th position from the end cannot both end a name. */
  lemma SuffixesClash(name: string, a: string, b: string, k: nat)
    requires 0 < k <= |a| && k <= |b| && a[|a| - k] != b[|b| - k]
    ensures !(EndsWith(name, a) && EndsWith(name, b))
  {
  }

  /** No name is of two kinds: HLS output, temporary file and DASH output are disjoint. */
  lemma FileKindsDisjoint(name: string)
    ensures !(IsHlsFile(name) && IsTemFile(name))
    ensures !(IsHlsFile(name) && IsDashFile(name))
    ensures !(IsTemFile(name) && IsDashFile(name))
  {
    SuffixesClash(name, ".ts", ".tmp", 1);
    SuffixesClash(name, ".m3u8", ".tmp", 1);
    SuffixesClash(name, ".ts", ".mpd", 1);
    SuffixesClash(name, ".ts", ".m4s", 3);
    SuffixesClash(name, ".m3u8", ".mpd", 1);
    SuffixesClash(name, ".m3u8", ".m4s", 1);
    SuffixesClash(name, ".tmp", ".mpd", 1);
    SuffixesClash(name, ".tmp", ".m4s", 1);
  }

  /** The path without its trailing '/'s. */
  function TrimTrailingSlashes(p: string): (t: string)
    ensures |t| <= |p| && t == p[..|t|]
    ensures t == [] || t[|t| - 1] != '/'
  {
    if p != [] && p[|p| - 1] == '/' then TrimTrailingSlashes(p[..|p| - 1]) else p
  }

  /** `path.basename(p)`: the last component, trailing '/'s ignored. */
  function BaseName(p: string): (b: string)
    ensures '/' !in b
  {
    var t := TrimTrailingSlashes(p);
    t[LastIndexOf(t, '/') + 1..]
  }

  /** `path.extname(p)`: from the last '.' of the base name, unless that dot leads it (or it is ".."). */
  function ExtName(p: string): (e: string)
    ensures e != "" ==> e[0] == '.' && EndsWith(BaseName(p), e) && |e| < |BaseName(p)|
  {
    var b := BaseName(p);
    var k := LastIndexOf(b, '.');
    if k <= 0 || b == ".." then "" else b[k..]
  }

  /** The base name of a file in a directory is the file's own name. */
  lemma BaseNameInDir(dir: string, name: string)
    requires '/' !in name && name != "" && name[|name| - 1] != '/'
    ensures BaseName(dir + "/" + name) == name
  {
    var p := dir + "/" + name;
    assert p[|p| - 1] == name[|name| - 1];
    assert TrimTrailingSlashes(p) == p;
    assert p[|dir|] == '/';
    assert p[|dir| + 1..] == name;
    LastIndexOfIs(p, '/', |dir|);
  }

  /** The extension of `stem.ext` is `.ext` when the stem has no dot. */
  lemma ExtNameOfFile(dir: string, stem: string, ext: string)
    requires '/' !in stem && '.' !in stem && stem != ""
    requires '/' !in ext && '.' !in ext && ext != ""
    ensures ExtName(dir + "/" + stem + "." + ext) == "." + ext
  {
    var name := stem + "." + ext;
    DottedName(stem, ext);
    assert dir + "/" + stem + "." + ext == dir + "/" + name;
    BaseNameInDir(dir, name);
  }

  /** `stem.ext` is a plain file name whose last '.' is the one after the stem. */
  lemma DottedName(stem: string, ext: string)
    requires '/' !in stem && '.' !in stem && stem != ""
    requires '/' !in ext && '.' !in ext && ext != ""
    ensures var name := stem + "." + ext;
      && '/' !in name && name[|name| - 1] != '/' && name != ".."
      && LastIndexOf(name, '.') == |stem| && name[|stem|..] == "." + ext
  {
    var tail := "." + ext;
    var name := stem + tail;
    assert '/' !in tail;
    assert name[|name| - 1] == ext[|ext| - 1];
    assert name[|stem|..] == tail;
    assert name[|stem| + 1..] == ext;
    LastIndexOfIs(name, '.', |stem|);
    assert name[0] == stem[0];
  }

  lemma LastIndexOfIs(s: string, c: char, k: nat)
    requires k < |s| && s[k] == c && c !in s[k + 1..]
    ensures LastIndexOf(s, c) == k
  {
  }

  // ---------------------------------------------------------------------------
  // The playlist's last segment
  // ---------------------------------------------------------------------------

  /** The last line that ends in ".ts", if any. */
  function LastTsLine(lines: seq<string>): Option<string> {
    if lines == [] then None
    else if EndsWith(lines[|lines| - 1], ".ts") then Some(lines[|lines| - 1])
    else LastTsLine(lines[..|lines| - 1])
  }

  /** The last segment is a line ending in ".ts" after which no line does; there is none only when no line does. */
  lemma {:induction false} LastTsLineSpec(lines: seq<string>)
    ensures LastTsLine(lines).Some? ==>
      exists i :: 0 <= i < |lines| && lines[i] == LastTsLine(lines).value && EndsWith(lines[i], ".ts")
        && forall j :: i < j < |lines| ==> !EndsWith(lines[j], ".ts")
    ensures LastTsLine(lines).None? <==> forall i :: 0 <= i < |lines| ==> !EndsWith(lines[i], ".ts")
  {
    if lines != [] && !EndsWith(lines[|lines| - 1], ".ts") {
      var init := lines[..|lines| - 1];
      LastTsLineSpec(init);
      if LastTsLine(init).Some? {
        var i :| 0 <= i < |init| && init[i] == LastTsLine(init).value && EndsWith(init[i], ".ts")
          && forall j :: i < j < |init| ==> !EndsWith(init[j], ".ts");
        assert lines[i] == init[i];
      }
      assert forall i :: 0 <= i < |init| ==> lines[i] == init[i];
    }
  }

  // ---------------------------------------------------------------------------
  // The command line
  // ---------------------------------------------------------------------------

  /**
    The RTMP port in a template literal: the text of the `-r` option as
    given (the default 1935 reads the same), or "undefined" when absent.
  */
  function PortText(port: Option<string>): string {
    if port.Some? then port.value else "undefined"
  }

  function InputPath(c: TaskConfig): string {
    "rtmp://127.0.0.1:" + PortText(c.rtmpPort) + c.streamPath
  }

  function RtmpOutPath(c: TaskConfig): string {
    "rtmp://127.0.0.1:" + PortText(c.rtmpPort) + "/" + (if c.task.rtmpApp.Some? then c.task.rtmpApp.value else "undefined")
    + "/" + c.streamName
  }

  /** The RTMP re-publish output is wanted, and it does not loop back into the stream's own app. */
  predicate WantsRtmpOutput(c: TaskConfig) {
    c.task.rtmp && c.task.rtmpApp.Some? && c.task.rtmpApp.value != "" && c.task.rtmpApp.value != c.streamApp
  }

  /**
    The options `hlsFlags` adds: each non-empty space-separated token `k=v`
    gives `k` then `v`; `v` is undefined when the token has no '=', and text
    after a second '=' is dropped.
  */
  function FlagOptions(tokens: seq<string>): seq<Option<string>> {
    if tokens == [] then []
    else
      var kv := Split(tokens[0], '=');
      (if tokens[0] == "" then [] else [Some(kv[0]), if |kv| > 1 then Some(kv[1]) else None])
      + FlagOptions(tokens[1..])
  }

  /** The options a space-separated `k=v` list is expected to give: each key then its value. */
  function PairOptions(pairs: seq<(string, string)>): (o: seq<Option<string>>)
    ensures |o| == 2 * |pairs|
  {
    if pairs == [] then [] else [Some(pairs[0].0), Some(pairs[0].1)] + PairOptions(pairs[1..])
  }

  function PairTokens(pairs: seq<(string, string)>): (t: seq<string>)
    ensures |t| == |pairs|
    ensures forall i :: 0 <= i < |t| ==> t[i] == pairs[i].0 + "=" + pairs[i].1
  {
    if pairs == [] then [] else [pairs[0].0 + "=" + pairs[0].1] + PairTokens(pairs[1..])
  }

  predicate PlainPair(pair: (string, string)) {
    ' ' !in pair.0 && '=' !in pair.0 && ' ' !in pair.1 && '=' !in pair.1
  }

  lemma {:induction false} FlagOptionsOfPairs(pairs: seq<(string, string)>)
    requires forall i :: 0 <= i < |pairs| ==> PlainPair(pairs[i])
    ensures FlagOptions(PairTokens(pairs)) == PairOptions(pairs)
  {
    if pairs != [] {
      var (k, v) := pairs[0];
      var tokens := PairTokens(pairs);
      assert k + "=" + v == k + ['='] + v;
      SplitFirstField(k, v, '=');
      SplitNoSeparator(v, '=');
      assert Split(tokens[0], '=') == [k, v];
      assert tokens[0] != "" by {
        assert |tokens[0]| == |k| + 1 + |v|;
      }
      assert tokens[1..] == PairTokens(pairs[1..]);
      FlagOptionsOfPairs(pairs[1..]);
    }
  }

  lemma PlainPairToken(pair: (string, string))
    requires PlainPair(pair)
    ensures ' ' !in pair.0 + "=" + pair.1
  {
  }

  /** `hlsFlags` written as `k1=v1 k2=v2 ...` gives exactly `k1, v1, k2, v2, ...`. */
  lemma HlsFlagsPairs(pairs: seq<(string, string)>)
    requires forall i :: 0 <= i < |pairs| ==> PlainPair(pairs[i])
    ensures FlagOptions(Split(Join(PairTokens(pairs), ' '), ' ')) == PairOptions(pairs)
  {
    var tokens := PairTokens(pairs);
    if pairs == [] {
      assert Split(Join(tokens, ' '), ' ') == [""];
    } else {
      forall i | 0 <= i < |tokens|
        ensures ' ' !in tokens[i]
      {
        PlainPairToken(pairs[i]);
      }
      SplitJoin(tokens, ' ');
      FlagOptionsOfPairs(pairs);
    }
  }

  /** Empty tokens, from repeated or surrounding spaces, add nothing. */
  lemma {:induction false} FlagOptionsSkipsEmpty(tokens: seq<string>)
    ensures FlagOptions(tokens) == FlagOptions(Filter(tokens, (t: string) => t != ""))
  {
    if tokens != [] {
      FlagOptionsSkipsEmpty(tokens[1..]);
      if tokens[0] != "" {
        var rest := Filter(tokens[1..], (t: string) => t != "");
        assert Filter(tokens, (t: string) => t != "") == [tokens[0]] + rest;
        assert ([tokens[0]] + rest)[1..] == rest;
      }
    }
  }

  /** The RTMP re-publish output, when wanted. */
  function RtmpOptions(c: TaskConfig): seq<Option<string>> {
    if WantsRtmpOutput(c) then [Some(" -f flv " + RtmpOutPath(c))] else []
  }

  /** The mp4 recording, named by its start time. */
  function Mp4Options(t: TaskOptions, outPath: string, join: seq<string> -> string, stamp: string): seq<Option<string>> {
    if t.mp4 then [Some(OrElse(t.mp4Flags, "") + " -f mp4 \"" + join([outPath, stamp + ".mp4"]) + "\"")] else []
  }

  /** The HLS output: the flags, then a VOD playlist `index.m3u8`. */
  function HlsOptions(t: TaskOptions, outPath: string, join: seq<string> -> string): seq<Option<string>> {
    if t.hls
    then (if t.hlsFlags.Some? then FlagOptions(Split(t.hlsFlags.value, ' ')) else [])
         + [Some("-f"), Some("hls"), Some(join([outPath, "index.m3u8"])), Some("-hls_playlist_type"), Some("vod")]
    else []
  }

  /** The DASH output `index.mpd`. */
  function DashOptions(t: TaskOptions, outPath: string, join: seq<string> -> string): seq<Option<string>> {
    if t.dash then [Some(OrElse(t.dashFlags, "") + " -f dash " + join([outPath, "index.mpd"]))] else []
  }

  /** The output options `run()` collects, in order: RTMP, mp4, HLS, DASH. */
  function OutputOptions(c: TaskConfig, outPath: string, join: seq<string> -> string, stamp: string): seq<Option<string>> {
    RtmpOptions(c) + Mp4Options(c.task, outPath, join, stamp) + HlsOptions(c.task, outPath, join) + DashOptions(c.task, outPath, join)
  }

  function Somes(xs: seq<string>): (o: seq<Option<string>>)
    ensures |o| == |xs| && forall i :: 0 <= i < |xs| ==> o[i] == Some(xs[i])
  {
    seq(|xs|, i requires 0 <= i < |xs| => Some(xs[i]))
  }

  /** Extra codec parameters, each entry verbatim. */
  function ParamOptions(param: Option<seq<string>>): (o: seq<Option<string>>)
    ensures param.None? ==> o == []
    ensures param.Some? ==> |o| == |param.value| && forall i :: 0 <= i < |o| ==> o[i] == Some(param.value[i])
  {
    if param.Some? then Somes(param.value) else []
  }

  /** The fixed head of every command line: input, codecs (copy by default), tee muxer, both maps. */
  function ArgvHead(c: TaskConfig): (h: seq<Option<string>>)
    ensures |h| == 13
  {
    [Some("-y"), Some("-i"), Some(InputPath(c)), Some("-c:v"), Some(OrElse(c.task.vc, "copy")),
     Some("-c:a"), Some(OrElse(c.task.ac, "copy")), Some("-f"), Some("tee"),
     Some("-map"), Some("0:a?"), Some("-map"), Some("0:v?")]
  }

  /** The command line handed to `spawn`. */
  function Argv(c: TaskConfig, outPath: string, join: seq<string> -> string, stamp: string): seq<Option<string>> {
    ArgvHead(c) + OutputOptions(c, outPath, join, stamp) + ParamOptions(c.task.vcParam) + ParamOptions(c.task.acParam)
  }

  /**
    The RTMP output comes first among the output options when it is wanted and
    is absent otherwise: the options are those of the same task with `rtmp`
    off, preceded by the RTMP output exactly when it is wanted.
  */
  lemma RtmpOutputOnlyWhenWanted(c: TaskConfig, outPath: string, join: seq<string> -> string, stamp: string)
    ensures !WantsRtmpOutput(c.(task := c.task.(rtmp := false)))
    ensures OutputOptions(c, outPath, join, stamp)
            == (if WantsRtmpOutput(c) then [Some(" -f flv " + RtmpOutPath(c))] else [])
               + OutputOptions(c.(task := c.task.(rtmp := false)), outPath, join, stamp)
  {
    var without := c.(task := c.task.(rtmp := false));
    MediaOptionsIgnoreRtmp(c.task, outPath, join, stamp);
    var mp4, hls, dash := Mp4Options(c.task, outPath, join, stamp), HlsOptions(c.task, outPath, join), DashOptions(c.task, outPath, join);
    assert RtmpOptions(without) == [];
    assert OutputOptions(without, outPath, join, stamp) == mp4 + hls + dash by {
      assert [] + mp4 == mp4;
    }
    Regroup(RtmpOptions(c) + mp4, hls, dash);
    Regroup(RtmpOptions(c), mp4, hls + dash);
  }

  /** A task never re-publishes into the app of the stream it reads. */
  lemma RtmpNeverToOwnApp(c: TaskConfig, outPath: string, join: seq<string> -> string, stamp: string)
    requires c.task.rtmpApp == Some(c.streamApp)
    ensures forall e :: e in OutputOptions(c, outPath, join, stamp) ==> e in OutputOptions(c.(task := c.task.(rtmp := false)), outPath, join, stamp)
  {
    RtmpOutputOnlyWhenWanted(c, outPath, join, stamp);
  }

  lemma MediaOptionsIgnoreRtmp(t: TaskOptions, outPath: string, join: seq<string> -> string, stamp: string)
    ensures Mp4Options(t.(rtmp := false), outPath, join, stamp) == Mp4Options(t, outPath, join, stamp)
    ensures HlsOptions(t.(rtmp := false), outPath, join) == HlsOptions(t, outPath, join)
    ensures DashOptions(t.(rtmp := false), outPath, join) == DashOptions(t, outPath, join)
  {
  }

  /**
    The layout of the command line: 13 fixed entries with the input URL third
    and the codecs (or `copy`) fifth and seventh, then the output options, then
    `vcParam`, then `acParam`, each verbatim.
  */
  lemma ArgvLayout(c: TaskConfig, outPath: string, join: seq<string> -> string, stamp: string)
    ensures |Argv(c, outPath, join, stamp)|
            == 13 + |OutputOptions(c, outPath, join, stamp)| + |ParamOptions(c.task.vcParam)| + |ParamOptions(c.task.acParam)|
    ensures Argv(c, outPath, join, stamp)[..13] == ArgvHead(c)
    ensures Argv(c, outPath, join, stamp)[2] == Some(InputPath(c))
    ensures Argv(c, outPath, join, stamp)[4] == Some(if c.task.vc.Some? && c.task.vc.value != "" then c.task.vc.value else "copy")
    ensures Argv(c, outPath, join, stamp)[6] == Some(if c.task.ac.Some? && c.task.ac.value != "" then c.task.ac.value else "copy")
    ensures Argv(c, outPath, join, stamp)[13..13 + |OutputOptions(c, outPath, join, stamp)|] == OutputOptions(c, outPath, join, stamp)
    ensures Argv(c, outPath, join, stamp)[13 + |OutputOptions(c, outPath, join, stamp)|..][..|ParamOptions(c.task.vcParam)|]
            == ParamOptions(c.task.vcParam)
    ensures Argv(c, outPath, join, stamp)[13 + |OutputOptions(c, outPath, join, stamp)| + |ParamOptions(c.task.vcParam)|..]
            == ParamOptions(c.task.acParam)
  {
    var head := ArgvHead(c);
    var outs := OutputOptions(c, outPath, join, stamp);
    ConcatLayout(head, outs, ParamOptions(c.task.vcParam), ParamOptions(c.task.acParam));
  }

  /** Where each part of a four-part concatenation lies. */
  lemma ConcatLayout<T>(a: seq<T>, b: seq<T>, c: seq<T>, d: seq<T>)
    ensures |a + b + c + d| == |a| + |b| + |c| + |d|
    ensures (a + b + c + d)[..|a|] == a
    ensures forall i :: 0 <= i < |a| ==> (a + b + c + d)[i] == a[i]
    ensures (a + b + c + d)[|a|..|a| + |b|] == b
    ensures (a + b + c + d)[|a| + |b|..][..|c|] == c
    ensures (a + b + c + d)[|a| + |b| + |c|..] == d
  {
    var s := a + b + c + d;
    assert s == a + (b + c + d);
    assert s[|a|..] == b + c + d;
    assert (b + c + d)[..|b|] == b;
    assert s[|a| + |b|..] == c + d;
  }

  // ---------------------------------------------------------------------------
  // Cleanup
  // ---------------------------------------------------------------------------

  predicate TemOrDash(name: string) {
    IsTemFile(name) || IsDashFile(name)
  }

  /** What `cleanTempFiles` deletes from a listing: temporary files, and DASH output unless `dashKeep` is set. */
  function TempSelection(c: TaskConfig, files: seq<string>): seq<string> {
    if Truthy(GetConfig(c.args, "dashKeep")) then Filter(files, IsTemFile) else Filter(files, TemOrDash)
  }

  /** What `deleteHlsFiles` deletes from a listing: the HLS output. */
  function HlsSelection(files: seq<string>): seq<string> {
    Filter(files, IsHlsFile)
  }

  /** `deleteHlsFiles` runs unless `hlsKeep` is set or there is neither a path nor HLS output. */
  predicate DeletesHls(c: TaskConfig, path: string) {
    !((path == "" && !c.task.hls) || Truthy(GetConfig(c.args, "hlsKeep")))
  }

  /**
    The two cleanups pick from the listing and never overlap: the first takes
    exactly the temporary files (and the DASH output unless `dashKeep`), the
    second exactly the HLS output.
  */
  lemma CleanupSelections(c: TaskConfig, files: seq<string>)
    ensures forall f :: f in TempSelection(c, files) <==>
      f in files && (IsTemFile(f) || (IsDashFile(f) && !Truthy(GetConfig(c.args, "dashKeep"))))
    ensures forall f :: f in HlsSelection(files) <==> f in files && IsHlsFile(f)
    ensures forall f :: f in TempSelection(c, files) ==> f !in HlsSelection(files)
  {
    forall f | f in TempSelection(c, files)
      ensures f !in HlsSelection(files)
    {
      FileKindsDisjoint(f);
    }
  }

  /** The path of each listed file in a directory, in listing order. */
  function InDir(dir: string, files: seq<string>): (paths: seq<string>)
    ensures |paths| == |files| && forall i :: 0 <= i < |files| ==> paths[i] == dir + "/" + files[i]
  {
    seq(|files|, i requires 0 <= i < |files| => dir + "/" + files[i])
  }

  /** Every joined path lies inside `dir`. */
  lemma InDirInside(dir: string, files: seq<string>)
    ensures forall i :: 0 <= i < |files| ==> |dir| < |InDir(dir, files)[i]| && InDir(dir, files)[i][..|dir| + 1] == dir + "/"
  {
    forall i | 0 <= i < |files|
      ensures InDir(dir, files)[i][..|dir| + 1] == dir + "/"
    {
      assert InDir(dir, files)[i] == (dir + "/") + files[i];
    }
  }

  /** The name of the i-th HLS segment. */
  function SegmentName(i: nat): string {
    "index" + NatToString(i) + ".ts"
  }

  /** Distinct segment numbers name distinct files. */
  lemma SegmentNameInjective(i: nat, j: nat)
    requires SegmentName(i) == SegmentName(j)
    ensures i == j
  {
    var a, b := SegmentName(i), SegmentName(j);
    assert NatToString(i) == a[5..|a| - 3];
    assert NatToString(j) == b[5..|b| - 3];
    DigitsValueOfNatToString(i);
    DigitsValueOfNatToString(j);
  }

  /** A playlist buffer after the segments `lo` to `hi - 1` have taken their entries out of it. */
  function RemoveSegments(buffer: map<string, string>, lo: nat, hi: nat): map<string, string>
    requires lo <= hi
    decreases hi - lo
  {
    if hi == lo then buffer else RemoveSegments(buffer, lo, hi - 1) - {SegmentName(hi - 1)}
  }

  /** Taking out earlier segments leaves a later segment's entry as it was. */
  lemma {:induction false} RemoveSegmentsKeepsLater(buffer: map<string, string>, lo: nat, hi: nat, j: nat)
    requires lo <= hi <= j
    ensures SegmentName(j) in RemoveSegments(buffer, lo, hi) <==> SegmentName(j) in buffer
    ensures SegmentName(j) in buffer ==> RemoveSegments(buffer, lo, hi)[SegmentName(j)] == buffer[SegmentName(j)]
    decreases hi - lo
  {
    if hi > lo {
      RemoveSegmentsKeepsLater(buffer, lo, hi - 1, j);
      if SegmentName(hi - 1) == SegmentName(j) {
        SegmentNameInjective(hi - 1, j);
      }
    }
  }

  // ---------------------------------------------------------------------------
  // The task
  // ---------------------------------------------------------------------------

  /** The fields of a task that its handlers change, as one value. */
  datatype TaskState = TaskState(
    segments: set<string>,
    playlistBuffer: map<string, string>,
    segIndex: nat,
    spawned: Option<seq<Option<string>>>,
    watching: bool,
    uploads: seq<(string, string)>,
    deleted: seq<string>,
    ends: nat)

  class FFMPEGTask {
    const config: TaskConfig
    const inputPath: string := InputPath(config)
    const outPath: string
    const rtmpOutPath: string := RtmpOutPath(config)
    var segments: set<string>
    var playlistBuffer: map<string, string>
    var segIndex: nat
    /** The argv given to `spawn`, once `run()` got that far. */
    var spawned: Option<seq<Option<string>>>
    var watching: bool
    /** The storage uploads, as (key, contents). */
    var uploads: seq<(string, string)>
    /** The files unlinked, as paths. */
    var deleted: seq<string>
    /** How many times 'end' was emitted. */
    var ends: nat

    constructor(config: TaskConfig, join: seq<string> -> string)
      ensures this.config == config
      ensures inputPath == InputPath(config) && rtmpOutPath == RtmpOutPath(config)
      ensures outPath == join([config.mediarootPath, config.streamApp, config.streamName])
      ensures segments == {} && playlistBuffer == map[] && segIndex == 0
      ensures spawned == None && !watching && uploads == [] && deleted == [] && ends == 0
    {
      this.config := config;
      outPath := join([config.mediarootPath, config.streamApp, config.streamName]);
      segments := {};
      playlistBuffer := map[];
      segIndex := 0;
      spawned := None;
      watching := false;
      uploads := [];
      deleted := [];
      ends := 0;
    }

    /**
      The task was just built from `c` and run: spawned with the command line
      of `c`, watching its output directory, with nothing recorded yet.
    */
    predicate StartedWith(c: TaskConfig, join: seq<string> -> string, stamp: string)
      reads this
    {
      && config == c
      && outPath == join([c.mediarootPath, c.streamApp, c.streamName])
      && State() == TaskState({}, map[], 0, Some(Argv(c, outPath, join, stamp)), true, [], [], 0)
    }

    /** Stopping a task that was just started ends it once and deletes exactly `StopDeletes`. */
    lemma StopAfterStart(c: TaskConfig, join: seq<string> -> string, stamp: string, readdir: string -> Option<seq<string>>)
      requires StartedWith(c, join, stamp)
      ensures AfterStop(State(), readdir)
              == TaskState({}, map[], 0, Some(Argv(c, outPath, join, stamp)), false, [], StopDeletes(readdir), 1)
    {
    }

    /** The tokens of `hlsFlags`, each `k=v` pushed as `k` then `v`. */
    method PushHlsFlags(outputOptions: seq<Option<string>>, flags: string) returns (result: seq<Option<string>>)
      ensures result == outputOptions + FlagOptions(Split(flags, ' '))
    {
      var tokens := Split(flags, ' ');
      result := outputOptions;
      for i := 0 to |tokens|
        invariant result + FlagOptions(tokens[i..]) == outputOptions + FlagOptions(tokens)
      {
        assert tokens[i..][1..] == tokens[i + 1..];
        var x := tokens[i];
        if x != "" {
          var kv := Split(x, '=');
          var pushed := [Some(kv[0]), if |kv| > 1 then Some(kv[1]) else None];
          assert FlagOptions(tokens[i..]) == pushed + FlagOptions(tokens[i + 1..]);
          Regroup(result, pushed, FlagOptions(tokens[i + 1..]));
          result := result + pushed;
        }
      }
    }

    method PushRtmpOutput(outputOptions: seq<Option<string>>) returns (result: seq<Option<string>>)
      ensures result == outputOptions + RtmpOptions(config)
    {
      result := outputOptions;
      if config.task.rtmp && config.task.rtmpApp.Some? && config.task.rtmpApp.value != "" {
        if config.task.rtmpApp.value != config.streamApp {
          result := result + [Some(" -f flv " + rtmpOutPath)];
        }
      }
    }

    method PushMp4Output(outputOptions: seq<Option<string>>, join: seq<string> -> string, stamp: string) returns (result: seq<Option<string>>)
      ensures result == outputOptions + Mp4Options(config.task, outPath, join, stamp)
    {
      result := outputOptions;
      if config.task.mp4 {
        var mp4Path := join([outPath, stamp + ".mp4"]);
        result := result + [Some(OrElse(config.task.mp4Flags, "") + " -f mp4 \"" + mp4Path + "\"")];
      }
    }

    method PushHlsOutput(outputOptions: seq<Option<string>>, join: seq<string> -> string) returns (result: seq<Option<string>>)
      ensures result == outputOptions + HlsOptions(config.task, outPath, join)
    {
      result := outputOptions;
      if config.task.hls {
        var hlsPath := join([outPath, "index.m3u8"]);
        if config.task.hlsFlags.Some? {
          result := PushHlsFlags(result, config.task.hlsFlags.value);
        }
        ghost var flags := result;
        result := result + [Some("-f"), Some("hls"), Some(hlsPath), Some("-hls_playlist_type"), Some("vod")];
        assert result == flags + [Some("-f"), Some("hls"), Some(hlsPath), Some("-hls_playlist_type"), Some("vod")];
      }
    }

    method PushDashOutput(outputOptions: seq<Option<string>>, join: seq<string> -> string) returns (result: seq<Option<string>>)
      ensures result == outputOptions + DashOptions(config.task, outPath, join)
    {
      result := outputOptions;
      if config.task.dash {
        var dashPath := join([outPath, "index.mpd"]);
        result := result + [Some(OrElse(config.task.dashFlags, "") + " -f dash " + dashPath)];
      }
    }

    method PushParams(argv: seq<Option<string>>, param: Option<seq<string>>) returns (result: seq<Option<string>>)
      ensures result == argv + ParamOptions(param)
    {
      result := argv;
      if param.Some? {
        result := result + Somes(param.value);
      }
    }

    /**
      `run()`: assembles the command line and spawns ffmpeg with it, then
      watches the output directory.
    */
    method Run(join: seq<string> -> string, stamp: string)
      modifies this
      ensures spawned == Some(Argv(config, outPath, join, stamp)) && watching
      ensures segments == old(segments) && playlistBuffer == old(playlistBuffer) && segIndex == old(segIndex)
      ensures uploads == old(uploads) && deleted == old(deleted) && ends == old(ends)
    {
      var vc := OrElse(config.task.vc, "copy");
      var ac := OrElse(config.task.ac, "copy");
      var outputOptions: seq<Option<string>> := [];
      outputOptions := PushRtmpOutput(outputOptions);
      outputOptions := PushMp4Output(outputOptions, join, stamp);
      outputOptions := PushHlsOutput(outputOptions, join);
      outputOptions := PushDashOutput(outputOptions, join);
      assert outputOptions == OutputOptions(config, outPath, join, stamp);
      var argv := [Some("-y"), Some("-i"), Some(inputPath), Some("-c:v"), Some(vc), Some("-c:a"), Some(ac),
                   Some("-f"), Some("tee"), Some("-map"), Some("0:a?"), Some("-map"), Some("0:v?")]
                  + outputOptions;
      assert argv == ArgvHead(config) + OutputOptions(config, outPath, join, stamp);
      argv := PushParams(argv, config.task.vcParam);
      argv := PushParams(argv, config.task.acParam);
      watching := true;
      spawned := Some(argv);
    }

    /** `getLastSegment(contents)`: scans the lines from the last one back. */
    method GetLastSegment(contents: string) returns (lastSeg: Option<string>)
      ensures lastSeg == LastTsLine(Split(contents, '\n'))
    {
      var lines := Split(contents, '\n');
      var i := |lines| - 1;
      assert lines[..i + 1] == lines;
      while i >= 0
        invariant -1 <= i < |lines|
        invariant LastTsLine(lines) == LastTsLine(lines[..i + 1])
      {
        assert lines[..i + 1][..i] == lines[..i];
        if EndsWith(lines[i], ".ts") {
          return Some(lines[i]);
        }
        i := i - 1;
      }
      return None;
    }

    /**
      `onChange(filepath)`: a playlist is kept under the last segment it lists;
      a segment file is remembered by its base name; nothing else changes.
    */
    method OnChange(filepath: string, contents: string)
      modifies this
      ensures ExtName(filepath) == ".m3u8" ==>
        && segments == old(segments)
        && playlistBuffer == (match LastTsLine(Split(contents, '\n'))
                              case Some(seg) => old(playlistBuffer)[seg := contents]
                              case None => old(playlistBuffer))
      ensures ExtName(filepath) == ".ts" ==>
        segments == old(segments) + {BaseName(filepath)} && playlistBuffer == old(playlistBuffer)
      ensures ExtName(filepath) != ".m3u8" && ExtName(filepath) != ".ts" ==>
        segments == old(segments) && playlistBuffer == old(playlistBuffer)
      ensures segIndex == old(segIndex) && spawned == old(spawned) && watching == old(watching)
      ensures uploads == old(uploads) && deleted == old(deleted) && ends == old(ends)
    {
      var fileName := BaseName(filepath);
      var extension := ExtName(filepath);
      if extension == ".m3u8" {
        var lastSeg := GetLastSegment(contents);
        if lastSeg.Some? {
          playlistBuffer := playlistBuffer[lastSeg.value := contents];
        }
      } else if extension == ".ts" {
        segments := segments + {fileName};
      }
    }

    /** What `uploadToCDN` sends: nothing when no storage is configured. */
    function Upload(fileName: string, contents: string): seq<(string, string)>
    {
      if config.storage then [(config.streamApp + "/" + fileName, contents)] else []
    }

    /** What the interval uploads for segment `i`: the segment, then the playlist kept for it, if any. */
    function SegmentUpload(i: nat, buffer: map<string, string>, read: string -> string): seq<(string, string)>
    {
      var name := SegmentName(i);
      Upload(name, read(outPath + "/" + name)) + (if name in buffer then Upload("index.m3u8", buffer[name]) else [])
    }

    /** The uploads of segments `lo` to `hi - 1`, in that order, each playlist taken from `buffer`. */
    function SegmentUploads(lo: nat, hi: nat, buffer: map<string, string>, read: string -> string): seq<(string, string)>
      requires lo <= hi
      decreases hi - lo
    {
      if hi == lo then [] else SegmentUploads(lo, hi - 1, buffer, read) + SegmentUpload(hi - 1, buffer, read)
    }

    /** The next segment has been announced and is on disk. */
    predicate SegmentReady(fileExists: string -> bool)
      reads this
    {
      SegmentName(segIndex) in segments && fileExists(outPath + "/" + SegmentName(segIndex))
    }

    /**
      One tick of the upload interval: when the next segment is announced and
      on disk, upload it, then the playlist kept for it (dropping it), and move
      to the following segment; otherwise nothing changes.
    */
    method Tick(fileExists: string -> bool, read: string -> string)
      modifies this
      ensures old(SegmentReady(fileExists)) ==>
        var name := SegmentName(old(segIndex));
        && segIndex == old(segIndex) + 1
        && uploads == old(uploads) + Upload(name, read(outPath + "/" + name))
                       + (if name in old(playlistBuffer) then Upload("index.m3u8", old(playlistBuffer)[name]) else [])
        && playlistBuffer == old(playlistBuffer) - {name}
      ensures !old(SegmentReady(fileExists)) ==> segIndex == old(segIndex) && uploads == old(uploads) && playlistBuffer == old(playlistBuffer)
      ensures segments == old(segments) && spawned == old(spawned) && watching == old(watching)
      ensures deleted == old(deleted) && ends == old(ends)
    {
      var fileName := SegmentName(segIndex);
      var path := outPath + "/" + fileName;
      if fileName in segments && fileExists(path) {
        var contents := read(path);
        uploads := uploads + Upload(fileName, contents);
        if fileName in playlistBuffer {
          uploads := uploads + Upload("index.m3u8", playlistBuffer[fileName]);
          playlistBuffer := playlistBuffer - {fileName};
        }
        segIndex := segIndex + 1;
      }
    }

    /** Unlinks each listed file of a directory, in order. */
    method Unlink(dir: string, files: seq<string>)
      modifies this
      ensures deleted == old(deleted) + InDir(dir, files)
      ensures segments == old(segments) && playlistBuffer == old(playlistBuffer) && segIndex == old(segIndex)
      ensures spawned == old(spawned) && watching == old(watching) && uploads == old(uploads) && ends == old(ends)
    {
      for i := 0 to |files|
        invariant deleted == old(deleted) + InDir(dir, files[..i])
        invariant segments == old(segments) && playlistBuffer == old(playlistBuffer) && segIndex == old(segIndex)
        invariant spawned == old(spawned) && watching == old(watching) && uploads == old(uploads) && ends == old(ends)
      {
        assert InDir(dir, files[..i + 1]) == InDir(dir, files[..i]) + [dir + "/" + files[i]];
        deleted := deleted + [dir + "/" + files[i]];
      }
      assert files[..|files|] == files;
    }

    /** The temporary files of directory `path` that `cleanTempFiles` unlinks. */
    function TempDeletes(path: string, readdir: string -> Option<seq<string>>): (paths: seq<string>)
      ensures forall i :: 0 <= i < |paths| ==> |path| < |paths[i]| && paths[i][..|path| + 1] == path + "/"
    {
      if path != "" && readdir(path).Some? then
        InDirInside(path, TempSelection(config, readdir(path).value));
        InDir(path, TempSelection(config, readdir(path).value))
      else []
    }

    /** The HLS files of directory `path` that `deleteHlsFiles` unlinks. */
    function HlsDeletes(path: string, readdir: string -> Option<seq<string>>): (paths: seq<string>)
      ensures forall i :: 0 <= i < |paths| ==> |path| < |paths[i]| && paths[i][..|path| + 1] == path + "/"
    {
      if DeletesHls(config, path) && readdir(path).Some? then
        InDirInside(path, HlsSelection(readdir(path).value));
        InDir(path, HlsSelection(readdir(path).value))
      else []
    }

    /** `cleanTempFiles(path)`: nothing for an empty path or an unreadable directory. */
    method CleanTempFiles(path: string, readdir: string -> Option<seq<string>>)
      modifies this
      ensures deleted == old(deleted) + TempDeletes(path, readdir)
      ensures segments == old(segments) && playlistBuffer == old(playlistBuffer) && segIndex == old(segIndex)
      ensures spawned == old(spawned) && watching == old(watching) && uploads == old(uploads) && ends == old(ends)
    {
      if path == "" {
        return;
      }
      var files := readdir(path);
      if files.None? {
        return;
      }
      if Truthy(GetConfig(config.args, "dashKeep")) {
        Unlink(path, Filter(files.value, IsTemFile));
      } else {
        Unlink(path, Filter(files.value, TemOrDash));
      }
    }

    /** `deleteHlsFiles(path)`: nothing when it is switched off or the directory is unreadable. */
    method DeleteHlsFiles(path: string, readdir: string -> Option<seq<string>>)
      modifies this
      ensures deleted == old(deleted) + HlsDeletes(path, readdir)
      ensures segments == old(segments) && playlistBuffer == old(playlistBuffer) && segIndex == old(segIndex)
      ensures spawned == old(spawned) && watching == old(watching) && uploads == old(uploads) && ends == old(ends)
    {
      if (path == "" && !config.task.hls) || Truthy(GetConfig(config.args, "hlsKeep")) {
        return;
      }
      var files := readdir(path);
      if files.None? {
        return;
      }
      Unlink(path, HlsSelection(files.value));
    }

    /** The task's changing fields. */
    function State(): TaskState
      reads this
    {
      TaskState(segments, playlistBuffer, segIndex, spawned, watching, uploads, deleted, ends)
    }

    /** The files `stop()` unlinks, when `readdir` lists the output directory: all inside it. */
    function StopDeletes(readdir: string -> Option<seq<string>>): (paths: seq<string>)
      ensures forall i :: 0 <= i < |paths| ==> |outPath| < |paths[i]| && paths[i][..|outPath| + 1] == outPath + "/"
    {
      TempDeletes(outPath, readdir) + HlsDeletes(outPath, readdir)
    }

    /** The task's state after `stop()` from state `st`. */
    function AfterStop(st: TaskState, readdir: string -> Option<seq<string>>): TaskState {
      if st.spawned.None? then st.(ends := st.ends + 1)
      else st.(ends := st.ends + 1, watching := false, deleted := st.deleted + StopDeletes(readdir))
    }

    /**
      `stop()` emits 'end' once more, keeps the segment bookkeeping and the
      uploads, and only appends files inside the output directory to the
      deleted ones.
    */
    lemma AfterStopEffect(st: TaskState, readdir: string -> Option<seq<string>>)
      ensures AfterStop(st, readdir).ends == st.ends + 1
      ensures AfterStop(st, readdir).segments == st.segments
      ensures AfterStop(st, readdir).playlistBuffer == st.playlistBuffer
      ensures AfterStop(st, readdir).segIndex == st.segIndex
      ensures AfterStop(st, readdir).spawned == st.spawned
      ensures AfterStop(st, readdir).uploads == st.uploads
      ensures |st.deleted| <= |AfterStop(st, readdir).deleted|
      ensures AfterStop(st, readdir).deleted[..|st.deleted|] == st.deleted
      ensures forall i :: |st.deleted| <= i < |AfterStop(st, readdir).deleted| ==>
        |outPath| < |AfterStop(st, readdir).deleted[i]| && AfterStop(st, readdir).deleted[i][..|outPath| + 1] == outPath + "/"
    {
      var r := AfterStop(st, readdir);
      if st.spawned.None? {
        assert r == st.(ends := st.ends + 1);
        assert r.deleted[..|st.deleted|] == st.deleted;
      } else {
        var ds := StopDeletes(readdir);
        assert r == st.(ends := st.ends + 1, watching := false, deleted := st.deleted + ds);
        assert r.deleted[..|st.deleted|] == st.deleted;
        forall i | |st.deleted| <= i < |r.deleted|
          ensures |outPath| < |r.deleted[i]| && r.deleted[i][..|outPath| + 1] == outPath + "/"
        {
          assert r.deleted[i] == ds[i - |st.deleted|];
        }
      }
    }

    /**
      `stop()`: emits 'end' first. Killing the ffmpeg process of a task that
      never spawned one throws, which skips the rest; otherwise the watcher is
      closed, then the temporary files and the HLS output are removed.
    */
    method Stop(readdir: string -> Option<seq<string>>)
      modifies this
      ensures ends == old(ends) + 1
      ensures old(spawned).None? ==> deleted == old(deleted) && watching == old(watching)
      ensures old(spawned).Some? ==>
        && !watching
        && deleted == old(deleted) + StopDeletes(readdir)
      ensures segments == old(segments) && playlistBuffer == old(playlistBuffer) && segIndex == old(segIndex)
      ensures spawned == old(spawned) && uploads == old(uploads)
      ensures State() == AfterStop(old(State()), readdir)
    {
      ends := ends + 1;
      if spawned.None? {
        return;
      }
      watching := false;
      CleanTempFiles(outPath, readdir);
      DeleteHlsFiles(outPath, readdir);
      Regroup(old(deleted), TempDeletes(outPath, readdir), HlsDeletes(outPath, readdir));
    }
  }

  /**
    The interval never skips a segment: while the next `n` segments are
    announced and on disk, `n` ticks upload exactly those segments, in order,
    each followed by its playlist, and take their playlists out of the buffer.
  */
  method TicksUploadInOrder(t: FFMPEGTask, n: nat, fileExists: string -> bool, read: string -> string)
    modifies t
    requires forall i :: t.segIndex <= i < t.segIndex + n ==> SegmentName(i) in t.segments && fileExists(t.outPath + "/" + SegmentName(i))
    ensures t.segIndex == old(t.segIndex) + n
    ensures t.uploads == old(t.uploads) + t.SegmentUploads(old(t.segIndex), t.segIndex, old(t.playlistBuffer), read)
    ensures t.playlistBuffer == RemoveSegments(old(t.playlistBuffer), old(t.segIndex), t.segIndex)
  {
    ghost var lo := t.segIndex;
    ghost var buffer := t.playlistBuffer;
    ghost var uploads := t.uploads;
    for k := 0 to n
      invariant t.segIndex == lo + k && t.segments == old(t.segments)
      invariant t.uploads == uploads + t.SegmentUploads(lo, lo + k, buffer, read)
      invariant t.playlistBuffer == RemoveSegments(buffer, lo, lo + k)
    {
      RemoveSegmentsKeepsLater(buffer, lo, lo + k, lo + k);
      ghost var before := t.uploads;
      t.Tick(fileExists, read);
      Regroup(before, t.Upload(SegmentName(lo + k), read(t.outPath + "/" + SegmentName(lo + k))),
        if SegmentName(lo + k) in buffer then t.Upload("index.m3u8", buffer[SegmentName(lo + k)]) else []);
      Regroup(uploads, t.SegmentUploads(lo, lo + k, buffer, read), t.SegmentUpload(lo + k, buffer, read));
    }
  }
}
