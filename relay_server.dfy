/**
  The relay server: it starts ffmpeg relay sessions that pull a remote stream
  into the local RTMP server or push a local stream out, keeps them in two
  id-keyed maps (static sessions by task index, dynamic sessions by session
  id) and ends them when the stream they serve goes away.

  A configured relay task is a mutable object the handlers write into
  (`name`, `ffmpeg`, `inPath`, `ouPath`); here it is a value in the sequence
  `tasks`, reassigned at its index. A session keeps the task as it was when
  the session was created. A session's 'end' handler runs as part of the
  call that ends it.
*/
module RelayServer {
  import opened JsText
  import opened CoreUtils
  import opened Globals

  /**
    A relay task as configured (`app`, `name`, `mode`, `edge`, `appendName`,
    `rtsp_transport`) with the fields the handlers fill in. Absent values are
    None; an `appendName` that is not a boolean is None.
  */
  datatype RelayTask = RelayTask(
    app: Option<string>,
    name: Option<string>,
    mode: Option<string>,
    edge: Option<string>,
    appendName: Option<bool>,
    rtspTransport: Option<string>,
    ffmpeg: Option<string>,
    inPath: Option<string>,
    ouPath: Option<string>)

  /**
    A relay session: the configuration it runs, the stream path of a static
    session, and whether it is also registered in the global `sessions`
    (its 'end' then removes it from there too).
  */
  datatype RelaySession = RelaySession(conf: RelayTask, streamPath: Option<string>, registered: bool)

  /** `${v}` for a value that may be undefined. */
  function AppText(v: Option<string>): string {
    match v
    case Some(s) => s
    case None => "undefined"
  }

  /** `v ? ... : ...`: a string is truthy when it is present and not empty. */
  predicate NameTruthy(v: Option<string>) {
    v.Some? && v.value != ""
  }

  /** The local RTMP server's URL for a stream path. */
  function LocalUrl(port: string, streamPath: string): string {
    "rtmp://127.0.0.1:" + port + streamPath
  }

  // ---------------------------------------------------------------------------
  // `/rtmp:\/\/([^\/]+)\/([^\/]+)/` on an edge URL
  // ---------------------------------------------------------------------------

  /** Host characters up to the first '/', then one character that is not '/'. */
  predicate HostRest(s: string) {
    |s| >= 2 && (if s[0] == '/' then s[1] != '/' else HostRest(s[1..]))
  }

  /** `[^\/]+\/[^\/]` at the start of `s`. */
  predicate HostThenApp(s: string) {
    |s| >= 3 && s[0] != '/' && HostRest(s[1..])
  }

  /** Whether the edge URL names a host and an application somewhere in it. */
  predicate HasApp(edge: string) {
    |edge| >= 7 && ((edge[..7] == "rtmp://" && HostThenApp(edge[7..])) || HasApp(edge[1..]))
  }

  lemma {:induction false} HostRestOf(host: string, rest: string)
    requires '/' !in host && rest != [] && rest[0] != '/'
    ensures HostRest(host + "/" + rest)
  {
    if host != [] {
      assert (host + "/" + rest)[1..] == host[1..] + "/" + rest;
      HostRestOf(host[1..], rest);
    }
  }

  lemma {:induction false} HostRestNoSlash(s: string)
    requires '/' !in s
    ensures !HostRest(s)
  {
    if |s| >= 2 {
      HostRestNoSlash(s[1..]);
    }
  }

  /** An edge of the form rtmp://host/app... names an application. */
  lemma HasAppOfHostApp(host: string, app: string)
    requires host != [] && '/' !in host
    requires app != [] && app[0] != '/'
    ensures HasApp("rtmp://" + host + "/" + app)
  {
    var edge := "rtmp://" + host + "/" + app;
    assert edge[..7] == "rtmp://";
    assert edge[7..] == host + "/" + app;
    assert edge[8..] == host[1..] + "/" + app;
    HostRestOf(host[1..], app);
  }

  lemma {:induction false} NoSchemeAhead(s: string)
    requires forall j :: 6 <= j < |s| ==> s[j] != '/'
    ensures !HasApp(s)
  {
    if |s| >= 7 {
      assert s[6] != '/';
      NoSchemeAhead(s[1..]);
    }
  }

  /** An edge rtmp://host without an application does not name one. */
  lemma HasAppNotOfHost(host: string)
    requires '/' !in host
    ensures !HasApp("rtmp://" + host)
  {
    var edge := "rtmp://" + host;
    assert edge[7..] == host;
    if |host| >= 3 {
      HostRestNoSlash(host[1..]);
    }
    if |edge| >= 7 {
      NoSchemeAhead(edge[1..]);
    }
  }

  // ---------------------------------------------------------------------------
  // Relay URLs
  // ---------------------------------------------------------------------------

  /** `'?' + querystring.encode(args)` when `args` has keys, otherwise nothing. */
  function Query(args: map<string, string>, encode: map<string, string> -> string): (q: string)
    ensures args == map[] ==> q == ""
    ensures args != map[] ==> q == "?" + encode(args)
  {
    if |args| > 0 then "?" + encode(args) else ""
  }

  /** The remote URL for a stream: the edge and the stream name when the edge names an app, else the edge and the path. */
  function RemoteUrl(edge: string, stream: Option<string>, streamPath: string): string {
    if HasApp(edge) then edge + "/" + AppText(stream) else edge + streamPath
  }

  /** What a play or publish request carries that the relay uses. */
  datatype Request = Request(id: string, streamPath: string, app: Option<string>, stream: Option<string>, query: string)

  /** The request for a stream path; a path that does not match "/app/name" has neither. */
  function RequestOf(id: string, streamPath: string, args: map<string, string>, encode: map<string, string> -> string): (r: Request)
    ensures r.app.Some? <==> ExecAppStream(streamPath).Some?
    ensures r.stream.Some? <==> r.app.Some?
    ensures r.app.Some? ==> (r.app.value, r.stream.value) == ExecAppStream(streamPath).value
    ensures r.query == Query(args, encode)
  {
    match ExecAppStream(streamPath)
    case Some((app, stream)) => Request(id, streamPath, Some(app), Some(stream), Query(args, encode))
    case None => Request(id, streamPath, None, None, Query(args, encode))
  }

  /** Pulling brings a remote stream in on demand; pushing sends a local one out. */
  datatype Direction = Pull | Push

  /** Whether a task is relayed for the request: its mode and app match, and a pull only for a path nobody publishes. */
  predicate Selected(dir: Direction, t: RelayTask, rq: Request, published: bool) {
    match dir
    case Pull => t.mode == Some("pull") && rq.app == t.app && !published
    case Push => t.mode == Some("push") && rq.app == t.app
  }

  /** The task as the handler rewrites it for the request. */
  function Relayed(dir: Direction, t: RelayTask, edge: string, port: string, ffmpeg: string, rq: Request): (r: RelayTask)
    ensures r.(ffmpeg := t.ffmpeg, inPath := t.inPath, ouPath := t.ouPath) == t && r.ffmpeg == Some(ffmpeg)
    ensures dir == Pull ==>
      && r.inPath == Some(RemoteUrl(edge, rq.stream, rq.streamPath) + rq.query)
      && r.ouPath == Some(LocalUrl(port, rq.streamPath))
    ensures dir == Push ==>
      && r.inPath == Some(LocalUrl(port, rq.streamPath))
      && r.ouPath == Some((if t.appendName == Some(false) then edge else RemoteUrl(edge, rq.stream, rq.streamPath)) + rq.query)
  {
    match dir
    case Pull =>
      t.(ffmpeg := Some(ffmpeg),
         inPath := Some(RemoteUrl(edge, rq.stream, rq.streamPath) + rq.query),
         ouPath := Some(LocalUrl(port, rq.streamPath)))
    case Push =>
      var out := if t.appendName == Some(false) then edge else RemoteUrl(edge, rq.stream, rq.streamPath);
      t.(ffmpeg := Some(ffmpeg), inPath := Some(LocalUrl(port, rq.streamPath)), ouPath := Some(out + rq.query))
  }

  // ---------------------------------------------------------------------------
  // The passes over the configured tasks, last index first
  // ---------------------------------------------------------------------------

  /** The tasks, the sessions run so far, and whether a task without an edge made the handler throw. */
  datatype DynState = DynState(tasks: seq<RelayTask>, runs: seq<RelaySession>, threw: bool)

  /** One iteration of the `onPrePlay` / `onPostPublish` loop at index `i`. */
  function DynVisit(dir: Direction, port: string, ffmpeg: string, rq: Request, published: bool, st: DynState, i: nat): (r: DynState)
    requires i < |st.tasks|
    ensures |r.tasks| == |st.tasks| && r.tasks[..i] == st.tasks[..i] && r.tasks[i + 1..] == st.tasks[i + 1..]
    ensures |r.runs| >= |st.runs| && r.runs[..|st.runs|] == st.runs
  {
    var t := st.tasks[i];
    if !Selected(dir, t, rq, published) then st
    else
      match t.edge
      case None => st.(threw := true)
      case Some(edge) =>
        var t' := Relayed(dir, t, edge, port, ffmpeg, rq);
        DynState(st.tasks[i := t'], st.runs + [RelaySession(t', None, false)], st.threw)
  }

  /** The loop over indices `k - 1` down to 0, stopping at a throw. */
  function DynPass(dir: Direction, port: string, ffmpeg: string, rq: Request, published: bool, st: DynState, k: nat): (r: DynState)
    requires k <= |st.tasks|
    ensures |r.tasks| == |st.tasks| && r.tasks[k..] == st.tasks[k..]
    ensures |r.runs| >= |st.runs| && r.runs[..|st.runs|] == st.runs
    decreases k
  {
    if k == 0 || st.threw then st
    else
      var st' := DynVisit(dir, port, ffmpeg, rq, published, st, k - 1);
      var r := DynPass(dir, port, ffmpeg, rq, published, st', k - 1);
      assert r.tasks[k..] == r.tasks[k - 1..][1..];
      r
  }

  /** Some selected task of `ts` lacks an edge. */
  predicate EdgeMissing(dir: Direction, ts: seq<RelayTask>, rq: Request, published: bool) {
    ts != [] && ((Selected(dir, ts[|ts| - 1], rq, published) && ts[|ts| - 1].edge.None?) || EdgeMissing(dir, ts[..|ts| - 1], rq, published))
  }

  /** No task of `ts` is selected. */
  predicate NoneSelected(dir: Direction, ts: seq<RelayTask>, rq: Request, published: bool) {
    ts == [] || (!Selected(dir, ts[|ts| - 1], rq, published) && NoneSelected(dir, ts[..|ts| - 1], rq, published))
  }

  /** The lowest selected index of `ts`. */
  function FirstSelected(dir: Direction, ts: seq<RelayTask>, rq: Request, published: bool): (m: nat)
    requires !NoneSelected(dir, ts, rq, published)
    ensures m < |ts| && Selected(dir, ts[m], rq, published) && NoneSelected(dir, ts[..m], rq, published)
  {
    var init := ts[..|ts| - 1];
    if NoneSelected(dir, init, rq, published) then |ts| - 1
    else
      var m := FirstSelected(dir, init, rq, published);
      assert ts[..m] == init[..m];
      m
  }

  /** `NoneSelected` says what it means: no index of `ts` is selected. */
  lemma {:induction false} NoneSelectedIff(dir: Direction, ts: seq<RelayTask>, rq: Request, published: bool)
    ensures NoneSelected(dir, ts, rq, published) <==> forall j :: 0 <= j < |ts| ==> !Selected(dir, ts[j], rq, published)
  {
    if ts != [] {
      var init := ts[..|ts| - 1];
      NoneSelectedIff(dir, init, rq, published);
      assert forall j :: 0 <= j < |init| ==> init[j] == ts[j];
    }
  }

  /** A selected task without an edge is missing one. */
  lemma {:induction false} EdgeMissingAt(dir: Direction, ts: seq<RelayTask>, rq: Request, published: bool, j: nat)
    requires j < |ts| && Selected(dir, ts[j], rq, published) && ts[j].edge.None?
    ensures EdgeMissing(dir, ts, rq, published)
  {
    if j < |ts| - 1 {
      var init := ts[..|ts| - 1];
      assert init[j] == ts[j];
      EdgeMissingAt(dir, init, rq, published, j);
    }
  }

  /** The handler throws exactly when a selected task among the first `k` has no edge. */
  lemma {:induction false} DynPassThrows(dir: Direction, port: string, ffmpeg: string, rq: Request, published: bool, st: DynState, k: nat)
    requires k <= |st.tasks| && !st.threw
    ensures DynPass(dir, port, ffmpeg, rq, published, st, k).threw <==> EdgeMissing(dir, st.tasks[..k], rq, published)
    decreases k
  {
    if k > 0 {
      var st' := DynVisit(dir, port, ffmpeg, rq, published, st, k - 1);
      assert st.tasks[..k][..k - 1] == st.tasks[..k - 1];
      assert st.tasks[..k][k - 1] == st.tasks[k - 1];
      if !st'.threw {
        DynPassThrows(dir, port, ffmpeg, rq, published, st', k - 1);
      }
    }
  }

  /**
    Without a throw, each selected task among the first `k` is rewritten for
    the request and every other task is left as it was.
  */
  lemma {:induction false} DynPassTask(dir: Direction, port: string, ffmpeg: string, rq: Request, published: bool, st: DynState, k: nat, j: nat)
    requires j < k <= |st.tasks| && !st.threw
    requires !EdgeMissing(dir, st.tasks[..k], rq, published)
    ensures var t, r := st.tasks[j], DynPass(dir, port, ffmpeg, rq, published, st, k).tasks[j];
      && (Selected(dir, t, rq, published) ==> t.edge.Some? && r == Relayed(dir, t, t.edge.value, port, ffmpeg, rq))
      && (!Selected(dir, t, rq, published) ==> r == t)
    decreases k
  {
    var st' := DynVisit(dir, port, ffmpeg, rq, published, st, k - 1);
    var r := DynPass(dir, port, ffmpeg, rq, published, st', k - 1);
    assert st.tasks[..k][..k - 1] == st.tasks[..k - 1];
    assert st.tasks[..k][k - 1] == st.tasks[k - 1];
    if j < k - 1 {
      assert st'.tasks[..k - 1] == st.tasks[..k - 1];
      assert st'.tasks[j] == st.tasks[..k - 1][j];
      DynPassTask(dir, port, ffmpeg, rq, published, st', k - 1, j);
    } else {
      assert r.tasks[k - 1] == r.tasks[k - 1..][0];
    }
  }

  /**
    The sessions the loop runs for `ts`, in the order it runs them: from the
    last task to the first, one for each selected task.
  */
  function RunsOf(dir: Direction, port: string, ffmpeg: string, rq: Request, published: bool, ts: seq<RelayTask>): seq<RelaySession> {
    if ts == [] then []
    else
      var t := ts[|ts| - 1];
      (if Selected(dir, t, rq, published) && t.edge.Some? then [RelaySession(Relayed(dir, t, t.edge.value, port, ffmpeg, rq), None, false)] else [])
      + RunsOf(dir, port, ffmpeg, rq, published, ts[..|ts| - 1])
  }

  /** Without a throw, the pass over the first `k` tasks runs exactly the sessions of `RunsOf`, after those run before. */
  lemma {:induction false} DynPassRuns(dir: Direction, port: string, ffmpeg: string, rq: Request, published: bool, st: DynState, k: nat)
    requires k <= |st.tasks| && !st.threw
    requires !EdgeMissing(dir, st.tasks[..k], rq, published)
    ensures DynPass(dir, port, ffmpeg, rq, published, st, k).runs == st.runs + RunsOf(dir, port, ffmpeg, rq, published, st.tasks[..k])
    decreases k
  {
    if k > 0 {
      var st' := DynVisit(dir, port, ffmpeg, rq, published, st, k - 1);
      var init := st.tasks[..k - 1];
      assert st.tasks[..k][..k - 1] == init;
      assert st.tasks[..k][k - 1] == st.tasks[k - 1];
      assert st'.tasks[..k - 1] == init;
      DynPassRuns(dir, port, ffmpeg, rq, published, st', k - 1);
      Regroup(st.runs, st'.runs[|st.runs|..], RunsOf(dir, port, ffmpeg, rq, published, init));
      assert st'.runs == st.runs + st'.runs[|st.runs|..];
    }
  }

  /** No session is run exactly when no task is selected. */
  lemma {:induction false} RunsOfNone(dir: Direction, port: string, ffmpeg: string, rq: Request, published: bool, ts: seq<RelayTask>)
    requires !EdgeMissing(dir, ts, rq, published)
    ensures RunsOf(dir, port, ffmpeg, rq, published, ts) == [] <==> NoneSelected(dir, ts, rq, published)
  {
    if ts != [] {
      RunsOfNone(dir, port, ffmpeg, rq, published, ts[..|ts| - 1]);
    }
  }

  /**
    The last session run is the one of the lowest selected index: the loop
    goes from the last task to the first, so the first configured task that
    matches wins.
  */
  lemma {:induction false} RunsOfLast(dir: Direction, port: string, ffmpeg: string, rq: Request, published: bool, ts: seq<RelayTask>)
    requires !EdgeMissing(dir, ts, rq, published) && !NoneSelected(dir, ts, rq, published)
    ensures var rs, t := RunsOf(dir, port, ffmpeg, rq, published, ts), ts[FirstSelected(dir, ts, rq, published)];
      && t.edge.Some? && rs != []
      && rs[|rs| - 1] == RelaySession(Relayed(dir, t, t.edge.value, port, ffmpeg, rq), None, false)
  {
    var init := ts[..|ts| - 1];
    if NoneSelected(dir, init, rq, published) {
      RunsOfNone(dir, port, ffmpeg, rq, published, init);
    } else {
      var m := FirstSelected(dir, init, rq, published);
      assert ts[m] == init[m];
      RunsOfLast(dir, port, ffmpeg, rq, published, init);
    }
  }

  /**
    The names `genRandomName()` returns: `names(d)` is the one drawn from
    `Math.random()` draws `d` to `d + 3`.
  */
  ghost predicate FourCharNames(names: nat -> string) {
    forall d :: |names(d)| == 4
  }

  /** The `onStatic` loop's state: tasks, static sessions, sessions run and the next names draw. */
  datatype StaticState = StaticState(tasks: seq<RelayTask>, statics: map<nat, RelaySession>, runs: seq<RelaySession>, draws: nat)

  /** A static task with its name and paths written in, and the session started for it. */
  function StaticTask(t: RelayTask, name: string, port: string, ffmpeg: string): RelayTask {
    t.(name := Some(name), ffmpeg := Some(ffmpeg), inPath := t.edge, ouPath := Some(LocalUrl(port, "/" + AppText(t.app) + "/" + name)))
  }

  function StaticSession(t: RelayTask): RelaySession
    requires t.name.Some?
  {
    RelaySession(t, Some("/" + AppText(t.app) + "/" + t.name.value), false)
  }

  /** One iteration of the `onStatic` loop at index `i`. */
  function StaticVisit(port: string, ffmpeg: string, names: nat -> string, st: StaticState, i: nat): (r: StaticState)
    requires i < |st.tasks|
    ensures |r.tasks| == |st.tasks| && r.tasks[..i] == st.tasks[..i] && r.tasks[i + 1..] == st.tasks[i + 1..]
    ensures r.tasks[i].mode == st.tasks[i].mode
    ensures forall j :: j in st.statics ==> j in r.statics && r.statics[j] == st.statics[j]
    ensures forall j :: j in r.statics ==> j in st.statics || j == i
  {
    var t := st.tasks[i];
    if i in st.statics || t.mode != Some("static") then st
    else
      var name := if NameTruthy(t.name) then t.name.value else names(st.draws);
      var t' := StaticTask(t, name, port, ffmpeg);
      StaticState(st.tasks[i := t'], st.statics[i := StaticSession(t')], st.runs + [StaticSession(t')],
                  if NameTruthy(t.name) then st.draws else st.draws + 4)
  }

  /** The loop over indices `k - 1` down to 0. */
  function StaticPass(port: string, ffmpeg: string, names: nat -> string, st: StaticState, k: nat): (r: StaticState)
    requires k <= |st.tasks|
    ensures |r.tasks| == |st.tasks| && r.tasks[k..] == st.tasks[k..]
    ensures forall j :: j in st.statics ==> j in r.statics && r.statics[j] == st.statics[j]
    decreases k
  {
    if k == 0 then st
    else
      var st' := StaticVisit(port, ffmpeg, names, st, k - 1);
      var r := StaticPass(port, ffmpeg, names, st', k - 1);
      assert r.tasks[k..] == r.tasks[k - 1..][1..];
      r
  }

  /** The static tasks among the first `k` not yet started. */
  predicate Startable(st: StaticState, j: nat)
    requires j < |st.tasks|
  {
    j !in st.statics && st.tasks[j].mode == Some("static")
  }

  /** `onStatic` keeps the mode of every task. */
  lemma {:induction false} StaticPassKeepsMode(port: string, ffmpeg: string, names: nat -> string, st: StaticState, k: nat, j: nat)
    requires k <= |st.tasks| && j < |st.tasks|
    ensures StaticPass(port, ffmpeg, names, st, k).tasks[j].mode == st.tasks[j].mode
    decreases k
  {
    if k > 0 {
      var st' := StaticVisit(port, ffmpeg, names, st, k - 1);
      StaticPassKeepsMode(port, ffmpeg, names, st', k - 1, j);
    }
  }

  /** `onStatic` keeps every task it does not start. */
  lemma {:induction false} StaticPassKeeps(port: string, ffmpeg: string, names: nat -> string, st: StaticState, k: nat, j: nat)
    requires k <= |st.tasks| && j < |st.tasks| && !Startable(st, j)
    ensures StaticPass(port, ffmpeg, names, st, k).tasks[j] == st.tasks[j]
    decreases k
  {
    if k > 0 {
      var st' := StaticVisit(port, ffmpeg, names, st, k - 1);
      if j != k - 1 {
        assert st'.tasks[j] == st.tasks[j];
      } else {
        assert st' == st;
      }
      assert !Startable(st', j);
      StaticPassKeeps(port, ffmpeg, names, st', k - 1, j);
    }
  }

  /** `onStatic` starts sessions only for static tasks that had none. */
  lemma {:induction false} StaticPassNewKeys(port: string, ffmpeg: string, names: nat -> string, st: StaticState, k: nat, j: nat)
    requires k <= |st.tasks|
    requires j in StaticPass(port, ffmpeg, names, st, k).statics && j !in st.statics
    ensures j < k && Startable(st, j)
    decreases k
  {
    var st' := StaticVisit(port, ffmpeg, names, st, k - 1);
    if j !in st'.statics {
      StaticPassNewKeys(port, ffmpeg, names, st', k - 1, j);
      assert Startable(st', j) == Startable(st, j);
    }
  }

  /**
    `onStatic` starts every static task among the first `k` that has no
    session yet: it gets a truthy name, kept when it had one (otherwise four
    drawn characters), its output on the local server under app and name, and
    a session under its index.
  */
  lemma {:induction false} StaticPassStarts(port: string, ffmpeg: string, names: nat -> string, st: StaticState, k: nat, j: nat)
    requires k <= |st.tasks| && FourCharNames(names)
    requires j < k && Startable(st, j)
    ensures var r := StaticPass(port, ffmpeg, names, st, k);
      && |r.tasks| == |st.tasks|
      && r.tasks[j].name.Some? && NameTruthy(r.tasks[j].name)
      && (NameTruthy(st.tasks[j].name) ==> r.tasks[j].name == st.tasks[j].name)
      && (!NameTruthy(st.tasks[j].name) ==> |r.tasks[j].name.value| == 4)
      && r.tasks[j] == StaticTask(st.tasks[j], r.tasks[j].name.value, port, ffmpeg)
      && j in r.statics && r.statics[j] == StaticSession(r.tasks[j])
    decreases k
  {
    var st' := StaticVisit(port, ffmpeg, names, st, k - 1);
    if j < k - 1 {
      assert Startable(st', j);
      StaticPassStarts(port, ffmpeg, names, st', k - 1, j);
    }
  }

  /** A pass over tasks that all have sessions, or are not static, changes nothing. */
  lemma {:induction false} StaticPassIdle(port: string, ffmpeg: string, names: nat -> string, st: StaticState, k: nat)
    requires k <= |st.tasks|
    requires forall j :: 0 <= j < k ==> !Startable(st, j)
    ensures StaticPass(port, ffmpeg, names, st, k) == st
    decreases k
  {
    if k > 0 {
      assert !Startable(st, k - 1);
      StaticPassIdle(port, ffmpeg, names, st, k - 1);
    }
  }

  /** Once every static task has a session, the next cycle starts nothing and draws no name. */
  lemma StaticPassIdempotent(port: string, ffmpeg: string, names: nat -> string, st: StaticState)
    requires FourCharNames(names)
    ensures var r := StaticPass(port, ffmpeg, names, st, |st.tasks|);
      StaticPass(port, ffmpeg, names, r, |r.tasks|) == r
  {
    var r := StaticPass(port, ffmpeg, names, st, |st.tasks|);
    forall j | 0 <= j < |r.tasks|
      ensures !Startable(r, j)
    {
      StaticPassKeepsMode(port, ffmpeg, names, st, |st.tasks|, j);
      if Startable(st, j) {
        StaticPassStarts(port, ffmpeg, names, st, |st.tasks|, j);
      } else {
        StaticPassKeeps(port, ffmpeg, names, st, |st.tasks|, j);
      }
    }
    StaticPassIdle(port, ffmpeg, names, r, |r.tasks|);
  }

  /** The dynamic sessions after a relay loop under `id` that found `runs` past its first `n`: the last one run is kept. */
  function Kept(before: map<string, RelaySession>, id: string, n: nat, runs: seq<RelaySession>): (m: map<string, RelaySession>)
    ensures |runs| <= n ==> m == before
    ensures |runs| > n ==> m == before[id := runs[|runs| - 1]]
  {
    if |runs| <= n then before else before[id := runs[|runs| - 1]]
  }

  lemma UpdateAgain(before: map<string, RelaySession>, id: string, n: nat, runs: seq<RelaySession>, s: RelaySession)
    requires |runs| >= n
    ensures Kept(before, id, n, runs)[id := s] == Kept(before, id, n, runs + [s])
  {
  }

  /** The static sessions that survive the end of a publish on `streamPath`. */
  function StaticsLeft(statics: map<nat, RelaySession>, streamPath: string): (r: map<nat, RelaySession>)
    ensures forall i :: i in r <==> i in statics && statics[i].streamPath != Some(streamPath)
    ensures forall i :: i in r ==> r[i] == statics[i]
  {
    map i | i in statics && statics[i].streamPath != Some(streamPath) :: statics[i]
  }

  class RelayServer {
    /** `relay.ffmpeg` and `rtmp.port` of the server configuration. */
    const ffmpeg: string
    const port: string
    /** `relay.tasks`; an absent list behaves as an empty one in every handler. */
    var tasks: seq<RelayTask>
    var staticSessions: map<nat, RelaySession>
    var dynamicSessions: map<string, RelaySession>
    /** Every session run, in order. */
    var runs: seq<RelaySession>
    /** How many `Math.random()` draws the generated names have used. */
    var draws: nat

    constructor(ffmpeg: string, port: string, tasks: seq<RelayTask>)
      ensures this.ffmpeg == ffmpeg && this.port == port && this.tasks == tasks
      ensures staticSessions == map[] && dynamicSessions == map[] && runs == [] && draws == 0
    {
      this.ffmpeg := ffmpeg;
      this.port := port;
      this.tasks := tasks;
      staticSessions := map[];
      dynamicSessions := map[];
      runs := [];
      draws := 0;
    }

    function StaticNow(): StaticState
      reads this
    {
      StaticState(tasks, staticSessions, runs, draws)
    }

    /**
      `onStatic`, every second: from the last task to the first, each static
      task without a session gets its name (generated only when it has none,
      and written back), its input and output, and a session under its index.
    */
    method OnStatic(random: nat -> real, ghost names: nat -> string)
      requires IsRandomSource(random) && forall d {:trigger Drawn(NAME_CHARS, random, d, 4)} :: names(d) == Drawn(NAME_CHARS, random, d, 4)
      modifies this
      ensures StaticNow() == StaticPass(port, ffmpeg, names, old(StaticNow()), old(|tasks|))
      ensures dynamicSessions == old(dynamicSessions)
    {
      var i := |tasks|;
      while i > 0
        invariant 0 <= i <= |tasks| && dynamicSessions == old(dynamicSessions)
        invariant StaticPass(port, ffmpeg, names, StaticNow(), i) == StaticPass(port, ffmpeg, names, old(StaticNow()), old(|tasks|))
      {
        i := i - 1;
        VisitStatic(i, random, names);
      }
    }

    /** One iteration of the `onStatic` loop. */
    method VisitStatic(i: nat, random: nat -> real, ghost names: nat -> string)
      requires i < |tasks| && IsRandomSource(random) && forall d {:trigger Drawn(NAME_CHARS, random, d, 4)} :: names(d) == Drawn(NAME_CHARS, random, d, 4)
      modifies this
      ensures StaticNow() == StaticVisit(port, ffmpeg, names, old(StaticNow()), i)
      ensures dynamicSessions == old(dynamicSessions)
    {
      var conf := tasks[i];
      if i !in staticSessions && conf.mode == Some("static") {
        var name: string;
        if NameTruthy(conf.name) {
          name := conf.name.value;
        } else {
          name, draws := GenRandomName(random, draws);
        }
        conf := StaticTask(conf, name, port, ffmpeg);
        var session := StaticSession(conf);
        tasks := tasks[i := conf];
        staticSessions := staticSessions[i := session];
        runs := runs + [session];
      }
    }

    /** A static session's 'end': its index is free again, so the next cycle restarts the task. */
    method OnStaticEnd(i: nat)
      modifies this
      ensures staticSessions == old(staticSessions) - {i}
      ensures tasks == old(tasks) && dynamicSessions == old(dynamicSessions) && runs == old(runs) && draws == old(draws)
    {
      staticSessions := staticSessions - {i};
    }

    /** Runs a session created by a relay request and registers it under its id in `sessions` and `dynamicSessions`. */
    method Register(id: string, conf: RelayTask, done: Event, reg: Registry) returns (session: RelaySession)
      modifies this, reg
      ensures session == RelaySession(conf, None, true)
      ensures reg.sessions == old(reg.sessions) + {id} && dynamicSessions == old(dynamicSessions)[id := session]
      ensures runs == old(runs) + [session] && reg.events == old(reg.events) + [done]
      ensures tasks == old(tasks) && staticSessions == old(staticSessions) && draws == old(draws)
      ensures reg.publishersPaths == old(reg.publishersPaths) && reg.idlePlayers == old(reg.idlePlayers)
      ensures reg.publisherSessions == old(reg.publisherSessions) && reg.playersSessions == old(reg.playersSessions)
    {
      session := RelaySession(conf, None, true);
      reg.sessions := reg.sessions + {id};
      dynamicSessions := dynamicSessions[id := session];
      runs := runs + [session];
      reg.events := reg.events + [done];
    }

    /** `onRelayTask`: relays `path` to `url` under the new session's id. */
    method OnRelayTask(path: string, url: string, id: string, reg: Registry)
      modifies this, reg
      ensures var conf := RelayTask(Some("-"), Some("-"), None, None, None, None, Some(ffmpeg), Some(path), Some(url));
        && dynamicSessions == old(dynamicSessions)[id := RelaySession(conf, None, true)]
        && runs == old(runs) + [RelaySession(conf, None, true)]
      ensures reg.sessions == old(reg.sessions) + {id} && reg.events == old(reg.events) + [RelayTaskDone(id)]
      ensures tasks == old(tasks) && staticSessions == old(staticSessions) && draws == old(draws)
      ensures reg.publishersPaths == old(reg.publishersPaths) && reg.idlePlayers == old(reg.idlePlayers)
      ensures reg.publisherSessions == old(reg.publisherSessions) && reg.playersSessions == old(reg.playersSessions)
    {
      var conf := RelayTask(Some("-"), Some("-"), None, None, None, None, Some(ffmpeg), Some(path), Some(url));
      var _ := Register(id, conf, RelayTaskDone(id), reg);
    }

    /** `onRelayPull`: pulls `url` into the local stream /app/name, with the RTSP transport when one is given. */
    method OnRelayPull(url: string, app: string, name: string, rtspTransport: Option<string>, id: string, reg: Registry)
      modifies this, reg
      ensures var conf := RelayTask(Some(app), Some(name), Some("pull"), None, None,
                                    if NameTruthy(rtspTransport) then rtspTransport else None,
                                    Some(ffmpeg), Some(url), Some(LocalUrl(port, "/" + app + "/" + name)));
        && dynamicSessions == old(dynamicSessions)[id := RelaySession(conf, None, true)]
        && runs == old(runs) + [RelaySession(conf, None, true)]
      ensures reg.sessions == old(reg.sessions) + {id} && reg.events == old(reg.events) + [RelayPullDone(id)]
      ensures tasks == old(tasks) && staticSessions == old(staticSessions) && draws == old(draws)
      ensures reg.publishersPaths == old(reg.publishersPaths) && reg.idlePlayers == old(reg.idlePlayers)
      ensures reg.publisherSessions == old(reg.publisherSessions) && reg.playersSessions == old(reg.playersSessions)
    {
      var transport := if NameTruthy(rtspTransport) then rtspTransport else None;
      var conf := RelayTask(Some(app), Some(name), Some("pull"), None, None, transport,
                            Some(ffmpeg), Some(url), Some(LocalUrl(port, "/" + app + "/" + name)));
      var _ := Register(id, conf, RelayPullDone(id), reg);
    }

    /** `onRelayPush`: pushes the local stream /app/name out to `url`. */
    method OnRelayPush(url: string, app: string, name: string, id: string, reg: Registry)
      modifies this, reg
      ensures var conf := RelayTask(Some(app), Some(name), Some("push"), None, None, None,
                                    Some(ffmpeg), Some(LocalUrl(port, "/" + app + "/" + name)), Some(url));
        && dynamicSessions == old(dynamicSessions)[id := RelaySession(conf, None, true)]
        && runs == old(runs) + [RelaySession(conf, None, true)]
      ensures reg.sessions == old(reg.sessions) + {id} && reg.events == old(reg.events) + [RelayPushDone(id)]
      ensures tasks == old(tasks) && staticSessions == old(staticSessions) && draws == old(draws)
      ensures reg.publishersPaths == old(reg.publishersPaths) && reg.idlePlayers == old(reg.idlePlayers)
      ensures reg.publisherSessions == old(reg.publisherSessions) && reg.playersSessions == old(reg.playersSessions)
    {
      var conf := RelayTask(Some(app), Some(name), Some("push"), None, None, None,
                            Some(ffmpeg), Some(LocalUrl(port, "/" + app + "/" + name)), Some(url));
      var _ := Register(id, conf, RelayPushDone(id), reg);
    }

    /**
      A dynamic session's 'end': the id leaves `dynamicSessions`, and leaves
      `sessions` too when the session was registered there.
    */
    method OnDynamicEnd(id: string, registered: bool, reg: Registry)
      modifies this, reg
      ensures dynamicSessions == old(dynamicSessions) - {id}
      ensures reg.sessions == if registered then old(reg.sessions) - {id} else old(reg.sessions)
      ensures tasks == old(tasks) && staticSessions == old(staticSessions) && runs == old(runs) && draws == old(draws)
      ensures reg.events == old(reg.events)
      ensures reg.publishersPaths == old(reg.publishersPaths) && reg.idlePlayers == old(reg.idlePlayers)
      ensures reg.publisherSessions == old(reg.publisherSessions) && reg.playersSessions == old(reg.playersSessions)
    {
      dynamicSessions := dynamicSessions - {id};
      if registered {
        reg.sessions := reg.sessions - {id};
      }
    }

    function DynNow(): DynState
      reads this
    {
      DynState(tasks, runs, false)
    }

    /**
      The loop shared by `onPrePlay` (pull) and `onPostPublish` (push): from
      the last task to the first, each selected task is rewritten and run
      under the request's id, so the last one run is the one kept.
    */
    method RelayTasks(dir: Direction, rq: Request, published: bool) returns (threw: bool)
      modifies this
      ensures var r := DynPass(dir, port, ffmpeg, rq, published, old(DynNow()), old(|tasks|));
        && tasks == r.tasks && runs == r.runs && threw == r.threw
        && dynamicSessions == Kept(old(dynamicSessions), rq.id, old(|runs|), runs)
      ensures staticSessions == old(staticSessions) && draws == old(draws)
    {
      var i := |tasks|;
      threw := false;
      while i > 0 && !threw
        invariant 0 <= i <= |tasks| && staticSessions == old(staticSessions) && draws == old(draws)
        invariant DynPass(dir, port, ffmpeg, rq, published, DynState(tasks, runs, threw), i)
               == DynPass(dir, port, ffmpeg, rq, published, old(DynNow()), old(|tasks|))
        invariant old(|runs|) <= |runs| && dynamicSessions == Kept(old(dynamicSessions), rq.id, old(|runs|), runs)
      {
        i := i - 1;
        threw := VisitDynamic(dir, rq, published, i, old(dynamicSessions), old(|runs|));
      }
    }

    /** One iteration of the relay loop. */
    method VisitDynamic(dir: Direction, rq: Request, published: bool, i: nat, ghost before: map<string, RelaySession>, ghost n: nat)
      returns (threw: bool)
      requires i < |tasks| && n <= |runs| && dynamicSessions == Kept(before, rq.id, n, runs)
      modifies this
      ensures DynState(tasks, runs, threw) == DynVisit(dir, port, ffmpeg, rq, published, old(DynNow()), i)
      ensures dynamicSessions == Kept(before, rq.id, n, runs)
      ensures staticSessions == old(staticSessions) && draws == old(draws)
    {
      threw := false;
      var conf := tasks[i];
      if Selected(dir, conf, rq, published) {
        if conf.edge.None? {
          threw := true;
        } else {
          conf := Relayed(dir, conf, conf.edge.value, port, ffmpeg, rq);
          var session := RelaySession(conf, None, false);
          tasks := tasks[i := conf];
          runs := runs + [session];
          dynamicSessions := dynamicSessions[rq.id := session];
          UpdateAgain(before, rq.id, n, old(runs), session);
        }
      }
    }

    /**
      `onPrePlay`: a play of a path nobody publishes pulls it from the edge of
      every pull task of its app. Returns whether the handler threw.
    */
    method OnPrePlay(id: string, streamPath: string, args: map<string, string>, encode: map<string, string> -> string, published: bool)
      returns (threw: bool)
      modifies this
      ensures var r := DynPass(Pull, port, ffmpeg, RequestOf(id, streamPath, args, encode), published, old(DynNow()), old(|tasks|));
        && tasks == r.tasks && runs == r.runs && threw == r.threw
        && dynamicSessions == Kept(old(dynamicSessions), id, old(|runs|), runs)
      ensures staticSessions == old(staticSessions) && draws == old(draws)
    {
      threw := RelayTasks(Pull, RequestOf(id, streamPath, args, encode), published);
    }

    /** `onPostPublish`: a publish is pushed to the edge of every push task of its app. Returns whether the handler threw. */
    method OnPostPublish(id: string, streamPath: string, args: map<string, string>, encode: map<string, string> -> string)
      returns (threw: bool)
      modifies this
      ensures var r := DynPass(Push, port, ffmpeg, RequestOf(id, streamPath, args, encode), false, old(DynNow()), old(|tasks|));
        && tasks == r.tasks && runs == r.runs && threw == r.threw
        && dynamicSessions == Kept(old(dynamicSessions), id, old(|runs|), runs)
      ensures staticSessions == old(staticSessions) && draws == old(draws)
    {
      threw := RelayTasks(Push, RequestOf(id, streamPath, args, encode), false);
    }

    /**
      `onDonePlay`: the session under the id ends only when the stream's
      publisher has no players left. `players` is that publisher's player set,
      None when the lookup finds no publisher: with a session present the
      handler then throws and nothing ends.
    */
    method OnDonePlay(id: string, players: Option<set<string>>, reg: Registry) returns (threw: bool)
      modifies this, reg
      ensures threw <==> id in old(dynamicSessions) && players.None?
      ensures if id in old(dynamicSessions) && players.Some? && players.value == {}
        then dynamicSessions == old(dynamicSessions) - {id}
             && reg.sessions == (if old(dynamicSessions)[id].registered then old(reg.sessions) - {id} else old(reg.sessions))
        else dynamicSessions == old(dynamicSessions) && reg.sessions == old(reg.sessions)
      ensures tasks == old(tasks) && staticSessions == old(staticSessions) && runs == old(runs) && draws == old(draws)
      ensures reg.events == old(reg.events)
      ensures reg.publishersPaths == old(reg.publishersPaths) && reg.idlePlayers == old(reg.idlePlayers)
      ensures reg.publisherSessions == old(reg.publisherSessions) && reg.playersSessions == old(reg.playersSessions)
    {
      threw := false;
      if id in dynamicSessions {
        if players.None? {
          threw := true;
        } else if |players.value| == 0 {
          OnDynamicEnd(id, dynamicSessions[id].registered, reg);
        }
      }
    }

    /**
      `onDonePublish`: the dynamic session under the id ends, and so does every
      static session relaying the path that stopped.
    */
    method OnDonePublish(id: string, streamPath: string, reg: Registry)
      modifies this, reg
      ensures id in old(dynamicSessions) ==>
        && dynamicSessions == old(dynamicSessions) - {id}
        && reg.sessions == (if old(dynamicSessions)[id].registered then old(reg.sessions) - {id} else old(reg.sessions))
      ensures id !in old(dynamicSessions) ==> dynamicSessions == old(dynamicSessions) && reg.sessions == old(reg.sessions)
      ensures staticSessions == StaticsLeft(old(staticSessions), streamPath)
      ensures tasks == old(tasks) && runs == old(runs) && draws == old(draws)
      ensures reg.events == old(reg.events)
      ensures reg.publishersPaths == old(reg.publishersPaths) && reg.idlePlayers == old(reg.idlePlayers)
      ensures reg.publisherSessions == old(reg.publisherSessions) && reg.playersSessions == old(reg.playersSessions)
    {
      if id in dynamicSessions {
        OnDynamicEnd(id, dynamicSessions[id].registered, reg);
      }
      var keys := staticSessions.Keys;
      ghost var statics := staticSessions;
      while keys != {}
        invariant keys <= statics.Keys
        invariant forall i :: i in staticSessions <==> i in statics && (i in keys || statics[i].streamPath != Some(streamPath))
        invariant forall i :: i in staticSessions ==> staticSessions[i] == statics[i]
        invariant tasks == old(tasks) && runs == old(runs) && dynamicSessions == old(dynamicSessions) - (if id in old(dynamicSessions) then {id} else {})
        invariant reg.sessions == (if id in old(dynamicSessions) && old(dynamicSessions)[id].registered then old(reg.sessions) - {id} else old(reg.sessions))
        invariant draws == old(draws) && reg.events == old(reg.events)
        invariant reg.publishersPaths == old(reg.publishersPaths) && reg.idlePlayers == old(reg.idlePlayers)
        invariant reg.publisherSessions == old(reg.publisherSessions) && reg.playersSessions == old(reg.playersSessions)
        decreases keys
      {
        var i :| i in keys;
        if staticSessions[i].streamPath == Some(streamPath) {
          OnStaticEnd(i);
        }
        keys := keys - {i};
      }
    }
  }
}
