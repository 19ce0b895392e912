/**
  The transmuxing server: on each publish it starts one ffmpeg task per
  configured task of the stream's app, keeps the running task under the
  publisher's session id, and stops it when the publish ends.

  Each event handler runs as one step; the asynchronous parts of a task's
  `run()` complete inside it.
*/
module TransmuxServer {
  import opened JsText
  import opened FfmpegTask

  /** What the server reads from the media server options. */
  datatype ServerConfig = ServerConfig(
    tasks: seq<TaskOptions>,
    ffmpegPath: string,
    mediarootPath: string,
    rtmpPort: Option<string>,
    storage: bool)

  /** The configuration of the task started for `task` on a published stream. */
  function TaskConfigFor(s: ServerConfig, task: TaskOptions, streamPath: string, app: string, name: string, args: seq<JsValue>): TaskConfig {
    TaskConfig(task, s.ffmpegPath, s.mediarootPath, s.rtmpPort, streamPath, app, name, Some(Array(args)), s.storage)
  }

  /** The configurations of the tasks a publish starts, in configuration order: one per task of the app. */
  function StartedConfigs(s: ServerConfig, tasks: seq<TaskOptions>, streamPath: string, app: string, name: string, args: seq<JsValue>): seq<TaskConfig> {
    if tasks == [] then []
    else
      var last := tasks[|tasks| - 1];
      StartedConfigs(s, tasks[..|tasks| - 1], streamPath, app, name, args)
      + (if last.app == app then [TaskConfigFor(s, last, streamPath, app, name, args)] else [])
  }

  /** The configured tasks of an app. */
  function OfApp(app: string): TaskOptions -> bool {
    (t: TaskOptions) => t.app == app
  }

  /** Exactly the configured tasks of the stream's app are started, each once and in configuration order. */
  lemma {:induction false} StartedConfigsMatch(s: ServerConfig, tasks: seq<TaskOptions>, streamPath: string, app: string, name: string, args: seq<JsValue>)
    ensures |StartedConfigs(s, tasks, streamPath, app, name, args)| == |Filter(tasks, OfApp(app))|
    ensures forall i :: 0 <= i < |Filter(tasks, OfApp(app))| ==>
      StartedConfigs(s, tasks, streamPath, app, name, args)[i].task == Filter(tasks, OfApp(app))[i]
  {
    if tasks != [] {
      var init := tasks[..|tasks| - 1];
      StartedConfigsMatch(s, init, streamPath, app, name, args);
      FilterSnoc(init, tasks[|tasks| - 1], OfApp(app));
      assert init + [tasks[|tasks| - 1]] == tasks;
    }
  }

  /**
    Every started task carries the stream path, app and name, the server's
    paths, port and storage, and the publish arguments.
  */
  lemma {:induction false} StartedConfigsFields(s: ServerConfig, tasks: seq<TaskOptions>, streamPath: string, app: string, name: string, args: seq<JsValue>)
    ensures forall c :: c in StartedConfigs(s, tasks, streamPath, app, name, args) ==>
      && c.task in tasks && c.task.app == app
      && c.streamPath == streamPath && c.streamApp == app && c.streamName == name
      && c.ffmpegPath == s.ffmpegPath && c.mediarootPath == s.mediarootPath && c.rtmpPort == s.rtmpPort
      && c.args == Some(Array(args)) && c.storage == s.storage
  {
    if tasks != [] {
      var init := tasks[..|tasks| - 1];
      StartedConfigsFields(s, init, streamPath, app, name, args);
      assert forall t :: t in init ==> t in tasks;
    }
  }

  lemma StartedConfigsStep(s: ServerConfig, tasks: seq<TaskOptions>, i: nat, streamPath: string, app: string, name: string, args: seq<JsValue>)
    requires i < |tasks|
    ensures StartedConfigs(s, tasks[..i + 1], streamPath, app, name, args)
            == StartedConfigs(s, tasks[..i], streamPath, app, name, args)
               + (if tasks[i].app == app then [TaskConfigFor(s, tasks[i], streamPath, app, name, args)] else [])
  {
    assert tasks[..i + 1][..i] == tasks[..i];
  }

  /** A task built from `c`, then run; the server sets it under the id before running it, which is the same here. */
  method NewRunningTask(c: TaskConfig, join: seq<string> -> string, stamp: string) returns (t: FFMPEGTask)
    ensures fresh(t) && t.StartedWith(c, join, stamp)
  {
    t := new FFMPEGTask(c, join);
    t.Run(join, stamp);
  }

  /**
    The loop of `onPostPublish` over the configured tasks: each task of the app
    is started and set under `id` in `tasks`, replacing the one before it.
  */
  method StartTasks(s: ServerConfig, running: map<string, FFMPEGTask>, id: string, streamPath: string, app: string, name: string,
                    args: seq<JsValue>, join: seq<string> -> string, stamp: string)
    returns (tasks: map<string, FFMPEGTask>)
    ensures StartedConfigs(s, s.tasks, streamPath, app, name, args) == [] ==> tasks == running
    ensures StartedConfigs(s, s.tasks, streamPath, app, name, args) != [] ==>
      && id in tasks && tasks == running[id := tasks[id]]
      && fresh(tasks[id])
      && tasks[id].StartedWith(Last(StartedConfigs(s, s.tasks, streamPath, app, name, args)), join, stamp)
  {
    tasks := running;
    ghost var configs: seq<TaskConfig> := [];
    for i := 0 to |s.tasks|
      invariant configs == StartedConfigs(s, s.tasks[..i], streamPath, app, name, args)
      invariant configs == [] ==> tasks == running
      invariant configs != [] ==>
        && id in tasks && tasks == running[id := tasks[id]]
        && fresh(tasks[id])
        && tasks[id].StartedWith(Last(configs), join, stamp)
    {
      StartedConfigsStep(s, s.tasks, i, streamPath, app, name, args);
      var task := s.tasks[i];
      if app == task.app {
        var taskConfig := TaskConfigFor(s, task, streamPath, app, name, args);
        var runningTask := NewRunningTask(taskConfig, join, stamp);
        if configs != [] {
          UpdateTwice(running, id, tasks[id], runningTask);
        }
        tasks := tasks[id := runningTask];
        configs := configs + [taskConfig];
      }
    }
    assert s.tasks[..|s.tasks|] == s.tasks;
  }

  /** No task is kept under two ids. */
  predicate Injective(m: map<string, FFMPEGTask>) {
    forall i, j :: i in m && j in m && i != j ==> m[i] != m[j]
  }

  class TransmuxServer {
    const config: ServerConfig
    var runningTasks: map<string, FFMPEGTask>
    /** The configurations of all tasks started so far, in order. */
    ghost var started: seq<TaskConfig>

    constructor(config: ServerConfig)
      ensures this.config == config && runningTasks == map[] && started == []
      ensures Valid()
    {
      this.config := config;
      runningTasks := map[];
      started := [];
    }

    /** Each running task is kept under one id only: every publish builds its tasks afresh. */
    predicate Valid()
      reads this
    {
      Injective(runningTasks)
    }

    /** The configurations of the tasks a publish of `streamPath` starts: none when it is not "/app/name". */
    function PublishConfigs(streamPath: string, args: seq<JsValue>): seq<TaskConfig> {
      match ExecAppStream(streamPath)
      case None => []
      case Some((app, name)) => StartedConfigs(config, config.tasks, streamPath, app, name, args)
    }

    /**
      `onPostPublish`: a stream path without "/app/name" starts nothing. Otherwise
      each configured task of the app gets a fresh task that is set under the
      session id and run, so the last one started is the one kept.
    */
    method OnPostPublish(id: string, streamPath: string, args: seq<JsValue>, join: seq<string> -> string, stamp: string)
      requires Valid()
      modifies this
      ensures Valid()
      ensures started == old(started) + PublishConfigs(streamPath, args)
      ensures PublishConfigs(streamPath, args) == [] ==> runningTasks == old(runningTasks)
      ensures PublishConfigs(streamPath, args) != [] ==>
        && id in runningTasks && runningTasks == old(runningTasks)[id := runningTasks[id]]
        && fresh(runningTasks[id])
        && runningTasks[id].StartedWith(Last(PublishConfigs(streamPath, args)), join, stamp)
    {
      var regexResult := ExecAppStream(streamPath);
      if regexResult.None? {
        assert started + [] == started;
        return;
      }
      var (app, name) := regexResult.value;
      var tasks := StartTasks(config, runningTasks, id, streamPath, app, name, args, join, stamp);
      runningTasks := tasks;
      started := started + PublishConfigs(streamPath, args);
    }

    /** `onDonePublish`: stops the task kept under the id, whose 'end' removes it; nothing when there is none. */
    method OnDonePublish(id: string, readdir: string -> Option<seq<string>>)
      requires Valid()
      modifies this, if id in runningTasks then {runningTasks[id]} else {}
      ensures Valid()
      ensures runningTasks == old(runningTasks) - {id} && started == old(started)
      ensures id in old(runningTasks) ==>
        old(runningTasks)[id].State() == old(runningTasks)[id].AfterStop(old(runningTasks[id].State()), readdir)
    {
      if id in runningTasks {
        var task := runningTasks[id];
        task.Stop(readdir);
        runningTasks := runningTasks - {id};
      }
    }

    /**
      The ffmpeg process of a task started under `id` closed or failed: the task
      stops and its 'end' removes whatever task is kept under that id, even a
      later one that replaced it.
    */
    method OnTaskExit(id: string, task: FFMPEGTask, readdir: string -> Option<seq<string>>)
      requires Valid()
      modifies this, task
      ensures Valid()
      ensures runningTasks == old(runningTasks) - {id} && started == old(started)
      ensures task.State() == task.AfterStop(old(task.State()), readdir)
    {
      task.Stop(readdir);
      runningTasks := runningTasks - {id};
    }

    /** `stop()`: every running task is stopped, and each one's 'end' empties its entry. */
    method Stop(readdir: string -> Option<seq<string>>)
      requires Valid()
      modifies this, runningTasks.Values
      ensures Valid()
      ensures runningTasks == map[] && started == old(started)
      ensures forall k :: k in old(runningTasks) ==>
        old(runningTasks)[k].State() == old(runningTasks)[k].AfterStop(old(runningTasks[k].State()), readdir)
    {
      ghost var tasks := runningTasks;
      while runningTasks != map[]
        invariant Valid() && started == old(started) && Injective(tasks)
        invariant forall k :: k in runningTasks ==> k in tasks && runningTasks[k] == tasks[k] && tasks[k].State() == old(tasks[k].State())
        invariant forall k :: k in tasks && k !in runningTasks ==> tasks[k].State() == tasks[k].AfterStop(old(tasks[k].State()), readdir)
        decreases runningTasks.Keys
      {
        var k :| k in runningTasks;
        label Before:
        OnDonePublish(k, readdir);
        forall j | j in tasks && j != k
          ensures tasks[j].State() == old@Before(tasks[j].State())
        {
          assert tasks[j] != tasks[k];
        }
      }
    }
  }
}
