/**
 * What the coordinator promises across calls: the order of its notifications, exactly one
 * onStop per recorded file, the id that callbacks report, the permission replay, and the two
 * facts the Plugin class keeps as its invariant.
 */
module Properties {
  import opened Wrappers
  import opened Permissions
  import opened Messages
  import opened Coordinator

  /**
   * An unrecognised command is answered notImplemented and nothing else: no notification of
   * any kind, no call into the platform, no handle touched. Only `call` moves on, because
   * onMethodCall stores the call before it dispatches.
   */
  lemma UnknownCommandOnlyReplies(s: PluginState, c: MethodCall, d: Device)
    requires c.methodName !in Commands
    ensures var t := OnMethodCall(s, c, d);
      t.outbox == s.outbox + [NotImplementedReply] &&
      (forall e :: Count(t.outbox, e) == Count(s.outbox, e)) &&
      t.call == Some(c) && t.recordMp3 == s.recordMp3 && t.audioHandler == s.audioHandler &&
      t.recorderUtil == s.recorderUtil && t.voicePlayPath == s.voicePlayPath && t.platform == s.platform
  {
    var t := OnMethodCall(s, c, d);
    forall e
      ensures Count(t.outbox, e) == Count(s.outbox, e)
    {
      CountConcat(s.outbox, [NotImplementedReply], e);
      assert [NotImplementedReply][1..] == [];
    }
  }

  /**
   * The listener startByWavPath installs reports the caller's `wavPath` unchanged as its file
   * path, whatever cache file the default listener would have used.
   */
  lemma GivenPathIsReportedUnchanged(c: MethodCall, cachePath: string)
    requires "wavPath" in c.arguments
    ensures WavListener(c).Some? && FilePath(WavListener(c).value, cachePath) == c.arguments["wavPath"]
  {
  }

  /** Stopping twice is stopping once: a second stop finds nothing recording. */
  lemma StopIsIdempotent(s: PluginState)
    ensures Stop(Stop(s)) == Stop(s)
  {
  }

  /**
   * A permitted start never calls stopRecord: checkPermission has just installed a fresh
   * handler, so an earlier recording is ended by releasing its handler, not by stopping it.
   */
  lemma PermittedStartReleasesInsteadOfStopping(s: PluginState, d: Device)
    requires s.call.Some? && Permitted(d) && Recording(s)
    ensures var t := Start(s, d);
      t.platform == s.platform + [ReleaseHandler, CreateHandler(FREQUENCY_22050), StartRecord(Some(CacheFile))] &&
      StopRecord !in t.platform[|s.platform|..]
  {
    var t := Start(s, d);
    assert t.platform[|s.platform|..] == [ReleaseHandler, CreateHandler(FREQUENCY_22050), StartRecord(Some(CacheFile))];
  }

  /** A denied start sends nothing to the caller and leaves the handler alone. */
  lemma DeniedStartIsSilent(s: PluginState, d: Device)
    requires s.call.Some? && !Permitted(d)
    ensures var t := Start(s, d);
      t.outbox == s.outbox && t.audioHandler == s.audioHandler &&
      t.platform == s.platform + [RequestPermissions(NotGranted(Required(d.sdkInt), d.granted), REQUEST_CODE)] &&
      forall p :: p in t.platform[|s.platform|].permissions <==> p in Required(d.sdkInt) && p !in d.granted
  {
    var t := Start(s, d);
    assert t.platform[|s.platform|] == RequestPermissions(NotGranted(Required(d.sdkInt), d.granted), REQUEST_CODE);
  }

  /**
   * Every recorded file yields exactly one onStop, carrying the original duration and the
   * current id: the converted path in MP3 mode (once the converter succeeds), the recorded
   * path otherwise. In both modes play() will use the recorded file.
   */
  lemma ExactlyOneStopPerRecording(s: PluginState, file: string, audioTime: Option<Double>, converted: string)
    requires s.call.Some?
    ensures var u := HandleRecordStop(s, Some(file), audioTime);
      var t := if s.recordMp3 then ConvertSucceeded(u, ConvertJob(file, audioTime), converted) else u;
      t.outbox == s.outbox + [StopNotice(CurrentId(s), if s.recordMp3 then converted else file, audioTime)] &&
      Count(t.outbox, OnStop) == Count(s.outbox, OnStop) + 1 &&
      t.voicePlayPath == Some(file)
  {
    var u := HandleRecordStop(s, Some(file), audioTime);
    var t := if s.recordMp3 then ConvertSucceeded(u, ConvertJob(file, audioTime), converted) else u;
    var m := StopNotice(CurrentId(s), if s.recordMp3 then converted else file, audioTime);
    CountConcat(s.outbox, [m], OnStop);
    assert Count([m], OnStop) == 1 by {
      assert [m][1..] == [];
    }
  }

  /** In MP3 mode the recording stop itself says nothing: the converter must answer first. */
  lemma Mp3StopWaitsForConverter(s: PluginState, file: string, audioTime: Option<Double>)
    requires s.call.Some? && s.recordMp3
    ensures var t := HandleRecordStop(s, Some(file), audioTime);
      Count(t.outbox, OnStop) == Count(s.outbox, OnStop) &&
      t.platform[|s.platform|..] == [Convert(ConvertJob(file, audioTime))]
  {
    var t := HandleRecordStop(s, Some(file), audioTime);
    assert t.outbox == s.outbox;
  }

  /** A stop without a file is swallowed: nothing is remembered, sent or called. */
  lemma MissingFileIsSwallowed(s: PluginState, audioTime: Option<Double>)
    requires s.call.Some?
    ensures HandleRecordStop(s, None, audioTime) == s
  {
  }

  /**
   * Callbacks read the id of the most recent command: after any command `c`, an amplitude
   * reading from a recording started earlier is reported with c's id.
   */
  lemma LaterCommandRedirectsCallbacks(s: PluginState, c: MethodCall, d: Device, db: Double)
    ensures var t := VolumeChanged(OnMethodCall(s, c, d), db);
      t.outbox[|t.outbox| - 1] == AmplitudeNotice(IdOf(c), db) &&
      IsNoticeFor(t.outbox[|t.outbox| - 1], OnAmplitude, IdOf(c))
  {
  }

  /** No command changes the remembered recording path: only a recording stop sets it. */
  lemma CommandsKeepVoicePlayPath(s: PluginState, c: MethodCall, d: Device)
    ensures OnMethodCall(s, c, d).voicePlayPath == s.voicePlayPath
  {
  }

  /** Two pauses restore the player and report the playing flag toggled, then restored. */
  lemma PauseTwiceRestores(s: PluginState)
    requires s.call.Some? && s.recorderUtil.Some?
    ensures var t := Pause(Pause(s));
      var playing := s.recorderUtil.value.playing;
      t.recorderUtil == s.recorderUtil &&
      t.outbox == s.outbox + [PauseNotice(CurrentId(s), Some(!playing)), PauseNotice(CurrentId(s), Some(playing))]
  {
  }

  /** Without a player, pause still answers, with `isPlaying` = "null". */
  lemma PauseWithoutPlayer(s: PluginState)
    requires s.call.Some? && s.recorderUtil.None?
    ensures var t := Pause(s);
      t.outbox[|t.outbox| - 1].payload["isPlaying"] == Text("null") && t.recorderUtil.None?
  {
  }

  /**
   * A granted permission result for a pending start runs initRecord itself and again through
   * start's own check: the caller sees onInit twice, then onStart, all with the current id.
   */
  lemma GrantReplaysStart(s: PluginState, grants: seq<int>, d: Device)
    requires s.call.Some? && s.call.value.methodName == "start"
    requires FirstGranted(grants) && Permitted(d)
    ensures var t := OnRequestPermissionsResult(s, REQUEST_CODE, grants, d);
      var id := CurrentId(s);
      t.outbox == s.outbox + [Succeeded(OnInit, id), Succeeded(OnInit, id), Succeeded(OnStart, id)] &&
      t.audioHandler == Some(AudioHandler(true, Some(CacheFile)))
  {
  }

  /** The same replay for a pending startByWavPath: its listener writes to the caller's path. */
  lemma GrantReplaysStartByWavPath(s: PluginState, grants: seq<int>, d: Device)
    requires s.call.Some? && s.call.value.methodName == "startByWavPath"
    requires FirstGranted(grants) && Permitted(d)
    ensures var t := OnRequestPermissionsResult(s, REQUEST_CODE, grants, d);
      var id := CurrentId(s);
      t.outbox == s.outbox + [Succeeded(OnInit, id), Succeeded(OnInit, id), Succeeded(OnStart, id)] &&
      t.audioHandler == Some(AudioHandler(true, WavListener(s.call.value)))
  {
  }

  /**
   * When the user grants only the first permission of several, the replayed start (or
   * startByWavPath) finds the rest still missing: the caller sees one onInit and the plugin
   * asks again.
   */
  lemma PartialGrantAsksAgain(s: PluginState, grants: seq<int>, d: Device)
    requires s.call.Some? && (s.call.value.methodName == "start" || s.call.value.methodName == "startByWavPath")
    requires FirstGranted(grants) && !Permitted(d)
    ensures var t := OnRequestPermissionsResult(s, REQUEST_CODE, grants, d);
      t.outbox == s.outbox + [Succeeded(OnInit, CurrentId(s))] &&
      t.audioHandler == Some(FreshHandler) &&
      t.platform == s.platform + Reinstall(s) + [RequestPermissions(NotGranted(Required(d.sdkInt), d.granted), REQUEST_CODE)]
  {
  }

  /** A grant after any other command (init, say) only runs initRecord. */
  lemma GrantAfterOtherCommand(s: PluginState, grants: seq<int>, d: Device)
    requires s.call.Some? && s.call.value.methodName != "start" && s.call.value.methodName != "startByWavPath"
    requires FirstGranted(grants)
    ensures OnRequestPermissionsResult(s, REQUEST_CODE, grants, d) == InitRecord(s)
  {
  }

  /** The onInit/onStart pair a permitted start appends keeps both invariants. */
  lemma StartPairKeeps(a: seq<Message>, id: string)
    requires InitPrecedesStart(a)
    ensures InitPrecedesStart(a + [Succeeded(OnInit, id), Succeeded(OnStart, id)])
    ensures Count(a + [Succeeded(OnInit, id), Succeeded(OnStart, id)], OnStop) == Count(a, OnStop)
  {
    var pair := [Succeeded(OnInit, id), Succeeded(OnStart, id)];
    InitPrecedesStartConcat(a, pair);
    CountConcat(a, pair, OnStop);
    assert pair[1..][1..] == [];
    assert Count(pair[1..], OnStop) == 0;
    assert Count(pair, OnStop) == 0;
  }

  /** Every command keeps onInit before each onStart and never sends onStop. */
  lemma CommandKeepsInvariants(s: PluginState, c: MethodCall, d: Device)
    requires InitPrecedesStart(s.outbox)
    ensures var t := OnMethodCall(s, c, d);
      InitPrecedesStart(t.outbox) && Count(t.outbox, OnStop) == Count(s.outbox, OnStop)
  {
    var s1 := s.(call := Some(c));
    var id := IdOf(c);
    var init: seq<Message> := if Permitted(d) then [Succeeded(OnInit, id)] else [];
    if c.methodName == "init" || c.methodName == "initRecordMp3" {
      QuietAppend(s.outbox, init);
    } else if c.methodName == "start" || c.methodName == "startByWavPath" {
      if Permitted(d) {
        StartPairKeeps(s.outbox, id);
      } else {
        QuietAppend(s.outbox, []);
      }
    } else if c.methodName == "stop" || c.methodName == "stopPlay" {
      QuietAppend(s.outbox, []);
    } else if c.methodName == "play" {
      QuietAppend(s.outbox, [if s.voicePlayPath.None? then Thrown(UNINITIALIZED) else PlayNotice(id)]);
    } else if c.methodName == "pause" {
      QuietAppend(s.outbox, [PauseNotice(id, PauseResult(s1))]);
    } else if c.methodName == "playByPath" {
      QuietAppend(s.outbox, [if Argument(c, "path").None? then ErrorReply("INVALID_PATH") else PlayNotice(id)]);
    } else {
      QuietAppend(s.outbox, [NotImplementedReply]);
    }
  }

  /** The permission result keeps both invariants too, even when it arrives before any command. */
  lemma PermissionResultKeepsInvariants(s: PluginState, requestCode: int, grants: seq<int>, d: Device)
    requires InitPrecedesStart(s.outbox)
    ensures var t := OnRequestPermissionsResult(s, requestCode, grants, d);
      InitPrecedesStart(t.outbox) && Count(t.outbox, OnStop) == Count(s.outbox, OnStop)
  {
    if requestCode != REQUEST_CODE {
    } else if s.call.None? {
      QuietAppend(s.outbox, [Thrown(UNINITIALIZED)]);
    } else if FirstGranted(grants) {
      var id := CurrentId(s);
      var s1 := InitRecord(s);
      QuietAppend(s.outbox, [Succeeded(OnInit, id)]);
      var m := s.call.value.methodName;
      if (m == "start" || m == "startByWavPath") && Permitted(d) {
        StartPairKeeps(s1.outbox, id);
      } else if m == "start" || m == "startByWavPath" {
        QuietAppend(s1.outbox, []);
      }
    } else {
      QuietAppend(s.outbox, [ErrorReply("PERMISSION_DENIED")]);
    }
  }

  /** A recording stop adds one onStop exactly when it reports a raw file directly. */
  lemma RecordStopKeepsInvariants(s: PluginState, file: Option<string>, audioTime: Option<Double>)
    requires s.call.Some? && InitPrecedesStart(s.outbox)
    ensures var t := HandleRecordStop(s, file, audioTime);
      InitPrecedesStart(t.outbox) &&
      Count(t.outbox, OnStop) == Count(s.outbox, OnStop) + if file.Some? && !s.recordMp3 then 1 else 0
  {
    if file.Some? && !s.recordMp3 {
      var m := StopNotice(CurrentId(s), file.value, audioTime);
      InitPrecedesStartConcat(s.outbox, [m]);
      CountConcat(s.outbox, [m], OnStop);
      assert [m][1..] == [];
    }
  }

  /** A converter success adds exactly one onStop. */
  lemma ConvertSucceededKeepsInvariants(s: PluginState, job: ConvertJob, converted: string)
    requires s.call.Some? && InitPrecedesStart(s.outbox)
    ensures var t := ConvertSucceeded(s, job, converted);
      InitPrecedesStart(t.outbox) && Count(t.outbox, OnStop) == Count(s.outbox, OnStop) + 1
  {
    var m := StopNotice(CurrentId(s), converted, job.audioTime);
    InitPrecedesStartConcat(s.outbox, [m]);
    CountConcat(s.outbox, [m], OnStop);
    assert [m][1..] == [];
  }
}
