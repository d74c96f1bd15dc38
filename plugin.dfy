/**
 * The plugin object itself: the fields of the Android plugin class, one method per command
 * handler and one per callback from the engine, the converter, a player or the permission
 * dialog. Each method updates the fields in the handler's own order and is specified by the
 * transition of the same name in Coordinator.
 */
module Plugin {
  import opened Wrappers
  import opened Permissions
  import opened Messages
  import C = Coordinator
  import P = Properties

  class FlutterPluginRecord {
    /** The most recent command; `lateinit`, so unset until the first one arrives. */
    var call: Option<MethodCall>
    var recordMp3: bool
    var audioHandler: Option<C.AudioHandler>
    var recorderUtil: Option<C.Player>
    /** The last recorded file; `lateinit`, so unset until a recording has stopped with a file. */
    var voicePlayPath: Option<string>
    /** What the Dart side has received: notifications, error and not-implemented replies. */
    var outbox: seq<Message>
    /** The calls made into Android and into the foreign audio libraries, in order. */
    var platform: seq<C.PlatformCall>

    /** Recording stops that delivered a file. */
    ghost var captures: nat
    /** Conversions whose converter reported a failure. */
    ghost var abandoned: nat
    /** Conversions handed to the converter that have not answered yet. */
    ghost var converting: multiset<C.ConvertJob>

    function State(): C.PluginState
      reads this
    {
      C.PluginState(call, recordMp3, audioHandler, recorderUtil, voicePlayPath, outbox, platform)
    }

    ghost function Ledger(): (nat, nat, multiset<C.ConvertJob>)
      reads this
    {
      (captures, abandoned, converting)
    }

    /**
     * Every onStart follows its onInit, and every recorded file is accounted for exactly once:
     * reported by an onStop, still converting, or lost to a failed conversion.
     */
    ghost predicate Valid()
      reads this
    {
      InitPrecedesStart(outbox) &&
      Count(outbox, OnStop) + |converting| + abandoned == captures
    }

    constructor ()
      ensures Valid() && State() == C.Initial
      ensures Ledger() == (0, 0, multiset{})
    {
      call, recordMp3, audioHandler, recorderUtil, voicePlayPath := None, false, None, None, None;
      outbox, platform := [], [];
      captures, abandoned, converting := 0, 0, multiset{};
    }

    /** onMethodCall: keep the call, then run the handler its name selects. */
    method OnMethodCall(c: MethodCall, device: Device)
      requires Valid()
      modifies this
      ensures Valid() && Ledger() == old(Ledger())
      ensures c.methodName == "init" ==> State() == C.Init(old(State()).(call := Some(c)), device)
      ensures c.methodName == "initRecordMp3" ==> State() == C.InitRecordMp3(old(State()).(call := Some(c)), device)
      ensures c.methodName == "start" ==> State() == C.Start(old(State()).(call := Some(c)), device)
      ensures c.methodName == "startByWavPath" ==> State() == C.StartByWavPath(old(State()).(call := Some(c)), device)
      ensures c.methodName == "stop" ==> State() == C.Stop(old(State()).(call := Some(c)))
      ensures c.methodName == "play" ==> State() == C.Play(old(State()).(call := Some(c)))
      ensures c.methodName == "pause" ==> State() == C.Pause(old(State()).(call := Some(c)))
      ensures c.methodName == "playByPath" ==> State() == C.PlayByPath(old(State()).(call := Some(c)))
      ensures c.methodName == "stopPlay" ==> State() == C.StopPlay(old(State()).(call := Some(c)))
      ensures c.methodName !in Commands ==> State() == C.Send(old(State()).(call := Some(c)), NotImplementedReply)
    {
      ghost var before := State();
      ghost var expected := C.OnMethodCall(before, c, device);
      P.CommandKeepsInvariants(before, c, device);
      call := Some(c);
      ghost var called := State();
      assert called == before.(call := Some(c));
      if c.methodName == "init" {
        assert expected == C.Init(called, device);
        Init(device);
      } else if c.methodName == "initRecordMp3" {
        assert expected == C.InitRecordMp3(called, device);
        InitRecordMp3(device);
      } else if c.methodName == "start" {
        assert expected == C.Start(called, device);
        Start(device);
      } else if c.methodName == "startByWavPath" {
        assert expected == C.StartByWavPath(called, device);
        StartByWavPath(device);
      } else if c.methodName == "stop" {
        assert expected == C.Stop(called);
        Stop();
      } else if c.methodName == "play" {
        assert expected == C.Play(called);
        Play();
      } else if c.methodName == "pause" {
        assert expected == C.Pause(called);
        Pause();
      } else if c.methodName == "playByPath" {
        assert expected == C.PlayByPath(called);
        PlayByPath();
      } else if c.methodName == "stopPlay" {
        assert expected == C.StopPlay(called);
        StopPlay();
      } else {
        outbox := outbox + [NotImplementedReply];
      }
      assert State() == expected;
    }

    /** The first half of initRecord, which runs before `call` is read. */
    method ReplaceHandler()
      modifies this
      ensures Ledger() == old(Ledger())
      ensures State() == C.ReplaceHandler(old(State()))
    {
      if audioHandler.Some? {
        platform := platform + [C.ReleaseHandler];
        audioHandler := None;
      }
      platform := platform + [C.CreateHandler(C.FREQUENCY_22050)];
      audioHandler := Some(C.FreshHandler);
    }

    method InitRecord()
      requires call.Some?
      modifies this
      ensures Ledger() == old(Ledger())
      ensures State() == C.InitRecord(old(State()))
    {
      ReplaceHandler();
      outbox := outbox + [Succeeded(OnInit, IdOf(call.value))];
    }

    method CheckPermission(device: Device) returns (granted: bool)
      requires call.Some?
      modifies this
      ensures Ledger() == old(Ledger())
      ensures (granted, State()) == C.CheckPermission(old(State()), device)
    {
      var missing := NotGranted(Required(device.sdkInt), device.granted);
      if |missing| > 0 {
        platform := platform + [C.RequestPermissions(missing, REQUEST_CODE)];
        return false;
      }
      InitRecord();
      return true;
    }

    method Stop()
      modifies this
      ensures Ledger() == old(Ledger())
      ensures State() == C.Stop(old(State()))
    {
      if audioHandler.Some? && audioHandler.value.isRecording {
        platform := platform + [C.StopRecord];
        audioHandler := Some(audioHandler.value.(isRecording := false));
      }
    }

    /** `audioHandler?.startRecord(listener)`. */
    method StartRecording(listener: Option<C.RecordListener>)
      modifies this
      ensures Ledger() == old(Ledger())
      ensures State() == C.StartRecording(old(State()), listener)
    {
      if audioHandler.Some? {
        platform := platform + [C.StartRecord(listener)];
        audioHandler := Some(C.AudioHandler(true, listener));
      }
    }

    method Start(device: Device)
      requires call.Some?
      modifies this
      ensures Ledger() == old(Ledger())
      ensures State() == C.Start(old(State()), device)
    {
      var granted := CheckPermission(device);
      if granted {
        Stop();
        StartRecording(Some(C.CacheFile));
        outbox := outbox + [Succeeded(OnStart, IdOf(call.value))];
      }
    }

    method StartByWavPath(device: Device)
      requires call.Some?
      modifies this
      ensures Ledger() == old(Ledger())
      ensures State() == C.StartByWavPath(old(State()), device)
    {
      var granted := CheckPermission(device);
      if granted {
        var listener := C.WavListener(call.value);
        Stop();
        StartRecording(listener);
        outbox := outbox + [Succeeded(OnStart, IdOf(call.value))];
      }
    }

    method Init(device: Device)
      requires call.Some?
      modifies this
      ensures Ledger() == old(Ledger())
      ensures State() == C.Init(old(State()), device)
    {
      recordMp3 := false;
      var _ := CheckPermission(device);
    }

    method InitRecordMp3(device: Device)
      requires call.Some?
      modifies this
      ensures Ledger() == old(Ledger())
      ensures State() == C.InitRecordMp3(old(State()), device)
    {
      recordMp3 := true;
      ghost var checked := C.CheckPermission(State(), device).1;
      var _ := CheckPermission(device);
      assert State() == checked;
      platform := platform + [C.LoadConverter];
    }

    method Play()
      requires call.Some?
      modifies this
      ensures Ledger() == old(Ledger())
      ensures State() == C.Play(old(State()))
    {
      if voicePlayPath.None? {
        outbox := outbox + [Thrown(C.UNINITIALIZED)];
        return;
      }
      var path := voicePlayPath.value;
      recorderUtil := Some(C.Player(path, C.ReportsVoicePlayPath, false));
      platform := platform + [C.PlayVoice(path)];
      recorderUtil := Some(recorderUtil.value.(playing := true));
      outbox := outbox + [PlayNotice(IdOf(call.value))];
    }

    method PlayByPath()
      requires call.Some?
      modifies this
      ensures Ledger() == old(Ledger())
      ensures State() == C.PlayByPath(old(State()))
    {
      var path := Argument(call.value, "path");
      if path.None? {
        outbox := outbox + [ErrorReply("INVALID_PATH")];
        return;
      }
      recorderUtil := Some(C.Player(path.value, C.ReportsPath(path.value), false));
      platform := platform + [C.PlayVoice(path.value)];
      recorderUtil := Some(recorderUtil.value.(playing := true));
      outbox := outbox + [PlayNotice(IdOf(call.value))];
    }

    method Pause()
      requires call.Some?
      modifies this
      ensures Ledger() == old(Ledger())
      ensures State() == C.Pause(old(State()))
    {
      var isPlaying: Option<bool> := None;
      if recorderUtil.Some? {
        var player := recorderUtil.value;
        platform := platform + [C.PausePlayer];
        recorderUtil := Some(player.(playing := !player.playing));
        isPlaying := Some(!player.playing);
      }
      outbox := outbox + [PauseNotice(IdOf(call.value), isPlaying)];
    }

    method StopPlay()
      modifies this
      ensures Ledger() == old(Ledger())
      ensures State() == C.StopPlay(old(State()))
    {
      if recorderUtil.Some? {
        platform := platform + [C.StopPlayer];
        recorderUtil := Some(recorderUtil.value.(playing := false));
      }
    }

    method SendStopResult(path: string, audioTime: Option<Double>)
      requires call.Some?
      modifies this
      ensures Ledger() == old(Ledger())
      ensures State() == C.SendStopResult(old(State()), path, audioTime)
    {
      outbox := outbox + [StopNotice(IdOf(call.value), path, audioTime)];
    }

    method ConvertToMp3(file: string, audioTime: Option<Double>)
      modifies this
      ensures captures == old(captures) && abandoned == old(abandoned)
      ensures converting == old(converting) + multiset{C.ConvertJob(file, audioTime)}
      ensures State() == C.ConvertToMp3(old(State()), file, audioTime)
    {
      var job := C.ConvertJob(file, audioTime);
      platform := platform + [C.Convert(job)];
      converting := converting + multiset{job};
    }

    /** handleRecordStop, called by either listener's onStop. */
    method HandleRecordStop(recordFile: Option<string>, audioTime: Option<Double>)
      requires Valid() && call.Some?
      modifies this
      ensures Valid() && abandoned == old(abandoned)
      ensures captures == old(captures) + if recordFile.Some? then 1 else 0
      ensures converting == old(converting) +
        if recordFile.Some? && old(recordMp3) then multiset{C.ConvertJob(recordFile.value, audioTime)} else multiset{}
      ensures State() == C.HandleRecordStop(old(State()), recordFile, audioTime)
    {
      if recordFile.Some? {
        captures := captures + 1;
        voicePlayPath := recordFile;
        if recordMp3 {
          ConvertToMp3(recordFile.value, audioTime);
        } else {
          SendStopResult(recordFile.value, audioTime);
        }
      }
      P.RecordStopKeepsInvariants(old(State()), recordFile, audioTime);
    }

    /** The converter's onSuccess for a conversion this plugin started. */
    method ConvertSucceeded(job: C.ConvertJob, convertedPath: string)
      requires Valid() && call.Some? && job in converting
      modifies this
      ensures Valid() && captures == old(captures) && abandoned == old(abandoned)
      ensures converting == old(converting) - multiset{job}
      ensures State() == C.ConvertSucceeded(old(State()), job, convertedPath)
    {
      SendStopResult(convertedPath, job.audioTime);
      converting := converting - multiset{job};
      P.ConvertSucceededKeepsInvariants(old(State()), job, convertedPath);
    }

    /** The converter's onFailure: only logged, so the caller never hears of this recording. */
    method ConvertFailed(job: C.ConvertJob)
      requires Valid() && job in converting
      modifies this
      ensures Valid() && captures == old(captures)
      ensures abandoned == old(abandoned) + 1 && converting == old(converting) - multiset{job}
      ensures State() == old(State())
    {
      converting := converting - multiset{job};
      abandoned := abandoned + 1;
    }

    /** handleVolumeChange, called by either listener's onVolume. */
    method HandleVolumeChange(db: Double)
      requires Valid() && call.Some?
      modifies this
      ensures Valid() && Ledger() == old(Ledger())
      ensures State() == C.VolumeChanged(old(State()), db)
    {
      QuietAppend(outbox, [AmplitudeNotice(IdOf(call.value), db)]);
      outbox := outbox + [AmplitudeNotice(IdOf(call.value), db)];
    }

    /** The play-state listener that play or playByPath registered on a player. */
    method PlayStateChanged(listener: C.PlayListener, playState: string)
      requires Valid() && call.Some?
      requires listener.ReportsVoicePlayPath? ==> voicePlayPath.Some?
      modifies this
      ensures Valid() && Ledger() == old(Ledger())
      ensures State() == C.PlayStateChanged(old(State()), listener, playState)
    {
      var path := match listener
        case ReportsVoicePlayPath => voicePlayPath.value
        case ReportsPath(p) => p;
      QuietAppend(outbox, [PlayStateNotice(IdOf(call.value), path, playState)]);
      outbox := outbox + [PlayStateNotice(IdOf(call.value), path, playState)];
    }

    /**
     * The permission dialog's answer. It normally answers true; with request code 1 before any
     * command it throws on the unset `call` or `_result` instead, so it does not answer.
     */
    method OnRequestPermissionsResult(requestCode: int, grants: seq<int>, device: Device) returns (handled: bool)
      requires Valid()
      modifies this
      ensures handled <==> requestCode != REQUEST_CODE || old(call).Some?
      ensures Valid() && Ledger() == old(Ledger())
      ensures State() == C.OnRequestPermissionsResult(old(State()), requestCode, grants, device)
    {
      P.PermissionResultKeepsInvariants(State(), requestCode, grants, device);
      if requestCode == REQUEST_CODE {
        if |grants| > 0 && grants[0] == PERMISSION_GRANTED {
          if call.None? {
            ReplaceHandler();
            outbox := outbox + [Thrown(C.UNINITIALIZED)];
            return false;
          }
          InitRecord();
          if call.value.methodName == "start" {
            Start(device);
          } else if call.value.methodName == "startByWavPath" {
            StartByWavPath(device);
          }
        } else if call.None? {
          outbox := outbox + [Thrown(C.UNINITIALIZED)];
          return false;
        } else {
          outbox := outbox + [ErrorReply("PERMISSION_DENIED")];
        }
      }
      return true;
    }

    /** cleanupResources, run when the activity or the engine detaches. */
    method CleanupResources()
      requires Valid()
      modifies this
      ensures Valid() && Ledger() == old(Ledger())
      ensures State() == C.CleanupResources(old(State()))
    {
      if audioHandler.Some? {
        platform := platform + [C.ReleaseHandler];
      }
      audioHandler := None;
      recorderUtil := None;
    }
  }
}
