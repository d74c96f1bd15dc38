/**
 * End-to-end sessions on a fresh plugin: commands from the caller, callbacks from the engine,
 * the converter, the player and the permission dialog, in the order they would arrive. Each
 * method answers with everything the caller received.
 */
module Scenarios {
  import opened Wrappers
  import opened Permissions
  import opened Messages
  import C = Coordinator
  import opened Plugin

  function Command(name: string, id: string): MethodCall {
    MethodCall(name, map["id" := id])
  }

  /** init with every permission already held: one onInit, and the plugin is ready to record. */
  method InitWhenPermitted(device: Device) returns (sent: seq<Message>, ready: bool)
    requires Permitted(device)
    ensures sent == [Succeeded(OnInit, "1")]
    ensures ready
  {
    var plugin := new FlutterPluginRecord();
    plugin.OnMethodCall(Command("init", "1"), device);
    sent := plugin.outbox;
    ready := plugin.audioHandler == Some(C.FreshHandler);
  }

  /** start without permission, then a refusal: no onStart, one PERMISSION_DENIED, no recording. */
  method StartDenied(device: Device, grants: seq<int>) returns (sent: seq<Message>, recording: bool)
    requires !Permitted(device) && !C.FirstGranted(grants)
    ensures sent == [ErrorReply("PERMISSION_DENIED")]
    ensures Count(sent, OnStart) == 0
    ensures !recording
  {
    var plugin := new FlutterPluginRecord();
    plugin.OnMethodCall(Command("start", "2"), device);
    var _ := plugin.OnRequestPermissionsResult(REQUEST_CODE, grants, device);
    sent := plugin.outbox;
    recording := C.Recording(plugin.State());
  }

  /** start on a fresh plugin with every permission held: onInit, then onStart, and recording. */
  method Started(device: Device, id: string) returns (plugin: FlutterPluginRecord)
    requires Permitted(device)
    ensures fresh(plugin) && plugin.Valid() && plugin.Ledger() == (0, 0, multiset{})
    ensures plugin.call == Some(Command("start", id)) && !plugin.recordMp3
    ensures plugin.outbox == [Succeeded(OnInit, id), Succeeded(OnStart, id)]
    ensures C.Recording(plugin.State()) && plugin.recorderUtil.None?
  {
    plugin := new FlutterPluginRecord();
    plugin.OnMethodCall(Command("start", id), device);
  }

  /** start, stop, and the engine's stop with a file, in raw mode: one onStop for the file. */
  method RecordRaw(device: Device, file: string, audioTime: Option<Double>) returns (sent: seq<Message>)
    requires Permitted(device)
    ensures sent == [Succeeded(OnInit, "3"), Succeeded(OnStart, "3"), StopNotice("3", file, audioTime)]
  {
    var plugin := Started(device, "3");
    plugin.OnMethodCall(Command("stop", "3"), device);
    plugin.HandleRecordStop(Some(file), audioTime);
    sent := plugin.outbox;
  }

  /** startByWavPath installs a recording handler whose listener writes to the given path. */
  method StartedByWavPath(device: Device) returns (plugin: FlutterPluginRecord)
    requires Permitted(device)
    ensures fresh(plugin) && plugin.Valid() && plugin.call.Some? && !plugin.recordMp3
    ensures plugin.audioHandler == Some(C.AudioHandler(true, Some(C.GivenPath("/tmp/x.wav"))))
    ensures |plugin.outbox| == 2
  {
    plugin := new FlutterPluginRecord();
    plugin.OnMethodCall(MethodCall("startByWavPath", map["id" := "4", "wavPath" := "/tmp/x.wav"]), device);
  }

  /** The engine writes where the listener says: with startByWavPath, onStop reports that path. */
  method RecordToGivenPath(device: Device, cachePath: string, audioTime: Option<Double>) returns (sent: seq<Message>)
    requires Permitted(device)
    ensures |sent| == 3 && sent[2] == StopNotice("4", "/tmp/x.wav", audioTime)
  {
    var plugin := StartedByWavPath(device);
    var listener := plugin.audioHandler.value.listener.value;
    plugin.OnMethodCall(Command("stop", "4"), device);
    plugin.HandleRecordStop(Some(C.FilePath(listener, cachePath)), audioTime);
    sent := plugin.outbox;
  }

  /** initRecordMp3, start and stop on a fresh plugin: the engine has yet to deliver the file. */
  method StoppedInMp3Mode(device: Device, id: string) returns (plugin: FlutterPluginRecord)
    requires Permitted(device)
    ensures fresh(plugin) && plugin.Valid() && plugin.Ledger() == (0, 0, multiset{})
    ensures plugin.call == Some(Command("stop", id)) && plugin.recordMp3
    ensures plugin.outbox == [Succeeded(OnInit, id), Succeeded(OnInit, id), Succeeded(OnStart, id)]
  {
    plugin := new FlutterPluginRecord();
    plugin.OnMethodCall(Command("initRecordMp3", id), device);
    assert plugin.recordMp3 && plugin.outbox == [Succeeded(OnInit, id)];
    plugin.OnMethodCall(Command("start", id), device);
    assert plugin.recordMp3 && plugin.outbox == [Succeeded(OnInit, id), Succeeded(OnInit, id), Succeeded(OnStart, id)];
    plugin.OnMethodCall(Command("stop", id), device);
  }

  /**
   * MP3 mode: the recording stop starts a conversion and says nothing; the converter's success
   * brings the single onStop, with the converted path and the original duration, while play
   * would use the raw recording.
   */
  method RecordMp3(device: Device, file: string, converted: string, audioTime: Option<Double>)
    returns (sent: seq<Message>, playPath: Option<string>)
    requires Permitted(device)
    ensures sent == [Succeeded(OnInit, "5"), Succeeded(OnInit, "5"), Succeeded(OnStart, "5"),
                     StopNotice("5", converted, audioTime)]
    ensures Count(sent, OnStop) == 1
    ensures playPath == Some(file)
  {
    var plugin := StoppedInMp3Mode(device, "5");
    plugin.HandleRecordStop(Some(file), audioTime);
    plugin.ConvertSucceeded(C.ConvertJob(file, audioTime), converted);
    sent := plugin.outbox;
    playPath := plugin.voicePlayPath;
    assert plugin.Ledger() == (1, 0, multiset{});
  }

  /** MP3 mode with a failing converter: the recording is never reported. */
  method RecordMp3ConversionFails(device: Device, file: string, audioTime: Option<Double>) returns (sent: seq<Message>)
    requires Permitted(device)
    ensures sent == [Succeeded(OnInit, "6"), Succeeded(OnInit, "6"), Succeeded(OnStart, "6")]
    ensures Count(sent, OnStop) == 0
  {
    var plugin := StoppedInMp3Mode(device, "6");
    plugin.HandleRecordStop(Some(file), audioTime);
    plugin.ConvertFailed(C.ConvertJob(file, audioTime));
    sent := plugin.outbox;
  }

  /** playByPath, then pause twice: isPlaying is reported "false", then "true". */
  method PauseToggles(device: Device) returns (sent: seq<Message>)
    ensures sent == [PlayNotice("7"), PauseNotice("8", Some(false)), PauseNotice("9", Some(true))]
    ensures sent[1].payload["isPlaying"] == Text("false") && sent[2].payload["isPlaying"] == Text("true")
  {
    var plugin := new FlutterPluginRecord();
    plugin.OnMethodCall(MethodCall("playByPath", map["id" := "7", "path" := "/tmp/a.wav"]), device);
    plugin.OnMethodCall(Command("pause", "8"), device);
    plugin.OnMethodCall(Command("pause", "9"), device);
    sent := plugin.outbox;
  }

  /** playByPath without a path: INVALID_PATH, no onPlay, no player. */
  method PlayWithoutPath(device: Device) returns (sent: seq<Message>, hasPlayer: bool)
    ensures sent == [ErrorReply("INVALID_PATH")] && Count(sent, OnPlay) == 0
    ensures !hasPlayer
  {
    var plugin := new FlutterPluginRecord();
    plugin.OnMethodCall(Command("playByPath", "10"), device);
    sent := plugin.outbox;
    hasPlayer := plugin.recorderUtil.Some?;
  }

  /** play before anything was recorded fails on the unset recording path. */
  method PlayBeforeRecording(device: Device) returns (sent: seq<Message>)
    ensures sent == [Thrown(C.UNINITIALIZED)]
  {
    var plugin := new FlutterPluginRecord();
    plugin.OnMethodCall(Command("play", "11"), device);
    sent := plugin.outbox;
  }

  /** An unknown command is answered notImplemented and touches no handle. */
  method UnknownCommand(device: Device) returns (sent: seq<Message>, touched: bool)
    ensures sent == [NotImplementedReply] && !touched
  {
    var plugin := new FlutterPluginRecord();
    plugin.OnMethodCall(Command("record", "12"), device);
    sent := plugin.outbox;
    touched := plugin.audioHandler.Some? || plugin.recorderUtil.Some? || plugin.platform != [];
  }

  /** start, then pause with no player: the pause carries the new id and reports "null". */
  method PausedWhileRecording(device: Device) returns (plugin: FlutterPluginRecord)
    requires Permitted(device)
    ensures fresh(plugin) && plugin.Valid() && plugin.call == Some(Command("pause", "14"))
    ensures plugin.outbox == [Succeeded(OnInit, "13"), Succeeded(OnStart, "13"), PauseNotice("14", None)]
    ensures C.Recording(plugin.State())
  {
    plugin := Started(device, "13");
    plugin.OnMethodCall(Command("pause", "14"), device);
  }

  /** A command issued during a recording takes over the id its amplitude readings carry. */
  method AmplitudeFollowsLatestCommand(device: Device, db: Double) returns (sent: seq<Message>)
    requires Permitted(device)
    ensures sent == [Succeeded(OnInit, "13"), Succeeded(OnStart, "13"),
                     PauseNotice("14", None), AmplitudeNotice("14", db)]
  {
    var plugin := PausedWhileRecording(device);
    plugin.HandleVolumeChange(db);
    sent := plugin.outbox;
  }

  /**
   * Permission results can arrive before any command, since the listener is registered on
   * attach: another plugin's request code is answered true and ignored; code 1 throws on the
   * unset call.
   */
  method EarlyPermissionResults(device: Device, grants: seq<int>) returns (foreignHandled: bool, ownHandled: bool, sent: seq<Message>)
    ensures foreignHandled && !ownHandled
    ensures sent == [Thrown(C.UNINITIALIZED)]
  {
    var plugin := new FlutterPluginRecord();
    foreignHandled := plugin.OnRequestPermissionsResult(2, grants, device);
    ownHandled := plugin.OnRequestPermissionsResult(REQUEST_CODE, grants, device);
    sent := plugin.outbox;
  }
}
