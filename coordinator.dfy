/**
 * The command coordinator of the Android recording plugin, as pure transitions on a snapshot
 * of its fields. Each function here is the specification of the class method of the same
 * name in module Plugin, and the lemmas state what the plugin promises across calls.
 *
 * The recording engine (AudioHandler), the player (RecorderUtil) and the MP3 converter
 * (AndroidAudioConverter) are foreign libraries; they appear as small handles and as the
 * calls the plugin makes into them, recorded in order in `platform`.
 */
module Coordinator {
  import opened Wrappers
  import opened Permissions
  import opened Messages

  /** AudioHandler.Frequency.F_22050, the sample rate every handler is created with. */
  const FREQUENCY_22050: int := 22050

  /** The exception Kotlin throws when a `lateinit` field is read before it is set. */
  const UNINITIALIZED: string := "UninitializedPropertyAccessException"

  /**
   * The listener handed to the recording engine. The default one writes into a fresh file of
   * the audio cache directory; the one made by startByWavPath writes to the caller's path.
   */
  datatype RecordListener = CacheFile | GivenPath(wavPath: string)

  /** The listener's getFilePath; `cachePath` stands for the generated cache file. */
  function FilePath(l: RecordListener, cachePath: string): (r: string)
    ensures l.GivenPath? ==> r == l.wavPath
    ensures l.CacheFile? ==> r == cachePath
  {
    match l
    case CacheFile => cachePath
    case GivenPath(wavPath) => wavPath
  }

  /** An AudioHandler: whether it is recording, and the listener of its last startRecord. */
  datatype AudioHandler = AudioHandler(isRecording: bool, listener: Option<RecordListener>)

  const FreshHandler: AudioHandler := AudioHandler(false, None)

  /**
   * The play-state listener of a player: play() reports the field voicePlayPath as it is when
   * the event fires; playByPath reports the path it was given.
   */
  datatype PlayListener = ReportsVoicePlayPath | ReportsPath(path: string)

  /** A RecorderUtil bound to a file, with its listener and whether it is playing. */
  datatype Player = Player(path: string, listener: PlayListener, playing: bool)

  /** A conversion handed to the MP3 converter; its callback keeps the original duration. */
  datatype ConvertJob = ConvertJob(file: string, audioTime: Option<Double>)

  /** A call the plugin makes into Android or into one of the foreign libraries. */
  datatype PlatformCall =
    | RequestPermissions(permissions: seq<Permission>, requestCode: int)
    | ReleaseHandler
    | CreateHandler(frequency: int)
    | StartRecord(listener: Option<RecordListener>)
    | StopRecord
    | LoadConverter
    | Convert(job: ConvertJob)
    | PlayVoice(path: string)
    | PausePlayer
    | StopPlayer

  /** The plugin's fields, and everything it has sent and called so far. */
  datatype PluginState = PluginState(
    call: Option<MethodCall>,
    recordMp3: bool,
    audioHandler: Option<AudioHandler>,
    recorderUtil: Option<Player>,
    voicePlayPath: Option<string>,
    outbox: seq<Message>,
    platform: seq<PlatformCall>)

  const Initial: PluginState := PluginState(None, false, None, None, None, [], [])

  /** The id of the most recent command: every payload reads it at the moment it is built. */
  function CurrentId(s: PluginState): string
    requires s.call.Some?
  {
    IdOf(s.call.value)
  }

  function Send(s: PluginState, m: Message): PluginState {
    s.(outbox := s.outbox + [m])
  }

  function Invoke(s: PluginState, op: PlatformCall): PluginState {
    s.(platform := s.platform + [op])
  }

  predicate Recording(s: PluginState) {
    s.audioHandler.Some? && s.audioHandler.value.isRecording
  }

  /** The calls initRecord makes: release the old handler if there is one, then create one. */
  function Reinstall(s: PluginState): seq<PlatformCall> {
    (if s.audioHandler.Some? then [ReleaseHandler] else []) + [CreateHandler(FREQUENCY_22050)]
  }

  /** The request checkPermission makes when something is missing. */
  function RequestMissing(s: PluginState, d: Device): PluginState {
    Invoke(s, RequestPermissions(NotGranted(Required(d.sdkInt), d.granted), REQUEST_CODE))
  }

  /** The first half of initRecord: release the handler if there is one, then create a fresh one. */
  function ReplaceHandler(s: PluginState): (t: PluginState)
    ensures t.audioHandler == Some(FreshHandler) && !Recording(t)
    ensures t.platform == s.platform + Reinstall(s)
    ensures t.call == s.call && t.recordMp3 == s.recordMp3 && t.recorderUtil == s.recorderUtil &&
      t.voicePlayPath == s.voicePlayPath && t.outbox == s.outbox
  {
    var released := if s.audioHandler.Some? then Invoke(s, ReleaseHandler).(audioHandler := None) else s;
    Invoke(released, CreateHandler(FREQUENCY_22050)).(audioHandler := Some(FreshHandler))
  }

  /** initRecord: replace the handler by a fresh one, then announce onInit. */
  function InitRecord(s: PluginState): (t: PluginState)
    requires s.call.Some?
    ensures t.audioHandler == Some(FreshHandler) && !Recording(t)
    ensures t.platform == s.platform + Reinstall(s)
    ensures t.outbox == s.outbox + [Succeeded(OnInit, CurrentId(s))]
    ensures t.call == s.call && t.recordMp3 == s.recordMp3 && t.recorderUtil == s.recorderUtil &&
      t.voicePlayPath == s.voicePlayPath
  {
    var created := ReplaceHandler(s);
    Send(created, Succeeded(OnInit, CurrentId(created)))
  }

  /**
   * checkPermission: when every required permission is held, run initRecord and answer true;
   * otherwise request exactly the missing ones with request code 1 and answer false.
   */
  function CheckPermission(s: PluginState, d: Device): (r: (bool, PluginState))
    requires s.call.Some?
    ensures r.0 == Permitted(d)
    ensures r.0 ==> r.1 == InitRecord(s)
    ensures !r.0 ==> r.1 == RequestMissing(s, d)
    ensures !r.0 ==> NotGranted(Required(d.sdkInt), d.granted) != []
  {
    var missing := NotGranted(Required(d.sdkInt), d.granted);
    PermittedIff(d);
    if |missing| > 0 then (false, Invoke(s, RequestPermissions(missing, REQUEST_CODE)))
    else (true, InitRecord(s))
  }

  /** stop: ask the handler to stop only when it exists and is recording. */
  function Stop(s: PluginState): (t: PluginState)
    ensures !Recording(t) && t.outbox == s.outbox
    ensures Recording(s) ==> t == Invoke(s, StopRecord).(audioHandler := Some(s.audioHandler.value.(isRecording := false)))
    ensures !Recording(s) ==> t == s
  {
    if Recording(s) then
      Invoke(s, StopRecord).(audioHandler := Some(s.audioHandler.value.(isRecording := false)))
    else s
  }

  /** `audioHandler?.startRecord(listener)`: nothing happens without a handler. */
  function StartRecording(s: PluginState, l: Option<RecordListener>): PluginState {
    if s.audioHandler.Some? then
      Invoke(s, StartRecord(l)).(audioHandler := Some(AudioHandler(true, l)))
    else s
  }

  /** The listener startByWavPath hands to the engine: none when `wavPath` is missing. */
  function WavListener(c: MethodCall): (r: Option<RecordListener>)
    ensures r.Some? <==> "wavPath" in c.arguments
    ensures r.Some? ==> r.value == GivenPath(c.arguments["wavPath"])
  {
    match Argument(c, "wavPath")
    case None => None
    case Some(p) => Some(GivenPath(p))
  }

  /** The part start and startByWavPath share once the permission check has passed. */
  function BeginRecording(s: PluginState, l: Option<RecordListener>): PluginState
    requires s.call.Some?
  {
    var stopped := Stop(s);
    var started := StartRecording(stopped, l);
    Send(started, Succeeded(OnStart, CurrentId(started)))
  }

  /**
   * start: check permissions; when they pass, initRecord has already installed a fresh handler,
   * so the stop-if-recording guard never fires and recording starts on the new handler.
   */
  function Start(s: PluginState, d: Device): (t: PluginState)
    requires s.call.Some?
    ensures t.call == s.call && t.recordMp3 == s.recordMp3 && t.recorderUtil == s.recorderUtil &&
      t.voicePlayPath == s.voicePlayPath
    ensures Permitted(d) ==> t.outbox == s.outbox + [Succeeded(OnInit, CurrentId(s)), Succeeded(OnStart, CurrentId(s))]
    ensures Permitted(d) ==> t.audioHandler == Some(AudioHandler(true, Some(CacheFile)))
    ensures Permitted(d) ==> t.platform == s.platform + Reinstall(s) + [StartRecord(Some(CacheFile))]
    ensures !Permitted(d) ==> t == RequestMissing(s, d)
  {
    var checked := CheckPermission(s, d);
    if checked.0 then BeginRecording(checked.1, Some(CacheFile)) else checked.1
  }

  /** startByWavPath: as start, with a listener that writes to the caller's `wavPath`. */
  function StartByWavPath(s: PluginState, d: Device): (t: PluginState)
    requires s.call.Some?
    ensures t.call == s.call && t.recordMp3 == s.recordMp3 && t.recorderUtil == s.recorderUtil &&
      t.voicePlayPath == s.voicePlayPath
    ensures Permitted(d) ==> t.outbox == s.outbox + [Succeeded(OnInit, CurrentId(s)), Succeeded(OnStart, CurrentId(s))]
    ensures Permitted(d) ==> t.audioHandler == Some(AudioHandler(true, WavListener(s.call.value)))
    ensures Permitted(d) ==> t.platform == s.platform + Reinstall(s) + [StartRecord(WavListener(s.call.value))]
    ensures !Permitted(d) ==> t == RequestMissing(s, d)
  {
    var checked := CheckPermission(s, d);
    if checked.0 then BeginRecording(checked.1, WavListener(checked.1.call.value)) else checked.1
  }

  /** init: select raw recording and run the permission check. */
  function Init(s: PluginState, d: Device): (t: PluginState)
    requires s.call.Some?
    ensures !t.recordMp3
    ensures t.outbox == s.outbox + if Permitted(d) then [Succeeded(OnInit, CurrentId(s))] else []
    ensures Permitted(d) ==> t == InitRecord(s.(recordMp3 := false))
    ensures Permitted(d) ==> t.audioHandler == Some(FreshHandler) && t.platform == s.platform + Reinstall(s)
    ensures !Permitted(d) ==> t == RequestMissing(s.(recordMp3 := false), d)
    ensures t.call == s.call && t.recorderUtil == s.recorderUtil && t.voicePlayPath == s.voicePlayPath
  {
    CheckPermission(s.(recordMp3 := false), d).1
  }

  /** initRecordMp3: select MP3 output, run the permission check, then load the converter. */
  function InitRecordMp3(s: PluginState, d: Device): (t: PluginState)
    requires s.call.Some?
    ensures t.recordMp3
    ensures t.outbox == s.outbox + if Permitted(d) then [Succeeded(OnInit, CurrentId(s))] else []
    ensures Permitted(d) ==> t == Invoke(InitRecord(s.(recordMp3 := true)), LoadConverter)
    ensures Permitted(d) ==>
              t.audioHandler == Some(FreshHandler) && t.platform == s.platform + Reinstall(s) + [LoadConverter]
    ensures !Permitted(d) ==>
              t.audioHandler == s.audioHandler &&
              t.platform == s.platform + [RequestPermissions(NotGranted(Required(d.sdkInt), d.granted), REQUEST_CODE)] + [LoadConverter]
    ensures t.call == s.call && t.recorderUtil == s.recorderUtil && t.voicePlayPath == s.voicePlayPath
  {
    var checked := CheckPermission(s.(recordMp3 := true), d);
    Invoke(checked.1, LoadConverter)
  }

  /** play: play the last recorded file; the field is unset until a recording has stopped. */
  function Play(s: PluginState): (t: PluginState)
    requires s.call.Some?
    ensures s.voicePlayPath.None? ==> t == Send(s, Thrown(UNINITIALIZED))
    ensures s.voicePlayPath.Some? ==>
      t.recorderUtil == Some(Player(s.voicePlayPath.value, ReportsVoicePlayPath, true)) &&
      t.outbox == s.outbox + [PlayNotice(CurrentId(s))] &&
      t.platform == s.platform + [PlayVoice(s.voicePlayPath.value)]
    ensures t.call == s.call && t.recordMp3 == s.recordMp3 && t.audioHandler == s.audioHandler &&
      t.voicePlayPath == s.voicePlayPath
  {
    match s.voicePlayPath
    case None => Send(s, Thrown(UNINITIALIZED))
    case Some(path) =>
      var playing := Invoke(s.(recorderUtil := Some(Player(path, ReportsVoicePlayPath, false))), PlayVoice(path));
      var s1 := playing.(recorderUtil := Some(playing.recorderUtil.value.(playing := true)));
      Send(s1, PlayNotice(CurrentId(s1)))
  }

  /** playByPath: a missing `path` is reported as INVALID_PATH and changes nothing else. */
  function PlayByPath(s: PluginState): (t: PluginState)
    requires s.call.Some?
    ensures Argument(s.call.value, "path").None? ==> t == Send(s, ErrorReply("INVALID_PATH"))
    ensures Argument(s.call.value, "path").Some? ==>
      var path := Argument(s.call.value, "path").value;
      t.recorderUtil == Some(Player(path, ReportsPath(path), true)) &&
      t.outbox == s.outbox + [PlayNotice(CurrentId(s))] &&
      t.platform == s.platform + [PlayVoice(path)]
    ensures t.call == s.call && t.recordMp3 == s.recordMp3 && t.audioHandler == s.audioHandler &&
      t.voicePlayPath == s.voicePlayPath
  {
    match Argument(s.call.value, "path")
    case None => Send(s, ErrorReply("INVALID_PATH"))
    case Some(path) =>
      var playing := Invoke(s.(recorderUtil := Some(Player(path, ReportsPath(path), false))), PlayVoice(path));
      var s1 := playing.(recorderUtil := Some(playing.recorderUtil.value.(playing := true)));
      Send(s1, PlayNotice(CurrentId(s1)))
  }

  /** `recorderUtil?.pausePlay()`: toggles the player; null when there is no player. */
  function PauseResult(s: PluginState): Option<bool> {
    match s.recorderUtil
    case None => None
    case Some(p) => Some(!p.playing)
  }

  /** pause: toggle the player and report `isPlaying` as text ("null" without a player). */
  function Pause(s: PluginState): (t: PluginState)
    requires s.call.Some?
    ensures t.outbox == s.outbox + [PauseNotice(CurrentId(s), PauseResult(s))]
    ensures s.recorderUtil.None? ==> t == Send(s, PauseNotice(CurrentId(s), None))
    ensures s.recorderUtil.Some? ==>
      t.recorderUtil == Some(s.recorderUtil.value.(playing := PauseResult(s).value)) &&
      t.platform == s.platform + [PausePlayer]
    ensures t.call == s.call && t.recordMp3 == s.recordMp3 && t.audioHandler == s.audioHandler &&
      t.voicePlayPath == s.voicePlayPath
  {
    var toggled := match s.recorderUtil
      case None => s
      case Some(p) => Invoke(s, PausePlayer).(recorderUtil := Some(p.(playing := !p.playing)));
    Send(toggled, PauseNotice(CurrentId(toggled), PauseResult(s)))
  }

  /** stopPlay: `recorderUtil?.stopPlay()`. */
  function StopPlay(s: PluginState): (t: PluginState)
    ensures t.outbox == s.outbox
    ensures s.recorderUtil.None? ==> t == s
    ensures s.recorderUtil.Some? ==>
      t.recorderUtil == Some(s.recorderUtil.value.(playing := false)) && t.platform == s.platform + [StopPlayer]
    ensures t.call == s.call && t.recordMp3 == s.recordMp3 && t.audioHandler == s.audioHandler &&
      t.voicePlayPath == s.voicePlayPath
  {
    match s.recorderUtil
    case None => s
    case Some(p) => Invoke(s, StopPlayer).(recorderUtil := Some(p.(playing := false)))
  }

  /** onMethodCall: remember the call (and its result object), then dispatch on its name. */
  function OnMethodCall(s: PluginState, c: MethodCall, d: Device): (t: PluginState)
    ensures t.call == Some(c)
    ensures c.methodName !in Commands ==> t == Send(s.(call := Some(c)), NotImplementedReply)
  {
    var s1 := s.(call := Some(c));
    if c.methodName == "init" then Init(s1, d)
    else if c.methodName == "initRecordMp3" then InitRecordMp3(s1, d)
    else if c.methodName == "start" then Start(s1, d)
    else if c.methodName == "startByWavPath" then StartByWavPath(s1, d)
    else if c.methodName == "stop" then Stop(s1)
    else if c.methodName == "play" then Play(s1)
    else if c.methodName == "pause" then Pause(s1)
    else if c.methodName == "playByPath" then PlayByPath(s1)
    else if c.methodName == "stopPlay" then StopPlay(s1)
    else Send(s1, NotImplementedReply)
  }

  /** sendStopResult: one onStop carrying the path, the duration as text and the current id. */
  function SendStopResult(s: PluginState, path: string, audioTime: Option<Double>): PluginState
    requires s.call.Some?
  {
    Send(s, StopNotice(CurrentId(s), path, audioTime))
  }

  /** convertToMp3: hand the file to the converter; its callback keeps the duration. */
  function ConvertToMp3(s: PluginState, file: string, audioTime: Option<Double>): PluginState {
    Invoke(s, Convert(ConvertJob(file, audioTime)))
  }

  /**
   * handleRecordStop, reached from either listener's onStop: without a file nothing happens;
   * with one, remember it for play, then either convert it or report it, never both.
   */
  function HandleRecordStop(s: PluginState, file: Option<string>, audioTime: Option<Double>): (t: PluginState)
    requires s.call.Some?
    ensures file.None? ==> t == s
    ensures file.Some? ==> t.voicePlayPath == file
    ensures file.Some? && s.recordMp3 ==>
      t.outbox == s.outbox && t.platform == s.platform + [Convert(ConvertJob(file.value, audioTime))]
    ensures file.Some? && !s.recordMp3 ==>
      t.outbox == s.outbox + [StopNotice(CurrentId(s), file.value, audioTime)] && t.platform == s.platform
    ensures t.call == s.call && t.recordMp3 == s.recordMp3 && t.audioHandler == s.audioHandler &&
      t.recorderUtil == s.recorderUtil
  {
    match file
    case None => s
    case Some(f) =>
      var s1 := s.(voicePlayPath := Some(f));
      if s1.recordMp3 then ConvertToMp3(s1, f, audioTime) else SendStopResult(s1, f, audioTime)
  }

  /** The converter's onSuccess: report the converted file with the original duration. */
  function ConvertSucceeded(s: PluginState, job: ConvertJob, convertedPath: string): (t: PluginState)
    requires s.call.Some?
    ensures t.outbox == s.outbox + [StopNotice(CurrentId(s), convertedPath, job.audioTime)]
    ensures t.call == s.call && t.recordMp3 == s.recordMp3 && t.audioHandler == s.audioHandler &&
      t.recorderUtil == s.recorderUtil && t.voicePlayPath == s.voicePlayPath && t.platform == s.platform
  {
    SendStopResult(s, convertedPath, job.audioTime)
  }

  /** handleVolumeChange: forward one amplitude reading, scaled by 1/100. */
  function VolumeChanged(s: PluginState, db: Double): (t: PluginState)
    requires s.call.Some?
    ensures t.outbox == s.outbox + [AmplitudeNotice(CurrentId(s), db)]
    ensures t.call == s.call && t.recordMp3 == s.recordMp3 && t.audioHandler == s.audioHandler &&
      t.recorderUtil == s.recorderUtil && t.voicePlayPath == s.voicePlayPath && t.platform == s.platform
  {
    Send(s, AmplitudeNotice(CurrentId(s), db))
  }

  /** The path a play-state event reports for the listener that fired. */
  function ReportedPath(s: PluginState, l: PlayListener): string
    requires l.ReportsVoicePlayPath? ==> s.voicePlayPath.Some?
  {
    match l
    case ReportsVoicePlayPath => s.voicePlayPath.value
    case ReportsPath(path) => path
  }

  /** A player's play-state listener: forward the state with the path and the current id. */
  function PlayStateChanged(s: PluginState, l: PlayListener, playState: string): (t: PluginState)
    requires s.call.Some?
    requires l.ReportsVoicePlayPath? ==> s.voicePlayPath.Some?
    ensures t.outbox == s.outbox + [PlayStateNotice(CurrentId(s), ReportedPath(s, l), playState)]
    ensures t.call == s.call && t.recordMp3 == s.recordMp3 && t.audioHandler == s.audioHandler &&
      t.recorderUtil == s.recorderUtil && t.voicePlayPath == s.voicePlayPath && t.platform == s.platform
  {
    Send(s, PlayStateNotice(CurrentId(s), ReportedPath(s, l), playState))
  }

  /** cleanupResources: release the handler and drop both handles. */
  function CleanupResources(s: PluginState): (t: PluginState)
    ensures t.audioHandler.None? && t.recorderUtil.None? && t.outbox == s.outbox
    ensures t.platform == s.platform + if s.audioHandler.Some? then [ReleaseHandler] else []
    ensures t.call == s.call && t.recordMp3 == s.recordMp3 && t.voicePlayPath == s.voicePlayPath
  {
    var released := if s.audioHandler.Some? then Invoke(s, ReleaseHandler) else s;
    released.(audioHandler := None, recorderUtil := None)
  }

  predicate FirstGranted(grants: seq<int>) {
    |grants| > 0 && grants[0] == PERMISSION_GRANTED
  }

  /**
   * onRequestPermissionsResult: only request code 1 is handled. A grant (first entry) runs
   * initRecord and replays start or startByWavPath when that was the last command; anything
   * else reports PERMISSION_DENIED. The listener is registered on attach, so a result can
   * arrive before any command: then `call` and `_result` are unset, and code 1 throws, after
   * the handler has been replaced in the grant case.
   */
  function OnRequestPermissionsResult(s: PluginState, requestCode: int, grants: seq<int>, d: Device): (t: PluginState)
    ensures requestCode != REQUEST_CODE ==> t == s
    ensures requestCode == REQUEST_CODE && !FirstGranted(grants) ==>
      t == Send(s, if s.call.Some? then ErrorReply("PERMISSION_DENIED") else Thrown(UNINITIALIZED))
    ensures requestCode == REQUEST_CODE && FirstGranted(grants) && s.call.None? ==>
      t == Send(ReplaceHandler(s), Thrown(UNINITIALIZED))
    ensures requestCode == REQUEST_CODE && FirstGranted(grants) && s.call.Some? ==>
      var m := s.call.value.methodName;
      (m != "start" && m != "startByWavPath" ==> t == InitRecord(s)) &&
      (m == "start" ==> t == Start(InitRecord(s), d)) &&
      (m == "startByWavPath" ==> t == StartByWavPath(InitRecord(s), d))
    ensures t.call == s.call
  {
    if requestCode != REQUEST_CODE then s
    else if FirstGranted(grants) then
      match s.call
      case None => Send(ReplaceHandler(s), Thrown(UNINITIALIZED))
      case Some(c) =>
        var s1 := InitRecord(s);
        if c.methodName == "start" then Start(s1, d)
        else if c.methodName == "startByWavPath" then StartByWavPath(s1, d)
        else s1
    else if s.call.None? then Send(s, Thrown(UNINITIALIZED))
    else Send(s, ErrorReply("PERMISSION_DENIED"))
  }
}
