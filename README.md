# flutter_plugin_record_329 — the Android command coordinator in Dafny

This project models `FlutterPluginRecord329Plugin`, the Android side of the Flutter recording
plugin. The plugin receives named commands from Dart over a method channel: `init`,
`initRecordMp3`, `start`, `startByWavPath`, `stop`, `play`, `pause`, `playByPath` and `stopPlay`.
It drives a recording engine (`AudioHandler`), a player (`RecorderUtil`) and an MP3 converter
(`AndroidAudioConverter`). It answers through notifications such as `onInit`, `onStart`, `onStop`,
`onAmplitude`, `onPlay`, `onPlayState` and `pausePlay`, and through error replies
(`INVALID_PATH`, `PERMISSION_DENIED`) and `notImplemented`.

Layout:

- `permissions.dfy` (module `Permissions`): the permissions recording needs for each SDK
  version, and the filter that picks the ones not yet granted. The operating system's answer
  to `checkSelfPermission` is the `granted` set of a `Device`, which also carries the SDK level.
- `messages.dfy` (module `Messages`): the incoming `MethodCall`, the outgoing `Message`s and
  their payloads. It also defines `Count` (how many notifications of one kind were sent) and
  the ordering invariant `InitPrecedesStart`.
- `coordinator.dfy` (module `Coordinator`): a snapshot `PluginState` of the plugin's fields,
  plus two logs. `outbox` holds everything the Dart side received. `platform` holds every
  call into Android or into a foreign library. Each handler and callback is a pure
  transition function with a contract; these functions are the specification of the class.
- `properties.dfy` (module `Properties`): what the coordinator promises across calls.
- `plugin.dfy` (module `Plugin`): the class `FlutterPluginRecord`, with the Kotlin fields as
  mutable fields and one method per handler and per callback. Each method updates the fields in
  the handler's own order. Its contract ties the new `State()` to the `Coordinator` function
  for that handler: `OnMethodCall` does so once per command name, `HandleVolumeChange` uses
  `VolumeChanged`, and `ConvertFailed` leaves the state unchanged.
  The class invariant `Valid()` has two parts. First, every `onStart` comes right after an
  `onInit` with the same payload. Second, every recorded file is accounted for exactly once:
  it has been reported by an `onStop`, is still converting, or was lost to a failed conversion.
- `scenarios.dfy` (module `Scenarios`): end-to-end sessions on a fresh plugin object.

The foreign libraries are small handles, and their effects are assumed as follows.
- `AudioHandler.createHandler` returns a handler that is not recording.
- `startRecord` sets the handler's recording flag and `stopRecord` clears it.
- The engine's `onStop` reports the file at the path its listener's `getFilePath` gives.
- `playVoice` starts the player, `pausePlay` toggles it and returns the new playing flag, and
  `stopPlay` stops it.

## Model

| member | source | states |
|---|---|---|
| Permissions.Required | android/src/main/kotlin/record/wilson/flutter/com/flutter_plugin_record_329/FlutterPluginRecord329Plugin.kt:254-267 | four permissions from TIRAMISU (33) on, three before; RECORD_AUDIO first; the others are the media permissions exactly from TIRAMISU on; no repeats |
| Permissions.NotGranted | android/src/main/kotlin/record/wilson/flutter/com/flutter_plugin_record_329/FlutterPluginRecord329Plugin.kt:269-271 | the filter keeps exactly the permissions not held, each as often as in the input, never more than the input |
| Permissions.NothingMissingIff | android/src/main/kotlin/record/wilson/flutter/com/flutter_plugin_record_329/FlutterPluginRecord329Plugin.kt:269-273 | the filtered list is empty if and only if every permission in the input is held |
| Permissions.PermittedIff | android/src/main/kotlin/record/wilson/flutter/com/flutter_plugin_record_329/FlutterPluginRecord329Plugin.kt:253-279 | the gate passes if and only if nothing is left to request |
| Coordinator.InitRecord | android/src/main/kotlin/record/wilson/flutter/com/flutter_plugin_record_329/FlutterPluginRecord329Plugin.kt:102-114 | releases an existing handler, creates a fresh idle one at 22050 Hz, and sends exactly one onInit with the current id and "success"; nothing else changes |
| Coordinator.FilePath | android/src/main/kotlin/record/wilson/flutter/com/flutter_plugin_record_329/FlutterPluginRecord329Plugin.kt:284-321 | the listeners' getFilePath: the caller's wavPath for startByWavPath's listener, the generated cache file for the default one |
| Coordinator.ReplaceHandler | android/src/main/kotlin/record/wilson/flutter/com/flutter_plugin_record_329/FlutterPluginRecord329Plugin.kt:102-107 | releases an existing handler and creates a fresh idle one at 22050 Hz; nothing sent, no other field changes |
| Coordinator.CheckPermission | android/src/main/kotlin/record/wilson/flutter/com/flutter_plugin_record_329/FlutterPluginRecord329Plugin.kt:253-279 | answers true exactly when everything is held, and then behaves as initRecord; otherwise requests exactly the non-empty missing list with code 1 and sends nothing |
| Coordinator.Stop | android/src/main/kotlin/record/wilson/flutter/com/flutter_plugin_record_329/FlutterPluginRecord329Plugin.kt:186-191 | afterwards nothing is recording and nothing was sent; stopRecord is called only when a handler exists and records, otherwise nothing changes |
| Coordinator.Start | android/src/main/kotlin/record/wilson/flutter/com/flutter_plugin_record_329/FlutterPluginRecord329Plugin.kt:196-210 | permitted: onInit then onStart with the current id, handler replaced and recording into the cache file; denied: only the permission request, no notification |
| Coordinator.StartByWavPath | android/src/main/kotlin/record/wilson/flutter/com/flutter_plugin_record_329/FlutterPluginRecord329Plugin.kt:215-231 | as start, with a listener that writes to `wavPath`, or no listener when `wavPath` is missing |
| Coordinator.WavListener | android/src/main/kotlin/record/wilson/flutter/com/flutter_plugin_record_329/FlutterPluginRecord329Plugin.kt:224 | a listener exactly when the call carries `wavPath`, and then one that writes to that path |
| Coordinator.Init | android/src/main/kotlin/record/wilson/flutter/com/flutter_plugin_record_329/FlutterPluginRecord329Plugin.kt:236-239 | raw mode; when permitted, exactly initRecord: a fresh handler (the old one released), one onInit; otherwise only the permission request; call, player and recording path unchanged |
| Coordinator.InitRecordMp3 | android/src/main/kotlin/record/wilson/flutter/com/flutter_plugin_record_329/FlutterPluginRecord329Plugin.kt:244-248 | MP3 mode; when permitted, initRecord then the converter load; otherwise the request for exactly the missing permissions then the converter load, handler untouched; call, player and recording path unchanged |
| Coordinator.Play | android/src/main/kotlin/record/wilson/flutter/com/flutter_plugin_record_329/FlutterPluginRecord329Plugin.kt:139-155 | with no recording yet, the unset-field exception and nothing else; otherwise a new playing player on the recorded file and one onPlay with the current id |
| Coordinator.PlayByPath | android/src/main/kotlin/record/wilson/flutter/com/flutter_plugin_record_329/FlutterPluginRecord329Plugin.kt:160-181 | a missing path gives INVALID_PATH and leaves the player as it was; otherwise a new playing player on that path and one onPlay |
| Coordinator.Pause | android/src/main/kotlin/record/wilson/flutter/com/flutter_plugin_record_329/FlutterPluginRecord329Plugin.kt:126-134 | one pausePlay whose isPlaying is the toggled flag, or "null" without a player; with a player, the same player with the flag toggled and one pausePlay call; call, mode, handler and recording path unchanged |
| Coordinator.StopPlay | android/src/main/kotlin/record/wilson/flutter/com/flutter_plugin_record_329/FlutterPluginRecord329Plugin.kt:119-121 | sends nothing; with a player, the same player stopped and one stopPlay call; without one, nothing changes; call, mode, handler and recording path unchanged |
| Coordinator.OnMethodCall | android/src/main/kotlin/record/wilson/flutter/com/flutter_plugin_record_329/FlutterPluginRecord329Plugin.kt:67-82 | the call is always stored; an unknown name gets notImplemented and nothing else |
| Coordinator.HandleRecordStop | android/src/main/kotlin/record/wilson/flutter/com/flutter_plugin_record_329/FlutterPluginRecord329Plugin.kt:339-348 | no file: no change at all; a file: remembered for play, then either handed to the converter (MP3 mode, nothing sent) or reported by one onStop (raw mode, nothing converted) |
| Coordinator.ConvertSucceeded | android/src/main/kotlin/record/wilson/flutter/com/flutter_plugin_record_329/FlutterPluginRecord329Plugin.kt:353-382 | one onStop with the converted path, the original duration and the current id; nothing else changes |
| Coordinator.VolumeChanged | android/src/main/kotlin/record/wilson/flutter/com/flutter_plugin_record_329/FlutterPluginRecord329Plugin.kt:387-394 | one onAmplitude with the current id and the reading; nothing else changes |
| Coordinator.PlayStateChanged | android/src/main/kotlin/record/wilson/flutter/com/flutter_plugin_record_329/FlutterPluginRecord329Plugin.kt:141-147 | one onPlayState with the current id, the listener's path and the state; nothing else changes |
| Coordinator.CleanupResources | android/src/main/kotlin/record/wilson/flutter/com/flutter_plugin_record_329/FlutterPluginRecord329Plugin.kt:425-429 | both handles dropped, the handler released if there was one, nothing sent; call, mode and recording path unchanged |
| Coordinator.OnRequestPermissionsResult | android/src/main/kotlin/record/wilson/flutter/com/flutter_plugin_record_329/FlutterPluginRecord329Plugin.kt:434-451 | another request code changes nothing; a refusal sends PERMISSION_DENIED only; a grant is initRecord, followed by the replay of start or startByWavPath when that was the last command; before any command, code 1 throws on the unset call (after replacing the handler on a grant); the stored call never changes |
| Properties.UnknownCommandOnlyReplies | android/src/main/kotlin/record/wilson/flutter/com/flutter_plugin_record_329/FlutterPluginRecord329Plugin.kt:67-82 | an unknown command adds notImplemented and no notification of any kind, calls nothing and keeps every field except the stored call |
| Properties.GivenPathIsReportedUnchanged | android/src/main/kotlin/record/wilson/flutter/com/flutter_plugin_record_329/FlutterPluginRecord329Plugin.kt:284-292 | the listener startByWavPath installs reports the given wavPath unchanged as its file path |
| Properties.StopIsIdempotent | android/src/main/kotlin/record/wilson/flutter/com/flutter_plugin_record_329/FlutterPluginRecord329Plugin.kt:186-191 | stopping twice is the same as stopping once |
| Properties.PermittedStartReleasesInsteadOfStopping | android/src/main/kotlin/record/wilson/flutter/com/flutter_plugin_record_329/FlutterPluginRecord329Plugin.kt:196-210 | a permitted start during a recording releases the old handler, creates one and starts it, and never calls stopRecord |
| Properties.DeniedStartIsSilent | android/src/main/kotlin/record/wilson/flutter/com/flutter_plugin_record_329/FlutterPluginRecord329Plugin.kt:196-210 | a denied start sends nothing, keeps the handler, and requests exactly the required permissions not held |
| Properties.ExactlyOneStopPerRecording | android/src/main/kotlin/record/wilson/flutter/com/flutter_plugin_record_329/FlutterPluginRecord329Plugin.kt:339-382 | a recorded file yields exactly one onStop with the original duration: the converted path in MP3 mode, the file otherwise; play uses the file in both modes |
| Properties.Mp3StopWaitsForConverter | android/src/main/kotlin/record/wilson/flutter/com/flutter_plugin_record_329/FlutterPluginRecord329Plugin.kt:339-369 | in MP3 mode the recording stop sends no onStop and makes exactly one conversion call |
| Properties.MissingFileIsSwallowed | android/src/main/kotlin/record/wilson/flutter/com/flutter_plugin_record_329/FlutterPluginRecord329Plugin.kt:339-348 | a stop without a file changes nothing |
| Properties.LaterCommandRedirectsCallbacks | android/src/main/kotlin/record/wilson/flutter/com/flutter_plugin_record_329/FlutterPluginRecord329Plugin.kt:387-394 | after any command, an amplitude reading carries that command's id |
| Properties.CommandsKeepVoicePlayPath | android/src/main/kotlin/record/wilson/flutter/com/flutter_plugin_record_329/FlutterPluginRecord329Plugin.kt:67-82 | no command changes the remembered recording path |
| Properties.PauseTwiceRestores | android/src/main/kotlin/record/wilson/flutter/com/flutter_plugin_record_329/FlutterPluginRecord329Plugin.kt:126-134 | two pauses restore the player and report the flag toggled, then restored |
| Properties.PauseWithoutPlayer | android/src/main/kotlin/record/wilson/flutter/com/flutter_plugin_record_329/FlutterPluginRecord329Plugin.kt:126-134 | without a player, pausePlay reports isPlaying "null" |
| Properties.GrantReplaysStart | android/src/main/kotlin/record/wilson/flutter/com/flutter_plugin_record_329/FlutterPluginRecord329Plugin.kt:434-451 | a full grant for a pending start sends onInit, onInit, onStart with the current id and leaves the engine recording |
| Properties.GrantReplaysStartByWavPath | android/src/main/kotlin/record/wilson/flutter/com/flutter_plugin_record_329/FlutterPluginRecord329Plugin.kt:434-451 | a full grant for a pending startByWavPath sends onInit, onInit, onStart with the current id and leaves the engine recording through the wavPath listener |
| Properties.PartialGrantAsksAgain | android/src/main/kotlin/record/wilson/flutter/com/flutter_plugin_record_329/FlutterPluginRecord329Plugin.kt:434-451 | a grant of the first permission only, for a pending start or startByWavPath, sends one onInit and requests the still missing ones again |
| Properties.GrantAfterOtherCommand | android/src/main/kotlin/record/wilson/flutter/com/flutter_plugin_record_329/FlutterPluginRecord329Plugin.kt:434-451 | a grant after any other command is exactly initRecord |
| Properties.CommandKeepsInvariants | android/src/main/kotlin/record/wilson/flutter/com/flutter_plugin_record_329/FlutterPluginRecord329Plugin.kt:67-82 | every command keeps each onStart right after its onInit and sends no onStop |
| Properties.PermissionResultKeepsInvariants | android/src/main/kotlin/record/wilson/flutter/com/flutter_plugin_record_329/FlutterPluginRecord329Plugin.kt:434-451 | every permission result, also one arriving before any command, keeps each onStart right after its onInit and sends no onStop |
| Properties.RecordStopKeepsInvariants | android/src/main/kotlin/record/wilson/flutter/com/flutter_plugin_record_329/FlutterPluginRecord329Plugin.kt:339-348 | a recording stop adds one onStop exactly when it reports a raw file |
| Properties.ConvertSucceededKeepsInvariants | android/src/main/kotlin/record/wilson/flutter/com/flutter_plugin_record_329/FlutterPluginRecord329Plugin.kt:353-357 | a converter success adds exactly one onStop and keeps the ordering |
| Plugin.FlutterPluginRecord.constructor | android/src/main/kotlin/record/wilson/flutter/com/flutter_plugin_record_329/FlutterPluginRecord329Plugin.kt:32-53 | no call, raw mode, no handles, no recording path, nothing sent; the invariant holds |
| Plugin.FlutterPluginRecord.OnMethodCall | android/src/main/kotlin/record/wilson/flutter/com/flutter_plugin_record_329/FlutterPluginRecord329Plugin.kt:67-82 | stores the call, then runs exactly the handler its name selects, or replies notImplemented; keeps the invariant |
| Plugin.FlutterPluginRecord.InitRecord | android/src/main/kotlin/record/wilson/flutter/com/flutter_plugin_record_329/FlutterPluginRecord329Plugin.kt:102-114 | the fields afterwards are those of Coordinator.InitRecord |
| Plugin.FlutterPluginRecord.ReplaceHandler | android/src/main/kotlin/record/wilson/flutter/com/flutter_plugin_record_329/FlutterPluginRecord329Plugin.kt:102-107 | the fields afterwards are those of Coordinator.ReplaceHandler |
| Plugin.FlutterPluginRecord.CheckPermission | android/src/main/kotlin/record/wilson/flutter/com/flutter_plugin_record_329/FlutterPluginRecord329Plugin.kt:253-279 | answer and fields are those of Coordinator.CheckPermission |
| Plugin.FlutterPluginRecord.Stop | android/src/main/kotlin/record/wilson/flutter/com/flutter_plugin_record_329/FlutterPluginRecord329Plugin.kt:186-191 | the fields afterwards are those of Coordinator.Stop |
| Plugin.FlutterPluginRecord.StartRecording | android/src/main/kotlin/record/wilson/flutter/com/flutter_plugin_record_329/FlutterPluginRecord329Plugin.kt:202 | `audioHandler?.startRecord(listener)`: starts the handler if there is one |
| Plugin.FlutterPluginRecord.Start | android/src/main/kotlin/record/wilson/flutter/com/flutter_plugin_record_329/FlutterPluginRecord329Plugin.kt:196-210 | the fields afterwards are those of Coordinator.Start |
| Plugin.FlutterPluginRecord.StartByWavPath | android/src/main/kotlin/record/wilson/flutter/com/flutter_plugin_record_329/FlutterPluginRecord329Plugin.kt:215-231 | the fields afterwards are those of Coordinator.StartByWavPath |
| Plugin.FlutterPluginRecord.Init | android/src/main/kotlin/record/wilson/flutter/com/flutter_plugin_record_329/FlutterPluginRecord329Plugin.kt:236-239 | the fields afterwards are those of Coordinator.Init |
| Plugin.FlutterPluginRecord.InitRecordMp3 | android/src/main/kotlin/record/wilson/flutter/com/flutter_plugin_record_329/FlutterPluginRecord329Plugin.kt:244-248 | the fields afterwards are those of Coordinator.InitRecordMp3 |
| Plugin.FlutterPluginRecord.Play | android/src/main/kotlin/record/wilson/flutter/com/flutter_plugin_record_329/FlutterPluginRecord329Plugin.kt:139-155 | the fields afterwards are those of Coordinator.Play |
| Plugin.FlutterPluginRecord.PlayByPath | android/src/main/kotlin/record/wilson/flutter/com/flutter_plugin_record_329/FlutterPluginRecord329Plugin.kt:160-181 | the fields afterwards are those of Coordinator.PlayByPath |
| Plugin.FlutterPluginRecord.Pause | android/src/main/kotlin/record/wilson/flutter/com/flutter_plugin_record_329/FlutterPluginRecord329Plugin.kt:126-134 | the fields afterwards are those of Coordinator.Pause |
| Plugin.FlutterPluginRecord.StopPlay | android/src/main/kotlin/record/wilson/flutter/com/flutter_plugin_record_329/FlutterPluginRecord329Plugin.kt:119-121 | the fields afterwards are those of Coordinator.StopPlay |
| Plugin.FlutterPluginRecord.SendStopResult | android/src/main/kotlin/record/wilson/flutter/com/flutter_plugin_record_329/FlutterPluginRecord329Plugin.kt:374-382 | appends one onStop with the path, the duration text and the current id |
| Plugin.FlutterPluginRecord.ConvertToMp3 | android/src/main/kotlin/record/wilson/flutter/com/flutter_plugin_record_329/FlutterPluginRecord329Plugin.kt:353-369 | one conversion call, and the job joins the pending conversions |
| Plugin.FlutterPluginRecord.HandleRecordStop | android/src/main/kotlin/record/wilson/flutter/com/flutter_plugin_record_329/FlutterPluginRecord329Plugin.kt:339-348 | fields as Coordinator.HandleRecordStop; a file counts as one capture, and in MP3 mode becomes one pending conversion; keeps the invariant |
| Plugin.FlutterPluginRecord.ConvertSucceeded | android/src/main/kotlin/record/wilson/flutter/com/flutter_plugin_record_329/FlutterPluginRecord329Plugin.kt:355-357 | for a pending job: fields as Coordinator.ConvertSucceeded, the job leaves the pending set; keeps the invariant |
| Plugin.FlutterPluginRecord.ConvertFailed | android/src/main/kotlin/record/wilson/flutter/com/flutter_plugin_record_329/FlutterPluginRecord329Plugin.kt:359-361 | no field changes and nothing is sent; the job is counted as lost; keeps the invariant |
| Plugin.FlutterPluginRecord.HandleVolumeChange | android/src/main/kotlin/record/wilson/flutter/com/flutter_plugin_record_329/FlutterPluginRecord329Plugin.kt:387-394 | fields as Coordinator.VolumeChanged; keeps the invariant |
| Plugin.FlutterPluginRecord.PlayStateChanged | android/src/main/kotlin/record/wilson/flutter/com/flutter_plugin_record_329/FlutterPluginRecord329Plugin.kt:167-173 | fields as Coordinator.PlayStateChanged; keeps the invariant |
| Plugin.FlutterPluginRecord.OnRequestPermissionsResult | android/src/main/kotlin/record/wilson/flutter/com/flutter_plugin_record_329/FlutterPluginRecord329Plugin.kt:434-451 | answers true except when code 1 arrives before any command and throws; fields as Coordinator.OnRequestPermissionsResult; keeps the invariant |
| Plugin.FlutterPluginRecord.CleanupResources | android/src/main/kotlin/record/wilson/flutter/com/flutter_plugin_record_329/FlutterPluginRecord329Plugin.kt:425-429 | fields as Coordinator.CleanupResources; keeps the invariant |
| Scenarios.InitWhenPermitted | android/src/main/kotlin/record/wilson/flutter/com/flutter_plugin_record_329/FlutterPluginRecord329Plugin.kt:236-239 | init with every permission held sends exactly onInit{"1"} and leaves a fresh handler |
| Scenarios.StartDenied | android/src/main/kotlin/record/wilson/flutter/com/flutter_plugin_record_329/FlutterPluginRecord329Plugin.kt:446-448 | start, then a refusal: exactly PERMISSION_DENIED, no onStart, nothing recording |
| Scenarios.Started | android/src/main/kotlin/record/wilson/flutter/com/flutter_plugin_record_329/FlutterPluginRecord329Plugin.kt:196-210 | start on a fresh plugin sends onInit then onStart and leaves the engine recording |
| Scenarios.RecordRaw | android/src/main/kotlin/record/wilson/flutter/com/flutter_plugin_record_329/FlutterPluginRecord329Plugin.kt:339-348 | start, stop, engine stop with a file: onInit, onStart, then one onStop with the file and duration |
| Scenarios.StartedByWavPath | android/src/main/kotlin/record/wilson/flutter/com/flutter_plugin_record_329/FlutterPluginRecord329Plugin.kt:215-231 | startByWavPath installs a recording handler whose listener writes to the given path |
| Scenarios.RecordToGivenPath | android/src/main/kotlin/record/wilson/flutter/com/flutter_plugin_record_329/FlutterPluginRecord329Plugin.kt:284-292 | the onStop after startByWavPath reports `wavPath` exactly |
| Scenarios.StoppedInMp3Mode | android/src/main/kotlin/record/wilson/flutter/com/flutter_plugin_record_329/FlutterPluginRecord329Plugin.kt:244-248 | initRecordMp3, start, stop: onInit, onInit, onStart, MP3 mode, nothing captured yet |
| Scenarios.RecordMp3 | android/src/main/kotlin/record/wilson/flutter/com/flutter_plugin_record_329/FlutterPluginRecord329Plugin.kt:353-382 | in MP3 mode the single onStop carries the converted path and original duration; play would use the raw file |
| Scenarios.RecordMp3ConversionFails | android/src/main/kotlin/record/wilson/flutter/com/flutter_plugin_record_329/FlutterPluginRecord329Plugin.kt:359-361 | a failed conversion leaves the recording unreported: no onStop at all |
| Scenarios.PauseToggles | android/src/main/kotlin/record/wilson/flutter/com/flutter_plugin_record_329/FlutterPluginRecord329Plugin.kt:126-134 | playByPath, pause, pause: onPlay, then isPlaying "false", then "true" |
| Scenarios.PlayWithoutPath | android/src/main/kotlin/record/wilson/flutter/com/flutter_plugin_record_329/FlutterPluginRecord329Plugin.kt:160-165 | playByPath without a path: exactly INVALID_PATH, no onPlay, no player |
| Scenarios.PlayBeforeRecording | android/src/main/kotlin/record/wilson/flutter/com/flutter_plugin_record_329/FlutterPluginRecord329Plugin.kt:139-140 | play before any recording fails on the unset recording path |
| Scenarios.UnknownCommand | android/src/main/kotlin/record/wilson/flutter/com/flutter_plugin_record_329/FlutterPluginRecord329Plugin.kt:80 | an unknown command gets exactly notImplemented and touches no handle |
| Scenarios.PausedWhileRecording | android/src/main/kotlin/record/wilson/flutter/com/flutter_plugin_record_329/FlutterPluginRecord329Plugin.kt:126-134 | pause during a recording, with no player, reports "null" under the new id and leaves the recording running |
| Scenarios.AmplitudeFollowsLatestCommand | android/src/main/kotlin/record/wilson/flutter/com/flutter_plugin_record_329/FlutterPluginRecord329Plugin.kt:387-394 | an amplitude reading after a later command carries that command's id |
| Scenarios.EarlyPermissionResults | android/src/main/kotlin/record/wilson/flutter/com/flutter_plugin_record_329/FlutterPluginRecord329Plugin.kt:399-451 | before any command, another request code is answered true and ignored, while code 1 throws on the unset call |

## Behaviour of the code worth knowing


- No forced stop before start. `start` and `startByWavPath` test `isRecording` only after
  `checkPermission` has run `initRecord`, which has already replaced the handler by a fresh,
  idle one. The stop-if-recording branch (lines 199-201 and 221-223) can therefore never run.
  An earlier recording is ended by `release()` on its handler, not by `stopRecord()`
  (`Properties.PermittedStartReleasesInsteadOfStopping`).
- A permitted `start` sends `onInit` before `onStart`. After a permission grant for a pending
  `start`, the caller sees `onInit` twice, then `onStart` (`Properties.GrantReplaysStart`).
- An unknown command changes one field: `call` is stored before the dispatch.
- The permission listener is registered on attach, so a result can arrive before any command.
  With request code 1 the plugin then reads the unset `call` or `_result` and throws.
- `play` and `playByPath` replace `recorderUtil` without stopping the previous player.
- In MP3 mode `voicePlayPath` stays at the recorded file, not the converted one.
- `play` before any recording reads the unset `lateinit` field `voicePlayPath`, and Kotlin
  throws. The model records this as a `Thrown` message.
- Amplitude readings are forwarded whenever the engine reports one, with no check that a
  recording is running.
- No command replies success on its `Result`. Only errors and `notImplemented` are replies.

## Left out

- The method channel transport, `Result` objects and `runOnUiThread` delivery: sent messages
  are appended to `outbox` in the order the plugin sends them.
- `@Volatile` and `@Synchronized`: the model is sequential, and each callback is a separate method call.
- The Android permission APIs: `Device` stands for the SDK level and the granted permissions.
- The internals of `AudioHandler`, `RecorderUtil` and `AndroidAudioConverter`: they are
  foreign libraries, modelled as handles with the assumed effects listed above.
- `release()` is a logged call in `platform` only. The model does not say whether a released
  handler still delivers `onStop` for its recording.
- The cache file name (`UUID`, the audio cache directory): `FilePath` takes it as an opaque parameter.
- The amplitude `db / 100` and `Double.toString()` of durations (lines 379 and 391):
  floating point is not modelled. A duration is known only by its text, and an amplitude
  is a tagged value.
- `initWavToMp3`'s load callbacks only log; the model records the `LoadConverter` call.
- Logging, `onError` and `onStart` of the listeners (log only), and the lifecycle hooks other
  than `cleanupResources` (lines 58-62 and 399-420).
- The texts of the error replies; only their codes are modelled.
- The `permissions` argument of `onRequestPermissionsResult`, which the plugin ignores.
- The engine, converter and player callbacks require `call` to be set. Each of them belongs to
  a listener or converter that a command created, and that command stored its call first.
- Plugin.FlutterPluginRecord.ConvertSucceeded: requires the job to be one the plugin started. A
  converter callback for any other job cannot happen.
- ios/Classes/DPAudioRecorder.h and ios/Classes/DPAudioPlayer.h are not part of this model
  (declarations only). Neither are DateUtils.java (date formatting) and ITimer.java
  (an interface).
