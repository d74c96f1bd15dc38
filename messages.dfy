/**
 * What passes between the Dart caller and the plugin: the incoming method call, and the
 * messages the caller receives back, either as notifications on the method channel or as
 * replies on the call's result object.
 */
module Messages {
  import opened Wrappers

  /** A Kotlin `Double`, known only by the text `Double.toString()` gives for it. */
  datatype Double = Double(text: string)

  /** `toString()` on a nullable Double: a null gives "null". */
  function DoubleText(d: Option<Double>): string {
    match d
    case None => "null"
    case Some(x) => x.text
  }

  /** `toString()` on a nullable Boolean: a null gives "null". */
  function BoolText(b: Option<bool>): string {
    match b
    case None => "null"
    case Some(true) => "true"
    case Some(false) => "false"
  }

  /** An incoming command: its method name and its string arguments. */
  datatype MethodCall = MethodCall(methodName: string, arguments: map<string, string>)

  /** `call.argument<String>(key)`: absent when the caller did not pass the key. */
  function Argument(c: MethodCall, key: string): Option<string> {
    if key in c.arguments then Some(c.arguments[key]) else None
  }

  /** `call.argument<String>("id") ?: ""`: the correlation id every payload carries. */
  function IdOf(c: MethodCall): string {
    match Argument(c, "id")
    case None => ""
    case Some(id) => id
  }

  /** The command names the plugin recognises. */
  const Commands: set<string> :=
    {"init", "initRecordMp3", "start", "startByWavPath", "stop", "play", "pause", "playByPath", "stopPlay"}

  /** The channel methods the plugin invokes on the Dart side. */
  datatype Event = OnInit | OnStart | OnStop | OnAmplitude | OnPlay | OnPlayState | PausePlay

  /** A payload value: a string, or the amplitude `db / 100` (floating point, left uncomputed). */
  datatype Value = Text(s: string) | Hundredths(db: Double)

  datatype Message =
    | Notify(event: Event, payload: map<string, Value>)  // channel.invokeMethod
    | ErrorReply(code: string)                           // _result.error
    | NotImplementedReply                                // result.notImplemented
    | Thrown(exception: string)                          // an exception escaping the handler

  function Succeeded(e: Event, id: string): Message {
    Notify(e, map["id" := Text(id), "result" := Text("success")])
  }

  function StopNotice(id: string, path: string, audioTime: Option<Double>): Message {
    Notify(OnStop, map["id" := Text(id), "voicePath" := Text(path),
                       "audioTimeLength" := Text(DoubleText(audioTime)), "result" := Text("success")])
  }

  function AmplitudeNotice(id: string, db: Double): Message {
    Notify(OnAmplitude, map["id" := Text(id), "amplitude" := Hundredths(db), "result" := Text("success")])
  }

  function PlayNotice(id: string): Message {
    Notify(OnPlay, map["id" := Text(id)])
  }

  function PlayStateNotice(id: string, path: string, playState: string): Message {
    Notify(OnPlayState, map["id" := Text(id), "playPath" := Text(path), "playState" := Text(playState)])
  }

  function PauseNotice(id: string, isPlaying: Option<bool>): Message {
    Notify(PausePlay, map["id" := Text(id), "result" := Text("success"), "isPlaying" := Text(BoolText(isPlaying))])
  }

  predicate IsNotice(m: Message, e: Event) {
    m.Notify? && m.event == e
  }

  /** How many notifications of kind `e` the caller has received. */
  function Count(msgs: seq<Message>, e: Event): nat {
    if msgs == [] then 0
    else (if IsNotice(msgs[0], e) then 1 else 0) + Count(msgs[1..], e)
  }

  lemma {:induction false} CountConcat(a: seq<Message>, b: seq<Message>, e: Event)
    ensures Count(a + b, e) == Count(a, e) + Count(b, e)
  {
    if a == [] {
      assert a + b == b;
    } else {
      assert (a + b)[0] == a[0];
      assert (a + b)[1..] == a[1..] + b;
      CountConcat(a[1..], b, e);
    }
  }

  /** A notification of kind `e` whose payload carries `id` as its correlation id. */
  predicate IsNoticeFor(m: Message, e: Event, id: string) {
    IsNotice(m, e) && "id" in m.payload && m.payload["id"] == Text(id)
  }

  /**
   * Every `onStart` the caller receives comes right after an `onInit` with the same payload,
   * hence the same correlation id.
   */
  predicate InitPrecedesStart(msgs: seq<Message>) {
    forall i :: 0 <= i < |msgs| && IsNotice(msgs[i], OnStart) ==>
      0 < i && msgs[i - 1] == msgs[i].(event := OnInit)
  }

  lemma InitPrecedesStartConcat(a: seq<Message>, b: seq<Message>)
    requires InitPrecedesStart(a) && InitPrecedesStart(b)
    ensures InitPrecedesStart(a + b)
  {
    forall i | 0 <= i < |a + b| && IsNotice((a + b)[i], OnStart)
      ensures 0 < i && (a + b)[i - 1] == (a + b)[i].(event := OnInit)
    {
      if i >= |a| {
        assert b[i - |a|] == (a + b)[i];
      }
    }
  }

  /** A sequence of messages with no onStart and no onStop in it. */
  predicate Quiet(msgs: seq<Message>) {
    forall m :: m in msgs ==> !IsNotice(m, OnStart) && !IsNotice(m, OnStop)
  }

  /** Appending quiet messages keeps the onInit/onStart pairing and the onStop count. */
  lemma {:induction false} QuietAppend(a: seq<Message>, b: seq<Message>)
    requires InitPrecedesStart(a) && Quiet(b)
    ensures InitPrecedesStart(a + b)
    ensures Count(a + b, OnStop) == Count(a, OnStop)
  {
    InitPrecedesStartConcat(a, b);
    CountConcat(a, b, OnStop);
    QuietCountsNoStop(b);
  }

  lemma {:induction false} QuietCountsNoStop(b: seq<Message>)
    requires Quiet(b)
    ensures Count(b, OnStop) == 0
  {
    if b != [] {
      assert b[0] in b;
      assert forall m :: m in b[1..] ==> m in b;
      QuietCountsNoStop(b[1..]);
    }
  }
}
