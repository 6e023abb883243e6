/**
 * The plugin façade (SpeechPlugin): it answers the host's method calls by
 * driving the recogniser adapter, relays the adapter's notifications to the
 * host as channel messages, and buffers the last non-empty partial
 * transcript as a fallback for an empty final result.
 *
 * Channel sends and replies to method calls are appended to a ghost outbox;
 * answers of the operating system (permission status, SDK level, a new
 * recogniser, the release string) are inputs.
 */
module Plugin {
  import opened Wrappers
  import opened Floats
  import opened Recognizer

  /** `PERMISSION_REQ_CODE` */
  const PermissionRequestCode: int := 1001
  /** `PackageManager.PERMISSION_GRANTED` */
  const PermissionGranted: int := 0
  /** `Build.VERSION_CODES.M`, the first SDK level with runtime permissions. */
  const VersionCodeM: int := 23
  /** Bounds of the clamp applied to the RMS level. */
  const RmsFloor: real := 0.0
  const RmsCeiling: real := 10.0
  /** The factor the clamped RMS level is scaled by before it is sent. */
  const RmsScale: real := 0.1

  /** A reply to one method call. */
  datatype Reply = SuccessBool(flag: bool) | SuccessText(text: string) | NotImplemented

  /** What the plugin sends to the host: channel invocations and replies to method call `call`. */
  datatype Message =
    | RecognitionStarted             // "speech.onRecognitionStarted"
    | Db(level: Float)               // "speech.db"
    | OnSpeech(text: string)         // "speech.onSpeech"
    | Replied(call: nat, reply: Reply)

  /** The operating system's answers during one method call. */
  datatype Environment = Environment(
    created: Option<Handle>,  // what createSpeechRecognizer hands back
    micGranted: bool,         // checkSelfPermission(RECORD_AUDIO) == PERMISSION_GRANTED
    sdkInt: int,              // Build.VERSION.SDK_INT
    release: string)          // Build.VERSION.RELEASE

  // ---------------------------------------------------------------------
  // Transcript relay
  // ---------------------------------------------------------------------

  /** `onPartsResult`: the buffer after a partial: a non-empty partial replaces it, an empty one leaves it. */
  function KeepPartial(buffer: string, part: string): (b: string)
    ensures part != "" ==> b == part
    ensures part == "" ==> b == buffer
    ensures b == "" ==> buffer == "" && part == ""
  {
    if part != "" then part else buffer
  }

  /** What `onResults` sends and the buffer it leaves. */
  datatype Settled = Settled(spoken: Option<string>, buffer: string)

  /** The first alternative of a final result, or "" when the list is empty. */
  function FirstAlternative(results: seq<string>): string
  {
    if |results| > 0 then results[0] else ""
  }

  /**
   * `onResults`: a non-empty first alternative is spoken and the buffer kept;
   * otherwise a non-empty buffer is spoken and cleared; otherwise nothing.
   */
  function SettleFinal(buffer: string, results: seq<string>): (s: Settled)
    ensures |results| > 0 && results[0] != "" ==> s == Settled(Some(results[0]), buffer)
    ensures (|results| == 0 || results[0] == "") && buffer != "" ==> s == Settled(Some(buffer), "")
    ensures (|results| == 0 || results[0] == "") && buffer == "" ==> s == Settled(None, buffer)
    ensures s.spoken.Some? ==> s.spoken.value != ""
    ensures s.buffer == buffer || s.buffer == ""
  {
    var first := FirstAlternative(results);
    if first != "" then Settled(Some(first), buffer)
    else if buffer != "" then Settled(Some(buffer), "")
    else Settled(None, buffer)
  }

  /** `onRmsChanged`'s two comparisons: NaN passes both untouched, every other value ends in [0, 10]. */
  function ClampRms(rmsdb: Float): (r: Float)
    ensures rmsdb.NaN? <==> r.NaN?
    ensures !rmsdb.NaN? ==> r.Finite? && RmsFloor <= r.value <= RmsCeiling
    ensures rmsdb.Finite? && RmsFloor <= rmsdb.value <= RmsCeiling ==> r == rmsdb
    ensures Below(rmsdb, RmsFloor) ==> r == Finite(RmsFloor)
    ensures Above(rmsdb, RmsCeiling) ==> r == Finite(RmsCeiling)
  {
    var low := if Below(rmsdb, RmsFloor) then Finite(RmsFloor) else rmsdb;
    if Above(low, RmsCeiling) then Finite(RmsCeiling) else low
  }

  /** The level sent as "speech.db": the clamped value times 0.1, so within [0, 1] unless the input is NaN. */
  function DbLevel(rmsdb: Float): (r: Float)
    ensures rmsdb.NaN? <==> r.NaN?
    ensures !rmsdb.NaN? ==> r.Finite? && 0.0 <= r.value <= 1.0
    ensures rmsdb.Finite? && RmsFloor <= rmsdb.value <= RmsCeiling ==> r == Finite(rmsdb.value * RmsScale)
  {
    Scale(ClampRms(rmsdb), RmsScale)
  }

  /** The messages one listener notification sends and the buffer it leaves. */
  datatype Relayed = Relayed(buffer: string, messages: seq<Message>)

  /** The plugin's reaction to one notification, as far as buffer and channel go. */
  function Relay(buffer: string, n: Notification): (r: Relayed)
    ensures n.PartsResult? ==> r == Relayed(KeepPartial(buffer, n.part), [])
    ensures n.Results? ==>
      r.buffer == SettleFinal(buffer, n.results).buffer
      && r.messages == (if SettleFinal(buffer, n.results).spoken.Some?
                        then [OnSpeech(SettleFinal(buffer, n.results).spoken.value)] else [])
    ensures n.RmsChanged? ==> r == Relayed(buffer, [Db(DbLevel(n.rmsdb))])
    ensures n.ReadyForSpeech? ==> r == Relayed(buffer, [RecognitionStarted])
    ensures n.EndOfSpeech? ==> r == Relayed(buffer, [])
  {
    match n
    case ReadyForSpeech => Relayed(buffer, [RecognitionStarted])
    case RmsChanged(rmsdb) => Relayed(buffer, [Db(DbLevel(rmsdb))])
    case EndOfSpeech => Relayed(buffer, [])
    case PartsResult(part) => Relayed(KeepPartial(buffer, part), [])
    case Results(results) =>
      var s := SettleFinal(buffer, results);
      Relayed(s.buffer, if s.spoken.Some? then [OnSpeech(s.spoken.value)] else [])
  }

  // ---------------------------------------------------------------------
  // Permission
  // ---------------------------------------------------------------------

  /** `onRequestPermissionsResult`: the answer reported, or None when the request code is not this plugin's. */
  function PermissionOutcome(requestCode: int, grantResults: seq<int>): (r: Option<bool>)
    ensures r.None? <==> requestCode != PermissionRequestCode
    ensures r == Some(true) <==>
      requestCode == PermissionRequestCode && |grantResults| > 0 && grantResults[0] == PermissionGranted
    ensures r == Some(false) <==>
      requestCode == PermissionRequestCode && (|grantResults| == 0 || grantResults[0] != PermissionGranted)
  {
    if requestCode != PermissionRequestCode then None
    else Some(|grantResults| > 0 && grantResults[0] == PermissionGranted)
  }

  /** `requestPermissions`: the immediate answer to `speech.activate`, or None when a prompt is shown instead. */
  function ActivateOutcome(micGranted: bool, sdkInt: int): (r: Option<bool>)
    ensures r == Some(true) <==> micGranted || sdkInt < VersionCodeM
    ensures r.None? <==> !micGranted && sdkInt >= VersionCodeM
    ensures r != Some(false)
  {
    if micGranted then Some(true)
    else if sdkInt >= VersionCodeM then None
    else Some(true)
  }

  // ---------------------------------------------------------------------
  // Method-call dispatch
  // ---------------------------------------------------------------------

  datatype Command = VersionCall | ActivateCall | StartCall | CancelCall | StopCall | UnknownCall

  /** The `switch` of `onMethodCall`. */
  function Dispatch(name: string): (c: Command)
    ensures c == VersionCall <==> name == "getPlatformVersion"
    ensures c == ActivateCall <==> name == "speech.activate"
    ensures c == StartCall <==> name == "speech.start"
    ensures c == CancelCall <==> name == "speech.cancel"
    ensures c == StopCall <==> name == "speech.stop"
    ensures c == UnknownCall <==>
      name !in {"getPlatformVersion", "speech.activate", "speech.start", "speech.cancel", "speech.stop"}
  {
    if name == "getPlatformVersion" then VersionCall
    else if name == "speech.activate" then ActivateCall
    else if name == "speech.start" then StartCall
    else if name == "speech.cancel" then CancelCall
    else if name == "speech.stop" then StopCall
    else UnknownCall
  }

  /** The adapter operations a method call issues, in order. */
  datatype Action =
    | InitAdapter
    | SetLanguageTo(language: string)
    | StartAdapter
    | StopAdapter
    | CancelAdapter
    | DestroyAdapter

  /** The adapter operations a command issues, given whether `init` succeeded. */
  function Plan(c: Command, initOk: bool, language: string): (actions: seq<Action>)
    ensures c == StartCall && initOk ==> actions == [InitAdapter, SetLanguageTo(language), StartAdapter]
    ensures c == StartCall && !initOk ==> actions == [InitAdapter]
    ensures c == CancelCall ==> actions == [CancelAdapter, DestroyAdapter]
    ensures c == StopCall ==> actions == [StopAdapter]
    ensures c in {VersionCall, ActivateCall, UnknownCall} ==> actions == []
  {
    match c
    case StartCall => [InitAdapter] + (if initOk then [SetLanguageTo(language), StartAdapter] else [])
    case CancelCall => [CancelAdapter, DestroyAdapter]
    case StopCall => [StopAdapter]
    case _ => []
  }

  /** The replies a method call sends before it returns. */
  function ImmediateReplies(c: Command, call: nat, env: Environment): (ms: seq<Message>)
    ensures c == VersionCall ==> ms == [Replied(call, SuccessText("Android " + env.release))]
    ensures c == ActivateCall ==>
      ms == (if ActivateOutcome(env.micGranted, env.sdkInt).Some? then [Replied(call, SuccessBool(true))] else [])
    ensures c == UnknownCall ==> ms == [Replied(call, NotImplemented)]
    ensures c in {StartCall, CancelCall, StopCall} ==> ms == []
  {
    match c
    case VersionCall => [Replied(call, SuccessText("Android " + env.release))]
    case ActivateCall =>
      (match ActivateOutcome(env.micGranted, env.sdkInt)
       case Some(granted) => [Replied(call, SuccessBool(granted))]
       case None => [])
    case UnknownCall => [Replied(call, NotImplemented)]
    case _ => []
  }

  /** The permission prompts a method call puts up. */
  function Prompts(c: Command, env: Environment): (codes: seq<int>)
    ensures codes != [] <==> c == ActivateCall && !env.micGranted && env.sdkInt >= VersionCodeM
    ensures codes != [] ==> codes == [PermissionRequestCode]
  {
    if c == ActivateCall && ActivateOutcome(env.micGranted, env.sdkInt).None? then [PermissionRequestCode] else []
  }

  /**
   * The plugin object. `recognizer` is `mSpeechRecognizer`, `sendResult` is
   * `mSendResult`, `pending` identifies the method call whose `Result` is held
   * in `mResult`. `outbox` logs everything sent to the host, `prompts` the
   * permission prompts put up, `issued` the adapter operations issued.
   */
  class SpeechPlugin {
    const recognizer: DictSpeechRecognizer
    var sendResult: string
    var pending: Option<nat>
    ghost var outbox: seq<Message>
    ghost var prompts: seq<int>
    ghost var issued: seq<Action>

    ghost predicate Valid()
      reads this, recognizer
    {
      recognizer.Valid()
    }

    /** `registerWith`'s `new SpeechPlugin()` followed by `initSpeechRecognizer()`. */
    constructor ()
      ensures Valid() && fresh(recognizer)
      ensures recognizer.handle == None && recognizer.intent == None && recognizer.calls == []
      ensures !recognizer.listenerSet
      ensures sendResult == "" && pending == None
      ensures outbox == [] && prompts == [] && issued == []
    {
      recognizer := new DictSpeechRecognizer();
      sendResult := "";
      pending := None;
      outbox := [];
      prompts := [];
      issued := [];
    }

    /** `onPartsResult` */
    method OnPartsResult(part: string)
      modifies this`sendResult
      ensures sendResult == KeepPartial(old(sendResult), part)
    {
      if part != "" {
        sendResult := part;
      }
    }

    /** `onResults` */
    method OnResults(listenResult: seq<string>)
      modifies this`sendResult, this`outbox
      ensures sendResult == SettleFinal(old(sendResult), listenResult).buffer
      ensures outbox == old(outbox) + Relay(old(sendResult), Results(listenResult)).messages
    {
      var result := "";
      if |listenResult| > 0 {
        result := listenResult[0];
      }
      if result != "" {
        outbox := outbox + [OnSpeech(result)];
        return;
      }
      if sendResult != "" {
        outbox := outbox + [OnSpeech(sendResult)];
        sendResult := "";
      }
    }

    /** `onRmsChanged` */
    method OnRmsChanged(rmsdb: Float)
      modifies this`outbox
      ensures outbox == old(outbox) + [Db(DbLevel(rmsdb))]
    {
      var level := rmsdb;
      if Below(level, RmsFloor) {
        level := Finite(RmsFloor);
      }
      if Above(level, RmsCeiling) {
        level := Finite(RmsCeiling);
      }
      outbox := outbox + [Db(Scale(level, RmsScale))];
    }

    /** `startListening` (the listener callback): the recogniser is ready. */
    method StartListening()
      modifies this`outbox
      ensures outbox == old(outbox) + [RecognitionStarted]
    {
      outbox := outbox + [RecognitionStarted];
    }

    /** `onEndOfSpeech`: asks the adapter to stop listening. */
    method OnEndOfSpeech()
      requires Valid()
      modifies recognizer`calls
      ensures Valid()
      ensures recognizer.calls == old(recognizer.calls) + CallIfPresent(recognizer.handle, Op.StopListening)
    {
      recognizer.StopListening();
    }

    /** One listener notification, dispatched to the callback above that handles it. */
    method Deliver(n: Notification)
      requires Valid()
      modifies this`sendResult, this`outbox, recognizer`calls
      ensures Valid()
      ensures sendResult == Relay(old(sendResult), n).buffer
      ensures outbox == old(outbox) + Relay(old(sendResult), n).messages
      ensures recognizer.calls == old(recognizer.calls)
        + (if n.EndOfSpeech? then CallIfPresent(recognizer.handle, Op.StopListening) else [])
    {
      match n
      case ReadyForSpeech => StartListening();
      case RmsChanged(rmsdb) => OnRmsChanged(rmsdb);
      case EndOfSpeech => OnEndOfSpeech();
      case PartsResult(part) => OnPartsResult(part);
      case Results(results) => OnResults(results);
    }

    /**
     * One platform callback: the adapter forwards it (at most one notification)
     * and the plugin reacts. Forwarding dereferences the adapter's listener,
     * which only `init` sets.
     */
    method OnPlatformCallback(cb: Callback)
      requires Valid()
      requires Forward(cb) != [] ==> recognizer.listenerSet
      modifies this`sendResult, this`outbox, recognizer`calls
      ensures Valid()
      ensures Forward(cb) == [] ==>
        sendResult == old(sendResult) && outbox == old(outbox) && recognizer.calls == old(recognizer.calls)
      ensures Forward(cb) != [] ==>
        sendResult == Relay(old(sendResult), Forward(cb)[0]).buffer
        && outbox == old(outbox) + Relay(old(sendResult), Forward(cb)[0]).messages
        && recognizer.calls == old(recognizer.calls)
           + (if Forward(cb)[0].EndOfSpeech? then CallIfPresent(recognizer.handle, Op.StopListening) else [])
    {
      var out := Forward(cb);
      if out != [] {
        Deliver(out[0]);
      }
    }

    /** `onRequestPermissionsResult`: replies to the held `Result` when the code is this plugin's; always returns false. */
    method OnRequestPermissionsResult(requestCode: int, grantResults: seq<int>) returns (handled: bool)
      requires requestCode == PermissionRequestCode ==> pending.Some?
      modifies this`outbox
      ensures !handled
      ensures PermissionOutcome(requestCode, grantResults).None? ==> outbox == old(outbox)
      ensures PermissionOutcome(requestCode, grantResults).Some? ==>
        outbox == old(outbox) + [Replied(pending.value, SuccessBool(PermissionOutcome(requestCode, grantResults).value))]
    {
      if requestCode == PermissionRequestCode {
        if |grantResults| > 0 && grantResults[0] == PermissionGranted {
          outbox := outbox + [Replied(pending.value, SuccessBool(true))];
        } else {
          outbox := outbox + [Replied(pending.value, SuccessBool(false))];
        }
      }
      handled := false;
    }

    /** `requestPermissions`: answers at once when no prompt is needed, otherwise puts up the prompt. */
    method RequestPermissions(call: nat, micGranted: bool, sdkInt: int)
      modifies this`outbox, this`prompts
      ensures ActivateOutcome(micGranted, sdkInt).Some? ==>
        outbox == old(outbox) + [Replied(call, SuccessBool(true))] && prompts == old(prompts)
      ensures ActivateOutcome(micGranted, sdkInt).None? ==>
        outbox == old(outbox) && prompts == old(prompts) + [PermissionRequestCode]
    {
      if micGranted {
        outbox := outbox + [Replied(call, SuccessBool(true))];
        return;
      }
      if sdkInt >= VersionCodeM {
        prompts := prompts + [PermissionRequestCode];
      } else {
        outbox := outbox + [Replied(call, SuccessBool(true))];
      }
    }

    /** `onMethodCall`: remembers the call's `Result`, then does what the method name asks. */
    method OnMethodCall(name: string, arguments: string, call: nat, env: Environment)
      requires Valid()
      modifies this, recognizer
      ensures Valid()
      ensures pending == Some(call) && sendResult == old(sendResult)
      ensures Dispatch(name) == StartCall ==> recognizer.listenerSet
      ensures Dispatch(name) != StartCall ==> recognizer.listenerSet == old(recognizer.listenerSet)
      ensures outbox == old(outbox) + ImmediateReplies(Dispatch(name), call, env)
      ensures prompts == old(prompts) + Prompts(Dispatch(name), env)
      ensures issued == old(issued) + Plan(Dispatch(name), recognizer.handle.Some?, arguments)
      // speech.start: init, then the language and listening only when init succeeded
      ensures Dispatch(name) == StartCall ==>
        recognizer.handle == (if old(recognizer.handle).Some? then old(recognizer.handle) else env.created)
        && (recognizer.handle.Some? ==>
              recognizer.intent == Some(WithLanguage(IntentAfterInit(old(recognizer.intent)), ChooseLocale(arguments)))
              && recognizer.calls == old(recognizer.calls)
                 + (if old(recognizer.handle).None? then CreationCalls(env.created) else [])
                 + [PlatformCall(recognizer.handle.value, Op.StartListening(recognizer.intent.value))])
        && (recognizer.handle.None? ==>
              recognizer.intent == old(recognizer.intent) && recognizer.calls == old(recognizer.calls))
      // speech.cancel: cancel, then destroy
      ensures Dispatch(name) == CancelCall ==>
        recognizer.handle == None && recognizer.intent == old(recognizer.intent)
        && recognizer.calls == old(recognizer.calls)
           + CallIfPresent(old(recognizer.handle), Op.Cancel) + DestroyCalls(old(recognizer.handle))
      // speech.stop: stop only
      ensures Dispatch(name) == StopCall ==>
        recognizer.handle == old(recognizer.handle) && recognizer.intent == old(recognizer.intent)
        && recognizer.calls == old(recognizer.calls) + CallIfPresent(old(recognizer.handle), Op.StopListening)
      // every other method leaves the adapter alone
      ensures Dispatch(name) in {VersionCall, ActivateCall, UnknownCall} ==>
        recognizer.handle == old(recognizer.handle) && recognizer.intent == old(recognizer.intent)
        && recognizer.calls == old(recognizer.calls)
    {
      pending := Some(call);
      if name == "getPlatformVersion" {
        outbox := outbox + [Replied(call, SuccessText("Android " + env.release))];
      } else if name == "speech.activate" {
        RequestPermissions(call, env.micGranted, env.sdkInt);
      } else if name == "speech.start" {
        issued := issued + [InitAdapter];
        var ok := recognizer.Init(env.created);
        if ok {
          recognizer.SetLanguage(arguments);
          recognizer.StartListening();
          issued := issued + [SetLanguageTo(arguments), StartAdapter];
        }
      } else if name == "speech.cancel" {
        recognizer.Cancel();
        recognizer.Destroy();
        issued := issued + [CancelAdapter, DestroyAdapter];
      } else if name == "speech.stop" {
        recognizer.StopListening();
        issued := issued + [StopAdapter];
      } else {
        outbox := outbox + [Replied(call, NotImplemented)];
      }
    }
  }
}
