# flutter_speech Android bridge: a verified model

This project models the Android side of the `flutter_speech` plugin, which
connects a Flutter app to the platform speech recogniser. It covers two classes.

- **`DictSpeechRecognizer`** (module `Recognizer`) is the adapter around the
  platform `SpeechRecognizer`. It creates the recogniser handle and the
  recognition intent lazily. It picks one of two locales, stops, cancels and
  destroys the handle null-safely, and turns the platform's recognition
  callbacks into notifications for its listener. The partial-result decoding
  covers a JSON array, an object carrying `recognizeResult`, null and
  unparsable text. It is a pure function over an already classified value
  (`PartialValue`), so the JSON parser itself is not modelled.
- **`SpeechPlugin`** (module `Plugin`) is the façade that receives the host's
  method calls (`speech.activate`, `speech.start`, `speech.stop`,
  `speech.cancel`, `getPlatformVersion`) and drives the adapter. It relays the
  adapter's notifications to the host over the channel (`speech.onRecognitionStarted`,
  `speech.db`, `speech.onSpeech`). It also keeps `mSendResult`, the last
  non-empty partial transcript, which is spoken when a final result arrives
  with nothing usable in it.

Both classes are Dafny classes. Their mutable fields are real fields, and
ghost logs record what the code does to the outside world:

- `calls` holds the calls made on the platform recogniser.
- `outbox` holds the channel messages and the replies to method calls.
- `prompts` holds the permission prompts put up.
- `issued` holds the adapter operations the plugin invokes.

Each method is proved against pure specification functions (`KeepPartial`,
`SettleFinal`, `ClampRms`, `PermissionOutcome`, `ActivateOutcome`, `Dispatch`,
`Plan`, `ChooseLocale`, `DecodePartial`, `Forward`, …). Module `RelayTraces`
folds the relay over whole runs of callbacks and proves, by induction, what a
run can send:

- after any run the buffer is empty, or it holds the last non-empty partial of
  the run, or the starting buffer when the run had none;
- every spoken transcript is non-empty and was heard in the run or buffered at
  its start;
- at most one transcript is spoken per final result;
- over a run of final results with nothing usable in them, a buffered partial
  is spoken once and not again.

Two methods tie these whole-run facts to the plugin object: calling the
listener callbacks (`DeliverAll`), or the platform callbacks through the
adapter (`CallbackAll`), once per element leaves the plugin's buffer and
channel exactly as the fold says, and makes one guarded stop call on the
adapter per end of speech (`StopCalls`).

Answers from the operating system are inputs to the model (`Environment`):

- the new recogniser `createSpeechRecognizer` hands back, or none;
- whether `RECORD_AUDIO` is already granted;
- `Build.VERSION.SDK_INT`;
- `Build.VERSION.RELEASE`.

A Java `float` is `Floats.Float`: a finite real, an infinity or NaN. Comparisons
follow IEEE 754. `* 0.1` is exact.

Decisions where the code cannot be taken literally:

- `SpeechPlugin.java:88` uses `init` as a boolean, but
  `DictSpeechRecognizer.java:36` declares it `void`. The model's `Init` returns
  a success flag: true exactly when a recogniser handle is held afterwards.
  When the platform hands back no recogniser, the Java as written would throw
  at line 41 (`setRecognitionListener` on null). The model stops `Init` at that
  point. The listener has been remembered, the handle stays null, the intent is
  untouched, and the result is false. `speech.start` then does nothing more.
  The code itself never tests for a missing recogniser. `created == None`
  stands for "no recogniser is available", and it is a modelling choice. The
  other candidate for the flag is `SpeechRecognizer.isRecognitionAvailable`,
  which line 40 only logs.
- The code behaves in some ways a caller may not expect. The model keeps each
  of them as written:
  - A partial given as an object without `recognizeResult` (such as `{}`) passes
    nothing on. It does not pass on an empty transcript
    (`Recognizer.EmptyObjectPassesNothing`, `RelayTraces.UndecodablePartialsSilent`).
  - The answer to a permission prompt goes to the `Result` of the most recent
    method call (`mResult`). That is not necessarily the `speech.activate`
    call that put the prompt up.
  - A spoken, non-empty final result does not clear the buffered partial. A
    partial from an earlier utterance can therefore be spoken at a later empty
    final (`RelayTraces.StalePartialSpokenLater`).
  - `onResults` looks only at the first alternative. When it is empty, a
    non-empty later alternative is not spoken; the buffered partial is spoken
    instead, if there is one (`RelayTraces.FirstAlternativeOnly`).
  - `setLanguage` has no null guard on the intent, and `startListening` has
    none on the recogniser handle. Either one throws when called too early.
    The model states each as a precondition, and `speech.start` calls them
    only after a successful `init`.
- A NaN RMS level passes both comparisons of `onRmsChanged` unchanged, so it is
  sent as NaN. The clamp bounds hold for every other input, and `ClampRms`
  states both facts.
- `mSendResult` starts out null in Java. `TextUtils.isEmpty` treats null and
  `""` alike, so the model starts the buffer at `""`.

## Model

| member | source | states |
|---|---|---|
| `Recognizer.NewRecognitionIntent` | android/src/main/java/com/len/speech/DictSpeechRecognizer.java:44-50 | a new intent has the recognize-speech action, the free-form model, partial results on, at most 3 results, and no language yet |
| `Recognizer.IntentAfterInit` | android/src/main/java/com/len/speech/DictSpeechRecognizer.java:44-50 | init keeps an existing intent and builds a new one only when there is none |
| `Recognizer.ChooseLocale` | android/src/main/java/com/len/speech/DictSpeechRecognizer.java:53-61 | China exactly for "zh-CN"; US for every other tag, "en_US" and "" included |
| `Recognizer.WithLanguage` | android/src/main/java/com/len/speech/DictSpeechRecognizer.java:62 | setting the language extra sets the locale and changes no other part of the intent |
| `Recognizer.CallIfPresent` | android/src/main/java/com/len/speech/DictSpeechRecognizer.java:71-81 | a guarded call makes no platform call when the handle is null, and exactly one call on the held handle otherwise |
| `Recognizer.CreationCalls` | android/src/main/java/com/len/speech/DictSpeechRecognizer.java:38-42 | creating a recogniser creates it and then attaches the listener; with no recogniser it calls nothing |
| `Recognizer.DestroyCallOrder` | android/src/main/java/com/len/speech/DictSpeechRecognizer.java:83-92 | destroy calls stop, cancel, detach listener and destroy, in that order, on a held handle, and calls nothing when the handle is null |
| `Recognizer.DictSpeechRecognizer.constructor` | android/src/main/java/com/len/speech/DictSpeechRecognizer.java:26-34 | a new adapter holds no handle, no intent and no listener, and has made no platform call |
| `Recognizer.DictSpeechRecognizer.Init` | android/src/main/java/com/len/speech/DictSpeechRecognizer.java:36-51 | remembers the listener; creates the handle only when absent, keeping a held one with no platform call; creates the intent only when absent; reports whether a handle is held |
| `Recognizer.DictSpeechRecognizer.SetLanguage` | android/src/main/java/com/len/speech/DictSpeechRecognizer.java:53-65 | the intent becomes the old intent with the chosen locale; needs an intent, as the code has no null guard |
| `Recognizer.DictSpeechRecognizer.StartListening` | android/src/main/java/com/len/speech/DictSpeechRecognizer.java:67-69 | passes the current intent to the held handle, as the only new platform call; needs a handle, as the code has no null guard |
| `Recognizer.DictSpeechRecognizer.StopListening` | android/src/main/java/com/len/speech/DictSpeechRecognizer.java:71-75 | one stop call on a held handle, none when the handle is null |
| `Recognizer.DictSpeechRecognizer.Cancel` | android/src/main/java/com/len/speech/DictSpeechRecognizer.java:77-81 | one cancel call on a held handle, none when the handle is null |
| `Recognizer.DictSpeechRecognizer.Destroy` | android/src/main/java/com/len/speech/DictSpeechRecognizer.java:83-92 | leaves the handle null and makes exactly the destroy call sequence for the handle it found |
| `Recognizer.DestroyTwice` | android/src/main/java/com/len/speech/DictSpeechRecognizer.java:83-92 | a second destroy makes no platform call, so destroy is idempotent; the intent and the listener are untouched |
| `Recognizer.InitTwice` | android/src/main/java/com/len/speech/DictSpeechRecognizer.java:36-51 | after a successful init a second init also succeeds and keeps the same handle and intent; the platform is asked to create a recogniser at most once, by the first init |
| `Recognizer.ExtractResults` | android/src/main/java/com/len/speech/DictSpeechRecognizer.java:126-133 | the stored list when the results entry is a list, the empty list when it is missing or of another type |
| `Recognizer.DecodePartial` | android/src/main/java/com/len/speech/DictSpeechRecognizer.java:137-166 | null gives ""; an array gives element 0 when non-empty and nothing when empty; an object gives its recognizeResult when present and nothing otherwise; a failed parse gives "" |
| `Recognizer.Forward` | android/src/main/java/com/len/speech/DictSpeechRecognizer.java:94-172 | each platform callback yields at most one listener notification; final results always yield exactly one; the log-only callbacks yield none |
| `Recognizer.EmptyObjectPassesNothing` | android/src/main/java/com/len/speech/DictSpeechRecognizer.java:157-165 | `{}` passes nothing on, while malformed text passes on "" |
| `Plugin.KeepPartial` | android/src/main/java/com/len/speech/SpeechPlugin.java:138-142 | a non-empty partial overwrites the buffer; an empty partial leaves it unchanged |
| `Plugin.SettleFinal` | android/src/main/java/com/len/speech/SpeechPlugin.java:145-161 | a non-empty first alternative is spoken and the buffer is untouched; otherwise a non-empty buffer is spoken and cleared; otherwise nothing is spoken and nothing changes; what is spoken is never empty |
| `Plugin.ClampRms` | android/src/main/java/com/len/speech/SpeechPlugin.java:117-124 | every non-NaN level ends in [0,10]; identity inside the range, 0 below, 10 above; NaN stays NaN |
| `Plugin.DbLevel` | android/src/main/java/com/len/speech/SpeechPlugin.java:117-126 | the level sent is within [0,1] for every non-NaN input, and is the input times 0.1 inside [0,10] |
| `Plugin.Relay` | android/src/main/java/com/len/speech/SpeechPlugin.java:109-161 | what each listener notification sends to the host and leaves in the buffer: one onRecognitionStarted, one db, at most one onSpeech, nothing for end of speech or a partial |
| `Plugin.PermissionOutcome` | android/src/main/java/com/len/speech/SpeechPlugin.java:170-184 | another request code reports nothing; code 1001 reports true exactly when the first grant result exists and is GRANTED, and false otherwise |
| `Plugin.ActivateOutcome` | android/src/main/java/com/len/speech/SpeechPlugin.java:191-206 | an already granted permission, or an SDK below M, answers true immediately; otherwise no immediate answer; never an immediate false |
| `Plugin.Dispatch` | android/src/main/java/com/len/speech/SpeechPlugin.java:78-106 | each of the five method names selects its own command, and every other name selects the not-implemented branch |
| `Plugin.Plan` | android/src/main/java/com/len/speech/SpeechPlugin.java:86-102 | start issues init, then set language and start only when init succeeded; cancel issues cancel then destroy; stop issues only stop; other calls issue nothing |
| `Plugin.ImmediateReplies` | android/src/main/java/com/len/speech/SpeechPlugin.java:79-105 | the platform version is answered with "Android " plus the release; activate is answered true when no prompt is needed; an unknown method is answered not-implemented; start, stop and cancel send no reply |
| `Plugin.Prompts` | android/src/main/java/com/len/speech/SpeechPlugin.java:199-202 | a prompt with code 1001 is put up exactly for activate without the permission on SDK M or later |
| `Plugin.SpeechPlugin.constructor` | android/src/main/java/com/len/speech/SpeechPlugin.java:59-73 | a new plugin owns a fresh adapter with no handle, no intent and no listener set, an empty buffer, no held result and nothing sent |
| `Plugin.SpeechPlugin.OnPartsResult` | android/src/main/java/com/len/speech/SpeechPlugin.java:137-142 | the buffer becomes KeepPartial of the old buffer and the partial; nothing is sent |
| `Plugin.SpeechPlugin.OnResults` | android/src/main/java/com/len/speech/SpeechPlugin.java:144-161 | the buffer and the messages sent are those of SettleFinal |
| `Plugin.SpeechPlugin.OnRmsChanged` | android/src/main/java/com/len/speech/SpeechPlugin.java:116-128 | exactly one db message is sent, carrying DbLevel of the input |
| `Plugin.SpeechPlugin.StartListening` | android/src/main/java/com/len/speech/SpeechPlugin.java:109-114 | exactly one onRecognitionStarted message is sent |
| `Plugin.SpeechPlugin.OnEndOfSpeech` | android/src/main/java/com/len/speech/SpeechPlugin.java:130-135 | asks the adapter to stop listening, which makes one stop call on a held handle |
| `Plugin.SpeechPlugin.Deliver` | android/src/main/java/com/len/speech/SpeechPlugin.java:109-161 | a listener notification changes the buffer and sends messages exactly as Relay says; only end of speech touches the adapter |
| `Plugin.SpeechPlugin.OnPlatformCallback` | android/src/main/java/com/len/speech/DictSpeechRecognizer.java:94-166 | with the listener set, a platform callback forwarded by the adapter reaches the plugin's handler, with the buffer, messages and adapter calls Relay and Deliver give (end of speech makes one stop call on a held handle); a callback that forwards nothing changes nothing |
| `Plugin.SpeechPlugin.OnRequestPermissionsResult` | android/src/main/java/com/len/speech/SpeechPlugin.java:169-184 | replies PermissionOutcome to the held result when the code is 1001, and sends nothing otherwise; always returns false |
| `Plugin.SpeechPlugin.RequestPermissions` | android/src/main/java/com/len/speech/SpeechPlugin.java:191-206 | when ActivateOutcome gives an immediate answer, sends true to the call and puts up no prompt; otherwise puts up the 1001 prompt and sends nothing |
| `Plugin.SpeechPlugin.OnMethodCall` | android/src/main/java/com/len/speech/SpeechPlugin.java:75-107 | holds the call's result; start sets the adapter's listener and other methods leave it; sends the replies, prompts and adapter operations of its command; start inits and, on success, sets the locale and starts with the resulting intent; cancel leaves the handle null after cancel and the destroy sequence; stop only stops; other methods leave the adapter alone |
| `RelayTraces.BufferIsLastPartial` | android/src/main/java/com/len/speech/SpeechPlugin.java:136-161 | after any run of notifications the buffer is empty or is the last non-empty partial of the run, falling back to the starting buffer |
| `RelayTraces.PartialsKeepLastNonEmpty` | android/src/main/java/com/len/speech/SpeechPlugin.java:138-142 | after any run of partials, the buffer is the last non-empty one (or the earlier buffer if all were empty), and nothing is sent |
| `RelayTraces.UtteranceOutcome` | android/src/main/java/com/len/speech/SpeechPlugin.java:137-161 | partials then a final: a usable first alternative is spoken and the last partial stays buffered; otherwise the last non-empty partial is spoken, if any, and the buffer is cleared |
| `RelayTraces.SpokenWasHeard` | android/src/main/java/com/len/speech/SpeechPlugin.java:137-161 | in any run, every spoken transcript is non-empty and was either buffered at the start or heard as a partial or as a first alternative; so is the buffer left behind, unless it is empty |
| `RelayTraces.SendCounts` | android/src/main/java/com/len/speech/SpeechPlugin.java:116-161 | in any run, at most one onSpeech is sent per final result, and exactly one db per RMS change |
| `RelayTraces.FallbackSpokenOnce` | android/src/main/java/com/len/speech/SpeechPlugin.java:157-160 | over a run of finals with nothing usable, the buffered partial is spoken once and never again |
| `RelayTraces.StalePartialSpokenLater` | android/src/main/java/com/len/speech/SpeechPlugin.java:144-161 | a spoken final does not clear the buffer, so partial "a", final ["b"], then an empty final speak "b" and then "a" |
| `RelayTraces.FirstAlternativeOnly` | android/src/main/java/com/len/speech/SpeechPlugin.java:148-160 | a final ["", "yes"] speaks nothing with an empty buffer and the buffered "world" otherwise: later alternatives are never spoken |
| `RelayTraces.DecodedPartialsSpoken` | android/src/main/java/com/len/speech/DictSpeechRecognizer.java:137-160 | platform to host end to end: partial `["hello"]` and then an absent final speak "hello"; partial `{"recognizeResult":"hi"}` and then a wrong-typed final speak "hi" |
| `RelayTraces.UndecodablePartialsSilent` | android/src/main/java/com/len/speech/DictSpeechRecognizer.java:157-165 | end to end: a partial `{}` or malformed text, followed by an empty final, speaks nothing |
| `RelayTraces.FinalResultExamples` | android/src/main/java/com/len/speech/SpeechPlugin.java:145-161 | buffered "world" and an empty final list speak "world"; a final ["yes"] speaks "yes" and not the buffer |
| `RelayTraces.DeliverAll` | android/src/main/java/com/len/speech/SpeechPlugin.java:109-161 | calling the plugin's listener callback for each notification in turn leaves the buffer and the sent messages that the fold `Run` gives, and adds one guarded stop call per end of speech |
| `RelayTraces.CallbackAll` | android/src/main/java/com/len/speech/DictSpeechRecognizer.java:94-166 | once `init` has set the listener, each platform callback in turn, forwarded by the adapter, leaves the plugin's buffer and sent messages as `Run` over the forwarded notifications gives, and adds one guarded stop call per forwarded end of speech |

## Left out

- Flutter and Android plumbing is not modelled: `registerWith` (beyond
  creating the adapter), `setRegistrar`, `setChannel`, the method-channel
  transport and its marshalling. Channel sends are appended to `outbox`.
- The operating system's permission subsystem, `Build.VERSION` and
  `createSpeechRecognizer` are not modelled. Their answers are inputs
  (`Environment`).
- `org.json` parsing is not modelled. A partial value arrives already
  classified as null, array text, object text, or text whose parse fails.
  The `startsWith("[")` test is folded into that classification.
- Float rounding is not modelled. A finite `float` is any real, and `* 0.1`
  (a float-to-double product) is exact. Negative zero is not distinguished
  from zero.
- The log-only callbacks and `debugLog`/`Log.d` output are not modelled:
  `onBeginningOfSpeech`, `onBufferReceived`, `onError`, `onEvent` and
  `onActivityResult` (which only returns false). In `Recognizer.Forward` the
  first four forward nothing.
- Aliasing of the intent is not modelled. The Java intent is one mutable
  object shared with the platform. The model keeps it as a value, and each
  `startListening` call records the intent as it is at that moment.
- Null-pointer failures the code does not guard against are excluded by
  `requires` rather than modelled as exceptions:
  - `setLanguage` before an intent exists;
  - `startListening` without a handle;
  - a permission result with code 1001 before any method call;
  - a platform callback that the adapter forwards arriving before `init` set
    the listener (`OnPlatformCallback` requires `listenerSet` then).
- A null `call.arguments` to `speech.start` cannot be expressed: the argument
  is a `string`, so the null dereference of `toString()` at line 89 of
  `SpeechPlugin.java` is not modelled.
- Callback threading and delivery order across the operating-system and UI
  threads are concurrency and are not modelled. Callbacks are delivered one
  at a time. That the platform stops calling back after the listener is
  detached is not modelled either.
- example/android/app/src/main/java/com/len/speech_example/MainActivity.java
  is example-app wiring and is not part of this model. It calls a
  `DictSpeechRecognizer` constructor that does not exist (line 19).
