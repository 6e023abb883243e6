/**
 * The recogniser adapter (DictSpeechRecognizer): it owns the platform's
 * speech-recogniser handle and the recognition intent, creates both lazily,
 * releases the handle null-safely, and turns the platform's recognition
 * callbacks into notifications for its listener (the plugin).
 *
 * The platform recogniser is modelled by a `Handle` value and a ghost log of
 * the calls made on it; the JSON text of partial results by an already
 * classified value, so that only the adapter's decision logic is modelled.
 */
module Recognizer {
  import opened Wrappers
  import opened Floats

  /** Identity of a recogniser object handed out by the platform. */
  datatype Handle = Handle(id: nat)

  /** The two locales the adapter can configure: `Locale.CHINA` and `Locale.US`. */
  datatype Locale = China | US

  /** `RecognizerIntent.ACTION_RECOGNIZE_SPEECH` */
  const ActionRecognizeSpeech: string := "android.speech.action.RECOGNIZE_SPEECH"
  /** `RecognizerIntent.LANGUAGE_MODEL_FREE_FORM` */
  const LanguageModelFreeForm: string := "free_form"
  /** The value given to `EXTRA_MAX_RESULTS`. */
  const MaxResults: int := 3
  /** The only language tag that selects the Chinese locale. */
  const ChineseTag: string := "zh-CN"

  /** The recognition intent and the extras the adapter puts into it. */
  datatype Intent = Intent(
    action: string,
    languageModel: string,
    partialResults: bool,
    maxResults: int,
    language: Option<Locale>)

  /** What the adapter asks of the platform recogniser object. */
  datatype Op =
    | Create
    | AttachListener
    | DetachListener
    | StartListening(intent: Intent)
    | StopListening
    | Cancel
    | Destroy

  datatype PlatformCall = PlatformCall(target: Handle, op: Op)

  /** The intent built when none exists yet. */
  function NewRecognitionIntent(): (i: Intent)
    ensures i.action == ActionRecognizeSpeech
    ensures i.languageModel == LanguageModelFreeForm
    ensures i.partialResults && i.maxResults == 3
    ensures i.language == None
  {
    Intent(ActionRecognizeSpeech, LanguageModelFreeForm, true, MaxResults, None)
  }

  /** The intent held after `init`: the existing one, or a new one when there is none. */
  function IntentAfterInit(i: Option<Intent>): (r: Intent)
    ensures i.Some? ==> r == i.value
    ensures i.None? ==> r == NewRecognitionIntent()
  {
    match i
    case Some(existing) => existing
    case None => NewRecognitionIntent()
  }

  /** The locale chosen for a language tag: China for exactly "zh-CN", US for anything else. */
  function ChooseLocale(language: string): (l: Locale)
    ensures l == China <==> language == ChineseTag
    ensures l == US <==> language != ChineseTag
  {
    if language == ChineseTag then China else US
  }

  /** Putting the language extra into an intent: the language is set and nothing else changes. */
  function WithLanguage(i: Intent, l: Locale): (j: Intent)
    ensures j.language == Some(l)
    ensures j.action == i.action && j.languageModel == i.languageModel
    ensures j.partialResults == i.partialResults && j.maxResults == i.maxResults
  {
    i.(language := Some(l))
  }

  /** A call made only when a handle is held: none at all when the handle is null. */
  function CallIfPresent(h: Option<Handle>, op: Op): (calls: seq<PlatformCall>)
    ensures h.None? <==> calls == []
    ensures h.Some? ==> calls == [PlatformCall(h.value, op)]
  {
    match h
    case Some(handle) => [PlatformCall(handle, op)]
    case None => []
  }

  /** The calls that creating a recogniser makes: creation, then attaching the listener. */
  function CreationCalls(created: Option<Handle>): (calls: seq<PlatformCall>)
    ensures created.None? ==> calls == []
    ensures created.Some? ==>
      calls == [PlatformCall(created.value, Create), PlatformCall(created.value, AttachListener)]
  {
    CallIfPresent(created, Create) + CallIfPresent(created, AttachListener)
  }

  /** The calls `destroy` makes on the handle it finds. */
  function DestroyCalls(h: Option<Handle>): seq<PlatformCall>
  {
    CallIfPresent(h, StopListening) + CallIfPresent(h, Cancel)
      + CallIfPresent(h, DetachListener) + CallIfPresent(h, Destroy)
  }

  /** `destroy` stops, cancels, detaches the listener and destroys, in that order; with no handle it calls nothing. */
  lemma DestroyCallOrder(h: Option<Handle>)
    ensures h.None? ==> DestroyCalls(h) == []
    ensures h.Some? ==> DestroyCalls(h) == [
      PlatformCall(h.value, StopListening), PlatformCall(h.value, Cancel),
      PlatformCall(h.value, DetachListener), PlatformCall(h.value, Destroy)]
  {
  }

  /**
   * The adapter object. `handle` is `mSpeechRecognizer`, `intent` is
   * `mRecognitionIntent`, `listenerSet` says whether `mDictSpeechListener`
   * has been assigned, and `calls` logs every call made on the platform
   * recogniser.
   */
  class DictSpeechRecognizer {
    var handle: Option<Handle>
    var intent: Option<Intent>
    var listenerSet: bool
    ghost var calls: seq<PlatformCall>

    /** A handle is only ever held together with an intent. */
    ghost predicate Valid()
      reads this
    {
      handle.Some? ==> intent.Some?
    }

    constructor ()
      ensures Valid()
      ensures handle == None && intent == None && !listenerSet && calls == []
    {
      handle := None;
      intent := None;
      listenerSet := false;
      calls := [];
    }

    /**
     * `init`: remembers the listener, creates the recogniser if there is
     * none, then the intent if there is none. `created` is what the platform
     * hands back when asked for a recogniser; when it hands back none the
     * listener cannot be attached and init stops there. Returns whether a
     * recogniser is held afterwards.
     */
    method Init(created: Option<Handle>) returns (ok: bool)
      requires Valid()
      modifies this
      ensures Valid() && listenerSet
      ensures ok <==> handle.Some?
      ensures old(handle).Some? ==> handle == old(handle) && calls == old(calls)
      ensures old(handle).None? ==> handle == created && calls == old(calls) + CreationCalls(created)
      ensures ok ==> intent == Some(IntentAfterInit(old(intent)))
      ensures !ok ==> intent == old(intent)
    {
      listenerSet := true;
      if handle.None? {
        handle := created;
        if created.None? {
          return false;
        }
        calls := calls + CreationCalls(created);
      }
      if intent.None? {
        intent := Some(NewRecognitionIntent());
      }
      ok := true;
    }

    /** `setLanguage`: puts the locale chosen for `language` into the existing intent. */
    method SetLanguage(language: string)
      requires Valid() && intent.Some?
      modifies this`intent
      ensures Valid()
      ensures intent == Some(WithLanguage(old(intent).value, ChooseLocale(language)))
    {
      var locale: Locale;
      if language == ChineseTag {
        locale := China;
      } else {
        locale := US;
      }
      intent := Some(intent.value.(language := Some(locale)));
    }

    /** `startListening`: hands the current intent to the recogniser; there is no null guard, so a handle must be held. */
    method StartListening()
      requires Valid() && handle.Some?
      modifies this`calls
      ensures calls == old(calls) + [PlatformCall(handle.value, Op.StartListening(intent.value))]
    {
      calls := calls + [PlatformCall(handle.value, Op.StartListening(intent.value))];
    }

    /** `stopListening`: null-safe. */
    method StopListening()
      modifies this`calls
      ensures calls == old(calls) + CallIfPresent(handle, Op.StopListening)
    {
      if handle.Some? {
        calls := calls + [PlatformCall(handle.value, Op.StopListening)];
      }
    }

    /** `cancel`: null-safe. */
    method Cancel()
      modifies this`calls
      ensures calls == old(calls) + CallIfPresent(handle, Op.Cancel)
    {
      if handle.Some? {
        calls := calls + [PlatformCall(handle.value, Op.Cancel)];
      }
    }

    /** `destroy`: stop, cancel, then detach the listener, destroy and forget the handle. */
    method Destroy()
      requires Valid()
      modifies this`calls, this`handle
      ensures Valid()
      ensures handle == None
      ensures calls == old(calls) + DestroyCalls(old(handle))
    {
      StopListening();
      Cancel();
      if handle.Some? {
        calls := calls + [PlatformCall(handle.value, DetachListener), PlatformCall(handle.value, Op.Destroy)];
        handle := None;
      }
    }
  }

  /** A second `destroy` makes no platform call and leaves the handle null. */
  method DestroyTwice(r: DictSpeechRecognizer)
    requires r.Valid()
    modifies r
    ensures r.handle == None
    ensures r.calls == old(r.calls) + DestroyCalls(old(r.handle))
    ensures r.intent == old(r.intent) && r.listenerSet == old(r.listenerSet)
  {
    r.Destroy();
    ghost var afterFirst := r.calls;
    r.Destroy();
    assert r.calls == afterFirst;
  }

  /** Two `init`s in a row keep the handle the first one produced and create nothing more. */
  method InitTwice(r: DictSpeechRecognizer, first: Option<Handle>, second: Option<Handle>)
    returns (ok1: bool, ok2: bool)
    requires r.Valid()
    modifies r
    ensures ok1 ==> ok2 && r.intent == Some(IntentAfterInit(old(r.intent)))
    ensures old(r.handle).Some? ==> r.handle == old(r.handle) && r.calls == old(r.calls)
    ensures old(r.handle).None? && ok1 ==> r.handle == first && r.calls == old(r.calls) + CreationCalls(first)
  {
    ok1 := r.Init(first);
    ghost var h1 := r.handle;
    ok2 := r.Init(second);
    assert ok1 ==> r.handle == h1;
  }

  // ---------------------------------------------------------------------
  // Callbacks from the platform and what the adapter tells its listener.
  // ---------------------------------------------------------------------

  /** The entry stored under `RESULTS_RECOGNITION` in a final-results bundle. */
  datatype ResultsEntry = Missing | ArrayListValue(items: seq<string>) | OtherValue

  /**
   * The entry stored under "results_recognition" in a partial-results bundle,
   * classified the way the adapter's parsing sees it: null; text that starts
   * with '[' and parses as a JSON array (each element as its `toString`);
   * text that does not start with '[' and parses as a JSON object (each field
   * as `getString` renders it); or text on which the parse it is given fails.
   */
  datatype PartialValue =
    | NullValue
    | ArrayText(elements: seq<string>)
    | ObjectText(fields: map<string, string>)
    | Malformed

  /** The key under which some vendor recognisers put the partial transcript. */
  const RecognizeResultKey: string := "recognizeResult"

  /** The platform recogniser's callbacks (`RecognitionListener`). */
  datatype Callback =
    | OnReadyForSpeech
    | OnBeginningOfSpeech
    | OnRmsChanged(rmsdb: Float)
    | OnBufferReceived
    | OnEndOfSpeech
    | OnError(error: int)
    | OnResults(entry: ResultsEntry)
    | OnPartialResults(value: PartialValue)
    | OnEvent(eventType: int)

  /** The listener's methods (`DictSpeechListener`). */
  datatype Notification =
    | ReadyForSpeech
    | RmsChanged(rmsdb: Float)
    | EndOfSpeech
    | PartsResult(part: string)
    | Results(results: seq<string>)

  /** `onResults`: the stored list when the entry is a list, an empty list otherwise. */
  function ExtractResults(entry: ResultsEntry): (list: seq<string>)
    ensures entry.ArrayListValue? ==> list == entry.items
    ensures !entry.ArrayListValue? ==> list == []
  {
    match entry
    case ArrayListValue(items) => items
    case _ => []
  }

  /** `onPartialResults`: the partial transcript passed on, or None when nothing is passed on. */
  function DecodePartial(value: PartialValue): (part: Option<string>)
    ensures value.NullValue? ==> part == Some("")
    ensures value.ArrayText? ==>
      (|value.elements| > 0 <==> part.Some?) && (part.Some? ==> part.value == value.elements[0])
    ensures value.ObjectText? ==>
      (RecognizeResultKey in value.fields <==> part.Some?)
      && (part.Some? ==> part.value == value.fields[RecognizeResultKey])
    ensures value.Malformed? ==> part == Some("")
  {
    match value
    case NullValue => Some("")
    case ArrayText(elements) => if |elements| > 0 then Some(elements[0]) else None
    case ObjectText(fields) =>
      if RecognizeResultKey in fields then Some(fields[RecognizeResultKey]) else None
    case Malformed => Some("")
  }

  /** What the adapter tells its listener for one platform callback: at most one notification. */
  function Forward(cb: Callback): (out: seq<Notification>)
    ensures |out| <= 1
    ensures cb.OnReadyForSpeech? <==> out == [ReadyForSpeech]
    ensures cb.OnRmsChanged? ==> out == [RmsChanged(cb.rmsdb)]
    ensures cb.OnEndOfSpeech? <==> out == [EndOfSpeech]
    ensures cb.OnResults? ==> out == [Results(ExtractResults(cb.entry))]
    ensures cb.OnPartialResults? ==>
      out == (if DecodePartial(cb.value).Some? then [PartsResult(DecodePartial(cb.value).value)] else [])
    ensures cb.OnBeginningOfSpeech? || cb.OnBufferReceived? || cb.OnError? || cb.OnEvent? ==> out == []
  {
    match cb
    case OnReadyForSpeech => [ReadyForSpeech]
    case OnRmsChanged(rmsdb) => [RmsChanged(rmsdb)]
    case OnEndOfSpeech => [EndOfSpeech]
    case OnResults(entry) => [Results(ExtractResults(entry))]
    case OnPartialResults(value) =>
      (match DecodePartial(value)
       case Some(part) => [PartsResult(part)]
       case None => [])
    case _ => []
  }

  /** An object without `recognizeResult` (such as `{}`) passes nothing on, not an empty transcript. */
  lemma EmptyObjectPassesNothing()
    ensures Forward(OnPartialResults(ObjectText(map[]))) == []
    ensures Forward(OnPartialResults(Malformed)) == [PartsResult("")]
  {
  }
}
