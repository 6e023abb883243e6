/**
 * The plugin's transcript relay over a whole run of callbacks, delivered one
 * after another: what it sends to the host and what it keeps buffered. The
 * plugin's callback methods are proved, one call at a time, to follow
 * `Relay`; this module folds `Relay` over sequences of notifications.
 */
module RelayTraces {
  import opened Wrappers
  import opened Recognizer
  import opened Plugin

  /** Delivering `notes` in order, starting from `buffer`. */
  function Run(buffer: string, notes: seq<Notification>): Relayed
    decreases |notes|
  {
    if notes == [] then Relayed(buffer, [])
    else
      var step := Relay(buffer, notes[0]);
      var rest := Run(step.buffer, notes[1..]);
      Relayed(rest.buffer, step.messages + rest.messages)
  }

  /** The notifications the adapter hands the plugin for a run of platform callbacks. */
  function Feed(cbs: seq<Callback>): seq<Notification>
    decreases |cbs|
  {
    if cbs == [] then [] else Forward(cbs[0]) + Feed(cbs[1..])
  }

  /** Running two runs back to back is one run over both. */
  lemma {:induction false} RunAppend(buffer: string, xs: seq<Notification>, ys: seq<Notification>)
    ensures Run(buffer, xs + ys)
         == Relayed(Run(Run(buffer, xs).buffer, ys).buffer,
                    Run(buffer, xs).messages + Run(Run(buffer, xs).buffer, ys).messages)
    decreases |xs|
  {
    if xs == [] {
      assert xs + ys == ys;
    } else {
      assert (xs + ys)[0] == xs[0];
      assert (xs + ys)[1..] == xs[1..] + ys;
      RunAppend(Relay(buffer, xs[0]).buffer, xs[1..], ys);
    }
  }

  // ---------------------------------------------------------------------
  // The buffer holds the last non-empty partial
  // ---------------------------------------------------------------------

  /** The last non-empty string of `parts`, scanning from the end; `fallback` when there is none. */
  function LastNonEmpty(fallback: string, parts: seq<string>): string
    decreases |parts|
  {
    if parts == [] then fallback
    else if parts[|parts| - 1] != "" then parts[|parts| - 1]
    else LastNonEmpty(fallback, parts[..|parts| - 1])
  }

  /** A run of partial transcripts. */
  function AsPartials(parts: seq<string>): (notes: seq<Notification>)
    ensures |notes| == |parts|
    ensures forall i :: 0 <= i < |parts| ==> notes[i] == PartsResult(parts[i])
  {
    seq(|parts|, i requires 0 <= i < |parts| => PartsResult(parts[i]))
  }

  /** After any run of partials the buffer is the last non-empty one (or what it was), and nothing is sent. */
  lemma {:induction false} PartialsKeepLastNonEmpty(buffer: string, parts: seq<string>)
    ensures Run(buffer, AsPartials(parts)) == Relayed(LastNonEmpty(buffer, parts), [])
    decreases |parts|
  {
    if parts != [] {
      var init, last := parts[..|parts| - 1], parts[|parts| - 1];
      assert AsPartials(parts) == AsPartials(init) + [PartsResult(last)];
      PartialsKeepLastNonEmpty(buffer, init);
      RunAppend(buffer, AsPartials(init), [PartsResult(last)]);
      assert Run(LastNonEmpty(buffer, init), [PartsResult(last)])
          == Relayed(KeepPartial(LastNonEmpty(buffer, init), last), []);
    }
  }

  /**
   * One utterance: partials, then the final result. A usable first
   * alternative is spoken and the buffered partial stays; otherwise the last
   * non-empty partial is spoken (if any) and the buffer is cleared.
   */
  lemma UtteranceOutcome(buffer: string, parts: seq<string>, results: seq<string>)
    ensures FirstAlternative(results) != "" ==>
      Run(buffer, AsPartials(parts) + [Results(results)])
        == Relayed(LastNonEmpty(buffer, parts), [OnSpeech(results[0])])
    ensures FirstAlternative(results) == "" ==>
      Run(buffer, AsPartials(parts) + [Results(results)])
        == Relayed("", if LastNonEmpty(buffer, parts) != "" then [OnSpeech(LastNonEmpty(buffer, parts))] else [])
  {
    PartialsKeepLastNonEmpty(buffer, parts);
    RunAppend(buffer, AsPartials(parts), [Results(results)]);
  }

  /** The partial transcripts of `notes`, in order. */
  function PartialsOf(notes: seq<Notification>): seq<string>
    decreases |notes|
  {
    if notes == [] then []
    else (if notes[0].PartsResult? then [notes[0].part] else []) + PartialsOf(notes[1..])
  }

  /** Scanning `[p] + parts` from the end is scanning `parts` with `p` kept in the fallback. */
  lemma {:induction false} LastNonEmptyFront(fallback: string, p: string, parts: seq<string>)
    ensures LastNonEmpty(fallback, [p] + parts) == LastNonEmpty(KeepPartial(fallback, p), parts)
    decreases |parts|
  {
    if parts == [] {
      assert [p] + parts == [p];
      assert [p][..0] == [];
    } else {
      var init := parts[..|parts| - 1];
      assert ([p] + parts)[..|[p] + parts| - 1] == [p] + init;
      LastNonEmptyFront(fallback, p, init);
    }
  }

  /** A non-empty result of scanning from an empty fallback does not depend on the fallback. */
  lemma {:induction false} LastNonEmptyFromEmpty(fallback: string, parts: seq<string>)
    ensures LastNonEmpty("", parts) == "" || LastNonEmpty("", parts) == LastNonEmpty(fallback, parts)
    decreases |parts|
  {
    if parts != [] {
      LastNonEmptyFromEmpty(fallback, parts[..|parts| - 1]);
    }
  }

  /**
   * In any run, the buffer left behind is empty (a final result spoke and
   * cleared it) or it is the last non-empty partial of the run, falling back
   * to the buffer the run started from.
   */
  lemma {:induction false} BufferIsLastPartial(buffer: string, notes: seq<Notification>)
    ensures Run(buffer, notes).buffer == "" || Run(buffer, notes).buffer == LastNonEmpty(buffer, PartialsOf(notes))
    decreases |notes|
  {
    if notes != [] {
      var n, rest := notes[0], notes[1..];
      var b := Relay(buffer, n).buffer;
      BufferIsLastPartial(b, rest);
      if n.PartsResult? {
        assert PartialsOf(notes) == [n.part] + PartialsOf(rest);
        LastNonEmptyFront(buffer, n.part, PartialsOf(rest));
      } else {
        assert PartialsOf(notes) == PartialsOf(rest);
        if b == "" {
          LastNonEmptyFromEmpty(buffer, PartialsOf(rest));
        }
      }
    }
  }

  // ---------------------------------------------------------------------
  // What can be spoken
  // ---------------------------------------------------------------------

  /** `t` reached the plugin in `notes`, as a partial or as the first alternative of a final result. */
  ghost predicate HeardIn(t: string, notes: seq<Notification>)
  {
    exists i :: 0 <= i < |notes| &&
      (notes[i] == PartsResult(t) || (notes[i].Results? && FirstAlternative(notes[i].results) == t))
  }

  lemma HeardInLater(t: string, n: Notification, rest: seq<Notification>)
    requires HeardIn(t, rest)
    ensures HeardIn(t, [n] + rest)
  {
    var i :| 0 <= i < |rest| &&
      (rest[i] == PartsResult(t) || (rest[i].Results? && FirstAlternative(rest[i].results) == t));
    assert ([n] + rest)[i + 1] == rest[i];
  }

  /**
   * Every transcript sent is non-empty and is one the plugin heard in the run
   * or had buffered at its start; the same holds of the buffer left behind
   * unless it is empty.
   */
  lemma {:induction false} SpokenWasHeard(buffer: string, notes: seq<Notification>)
    ensures forall t :: OnSpeech(t) in Run(buffer, notes).messages ==> t != "" && (t == buffer || HeardIn(t, notes))
    ensures var b := Run(buffer, notes).buffer; b == "" || b == buffer || HeardIn(b, notes)
    decreases |notes|
  {
    if notes != [] {
      var n, rest := notes[0], notes[1..];
      assert notes == [n] + rest;
      var step := Relay(buffer, n);
      SpokenWasHeard(step.buffer, rest);
      assert n.PartsResult? && n.part != "" ==> HeardIn(n.part, notes) by {
        if n.PartsResult? { assert notes[0] == PartsResult(n.part); }
      }
      assert n.Results? && FirstAlternative(n.results) != "" ==> HeardIn(FirstAlternative(n.results), notes) by {
        if n.Results? { assert notes[0].Results?; }
      }
      forall t | HeardIn(t, rest) ensures HeardIn(t, notes) { HeardInLater(t, n, rest); }
      forall t | OnSpeech(t) in Run(buffer, notes).messages
        ensures t != "" && (t == buffer || HeardIn(t, notes))
      {
        if OnSpeech(t) in step.messages {
          assert n.Results?;
        }
      }
    }
  }

  // ---------------------------------------------------------------------
  // How much is sent
  // ---------------------------------------------------------------------

  function SpeechCount(ms: seq<Message>): nat
    decreases |ms|
  {
    if ms == [] then 0 else (if ms[0].OnSpeech? then 1 else 0) + SpeechCount(ms[1..])
  }

  function DbCount(ms: seq<Message>): nat
    decreases |ms|
  {
    if ms == [] then 0 else (if ms[0].Db? then 1 else 0) + DbCount(ms[1..])
  }

  function ResultsCount(notes: seq<Notification>): nat
    decreases |notes|
  {
    if notes == [] then 0 else (if notes[0].Results? then 1 else 0) + ResultsCount(notes[1..])
  }

  function RmsCount(notes: seq<Notification>): nat
    decreases |notes|
  {
    if notes == [] then 0 else (if notes[0].RmsChanged? then 1 else 0) + RmsCount(notes[1..])
  }

  lemma {:induction false} CountsAppend(a: seq<Message>, b: seq<Message>)
    ensures SpeechCount(a + b) == SpeechCount(a) + SpeechCount(b)
    ensures DbCount(a + b) == DbCount(a) + DbCount(b)
    decreases |a|
  {
    if a == [] {
      assert a + b == b;
    } else {
      assert (a + b)[1..] == a[1..] + b;
      CountsAppend(a[1..], b);
    }
  }

  /** At most one transcript is sent per final result, and exactly one level per RMS change. */
  lemma {:induction false} SendCounts(buffer: string, notes: seq<Notification>)
    ensures SpeechCount(Run(buffer, notes).messages) <= ResultsCount(notes)
    ensures DbCount(Run(buffer, notes).messages) == RmsCount(notes)
    decreases |notes|
  {
    if notes != [] {
      var step := Relay(buffer, notes[0]);
      SendCounts(step.buffer, notes[1..]);
      CountsAppend(step.messages, Run(step.buffer, notes[1..]).messages);
    }
  }

  /** A buffered partial is spoken at most once: further empty finals say nothing until a new partial arrives. */
  lemma {:induction false} FallbackSpokenOnce(buffer: string, notes: seq<Notification>)
    requires forall i :: 0 <= i < |notes| ==> notes[i].Results? && FirstAlternative(notes[i].results) == ""
    ensures Run(buffer, notes).messages == (if buffer != "" && notes != [] then [OnSpeech(buffer)] else [])
    decreases |notes|
  {
    if notes != [] {
      assert notes[0].Results?;
      FallbackSpokenOnce(Relay(buffer, notes[0]).buffer, notes[1..]);
    }
  }

  /**
   * A final result that is spoken does not clear the buffer, so a partial of
   * an earlier utterance can be spoken again at a later empty final.
   */
  lemma StalePartialSpokenLater()
    ensures Run("", [PartsResult("a"), Results(["b"]), Results([])]).messages == [OnSpeech("b"), OnSpeech("a")]
  {
  }

  /** Only the first alternative of a final result is looked at: a usable later one is not spoken. */
  lemma FirstAlternativeOnly()
    ensures Run("", [Results(["", "yes"])]).messages == []
    ensures Run("world", [Results(["", "yes"])]).messages == [OnSpeech("world")]
  {
  }

  /** End to end, from platform callbacks to host messages: a decoded partial is spoken at an empty final. */
  lemma DecodedPartialsSpoken()
    ensures Run("", Feed([OnPartialResults(ArrayText(["hello"])), OnResults(Missing)])).messages == [OnSpeech("hello")]
    ensures Run("", Feed([OnPartialResults(ObjectText(map[RecognizeResultKey := "hi"])), OnResults(OtherValue)])).messages
         == [OnSpeech("hi")]
  {
    var first := [OnPartialResults(ArrayText(["hello"])), OnResults(Missing)];
    assert Feed(first[1..]) == [Results([])];
    assert Feed(first) == [PartsResult("hello"), Results([])];
    var fields := map[RecognizeResultKey := "hi"];
    assert DecodePartial(ObjectText(fields)) == Some("hi");
    var second := [OnPartialResults(ObjectText(fields)), OnResults(OtherValue)];
    assert Feed(second[1..]) == [Results([])];
    assert Feed(second) == [PartsResult("hi"), Results([])];
  }

  /** An object without `recognizeResult` and malformed text leave nothing to speak at an empty final. */
  lemma UndecodablePartialsSilent()
    ensures Run("", Feed([OnPartialResults(ObjectText(map[])), OnResults(ArrayListValue([]))])).messages == []
    ensures Run("", Feed([OnPartialResults(Malformed), OnResults(Missing)])).messages == []
  {
    var first := [OnPartialResults(ObjectText(map[])), OnResults(ArrayListValue([]))];
    assert Feed(first[1..]) == [Results([])];
    assert Feed(first) == [Results([])];
    var second := [OnPartialResults(Malformed), OnResults(Missing)];
    assert Feed(second[1..]) == [Results([])];
    assert Feed(second) == [PartsResult(""), Results([])];
  }

  /** A buffered "world" is spoken at an empty final list; a final ["yes"] is spoken instead of it. */
  lemma FinalResultExamples()
    ensures Run("world", Feed([OnResults(ArrayListValue([]))])).messages == [OnSpeech("world")]
    ensures Run("world", Feed([OnResults(ArrayListValue(["yes"]))])).messages == [OnSpeech("yes")]
  {
    assert Feed([OnResults(ArrayListValue([]))]) == [Results([])];
    assert Feed([OnResults(ArrayListValue(["yes"]))]) == [Results(["yes"])];
  }

  // ---------------------------------------------------------------------
  // The plugin object follows the fold
  // ---------------------------------------------------------------------

  /** The adapter hands the plugin each callback's notification before the next callback. */
  lemma {:induction false} FeedAppend(cbs: seq<Callback>, cb: Callback)
    ensures Feed(cbs + [cb]) == Feed(cbs) + Forward(cb)
    decreases |cbs|
  {
    if cbs == [] {
      assert cbs + [cb] == [cb];
    } else {
      assert (cbs + [cb])[1..] == cbs[1..] + [cb];
      FeedAppend(cbs[1..], cb);
    }
  }

  /** The stop calls a run makes on the adapter: one guarded stop per end of speech, in order. */
  function StopCalls(h: Option<Handle>, notes: seq<Notification>): seq<PlatformCall>
    decreases |notes|
  {
    if notes == [] then []
    else (if notes[0].EndOfSpeech? then CallIfPresent(h, Op.StopListening) else []) + StopCalls(h, notes[1..])
  }

  lemma {:induction false} StopCallsAppend(h: Option<Handle>, xs: seq<Notification>, ys: seq<Notification>)
    ensures StopCalls(h, xs + ys) == StopCalls(h, xs) + StopCalls(h, ys)
    decreases |xs|
  {
    if xs == [] {
      assert xs + ys == ys;
    } else {
      assert (xs + ys)[0] == xs[0];
      assert (xs + ys)[1..] == xs[1..] + ys;
      StopCallsAppend(h, xs[1..], ys);
    }
  }

  /**
   * What `OnPlatformCallback` states, case by case, is one step of the fold:
   * the run and the stop calls of the notifications the adapter forwards.
   */
  lemma CallbackEffect(h: Option<Handle>, cb: Callback,
                       buffer: string, sent: seq<Message>, made: seq<PlatformCall>,
                       buffer': string, sent': seq<Message>, made': seq<PlatformCall>)
    requires Forward(cb) == [] ==> buffer' == buffer && sent' == sent && made' == made
    requires Forward(cb) != [] ==>
      buffer' == Relay(buffer, Forward(cb)[0]).buffer
      && sent' == sent + Relay(buffer, Forward(cb)[0]).messages
      && made' == made + (if Forward(cb)[0].EndOfSpeech? then CallIfPresent(h, Op.StopListening) else [])
    ensures buffer' == Run(buffer, Forward(cb)).buffer
    ensures sent' == sent + Run(buffer, Forward(cb)).messages
    ensures made' == made + StopCalls(h, Forward(cb))
  {
    if Forward(cb) != [] {
      assert Forward(cb)[1..] == [];
    }
  }

  /** Following `fed` and then `more` is following `fed + more`. */
  lemma FoldStep(h: Option<Handle>, start: string, sent: seq<Message>, made: seq<PlatformCall>,
                 fed: seq<Notification>, more: seq<Notification>,
                 buffer': string, sent': seq<Message>, made': seq<PlatformCall>)
    requires buffer' == Run(Run(start, fed).buffer, more).buffer
    requires sent' == sent + Run(start, fed).messages + Run(Run(start, fed).buffer, more).messages
    requires made' == made + StopCalls(h, fed) + StopCalls(h, more)
    ensures buffer' == Run(start, fed + more).buffer
    ensures sent' == sent + Run(start, fed + more).messages
    ensures made' == made + StopCalls(h, fed + more)
  {
    var first := Run(start, fed);
    var second := Run(first.buffer, more);
    RunAppend(start, fed, more);
    assert Run(start, fed + more).messages == first.messages + second.messages;
    StopCallsAppend(h, fed, more);
  }

  /** The plugin's listener callbacks, called once per notification, do what `Run` and `StopCalls` say. */
  method DeliverAll(p: SpeechPlugin, notes: seq<Notification>)
    requires p.Valid()
    modifies p`sendResult, p`outbox, p.recognizer`calls
    ensures p.Valid()
    ensures p.sendResult == Run(old(p.sendResult), notes).buffer
    ensures p.outbox == old(p.outbox) + Run(old(p.sendResult), notes).messages
    ensures p.recognizer.calls == old(p.recognizer.calls) + StopCalls(p.recognizer.handle, notes)
  {
    ghost var start, sent, made := p.sendResult, p.outbox, p.recognizer.calls;
    var i := 0;
    while i < |notes|
      invariant 0 <= i <= |notes|
      invariant p.Valid()
      invariant p.sendResult == Run(start, notes[..i]).buffer
      invariant p.outbox == sent + Run(start, notes[..i]).messages
      invariant p.recognizer.calls == made + StopCalls(p.recognizer.handle, notes[..i])
    {
      RunAppend(start, notes[..i], [notes[i]]);
      StopCallsAppend(p.recognizer.handle, notes[..i], [notes[i]]);
      assert notes[..i + 1] == notes[..i] + [notes[i]];
      p.Deliver(notes[i]);
      i := i + 1;
    }
    assert notes[..i] == notes;
  }

  /** One more platform callback extends the run the plugin has followed so far by what the adapter forwards. */
  method CallbackNext(p: SpeechPlugin, cb: Callback, ghost start: string, ghost sent: seq<Message>,
                      ghost made: seq<PlatformCall>, ghost fed: seq<Notification>)
    requires p.Valid() && p.recognizer.listenerSet
    requires p.sendResult == Run(start, fed).buffer
    requires p.outbox == sent + Run(start, fed).messages
    requires p.recognizer.calls == made + StopCalls(p.recognizer.handle, fed)
    modifies p`sendResult, p`outbox, p.recognizer`calls
    ensures p.Valid() && p.recognizer.listenerSet
    ensures p.sendResult == Run(start, fed + Forward(cb)).buffer
    ensures p.outbox == sent + Run(start, fed + Forward(cb)).messages
    ensures p.recognizer.calls == made + StopCalls(p.recognizer.handle, fed + Forward(cb))
  {
    ghost var b, o, c := p.sendResult, p.outbox, p.recognizer.calls;
    p.OnPlatformCallback(cb);
    ghost var h, b', o', c' := p.recognizer.handle, p.sendResult, p.outbox, p.recognizer.calls;
    CallbackEffect(h, cb, b, o, c, b', o', c');
    FoldStep(h, start, sent, made, fed, Forward(cb), b', o', c');
  }

  /**
   * A run of platform callbacks, each forwarded by the adapter, reaches the
   * plugin as `Run` over `Feed`, with the stop calls `StopCalls` gives.
   */
  method CallbackAll(p: SpeechPlugin, cbs: seq<Callback>)
    requires p.Valid() && p.recognizer.listenerSet
    modifies p`sendResult, p`outbox, p.recognizer`calls
    ensures p.Valid()
    ensures p.sendResult == Run(old(p.sendResult), Feed(cbs)).buffer
    ensures p.outbox == old(p.outbox) + Run(old(p.sendResult), Feed(cbs)).messages
    ensures p.recognizer.calls == old(p.recognizer.calls) + StopCalls(p.recognizer.handle, Feed(cbs))
  {
    ghost var start, sent, made := p.sendResult, p.outbox, p.recognizer.calls;
    ghost var fed: seq<Notification> := [];
    var i := 0;
    while i < |cbs|
      invariant 0 <= i <= |cbs|
      invariant p.Valid() && p.recognizer.listenerSet
      invariant fed == Feed(cbs[..i])
      invariant p.sendResult == Run(start, fed).buffer
      invariant p.outbox == sent + Run(start, fed).messages
      invariant p.recognizer.calls == made + StopCalls(p.recognizer.handle, fed)
    {
      CallbackNext(p, cbs[i], start, sent, made, fed);
      assert cbs[..i + 1] == cbs[..i] + [cbs[i]];
      FeedAppend(cbs[..i], cbs[i]);
      fed := fed + Forward(cbs[i]);
      i := i + 1;
    }
    assert cbs[..i] == cbs;
  }
}
