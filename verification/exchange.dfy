/** The guarded exchange of `PangeaMessages.create`: a streaming request goes
    straight to the completion service; any other request is inspected before the
    completion (input phase) and its response is inspected after it (output phase),
    and each inspection may block the exchange or substitute content.

    The two remote services are parameters: `inputGuard` and `outputGuard` are the
    inspection service as the input call and the output call reach it (recipes are
    not modelled; the output call sends no top-level recipe), and `complete` is the
    completion service. The exchange returns its outcome together with the
    external calls it made, in order. */
module GuardedExchange {
  import opened Types
  import opened Lines
  import opened Normalizer

  datatype Phase = InputPhase | OutputPhase

  /** One external call, with what it was sent. */
  datatype Call =
    | GuardCall(phase: Phase, transcript: seq<Record>)
    | CompletionCall(body: Forwarded)

  /** How a request ends: forwarded as a stream without inspection; rejected by
      the inspection service (`PangeaAIGuardBlockedError`), recording whether the
      completion had already run; or answered with a response, together with the
      body the completion service received. */
  datatype Outcome =
    | Streamed(body: Request)
    | Blocked(phase: Phase, completionCalled: bool)
    | Returned(response: Completion, forwarded: Forwarded)

  datatype Exchange = Exchange(outcome: Outcome, calls: seq<Call>)

  /** Number of completion calls in a call trace. */
  function Completions(calls: seq<Call>): nat
  {
    if |calls| == 0 then 0
    else (if calls[0].CompletionCall? then 1 else 0) + Completions(calls[1..])
  }

  /** Number of guard calls in a call trace. */
  function GuardCalls(calls: seq<Call>): nat
  {
    if |calls| == 0 then 0
    else (if calls[0].GuardCall? then 1 else 0) + GuardCalls(calls[1..])
  }

  /** The caller's body, sent as it is. */
  function Unguarded(body: Request): Forwarded
  {
    Body(Conversation(body.messages), body.system, body.stream, body.settings)
  }

  /** A verdict that replaces content: transformed, with an output object. */
  predicate Substitutes(v: Verdict)
  {
    v.transformed && v.output.Some?
  }

  /** The input verdict: a blocked verdict stops the exchange before the completion
      (`None`); a substituting verdict puts its output object itself in the place of
      the messages; any other verdict forwards the caller's body unchanged. Only
      the messages field can change. */
  function InputDecision(body: Request, v: Verdict): (f: Option<Forwarded>)
    ensures f.None? <==> v.blocked
    ensures f.Some? && Substitutes(v) ==> f.value.messages == GuardPayload(v.output.value)
    ensures f.Some? && !Substitutes(v) ==> f.value == Unguarded(body)
    ensures f.Some? ==> (f.value.messages.Conversation? <==> !Substitutes(v))
    ensures f.Some? ==>
              f.value.system == body.system && f.value.stream == body.stream
              && f.value.settings == body.settings
  {
    if v.blocked then None
    else if Substitutes(v) then Some(Body(GuardPayload(v.output.value), body.system, body.stream, body.settings))
    else Some(Unguarded(body))
  }

  /** The text of a response as the output inspection reads it: its text blocks
      joined with "\n". */
  function ResponseText(r: Completion): (s: string)
    ensures CountTexts(r.content) == 0 ==> s == ""
    ensures CountTexts(r.content) > 0 ==>
              && |s| == TotalLength(TextsOf(r.content)) + CountTexts(r.content) - 1
              && s[..|TextsOf(r.content)[0]|] == TextsOf(r.content)[0]
  {
    Join(TextsOf(r.content), '\n')
  }

  /** What the output inspection is sent: the given transcript followed by exactly
      one assistant record holding the response's text. */
  function OutputView(transcript: seq<Record>, r: Completion): (view: seq<Record>)
    ensures |view| == |transcript| + 1
    ensures view[..|transcript|] == transcript
    ensures view[|transcript|].role == Assistant
    ensures view[|transcript|].content == ResponseText(r)
  {
    transcript + [Record(Assistant, ResponseText(r))]
  }

  /** The content of the last record, or "" when there is none. */
  function LastContent(records: seq<Record>): string
  {
    if |records| == 0 then "" else records[|records| - 1].content
  }

  /** The output verdict: a blocked verdict discards the response (`None`); a
      substituting verdict replaces the content with one text block holding the last
      output record's content (or "") and no citations; any other verdict returns
      the response unchanged. Nothing but the content ever changes. */
  function OutputDecision(r: Completion, w: Verdict): (out: Option<Completion>)
    ensures out.None? <==> w.blocked
    ensures out.Some? && Substitutes(w) ==>
              |out.value.content| == 1
              && out.value.content[0] == TextBlock(LastContent(w.output.value.messages), [])
    ensures out.Some? && !Substitutes(w) ==> out.value == r
    ensures out.Some? ==>
              out.value.id == r.id && out.value.model == r.model && out.value.stopReason == r.stopReason
  {
    if w.blocked then None
    else if Substitutes(w) then
      Some(r.(content := [TextBlock(LastContent(w.output.value.messages), [])]))
    else Some(r)
  }

  /** `PangeaMessages.create`. A streaming request makes no guard call. Otherwise
      the input inspection comes first and sees the input transcript; it alone
      decides whether the exchange stops before the completion. The completion runs
      at most once, and exactly once unless the input was blocked. The output
      inspection sees the input transcript built from the caller's original
      messages plus the response text, whatever the input verdict substituted. */
  function Create(
    body: Request,
    inputGuard: seq<Record> -> Verdict,
    complete: Forwarded -> Completion,
    outputGuard: seq<Record> -> Verdict
  ): (x: Exchange)
    ensures x.outcome.Streamed? <==> body.stream
    ensures x.outcome.Streamed? ==>
              x.outcome.body == body && x.calls == [CompletionCall(Unguarded(body))]
    ensures GuardCalls(x.calls) == 0 <==> body.stream
    ensures !body.stream ==> |x.calls| > 0 && x.calls[0] == GuardCall(InputPhase, InputTranscript(body))
    ensures (x.outcome.Blocked? && x.outcome.phase == InputPhase)
        <==> !body.stream && inputGuard(InputTranscript(body)).blocked
    ensures x.outcome.Blocked? ==> (x.outcome.completionCalled <==> x.outcome.phase == OutputPhase)
    ensures x.outcome.Blocked? && x.outcome.phase == InputPhase ==>
              x.calls == [GuardCall(InputPhase, InputTranscript(body))]
    ensures Completions(x.calls) == (if x.outcome.Blocked? && x.outcome.phase == InputPhase then 0 else 1)
    ensures !body.stream && !inputGuard(InputTranscript(body)).blocked ==>
              && |x.calls| == 3
              && x.calls[1].CompletionCall?
              && Some(x.calls[1].body) == InputDecision(body, inputGuard(InputTranscript(body)))
              && x.calls[2] == GuardCall(OutputPhase, OutputView(InputTranscript(body), complete(x.calls[1].body)))
              && (x.outcome.Blocked? <==> outputGuard(x.calls[2].transcript).blocked)
    ensures x.outcome.Returned? ==>
              && |x.calls| == 3
              && x.calls[1] == CompletionCall(x.outcome.forwarded)
              && Some(x.outcome.response)
                 == OutputDecision(complete(x.outcome.forwarded), outputGuard(x.calls[2].transcript))
  {
    if body.stream then
      Exchange(Streamed(body), [CompletionCall(Unguarded(body))])
    else
      var transcript := InputTranscript(body);
      match InputDecision(body, inputGuard(transcript))
      case None =>
        Exchange(Blocked(InputPhase, false), [GuardCall(InputPhase, transcript)])
      case Some(forwarded) =>
        var response := complete(forwarded);
        var view := OutputView(transcript, response);
        var calls := [GuardCall(InputPhase, transcript), CompletionCall(forwarded), GuardCall(OutputPhase, view)];
        assert calls[1..][1..][1..] == [];
        assert Completions(calls[1..][1..]) == 0 && GuardCalls(calls[1..][1..]) == 1;
        match OutputDecision(response, outputGuard(view))
        case None => Exchange(Blocked(OutputPhase, true), calls)
        case Some(final) => Exchange(Returned(final, forwarded), calls)
  }

  /** A substituted response reads, to anyone extracting its text, exactly as the
      last record the inspection service returned (or "" when it returned none). */
  lemma SubstitutedText(r: Completion, w: Verdict)
    requires !w.blocked && Substitutes(w)
    ensures ResponseText(OutputDecision(r, w).value) == LastContent(w.output.value.messages)
  {
    var t := LastContent(w.output.value.messages);
    assert TextsOf([TextBlock(t, [])]) == [t];
  }

  /** The text the output inspection reads gives back the response's text blocks
      when split at "\n", provided there is one and none holds a newline. */
  lemma ResponseTextRecoverable(r: Completion)
    requires CountTexts(r.content) > 0
    requires forall i :: 0 <= i < |r.content| && IsTextBlock(r.content[i]) ==> '\n' !in r.content[i].text
    ensures Split(ResponseText(r), '\n') == TextsOf(r.content)
  {
    var texts := TextsOf(r.content);
    forall i | 0 <= i < |texts|
      ensures '\n' !in texts[i]
    {
      assert texts[i] in texts;
    }
    SplitJoin(texts, '\n');
  }

  /** A streaming request is forwarded as given, with no guard call, whatever the
      inspection service would have answered. */
  lemma StreamingBypass(
    body: Request,
    inputGuard: seq<Record> -> Verdict, complete: Forwarded -> Completion, outputGuard: seq<Record> -> Verdict,
    inputGuard': seq<Record> -> Verdict, complete': Forwarded -> Completion, outputGuard': seq<Record> -> Verdict
  )
    requires body.stream
    ensures Create(body, inputGuard, complete, outputGuard).outcome == Streamed(body)
    ensures Create(body, inputGuard, complete, outputGuard) == Create(body, inputGuard', complete', outputGuard')
    ensures forall c :: c in Create(body, inputGuard, complete, outputGuard).calls ==> c == CompletionCall(Unguarded(body))
  {
  }

  /** A blocked input verdict ends the exchange with a blocked error before any
      completion: neither the completion service nor the output inspection can
      influence the result. */
  lemma InputBlockShortCircuits(
    body: Request,
    inputGuard: seq<Record> -> Verdict,
    complete: Forwarded -> Completion, outputGuard: seq<Record> -> Verdict,
    complete': Forwarded -> Completion, outputGuard': seq<Record> -> Verdict
  )
    requires !body.stream && inputGuard(InputTranscript(body)).blocked
    ensures Create(body, inputGuard, complete, outputGuard).outcome == Blocked(InputPhase, false)
    ensures Completions(Create(body, inputGuard, complete, outputGuard).calls) == 0
    ensures Create(body, inputGuard, complete, outputGuard) == Create(body, inputGuard, complete', outputGuard')
  {
  }

  /** A blocked output verdict discards the response: the completion ran exactly
      once, and the caller gets a blocked error. */
  lemma OutputBlockDiscardsResponse(
    body: Request,
    inputGuard: seq<Record> -> Verdict, complete: Forwarded -> Completion, outputGuard: seq<Record> -> Verdict
  )
    requires !body.stream && !inputGuard(InputTranscript(body)).blocked
    requires outputGuard(OutputView(InputTranscript(body), complete(InputDecision(body, inputGuard(InputTranscript(body))).value))).blocked
    ensures Create(body, inputGuard, complete, outputGuard).outcome == Blocked(OutputPhase, true)
    ensures Completions(Create(body, inputGuard, complete, outputGuard).calls) == 1
  {
  }

  /** A substituting input verdict sends the completion service its output object
      in place of the caller's messages, and nothing else of the body changes. */
  lemma InputSubstitution(
    body: Request,
    inputGuard: seq<Record> -> Verdict, complete: Forwarded -> Completion, outputGuard: seq<Record> -> Verdict
  )
    requires !body.stream
    requires !inputGuard(InputTranscript(body)).blocked && Substitutes(inputGuard(InputTranscript(body)))
    ensures Create(body, inputGuard, complete, outputGuard).calls[1]
         == CompletionCall(Body(GuardPayload(inputGuard(InputTranscript(body)).output.value),
                                body.system, body.stream, body.settings))
  {
  }

  /** The output inspection sees the transcript of the caller's original messages,
      not of what the input verdict substituted: two input verdicts that both let
      the request through lead to the same transcript ahead of the assistant record. */
  lemma OutputViewIgnoresInputSubstitution(
    body: Request,
    inputGuard: seq<Record> -> Verdict, inputGuard': seq<Record> -> Verdict,
    complete: Forwarded -> Completion, outputGuard: seq<Record> -> Verdict
  )
    requires !body.stream
    requires !inputGuard(InputTranscript(body)).blocked && !inputGuard'(InputTranscript(body)).blocked
    ensures var n := |InputTranscript(body)|;
            var x := Create(body, inputGuard, complete, outputGuard);
            var x' := Create(body, inputGuard', complete, outputGuard);
            && |x.calls[2].transcript| == |x'.calls[2].transcript| == n + 1
            && x.calls[2].transcript[..n] == x'.calls[2].transcript[..n] == InputTranscript(body)
  {
  }

  /** With no verdict blocking or substituting, the caller gets exactly what the
      completion service produced for its unchanged body. */
  lemma PassThrough(
    body: Request,
    inputGuard: seq<Record> -> Verdict, complete: Forwarded -> Completion, outputGuard: seq<Record> -> Verdict
  )
    requires !body.stream
    requires !inputGuard(InputTranscript(body)).blocked && !Substitutes(inputGuard(InputTranscript(body)))
    requires var view := OutputView(InputTranscript(body), complete(Unguarded(body)));
             !outputGuard(view).blocked && !Substitutes(outputGuard(view))
    ensures Create(body, inputGuard, complete, outputGuard).outcome
         == Returned(complete(Unguarded(body)), Unguarded(body))
  {
  }

  /** A substituting output verdict whose last record holds `text` makes the
      response a single text block `text` with no citations, whatever the
      completion produced; its extracted text is then `text`. */
  lemma OutputSubstitution(
    body: Request,
    inputGuard: seq<Record> -> Verdict, complete: Forwarded -> Completion, outputGuard: seq<Record> -> Verdict,
    earlier: seq<Record>, role: Role, text: string
  )
    requires !body.stream && !inputGuard(InputTranscript(body)).blocked
    requires var view := OutputView(InputTranscript(body), complete(InputDecision(body, inputGuard(InputTranscript(body))).value));
             var w := outputGuard(view);
             !w.blocked && w.transformed && w.output == Some(GuardOutput(earlier + [Record(role, text)]))
    ensures Create(body, inputGuard, complete, outputGuard).outcome.Returned?
    ensures Create(body, inputGuard, complete, outputGuard).outcome.response.content == [TextBlock(text, [])]
    ensures ResponseText(Create(body, inputGuard, complete, outputGuard).outcome.response) == text
  {
    var x := Create(body, inputGuard, complete, outputGuard);
    SubstitutedText(complete(x.outcome.forwarded), outputGuard(x.calls[2].transcript));
  }
}
