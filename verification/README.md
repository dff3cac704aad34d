# Guarded exchange for the Pangea Anthropic SDK wrapper

This project is a Dafny model of the guarded-exchange logic in
`src/resources/messages/messages.ts`. That file wraps the Anthropic Messages
`create` call with the Pangea AI Guard inspection service:

- **Message normaliser** (`isTextBlock`, `toPangeaMessages`). It flattens a
  conversation message into flat `{role, content}` text records.
- **Input transcript.** This is the optional `system` record followed by the
  records of every message, in order.
- **Decision protocol.** A streaming request bypasses inspection. Otherwise an
  input verdict may block the request or substitute its messages. The completion
  then runs. An output verdict is computed over the input transcript plus one
  assistant record, and may block the response or substitute its content.

The model has four modules, one file each:

- `lines.dfy` (`Lines`): JavaScript's `join` on a one-character separator. Its
  partner is `split`, and two round-trip lemmas connect them.
- `types.dfy` (`Types`): the data model. It covers roles, content blocks,
  messages, the system prompt, records, verdicts, request bodies and completions.
- `normalizer.dfy` (`Normalizer`): `isTextBlock`, `toPangeaMessages` and the
  input transcript. The transcript has a declarative definition
  (`InputTranscript`) and an imperative one shaped like the source
  (`BuildTranscript`), and the two are proved equal.
- `exchange.dfy` (`GuardedExchange`): the input and output verdict handling, and
  `Create`, the whole non-streaming/streaming protocol.

The two network calls are parameters of `Create`:

- `inputGuard` is the inspection service as the input call reaches it (with the
  input recipe, `messages.ts:96`).
- `outputGuard` is the inspection service as the output call reaches it. That call
  sends no top-level recipe: the output recipe sits inside `input`
  (`messages.ts:128`). Recipes are not modelled; see "Left out".
- `complete` is the underlying completion service.

`Create` returns an `Exchange`: the `Outcome` (`Streamed`, `Blocked(phase,
completionCalled)` or `Returned(response, forwarded)`) and the trace of external
calls made, in order. The trace makes these properties statable: "no guard call
is made", "the completion runs exactly once", and "what the output inspection
is sent".

Behaviour kept exactly as the code has it:

- **Input substitution.** It assigns the verdict's `output` object itself to the
  body's `messages` field (`messages.ts:106`). The model has a `MessageList`
  constructor for this, `GuardPayload`. The output substitution, by contrast,
  reads `output.messages` (`messages.ts:147`).
- **Output transcript.** The output inspection is built from the transcript of
  the caller's *original* messages, even after an input substitution
  (`messages.ts:119`). `OutputViewIgnoresInputSubstitution` states this.
- **Caller's body.** The source changes it in place (`messages.ts:106`). After
  the call, the caller's body equals the body in the `CompletionCall` entry of
  the trace. In a `Returned` outcome it is also the `forwarded` body.
- **JavaScript truthiness.**
  - A `system` that is the empty string is falsy, so it gives no record.
  - A `system` list is always truthy. Even an empty list gives one record,
    with content `""`.
  - A string message content is always one record, even when empty
    (`messages.ts:18`).
  - Only absent content is falsy. A block list is truthy, but a list with no
    text block, including the empty list, also gives no record
    (`messages.ts:21-25`).
- **One record per text block.** A message's text blocks are never joined: each
  text block becomes its own record (`messages.ts:22-25`). Only the *response's*
  text blocks are joined with "\n", for the output inspection
  (`messages.ts:122-125`).

## Model

| member | source | states |
|---|---|---|
| Lines.Join | src/resources/messages/messages.ts:86-89 | `join('\n')`: an empty list joins to ""; otherwise the result has the total length of the parts plus one separator between each pair of neighbours, and begins with the first part |
| Lines.JoinAppend | src/resources/messages/messages.ts:86-89 | joining two non-empty lists one after the other equals joining each and putting one separator between them; this fixes the contents of every join, including parts that hold the separator |
| Lines.Split | src/resources/messages/messages.ts:89 | partner of the join: one more piece than there are separators, and no piece contains the separator |
| Lines.SplitJoin | src/resources/messages/messages.ts:89 | joining newline-free parts and splitting again returns the parts, so the join loses nothing |
| Lines.JoinSplit | src/resources/messages/messages.ts:125 | every string is the join of its split pieces |
| Normalizer.IsTextBlock | src/resources/messages/messages.ts:9-13 | a block counts as a text block exactly when its `type` tag is "text" |
| Normalizer.TextsOf | src/resources/messages/messages.ts:22 | the texts kept by `filter(isTextBlock)`: one per text block; every kept text comes from a text block; the result is empty exactly when no block is a text block |
| Normalizer.TextsOfPosition | src/resources/messages/messages.ts:22 | every text block's text is kept, at the position equal to the number of text blocks before it |
| Normalizer.TextsOfAppend | src/resources/messages/messages.ts:22 | the filter keeps block order: the texts of a concatenation are the concatenated texts |
| Normalizer.ToPangeaMessages | src/resources/messages/messages.ts:15-28 | string content gives exactly one record with the message's role and content; a block list gives one record per text block, in order, with the message's role; a list without text blocks and absent content give no record |
| Normalizer.BlocksAppend | src/resources/messages/messages.ts:21-26 | normalising a block list splits over concatenation, so records follow block order |
| Normalizer.SingleTextBlock | src/resources/messages/messages.ts:18-26 | a block list whose only text block holds `t` normalises to the single record `t`, the same as the string `t`; non-text blocks are dropped |
| Normalizer.HasSystem | src/resources/messages/messages.ts:83 | `body.system` is falsy exactly when it is absent or the empty string; every list is truthy |
| Normalizer.SystemRecords | src/resources/messages/messages.ts:83-91 | the system record exists exactly when `body.system` is truthy; its role is `system`; its content is the string, or the list joined with "\n" |
| Normalizer.SystemLinesRecoverable | src/resources/messages/messages.ts:86-89 | the lines of a list-valued system prompt can be recovered from the system record when no line holds a newline |
| Normalizer.ConversationRecords | src/resources/messages/messages.ts:93 | the concatenated records of all messages: as many as the sum of the per-message counts, and every role is `user` or `assistant` |
| Normalizer.ConversationRecordsAppend | src/resources/messages/messages.ts:93 | messages contribute their records in message order: the records of a concatenated conversation are the concatenated records |
| Normalizer.InputTranscript | src/resources/messages/messages.ts:78-93 | the transcript's length is (system ? 1 : 0) plus the per-message counts; it ends with the conversation records; `system` is the role of the first record exactly when a system prompt is present, and of no other; no record has role `developer`; it begins with the system record, whose content is the string or the newline-joined list |
| Normalizer.AppendConversation | src/resources/messages/messages.ts:93 | appending each message's records one at a time appends exactly the conversation's records |
| Normalizer.BuildTranscript | src/resources/messages/messages.ts:78-93 | the push-then-concat construction yields the input transcript |
| GuardedExchange.InputDecision | src/resources/messages/messages.ts:97-112 | a blocked input verdict stops before the completion; a transformed verdict with output forwards that output object as the messages; otherwise the caller's body is forwarded unchanged; the messages are the caller's exactly when the verdict does not substitute; no other body field changes |
| GuardedExchange.ResponseText | src/resources/messages/messages.ts:122-125 | the response text is "" when no block is a text block; otherwise its length is the texts' total length plus one newline between neighbours, and it begins with the first text block's text |
| GuardedExchange.ResponseTextRecoverable | src/resources/messages/messages.ts:122-125 | splitting the response text at "\n" gives back the text blocks' texts, in order, when there is one and none holds a newline |
| GuardedExchange.OutputView | src/resources/messages/messages.ts:117-127 | the output inspection gets the transcript followed by exactly one `assistant` record, whose content is the response's text blocks joined with "\n" |
| GuardedExchange.OutputDecision | src/resources/messages/messages.ts:133-157 | a blocked output verdict discards the response; a transformed verdict with output makes the content exactly one text block holding the last output record's content, or "" when there is none (`.at(-1)?.content ?? ''`), with no citations; otherwise the response is unchanged; id, model and stop reason never change |
| GuardedExchange.SubstitutedText | src/resources/messages/messages.ts:142-154 | the text extracted from a substituted response is the last output record's content, or "" |
| GuardedExchange.Create | src/resources/messages/messages.ts:74-158 | streaming exactly when the request streams, with one unguarded completion call and no guard call; otherwise the first call is the input inspection of the input transcript; the exchange stops before the completion exactly when that verdict blocks; the completion runs at most once, and exactly once unless the input was blocked; a blocked outcome records whether the completion ran; the output inspection sees the original transcript plus the response text; a returned response is the output decision applied to the completion of the forwarded body |
| GuardedExchange.StreamingBypass | src/resources/messages/messages.ts:74-76 | a streaming request is forwarded unchanged with no guard call, and no guard verdict can affect the result |
| GuardedExchange.InputBlockShortCircuits | src/resources/messages/messages.ts:97-100 | a blocked input verdict gives a blocked error with no completion call; neither the completion nor the output inspection can affect the result |
| GuardedExchange.OutputBlockDiscardsResponse | src/resources/messages/messages.ts:133-136 | a blocked output verdict gives a blocked error after exactly one completion call |
| GuardedExchange.InputSubstitution | src/resources/messages/messages.ts:102-112 | a substituting input verdict makes the completion receive its output object in place of the messages, with the rest of the body unchanged |
| GuardedExchange.OutputViewIgnoresInputSubstitution | src/resources/messages/messages.ts:117-127 | whatever a passing input verdict substitutes, the output inspection's transcript is the original input transcript plus one record |
| GuardedExchange.PassThrough | src/resources/messages/messages.ts:102-157 | with no blocking or substituting verdict, the caller gets exactly the completion of its unchanged body |
| GuardedExchange.OutputSubstitution | src/resources/messages/messages.ts:138-155 | an output verdict whose last record holds `text` makes the response the single text block `text` with no citations, whatever the completion produced |

## Left out

- The network calls `guard` and `super.create` are function parameters. They are not effects. The model assumes both answer. Upstream failures, such as transport errors or service errors propagating as rejected promises, are not modelled.
- Recipes are left out. The input recipe (`messages.ts:96`) and the output recipe are folded into the `inputGuard` and `outputGuard` parameters. So is the placement of the output recipe inside `input` (`messages.ts:128`), which is a request-shape detail of the inspection service.
- Client construction in `src/client.ts` is left out. This includes environment defaults, building `AIGuardService` and `PangeaConfig`, and the missing-`pangeaApiKey` error. It is configuration plumbing over libraries that are not part of this model.
- The stream handle and stream events are not modelled. A streaming outcome only records the body forwarded unchanged.
- The following are left out because they carry no logic of the exchange:
  - Promise and `APIPromise` chaining.
  - The `options` argument, which is passed through untouched.
  - The TypeScript overloads.
  - The `as unknown as` casts.
  - The identity of `PangeaAIGuardBlockedError`, which is the `Blocked` outcome.
- `body.stream` is a boolean in the model. Truthiness of non-boolean `stream` values is not modelled.
- Request and response fields other than those named in `Types` are not modelled. Request fields other than messages, system and stream are represented by `Settings`. Response fields are represented by id, model, content and stop reason. Citation contents are opaque.
- The `?? ''` fallback for a last output record with a null `content` is not modelled. Records always carry a string, so only the empty-list case of `.at(-1)?.content ?? ''` can arise.
- Normalizer.SystemRecords: takes the elements of a list-valued `system` to be strings and joins them with "\n" (`messages.ts:89`). The Anthropic SDK's published type for such a list is an array of text-block objects, on which `join` would render each element as "[object Object]"; that rendering is not modelled.
- Lines.Join: models JavaScript's `join` only for a one-character separator, the only kind the exchange uses ("\n").
