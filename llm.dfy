/**
 * The LLM client around the model backend: turning a conversation window into
 * chat messages, the request it sends, and the accumulation of a streamed
 * answer.  The backend itself is an oracle: a scripted `Reply` says what it
 * answers, or that it raises.
 */
module Llm {
  import opened Wrappers
  import opened PyStrings
  import opened Models
  import opened PySeqs

  /** One entry of the chat-completion request: `{"role": ..., "content": ...}`. */
  datatype ChatMessage = ChatMessage(role: string, content: string)

  /** The settings the client reads. */
  datatype LlmSettings = LlmSettings(
    provider: string,
    vllmModel: string,
    openaiModel: string,
    ollamaModel: string,
    vllmMaxTokens: int)

  /** A chat-completion request; every request names the vLLM model, whatever the provider. */
  datatype LlmRequest = LlmRequest(model: string, messages: seq<ChatMessage>, maxTokens: int, stream: bool)

  // ---------------------------------------------------------------- formatting

  /** How a conversation message reads in a prompt. */
  function Line(m: Message): string {
    m.speaker + ": " + m.content
  }

  predicate IsSystem(m: Message) {
    m.speaker == SystemSpeaker
  }

  /** The messages that are not written by the system, in order. */
  function Spoken(ms: seq<Message>): (r: seq<Message>)
    ensures |r| <= |ms|
    ensures forall i :: 0 <= i < |r| ==> !IsSystem(r[i]) && r[i] in ms
    decreases |ms|
  {
    if ms == [] then []
    else
      var last := ms[|ms| - 1];
      Spoken(ms[..|ms| - 1]) + (if IsSystem(last) then [] else [last])
  }

  /** The vLLM transcript: one `speaker: content` line per non-system message. */
  function Transcript(ms: seq<Message>): string
    decreases |ms|
  {
    if ms == [] then ""
    else
      var last := ms[|ms| - 1];
      Transcript(ms[..|ms| - 1]) + (if IsSystem(last) then "" else Line(last) + "\n")
  }

  /** One `user` entry per non-system message, in order. */
  function UserEntries(ms: seq<Message>): (r: seq<ChatMessage>)
    ensures |r| == |Spoken(ms)|
    ensures forall i :: 0 <= i < |r| ==> r[i] == ChatMessage("user", Line(Spoken(ms)[i]))
    decreases |ms|
  {
    if ms == [] then []
    else
      var last := ms[|ms| - 1];
      UserEntries(ms[..|ms| - 1]) + (if IsSystem(last) then [] else [ChatMessage("user", Line(last))])
  }

  /**
   * `_format_messages`: vLLM gets one `user` entry holding the prompt and the
   * transcript, stripped; the other providers get a `system` entry when the
   * prompt is non-empty and then one `user` entry per non-system message.
   */
  function Formatted(provider: string, ms: seq<Message>, systemPrompt: string): seq<ChatMessage> {
    if provider == "vllm" then
      [ChatMessage("user", Strip(systemPrompt + "\n\n" + Transcript(ms)))]
    else
      (if systemPrompt != "" then [ChatMessage("system", systemPrompt)] else []) + UserEntries(ms)
  }

  /** `_format_messages` as the loops of the source build it. */
  method FormatMessages(provider: string, messages: seq<Message>, systemPrompt: string) returns (formatted: seq<ChatMessage>)
    ensures formatted == Formatted(provider, messages, systemPrompt)
  {
    if provider == "vllm" {
      var fullContent := VllmContent(messages, systemPrompt);
      formatted := [ChatMessage("user", Strip(fullContent))];
    } else {
      formatted := [];
      if systemPrompt != "" {
        formatted := formatted + [ChatMessage("system", systemPrompt)];
      }
      var entries := StandardEntries(messages);
      formatted := formatted + entries;
    }
  }

  /** The vLLM branch: the prompt, a blank line, then the transcript. */
  method VllmContent(messages: seq<Message>, systemPrompt: string) returns (fullContent: string)
    ensures fullContent == systemPrompt + "\n\n" + Transcript(messages)
  {
    fullContent := systemPrompt + "\n\n";
    var i := 0;
    while i < |messages|
      invariant 0 <= i <= |messages|
      invariant fullContent == systemPrompt + "\n\n" + Transcript(messages[..i])
    {
      assert messages[..i + 1][..i] == messages[..i];
      if messages[i].speaker != SystemSpeaker {
        fullContent := fullContent + (messages[i].speaker + ": " + messages[i].content + "\n");
      }
      i := i + 1;
    }
    assert messages[..i] == messages;
  }

  /** The message loop of the other providers' branch. */
  method StandardEntries(messages: seq<Message>) returns (entries: seq<ChatMessage>)
    ensures entries == UserEntries(messages)
  {
    entries := [];
    var i := 0;
    while i < |messages|
      invariant 0 <= i <= |messages|
      invariant entries == UserEntries(messages[..i])
    {
      assert messages[..i + 1][..i] == messages[..i];
      if messages[i].speaker != SystemSpeaker {
        entries := entries + [ChatMessage("user", messages[i].speaker + ": " + messages[i].content)];
      }
      i := i + 1;
    }
    assert messages[..i] == messages;
  }

  lemma {:induction false} SpokenAppend(a: seq<Message>, b: seq<Message>)
    ensures Spoken(a + b) == Spoken(a) + Spoken(b)
    decreases |b|
  {
    if b != [] {
      var b' := b[..|b| - 1];
      assert (a + b)[..|a + b| - 1] == a + b';
      SpokenAppend(a, b');
    } else {
      assert a + b == a;
    }
  }

  lemma {:induction false} TranscriptAppend(a: seq<Message>, b: seq<Message>)
    ensures Transcript(a + b) == Transcript(a) + Transcript(b)
    decreases |b|
  {
    if b != [] {
      var b' := b[..|b| - 1];
      assert (a + b)[..|a + b| - 1] == a + b';
      TranscriptAppend(a, b');
    } else {
      assert a + b == a;
    }
  }

  lemma {:induction false} UserEntriesAppend(a: seq<Message>, b: seq<Message>)
    ensures UserEntries(a + b) == UserEntries(a) + UserEntries(b)
    decreases |b|
  {
    if b != [] {
      var b' := b[..|b| - 1];
      assert (a + b)[..|a + b| - 1] == a + b';
      UserEntriesAppend(a, b');
    } else {
      assert a + b == a;
    }
  }

  /** A system message contributes nothing to the transcript or the user entries. */
  lemma SystemMessageContributesNothing(m: Message)
    requires IsSystem(m)
    ensures Transcript([m]) == "" && UserEntries([m]) == []
  {
    assert [m][..0] == [];
  }

  lemma TranscriptSkipsSystem(before: seq<Message>, m: Message, after: seq<Message>)
    requires IsSystem(m)
    ensures Transcript(before + [m] + after) == Transcript(before + after)
  {
    TranscriptAppend(before + [m], after);
    TranscriptAppend(before, [m]);
    TranscriptAppend(before, after);
    SystemMessageContributesNothing(m);
  }

  lemma UserEntriesSkipSystem(before: seq<Message>, m: Message, after: seq<Message>)
    requires IsSystem(m)
    ensures UserEntries(before + [m] + after) == UserEntries(before + after)
  {
    UserEntriesAppend(before + [m], after);
    UserEntriesAppend(before, [m]);
    UserEntriesAppend(before, after);
    SystemMessageContributesNothing(m);
  }

  /** A system message anywhere in the window leaves the formatted request as it was, in either mode. */
  lemma SystemMessageIgnored(provider: string, before: seq<Message>, m: Message, after: seq<Message>, systemPrompt: string)
    requires IsSystem(m)
    ensures Formatted(provider, before + [m] + after, systemPrompt) == Formatted(provider, before + after, systemPrompt)
  {
    TranscriptSkipsSystem(before, m, after);
    UserEntriesSkipSystem(before, m, after);
  }

  /** vLLM gets exactly one `user` entry. */
  lemma FormattedVllmShape(ms: seq<Message>, systemPrompt: string)
    ensures |Formatted("vllm", ms, systemPrompt)| == 1 && Formatted("vllm", ms, systemPrompt)[0].role == "user"
  {
  }

  /**
   * The other providers get a `system` entry first iff the prompt is non-empty,
   * then one `user` entry `speaker: content` per non-system message, in order.
   */
  lemma {:induction false} FormattedStandardShape(provider: string, ms: seq<Message>, systemPrompt: string)
    requires provider != "vllm"
    ensures |Formatted(provider, ms, systemPrompt)| == (if systemPrompt != "" then 1 else 0) + |Spoken(ms)|
    ensures systemPrompt != "" ==> Formatted(provider, ms, systemPrompt)[0] == ChatMessage("system", systemPrompt)
    ensures systemPrompt == "" ==> forall i :: 0 <= i < |Formatted(provider, ms, systemPrompt)| ==>
      Formatted(provider, ms, systemPrompt)[i] == ChatMessage("user", Line(Spoken(ms)[i]))
    ensures systemPrompt != "" ==> forall i :: 1 <= i < |Formatted(provider, ms, systemPrompt)| ==>
      Formatted(provider, ms, systemPrompt)[i] == ChatMessage("user", Line(Spoken(ms)[i - 1]))
  {
    var e := UserEntries(ms);
    if systemPrompt == "" {
      assert Formatted(provider, ms, systemPrompt) == e;
    } else {
      var head := [ChatMessage("system", systemPrompt)];
      assert Formatted(provider, ms, systemPrompt) == head + e;
      EntriesAfter(head, ms);
    }
  }

  /** The user entries keep their places after whatever precedes them. */
  lemma {:induction false} EntriesAfter(head: seq<ChatMessage>, ms: seq<Message>)
    ensures var f := head + UserEntries(ms);
      forall i :: |head| <= i < |f| ==> f[i] == ChatMessage("user", Line(Spoken(ms)[i - |head|]))
  {
    var entries := UserEntries(ms);
    forall i | |head| <= i < |head + entries|
      ensures (head + entries)[i] == ChatMessage("user", Line(Spoken(ms)[i - |head|]))
    {
      AppendIndex(head, entries, i);
    }
  }

  // ---------------------------------------------------------------- streaming

  /** What the stream callback receives for one delta: the delta and the text so far. */
  datatype StreamUpdate = StreamUpdate(chunk: string, full: string)

  /** The non-None deltas of a stream, concatenated in order. */
  function Accumulated(chunks: seq<Option<string>>): string
    decreases |chunks|
  {
    if chunks == [] then ""
    else
      var last := chunks[|chunks| - 1];
      Accumulated(chunks[..|chunks| - 1]) + (if last.Some? then last.value else "")
  }

  /** One update per non-None delta, carrying the text accumulated up to and including it. */
  function StreamUpdates(chunks: seq<Option<string>>): seq<StreamUpdate>
    decreases |chunks|
  {
    if chunks == [] then []
    else
      var last := chunks[|chunks| - 1];
      StreamUpdates(chunks[..|chunks| - 1]) +
        (if last.Some? then [StreamUpdate(last.value, Accumulated(chunks))] else [])
  }

  /** The accumulation loop of `generate_response_stream`. */
  method AccumulateStream(chunks: seq<Option<string>>) returns (fullContent: string, updates: seq<StreamUpdate>)
    ensures fullContent == Accumulated(chunks)
    ensures updates == StreamUpdates(chunks)
  {
    fullContent := "";
    updates := [];
    var i := 0;
    while i < |chunks|
      invariant 0 <= i <= |chunks|
      invariant fullContent == Accumulated(chunks[..i])
      invariant updates == StreamUpdates(chunks[..i])
    {
      assert chunks[..i + 1][..i] == chunks[..i];
      if chunks[i].Some? {
        var content := chunks[i].value;
        fullContent := fullContent + content;
        updates := updates + [StreamUpdate(content, fullContent)];
      }
      i := i + 1;
    }
    assert chunks[..i] == chunks;
  }

  lemma {:induction false} AccumulatedAppend(a: seq<Option<string>>, b: seq<Option<string>>)
    ensures Accumulated(a + b) == Accumulated(a) + Accumulated(b)
    decreases |b|
  {
    if b != [] {
      var b' := b[..|b| - 1];
      assert (a + b)[..|a + b| - 1] == a + b';
      AccumulatedAppend(a, b');
    } else {
      assert a + b == a;
    }
  }

  /**
   * Each callback's `full` is the previous `full` followed by its chunk, so the
   * successive values are growing prefixes of the result, the last one being
   * the result itself.
   */
  lemma {:induction false} UpdatesArePrefixes(chunks: seq<Option<string>>)
    ensures var u := StreamUpdates(chunks);
      && (forall i :: 0 <= i < |u| ==> StartsWith(Accumulated(chunks), u[i].full))
      && (forall i :: 0 <= i < |u| ==> u[i].full == (if i == 0 then "" else u[i - 1].full) + u[i].chunk)
      && (|u| > 0 ==> u[|u| - 1].full == Accumulated(chunks))
    decreases |chunks|
  {
    if chunks != [] {
      var init := chunks[..|chunks| - 1];
      var last := chunks[|chunks| - 1];
      UpdatesArePrefixes(init);
      var u0 := StreamUpdates(init);
      var u := StreamUpdates(chunks);
      var acc0 := Accumulated(init);
      var acc := Accumulated(chunks);
      assert acc == acc0 + (if last.Some? then last.value else "");
      forall i | 0 <= i < |u0|
        ensures StartsWith(acc, u0[i].full)
      {
        assert StartsWith(acc0, u0[i].full);
        assert acc[..|u0[i].full|] == acc0[..|u0[i].full|];
      }
      if last.Some? {
        assert u == u0 + [StreamUpdate(last.value, acc)];
        if |u0| > 0 {
          assert u0[|u0| - 1].full == acc0;
        } else {
          assert acc0 == "" by {
            EmptyUpdatesNothingAccumulated(init);
          }
        }
      } else {
        assert u == u0;
      }
    }
  }

  /** A stream with no update has accumulated nothing. */
  lemma {:induction false} EmptyUpdatesNothingAccumulated(chunks: seq<Option<string>>)
    requires StreamUpdates(chunks) == []
    ensures Accumulated(chunks) == ""
    decreases |chunks|
  {
    if chunks != [] {
      EmptyUpdatesNothingAccumulated(chunks[..|chunks| - 1]);
    }
  }

  // ---------------------------------------------------------------- the oracle

  /**
   * What the backend does with a request: answer whole, stream deltas (`None`
   * deltas included) and then finish or raise, or raise at once.
   */
  datatype Reply = Whole(content: string) | Deltas(chunks: seq<Option<string>>, completes: bool) | Raises

  /** `max_tokens or settings.vllm_max_tokens`: None and 0 both fall back. */
  function EffectiveMaxTokens(requested: Option<int>, default: int): (n: int)
    ensures requested == None || requested == Some(0) ==> n == default
    ensures requested.Some? && requested.value != 0 ==> n == requested.value
  {
    match requested
    case Some(v) => if v != 0 then v else default
    case None => default
  }

  function BuildRequest(s: LlmSettings, messages: seq<Message>, systemPrompt: string, maxTokens: Option<int>, stream: bool): LlmRequest {
    LlmRequest(s.vllmModel, Formatted(s.provider, messages, systemPrompt), EffectiveMaxTokens(maxTokens, s.vllmMaxTokens), stream)
  }

  /** The text of a generation and the callback updates made on the way there. */
  datatype Generation = Generation(result: Result<string>, updates: seq<StreamUpdate>)

  /**
   * The outcome of one generation.  A non-streaming call needs a whole answer,
   * a streaming call a stream; a reply of the other shape is a failing backend.
   * A stream that raises has already delivered its updates.
   */
  function Generate(reply: Reply, streaming: bool): (g: Generation)
    ensures g.result.Err? ==> g.result.error == GenerationFailed
    ensures !streaming ==> g.updates == [] && (g.result.Ok? <==> reply.Whole?)
    ensures streaming ==> (g.result.Ok? <==> reply.Deltas? && reply.completes)
    ensures streaming && reply.Deltas? ==> g.updates == StreamUpdates(reply.chunks)
    ensures streaming && g.result.Ok? ==> g.result.value == Accumulated(reply.chunks)
  {
    if streaming then
      match reply
      case Deltas(chunks, completes) =>
        Generation(if completes then Ok(Accumulated(chunks)) else Err(GenerationFailed), StreamUpdates(chunks))
      case _ => Generation(Err(GenerationFailed), [])
    else
      match reply
      case Whole(content) => Generation(Ok(content), [])
      case _ => Generation(Err(GenerationFailed), [])
  }

  /** `generate_response`: format, send, and return the answer or re-raise. */
  method GenerateResponse(s: LlmSettings, messages: seq<Message>, systemPrompt: string, maxTokens: Option<int>, reply: Reply)
    returns (request: LlmRequest, result: Result<string>)
    ensures request == BuildRequest(s, messages, systemPrompt, maxTokens, false)
    ensures result == Generate(reply, false).result
  {
    var formatted := FormatMessages(s.provider, messages, systemPrompt);
    request := LlmRequest(s.vllmModel, formatted, EffectiveMaxTokens(maxTokens, s.vllmMaxTokens), false);
    match reply
    case Whole(content) => result := Ok(content);
    case _ => result := Err(GenerationFailed);
  }

  /** `generate_response_stream`: the updates go to the stream callback, in order. */
  method GenerateResponseStream(s: LlmSettings, messages: seq<Message>, systemPrompt: string, maxTokens: Option<int>, reply: Reply)
    returns (request: LlmRequest, result: Result<string>, updates: seq<StreamUpdate>)
    ensures request == BuildRequest(s, messages, systemPrompt, maxTokens, true)
    ensures result == Generate(reply, true).result
    ensures updates == Generate(reply, true).updates
  {
    var formatted := FormatMessages(s.provider, messages, systemPrompt);
    request := LlmRequest(s.vllmModel, formatted, EffectiveMaxTokens(maxTokens, s.vllmMaxTokens), true);
    match reply
    case Deltas(chunks, completes) =>
      var fullContent;
      fullContent, updates := AccumulateStream(chunks);
      result := if completes then Ok(fullContent) else Err(GenerationFailed);
    case _ =>
      result := Err(GenerationFailed);
      updates := [];
  }

  /** `_get_test_model`: the model of the configured provider, "unknown" for any other provider. */
  function TestModel(s: LlmSettings): (m: string)
    ensures s.provider == "vllm" ==> m == s.vllmModel
    ensures s.provider == "openai" ==> m == s.openaiModel
    ensures s.provider == "ollama" ==> m == s.ollamaModel
    ensures s.provider !in {"vllm", "openai", "ollama"} ==> m == "unknown"
  {
    if s.provider == "vllm" then s.vllmModel
    else if s.provider == "openai" then s.openaiModel
    else if s.provider == "ollama" then s.ollamaModel
    else "unknown"
  }
}
