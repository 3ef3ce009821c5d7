/**
 * The chat window's conversation state (renderer/llm-chat.js): the message
 * history, the streaming flag and the LLM settings, with the handlers that
 * send a message, take in the streamed reply and pick a model. The DOM, the
 * rendering of bubbles and `confirm` are outside the model; a dialog's
 * answer and the text box's content are parameters.
 */
module ChatSession {
  import opened Wrappers
  import opened Text
  import opened AppConfig
  import opened LlmApi

  /** One `window.api.sendLLMMessage(apiMessages, model)` call; `None` is `undefined`. */
  datatype ApiCall = ApiCall(messages: seq<Message>, model: Option<string>)

  /** The conversation never holds a system message. */
  predicate NoSystem(messages: seq<Message>) {
    forall i :: 0 <= i < |messages| ==> messages[i].role != System
  }

  /** The message list sent to the API: the system prompt first when it is set, then the conversation. */
  function ApiMessages(systemPrompt: string, messages: seq<Message>): (r: seq<Message>)
    ensures |r| == |messages| + (if systemPrompt == "" then 0 else 1)
    ensures r[|r| - |messages|..] == messages
    ensures systemPrompt != "" ==> r[0] == Message(System, systemPrompt)
  {
    (if systemPrompt == "" then [] else [Message(System, systemPrompt)]) + messages
  }

  /** In the API list of a conversation without system messages, the only system message is the prompt, first. */
  lemma SystemPromptLeads(systemPrompt: string, messages: seq<Message>)
    requires NoSystem(messages)
    ensures var r := ApiMessages(systemPrompt, messages);
      forall i :: 0 <= i < |r| ==> (r[i].role == System <==> i == 0 && systemPrompt != "")
  {
    var r := ApiMessages(systemPrompt, messages);
    var k := |r| - |messages|;
    forall i | 0 <= i < |r| ensures r[i].role == System <==> i == 0 && systemPrompt != "" {
      if i >= k {
        assert r[i] == r[k..][i - k] == messages[i - k];
      }
    }
  }

  /** The last message is an assistant turn. */
  predicate EndsWithAssistant(messages: seq<Message>) {
    |messages| > 0 && messages[|messages| - 1].role == Assistant
  }

  /**
   * `appendToAssistantMessage` on the history (llm-chat.js:224-241): a chunk
   * extends the assistant turn in progress, or starts one.
   */
  function AppendChunk(messages: seq<Message>, chunk: string): (r: seq<Message>)
    ensures EndsWithAssistant(r)
    ensures |messages| <= |r| <= |messages| + 1
    ensures r[..|r| - 1] == messages[..|r| - 1]
    ensures EndsWithAssistant(messages) ==>
      |r| == |messages| && r[|r| - 1].content == messages[|messages| - 1].content + chunk
    ensures !EndsWithAssistant(messages) ==> |r| == |messages| + 1 && r[|r| - 1].content == chunk
  {
    if EndsWithAssistant(messages) then
      var last := messages[|messages| - 1];
      messages[..|messages| - 1] + [last.(content := last.content + chunk)]
    else messages + [Message(Assistant, chunk)]
  }

  /** Taking in a chunk adds no system message. */
  lemma AppendChunkNoSystem(messages: seq<Message>, chunk: string)
    requires NoSystem(messages)
    ensures NoSystem(AppendChunk(messages, chunk))
  {
    var r := AppendChunk(messages, chunk);
    forall i | 0 <= i < |r| ensures r[i].role != System {
      if i < |r| - 1 {
        assert r[i] == r[..|r| - 1][i] == messages[..|r| - 1][i];
      }
    }
  }

  /** The history after a run of chunks. */
  function AppendAll(messages: seq<Message>, chunks: seq<string>): seq<Message>
    decreases |chunks|
  {
    if chunks == [] then messages else AppendAll(AppendChunk(messages, chunks[0]), chunks[1..])
  }

  /** Chunks arriving on an assistant turn all land in it, in order. */
  lemma {:induction false} AppendAllExtends(messages: seq<Message>, chunks: seq<string>)
    requires EndsWithAssistant(messages)
    ensures var last := messages[|messages| - 1];
      AppendAll(messages, chunks) == messages[..|messages| - 1] + [last.(content := last.content + Concat(chunks))]
    decreases |chunks|
  {
    var prefix := messages[..|messages| - 1];
    var last := messages[|messages| - 1];
    if chunks == [] {
      assert last.content + "" == last.content;
      assert prefix + [last] == messages;
    } else {
      var head := last.(content := last.content + chunks[0]);
      var next := prefix + [head];
      assert AppendChunk(messages, chunks[0]) == next;
      assert next[|next| - 1] == head && next[..|next| - 1] == prefix;
      AppendAllExtends(next, chunks[1..]);
      assert Concat(chunks) == chunks[0] + Concat(chunks[1..]);
      assert last.content + Concat(chunks) == head.content + Concat(chunks[1..]);
    }
  }

  /**
   * A streamed reply to a question: the history gains exactly one assistant
   * message holding the concatenation of the chunks; nothing before it changes.
   */
  lemma StreamedReply(messages: seq<Message>, chunks: seq<string>)
    requires chunks != [] && !EndsWithAssistant(messages)
    ensures AppendAll(messages, chunks) == messages + [Message(Assistant, Concat(chunks))]
  {
    var first := AppendChunk(messages, chunks[0]);
    assert first == messages + [Message(Assistant, chunks[0])];
    AppendAllExtends(first, chunks[1..]);
    assert first[..|first| - 1] == messages;
  }

  /**
   * The model `populateModelSelect` leaves configured (llm-chat.js:66-90): the
   * saved one when it is offered, otherwise the first offered, and the saved
   * one unchanged when nothing is offered.
   */
  function ModelAfterListing(saved: string, models: seq<string>): (m: string)
    ensures models == [] ==> m == saved
    ensures models != [] ==> m in models
    ensures saved != "" && saved in models ==> m == saved
    ensures models != [] && (saved == "" || saved !in models) ==> m == models[0]
  {
    if models == [] then saved
    else if saved != "" && saved in models then saved
    else models[0]
  }

  /** Listing the same models again changes nothing more. */
  lemma ModelListingStable(saved: string, models: seq<string>)
    ensures ModelAfterListing(ModelAfterListing(saved, models), models) == ModelAfterListing(saved, models)
  {
    if models != [] && models[0] == "" {
      assert ModelAfterListing(saved, models) in models;
    }
  }

  /** The chat window's module-level state. */
  class Session {
    var messages: seq<Message>
    var isStreaming: bool
    var llmConfig: LlmSettings
    /** The error notices shown under the conversation. */
    ghost var errors: seq<string>

    ghost predicate Valid()
      reads this
    {
      NoSystem(messages)
    }

    /** The window after loading its settings. */
    constructor (config: LlmSettings)
      ensures Valid() && messages == [] && !isStreaming && llmConfig == config && errors == []
    {
      messages, isStreaming, llmConfig, errors := [], false, config, [];
    }

    /**
     * `sendMessage` (llm-chat.js:191-221) with the text box holding `input`:
     * nothing happens for blank input or while a reply streams; otherwise the
     * trimmed text becomes one user message, streaming starts, and the API is
     * called with the system prompt in front of the history.
     */
    method SendMessage(input: string) returns (call: Option<ApiCall>)
      requires Valid()
      modifies this
      ensures Valid() && llmConfig == old(llmConfig) && errors == old(errors)
      ensures Trim(input) == "" || old(isStreaming) ==>
        call == None && messages == old(messages) && isStreaming == old(isStreaming)
      ensures Trim(input) != "" && !old(isStreaming) ==>
        && messages == old(messages) + [Message(User, Trim(input))] && isStreaming
        && call == Some(ApiCall(ApiMessages(llmConfig.systemPrompt, messages),
                                if llmConfig.model == "" then None else Some(llmConfig.model)))
    {
      var text := Trim(input);
      if text == "" || isStreaming {
        return None;
      }
      messages := messages + [Message(User, text)];
      isStreaming := true;
      var apiMessages := [];
      if llmConfig.systemPrompt != "" {
        apiMessages := apiMessages + [Message(System, llmConfig.systemPrompt)];
      }
      apiMessages := apiMessages + messages;
      assert apiMessages == ApiMessages(llmConfig.systemPrompt, messages) by {
        if llmConfig.systemPrompt == "" {
          assert [] + messages == messages;
        } else {
          assert [] + [Message(System, llmConfig.systemPrompt)] == [Message(System, llmConfig.systemPrompt)];
        }
      }
      call := Some(ApiCall(apiMessages, if llmConfig.model == "" then None else Some(llmConfig.model)));
    }

    /** The `llm-stream-chunk` listener (llm-chat.js:176-178, 224-245). */
    method AppendToAssistantMessage(chunk: string)
      requires Valid()
      modifies this
      ensures Valid() && messages == AppendChunk(old(messages), chunk)
      ensures isStreaming == old(isStreaming) && llmConfig == old(llmConfig) && errors == old(errors)
    {
      AppendChunkNoSystem(messages, chunk);
      if |messages| > 0 && messages[|messages| - 1].role == Assistant {
        var last := messages[|messages| - 1];
        messages := messages[..|messages| - 1] + [last.(content := last.content + chunk)];
      } else {
        messages := messages + [Message(Assistant, chunk)];
      }
    }

    /** `finishStreaming` (llm-chat.js:247-261), the `llm-stream-end` listener: the history is only re-rendered. */
    method FinishStreaming()
      modifies this
      ensures !isStreaming
      ensures messages == old(messages) && llmConfig == old(llmConfig) && errors == old(errors)
    {
      isStreaming := false;
    }

    /** The `llm-stream-error` listener (llm-chat.js:184-187): streaming stops, then the error is shown. */
    method OnStreamError(error: string)
      modifies this
      ensures !isStreaming && errors == old(errors) + [error]
      ensures messages == old(messages) && llmConfig == old(llmConfig)
    {
      FinishStreaming();
      errors := errors + [error];
    }

    /** The `catch` of `sendMessage` (llm-chat.js:217-220): the IPC call itself failed. */
    method OnSendFailed(message: string)
      modifies this
      ensures !isStreaming && errors == old(errors) + ["メッセージの送信に失敗しました: " + message]
      ensures messages == old(messages) && llmConfig == old(llmConfig)
    {
      OnStreamError("メッセージの送信に失敗しました: " + message);
    }

    /** The clear button (llm-chat.js:136-141): an empty history asks nothing; a confirmed clear empties it. */
    method ClearConversation(confirmed: bool)
      requires Valid()
      modifies this
      ensures Valid()
      ensures messages == (if old(messages) != [] && confirmed then [] else old(messages))
      ensures isStreaming == old(isStreaming) && llmConfig == old(llmConfig) && errors == old(errors)
    {
      if |messages| == 0 {
        return;
      }
      if confirmed {
        messages := [];
      }
    }

    /**
     * `populateModelSelect` (llm-chat.js:66-90): `selected` is the value the
     * drop-down shows, the empty value of the "no models" entry for an empty list.
     */
    method PopulateModelSelect(models: seq<string>) returns (selected: string)
      modifies this
      ensures llmConfig == old(llmConfig).(model := ModelAfterListing(old(llmConfig).model, models))
      ensures selected == (if models == [] then "" else llmConfig.model)
      ensures messages == old(messages) && isStreaming == old(isStreaming) && errors == old(errors)
    {
      if |models| == 0 {
        return "";
      }
      if llmConfig.model != "" && llmConfig.model in models {
        selected := llmConfig.model;
      } else {
        llmConfig := llmConfig.(model := models[0]);
        selected := models[0];
      }
    }
  }
}
