/**
 * The state the chat component keeps for one conversation and the callbacks
 * and effects that change it: appending streamed data parts, handling an
 * error, sending the `query` parameter once, and pre-filling the analysis
 * prompt once.
 */
module ChatSession {
  import opened Wrappers
  import opened ChatMessages
  import opened ChatErrors
  import opened ChatPrompt

  /** A streamed data part: its `type` and its payload (for `data-usage`, the usage record). */
  datatype DataPart = DataPart(kind: string, data: string)

  const UsageKind: string := "data-usage"

  /** `ds ? [...ds, dataPart] : []`: append to an existing stream, start empty otherwise. */
  function StreamAppend(ds: Option<seq<DataPart>>, part: DataPart): (r: seq<DataPart>)
    ensures ds.None? ==> r == []
    ensures ds.Some? ==> |r| == |ds.value| + 1 && r[..|ds.value|] == ds.value && r[|ds.value|] == part
  {
    if ds.Some? then ds.value + [part] else []
  }

  /** The chat page's own path, which the effects put in the address bar. */
  function ChatPath(id: string): string {
    "/chat/" + id
  }

  class Session {
    const id: string
    var messages: seq<Message>
    /** The shared data stream; `None` when the provider holds no array. */
    var dataStream: Option<seq<DataPart>>
    var usage: Option<string>
    var showCreditCardAlert: bool
    /** Descriptions of the error toasts shown so far, oldest first. */
    var toasts: seq<string>
    var input: string
    var hasAppendedQuery: bool
    var hasInjectedPrompt: bool
    /** Messages handed to `sendMessage`, oldest first. */
    var sent: seq<Message>
    /** The address bar's path. */
    var location: string

    constructor (id: string, initialMessages: seq<Message>, initialLastContext: Option<string>,
                 dataStream: Option<seq<DataPart>>, location: string)
      ensures this.id == id && messages == initialMessages && usage == initialLastContext
      ensures this.dataStream == dataStream && this.location == location
      ensures !showCreditCardAlert && toasts == [] && input == ""
      ensures !hasAppendedQuery && !hasInjectedPrompt && sent == []
    {
      this.id := id;
      messages := initialMessages;
      this.dataStream := dataStream;
      usage := initialLastContext;
      showCreditCardAlert := false;
      toasts := [];
      input := "";
      hasAppendedQuery := false;
      hasInjectedPrompt := false;
      sent := [];
      this.location := location;
    }

    /** `onData`: append the part to the stream; a `data-usage` part also replaces the usage. */
    method OnData(part: DataPart)
      modifies this`dataStream, this`usage
      ensures dataStream == Some(StreamAppend(old(dataStream), part))
      ensures usage == if part.kind == UsageKind then Some(part.data) else old(usage)
    {
      dataStream := Some(StreamAppend(dataStream, part));
      if part.kind == UsageKind {
        usage := Some(part.data);
      }
    }

    /**
     * `onError`: the thinking-mode rewrite when the error asks for it, then the
     * alert or a toast, and in every case an empty data stream.
     */
    method OnError(e: ChatError, freshId: string)
      modifies this`messages, this`showCreditCardAlert, this`toasts, this`dataStream
      ensures messages == if RequestsThinkingFallback(e) then ThinkingFallback(old(messages), freshId) else old(messages)
      ensures ErrorNotice(e) == CreditCardAlert ==> showCreditCardAlert && toasts == old(toasts)
      ensures ErrorNotice(e).Toast? ==>
        toasts == old(toasts) + [ErrorNotice(e).description] && showCreditCardAlert == old(showCreditCardAlert)
      ensures dataStream == Some([])
    {
      if RequestsThinkingFallback(e) {
        messages := ApplyThinkingFallback(messages, freshId);
      }
      match ErrorNotice(e) {
        case CreditCardAlert =>
          showCreditCardAlert := true;
        case Toast(description) =>
          toasts := toasts + [description];
      }
      dataStream := Some([]);
    }

    /** The `query` effect: send the query once as a user message, then show the chat's own path. */
    method AppendQueryEffect(query: Option<string>, freshId: string)
      modifies this`sent, this`hasAppendedQuery, this`location
      ensures if query.Some? && query.value != "" && !old(hasAppendedQuery) then
          && sent == old(sent) + [Message(freshId, UserRole, [Text(Some(query.value))], None)]
          && hasAppendedQuery && location == ChatPath(id)
        else
          sent == old(sent) && hasAppendedQuery == old(hasAppendedQuery) && location == old(location)
    {
      if query.Some? && query.value != "" && !hasAppendedQuery {
        sent := sent + [Message(freshId, UserRole, [Text(Some(query.value))], None)];
        hasAppendedQuery := true;
        location := ChatPath(id);
      }
    }

    /**
     * The prompt effect: when `PromptToInject` yields a prompt, put it in the
     * input box, remember the injection and show the chat's own path; otherwise
     * change nothing.
     */
    method InjectPromptEffect(dataParam: Option<string>, targetParam: Option<string>, commonParam: Option<string>)
      modifies this`input, this`hasInjectedPrompt, this`location
      ensures var p := PromptToInject(old(hasInjectedPrompt), old(input), dataParam, targetParam, commonParam);
        (input, hasInjectedPrompt, location)
        == if p.Some? then (p.value, true, ChatPath(id)) else old((input, hasInjectedPrompt, location))
    {
      var injectedPrompt := PromptToInject(hasInjectedPrompt, input, dataParam, targetParam, commonParam);
      var next := if injectedPrompt.Some? then (injectedPrompt.value, true, ChatPath(id))
                  else (input, hasInjectedPrompt, location);
      input, hasInjectedPrompt, location := next.0, next.1, next.2;
    }
  }
}
