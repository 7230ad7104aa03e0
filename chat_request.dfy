/**
 * The request the chat sends for one turn: a JSON body built from the last
 * message and the current settings, where fields the caller puts in
 * `request.body` win, and headers that carry the locally stored credentials.
 */
module ChatRequest {
  import opened Wrappers
  import opened ChatMessages

  /** A JSON value of the body; `Undefined` is a field JSON serialisation drops. */
  datatype Value = Str(s: string) | Bool(b: bool) | MessageValue(m: Message) | Undefined

  datatype Visibility = Private | Public

  function VisibilityName(v: Visibility): string {
    match v
    case Private => "private"
    case Public => "public"
  }

  /** What the transport hands to `prepareSendMessagesRequest`. */
  datatype SendRequest = SendRequest(id: string, messages: seq<Message>, body: map<string, Value>)

  datatype Prepared = Prepared(body: map<string, Value>, headers: map<string, string>)

  const GoogleKeyHeader: string := "x-google-api-key"
  const GithubPatHeader: string := "x-github-pat"
  const ComputedFields: set<string> := {"id", "message", "selectedChatModel", "selectedVisibilityType", "thinkingEnabled"}

  /** A stored credential counts only when it is present and non-empty. */
  predicate Truthy(s: Option<string>) {
    s.Some? && s.value != ""
  }

  /** `lastMessage?.experimental_providerMetadata?.thinking || false` */
  predicate ThinkingRequested(messages: seq<Message>)
    ensures ThinkingRequested(messages) ==> |messages| > 0
  {
    && |messages| > 0
    && messages[|messages| - 1].providerMetadata.Some?
    && messages[|messages| - 1].providerMetadata.value.thinking == Some(true)
  }

  /** Only the last message's flag counts; earlier messages never turn thinking on or off. */
  lemma ThinkingFromLastMessage(earlier: seq<Message>, last: Message)
    ensures ThinkingRequested(earlier + [last]) <==> last.providerMetadata == Some(ProviderMetadata(Some(true)))
  {
    assert (earlier + [last])[|earlier|] == last;
  }

  method PrepareSendMessagesRequest(
    request: SendRequest, googleApiKey: Option<string>, githubPat: Option<string>,
    currentModelId: string, visibility: Visibility)
    returns (prepared: Prepared)
    ensures GoogleKeyHeader in prepared.headers <==> Truthy(googleApiKey)
    ensures Truthy(googleApiKey) ==> prepared.headers[GoogleKeyHeader] == googleApiKey.value
    ensures GithubPatHeader in prepared.headers <==> Truthy(githubPat)
    ensures Truthy(githubPat) ==> prepared.headers[GithubPatHeader] == githubPat.value
    ensures prepared.headers.Keys <= {GoogleKeyHeader, GithubPatHeader}
    ensures prepared.body.Keys == ComputedFields + request.body.Keys
    ensures forall k :: k in request.body ==> prepared.body[k] == request.body[k]
    ensures "id" !in request.body ==> prepared.body["id"] == Str(request.id)
    ensures "message" !in request.body ==>
      prepared.body["message"] == (if |request.messages| == 0 then Undefined else MessageValue(request.messages[|request.messages| - 1]))
    ensures "selectedChatModel" !in request.body ==> prepared.body["selectedChatModel"] == Str(currentModelId)
    ensures "selectedVisibilityType" !in request.body ==> prepared.body["selectedVisibilityType"] == Str(VisibilityName(visibility))
    ensures "thinkingEnabled" !in request.body ==> prepared.body["thinkingEnabled"] == Bool(ThinkingRequested(request.messages))
  {
    var lastMessage := if |request.messages| == 0 then Undefined else MessageValue(request.messages[|request.messages| - 1]);
    var thinkingEnabled := ThinkingRequested(request.messages);
    var computed := map[
      "id" := Str(request.id),
      "message" := lastMessage,
      "selectedChatModel" := Str(currentModelId),
      "selectedVisibilityType" := Str(VisibilityName(visibility)),
      "thinkingEnabled" := Bool(thinkingEnabled)];
    var requestBody := computed + request.body;

    var headers: map<string, string> := map[];
    if Truthy(googleApiKey) {
      headers := headers[GoogleKeyHeader := googleApiKey.value];
    }
    if Truthy(githubPat) {
      headers := headers[GithubPatHeader := githubPat.value];
    }
    prepared := Prepared(requestBody, headers);
  }
}
