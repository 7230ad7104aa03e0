/**
 * Chat messages as the client holds them, and the rewrite the chat applies to
 * its message list when the model rejects thinking mode: the last assistant
 * message, if it says nothing meaningful, gets a fixed explanation instead;
 * when there is no assistant message at all, one is appended.
 */
module ChatMessages {
  import opened Wrappers
  import opened JsStrings

  datatype Role = UserRole | AssistantRole | SystemRole

  /**
   * A content part: text (whose `text` may be missing) or any other kind
   * (file, tool call, ...). An `OtherPart` never has kind `"text"`: a part of
   * that type is always a `Text`.
   */
  datatype Part = Text(text: Option<string>) | OtherPart(kind: string)

  /** `experimental_providerMetadata` of a message; only its `thinking` flag is read. */
  datatype ProviderMetadata = ProviderMetadata(thinking: Option<bool>)

  datatype Message = Message(id: string, role: Role, parts: seq<Part>, providerMetadata: Option<ProviderMetadata>)

  const ThinkingNotSupportedText: string :=
    "The selected model does not support thinking mode. Please choose a different model or disable thinking mode."

  const FallbackPart: Part := Text(Some(ThinkingNotSupportedText))

  function FallbackMessage(freshId: string): Message {
    Message(freshId, AssistantRole, [FallbackPart], None)
  }

  /** A part is meaningful when it is not text, or its text is not blank. */
  predicate IsMeaningful(part: Part)
    ensures part.OtherPart? ==> IsMeaningful(part)
    ensures part.Text? ==>
      (IsMeaningful(part) <==> exists i :: 0 <= i < |part.text.GetOr("")| && !IsWhitespace(part.text.GetOr("")[i]))
  {
    match part
    case Text(t) => |Trim(t.GetOr(""))| > 0
    case OtherPart(_) => true
  }

  /** `parts.some(...)`: any non-text part makes the message meaningful, and no parts never do. */
  predicate HasMeaningfulPart(parts: seq<Part>)
    ensures (exists i :: 0 <= i < |parts| && parts[i].OtherPart?) ==> HasMeaningfulPart(parts)
    ensures HasMeaningfulPart(parts) ==> |parts| > 0
  {
    exists i :: 0 <= i < |parts| && IsMeaningful(parts[i])
  }

  /** `k` is the highest index of `ms` whose role is assistant. */
  ghost predicate IsLastAssistant(ms: seq<Message>, k: int) {
    && 0 <= k < |ms|
    && ms[k].role == AssistantRole
    && forall j :: k < j < |ms| ==> ms[j].role != AssistantRole
  }

  /** The index of the last assistant message, if there is one. */
  function LastAssistant(ms: seq<Message>): (r: Option<nat>)
    ensures r.Some? ==> IsLastAssistant(ms, r.value)
    ensures r.None? <==> forall j :: 0 <= j < |ms| ==> ms[j].role != AssistantRole
  {
    if |ms| == 0 then None
    else if ms[|ms| - 1].role == AssistantRole then Some(|ms| - 1)
    else LastAssistant(ms[..|ms| - 1])
  }

  /** At most one index is the last assistant one, so `LastAssistant` finds exactly it. */
  lemma LastAssistantUnique(ms: seq<Message>, k: int)
    requires IsLastAssistant(ms, k)
    ensures LastAssistant(ms) == Some(k)
  {
  }

  /**
   * The list after the thinking-mode rewrite: one message longer when there is
   * no assistant message, otherwise as long; no message but the last assistant
   * one changes.
   */
  function ThinkingFallback(prev: seq<Message>, freshId: string): (r: seq<Message>)
    ensures |r| == |prev| + (if LastAssistant(prev).None? then 1 else 0)
    ensures forall j :: 0 <= j < |prev| && (LastAssistant(prev).None? || LastAssistant(prev).value != j) ==> r[j] == prev[j]
  {
    match LastAssistant(prev)
    case None => prev + [FallbackMessage(freshId)]
    case Some(k) =>
      if HasMeaningfulPart(prev[k].parts) then prev
      else prev[k := prev[k].(parts := [FallbackPart])]
  }

  /**
   * The updater passed to `setMessages`: a backward scan for the last assistant
   * message, then append, leave alone, or replace that message's parts.
   */
  method ApplyThinkingFallback(prev: seq<Message>, freshId: string) returns (next: seq<Message>)
    ensures next == ThinkingFallback(prev, freshId)
  {
    if |prev| == 0 {
      return prev + [FallbackMessage(freshId)];
    }
    var idx := |prev| - 1;
    while idx >= 0 && prev[idx].role != AssistantRole
      invariant -1 <= idx < |prev|
      invariant forall j :: idx < j < |prev| ==> prev[j].role != AssistantRole
      decreases idx + 1
    {
      idx := idx - 1;
    }
    if idx < 0 {
      return prev + [FallbackMessage(freshId)];
    }
    LastAssistantUnique(prev, idx);
    var last := prev[idx];
    if HasMeaningfulPart(last.parts) {
      return prev;
    }
    var updatedLast := last.(parts := [FallbackPart]);
    next := prev[idx := updatedLast];
  }

  // ---------------------------------------------------------------- properties

  /** The fallback text itself is meaningful. */
  lemma FallbackPartMeaningful()
    ensures IsMeaningful(FallbackPart)
  {
    var last := |ThinkingNotSupportedText| - 1;
    assert ThinkingNotSupportedText[last] == '.';
    TrimNonBlank(ThinkingNotSupportedText, last);
  }

  /** With no assistant message (in particular an empty list) one fallback message is appended. */
  lemma FallbackAppendsWhenNoAssistant(prev: seq<Message>, freshId: string)
    requires forall j :: 0 <= j < |prev| ==> prev[j].role != AssistantRole
    ensures var next := ThinkingFallback(prev, freshId);
      && |next| == |prev| + 1
      && next[..|prev|] == prev
      && next[|prev|].id == freshId && next[|prev|].role == AssistantRole
      && next[|prev|].parts == [Text(Some(ThinkingNotSupportedText))]
  {
  }

  /** A last assistant message with a meaningful part leaves the list as it is. */
  lemma FallbackKeepsMeaningfulReply(prev: seq<Message>, k: nat, freshId: string)
    requires IsLastAssistant(prev, k) && HasMeaningfulPart(prev[k].parts)
    ensures ThinkingFallback(prev, freshId) == prev
  {
    LastAssistantUnique(prev, k);
  }

  /**
   * Otherwise only the parts of the last assistant message change, to the
   * fallback text; its id, role and metadata, the length and every other
   * message stay.
   */
  lemma FallbackReplacesOnlyTarget(prev: seq<Message>, k: nat, freshId: string)
    requires IsLastAssistant(prev, k) && !HasMeaningfulPart(prev[k].parts)
    ensures var next := ThinkingFallback(prev, freshId);
      && |next| == |prev|
      && next[k] == Message(prev[k].id, prev[k].role, [Text(Some(ThinkingNotSupportedText))], prev[k].providerMetadata)
      && forall j :: 0 <= j < |prev| && j != k ==> next[j] == prev[j]
  {
    LastAssistantUnique(prev, k);
  }

  /** The parts the rewrite installs have a meaningful part. */
  lemma FallbackPartsMeaningful()
    ensures HasMeaningfulPart([FallbackPart])
  {
    FallbackPartMeaningful();
    assert [FallbackPart][0] == FallbackPart;
  }

  /** After the rewrite the list ends in a meaningful assistant reply (after any non-assistant messages). */
  lemma FallbackLeavesMeaningfulReply(prev: seq<Message>, freshId: string)
    ensures var next := ThinkingFallback(prev, freshId);
      && LastAssistant(next).Some?
      && HasMeaningfulPart(next[LastAssistant(next).value].parts)
  {
    var next := ThinkingFallback(prev, freshId);
    var target := LastAssistant(prev);
    if target.None? {
      FallbackAppendsWhenNoAssistant(prev, freshId);
      assert forall j :: 0 <= j < |prev| ==> next[j] == prev[j];
      assert IsLastAssistant(next, |prev|);
      LastAssistantUnique(next, |prev|);
      FallbackPartsMeaningful();
    } else if !HasMeaningfulPart(prev[target.value].parts) {
      var k := target.value;
      FallbackReplacesOnlyTarget(prev, k, freshId);
      assert IsLastAssistant(next, k);
      LastAssistantUnique(next, k);
      FallbackPartsMeaningful();
    }
  }

  /** A second rewrite changes nothing, whatever fresh id it is given. */
  lemma FallbackIdempotent(prev: seq<Message>, id1: string, id2: string)
    ensures ThinkingFallback(ThinkingFallback(prev, id1), id2) == ThinkingFallback(prev, id1)
  {
    var next := ThinkingFallback(prev, id1);
    FallbackLeavesMeaningfulReply(prev, id1);
    var k := LastAssistant(next).value;
    FallbackKeepsMeaningfulReply(next, k, id2);
  }
}
