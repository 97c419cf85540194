/**
 * The request injector: fetches the memory, renders it, and merges it into the first
 * system message of the request (or prepends a new system message). Every failure returns
 * the original body.
 */
module Injector {
  import opened Wrappers
  import opened Chat
  import opened MemoryFormat
  import opened MemoryClient

  /** The persona of a system message created by the injector. */
  const Persona := "You are an AI assistant."

  /** A system message with the given content and no other fields. */
  function SystemMessage(content: string): Message {
    Message(Some("system"), Some(content), map[])
  }

  /** The index of the first message with role "system", -1 when there is none. */
  function FirstSystem(msgs: seq<Message>): (k: int)
    ensures -1 <= k < |msgs|
    ensures k >= 0 ==> IsSystem(msgs[k]) && forall j :: 0 <= j < k ==> !IsSystem(msgs[j])
    ensures k == -1 ==> forall j :: 0 <= j < |msgs| ==> !IsSystem(msgs[j])
    decreases |msgs|
  {
    if |msgs| == 0 then -1
    else if IsSystem(msgs[0]) then 0
    else
      var k := FirstSystem(msgs[1..]);
      if k == -1 then -1 else k + 1
  }

  /** The search for `systemIndex`: a loop that stops at the first system message. */
  method FindSystemIndex(msgs: seq<Message>) returns (systemIndex: int)
    ensures systemIndex == FirstSystem(msgs)
  {
    systemIndex := -1;
    var i := 0;
    while i < |msgs|
      invariant 0 <= i <= |msgs|
      invariant forall j :: 0 <= j < i ==> !IsSystem(msgs[j])
    {
      if IsSystem(msgs[i]) {
        systemIndex := i;
        break;
      }
      i := i + 1;
    }
  }

  /**
   * The message sequence with the memory merged in. With a system message, only the first
   * one changes: its content (missing counts as "") gets the memory appended. Without one,
   * a new system message with the persona and the memory is put in front of the others.
   */
  function WithMemory(msgs: seq<Message>, memoryContext: string): (r: seq<Message>)
    ensures var k := FirstSystem(msgs);
            k >= 0 ==>
              && |r| == |msgs|
              && r[k] == msgs[k].(content := Some(ContentText(msgs[k]) + memoryContext))
              && forall j :: 0 <= j < |msgs| && j != k ==> r[j] == msgs[j]
    ensures FirstSystem(msgs) == -1 ==>
              |r| == |msgs| + 1 && r[0] == SystemMessage(Persona + memoryContext) && r[1..] == msgs
  {
    var k := FirstSystem(msgs);
    if k >= 0 then msgs[k := msgs[k].(content := Some(ContentText(msgs[k]) + memoryContext))]
    else [SystemMessage(Persona + memoryContext)] + msgs
  }

  /** sjson's `SetBytes(body, "messages", msgs)`: no result when the body cannot be rewritten. */
  function SetMessages(body: RequestBody, msgs: seq<Message>): (r: Option<RequestBody>)
    ensures r.Some? <==> body.rewritable
    ensures r.Some? ==> r.value.messages == Some(msgs) && r.value.others == body.others
  {
    if body.rewritable then Some(body.(messages := Some(msgs))) else None
  }

  /** sjson's `SetBytes(body, "messages.<i>.content", content)`. */
  function SetMessageContent(body: RequestBody, i: nat, content: string): (r: Option<RequestBody>)
    requires body.messages.Some? && i < |body.messages.value|
    ensures r.Some? <==> body.rewritable
    ensures r.Some? ==> r.value.others == body.others
    ensures r.Some? ==> r.value.messages == Some(body.messages.value[i := body.messages.value[i].(content := Some(content))])
  {
    var msgs := body.messages.value;
    SetMessages(body, msgs[i := msgs[i].(content := Some(content))])
  }

  /**
   * What `injectMemoryIntoRequest` returns. The original body comes back when the fetch
   * fails, when it yields no blocks, when `messages` is not an array, or when the rewrite
   * fails; a disabled client or one without an agent never changes the body.
   */
  function Injected(client: Client, fetch: FetchOutcome, body: RequestBody): (r: RequestBody)
    ensures r.others == body.others && r.rewritable == body.rewritable
    ensures !client.config.enabled || client.config.agentID == "" ==> r == body
    ensures r != body ==> r.messages.Some? && body.messages.Some?
    ensures var fetched := FetchedBlocks(client.config, fetch);
            fetched.Success? && |fetched.value| > 0 && body.messages.Some? && body.rewritable ==>
              r.messages == Some(WithMemory(body.messages.value, Formatted(fetched.value)))
  {
    match FetchedBlocks(client.config, fetch)
    case Failure(_) => body
    case Success(blocks) =>
      if |blocks| == 0 || body.messages.None? || !body.rewritable then body
      else body.(messages := Some(WithMemory(body.messages.value, Formatted(blocks))))
  }

  /** The `newMessages` loop: the new message first, then every existing message in order. */
  method PrependMessage(first: Message, msgs: seq<Message>) returns (newMessages: seq<Message>)
    ensures newMessages == [first] + msgs
  {
    newMessages := [first];
    for i := 0 to |msgs|
      invariant newMessages == [first] + msgs[..i]
    {
      assert msgs[..i + 1] == msgs[..i] + [msgs[i]];
      newMessages := newMessages + [msgs[i]];
    }
    assert msgs[..|msgs|] == msgs;
  }

  /** `injectMemoryIntoRequest`, step by step. */
  method InjectMemoryIntoRequest(client: Client, fetch: FetchOutcome, body: RequestBody) returns (out: RequestBody)
    ensures out == Injected(client, fetch, body)
  {
    var blocks := GetMemory(client, fetch);
    if blocks.Failure? {
      return body;
    }
    if |blocks.value| == 0 {
      return body;
    }
    var memoryContext := FormatMemoryForInjection(blocks.value);
    if body.messages.None? {
      return body;
    }
    var msgs := body.messages.value;
    ghost var merged := WithMemory(msgs, memoryContext);
    var systemIndex := FindSystemIndex(msgs);
    var modifiedBody: Option<RequestBody>;
    if systemIndex >= 0 {
      var existingContent := ContentText(msgs[systemIndex]);
      modifiedBody := SetMessageContent(body, systemIndex, existingContent + memoryContext);
      assert modifiedBody.Some? ==> modifiedBody.value.messages == Some(merged);
    } else {
      var newMessages := PrependMessage(SystemMessage(Persona + memoryContext), msgs);
      assert newMessages == merged;
      modifiedBody := SetMessages(body, newMessages);
    }
    if modifiedBody.None? {
      return body;
    }
    return modifiedBody.value;
  }

  /**
   * The injector changes the body exactly when none of the fallbacks applies: the rendered
   * memory is never empty, so a merge always shows in the result.
   */
  lemma InjectedUnchangedIff(client: Client, fetch: FetchOutcome, body: RequestBody)
    ensures var fetched := FetchedBlocks(client.config, fetch);
            Injected(client, fetch, body) == body <==>
              fetched.Failure? || |fetched.value| == 0 || body.messages.None? || !body.rewritable
  {
    var fetched := FetchedBlocks(client.config, fetch);
    if fetched.Success? && |fetched.value| > 0 && body.messages.Some? && body.rewritable {
      var msgs := body.messages.value;
      var memoryContext := Formatted(fetched.value);
      var r := WithMemory(msgs, memoryContext);
      var k := FirstSystem(msgs);
      if k >= 0 {
        assert |ContentText(r[k])| > |ContentText(msgs[k])|;
        assert r != msgs;
      } else {
        assert |r| != |msgs|;
      }
    }
  }

  /** Injection never changes which user message the request carries. */
  lemma InjectionKeepsUserMessage(client: Client, fetch: FetchOutcome, body: RequestBody)
    ensures UserMessageOf(Injected(client, fetch, body)) == UserMessageOf(body)
  {
    var r := Injected(client, fetch, body);
    if r != body {
      var msgs := body.messages.value;
      var memoryContext := Formatted(FetchedBlocks(client.config, fetch).value);
      var k := FirstSystem(msgs);
      if k >= 0 {
        assert WithMemory(msgs, memoryContext) == msgs[k := msgs[k].(content := Some(ContentText(msgs[k]) + memoryContext))];
        LastUserContentReplace(msgs, k, msgs[k].(content := Some(ContentText(msgs[k]) + memoryContext)));
      } else {
        LastUserContentPrepend(SystemMessage(Persona + memoryContext), msgs);
      }
    }
  }

  /**
   * After the merge the first system message is the one that existed before (or the new
   * one at index 0), and its content ends with the rendered memory.
   */
  lemma MemoryLandsInFirstSystem(msgs: seq<Message>, memoryContext: string)
    ensures var r := WithMemory(msgs, memoryContext);
            var k := FirstSystem(r);
            && k == (if FirstSystem(msgs) >= 0 then FirstSystem(msgs) else 0)
            && |ContentText(r[k])| >= |memoryContext|
            && ContentText(r[k])[|ContentText(r[k])| - |memoryContext|..] == memoryContext
  {
    var r := WithMemory(msgs, memoryContext);
    var k0 := FirstSystem(msgs);
    var want := if k0 >= 0 then k0 else 0;
    assert IsSystem(r[want]);
    assert forall j :: 0 <= j < want ==> !IsSystem(r[j]);
    var k := FirstSystem(r);
    assert k == want;
    var c := ContentText(r[k]);
    if k0 >= 0 {
      assert c == ContentText(msgs[k0]) + memoryContext;
    } else {
      assert c == Persona + memoryContext;
    }
  }
}
