/**
 * The chat-completion JSON as the pipeline sees it: a request whose `messages` field is a
 * sequence of messages, and a response whose first choice carries the assistant's text.
 * Only the fields the pipeline reads or writes are modelled; everything else is kept as
 * opaque `others`.
 */
module Chat {
  import opened Wrappers

  /**
   * One element of `messages`. `role` and `content` are None when the field is missing
   * (or the element is not an object); `others` holds every other field untouched.
   */
  datatype Message = Message(role: Option<string>, content: Option<string>, others: map<string, string>)

  /**
   * A request body. `messages` is None when the field is absent or is not a JSON array.
   * `rewritable` is false for text that the path reader accepts but the path writer
   * (sjson) refuses to rewrite; on such a body every rewrite yields no bytes.
   */
  datatype RequestBody = RequestBody(messages: Option<seq<Message>>, others: map<string, string>, rewritable: bool)

  /** One element of `choices`; `content` is `message.content`, None when either is missing. */
  datatype Choice = Choice(content: Option<string>)

  /**
   * A response body; `choices` is None when absent or not an array. A streamed response is
   * read as its first `data:` chunk, whose first choice holds `delta` and no `message`:
   * `choices` is present and `choices[0].content` is None.
   */
  datatype ResponseBody = ResponseBody(choices: Option<seq<Choice>>)

  /** `msg.Get("role").String()`: a missing role reads as "". */
  function RoleText(m: Message): string {
    m.role.GetOr("")
  }

  /** `msg.Get("content").String()`: missing content reads as "". */
  function ContentText(m: Message): string {
    m.content.GetOr("")
  }

  predicate IsUser(m: Message) {
    RoleText(m) == "user"
  }

  predicate IsSystem(m: Message) {
    RoleText(m) == "system"
  }

  /** The content of the last message whose role is "user", "" when there is none. */
  function LastUserContent(msgs: seq<Message>): string
    decreases |msgs|
  {
    if |msgs| == 0 then ""
    else if IsUser(msgs[|msgs| - 1]) then ContentText(msgs[|msgs| - 1])
    else LastUserContent(msgs[..|msgs| - 1])
  }

  /** What `extractUserMessage` computes: "" when `messages` is not an array. */
  function UserMessageOf(body: RequestBody): string {
    match body.messages
    case None => ""
    case Some(msgs) => LastUserContent(msgs)
  }

  /**
   * The user message is the content of the user message at index `k` when no later message
   * has role "user", whether or not an earlier user message had content.
   */
  lemma {:induction false} LastUserContentIsLast(msgs: seq<Message>, k: nat)
    requires k < |msgs| && IsUser(msgs[k])
    requires forall j :: k < j < |msgs| ==> !IsUser(msgs[j])
    ensures LastUserContent(msgs) == ContentText(msgs[k])
    decreases |msgs|
  {
    if k < |msgs| - 1 {
      var init := msgs[..|msgs| - 1];
      assert forall j :: k < j < |init| ==> init[j] == msgs[j];
      LastUserContentIsLast(init, k);
    }
  }

  /** Without any user message the user message is "". */
  lemma {:induction false} LastUserContentNone(msgs: seq<Message>)
    requires forall j :: 0 <= j < |msgs| ==> !IsUser(msgs[j])
    ensures LastUserContent(msgs) == ""
    decreases |msgs|
  {
    if |msgs| > 0 {
      LastUserContentNone(msgs[..|msgs| - 1]);
    }
  }

  /** Replacing a non-user message by another non-user message leaves the user message alone. */
  lemma {:induction false} LastUserContentReplace(msgs: seq<Message>, k: nat, m: Message)
    requires k < |msgs| && !IsUser(msgs[k]) && !IsUser(m)
    ensures LastUserContent(msgs[k := m]) == LastUserContent(msgs)
    decreases |msgs|
  {
    var n := |msgs|;
    if k < n - 1 {
      assert msgs[k := m][..n - 1] == msgs[..n - 1][k := m];
      LastUserContentReplace(msgs[..n - 1], k, m);
    } else {
      assert msgs[k := m][..n - 1] == msgs[..n - 1];
    }
  }

  /** Putting a non-user message in front leaves the user message alone. */
  lemma {:induction false} LastUserContentPrepend(m: Message, msgs: seq<Message>)
    requires !IsUser(m)
    ensures LastUserContent([m] + msgs) == LastUserContent(msgs)
    decreases |msgs|
  {
    if |msgs| > 0 {
      assert ([m] + msgs)[..|msgs|] == [m] + msgs[..|msgs| - 1];
      LastUserContentPrepend(m, msgs[..|msgs| - 1]);
    } else {
      assert ([m] + msgs)[..0] == [];
    }
  }

  /** `extractUserMessage`: the loop overwrites its answer at every user message it meets. */
  method ExtractUserMessage(body: RequestBody) returns (lastUserMsg: string)
    ensures lastUserMsg == UserMessageOf(body)
  {
    if body.messages.None? {
      return "";
    }
    var msgs := body.messages.value;
    lastUserMsg := "";
    for i := 0 to |msgs|
      invariant lastUserMsg == LastUserContent(msgs[..i])
    {
      assert msgs[..i + 1][..i] == msgs[..i];
      if IsUser(msgs[i]) {
        lastUserMsg := ContentText(msgs[i]);
      }
    }
    assert msgs[..|msgs|] == msgs;
  }

  /** The value at the path `choices.0.message.content`, None when the path is missing. */
  function FirstChoiceContent(resp: ResponseBody): Option<string> {
    match resp.choices
    case Some(cs) => if |cs| > 0 then cs[0].content else None
    case None => None
  }

  /**
   * `extractAssistantResponse`: the first choice's message content when it is non-empty,
   * and "" otherwise (so a streamed response, read as its first chunk, whose first choice
   * has no `message`, yields "").
   */
  function ExtractAssistantResponse(resp: ResponseBody): (r: string)
    ensures r != "" ==> FirstChoiceContent(resp) == Some(r)
    ensures r == "" <==> FirstChoiceContent(resp) == None || FirstChoiceContent(resp) == Some("")
    ensures resp.choices == None ==> r == ""
    ensures FirstChoiceContent(resp).None? ==> r == ""
  {
    var content := FirstChoiceContent(resp).GetOr("");
    if content != "" then content else ""
  }
}
