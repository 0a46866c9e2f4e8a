// The durable message union of the Agent context. User content is kept as the
// event it parses to, because only the parsed form has a meaning for the model.
module Messages {
  import opened Prelude
  import opened Text

  datatype ToolCall = ToolCall(id: string, name: string, args: string)

  // highPriority == 0 stands for an absent highPriorityThroughRowId.
  datatype Cursors = Cursors(disclosed: nat, handled: nat, highPriority: nat)

  datatype Delta = Delta(mailbox: string, throughRowId: int, high: bool)

  datatype UserContent =
    | Text(text: string)
    | AttentionState(state: map<string, Cursors>)
    | ConversationDeltas(mailboxes: seq<Delta>)
    | InboxUpdate(mailbox: string, throughRowId: int)
    | InboxNotification(mailbox: string, throughRowId: int, highInterrupt: bool)
    | MailboxHandled(mailbox: string, throughRowId: int)

  // The text of a tool result, and whether JSON.parse accepts it once trimmed.
  datatype ToolContent = ToolContent(text: string, json: bool)

  datatype Message =
    | User(content: UserContent)
    | Assistant(text: string, toolCalls: seq<ToolCall>, nativeBlocks: Option<string>)
    | Tool(toolCallId: string, result: ToolContent)

  function CallIds(calls: seq<ToolCall>): (ids: seq<string>)
    ensures |ids| == |calls|
    ensures forall k :: 0 <= k < |calls| ==> ids[k] == calls[k].id
  {
    seq(|calls|, k requires 0 <= k < |calls| => calls[k].id)
  }

  // Every tool-call id announced by the assistant messages, in order.
  function AllCallIds(ms: seq<Message>): seq<string> {
    if ms == [] then []
    else AllCallIds(ms[..|ms| - 1])
         + (if ms[|ms| - 1].Assistant? then CallIds(ms[|ms| - 1].toolCalls) else [])
  }

  lemma {:induction false} AllCallIdsConcat(a: seq<Message>, b: seq<Message>)
    ensures AllCallIds(a + b) == AllCallIds(a) + AllCallIds(b)
  {
    if b == [] {
      assert a + b == a;
    } else {
      var n := |b| - 1;
      assert (a + b)[..|a + b| - 1] == a + b[..n];
      AllCallIdsConcat(a, b[..n]);
    }
  }

  // A result that opens like JSON has to be JSON.
  predicate ContentOk(content: ToolContent) {
    var trimmed := Trim(content.text);
    trimmed != "" && (trimmed[0] == '{' || trimmed[0] == '[') ==> content.json
  }

  // What the field checks insist on: no id or name trims to nothing, and results are readable.
  predicate FieldsOk(m: Message) {
    match m
    case User(_) => true
    case Assistant(_, calls, _) =>
      forall k :: 0 <= k < |calls| ==> !Blank(calls[k].id) && !Blank(calls[k].name)
    case Tool(id, content) => !Blank(id) && ContentOk(content)
  }

  predicate AllFieldsOk(ms: seq<Message>) {
    forall i :: 0 <= i < |ms| ==> FieldsOk(ms[i])
  }
}
