/** Translation of a transcript into OpenAI chat messages, and what holds of the
    chat of every transcript a tool loop can build. */
module OpenRouter {
  import opened Options
  import opened LlmClient
  import Drafts

  datatype Call = Call(id: string, name: string, arguments: string)
  /** An image becomes a part with its data URI, which its media type and data fix. */
  datatype Piece = TextPiece(text: string) | ImagePiece(image: Image)
  /** The text of a tool message: the joined texts, the texts followed by a note that
      the images are attached below, or the note that the result was empty. */
  datatype ToolBody = Said(text: string) | SaidWithImages(texts: seq<string>) | EmptyResult
  datatype ChatMessage =
    | SystemSays(text: string)
    | AssistantSays(said: Option<string>, calls: seq<Call>)
    | ToolSays(id: string, body: ToolBody)
    | UserText(text: string)
    | UserParts(parts: seq<Piece>)

  datatype TranslateError = UnsupportedBlock | UnsupportedRole
  datatype Translated = Chat(messages: seq<ChatMessage>) | Unsupported(error: TranslateError)

  function PartTexts(parts: seq<ResultPart>): seq<string> {
    if parts == [] then []
    else
      var last := parts[|parts| - 1];
      var earlier := PartTexts(parts[..|parts| - 1]);
      if last.TextPart? then earlier + [last.text] else earlier
  }

  function PartImages(parts: seq<ResultPart>): seq<Piece> {
    if parts == [] then []
    else
      var last := parts[|parts| - 1];
      var earlier := PartImages(parts[..|parts| - 1]);
      if last.ImagePart? then earlier + [ImagePiece(last.image)] else earlier
  }

  function Body(output: ToolOutput): ToolBody {
    match output
    case PlainText(text) => Said(text)
    case Parts(parts) =>
      var texts := PartTexts(parts);
      if PartImages(parts) != [] then SaidWithImages(texts)
      else if Drafts.Joined(texts, "\n") == "" then EmptyResult
      else Said(Drafts.Joined(texts, "\n"))
  }

  function HoistedFrom(output: ToolOutput): seq<Piece> {
    if output.Parts? then PartImages(output.parts) else []
  }

  /** The tool messages of a user turn, in the order of its results. */
  function ToolMessages(blocks: seq<Block>): seq<ChatMessage> {
    if blocks == [] then []
    else
      var last := blocks[|blocks| - 1];
      var earlier := ToolMessages(blocks[..|blocks| - 1]);
      if last.ToolResult? then earlier + [ToolSays(last.toolUseId, Body(last.output))] else earlier
  }

  /** The images of its results. */
  function Hoisted(blocks: seq<Block>): seq<Piece> {
    if blocks == [] then []
    else
      var last := blocks[|blocks| - 1];
      var earlier := Hoisted(blocks[..|blocks| - 1]);
      if last.ToolResult? then earlier + HoistedFrom(last.output) else earlier
  }

  /** Its own text and images. */
  function OwnParts(blocks: seq<Block>): seq<Piece> {
    if blocks == [] then []
    else
      var last := blocks[|blocks| - 1];
      var earlier := OwnParts(blocks[..|blocks| - 1]);
      match last
      case Text(text) => earlier + [TextPiece(text)]
      case Picture(image) => earlier + [ImagePiece(image)]
      case _ => earlier
  }

  function Texts(blocks: seq<Block>): seq<string> {
    if blocks == [] then []
    else
      var last := blocks[|blocks| - 1];
      var earlier := Texts(blocks[..|blocks| - 1]);
      if last.Text? then earlier + [last.text] else earlier
  }

  function Calls(blocks: seq<Block>): seq<Call> {
    if blocks == [] then []
    else
      var last := blocks[|blocks| - 1];
      var earlier := Calls(blocks[..|blocks| - 1]);
      if last.ToolUse? then earlier + [Call(last.id, last.name, last.input)] else earlier
  }

  predicate SupportedInUserTurn(block: Block) {
    block.Text? || block.Picture? || block.ToolResult?
  }

  predicate SupportedMessage(message: Message) {
    && message.role != OtherRole
    && (message.role == User && message.content.Blocks? ==>
          forall i :: 0 <= i < |message.content.blocks| ==> SupportedInUserTurn(message.content.blocks[i]))
  }

  function AssistantChat(content: Content): ChatMessage {
    match content
    case Plain(text) => AssistantSays(Some(text), [])
    case Blocks(blocks) =>
      var text := Drafts.Joined(Texts(blocks), "\n");
      AssistantSays(if text == "" then None else Some(text), Calls(blocks))
  }

  function PartsMessage(parts: seq<Piece>): seq<ChatMessage> {
    if parts == [] then [] else [UserParts(parts)]
  }

  function UserChat(content: Content): seq<ChatMessage> {
    match content
    case Plain(text) => [UserText(text)]
    case Blocks(blocks) => ToolMessages(blocks) + PartsMessage(OwnParts(blocks) + Hoisted(blocks))
  }

  function MessageChat(message: Message): seq<ChatMessage> {
    if message.role == Assistant then [AssistantChat(message.content)] else UserChat(message.content)
  }

  /** The chat of the first `n` messages. */
  function ChatUpTo(messages: seq<Message>, n: nat): seq<ChatMessage>
    requires n <= |messages|
  {
    if n == 0 then [] else ChatUpTo(messages, n - 1) + MessageChat(messages[n - 1])
  }

  function ChatOf(messages: seq<Message>): seq<ChatMessage> {
    ChatUpTo(messages, |messages|)
  }

  function SystemChat(system: Option<string>): seq<ChatMessage> {
    if system.Some? then [SystemSays(system.value)] else []
  }

  lemma ConcatAssociates<T>(a: seq<T>, b: seq<T>, c: seq<T>)
    ensures a + b + c == a + (b + c)
  {
  }

  lemma AppendsTwo<T>(a: seq<T>, x: T, y: T)
    ensures a + [x, y] == a + [x] + [y]
  {
  }

  lemma Regroups<T>(a: seq<T>, x: T, b: seq<T>, c: seq<T>)
    ensures a + [x] + (b + c) == a + ([x] + b + c)
  {
  }

  method TranslateParts(output: ToolOutput) returns (body: ToolBody, hoisted: seq<Piece>)
    ensures body == Body(output) && hoisted == HoistedFrom(output)
  {
    if output.PlainText? {
      return Said(output.text), [];
    }
    var texts: seq<string> := [];
    hoisted := [];
    for i := 0 to |output.parts|
      invariant texts == PartTexts(output.parts[..i]) && hoisted == PartImages(output.parts[..i])
    {
      assert output.parts[..i + 1][..i] == output.parts[..i];
      match output.parts[i]
      case TextPart(t) => texts := texts + [t];
      case ImagePart(image) => hoisted := hoisted + [ImagePiece(image)];
      case OtherPart =>
    }
    assert output.parts[..|output.parts|] == output.parts;
    if hoisted != [] {
      return SaidWithImages(texts), hoisted;
    }
    var text := Drafts.Joined(texts, "\n");
    body := if text == "" then EmptyResult else Said(text);
  }

  method TranslateUserBlocks(blocks: seq<Block>) returns (supported: bool, tools: seq<ChatMessage>, parts: seq<Piece>)
    ensures supported <==> forall i :: 0 <= i < |blocks| ==> SupportedInUserTurn(blocks[i])
    ensures supported ==> tools == ToolMessages(blocks) && parts == OwnParts(blocks) + Hoisted(blocks)
  {
    tools, parts := [], [];
    var hoisted: seq<Piece> := [];
    for i := 0 to |blocks|
      invariant forall k :: 0 <= k < i ==> SupportedInUserTurn(blocks[k])
      invariant tools == ToolMessages(blocks[..i]) && parts == OwnParts(blocks[..i]) && hoisted == Hoisted(blocks[..i])
    {
      assert blocks[..i + 1][..i] == blocks[..i];
      match blocks[i]
      case Text(text) => parts := parts + [TextPiece(text)];
      case Picture(image) => parts := parts + [ImagePiece(image)];
      case ToolResult(id, output, _) =>
        var body, images := TranslateParts(output);
        tools := tools + [ToolSays(id, body)];
        hoisted := hoisted + images;
      case _ => return false, [], [];
    }
    assert blocks[..|blocks|] == blocks;
    return true, tools, parts + hoisted;
  }

  method TranslateAssistant(content: Content) returns (message: ChatMessage)
    ensures message == AssistantChat(content)
  {
    if content.Plain? {
      return AssistantSays(Some(content.text), []);
    }
    var blocks := content.blocks;
    var texts: seq<string>, calls: seq<Call> := [], [];
    for i := 0 to |blocks|
      invariant texts == Texts(blocks[..i]) && calls == Calls(blocks[..i])
    {
      assert blocks[..i + 1][..i] == blocks[..i];
      match blocks[i]
      case Text(text) => texts := texts + [text];
      case ToolUse(id, name, input) => calls := calls + [Call(id, name, input)];
      case _ =>
    }
    assert blocks[..|blocks|] == blocks;
    var text := Drafts.Joined(texts, "\n");
    return AssistantSays(if text == "" then None else Some(text), calls);
  }

  method TranslateMessage(message: Message) returns (result: Translated)
    ensures result.Chat? <==> SupportedMessage(message)
    ensures result.Chat? ==> result.messages == MessageChat(message)
  {
    if message.role == Assistant {
      var translated := TranslateAssistant(message.content);
      return Chat([translated]);
    }
    if message.role != User {
      return Unsupported(UnsupportedRole);
    }
    if message.content.Plain? {
      return Chat([UserText(message.content.text)]);
    }
    var supported, tools, parts := TranslateUserBlocks(message.content.blocks);
    if !supported {
      return Unsupported(UnsupportedBlock);
    }
    return Chat(if parts == [] then tools else tools + [UserParts(parts)]);
  }

  /** Appends the chat of the next message, unless it is unsupported. */
  method TranslateNext(messages: seq<Message>, i: nat, out: seq<ChatMessage>) returns (result: Translated)
    requires i < |messages| && out == ChatUpTo(messages, i)
    ensures result.Chat? <==> SupportedMessage(messages[i])
    ensures result.Chat? ==> result.messages == ChatUpTo(messages, i + 1)
  {
    result := TranslateMessage(messages[i]);
    if result.Chat? {
      result := Chat(out + result.messages);
    }
  }

  /** Translates every message, or refuses the first unsupported role or block. */
  method TranslateAll(messages: seq<Message>) returns (result: Translated)
    ensures result.Chat? <==> forall i :: 0 <= i < |messages| ==> SupportedMessage(messages[i])
    ensures result.Chat? ==> result.messages == ChatOf(messages)
  {
    result := Chat([]);
    for i := 0 to |messages|
      invariant forall k :: 0 <= k < i ==> SupportedMessage(messages[k])
      invariant result.Chat? && result.messages == ChatUpTo(messages, i)
    {
      result := TranslateNext(messages, i, result.messages);
      if result.Unsupported? {
        return;
      }
    }
  }

  method TranslateMessages(messages: seq<Message>, system: Option<string>) returns (result: Translated)
    ensures result.Chat? <==> forall i :: 0 <= i < |messages| ==> SupportedMessage(messages[i])
    ensures result.Chat? ==> result.messages == SystemChat(system) + ChatOf(messages)
  {
    result := TranslateAll(messages);
    if result.Chat? {
      result := Chat(SystemChat(system) + result.messages);
    }
  }

  // ---------------------------------------------------------------------------
  // The chat of a tool loop
  // ---------------------------------------------------------------------------

  /** Message `m` is where a call of the assistant message `i` is to be answered. */
  predicate Called(chat: seq<ChatMessage>, i: nat, m: nat) {
    i < |chat| && chat[i].AssistantSays? && i < m <= i + |chat[i].calls|
  }

  /** Message `m` answers the call of message `i` that is due there. */
  predicate Answers(chat: seq<ChatMessage>, i: nat, m: nat) {
    && Called(chat, i, m)
    && m < |chat|
    && chat[m].ToolSays?
    && chat[m].id == chat[i].calls[m - i - 1].id
  }

  /** Every call is answered, in order and right after its message, and a tool
      message is never anything else than such an answer. */
  ghost predicate Paired(chat: seq<ChatMessage>) {
    && (forall i: nat, m: nat :: Called(chat, i, m) ==> Answers(chat, i, m))
    && (forall m: nat :: m < |chat| && chat[m].ToolSays? ==> exists i: nat :: Answers(chat, i, m))
  }

  lemma AnswersInLeft(a: seq<ChatMessage>, b: seq<ChatMessage>, i: nat, m: nat)
    requires Answers(a, i, m)
    ensures Answers(a + b, i, m)
  {
  }

  lemma AnswersInRight(a: seq<ChatMessage>, b: seq<ChatMessage>, i: nat, m: nat)
    requires Answers(b, i, m)
    ensures Answers(a + b, |a| + i, |a| + m)
  {
    assert (a + b)[|a| + i] == b[i] && (a + b)[|a| + m] == b[m];
  }

  lemma PairedConcat(a: seq<ChatMessage>, b: seq<ChatMessage>)
    requires Paired(a) && Paired(b)
    ensures Paired(a + b)
  {
    var c := a + b;
    forall i: nat, m: nat | Called(c, i, m)
      ensures Answers(c, i, m)
    {
      if i < |a| {
        assert Called(a, i, m);
        AnswersInLeft(a, b, i, m);
      } else {
        assert Called(b, i - |a|, m - |a|);
        AnswersInRight(a, b, i - |a|, m - |a|);
      }
    }
    forall m: nat | m < |c| && c[m].ToolSays?
      ensures exists i: nat :: Answers(c, i, m)
    {
      if m < |a| {
        var i: nat :| Answers(a, i, m);
        AnswersInLeft(a, b, i, m);
      } else {
        var i: nat :| Answers(b, i, m - |a|);
        AnswersInRight(a, b, i, m - |a|);
      }
    }
  }

  /** A message with calls, its answers, and at most one message of parts. */
  lemma AnsweredRun(head: ChatMessage, tools: seq<ChatMessage>, tail: seq<Piece>)
    requires head.AssistantSays? && |tools| == |head.calls|
    requires forall k :: 0 <= k < |tools| ==> tools[k].ToolSays? && tools[k].id == head.calls[k].id
    ensures Paired([head] + tools + PartsMessage(tail))
  {
    var chat := [head] + tools + PartsMessage(tail);
    forall m: nat | 1 <= m <= |tools|
      ensures Answers(chat, 0, m)
    {
      assert chat[m] == tools[m - 1];
    }
    assert forall k :: 1 <= k <= |tools| ==> Answers(chat, 0, k);
    forall m: nat | m < |chat| && chat[m].ToolSays?
      ensures exists i: nat :: Answers(chat, i, m)
    {
      assert Answers(chat, 0, m);
    }
  }

  /** The results of a turn translate to one tool message per call, same ids, same order. */
  lemma {:induction false} ResultsAnswerCalls(blocks: seq<Block>, executions: seq<Execution>)
    requires |blocks| == |executions|
    ensures var results := ResultsOf(blocks, executions);
            && |ToolMessages(results)| == |Calls(blocks)|
            && (forall k :: 0 <= k < |Calls(blocks)| ==>
                  ToolMessages(results)[k].ToolSays? && ToolMessages(results)[k].id == Calls(blocks)[k].id)
            && OnlyResults(results)
  {
    if blocks != [] {
      var n := |blocks| - 1;
      ResultsAnswerCalls(blocks[..n], executions[..n]);
      if blocks[n].ToolUse? {
        var earlier := ResultsOf(blocks[..n], executions[..n]);
        assert (earlier + [ResultOf(blocks[n].id, executions[n])])[..|earlier|] == earlier;
      }
    }
  }

  predicate OnlyResults(blocks: seq<Block>) {
    forall k :: 0 <= k < |blocks| ==> blocks[k].ToolResult?
  }

  lemma {:induction false} ResultsHaveNoParts(results: seq<Block>)
    requires OnlyResults(results)
    ensures OwnParts(results) == []
  {
    if results != [] {
      ResultsHaveNoParts(results[..|results| - 1]);
    }
  }

  /** What one tool turn becomes: the assistant message, its answers, and then
      whatever images the answers carried. */
  function RoundChat(reply: Reply): seq<ChatMessage>
    requires WellFormed(reply)
  {
    var results := ResultsOf(reply.blocks, reply.executions);
    [AssistantChat(Blocks(reply.blocks))] + ToolMessages(results) + PartsMessage(Hoisted(results))
  }

  lemma RoundIsPaired(reply: Reply)
    requires WellFormed(reply)
    ensures Paired(RoundChat(reply))
  {
    ResultsAnswerCalls(reply.blocks, reply.executions);
    var results := ResultsOf(reply.blocks, reply.executions);
    AnsweredRun(AssistantChat(Blocks(reply.blocks)), ToolMessages(results), Hoisted(results));
  }

  lemma {:induction false} ChatOfPrefix(messages: seq<Message>, last: Message, n: nat)
    requires n <= |messages|
    ensures ChatUpTo(messages + [last], n) == ChatUpTo(messages, n)
  {
    if n > 0 {
      ChatOfPrefix(messages, last, n - 1);
      assert (messages + [last])[n - 1] == messages[n - 1];
    }
  }

  lemma ChatSnoc(messages: seq<Message>, last: Message)
    ensures ChatOf(messages + [last]) == ChatOf(messages) + MessageChat(last)
  {
    ChatOfPrefix(messages, last, |messages|);
  }

  lemma ChatOfResults(results: seq<Block>)
    requires OnlyResults(results)
    ensures UserChat(Blocks(results)) == ToolMessages(results) + PartsMessage(Hoisted(results))
  {
    ResultsHaveNoParts(results);
    assert OwnParts(results) + Hoisted(results) == Hoisted(results);
  }

  lemma AreResults(reply: Reply)
    requires WellFormed(reply)
    ensures OnlyResults(ResultsOf(reply.blocks, reply.executions))
  {
    ResultsAnswerCalls(reply.blocks, reply.executions);
  }

  lemma ChatOfRound(before: seq<Message>, reply: Reply)
    requires WellFormed(reply)
    ensures ChatOf(before + Round(reply)) == ChatOf(before) + RoundChat(reply)
  {
    AreResults(reply);
    var results := ResultsOf(reply.blocks, reply.executions);
    var first, second := Message(Assistant, Blocks(reply.blocks)), Message(User, Blocks(results));
    AppendsTwo(before, first, second);
    ChatSnoc(before + [first], second);
    ChatSnoc(before, first);
    ChatOfResults(results);
    Regroups(ChatOf(before), AssistantChat(first.content), ToolMessages(results), PartsMessage(Hoisted(results)));
  }

  function RoundsChat(replies: seq<Reply>): seq<ChatMessage>
    requires forall i :: 0 <= i < |replies| ==> WellFormed(replies[i])
  {
    if replies == [] then [] else RoundsChat(replies[..|replies| - 1]) + RoundChat(replies[|replies| - 1])
  }

  /** The opening turn of a loop: text and images. */
  predicate Opening(initial: seq<Block>) {
    forall i :: 0 <= i < |initial| ==> initial[i].Text? || initial[i].Picture?
  }

  lemma {:induction false} OpeningHasNoTools(initial: seq<Block>)
    requires Opening(initial)
    ensures ToolMessages(initial) == [] && Hoisted(initial) == []
  {
    if initial != [] {
      OpeningHasNoTools(initial[..|initial| - 1]);
    }
  }

  lemma ChatOfOpening(initial: seq<Block>)
    requires Opening(initial)
    ensures ChatOf([Message(User, Blocks(initial))]) == PartsMessage(OwnParts(initial))
  {
    OpeningHasNoTools(initial);
    var opening := Message(User, Blocks(initial));
    ChatSnoc([], opening);
    assert [] + [opening] == [opening];
    assert OwnParts(initial) + Hoisted(initial) == OwnParts(initial);
  }

  lemma ChatGrowsByRound(before: seq<Message>, opening: seq<ChatMessage>, rounds: seq<ChatMessage>, reply: Reply)
    requires WellFormed(reply) && ChatOf(before) == opening + rounds
    ensures ChatOf(before + Round(reply)) == opening + (rounds + RoundChat(reply))
  {
    ChatOfRound(before, reply);
    ConcatAssociates(opening, rounds, RoundChat(reply));
  }

  lemma AppendsNothing<T>(a: seq<T>)
    ensures a + [] == a
  {
  }

  /** The chat is the opening followed by the turns, one after the other. */
  lemma {:induction false} TranscriptChat(initial: seq<Block>, replies: seq<Reply>)
    requires Opening(initial)
    requires forall i :: 0 <= i < |replies| ==> WellFormed(replies[i])
    ensures ChatOf(Transcript(initial, replies)) == PartsMessage(OwnParts(initial)) + RoundsChat(replies)
  {
    if replies == [] {
      ChatOfOpening(initial);
      AppendsNothing(PartsMessage(OwnParts(initial)));
    } else {
      var n := |replies| - 1;
      TranscriptChat(initial, replies[..n]);
      ChatGrowsByRound(Transcript(initial, replies[..n]), PartsMessage(OwnParts(initial)), RoundsChat(replies[..n]),
        replies[n]);
    }
  }

  lemma {:induction false} TranscriptIsSupported(initial: seq<Block>, replies: seq<Reply>)
    requires Opening(initial)
    requires forall i :: 0 <= i < |replies| ==> WellFormed(replies[i])
    ensures forall i :: 0 <= i < |Transcript(initial, replies)| ==> SupportedMessage(Transcript(initial, replies)[i])
  {
    if replies != [] {
      var n := |replies| - 1;
      TranscriptIsSupported(initial, replies[..n]);
      ResultsAnswerCalls(replies[n].blocks, replies[n].executions);
      var earlier := Transcript(initial, replies[..n]);
      forall i | 0 <= i < |Transcript(initial, replies)|
        ensures SupportedMessage(Transcript(initial, replies)[i])
      {
        assert i < |earlier| ==> Transcript(initial, replies)[i] == earlier[i];
        assert i >= |earlier| ==> Transcript(initial, replies)[i] == Round(replies[n])[i - |earlier|];
      }
    }
  }

  lemma {:induction false} RoundsArePaired(replies: seq<Reply>)
    requires forall i :: 0 <= i < |replies| ==> WellFormed(replies[i])
    ensures Paired(RoundsChat(replies))
  {
    if replies != [] {
      RoundsArePaired(replies[..|replies| - 1]);
      RoundIsPaired(replies[|replies| - 1]);
      PairedConcat(RoundsChat(replies[..|replies| - 1]), RoundChat(replies[|replies| - 1]));
    }
  }

  /** No calls and no answers: nothing to pair. */
  lemma OneMessageIsPaired(chat: seq<ChatMessage>)
    requires |chat| <= 1 && forall i :: 0 <= i < |chat| ==> !chat[i].AssistantSays? && !chat[i].ToolSays?
    ensures Paired(chat)
  {
  }

  lemma TranscriptIsPaired(initial: seq<Block>, replies: seq<Reply>)
    requires Opening(initial)
    requires forall i :: 0 <= i < |replies| ==> WellFormed(replies[i])
    ensures Paired(ChatOf(Transcript(initial, replies)))
  {
    TranscriptChat(initial, replies);
    RoundsArePaired(replies);
    OneMessageIsPaired(PartsMessage(OwnParts(initial)));
    PairedConcat(PartsMessage(OwnParts(initial)), RoundsChat(replies));
  }

  /** Every transcript a tool loop can build is accepted, and in its chat every tool
      call is answered right after the message that made it, once, in order. */
  lemma ToolLoopChatsArePaired(initial: seq<Block>, replies: seq<Reply>, system: Option<string>)
    requires Opening(initial)
    requires forall i :: 0 <= i < |replies| ==> WellFormed(replies[i])
    ensures forall i :: 0 <= i < |Transcript(initial, replies)| ==> SupportedMessage(Transcript(initial, replies)[i])
    ensures Paired(SystemChat(system) + ChatOf(Transcript(initial, replies)))
  {
    TranscriptIsSupported(initial, replies);
    TranscriptIsPaired(initial, replies);
    OneMessageIsPaired(SystemChat(system));
    PairedConcat(SystemChat(system), ChatOf(Transcript(initial, replies)));
  }

  // ---------------------------------------------------------------------------
  // Images
  // ---------------------------------------------------------------------------

  function PieceImages(parts: seq<Piece>): seq<Piece> {
    if parts == [] then []
    else
      var last := parts[|parts| - 1];
      var earlier := PieceImages(parts[..|parts| - 1]);
      if last.ImagePiece? then earlier + [last] else earlier
  }

  /** The images of a tool's output, in order. */
  function OutputImages(parts: seq<ResultPart>): seq<Piece> {
    if parts == [] then []
    else
      match parts[0]
      case ImagePart(image) => [ImagePiece(image)] + OutputImages(parts[1..])
      case _ => OutputImages(parts[1..])
  }

  lemma {:induction false} OutputImagesSnoc(parts: seq<ResultPart>, last: ResultPart)
    ensures OutputImages(parts + [last]) ==
            OutputImages(parts) + if last.ImagePart? then [ImagePiece(last.image)] else []
  {
    if parts == [] {
      assert ([] + [last])[1..] == [];
    } else {
      OutputImagesSnoc(parts[1..], last);
      assert (parts + [last])[1..] == parts[1..] + [last];
    }
  }

  lemma {:induction false} PartImagesAre(parts: seq<ResultPart>)
    ensures PartImages(parts) == OutputImages(parts)
  {
    if parts != [] {
      var n := |parts| - 1;
      PartImagesAre(parts[..n]);
      OutputImagesSnoc(parts[..n], parts[n]);
      assert parts[..n] + [parts[n]] == parts;
    }
  }

  function ImagesOfBlock(block: Block): seq<Piece> {
    match block
    case Picture(image) => [ImagePiece(image)]
    case ToolResult(_, Parts(parts), _) => OutputImages(parts)
    case _ => []
  }

  /** The images of a transcript turn, in order. */
  function BlockImages(blocks: seq<Block>): seq<Piece> {
    if blocks == [] then [] else BlockImages(blocks[..|blocks| - 1]) + ImagesOfBlock(blocks[|blocks| - 1])
  }

  function MessageImages(messages: seq<Message>): seq<Piece> {
    if messages == [] then []
    else
      var last := messages[|messages| - 1].content;
      var earlier := MessageImages(messages[..|messages| - 1]);
      if last.Blocks? then earlier + BlockImages(last.blocks) else earlier
  }

  function ChatImages(chat: seq<ChatMessage>): seq<Piece> {
    if chat == [] then []
    else
      var last := chat[|chat| - 1];
      var earlier := ChatImages(chat[..|chat| - 1]);
      if last.UserParts? then earlier + PieceImages(last.parts) else earlier
  }

  lemma {:induction false} ChatImagesConcat(a: seq<ChatMessage>, b: seq<ChatMessage>)
    ensures ChatImages(a + b) == ChatImages(a) + ChatImages(b)
  {
    if b == [] {
      assert a + b == a;
    } else {
      var n := |b| - 1;
      ChatImagesConcat(a, b[..n]);
      assert (a + b)[..|a + b| - 1] == a + b[..n];
    }
  }

  lemma {:induction false} ToolMessagesHaveNoImages(blocks: seq<Block>)
    ensures ChatImages(ToolMessages(blocks)) == []
  {
    if blocks != [] {
      ToolMessagesHaveNoImages(blocks[..|blocks| - 1]);
      var m := ToolMessages(blocks);
      if blocks[|blocks| - 1].ToolResult? {
        assert m[..|m| - 1] == ToolMessages(blocks[..|blocks| - 1]);
      }
    }
  }

  lemma {:induction false} PartImagesAreImages(parts: seq<ResultPart>)
    ensures PieceImages(PartImages(parts)) == PartImages(parts)
  {
    if parts != [] {
      var earlier := PartImages(parts[..|parts| - 1]);
      PartImagesAreImages(parts[..|parts| - 1]);
      if parts[|parts| - 1].ImagePart? {
        assert PartImages(parts)[..|earlier|] == earlier;
      } else {
        assert PartImages(parts) == earlier;
      }
    }
  }

  lemma {:induction false} PieceImagesConcat(a: seq<Piece>, b: seq<Piece>)
    ensures PieceImages(a + b) == PieceImages(a) + PieceImages(b)
  {
    if b == [] {
      assert a + b == a;
    } else {
      var n := |b| - 1;
      PieceImagesConcat(a, b[..n]);
      assert (a + b)[..|a + b| - 1] == a + b[..n];
    }
  }

  /** A turn of results: all its images are hoisted, in order. */
  lemma {:induction false} HoistedAreImages(results: seq<Block>)
    requires OnlyResults(results)
    ensures PieceImages(Hoisted(results)) == BlockImages(results)
  {
    if results != [] {
      var n := |results| - 1;
      HoistedAreImages(results[..n]);
      PieceImagesConcat(Hoisted(results[..n]), HoistedFrom(results[n].output));
      if results[n].output.Parts? {
        PartImagesAreImages(results[n].output.parts);
        PartImagesAre(results[n].output.parts);
      }
    }
  }

  lemma {:induction false} OpeningImages(initial: seq<Block>)
    requires Opening(initial)
    ensures PieceImages(OwnParts(initial)) == BlockImages(initial)
  {
    if initial != [] {
      var n := |initial| - 1;
      OpeningImages(initial[..n]);
      var own := OwnParts(initial);
      assert own[..|own| - 1] == OwnParts(initial[..n]);
    }
  }

  lemma {:induction false} AssistantHasNoImages(blocks: seq<Block>)
    requires forall i :: 0 <= i < |blocks| ==> blocks[i].Text? || blocks[i].ToolUse?
    ensures BlockImages(blocks) == []
  {
    if blocks != [] {
      AssistantHasNoImages(blocks[..|blocks| - 1]);
    }
  }

  lemma PartsMessageImages(parts: seq<Piece>)
    ensures ChatImages(PartsMessage(parts)) == PieceImages(parts)
  {
    if parts != [] {
      assert PartsMessage(parts)[..0] == [];
    }
  }

  lemma RoundImages(reply: Reply)
    requires WellFormed(reply)
    ensures ChatImages(RoundChat(reply)) == BlockImages(ResultsOf(reply.blocks, reply.executions))
  {
    var results := ResultsOf(reply.blocks, reply.executions);
    AreResults(reply);
    var head := [AssistantChat(Blocks(reply.blocks))];
    assert head[..0] == [];
    ChatImagesConcat(head, ToolMessages(results));
    ToolMessagesHaveNoImages(results);
    ChatImagesConcat(head + ToolMessages(results), PartsMessage(Hoisted(results)));
    PartsMessageImages(Hoisted(results));
    HoistedAreImages(results);
  }

  lemma MessageImagesSnoc(messages: seq<Message>, last: seq<Block>, role: Role)
    ensures MessageImages(messages + [Message(role, Blocks(last))]) == MessageImages(messages) + BlockImages(last)
  {
    assert (messages + [Message(role, Blocks(last))])[..|messages|] == messages;
  }

  lemma RoundMessageImages(before: seq<Message>, reply: Reply)
    requires WellFormed(reply)
    ensures MessageImages(before + Round(reply)) ==
            MessageImages(before) + BlockImages(ResultsOf(reply.blocks, reply.executions))
  {
    AssistantHasNoImages(reply.blocks);
    var results := ResultsOf(reply.blocks, reply.executions);
    var first := Message(Assistant, Blocks(reply.blocks));
    assert before + Round(reply) == before + [first] + [Message(User, Blocks(results))];
    MessageImagesSnoc(before, reply.blocks, Assistant);
    MessageImagesSnoc(before + [first], results, User);
  }

  /** Hoisting loses, repeats and reorders no image of a tool loop. */
  lemma {:induction false} ImagesAreKept(initial: seq<Block>, replies: seq<Reply>)
    requires Opening(initial)
    requires forall i :: 0 <= i < |replies| ==> WellFormed(replies[i])
    ensures ChatImages(ChatOf(Transcript(initial, replies))) == MessageImages(Transcript(initial, replies))
  {
    if replies == [] {
      ChatOfOpening(initial);
      PartsMessageImages(OwnParts(initial));
      OpeningImages(initial);
      MessageImagesSnoc([], initial, User);
      assert [] + [Message(User, Blocks(initial))] == [Message(User, Blocks(initial))];
    } else {
      var n := |replies| - 1;
      var before := Transcript(initial, replies[..n]);
      ImagesAreKept(initial, replies[..n]);
      ChatOfRound(before, replies[n]);
      ChatImagesConcat(ChatOf(before), RoundChat(replies[n]));
      RoundImages(replies[n]);
      RoundMessageImages(before, replies[n]);
    }
  }
}
