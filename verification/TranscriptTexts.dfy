/** The texts and tool calls in the chat of a tool loop, by the positions of the blocks
    they come from. */
module TranscriptTexts {
  import opened Options
  import opened LlmClient
  import opened OpenRouter
  import opened TextLaws
  import Drafts

  // ---------------------------------------------------------------------------
  // Blocks and parts by position
  // ---------------------------------------------------------------------------

  /** The tool uses among the first `n` blocks. */
  function UsesIn(blocks: seq<Block>, n: nat): nat
    requires n <= |blocks|
  {
    if n == 0 then 0 else UsesIn(blocks, n - 1) + if blocks[n - 1].ToolUse? then 1 else 0
  }

  function TextsIn(blocks: seq<Block>, n: nat): nat
    requires n <= |blocks|
  {
    if n == 0 then 0 else TextsIn(blocks, n - 1) + if blocks[n - 1].Text? then 1 else 0
  }

  function TextPartsIn(parts: seq<ResultPart>, n: nat): nat
    requires n <= |parts|
  {
    if n == 0 then 0 else TextPartsIn(parts, n - 1) + if parts[n - 1].TextPart? then 1 else 0
  }

  /** The call has the id, the name and the input of the tool use. */
  predicate IsCallOf(call: Call, use: Block)
    requires use.ToolUse?
  {
    call.id == use.id && call.name == use.name && call.arguments == use.input
  }

  /** One call per tool use, in order. */
  predicate ListsCalls(blocks: seq<Block>, calls: seq<Call>) {
    && |calls| == UsesIn(blocks, |blocks|)
    && forall m: nat :: m < |blocks| && blocks[m].ToolUse? ==> ListsCall(blocks, calls, m)
  }

  predicate ListsCall(blocks: seq<Block>, calls: seq<Call>, m: nat)
    requires m < |blocks| && blocks[m].ToolUse?
  {
    UsesIn(blocks, m) < |calls| && IsCallOf(calls[UsesIn(blocks, m)], blocks[m])
  }

  /** The texts, in order. */
  predicate ListsTexts(blocks: seq<Block>, texts: seq<string>) {
    && |texts| == TextsIn(blocks, |blocks|)
    && forall m: nat :: m < |blocks| && blocks[m].Text? ==> ListsText(blocks, texts, m)
  }

  predicate ListsText(blocks: seq<Block>, texts: seq<string>, m: nat)
    requires m < |blocks| && blocks[m].Text?
  {
    TextsIn(blocks, m) < |texts| && texts[TextsIn(blocks, m)] == blocks[m].text
  }

  predicate ListsTextParts(parts: seq<ResultPart>, texts: seq<string>) {
    && |texts| == TextPartsIn(parts, |parts|)
    && forall m: nat :: m < |parts| && parts[m].TextPart? ==> ListsTextPart(parts, texts, m)
  }

  predicate ListsTextPart(parts: seq<ResultPart>, texts: seq<string>, m: nat)
    requires m < |parts| && parts[m].TextPart?
  {
    TextPartsIn(parts, m) < |texts| && texts[TextPartsIn(parts, m)] == parts[m].text
  }

  lemma {:induction false} UsesInPrefix(blocks: seq<Block>, k: nat, n: nat)
    requires n <= k <= |blocks|
    ensures UsesIn(blocks[..k], n) == UsesIn(blocks, n)
  {
    if n > 0 {
      UsesInPrefix(blocks, k, n - 1);
    }
  }

  lemma {:induction false} TextsInPrefix(blocks: seq<Block>, k: nat, n: nat)
    requires n <= k <= |blocks|
    ensures TextsIn(blocks[..k], n) == TextsIn(blocks, n)
  {
    if n > 0 {
      TextsInPrefix(blocks, k, n - 1);
    }
  }

  lemma {:induction false} TextPartsInPrefix(parts: seq<ResultPart>, k: nat, n: nat)
    requires n <= k <= |parts|
    ensures TextPartsIn(parts[..k], n) == TextPartsIn(parts, n)
  {
    if n > 0 {
      TextPartsInPrefix(parts, k, n - 1);
    }
  }

  lemma CallsNext(blocks: seq<Block>, earlier: seq<Call>, calls: seq<Call>)
    requires blocks != [] && ListsCalls(blocks[..|blocks| - 1], earlier)
    requires var last := blocks[|blocks| - 1];
             calls == if last.ToolUse? then earlier + [Call(last.id, last.name, last.input)] else earlier
    ensures ListsCalls(blocks, calls)
  {
    var n := |blocks| - 1;
    UsesInPrefix(blocks, n, n);
    forall m: nat | m < |blocks| && blocks[m].ToolUse?
      ensures ListsCall(blocks, calls, m)
    {
      if m < n {
        UsesInPrefix(blocks, n, m);
        assert blocks[..n][m] == blocks[m];
        assert ListsCall(blocks[..n], earlier, m);
      }
    }
  }

  lemma {:induction false} CallsAreListed(blocks: seq<Block>)
    ensures ListsCalls(blocks, Calls(blocks))
  {
    if blocks != [] {
      CallsAreListed(blocks[..|blocks| - 1]);
      CallsNext(blocks, Calls(blocks[..|blocks| - 1]), Calls(blocks));
    }
  }

  lemma TextsNext(blocks: seq<Block>, earlier: seq<string>, texts: seq<string>)
    requires blocks != [] && ListsTexts(blocks[..|blocks| - 1], earlier)
    requires var last := blocks[|blocks| - 1];
             texts == if last.Text? then earlier + [last.text] else earlier
    ensures ListsTexts(blocks, texts)
  {
    var n := |blocks| - 1;
    TextsInPrefix(blocks, n, n);
    forall m: nat | m < |blocks| && blocks[m].Text?
      ensures ListsText(blocks, texts, m)
    {
      if m < n {
        TextsInPrefix(blocks, n, m);
        assert blocks[..n][m] == blocks[m];
        assert ListsText(blocks[..n], earlier, m);
      }
    }
  }

  lemma {:induction false} TextsAreListed(blocks: seq<Block>)
    ensures ListsTexts(blocks, Texts(blocks))
  {
    if blocks != [] {
      TextsAreListed(blocks[..|blocks| - 1]);
      TextsNext(blocks, Texts(blocks[..|blocks| - 1]), Texts(blocks));
    }
  }

  lemma TextPartsNext(parts: seq<ResultPart>, earlier: seq<string>, texts: seq<string>)
    requires parts != [] && ListsTextParts(parts[..|parts| - 1], earlier)
    requires var last := parts[|parts| - 1];
             texts == if last.TextPart? then earlier + [last.text] else earlier
    ensures ListsTextParts(parts, texts)
  {
    var n := |parts| - 1;
    TextPartsInPrefix(parts, n, n);
    forall m: nat | m < |parts| && parts[m].TextPart?
      ensures ListsTextPart(parts, texts, m)
    {
      if m < n {
        TextPartsInPrefix(parts, n, m);
        assert parts[..n][m] == parts[m];
        assert ListsTextPart(parts[..n], earlier, m);
      }
    }
  }

  lemma {:induction false} TextPartsAreListed(parts: seq<ResultPart>)
    ensures ListsTextParts(parts, PartTexts(parts))
  {
    if parts != [] {
      TextPartsAreListed(parts[..|parts| - 1]);
      TextPartsNext(parts, PartTexts(parts[..|parts| - 1]), PartTexts(parts));
    }
  }

  // ---------------------------------------------------------------------------
  // One turn
  // ---------------------------------------------------------------------------

  function Lines(texts: seq<string>): string {
    Chained(texts, "\n")
  }

  /** The message says the texts of the blocks, a line each, and makes their calls. */
  ghost predicate Says(message: ChatMessage, blocks: seq<Block>) {
    && message.AssistantSays?
    && ListsCalls(blocks, message.calls)
    && exists texts :: ListsTexts(blocks, texts)
         && message.said == if Lines(texts) == "" then None else Some(Lines(texts))
  }

  lemma AssistantSaysBlocks(blocks: seq<Block>)
    ensures Says(AssistantChat(Blocks(blocks)), blocks)
  {
    CallsAreListed(blocks);
    TextsAreListed(blocks);
    JoinedIsChained(Texts(blocks), "\n");
  }

  predicate HasImage(parts: seq<ResultPart>) {
    exists k :: 0 <= k < |parts| && parts[k].ImagePart?
  }

  /** The body is what the execution returned or raised. */
  ghost predicate Tells(body: ToolBody, execution: Execution) {
    match execution
    case Raised(text) => body == Said(text)
    case Returned(PlainText(text)) => body == Said(text)
    case Returned(Parts(parts)) =>
      exists texts :: ListsTextParts(parts, texts) && body == PartsBody(parts, texts)
  }

  function PartsBody(parts: seq<ResultPart>, texts: seq<string>): ToolBody {
    if HasImage(parts) then SaidWithImages(texts)
    else if Lines(texts) == "" then EmptyResult
    else Said(Lines(texts))
  }

  lemma {:induction false} ImagesExactly(parts: seq<ResultPart>)
    ensures PartImages(parts) != [] <==> HasImage(parts)
  {
    if parts != [] {
      var n := |parts| - 1;
      ImagesExactly(parts[..n]);
      if k :| 0 <= k < |parts| && parts[k].ImagePart? {
        assert k < n ==> parts[..n][k].ImagePart?;
      }
      if k :| 0 <= k < n && parts[..n][k].ImagePart? {
        assert parts[k].ImagePart?;
      }
    }
  }

  lemma BodyTells(id: string, execution: Execution)
    ensures Tells(Body(ResultOf(id, execution).output), execution)
  {
    if execution.Returned? && execution.output.Parts? {
      var parts := execution.output.parts;
      TextPartsAreListed(parts);
      ImagesExactly(parts);
      JoinedIsChained(PartTexts(parts), "\n");
    }
  }

  /** Message `q` answers tool use `m` of the reply. */
  ghost predicate AnswersUse(chat: seq<ChatMessage>, q: nat, reply: Reply, m: nat)
    requires WellFormed(reply) && m < |reply.blocks| && reply.blocks[m].ToolUse?
  {
    && q < |chat| && chat[q].ToolSays?
    && chat[q].id == reply.blocks[m].id
    && Tells(chat[q].body, reply.executions[m])
  }

  /** The reply's turn starts at message `p`: what it says, and then the answer to each
      of its calls. */
  ghost predicate TurnAt(chat: seq<ChatMessage>, p: nat, reply: Reply)
    requires WellFormed(reply)
  {
    p < |chat| && Says(chat[p], reply.blocks) && AnswersAll(chat, p + 1, reply)
  }

  /** From message `q` on, the tool uses of the reply are answered in order. */
  ghost predicate AnswersAll(chat: seq<ChatMessage>, q: nat, reply: Reply)
    requires WellFormed(reply)
  {
    forall m: nat :: m < |reply.blocks| && reply.blocks[m].ToolUse? ==>
      AnswersUse(chat, q + UsesIn(reply.blocks, m), reply, m)
  }

  /** The tool message for use `m`. */
  ghost predicate ToolTells(tools: seq<ChatMessage>, blocks: seq<Block>, executions: seq<Execution>, m: nat)
    requires m < |blocks| == |executions| && blocks[m].ToolUse?
  {
    var k := UsesIn(blocks, m);
    && k < |tools| && tools[k].ToolSays? && tools[k].id == blocks[m].id
    && Tells(tools[k].body, executions[m])
  }

  lemma LastResult(blocks: seq<Block>, executions: seq<Execution>)
    requires |blocks| == |executions| && blocks != []
    ensures var n := |blocks| - 1;
            var earlier := ToolMessages(ResultsOf(blocks[..n], executions[..n]));
            ToolMessages(ResultsOf(blocks, executions)) ==
            if blocks[n].ToolUse? then
              earlier + [ToolSays(blocks[n].id, Body(ResultOf(blocks[n].id, executions[n]).output))]
            else earlier
  {
    var n := |blocks| - 1;
    var results := ResultsOf(blocks[..n], executions[..n]);
    if blocks[n].ToolUse? {
      assert (results + [ResultOf(blocks[n].id, executions[n])])[..|results|] == results;
    }
  }

  lemma {:induction false} ResultsTell(blocks: seq<Block>, executions: seq<Execution>)
    requires |blocks| == |executions|
    ensures var tools := ToolMessages(ResultsOf(blocks, executions));
            && |tools| == UsesIn(blocks, |blocks|)
            && forall m: nat :: m < |blocks| && blocks[m].ToolUse? ==> ToolTells(tools, blocks, executions, m)
  {
    if blocks != [] {
      var n := |blocks| - 1;
      var earlier := ToolMessages(ResultsOf(blocks[..n], executions[..n]));
      var tools := ToolMessages(ResultsOf(blocks, executions));
      ResultsTell(blocks[..n], executions[..n]);
      LastResult(blocks, executions);
      UsesInPrefix(blocks, n, n);
      BodyTells(if blocks[n].ToolUse? then blocks[n].id else "", executions[n]);
      forall m: nat | m < |blocks| && blocks[m].ToolUse?
        ensures ToolTells(tools, blocks, executions, m)
      {
        if m < n {
          UsesInPrefix(blocks, n, m);
          assert blocks[..n][m] == blocks[m] && executions[..n][m] == executions[m];
          assert ToolTells(earlier, blocks[..n], executions[..n], m);
        }
      }
    }
  }

  lemma RoundAnswers(reply: Reply, m: nat)
    requires WellFormed(reply) && m < |reply.blocks| && reply.blocks[m].ToolUse?
    ensures AnswersUse(RoundChat(reply), 1 + UsesIn(reply.blocks, m), reply, m)
  {
    var tools := ToolMessages(ResultsOf(reply.blocks, reply.executions));
    ResultsTell(reply.blocks, reply.executions);
    var k := UsesIn(reply.blocks, m);
    assert ToolTells(tools, reply.blocks, reply.executions, m);
    assert RoundChat(reply)[1 + k] == tools[k];
  }

  lemma RoundHasOneAssistant(reply: Reply)
    requires WellFormed(reply)
    ensures forall p :: 0 < p < |RoundChat(reply)| ==> !RoundChat(reply)[p].AssistantSays?
  {
    ResultsAnswerCalls(reply.blocks, reply.executions);
  }

  lemma RoundIsTurn(reply: Reply)
    requires WellFormed(reply)
    ensures TurnAt(RoundChat(reply), 0, reply)
  {
    AssistantSaysBlocks(reply.blocks);
    forall m: nat | m < |reply.blocks| && reply.blocks[m].ToolUse?
      ensures AnswersUse(RoundChat(reply), 1 + UsesIn(reply.blocks, m), reply, m)
    {
      RoundAnswers(reply, m);
    }
  }

  // ---------------------------------------------------------------------------
  // The transcript itself
  // ---------------------------------------------------------------------------

  /** The block is the result of the tool use: what was returned, or, marked as an
      error, what was raised. */
  predicate IsResultOf(result: Block, use: Block, execution: Execution)
    requires use.ToolUse?
  {
    && result.ToolResult? && result.toolUseId == use.id
    && match execution
       case Returned(output) => result.output == output && !result.isError
       case Raised(text) => result.output == PlainText(text) && result.isError
  }

  /** One result per tool use, in order. */
  predicate RecordsRuns(results: seq<Block>, blocks: seq<Block>, executions: seq<Execution>)
    requires |blocks| == |executions|
  {
    && |results| == UsesIn(blocks, |blocks|)
    && forall m: nat :: m < |blocks| && blocks[m].ToolUse? ==> RecordsRun(results, blocks, executions, m)
  }

  predicate RecordsRun(results: seq<Block>, blocks: seq<Block>, executions: seq<Execution>, m: nat)
    requires m < |blocks| == |executions| && blocks[m].ToolUse?
  {
    UsesIn(blocks, m) < |results| && IsResultOf(results[UsesIn(blocks, m)], blocks[m], executions[m])
  }

  lemma {:induction false} RunsAreRecorded(blocks: seq<Block>, executions: seq<Execution>)
    requires |blocks| == |executions|
    ensures RecordsRuns(ResultsOf(blocks, executions), blocks, executions)
  {
    if blocks != [] {
      var n := |blocks| - 1;
      RunsAreRecorded(blocks[..n], executions[..n]);
      UsesInPrefix(blocks, n, n);
      var earlier := ResultsOf(blocks[..n], executions[..n]);
      forall m: nat | m < |blocks| && blocks[m].ToolUse?
        ensures RecordsRun(ResultsOf(blocks, executions), blocks, executions, m)
      {
        if m < n {
          UsesInPrefix(blocks, n, m);
          assert blocks[..n][m] == blocks[m] && executions[..n][m] == executions[m];
          assert RecordsRun(earlier, blocks[..n], executions[..n], m);
        }
      }
    }
  }

  /** Messages `2 * i + 1` and `2 * i + 2` are the reply's blocks and the results of its
      tool uses. */
  ghost predicate RecordsReply(messages: seq<Message>, replies: seq<Reply>, i: nat)
    requires i < |replies| && WellFormed(replies[i])
  {
    && 2 * i + 2 < |messages|
    && messages[2 * i + 1] == Message(Assistant, Blocks(replies[i].blocks))
    && messages[2 * i + 2].role == User && messages[2 * i + 2].content.Blocks?
    && RecordsRuns(messages[2 * i + 2].content.blocks, replies[i].blocks, replies[i].executions)
  }

  /** The transcript of a tool loop is the opening and then, for each reply, its blocks
      and the results of running its tool uses. */
  lemma {:induction false} TranscriptIs(initial: seq<Block>, replies: seq<Reply>)
    requires forall i :: 0 <= i < |replies| ==> WellFormed(replies[i])
    ensures var messages := Transcript(initial, replies);
            && |messages| == 2 * |replies| + 1
            && messages[0] == Message(User, Blocks(initial))
            && forall i: nat :: i < |replies| ==> RecordsReply(messages, replies, i)
  {
    if replies != [] {
      var n := |replies| - 1;
      var earlier, messages := Transcript(initial, replies[..n]), Transcript(initial, replies);
      TranscriptIs(initial, replies[..n]);
      RunsAreRecorded(replies[n].blocks, replies[n].executions);
      forall i: nat | i < |replies|
        ensures RecordsReply(messages, replies, i)
      {
        if i < n {
          assert RecordsReply(earlier, replies[..n], i);
          assert messages[2 * i + 1] == earlier[2 * i + 1] && messages[2 * i + 2] == earlier[2 * i + 2];
        }
      }
    }
  }

  // ---------------------------------------------------------------------------
  // The whole chat
  // ---------------------------------------------------------------------------

  lemma SameAnswer(c: seq<ChatMessage>, q: nat, d: seq<ChatMessage>, r: nat, reply: Reply, m: nat)
    requires WellFormed(reply) && m < |reply.blocks| && reply.blocks[m].ToolUse?
    requires AnswersUse(c, q, reply, m) && r < |d| && d[r] == c[q]
    ensures AnswersUse(d, r, reply, m)
  {
  }

  /** `d` has from `r` on what `c` has from `p` on. */
  predicate Embeds(c: seq<ChatMessage>, p: nat, d: seq<ChatMessage>, r: nat) {
    p <= |c| && r + (|c| - p) <= |d| && forall k :: p <= k < |c| ==> d[r + (k - p)] == c[k]
  }

  lemma EmbedsAt(c: seq<ChatMessage>, p: nat, d: seq<ChatMessage>, r: nat, q: nat)
    requires Embeds(c, p, d, r) && p <= q < |c|
    ensures r + (q - p) < |d| && d[r + (q - p)] == c[q]
  {
  }

  lemma AnswerEmbeds(c: seq<ChatMessage>, p: nat, d: seq<ChatMessage>, r: nat, reply: Reply, m: nat, q: nat)
    requires WellFormed(reply) && m < |reply.blocks| && reply.blocks[m].ToolUse?
    requires AnswersUse(c, q, reply, m) && Embeds(c, p, d, r) && p <= q
    ensures AnswersUse(d, r + (q - p), reply, m)
  {
    EmbedsAt(c, p, d, r, q);
    SameAnswer(c, q, d, r + (q - p), reply, m);
  }

  lemma AnswersEmbed(c: seq<ChatMessage>, p: nat, d: seq<ChatMessage>, r: nat, reply: Reply)
    requires WellFormed(reply) && AnswersAll(c, p + 1, reply) && Embeds(c, p, d, r)
    ensures AnswersAll(d, r + 1, reply)
  {
    forall m: nat | m < |reply.blocks| && reply.blocks[m].ToolUse?
      ensures AnswersUse(d, r + 1 + UsesIn(reply.blocks, m), reply, m)
    {
      var q := p + 1 + UsesIn(reply.blocks, m);
      AnswerEmbeds(c, p, d, r, reply, m, q);
    }
  }

  lemma TurnEmbeds(c: seq<ChatMessage>, p: nat, d: seq<ChatMessage>, r: nat, reply: Reply)
    requires WellFormed(reply) && TurnAt(c, p, reply) && Embeds(c, p, d, r)
    ensures TurnAt(d, r, reply)
  {
    EmbedsAt(c, p, d, r, p);
    AnswersEmbed(c, p, d, r, reply);
  }

  lemma EmbedsInLeft(a: seq<ChatMessage>, b: seq<ChatMessage>, p: nat)
    requires p <= |a|
    ensures Embeds(a, p, a + b, p)
  {
  }

  lemma EmbedsInRight(a: seq<ChatMessage>, b: seq<ChatMessage>)
    ensures Embeds(b, 0, a + b, |a|)
  {
  }

  ghost predicate AllTurns(chat: seq<ChatMessage>, at: seq<nat>, replies: seq<Reply>)
    requires |at| == |replies| && forall i :: 0 <= i < |replies| ==> WellFormed(replies[i])
  {
    forall i :: 0 <= i < |at| ==> TurnAt(chat, at[i], replies[i])
  }

  /** `at` are the assistant messages of the chat, in order, one for each reply, and each
      starts that reply's turn. */
  ghost predicate TurnsAt(chat: seq<ChatMessage>, at: seq<nat>, replies: seq<Reply>)
    requires forall i :: 0 <= i < |replies| ==> WellFormed(replies[i])
  {
    && |at| == |replies|
    && (forall i, k :: 0 <= i < k < |at| ==> at[i] < at[k])
    && AllTurns(chat, at, replies)
    && (forall p: nat :: p < |chat| && chat[p].AssistantSays? ==> p in at)
  }

  lemma AssistantsNext(chat: seq<ChatMessage>, at: seq<nat>, reply: Reply)
    requires WellFormed(reply) && forall p: nat :: p < |chat| && chat[p].AssistantSays? ==> p in at
    ensures var all := chat + RoundChat(reply);
            forall p: nat :: p < |all| && all[p].AssistantSays? ==> p in at + [|chat|]
  {
    RoundHasOneAssistant(reply);
    var all, round := chat + RoundChat(reply), RoundChat(reply);
    forall p: nat | p < |all| && all[p].AssistantSays?
      ensures p in at + [|chat|]
    {
      if p < |chat| {
        assert p in at;
      } else {
        assert round[p - |chat|].AssistantSays?;
        assert (at + [|chat|])[|at|] == p;
      }
    }
  }

  lemma TurnBound(chat: seq<ChatMessage>, at: seq<nat>, replies: seq<Reply>)
    requires forall i :: 0 <= i < |replies| ==> WellFormed(replies[i])
    requires TurnsAt(chat, at, replies)
    ensures forall i :: 0 <= i < |at| ==> at[i] < |chat|
  {
    forall i | 0 <= i < |at|
      ensures at[i] < |chat|
    {
      assert TurnAt(chat, at[i], replies[i]);
    }
  }

  lemma EarlierTurn(chat: seq<ChatMessage>, round: seq<ChatMessage>, p: nat, reply: Reply)
    requires WellFormed(reply) && TurnAt(chat, p, reply)
    ensures TurnAt(chat + round, p, reply)
  {
    EmbedsInLeft(chat, round, p);
    TurnEmbeds(chat, p, chat + round, p, reply);
  }

  lemma LastTurn(chat: seq<ChatMessage>, reply: Reply)
    requires WellFormed(reply)
    ensures TurnAt(chat + RoundChat(reply), |chat|, reply)
  {
    RoundIsTurn(reply);
    EmbedsInRight(chat, RoundChat(reply));
    TurnEmbeds(RoundChat(reply), 0, chat + RoundChat(reply), |chat|, reply);
  }

  lemma AllTurnsNext(chat: seq<ChatMessage>, at: seq<nat>, replies: seq<Reply>, round: seq<ChatMessage>)
    requires replies != [] && |at| == |replies| - 1
    requires forall i :: 0 <= i < |replies| ==> WellFormed(replies[i])
    requires AllTurns(chat, at, replies[..|replies| - 1])
    requires TurnAt(chat + round, |chat|, replies[|replies| - 1])
    ensures AllTurns(chat + round, at + [|chat|], replies)
  {
    forall i | 0 <= i < |at|
      ensures TurnAt(chat + round, at[i], replies[i])
    {
      EarlierTurn(chat, round, at[i], replies[..|replies| - 1][i]);
    }
  }

  lemma TurnsNext(chat: seq<ChatMessage>, at: seq<nat>, replies: seq<Reply>)
    requires replies != [] && forall i :: 0 <= i < |replies| ==> WellFormed(replies[i])
    requires TurnsAt(chat, at, replies[..|replies| - 1])
    ensures TurnsAt(chat + RoundChat(replies[|replies| - 1]), at + [|chat|], replies)
  {
    var n := |replies| - 1;
    AssistantsNext(chat, at, replies[n]);
    TurnBound(chat, at, replies[..n]);
    LastTurn(chat, replies[n]);
    AllTurnsNext(chat, at, replies, RoundChat(replies[n]));
  }

  lemma {:induction false} RoundsAreTurns(head: seq<ChatMessage>, replies: seq<Reply>) returns (at: seq<nat>)
    requires forall i :: 0 <= i < |replies| ==> WellFormed(replies[i])
    requires forall p :: 0 <= p < |head| ==> !head[p].AssistantSays?
    ensures TurnsAt(head + RoundsChat(replies), at, replies)
  {
    if replies == [] {
      at := [];
      AppendsNothing(head);
    } else {
      var n := |replies| - 1;
      at := RoundsAreTurns(head, replies[..n]);
      TurnsNext(head + RoundsChat(replies[..n]), at, replies);
      ConcatAssociates(head, RoundsChat(replies[..n]), RoundChat(replies[n]));
      at := at + [|head + RoundsChat(replies[..n])|];
    }
  }

  /** Piece `k` is block `k`. */
  predicate SamePiece(piece: Piece, block: Block) {
    match block
    case Text(text) => piece == TextPiece(text)
    case Picture(image) => piece == ImagePiece(image)
    case _ => false
  }

  lemma {:induction false} OpeningPieces(initial: seq<Block>)
    requires Opening(initial)
    ensures |OwnParts(initial)| == |initial|
    ensures forall k :: 0 <= k < |initial| ==> SamePiece(OwnParts(initial)[k], initial[k])
  {
    if initial != [] {
      OpeningPieces(initial[..|initial| - 1]);
    }
  }

  /** The system text comes first, if there is one; then all of the opening, in order. */
  ghost predicate Opens(chat: seq<ChatMessage>, system: Option<string>, initial: seq<Block>) {
    var first := if system.Some? then 1 else 0;
    && (system.Some? ==> |chat| > 0 && chat[0] == SystemSays(system.value))
    && (initial != [] ==>
          && first < |chat| && chat[first].UserParts?
          && |chat[first].parts| == |initial|
          && forall k :: 0 <= k < |initial| ==> SamePiece(chat[first].parts[k], initial[k]))
  }

  lemma ChatOpens(initial: seq<Block>, system: Option<string>, rest: seq<ChatMessage>)
    requires Opening(initial)
    ensures Opens(SystemChat(system) + PartsMessage(OwnParts(initial)) + rest, system, initial)
  {
    OpeningPieces(initial);
  }

  /** In the chat of every transcript a tool loop can build: the system text and the
      opening are all there, each reply has one assistant message with its texts and, in
      order, its calls with their ids, names and inputs, and the answer to each call
      tells what its execution returned or raised. */
  lemma ToolLoopTextsAreKept(initial: seq<Block>, replies: seq<Reply>, system: Option<string>) returns (at: seq<nat>)
    requires Opening(initial)
    requires forall i :: 0 <= i < |replies| ==> WellFormed(replies[i])
    ensures Opens(SystemChat(system) + ChatOf(Transcript(initial, replies)), system, initial)
    ensures TurnsAt(SystemChat(system) + ChatOf(Transcript(initial, replies)), at, replies)
  {
    var head := SystemChat(system) + PartsMessage(OwnParts(initial));
    ToolLoopChatIs(initial, replies, system);
    ChatOpens(initial, system, RoundsChat(replies));
    at := RoundsAreTurns(head, replies);
  }

  lemma ToolLoopChatIs(initial: seq<Block>, replies: seq<Reply>, system: Option<string>)
    requires Opening(initial)
    requires forall i :: 0 <= i < |replies| ==> WellFormed(replies[i])
    ensures SystemChat(system) + ChatOf(Transcript(initial, replies)) ==
            SystemChat(system) + PartsMessage(OwnParts(initial)) + RoundsChat(replies)
  {
    TranscriptChat(initial, replies);
    ConcatAssociates(SystemChat(system), PartsMessage(OwnParts(initial)), RoundsChat(replies));
  }

  /** Plain messages are passed on as they are. */
  lemma PlainMessagesAreKept(messages: seq<Message>, text: string)
    ensures ChatOf(messages + [Message(User, Plain(text))]) == ChatOf(messages) + [UserText(text)]
    ensures ChatOf(messages + [Message(Assistant, Plain(text))]) == ChatOf(messages) + [AssistantSays(Some(text), [])]
  {
    ChatSnoc(messages, Message(User, Plain(text)));
    ChatSnoc(messages, Message(Assistant, Plain(text)));
  }
}
