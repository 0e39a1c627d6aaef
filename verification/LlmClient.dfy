/** The model client: the cost cap, the structured call with its one repair, and
    the tool loop. What the provider answers and what tools return are inputs. */
module LlmClient {
  import opened Options

  datatype Image = Image(mediaType: string, data: string)
  datatype ResultPart = TextPart(text: string) | ImagePart(image: Image) | OtherPart
  datatype ToolOutput = PlainText(text: string) | Parts(parts: seq<ResultPart>)
  /** A content block of a turn. */
  datatype Block =
    | Text(text: string)
    | Picture(image: Image)
    | ToolUse(id: string, name: string, input: string)
    | ToolResult(toolUseId: string, output: ToolOutput, isError: bool)
    | UnknownBlock
  datatype Content = Plain(text: string) | Blocks(blocks: seq<Block>)
  datatype Role = User | Assistant | OtherRole
  datatype Message = Message(role: Role, content: Content)

  datatype StopReason = EndTurn | ToolUses | Refusal | MaxTokens | OtherStop
  /** What executing a tool gives: its output, or the text of what it raised. */
  datatype Execution = Returned(output: ToolOutput) | Raised(text: string)
  /** One answer of the provider. `executions[i]` is what running block `i` gives
      when that block is a tool use. */
  datatype Reply = Reply(blocks: seq<Block>, stop: StopReason, cost: real, executions: seq<Execution>)

  predicate WellFormed(reply: Reply) {
    && |reply.executions| == |reply.blocks|
    && forall i :: 0 <= i < |reply.blocks| ==> reply.blocks[i].Text? || reply.blocks[i].ToolUse?
  }

  datatype LlmError = CapExceeded | Refused | Truncation | UnexpectedStop | NoText | InvalidTwice | BudgetExceeded

  datatype Outcome<+T> = Ok(value: T) | Error(error: LlmError)

  function Spend(replies: seq<Reply>): real {
    if replies == [] then 0.0 else Spend(replies[..|replies| - 1]) + replies[|replies| - 1].cost
  }

  function ResultOf(id: string, execution: Execution): Block {
    match execution
    case Returned(output) => ToolResult(id, output, false)
    case Raised(text) => ToolResult(id, PlainText(text), true)
  }

  /** The results of one turn, one per tool use, in the order of the uses. */
  function ResultsOf(blocks: seq<Block>, executions: seq<Execution>): seq<Block>
    requires |blocks| == |executions|
  {
    if blocks == [] then []
    else
      var n := |blocks| - 1;
      var earlier := ResultsOf(blocks[..n], executions[..n]);
      if blocks[n].ToolUse? then earlier + [ResultOf(blocks[n].id, executions[n])] else earlier
  }

  /** The two messages a tool turn appends. */
  function Round(reply: Reply): seq<Message>
    requires WellFormed(reply)
  {
    [Message(Assistant, Blocks(reply.blocks)), Message(User, Blocks(ResultsOf(reply.blocks, reply.executions)))]
  }

  /** The transcript after the tool turns `replies`. */
  function Transcript(initial: seq<Block>, replies: seq<Reply>): seq<Message>
    requires forall i :: 0 <= i < |replies| ==> WellFormed(replies[i])
  {
    if replies == [] then [Message(User, Blocks(initial))]
    else Transcript(initial, replies[..|replies| - 1]) + Round(replies[|replies| - 1])
  }

  /** The error a turn that neither ends nor uses a tool stops the loop with. */
  function StopError(stop: StopReason): LlmError
    requires stop != EndTurn && stop != ToolUses
  {
    match stop
    case Refusal => Refused
    case MaxTokens => Truncation
    case OtherStop => UnexpectedStop
  }

  /** The first text block of a turn. */
  function FirstText(blocks: seq<Block>): Option<string> {
    if blocks == [] then None
    else if blocks[0].Text? then Some(blocks[0].text)
    else FirstText(blocks[1..])
  }

  /** It is the text of block `i`, and no text comes before. */
  lemma {:induction false} FirstTextIs(blocks: seq<Block>) returns (i: nat)
    ensures i <= |blocks| && forall k :: 0 <= k < i ==> !blocks[k].Text?
    ensures i == |blocks| ==> FirstText(blocks).None?
    ensures i < |blocks| ==> blocks[i].Text? && FirstText(blocks) == Some(blocks[i].text)
  {
    i := 0;
    if blocks != [] && !blocks[0].Text? {
      var rest := FirstTextIs(blocks[1..]);
      i := rest + 1;
      forall k | 0 <= k < i
        ensures !blocks[k].Text?
      {
        assert k > 0 ==> blocks[k] == blocks[1..][k - 1];
      }
    }
  }

  /** The spend of some replies and of those after them add up. */
  lemma {:induction false} SpendAdds(first: seq<Reply>, rest: seq<Reply>)
    ensures Spend(first + rest) == Spend(first) + Spend(rest)
    ensures forall reply :: Spend([reply]) == reply.cost
  {
    forall reply: Reply
      ensures Spend([reply]) == reply.cost
    {
      assert [reply][..0] == [];
    }
    if rest == [] {
      assert first + rest == first;
    } else {
      var n := |rest| - 1;
      SpendAdds(first, rest[..n]);
      assert (first + rest)[..|first| + n] == first + rest[..n];
    }
  }

  /** Each of the first `n` calls was made while the spend was below the cap. */
  ghost predicate CallsAllowed(cap: Option<real>, start: real, replies: seq<Reply>, n: nat)
    requires n <= |replies|
  {
    cap.Some? ==> forall i :: 0 <= i < n ==> start + Spend(replies[..i]) < cap.value
  }

  /** One client overshoots its cap by less than its dearest call. */
  lemma OvershootIsOneCall(cap: real, start: real, replies: seq<Reply>, n: nat, maxCall: real)
    requires 0 < n <= |replies| && CallsAllowed(Some(cap), start, replies, n)
    requires replies[n - 1].cost <= maxCall
    ensures start + Spend(replies[..n]) < cap + maxCall
  {
    assert replies[..n][..n - 1] == replies[..n - 1];
  }

  class Client {
    const cap: Option<real>
    var spent: real

    constructor (cap: Option<real>, alreadySpent: real)
      ensures this.cap == cap && spent == alreadySpent
    {
      this.cap := cap;
      spent := alreadySpent;
    }

    predicate Capped()
      reads this
    {
      cap.Some? && spent >= cap.value
    }

    /** Makes call number `n`, unless the cap is reached. */
    method Ask(replies: seq<Reply>, n: nat, ghost start: real) returns (reply: Option<Reply>)
      requires n < |replies|
      requires spent == start + Spend(replies[..n]) && CallsAllowed(cap, start, replies, n)
      modifies this`spent
      ensures reply.None? ==> Capped() && spent == old(spent)
      ensures reply.Some? ==>
                && reply.value == replies[n]
                && spent == start + Spend(replies[..n + 1])
                && CallsAllowed(cap, start, replies, n + 1)
    {
      if Capped() {
        return None;
      }
      assert replies[..n + 1][..n] == replies[..n];
      spent := spent + replies[n].cost;
      return Some(replies[n]);
    }

    /** Runs the tools of a turn and appends both its messages. */
    method AppendRound(messages: seq<Message>, reply: Reply) returns (after: seq<Message>)
      requires WellFormed(reply)
      ensures after == messages + Round(reply)
    {
      after := messages + [Message(Assistant, Blocks(reply.blocks))];
      var results := RunTools(reply.blocks, reply.executions);
      after := after + [Message(User, Blocks(results))];
    }

    method RunTools(blocks: seq<Block>, executions: seq<Execution>) returns (results: seq<Block>)
      requires |blocks| == |executions|
      ensures results == ResultsOf(blocks, executions)
    {
      results := [];
      for i := 0 to |blocks|
        invariant results == ResultsOf(blocks[..i], executions[..i])
      {
        assert blocks[..i + 1][..i] == blocks[..i] && executions[..i + 1][..i] == executions[..i];
        if blocks[i].ToolUse? {
          results := results + [ResultOf(blocks[i].id, executions[i])];
        }
      }
      assert blocks[..|blocks|] == blocks && executions[..|blocks|] == executions;
    }

    /** Runs tool turns until the model ends its turn. `replies[i]` is what the
        provider would answer to call `i`; `calls` of them were made. */
    method ToolLoop(initial: seq<Block>, replies: seq<Reply>, maxIterations: nat)
      returns (outcome: Outcome<Reply>, calls: nat, messages: seq<Message>)
      requires |replies| >= maxIterations
      requires forall i :: 0 <= i < |replies| ==> WellFormed(replies[i])
      modifies this`spent
      ensures calls <= maxIterations
      ensures spent == old(spent) + Spend(replies[..calls])
      ensures CallsAllowed(cap, old(spent), replies, calls)
      ensures forall i :: 0 <= i < calls - 1 ==> replies[i].stop == ToolUses
      ensures outcome.Ok? ==> calls > 0 && outcome.value == replies[calls - 1] && outcome.value.stop == EndTurn
      ensures outcome == Error(BudgetExceeded) ==> calls == maxIterations
      ensures outcome == Error(CapExceeded) ==> calls < maxIterations && Capped()
      ensures outcome.Error? && outcome.error != BudgetExceeded && outcome.error != CapExceeded ==>
                && calls > 0
                && replies[calls - 1].stop != EndTurn && replies[calls - 1].stop != ToolUses
                && outcome.error == StopError(replies[calls - 1].stop)
      ensures outcome == Error(Refused) <==> calls > 0 && replies[calls - 1].stop == Refusal
      ensures outcome == Error(Truncation) <==> calls > 0 && replies[calls - 1].stop == MaxTokens
      ensures outcome == Error(UnexpectedStop) <==> calls > 0 && replies[calls - 1].stop == OtherStop
      ensures var stopped := outcome == Error(BudgetExceeded) || outcome == Error(CapExceeded);
              var rounds := if stopped then calls else calls - 1;
              messages == Transcript(initial, replies[..rounds])
    {
      messages := [Message(User, Blocks(initial))];
      calls := 0;
      assert replies[..0] == [];
      while calls < maxIterations
        invariant calls <= maxIterations
        invariant spent == old(spent) + Spend(replies[..calls])
        invariant CallsAllowed(cap, old(spent), replies, calls)
        invariant forall i :: 0 <= i < calls ==> replies[i].stop == ToolUses
        invariant messages == Transcript(initial, replies[..calls])
      {
        var reply := Ask(replies, calls, old(spent));
        if reply.None? {
          return Error(CapExceeded), calls, messages;
        }
        calls := calls + 1;
        if reply.value.stop == EndTurn {
          return Ok(reply.value), calls, messages;
        }
        if reply.value.stop != ToolUses {
          return Error(StopError(reply.value.stop)), calls, messages;
        }
        messages := AppendRound(messages, reply.value);
        assert replies[..calls][..calls - 1] == replies[..calls - 1];
      }
      return Error(BudgetExceeded), calls, messages;
    }

    /** Asks for structured output, and once more when it does not validate.
        `valid` are the texts that pass validation. */
    method Structured(replies: seq<Reply>, valid: set<string>)
      returns (outcome: Outcome<string>, calls: nat)
      requires |replies| >= 2
      modifies this`spent
      ensures calls <= 2
      ensures spent == old(spent) + Spend(replies[..calls])
      ensures CallsAllowed(cap, old(spent), replies, calls)
      ensures calls == 2 ==>
                && replies[0].stop != Refusal
                && FirstText(replies[0].blocks).Some? && FirstText(replies[0].blocks).value !in valid
      ensures outcome.Ok? <==>
                && calls > 0
                && replies[calls - 1].stop != Refusal
                && FirstText(replies[calls - 1].blocks).Some?
                && FirstText(replies[calls - 1].blocks).value in valid
      ensures outcome.Ok? ==> Some(outcome.value) == FirstText(replies[calls - 1].blocks)
      ensures outcome == Error(Refused) <==> calls > 0 && replies[calls - 1].stop == Refusal
      ensures outcome == Error(NoText) <==>
                calls > 0 && replies[calls - 1].stop != Refusal && FirstText(replies[calls - 1].blocks).None?
      ensures outcome == Error(InvalidTwice) ==>
                calls == 2 && FirstText(replies[1].blocks).Some? && FirstText(replies[1].blocks).value !in valid
      ensures outcome == Error(CapExceeded) ==> calls < 2 && Capped()
      ensures outcome.Error? ==> outcome.error in {Refused, NoText, InvalidTwice, CapExceeded}
    {
      calls := 0;
      assert replies[..0] == [];
      while calls < 2
        invariant calls <= 2
        invariant spent == old(spent) + Spend(replies[..calls])
        invariant CallsAllowed(cap, old(spent), replies, calls)
        invariant forall i :: 0 <= i < calls ==>
                    && replies[i].stop != Refusal
                    && FirstText(replies[i].blocks).Some?
                    && FirstText(replies[i].blocks).value !in valid
      {
        var answer := Ask(replies, calls, old(spent));
        if answer.None? {
          return Error(CapExceeded), calls;
        }
        var reply := answer.value;
        calls := calls + 1;
        if reply.stop == Refusal {
          return Error(Refused), calls;
        }
        var text := FirstText(reply.blocks);
        if text.None? {
          return Error(NoText), calls;
        }
        if text.value in valid {
          return Ok(text.value), calls;
        }
      }
      return Error(InvalidTwice), calls;
    }
  }
}
