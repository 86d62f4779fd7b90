/**
  Anthropic conversations as OpenAI messages (translate.rs), and what becomes of
  a conversation whose tool uses are all answered.
*/
module AnthropicHistory {
  import opened Utf8Text
  import opened ToolHistory
  import opened ToolHistoryBlocks
  import opened ToolHistoryRefinement
  import opened ToolHistorySettled
  import opened ToolHistoryLaws
  import opened ToolExchange

  // ---- Conversations ----------------------------------------------------------

  /** A content block; an input is known by its JSON text, a result by its text and that text redacted. */
  datatype Block =
    | TextBlock(text: string)
    | ThinkingBlock(text: string)
    | ToolUse(id: Option<string>, name: Option<string>, input: string)
    | ToolResult(toolUseId: Option<string>, text: string, redacted: string)
    | UnknownBlock

  datatype Body = Blocks(blocks: seq<Block>) | Whole(text: string)

  datatype Turn = Turn(role: string, body: Body)

  // ---- Translation ------------------------------------------------------------

  function Join(parts: seq<string>): string {
    if parts == [] then "" else if |parts| == 1 then parts[0] else parts[0] + "\n" + Join(parts[1..])
  }

  function Texts(blocks: seq<Block>): seq<string> {
    if blocks == [] then []
    else (if blocks[0].TextBlock? && blocks[0].text != "" then [blocks[0].text] else []) + Texts(blocks[1..])
  }

  function Thoughts(blocks: seq<Block>): seq<string> {
    if blocks == [] then []
    else (if blocks[0].ThinkingBlock? && blocks[0].text != "" then [blocks[0].text] else []) + Thoughts(blocks[1..])
  }

  /** The named tool uses as calls, indexed in order. */
  function Calls(blocks: seq<Block>, index: nat): seq<ToolCall>
    decreases |blocks|
  {
    if blocks == [] then []
    else if blocks[0].ToolUse? && blocks[0].name.Some? then
      [ToolCall(blocks[0].id, "function", blocks[0].name.value, blocks[0].input, Some(index))] + Calls(blocks[1..], index + 1)
    else Calls(blocks[1..], index)
  }

  function Results(blocks: seq<Block>): (results: seq<Message>)
    ensures forall t :: 0 <= t < |results| ==> results[t].role == Tool && results[t].toolCalls.None?
  {
    if blocks == [] then []
    else
      (if blocks[0].ToolResult? then [Message(Tool, Text(blocks[0].redacted), None, blocks[0].toolUseId, None)] else [])
      + Results(blocks[1..])
  }

  function AssistantMessage(body: Body): Message {
    match body
    case Whole(text) => Message(Assistant, Text(text), None, None, None)
    case Blocks(blocks) =>
      Message(Assistant,
              if Texts(blocks) == [] then Null else Text(Join(Texts(blocks))),
              if Calls(blocks, 0) == [] then None else Some(Calls(blocks, 0)),
              None,
              if Thoughts(blocks) == [] then None else Some(Join(Thoughts(blocks))))
  }

  function PlainText(role: Role, text: string): Message {
    Message(role, Text(text), None, None, None)
  }

  /** The results of a user turn come first, its text after them. */
  function UserMessages(body: Body): seq<Message> {
    match body
    case Whole(text) => [PlainText(User, text)]
    case Blocks(blocks) => Results(blocks) + UserText(blocks)
  }

  function UserText(blocks: seq<Block>): seq<Message> {
    if Texts(blocks) == [] then [] else [PlainText(User, Join(Texts(blocks)))]
  }

  /** A block inside a message of any other role. */
  function BlockText(block: Block): string {
    match block
    case TextBlock(text) => text
    case ToolResult(_, text, _) => "Tool result:\n" + text
    case _ => ""
  }

  function BlockTexts(blocks: seq<Block>): seq<string> {
    if blocks == [] then [] else [BlockText(blocks[0])] + BlockTexts(blocks[1..])
  }

  function WholeText(body: Body): string {
    match body
    case Whole(text) => text
    case Blocks(blocks) => Join(BlockTexts(blocks))
  }

  function RoleNamed(role: string): Role {
    if role == "assistant" then Assistant else if role == "tool" then Tool else if role == "user" then User else Other(role)
  }

  function TurnMessages(turn: Turn): seq<Message> {
    if turn.role == "assistant" then [AssistantMessage(turn.body)]
    else if turn.role == "user" then UserMessages(turn.body)
    else [PlainText(RoleNamed(turn.role), WholeText(turn.body))]
  }

  function TurnsMessages(turns: seq<Turn>): seq<Message> {
    if turns == [] then [] else TurnMessages(turns[0]) + TurnsMessages(turns[1..])
  }

  function Translated(system: Option<string>, turns: seq<Turn>): seq<Message> {
    (if system.Some? && !Blank(system.value) then [PlainText(Other("system"), system.value)] else [])
    + TurnsMessages(turns)
  }

  // ---- Answered conversations -------------------------------------------------

  function CallsOf(turn: Turn): seq<ToolCall> {
    if turn.role == "assistant" && turn.body.Blocks? then Calls(turn.body.blocks, 0) else []
  }

  function ResultsOf(turn: Turn): seq<Message> {
    if turn.role == "user" && turn.body.Blocks? then Results(turn.body.blocks) else []
  }

  /**
    Each turn with named tool uses, whose ids are clean and distinct, is followed
    by a user turn with one result for each of them; there are no other results.
  */
  predicate Answered(turns: seq<Turn>)
    decreases |turns|
  {
    turns == [] ||
    if CallsOf(turns[0]) != [] then
      && |turns| > 1 && NamedIds(CallsOf(turns[0])) && OneToOne(CallsOf(turns[0]), ResultsOf(turns[1]))
      && Answered(turns[2..])
    else ResultsOf(turns[0]) == [] && turns[0].role != "tool" && Answered(turns[1..])
  }

  lemma AssistantHead(turn: Turn)
    requires CallsOf(turn) != []
    ensures TurnMessages(turn) == [AssistantMessage(turn.body)]
    ensures var head := AssistantMessage(turn.body);
      IsHead(head) && head.toolCalls == Some(CallsOf(turn)) && head.toolCallId.None?
  {
    hide Calls, Texts, Thoughts, Join;
  }

  lemma FirstIsNoTool(turns: seq<Turn>)
    requires Answered(turns)
    ensures TurnsMessages(turns) != [] ==> TurnsMessages(turns)[0].role != Tool
    decreases |turns|
  {
    hide TurnMessages, CallsOf, ResultsOf, OneToOne, NamedIds, AssistantMessage;
    if turns != [] {
      if CallsOf(turns[0]) != [] {
        AssistantHead(turns[0]);
      } else {
        QuietTurn(turns[0]);
        FirstIsNoTool(turns[1..]);
      }
    }
  }

  lemma AnsweredPair(turns: seq<Turn>)
    requires Answered(turns) && turns != [] && CallsOf(turns[0]) != []
    ensures |turns| > 1 && NamedIds(CallsOf(turns[0])) && OneToOne(CallsOf(turns[0]), ResultsOf(turns[1]))
    ensures Answered(turns[2..])
  {
  }

  lemma PairTranslates(turns: seq<Turn>)
    requires Answered(turns) && turns != [] && CallsOf(turns[0]) != []
    ensures var head, tools, text := AssistantMessage(turns[0].body), ResultsOf(turns[1]), UserText(turns[1].body.blocks);
      && turns[1].body.Blocks?
      && TurnsMessages(turns) == [head] + (tools + (text + TurnsMessages(turns[2..])))
      && BlockExchanged(head, tools)
  {
    hide Answered, NamedIds, OneToOne, CallsOf, ResultsOf, UserText, TurnMessages, AssistantMessage;
    AnsweredPair(turns);
    AssistantHead(turns[0]);
    UserTurn(turns[1]);
    assert turns[1..][1..] == turns[2..];
    var tools, text, more := ResultsOf(turns[1]), UserText(turns[1].body.blocks), TurnsMessages(turns[2..]);
    assert TurnsMessages(turns[1..]) == (tools + text) + more;
    assert (tools + text) + more == tools + (text + more);
  }

  /** A turn with results is a user turn: its results, then its text. */
  lemma UserTurn(turn: Turn)
    requires ResultsOf(turn) != []
    ensures turn.body.Blocks? && TurnMessages(turn) == ResultsOf(turn) + UserText(turn.body.blocks)
    ensures forall t :: 0 <= t < |ResultsOf(turn)| ==> ResultsOf(turn)[t].role == Tool && ResultsOf(turn)[t].toolCalls.None?
  {
    hide Texts, Join;
  }

  /** An answered conversation translates to a history in which every call has its result. */
  lemma {:induction false} AnsweredIsExchanged(turns: seq<Turn>)
    requires Answered(turns)
    ensures Exchanged(TurnsMessages(turns))
    decreases |turns|
  {
    hide BlockExchanged, Results, Calls, Texts, Thoughts, Join, ToolsAfter, AfterRun, OneToOne, NamedIds;
    if turns == [] {
    } else if CallsOf(turns[0]) != [] {
      PairTranslates(turns);
      var head, tools, text := AssistantMessage(turns[0].body), ResultsOf(turns[1]), UserText(turns[1].body.blocks);
      var more := TurnsMessages(turns[2..]);
      AnsweredIsExchanged(turns[2..]);
      FirstIsNoTool(turns[2..]);
      PlainFirst(text, more);
      JoinParts(head, tools, text + more);
      BlockFirst(head, tools, text + more);
    } else {
      AnsweredIsExchanged(turns[1..]);
      QuietTurn(turns[0]);
      PlainFirst(TurnMessages(turns[0]), TurnsMessages(turns[1..]));
    }
  }

  lemma BlockFirst(head: Message, tools: seq<Message>, more: seq<Message>)
    requires BlockExchanged(head, tools) && Exchanged(more)
    requires ToolsAfter([head] + (tools + more)) == tools && AfterRun([head] + (tools + more)) == more
    ensures Exchanged([head] + (tools + more))
  {
    hide ToolsAfter, AfterRun;
    ExchangedParts(head, tools);
  }

  lemma QuietTurn(turn: Turn)
    requires CallsOf(turn) == [] && ResultsOf(turn) == [] && turn.role != "tool"
    ensures |TurnMessages(turn)| <= 1 && forall i :: 0 <= i < |TurnMessages(turn)| ==> Plain(TurnMessages(turn)[i])
  {
    hide Results, Calls, Texts, Thoughts, Join;
    if turn.role == "user" && turn.body.Blocks? {
      assert Results(turn.body.blocks) + UserText(turn.body.blocks) == UserText(turn.body.blocks);
    }
  }

  lemma PlainFirst(front: seq<Message>, more: seq<Message>)
    requires |front| <= 1 && (forall i :: 0 <= i < |front| ==> Plain(front[i])) && Exchanged(more)
    ensures Exchanged(front + more)
    ensures (more != [] ==> more[0].role != Tool) ==> (front + more != [] ==> (front + more)[0].role != Tool)
  {
    if front == [] {
      assert front + more == more;
    } else {
      assert (front + more)[1..] == more;
    }
  }

  /**
    Translation followed by canonicalization downgrades nothing in an answered
    conversation, and each result stays attached to the call with the same name and
    arguments.
  */
  lemma AnsweredConversationIsKept(system: Option<string>, turns: seq<Turn>, policy: Policy)
    requires Answered(turns)
    ensures var messages := Translated(system, turns);
      && CanonicalRepair(messages, policy).(stabilizedIds := 0) == NO_REPAIR
      && WellPaired(Canonical(messages, policy)) && EveryResultHasACall(messages)
      && forall j: nat, h: nat, k: nat :: Answers(messages, j, h, k) ==>
           StaysAttached(messages, Canonical(messages, policy), j, h, k)
  {
    hide Answered, Exchanged, Canonical, CanonicalRepair, WellPaired, EveryResultHasACall, Answers, StaysAttached, TurnsMessages, TidyFrom, Placed, SoundFrom, Blank, Settled;
    AnsweredIsExchanged(turns);
    var front := if system.Some? && !Blank(system.value) then [PlainText(Other("system"), system.value)] else [];
    PlainFirst(front, TurnsMessages(turns));
    ExchangeIsKept(Translated(system, turns), policy);
    TidyIsSound(Translated(system, turns));
    CanonicalIsWellPaired(Translated(system, turns), policy);
  }

  // ---- Block by block ---------------------------------------------------------

  lemma {:induction false} TurnsSplit(front: seq<Turn>, back: seq<Turn>)
    ensures TurnsMessages(front + back) == TurnsMessages(front) + TurnsMessages(back)
    decreases |front|
  {
    hide TurnMessages;
    if front == [] {
      assert front + back == back;
    } else {
      assert (front + back)[1..] == front[1..] + back;
      TurnsSplit(front[1..], back);
    }
  }

  /** A named tool use is one of the calls, with its id, name and input. */
  lemma {:induction false} CallIn(blocks: seq<Block>, u: nat, index: nat) returns (k: nat)
    requires u < |blocks| && blocks[u].ToolUse? && blocks[u].name.Some?
    ensures var calls := Calls(blocks, index);
      k < |calls| && calls[k] == ToolCall(blocks[u].id, "function", blocks[u].name.value, blocks[u].input, calls[k].index)
    decreases |blocks|
  {
    if u == 0 {
      k := 0;
    } else if blocks[0].ToolUse? && blocks[0].name.Some? {
      k := CallIn(blocks[1..], u - 1, index + 1);
      k := k + 1;
    } else {
      k := CallIn(blocks[1..], u - 1, index);
    }
  }

  lemma {:induction false} ResultIn(blocks: seq<Block>, v: nat) returns (t: nat)
    requires v < |blocks| && blocks[v].ToolResult?
    ensures t < |Results(blocks)|
    ensures Results(blocks)[t] == Message(Tool, Text(blocks[v].redacted), None, blocks[v].toolUseId, None)
    decreases |blocks|
  {
    if v == 0 {
      t := 0;
    } else {
      t := ResultIn(blocks[1..], v - 1);
      if blocks[0].ToolResult? { t := t + 1; }
    }
  }

  /** A tool use in one turn and a tool result with its id in the next. */
  predicate UsedAndAnswered(turns: seq<Turn>, p: nat, u: nat, v: nat) {
    && p + 1 < |turns|
    && turns[p].role == "assistant" && turns[p].body.Blocks? && u < |turns[p].body.blocks|
    && turns[p + 1].role == "user" && turns[p + 1].body.Blocks? && v < |turns[p + 1].body.blocks|
    && var use, result := turns[p].body.blocks[u], turns[p + 1].body.blocks[v];
      use.ToolUse? && use.id.Some? && use.name.Some? && result.ToolResult? && result.toolUseId == use.id
  }

  /** Message h carries the tool use as call k and message j the text of its result, which answers that call. */
  predicate Carries(messages: seq<Message>, use: Block, result: Block, j: nat, h: nat, k: nat)
    requires use.ToolUse? && use.name.Some? && result.ToolResult?
  {
    && Answers(messages, j, h, k)
    && messages[h].toolCalls.value[k].name == use.name.value
    && messages[h].toolCalls.value[k].arguments == use.input
    && messages[j].content == Text(result.redacted)
  }

  lemma PairIsTranslated(front: seq<Message>, turns: seq<Turn>, p: nat, u: nat, v: nat) returns (j: nat, h: nat, k: nat)
    requires UsedAndAnswered(turns, p, u, v)
    ensures Carries(front + TurnsMessages(turns), turns[p].body.blocks[u], turns[p + 1].body.blocks[v], j, h, k)
  {
    hide Calls, Results, AssistantMessage, Answers, UserText, TurnsMessages;
    var asked, told := turns[p].body.blocks, turns[p + 1].body.blocks;
    k := CallIn(asked, u, 0);
    var t := ResultIn(told, v);
    var before, rest := TurnsAround(front, turns, p);
    h, j := |before|, |before| + 1 + t;
    CarriesCalls(turns[p].body);
    AnswersBehind(before, AssistantMessage(turns[p].body), Results(told), rest, k, t);
  }

  lemma CarriesCalls(body: Body)
    requires body.Blocks? && Calls(body.blocks, 0) != []
    ensures AssistantMessage(body).role == Assistant && AssistantMessage(body).toolCalls == Some(Calls(body.blocks, 0))
  {
    hide Calls, Texts, Thoughts, Join;
  }

  /** Where the two turns are in the translated conversation. */
  lemma TurnsAround(front: seq<Message>, turns: seq<Turn>, p: nat) returns (before: seq<Message>, rest: seq<Message>)
    requires p + 1 < |turns| && turns[p].role == "assistant"
    requires turns[p + 1].role == "user" && turns[p + 1].body.Blocks?
    ensures front + TurnsMessages(turns)
         == before + [AssistantMessage(turns[p].body)] + Results(turns[p + 1].body.blocks) + rest
  {
    hide AssistantMessage, Results, UserText;
    var head, results, text := [AssistantMessage(turns[p].body)], Results(turns[p + 1].body.blocks), UserText(turns[p + 1].body.blocks);
    var more := TurnsMessages(turns[p + 2..]);
    before, rest := front + TurnsMessages(turns[..p]), text + more;
    assert turns[p..][1..] == turns[p + 1..] && turns[p + 1..][1..] == turns[p + 2..];
    assert TurnsMessages(turns[p + 1..]) == (results + text) + more;
    assert TurnsMessages(turns[p..]) == head + ((results + text) + more);
    assert turns == turns[..p] + turns[p..];
    TurnsSplit(turns[..p], turns[p..]);
    Gather(front, TurnsMessages(turns[..p]), head, results, text, more);
  }

  lemma Gather<T>(a: seq<T>, b: seq<T>, c: seq<T>, d: seq<T>, e: seq<T>, f: seq<T>)
    ensures a + (b + (c + ((d + e) + f))) == (a + b) + c + d + (e + f)
  {
  }

  lemma AnswersBehind(before: seq<Message>, head: Message, results: seq<Message>, rest: seq<Message>, k: nat, t: nat)
    requires head.role == Assistant && head.toolCalls.Some? && k < |head.toolCalls.value| && t < |results|
    requires forall i :: 0 <= i < |results| ==> results[i].role == Tool
    requires results[t].toolCallId.Some? && results[t].toolCallId == head.toolCalls.value[k].id
    ensures var messages := before + [head] + results + rest;
      && Answers(messages, |before| + 1 + t, |before|, k)
      && messages[|before|] == head && messages[|before| + 1 + t] == results[t]
  {
    var messages := before + [head] + results + rest;
    forall i | |before| < i <= |before| + 1 + t
      ensures messages[i] == results[i - |before| - 1]
    {
    }
  }

  /**
    Of an answered conversation, every tool use that is answered by a tool result of
    its id is in the canonical history as a call with that name and input, and the
    result's redacted text is in the tool message that answers it.
  */
  lemma ResultStaysWithItsUse(system: Option<string>, turns: seq<Turn>, policy: Policy, p: nat, u: nat, v: nat)
    returns (j: nat, h: nat, k: nat)
    requires Answered(turns) && UsedAndAnswered(turns, p, u, v)
    ensures Carries(Canonical(Translated(system, turns), policy),
                    turns[p].body.blocks[u], turns[p + 1].body.blocks[v], j, h, k)
  {
    hide Answered, Canonical, CanonicalRepair, WellPaired, EveryResultHasACall, Answers, TurnsMessages, Blank;
    AnsweredConversationIsKept(system, turns, policy);
    var front := if system.Some? && !Blank(system.value) then [PlainText(Other("system"), system.value)] else [];
    j, h, k := PairIsTranslated(front, turns, p, u, v);
    assert StaysAttached(Translated(system, turns), Canonical(Translated(system, turns), policy), j, h, k);
  }
}
