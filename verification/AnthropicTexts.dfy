/**
  What becomes of the blocks of an Anthropic turn (translate.rs): each block that is
  added to a turn adds exactly its own share to the translated messages.
*/
module AnthropicTexts {
  import opened Utf8Text
  import opened ToolHistory
  import opened AnthropicHistory

  const NOTHING_SAID := Message(Assistant, Null, None, None, None)

  function Line(before: string, text: string): string {
    before + "\n" + text
  }

  // ---- Lists that grow at their end -------------------------------------------

  lemma Regroup<T>(head: seq<T>, front: seq<T>, more: seq<T>)
    requires front <= more
    ensures head + more == (head + front) + more[|front|..]
  {
  }

  lemma {:induction false} JoinGrows(parts: seq<string>, text: string)
    ensures Join(parts + [text]) == if parts == [] then text else Line(Join(parts), text)
    decreases |parts|
  {
    var all := parts + [text];
    if parts == [] {
      assert all == [text];
    } else {
      assert all[0] == parts[0] && all[1..] == parts[1..] + [text];
      JoinGrows(parts[1..], text);
      if |parts| > 1 {
        assert Line(parts[0] + "\n" + Join(parts[1..]), text) == parts[0] + "\n" + Line(Join(parts[1..]), text);
      } else {
        assert parts[1..] == [];
      }
    }
  }

  lemma {:induction false} TextsGrow(blocks: seq<Block>, b: Block)
    ensures Texts(blocks + [b]) == Texts(blocks) + (if b.TextBlock? && b.text != "" then [b.text] else [])
    decreases |blocks|
  {
    var all := blocks + [b];
    if blocks == [] {
      assert all[1..] == [];
    } else {
      assert all[0] == blocks[0] && all[1..] == blocks[1..] + [b];
      TextsGrow(blocks[1..], b);
      Regroup(if blocks[0].TextBlock? && blocks[0].text != "" then [blocks[0].text] else [], Texts(blocks[1..]), Texts(all[1..]));
    }
  }

  lemma {:induction false} ThoughtsGrow(blocks: seq<Block>, b: Block)
    ensures Thoughts(blocks + [b]) == Thoughts(blocks) + (if b.ThinkingBlock? && b.text != "" then [b.text] else [])
    decreases |blocks|
  {
    var all := blocks + [b];
    if blocks == [] {
      assert all[1..] == [];
    } else {
      assert all[0] == blocks[0] && all[1..] == blocks[1..] + [b];
      ThoughtsGrow(blocks[1..], b);
      Regroup(if blocks[0].ThinkingBlock? && blocks[0].text != "" then [blocks[0].text] else [], Thoughts(blocks[1..]), Thoughts(all[1..]));
    }
  }

  lemma {:induction false} CallsGrow(blocks: seq<Block>, b: Block, index: nat)
    ensures Calls(blocks + [b], index)
         == Calls(blocks, index)
            + (if b.ToolUse? && b.name.Some?
               then [ToolCall(b.id, "function", b.name.value, b.input, Some(index + |Calls(blocks, index)|))] else [])
    decreases |blocks|
  {
    var all := blocks + [b];
    if blocks == [] {
      assert all[1..] == [];
    } else {
      assert all[0] == blocks[0] && all[1..] == blocks[1..] + [b];
      CallsGrow(blocks[1..], b, if blocks[0].ToolUse? && blocks[0].name.Some? then index + 1 else index);
    }
  }

  lemma {:induction false} ResultsGrow(blocks: seq<Block>, b: Block)
    ensures Results(blocks + [b])
         == Results(blocks) + (if b.ToolResult? then [Message(Tool, Text(b.redacted), None, b.toolUseId, None)] else [])
    decreases |blocks|
  {
    var all := blocks + [b];
    if blocks == [] {
      assert all[1..] == [];
    } else {
      assert all[0] == blocks[0] && all[1..] == blocks[1..] + [b];
      ResultsGrow(blocks[1..], b);
    }
  }

  lemma {:induction false} BlockTextsGrow(blocks: seq<Block>, b: Block)
    ensures BlockTexts(blocks + [b]) == BlockTexts(blocks) + [BlockText(b)] && |BlockTexts(blocks)| == |blocks|
    decreases |blocks|
  {
    var all := blocks + [b];
    if blocks == [] {
      assert all[1..] == [];
    } else {
      assert all[0] == blocks[0] && all[1..] == blocks[1..] + [b];
      BlockTextsGrow(blocks[1..], b);
    }
  }

  // ---- Assistant turns --------------------------------------------------------

  /** A text goes to the end of the content on a line of its own, a thought to the end of the reasoning, a named use to the calls. */
  function WithBlock(m: Message, b: Block): Message {
    match b
    case TextBlock(text) =>
      if text == "" then m else m.(content := Text(if m.content.Text? then Line(m.content.text, text) else text))
    case ThinkingBlock(text) =>
      if text == "" then m else m.(reasoning := Some(if m.reasoning.Some? then Line(m.reasoning.value, text) else text))
    case ToolUse(id, name, input) =>
      if name.None? then m
      else
        var calls := if m.toolCalls.Some? then m.toolCalls.value else [];
        m.(toolCalls := Some(calls + [ToolCall(id, "function", name.value, input, Some(|calls|))]))
    case _ => m
  }

  /** An assistant turn is read block by block. */
  lemma AssistantGrows(blocks: seq<Block>, b: Block)
    ensures AssistantMessage(Blocks([])) == NOTHING_SAID
    ensures AssistantMessage(Blocks(blocks + [b])) == WithBlock(AssistantMessage(Blocks(blocks)), b)
  {
    hide Texts, Thoughts, Calls, Join;
    NoneYet();
    TextsGrow(blocks, b);
    ThoughtsGrow(blocks, b);
    CallsGrow(blocks, b, 0);
    if b.TextBlock? { JoinGrows(Texts(blocks), b.text); }
    if b.ThinkingBlock? { JoinGrows(Thoughts(blocks), b.text); }
    assert Texts(blocks) + [] == Texts(blocks) && Thoughts(blocks) + [] == Thoughts(blocks);
    assert Calls(blocks, 0) + [] == Calls(blocks, 0);
  }

  lemma NoneYet()
    ensures Texts([]) == [] && Thoughts([]) == [] && Calls([], 0) == [] && Results([]) == []
  {
  }

  // ---- User turns -------------------------------------------------------------

  /** Where the text message of a user turn is: behind its results, if it has one. */
  function TextAt(messages: seq<Message>): (k: nat)
    ensures k <= |messages|
  {
    if messages != [] && messages[|messages| - 1].role == User then |messages| - 1 else |messages|
  }

  /** A result goes behind the results, a text to the end of the one text message. */
  function WithUserBlock(messages: seq<Message>, b: Block): seq<Message> {
    var k := TextAt(messages);
    match b
    case ToolResult(id, _, redacted) => messages[..k] + [Message(Tool, Text(redacted), None, id, None)] + messages[k..]
    case TextBlock(text) =>
      if text == "" then messages
      else if k == |messages| || !messages[k].content.Text? then messages + [Message(User, Text(text), None, None, None)]
      else messages[..k] + [Message(User, Text(Line(messages[k].content.text, text)), None, None, None)]
    case _ => messages
  }

  lemma UserGrows(blocks: seq<Block>, b: Block)
    ensures UserMessages(Blocks([])) == []
    ensures UserMessages(Blocks(blocks + [b])) == WithUserBlock(UserMessages(Blocks(blocks)), b)
  {
    hide Texts, Results, Join;
    NoneYet();
    TextsGrow(blocks, b);
    ResultsGrow(blocks, b);
    if b.TextBlock? { JoinGrows(Texts(blocks), b.text); }
    var results, text := Results(blocks), UserText(blocks);
    var messages := results + text;
    assert Texts(blocks) + [] == Texts(blocks) && results + [] == results;
    assert TextAt(messages) == |results|;
    assert messages[..|results|] == results && messages[|results|..] == text;
  }

  // ---- Other turns, and the whole conversation --------------------------------

  /** In a turn of any other role every block takes a line. */
  lemma OtherGrows(role: string, blocks: seq<Block>, b: Block)
    requires role != "assistant" && role != "user"
    ensures TurnMessages(Turn(role, Blocks(blocks)))
         == [Message(RoleNamed(role), Text(WholeText(Blocks(blocks))), None, None, None)]
    ensures WholeText(Blocks([])) == ""
    ensures var text := if b.TextBlock? then b.text else if b.ToolResult? then "Tool result:\n" + b.text else "";
      WholeText(Blocks(blocks + [b])) == if blocks == [] then text else Line(WholeText(Blocks(blocks)), text)
  {
    hide Join, BlockTexts;
    BlockTextsGrow(blocks, b);
    JoinGrows(BlockTexts(blocks), BlockText(b));
    NoLines();
  }

  lemma NoLines()
    ensures BlockTexts([]) == [] && Join([]) == ""
  {
  }

  /** A turn that is one text is one message with that text, under its own role. */
  lemma WholeTurn(role: string, text: string)
    ensures TurnMessages(Turn(role, Whole(text))) == [Message(RoleNamed(role), Text(text), None, None, None)]
    ensures RoleNamed("assistant") == Assistant && RoleNamed("user") == User && RoleNamed("tool") == Tool
    ensures role !in {"assistant", "user", "tool"} ==> RoleNamed(role) == Other(role)
  {
  }

  /** The system text comes first unless it is blank; every turn adds its own messages at the end. */
  lemma ConversationGrows(system: Option<string>, turns: seq<Turn>, turn: Turn)
    ensures Translated(system, [])
         == if system.Some? && !Blank(system.value) then [Message(Other("system"), Text(system.value), None, None, None)] else []
    ensures Translated(system, turns + [turn]) == Translated(system, turns) + TurnMessages(turn)
  {
    hide TurnMessages, Blank;
    TurnsSplit(turns, [turn]);
    assert [turn][1..] == [];
    assert TurnsMessages([turn]) == TurnMessages(turn) + [] == TurnMessages(turn);
  }
}
