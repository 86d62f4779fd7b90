/**
  The tool-history canonicalizer of translate.rs: one pass over the messages
  pairs tool results with the calls still waiting for one and downgrades what
  cannot be paired; a second pass renames every call id by its position.
*/
module ToolHistory {
  import opened Utf8Text

  /** A message's content; a structured value is known by its compact JSON text. */
  datatype Content = Null | Text(text: string) | Structured(json: string)

  datatype ToolCall = ToolCall(
    id: Option<string>, callType: string, name: string, arguments: string, index: Option<int>)

  /** The role string; Other holds every string but the three named ones. */
  datatype Role = Assistant | Tool | User | Other(name: string)

  datatype Message = Message(
    role: Role,
    content: Content,
    toolCalls: Option<seq<ToolCall>>,
    toolCallId: Option<string>,
    reasoning: Option<string>)

  datatype Policy = Strict | Compat

  datatype Repair = Repair(
    syntheticIds: nat, pairedResults: nat, downgradedResults: nat, downgradedCalls: nat, stabilizedIds: nat)

  const NO_REPAIR := Repair(0, 0, 0, 0, 0)

  /** A call waiting for its result, and the assistant message that made it. */
  datatype Pending = Pending(id: string, at: nat, used: bool)

  const CALL_NOTE := "[Tool call recovered as plain context: matching tool result missing]"
  const RESULT_NOTE := "[Tool result recovered as plain context: original tool_call_id missing or invalid]\n"

  // ---- Synthetic ids ----------------------------------------------------------

  const FNV_OFFSET: nat := 0xcbf29ce484222325
  const FNV_PRIME: nat := 0x100000001b3
  const TWO_64: nat := 0x1_0000_0000_0000_0000

  /** Exclusive or of the low bits of two numbers. */
  function Xor(a: nat, b: nat, bits: nat): nat {
    if bits == 0 then 0 else 2 * Xor(a / 2, b / 2, bits - 1) + (a + b) % 2
  }

  /** FNV-1a over the bytes of the text, in 64-bit wrapping arithmetic. */
  function StableHash(hash: nat, bytes: string): nat
    decreases |bytes|
  {
    if bytes == "" then hash
    else
      StableHash(Xor(hash, bytes[0] as nat % 256, 64) * FNV_PRIME % TWO_64, bytes[1..])
  }

  function HexDigit(n: nat): char
    requires n < 16
  {
    "0123456789abcdef"[n]
  }

  /** The value in hexadecimal, padded to the given width. */
  function Hex(value: nat, width: nat): (s: string)
    ensures |s| == width
    ensures forall c <- s :: c in "0123456789abcdef"
  {
    if width == 0 then "" else Hex(value / 16, width - 1) + [HexDigit(value % 16)]
  }

  function SyntheticId(messageIndex: nat, toolIndex: nat, call: ToolCall): string {
    var material := Decimal(messageIndex) + ":" + Decimal(toolIndex) + ":" + call.name + ":" + call.arguments;
    PrintedId(messageIndex, toolIndex, Hex(StableHash(FNV_OFFSET, material), 16))
  }

  function PrintedId(messageIndex: nat, toolIndex: nat, hash: string): string {
    "call_fmc_" + Decimal(messageIndex) + "_" + Decimal(toolIndex) + "_" + hash
  }

  // ---- Pass one: pairing ------------------------------------------------------

  predicate HasId(call: ToolCall) {
    call.id.Some? && !Blank(call.id.value)
  }

  function FillId(call: ToolCall, messageIndex: nat, toolIndex: nat): ToolCall {
    if HasId(call) then call else call.(id := Some(SyntheticId(messageIndex, toolIndex, call)))
  }

  function FillIds(calls: seq<ToolCall>, messageIndex: nat): (filled: seq<ToolCall>)
    ensures |filled| == |calls|
  {
    seq(|calls|, t requires 0 <= t < |calls| => FillId(calls[t], messageIndex, t))
  }

  /** How many of the first n calls came without an id. */
  function MissingIds(calls: seq<ToolCall>, n: nat): nat
    requires n <= |calls|
  {
    if n == 0 then 0 else MissingIds(calls, n - 1) + (if HasId(calls[n - 1]) then 0 else 1)
  }

  function PendingOf(calls: seq<ToolCall>, messageIndex: nat): (pending: seq<Pending>)
    requires forall c <- calls :: c.id.Some?
    ensures |pending| == |calls|
  {
    seq(|calls|, t requires 0 <= t < |calls| =>
      assert calls[t] in calls;
      Pending(calls[t].id.value, messageIndex, false))
  }

  predicate AllUsed(pending: seq<Pending>) {
    forall p <- pending :: p.used
  }

  /** The first unused entry at or after the position, with the given id if one is wanted. */
  function FindUnused(pending: seq<Pending>, want: Option<string>, from: nat): (k: Option<nat>)
    requires from <= |pending|
    ensures k.Some? ==> from <= k.value < |pending| && !pending[k.value].used
    ensures k.Some? && want.Some? ==> pending[k.value].id == want.value
    decreases |pending| - from
  {
    if from == |pending| then None
    else if !pending[from].used && (want.None? || pending[from].id == want.value) then Some(from)
    else FindUnused(pending, want, from + 1)
  }

  /** The entry a tool message with this raw id takes: by id if possible, else the next one. */
  function MatchPending(pending: seq<Pending>, raw: Option<string>): (k: Option<nat>)
    ensures k.Some? ==> k.value < |pending| && !pending[k.value].used
  {
    if raw.Some? && !Blank(raw.value) && FindUnused(pending, raw, 0).Some? then FindUnused(pending, raw, 0)
    else FindUnused(pending, None, 0)
  }

  function MarkUsed(pending: seq<Pending>, k: nat): (marked: seq<Pending>)
    requires k < |pending|
    ensures |marked| == |pending|
  {
    pending[k := pending[k].(used := true)]
  }

  /** Whether the trimmed, non-blank form of the raw id is already the given id. */
  predicate AlreadyCarries(raw: Option<string>, id: string) {
    raw.Some? && !Blank(raw.value) && Trim(raw.value) == id
  }

  function Preview(content: Content): string {
    match content
    case Text(text) => text
    case Null => "null"
    case Structured(json) => json
  }

  function DowngradeTool(m: Message, policy: Policy): Message {
    m.(role := User, toolCallId := None, toolCalls := None,
       content := Text(if policy == Compat then RESULT_NOTE + Preview(m.content) else Preview(m.content)))
  }

  function Unresolved(pending: seq<Pending>): seq<Pending> {
    if pending == [] then []
    else if pending[0].used then Unresolved(pending[1..])
    else [pending[0]] + Unresolved(pending[1..])
  }

  function Without(calls: seq<ToolCall>, id: string): (kept: seq<ToolCall>)
    ensures |kept| <= |calls|
  {
    if calls == [] then []
    else (if calls[0].id == Some(id) then [] else [calls[0]]) + Without(calls[1..], id)
  }

  function ContentWithoutCalls(content: Content, policy: Policy): Content {
    if content.Null? || (content.Text? && Blank(content.text))
    then Text(if policy == Compat then CALL_NOTE else "")
    else content
  }

  function CallCount(m: Message): nat {
    if m.toolCalls.Some? then |m.toolCalls.value| else 0
  }

  /** Removes every call with this id from the message. */
  function DropCall(m: Message, id: string, policy: Policy): (r: Message)
    ensures CallCount(r) <= CallCount(m)
  {
    if m.toolCalls.None? then m
    else
      var kept := Without(m.toolCalls.value, id);
      if kept == [] then m.(toolCalls := None, content := ContentWithoutCalls(m.content, policy))
      else m.(toolCalls := Some(kept))
  }

  function DropCalls(messages: seq<Message>, unresolved: seq<Pending>, policy: Policy): (r: seq<Message>)
    ensures |r| == |messages|
    decreases |unresolved|
  {
    if unresolved == [] then messages
    else
      var p := unresolved[0];
      var next := if p.at < |messages| then messages[p.at := DropCall(messages[p.at], p.id, policy)] else messages;
      DropCalls(next, unresolved[1..], policy)
  }

  function DroppedCalls(messages: seq<Message>, unresolved: seq<Pending>, policy: Policy): nat
    decreases |unresolved|
  {
    if unresolved == [] then 0
    else
      var p := unresolved[0];
      if p.at < |messages| then
        var m := DropCall(messages[p.at], p.id, policy);
        CallCount(messages[p.at]) - CallCount(m) + DroppedCalls(messages[p.at := m], unresolved[1..], policy)
      else DroppedCalls(messages, unresolved[1..], policy)
  }

  /** The state of the first pass between two messages. */
  datatype Scan = Scan(messages: seq<Message>, pending: seq<Pending>, repair: Repair)

  function Settle(s: Scan, policy: Policy): (r: Scan)
    ensures |r.messages| == |s.messages|
  {
    var unresolved := Unresolved(s.pending);
    Scan(
      DropCalls(s.messages, unresolved, policy), [],
      s.repair.(downgradedCalls := s.repair.downgradedCalls + DroppedCalls(s.messages, unresolved, policy)))
  }

  function StepAssistant(s: Scan, i: nat): (r: Scan)
    requires i < |s.messages|
    ensures |r.messages| == |s.messages|
  {
    var m := s.messages[i];
    if m.toolCalls.None? then s
    else
      var filled := FillIds(m.toolCalls.value, i);
      Scan(
        s.messages[i := m.(toolCalls := Some(filled))],
        s.pending + PendingOf(filled, i),
        s.repair.(syntheticIds := s.repair.syntheticIds + MissingIds(m.toolCalls.value, |m.toolCalls.value|)))
  }

  function StepTool(s: Scan, i: nat, policy: Policy): (r: Scan)
    requires i < |s.messages|
    ensures |r.messages| == |s.messages|
  {
    var m := s.messages[i];
    match MatchPending(s.pending, m.toolCallId)
    case None =>
      s.(messages := s.messages[i := DowngradeTool(m, policy)],
         repair := s.repair.(downgradedResults := s.repair.downgradedResults + 1))
    case Some(k) =>
      var id := s.pending[k].id;
      if AlreadyCarries(m.toolCallId, id) then s.(pending := MarkUsed(s.pending, k))
      else
        Scan(
          s.messages[i := m.(toolCallId := Some(id))],
          MarkUsed(s.pending, k),
          s.repair.(pairedResults := s.repair.pairedResults + 1))
  }

  function ScanStep(s: Scan, i: nat, policy: Policy): (r: Scan)
    requires i < |s.messages|
    ensures |r.messages| == |s.messages|
  {
    var role := s.messages[i].role;
    var s := if role != Tool && !AllUsed(s.pending) then Settle(s, policy) else s;
    if role == Assistant then StepAssistant(s, i)
    else if role == Tool then StepTool(s, i, policy)
    else s
  }

  function ScanFrom(s: Scan, i: nat, policy: Policy): (r: Scan)
    requires i <= |s.messages|
    ensures |r.messages| == |s.messages|
    decreases |s.messages| - i
  {
    if i == |s.messages| then Settle(s, policy) else ScanFrom(ScanStep(s, i, policy), i + 1, policy)
  }

  // ---- Pass two: stable ids ---------------------------------------------------

  function StableCall(call: ToolCall, messageIndex: nat, toolIndex: nat): ToolCall {
    call.(id := Some(SyntheticId(messageIndex, toolIndex, call)))
  }

  function StableCalls(calls: seq<ToolCall>, messageIndex: nat): seq<ToolCall> {
    seq(|calls|, t requires 0 <= t < |calls| => StableCall(calls[t], messageIndex, t))
  }

  /** The id map after the first n calls of a message. */
  function MapIds(ids: map<string, string>, calls: seq<ToolCall>, messageIndex: nat, n: nat): map<string, string>
    requires n <= |calls|
  {
    if n == 0 then ids
    else
      var before := MapIds(ids, calls, messageIndex, n - 1);
      var call := calls[n - 1];
      if HasId(call) then before[call.id.value := SyntheticId(messageIndex, n - 1, call)] else before
  }

  function ChangedCalls(calls: seq<ToolCall>, messageIndex: nat, n: nat): nat
    requires n <= |calls|
  {
    if n == 0 then 0
    else
      ChangedCalls(calls, messageIndex, n - 1)
      + (if calls[n - 1].id == Some(SyntheticId(messageIndex, n - 1, calls[n - 1])) then 0 else 1)
  }

  function IdsAfter(ids: map<string, string>, m: Message, i: nat): map<string, string> {
    if m.toolCalls.Some? then MapIds(ids, m.toolCalls.value, i, |m.toolCalls.value|) else ids
  }

  /** One message under the id map that already holds its own calls. */
  function Stabilized(m: Message, i: nat, ids: map<string, string>): Message {
    m.(toolCalls := if m.toolCalls.Some? then Some(StableCalls(m.toolCalls.value, i)) else None,
       toolCallId :=
         if m.role == Tool && m.toolCallId.Some? && m.toolCallId.value in ids
         then Some(ids[m.toolCallId.value]) else m.toolCallId)
  }

  function ChangedIds(m: Message, i: nat, ids: map<string, string>): nat {
    (if m.toolCalls.Some? then ChangedCalls(m.toolCalls.value, i, |m.toolCalls.value|) else 0)
    + (if Stabilized(m, i, ids).toolCallId == m.toolCallId then 0 else 1)
  }

  /** The list of messages from position i on, given the ids met before it. */
  function StabilizeFrom(rest: seq<Message>, i: nat, ids: map<string, string>): (r: seq<Message>)
    ensures |r| == |rest|
    decreases |rest|
  {
    if rest == [] then []
    else
      var ids' := IdsAfter(ids, rest[0], i);
      [Stabilized(rest[0], i, ids')] + StabilizeFrom(rest[1..], i + 1, ids')
  }

  function ChangedFrom(rest: seq<Message>, i: nat, ids: map<string, string>): nat
    decreases |rest|
  {
    if rest == [] then 0
    else
      var ids' := IdsAfter(ids, rest[0], i);
      ChangedIds(rest[0], i, ids') + ChangedFrom(rest[1..], i + 1, ids')
  }

  // ---- The whole canonicalization ---------------------------------------------

  function Paired(messages: seq<Message>, policy: Policy): Scan {
    ScanFrom(Scan(messages, [], NO_REPAIR), 0, policy)
  }

  function Canonical(messages: seq<Message>, policy: Policy): (r: seq<Message>)
  {
    StabilizeFrom(Paired(messages, policy).messages, 0, map[])
  }

  function CanonicalRepair(messages: seq<Message>, policy: Policy): Repair {
    var s := Paired(messages, policy);
    s.repair.(stabilizedIds := s.repair.stabilizedIds + ChangedFrom(s.messages, 0, map[]))
  }

  // ---- The passes in place ----------------------------------------------------

  method MarkPendingUsed(pending: seq<Pending>, id: string) returns (marked: seq<Pending>, hit: Option<string>)
    ensures match FindUnused(pending, Some(id), 0)
            case Some(k) => marked == MarkUsed(pending, k) && hit == Some(pending[k].id)
            case None => marked == pending && hit == None
  {
    marked, hit := pending, None;
    for k := 0 to |pending|
      invariant FindUnused(pending, Some(id), 0) == FindUnused(pending, Some(id), k)
    {
      if pending[k].id == id && !pending[k].used {
        return MarkUsed(pending, k), Some(pending[k].id);
      }
    }
  }

  method ConsumeNextPending(pending: seq<Pending>) returns (marked: seq<Pending>, hit: Option<string>)
    ensures match FindUnused(pending, None, 0)
            case Some(k) => marked == MarkUsed(pending, k) && hit == Some(pending[k].id)
            case None => marked == pending && hit == None
  {
    marked, hit := pending, None;
    for k := 0 to |pending|
      invariant FindUnused(pending, None, 0) == FindUnused(pending, None, k)
    {
      if !pending[k].used {
        return MarkUsed(pending, k), Some(pending[k].id);
      }
    }
  }

  method CollectUnresolved(pending: seq<Pending>) returns (unresolved: seq<Pending>)
    ensures unresolved == Unresolved(pending)
  {
    unresolved := [];
    for k := 0 to |pending|
      invariant unresolved + Unresolved(pending[k..]) == Unresolved(pending)
    {
      assert pending[k..][1..] == pending[k + 1..];
      if !pending[k].used { unresolved := unresolved + [pending[k]]; }
    }
  }

  lemma WithoutStep(calls: seq<ToolCall>, id: string, t: nat)
    requires t < |calls|
    ensures Without(calls[t..], id) == (if calls[t].id == Some(id) then [] else [calls[t]]) + Without(calls[t + 1..], id)
    ensures Without(calls[|calls|..], id) == []
  {
    assert calls[t..][1..] == calls[t + 1..];
    assert [] + Without(calls[t + 1..], id) == Without(calls[t + 1..], id);
  }

  method RetainOthers(calls: seq<ToolCall>, id: string) returns (kept: seq<ToolCall>)
    ensures kept == Without(calls, id)
  {
    hide Without;
    kept := [];
    for t := 0 to |calls|
      invariant kept + Without(calls[t..], id) == Without(calls, id)
    {
      WithoutStep(calls, id, t);
      if calls[t].id != Some(id) { kept := kept + [calls[t]]; }
    }
  }

  method DowngradeUnresolvedPending(
      messages: array<Message>, pending: seq<Pending>, repair: Repair, policy: Policy)
    returns (rest: seq<Pending>, after: Repair)
    modifies messages
    ensures Scan(messages[..], rest, after) == Settle(Scan(old(messages[..]), pending, repair), policy)
  {
    var unresolved := CollectUnresolved(pending);
    after := repair;
    for u := 0 to |unresolved|
      invariant DropCalls(messages[..], unresolved[u..], policy) == DropCalls(old(messages[..]), unresolved, policy)
      invariant after.(downgradedCalls := 0) == repair.(downgradedCalls := 0)
      invariant after.downgradedCalls + DroppedCalls(messages[..], unresolved[u..], policy)
             == repair.downgradedCalls + DroppedCalls(old(messages[..]), unresolved, policy)
    {
      var p := unresolved[u];
      ghost var before := messages[..];
      assert unresolved[u..][1..] == unresolved[u + 1..];
      if p.at >= messages.Length { continue; }
      var m := messages[p.at];
      if m.toolCalls.None? {
        assert before[p.at := m] == before;
        continue;
      }
      var kept := RetainOthers(m.toolCalls.value, p.id);
      after := after.(downgradedCalls := after.downgradedCalls + |m.toolCalls.value| - |kept|);
      if kept == [] {
        m := m.(toolCalls := None, content := ContentWithoutCalls(m.content, policy));
      } else {
        m := m.(toolCalls := Some(kept));
      }
      messages[p.at] := m;
      assert messages[..] == before[p.at := m];
    }
    rest := [];
  }

  method FillCallIds(calls: seq<ToolCall>, messageIndex: nat, pending: seq<Pending>)
    returns (filled: seq<ToolCall>, grown: seq<Pending>, synthetic: nat)
    ensures filled == FillIds(calls, messageIndex)
    ensures grown == pending + PendingOf(filled, messageIndex)
    ensures synthetic == MissingIds(calls, |calls|)
  {
    hide SyntheticId, Blank, Clean;
    filled, grown, synthetic := calls, pending, 0;
    for t := 0 to |calls|
      invariant |filled| == |calls|
      invariant forall k :: 0 <= k < t ==> filled[k] == FillId(calls[k], messageIndex, k)
      invariant forall k :: t <= k < |calls| ==> filled[k] == calls[k]
      invariant grown == pending + PendingOf(filled[..t], messageIndex)
      invariant synthetic == MissingIds(calls, t)
    {
      ghost var done := filled[..t];
      if !HasId(calls[t]) {
        filled := filled[t := calls[t].(id := Some(SyntheticId(messageIndex, t, calls[t])))];
        synthetic := synthetic + 1;
      }
      SyntheticIdClean(messageIndex, t, calls[t]);
      if HasId(filled[t]) {
        grown := grown + [Pending(filled[t].id.value, messageIndex, false)];
      }
      assert filled[..t + 1] == done + [filled[t]];
    }
    assert filled[..|calls|] == filled;
  }

  method StabilizeCalls(calls: seq<ToolCall>, messageIndex: nat, ids: map<string, string>)
    returns (renamed: seq<ToolCall>, after: map<string, string>, changed: nat)
    ensures renamed == StableCalls(calls, messageIndex)
    ensures after == MapIds(ids, calls, messageIndex, |calls|)
    ensures changed == ChangedCalls(calls, messageIndex, |calls|)
  {
    hide SyntheticId, Blank;
    renamed, after, changed := calls, ids, 0;
    for t := 0 to |calls|
      invariant |renamed| == |calls|
      invariant forall k :: 0 <= k < t ==> renamed[k] == StableCall(calls[k], messageIndex, k)
      invariant forall k :: t <= k < |calls| ==> renamed[k] == calls[k]
      invariant after == MapIds(ids, calls, messageIndex, t)
      invariant changed == ChangedCalls(calls, messageIndex, t)
    {
      var stable := SyntheticId(messageIndex, t, calls[t]);
      if HasId(calls[t]) { after := after[calls[t].id.value := stable]; }
      if calls[t].id != Some(stable) {
        renamed := renamed[t := calls[t].(id := Some(stable))];
        changed := changed + 1;
      }
    }
  }

  method StabilizeMessage(m: Message, i: nat, ids: map<string, string>)
    returns (stable: Message, after: map<string, string>, changed: nat)
    ensures after == IdsAfter(ids, m, i)
    ensures stable == Stabilized(m, i, after)
    ensures changed == ChangedIds(m, i, after)
  {
    stable, after, changed := m, ids, 0;
    if m.toolCalls.Some? {
      var renamed;
      renamed, after, changed := StabilizeCalls(m.toolCalls.value, i, ids);
      stable := stable.(toolCalls := Some(renamed));
    }
    if m.role == Tool && m.toolCallId.Some? && m.toolCallId.value in after {
      var id := after[m.toolCallId.value];
      if m.toolCallId.value != id {
        stable := stable.(toolCallId := Some(id));
        changed := changed + 1;
      }
    }
  }

  method StabilizeToolCallIds(messages: array<Message>) returns (changed: nat)
    modifies messages
    ensures messages[..] == StabilizeFrom(old(messages[..]), 0, map[])
    ensures changed == ChangedFrom(old(messages[..]), 0, map[])
  {
    changed := 0;
    var ids: map<string, string> := map[];
    ghost var was := messages[..];
    for i := 0 to messages.Length
      invariant messages[i..] == was[i..]
      invariant messages[..i] + StabilizeFrom(was[i..], i, ids) == StabilizeFrom(was, 0, map[])
      invariant changed + ChangedFrom(was[i..], i, ids) == ChangedFrom(was, 0, map[])
    {
      hide IdsAfter, Stabilized, ChangedIds;
      assert was[i..][1..] == was[i + 1..];
      ghost var done := messages[..i];
      assert messages[i] == messages[i..][0] == was[i];
      var stable, after, more := StabilizeMessage(messages[i], i, ids);
      messages[i], ids, changed := stable, after, changed + more;
      assert messages[..i + 1] == done + [stable];
      assert messages[i + 1..] == messages[i..][1..] == was[i + 1..];
    }
    assert messages[..messages.Length] == messages[..];
  }

  method PairToolMessage(messages: array<Message>, i: nat, pending: seq<Pending>, repair: Repair, policy: Policy)
    returns (marked: seq<Pending>, after: Repair)
    requires i < messages.Length
    modifies messages
    ensures Scan(messages[..], marked, after) == StepTool(Scan(old(messages[..]), pending, repair), i, policy)
  {
    hide DowngradeTool, Blank, Trim;
    var m := messages[i];
    ghost var was := messages[..];
    assert was[i := m] == was;
    marked, after := pending, repair;
    var hit: Option<string> := None;
    if m.toolCallId.Some? && !Blank(m.toolCallId.value) {
      marked, hit := MarkPendingUsed(marked, m.toolCallId.value);
    }
    if hit.None? {
      marked, hit := ConsumeNextPending(marked);
    }
    if hit.None? {
      messages[i] := DowngradeTool(m, policy);
      after := after.(downgradedResults := after.downgradedResults + 1);
    } else if !AlreadyCarries(m.toolCallId, hit.value) {
      messages[i] := m.(toolCallId := Some(hit.value));
      after := after.(pairedResults := after.pairedResults + 1);
    }
    assert messages[..] == was[i := messages[i]];
  }

  method PairMessage(messages: array<Message>, i: nat, pending: seq<Pending>, repair: Repair, policy: Policy)
    returns (after: seq<Pending>, repaired: Repair)
    requires i < messages.Length
    modifies messages
    ensures Scan(messages[..], after, repaired) == ScanStep(Scan(old(messages[..]), pending, repair), i, policy)
  {
    hide StepTool, Settle, FillIds;
    after, repaired := pending, repair;
    var role := messages[i].role;
    if role != Tool && exists p <- pending :: !p.used {
      after, repaired := DowngradeUnresolvedPending(messages, after, repaired, policy);
    }
    ghost var was := messages[..];
    var m := messages[i];
    if role == Assistant && m.toolCalls.Some? {
      var filled, grown, synthetic := FillCallIds(m.toolCalls.value, i, after);
      messages[i] := m.(toolCalls := Some(filled));
      after, repaired := grown, repaired.(syntheticIds := repaired.syntheticIds + synthetic);
      assert messages[..] == was[i := messages[i]];
    } else if role == Tool {
      after, repaired := PairToolMessage(messages, i, after, repaired, policy);
    }
  }

  /** Canonicalizes the history in place and reports what had to be repaired. */
  method CanonicalizeToolHistory(messages: array<Message>, policy: Policy) returns (repair: Repair)
    modifies messages
    ensures messages[..] == Canonical(old(messages[..]), policy)
    ensures repair == CanonicalRepair(old(messages[..]), policy)
  {
    hide ScanStep, Settle;
    repair := NO_REPAIR;
    var pending: seq<Pending> := [];
    for i := 0 to messages.Length
      invariant ScanFrom(Scan(messages[..], pending, repair), i, policy) == Paired(old(messages[..]), policy)
    {
      pending, repair := PairMessage(messages, i, pending, repair, policy);
    }
    pending, repair := DowngradeUnresolvedPending(messages, pending, repair, policy);
    var changed := StabilizeToolCallIds(messages);
    repair := repair.(stabilizedIds := repair.stabilizedIds + changed);
  }

  // ---- Facts about synthetic ids ----------------------------------------------

  lemma SyntheticIdClean(messageIndex: nat, toolIndex: nat, call: ToolCall)
    ensures Clean(SyntheticId(messageIndex, toolIndex, call))
    ensures !Blank(SyntheticId(messageIndex, toolIndex, call))
  {
    var id := SyntheticId(messageIndex, toolIndex, call);
    assert id[..1] == "c" && id[..2] == "ca" && id[..3] == "cal";
    var last := id[|id| - 1];
    assert id[|id| - 1..][0] == last && id[|id| - 2..][1] == last && id[|id| - 3..][2] == last;
    CleanIsTrimmed(id);
  }

  lemma PrintedParts(messageIndex: nat, toolIndex: nat, hash: string)
    ensures var id := PrintedId(messageIndex, toolIndex, hash);
      |id| >= 9 && id[9..] == Decimal(messageIndex) + ['_'] + (Decimal(toolIndex) + ['_'] + hash)
  {
    hide Decimal;
    var id := PrintedId(messageIndex, toolIndex, hash);
    assert id == "call_fmc_" + (Decimal(messageIndex) + ['_'] + (Decimal(toolIndex) + ['_'] + hash));
  }

  lemma PrintedIdInjective(m1: nat, t1: nat, h1: string, m2: nat, t2: nat, h2: string)
    requires PrintedId(m1, t1, h1) == PrintedId(m2, t2, h2)
    ensures m1 == m2 && t1 == t2
  {
    hide PrintedId, Decimal;
    var rest1 := Decimal(t1) + ['_'] + h1;
    var rest2 := Decimal(t2) + ['_'] + h2;
    PrintedParts(m1, t1, h1);
    PrintedParts(m2, t2, h2);
    SplitUnique(Decimal(m1), rest1, Decimal(m2), rest2, '_');
    SplitUnique(Decimal(t1), h1, Decimal(t2), h2, '_');
    DecimalInjective(m1, m2);
    DecimalInjective(t1, t2);
  }

  /** Two positions give the same id only if they are the same position. */
  lemma SyntheticIdInjective(m1: nat, t1: nat, c1: ToolCall, m2: nat, t2: nat, c2: ToolCall)
    requires SyntheticId(m1, t1, c1) == SyntheticId(m2, t2, c2)
    ensures m1 == m2 && t1 == t2
  {
    var material1 := Decimal(m1) + ":" + Decimal(t1) + ":" + c1.name + ":" + c1.arguments;
    var material2 := Decimal(m2) + ":" + Decimal(t2) + ":" + c2.name + ":" + c2.arguments;
    PrintedIdInjective(m1, t1, Hex(StableHash(FNV_OFFSET, material1), 16), m2, t2, Hex(StableHash(FNV_OFFSET, material2), 16));
  }
}
