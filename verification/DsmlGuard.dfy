/**
  The hold-back guard of dsml_guard.rs: chunks of assistant text pass through it
  so that tool markup is withheld even when a chunk boundary splits it.
*/
module DsmlGuard {
  import opened Utf8Text

  const INVOKE := "invoke name="

  /** EF BD 9C is the full-width bar, U+FF5C. */
  const MARKERS: set<string> := {
    "DSML|tool_calls", "DSML\U{EF}\U{BD}\U{9C}tool_calls",
    "\U{EF}\U{BD}\U{9C}DSML\U{EF}\U{BD}\U{9C}", "|DSML|",
    "<\U{EF}\U{BD}\U{9C}DSML\U{EF}\U{BD}\U{9C}", "<|DSML|",
    "</\U{EF}\U{BD}\U{9C}DSML\U{EF}\U{BD}\U{9C}", "</|DSML|",
    "invoke name=", "<invoke name", "</invoke>", "<parameter name=", "</parameter>"
  }

  const PREFIXES: set<string> := {
    "<\U{EF}\U{BD}\U{9C}DSML\U{EF}\U{BD}\U{9C}", "<|DSML|",
    "</\U{EF}\U{BD}\U{9C}DSML\U{EF}\U{BD}\U{9C}", "</|DSML|",
    "<invoke", "invoke name=", "</invoke>", "<parameter", "</parameter",
    "DSML|", "DSML\U{EF}\U{BD}\U{9C}", "\U{EF}\U{BD}\U{9C}DSML\U{EF}\U{BD}\U{9C}", "|DSML|"
  }

  const MAX_HOLD: nat := 16

  // ---- Searching --------------------------------------------------------------

  predicate Leaks(text: string) {
    exists m :: m in MARKERS && Contains(text, m)
  }

  /** The last occurrence that starts at or before the position. */
  function RFindUpTo(text: string, pattern: string, i: nat): (k: Option<nat>)
    ensures k.Some? ==> k.value <= i && OccursAt(text, pattern, k.value)
  {
    if OccursAt(text, pattern, i) then Some(i) else if i == 0 then None else RFindUpTo(text, pattern, i - 1)
  }

  function RFind(text: string, pattern: string): (k: Option<nat>)
    ensures k.Some? ==> k.value <= |text| && OccursAt(text, pattern, k.value)
  {
    RFindUpTo(text, pattern, |text|)
  }

  // ---- How much to hold back --------------------------------------------------

  predicate StartsMarker(suffix: string) {
    exists m :: m in PREFIXES && |suffix| < |m| && m[..|suffix|] == suffix
  }

  /** The last n bytes may be the start of a marker. */
  predicate Suspect(text: string, n: nat)
    requires n <= |text|
  {
    IsBoundary(text, |text| - n) && (StartsMarker(text[|text| - n..]) || text[|text| - n..] == "<")
  }

  /** The shortest suspect suffix of at least n and at most max bytes, 0 if there is none. */
  function HoldFrom(text: string, n: nat, max: nat): (hold: nat)
    requires max <= |text|
    ensures hold <= max
    decreases max + 1 - n
  {
    if n > max then 0 else if Suspect(text, n) then n else HoldFrom(text, n + 1, max)
  }

  /** An opener that has begun but shows neither its name nor its close yet. */
  function OpenerHold(text: string, opener: string, named: string, close: string): (hold: nat)
    ensures hold <= |text|
  {
    var k := RFind(text, opener);
    if k.Some? && !Contains(text[k.value..], named) && !Contains(text[k.value..], close) then |text| - k.value else 0
  }

  function HoldLen(text: string): (hold: nat)
    ensures hold <= |text|
  {
    if text == "" then 0
    else
      var invoke := OpenerHold(text, "<invoke", "invoke name", "</invoke>");
      if invoke > 0 then invoke
      else
        var parameter := OpenerHold(text, "<parameter", "parameter name", "</parameter>");
        if parameter > 0 then parameter else HoldFrom(text, 1, Min(MAX_HOLD, |text|))
  }

  // ---- One chunk --------------------------------------------------------------

  /** The text still held, the text released if any, and whether markup was found. */
  datatype Taken = Taken(held: string, emit: Option<string>, leaked: bool)

  function Take(held: string, chunk: string): Taken {
    if chunk == "" then Taken(held, None, false)
    else
      var text := held + chunk;
      if Leaks(text) then Taken(text, None, true)
      else
        var hold := HoldLen(text);
        if hold == 0 then Taken("", Some(text), false)
        else if hold == |text| then Taken(text, None, false)
        else Taken(text[|text| - hold..], Some(text[..|text| - hold]), false)
  }

  function Flush(held: string): Taken {
    if held == "" then Taken("", None, false)
    else if Leaks(held) then Taken(held, None, true)
    else Taken("", Some(held), false)
  }

  // ---- The guard in place -----------------------------------------------------

  method PartialHoldLen(text: string) returns (hold: nat)
    ensures hold == HoldLen(text)
  {
    hide OccursAt, Contains, Suspect, RFindUpTo;
    if text == "" { return 0; }
    var k := RFind(text, "<invoke");
    if k.Some? {
      var tail := text[k.value..];
      if !Contains(tail, "invoke name") && !Contains(tail, "</invoke>") && |tail| > 0 { return |tail|; }
    }
    k := RFind(text, "<parameter");
    if k.Some? {
      var tail := text[k.value..];
      if !Contains(tail, "parameter name") && !Contains(tail, "</parameter>") && |tail| > 0 { return |tail|; }
    }
    var max := Min(MAX_HOLD, |text|);
    for n := 1 to max + 1
      invariant HoldFrom(text, 1, max) == HoldFrom(text, n, max)
    {
      if Suspect(text, n) { return n; }
    }
    return 0;
  }

  class HoldBack {
    var text: string

    constructor ()
      ensures text == ""
    {
      text := "";
    }

    method TakeEmittable(chunk: string) returns (emit: Option<string>, leaked: bool)
      modifies this
      ensures Taken(text, emit, leaked) == Take(old(text), chunk)
    {
      if chunk == "" { return None, false; }
      text := text + chunk;
      if Leaks(text) { return None, true; }
      var hold := PartialHoldLen(text);
      if hold > 0 {
        var emitLen := |text| - hold;
        if emitLen == 0 { return None, false; }
        emit, leaked := Some(text[..emitLen]), false;
        text := text[emitLen..];
        return;
      }
      emit, leaked := Some(text), false;
      text := "";
    }

    method FlushRest() returns (emit: Option<string>, leaked: bool)
      modifies this
      ensures Taken(text, emit, leaked) == Flush(old(text))
    {
      if text == "" { return None, false; }
      if Leaks(text) { return None, true; }
      emit, leaked := Some(text), false;
      text := "";
    }
  }
}
