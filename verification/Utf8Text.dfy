/**
  Text as the program stores it: a string is its sequence of UTF-8 bytes, one
  `char` per byte, so that lengths, offsets and slices are byte lengths, byte
  offsets and byte slices.
*/
module Utf8Text {
  datatype Option<+T> = None | Some(value: T)

  /** One encoded scalar with the Unicode White_Space property. */
  predicate IsWhiteSpace(scalar: string) {
    || scalar in {"\t", "\n", "\U{0B}", "\U{0C}", "\r", " "}
    || scalar in {"\U{C2}\U{85}", "\U{C2}\U{A0}"}
    || (|scalar| == 3 && scalar[..2] == "\U{E2}\U{80}"
        && ('\U{80}' <= scalar[2] <= '\U{8A}' || scalar[2] in {'\U{A8}', '\U{A9}', '\U{AF}'}))
    || scalar in {"\U{E1}\U{9A}\U{80}", "\U{E2}\U{81}\U{9F}", "\U{E3}\U{80}\U{80}"}
  }

  /** How many bytes of white space start the text with one scalar, 0 if none. */
  function SpaceAtFront(s: string): nat {
    if |s| >= 1 && IsWhiteSpace(s[..1]) then 1
    else if |s| >= 2 && IsWhiteSpace(s[..2]) then 2
    else if |s| >= 3 && IsWhiteSpace(s[..3]) then 3
    else 0
  }

  function SpaceAtBack(s: string): nat {
    if |s| >= 1 && IsWhiteSpace(s[|s| - 1..]) then 1
    else if |s| >= 2 && IsWhiteSpace(s[|s| - 2..]) then 2
    else if |s| >= 3 && IsWhiteSpace(s[|s| - 3..]) then 3
    else 0
  }

  function TrimStart(s: string): (t: string)
    ensures |t| <= |s|
  {
    var n := SpaceAtFront(s);
    if n == 0 then s else TrimStart(s[n..])
  }

  function TrimEnd(s: string): (t: string)
    ensures |t| <= |s|
  {
    var n := SpaceAtBack(s);
    if n == 0 then s else TrimEnd(s[..|s| - n])
  }

  function Trim(s: string): string {
    TrimEnd(TrimStart(s))
  }

  predicate Blank(s: string) {
    Trim(s) == ""
  }

  /** Non-blank and without surrounding white space. */
  predicate Clean(s: string) {
    s != "" && SpaceAtFront(s) == 0 && SpaceAtBack(s) == 0
  }

  lemma CleanIsTrimmed(s: string)
    requires Clean(s)
    ensures Trim(s) == s && !Blank(s) && s != ""
  {
  }

  // ---- Searching --------------------------------------------------------------

  predicate OccursAt(text: string, pattern: string, i: nat) {
    i + |pattern| <= |text| && text[i..i + |pattern|] == pattern
  }

  predicate Contains(text: string, pattern: string) {
    exists i :: 0 <= i <= |text| && OccursAt(text, pattern, i)
  }

  /** The first occurrence that starts at or after the offset. */
  function IndexFrom(text: string, pattern: string, i: nat): (k: Option<nat>)
    ensures k.Some? ==> i <= k.value && OccursAt(text, pattern, k.value)
    ensures k.Some? ==> forall j :: i <= j < k.value ==> !OccursAt(text, pattern, j)
    ensures k.None? ==> forall j :: i <= j ==> !OccursAt(text, pattern, j)
    decreases |text| - i
  {
    if i + |pattern| > |text| then None
    else if OccursAt(text, pattern, i) then Some(i)
    else IndexFrom(text, pattern, i + 1)
  }

  /** A byte that continues a scalar. */
  predicate Continues(c: char) {
    '\U{80}' <= c < '\U{C0}'
  }

  /** Whether a byte offset falls between two scalars. */
  predicate IsBoundary(text: string, i: nat)
    requires i <= |text|
  {
    i == |text| || !Continues(text[i])
  }

  /** What every UTF-8 text satisfies: a continuing byte never follows an ASCII byte. */
  predicate Encoded(text: string) {
    forall i :: 0 <= i < |text| && Continues(text[i]) ==> i > 0 && text[i - 1] >= '\U{80}'
  }

  // ---- Joining ----------------------------------------------------------------

  function Concat(chunks: seq<string>): string {
    if chunks == [] then "" else chunks[0] + Concat(chunks[1..])
  }

  /** Seen from its end, joined text is the text before the last chunk, and that chunk. */
  lemma {:induction false} ConcatEnd(chunks: seq<string>)
    ensures chunks != [] ==> Concat(chunks) == Concat(chunks[..|chunks| - 1]) + chunks[|chunks| - 1]
  {
    if |chunks| == 1 {
      assert Concat(chunks[1..]) == "" && Concat(chunks[..0]) == "";
    } else if |chunks| > 1 {
      ConcatEnd(chunks[1..]);
      assert chunks[1..][..|chunks| - 2] == chunks[..|chunks| - 1][1..];
    }
  }

  lemma ConcatAppend(chunks: seq<string>, chunk: string)
    ensures Concat(chunks + [chunk]) == Concat(chunks) + chunk
  {
    hide Concat;
    ConcatEnd(chunks + [chunk]);
    assert (chunks + [chunk])[..|chunks|] == chunks;
  }

  // ---- Numbers ----------------------------------------------------------------

  /** One more than the largest machine word. */
  const WORD: nat := 0x1_0000_0000_0000_0000

  function Min(a: int, b: int): int {
    if a < b then a else b
  }

  predicate IsDigit(c: char) {
    '0' <= c <= '9'
  }

  /** Decimal rendering of an index. */
  function Decimal(n: nat): (s: string)
    ensures s != "" && forall c <- s :: IsDigit(c)
  {
    if n < 10 then [(n as char) + '0'] else Decimal(n / 10) + [((n % 10) as char) + '0']
  }

  /** The value a run of digits stands for. */
  function DecimalValue(s: string): nat
    requires forall c <- s :: IsDigit(c)
  {
    if s == "" then 0
    else
      assert IsDigit(s[|s| - 1]);
      10 * DecimalValue(s[..|s| - 1]) + (s[|s| - 1] as nat - '0' as nat)
  }

  /** Reading a printed number gives the number back, so printing is injective. */
  lemma {:induction false} DecimalRoundTrip(n: nat)
    ensures DecimalValue(Decimal(n)) == n
  {
    if n < 10 {
      assert Decimal(n)[..0] == "";
    } else {
      DecimalRoundTrip(n / 10);
      assert Decimal(n)[..|Decimal(n)| - 1] == Decimal(n / 10);
    }
  }

  lemma DecimalInjective(m: nat, n: nat)
    requires Decimal(m) == Decimal(n)
    ensures m == n
  {
    DecimalRoundTrip(m);
    DecimalRoundTrip(n);
  }

  /** A separator that neither head contains splits a text in only one way. */
  lemma SplitUnique(a: string, x: string, b: string, y: string, sep: char)
    requires sep !in a && sep !in b
    requires a + [sep] + x == b + [sep] + y
    ensures a == b && x == y
  {
    var w := a + [sep] + x;
    assert w == b + [sep] + y;
    assert w[|a|] == sep && w[|b|] == sep;
    assert |a| == |b|;
    assert a == w[..|a|] && b == w[..|b|];
    assert x == w[|a| + 1..] && y == w[|b| + 1..];
  }
}
