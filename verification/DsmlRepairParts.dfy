/**
  Reading leaked calls back in every spelling that the repair knows
  (dsml_repair.rs): named parameters with any quotes, case and closing tag, plain
  elements, and white space and closing tags between them.
*/
module DsmlRepairParts {
  import opened Utf8Text
  import opened DsmlRepair
  import opened DsmlRepairLaws

  // ---- Parts of a leaked call -------------------------------------------------

  datatype Quote = Double | Single | Bare

  /** A tag up to its attribute value, say `<|DSML|parameter name= "`, and what comes before its closing bracket. */
  datatype Tag = Tag(lead: string, attribute: string, gap: string, quote: Quote, extra: string)

  /** A value with white space around it. */
  datatype Padded = Padded(before: string, value: string, after: string)

  datatype Part =
    | Named(tag: Tag, key: string, content: Padded, close: string)
    | Plain(open: string, key: string, content: Padded, close: string)
    | Between(text: string)

  const LEADS := {"<", "<|DSML|", "<\U{EF}\U{BD}\U{9C}DSML\U{EF}\U{BD}\U{9C}"}
  const CLOSES := {
    "</parameter>", "</|dsml|parameter>", "</\U{EF}\U{BD}\U{9C}dsml\U{EF}\U{BD}\U{9C}parameter>"}

  function Quoted(quote: Quote, word: string): string {
    match quote
    case Double => "\"" + word + "\""
    case Single => "'" + word + "'"
    case Bare => word
  }

  function TagText(tag: Tag, word: string): string {
    tag.lead + tag.attribute + tag.gap + Quoted(tag.quote, word) + tag.extra + ">"
  }

  function PaddedText(p: Padded): string {
    p.before + p.value + p.after
  }

  function PartText(part: Part): string {
    match part
    case Named(tag, key, content, close) => TagText(tag, key) + PaddedText(content) + close
    case Plain(open, _, content, close) => "<" + open + ">" + PaddedText(content) + "</" + close + ">"
    case Between(text) => text
  }

  function PartsText(parts: seq<Part>): string {
    if parts == [] then "" else PartText(parts[0]) + PartsText(parts[1..])
  }

  // ---- Which parts are meant --------------------------------------------------

  predicate Blanks(s: string) {
    forall i :: 0 <= i < |s| ==> s[i] in {' ', '\t', '\n', '\r'}
  }

  /** What ends a value without quotes. */
  predicate EndsBare(c: char) {
    c in {'>', '|', ' ', '\t', '\n', '\r'}
  }

  predicate GoodTag(tag: Tag, attribute: string) {
    && tag.lead in LEADS && SameLetters(tag.attribute, attribute) && Blanks(tag.gap)
    && '>' !in tag.extra && '<' !in tag.extra
    && (tag.quote == Bare && tag.extra != "" ==> EndsBare(tag.extra[0]))
  }

  /** A trimmed value, or none, without brackets that open, in white space. */
  predicate GoodContent(p: Padded) {
    Blanks(p.before) && Blanks(p.after) && (p.value == "" || Clean(p.value)) && '<' !in p.value
  }

  /** Every bracket opens a closing tag, an invoke tag or one with a bar. */
  predicate Harmless(text: string) {
    forall j :: 0 <= j < |text| && text[j] == '<' ==> j + 1 < |text| && text[j + 1] in {'/', 'i', 'I', '|', '\U{EF}'}
  }

  ghost predicate Good(part: Part) {
    match part
    case Named(tag, key, content, close) =>
      GoodTag(tag, PARAMETER_NAME) && Word(key) && GoodContent(content) && exists c <- CLOSES :: SameLetters(close, c)
    case Plain(open, key, content, close) =>
      key in TAGS && SameLetters(open, key) && SameLetters(close, key) && GoodContent(content)
    case Between(text) => Quiet(text) && Harmless(text) && (Blanks(text) || text[0] == '<')
  }

  ghost predicate AllGood(parts: seq<Part>) {
    forall i :: 0 <= i < |parts| ==> Good(parts[i])
  }

  /** No element holds text that itself names a parameter. */
  ghost predicate AllQuiet(parts: seq<Part>) {
    forall i :: 0 <= i < |parts| && parts[i].Plain? ==> Quiet(PaddedText(parts[i].content))
  }

  // ---- What they say ----------------------------------------------------------

  /** An empty value is no value. */
  function Given(value: string): Option<string> {
    if value == "" then None else Some(value)
  }

  /** The last value under this name. */
  function LastNamed(parts: seq<Part>, key: string): Option<string> {
    if parts == [] then None
    else if LastNamed(parts[1..], key).Some? then LastNamed(parts[1..], key)
    else if parts[0].Named? && parts[0].key == key then Given(parts[0].content.value)
    else None
  }

  /** The value of the first element with this tag. */
  function FirstPlain(parts: seq<Part>, key: string): Option<string> {
    if parts == [] then None
    else if parts[0].Plain? && parts[0].key == key then Given(parts[0].content.value)
    else FirstPlain(parts[1..], key)
  }

  /** A parameter is what was named last, else what the first element of that tag holds. */
  function Argument(parts: seq<Part>, key: string): Option<string> {
    if LastNamed(parts, key).Some? then LastNamed(parts, key)
    else if key in TAGS then FirstPlain(parts, key)
    else None
  }

  function NamedPairs(parts: seq<Part>): seq<Pair> {
    if parts == [] then []
    else (if parts[0].Named? && parts[0].content.value != "" then [Pair(parts[0].key, parts[0].content.value)] else []) + NamedPairs(parts[1..])
  }

  // ---- White space around -----------------------------------------------------

  lemma BlankIsSpace(c: char)
    requires c in {' ', '\t', '\n', '\r'}
    ensures IsWhiteSpace([c])
  {
  }

  lemma WideSpaceIsWide(scalar: string)
    ensures IsWhiteSpace(scalar) && |scalar| >= 2 ==> forall i :: 0 <= i < |scalar| ==> scalar[i] >= '\U{80}'
  {
  }

  lemma {:induction false} TrimGap(gap: string, rest: string)
    requires Blanks(gap) && SpaceAtFront(rest) == 0
    ensures TrimStart(gap + rest) == rest
    decreases |gap|
  {
    hide IsWhiteSpace;
    var s := gap + rest;
    if gap == "" {
      assert s == rest;
    } else {
      BlankIsSpace(gap[0]);
      assert s[..1] == [gap[0]];
      assert SpaceAtFront(s) == 1;
      assert s[1..] == gap[1..] + rest;
      TrimGap(gap[1..], rest);
    }
  }

  lemma {:induction false} TrimTail(value: string, gap: string)
    requires Blanks(gap) && SpaceAtBack(value) == 0
    ensures TrimEnd(value + gap) == value
    decreases |gap|
  {
    hide IsWhiteSpace;
    var s := value + gap;
    if gap == "" {
      assert s == value;
    } else {
      BlankIsSpace(gap[|gap| - 1]);
      assert s[|s| - 1..] == [gap[|gap| - 1]];
      assert SpaceAtBack(s) == 1;
      assert s[..|s| - 1] == value + gap[..|gap| - 1];
      TrimTail(value, gap[..|gap| - 1]);
    }
  }

  lemma FrontKept(value: string, gap: string)
    requires Blanks(gap) && value != "" && SpaceAtFront(value) == 0
    ensures SpaceAtFront(value + gap) == 0
  {
    hide IsWhiteSpace;
    var s := value + gap;
    forall n | 1 <= n <= 3 && n <= |s|
      ensures !IsWhiteSpace(s[..n])
    {
      if n <= |value| {
        assert s[..n] == value[..n];
      } else {
        assert s[..n][|value|] == gap[0] < '\U{80}';
        WideSpaceIsWide(s[..n]);
      }
    }
    assert |s| >= 1 ==> !IsWhiteSpace(s[..1]);
    assert |s| >= 2 ==> !IsWhiteSpace(s[..2]);
    assert |s| >= 3 ==> !IsWhiteSpace(s[..3]);
  }

  lemma ContentIsTrimmed(p: Padded)
    requires GoodContent(p)
    ensures Trim(PaddedText(p)) == p.value
  {
    hide Blanks, SpaceAtFront, SpaceAtBack, TrimStart, TrimEnd;
    if p.value == "" {
      NothingLeftToTrim();
      var gap := p.before + p.after;
      assert Blanks(gap) by { BlanksAppend(p.before, p.after); }
      TrimGap(gap, "");
      assert PaddedText(p) == gap + "";
    } else {
      FrontKept(p.value, p.after);
      assert PaddedText(p) == p.before + (p.value + p.after);
      TrimGap(p.before, p.value + p.after);
      TrimTail(p.value, p.after);
    }
  }

  lemma BlanksAppend(a: string, b: string)
    requires Blanks(a) && Blanks(b)
    ensures Blanks(a + b)
  {
  }

  lemma NothingLeftToTrim()
    ensures SpaceAtFront("") == 0 && TrimEnd("") == ""
  {
  }

  lemma NoBracketInBlanks(s: string)
    requires Blanks(s)
    ensures '<' !in s && '>' !in s
  {
  }

  lemma NoBracketInContent(p: Padded)
    requires GoodContent(p)
    ensures '<' !in PaddedText(p)
  {
    hide Blanks, Clean;
    NoBracketInBlanks(p.before);
    NoBracketInBlanks(p.after);
  }

  // ---- Attribute values -------------------------------------------------------

  lemma {:induction false} BareEndsAt(word: string, back: string)
    requires forall i :: 0 <= i < |word| ==> IsWordByte(word[i])
    requires back != "" && EndsBare(back[0])
    ensures BareEnd(word + back) == |word|
  {
    hide SpaceAtFront;
    var rest := word + back;
    if word == "" {
      assert rest == back;
      if back[0] !in {'>', '|'} { SpaceIsFirst(back); }
    } else {
      NoSpaceFirst(rest);
      assert rest[0] == word[0] && rest[1..] == word[1..] + back;
      BareEndsAt(word[1..], back);
    }
  }

  lemma SpaceIsFirst(s: string)
    requires s != "" && s[0] in {' ', '\t', '\n', '\r'}
    ensures SpaceAtFront(s) == 1
  {
    hide IsWhiteSpace;
    BlankIsSpace(s[0]);
    assert s[..1] == [s[0]];
  }

  lemma SingleWord(word: string, back: string)
    requires Word(word)
    ensures ParseAttrValue("'" + word + "'" + back) == Some((word, |word| + 2))
    ensures SpaceAtFront("'" + word + "'" + back) == 0
  {
    hide OccursAt, IndexFrom, Trim, TrimStart, Clean, SpaceAtFront;
    var rest := "'" + word + "'" + back;
    assert rest[1..] == word + "'" + back;
    NoSpaceFirst(rest);
    OccursBehind(word, "'", back);
    forall j | 0 <= j < |word|
      ensures !OccursAt(rest[1..], "'", j)
    {
      StartsWith(rest[1..], "'", j);
      assert IsWordByte(word[j]);
    }
    FirstIs(rest[1..], "'", |word|);
    WordIsClean(word);
    assert rest[1..][..|word|] == word;
  }

  lemma BareWord(word: string, back: string)
    requires Word(word) && back != "" && EndsBare(back[0])
    ensures ParseAttrValue(word + back) == Some((word, |word|)) && SpaceAtFront(word + back) == 0
  {
    hide Trim, SpaceAtFront, BareEnd, QuotedValue;
    var rest := word + back;
    assert IsWordByte(rest[0]);
    NoSpaceFirst(rest);
    BareEndsAt(word, back);
    WordIsClean(word);
    assert rest[..|word|] == word;
  }

  lemma DoubleWord(word: string, back: string)
    requires Word(word)
    ensures ParseAttrValue("\"" + word + "\"" + back) == Some((word, |word| + 2))
    ensures SpaceAtFront("\"" + word + "\"" + back) == 0
  {
    hide ParseAttrValue, SpaceAtFront, TrimStart, Word;
    QuotedWord(word, back);
    NoSpaceFirst("\"" + word + "\"" + back);
  }

  /** A quoted word is read as the word, whatever the quotes. */
  lemma QuotedIsRead(quote: Quote, word: string, back: string)
    requires Word(word) && back != "" && (quote == Bare ==> EndsBare(back[0]))
    ensures SpaceAtFront(Quoted(quote, word) + back) == 0
    ensures ParseAttrValue(Quoted(quote, word) + back) == Some((word, |Quoted(quote, word)|))
  {
    hide ParseAttrValue, SpaceAtFront, Word;
    match quote
    case Double => DoubleWord(word, back);
    case Single => SingleWord(word, back);
    case Bare => BareWord(word, back);
  }

  // ---- Texts that name no parameter -------------------------------------------

  /** A pattern cannot lie across the end of a front whose last byte it does not have. */
  lemma NotAcrossEnd(front: string, back: string, pattern: string, j: nat)
    requires front != "" && front[|front| - 1] !in pattern && j < |front|
    ensures OccursAt(front + back, pattern, j) ==> OccursAt(front, pattern, j)
  {
    if j + |pattern| <= |front| {
      assert front[j..j + |pattern|] == (front + back)[j..j + |pattern|];
    } else if j + |pattern| <= |front + back| {
      var here := (front + back)[j..j + |pattern|];
      assert here[|front| - 1 - j] == front[|front| - 1] && pattern[|front| - 1 - j] in pattern;
    }
  }

  lemma InBack(front: string, back: string, pattern: string, j: nat)
    requires j >= |front|
    ensures OccursAt(front + back, pattern, j) ==> OccursAt(back, pattern, j - |front|)
  {
    if j + |pattern| <= |front + back| {
      assert back[j - |front|..j - |front| + |pattern|] == (front + back)[j..j + |pattern|];
    }
  }

  lemma LowerLast(s: string, i: nat)
    requires i < |s| && !('A' <= s[i] <= 'Z')
    ensures Lower(s)[i] == s[i]
  {
    hide Lower;
  }

  /** Behind text that ends with a byte no parameter name has. */
  lemma QuietBehind(front: string, back: string)
    requires Quiet(front) && Quiet(back) && front != "" && front[|front| - 1] == '>'
    ensures Quiet(front + back)
  {
    hide OccursAt, Lower;
    LowerAppend(front, back);
    LowerLast(front, |front| - 1);
    forall j: nat
      ensures !OccursAt(Lower(front + back), PARAMETER_NAME, j)
    {
      if j < |front| { NotAcrossEnd(Lower(front), Lower(back), PARAMETER_NAME, j); } else { InBack(Lower(front), Lower(back), PARAMETER_NAME, j); }
    }
  }

  /** In front of text that begins with such a byte. */
  lemma QuietBefore(front: string, back: string)
    requires Quiet(front) && Quiet(back) && back != "" && back[0] == '<'
    ensures Quiet(front + back)
  {
    hide OccursAt, Lower;
    LowerAppend(front, back);
    LowerLast(back, 0);
    forall j: nat
      ensures !OccursAt(Lower(front + back), PARAMETER_NAME, j)
    {
      if j < |front| { NotAcross(Lower(front), Lower(back), PARAMETER_NAME, j); } else { InBack(Lower(front), Lower(back), PARAMETER_NAME, j); }
    }
  }

  /** White space behind a text completes no parameter name. */
  lemma QuietBlanks(front: string, blanks: string)
    requires Quiet(front) && Blanks(blanks)
    ensures Quiet(front + blanks)
  {
    hide Lower;
    LowerAppend(front, blanks);
    var lower := Lower(front) + Lower(blanks);
    forall j: nat
      ensures !OccursAt(lower, PARAMETER_NAME, j)
    {
      var last := j + |PARAMETER_NAME| - 1;
      if last < |front| {
        assert Lower(front)[j..j + |PARAMETER_NAME|] == lower[j..j + |PARAMETER_NAME|];
        assert !OccursAt(Lower(front), PARAMETER_NAME, j);
      } else if last < |lower| {
        assert lower[j..j + |PARAMETER_NAME|][|PARAMETER_NAME| - 1] == lower[last] == Lower(blanks)[last - |front|];
        assert PARAMETER_NAME[|PARAMETER_NAME| - 1] == '=';
        LowerLast(blanks, last - |front|);
      } else {
        TooFar(lower, PARAMETER_NAME, j);
      }
    }
  }

  lemma NoSpaceIsQuiet(s: string)
    requires ' ' !in s
    ensures Quiet(s)
  {
    hide Lower;
    forall j: nat
      ensures !OccursAt(Lower(s), PARAMETER_NAME, j)
    {
      if j + |PARAMETER_NAME| <= |s| {
        assert Lower(s)[j..j + |PARAMETER_NAME|][9] == Lower(s)[j + 9];
        assert Lower(s)[j + 9] == LowerChar(s[j + 9]) && s[j + 9] in s;
      }
    }
  }

  /** Nothing but small letters and underscores. */
  predicate Small(s: string) {
    forall c <- s :: 'a' <= c <= 'z' || c == '_'
  }

  lemma SmallWords()
    ensures Small("command") && Small("description") && Small("prompt")
    ensures Small("file_path") && Small("content") && Small("path")
  {
  }

  lemma MoreSmallWords()
    ensures Small("query") && Small("url") && Small("pattern") && Small("subagent_type")
    ensures Small("old_string") && Small("new_string")
  {
  }

  lemma TagIsOne(tag: string)
    requires tag in TAGS
    ensures tag in {"command", "description", "prompt", "subagent_type", "file_path", "content", "path", "query",
                    "url", "pattern", "old_string", "new_string"}
  {
  }

  lemma TagIsSmall(tag: string)
    requires tag in TAGS
    ensures Small(tag) && |tag| >= 3
  {
    hide Small, TAGS;
    TagIsOne(tag);
    SmallWords();
    MoreSmallWords();
  }

  lemma TagHasNoSpace(tag: string)
    requires tag in TAGS
    ensures ' ' !in tag && '<' !in tag && '>' !in tag && '/' !in tag && |tag| >= 3
    ensures forall i :: 0 <= i < |tag| ==> !('A' <= tag[i] <= 'Z')
  {
    hide TAGS;
    TagIsSmall(tag);
    forall i | 0 <= i < |tag|
      ensures !('A' <= tag[i] <= 'Z')
    {
      assert tag[i] in tag;
    }
  }

  lemma SpelledHasNone(s: string, word: string, c: char)
    requires SameLetters(s, word) && c !in word && !('A' <= c <= 'Z') && !('a' <= c <= 'z')
    ensures c !in s
  {
    forall i | 0 <= i < |s|
      ensures s[i] != c
    {
      assert SameLetter(s[i], word[i]) && word[i] in word;
    }
  }

  lemma SpelledIsLower(s: string, word: string)
    requires SameLetters(s, word) && forall i :: 0 <= i < |word| ==> !('A' <= word[i] <= 'Z')
    ensures Lower(s) == word
  {
    hide Lower;
    LowerForgetsCase(s, word);
    LowerIsFixed(word);
  }

  // ---- The scan for named parameters ------------------------------------------

  lemma LeadIsQuiet(lead: string)
    requires lead in LEADS
    ensures lead != "" && lead[0] == '<' && ' ' !in lead && lead[|lead| - 1] !in PARAMETER_NAME && lead[|lead| - 1] !in INVOKE_NAME
    ensures !('A' <= lead[|lead| - 1] <= 'Z')
    ensures forall i :: 0 < i < |lead| ==> lead[i] != '<'
    ensures |lead| > 1 ==> lead[1] == '|' || lead[1] == '\U{EF}'
  {
  }

  /** Behind a quiet front and a lead the attribute is the first of its kind. */
  lemma AttributeIsFirst(front: string, attribute: string, pattern: string, rest: string)
    requires Lower(attribute) == pattern && front != "" && front[|front| - 1] !in pattern
    requires !('A' <= front[|front| - 1] <= 'Z') && forall j: nat :: !OccursAt(Lower(front), pattern, j)
    ensures IndexFrom(Lower(front + attribute + rest), pattern, 0) == Some(|front|)
  {
    hide OccursAt, IndexFrom, Lower;
    var text := Lower(front + attribute + rest);
    LowerAppend(front + attribute, rest);
    LowerAppend(front, attribute);
    LowerLast(front, |front| - 1);
    OccursBehind(Lower(front), pattern, Lower(rest));
    var back := pattern + Lower(rest);
    assert text == Lower(front) + back;
    forall j: nat | j < |front|
      ensures !OccursAt(text, pattern, j)
    {
      NotAcrossEnd(Lower(front), back, pattern, j);
    }
    FirstIs(text, pattern, |front|);
  }

  /** The text of a tag behind its attribute. */
  function Behind(tag: Tag, word: string, rest: string): string {
    tag.gap + (Quoted(tag.quote, word) + (tag.extra + (">" + rest)))
  }

  lemma TagSplits(tag: Tag, word: string, rest: string)
    ensures TagText(tag, word) + rest == tag.lead + tag.attribute + Behind(tag, word, rest)
  {
  }

  lemma WordIsRead(tag: Tag, attribute: string, word: string, rest: string)
    requires GoodTag(tag, attribute) && Word(word)
    ensures var trimmed := TrimStart(Behind(tag, word, rest));
      && ParseAttrValue(trimmed) == Some((word, |Quoted(tag.quote, word)|))
      && trimmed[|Quoted(tag.quote, word)|..] == tag.extra + (">" + rest)
  {
    hide ParseAttrValue, TrimStart, Blanks, Word, LEADS, SameLetters, SpaceAtFront;
    var back := tag.extra + (">" + rest);
    QuotedIsRead(tag.quote, word, back);
    TrimGap(tag.gap, Quoted(tag.quote, word) + back);
  }

  lemma ClosingIs(content: string, close: string, back: string)
    requires '<' !in content && exists c <- CLOSES :: SameLetters(close, c)
    ensures ParameterClose(content + close + back) == Some(|content|) && close != "" && close[0] == '<'
  {
    hide OccursAt, IndexFrom, Lower, SameLetters, CLOSES, Earlier;
    var c :| c in CLOSES && SameLetters(close, c);
    CloseIsOne(c);
    CloseIsLower(close, c);
    var tail := content + close + back;
    var lower := Lower(tail);
    LowerAppend(content + close, back);
    LowerAppend(content, close);
    assert lower == Lower(content) + c + Lower(back);
    OccursBehind(Lower(content), c, Lower(back));
    LowerHasNoBracket(content);
    forall j: nat | j < |content|
      ensures lower[j] != '<' && tail[j] != '<'
    {
      assert lower[j] == Lower(content)[j] && Lower(content)[j] in Lower(content);
      assert tail[j] == content[j] && content[j] in content;
    }
    NotBeforeBracket(lower, "</parameter>", |content|);
    NotBeforeBracket(lower, "</\U{EF}\U{BD}\U{9C}dsml\U{EF}\U{BD}\U{9C}parameter>", |content|);
    NotBeforeBracket(lower, "</|dsml|parameter>", |content|);
    NotBeforeBracket(tail, "</\U{EF}\U{BD}\U{9C}DSML\U{EF}\U{BD}\U{9C}parameter>", |content|);
    NotBeforeBracket(tail, "</|DSML|parameter>", |content|);
    FirstIs(lower, c, |content|);
    EarliestIs(
      IndexFrom(lower, "</\U{EF}\U{BD}\U{9C}dsml\U{EF}\U{BD}\U{9C}parameter>", 0),
      IndexFrom(lower, "</|dsml|parameter>", 0),
      IndexFrom(lower, "</parameter>", 0),
      IndexFrom(tail, "</\U{EF}\U{BD}\U{9C}DSML\U{EF}\U{BD}\U{9C}parameter>", 0),
      IndexFrom(tail, "</|DSML|parameter>", 0), |content|);
  }

  lemma CloseIsOne(c: string)
    requires c in CLOSES
    ensures || c == "</parameter>" || c == "</|dsml|parameter>"
            || c == "</\U{EF}\U{BD}\U{9C}dsml\U{EF}\U{BD}\U{9C}parameter>"
  {
  }

  lemma EarliestIs(a: Option<nat>, b: Option<nat>, c: Option<nat>, d: Option<nat>, e: Option<nat>, n: nat)
    requires a == Some(n) || b == Some(n) || c == Some(n)
    requires forall k :: k in [a, b, c, d, e] && k.Some? ==> k.value >= n
    ensures Earlier(Earlier(Earlier(Earlier(a, b), c), d), e) == Some(n)
  {
  }

  lemma CloseIsLower(close: string, c: string)
    requires c in CLOSES && SameLetters(close, c)
    ensures Lower(close) == c && close != "" && close[0] == '<' && ' ' !in close && '<' !in close[1..]
    ensures |close| > 1 && close[1] == '/'
  {
    hide Lower, CLOSES;
    CloseHasNoCapital(c);
    SpelledIsLower(close, c);
    SpelledHasNone(close, c, ' ');
    assert SameLetter(close[0], c[0]) && SameLetter(close[1], c[1]);
    forall i | 1 <= i < |close|
      ensures close[i] != '<'
    {
      assert SameLetter(close[i], c[i]) && c[1..][i - 1] == c[i];
    }
  }

  lemma CloseHasNoCapital(c: string)
    requires c in CLOSES
    ensures |c| > 1 && c[0] == '<' && c[1] == '/' && ' ' !in c && '<' !in c[1..]
    ensures forall i :: 0 <= i < |c| ==> !('A' <= c[i] <= 'Z')
  {
    hide CLOSES;
    CloseIsSmall(c);
    CloseStarts(c);
    forall i | 0 <= i < |c|
      ensures !('A' <= c[i] <= 'Z')
    {
      assert c[i] in c;
    }
  }

  lemma CloseStarts(c: string)
    requires c in CLOSES
    ensures |c| > 1 && c[0] == '<' && c[1] == '/' && '<' !in c[1..]
  {
    hide CLOSES;
    CloseIsOne(c);
    assert forall i :: 1 <= i < |c| ==> c[i] != '<';
    assert forall i :: 0 <= i < |c[1..]| ==> c[1..][i] == c[i + 1];
  }

  lemma CloseIsSmall(c: string)
    requires c in CLOSES
    ensures forall b <- c :: !('A' <= b <= 'Z')
    ensures forall b <- c :: b != ' '
  {
  }

  lemma FoundNamed(text: string, k: nat, named: string)
    requires IndexFrom(Lower(text), PARAMETER_NAME, 0) == Some(k) && k + |PARAMETER_NAME| <= |text|
    requires text[k + |PARAMETER_NAME|..] == named && named != ""
    ensures NextParameter(text) == NextNamed(named)
  {
    hide NextNamed, IndexFrom, Lower, OccursAt, PARAMETER_NAME;
  }

  lemma NamedSplits(front: string, part: Part, back: string)
    requires part.Named?
    ensures front + (PartText(part) + back)
         == (front + part.tag.lead) + part.tag.attribute + Behind(part.tag, part.key, PaddedText(part.content) + part.close + back)
  {
    hide PaddedText, TagText, Behind;
    var rest := PaddedText(part.content) + part.close + back;
    TagSplits(part.tag, part.key, rest);
    assert PartText(part) + back == TagText(part.tag, part.key) + rest;
  }

  /** Behind quiet text the next parameter is the named part. */
  lemma NextIsNamed(front: string, part: Part, back: string)
    requires Quiet(front) && part.Named? && Good(part)
    ensures part.close != ""
    ensures NextParameter(front + (PartText(part) + back)) == Parameter(part.key, part.content.value, part.close[1..] + back)
    ensures Quiet(part.close[1..])
  {
    hide NextNamed, NextParameter, OccursAt, IndexFrom, Lower, GoodContent, Blanks, Word, Quoted, SameLetters, LEADS, CLOSES;
    hide PaddedText, PartText, Behind, EndsBare, Quiet;
    var Named(tag, key, content, close) := part;
    var named := Behind(tag, key, PaddedText(content) + close + back);
    var text, head := front + (PartText(part) + back), front + tag.lead;
    LeadIsQuiet(tag.lead);
    NoSpaceIsQuiet(tag.lead);
    QuietBefore(front, tag.lead);
    NameHasNoCapital();
    SpelledIsLower(tag.attribute, PARAMETER_NAME);
    SameLength(tag.attribute, PARAMETER_NAME);
    NamedSplits(front, part, back);
    assert forall j: nat :: !OccursAt(Lower(head), PARAMETER_NAME, j) by { QuietHasNone(head); }
    assert head[|head| - 1] == tag.lead[|tag.lead| - 1];
    AttributeIsFirst(head, tag.attribute, PARAMETER_NAME, named);
    NamedIsRead(tag, key, content, close, back);
    assert text[|head| + |PARAMETER_NAME|..] == named;
    FoundNamed(text, |head|, named);
    CloseEnds(close);
  }

  lemma QuietHasNone(front: string)
    requires Quiet(front)
    ensures forall j: nat :: !OccursAt(Lower(front), PARAMETER_NAME, j)
  {
    hide OccursAt, Lower;
  }

  lemma NameHasNoCapital()
    ensures forall i :: 0 <= i < |PARAMETER_NAME| ==> !('A' <= PARAMETER_NAME[i] <= 'Z')
    ensures forall i :: 0 <= i < |INVOKE_NAME| ==> !('A' <= INVOKE_NAME[i] <= 'Z')
  {
    assert forall b <- PARAMETER_NAME :: !('A' <= b <= 'Z');
    assert forall b <- INVOKE_NAME :: !('A' <= b <= 'Z');
  }

  lemma SameLength(s: string, t: string)
    requires SameLetters(s, t)
    ensures |s| == |t|
  {
  }

  lemma CloseEnds(close: string)
    requires exists c <- CLOSES :: SameLetters(close, c)
    ensures close != "" && Quiet(close[1..])
  {
    hide SameLetters, CLOSES;
    var c :| c in CLOSES && SameLetters(close, c);
    CloseIsLower(close, c);
    NoSpaceIsQuiet(close[1..]);
  }

  lemma NamedIsRead(tag: Tag, key: string, content: Padded, close: string, back: string)
    requires GoodTag(tag, PARAMETER_NAME) && Word(key) && GoodContent(content) && exists c <- CLOSES :: SameLetters(close, c)
    ensures var named := Behind(tag, key, PaddedText(content) + close + back);
      && named != "" && close != ""
      && NextNamed(named) == Parameter(key, content.value, close[1..] + back)
  {
    hide ParseAttrValue, TrimStart, NextContent, Clean, Blanks, Word, SameLetters, LEADS, CLOSES, PaddedText, Quoted;
    var rest := PaddedText(content) + close + back;
    WordIsRead(tag, PARAMETER_NAME, key, rest);
    WordIsSomething(key);
    CloseEnds(close);
    ContentIsRead(key, tag.extra, content, close, back);
    assert |Behind(tag, key, rest)| >= 1;
  }

  lemma ContentIsRead(key: string, extra: string, content: Padded, close: string, back: string)
    requires '>' !in extra && GoodContent(content) && exists c <- CLOSES :: SameLetters(close, c)
    ensures NextContent(key, extra + (">" + (PaddedText(content) + close + back)))
         == Parameter(key, content.value, (if close == "" then "" else close[1..]) + back)
  {
    hide ParameterClose, OccursAt, IndexFrom, Trim, Clean, Blanks, SameLetters, CLOSES, PaddedText;
    var tail := PaddedText(content) + close + back;
    var open := extra + (">" + tail);
    BracketAfter(extra, tail);
    assert open[|extra| + 1..] == tail;
    NoBracketInContent(content);
    ClosingIs(PaddedText(content), close, back);
    ContentIsTrimmed(content);
    assert tail[..|PaddedText(content)|] == PaddedText(content);
    assert tail[|PaddedText(content)| + 1..] == close[1..] + back;
  }

  lemma BracketAfter(extra: string, tail: string)
    requires '>' !in extra
    ensures IndexFrom(extra + (">" + tail), ">", 0) == Some(|extra|)
  {
    hide OccursAt, IndexFrom;
    var open := extra + (">" + tail);
    OccursBehind(extra, ">", tail);
    assert extra + ">" + tail == open;
    forall j | 0 <= j < |extra|
      ensures !OccursAt(open, ">", j)
    {
      StartsWith(open, ">", j);
      assert open[j] == extra[j] && extra[j] in extra;
    }
    FirstIs(open, ">", |extra|);
  }

  lemma PlainIsQuiet(front: string, part: Part)
    requires Quiet(front) && !part.Named? && Good(part) && (part.Plain? ==> Quiet(PaddedText(part.content)))
    ensures Quiet(front + PartText(part))
  {
    hide Lower, SameLetters, TAGS, GoodContent, PaddedText, Quiet, Harmless;
    match part
    case Between(text) =>
      if Blanks(text) { QuietBlanks(front, text); } else { QuietBefore(front, text); }
    case Plain(open, key, content, close) =>
      TagHasNoSpace(key);
      SpelledHasNone(open, key, ' ');
      SpelledHasNone(close, key, ' ');
      var head, tail := "<" + open + ">", "</" + close + ">";
      NoSpaceIsQuiet(head);
      NoSpaceIsQuiet(tail);
      QuietBefore(front, head);
      QuietBehind(front + head, PaddedText(content));
      QuietBefore(front + head + PaddedText(content), tail);
      assert front + PartText(part) == front + head + PaddedText(content) + tail;
  }

  /** The scan reads the named parts in order, the last value of a name standing. */
  lemma {:induction false} ScanReadsParts(front: string, parts: seq<Part>, input: map<string, string>)
    requires Quiet(front) && AllGood(parts) && AllQuiet(parts)
    ensures NamedParameters(front + PartsText(parts), input) == Some(AsMap(input, NamedPairs(parts)))
    decreases |parts|
  {
    hide NextParameter, Quiet, PartText, Good, PaddedText;
    if parts == [] {
      QuietEnds(front);
      assert front + "" == front;
    } else {
      var part, back := parts[0], PartsText(parts[1..]);
      assert Good(part);
      assert AllGood(parts[1..]) by { forall i | 0 <= i < |parts[1..]| ensures Good(parts[1..][i]) { assert parts[1..][i] == parts[i + 1]; } }
      assert front + PartsText(parts) == front + (PartText(part) + back) == front + PartText(part) + back;
      if part.Named? {
        NextIsNamed(front, part, back);
        ScanReadsParts(part.close[1..], parts[1..], Put(input, part.key, part.content.value));
        PutOne(input, parts);
      } else {
        PlainIsQuiet(front, part);
        ScanReadsParts(front + PartText(part), parts[1..], input);
        assert [] + NamedPairs(parts[1..]) == NamedPairs(parts[1..]);
      }
    }
  }

  /** A named part puts its value, if it has one, in front of the rest. */
  lemma PutOne(input: map<string, string>, parts: seq<Part>)
    requires parts != [] && parts[0].Named?
    ensures AsMap(Put(input, parts[0].key, parts[0].content.value), NamedPairs(parts[1..])) == AsMap(input, NamedPairs(parts))
  {
    hide AsMap;
    if parts[0].content.value == "" {
      assert [] + NamedPairs(parts[1..]) == NamedPairs(parts[1..]);
    } else {
      AsMapOne(input, Pair(parts[0].key, parts[0].content.value), NamedPairs(parts[1..]));
    }
  }

  lemma AsMapOne(input: map<string, string>, pair: Pair, pairs: seq<Pair>)
    ensures AsMap(input, [pair] + pairs) == AsMap(input[pair.key := pair.value], pairs)
  {
    assert ([pair] + pairs)[1..] == pairs;
  }

  lemma QuietEnds(front: string)
    requires Quiet(front)
    ensures NextParameter(front) == Stop
  {
    hide OccursAt, Lower;
    NoneIs(Lower(front), PARAMETER_NAME);
  }

  // ---- The plain elements -----------------------------------------------------

  /** Each bracket of the text opens something else than the tag. */
  ghost predicate Free(s: string, tag: string) {
    forall j: nat :: j < |s| && s[j] == '<' ==> Differs(s, tag, j)
  }

  predicate Differs(s: string, tag: string, j: nat) {
    exists d :: 0 <= d < |tag| && j + 1 + d < |s| && s[j + 1 + d] != tag[d]
  }

  lemma DiffersAt(s: string, tag: string, j: nat, d: nat)
    requires d < |tag| && j + 1 + d < |s| && s[j + 1 + d] != tag[d]
    ensures Differs(s, tag, j)
  {
  }

  lemma FreeAppend(a: string, b: string, tag: string)
    requires Free(a, tag) && Free(b, tag)
    ensures Free(a + b, tag)
  {
    var s := a + b;
    forall j: nat | j < |s| && s[j] == '<'
      ensures Differs(s, tag, j)
    {
      if j < |a| {
        assert Differs(a, tag, j);
        var d :| 0 <= d < |tag| && j + 1 + d < |a| && a[j + 1 + d] != tag[d];
        DiffersAt(s, tag, j, d);
      } else {
        assert Differs(b, tag, j - |a|);
        var d :| 0 <= d < |tag| && j - |a| + 1 + d < |b| && b[j - |a| + 1 + d] != tag[d];
        DiffersAt(s, tag, j, d);
      }
    }
  }

  lemma NoBracketIsFree(s: string, tag: string)
    requires '<' !in s
    ensures Free(s, tag)
  {
  }

  /** A text whose only bracket is its first byte. */
  lemma OneBracketIsFree(s: string, tag: string, d: nat)
    requires s != "" && '<' !in s[1..] && d < |tag| && 1 + d < |s| && s[1 + d] != tag[d]
    ensures Free(s, tag)
  {
    DiffersAt(s, tag, 0, d);
    forall j: nat | 0 < j < |s|
      ensures s[j] != '<'
    {
      assert s[1..][j - 1] == s[j] && s[1..][j - 1] in s[1..];
    }
  }

  lemma FreeHasNone(a: string, b: string, tag: string, j: nat)
    requires Free(a, tag) && j < |a|
    ensures !OccursAt(a + b, "<" + tag, j)
  {
    var s := a + b;
    assert s[j] == a[j];
    if j + |"<" + tag| > |s| {
      TooFar(s, "<" + tag, j);
    } else if a[j] == '<' {
      assert Differs(a, tag, j);
      var d :| 0 <= d < |tag| && j + 1 + d < |a| && a[j + 1 + d] != tag[d];
      assert s[j..j + 1 + |tag|][1 + d] == s[j + 1 + d];
      assert ("<" + tag)[1 + d] == tag[d];
    } else {
      assert s[j..j + 1 + |tag|][0] == a[j] && ("<" + tag)[0] == '<';
    }
  }

  /** No tag of the list begins another one, or the name of a parameter. */
  lemma TagsApart(tag: string, other: string) returns (d: nat)
    requires tag in TAGS && other in TAGS && tag != other
    ensures d < |tag| && (d < |other| ==> tag[d] != other[d]) && d <= |other|
  {
    TagIsOne(tag);
    TagIsOne(other);
    d := if tag[0] != other[0] then 0 else if tag[1] != other[1] then 1 else if tag[2] != other[2] then 2 else 3;
  }

  lemma TagIsNoName(tag: string) returns (d: nat)
    requires tag in TAGS
    ensures d < |tag| && d < 3 && tag[d] != "par"[d] && tag[0] !in {'/', 'i', '|', '\U{EF}'}
  {
    TagIsOne(tag);
    d := if tag[0] != 'p' then 0 else if tag[1] != 'a' then 1 else 2;
  }

  lemma LowerOfBracket(s: string, i: nat)
    requires i < |s|
    ensures Lower(s)[i] == '<' <==> s[i] == '<'
    ensures s[i] in {'/', 'i', '|', '\U{EF}'} ==> Lower(s)[i] == s[i]
    ensures s[i] == 'I' ==> Lower(s)[i] == 'i'
  {
    hide Lower;
  }

  lemma HarmlessIsFree(text: string, tag: string)
    requires Harmless(text) && tag in TAGS
    ensures Free(Lower(text), tag)
  {
    hide Lower, TAGS;
    var d := TagIsNoName(tag);
    var lower := Lower(text);
    forall j: nat | j < |lower| && lower[j] == '<'
      ensures Differs(lower, tag, j)
    {
      LowerOfBracket(text, j);
      LowerOfBracket(text, j + 1);
      DiffersAt(lower, tag, j, 0);
    }
  }

  lemma NamedIsFree(part: Part, tag: string)
    requires part.Named? && Good(part) && tag in TAGS
    ensures Free(Lower(PartText(part)), tag)
  {
    hide Lower, TAGS, Blanks, SameLetters, LEADS, CLOSES, GoodContent, PaddedText, Free, Word;
    var Named(t, key, content, close) := part;
    var c :| c in CLOSES && SameLetters(close, c);
    CloseIsLower(close, c);
    CloseHasNoCapital(c);
    var d := TagIsNoName(tag);
    OneBracketIsFree(c, tag, 0);
    NoBracketInContent(content);
    LowerHasNoBracket(PaddedText(content));
    NoBracketIsFree(Lower(PaddedText(content)), tag);
    TagIsFree(t, key, tag);
    LowerAppend(TagText(t, key) + PaddedText(content), close);
    LowerAppend(TagText(t, key), PaddedText(content));
    FreeAppend(Lower(TagText(t, key)), Lower(PaddedText(content)), tag);
    FreeAppend(Lower(TagText(t, key)) + Lower(PaddedText(content)), c, tag);
  }

  lemma TagIsFree(t: Tag, word: string, tag: string)
    requires GoodTag(t, PARAMETER_NAME) && Word(word) && tag in TAGS
    ensures Free(Lower(TagText(t, word)), tag)
  {
    hide Lower, TAGS, Blanks, SameLetters, LEADS, Free, Word, Quoted;
    NameHasNoCapital();
    SpelledIsLower(t.attribute, PARAMETER_NAME);
    var behind := t.gap + Quoted(t.quote, word) + t.extra + ">";
    NoBracketBehind(t, word);
    LowerHasNoBracket(behind);
    NoBracketIsFree(Lower(behind), tag);
    LeadAndNameAreFree(t.lead, tag);
    assert TagText(t, word) == (t.lead + t.attribute) + behind;
    LowerAppend(t.lead + t.attribute, behind);
    LowerAppend(t.lead, t.attribute);
    FreeAppend(Lower(t.lead) + PARAMETER_NAME, Lower(behind), tag);
  }

  lemma LeadAndNameAreFree(lead: string, tag: string)
    requires lead in LEADS && tag in TAGS
    ensures Free(Lower(lead) + PARAMETER_NAME, tag)
  {
    hide Lower, TAGS, LEADS, Free;
    LeadIsQuiet(lead);
    var d := TagIsNoName(tag);
    LowerOfBracket(lead, 0);
    var rest := Lower(lead)[1..];
    forall i | 0 <= i < |rest|
      ensures rest[i] != '<'
    {
      LowerOfBracket(lead, i + 1);
    }
    NameHasNoBracket();
    var text := Lower(lead) + PARAMETER_NAME;
    assert text[1..] == rest + PARAMETER_NAME;
    if |lead| > 1 {
      LowerOfBracket(lead, 1);
      OneBracketIsFree(text, tag, 0);
    } else {
      assert text[1 + d] == PARAMETER_NAME[d];
      OneBracketIsFree(text, tag, d);
    }
  }

  lemma NameHasNoBracket()
    ensures '<' !in PARAMETER_NAME && PARAMETER_NAME[..3] == "par"
    ensures forall d :: 0 <= d < 3 ==> PARAMETER_NAME[d] == "par"[d]
  {
  }

  lemma NoBracketBehind(t: Tag, word: string)
    requires GoodTag(t, PARAMETER_NAME) && Word(word)
    ensures '<' !in t.gap + Quoted(t.quote, word) + t.extra + ">"
  {
    hide LEADS, SameLetters, Word, Blanks;
    NoBracketInBlanks(t.gap);
    WordHasNoBracket(word);
  }

  lemma HeadIsFree(key: string, tag: string)
    requires tag in TAGS && key in TAGS && key != tag
    ensures Free("<" + key + ">", tag)
  {
    hide TAGS, Free;
    var d := TagsApart(tag, key);
    TagHasNoSpace(tag);
    TagHasNoSpace(key);
    var head := "<" + key + ">";
    assert head[1..] == key + ">";
    if d < |key| {
      assert head[1 + d] == key[d];
    } else {
      assert head[1 + d] == '>' && tag[d] in tag;
    }
    OneBracketIsFree(head, tag, d);
  }

  lemma TailIsFree(key: string, tag: string)
    requires tag in TAGS && key in TAGS
    ensures Free("</" + key + ">", tag)
  {
    hide TAGS, Free;
    TagHasNoSpace(key);
    var d := TagIsNoName(tag);
    var tail := "</" + key + ">";
    assert tail[1..] == "/" + key + ">" && tail[1] == '/';
    OneBracketIsFree(tail, tag, 0);
  }

  lemma OtherIsFree(part: Part, tag: string)
    requires part.Plain? && Good(part) && tag in TAGS && part.key != tag
    ensures Free(Lower(PartText(part)), tag)
  {
    hide Lower, TAGS, SameLetters, GoodContent, PaddedText, PartText, Free;
    var Plain(open, key, content, close) := part;
    TagHasNoSpace(key);
    SpelledIsLower(open, key);
    SpelledIsLower(close, key);
    NoBracketInContent(content);
    LowerHasNoBracket(PaddedText(content));
    NoBracketIsFree(Lower(PaddedText(content)), tag);
    LowerOfPlain(part);
    HeadIsFree(key, tag);
    TailIsFree(key, tag);
    FreeAppend("<" + key + ">", Lower(PaddedText(content)), tag);
    FreeAppend("<" + key + ">" + Lower(PaddedText(content)), "</" + key + ">", tag);
  }

  lemma LowerOfPlain(part: Part)
    requires part.Plain? && Lower(part.open) == part.key && Lower(part.close) == part.key
    ensures Lower(PartText(part)) == "<" + part.key + ">" + Lower(PaddedText(part.content)) + ("</" + part.key + ">")
  {
    hide Lower, PaddedText;
    var head, tail := "<" + part.open + ">", "</" + part.close + ">";
    var content := PaddedText(part.content);
    assert PartText(part) == head + content + tail;
    LowerAppend(head + content, tail);
    LowerAppend(head, content);
    LowerAppend("<" + part.open, ">");
    LowerAppend("<", part.open);
    LowerAppend("</" + part.close, ">");
    LowerAppend("</", part.close);
    LowerIsFixed("<");
    LowerIsFixed(">");
    LowerIsFixed("</");
  }

  /** An element is read as its content wherever it comes first. */
  lemma ElementIsRead(front: string, part: Part, back: string)
    requires part.Plain? && Good(part) && Free(Lower(front), part.key)
    ensures ExtractElement(front + (PartText(part) + back), part.key) == Given(part.content.value)
  {
    hide Lower, TAGS, SameLetters, PaddedText, Free, OccursAt, IndexFrom, Trim, GoodContent, ExtractElement, PartText;
    var Plain(open, tag, content, close) := part;
    TagHasNoSpace(tag);
    SpelledIsLower(open, tag);
    SpelledIsLower(close, tag);
    SpelledHasNone(open, tag, '>');
    ElementIsFirst(front, part, back);
    ElementBehind(front, part, back);
    ElementCloses(part, back);
    ContentIsTrimmed(content);
    ExtractedFrom(front + (PartText(part) + back), tag, |front|, "<" + open, PaddedText(content), "</" + close + ">" + back);
  }

  /** The pieces that an element is cut into. */
  lemma ExtractedFrom(text: string, tag: string, k: nat, head: string, content: string, rest: string)
    requires IndexFrom(Lower(text), "<" + tag, 0) == Some(k) && k <= |text| && '>' !in head
    requires text[k..] == head + (">" + (content + rest))
    requires IndexFrom(Lower(content + rest), Lower("</" + tag + ">"), 0) == Some(|content|)
    ensures ExtractElement(text, tag) == Given(Trim(content))
  {
    hide Lower, OccursAt, IndexFrom, Trim;
    BracketAfter(head, content + rest);
    assert text[k..][|head| + 1..] == content + rest;
    assert (content + rest)[..|content|] == content;
  }

  lemma ElementBehind(front: string, part: Part, back: string)
    requires part.Plain?
    ensures (front + (PartText(part) + back))[|front|..]
         == ("<" + part.open) + (">" + (PaddedText(part.content) + ("</" + part.close + ">" + back)))
  {
    hide PaddedText;
    var content, tail := PaddedText(part.content), "</" + part.close + ">" + back;
    assert PartText(part) + back == ("<" + part.open) + (">" + (content + tail));
  }

  lemma Regroup(front: string, open: string, content: string, close: string, back: string)
    ensures front + ((open + ">" + content + close) + back) == front + open + (">" + content + close + back)
    ensures front + (open + (">" + content + close + back)) == front + open + (">" + content + close + back)
  {
  }

  lemma ElementIsFirst(front: string, part: Part, back: string)
    requires part.Plain? && Lower(part.open) == part.key && Lower(part.close) == part.key && Free(Lower(front), part.key)
    ensures IndexFrom(Lower(front + (PartText(part) + back)), "<" + part.key, 0) == Some(|front|)
  {
    hide Lower, Free, OccursAt, IndexFrom, PaddedText;
    var rest := ">" + Lower(PaddedText(part.content)) + ("</" + part.key + ">") + Lower(back);
    LowerOfPlain(part);
    LowerAppend(front, PartText(part) + back);
    LowerAppend(PartText(part), back);
    var text := Lower(front + (PartText(part) + back));
    Regroup(Lower(front), "<" + part.key, Lower(PaddedText(part.content)), "</" + part.key + ">", Lower(back));
    OccursBehind(Lower(front), "<" + part.key, rest);
    forall j: nat | j < |front|
      ensures !OccursAt(text, "<" + part.key, j)
    {
      FreeHasNone(Lower(front), ("<" + part.key) + rest, part.key, j);
    }
    FirstIs(text, "<" + part.key, |front|);
  }

  lemma ElementCloses(part: Part, back: string)
    requires part.Plain? && Lower(part.close) == part.key && GoodContent(part.content)
    requires forall i :: 0 <= i < |part.key| ==> !('A' <= part.key[i] <= 'Z')
    ensures IndexFrom(Lower(PaddedText(part.content) + ("</" + part.close + ">" + back)), Lower("</" + part.key + ">"), 0)
         == Some(|PaddedText(part.content)|)
  {
    hide Lower, OccursAt, IndexFrom, PaddedText, GoodContent;
    var content := PaddedText(part.content);
    var pattern := "</" + part.key + ">";
    LowerIsFixed(pattern);
    NoBracketInContent(part.content);
    LowerHasNoBracket(content);
    LowerAppend(content, "</" + part.close + ">" + back);
    LowerAppend("</" + part.close + ">", back);
    LowerAppend("</" + part.close, ">");
    LowerAppend("</", part.close);
    LowerIsFixed("</");
    LowerIsFixed(">");
    var text := Lower(content) + pattern + Lower(back);
    assert Lower(content + ("</" + part.close + ">" + back)) == text;
    OccursBehind(Lower(content), pattern, Lower(back));
    forall j: nat | j < |content|
      ensures text[j] != '<'
    {
      assert text[j] == Lower(content)[j] && Lower(content)[j] in Lower(content);
    }
    NotBeforeBracket(text, pattern, |content|);
    FirstIs(text, pattern, |content|);
  }

  lemma NoElementLeft(front: string, tag: string)
    requires Free(Lower(front), tag) && tag != ""
    ensures ExtractElement(front, tag) == None
  {
    hide Lower, Free, OccursAt, IndexFrom;
    forall j: nat
      ensures !OccursAt(Lower(front), "<" + tag, j)
    {
      assert Lower(front) + "" == Lower(front);
      if j < |front| { FreeHasNone(Lower(front), "", tag, j); } else { TooFar(Lower(front), "<" + tag, j); }
    }
    NoneIs(Lower(front), "<" + tag);
  }

  /** Of each tag the first element is read, wherever it stands. */
  lemma {:induction false} ElementOfParts(front: string, parts: seq<Part>, tag: string)
    requires AllGood(parts) && tag in TAGS && Free(Lower(front), tag)
    ensures ExtractElement(front + PartsText(parts), tag) == FirstPlain(parts, tag)
    decreases |parts|
  {
    hide ExtractElement, Lower, Free, PartText, Good, TAGS;
    if parts == [] {
      TagHasNoSpace(tag);
      NoElementLeft(front, tag);
      assert front + "" == front;
    } else {
      var part, back := parts[0], PartsText(parts[1..]);
      assert Good(part);
      assert AllGood(parts[1..]) by { forall i | 0 <= i < |parts[1..]| ensures Good(parts[1..][i]) { assert parts[1..][i] == parts[i + 1]; } }
      assert front + PartsText(parts) == front + (PartText(part) + back) == front + PartText(part) + back;
      if part.Plain? && part.key == tag {
        ElementIsRead(front, part, back);
      } else {
        PartIsFree(part, tag);
        LowerAppend(front, PartText(part));
        FreeAppend(Lower(front), Lower(PartText(part)), tag);
        ElementOfParts(front + PartText(part), parts[1..], tag);
      }
    }
  }

  lemma PartIsFree(part: Part, tag: string)
    requires Good(part) && tag in TAGS && !(part.Plain? && part.key == tag)
    ensures Free(Lower(PartText(part)), tag)
  {
    hide Lower, Free, TAGS, Quiet, Blanks, Harmless;
    match part
    case Named(_, _, _, _) => NamedIsFree(part, tag);
    case Plain(_, _, _, _) => OtherIsFree(part, tag);
    case Between(text) => HarmlessIsFree(text, tag);
  }

  // ---- The whole repair -------------------------------------------------------

  /** What the elements add to the named parameters. */
  lemma {:induction false} ElementsFillIn(text: string, tags: seq<string>, input: map<string, string>, parts: seq<Part>)
    requires forall tag <- tags :: ExtractElement(text, tag) == FirstPlain(parts, tag)
    ensures var all := WithElements(text, tags, input);
      && (forall key :: key in all <==> key in input || (key in tags && FirstPlain(parts, key).Some?))
      && (forall key <- all :: all[key] == if key in input then input[key] else FirstPlain(parts, key).value)
    decreases |tags|
  {
    hide ExtractElement, FirstPlain;
    if tags != [] {
      var value := ExtractElement(text, tags[0]);
      assert tags[0] in tags;
      ElementsFillIn(text, tags[1..], if tags[0] in input || value.None? then input else input[tags[0] := value.value], parts);
    }
  }

  lemma {:induction false} AsMapIsLast(input: map<string, string>, parts: seq<Part>)
    ensures var all := AsMap(input, NamedPairs(parts));
      && (forall key :: key in all <==> key in input || LastNamed(parts, key).Some?)
      && (forall key <- all :: all[key] == if LastNamed(parts, key).Some? then LastNamed(parts, key).value else input[key])
    decreases |parts|
  {
    if parts != [] {
      var part := parts[0];
      if part.Named? {
        PutOne(input, parts);
        AsMapIsLast(Put(input, part.key, part.content.value), parts[1..]);
      } else {
        assert [] + NamedPairs(parts[1..]) == NamedPairs(parts[1..]);
        AsMapIsLast(input, parts[1..]);
      }
    }
  }

  /** The tag that a leaked call begins with. */
  ghost predicate GoodOpening(tag: Tag, name: string) {
    GoodTag(tag, INVOKE_NAME) && Word(name) && Quiet(TagText(tag, name)) && Harmless(TagText(tag, name))
  }

  lemma NameOfTag(tag: Tag, name: string, rest: string)
    requires GoodTag(tag, INVOKE_NAME) && Word(name)
    ensures ExtractInvokeName(TagText(tag, name) + rest) == Some(name)
  {
    hide OccursAt, IndexFrom, Lower, ParseAttrValue, TrimStart, Word, LEADS, SameLetters, Quoted;
    var text := TagText(tag, name) + rest;
    var behind := Behind(tag, name, rest);
    TagSplits(tag, name, rest);
    LeadIsQuiet(tag.lead);
    NameHasNoCapital();
    SpelledIsLower(tag.attribute, INVOKE_NAME);
    SameLength(tag.attribute, INVOKE_NAME);
    LeadHasNoName(tag.lead);
    AttributeIsFirst(tag.lead, tag.attribute, INVOKE_NAME, behind);
    assert text[|tag.lead| + |INVOKE_NAME|..] == behind;
    WordIsRead(tag, INVOKE_NAME, name, rest);
    WordIsSomething(name);
  }

  lemma LeadHasNoName(lead: string)
    requires lead in LEADS
    ensures forall j: nat :: !OccursAt(Lower(lead), INVOKE_NAME, j)
  {
    hide Lower;
    forall j: nat
      ensures !OccursAt(Lower(lead), INVOKE_NAME, j)
    {
      TooFar(Lower(lead), INVOKE_NAME, j);
    }
  }

  /**
    The call has the name, and under each key the value named last, or else that of the
    first element of that tag; nothing else, and if there is no value at all there is no call.
  */
  ghost predicate Reads(outcome: Outcome, name: string, parts: seq<Part>) {
    && ((exists key :: Argument(parts, key).Some?) ==>
          && outcome.Call? && outcome.name == name
          && (forall key :: key in outcome.input <==> Argument(parts, key).Some?)
          && (forall key <- outcome.input :: outcome.input[key] == Argument(parts, key).value))
    && ((forall key :: Argument(parts, key).None?) ==> outcome == NoCall)
  }

  /** A leaked call is read back from any spelling of its parts. */
  lemma RepairReadsParts(tag: Tag, name: string, parts: seq<Part>)
    requires GoodOpening(tag, name) && AllGood(parts) && AllQuiet(parts)
    ensures Reads(Repair(TagText(tag, name) + PartsText(parts)), name, parts)
  {
    hide NamedParameters, AsMap, Repair, Reads;
    ScanReadsParts(TagText(tag, name), parts, map[]);
    ElementsJoin(tag, name, parts);
  }

  /** What is not named comes from the elements, once the scan has read the names. */
  lemma ElementsJoin(tag: Tag, name: string, parts: seq<Part>)
    requires GoodOpening(tag, name) && AllGood(parts)
    ensures var text := TagText(tag, name) + PartsText(parts);
      && ExtractInvokeName(text) == Some(name)
      && (NamedParameters(text, map[]) == Some(AsMap(map[], NamedPairs(parts))) ==> Reads(Repair(text), name, parts))
  {
    hide ExtractInvokeName, NamedParameters, WithElements, ExtractElement, Free, Lower, AsMap, FirstPlain, TAGS, Harmless, AllGood, Reads, Repair;
    var text := TagText(tag, name) + PartsText(parts);
    NameOfTag(tag, name, PartsText(parts));
    forall t <- TAGS
      ensures ExtractElement(text, t) == FirstPlain(parts, t)
    {
      HarmlessIsFree(TagText(tag, name), t);
      ElementOfParts(TagText(tag, name), parts, t);
    }
    if NamedParameters(text, map[]) == Some(AsMap(map[], NamedPairs(parts))) { Joined(text, name, parts); }
  }

  lemma Joined(text: string, name: string, parts: seq<Part>)
    requires ExtractInvokeName(text) == Some(name)
    requires NamedParameters(text, map[]) == Some(AsMap(map[], NamedPairs(parts)))
    requires forall t <- TAGS :: ExtractElement(text, t) == FirstPlain(parts, t)
    ensures Reads(Repair(text), name, parts)
  {
    hide ExtractInvokeName, NamedParameters, WithElements, ExtractElement, AsMap, FirstPlain, LastNamed, TAGS;
    AsMapIsLast(map[], parts);
    ElementsFillIn(text, TAGS, AsMap(map[], NamedPairs(parts)), parts);
    var input := WithElements(text, TAGS, AsMap(map[], NamedPairs(parts)));
    assert forall key :: key in input <==> Argument(parts, key).Some?;
    if input == map[] {
      assert forall key :: key !in input;
    } else {
      var key :| key in input;
      assert Argument(parts, key).Some?;
    }
  }
}
