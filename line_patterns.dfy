/** Recognisers for the line shapes the outline parser looks for. Each one
    decides the same language as the corresponding regular expression of the
    source and returns its first capture group. They work by maximal munch:
    every repetition in those expressions is followed by a token whose first
    character lies outside the repeated class (or by the end of the line), so
    a shorter run never lets the rest match. Optional groups and alternations
    are covered by trying each choice. */
module LinePatterns {
  import opened Wrappers

  /** JavaScript's `\s`: white space and line terminators. */
  predicate IsSpace(c: char) {
    c == ' ' || c == '\t' || c == '\n' || c == '\r' || c == '\U{000B}' || c == '\U{000C}'
    || c == '\U{00A0}' || c == '\U{1680}' || ('\U{2000}' <= c <= '\U{200A}')
    || c == '\U{2028}' || c == '\U{2029}' || c == '\U{202F}' || c == '\U{205F}'
    || c == '\U{3000}' || c == '\U{FEFF}'
  }

  /** JavaScript's `\w`. */
  predicate IsWordChar(c: char) {
    ('a' <= c <= 'z') || ('A' <= c <= 'Z') || ('0' <= c <= '9') || c == '_'
  }

  /** JavaScript's `\d`. */
  predicate IsDigit(c: char) {
    '0' <= c <= '9'
  }

  /** A non-empty run of `\w` characters. */
  predicate IsWord(s: string) {
    |s| > 0 && forall i :: 0 <= i < |s| ==> IsWordChar(s[i])
  }

  /** The length of the longest prefix of `s` all of whose characters satisfy `p`. */
  function SpanOf(s: string, p: char -> bool): (n: nat)
    ensures n <= |s|
    ensures forall i :: 0 <= i < n ==> p(s[i])
    ensures n < |s| ==> !p(s[n])
  {
    if s == [] || !p(s[0]) then 0 else 1 + SpanOf(s[1..], p)
  }

  /** `s` without its leading `\s*`. */
  function DropSpaces(s: string): (r: string)
    ensures |r| <= |s| && r == s[|s| - |r|..]
    ensures r != [] ==> !IsSpace(r[0])
  {
    s[SpanOf(s, IsSpace)..]
  }

  /** `\s+`: at least one white-space character, consumed greedily. */
  function Spaces1(s: string): (r: Option<string>)
    ensures r.Some? <==> (|s| > 0 && IsSpace(s[0]))
    ensures r.Some? ==> r.value == DropSpaces(s)
  {
    var k := SpanOf(s, IsSpace);
    if k == 0 then None else Some(s[k..])
  }

  /** A literal at the start of `s`; returns what follows it. */
  function Lit(s: string, literal: string): (r: Option<string>)
    ensures r.Some? <==> (|literal| <= |s| && s[..|literal|] == literal)
    ensures r.Some? ==> s == literal + r.value
  {
    if |literal| <= |s| && s[..|literal|] == literal then Some(s[|literal|..]) else None
  }

  /** `\w+`, consumed greedily; returns the word and what follows it. */
  function Word(s: string): (r: Option<(string, string)>)
    ensures r.Some? <==> (|s| > 0 && IsWordChar(s[0]))
    ensures r.Some? ==> IsWord(r.value.0) && s == r.value.0 + r.value.1
    ensures r.Some? && r.value.1 != [] ==> !IsWordChar(r.value.1[0])
  {
    var k := SpanOf(s, IsWordChar);
    if k == 0 then None else Some((s[..k], s[k..]))
  }

  /** `\d+`, consumed greedily; returns what follows the digits. */
  function Digits1(s: string): (r: Option<string>)
    ensures r.Some? <==> (|s| > 0 && IsDigit(s[0]))
  {
    var k := SpanOf(s, IsDigit);
    if k == 0 then None else Some(s[k..])
  }

  /** `\s*$`. */
  predicate AtEnd(s: string) {
    DropSpaces(s) == []
  }

  /** `\s*(\/\/[^\n]*)?$`: optional white space, then either the end of the
      line or a `//` comment running to the end of it. */
  predicate AtTrailer(s: string) {
    var r := DropSpaces(s);
    r == [] || (Lit(r, "//").Some? && '\n' !in r)
  }

  /** Only white space before index `k`, where a `//` comment starts that
      runs to the end of the line. */
  predicate IsCommentAt(line: string, k: nat)
    requires k + 1 < |line|
  {
    (forall i :: 0 <= i < k ==> IsSpace(line[i])) && line[k] == '/' && line[k + 1] == '/' && '\n' !in line[k..]
  }

  /** `^\s*\/\/[^\n]*$`: a line holding nothing but a comment. */
  function IsCommentLine(line: string): (r: bool)
    ensures r <==> exists k :: 0 <= k < |line| - 1 && IsCommentAt(line, k)
  {
    var rest := DropSpaces(line);
    CommentAtSpan(line);
    Lit(rest, "//").Some? && '\n' !in rest
  }

  /** A `//` with only white space before it can only start where the
      leading white space ends. */
  lemma CommentAtSpan(line: string)
    ensures var k := SpanOf(line, IsSpace);
            (Lit(line[k..], "//").Some? && '\n' !in line[k..]) <==> (k + 1 < |line| && IsCommentAt(line, k))
    ensures forall j :: 0 <= j < |line| - 1 && IsCommentAt(line, j) ==> j == SpanOf(line, IsSpace)
  {
    var k := SpanOf(line, IsSpace);
    if k + 1 < |line| {
      assert line[k..][..2] == [line[k], line[k + 1]];
    }
    forall j | 0 <= j < |line| - 1 && IsCommentAt(line, j)
      ensures j == k
    {
      assert !IsSpace(line[j]);
    }
  }

  /** `^\s*(\w+)\s+is\s+a\s+BusinessClass\s*$`, returning the class name. */
  function ClassNameMatch(line: string): (r: Option<string>)
    ensures r.Some? ==> IsWord(r.value)
  {
    var w :- Word(DropSpaces(line));
    var s1 :- Spaces1(w.1);
    var s2 :- Lit(s1, "is");
    var s3 :- Spaces1(s2);
    var s4 :- Lit(s3, "a");
    var s5 :- Spaces1(s4);
    var s6 :- Lit(s5, "BusinessClass");
    if AtEnd(s6) then Some(w.0) else None
  }

  /** The section headings the class root recognises, in the order the
      source's alternation lists them. */
  const Headings: seq<string> := ["Persistent Fields", "Conditions", "Derived Fields", "Relations", "Actions"]

  /** `s` is heading `h` followed by a trailer. */
  predicate HeadingAt(s: string, h: string) {
    Lit(s, h).Some? && AtTrailer(Lit(s, h).value)
  }

  /** The first of `headings` that starts `s` and is followed by a trailer. */
  function HeadingIn(s: string, headings: seq<string>): (r: Option<string>)
    ensures r.Some? ==> HeadingAt(s, r.value)
  {
    if headings == [] then None
    else
      match Lit(s, headings[0])
      case Some(rest) =>
        if AtTrailer(rest) then Some(headings[0]) else HeadingIn(s, headings[1..])
      case None => HeadingIn(s, headings[1..])
  }

  /** `^(\s+)(Persistent Fields|Conditions|Derived Fields|Relations|Actions)\s*(\/\/[^\n]*)?$`,
      returning the heading text. */
  function HeadingMatch(line: string): (r: Option<string>)
    ensures r.Some? ==> |line| > 0 && IsSpace(line[0])
  {
    var s :- Spaces1(line);
    HeadingIn(s, Headings)
  }

  /** A heading line names one of the five section headings. */
  lemma HeadingMatchIsHeading(line: string)
    ensures HeadingMatch(line).Some? ==> HeadingMatch(line).value in Headings
  {
    var s := Spaces1(line);
    if s.Some? {
      HeadingInIsHeading(s.value, Headings);
    }
  }

  lemma {:induction false} HeadingInIsHeading(s: string, headings: seq<string>)
    ensures HeadingIn(s, headings).Some? ==> HeadingIn(s, headings).value in headings
    decreases |headings|
  {
    if headings != [] {
      HeadingInIsHeading(s, headings[1..]);
    }
  }

  /** Every listed heading that starts `s` and is followed by a trailer is
      found. */
  lemma {:induction false} HeadingInComplete(s: string, headings: seq<string>, h: string)
    requires h in headings && HeadingAt(s, h)
    ensures HeadingIn(s, headings).Some?
    decreases |headings|
  {
    if headings[0] != h {
      assert h in headings[1..];
      HeadingInComplete(s, headings[1..], h);
    }
  }

  /** The alternation is tried in order: the heading found is the first one
      of the list that fits. */
  lemma {:induction false} HeadingInFirst(s: string, headings: seq<string>, i: nat)
    requires i < |headings| && HeadingAt(s, headings[i])
    requires forall j :: 0 <= j < i ==> !HeadingAt(s, headings[j])
    ensures HeadingIn(s, headings) == Some(headings[i])
    decreases i
  {
    if i > 0 {
      assert !HeadingAt(s, headings[0]);
      forall j | 0 <= j < i - 1
        ensures !HeadingAt(s, headings[1..][j])
      {
        assert headings[1..][j] == headings[j + 1];
      }
      HeadingInFirst(s, headings[1..], i - 1);
    }
  }

  /** A heading line is exactly white space, then one of the five headings,
      then a trailer. */
  lemma HeadingMatchExact(line: string, h: string)
    requires h in Headings
    ensures HeadingMatch(line) == Some(h) <==> Spaces1(line).Some? && HeadingAt(Spaces1(line).value, h)
  {
    var s := Spaces1(line);
    if s.Some? {
      assert HeadingMatch(line) == HeadingIn(s.value, Headings);
      HeadingsDiffer();
      HeadingInExact(s.value, Headings, h);
    }
  }

  /** Non-empty headings, no two of which start with the same letter. */
  predicate FirstLettersDiffer(headings: seq<string>) {
    && (forall i :: 0 <= i < |headings| ==> |headings[i]| > 0)
    && (forall i, j :: 0 <= j < i < |headings| ==> headings[j][0] != headings[i][0])
  }

  /** The five headings start with different letters, so at most one of
      them fits a line. */
  lemma HeadingsDiffer()
    ensures FirstLettersDiffer(Headings)
  {
  }

  /** Among headings with different first letters, `h` is found exactly
      when it fits. */
  lemma HeadingInExact(s: string, headings: seq<string>, h: string)
    requires FirstLettersDiffer(headings) && h in headings
    ensures HeadingIn(s, headings) == Some(h) <==> HeadingAt(s, h)
  {
    if HeadingAt(s, h) {
      var i :| 0 <= i < |headings| && headings[i] == h;
      assert |headings[i]| > 0;
      forall j | 0 <= j < i
        ensures |headings[j]| > 0 && headings[j][0] != headings[i][0]
      {
      }
      HeadingInUnique(s, headings, i);
    }
  }

  /** When the headings before the `i`-th start with other letters, the
      `i`-th is found whenever it fits. */
  lemma HeadingInUnique(s: string, headings: seq<string>, i: nat)
    requires i < |headings| && |headings[i]| > 0 && HeadingAt(s, headings[i])
    requires forall j :: 0 <= j < i ==> |headings[j]| > 0 && headings[j][0] != headings[i][0]
    ensures HeadingIn(s, headings) == Some(headings[i])
  {
    HeadingAtStart(s, headings[i]);
    forall j | 0 <= j < i
      ensures !HeadingAt(s, headings[j])
    {
      if HeadingAt(s, headings[j]) {
        HeadingAtStart(s, headings[j]);
      }
    }
    HeadingInFirst(s, headings, i);
  }

  /** A heading that fits `s` gives `s` its first letter. */
  lemma HeadingAtStart(s: string, h: string)
    requires HeadingAt(s, h) && |h| > 0
    ensures |s| > 0 && s[0] == h[0]
  {
    assert s[..|h|][0] == h[0];
  }

  /** `(a|an)\s+`: the article, then white space. */
  function Article(s: string): Option<string> {
    if Lit(s, "a").Some? && Spaces1(Lit(s, "a").value).Some? then Spaces1(Lit(s, "a").value)
    else
      var t :- Lit(s, "an");
      Spaces1(t)
  }

  /** `(Request)?Action` followed by a trailer. */
  predicate ActionKeyword(s: string) {
    (Lit(s, "RequestAction").Some? && AtTrailer(Lit(s, "RequestAction").value))
    || (Lit(s, "Action").Some? && AtTrailer(Lit(s, "Action").value))
  }

  /** `((\w+)\s+)?(Request)?Action` followed by a trailer. */
  predicate ActionTail(s: string) {
    ActionKeyword(s)
    || (Word(s).Some? && Spaces1(Word(s).value.1).Some? && ActionKeyword(Spaces1(Word(s).value.1).value))
  }

  /** `^\s+(\w+)\s+is\s+(a|an)\s+((\w+)\s+)?(Request)?Action\s*(\/\/[^\n]*)?$`,
      returning the action name. */
  function ActionMatch(line: string): (r: Option<string>)
    ensures r.Some? ==> IsWord(r.value)
    ensures r.Some? ==> |line| > 0 && IsSpace(line[0])
  {
    var s0 :- Spaces1(line);
    var w :- Word(s0);
    var s1 :- Spaces1(w.1);
    var s2 :- Lit(s1, "is");
    var s3 :- Spaces1(s2);
    var s4 :- Article(s3);
    if ActionTail(s4) then Some(w.0) else None
  }

  /** `\d+` followed by a trailer. */
  predicate DigitsTail(s: string) {
    Digits1(s).Some? && AtTrailer(Digits1(s).value)
  }

  /** `((\s+size)?\s+\d+)?` followed by a trailer. */
  predicate SizeTail(s: string) {
    AtTrailer(s)
    || (Spaces1(s).Some?
        && (DigitsTail(Spaces1(s).value)
            || (Lit(Spaces1(s).value, "size").Some?
                && Spaces1(Lit(Spaces1(s).value, "size").value).Some?
                && DigitsTail(Spaces1(Lit(Spaces1(s).value, "size").value).value))))
  }

  /** `(\w+)((\s+size)?\s+\d+)?` followed by a trailer. */
  predicate TypeTail(s: string) {
    Word(s).Some? && SizeTail(Word(s).value.1)
  }

  /** `(keyword)\s+` followed by a type tail. */
  predicate QualifiedTypeTail(s: string, keyword: string) {
    Lit(s, keyword).Some? && Spaces1(Lit(s, keyword).value).Some?
    && TypeTail(Spaces1(Lit(s, keyword).value).value)
  }

  /** `^\s+(\w+)\s+is\s+((a|an|like)\s+)?(\w+)((\s+size)?\s+\d+)?\s*(\/\/[^\n]*)?$`,
      returning the field name. */
  function FieldMatch(line: string): (r: Option<string>)
    ensures r.Some? ==> IsWord(r.value)
    ensures r.Some? ==> |line| > 0 && IsSpace(line[0])
  {
    var s0 :- Spaces1(line);
    var w :- Word(s0);
    var s1 :- Spaces1(w.1);
    var s2 :- Lit(s1, "is");
    var s3 :- Spaces1(s2);
    if TypeTail(s3) || QualifiedTypeTail(s3, "a") || QualifiedTypeTail(s3, "an")
       || QualifiedTypeTail(s3, "like")
    then Some(w.0)
    else None
  }

  /** `^\s+(\w+)\s*(\/\/[^\n]*)?$`, returning the condition name. */
  function ConditionMatch(line: string): (r: Option<string>)
    ensures r.Some? ==> IsWord(r.value)
    ensures r.Some? ==> |line| > 0 && IsSpace(line[0])
  {
    var s0 :- Spaces1(line);
    var w :- Word(s0);
    if AtTrailer(w.1) then Some(w.0) else None
  }
}
