/** The outline parser of `documentSymbolProvider.ts` written as a function
    of the document: the reference that the imperative provider is proved to
    compute. A parser state is the current context, the stack of enclosing
    contexts, the symbols emitted so far and the class name. */
module OutlineSpec {
  import opened Wrappers
  import opened Symbols
  import opened LinePatterns
  import opened Columns

  /** The value of one `IndentInfo`: the indentation of its heading line, the
      indentation its body has been seen at (learnt from its first content
      line), its block type and the symbol it will close. */
  datatype Ctx = Ctx(headingIndent: nat, contentIndent: Option<nat>, blockType: Block, symbol: Option<Symbol>)

  datatype State = State(current: Ctx, stack: seq<Ctx>, result: seq<Symbol>, className: string)

  /** Before the first line: the class root, with nothing open above it. */
  const Init: State := State(Ctx(0, None, ClassRoot, None), [], [], "")

  /** The editor's index of the first non-white-space character of a line
      (the line's length when it has none). */
  function FirstNonWhitespace(text: string): (r: nat)
    ensures r <= |text|
    ensures forall i :: 0 <= i < r ==> IsSpace(text[i])
    ensures r < |text| ==> !IsSpace(text[r])
  {
    SpanOf(text, IsSpace)
  }

  /** The editor's `isEmptyOrWhitespace`: no character but white space. */
  function IsEmptyOrWhitespace(text: string): (r: bool)
    ensures r <==> forall i :: 0 <= i < |text| ==> IsSpace(text[i])
  {
    FirstNonWhitespace(text) == |text|
  }

  /** Lines the parser passes over: blank ones and full-line comments. */
  function IsSkipped(text: string): (r: bool)
    ensures r <==> (forall i :: 0 <= i < |text| ==> IsSpace(text[i]))
                   || (exists k :: 0 <= k < |text| - 1 && IsCommentAt(text, k))
  {
    IsCommentLine(text) || IsEmptyOrWhitespace(text)
  }

  /** The indentation width of a line. */
  function LineIndent(text: string, tab: TabSetting): nat {
    Column(text, FirstNonWhitespace(text), tab)
  }

  /** The block a section heading opens. */
  function HeadingBlock(heading: string): (r: Block)
    ensures r.PersistentFields? || r.Conditions? || r.Actions? || r.OtherSection?
    ensures heading in Headings ==> (r.OtherSection? <==> heading == "Derived Fields" || heading == "Relations")
  {
    if heading == "Persistent Fields" then PersistentFields
    else if heading == "Conditions" then Conditions
    else if heading == "Actions" then Actions
    else OtherSection
  }

  /** Where a symbol closed before line `lineNum` ends: the end of line
      `lineNum - 1`, its length counted in UTF-16 code units. */
  function LineEnd(doc: seq<string>, lineNum: nat): Position
    requires 1 <= lineNum <= |doc|
  {
    Position(lineNum - 1, Utf16Length(doc[lineNum - 1]))
  }

  /** A character outside the Basic Multilingual Plane takes two units of
      the line's length. */
  lemma LineEndCountsCodeUnits()
    ensures LineEnd(["C1 \U{1F600}"], 1) == Position(0, 5)
  {
    var t := "C1 \U{1F600}";
    assert t[1..][1..][1..] == "\U{1F600}";
    assert Utf16Length("\U{1F600}") == 2;
  }

  /** `popBlock`'s new symbol: same name, kind, container and start, the range
      running to the end of the line before `lineNum`. */
  function Close(doc: seq<string>, lineNum: nat, s: Symbol): (r: Symbol)
    requires 1 <= lineNum <= |doc|
    ensures r.name == s.name && r.kind == s.kind && r.containerName == s.containerName
    ensures WellFormed(r)
    ensures !IsAfter(s.range.start, LineEnd(doc, lineNum)) ==> r.range == Range(s.range.start, LineEnd(doc, lineNum))
  {
    s.(range := MakeRange(s.range.start, LineEnd(doc, lineNum)))
  }

  /** `popBlock` on the current context: a pending symbol is closed, kept in
      the context, and appended to the result. */
  function CloseCurrent(doc: seq<string>, lineNum: nat, st: State): State
    requires st.current.symbol.Some? ==> 1 <= lineNum <= |doc|
  {
    match st.current.symbol
    case None => st
    case Some(s) =>
      var closed := Close(doc, lineNum, s);
      st.(current := st.current.(symbol := Some(closed)), result := st.result + [closed])
  }

  /** `currentBlock = indentInfo.pop()` on a non-empty stack. */
  function Pop(st: State): State
    requires st.stack != []
  {
    st.(current := st.stack[|st.stack| - 1], stack := st.stack[..|st.stack| - 1])
  }

  /** The loop that closes every context the line at `lineNum`, indented by
      `indent`, leaves. When the stack runs out, the root stays current. */
  function PopLoop(doc: seq<string>, lineNum: nat, indent: nat, st: State): (r: State)
    requires lineNum <= |doc|
    requires lineNum == 0 ==> st.current.symbol.None?
    ensures r.className == st.className
    ensures indent <= r.current.headingIndent && r.current.symbol.Some? ==> r.stack == []
    decreases |st.stack|
  {
    if indent <= st.current.headingIndent && st.current.symbol.Some? then
      var closed := CloseCurrent(doc, lineNum, st);
      if closed.stack == [] then closed else PopLoop(doc, lineNum, indent, Pop(closed))
    else st
  }

  /** Sets the content indentation of a context if it has none yet. */
  function Learn(c: Ctx, indent: nat): Ctx {
    if c.contentIndent.None? then c.(contentIndent := Some(indent)) else c
  }

  /** Learning leaves a content indentation set, never replaces one already
      learnt, and touches nothing else; learning twice is learning once. */
  lemma LearnOnce(c: Ctx, indent: nat, later: nat)
    ensures Learn(c, indent).contentIndent.Some?
    ensures c.contentIndent.Some? ==> Learn(c, indent) == c
    ensures Learn(c, indent).(contentIndent := c.contentIndent) == c
    ensures Learn(Learn(c, indent), later) == Learn(c, indent)
  {
  }

  /** The `ClassRoot` block before the class symbol is set: a class
      declaration names the class and sets the class symbol at the top of
      the document. */
  function ClassLine(text: string, st: State): State {
    match ClassNameMatch(text)
    case None => st
    case Some(name) =>
      st.(className := name,
          current := st.current.(symbol := Some(Symbol(name, Class, "", At(Position(0, 0))))))
  }

  /** The `ClassRoot` block once the class symbol is set, given what the
      heading pattern made of the line: a section heading records its
      indentation as the root's content indentation, pushes the root and
      opens the section. */
  function HeadingLine(heading: Option<string>, start: Position, indent: nat, st: State): State {
    match heading
    case None => st
    case Some(heading) =>
      st.(stack := st.stack + [st.current.(contentIndent := Some(indent))],
          current := Ctx(indent, None, HeadingBlock(heading),
                         Some(Symbol(heading, Namespace, st.className, At(start)))))
  }

  /** A `Persistent Fields` block: a field declaration emits a field symbol
      at once. */
  function FieldLine(text: string, start: Position, indent: nat, st: State): State {
    match FieldMatch(text)
    case None => st
    case Some(name) =>
      st.(current := Learn(st.current, indent),
          result := st.result + [Symbol(name, Field, st.className, At(start))])
  }

  /** A `Conditions` or `Actions` block: a matching line opens a condition
      (function symbol) or an action (method symbol). */
  function MemberLine(text: string, start: Position, indent: nat, st: State): State {
    var isCondition := st.current.blockType == Conditions;
    match (if isCondition then ConditionMatch(text) else ActionMatch(text))
    case None => st
    case Some(name) =>
      st.(stack := st.stack + [Learn(st.current, indent)],
          current := Ctx(indent, None, if isCondition then Condition else Action,
                         Some(Symbol(name, if isCondition then Function else Method, st.className, At(start)))))
  }

  /** The per-block handling of line `lineNum` once the pop loop is done:
      nothing happens unless the current block has not learnt its content
      indentation yet or the line is indented exactly by it. */
  function Dispatch(doc: seq<string>, lineNum: nat, indent: nat, st: State): State
    requires lineNum < |doc|
  {
    var text := doc[lineNum];
    var cur := st.current;
    var start := Position(lineNum, FirstNonWhitespace(text));
    if cur.contentIndent.Some? && cur.contentIndent.value != indent then st
    else
      match cur.blockType
      case ClassRoot =>
        if cur.symbol.None? then ClassLine(text, st) else HeadingLine(HeadingMatch(text), start, indent, st)
      case PersistentFields => FieldLine(text, start, indent, st)
      case Conditions => MemberLine(text, start, indent, st)
      case Actions => MemberLine(text, start, indent, st)
      case Action => st.(current := Learn(cur, indent))
      case Condition => st.(current := Learn(cur, indent))
      case OtherSection => st.(current := Learn(cur, indent))
      case DerivedFields => st
      case Relations => st
  }

  /** One iteration of the line loop. */
  function Step(doc: seq<string>, tab: TabSetting, lineNum: nat, st: State): State
    requires lineNum < |doc|
    requires lineNum == 0 ==> st.current.symbol.None?
  {
    var text := doc[lineNum];
    if IsSkipped(text) then st
    else
      var indent := LineIndent(text, tab);
      Dispatch(doc, lineNum, indent, PopLoop(doc, lineNum, indent, st))
  }

  /** The state after the first `n` lines. */
  function RunTo(doc: seq<string>, tab: TabSetting, n: nat): State
    requires n <= |doc|
    decreases n
  {
    if n == 0 then Init else Step(doc, tab, n - 1, RunTo(doc, tab, n - 1))
  }

  /** The final loop: close the current context and pop, until the stack is
      empty. */
  function Drain(doc: seq<string>, st: State): (r: State)
    requires |doc| == 0 ==> st.current.symbol.None? && st.stack == []
    ensures r.stack == [] && r.className == st.className
    decreases |st.stack|
  {
    var closed := CloseCurrent(doc, |doc|, st);
    if closed.stack == [] then closed else Drain(doc, Pop(closed))
  }

  /** The symbols `provideDocumentSymbols` returns for a document. */
  function Outline(doc: seq<string>, tab: TabSetting): seq<Symbol> {
    Drain(doc, RunTo(doc, tab, |doc|)).result
  }

  /** The line loop unrolled by one line. */
  lemma RunToNext(doc: seq<string>, tab: TabSetting, n: nat)
    requires n < |doc|
    ensures n == 0 ==> RunTo(doc, tab, n) == Init
    ensures !IsSkipped(doc[n]) ==>
              var indent := LineIndent(doc[n], tab);
              RunTo(doc, tab, n + 1) == Dispatch(doc, n, indent, PopLoop(doc, n, indent, RunTo(doc, tab, n)))
  {
  }

  /** The line loop after `n` lines is one more step after `n - 1`. */
  lemma RunToStep(doc: seq<string>, tab: TabSetting, n: nat)
    requires 1 <= n <= |doc|
    ensures RunTo(doc, tab, n - 1).current.symbol.None? || n - 1 != 0
    ensures RunTo(doc, tab, n) == Step(doc, tab, n - 1, RunTo(doc, tab, n - 1))
  {
  }

  /** A blank or comment line changes nothing. */
  lemma SkippedLine(doc: seq<string>, tab: TabSetting, n: nat)
    requires n < |doc| && IsSkipped(doc[n])
    ensures RunTo(doc, tab, n + 1) == RunTo(doc, tab, n)
  {
  }
}
