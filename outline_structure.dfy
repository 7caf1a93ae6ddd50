/** The shape of the parser's stack: what the pop loop and the final loop
    close, and how the indentations of nested contexts relate. */
module OutlineStructure {
  import opened Wrappers
  import opened Symbols
  import opened LinePatterns
  import opened Columns
  import opened OutlineSpec
  import opened OutlineProperties

  /** The condition of the pop loop: the line leaves context `c`. */
  predicate Leaves(indent: nat, c: Ctx) {
    indent <= c.headingIndent && c.symbol.Some?
  }

  /** The `j`-th context the pop loop looks at: the current one, then the
      stack from the top down. */
  function Visited(st: State, j: nat): Ctx
    requires j <= |st.stack|
  {
    if j == 0 then st.current else st.stack[|st.stack| - j]
  }

  /** How many symbols the pop loop emits when it ends in state `r`. */
  function ClosedCount(st: State, r: State, indent: nat): int {
    (|st.stack| - |r.stack|) + (if Leaves(indent, r.current) then 1 else 0)
  }

  /** The pop loop pops a suffix of the stack, emits one symbol per context
      it leaves and keeps the symbols emitted before. It stops at the first
      context the line does not leave, which it leaves current and
      unchanged; or, when the stack is exhausted, with the root current. */
  lemma {:induction false} PopLoopShape(doc: seq<string>, n: nat, indent: nat, st: State)
    requires n <= |doc| && (n == 0 ==> st.current.symbol.None?)
    ensures var r := PopLoop(doc, n, indent, st);
            && |r.stack| <= |st.stack| && r.stack == st.stack[..|r.stack|]
            && (Leaves(indent, r.current) ==> r.stack == [])
            && r.className == st.className
            && |r.result| == |st.result| + ClosedCount(st, r, indent)
            && r.result[..|st.result|] == st.result
            && (!Leaves(indent, r.current) ==> r.current == Visited(st, |st.stack| - |r.stack|))
    decreases |st.stack|
  {
    if Leaves(indent, st.current) {
      var closed := CloseCurrent(doc, n, st);
      if closed.stack != [] {
        var next := Pop(closed);
        PopLoopShape(doc, n, indent, next);
        var r := PopLoop(doc, n, indent, next);
        assert Visited(next, |next.stack| - |r.stack|) == Visited(st, |st.stack| - |r.stack|);
        assert r.result[..|st.result|] == r.result[..|closed.result|][..|st.result|];
      }
    }
  }

  /** The `j`-th symbol the pop loop emits closes the `j`-th context it
      looks at, which the line leaves. */
  lemma {:induction false} PopLoopCloses(doc: seq<string>, n: nat, indent: nat, st: State)
    requires n <= |doc| && (n == 0 ==> st.current.symbol.None?)
    ensures var r := PopLoop(doc, n, indent, st);
            forall j :: 0 <= j < ClosedCount(st, r, indent) ==>
              && j <= |st.stack| && |st.result| + j < |r.result|
              && 1 <= n && Leaves(indent, Visited(st, j))
              && r.result[|st.result| + j] == Close(doc, n, Visited(st, j).symbol.value)
    decreases |st.stack|
  {
    PopLoopShape(doc, n, indent, st);
    if Leaves(indent, st.current) {
      var closed := CloseCurrent(doc, n, st);
      if closed.stack != [] {
        var next := Pop(closed);
        PopLoopCloses(doc, n, indent, next);
        PopLoopShape(doc, n, indent, next);
        var r := PopLoop(doc, n, indent, next);
        forall j | 0 <= j < ClosedCount(st, r, indent)
          ensures j <= |st.stack| && |st.result| + j < |r.result|
          ensures 1 <= n && Leaves(indent, Visited(st, j))
          ensures r.result[|st.result| + j] == Close(doc, n, Visited(st, j).symbol.value)
        {
          if j == 0 {
            assert r.result[|st.result|] == r.result[..|closed.result|][|st.result|];
          } else {
            assert Visited(next, j - 1) == Visited(st, j);
            assert |closed.result| + (j - 1) == |st.result| + j;
          }
        }
      }
    }
  }

  /** The final loop empties the stack, emits one symbol per context with
      a symbol and keeps the symbols emitted before. */
  lemma {:induction false} DrainShape(doc: seq<string>, st: State)
    requires |doc| == 0 ==> st.current.symbol.None? && st.stack == []
    requires st.current.symbol.None? ==> st.stack == []
    requires forall i :: 0 <= i < |st.stack| ==> st.stack[i].symbol.Some?
    ensures var r := Drain(doc, st);
            && r.stack == []
            && r.className == st.className
            && |r.result| == |st.result| + (if st.current.symbol.Some? then |st.stack| + 1 else 0)
            && r.result[..|st.result|] == st.result
    decreases |st.stack|
  {
    var closed := CloseCurrent(doc, |doc|, st);
    if closed.stack != [] {
      var next := Pop(closed);
      DrainShape(doc, next);
      var r := Drain(doc, next);
      assert r.result[..|st.result|] == r.result[..|closed.result|][..|st.result|];
    }
  }

  /** The final loop closes the current context first, then the stack from
      the top down. */
  lemma {:induction false} DrainCloses(doc: seq<string>, st: State)
    requires |doc| == 0 ==> st.current.symbol.None? && st.stack == []
    requires st.current.symbol.None? ==> st.stack == []
    requires forall i :: 0 <= i < |st.stack| ==> st.stack[i].symbol.Some?
    ensures var r := Drain(doc, st);
            st.current.symbol.Some? ==>
              forall j :: 0 <= j <= |st.stack| ==>
                && |st.result| + j < |r.result| && 1 <= |doc| && Visited(st, j).symbol.Some?
                && r.result[|st.result| + j] == Close(doc, |doc|, Visited(st, j).symbol.value)
    decreases |st.stack|
  {
    DrainShape(doc, st);
    if st.current.symbol.Some? {
      var closed := CloseCurrent(doc, |doc|, st);
      if closed.stack != [] {
        var next := Pop(closed);
        DrainCloses(doc, next);
        DrainShape(doc, next);
        var r := Drain(doc, next);
        forall j | 0 <= j <= |st.stack|
          ensures |st.result| + j < |r.result| && 1 <= |doc| && Visited(st, j).symbol.Some?
          ensures r.result[|st.result| + j] == Close(doc, |doc|, Visited(st, j).symbol.value)
        {
          if j == 0 {
            assert r.result[|st.result|] == r.result[..|closed.result|][|st.result|];
          } else {
            assert Visited(next, j - 1) == Visited(st, j);
            assert |closed.result| + (j - 1) == |st.result| + j;
          }
        }
      }
    }
  }

  /** The behaviour kept from the source: once the stack is exhausted, the
      root stays current holding its closed symbol, so a later line it
      leaves closes and appends that symbol once more. */
  lemma QuirkReemit(doc: seq<string>, n: nat, indent: nat, st: State)
    requires 1 <= n <= |doc| && st.stack == [] && st.current.symbol.Some?
    requires indent <= st.current.headingIndent
    ensures var closed := Close(doc, n, st.current.symbol.value);
            var r := PopLoop(doc, n, indent, st);
            && r.stack == [] && r.result == st.result + [closed]
            && r.current == st.current.(symbol := Some(closed))
  {
  }

  /** The final loop closes a lone root once more, even when its symbol was
      closed and emitted before. */
  lemma QuirkReemitAtEnd(doc: seq<string>, st: State)
    requires 1 <= |doc| && st.stack == [] && st.current.symbol.Some?
    ensures Drain(doc, st).result == st.result + [Close(doc, |doc|, st.current.symbol.value)]
  {
  }

  /** Both together: a class symbol left alone on the root by a line it
      leaves appears twice in the outline, under the same name and kind. */
  lemma QuirkTwice(doc: seq<string>, n: nat, indent: nat, st: State)
    requires 1 <= n <= |doc| && st.stack == [] && st.current.symbol.Some?
    requires indent <= st.current.headingIndent
    ensures var out := Drain(doc, PopLoop(doc, n, indent, st)).result;
            && |out| == |st.result| + 2 && out[..|st.result|] == st.result
            && out[|st.result|].name == out[|st.result| + 1].name == st.current.symbol.value.name
            && out[|st.result|].kind == out[|st.result| + 1].kind == st.current.symbol.value.kind
  {
    QuirkReemit(doc, n, indent, st);
    QuirkReemitAtEnd(doc, PopLoop(doc, n, indent, st));
  }

  /** The context directly above stack entry `i`. */
  function Above(st: State, i: nat): Ctx
    requires i < |st.stack|
  {
    if i + 1 < |st.stack| then st.stack[i + 1] else st.current
  }

  /** The class root sits at the bottom of the stack with heading indent 0,
      every context on the stack learnt its content indentation as the
      heading indentation of the context opened above it, and (when
      `strict`) heading indentations strictly increase from bottom to top. */
  predicate Nesting(st: State, strict: bool) {
    && (st.stack == [] ==> st.current.blockType == ClassRoot)
    && (st.stack != [] ==> st.stack[0].blockType == ClassRoot)
    && (st.current.blockType == ClassRoot ==> st.current.headingIndent == 0)
    && (forall i :: 0 <= i < |st.stack| ==> st.stack[i].blockType == ClassRoot ==> st.stack[i].headingIndent == 0)
    && (forall i :: 0 <= i < |st.stack| ==> st.stack[i].contentIndent == Some(Above(st, i).headingIndent))
    && (strict ==> forall i :: 0 <= i < |st.stack| ==> st.stack[i].headingIndent < st.current.headingIndent)
    && (strict ==> forall i, j :: 0 <= i < j < |st.stack| ==> st.stack[i].headingIndent < st.stack[j].headingIndent)
  }

  lemma CloseCurrentNesting(doc: seq<string>, n: nat, st: State, strict: bool)
    requires Nesting(st, strict) && (st.current.symbol.Some? ==> 1 <= n <= |doc|)
    ensures Nesting(CloseCurrent(doc, n, st), strict)
  {
    var st' := CloseCurrent(doc, n, st);
    forall i | 0 <= i < |st'.stack|
      ensures st'.stack[i].contentIndent == Some(Above(st', i).headingIndent)
    {
      assert Above(st', i).headingIndent == Above(st, i).headingIndent;
    }
  }

  lemma PopNesting(st: State, strict: bool)
    requires Nesting(st, strict) && st.stack != []
    ensures Nesting(Pop(st), strict)
  {
    var st' := Pop(st);
    forall i | 0 <= i < |st'.stack|
      ensures st'.stack[i].contentIndent == Some(Above(st', i).headingIndent)
    {
      assert Above(st', i) == Above(st, i);
    }
  }

  lemma {:induction false} PopLoopNesting(doc: seq<string>, n: nat, indent: nat, st: State, strict: bool)
    requires n <= |doc| && (n == 0 ==> st.current.symbol.None?)
    requires Nesting(st, strict)
    ensures Nesting(PopLoop(doc, n, indent, st), strict)
    decreases |st.stack|
  {
    if Leaves(indent, st.current) {
      CloseCurrentNesting(doc, n, st, strict);
      var closed := CloseCurrent(doc, n, st);
      if closed.stack != [] {
        PopNesting(closed, strict);
        PopLoopNesting(doc, n, indent, Pop(closed), strict);
      }
    }
  }

  /** Opening a child context: the parent has learnt the child's heading
      indentation as its content indentation. */
  lemma PushNesting(st: State, strict: bool, parent: Ctx, child: Ctx)
    requires Nesting(st, strict)
    requires parent.headingIndent == st.current.headingIndent && parent.blockType == st.current.blockType
    requires parent.contentIndent == Some(child.headingIndent) && child.blockType != ClassRoot
    requires strict ==> st.current.headingIndent < child.headingIndent
    ensures Nesting(st.(stack := st.stack + [parent], current := child), strict)
  {
    var st' := st.(stack := st.stack + [parent], current := child);
    forall i | 0 <= i < |st'.stack|
      ensures st'.stack[i].contentIndent == Some(Above(st', i).headingIndent)
    {
      if i + 1 < |st.stack| {
        assert Above(st', i) == Above(st, i);
      } else if i + 1 == |st.stack| {
        assert Above(st', i) == parent;
      }
    }
  }

  /** With an editor, a line that starts with white space is indented. */
  lemma IndentedLine(text: string, tab: TabSetting)
    requires HasEditor(tab) && |text| > 0 && IsSpace(text[0])
    ensures LineIndent(text, tab) >= 1
  {
    var f := FirstNonWhitespace(text);
    WidthAtLeastLength(text[..Min(f, |text|)], EffectiveTabSize(tab));
  }

  /** A section heading opens above the class root at a positive
      indentation when there is an editor: the line starts with white space
      and the pop loop did not exhaust the stack on it. */
  lemma HeadingNesting(doc: seq<string>, n: nat, tab: TabSetting, st: State, m: Option<string>)
    requires n < |doc| && Nesting(st, HasEditor(tab))
    requires m.Some? ==> |doc[n]| > 0 && IsSpace(doc[n][0])
    requires st.current.blockType == ClassRoot && st.current.symbol.Some?
    requires st.current.contentIndent.None? || st.current.contentIndent == Some(LineIndent(doc[n], tab))
    requires Leaves(LineIndent(doc[n], tab), st.current) ==> st.stack == []
    ensures Nesting(HeadingLine(m, Position(n, FirstNonWhitespace(doc[n])), LineIndent(doc[n], tab), st), HasEditor(tab))
  {
    var indent := LineIndent(doc[n], tab);
    if m.Some? {
      if HasEditor(tab) {
        IndentedLine(doc[n], tab);
      }
      var start := Position(n, FirstNonWhitespace(doc[n]));
      PushNesting(st, HasEditor(tab), st.current.(contentIndent := Some(indent)),
                  Ctx(indent, None, HeadingBlock(m.value), Some(Symbol(m.value, Namespace, st.className, At(start)))));
    }
  }

  /** A condition or action opens above its section, indented further than
      the section heading when there is an editor. */
  lemma MemberNesting(doc: seq<string>, n: nat, tab: TabSetting, st: State)
    requires n < |doc| && Nesting(st, HasEditor(tab))
    requires st.current.blockType == Conditions || st.current.blockType == Actions
    requires st.current.symbol.Some?
    requires st.current.contentIndent.None? || st.current.contentIndent == Some(LineIndent(doc[n], tab))
    requires Leaves(LineIndent(doc[n], tab), st.current) ==> st.stack == []
    ensures Nesting(MemberLine(doc[n], Position(n, FirstNonWhitespace(doc[n])), LineIndent(doc[n], tab), st), HasEditor(tab))
  {
    var indent := LineIndent(doc[n], tab);
    var start := Position(n, FirstNonWhitespace(doc[n]));
    var isCondition := st.current.blockType == Conditions;
    var m := if isCondition then ConditionMatch(doc[n]) else ActionMatch(doc[n]);
    if m.Some? {
      PushNesting(st, HasEditor(tab), Learn(st.current, indent),
                  Ctx(indent, None, if isCondition then Condition else Action,
                      Some(Symbol(m.value, if isCondition then Function else Method, st.className, At(start)))));
    }
  }

  /** Nesting depends only on the stack and on the heading indentation
      and block type of the current context. */
  lemma NestingFrame(st: State, st': State, strict: bool)
    requires Nesting(st, strict) && st'.stack == st.stack
    requires st'.current.headingIndent == st.current.headingIndent
    requires st'.current.blockType == st.current.blockType
    ensures Nesting(st', strict)
  {
    forall i | 0 <= i < |st'.stack|
      ensures st'.stack[i].contentIndent == Some(Above(st', i).headingIndent)
    {
      assert Above(st', i).headingIndent == Above(st, i).headingIndent;
    }
  }

  /** A class declaration opens nothing. */
  lemma ClassLineKeepsStack(text: string, st: State)
    ensures var c := ClassLine(text, st);
            c.stack == st.stack && c.current.headingIndent == st.current.headingIndent
            && c.current.blockType == st.current.blockType
  {
  }

  /** A field declaration opens nothing. */
  lemma FieldLineKeepsStack(text: string, start: Position, indent: nat, st: State)
    ensures var f := FieldLine(text, start, indent, st);
            f.stack == st.stack && f.current.headingIndent == st.current.headingIndent
            && f.current.blockType == st.current.blockType
  {
  }

  /** The per-block handling after the pop loop keeps the nesting. The pop
      loop left a context the line does not leave, or the root with its
      symbol closed. */
  lemma DispatchNesting(doc: seq<string>, n: nat, tab: TabSetting, st: State)
    requires n < |doc|
    requires Nesting(st, HasEditor(tab))
    requires st.current.symbol.None? ==> st.current.blockType == ClassRoot
    requires Leaves(LineIndent(doc[n], tab), st.current) ==> st.stack == []
    ensures Nesting(Dispatch(doc, n, LineIndent(doc[n], tab), st), HasEditor(tab))
  {
    var indent := LineIndent(doc[n], tab);
    var cur := st.current;
    if cur.contentIndent.Some? && cur.contentIndent.value != indent {
    } else if cur.blockType == ClassRoot {
      if cur.symbol.Some? {
        HeadingNesting(doc, n, tab, st, HeadingMatch(doc[n]));
      } else {
        ClassLineKeepsStack(doc[n], st);
        NestingFrame(st, ClassLine(doc[n], st), HasEditor(tab));
      }
    } else if cur.blockType == Conditions || cur.blockType == Actions {
      MemberNesting(doc, n, tab, st);
    } else if cur.blockType == PersistentFields {
      FieldLineKeepsStack(doc[n], Position(n, FirstNonWhitespace(doc[n])), indent, st);
      NestingFrame(st, FieldLine(doc[n], Position(n, FirstNonWhitespace(doc[n])), indent, st), HasEditor(tab));
    } else if cur.blockType == Action || cur.blockType == Condition || cur.blockType == OtherSection {
      NestingFrame(st, st.(current := Learn(cur, indent)), HasEditor(tab));
    }
  }

  /** A class declaration under a root without a symbol: the class name is
      recorded and the class symbol set at the top of the document. */
  predicate DeclaresClass(st: State, r: State) {
    && st.current.blockType == ClassRoot && st.current.symbol.None?
    && r.stack == st.stack && r.result == st.result && IsWord(r.className)
    && r.current == st.current.(symbol := Some(Symbol(r.className, Class, "", At(Position(0, 0)))))
  }

  /** A field declaration in a `Persistent Fields` block: one field symbol at
      `start` is appended, nothing is opened. */
  predicate EmitsField(st: State, r: State, indent: nat, start: Position) {
    && st.current.blockType == PersistentFields
    && r.stack == st.stack && r.className == st.className && r.current == Learn(st.current, indent)
    && |r.result| == |st.result| + 1 && r.result[..|st.result|] == st.result
    && var f := r.result[|st.result|];
       f.kind == Field && IsWord(f.name) && f.containerName == st.className && f.range == At(start)
  }

  /** Which child a block opens: a section under the class root, a condition
      under `Conditions`, an action under `Actions`. */
  predicate ChildOf(parent: Block, child: Block, s: Symbol) {
    || (parent == ClassRoot && s.kind == Namespace && s.name in Headings && child == HeadingBlock(s.name))
    || (parent == Conditions && s.kind == Function && IsWord(s.name) && child == Condition)
    || (parent == Actions && s.kind == Method && IsWord(s.name) && child == Action)
  }

  /** A child context opened at `start`: the current context, which has a
      symbol, is pushed having learnt `indent` as its content indentation,
      and the child, headed at `indent`, has a pending symbol. */
  predicate OpensChild(st: State, r: State, indent: nat, start: Position) {
    && st.current.symbol.Some?
    && r.result == st.result && r.className == st.className
    && r.stack == st.stack + [st.current.(contentIndent := Some(indent))]
    && (st.current.contentIndent.None? || st.current.contentIndent == Some(indent))
    && r.current.headingIndent == indent && r.current.contentIndent.None? && r.current.symbol.Some?
    && r.current.symbol.value.containerName == st.className && r.current.symbol.value.range == At(start)
    && ChildOf(st.current.blockType, r.current.blockType, r.current.symbol.value)
  }

  lemma ClassLineEffect(text: string, st: State)
    requires st.current.blockType == ClassRoot && st.current.symbol.None?
    ensures ClassLine(text, st) == st || DeclaresClass(st, ClassLine(text, st))
  {
  }

  lemma HeadingLineEffect(m: Option<string>, start: Position, indent: nat, st: State)
    requires st.current.blockType == ClassRoot && st.current.symbol.Some?
    requires st.current.contentIndent.None? || st.current.contentIndent == Some(indent)
    requires m.Some? ==> m.value in Headings
    ensures HeadingLine(m, start, indent, st) == st || OpensChild(st, HeadingLine(m, start, indent, st), indent, start)
  {
  }

  lemma FieldLineEffect(text: string, start: Position, indent: nat, st: State)
    requires st.current.blockType == PersistentFields
    ensures FieldLine(text, start, indent, st) == st || EmitsField(st, FieldLine(text, start, indent, st), indent, start)
  {
  }

  lemma MemberLineEffect(text: string, start: Position, indent: nat, st: State)
    requires st.current.blockType == Conditions || st.current.blockType == Actions
    requires st.current.symbol.Some?
    requires st.current.contentIndent.None? || st.current.contentIndent == Some(indent)
    ensures MemberLine(text, start, indent, st) == st || OpensChild(st, MemberLine(text, start, indent, st), indent, start)
  {
    assert Learn(st.current, indent) == st.current.(contentIndent := Some(indent));
  }

  /** Everything the per-block handling of one line can do. A line indented
      differently from the content indentation the current block has learnt
      changes nothing. Otherwise it changes nothing, only lets the block
      learn its content indentation, declares the class, emits one field, or
      opens one child; sections open only once the class is declared, and
      conditions and actions only in blocks that have a symbol. */
  lemma DispatchEffect(doc: seq<string>, n: nat, indent: nat, st: State)
    requires n < |doc|
    requires st.current.symbol.None? ==> st.current.blockType == ClassRoot
    ensures var r := Dispatch(doc, n, indent, st);
            var start := Position(n, FirstNonWhitespace(doc[n]));
            && (st.current.contentIndent.Some? && st.current.contentIndent.value != indent ==> r == st)
            && (|| r == st
                || r == st.(current := Learn(st.current, indent))
                || DeclaresClass(st, r)
                || EmitsField(st, r, indent, start)
                || OpensChild(st, r, indent, start))
  {
    var cur := st.current;
    var start := Position(n, FirstNonWhitespace(doc[n]));
    if cur.contentIndent.Some? && cur.contentIndent.value != indent {
    } else if cur.blockType == ClassRoot {
      if cur.symbol.Some? {
        HeadingMatchIsHeading(doc[n]);
        HeadingLineEffect(HeadingMatch(doc[n]), start, indent, st);
      } else {
        ClassLineEffect(doc[n], st);
      }
    } else if cur.blockType == PersistentFields {
      FieldLineEffect(doc[n], start, indent, st);
    } else if cur.blockType == Conditions || cur.blockType == Actions {
      MemberLineEffect(doc[n], start, indent, st);
    }
  }

  lemma StepNesting(doc: seq<string>, tab: TabSetting, n: nat, st: State)
    requires n < |doc| && Inv(doc, n, st) && Nesting(st, HasEditor(tab))
    ensures Nesting(Step(doc, tab, n, st), HasEditor(tab))
  {
    if !IsSkipped(doc[n]) {
      var indent := LineIndent(doc[n], tab);
      PopLoopInv(doc, n, indent, st);
      PopLoopNesting(doc, n, indent, st, HasEditor(tab));
      PopLoopShape(doc, n, indent, st);
      DispatchNesting(doc, n, tab, PopLoop(doc, n, indent, st));
    }
  }

  /** After any number of lines the stack is nested as described. */
  lemma {:induction false} RunToNesting(doc: seq<string>, tab: TabSetting, n: nat)
    requires n <= |doc|
    ensures Nesting(RunTo(doc, tab, n), HasEditor(tab))
  {
    if n > 0 {
      RunToStep(doc, tab, n);
      var prev := RunTo(doc, tab, n - 1);
      RunToNesting(doc, tab, n - 1);
      RunToInv(doc, tab, n - 1);
      StepNesting(doc, tab, n - 1, prev);
    }
  }

  /** At the end of the document the final loop empties the stack and emits
      one symbol per open context. */
  lemma DrainedAtEnd(doc: seq<string>, tab: TabSetting)
    ensures var st := RunTo(doc, tab, |doc|);
            var r := Drain(doc, st);
            && r.stack == []
            && |r.result| == |st.result| + (if st.current.symbol.Some? then |st.stack| + 1 else 0)
            && r.result[..|st.result|] == st.result
  {
    var st := RunTo(doc, tab, |doc|);
    RunToInv(doc, tab, |doc|);
    DrainShape(doc, st);
  }
}
