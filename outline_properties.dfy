/** What the outline promises: every symbol points into the document, ranges
    never need the editor's swap, symbol names come from the patterns, the
    symbols form a tree by lines (any two are nested or disjoint), and they
    are emitted in order of their last line. The proof is an invariant of
    the reference parser, kept by every step of both loops. */
module OutlineProperties {
  import opened Wrappers
  import opened Symbols
  import opened LinePatterns
  import opened Columns
  import opened OutlineSpec

  /** A position of the document: an existing line, at most at its end
      (in UTF-16 code units). */
  predicate InDocument(doc: seq<string>, p: Position) {
    p.line < |doc| && p.character <= Utf16Length(doc[p.line])
  }

  /** Both ends of the range lie in the document, in order. */
  predicate Placed(doc: seq<string>, s: Symbol) {
    InDocument(doc, s.range.start) && InDocument(doc, s.range.end) && WellFormed(s)
  }

  /** Section symbols carry a heading; every other symbol a `\w+` name. */
  predicate Named(s: Symbol) {
    (s.kind == Namespace ==> s.name in Headings) && (s.kind != Namespace ==> IsWord(s.name))
  }

  /** A symbol that is placed, named, and ends before line `n`. */
  predicate SymbolOk(doc: seq<string>, n: nat, s: Symbol) {
    Placed(doc, s) && Named(s) && s.range.end.line < n
  }

  /** The line an open context's symbol starts on. */
  function OpenLine(c: Ctx): nat {
    if c.symbol.Some? then c.symbol.value.range.start.line else 0
  }

  /** An emitted symbol `r` either starts no earlier than the open context
      `c` (so it will end up inside `c`) or ends before `c` starts. */
  predicate Compatible(c: Ctx, r: Symbol) {
    OpenLine(c) <= r.range.start.line || r.range.end.line < OpenLine(c)
  }

  /** The open contexts after `n` lines: every context on the stack and the
      current one, if it has a symbol, is well placed; contexts open in
      nested order of their first lines; only the root can lack a symbol,
      and only while nothing is open above it and nothing was emitted. */
  predicate OpenOk(doc: seq<string>, n: nat, st: State) {
    && (st.current.symbol.Some? ==> SymbolOk(doc, n, st.current.symbol.value))
    && (st.current.symbol.None? ==> st.current.blockType == ClassRoot && st.stack == [] && st.result == [])
    && (forall i :: 0 <= i < |st.stack| ==>
          st.stack[i].symbol.Some? && SymbolOk(doc, n, st.stack[i].symbol.value))
    && (forall i :: 0 <= i < |st.stack| ==> OpenLine(st.stack[i]) <= OpenLine(st.current))
    && (forall i, j :: 0 <= i < j < |st.stack| ==> OpenLine(st.stack[i]) <= OpenLine(st.stack[j]))
  }

  /** The symbols emitted after `n` lines: each is well placed, any two are
      nested or disjoint, and their last lines never decrease. */
  predicate ResultOk(doc: seq<string>, n: nat, result: seq<Symbol>) {
    && (forall k :: 0 <= k < |result| ==> SymbolOk(doc, n, result[k]))
    && (forall k, l :: 0 <= k < l < |result| ==>
          Laminar(result[k], result[l]) && result[k].range.end.line <= result[l].range.end.line)
  }

  /** Every emitted symbol is compatible with every open context. */
  predicate CrossOk(st: State) {
    && (forall k :: 0 <= k < |st.result| ==> Compatible(st.current, st.result[k]))
    && (forall i, k :: 0 <= i < |st.stack| && 0 <= k < |st.result| ==> Compatible(st.stack[i], st.result[k]))
  }

  predicate Inv(doc: seq<string>, n: nat, st: State) {
    n <= |doc| && OpenOk(doc, n, st) && ResultOk(doc, n, st.result) && CrossOk(st)
  }

  /** Closing a pending symbol before line `n` never needs the swap: the
      range runs from where the symbol opened to the end of line `n - 1`. */
  lemma CloseExtends(doc: seq<string>, n: nat, s: Symbol)
    requires 1 <= n <= |doc|
    requires Placed(doc, s) && s.range.end.line < n
    ensures Close(doc, n, s).range == Range(s.range.start, LineEnd(doc, n))
    ensures SymbolOk(doc, n, Close(doc, n, s)) == Named(s)
  {
    assert s.range.start.line <= s.range.end.line;
  }

  lemma InitInv(doc: seq<string>)
    ensures Inv(doc, 0, Init)
  {
  }

  /** More lines processed keep every bound. */
  lemma InvMono(doc: seq<string>, n: nat, st: State)
    requires Inv(doc, n, st) && n < |doc|
    ensures Inv(doc, n + 1, st)
  {
  }

  /** `popBlock` on the current context, appending the closed symbol. */
  lemma CloseCurrentInv(doc: seq<string>, n: nat, st: State)
    requires Inv(doc, n, st)
    ensures st.current.symbol.Some? ==> 1 <= n
    ensures st.current.symbol.Some? ==> Inv(doc, n, CloseCurrent(doc, n, st))
  {
    if st.current.symbol.Some? {
      var s := st.current.symbol.value;
      CloseExtends(doc, n, s);
      var closed := Close(doc, n, s);
      var st' := CloseCurrent(doc, n, st);
      assert st'.result == st.result + [closed];
      assert OpenLine(st'.current) == OpenLine(st.current);
      forall k, l | 0 <= k < l < |st'.result|
        ensures Laminar(st'.result[k], st'.result[l])
        ensures st'.result[k].range.end.line <= st'.result[l].range.end.line
      {
        if l == |st.result| {
          assert Compatible(st.current, st.result[k]);
        }
      }
      assert ResultOk(doc, n, st'.result);
    }
  }

  /** `indentInfo.pop()` on a non-empty stack. */
  lemma PopInv(doc: seq<string>, n: nat, st: State)
    requires Inv(doc, n, st) && st.stack != []
    ensures Inv(doc, n, Pop(st))
  {
    var st' := Pop(st);
    var last := |st.stack| - 1;
    assert st'.current == st.stack[last];
    forall i | 0 <= i < |st'.stack|
      ensures OpenLine(st'.stack[i]) <= OpenLine(st'.current)
    {
      assert st'.stack[i] == st.stack[i];
    }
  }

  /** The pop loop keeps the invariant. */
  lemma {:induction false} PopLoopInv(doc: seq<string>, n: nat, indent: nat, st: State)
    requires Inv(doc, n, st)
    requires n == 0 ==> st.current.symbol.None?
    ensures Inv(doc, n, PopLoop(doc, n, indent, st))
    decreases |st.stack|
  {
    if indent <= st.current.headingIndent && st.current.symbol.Some? {
      CloseCurrentInv(doc, n, st);
      var closed := CloseCurrent(doc, n, st);
      if closed.stack != [] {
        PopInv(doc, n, closed);
        PopLoopInv(doc, n, indent, Pop(closed));
      }
    }
  }

  /** Opening a context at line `n` on top of the current one. */
  lemma PushInv(doc: seq<string>, n: nat, st: State, parent: Ctx, child: Ctx)
    requires Inv(doc, n + 1, st) && n < |doc|
    requires parent.symbol == st.current.symbol && parent.symbol.Some?
    requires child.symbol.Some? && SymbolOk(doc, n + 1, child.symbol.value)
    requires child.symbol.value.range.start.line == n
    requires forall k :: 0 <= k < |st.result| ==> st.result[k].range.end.line < n
    ensures Inv(doc, n + 1, st.(stack := st.stack + [parent], current := child))
  {
    var st' := st.(stack := st.stack + [parent], current := child);
    assert OpenLine(parent) == OpenLine(st.current);
    forall i | 0 <= i < |st'.stack|
      ensures st'.stack[i].symbol.Some? && SymbolOk(doc, n + 1, st'.stack[i].symbol.value)
      ensures OpenLine(st'.stack[i]) <= OpenLine(st'.current)
    {
      if i < |st.stack| {
        assert st'.stack[i] == st.stack[i];
        assert SymbolOk(doc, n + 1, st.stack[i].symbol.value);
      }
    }
  }

  /** A section heading under the class root: the root is pushed and the
      section opens at line `n`. */
  lemma HeadingLineInv(doc: seq<string>, n: nat, indent: nat, st: State)
    requires n < |doc| && Inv(doc, n + 1, st) && st.current.symbol.Some?
    requires forall k :: 0 <= k < |st.result| ==> st.result[k].range.end.line < n
    ensures Inv(doc, n + 1, HeadingLine(HeadingMatch(doc[n]), Position(n, FirstNonWhitespace(doc[n])), indent, st))
  {
    var m := HeadingMatch(doc[n]);
    if m.Some? {
      HeadingMatchIsHeading(doc[n]);
      var start := Position(n, FirstNonWhitespace(doc[n]));
      PushInv(doc, n, st, st.current.(contentIndent := Some(indent)),
              Ctx(indent, None, HeadingBlock(m.value), Some(Symbol(m.value, Namespace, st.className, At(start)))));
    }
  }

  /** A symbol appended after every symbol emitted so far ended. */
  lemma AppendLaterOk(doc: seq<string>, n: nat, result: seq<Symbol>, f: Symbol)
    requires ResultOk(doc, n, result) && SymbolOk(doc, n, f)
    requires forall k :: 0 <= k < |result| ==> result[k].range.end.line < f.range.start.line
    ensures ResultOk(doc, n, result + [f])
  {
    var r := result + [f];
    forall k, l | 0 <= k < l < |r|
      ensures Laminar(r[k], r[l]) && r[k].range.end.line <= r[l].range.end.line
    {
      if l == |result| {
        assert r[k] == result[k];
        assert f.range.start.line <= f.range.end.line;
      }
    }
  }

  /** A symbol starting on the latest line is compatible with every open
      context. */
  lemma LatestCompatible(doc: seq<string>, n: nat, st: State, f: Symbol)
    requires OpenOk(doc, n + 1, st) && CrossOk(st) && f.range.start.line == n
    ensures CrossOk(st.(result := st.result + [f]))
  {
    var st' := st.(result := st.result + [f]);
    assert Compatible(st.current, f) by {
      if st.current.symbol.Some? {
        assert WellFormed(st.current.symbol.value);
      }
    }
    forall i, k | 0 <= i < |st'.stack| && 0 <= k < |st'.result|
      ensures Compatible(st'.stack[i], st'.result[k])
    {
      if k == |st.result| {
        assert WellFormed(st.stack[i].symbol.value);
      } else {
        assert st'.result[k] == st.result[k];
      }
    }
  }

  /** Learning the content indentation of the current context keeps the
      invariant. */
  lemma LearnInv(doc: seq<string>, n: nat, st: State, indent: nat)
    requires Inv(doc, n, st)
    ensures Inv(doc, n, st.(current := Learn(st.current, indent)))
  {
    assert OpenLine(Learn(st.current, indent)) == OpenLine(st.current);
  }

  /** A field declaration emits a point symbol at line `n`, after every
      symbol emitted before. */
  lemma FieldLineInv(doc: seq<string>, n: nat, indent: nat, st: State)
    requires n < |doc| && Inv(doc, n + 1, st) && st.current.symbol.Some?
    requires forall k :: 0 <= k < |st.result| ==> st.result[k].range.end.line < n
    ensures Inv(doc, n + 1, FieldLine(doc[n], Position(n, FirstNonWhitespace(doc[n])), indent, st))
  {
    var m := FieldMatch(doc[n]);
    if m.Some? {
      var f := Symbol(m.value, Field, st.className, At(Position(n, FirstNonWhitespace(doc[n]))));
      assert SymbolOk(doc, n + 1, f);
      AppendLaterOk(doc, n + 1, st.result, f);
      LatestCompatible(doc, n, st, f);
      var added := st.(result := st.result + [f]);
      assert Inv(doc, n + 1, added);
      LearnInv(doc, n + 1, added, indent);
      assert FieldLine(doc[n], Position(n, FirstNonWhitespace(doc[n])), indent, st)
          == added.(current := Learn(added.current, indent));
    }
  }

  /** A condition or action opens at line `n` above its section. */
  lemma MemberLineInv(doc: seq<string>, n: nat, indent: nat, st: State)
    requires n < |doc| && Inv(doc, n + 1, st) && st.current.symbol.Some?
    requires forall k :: 0 <= k < |st.result| ==> st.result[k].range.end.line < n
    ensures Inv(doc, n + 1, MemberLine(doc[n], Position(n, FirstNonWhitespace(doc[n])), indent, st))
  {
    var start := Position(n, FirstNonWhitespace(doc[n]));
    var isCondition := st.current.blockType == Conditions;
    var m := if isCondition then ConditionMatch(doc[n]) else ActionMatch(doc[n]);
    if m.Some? {
      PushInv(doc, n, st, Learn(st.current, indent),
              Ctx(indent, None, if isCondition then Condition else Action,
                  Some(Symbol(m.value, if isCondition then Function else Method, st.className, At(start)))));
    }
  }

  /** A class declaration sets the class symbol at the top of the document
      while nothing else is open or emitted. */
  lemma ClassLineInv(doc: seq<string>, n: nat, st: State)
    requires n < |doc| && Inv(doc, n + 1, st) && st.current.symbol.None?
    ensures Inv(doc, n + 1, ClassLine(doc[n], st))
  {
    var m := ClassNameMatch(doc[n]);
    if m.Some? {
      assert SymbolOk(doc, n + 1, Symbol(m.value, Class, "", At(Position(0, 0))));
    }
  }

  /** The per-block handling of line `n`, given the invariant after the pop
      loop, which ran with `n` lines behind it. */
  lemma DispatchInv(doc: seq<string>, n: nat, indent: nat, st: State)
    requires n < |doc| && Inv(doc, n, st)
    ensures Inv(doc, n + 1, Dispatch(doc, n, indent, st))
  {
    InvMono(doc, n, st);
    assert forall k :: 0 <= k < |st.result| ==> SymbolOk(doc, n, st.result[k]);
    var cur := st.current;
    if cur.contentIndent.Some? && cur.contentIndent.value != indent {
    } else if cur.blockType == ClassRoot {
      if cur.symbol.Some? {
        HeadingLineInv(doc, n, indent, st);
      } else {
        ClassLineInv(doc, n, st);
      }
    } else if cur.blockType == PersistentFields {
      FieldLineInv(doc, n, indent, st);
    } else if cur.blockType == Conditions || cur.blockType == Actions {
      MemberLineInv(doc, n, indent, st);
    } else if cur.blockType == Action || cur.blockType == Condition || cur.blockType == OtherSection {
      LearnInv(doc, n + 1, st, indent);
    }
  }

  /** One iteration of the line loop. */
  lemma StepInv(doc: seq<string>, tab: TabSetting, n: nat, st: State)
    requires n < |doc| && Inv(doc, n, st)
    ensures Inv(doc, n + 1, Step(doc, tab, n, st))
  {
    if IsSkipped(doc[n]) {
      InvMono(doc, n, st);
    } else {
      var indent := LineIndent(doc[n], tab);
      PopLoopInv(doc, n, indent, st);
      DispatchInv(doc, n, indent, PopLoop(doc, n, indent, st));
    }
  }

  /** The state after any number of lines satisfies the invariant. */
  lemma {:induction false} RunToInv(doc: seq<string>, tab: TabSetting, n: nat)
    requires n <= |doc|
    ensures Inv(doc, n, RunTo(doc, tab, n))
  {
    if n == 0 {
      InitInv(doc);
    } else {
      RunToStep(doc, tab, n);
      var prev := RunTo(doc, tab, n - 1);
      RunToInv(doc, tab, n - 1);
      StepInv(doc, tab, n - 1, prev);
    }
  }

  /** The final loop keeps the invariant. */
  lemma {:induction false} DrainInv(doc: seq<string>, st: State)
    requires Inv(doc, |doc|, st)
    ensures |doc| == 0 ==> st.current.symbol.None? && st.stack == []
    ensures Inv(doc, |doc|, Drain(doc, st))
    decreases |st.stack|
  {
    if |doc| == 0 {
      assert st.current.symbol.None?;
    }
    CloseCurrentInv(doc, |doc|, st);
    var closed := CloseCurrent(doc, |doc|, st);
    if closed.stack != [] {
      PopInv(doc, |doc|, closed);
      DrainInv(doc, Pop(closed));
    }
  }

  /** The outline of any document: every symbol lies in the document with
      its start not after its end, is named by its pattern, any two symbols
      are nested or disjoint by lines, and they come in the order of their
      last lines. */
  lemma OutlineShape(doc: seq<string>, tab: TabSetting)
    ensures var out := Outline(doc, tab);
            && (forall k :: 0 <= k < |out| ==> Placed(doc, out[k]) && Named(out[k]))
            && (forall k, l :: 0 <= k < l < |out| ==>
                  Laminar(out[k], out[l]) && out[k].range.end.line <= out[l].range.end.line)
  {
    RunToInv(doc, tab, |doc|);
    DrainInv(doc, RunTo(doc, tab, |doc|));
  }
}
