/** The outline provider as the source writes it: a line loop that pushes and
    pops `IndentInfo` objects, mutates the current one in place, and appends
    to the result, followed by a loop that drains the stack. Each method is
    proved to compute what the reference parser in `OutlineSpec` computes. */
module DocumentSymbolProvider {
  import opened Wrappers
  import opened Symbols
  import opened LinePatterns
  import opened Columns
  import opened OutlineSpec
  import opened OutlineProperties

  /** One open context of the parser. */
  class IndentInfo {
    var headingIndent: nat
    var contentIndent: Option<nat>
    var blockType: Block
    var symbolInformation: Option<Symbol>

    constructor (indentLevel: nat, blockType: Block)
      ensures Value() == Ctx(indentLevel, None, blockType, None)
    {
      this.headingIndent := indentLevel;
      this.contentIndent := None;
      this.blockType := blockType;
      this.symbolInformation := None;
    }

    /** The context this object currently holds. */
    ghost function Value(): Ctx
      reads this
    {
      Ctx(headingIndent, contentIndent, blockType, symbolInformation)
    }
  }

  /** `values` is what the objects of `stack` hold, position by position. */
  ghost predicate Mirrors(stack: seq<IndentInfo>, values: seq<Ctx>)
    reads stack
  {
    |stack| == |values| && forall i :: 0 <= i < |stack| ==> stack[i].Value() == values[i]
  }

  /** The parser state the provider's variables stand for, given the values
      its stack objects hold. */
  ghost function Abs(current: IndentInfo, values: seq<Ctx>, result: seq<Symbol>, className: string): State
    reads current
  {
    State(current.Value(), values, result, className)
  }

  /** No object is both current and on the stack, or on the stack twice, so
      updating the current context changes nothing else. */
  ghost predicate Separate(current: IndentInfo, stack: seq<IndentInfo>)
    decreases |stack|
  {
    current !in stack && (stack != [] ==> Separate(stack[|stack| - 1], stack[..|stack| - 1]))
  }

  /** `getColumn`: the tab-aware width of the first `end` characters. */
  method GetColumn(line: string, end: nat, tab: TabSetting) returns (width: nat)
    ensures width == Column(line, end, tab)
  {
    if tab.NoActiveEditor? {
      return 0;
    }
    var tabSize := if tab.Numeric? then tab.size else 4;
    width := 0;
    var charIndex := 0;
    while charIndex < end && charIndex < |line|
      invariant charIndex <= end && charIndex <= |line|
      invariant width == Width(line[..charIndex], tabSize)
    {
      assert line[..charIndex + 1] == line[..charIndex] + [line[charIndex]];
      WidthStep(line[..charIndex], line[charIndex], tabSize);
      if line[charIndex] == '\t' {
        assert Width(line[..charIndex + 1], tabSize) == TabStop(width, tabSize);
        width := (width / tabSize + 1) * tabSize;
      } else {
        width := width + 1;
      }
      charIndex := charIndex + 1;
    }
  }

  /** `popBlock`: closes the pending symbol of `currentBlock` at the end of
      the line before `lineNum`, keeps the closed symbol in the block, and
      returns it. */
  method PopBlock(document: seq<string>, lineNum: nat, currentBlock: IndentInfo) returns (r: Option<Symbol>)
    requires currentBlock.symbolInformation.Some? ==> 1 <= lineNum <= |document|
    modifies currentBlock
    ensures r == currentBlock.symbolInformation
    ensures old(currentBlock.symbolInformation).None? ==> r.None?
    ensures old(currentBlock.symbolInformation).Some? ==>
              r == Some(Close(document, lineNum, old(currentBlock.symbolInformation).value))
    ensures currentBlock.headingIndent == old(currentBlock.headingIndent)
    ensures currentBlock.contentIndent == old(currentBlock.contentIndent)
    ensures currentBlock.blockType == old(currentBlock.blockType)
  {
    if currentBlock.symbolInformation.Some? {
      var s := currentBlock.symbolInformation.value;
      currentBlock.symbolInformation := Some(Symbol(s.name, s.kind, s.containerName,
        MakeRange(s.range.start, Position(lineNum - 1, Utf16Length(document[lineNum - 1])))));
      r := currentBlock.symbolInformation;
    } else {
      r := None;
    }
  }

  /** The objects on a stack. */
  ghost function Elems(stack: seq<IndentInfo>): set<IndentInfo>
    decreases |stack|
  {
    if stack == [] then {} else Elems(stack[..|stack| - 1]) + {stack[|stack| - 1]}
  }

  /** Every object the provider's variables refer to. */
  ghost function Objects(current: IndentInfo, stack: seq<IndentInfo>): set<IndentInfo> {
    {current} + Elems(stack)
  }

  /** One round of either closing loop: `popBlock` on the current context,
      push of the closed symbol, and `indentInfo.pop()`; `done` when the
      stack was empty, the current context then staying where it was. */
  method CloseAndPop(document: seq<string>, lineNum: nat, currentBlock: IndentInfo,
                     indentInfo: seq<IndentInfo>, result: seq<Symbol>,
                     ghost values: seq<Ctx>, ghost className: string)
    returns (current': IndentInfo, indentInfo': seq<IndentInfo>, result': seq<Symbol>, done: bool,
             ghost values': seq<Ctx>)
    requires currentBlock.symbolInformation.Some? ==> 1 <= lineNum <= |document|
    requires Separate(currentBlock, indentInfo) && Mirrors(indentInfo, values)
    modifies currentBlock
    ensures Separate(current', indentInfo') && Mirrors(indentInfo', values')
    ensures Objects(current', indentInfo') <= Objects(currentBlock, indentInfo)
    ensures done <==> indentInfo == []
    ensures done ==> Abs(current', values', result', className)
                     == CloseCurrent(document, lineNum, old(Abs(currentBlock, values, result, className)))
    ensures !done ==> |indentInfo'| == |indentInfo| - 1 &&
                      Abs(current', values', result', className)
                      == Pop(CloseCurrent(document, lineNum, old(Abs(currentBlock, values, result, className))))
  {
    current', indentInfo', result', values' := currentBlock, indentInfo, result, values;
    var pushData := PopBlock(document, lineNum, currentBlock);
    if pushData.Some? {
      result' := result + [pushData.value];
    }
    done := indentInfo == [];
    if !done {
      current' := indentInfo[|indentInfo| - 1];
      indentInfo' := indentInfo[..|indentInfo| - 1];
      values' := values[..|values| - 1];
    }
  }

  /** The loop that closes, innermost first, every pending context the line
      at `lineNum`, indented by `indent`, does not belong to. It stops at a
      context the line is indented deeper than, at one without a pending
      symbol, or when the stack runs out; in the last case the root stays
      current with its closed symbol still set. */
  method ClosePoppedBlocks(document: seq<string>, lineNum: nat, indent: nat,
                           currentBlock: IndentInfo, indentInfo: seq<IndentInfo>, result: seq<Symbol>,
                           ghost values: seq<Ctx>, ghost className: string)
    returns (current': IndentInfo, indentInfo': seq<IndentInfo>, result': seq<Symbol>,
             ghost values': seq<Ctx>)
    requires lineNum <= |document|
    requires lineNum == 0 ==> currentBlock.symbolInformation.None?
    requires Separate(currentBlock, indentInfo) && Mirrors(indentInfo, values)
    modifies Objects(currentBlock, indentInfo)
    ensures Separate(current', indentInfo') && Mirrors(indentInfo', values')
    ensures Objects(current', indentInfo') <= Objects(currentBlock, indentInfo)
    ensures Abs(current', values', result', className)
            == PopLoop(document, lineNum, indent, old(Abs(currentBlock, values, result, className)))
  {
    current', indentInfo', result', values' := currentBlock, indentInfo, result, values;
    ghost var target := PopLoop(document, lineNum, indent, Abs(currentBlock, values, result, className));
    while indent <= current'.headingIndent && current'.symbolInformation.Some?
      invariant Separate(current', indentInfo') && Mirrors(indentInfo', values')
      invariant Objects(current', indentInfo') <= Objects(currentBlock, indentInfo)
      invariant lineNum == 0 ==> current'.symbolInformation.None?
      invariant PopLoop(document, lineNum, indent, Abs(current', values', result', className)) == target
      decreases |indentInfo'|
    {
      var done;
      current', indentInfo', result', done, values' :=
        CloseAndPop(document, lineNum, current', indentInfo', result', values', className);
      if done {
        break;
      }
    }
  }

  /** `currentBlock.contentIndent = indent` when it is still undefined. */
  method LearnIndent(currentBlock: IndentInfo, indent: nat)
    modifies currentBlock
    ensures currentBlock.Value() == Learn(old(currentBlock.Value()), indent)
  {
    if currentBlock.contentIndent.None? {
      currentBlock.contentIndent := Some(indent);
    }
  }

  /** `indentInfo.push(currentBlock)` followed by a fresh current block that
      opens at `indent` with the pending symbol `symbol`. */
  method OpenBlock(currentBlock: IndentInfo, indentInfo: seq<IndentInfo>, indent: nat,
                   blockType: Block, symbol: Symbol, ghost values: seq<Ctx>)
    returns (current': IndentInfo, indentInfo': seq<IndentInfo>, ghost values': seq<Ctx>)
    requires Separate(currentBlock, indentInfo) && Mirrors(indentInfo, values)
    ensures fresh(current') && indentInfo' == indentInfo + [currentBlock]
    ensures Objects(current', indentInfo') == Objects(currentBlock, indentInfo) + {current'}
    ensures values' == values + [currentBlock.Value()]
    ensures Separate(current', indentInfo') && Mirrors(indentInfo', values')
    ensures current'.Value() == Ctx(indent, None, blockType, Some(symbol))
  {
    indentInfo' := indentInfo + [currentBlock];
    values' := values + [currentBlock.Value()];
    current' := new IndentInfo(indent, blockType);
    current'.symbolInformation := Some(symbol);
    assert indentInfo'[..|indentInfo|] == indentInfo;
  }

  /** The `ClassRoot` case before the class symbol is set: a class
      declaration sets it and the class name. */
  method DeclareClass(document: seq<string>, lineNum: nat,
                      currentBlock: IndentInfo, indentInfo: seq<IndentInfo>, result: seq<Symbol>,
                      ghost values: seq<Ctx>, className: string)
    returns (className': string)
    requires lineNum < |document|
    requires Separate(currentBlock, indentInfo) && Mirrors(indentInfo, values)
    requires currentBlock.blockType == ClassRoot && currentBlock.symbolInformation.None?
    modifies currentBlock
    ensures Mirrors(indentInfo, values)
    ensures Abs(currentBlock, values, result, className')
            == ClassLine(document[lineNum], old(Abs(currentBlock, values, result, className)))
  {
    className' := className;
    var m := ClassNameMatch(document[lineNum]);
    if m.Some? {
      className' := m.value;
      currentBlock.symbolInformation := Some(Symbol(m.value, Class, "", At(Position(0, 0))));
    }
  }

  /** The `ClassRoot` case once the class symbol is set, given the heading
      pattern's match `m` of the line: a section heading opens a section
      block. */
  method OpenSection(document: seq<string>, lineNum: nat, indent: nat, first: nat, m: Option<string>,
                     currentBlock: IndentInfo, indentInfo: seq<IndentInfo>, result: seq<Symbol>,
                     ghost values: seq<Ctx>, className: string)
    returns (current': IndentInfo, indentInfo': seq<IndentInfo>, ghost values': seq<Ctx>)
    requires lineNum < |document| && first == FirstNonWhitespace(document[lineNum])
    requires m == HeadingMatch(document[lineNum])
    requires Separate(currentBlock, indentInfo) && Mirrors(indentInfo, values)
    modifies currentBlock
    ensures Separate(current', indentInfo') && Mirrors(indentInfo', values')
    ensures Objects(current', indentInfo') <= Objects(currentBlock, indentInfo) + {current'}
    ensures current' in Objects(currentBlock, indentInfo) || fresh(current')
    ensures Abs(current', values', result, className)
            == HeadingLine(m, Position(lineNum, first), indent, old(Abs(currentBlock, values, result, className)))
  {
    current', indentInfo', values' := currentBlock, indentInfo, values;
    if m.Some? {
      currentBlock.contentIndent := Some(indent);
      current', indentInfo', values' :=
        OpenBlock(currentBlock, indentInfo, indent, HeadingBlock(m.value),
                  Symbol(m.value, Namespace, className, At(Position(lineNum, first))), values);
    }
  }

  /** The `Conditions` and `Actions` cases: a matching line opens a
      `Condition` or `Action` block in the current section. */
  method DispatchMember(document: seq<string>, lineNum: nat, indent: nat, first: nat,
                        currentBlock: IndentInfo, indentInfo: seq<IndentInfo>, result: seq<Symbol>,
                        ghost values: seq<Ctx>, className: string)
    returns (current': IndentInfo, indentInfo': seq<IndentInfo>, ghost values': seq<Ctx>)
    requires lineNum < |document| && first == FirstNonWhitespace(document[lineNum])
    requires Separate(currentBlock, indentInfo) && Mirrors(indentInfo, values)
    requires currentBlock.blockType == Conditions || currentBlock.blockType == Actions
    modifies currentBlock
    ensures Separate(current', indentInfo') && Mirrors(indentInfo', values')
    ensures Objects(current', indentInfo') <= Objects(currentBlock, indentInfo) + {current'}
    ensures current' in Objects(currentBlock, indentInfo) || fresh(current')
    ensures Abs(current', values', result, className)
            == MemberLine(document[lineNum], Position(lineNum, first), indent,
                          old(Abs(currentBlock, values, result, className)))
  {
    current', indentInfo', values' := currentBlock, indentInfo, values;
    var text := document[lineNum];
    var isCondition := currentBlock.blockType == Conditions;
    var m := if isCondition then ConditionMatch(text) else ActionMatch(text);
    if m.Some? {
      LearnIndent(currentBlock, indent);
      current', indentInfo', values' :=
        OpenBlock(currentBlock, indentInfo, indent, if isCondition then Condition else Action,
                  Symbol(m.value, if isCondition then Function else Method, className, At(Position(lineNum, first))),
                  values);
    }
  }

  /** The `Persistent Fields` case: a field declaration is emitted at once. */
  method AddField(document: seq<string>, lineNum: nat, indent: nat, first: nat,
                  currentBlock: IndentInfo, indentInfo: seq<IndentInfo>, result: seq<Symbol>,
                  ghost values: seq<Ctx>, className: string)
    returns (result': seq<Symbol>)
    requires lineNum < |document| && first == FirstNonWhitespace(document[lineNum])
    requires Separate(currentBlock, indentInfo) && Mirrors(indentInfo, values)
    modifies currentBlock
    ensures Mirrors(indentInfo, values)
    ensures Abs(currentBlock, values, result', className)
            == FieldLine(document[lineNum], Position(lineNum, first), indent,
                         old(Abs(currentBlock, values, result, className)))
  {
    result' := result;
    var m := FieldMatch(document[lineNum]);
    if m.Some? {
      LearnIndent(currentBlock, indent);
      result' := result + [Symbol(m.value, Field, className, At(Position(lineNum, first)))];
    }
  }

  /** The per-block handling of the line at `lineNum` (the `switch` on the
      current block type), entered when the current block has not yet learnt
      its content indentation or the line is indented exactly by it. */
  method DispatchLine(document: seq<string>, lineNum: nat, indent: nat, first: nat,
                      currentBlock: IndentInfo, indentInfo: seq<IndentInfo>, result: seq<Symbol>,
                      ghost values: seq<Ctx>, className: string)
    returns (current': IndentInfo, indentInfo': seq<IndentInfo>, result': seq<Symbol>, className': string,
             ghost values': seq<Ctx>)
    requires lineNum < |document| && first == FirstNonWhitespace(document[lineNum])
    requires Separate(currentBlock, indentInfo) && Mirrors(indentInfo, values)
    modifies currentBlock
    ensures Separate(current', indentInfo') && Mirrors(indentInfo', values')
    ensures Objects(current', indentInfo') <= Objects(currentBlock, indentInfo) + {current'}
    ensures current' in Objects(currentBlock, indentInfo) || fresh(current')
    ensures Abs(current', values', result', className')
            == Dispatch(document, lineNum, indent, old(Abs(currentBlock, values, result, className)))
  {
    current', indentInfo', result', className', values' := currentBlock, indentInfo, result, className, values;
    if currentBlock.contentIndent.None? || currentBlock.contentIndent == Some(indent) {
      match currentBlock.blockType
      case ClassRoot =>
        if currentBlock.symbolInformation.None? {
          className' := DeclareClass(document, lineNum, currentBlock, indentInfo, result, values, className);
        } else {
          var m := HeadingMatch(document[lineNum]);
          current', indentInfo', values' :=
            OpenSection(document, lineNum, indent, first, m, currentBlock, indentInfo, result, values, className);
        }
      case PersistentFields =>
        result' := AddField(document, lineNum, indent, first, currentBlock, indentInfo, result, values, className);
      case Conditions =>
        current', indentInfo', values' :=
          DispatchMember(document, lineNum, indent, first, currentBlock, indentInfo, result, values, className);
      case Actions =>
        current', indentInfo', values' :=
          DispatchMember(document, lineNum, indent, first, currentBlock, indentInfo, result, values, className);
      case Action | Condition | OtherSection =>
        LearnIndent(currentBlock, indent);
      case DerivedFields | Relations =>
    }
  }

  /** The final loop: close the current context, pop, and repeat until the
      stack is empty. */
  method DrainBlocks(document: seq<string>, currentBlock: IndentInfo, indentInfo: seq<IndentInfo>,
                     result: seq<Symbol>, ghost values: seq<Ctx>, ghost className: string)
    returns (result': seq<Symbol>)
    requires |document| == 0 ==> currentBlock.symbolInformation.None? && indentInfo == []
    requires Separate(currentBlock, indentInfo) && Mirrors(indentInfo, values)
    modifies Objects(currentBlock, indentInfo)
    ensures result' == Drain(document, old(Abs(currentBlock, values, result, className))).result
  {
    var current', indentInfo' := currentBlock, indentInfo;
    ghost var values' := values;
    result' := result;
    ghost var target := Drain(document, Abs(currentBlock, values, result, className));
    var lineNum := |document|;
    while true
      invariant Separate(current', indentInfo') && Mirrors(indentInfo', values')
      invariant Objects(current', indentInfo') <= Objects(currentBlock, indentInfo)
      invariant |document| == 0 ==> current'.symbolInformation.None? && indentInfo' == []
      invariant Drain(document, Abs(current', values', result', className)) == target
      decreases |indentInfo'|
    {
      var done;
      current', indentInfo', result', done, values' :=
        CloseAndPop(document, lineNum, current', indentInfo', result', values', className);
      if done {
        return;
      }
    }
  }

  /** One iteration of the line loop: blank and comment lines are passed
      over; any other line runs the pop loop, then the per-block handling. */
  method ProcessLine(document: seq<string>, tab: TabSetting, lineNum: nat,
                     currentBlock: IndentInfo, indentInfo: seq<IndentInfo>, result: seq<Symbol>,
                     ghost values: seq<Ctx>, className: string)
    returns (current': IndentInfo, indentInfo': seq<IndentInfo>, result': seq<Symbol>, className': string,
             ghost values': seq<Ctx>)
    requires lineNum < |document|
    requires Separate(currentBlock, indentInfo) && Mirrors(indentInfo, values)
    requires Abs(currentBlock, values, result, className) == RunTo(document, tab, lineNum)
    modifies Objects(currentBlock, indentInfo)
    ensures Separate(current', indentInfo') && Mirrors(indentInfo', values')
    ensures Objects(current', indentInfo') <= Objects(currentBlock, indentInfo) + {current'}
    ensures current' in Objects(currentBlock, indentInfo) || fresh(current')
    ensures Abs(current', values', result', className') == RunTo(document, tab, lineNum + 1)
  {
    var text := document[lineNum];
    if IsCommentLine(text) || IsEmptyOrWhitespace(text) {
      SkippedLine(document, tab, lineNum);
      return currentBlock, indentInfo, result, className, values;
    }
    RunToNext(document, tab, lineNum);
    var first := FirstNonWhitespace(text);
    var indent := GetColumn(text, first, tab);
    var c, s, r, v := ClosePoppedBlocks(document, lineNum, indent, currentBlock, indentInfo, result, values, className);
    current', indentInfo', result', className', values' := DispatchLine(document, lineNum, indent, first, c, s, r, v, className);
  }

  /** The line loop of `provideDocumentSymbols`, over every line of the
      document. */
  method ScanLines(document: seq<string>, tab: TabSetting)
    returns (currentBlock: IndentInfo, indentInfo: seq<IndentInfo>, result: seq<Symbol>, className: string,
             ghost values: seq<Ctx>)
    ensures fresh(Objects(currentBlock, indentInfo))
    ensures Separate(currentBlock, indentInfo) && Mirrors(indentInfo, values)
    ensures Abs(currentBlock, values, result, className) == RunTo(document, tab, |document|)
  {
    result := [];
    className := "";
    currentBlock := new IndentInfo(0, ClassRoot);
    indentInfo := [];
    values := [];
    var lineNum := 0;
    while lineNum < |document|
      invariant lineNum <= |document|
      invariant fresh(Objects(currentBlock, indentInfo))
      invariant Separate(currentBlock, indentInfo) && Mirrors(indentInfo, values)
      invariant Abs(currentBlock, values, result, className) == RunTo(document, tab, lineNum)
    {
      currentBlock, indentInfo, result, className, values :=
        ProcessLine(document, tab, lineNum, currentBlock, indentInfo, result, values, className);
      assert fresh(currentBlock);
      lineNum := lineNum + 1;
    }
  }

  /** `provideDocumentSymbols`: the outline of a document. Every symbol lies
      in the document and is named by its pattern; any two are nested or
      disjoint by lines, and they come in the order of their last lines. */
  method ProvideDocumentSymbols(document: seq<string>, tab: TabSetting) returns (result: seq<Symbol>)
    ensures result == Outline(document, tab)
    ensures forall k :: 0 <= k < |result| ==> Placed(document, result[k]) && Named(result[k])
    ensures forall k, l :: 0 <= k < l < |result| ==>
              Laminar(result[k], result[l]) && result[k].range.end.line <= result[l].range.end.line
  {
    var currentBlock, indentInfo, scanned, className, values := ScanLines(document, tab);
    result := DrainBlocks(document, currentBlock, indentInfo, scanned, values, className);
    OutlineShape(document, tab);
  }
}
