# lpl-outline: the document symbol provider, modelled and verified

The extension gives VS Code an outline of a Landmark Pattern Language (LPL)
business-class file. `provideDocumentSymbols` reads the document line by line.
It keeps the context it is in as a current `IndentInfo` plus a stack of
enclosing ones. Each `IndentInfo` records:
- how far its heading line is indented;
- the indentation its content has been seen at, learnt from the first line the block acts on: a heading for the class root, a matching field, condition or action line for those sections, and any aligned line for `Action`, `Condition` and `OtherSection`;
- its `LPLBlock` type;
- the symbol it will close.

A line indented no deeper than the current heading closes contexts
(`popBlock`) until the parser is back in one that encloses the line. The line
is then handled according to the block type:
- a class declaration names the class;
- under the class root, a section heading opens a section;
- in `Persistent Fields`, a field is emitted at once;
- in `Conditions` and `Actions`, a condition or an action opens.

At the end of the document every context still open is closed. `getColumn`
measures indentation with tab stops.

The project has three layers.

- `OutlineSpec` is the parser written as functions of the document. `PopLoop`,
  `Dispatch` and its per-block parts, `Step`, `RunTo`, `Drain` and `Outline`
  form the reference for everything else. `LinePatterns` holds recognisers for
  the six regular expressions; each of the five `exec` patterns returns the
  capture group the source uses, and `IsCommentLine` returns a boolean, as
  `comment.test` does. `Columns` specifies `getColumn` as `Column`.
- `DocumentSymbolProvider` is imperative, as the source is. `IndentInfo` is a
  class whose fields the methods update in place. The stack is a sequence of
  objects, `result` is a growing sequence, and both loops are `while` loops.
  Every method is proved to leave its objects holding what the reference
  computes. `ProvideDocumentSymbols` returns exactly `Outline(document, tab)`.
- `OutlineProperties` and `OutlineStructure` prove what the outline promises
  about the reference:
  - Every symbol lies inside the document, starts no later than it ends, and
    is named by its pattern.
  - Any two symbols are nested or disjoint by lines.
  - Symbols are emitted in the order of their last lines.
  - The pop loop and the final loop close exactly the contexts they leave,
    one symbol each, and the final loop empties the stack.
  - The class root is always at the bottom of the stack, and every parent
    learnt its child's heading indentation as its content indentation. With
    an editor, heading indentations strictly increase up the stack.
  - Blank and comment lines change nothing. On a line misaligned with the
    learnt content indentation, the per-block handling changes nothing
    (the pop loop before it still closes the contexts the line leaves).

One behaviour of the source is kept as written. When the pop loop runs out of
stack, the class root stays current with its closed symbol still set. A later
line at column 0 closes the class symbol again, and at the end of the document
it is closed once more, so the class can appear in the outline more than once.
`OutlineStructure.QuirkReemit`, `OutlineStructure.QuirkReemitAtEnd` and
`OutlineStructure.QuirkTwice` state this case.

Positions count characters the way the editor does, in UTF-16 code units: a
closed symbol ends at `Symbols.Utf16Length` of its last line, where a character
outside the Basic Multilingual Plane counts twice.

## Model

| member | source | states |
|---|---|---|
| DocumentSymbolProvider.IndentInfo.constructor | src/documentSymbolProvider.ts:22-25 | a new context has the given heading indentation and block type, no content indentation and no symbol |
| DocumentSymbolProvider.GetColumn | src/documentSymbolProvider.ts:173-190 | the loop's width is `Column(line, end, tab)`: 0 without an editor, otherwise the tab-stop width of the first min(end, length) characters with the editor's tab size or 4 |
| DocumentSymbolProvider.PopBlock | src/documentSymbolProvider.ts:192-208 | with a pending symbol, the block's symbol is replaced by the closed one and returned; without one, nothing is returned; the other fields stay as they were |
| DocumentSymbolProvider.CloseAndPop | src/documentSymbolProvider.ts:52-60 | one round of a closing loop: the block is closed, the closed symbol appended, and the stack popped unless it was empty (`done` exactly then); no object is aliased and none is added |
| DocumentSymbolProvider.ClosePoppedBlocks | src/documentSymbolProvider.ts:51-61 | the objects afterwards hold `PopLoop` of the state before, i.e. every context the line leaves is closed and popped, the root staying current when the stack runs out |
| DocumentSymbolProvider.LearnIndent | src/documentSymbolProvider.ts:150-152 | the content indentation is set if and only if it was unset; nothing else changes |
| DocumentSymbolProvider.OpenBlock | src/documentSymbolProvider.ts:122-128 | the old current block is pushed and a fresh block with the given heading indentation, type and pending symbol becomes current; the stack keeps no aliases |
| DocumentSymbolProvider.DeclareClass | src/documentSymbolProvider.ts:66-76 | a class declaration sets the class name and the class symbol at (0,0); any other line changes nothing |
| DocumentSymbolProvider.OpenSection | src/documentSymbolProvider.ts:78-100 | a heading match records the root's content indentation, pushes the root and opens the section block named by the heading, with a Namespace symbol at the first non-blank character |
| DocumentSymbolProvider.DispatchMember | src/documentSymbolProvider.ts:116-146 | a condition (action) line in a Conditions (Actions) block opens a Condition (Action) block with a Function (Method) symbol; otherwise nothing changes |
| DocumentSymbolProvider.AddField | src/documentSymbolProvider.ts:103-115 | a field line appends one Field symbol and lets the block learn its content indentation; otherwise nothing changes |
| DocumentSymbolProvider.DispatchLine | src/documentSymbolProvider.ts:63-155 | the objects afterwards hold `Dispatch` of the state before, for every block type including the ones that do nothing |
| DocumentSymbolProvider.DrainBlocks | src/documentSymbolProvider.ts:158-169 | the final loop's result is `Drain` of the state it starts from |
| DocumentSymbolProvider.ProcessLine | src/documentSymbolProvider.ts:46-155 | one iteration takes the state after `lineNum` lines to the state after `lineNum + 1` lines |
| DocumentSymbolProvider.ScanLines | src/documentSymbolProvider.ts:42-156 | the line loop leaves the state after all lines, with all objects new and none aliased |
| DocumentSymbolProvider.ProvideDocumentSymbols | src/documentSymbolProvider.ts:29-171 | returns `Outline(document, tab)`; every symbol is within the document, well formed and named; any two are nested or disjoint; last lines never decrease |
| Columns.TabStop | src/documentSymbolProvider.ts:184 | a tab moves to a multiple of the tab size strictly above the width and at most one tab size further |
| Columns.WidthStep | src/documentSymbolProvider.ts:182-188 | each character strictly increases the width: a tab to a multiple of the tab size, anything else by exactly one |
| Columns.WidthWithoutTabs | src/documentSymbolProvider.ts:186 | without tabs the width is the number of characters |
| Columns.WidthAtLeastLength | src/documentSymbolProvider.ts:182-188 | the width is never less than the number of characters scanned |
| Columns.ColumnIgnoresRest | src/documentSymbolProvider.ts:182 | characters from `end` on do not affect the column |
| Columns.ColumnWithoutTabs | src/documentSymbolProvider.ts:182-188 | with no tab in the scanned prefix the column is min(end, length) |
| Symbols.MakeRange | src/documentSymbolProvider.ts:200-203 | the editor's range has the same two ends, in order; it is the given pair whenever the start is not after the end |
| LinePatterns.ClassNameMatch | src/documentSymbolProvider.ts:34 | a class name is a non-empty `\w+` word |
| LinePatterns.HeadingMatch | src/documentSymbolProvider.ts:36 | a heading line starts with white space |
| LinePatterns.HeadingMatchIsHeading | src/documentSymbolProvider.ts:36 | the captured heading is one of the five headings of the alternation |
| LinePatterns.HeadingIn | src/documentSymbolProvider.ts:36 | the chosen heading starts the text and is followed only by white space and an optional `//` comment |
| LinePatterns.HeadingInComplete | src/documentSymbolProvider.ts:36 | every listed heading that starts the text and is followed by such a trailer is found |
| LinePatterns.HeadingInFirst | src/documentSymbolProvider.ts:36 | the heading found is the first of the alternation that fits |
| LinePatterns.HeadingInExact | src/documentSymbolProvider.ts:36 | among headings with different first letters, a heading is found if and only if it starts the text and is followed by a trailer |
| LinePatterns.HeadingMatchExact | src/documentSymbolProvider.ts:36 | a line matches heading `h` if and only if it is white space, then `h`, then white space and an optional `//` comment |
| LinePatterns.IsCommentLine | src/documentSymbolProvider.ts:37 | true exactly when only white space comes before a `//` and no line feed follows it |
| LinePatterns.ActionMatch | src/documentSymbolProvider.ts:38 | an action line starts with white space and names a `\w+` word |
| LinePatterns.FieldMatch | src/documentSymbolProvider.ts:39 | a field line starts with white space and names a `\w+` word |
| LinePatterns.ConditionMatch | src/documentSymbolProvider.ts:40 | a condition line starts with white space and names a `\w+` word |
| Symbols.Utf16Length | src/documentSymbolProvider.ts:202 | a line's `text.length` in UTF-16 code units: between its number of characters and twice that, and equal to it when every character lies in the Basic Multilingual Plane |
| OutlineSpec.LineEndCountsCodeUnits | src/documentSymbolProvider.ts:202 | a line `C1 😀` ends at character 5, not 4 |
| OutlineSpec.IsEmptyOrWhitespace | src/documentSymbolProvider.ts:47 | true exactly when every character is white space |
| OutlineSpec.IsSkipped | src/documentSymbolProvider.ts:47-49 | a line is passed over exactly when it is all white space or only white space precedes a `//` comment |
| OutlineSpec.HeadingBlock | src/documentSymbolProvider.ts:82-90 | a heading opens a `PersistentFields`, `Conditions`, `Actions` or `OtherSection` block, never `DerivedFields` or `Relations`; of the five headings exactly `Derived Fields` and `Relations` open `OtherSection` |
| OutlineSpec.PopLoop | src/documentSymbolProvider.ts:51-61 | the reference pop loop: close and pop while the line is no deeper than the current heading and the current block has a symbol; it keeps the class name and ends at a context the line does not leave, or with the stack empty |
| OutlineSpec.ClassLine | src/documentSymbolProvider.ts:65-76 | the reference class-declaration case: on a class-name match the class name is set and the root gets a Class symbol at (0,0) |
| OutlineSpec.HeadingLine | src/documentSymbolProvider.ts:77-100 | the reference heading case: the root learns the heading's indentation, is pushed, and a block of `HeadingBlock`'s type opens with a Namespace symbol at `start`, which `Dispatch` sets to the line's first non-blank character |
| OutlineSpec.FieldLine | src/documentSymbolProvider.ts:103-115 | the reference field case: the block learns its indentation and a Field symbol at `start` is appended |
| OutlineSpec.MemberLine | src/documentSymbolProvider.ts:116-146 | the reference condition and action cases: the block learns its indentation, is pushed, and a Condition (Function symbol) or Action (Method symbol) block opens |
| OutlineSpec.Dispatch | src/documentSymbolProvider.ts:63-155 | the reference switch, entered only when the block has no content indentation yet or the line is indented by it; `DerivedFields` and `Relations` do nothing |
| OutlineSpec.Step | src/documentSymbolProvider.ts:46-155 | one reference iteration: a skipped line leaves the state alone, any other is measured, then goes through the pop loop and the switch |
| OutlineSpec.RunTo | src/documentSymbolProvider.ts:42-156 | the reference state after the first `n` lines, starting from `Init`: the class root at indentation 0 with nothing learnt and no symbol, an empty stack, no symbols and no class name |
| OutlineSpec.Drain | src/documentSymbolProvider.ts:158-169 | the reference final loop: it closes the current block and pops until the stack is empty, keeping the class name |
| OutlineSpec.Outline | src/documentSymbolProvider.ts:29-171 | the reference result: the final loop's symbols after every line has been read |
| Columns.Width | src/documentSymbolProvider.ts:182-188 | the width of a run of characters, read left to right: a tab moves to the next tab stop, anything else adds one |
| Columns.Column | src/documentSymbolProvider.ts:173-190 | `getColumn`: 0 without an editor, otherwise the width of the first min(end, length) characters with the editor's tab size or 4 |
| OutlineSpec.CloseCurrent | src/documentSymbolProvider.ts:52-55 | `popBlock` on the current block followed by `result.push`: a pending symbol is closed, kept in the block and appended; without one nothing changes (also lines 160-163) |
| OutlineSpec.Pop | src/documentSymbolProvider.ts:56-60 | `indentInfo.pop()` on a non-empty stack: its top becomes the current block (also lines 164-168) |
| OutlineSpec.Learn | src/documentSymbolProvider.ts:150-152 | the lazy content-indentation rule (also lines 106-108, 119-121, 134-136): a block without a content indentation takes the given one; any other block is unchanged |
| OutlineSpec.LearnOnce | src/documentSymbolProvider.ts:150-152 | after learning, the content indentation is set; a block that had one keeps it; nothing else changes; a later learn changes nothing |
| OutlineSpec.LineIndent | src/documentSymbolProvider.ts:50 | a line's indentation: `getColumn` up to its first non-white-space character |
| OutlineSpec.LineEnd | src/documentSymbolProvider.ts:202 | where a closed symbol ends: line `lineNum - 1` at its UTF-16 length |
| Columns.EffectiveTabSize | src/documentSymbolProvider.ts:179 | the editor's tab size when it is a number, 4 otherwise |
| LinePatterns.IsSpace | src/documentSymbolProvider.ts:34-40 | JavaScript's `\s`: the white-space and line-terminator characters |
| Symbols.At | src/documentSymbolProvider.ts:74 | the range of a location built from one position: empty, at that position (also lines 97, 113, 128, 144) |
| OutlineSpec.FirstNonWhitespace | src/documentSymbolProvider.ts:47-50 | the index of the first non-white-space character, or the length when there is none |
| OutlineSpec.Close | src/documentSymbolProvider.ts:192-208 | the closed symbol keeps name, kind and container, is well formed, and runs from its start to the end of line `lineNum - 1` when that is not before the start |
| OutlineSpec.SkippedLine | src/documentSymbolProvider.ts:47-49 | a blank, white-space-only or full-line comment leaves current block, stack and result unchanged |
| OutlineProperties.CloseExtends | src/documentSymbolProvider.ts:198-203 | closing a pending symbol never needs the editor's swap: the range runs from the symbol's start to the end of the previous line |
| OutlineProperties.InitInv | src/documentSymbolProvider.ts:42-43 | the initial root satisfies the outline invariant |
| OutlineProperties.InvMono | src/documentSymbolProvider.ts:45 | the invariant after `n` lines still holds when one more line is counted |
| OutlineProperties.CloseCurrentInv | src/documentSymbolProvider.ts:52-55 | closing the current context keeps every symbol within the document and keeps the emitted symbols nested or disjoint and ordered by last line |
| OutlineProperties.PopInv | src/documentSymbolProvider.ts:56-60 | popping keeps the invariant |
| OutlineProperties.PopLoopInv | src/documentSymbolProvider.ts:51-61 | the whole pop loop keeps the invariant |
| OutlineProperties.PushInv | src/documentSymbolProvider.ts:80-83 | opening a child at the current line on top of a context with a symbol keeps the invariant |
| OutlineProperties.HeadingLineInv | src/documentSymbolProvider.ts:78-100 | a section heading keeps the invariant; its symbol is named by a heading |
| OutlineProperties.AppendLaterOk | src/documentSymbolProvider.ts:109-113 | a symbol starting after every emitted one ended can be appended without breaking nesting or order |
| OutlineProperties.LatestCompatible | src/documentSymbolProvider.ts:109-113 | a symbol on the current line is nested in or after every open context |
| OutlineProperties.LearnInv | src/documentSymbolProvider.ts:150-152 | learning the content indentation keeps the invariant |
| OutlineProperties.FieldLineInv | src/documentSymbolProvider.ts:103-115 | a field line keeps the invariant one line further |
| OutlineProperties.MemberLineInv | src/documentSymbolProvider.ts:116-146 | a condition or action line keeps the invariant |
| OutlineProperties.ClassLineInv | src/documentSymbolProvider.ts:66-76 | a class declaration keeps the invariant one line further |
| OutlineProperties.DispatchInv | src/documentSymbolProvider.ts:63-155 | the per-block handling of a line keeps the invariant, one line further |
| OutlineProperties.StepInv | src/documentSymbolProvider.ts:45-156 | one iteration of the line loop keeps the invariant |
| OutlineProperties.RunToInv | src/documentSymbolProvider.ts:45-156 | the invariant holds after any number of lines |
| OutlineProperties.DrainInv | src/documentSymbolProvider.ts:158-169 | the final loop keeps the invariant, and an empty document has nothing open |
| OutlineProperties.OutlineShape | src/documentSymbolProvider.ts:29-171 | every outline symbol lies within the document, is well formed and named by its pattern, any two are nested or disjoint by lines, and last lines never decrease |
| OutlineStructure.PopLoopShape | src/documentSymbolProvider.ts:51-61 | the pop loop pops a suffix of the stack and keeps earlier results; it stops at a context the line does not leave, left unchanged, or with the stack exhausted; it emits one symbol per context closed |
| OutlineStructure.PopLoopCloses | src/documentSymbolProvider.ts:51-61 | the `j`-th symbol the pop loop emits closes the `j`-th context it visits, top down, and the line leaves that context |
| OutlineStructure.QuirkReemit | src/documentSymbolProvider.ts:51-61 | when the stack is already empty, a line the root leaves closes the root's symbol again, appends it, and leaves the root current holding it |
| OutlineStructure.QuirkReemitAtEnd | src/documentSymbolProvider.ts:158-169 | the final loop closes a lone root once more, even when its symbol was closed and emitted before |
| OutlineStructure.QuirkTwice | src/documentSymbolProvider.ts:51-61 | together: such a symbol appears twice in the outline, with the same name and kind |
| OutlineStructure.DrainShape | src/documentSymbolProvider.ts:158-169 | the final loop empties the stack, keeps earlier results and emits one symbol per open context (none when no class was declared) |
| OutlineStructure.DrainCloses | src/documentSymbolProvider.ts:158-169 | the final loop closes the current context first, then the stack from the top down |
| OutlineStructure.DrainedAtEnd | src/documentSymbolProvider.ts:158-169 | at the end of the document the final loop empties the stack and emits one symbol per open context (none when no class was declared) |
| OutlineStructure.CloseCurrentNesting | src/documentSymbolProvider.ts:192-208 | closing a symbol keeps the nesting of indentations |
| OutlineStructure.PopNesting | src/documentSymbolProvider.ts:56-60 | popping keeps the nesting of indentations |
| OutlineStructure.PopLoopNesting | src/documentSymbolProvider.ts:51-61 | the pop loop keeps the nesting of indentations |
| OutlineStructure.PushNesting | src/documentSymbolProvider.ts:80-83 | a child pushed above a parent whose content indentation is the child's heading indentation keeps the nesting |
| OutlineStructure.IndentedLine | src/documentSymbolProvider.ts:182-188 | with an editor, a line starting with white space is indented by at least one |
| OutlineStructure.HeadingNesting | src/documentSymbolProvider.ts:78-100 | a section opens with the root's content indentation equal to its heading indentation, which with an editor is above 0 |
| OutlineStructure.MemberNesting | src/documentSymbolProvider.ts:116-146 | a condition or action opens with its section's content indentation equal to its heading indentation, which with an editor is deeper than the section's |
| OutlineStructure.ClassLineKeepsStack | src/documentSymbolProvider.ts:66-76 | a class declaration opens nothing and keeps the current block's type and heading indentation |
| OutlineStructure.FieldLineKeepsStack | src/documentSymbolProvider.ts:103-115 | a field line opens nothing and keeps the current block's type and heading indentation |
| OutlineStructure.DispatchNesting | src/documentSymbolProvider.ts:63-155 | the per-block handling after the pop loop keeps the nesting of indentations |
| OutlineStructure.StepNesting | src/documentSymbolProvider.ts:45-156 | one iteration keeps the nesting of indentations |
| OutlineStructure.RunToNesting | src/documentSymbolProvider.ts:45-156 | after any number of lines: the root is at the bottom with indent 0, each parent learnt its child's heading indentation, and with an editor heading indentations strictly increase up the stack |
| OutlineStructure.ClassLineEffect | src/documentSymbolProvider.ts:66-76 | a class line either changes nothing or declares the class |
| OutlineStructure.HeadingLineEffect | src/documentSymbolProvider.ts:78-100 | a heading line either changes nothing or opens a section of the heading's block type |
| OutlineStructure.FieldLineEffect | src/documentSymbolProvider.ts:103-115 | a field line either changes nothing or emits one field |
| OutlineStructure.MemberLineEffect | src/documentSymbolProvider.ts:116-146 | a condition or action line either changes nothing or opens one condition or action |
| OutlineStructure.DispatchEffect | src/documentSymbolProvider.ts:63-155 | on a misaligned line the per-block handling changes nothing; otherwise it changes nothing, learns an indentation, declares the class, emits one field or opens one child (headings only after the class, each block its own child kind) |

## Left out

- The VS Code host is not part of this model:
  - `TextDocument` is a sequence of line texts;
  - a `SymbolInformation` is a name, kind, container name and range, without the document URI;
  - `src/extension.ts`, which only registers the provider, is not part of this model.
- The active-editor lookup becomes the `TabSetting` parameter: no editor, a numeric tab size, or a non-numeric one, which counts as 4. The tab size is a whole number of at least 1 here, as editor options provide it. A tab size of 0 is not modelled: the source's division would give `NaN` there. A negative or fractional tab size is not modelled either: the source would give negative or fractional widths, which the model's natural numbers do not represent.
- The `CancellationToken` is unused by the source and is not modelled.
- The regular expressions become hand-written recognisers that consume greedily. They give the same answers as JavaScript's engine because every repetition in them is followed by a token whose first character lies outside the repeated class (or by the end of the line), so a shorter run never lets the rest match; optional groups and alternations are covered by trying each choice. This equivalence is argued, not proved. Line texts end at their line terminators, so `[^\n]*` only has to reject an embedded `\n`.
- `line.firstNonWhitespaceCharacterIndex` and `line.isEmptyOrWhitespace` use the same white-space class as `\s`.
- Columns.Column: it counts characters, while `getColumn` walks UTF-16 code units. The two agree on every call the provider makes, because it only measures the leading white space of a line, and every white-space character is a single code unit. `FirstNonWhitespace` is the editor's index for the same reason.
- OutlineStructure.RunToNesting: the strict increase of heading indentations is stated only with an editor. Without one every indentation is 0, and a section then opens at the root's own indentation.
- OutlineProperties.OutlineShape: nesting is stated by line numbers, not by characters within a line.
- OutlineStructure.DispatchEffect: it assumes that only the class root can be without a symbol. That holds in every state the parser reaches (`OutlineProperties.RunToInv`).
- Aliasing of `IndentInfo` objects is ruled out by the ghost predicate `Separate`; the objects' values are mirrored by a ghost sequence of `Ctx` values.
