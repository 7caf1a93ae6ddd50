/** The editor-side values the outline is made of: positions, ranges and
    symbols, together with the block types of an LPL business-class file. */
module Symbols {

  /** The kinds of context the parser can be in (the source's `LPLBlock`).
      `DerivedFields` and `Relations` are declared but never entered. */
  datatype Block =
    | ClassRoot
    | PersistentFields
    | Conditions
    | DerivedFields
    | Relations
    | Actions
    | OtherSection
    | Action
    | Condition

  /** The symbol kinds the outline uses. */
  datatype SymbolKind = Class | Namespace | Field | Function | Method

  /** How many UTF-16 code units the editor stores for `c`: two for a
      character outside the Basic Multilingual Plane, one otherwise. */
  function CodeUnits(c: char): nat {
    if c > '\U{FFFF}' then 2 else 1
  }

  /** The length of a line as the editor counts it (`text.length`), in
      UTF-16 code units. */
  function Utf16Length(s: string): (n: nat)
    ensures |s| <= n <= 2 * |s|
    ensures (forall i :: 0 <= i < |s| ==> s[i] <= '\U{FFFF}') ==> n == |s|
    decreases |s|
  {
    if s == [] then 0 else CodeUnits(s[0]) + Utf16Length(s[1..])
  }

  /** A 0-based line and a character offset counted in UTF-16 code units. */
  datatype Position = Position(line: nat, character: nat)

  datatype Range = Range(start: Position, end: Position)

  /** An outline entry: name, kind, container name and source range. */
  datatype Symbol = Symbol(name: string, kind: SymbolKind, containerName: string, range: Range)

  /** `a.isAfter(b)`: a lies strictly after b. */
  predicate IsAfter(a: Position, b: Position) {
    a.line > b.line || (a.line == b.line && a.character > b.character)
  }

  /** The editor's range constructor, which swaps its ends when the start
      lies after the end. */
  function MakeRange(start: Position, end: Position): (r: Range)
    ensures !IsAfter(r.start, r.end)
    ensures {r.start, r.end} == {start, end}
    ensures !IsAfter(start, end) ==> r == Range(start, end)
  {
    if IsAfter(start, end) then Range(end, start) else Range(start, end)
  }

  /** The empty range at a position: the range of a location built from a
      single position. */
  function At(p: Position): Range {
    Range(p, p)
  }

  /** A range whose start does not lie after its end. */
  predicate WellFormed(s: Symbol) {
    !IsAfter(s.range.start, s.range.end)
  }

  /** Two ranges, `a` emitted before `b`, are nested (a inside b) or
      disjoint (a ends on a line before b starts), counting lines. */
  predicate Laminar(a: Symbol, b: Symbol) {
    (b.range.start.line <= a.range.start.line && a.range.end.line <= b.range.end.line)
    || a.range.end.line < b.range.start.line
  }
}
