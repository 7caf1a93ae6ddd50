/** Tab-aware indentation width, the specification of `getColumn`. */
module Columns {

  /** A usable tab width. */
  type TabSize = n: nat | 1 <= n witness 4

  /** What the active editor says about tabs: there may be no active editor,
      its tab size may be a number, or it may be something else. */
  datatype TabSetting = NoActiveEditor | Numeric(size: TabSize) | NotNumeric

  predicate HasEditor(tab: TabSetting) {
    !tab.NoActiveEditor?
  }

  /** The tab size in force: the editor's when it is a number, 4 otherwise. */
  function EffectiveTabSize(tab: TabSetting): TabSize
    requires HasEditor(tab)
  {
    if tab.Numeric? then tab.size else 4
  }

  /** The next multiple of `tabSize` strictly above `width`. */
  function TabStop(width: nat, tabSize: TabSize): (r: nat)
    ensures r % tabSize == 0
    ensures width < r <= width + tabSize
  {
    var q := width / tabSize;
    assert (q + 1) * tabSize == q * tabSize + tabSize;
    MultipleMod(q + 1, tabSize);
    (q + 1) * tabSize
  }

  /** Quotient and remainder are determined by any decomposition
      `a == d * t + m` with `0 <= m < t`. */
  lemma DivModUnique(a: int, t: int, d: int, m: int)
    requires t > 0 && a == d * t + m && 0 <= m < t
    ensures a % t == m && a / t == d
  {
    var d0, m0 := a / t, a % t;
    assert (d - d0) * t == m0 - m;
    if d - d0 > 0 {
      PositiveMultiple(d - d0, t);
      assert false;
    } else if d - d0 < 0 {
      PositiveMultiple(d0 - d, t);
      assert false;
    }
  }

  lemma {:induction false} PositiveMultiple(e: nat, t: int)
    requires t >= 1 && e >= 1
    ensures e * t >= t
  {
    if e > 1 {
      PositiveMultiple(e - 1, t);
      assert e * t == (e - 1) * t + t;
    }
  }

  /** A multiple of the tab size leaves no remainder. */
  lemma MultipleMod(q: nat, tabSize: TabSize)
    ensures (q * tabSize) % tabSize == 0
  {
    DivModUnique(q * tabSize, tabSize, q, 0);
  }

  /** The width of the characters of `s`, read left to right: a tab moves to
      the next tab stop, every other character advances by one. */
  function Width(s: string, tabSize: TabSize): nat {
    if s == [] then 0
    else
      var w := Width(s[..|s| - 1], tabSize);
      if s[|s| - 1] == '\t' then TabStop(w, tabSize) else w + 1
  }

  function Min(a: nat, b: nat): nat {
    if a <= b then a else b
  }

  /** The indentation width of the first `end` characters of `line`: zero
      when there is no active editor. */
  function Column(line: string, end: nat, tab: TabSetting): nat {
    if !HasEditor(tab) then 0 else Width(line[..Min(end, |line|)], EffectiveTabSize(tab))
  }

  /** Without tabs the width is the number of characters. */
  lemma {:induction false} WidthWithoutTabs(s: string, tabSize: TabSize)
    requires '\t' !in s
    ensures Width(s, tabSize) == |s|
  {
    if s != [] {
      assert s == s[..|s| - 1] + [s[|s| - 1]];
      WidthWithoutTabs(s[..|s| - 1], tabSize);
    }
  }

  /** Every character advances the width by at least one. */
  lemma {:induction false} WidthAtLeastLength(s: string, tabSize: TabSize)
    ensures Width(s, tabSize) >= |s|
  {
    if s != [] {
      WidthAtLeastLength(s[..|s| - 1], tabSize);
    }
  }

  /** Appending a character never decreases the width; a tab lands exactly
      on a tab stop. */
  lemma WidthStep(s: string, c: char, tabSize: TabSize)
    ensures Width(s + [c], tabSize) > Width(s, tabSize)
    ensures c == '\t' ==> Width(s + [c], tabSize) % tabSize == 0
    ensures c != '\t' ==> Width(s + [c], tabSize) == Width(s, tabSize) + 1
  {
    assert (s + [c])[..|s + [c]| - 1] == s;
  }

  /** Only the first min(end, |line|) characters are looked at. */
  lemma ColumnIgnoresRest(line: string, rest: string, end: nat, tab: TabSetting)
    requires end <= |line|
    ensures Column(line + rest, end, tab) == Column(line, end, tab)
  {
    assert (line + rest)[..end] == line[..end];
  }

  /** With no tabs in the scanned prefix, the column is its length. */
  lemma ColumnWithoutTabs(line: string, end: nat, tab: TabSetting)
    requires HasEditor(tab)
    requires '\t' !in line[..Min(end, |line|)]
    ensures Column(line, end, tab) == Min(end, |line|)
  {
    WidthWithoutTabs(line[..Min(end, |line|)], EffectiveTabSize(tab));
  }
}
