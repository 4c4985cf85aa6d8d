/**
 * What one propagation cycle, one spreadsheet and the whole folder promise,
 * proved of the specification functions of propagation.dfy (and therefore of
 * `updateSheetsAndRanges`, whose methods are proved against them).
 *
 * "No leftover" below means the target spreadsheet holds no sheet named
 * "Copy of X" before the cycle for source X; `LeftoverCopyTakesOver` shows what
 * happens when it does.
 */
module PropagationProperties {
  import opened Wrappers
  import opened Host
  import opened SpreadsheetFunctions
  import opened Propagation

  /** The name, grid and cells of two sheets agree; only protections may differ. */
  predicate SameContent(a: Sheet, b: Sheet)
  {
    a.name == b.name && a.rows == b.rows && a.cols == b.cols && a.cells == b.cells
  }

  /** The source as the cycle renames its first copy: named X, with the source's grid and cells. */
  function Renamed(source: Sheet): Sheet
  {
    CopyOf(source).(name := source.name)
  }

  /** Some range of the list contains the cell. */
  predicate Covered(c: Cell, rects: seq<Rect>)
    decreases |rects|
  {
    rects != [] && (InRect(c, rects[0]) || Covered(c, rects[1..]))
  }

  // ---------------------------------------------------------------------------
  // Sequences of names

  lemma NameExistsIffInNames(s: seq<Sheet>, n: string)
    ensures NameExists(s, n) <==> n in multiset(Names(s))
  {
    if NameExists(s, n) {
      var i :| 0 <= i < |s| && s[i].name == n;
      assert Names(s)[i] == n;
    }
  }

  lemma NamesAppend(s: seq<Sheet>, t: seq<Sheet>)
    ensures Names(s + t) == Names(s) + Names(t)
  {
  }

  lemma MultisetUpdate<T>(s: seq<T>, k: nat, v: T)
    requires k < |s|
    ensures multiset(s[k := v]) == multiset(s) - multiset{s[k]} + multiset{v}
  {
    assert s == s[..k] + [s[k]] + s[k + 1..];
    assert s[k := v] == s[..k] + [v] + s[k + 1..];
  }

  lemma NamesRename(s: seq<Sheet>, k: nat, n: string)
    requires k < |s|
    ensures multiset(Names(s[k := s[k].(name := n)])) == multiset(Names(s)) - multiset{s[k].name} + multiset{n}
  {
    assert Names(s[k := s[k].(name := n)]) == Names(s)[k := n];
    MultisetUpdate(Names(s), k, n);
  }

  lemma MultisetRemoveAt<T>(s: seq<T>, k: nat)
    requires k < |s|
    ensures multiset(RemoveAt(s, k)) == multiset(s) - multiset{s[k]}
  {
    assert s == s[..k] + [s[k]] + s[k + 1..];
  }

  lemma MultisetCancel<T>(a: multiset<T>, x: T, e: multiset<T>)
    ensures a + multiset{x} + e - multiset{x} == a + e
  {
  }

  /** Updating a sheet and then deleting the one appended after it. */
  lemma DropAppended<T>(s: seq<T>, c: T, t: nat, g: T)
    requires t < |s|
    ensures RemoveAt((s + [c])[t := g], |s|) == s[t := g]
  {
  }

  /** Replacing the first of two appended sheets and deleting the second. */
  lemma DropSecondAppended<T>(s: seq<T>, x: T, y: T, g: T)
    ensures RemoveAt((s + [x, y])[|s| := g], |s| + 1) == s + [g]
  {
  }

  lemma NamesKeepName(s: seq<Sheet>, k: nat, g: Sheet)
    requires k < |s| && g.name == s[k].name
    ensures Names(s[k := g]) == Names(s)
  {
  }

  lemma NamesRemoveAt(s: seq<Sheet>, k: nat)
    requires k < |s|
    ensures multiset(Names(RemoveAt(s, k))) == multiset(Names(s)) - multiset{s[k].name}
  {
    var before, after := Names(s), Names(RemoveAt(s, k));
    assert after == RemoveAt(before, k) by {
      assert |after| == |RemoveAt(before, k)|;
      forall j | 0 <= j < |after|
        ensures after[j] == RemoveAt(before, k)[j]
      {
        if j < k { assert RemoveAt(s, k)[j] == s[j]; } else { assert RemoveAt(s, k)[j] == s[j + 1]; }
      }
    }
    MultisetRemoveAt(before, k);
  }

  /** `getSheetByName` finds the same sheet once more sheets are appended. */
  lemma FindByNameAppend(sheets: seq<Sheet>, more: seq<Sheet>, name: string)
    requires NameExists(sheets, name)
    ensures FindByName(sheets + more, name) == FindByName(sheets, name)
  {
    var i := FindByName(sheets, name);
    assert (sheets + more)[i] == sheets[i];
    assert NameExists(sheets + more, name);
    assert forall k :: 0 <= k < |sheets| ==> (sheets + more)[k] == sheets[k];
  }

  // ---------------------------------------------------------------------------
  // Protections touch protections only

  lemma {:induction false} RangeProtectKeepsContent(sheet: Sheet, rects: seq<Rect>, editors: seq<string>, may: bool)
    ensures SameContent(RangeProtectSpec(sheet, rects, editors, may).sheet, sheet)
    decreases |rects|
  {
    if rects != [] {
      var o := ProtectRangeSpec(sheet, rects[0], editors, may);
      RangeProtectKeepsContent(o.sheet, rects[1..], editors, may);
    }
  }

  lemma {:induction false} ProtectEachKeepsContent(sheet: Sheet, rangeMode: bool, ps: seq<Protection>, may: bool)
    ensures SameContent(ProtectEach(sheet, rangeMode, ps, may).sheet, sheet)
    decreases |ps|
  {
    if ps != [] {
      ProtectEachStep(sheet, rangeMode, ps, 0, may);
      assert ps[0..] == ps;
      var o := ProtectOne(sheet, rangeMode, ps[0], may);
      if rangeMode && Fits(ps[0].rect, sheet) {
        RangeProtectKeepsContent(sheet, [ps[0].rect], ps[0].editors, may);
      }
      if o.status.Ok? {
        ProtectEachKeepsContent(o.sheet, rangeMode, ps[1..], may);
      }
    }
  }

  /** Re-applying protections never changes a sheet's name, grid or cells. */
  lemma ProtectionsKeepContent(sheet: Sheet, rangeMode: bool, prots: Option<seq<Protection>>, may: bool)
    ensures SameContent(ProtectionsApplied(sheet, rangeMode, prots, may).sheet, sheet)
  {
    if prots.Some? && prots.value != [] {
      ProtectEachKeepsContent(sheet, rangeMode, prots.value, may);
    }
  }

  // ---------------------------------------------------------------------------
  // Step 1: where the source lands

  /** Sheet X exists: the copy is appended and X, the first sheet so named, is the one updated. */
  lemma PlacePresent(sheets: seq<Sheet>, source: Sheet)
    requires NameExists(sheets, source.name)
    ensures var p := PlaceCopy(sheets, source);
      && p.sheets == sheets + [CopyOf(source)]
      && p.target == FindByName(sheets, source.name) && p.copy == |sheets|
  {
    var withCopy := sheets + [CopyOf(source)];
    var i := FindByName(sheets, source.name);
    assert withCopy[i] == sheets[i];
    FindByNameAppend(sheets, [CopyOf(source)], source.name);
  }

  /** No sheet X and no leftover: the renamed copy and a second copy of it are appended. */
  lemma PlaceAbsent(sheets: seq<Sheet>, source: Sheet)
    requires !NameExists(sheets, source.name) && !NameExists(sheets, CopyPrefix + source.name)
    ensures var p := PlaceCopy(sheets, source);
      && p.sheets == sheets + [Renamed(source), CopyOf(Renamed(source))]
      && p.target == |sheets| && p.copy == |sheets| + 1
  {
    var withCopy := sheets + [CopyOf(source)];
    assert !NameExists(withCopy, source.name) by {
      forall j | 0 <= j < |withCopy|
        ensures withCopy[j].name != source.name
      {
        if j < |sheets| {
          assert withCopy[j] == sheets[j];
        }
      }
    }
    assert withCopy[|sheets|].name == CopyPrefix + source.name;
    assert forall j :: 0 <= j < |sheets| ==> withCopy[j] == sheets[j];
  }

  /** Step 1 with no sheet X: the first "Copy of X" (at `k`) is renamed X and copied once more. */
  lemma PlaceAbsentShape(sheets: seq<Sheet>, source: Sheet) returns (k: nat)
    requires !NameExists(sheets, source.name)
    ensures var withCopy := sheets + [CopyOf(source)];
      && k < |withCopy| && withCopy[k].name == CopyPrefix + source.name
      && var renamed := withCopy[k := withCopy[k].(name := source.name)];
         PlaceCopy(sheets, source).sheets == renamed + [CopyOf(renamed[k])]
  {
    var withCopy := sheets + [CopyOf(source)];
    AbsentAppended(sheets, CopyOf(source), source.name);
    assert withCopy[|sheets|].name == CopyPrefix + source.name;
    k := FindByName(withCopy, CopyPrefix + source.name);
  }

  /** The names after step 1 when sheet X is absent: X and "Copy of X" join the old names. */
  lemma PlaceNamesAbsent(sheets: seq<Sheet>, source: Sheet)
    requires !NameExists(sheets, source.name)
    ensures multiset(Names(PlaceCopy(sheets, source).sheets))
         == multiset(Names(sheets)) + multiset{CopyPrefix + source.name} + multiset{source.name}
    ensures |PlaceCopy(sheets, source).sheets| == |sheets| + 2
  {
    var copyName := CopyPrefix + source.name;
    var withCopy := sheets + [CopyOf(source)];
    var k := PlaceAbsentShape(sheets, source);
    var renamed := withCopy[k := withCopy[k].(name := source.name)];
    NamesAppend(sheets, [CopyOf(source)]);
    assert Names([CopyOf(source)]) == [copyName];
    NamesRename(withCopy, k, source.name);
    NamesAppend(renamed, [CopyOf(renamed[k])]);
    assert Names([CopyOf(renamed[k])]) == [copyName];
    RenameThenCopy(multiset(Names(sheets)), multiset(Names(withCopy)), multiset(Names(renamed)),
                   multiset(Names(renamed + [CopyOf(renamed[k])])), copyName, source.name);
  }

  lemma RenameThenCopy<T>(m0: multiset<T>, m1: multiset<T>, m2: multiset<T>, m3: multiset<T>, c: T, x: T)
    requires m1 == m0 + multiset{c} && m2 == m1 - multiset{c} + multiset{x} && m3 == m2 + multiset{c}
    ensures m3 == m0 + multiset{c} + multiset{x}
  {
  }

  /**
   * Whatever the target holds, placing the source adds one "Copy of X" to the
   * names, and one X when there was none; the copy is named "Copy of X".
   */
  lemma PlaceNames(sheets: seq<Sheet>, source: Sheet)
    ensures var p := PlaceCopy(sheets, source);
      && multiset(Names(p.sheets))
         == multiset(Names(sheets)) + multiset{CopyPrefix + source.name}
            + (if NameExists(sheets, source.name) then multiset{} else multiset{source.name})
      && p.sheets[p.copy].name == CopyPrefix + source.name
      && |p.sheets| == |sheets| + (if NameExists(sheets, source.name) then 1 else 2)
  {
    if NameExists(sheets, source.name) {
      PlacePresent(sheets, source);
      NamesAppend(sheets, [CopyOf(source)]);
      assert Names([CopyOf(source)]) == [CopyPrefix + source.name];
    } else {
      PlaceNamesAbsent(sheets, source);
    }
  }

  // ---------------------------------------------------------------------------
  // One cycle

  /** A cycle that went through: the sheet to update is replaced by one still named X, and the copy is deleted. */
  lemma CycleOkShape(sheets: seq<Sheet>, source: Sheet, ranges: Option<seq<Rect>>, prots: Option<seq<Protection>>, may: bool)
    returns (g: Sheet)
    requires CycleSpec(sheets, source, ranges, prots, may).status.Ok?
    ensures var p := PlaceCopy(sheets, source);
      CycleSpec(sheets, source, ranges, prots, may).sheets == RemoveAt(p.sheets[p.target := g], p.copy)
      && g.name == source.name
  {
    var p := PlaceCopy(sheets, source);
    var moved :=
      if ranges.Some? then RangesCopied(p.sheets[p.target], p.sheets[p.copy], ranges.value)
      else WholeCopied(p.sheets[p.target], p.sheets[p.copy], source);
    var guarded := ProtectionsApplied(moved.sheet, ranges.Some?, prots, may);
    ProtectionsKeepContent(moved.sheet, ranges.Some?, prots, may);
    g := guarded.sheet;
  }

  /**
   * After a cycle that went through, the spreadsheet holds a sheet named as the
   * source, and its names grew by exactly that name when it was absent: nothing
   * else was added or removed (in particular no extra "Copy of" sheet).
   */
  lemma CycleNames(sheets: seq<Sheet>, source: Sheet, ranges: Option<seq<Rect>>, prots: Option<seq<Protection>>, may: bool)
    requires CycleSpec(sheets, source, ranges, prots, may).status.Ok?
    ensures var o := CycleSpec(sheets, source, ranges, prots, may);
      && NameExists(o.sheets, source.name)
      && multiset(Names(o.sheets))
         == multiset(Names(sheets)) + (if NameExists(sheets, source.name) then multiset{} else multiset{source.name})
      && |o.sheets| == |sheets| + (if NameExists(sheets, source.name) then 0 else 1)
  {
    var p := PlaceCopy(sheets, source);
    PlaceNames(sheets, source);
    var g := CycleOkShape(sheets, source, ranges, prots, may);
    var after := p.sheets[p.target := g];
    NamesKeepName(p.sheets, p.target, g);
    NamesRemoveAt(after, p.copy);
    var o := CycleSpec(sheets, source, ranges, prots, may);
    assert o.sheets[p.target] == g;
    MultisetCancel(multiset(Names(sheets)), CopyPrefix + source.name,
                   if NameExists(sheets, source.name) then multiset{} else multiset{source.name});
  }

  /**
   * With no leftover, a cycle that went through changes the sheet X in place
   * (when present) or appends it (when absent), touches no other sheet and
   * leaves no sheet named "Copy of X".
   */
  lemma CycleTouchesOnlyX(sheets: seq<Sheet>, source: Sheet, ranges: Option<seq<Rect>>, prots: Option<seq<Protection>>, may: bool)
    requires !NameExists(sheets, CopyPrefix + source.name)
    requires CycleSpec(sheets, source, ranges, prots, may).status.Ok?
    ensures var o := CycleSpec(sheets, source, ranges, prots, may);
      && (NameExists(sheets, source.name) ==>
            var t := FindByName(sheets, source.name); o.sheets == sheets[t := o.sheets[t]])
      && (!NameExists(sheets, source.name) ==> o.sheets == sheets + [o.sheets[|sheets|]])
      && !NameExists(o.sheets, CopyPrefix + source.name)
  {
    var o := CycleSpec(sheets, source, ranges, prots, may);
    var p := PlaceCopy(sheets, source);
    var g := CycleOkShape(sheets, source, ranges, prots, may);
    if NameExists(sheets, source.name) {
      PlacePresent(sheets, source);
      DropAppended(sheets, CopyOf(source), p.target, g);
      NoCopyAfterUpdate(sheets, p.target, g, CopyPrefix + source.name);
    } else {
      PlaceAbsent(sheets, source);
      DropSecondAppended(sheets, Renamed(source), CopyOf(Renamed(source)), g);
      AbsentAppended(sheets, g, CopyPrefix + source.name);
    }
  }

  lemma AbsentAppended(s: seq<Sheet>, g: Sheet, n: string)
    requires g.name != n && !NameExists(s, n)
    ensures !NameExists(s + [g], n)
  {
    assert forall j :: 0 <= j < |s| ==> (s + [g])[j] == s[j];
  }

  lemma NoCopyAfterUpdate(s: seq<Sheet>, t: nat, g: Sheet, n: string)
    requires t < |s| && g.name != n
    requires forall j :: 0 <= j < |s| && j != t ==> s[j].name != n
    ensures !NameExists(s[t := g], n)
  {
  }

  /** Where the cycle for X leaves the updated sheet, when there is no leftover. */
  function TargetIndex(sheets: seq<Sheet>, source: Sheet): nat
  {
    if NameExists(sheets, source.name) then FindByName(sheets, source.name) else |sheets|
  }

  /** The sheet X before its contents are moved: the existing one, or the renamed copy. */
  function TargetBefore(sheets: seq<Sheet>, source: Sheet): Sheet
  {
    if NameExists(sheets, source.name) then sheets[FindByName(sheets, source.name)] else Renamed(source)
  }

  /** The sheet to update and the copy right after step 1, with no leftover. */
  lemma PlaceNoLeftover(sheets: seq<Sheet>, source: Sheet)
    requires !NameExists(sheets, CopyPrefix + source.name)
    ensures var p := PlaceCopy(sheets, source);
      && p.target == TargetIndex(sheets, source) && p.sheets[p.target] == TargetBefore(sheets, source)
      && SameContent(p.sheets[p.copy], CopyOf(source))
  {
    if NameExists(sheets, source.name) {
      PlacePresent(sheets, source);
    } else {
      PlaceAbsent(sheets, source);
    }
  }

  lemma {:induction false} RangesCopiedCells(target: Sheet, copy: Sheet, rects: seq<Rect>)
    requires RangesCopied(target, copy, rects).status.Ok?
    ensures var t := RangesCopied(target, copy, rects).sheet;
      && (forall c :: Covered(c, rects) ==> (c in t.cells <==> c in copy.cells))
      && (forall c :: Covered(c, rects) && c in copy.cells ==> t.cells[c] == copy.cells[c])
      && (forall c :: !Covered(c, rects) ==> (c in t.cells <==> c in target.cells))
      && (forall c :: !Covered(c, rects) && c in target.cells ==> t.cells[c] == target.cells[c])
    decreases |rects|
  {
    if rects != [] {
      RangesCopiedCells(CopyCells(target, copy, rects[0]), copy, rects[1..]);
    }
  }

  /**
   * Range mode, no leftover: in the sheet X, the cells inside the given ranges
   * are the source's and every other cell is what X held before.
   */
  lemma CycleCopiesRanges(sheets: seq<Sheet>, source: Sheet, rects: seq<Rect>, prots: Option<seq<Protection>>, may: bool)
    requires !NameExists(sheets, CopyPrefix + source.name)
    requires CycleSpec(sheets, source, Some(rects), prots, may).status.Ok?
    ensures var o := CycleSpec(sheets, source, Some(rects), prots, may);
      var t := TargetIndex(sheets, source);
      var x := o.sheets[t].cells;
      var before := TargetBefore(sheets, source).cells;
      && t < |o.sheets|
      && (forall c :: Covered(c, rects) ==> (c in x <==> c in source.cells))
      && (forall c :: Covered(c, rects) && c in source.cells ==> x[c] == source.cells[c])
      && (forall c :: !Covered(c, rects) ==> (c in x <==> c in before))
      && (forall c :: !Covered(c, rects) && c in before ==> x[c] == before[c])
  {
    var p := PlaceCopy(sheets, source);
    PlaceNoLeftover(sheets, source);
    var moved := RangesCopied(p.sheets[p.target], p.sheets[p.copy], rects);
    RangesCopiedCells(p.sheets[p.target], p.sheets[p.copy], rects);
    var guarded := ProtectionsApplied(moved.sheet, true, prots, may);
    ProtectionsKeepContent(moved.sheet, true, prots, may);
    var after := p.sheets[p.target := guarded.sheet];
    assert CycleSpec(sheets, source, Some(rects), prots, may).sheets == RemoveAt(after, p.copy);
  }

  lemma SameMaps<K, V>(a: map<K, V>, b: map<K, V>)
    requires forall k :: k in a <==> k in b
    requires forall k :: k in a ==> a[k] == b[k]
    ensures a == b
  {
  }

  lemma WholeCopiedContent(target: Sheet, copy: Sheet, source: Sheet)
    requires WellFormed(target) && WellFormed(source) && SameContent(copy, CopyOf(source))
    requires WholeCopied(target, copy, source).status.Ok?
    ensures var t := WholeCopied(target, copy, source).sheet;
      t.rows == source.rows && t.cols == source.cols && t.cells == source.cells
  {
    var whole := WholeRect(source);
    var rowsCut := if target.rows > copy.rows then DeleteRowsAfter(target, copy.rows) else target;
    var cut := if rowsCut.cols > copy.cols then DeleteColumnsAfter(rowsCut, copy.cols) else rowsCut;
    assert forall c :: c in cut.cells ==> InRect(c, whole);
    var t := CopyCells(cut, copy, whole);
    assert forall c :: c in source.cells ==> InRect(c, whole);
    assert forall c :: c in t.cells <==> c in source.cells;
    SameMaps(t.cells, source.cells);
  }

  /**
   * Whole-sheet mode, no leftover, well-formed sheets: the sheet X ends with
   * the source's grid (rows and columns beyond it were deleted) and exactly the
   * source's cells.
   */
  lemma CycleCopiesWhole(sheets: seq<Sheet>, source: Sheet, prots: Option<seq<Protection>>, may: bool)
    requires !NameExists(sheets, CopyPrefix + source.name)
    requires WellFormed(source) && forall j :: 0 <= j < |sheets| ==> WellFormed(sheets[j])
    requires CycleSpec(sheets, source, None, prots, may).status.Ok?
    ensures var o := CycleSpec(sheets, source, None, prots, may);
      var t := TargetIndex(sheets, source);
      t < |o.sheets| && o.sheets[t].rows == source.rows && o.sheets[t].cols == source.cols
      && o.sheets[t].cells == source.cells
  {
    var p := PlaceCopy(sheets, source);
    PlaceNoLeftover(sheets, source);
    var moved := WholeCopied(p.sheets[p.target], p.sheets[p.copy], source);
    WholeCopiedContent(p.sheets[p.target], p.sheets[p.copy], source);
    var guarded := ProtectionsApplied(moved.sheet, false, prots, may);
    ProtectionsKeepContent(moved.sheet, false, prots, may);
    var after := p.sheets[p.target := guarded.sheet];
    assert CycleSpec(sheets, source, None, prots, may).sheets == RemoveAt(after, p.copy);
  }

  /**
   * Whole-sheet mode only ever deletes rows and columns of X: when X is shorter
   * or narrower than the source, asking X for the source's grid raises, and the
   * fresh "Copy of X" stays behind as the last sheet.
   */
  lemma WholeModeSmallerTargetRaises(sheets: seq<Sheet>, source: Sheet, prots: Option<seq<Protection>>, may: bool)
    requires NameExists(sheets, source.name) && source.rows >= 1 && source.cols >= 1
    requires var x := sheets[FindByName(sheets, source.name)]; x.rows < source.rows || x.cols < source.cols
    ensures var o := CycleSpec(sheets, source, None, prots, may);
      && o.status == Thrown(OutOfBounds)
      && |o.sheets| == |sheets| + 1
      && o.sheets[|sheets|] == CopyOf(source)
  {
    PlacePresent(sheets, source);
  }

  /** Without a protections argument, the sheet X keeps the protections it had. */
  lemma CycleWithoutProtections(sheets: seq<Sheet>, source: Sheet, ranges: Option<seq<Rect>>, may: bool)
    requires !NameExists(sheets, CopyPrefix + source.name)
    requires CycleSpec(sheets, source, ranges, None, may).status.Ok?
    ensures var o := CycleSpec(sheets, source, ranges, None, may);
      var t := TargetIndex(sheets, source);
      t < |o.sheets| && o.sheets[t].protection == TargetBefore(sheets, source).protection
      && o.sheets[t].rangeProtections == TargetBefore(sheets, source).rangeProtections
  {
    var p := PlaceCopy(sheets, source);
    PlaceNoLeftover(sheets, source);
    var moved :=
      if ranges.Some? then RangesCopied(p.sheets[p.target], p.sheets[p.copy], ranges.value)
      else WholeCopied(p.sheets[p.target], p.sheets[p.copy], source);
    var after := p.sheets[p.target := moved.sheet];
    assert CycleSpec(sheets, source, ranges, None, may).sheets == RemoveAt(after, p.copy);
  }

  /** Whole-sheet mode with an empty protections array: the sheet X ends unprotected. */
  lemma CycleEmptyProtectionsUnprotect(sheets: seq<Sheet>, source: Sheet, may: bool)
    requires !NameExists(sheets, CopyPrefix + source.name)
    requires CycleSpec(sheets, source, None, Some([]), may).status.Ok?
    ensures var o := CycleSpec(sheets, source, None, Some([]), may);
      var t := TargetIndex(sheets, source);
      t < |o.sheets| && o.sheets[t].protection.None?
  {
    var p := PlaceCopy(sheets, source);
    PlaceNoLeftover(sheets, source);
    var moved := WholeCopied(p.sheets[p.target], p.sheets[p.copy], source);
    var guarded := ProtectionsApplied(moved.sheet, false, Some([]), may);
    var after := p.sheets[p.target := guarded.sheet];
    assert CycleSpec(sheets, source, None, Some([]), may).sheets == RemoveAt(after, p.copy);
  }

  /**
   * A cycle that raises leaves its "Copy of X" behind as the last sheet: the
   * copy is deleted only at the end of a cycle that went through.
   */
  lemma CycleThrownKeepsCopy(sheets: seq<Sheet>, source: Sheet, ranges: Option<seq<Rect>>, prots: Option<seq<Protection>>, may: bool)
    requires CycleSpec(sheets, source, ranges, prots, may).status.Thrown?
    ensures var o := CycleSpec(sheets, source, ranges, prots, may);
      o.sheets != [] && o.sheets[|o.sheets| - 1].name == CopyPrefix + source.name
      && NameExists(o.sheets, CopyPrefix + source.name)
  {
    var p := PlaceCopy(sheets, source);
    PlaceNames(sheets, source);
    var o := CycleSpec(sheets, source, ranges, prots, may);
    assert |o.sheets| == |p.sheets| && o.sheets[p.copy] == p.sheets[p.copy];
  }

  /**
   * Range mode with an empty protections array always raises (the range copy,
   * or else `ranges[range]`, which is not in scope), so the copy survives.
   */
  lemma RangeModeEmptyProtectionsRaises(sheets: seq<Sheet>, source: Sheet, rects: seq<Rect>, may: bool)
    ensures var o := CycleSpec(sheets, source, Some(rects), Some([]), may);
      && o.status.Thrown?
      && (RangesCopied(PlaceCopy(sheets, source).sheets[PlaceCopy(sheets, source).target],
                       PlaceCopy(sheets, source).sheets[PlaceCopy(sheets, source).copy], rects).status.Ok?
          ==> o.status == Thrown(ReferenceError))
      && NameExists(o.sheets, CopyPrefix + source.name)
  {
    CycleThrownKeepsCopy(sheets, source, Some(rects), Some([]), may);
  }

  /**
   * Step 1 with a leftover "Copy of X" (at `k`) and no sheet X: the leftover is
   * renamed X and becomes the sheet to update, the fresh copy of the source stays
   * at the end of the old sheets, and the copy the contents are read from is a
   * copy of the renamed leftover.
   */
  lemma LeftoverPlacement(sheets: seq<Sheet>, source: Sheet)
    requires !NameExists(sheets, source.name) && NameExists(sheets, CopyPrefix + source.name)
    ensures var p := PlaceCopy(sheets, source);
      var k := FindByName(sheets, CopyPrefix + source.name);
      && p.target == k && p.copy == |sheets| + 1
      && p.sheets[k] == sheets[k].(name := source.name)
      && p.sheets[|sheets|] == CopyOf(source)
      && p.sheets[p.copy] == CopyOf(p.sheets[k])
      && forall j :: 0 <= j < |sheets| && j != k ==> p.sheets[j] == sheets[j]
  {
    var withCopy := sheets + [CopyOf(source)];
    AbsentAppended(sheets, CopyOf(source), source.name);
    FindByNameAppend(sheets, [CopyOf(source)], CopyPrefix + source.name);
    var k := FindByName(sheets, CopyPrefix + source.name);
    var renamed := withCopy[k := withCopy[k].(name := source.name)];
    assert PlaceCopy(sheets, source) == Placed(renamed + [CopyOf(renamed[k])], k, |sheets| + 1);
    assert withCopy[k] == sheets[k];
  }

  /** Copying a rectangle of a sheet whose cells are the target's own leaves the target's cells as they are. */
  lemma CopyCellsOfSame(target: Sheet, copy: Sheet, r: Rect)
    requires copy.cells == target.cells
    ensures CopyCells(target, copy, r) == target
  {
    var t := CopyCells(target, copy, r);
    assert forall c :: c in t.cells <==> c in target.cells;
    assert t.cells == target.cells;
  }

  /**
   * A leftover "Copy of X" from an earlier failed run, and no sheet X: a
   * whole-sheet cycle that goes through renames the leftover to X, which keeps
   * its stale cells, and the fresh copy of the source stays behind under the
   * name "Copy of X"; every other sheet is untouched.
   */
  lemma LeftoverCopyTakesOver(sheets: seq<Sheet>, source: Sheet, prots: Option<seq<Protection>>, may: bool)
    requires !NameExists(sheets, source.name) && NameExists(sheets, CopyPrefix + source.name)
    requires CycleSpec(sheets, source, None, prots, may).status.Ok?
    ensures var o := CycleSpec(sheets, source, None, prots, may);
      var k := FindByName(sheets, CopyPrefix + source.name);
      && |o.sheets| == |sheets| + 1
      && o.sheets[k].name == source.name && o.sheets[k].cells == sheets[k].cells
      && o.sheets[|sheets|] == CopyOf(source)
      && forall j :: 0 <= j < |sheets| && j != k ==> o.sheets[j] == sheets[j]
  {
    var p := PlaceCopy(sheets, source);
    var k := FindByName(sheets, CopyPrefix + source.name);
    LeftoverPlacement(sheets, source);
    var moved := WholeCopied(p.sheets[k], p.sheets[p.copy], source);
    assert moved.status.Ok?;
    CopyCellsOfSame(p.sheets[k], p.sheets[p.copy], WholeRect(source));
    assert moved.sheet.cells == sheets[k].cells;
    var guarded := ProtectionsApplied(moved.sheet, false, prots, may);
    ProtectionsKeepContent(moved.sheet, false, prots, may);
    var after := p.sheets[k := guarded.sheet];
    var o := CycleSpec(sheets, source, None, prots, may);
    assert o.sheets == RemoveAt(after, p.copy);
    assert o.sheets[k] == guarded.sheet;
  }

  // ---------------------------------------------------------------------------
  // One spreadsheet, every source sheet

  /** A spreadsheet run that went through: its first cycle went through, and the rest continued from there. */
  lemma TargetFirstOk(sheets: seq<Sheet>, sources: seq<Sheet>, ranges: Option<seq<Rect>>, prots: Option<seq<Protection>>, may: bool)
    requires sources != [] && TargetSpec(sheets, sources, ranges, prots, may).status.Ok?
    ensures var c := CycleSpec(sheets, sources[0], ranges, prots, may);
      && c.status.Ok?
      && TargetSpec(sheets, sources, ranges, prots, may).sheets == TargetSpec(c.sheets, sources[1..], ranges, prots, may).sheets
      && TargetSpec(c.sheets, sources[1..], ranges, prots, may).status.Ok?
  {
    TargetStep(sheets, sources, 0, ranges, prots, may);
    assert sources[0..] == sources;
  }

  /**
   * When every source sheet went through, the spreadsheet holds a sheet named
   * after each of them and still holds every name it held before.
   */
  lemma {:induction false} TargetHoldsSources(sheets: seq<Sheet>, sources: seq<Sheet>, ranges: Option<seq<Rect>>,
                                               prots: Option<seq<Protection>>, may: bool)
    requires TargetSpec(sheets, sources, ranges, prots, may).status.Ok?
    ensures var o := TargetSpec(sheets, sources, ranges, prots, may);
      && (forall n :: NameExists(sheets, n) ==> NameExists(o.sheets, n))
      && (forall i :: 0 <= i < |sources| ==> NameExists(o.sheets, sources[i].name))
    decreases |sources|
  {
    if sources != [] {
      TargetFirstOk(sheets, sources, ranges, prots, may);
      var c := CycleSpec(sheets, sources[0], ranges, prots, may);
      CycleNames(sheets, sources[0], ranges, prots, may);
      TargetHoldsSources(c.sheets, sources[1..], ranges, prots, may);
      forall n | NameExists(sheets, n)
        ensures NameExists(c.sheets, n)
      {
        NameExistsIffInNames(sheets, n);
        NameExistsIffInNames(c.sheets, n);
      }
      forall i | 0 <= i < |sources|
        ensures NameExists(TargetSpec(sheets, sources, ranges, prots, may).sheets, sources[i].name)
      {
        if i > 0 {
          assert sources[i] == sources[1..][i - 1];
        }
      }
    }
  }

  // ---------------------------------------------------------------------------
  // The folder

  /**
   * The folder run is the spreadsheets in order: when it went through, each one
   * is its own one-spreadsheet run; when it raised, the spreadsheets before the
   * failing one went through, the failing one holds what its run left, and the
   * ones after it are untouched.
   */
  lemma {:induction false} FolderStopsAtFirstError(states: seq<seq<Sheet>>, mays: seq<bool>, sources: seq<Sheet>,
                                                    ranges: Option<seq<Rect>>, prots: Option<seq<Protection>>)
    requires |mays| == |states|
    ensures var o := FolderSpec(states, mays, sources, ranges, prots);
      && (o.status.Ok? ==> forall j :: 0 <= j < |states| ==>
            var r := TargetSpec(states[j], sources, ranges, prots, mays[j]);
            r.status.Ok? && o.states[j] == r.sheets)
      && (o.status.Thrown? ==> exists i :: 0 <= i < |states| && FailsAt(states, mays, sources, ranges, prots, o, i))
    decreases |states|
  {
    if states != [] {
      FolderStep(states, mays, 0, sources, ranges, prots);
      assert states[0..] == states && mays[0..] == mays;
      var o := FolderSpec(states, mays, sources, ranges, prots);
      var first := TargetSpec(states[0], sources, ranges, prots, mays[0]);
      if first.status.Thrown? {
        assert FailsAt(states, mays, sources, ranges, prots, o, 0);
      } else {
        var rest := FolderSpec(states[1..], mays[1..], sources, ranges, prots);
        FolderStopsAtFirstError(states[1..], mays[1..], sources, ranges, prots);
        assert o.states == [first.sheets] + rest.states;
        if o.status.Ok? {
          forall j | 0 <= j < |states|
            ensures var r := TargetSpec(states[j], sources, ranges, prots, mays[j]);
              r.status.Ok? && o.states[j] == r.sheets
          {
            if j > 0 {
              assert states[j] == states[1..][j - 1] && mays[j] == mays[1..][j - 1];
            }
          }
        } else {
          var i :| 0 <= i < |states| - 1 && FailsAt(states[1..], mays[1..], sources, ranges, prots, rest, i);
          FailsAtCons(states, mays, sources, ranges, prots, o, rest, i);
        }
      }
    }
  }

  /** A failure in the rest of the folder, behind a first spreadsheet that went through. */
  lemma FailsAtCons(states: seq<seq<Sheet>>, mays: seq<bool>, sources: seq<Sheet>, ranges: Option<seq<Rect>>,
                    prots: Option<seq<Protection>>, o: FolderOutcome, rest: FolderOutcome, i: nat)
    requires |mays| == |states| && states != [] && |rest.states| == |states| - 1 && i < |states| - 1
    requires var first := TargetSpec(states[0], sources, ranges, prots, mays[0]);
      first.status.Ok? && o.states == [first.sheets] + rest.states && o.status == rest.status
    requires FailsAt(states[1..], mays[1..], sources, ranges, prots, rest, i)
    ensures FailsAt(states, mays, sources, ranges, prots, o, i + 1)
  {
    forall j | 0 <= j < |states| - 1
      ensures states[1..][j] == states[j + 1] && mays[1..][j] == mays[j + 1]
    {
    }
  }

  /** The run `o` went through the spreadsheets before `i`, raised in `i`, and left the rest alone. */
  predicate FailsAt(states: seq<seq<Sheet>>, mays: seq<bool>, sources: seq<Sheet>, ranges: Option<seq<Rect>>,
                    prots: Option<seq<Protection>>, o: FolderOutcome, i: nat)
    requires |mays| == |states| == |o.states| && i < |states|
  {
    var failed := TargetSpec(states[i], sources, ranges, prots, mays[i]);
    && failed.status.Thrown? && o.status == failed.status && o.states[i] == failed.sheets
    && (forall j :: 0 <= j < i ==>
          var r := TargetSpec(states[j], sources, ranges, prots, mays[j]); r.status.Ok? && o.states[j] == r.sheets)
    && (forall j :: i < j < |states| ==> o.states[j] == states[j])
  }
}
