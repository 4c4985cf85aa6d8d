/**
 * `updateSheetsAndRanges` (spreadsheetFunctions.js:199-283): every sheet of the
 * master is pushed into every spreadsheet of the target folder.
 *
 * One cycle, for one target spreadsheet and one source sheet:
 *   1. the source is copied into the target ("Copy of X"); when the target has
 *      no sheet X, the first "Copy of X" is renamed to X and copied once more;
 *   2. either each listed range, or the whole grid, is copied from the copy
 *      into the sheet X (after trimming X to the copy's grid);
 *   3. the protections handed in are re-applied to X;
 *   4. the copy is deleted.
 * An exception anywhere ends the whole run: nothing catches it before the
 * caller, so the targets after it are not visited and a copy made in the
 * failing cycle stays behind.
 */
module Propagation {
  import opened Wrappers
  import opened Host
  import opened DriveListing
  import opened MainUtilities
  import opened SpreadsheetFunctions

  // ---------------------------------------------------------------------------
  // Step 1: putting the source next to the sheet to update

  /** The sheets once the source has been copied in, the index of the sheet to update and that of the copy. */
  datatype Placed = Placed(sheets: seq<Sheet>, target: nat, copy: nat)

  /** Listing one sheet for `removeCopyOfPrefixFromSheets` renames that sheet once. */
  lemma RenameOne(s: seq<Sheet>, k: nat)
    requires k < |s|
    ensures RenamedBy(s, [k]) == s[k := s[k].(name := StripCopyOf(s[k].name))]
  {
    assert [] + [k] == [k];
    RenamedByOneMore(s, [], k);
    assert RenamedBy(s, []) == s;
  }

  /**
   * Lines 210-219. The copy is made first, so the name test sees it. With no
   * sheet X, the first sheet named "Copy of X" loses its prefix (and so is
   * named X: `StripCopyOfRestores`), becomes the sheet to update, and a fresh
   * copy of it is made.
   */
  function PlaceCopy(sheets: seq<Sheet>, source: Sheet): (p: Placed)
    ensures p.target < p.copy == |p.sheets| - 1
    ensures p.sheets[p.target].name == source.name
  {
    var withCopy := sheets + [CopyOf(source)];
    if NameExists(withCopy, source.name) then
      Placed(withCopy, FindByName(withCopy, source.name), |sheets|)
    else
      assert withCopy[|sheets|].name == CopyPrefix + source.name;
      var k := FindByName(withCopy, CopyPrefix + source.name);
      var renamed := withCopy[k := withCopy[k].(name := source.name)];
      Placed(renamed + [CopyOf(renamed[k])], k, |sheets| + 1)
  }

  method PlaceSourceCopy(ss: Spreadsheet, source: Sheet) returns (target: nat, copy: nat)
    modifies ss
    ensures Placed(ss.sheets, target, copy) == PlaceCopy(old(ss.sheets), source)
  {
    ss.sheets := ss.sheets + [CopyOf(source)];
    copy := |ss.sheets| - 1;
    var found := SheetNameExistsInSpreadsheet(source.name, ss);
    if found {
      target := FindByName(ss.sheets, source.name);
    } else {
      ghost var withCopy := ss.sheets;
      assert ss.sheets[copy].name == CopyPrefix + source.name;
      var k := FindByName(ss.sheets, CopyPrefix + source.name);
      RenameOne(ss.sheets, k);
      StripCopyOfRestores(source.name);
      RemoveCopyOfPrefixFromSheets(ss, [k]);
      assert ss.sheets == withCopy[k := withCopy[k].(name := source.name)];
      assert ss.sheets[k].name == source.name;
      assert forall j :: 0 <= j < k ==> ss.sheets[j] == withCopy[j];
      target := FindByName(ss.sheets, source.name);
      ss.sheets := ss.sheets + [CopyOf(ss.sheets[target])];
      copy := |ss.sheets| - 1;
    }
  }

  // ---------------------------------------------------------------------------
  // Step 2: moving the contents

  /**
   * Lines 221-228: each range in turn is copied from the copy into the target;
   * a range outside either grid raises, after the earlier ones were copied.
   */
  function RangesCopied(target: Sheet, copy: Sheet, rects: seq<Rect>): (o: SheetOutcome)
    ensures o.alerts == [] && o.sheet == target.(cells := o.sheet.cells)
    decreases |rects|
  {
    if rects == [] then SheetOutcome(target, [], Ok)
    else if !Fits(rects[0], copy) || !Fits(rects[0], target) then SheetOutcome(target, [], Thrown(OutOfBounds))
    else RangesCopied(CopyCells(target, copy, rects[0]), copy, rects[1..])
  }

  method CopyRangesInto(ss: Spreadsheet, target: nat, copy: nat, rects: seq<Rect>) returns (status: Status)
    requires target < |ss.sheets| && copy < |ss.sheets| && target != copy
    modifies ss
    ensures var o := RangesCopied(old(ss.sheets[target]), old(ss.sheets[copy]), rects);
      ss.sheets == old(ss.sheets)[target := o.sheet] && status == o.status
  {
    ghost var goal := RangesCopied(ss.sheets[target], ss.sheets[copy], rects);
    var i := 0;
    while i < |rects|
      invariant 0 <= i <= |rects|
      invariant |ss.sheets| == |old(ss.sheets)| && ss.sheets == old(ss.sheets)[target := ss.sheets[target]]
      invariant goal == RangesCopied(ss.sheets[target], ss.sheets[copy], rects[i..])
    {
      assert rects[i..][0] == rects[i] && rects[i..][1..] == rects[i + 1..];
      var from := ss.sheets[copy];
      var to := ss.sheets[target];
      if !Fits(rects[i], from) || !Fits(rects[i], to) {
        return Thrown(OutOfBounds);
      }
      ss.sheets := ss.sheets[target := CopyCells(to, from, rects[i])];
      i := i + 1;
    }
    return Ok;
  }

  /**
   * Lines 229-250: the source's grid is read from the copy, the target loses
   * the rows and columns beyond the copy's, and the grid is copied across; a
   * target smaller than the source raises when its range is asked for.
   */
  function WholeCopied(target: Sheet, copy: Sheet, source: Sheet): (o: SheetOutcome)
    ensures o.alerts == []
    ensures o.sheet.name == target.name && o.sheet.protection == target.protection
    ensures o.sheet.rangeProtections == target.rangeProtections
  {
    var whole := WholeRect(source);
    if !Fits(whole, copy) then SheetOutcome(target, [], Thrown(OutOfBounds))
    else
      var rowsCut := if target.rows > copy.rows then DeleteRowsAfter(target, copy.rows) else target;
      var cut := if rowsCut.cols > copy.cols then DeleteColumnsAfter(rowsCut, copy.cols) else rowsCut;
      if !Fits(whole, cut) then SheetOutcome(cut, [], Thrown(OutOfBounds))
      else SheetOutcome(CopyCells(cut, copy, whole), [], Ok)
  }

  method CopyWholeInto(ss: Spreadsheet, target: nat, copy: nat, source: Sheet) returns (status: Status)
    requires target < |ss.sheets| && copy < |ss.sheets| && target != copy
    modifies ss
    ensures var o := WholeCopied(old(ss.sheets[target]), old(ss.sheets[copy]), source);
      ss.sheets == old(ss.sheets)[target := o.sheet] && status == o.status
  {
    var from := ss.sheets[copy];
    var whole := Rect(1, 1, source.rows, source.cols);
    if !Fits(whole, from) {
      return Thrown(OutOfBounds);
    }
    var to := ss.sheets[target];
    if to.rows > from.rows {
      to := DeleteRowsAfter(to, from.rows);
      ss.sheets := ss.sheets[target := to];
    }
    if to.cols > from.cols {
      to := DeleteColumnsAfter(to, from.cols);
      ss.sheets := ss.sheets[target := to];
    }
    if !Fits(whole, to) {
      return Thrown(OutOfBounds);
    }
    ss.sheets := ss.sheets[target := CopyCells(to, from, whole)];
    return Ok;
  }

  // ---------------------------------------------------------------------------
  // Step 3: protections

  /**
   * Lines 255-266, one protection. With ranges, its A1 range is protected on the
   * target with its editors; without, the target is sheet-protected when it
   * has the protection's sheet name.
   */
  function ProtectOne(sheet: Sheet, rangeMode: bool, p: Protection, may: bool): SheetOutcome
  {
    if rangeMode then
      if !Fits(p.rect, sheet) then SheetOutcome(sheet, [], Thrown(OutOfBounds))
      else RangeProtectSpec(sheet, [p.rect], p.editors, may)
    else if sheet.name != p.sheetName then SheetOutcome(sheet, [], Ok)
    else if !may then SheetOutcome(sheet, [], Thrown(PermissionDenied))
    else SheetOutcome(sheet.(protection := Some(p.editors)), [], Ok)
  }

  /** Lines 254-267: the protections in turn, stopping at the first exception. */
  function ProtectEach(sheet: Sheet, rangeMode: bool, ps: seq<Protection>, may: bool): SheetOutcome
    decreases |ps|, 2
  {
    if ps == [] then SheetOutcome(sheet, [], Ok) else ProtectFirst(sheet, rangeMode, ps, may)
  }

  /**
   * The non-empty case, forwarded to the step below. The extra layer between the
   * fold and its step keeps the verifier from unfolding the recursion more than
   * one level at a time (see the `decreases ..., 2/1/0` ordering).
   */
  function ProtectFirst(sheet: Sheet, rangeMode: bool, ps: seq<Protection>, may: bool): SheetOutcome
    requires ps != []
    decreases |ps|, 1
  {
    ProtectRest(sheet, rangeMode, ps, may)
  }

  /** The first protection, then, if it went through, the others. */
  function ProtectRest(sheet: Sheet, rangeMode: bool, ps: seq<Protection>, may: bool): SheetOutcome
    requires ps != []
    decreases |ps|, 0
  {
    var o := ProtectOne(sheet, rangeMode, ps[0], may);
    if o.status.Thrown? then o
    else Prepend(o.alerts, ProtectEach(o.sheet, rangeMode, ps[1..], may))
  }

  /**
   * Lines 252-278. No protections argument: nothing happens. An empty array
   * (still truthy): with ranges, `ranges[range]` names a variable that is not in
   * scope and raises; without, the target's sheet protection is removed.
   */
  function ProtectionsApplied(sheet: Sheet, rangeMode: bool, prots: Option<seq<Protection>>, may: bool): SheetOutcome
  {
    match prots
    case None => SheetOutcome(sheet, [], Ok)
    case Some(ps) =>
      if ps != [] then ProtectEach(sheet, rangeMode, ps, may)
      else if rangeMode then SheetOutcome(sheet, [], Thrown(ReferenceError))
      else if sheet.protection.None? then SheetOutcome(sheet, [], Ok)
      else if !may then SheetOutcome(sheet, [], Thrown(PermissionDenied))
      else SheetOutcome(sheet.(protection := None), [], Ok)
  }

  lemma ProtectEachStep(cur: Sheet, rangeMode: bool, ps: seq<Protection>, i: nat, may: bool)
    requires i < |ps|
    ensures var o := ProtectOne(cur, rangeMode, ps[i], may);
      ProtectEach(cur, rangeMode, ps[i..], may)
        == if o.status.Thrown? then o else Prepend(o.alerts, ProtectEach(o.sheet, rangeMode, ps[i + 1..], may))
  {
    assert ps[i..][0] == ps[i] && ps[i..][1..] == ps[i + 1..];
    assert ProtectEach(cur, rangeMode, ps[i..], may) == ProtectFirst(cur, rangeMode, ps[i..], may);
    assert ProtectFirst(cur, rangeMode, ps[i..], may) == ProtectRest(cur, rangeMode, ps[i..], may);
  }

  method ProtectWith(ss: Spreadsheet, target: nat, rangeMode: bool, p: Protection, ui: Ui) returns (status: Status)
    requires target < |ss.sheets|
    modifies ss, ui
    ensures ui.prompts == old(ui.prompts)
    ensures var o := ProtectOne(old(ss.sheets[target]), rangeMode, p, ss.mayProtect);
      ss.sheets == old(ss.sheets)[target := o.sheet] && ui.alerts == old(ui.alerts) + o.alerts && status == o.status
  {
    if rangeMode {
      if !Fits(p.rect, ss.sheets[target]) {
        return Thrown(OutOfBounds);
      }
      status := SetRangeProtections(p.editors, ss, target, [p.rect], ui);
    } else if ss.sheets[target].name == p.sheetName {
      ghost var before := ss.sheets;
      status := SetSheetProtections(p.editors, ss, [target]);
      assert ProtectSheets(before, p.editors, [target]) == before[target := before[target].(protection := Some(p.editors))];
    } else {
      status := Ok;
    }
  }

  /** One pass of the protections loop (lines 255-266), stated against `ProtectEach`. */
  method ProtectNext(ss: Spreadsheet, target: nat, rangeMode: bool, ps: seq<Protection>, i: nat, ui: Ui)
    returns (status: Status, ghost shown: seq<string>)
    requires target < |ss.sheets| && i < |ps|
    modifies ss, ui
    ensures ui.prompts == old(ui.prompts) && ui.alerts == old(ui.alerts) + shown
    ensures |ss.sheets| == |old(ss.sheets)| && ss.sheets == old(ss.sheets)[target := ss.sheets[target]]
    ensures ProtectEach(old(ss.sheets[target]), rangeMode, ps[i..], ss.mayProtect)
      == if status.Thrown? then SheetOutcome(ss.sheets[target], shown, status)
         else Prepend(shown, ProtectEach(ss.sheets[target], rangeMode, ps[i + 1..], ss.mayProtect))
  {
    ProtectEachStep(ss.sheets[target], rangeMode, ps, i, ss.mayProtect);
    ghost var o := ProtectOne(ss.sheets[target], rangeMode, ps[i], ss.mayProtect);
    status := ProtectWith(ss, target, rangeMode, ps[i], ui);
    shown := o.alerts;
  }

  method ProtectAll(ss: Spreadsheet, target: nat, rangeMode: bool, ps: seq<Protection>, ui: Ui) returns (status: Status)
    requires target < |ss.sheets|
    modifies ss, ui
    ensures ui.prompts == old(ui.prompts)
    ensures var o := ProtectEach(old(ss.sheets[target]), rangeMode, ps, ss.mayProtect);
      ss.sheets == old(ss.sheets)[target := o.sheet] && ui.alerts == old(ui.alerts) + o.alerts && status == o.status
  {
    ghost var goal := ProtectEach(ss.sheets[target], rangeMode, ps, ss.mayProtect);
    ghost var alerted: seq<string> := [];
    var i := 0;
    status := Ok;
    while i < |ps| && status.Ok?
      invariant 0 <= i <= |ps|
      invariant ui.prompts == old(ui.prompts)
      invariant |ss.sheets| == |old(ss.sheets)| && ss.sheets == old(ss.sheets)[target := ss.sheets[target]]
      invariant ui.alerts == old(ui.alerts) + alerted
      invariant status.Ok? ==> goal == Prepend(alerted, ProtectEach(ss.sheets[target], rangeMode, ps[i..], ss.mayProtect))
      invariant status.Thrown? ==> goal == SheetOutcome(ss.sheets[target], alerted, status)
    {
      ghost var shown;
      status, shown := ProtectNext(ss, target, rangeMode, ps, i, ui);
      ghost var rest := if status.Thrown? then SheetOutcome(ss.sheets[target], [], status)
                        else ProtectEach(ss.sheets[target], rangeMode, ps[i + 1..], ss.mayProtect);
      PrependTwice(alerted, shown, rest);
      alerted := alerted + shown;
      i := i + 1;
    }
    assert status.Ok? ==> ps[i..] == [];
  }

  method ApplyProtections(ss: Spreadsheet, target: nat, rangeMode: bool, prots: Option<seq<Protection>>, ui: Ui)
    returns (status: Status)
    requires target < |ss.sheets|
    modifies ss, ui
    ensures ui.prompts == old(ui.prompts)
    ensures var o := ProtectionsApplied(old(ss.sheets[target]), rangeMode, prots, ss.mayProtect);
      ss.sheets == old(ss.sheets)[target := o.sheet] && ui.alerts == old(ui.alerts) + o.alerts && status == o.status
  {
    if prots.None? {
      return Ok;
    }
    var ps := prots.value;
    if |ps| > 0 {
      status := ProtectAll(ss, target, rangeMode, ps, ui);
      return;
    }
    if rangeMode {
      return Thrown(ReferenceError);
    }
    if ss.sheets[target].protection.Some? {
      if !ss.mayProtect {
        return Thrown(PermissionDenied);
      }
      ss.sheets := ss.sheets[target := ss.sheets[target].(protection := None)];
    }
    return Ok;
  }

  // ---------------------------------------------------------------------------
  // One cycle, one target, the whole folder

  function After(alerts: seq<string>, o: Outcome): Outcome
  {
    Outcome(o.sheets, alerts + o.alerts, o.status)
  }

  lemma AfterTwice(a: seq<string>, b: seq<string>, o: Outcome)
    ensures After(a, After(b, o)) == After(a + b, o)
  {
    assert a + (b + o.alerts) == (a + b) + o.alerts;
  }

  /** The sheets of one spreadsheet after one (target, source) cycle. `ranges` is None when no range was given. */
  function CycleSpec(sheets: seq<Sheet>, source: Sheet, ranges: Option<seq<Rect>>, prots: Option<seq<Protection>>, may: bool)
    : Outcome
  {
    var p := PlaceCopy(sheets, source);
    var moved :=
      if ranges.Some? then RangesCopied(p.sheets[p.target], p.sheets[p.copy], ranges.value)
      else WholeCopied(p.sheets[p.target], p.sheets[p.copy], source);
    if moved.status.Thrown? then Outcome(p.sheets[p.target := moved.sheet], [], moved.status)
    else
      var guarded := ProtectionsApplied(moved.sheet, ranges.Some?, prots, may);
      var after := p.sheets[p.target := guarded.sheet];
      if guarded.status.Thrown? then Outcome(after, guarded.alerts, guarded.status)
      else Outcome(RemoveAt(after, p.copy), guarded.alerts, Ok)
  }

  /** The body of the inner loop (lines 210-280). */
  method UpdatePair(ss: Spreadsheet, source: Sheet, ranges: Option<seq<Rect>>, prots: Option<seq<Protection>>, ui: Ui)
    returns (status: Status)
    modifies ss, ui
    ensures ui.prompts == old(ui.prompts)
    ensures var o := CycleSpec(old(ss.sheets), source, ranges, prots, ss.mayProtect);
      ss.sheets == o.sheets && ui.alerts == old(ui.alerts) + o.alerts && status == o.status
  {
    var target, copy := PlaceSourceCopy(ss, source);
    ghost var placed := ss.sheets;
    if ranges.Some? {
      status := CopyRangesInto(ss, target, copy, ranges.value);
    } else {
      status := CopyWholeInto(ss, target, copy, source);
    }
    if status.Thrown? {
      return;
    }
    ghost var moved := ss.sheets[target];
    status := ApplyProtections(ss, target, ranges.Some?, prots, ui);
    UpdateTwice(placed, target, moved, ss.sheets[target]);
    if status.Thrown? {
      return;
    }
    // deleteSheet(copiedSourceSheet): the spreadsheet still holds the sheet to update besides it
    ss.sheets := RemoveAt(ss.sheets, copy);
    status := Ok;
  }

  /** The inner loop (lines 209-281) for one spreadsheet: each source sheet in turn. */
  function TargetSpec(sheets: seq<Sheet>, sources: seq<Sheet>, ranges: Option<seq<Rect>>, prots: Option<seq<Protection>>, may: bool)
    : Outcome
    decreases |sources|, 2
  {
    if sources == [] then Outcome(sheets, [], Ok) else FirstThenRest(sheets, sources, ranges, prots, may)
  }

  function FirstThenRest(sheets: seq<Sheet>, sources: seq<Sheet>, ranges: Option<seq<Rect>>, prots: Option<seq<Protection>>, may: bool)
    : Outcome
    requires sources != []
    decreases |sources|, 1
  {
    ThenRest(sheets, sources, ranges, prots, may)
  }

  function ThenRest(sheets: seq<Sheet>, sources: seq<Sheet>, ranges: Option<seq<Rect>>, prots: Option<seq<Protection>>, may: bool)
    : Outcome
    requires sources != []
    decreases |sources|, 0
  {
    var o := CycleSpec(sheets, sources[0], ranges, prots, may);
    if o.status.Thrown? then o
    else After(o.alerts, TargetSpec(o.sheets, sources[1..], ranges, prots, may))
  }

  lemma TargetStep(cur: seq<Sheet>, sources: seq<Sheet>, i: nat, ranges: Option<seq<Rect>>, prots: Option<seq<Protection>>, may: bool)
    requires i < |sources|
    ensures var o := CycleSpec(cur, sources[i], ranges, prots, may);
      TargetSpec(cur, sources[i..], ranges, prots, may)
        == if o.status.Thrown? then o else After(o.alerts, TargetSpec(o.sheets, sources[i + 1..], ranges, prots, may))
  {
    assert sources[i..][0] == sources[i] && sources[i..][1..] == sources[i + 1..];
    assert TargetSpec(cur, sources[i..], ranges, prots, may) == FirstThenRest(cur, sources[i..], ranges, prots, may);
    assert FirstThenRest(cur, sources[i..], ranges, prots, may) == ThenRest(cur, sources[i..], ranges, prots, may);
  }

  /** One pass of the inner loop (lines 210-280), stated against `TargetSpec`. */
  method UpdateNext(ss: Spreadsheet, sources: seq<Sheet>, i: nat, ranges: Option<seq<Rect>>, prots: Option<seq<Protection>>, ui: Ui)
    returns (status: Status, ghost shown: seq<string>)
    requires i < |sources|
    modifies ss, ui
    ensures ui.prompts == old(ui.prompts) && ui.alerts == old(ui.alerts) + shown
    ensures TargetSpec(old(ss.sheets), sources[i..], ranges, prots, ss.mayProtect)
      == if status.Thrown? then Outcome(ss.sheets, shown, status)
         else After(shown, TargetSpec(ss.sheets, sources[i + 1..], ranges, prots, ss.mayProtect))
  {
    TargetStep(ss.sheets, sources, i, ranges, prots, ss.mayProtect);
    ghost var o := CycleSpec(ss.sheets, sources[i], ranges, prots, ss.mayProtect);
    status := UpdatePair(ss, sources[i], ranges, prots, ui);
    shown := o.alerts;
  }

  method UpdateBook(ss: Spreadsheet, sources: seq<Sheet>, ranges: Option<seq<Rect>>, prots: Option<seq<Protection>>, ui: Ui)
    returns (status: Status)
    modifies ss, ui
    ensures ui.prompts == old(ui.prompts)
    ensures var o := TargetSpec(old(ss.sheets), sources, ranges, prots, ss.mayProtect);
      ss.sheets == o.sheets && ui.alerts == old(ui.alerts) + o.alerts && status == o.status
  {
    ghost var goal := TargetSpec(ss.sheets, sources, ranges, prots, ss.mayProtect);
    ghost var alerted: seq<string> := [];
    var i := 0;
    status := Ok;
    while i < |sources| && status.Ok?
      invariant 0 <= i <= |sources|
      invariant ui.prompts == old(ui.prompts)
      invariant ui.alerts == old(ui.alerts) + alerted
      invariant status.Ok? ==> goal == After(alerted, TargetSpec(ss.sheets, sources[i..], ranges, prots, ss.mayProtect))
      invariant status.Thrown? ==> goal == Outcome(ss.sheets, alerted, status)
    {
      ghost var shown;
      status, shown := UpdateNext(ss, sources, i, ranges, prots, ui);
      ghost var rest := if status.Thrown? then Outcome(ss.sheets, [], status)
                        else TargetSpec(ss.sheets, sources[i + 1..], ranges, prots, ss.mayProtect);
      AfterTwice(alerted, shown, rest);
      alerted := alerted + shown;
      i := i + 1;
    }
    assert status.Ok? ==> sources[i..] == [];
  }

  /** The sheets of every spreadsheet of the folder, the alerts shown, and how the run ended. */
  datatype FolderOutcome = FolderOutcome(states: seq<seq<Sheet>>, alerts: seq<string>, status: Status)

  /**
   * The outer loop (lines 208-282): the spreadsheets in folder order; the first
   * exception leaves the later ones as they were.
   */
  function FolderSpec(states: seq<seq<Sheet>>, mays: seq<bool>, sources: seq<Sheet>, ranges: Option<seq<Rect>>,
                      prots: Option<seq<Protection>>): (r: FolderOutcome)
    requires |mays| == |states|
    ensures |r.states| == |states|
    decreases |states|, 2
  {
    if states == [] then FolderOutcome([], [], Ok) else FolderFirst(states, mays, sources, ranges, prots)
  }

  /**
   * The non-empty case, forwarded to the step below. The extra layer between the
   * fold and its step keeps the verifier from unfolding the recursion more than
   * one level at a time (see the `decreases ..., 2/1/0` ordering).
   */
  function FolderFirst(states: seq<seq<Sheet>>, mays: seq<bool>, sources: seq<Sheet>, ranges: Option<seq<Rect>>,
                       prots: Option<seq<Protection>>): (r: FolderOutcome)
    requires |mays| == |states| && states != []
    ensures |r.states| == |states|
    decreases |states|, 1
  {
    FolderRest(states, mays, sources, ranges, prots)
  }

  /** The first spreadsheet, then, if it went through, the others. */
  function FolderRest(states: seq<seq<Sheet>>, mays: seq<bool>, sources: seq<Sheet>, ranges: Option<seq<Rect>>,
                      prots: Option<seq<Protection>>): (r: FolderOutcome)
    requires |mays| == |states| && states != []
    ensures |r.states| == |states|
    decreases |states|, 0
  {
    var o := TargetSpec(states[0], sources, ranges, prots, mays[0]);
    if o.status.Thrown? then FolderOutcome([o.sheets] + states[1..], o.alerts, o.status)
    else
      var rest := FolderSpec(states[1..], mays[1..], sources, ranges, prots);
      FolderOutcome([o.sheets] + rest.states, o.alerts + rest.alerts, rest.status)
  }

  function Behind(done: seq<seq<Sheet>>, alerts: seq<string>, r: FolderOutcome): FolderOutcome
  {
    FolderOutcome(done + r.states, alerts + r.alerts, r.status)
  }

  lemma FolderStep(states: seq<seq<Sheet>>, mays: seq<bool>, i: nat, sources: seq<Sheet>, ranges: Option<seq<Rect>>,
                   prots: Option<seq<Protection>>)
    requires |mays| == |states| && i < |states|
    ensures var o := TargetSpec(states[i], sources, ranges, prots, mays[i]);
      FolderSpec(states[i..], mays[i..], sources, ranges, prots)
        == if o.status.Thrown? then FolderOutcome([o.sheets] + states[i + 1..], o.alerts, o.status)
           else Behind([o.sheets], o.alerts, FolderSpec(states[i + 1..], mays[i + 1..], sources, ranges, prots))
  {
    assert states[i..][0] == states[i] && states[i..][1..] == states[i + 1..];
    assert mays[i..][0] == mays[i] && mays[i..][1..] == mays[i + 1..];
    assert FolderSpec(states[i..], mays[i..], sources, ranges, prots) == FolderFirst(states[i..], mays[i..], sources, ranges, prots);
    assert FolderFirst(states[i..], mays[i..], sources, ranges, prots) == FolderRest(states[i..], mays[i..], sources, ranges, prots);
  }

  lemma BehindTwice(done: seq<seq<Sheet>>, alerts: seq<string>, d: seq<Sheet>, a: seq<string>, r: FolderOutcome)
    ensures Behind(done, alerts, Behind([d], a, r)) == Behind(done + [d], alerts + a, r)
  {
    assert done + ([d] + r.states) == (done + [d]) + r.states;
    assert alerts + (a + r.alerts) == (alerts + a) + r.alerts;
  }

  /** The sheets of each spreadsheet, in order. */
  ghost function States(books: seq<Spreadsheet>): (r: seq<seq<Sheet>>)
    reads books
    ensures |r| == |books| && forall k :: 0 <= k < |books| ==> r[k] == books[k].sheets
  {
    seq(|books|, k reads books requires 0 <= k < |books| => books[k].sheets)
  }

  /** Whether the acting account may change each spreadsheet's protections. */
  function Mays(books: seq<Spreadsheet>): (r: seq<bool>)
    ensures |r| == |books| && forall k :: 0 <= k < |books| ==> r[k] == books[k].mayProtect
  {
    seq(|books|, k requires 0 <= k < |books| => books[k].mayProtect)
  }

  /** One pass of the outer loop (lines 208-282) for spreadsheet `books[i]`, stated against `FolderSpec`. */
  method UpdateNextBook(books: seq<Spreadsheet>, i: nat, ghost before: seq<seq<Sheet>>, ghost mays: seq<bool>, sources: seq<Sheet>,
                        ranges: Option<seq<Rect>>, prots: Option<seq<Protection>>, ui: Ui)
    returns (status: Status, ghost shown: seq<string>)
    requires i < |books| == |before| == |mays|
    requires books[i].sheets == before[i] && books[i].mayProtect == mays[i]
    modifies books[i], ui
    ensures ui.prompts == old(ui.prompts) && ui.alerts == old(ui.alerts) + shown
    ensures FolderSpec(before[i..], mays[i..], sources, ranges, prots)
      == if status.Thrown? then FolderOutcome([books[i].sheets] + before[i + 1..], shown, status)
         else Behind([books[i].sheets], shown, FolderSpec(before[i + 1..], mays[i + 1..], sources, ranges, prots))
  {
    FolderStep(before, mays, i, sources, ranges, prots);
    ghost var o := TargetSpec(before[i], sources, ranges, prots, mays[i]);
    status := UpdateBook(books[i], sources, ranges, prots, ui);
    shown := o.alerts;
  }

  /** The outer loop (lines 208-282): each spreadsheet of the folder in turn, until one raises. */
  method UpdateBooks(books: seq<Spreadsheet>, ghost before: seq<seq<Sheet>>, ghost mays: seq<bool>, sources: seq<Sheet>,
                     ranges: Option<seq<Rect>>, prots: Option<seq<Protection>>, ui: Ui)
    returns (status: Status)
    requires Distinct(books) && |before| == |mays| == |books|
    requires forall k :: 0 <= k < |books| ==> books[k].sheets == before[k] && books[k].mayProtect == mays[k]
    modifies (set b | b in books), ui
    ensures ui.prompts == old(ui.prompts)
    ensures var o := FolderSpec(before, mays, sources, ranges, prots);
      && (forall k :: 0 <= k < |books| ==> books[k].sheets == o.states[k])
      && ui.alerts == old(ui.alerts) + o.alerts && status == o.status
  {
    ghost var goal := FolderSpec(before, mays, sources, ranges, prots);
    ghost var done: seq<seq<Sheet>> := [];
    ghost var alerted: seq<string> := [];
    var i := 0;
    status := Ok;
    while i < |books| && status.Ok?
      invariant 0 <= i <= |books| && |done| == i
      invariant ui.prompts == old(ui.prompts)
      invariant forall k :: 0 <= k < i ==> books[k].sheets == done[k]
      invariant forall k :: i <= k < |books| ==> books[k].sheets == before[k]
      invariant ui.alerts == old(ui.alerts) + alerted
      invariant status.Ok? ==> goal == Behind(done, alerted, FolderSpec(before[i..], mays[i..], sources, ranges, prots))
      invariant status.Thrown? ==> goal == FolderOutcome(done + before[i..], alerted, status)
    {
      DistinctFrom(books, i);
      ghost var shown;
      status, shown := UpdateNextBook(books, i, before, mays, sources, ranges, prots, ui);
      ghost var rest := if status.Thrown? then FolderOutcome(before[i + 1..], [], status)
                        else FolderSpec(before[i + 1..], mays[i + 1..], sources, ranges, prots);
      BehindTwice(done, alerted, books[i].sheets, shown, rest);
      done := done + [books[i].sheets];
      alerted := alerted + shown;
      i := i + 1;
    }
    assert goal.states == done + before[i..];
  }

  /**
   * `updateSheetsAndRanges(folderID, sourceSheets, ranges, protectionsObj)`.
   * A missing folder raises before anything changes. The folder lists each
   * spreadsheet once, so the spreadsheets are distinct objects.
   */
  method UpdateSheetsAndRanges(drive: Drive, folderId: Option<string>, sourceSheets: JsArg<Sheet>, ranges: JsArg<Rect>,
                               protectionsObj: JsArg<Protection>, ui: Ui) returns (status: Status)
    requires Distinct(Targets(drive, folderId))
    modifies (set b | b in Targets(drive, folderId)), ui
    ensures ui.prompts == old(ui.prompts)
    ensures FolderFiles(drive, folderId).None? ==> status == Thrown(FolderNotFound) && ui.alerts == old(ui.alerts)
    ensures FolderFiles(drive, folderId).Some? ==>
      var books := old(Targets(drive, folderId));
      var o := FolderSpec(old(States(books)), Mays(books), Items(sourceSheets), Truthy(ranges), Truthy(protectionsObj));
      && (forall k :: 0 <= k < |books| ==> books[k].sheets == o.states[k])
      && ui.alerts == old(ui.alerts) + o.alerts && status == o.status
  {
    var books;
    books, status := GetSpreadsheetsInFolder(drive, folderId);
    if status.Thrown? {
      return;
    }
    assert books == old(Targets(drive, folderId));
    assert States(books) == old(States(books));
    status := UpdateBooks(books, States(books), Mays(books), Items(sourceSheets), Truthy(ranges), Truthy(protectionsObj), ui);
  }
}
