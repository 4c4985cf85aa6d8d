/**
 * The three update actions of main.js: `updateRange_` (lines 59-120),
 * `updateCurrentSheet_` (lines 126-148) and `updateAllSheets_` (lines
 * 154-177), together with `rangeValidation` (lines 44-52). Each checks the
 * folder, chooses what to propagate, and hands it to `updateSheetsAndRanges`,
 * whose exception it catches and answers with one alert.
 *
 * The active sheet, its named ranges and the active cell are parameters:
 * they are what `SpreadsheetApp.getActiveSheet()`, `getNamedRanges()` and
 * `getActiveCell()` return.
 */
module MainActions {
  import opened Wrappers
  import opened Host
  import opened MainUtilities
  import opened DriveListing
  import opened Propagation
  import opened Provisioning
  import opened FolderSettings

  /** The alert of `rangeValidation` (lines 46-47). */
  const RangeValidationAlert: string :=
    "No Named Range found. Please make sure the selected\n        cell is part of a Named Range."
  /** `NAMED_RANGE_ALERT_TEXT` of `updateRange_` (lines 65-66). */
  const NamedRangeAlert: string :=
    "No Named Range found. Please make sure the \n      selected cell is part of a Named Range."
  /** The alert `updateRange_` catches with (lines 114-116). */
  const RangeErrorAlert: string :=
    "An error has occurred. Please ensure that all \n                                  values in the Initialize Sheets menu have been \n                                  set properly."
  /** The alert `updateCurrentSheet_` catches with (lines 144-146). */
  const CurrentSheetErrorAlert: string :=
    "An error has occurred. Please ensure that a \n          target Drive folder has been set under Update User Sheets --> \n          Initialize Sheets --> Set Folder ID. "
  /** The alert `updateAllSheets_` catches with (lines 173-175). */
  const AllSheetsErrorAlert: string :=
    "An error has occurred. Please ensure that a \n            target Drive folder has been set under Update User Sheets --> \n            Initialize Sheets --> Set Folder ID. "

  /** The active cell as the one-cell range `getActiveCell()` returns. */
  function CellRange(c: Cell): Rect
  {
    Rect(c.row, c.col, c.row, c.col)
  }

  /**
   * The named ranges, in sheet order, that contain the active cell: what the
   * loop of lines 68-75 pushes onto `sourceRangeArray`.
   */
  function Containing(namedRanges: seq<Rect>, cell: Cell): (r: seq<Rect>)
    ensures |r| <= |namedRanges|
    ensures forall x :: x in r ==> x in namedRanges && InRect(cell, x)
  {
    if namedRanges == [] then []
    else
      var last := namedRanges[|namedRanges| - 1];
      var front := Containing(namedRanges[..|namedRanges| - 1], cell);
      CellWithinIffInRect(cell, last);
      if IsRangeWithinLargerRange(CellRange(cell), last) then front + [last] else front
  }

  /** Every named range holding the cell is collected. */
  lemma {:induction false} ContainingComplete(namedRanges: seq<Rect>, cell: Cell, x: Rect)
    requires x in namedRanges && InRect(cell, x)
    ensures x in Containing(namedRanges, cell)
  {
    var n := |namedRanges|;
    CellWithinIffInRect(cell, x);
    if namedRanges[n - 1] != x {
      assert x in namedRanges[..n - 1] by {
        var k :| 0 <= k < n && namedRanges[k] == x;
        assert namedRanges[..n - 1][k] == x;
      }
      ContainingComplete(namedRanges[..n - 1], cell, x);
    }
  }

  /** Collection keeps sheet order: the ranges of a longer list follow those of its front. */
  lemma {:induction false} ContainingAppend(front: seq<Rect>, back: seq<Rect>, cell: Cell)
    ensures Containing(front + back, cell) == Containing(front, cell) + Containing(back, cell)
    decreases |back|
  {
    if back == [] {
      assert front + back == front;
    } else {
      var n := |back|;
      assert (front + back)[..|front + back| - 1] == front + back[..n - 1];
      ContainingAppend(front, back[..n - 1], cell);
    }
  }

  /** The last element of a list, as `sourceRange` holds it after the loop: absent when nothing was pushed. */
  function LastOf<T>(s: seq<T>): (r: Option<T>)
    ensures r.None? <==> s == []
    ensures r.Some? ==> r.value == s[|s| - 1]
  {
    if s == [] then None else Some(s[|s| - 1])
  }

  /**
   * Lines 64-75: the loop that pushes each named range holding the active
   * cell and leaves the last of them in `sourceRange`.
   */
  method CollectContaining(namedRanges: seq<Rect>, cell: Cell) returns (found: seq<Rect>, sourceRange: Option<Rect>)
    ensures found == Containing(namedRanges, cell)
    ensures sourceRange == LastOf(found)
  {
    found, sourceRange := [], None;
    for i := 0 to |namedRanges|
      invariant found == Containing(namedRanges[..i], cell)
      invariant sourceRange == LastOf(found)
    {
      var range := namedRanges[i];
      assert namedRanges[..i + 1][..i] == namedRanges[..i];
      if IsRangeWithinLargerRange(CellRange(cell), range) {
        found := found + [range];
        sourceRange := Some(range);
      }
    }
    assert namedRanges[..|namedRanges|] == namedRanges;
  }

  /** Some range of `outers` holds `inner`. */
  predicate WithinSome(inner: Rect, outers: seq<Rect>)
  {
    exists j :: 0 <= j < |outers| && IsRangeWithinLargerRange(inner, outers[j])
  }

  /**
   * The protections, in order, whose range lies inside at least one of
   * `outers`: what lines 91-106 push onto `protectionsArray`.
   */
  function Inside(ps: seq<Protection>, outers: seq<Rect>): (r: seq<Protection>)
    ensures |r| <= |ps|
    ensures forall p :: p in r ==> p in ps && WithinSome(p.rect, outers)
  {
    if ps == [] then []
    else
      var last := ps[|ps| - 1];
      var front := Inside(ps[..|ps| - 1], outers);
      if WithinSome(last.rect, outers) then front + [last] else front
  }

  /** Every protection inside some outer range is kept. */
  lemma {:induction false} InsideComplete(ps: seq<Protection>, outers: seq<Rect>, p: Protection)
    requires p in ps && WithinSome(p.rect, outers)
    ensures p in Inside(ps, outers)
  {
    var n := |ps|;
    if ps[n - 1] != p {
      assert p in ps[..n - 1] by {
        var k :| 0 <= k < n && ps[k] == p;
        assert ps[..n - 1][k] == p;
      }
      InsideComplete(ps[..n - 1], outers, p);
    }
  }

  /**
   * Lines 91-106: for each protection, the inner loop looks for an outer
   * range holding it and stops at the first one (`break`).
   */
  method FilterProtections(ps: seq<Protection>, outers: seq<Rect>) returns (kept: seq<Protection>)
    ensures kept == Inside(ps, outers)
  {
    kept := [];
    for i := 0 to |ps|
      invariant kept == Inside(ps[..i], outers)
    {
      var inRange := false;
      var j := 0;
      while j < |outers| && !inRange
        invariant 0 <= j <= |outers|
        invariant inRange ==> 0 < j && IsRangeWithinLargerRange(ps[i].rect, outers[j - 1])
        invariant !inRange ==> forall k :: 0 <= k < j ==> !IsRangeWithinLargerRange(ps[i].rect, outers[k])
      {
        if IsRangeWithinLargerRange(ps[i].rect, outers[j]) {
          inRange := true;
        }
        j := j + 1;
      }
      assert inRange <==> WithinSome(ps[i].rect, outers);
      assert ps[..i + 1][..i] == ps[..i];
      if inRange {
        kept := kept + [ps[i]];
      }
    }
    assert ps[..|ps|] == ps;
  }

  /** `getProtectionBool() === "true"`: the stored flag must be exactly that string. */
  predicate ProtectionsOn(flag: Option<string>)
  {
    flag == Some("true")
  }

  /**
   * The protections `updateRange_` forwards (lines 83-107): with the flag on,
   * the active sheet's range protections lying inside one of the matching
   * named ranges; otherwise none.
   */
  function RangeModeProtections(flag: Option<string>, sheet: Sheet, found: seq<Rect>): (r: seq<Protection>)
    ensures forall p :: p in r ==> ProtectionsOn(flag) && p in RangeProtectionsOf(sheet) && WithinSome(p.rect, found)
  {
    if ProtectionsOn(flag) then Inside(RangeProtectionsOf(sheet), found) else []
  }

  /** With the flag on, every range protection of the sheet inside a matching named range is forwarded. */
  lemma RangeModeProtectionsComplete(flag: Option<string>, sheet: Sheet, found: seq<Rect>, p: Protection)
    requires ProtectionsOn(flag) && p in RangeProtectionsOf(sheet) && WithinSome(p.rect, found)
    ensures p in RangeModeProtections(flag, sheet, found)
  {
    InsideComplete(RangeProtectionsOf(sheet), found, p);
  }

  /**
   * The sheet protections `updateCurrentSheet_` and `updateAllSheets_`
   * forward (lines 134-138 and 164-167): those of the given sheets when the
   * flag is on, otherwise an empty list, which still removes each target's
   * sheet protection.
   */
  function SheetModeProtections(flag: Option<string>, sheets: seq<Sheet>): (r: seq<Protection>)
    ensures ProtectionsOn(flag) ==> r == SheetProtectionsOf(sheets)
    ensures !ProtectionsOn(flag) ==> r == []
  {
    if ProtectionsOn(flag) then SheetProtectionsOf(sheets) else []
  }

  /** The caught exception's alert: one when propagation raised, none otherwise. */
  function Caught(status: Status, text: string): (r: seq<string>)
    ensures r == [] <==> status.Ok?
    ensures r != [] ==> r == [text]
  {
    if status.Thrown? then [text] else []
  }

  /** `rangeValidation` (lines 44-52): false, with an alert, exactly when no range was found. */
  method RangeValidation(rangeToUpdate: Option<Rect>, ui: Ui) returns (valid: bool)
    modifies ui
    ensures valid <==> rangeToUpdate.Some?
    ensures ui.alerts == old(ui.alerts) + (if valid then [] else [RangeValidationAlert])
    ensures ui.prompts == old(ui.prompts)
  {
    if rangeToUpdate.None? {
      ui.DisplayAlert(RangeValidationAlert);
      return false;
    }
    return true;
  }

  /**
   * The `try { updateSheetsAndRanges(...) } catch` shared by the three
   * actions, once the folder is known to exist: the targets end as the
   * propagation left them, and an exception adds the action's alert.
   */
  method Propagate(drive: Drive, folderId: Option<string>, sources: JsArg<Sheet>, ranges: JsArg<Rect>,
                   prots: seq<Protection>, errorAlert: string, ui: Ui) returns (ghost o: FolderOutcome)
    requires FolderFiles(drive, folderId).Some? && Distinct(Targets(drive, folderId))
    modifies (set b | b in Targets(drive, folderId)), ui
    ensures ui.prompts == old(ui.prompts)
    ensures var books := Targets(drive, folderId);
      && o == FolderSpec(old(States(books)), Mays(books), Items(sources), Truthy(ranges), Some(prots))
      && States(books) == o.states
      && ui.alerts == old(ui.alerts) + o.alerts + Caught(o.status, errorAlert)
  {
    ghost var books := Targets(drive, folderId);
    o := FolderSpec(States(books), Mays(books), Items(sources), Truthy(ranges), Some(prots));
    var status := UpdateSheetsAndRanges(drive, folderId, sources, ranges, Arr(prots), ui);
    StatesAre(books, o.states);
    ghost var states := States(books);
    if status.Thrown? {
      ui.DisplayAlert(errorAlert);
      assert States(books) == states;
    }
  }

  /**
   * Lines 82-118 of `updateRange_`, once some named range was found: the
   * folder check, the protections chosen against all matching ranges, and
   * the propagation of `sourceRange`, the last of them.
   */
  method UpdateFound(settings: FolderProperties, drive: Drive, sheet: Sheet, found: seq<Rect>, sourceRange: Option<Rect>, ui: Ui)
    returns (status: Status, ghost o: FolderOutcome)
    requires found != [] && sourceRange == LastOf(found)
    requires Distinct(Targets(drive, settings.folderId))
    modifies (set b | b in Targets(drive, settings.folderId)), ui
    ensures ui.prompts == old(ui.prompts)
    ensures var books := Targets(drive, settings.folderId);
      FolderFiles(drive, settings.folderId).None? ==>
        && status == Thrown(FolderNotFound) && States(books) == old(States(books)) && ui.alerts == old(ui.alerts)
    ensures var books := Targets(drive, settings.folderId);
      FolderFiles(drive, settings.folderId).Some? && books == [] ==>
        status == Ok && ui.alerts == old(ui.alerts) + [NoSheetsInFolderText]
    ensures var books := Targets(drive, settings.folderId);
      FolderFiles(drive, settings.folderId).Some? && books != [] ==>
        && status == Ok
        && o == FolderSpec(old(States(books)), Mays(books), [sheet], Some([found[|found| - 1]]),
                           Some(RangeModeProtections(settings.protectionBool, sheet, found)))
        && States(books) == o.states
        && ui.alerts == old(ui.alerts) + o.alerts + Caught(o.status, RangeErrorAlert)
  {
    var folderId := settings.GetFolderId();
    ghost var books := Targets(drive, folderId);
    ghost var before := States(books);
    o := FolderOutcome(before, [], Ok);
    var valid;
    valid, status := SheetsInFolderValidation(drive, folderId, ui);
    assert States(books) == before;
    if !valid {
      return;
    }
    status, o := RangeTail(settings, drive, sheet, found, sourceRange, ui);
  }

  /**
   * Lines 83-118 of `updateRange_`, in a folder that holds spreadsheets:
   * `rangeValidation(sourceRange)`, which passes here, the protections
   * chosen against all matching ranges, and the guarded propagation.
   */
  method RangeTail(settings: FolderProperties, drive: Drive, sheet: Sheet, found: seq<Rect>, sourceRange: Option<Rect>, ui: Ui)
    returns (status: Status, ghost o: FolderOutcome)
    requires found != [] && sourceRange == LastOf(found)
    requires FolderFiles(drive, settings.folderId).Some? && Distinct(Targets(drive, settings.folderId))
    modifies (set b | b in Targets(drive, settings.folderId)), ui
    ensures ui.prompts == old(ui.prompts)
    ensures var books := Targets(drive, settings.folderId);
      && status == Ok
      && o == FolderSpec(old(States(books)), Mays(books), [sheet], Some([found[|found| - 1]]),
                         Some(RangeModeProtections(settings.protectionBool, sheet, found)))
      && States(books) == o.states
      && ui.alerts == old(ui.alerts) + o.alerts + Caught(o.status, RangeErrorAlert)
  {
    var folderId := settings.GetFolderId();
    ghost var books := Targets(drive, folderId);
    ghost var before := States(books);
    var rangeOk := RangeValidation(sourceRange, ui);
    assert rangeOk && sourceRange == Some(found[|found| - 1]) && ui.alerts == old(ui.alerts);
    assert States(books) == before;
    var protectionsArray := [];
    if settings.GetProtectionBool() == Some("true") {
      protectionsArray := FilterProtections(RangeProtectionsOf(sheet), found);
    }
    assert protectionsArray == RangeModeProtections(settings.protectionBool, sheet, found);
    assert Items(One(sheet)) == [sheet] && Truthy(One(found[|found| - 1])) == Some([found[|found| - 1]]);
    status := Ok;
    o := FolderOutcome([], [], Ok);
    if sourceRange.Some? {
      o := Propagate(drive, folderId, One(sheet), One(sourceRange.value), protectionsArray, RangeErrorAlert, ui);
    }
  }

  /**
   * `updateRange_` (lines 59-120). `status` is an exception that escapes the
   * action: only a missing folder, raised by `sheetsInFolderValidation`
   * outside the `try`. Only the LAST matching named range is propagated
   * (the global `sourceRange`), while protections are chosen against all
   * matching ones.
   */
  method UpdateRange(settings: FolderProperties, drive: Drive, sheet: Sheet, namedRanges: seq<Rect>, activeCell: Cell, ui: Ui)
    returns (status: Status, ghost o: FolderOutcome)
    requires Distinct(Targets(drive, settings.folderId))
    modifies (set b | b in Targets(drive, settings.folderId)), ui
    ensures ui.prompts == old(ui.prompts)
    ensures var books := Targets(drive, settings.folderId);
      Containing(namedRanges, activeCell) == [] ==>
        && status == Ok && States(books) == old(States(books)) && ui.alerts == old(ui.alerts) + [NamedRangeAlert]
    ensures var books := Targets(drive, settings.folderId);
      Containing(namedRanges, activeCell) != [] && FolderFiles(drive, settings.folderId).None? ==>
        && status == Thrown(FolderNotFound) && States(books) == old(States(books)) && ui.alerts == old(ui.alerts)
    ensures var books := Targets(drive, settings.folderId);
      Containing(namedRanges, activeCell) != [] && FolderFiles(drive, settings.folderId).Some? && books == [] ==>
        status == Ok && ui.alerts == old(ui.alerts) + [NoSheetsInFolderText]
    ensures var books := Targets(drive, settings.folderId);
      var found := Containing(namedRanges, activeCell);
      found != [] && FolderFiles(drive, settings.folderId).Some? && books != [] ==>
        && status == Ok
        && o == FolderSpec(old(States(books)), Mays(books), [sheet], Some([found[|found| - 1]]),
                           Some(RangeModeProtections(settings.protectionBool, sheet, found)))
        && States(books) == o.states
        && ui.alerts == old(ui.alerts) + o.alerts + Caught(o.status, RangeErrorAlert)
  {
    ghost var books := Targets(drive, settings.folderId);
    ghost var before := States(books);
    assert allocated(books);
    var found, sourceRange := CollectContaining(namedRanges, activeCell);
    assert States(books) == before;
    if |found| == 0 {
      ui.DisplayAlert(NamedRangeAlert);
      assert States(books) == before;
      return Ok, FolderOutcome(before, [], Ok);
    }
    status, o := UpdateFound(settings, drive, sheet, found, sourceRange, ui);
  }

  /** `updateCurrentSheet_` (lines 126-148): the active sheet, whole, with its own sheet protection when the flag is on. */
  method UpdateCurrentSheet(settings: FolderProperties, drive: Drive, activeSheet: Sheet, ui: Ui)
    returns (status: Status, ghost o: FolderOutcome)
    requires Distinct(Targets(drive, settings.folderId))
    modifies (set b | b in Targets(drive, settings.folderId)), ui
    ensures ui.prompts == old(ui.prompts)
    ensures var books := Targets(drive, settings.folderId);
      FolderFiles(drive, settings.folderId).None? ==>
        && status == Thrown(FolderNotFound) && States(books) == old(States(books)) && ui.alerts == old(ui.alerts)
    ensures var books := Targets(drive, settings.folderId);
      FolderFiles(drive, settings.folderId).Some? && books == [] ==>
        status == Ok && ui.alerts == old(ui.alerts) + [NoSheetsInFolderText]
    ensures var books := Targets(drive, settings.folderId);
      FolderFiles(drive, settings.folderId).Some? && books != [] ==>
        && status == Ok
        && o == FolderSpec(old(States(books)), Mays(books), [activeSheet], None,
                           Some(SheetModeProtections(settings.protectionBool, [activeSheet])))
        && States(books) == o.states
        && ui.alerts == old(ui.alerts) + o.alerts + Caught(o.status, CurrentSheetErrorAlert)
  {
    var folderId := settings.GetFolderId();
    ghost var books := Targets(drive, folderId);
    ghost var before := States(books);
    o := FolderOutcome(before, [], Ok);
    var valid;
    valid, status := SheetsInFolderValidation(drive, folderId, ui);
    assert States(books) == before;
    if !valid {
      return;
    }
    var currentSheetProtections := [];
    if settings.GetProtectionBool() == Some("true") {
      currentSheetProtections := SheetProtectionsOf([activeSheet]);
    }
    o := Propagate(drive, folderId, One(activeSheet), Null, currentSheetProtections, CurrentSheetErrorAlert, ui);
  }

  /**
   * `updateAllSheets_` (lines 154-177): every sheet of the master, whole,
   * with the master's sheet protections when the flag is on. The master is
   * not one of the folder's spreadsheets.
   */
  method UpdateAllSheets(settings: FolderProperties, drive: Drive, master: Spreadsheet, ui: Ui)
    returns (status: Status, ghost o: FolderOutcome)
    requires Distinct(Targets(drive, settings.folderId)) && master !in Targets(drive, settings.folderId)
    modifies (set b | b in Targets(drive, settings.folderId)), ui
    ensures ui.prompts == old(ui.prompts)
    ensures var books := Targets(drive, settings.folderId);
      FolderFiles(drive, settings.folderId).None? ==>
        && status == Thrown(FolderNotFound) && States(books) == old(States(books)) && ui.alerts == old(ui.alerts)
    ensures var books := Targets(drive, settings.folderId);
      FolderFiles(drive, settings.folderId).Some? && books == [] ==>
        status == Ok && ui.alerts == old(ui.alerts) + [NoSheetsInFolderText]
    ensures var books := Targets(drive, settings.folderId);
      FolderFiles(drive, settings.folderId).Some? && books != [] ==>
        && status == Ok
        && o == FolderSpec(old(States(books)), Mays(books), old(master.sheets), None,
                           Some(SheetModeProtections(settings.protectionBool, old(master.sheets))))
        && States(books) == o.states
        && ui.alerts == old(ui.alerts) + o.alerts + Caught(o.status, AllSheetsErrorAlert)
  {
    var folderId := settings.GetFolderId();
    var activeSheets := master.sheets;
    ghost var books := Targets(drive, folderId);
    ghost var before := States(books);
    o := FolderOutcome(before, [], Ok);
    var valid;
    valid, status := SheetsInFolderValidation(drive, folderId, ui);
    assert States(books) == before;
    if !valid {
      return;
    }
    var protectionsArray := [];
    if settings.GetProtectionBool() == Some("true") {
      protectionsArray := SheetProtectionsOf(master.sheets);
    }
    o := Propagate(drive, folderId, Arr(activeSheets), Null, protectionsArray, AllSheetsErrorAlert, ui);
  }
}
