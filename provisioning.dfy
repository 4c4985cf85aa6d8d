/**
 * `createNewSpreadsheets` (sheetsAndDriveInteractions.js:16-47): one new
 * spreadsheet per name, filed in the target folder, filled by pushing every
 * sheet of the master (and the master's sheet protections) into the WHOLE
 * folder, and then rid of its default sheet "Sheet1".
 *
 * Nothing in the loop catches: an exception ends it, and the spreadsheets
 * already made stay where they are.
 */
module Provisioning {
  import opened Wrappers
  import opened Host
  import opened DriveListing
  import opened MainUtilities
  import opened SpreadsheetFunctions
  import opened Propagation
  import opened PropagationProperties

  /** What `defaultSheetCopy` holds (line 18). */
  const DefaultSheetCopyName: string := "Copy of Sheet1"

  /** Line 41 quotes the identifier instead of reading it: the sheet asked for is literally called this. */
  const LiteralLookupName: string := "defaultSheetCopy"

  // ---------------------------------------------------------------------------
  // Titles

  /**
   * Lines 19-23. A non-empty suffix is appended to every name; an empty one
   * (falsy) leaves the names alone. `map` on a null or undefined list raises
   * (None); without a suffix such a list simply yields no titles.
   */
  function Titles(nameList: JsArg<string>, suffix: string): (r: Option<seq<string>>)
    ensures r.None? <==> suffix != "" && (nameList.Null? || nameList.Undefined?)
    ensures r.Some? ==> |r.value| == |Items(nameList)|
    ensures r.Some? ==> forall i :: 0 <= i < |r.value| ==> r.value[i] == Items(nameList)[i] + suffix
  {
    var names := Items(nameList);
    if suffix == "" then
      assert forall i :: 0 <= i < |names| ==> names[i] + suffix == names[i];
      Some(names)
    else if nameList.Null? || nameList.Undefined? then None
    else Some(seq(|names|, i requires 0 <= i < |names| => names[i] + suffix))
  }

  lemma SuffixCancels(a: string, b: string, suffix: string)
    requires a + suffix == b + suffix
    ensures a == b
  {
    assert |a| == |b|;
    assert a == (a + suffix)[..|a|];
    assert b == (b + suffix)[..|b|];
  }

  /** Different names make different titles, so no two new spreadsheets share a title. */
  lemma TitlesKeepNamesApart(nameList: JsArg<string>, suffix: string, i: nat, j: nat)
    requires Titles(nameList, suffix).Some?
    requires i < |Items(nameList)| && j < |Items(nameList)| && Items(nameList)[i] != Items(nameList)[j]
    ensures Titles(nameList, suffix).value[i] != Titles(nameList, suffix).value[j]
  {
    var t := Titles(nameList, suffix).value;
    if t[i] == t[j] {
      SuffixCancels(Items(nameList)[i], Items(nameList)[j], suffix);
    }
  }

  // ---------------------------------------------------------------------------
  // The default sheet

  /**
   * Lines 38-45. The first "Sheet1" is deleted either way. When a sheet was
   * called "Copy of Sheet1", the sheet called "defaultSheetCopy" is then
   * renamed "Sheet1"; when there is none, `setName` is called on null and
   * raises.
   */
  function CleanupSpec(sheets: seq<Sheet>): Outcome
  {
    var cleared := ClearSpec(sheets, [DefaultSheetName]);
    if !NameExists(sheets, DefaultSheetCopyName) || cleared.status.Thrown? then cleared
    else
      var k := FindByName(cleared.sheets, LiteralLookupName);
      if k < 0 then Outcome(cleared.sheets, [], Thrown(TypeError))
      else Outcome(cleared.sheets[k := cleared.sheets[k].(name := DefaultSheetName)], [], Ok)
  }

  /** Lines 38-45 on the new spreadsheet. */
  method CleanUpDefaultSheet(book: Spreadsheet) returns (status: Status)
    modifies book
    ensures Outcome(book.sheets, [], status) == CleanupSpec(old(book.sheets))
  {
    var copyExists := SheetNameExistsInSpreadsheet(DefaultSheetCopyName, book);
    status := ClearSheetsWithName([DefaultSheetName], book);
    if !copyExists || status.Thrown? {
      return;
    }
    var k := FindByName(book.sheets, LiteralLookupName);
    if k < 0 {
      return Thrown(TypeError);
    }
    book.sheets := book.sheets[k := book.sheets[k].(name := DefaultSheetName)];
  }

  /**
   * Without a "Copy of Sheet1", a cleanup that goes through leaves exactly
   * the sheets not called "Sheet1", in order: a master sheet called "Sheet1"
   * never survives in a new spreadsheet.
   */
  lemma CleanupDropsSheet1(sheets: seq<Sheet>)
    requires !NameExists(sheets, DefaultSheetCopyName) && UniqueNames(sheets)
    requires CleanupSpec(sheets).status.Ok?
    ensures CleanupSpec(sheets).sheets == Kept(sheets, {DefaultSheetName})
  {
    ClearLeavesUnlisted(sheets, [DefaultSheetName]);
    assert (set n | n in [DefaultSheetName]) == {DefaultSheetName};
  }

  /** When "Sheet1" is all there is, deleting it raises. */
  lemma CleanupOfLoneSheet1Raises(s: Sheet)
    requires s.name == DefaultSheetName
    ensures CleanupSpec([s]) == Outcome([s], [], Thrown(LastSheet))
  {
    assert NameExists([s], DefaultSheetName) by {
      assert [s][0].name == DefaultSheetName;
    }
  }

  /** Deleting "Sheet1" keeps every sheet under another name. */
  lemma ClearKeepsName(sheets: seq<Sheet>, name: string)
    requires NameExists(sheets, name) && name != DefaultSheetName
    ensures NameExists(ClearSpec(sheets, [DefaultSheetName]).sheets, name)
  {
    var cleared := ClearSpec(sheets, [DefaultSheetName]).sheets;
    ClearKeepsOtherSheets(sheets, [DefaultSheetName], {DefaultSheetName});
    var i :| 0 <= i < |sheets| && sheets[i].name == name;
    assert sheets[i] in Kept(cleared, {DefaultSheetName}) by {
      assert sheets[i] in Kept(sheets, {DefaultSheetName});
    }
    var j :| 0 <= j < |cleared| && cleared[j] == sheets[i];
  }

  /** Deleting "Sheet1" brings no new name. */
  lemma ClearAddsNoName(sheets: seq<Sheet>, name: string)
    requires !NameExists(sheets, name)
    ensures !NameExists(ClearSpec(sheets, [DefaultSheetName]).sheets, name)
  {
    var cleared := ClearSpec(sheets, [DefaultSheetName]).sheets;
    ClearOnlyDeletes(sheets, [DefaultSheetName]);
    forall m | 0 <= m < |cleared| ensures cleared[m].name != name {
      assert cleared[m] in sheets;
    }
  }

  /**
   * With a "Copy of Sheet1" and no sheet literally called "defaultSheetCopy",
   * the cleanup always raises, and every sheet not called "Sheet1" (the copy
   * among them) stays.
   */
  lemma CleanupWithCopyRaises(sheets: seq<Sheet>)
    requires NameExists(sheets, DefaultSheetCopyName) && !NameExists(sheets, LiteralLookupName)
    ensures CleanupSpec(sheets).status.Thrown?
    ensures NameExists(CleanupSpec(sheets).sheets, DefaultSheetCopyName)
  {
    ClearKeepsName(sheets, DefaultSheetCopyName);
    ClearAddsNoName(sheets, LiteralLookupName);
  }

  // ---------------------------------------------------------------------------
  // One new spreadsheet

  /**
   * One pass of the loop (lines 26-45) once the new spreadsheet has been filed
   * behind the folder's spreadsheets `states`: the folder, new spreadsheet
   * included, is updated from the master, then the new spreadsheet is cleaned up.
   */
  function CreateStep(states: seq<seq<Sheet>>, mays: seq<bool>, sources: seq<Sheet>, prots: seq<Protection>)
    : (r: FolderOutcome)
    requires |mays| == |states|
    ensures |r.states| == |states| + 1
  {
    var o := FolderSpec(states + [[DefaultSheet]], mays + [true], sources, None, Some(prots));
    if o.status.Thrown? then o
    else
      var c := CleanupSpec(o.states[|states|]);
      FolderOutcome(o.states[|states| := c.sheets], o.alerts + c.alerts, c.status)
  }

  /** The files of the new spreadsheets, as the folder lists them. */
  function FilesOf(books: seq<Spreadsheet>): (r: seq<DriveFile>)
    ensures |r| == |books| && forall k :: 0 <= k < |books| ==> r[k] == SpreadsheetFile(books[k])
  {
    seq(|books|, k requires 0 <= k < |books| => SpreadsheetFile(books[k]))
  }

  lemma OpenableFilesOf(books: seq<Spreadsheet>)
    ensures Openable(FilesOf(books)) == books
  {
    if books != [] {
      assert FilesOf(books)[1..] == FilesOf(books[1..]);
      OpenableFilesOf(books[1..]);
    }
  }

  lemma DistinctAppendFresh(books: seq<Spreadsheet>, b: Spreadsheet)
    requires Distinct(books) && b !in books
    ensures Distinct(books + [b])
  {
    if books != [] {
      assert (books + [b])[1..] == books[1..] + [b];
      DistinctAppendFresh(books[1..], b);
    } else {
      assert [] + [b] == [b];
    }
  }

  lemma StatesAppend(books: seq<Spreadsheet>, b: Spreadsheet)
    ensures States(books + [b]) == States(books) + [b.sheets]
  {
  }

  /**
   * Lines 26-30: the new spreadsheet is made, then filed behind the folder's
   * other files. A missing folder raises with it left outside the folder.
   */
  method FileNew(drive: Drive, folderId: Option<string>, title: string) returns (book: Spreadsheet, status: Status)
    requires Distinct(Targets(drive, folderId))
    modifies drive
    ensures fresh(book) && book.name == title && book.mayProtect && book.sheets == [DefaultSheet]
    ensures old(FolderFiles(drive, folderId)).None? ==> status == Thrown(FolderNotFound) && drive.folders == old(drive.folders)
    ensures old(FolderFiles(drive, folderId)).Some? ==>
      && status == Ok
      && drive.folders == old(drive.folders[folderId.value := drive.folders[folderId.value] + [SpreadsheetFile(book)]])
      && Targets(drive, folderId) == old(Targets(drive, folderId)) + [book]
      && Distinct(Targets(drive, folderId))
  {
    ghost var books := Targets(drive, folderId);
    assert allocated(books);
    book := new Spreadsheet.Create(title);
    if folderId.None? || folderId.value !in drive.folders {
      return book, Thrown(FolderNotFound);
    }
    var id := folderId.value;
    OpenableAppend(drive.folders[id], [SpreadsheetFile(book)]);
    drive.folders := drive.folders[id := drive.folders[id] + [SpreadsheetFile(book)]];
    DistinctAppendFresh(books, book);
    status := Ok;
  }

  /**
   * Lines 31-45 once the new spreadsheet `book` is filed behind `books`: the
   * whole folder is updated from the master's sheets and sheet protections,
   * then the new spreadsheet is cleaned up.
   */
  method FillNew(drive: Drive, folderId: Option<string>, ghost books: seq<Spreadsheet>, book: Spreadsheet,
                 ghost before: seq<seq<Sheet>>, sources: seq<Sheet>, ui: Ui)
    returns (status: Status)
    requires Targets(drive, folderId) == books + [book] && Distinct(books + [book])
    requires FolderFiles(drive, folderId).Some? && book.sheets == [DefaultSheet] && book.mayProtect
    requires |before| == |books| && forall k :: 0 <= k < |books| ==> books[k].sheets == before[k]
    modifies (set b | b in books + [book]), ui
    ensures ui.prompts == old(ui.prompts)
    ensures var r := CreateStep(before, Mays(books), sources, SheetProtectionsOf(sources));
      && (forall k :: 0 <= k < |books| ==> books[k].sheets == r.states[k])
      && book.sheets == r.states[|books|]
      && ui.alerts == old(ui.alerts) + r.alerts && status == r.status
  {
    var prots := SheetProtectionsOf(sources);
    StatesAre(books + [book], before + [[DefaultSheet]]);
    assert Mays(books + [book]) == Mays(books) + [true];
    status := UpdateSheetsAndRanges(drive, folderId, Arr(sources), Null, Arr(prots), ui);
    ghost var o := FolderSpec(before + [[DefaultSheet]], Mays(books) + [true], sources, None, Some(prots));
    forall k | 0 <= k < |books| ensures books[k].sheets == o.states[k] {
      assert (books + [book])[k] == books[k];
    }
    assert (books + [book])[|books|] == book;
    DistinctFrom(books + [book], |books|);
    if status.Ok? {
      status := CleanUpDefaultSheet(book);
    }
  }

  /** The body of the loop (lines 26-45) for one title. */
  method CreateOne(drive: Drive, folderId: Option<string>, title: string, master: Spreadsheet, ui: Ui)
    returns (book: Spreadsheet, status: Status)
    requires Distinct(Targets(drive, folderId))
    modifies drive, (set b | b in Targets(drive, folderId)), ui
    ensures fresh(book) && book.name == title && book.mayProtect
    ensures ui.prompts == old(ui.prompts)
    ensures old(FolderFiles(drive, folderId)).None? ==>
      && status == Thrown(FolderNotFound) && book.sheets == [DefaultSheet]
      && drive.folders == old(drive.folders) && ui.alerts == old(ui.alerts)
    ensures old(FolderFiles(drive, folderId)).Some? ==>
      var books := old(Targets(drive, folderId));
      var r := CreateStep(old(States(books)), Mays(books), old(master.sheets), SheetProtectionsOf(old(master.sheets)));
      && drive.folders == old(drive.folders[folderId.value := drive.folders[folderId.value] + [SpreadsheetFile(book)]])
      && Targets(drive, folderId) == books + [book]
      && (forall k :: 0 <= k < |books| ==> books[k].sheets == r.states[k])
      && book.sheets == r.states[|books|]
      && ui.alerts == old(ui.alerts) + r.alerts && status == r.status
  {
    ghost var books := Targets(drive, folderId);
    ghost var before := States(books);
    var sources := master.sheets;
    book, status := FileNew(drive, folderId, title);
    if status.Ok? {
      status := FillNew(drive, folderId, books, book, before, sources, ui);
    }
  }

  // ---------------------------------------------------------------------------
  // The loop

  /**
   * Lines 25-46 over `count` titles: each pass files one more spreadsheet
   * (allowed to change its protections) and updates the whole folder; the
   * first exception ends the run.
   */
  function ProvisionSpec(states: seq<seq<Sheet>>, mays: seq<bool>, count: nat, sources: seq<Sheet>, prots: seq<Protection>)
    : (r: FolderOutcome)
    requires |mays| == |states|
    decreases count, 2
  {
    if count == 0 then FolderOutcome(states, [], Ok) else ProvisionFirst(states, mays, count, sources, prots)
  }

  /**
   * The non-empty case, forwarded to the step below. The extra layer between the
   * fold and its step keeps the verifier from unfolding the recursion more than
   * one level at a time (see the `decreases ..., 2/1/0` ordering).
   */
  function ProvisionFirst(states: seq<seq<Sheet>>, mays: seq<bool>, count: nat, sources: seq<Sheet>, prots: seq<Protection>)
    : (r: FolderOutcome)
    requires |mays| == |states| && count > 0
    decreases count, 1
  {
    ProvisionRest(states, mays, count, sources, prots)
  }

  function ProvisionRest(states: seq<seq<Sheet>>, mays: seq<bool>, count: nat, sources: seq<Sheet>, prots: seq<Protection>)
    : (r: FolderOutcome)
    requires |mays| == |states| && count > 0
    decreases count, 0
  {
    var s := CreateStep(states, mays, sources, prots);
    if s.status.Thrown? then s
    else Shown(s.alerts, ProvisionSpec(s.states, mays + [true], count - 1, sources, prots))
  }

  /** The alerts shown before a run, in front of those it shows. */
  function Shown(alerts: seq<string>, r: FolderOutcome): FolderOutcome
  {
    FolderOutcome(r.states, alerts + r.alerts, r.status)
  }

  lemma Assoc<T>(a: seq<T>, b: seq<T>, c: seq<T>)
    ensures a + (b + c) == (a + b) + c
  {
  }

  lemma ShownTwice(a: seq<string>, b: seq<string>, r: FolderOutcome)
    ensures Shown(a, Shown(b, r)) == Shown(a + b, r)
  {
    assert a + (b + r.alerts) == (a + b) + r.alerts;
  }

  /** The loop's account of the run, one pass further on. */
  lemma Advance(goal: FolderOutcome, alerted: seq<string>, cur: seq<seq<Sheet>>, mays: seq<bool>, count: nat,
                sources: seq<Sheet>, prots: seq<Protection>, status: Status, next: seq<seq<Sheet>>, shown: seq<string>)
    requires |mays| == |cur| && |next| == |cur| + 1 && count > 0
    requires goal == Shown(alerted, ProvisionSpec(cur, mays, count, sources, prots))
    requires ProvisionSpec(cur, mays, count, sources, prots)
      == if status.Thrown? then FolderOutcome(next, shown, status)
         else Shown(shown, ProvisionSpec(next, mays + [true], count - 1, sources, prots))
    ensures status.Ok? ==> goal == Shown(alerted + shown, ProvisionSpec(next, mays + [true], count - 1, sources, prots))
    ensures status.Thrown? ==> goal == FolderOutcome(next, alerted + shown, status)
  {
    if status.Ok? {
      ShownTwice(alerted, shown, ProvisionSpec(next, mays + [true], count - 1, sources, prots));
    }
  }

  lemma ProvisionStep(states: seq<seq<Sheet>>, mays: seq<bool>, count: nat, sources: seq<Sheet>, prots: seq<Protection>)
    requires |mays| == |states| && count > 0
    ensures var s := CreateStep(states, mays, sources, prots);
      ProvisionSpec(states, mays, count, sources, prots)
        == if s.status.Thrown? then s else Shown(s.alerts, ProvisionSpec(s.states, mays + [true], count - 1, sources, prots))
  {
    assert ProvisionSpec(states, mays, count, sources, prots) == ProvisionFirst(states, mays, count, sources, prots);
    assert ProvisionFirst(states, mays, count, sources, prots) == ProvisionRest(states, mays, count, sources, prots);
  }

  /** A run over `count` titles that goes through files exactly `count` spreadsheets; one that raises, between one and `count`. */
  lemma {:induction false} ProvisionCount(states: seq<seq<Sheet>>, mays: seq<bool>, count: nat, sources: seq<Sheet>,
                                           prots: seq<Protection>)
    requires |mays| == |states|
    ensures var r := ProvisionSpec(states, mays, count, sources, prots);
      && (r.status.Ok? ==> |r.states| == |states| + count)
      && (r.status.Thrown? ==> |states| < |r.states| <= |states| + count)
    decreases count
  {
    if count > 0 {
      ProvisionStep(states, mays, count, sources, prots);
      var s := CreateStep(states, mays, sources, prots);
      if s.status.Ok? {
        ProvisionCount(s.states, mays + [true], count - 1, sources, prots);
      }
    }
  }

  lemma StatesAre(books: seq<Spreadsheet>, cur: seq<seq<Sheet>>)
    requires |books| == |cur| && forall k :: 0 <= k < |books| ==> books[k].sheets == cur[k]
    ensures States(books) == cur
  {
  }

  /** The titles of the spreadsheets, in order. */
  function TitlesOf(books: seq<Spreadsheet>): (r: seq<string>)
    ensures |r| == |books| && forall k :: 0 <= k < |books| ==> r[k] == books[k].name
  {
    seq(|books|, k requires 0 <= k < |books| => books[k].name)
  }

  lemma Grown(books: seq<Spreadsheet>, created: seq<Spreadsheet>, book: Spreadsheet, titles: seq<string>, i: nat)
    requires i < |titles| && TitlesOf(created) == titles[..i] && book.name == titles[i]
    ensures TitlesOf(created + [book]) == titles[..i + 1]
    ensures FilesOf(created + [book]) == FilesOf(created) + [SpreadsheetFile(book)]
    ensures books + (created + [book]) == (books + created) + [book]
  {
    assert titles[..i + 1] == titles[..i] + [titles[i]];
  }

  /**
   * One pass of the loop, stated against `ProvisionSpec`: `created` are the
   * spreadsheets filed so far behind the folder's own `books`, whose files
   * follow `listing` in the folder `orig` had before the run.
   */
  method CreateNext(drive: Drive, folderId: Option<string>, title: string, master: Spreadsheet, ui: Ui,
                    ghost orig: map<string, seq<DriveFile>>, ghost listing: seq<DriveFile>,
                    ghost books: seq<Spreadsheet>, ghost created: seq<Spreadsheet>,
                    ghost cur: seq<seq<Sheet>>, ghost mays: seq<bool>, ghost sources: seq<Sheet>, ghost count: nat)
    returns (book: Spreadsheet, status: Status, ghost next: seq<seq<Sheet>>, ghost shown: seq<string>)
    requires Filed(drive, folderId, orig, listing, books, created, cur, mays)
    requires master !in books + created && master.sheets == sources && count > 0
    modifies drive, (set b | b in books + created), ui
    ensures fresh(book) && book.name == title && book.mayProtect && master.sheets == sources
    ensures Filed(drive, folderId, orig, listing, books, created + [book], next, mays + [true])
    ensures ui.prompts == old(ui.prompts) && ui.alerts == old(ui.alerts) + shown
    ensures ProvisionSpec(cur, mays, count, sources, SheetProtectionsOf(sources))
      == if status.Thrown? then FolderOutcome(next, shown, status)
         else Shown(shown, ProvisionSpec(next, mays + [true], count - 1, sources, SheetProtectionsOf(sources)))
  {
    ghost var all := books + created;
    ProvisionStep(cur, Mays(all), count, sources, SheetProtectionsOf(sources));
    assert allocated(all);
    book, status := FileNew(drive, folderId, title);
    assert (listing + FilesOf(created)) + [SpreadsheetFile(book)] == listing + FilesOf(created + [book]);
    assert all + [book] == books + (created + [book]);
    status := FillNew(drive, folderId, all, book, cur, master.sheets, ui);
    ghost var r := CreateStep(cur, Mays(all), sources, SheetProtectionsOf(sources));
    next, shown := r.states, r.alerts;
    forall k | 0 <= k < |next| ensures (all + [book])[k].sheets == next[k] {
    }
    assert books + (created + [book]) == all + [book];
    assert Mays(all + [book]) == mays + [true];
  }

  /**
   * What the loop keeps: the folder `orig` had before the run now lists
   * `listing` then the new spreadsheets, which follow the folder's own `books`;
   * all of them are distinct, and `cur` holds their sheets.
   */
  ghost predicate Filed(drive: Drive, folderId: Option<string>, orig: map<string, seq<DriveFile>>, listing: seq<DriveFile>,
                        books: seq<Spreadsheet>, created: seq<Spreadsheet>, cur: seq<seq<Sheet>>, mays: seq<bool>)
    reads drive, set b | b in books + created
  {
    && folderId.Some? && drive.folders == orig[folderId.value := listing + FilesOf(created)]
    && mays == Mays(books + created)
    && Targets(drive, folderId) == books + created && Distinct(books + created)
    && |cur| == |books + created| && forall k :: 0 <= k < |cur| ==> (books + created)[k].sheets == cur[k]
  }

  /** What is left of the run's account: all of it once a pass has raised, otherwise the passes still to come. */
  function Remaining(cur: seq<seq<Sheet>>, mays: seq<bool>, count: nat, sources: seq<Sheet>, prots: seq<Protection>,
                     alerted: seq<string>, status: Status): FolderOutcome
    requires |mays| == |cur|
  {
    if status.Thrown? then FolderOutcome(cur, alerted, status) else Shown(alerted, ProvisionSpec(cur, mays, count, sources, prots))
  }

  /**
   * The loop's state after `|created|` passes: the new spreadsheets are
   * filed, titled in order, and what the passes showed and left is the
   * run's account `goal` so far.
   */
  ghost predicate Progress(drive: Drive, folderId: Option<string>, orig: map<string, seq<DriveFile>>, listing: seq<DriveFile>,
                           books: seq<Spreadsheet>, created: seq<Spreadsheet>, cur: seq<seq<Sheet>>, mays: seq<bool>,
                           titles: seq<string>, master: Spreadsheet, sources: seq<Sheet>, ui: Ui, start: seq<string>,
                           alerted: seq<string>, goal: FolderOutcome, status: Status)
    reads drive, ui, master, set b | b in books + created
  {
    && |created| <= |titles| && TitlesOf(created) == titles[..|created|]
    && Filed(drive, folderId, orig, listing, books, created, cur, mays)
    && master !in books + created && master.sheets == sources
    && ui.alerts == start + alerted
    && goal == Remaining(cur, mays, |titles| - |created|, sources, SheetProtectionsOf(sources), alerted, status)
  }

  /** One pass of the loop, with the loop's own account of the run carried one title further. */
  method Pass(drive: Drive, folderId: Option<string>, titles: seq<string>, i: nat, master: Spreadsheet, ui: Ui,
              ghost orig: map<string, seq<DriveFile>>, ghost listing: seq<DriveFile>,
              ghost books: seq<Spreadsheet>, ghost created: seq<Spreadsheet>,
              ghost cur: seq<seq<Sheet>>, ghost mays: seq<bool>, ghost sources: seq<Sheet>,
              ghost goal: FolderOutcome, ghost start: seq<string>, ghost alerted: seq<string>)
    returns (book: Spreadsheet, status: Status, ghost next: seq<seq<Sheet>>, ghost shown: seq<string>)
    requires i == |created| < |titles|
    requires Progress(drive, folderId, orig, listing, books, created, cur, mays, titles, master, sources, ui, start, alerted, goal, Ok)
    modifies drive, (set b | b in books + created), ui
    ensures fresh(book) && book.mayProtect && ui.prompts == old(ui.prompts)
    ensures Progress(drive, folderId, orig, listing, books, created + [book], next, mays + [true], titles, master, sources, ui, start,
                     alerted + shown, goal, status)
  {
    book, status, next, shown :=
      CreateNext(drive, folderId, titles[i], master, ui, orig, listing, books, created, cur, mays, sources, |titles| - i);
    Advance(goal, alerted, cur, mays, |titles| - i, sources, SheetProtectionsOf(sources), status, next, shown);
    Assoc(start, alerted, shown);
    Grown(books, created, book, titles, i);
  }

  /** The loop (lines 25-46) over the titles, when the folder exists. */
  method CreateAll(drive: Drive, folderId: Option<string>, titles: seq<string>, master: Spreadsheet, ui: Ui)
    returns (created: seq<Spreadsheet>, status: Status, ghost plan: FolderOutcome)
    requires FolderFiles(drive, folderId).Some?
    requires Distinct(Targets(drive, folderId)) && master !in Targets(drive, folderId)
    modifies drive, (set b | b in Targets(drive, folderId)), ui
    ensures ui.prompts == old(ui.prompts)
    ensures forall c :: c in created ==> fresh(c) && c.mayProtect
    ensures |created| <= |titles| && TitlesOf(created) == titles[..|created|]
    ensures var books := old(Targets(drive, folderId));
      && plan == ProvisionSpec(old(States(books)), Mays(books), |titles|, old(master.sheets), SheetProtectionsOf(old(master.sheets)))
      && drive.folders == old(drive.folders)[folderId.value := old(drive.folders[folderId.value]) + FilesOf(created)]
      && Targets(drive, folderId) == books + created
      && States(books + created) == plan.states
      && ui.alerts == old(ui.alerts) + plan.alerts && status == plan.status
  {
    created := [];
    status := Ok;
    ghost var orig := drive.folders;
    ghost var books := Targets(drive, folderId);
    ghost var listing := drive.folders[folderId.value];
    ghost var sources := master.sheets;
    ghost var cur := States(books);
    ghost var mays := Mays(books);
    plan := ProvisionSpec(cur, mays, |titles|, sources, SheetProtectionsOf(sources));
    ghost var alerted: seq<string> := [];
    assert listing + FilesOf(created) == listing && books + created == books;
    assert drive.folders == orig[folderId.value := listing];
    assert Filed(drive, folderId, orig, listing, books, created, cur, mays);
    assert plan == Remaining(cur, mays, |titles|, sources, SheetProtectionsOf(sources), alerted, status);
    var i := 0;
    while i < |titles| && status.Ok?
      invariant i == |created|
      invariant forall c :: c in created ==> fresh(c) && c.mayProtect
      invariant ui.prompts == old(ui.prompts)
      invariant Progress(drive, folderId, orig, listing, books, created, cur, mays, titles, master, sources, ui, old(ui.alerts),
                         alerted, plan, status)
      decreases |titles| - i
    {
      var book;
      ghost var next, shown;
      book, status, next, shown := Pass(drive, folderId, titles, i, master, ui, orig, listing, books, created, cur, mays, sources,
                                        plan, old(ui.alerts), alerted);
      created := created + [book];
      cur, mays, alerted := next, mays + [true], alerted + shown;
      i := i + 1;
    }
    StatesAre(books + created, cur);
  }

  /**
   * `createNewSpreadsheets(folderId, nameList, appendToTitle)`. The master is
   * read afresh in every pass; it lies outside the target folder, so what is
   * read does not change. A missing folder raises in the first pass, after
   * the first spreadsheet has been made.
   */
  method CreateNewSpreadsheets(drive: Drive, folderId: Option<string>, nameList: JsArg<string>, appendToTitle: string,
                               master: Spreadsheet, ui: Ui)
    returns (created: seq<Spreadsheet>, status: Status, ghost plan: FolderOutcome)
    requires Distinct(Targets(drive, folderId)) && master !in Targets(drive, folderId)
    modifies drive, (set b | b in Targets(drive, folderId)), ui
    ensures ui.prompts == old(ui.prompts)
    ensures forall c :: c in created ==> fresh(c) && c.mayProtect
    ensures Titles(nameList, appendToTitle).None? ==>
      status == Thrown(TypeError) && created == [] && drive.folders == old(drive.folders) && ui.alerts == old(ui.alerts)
    ensures Titles(nameList, appendToTitle).Some? ==>
      var titles := Titles(nameList, appendToTitle).value;
      && |created| <= |titles| && TitlesOf(created) == titles[..|created|]
      && (status.Ok? ==> |created| == |titles|)
    ensures Titles(nameList, appendToTitle).Some? && old(FolderFiles(drive, folderId)).None? ==>
      var titles := Titles(nameList, appendToTitle).value;
      && status == (if titles == [] then Ok else Thrown(FolderNotFound))
      && |created| == (if titles == [] then 0 else 1)
      && (forall c :: c in created ==> c.sheets == [DefaultSheet])
      && drive.folders == old(drive.folders) && ui.alerts == old(ui.alerts)
    ensures Titles(nameList, appendToTitle).Some? && old(FolderFiles(drive, folderId)).Some? ==>
      var titles := Titles(nameList, appendToTitle).value;
      var books := old(Targets(drive, folderId));
      && plan == ProvisionSpec(old(States(books)), Mays(books), |titles|, old(master.sheets), SheetProtectionsOf(old(master.sheets)))
      && drive.folders == old(drive.folders)[folderId.value := old(drive.folders[folderId.value]) + FilesOf(created)]
      && Targets(drive, folderId) == books + created
      && States(books + created) == plan.states
      && ui.alerts == old(ui.alerts) + plan.alerts && status == plan.status
  {
    created := [];
    plan := FolderOutcome([], [], Ok);
    var titled := Titles(nameList, appendToTitle);
    if titled.None? {
      return [], Thrown(TypeError), plan;
    }
    var titles := titled.value;
    status := Ok;
    if folderId.None? || folderId.value !in drive.folders {
      if titles != [] {
        var book;
        book, status := CreateOne(drive, folderId, titles[0], master, ui);
        created := [book];
      }
      return;
    }
    ghost var books := Targets(drive, folderId);
    ProvisionCount(States(books), Mays(books), |titles|, master.sheets, SheetProtectionsOf(master.sheets));
    created, status, plan := CreateAll(drive, folderId, titles, master, ui);
  }

  // ---------------------------------------------------------------------------
  // What a new spreadsheet ends up holding

  /**
   * In a pass that goes through, the new spreadsheet holds what the master's
   * sheets make of a spreadsheet with only the default sheet, cleaned up; the
   * spreadsheets already in the folder are each updated as on their own.
   */
  lemma NewSpreadsheetHolds(states: seq<seq<Sheet>>, mays: seq<bool>, sources: seq<Sheet>, prots: seq<Protection>)
    requires |mays| == |states|
    requires CreateStep(states, mays, sources, prots).status.Ok?
    ensures var r := CreateStep(states, mays, sources, prots);
      var t := TargetSpec([DefaultSheet], sources, None, Some(prots), true);
      && t.status.Ok? && r.states[|states|] == CleanupSpec(t.sheets).sheets
      && forall k :: 0 <= k < |states| ==> r.states[k] == TargetSpec(states[k], sources, None, Some(prots), mays[k]).sheets
  {
    var all := states + [[DefaultSheet]];
    var o := FolderSpec(all, mays + [true], sources, None, Some(prots));
    FolderStopsAtFirstError(all, mays + [true], sources, None, Some(prots));
    assert all[|states|] == [DefaultSheet] && (mays + [true])[|states|];
    forall k | 0 <= k < |states|
      ensures CreateStep(states, mays, sources, prots).states[k] == TargetSpec(states[k], sources, None, Some(prots), mays[k]).sheets
    {
      assert all[k] == states[k] && (mays + [true])[k] == mays[k];
    }
  }
}
