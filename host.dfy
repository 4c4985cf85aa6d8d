/**
 * The host services the script drives (SpreadsheetApp, DriveApp,
 * PropertiesService, the UI), replaced by plain data.
 *
 * A spreadsheet is a sequence of sheets. A sheet has a name, a grid size, the
 * contents of its non-blank cells, an optional whole-sheet protection and a list
 * of range protections. A range is a rectangle of 1-based row and column
 * numbers; two ranges with the same A1 notation are the same rectangle.
 */
module Host {
  import opened Wrappers

  /** What the host (or the JavaScript engine) raises. */
  datatype HostError =
    | OutOfBounds       // a range that does not lie inside the sheet's grid
    | PermissionDenied  // protect() or remove() refused to the acting account
    | LastSheet         // deleting the only sheet of a spreadsheet
    | FolderNotFound    // no Drive folder with the given (or a missing) ID
    | ReferenceError    // reading a variable that is not in scope
    | TypeError         // calling a method on null

  datatype Status = Ok | Thrown(error: HostError)

  datatype Cell = Cell(row: int, col: int)

  /** A range: first row, first column, last row, last column, all inclusive. */
  datatype Rect = Rect(row: int, col: int, lastRow: int, lastCol: int)

  predicate InRect(c: Cell, r: Rect)
  {
    r.row <= c.row <= r.lastRow && r.col <= c.col <= r.lastCol
  }

  datatype RangeProtection = RangeProtection(rect: Rect, editors: seq<string>)

  datatype Sheet = Sheet(
    name: string,
    rows: nat,
    cols: nat,
    cells: map<Cell, string>,
    protection: Option<seq<string>>,
    rangeProtections: seq<RangeProtection>)

  /** A protection object of the master spreadsheet: its sheet, its range and its editors. */
  datatype Protection = Protection(sheetName: string, rect: Rect, editors: seq<string>)

  /** A host sheet has at least one row and one column, and no cell outside its grid. */
  predicate WellFormed(s: Sheet)
  {
    && s.rows >= 1 && s.cols >= 1
    && forall c :: c in s.cells ==> 1 <= c.row <= s.rows && 1 <= c.col <= s.cols
  }

  /** `sheet.getRange(r)` succeeds exactly when r is a non-empty rectangle of the grid. */
  predicate Fits(r: Rect, s: Sheet)
  {
    1 <= r.row <= r.lastRow <= s.rows && 1 <= r.col <= r.lastCol <= s.cols
  }

  function WholeRect(s: Sheet): Rect
  {
    Rect(1, 1, s.rows, s.cols)
  }

  const CopyPrefix: string := "Copy of "
  const DefaultSheetName: string := "Sheet1"

  /** The one sheet of a spreadsheet that SpreadsheetApp.create has just made. */
  const DefaultSheet: Sheet := Sheet(DefaultSheetName, 1000, 26, map[], None, [])

  /**
   * What `sheet.copyTo(spreadsheet)` adds: a sheet named "Copy of " + name with
   * the same grid and contents, and no protections.
   */
  function CopyOf(s: Sheet): (c: Sheet)
    ensures c.name == CopyPrefix + s.name && c.name != s.name
    ensures c.rows == s.rows && c.cols == s.cols && c.cells == s.cells
  {
    Sheet(CopyPrefix + s.name, s.rows, s.cols, s.cells, None, [])
  }

  function Names(sheets: seq<Sheet>): (r: seq<string>)
    ensures |r| == |sheets| && forall i :: 0 <= i < |sheets| ==> r[i] == sheets[i].name
  {
    if sheets == [] then [] else [sheets[0].name] + Names(sheets[1..])
  }

  predicate NameExists(sheets: seq<Sheet>, name: string)
  {
    exists i :: 0 <= i < |sheets| && sheets[i].name == name
  }

  /** `spreadsheet.getSheetByName(name)`: the first sheet with that name, or -1 for null. */
  function FindByName(sheets: seq<Sheet>, name: string): (i: int)
    ensures -1 <= i < |sheets|
    ensures i >= 0 <==> NameExists(sheets, name)
    ensures i >= 0 ==> sheets[i].name == name && forall j :: 0 <= j < i ==> sheets[j].name != name
  {
    if sheets == [] then -1
    else if sheets[0].name == name then 0
    else
      var k := FindByName(sheets[1..], name);
      if k < 0 then -1 else k + 1
  }

  function RemoveAt<T>(s: seq<T>, i: nat): (r: seq<T>)
    requires i < |s|
    ensures |r| == |s| - 1
    ensures forall j :: 0 <= j < i ==> r[j] == s[j]
    ensures forall j :: i <= j < |r| ==> r[j] == s[j + 1]
  {
    s[..i] + s[i + 1..]
  }

  lemma UpdateTwice<T>(s: seq<T>, i: nat, a: T, b: T)
    requires i < |s|
    ensures s[i := a][i := b] == s[i := b]
  {
  }

  /** `source.getRange(r).copyTo(target.getRange(r))`: the cells of r are taken from source. */
  function CopyCells(target: Sheet, source: Sheet, r: Rect): (t: Sheet)
    ensures t == target.(cells := t.cells)
    ensures forall c :: InRect(c, r) ==> (c in t.cells <==> c in source.cells)
    ensures forall c :: InRect(c, r) && c in source.cells ==> t.cells[c] == source.cells[c]
    ensures forall c :: !InRect(c, r) ==> (c in t.cells <==> c in target.cells)
    ensures forall c :: !InRect(c, r) && c in target.cells ==> t.cells[c] == target.cells[c]
  {
    var kept := map c | c in target.cells && !InRect(c, r) :: target.cells[c];
    var copied := map c | c in source.cells && InRect(c, r) :: source.cells[c];
    target.(cells := kept + copied)
  }

  /** `sheet.deleteRows(n + 1, rows - n)`: everything below row n goes. */
  function DeleteRowsAfter(s: Sheet, n: nat): (t: Sheet)
    ensures t == s.(rows := n, cells := t.cells)
    ensures forall c :: c in t.cells <==> c in s.cells && c.row <= n
    ensures forall c :: c in t.cells ==> t.cells[c] == s.cells[c]
  {
    s.(rows := n, cells := map c | c in s.cells && c.row <= n :: s.cells[c])
  }

  /** `sheet.deleteColumns(n + 1, cols - n)`: everything right of column n goes. */
  function DeleteColumnsAfter(s: Sheet, n: nat): (t: Sheet)
    ensures t == s.(cols := n, cells := t.cells)
    ensures forall c :: c in t.cells <==> c in s.cells && c.col <= n
    ensures forall c :: c in t.cells ==> t.cells[c] == s.cells[c]
  {
    s.(cols := n, cells := map c | c in s.cells && c.col <= n :: s.cells[c])
  }

  /**
   * `getProtections(SpreadsheetApp.ProtectionType.SHEET)` on a spreadsheet with
   * these sheets: one protection per protected sheet, in sheet order, covering
   * the whole sheet.
   */
  function SheetProtectionsOf(sheets: seq<Sheet>): (r: seq<Protection>)
    ensures |r| <= |sheets|
    ensures forall p :: p in r <==>
      exists s :: s in sheets && s.protection.Some? && p == Protection(s.name, WholeRect(s), s.protection.value)
  {
    if sheets == [] then []
    else
      var s := sheets[0];
      var rest := SheetProtectionsOf(sheets[1..]);
      assert forall t :: t in sheets <==> t == s || t in sheets[1..];
      if s.protection.Some? then [Protection(s.name, WholeRect(s), s.protection.value)] + rest else rest
  }

  /** `getProtections(SpreadsheetApp.ProtectionType.RANGE)` on one sheet: its range protections, in order. */
  function RangeProtectionsOf(s: Sheet): (r: seq<Protection>)
    ensures |r| == |s.rangeProtections|
    ensures forall i :: 0 <= i < |r| ==>
      r[i] == Protection(s.name, s.rangeProtections[i].rect, s.rangeProtections[i].editors)
  {
    seq(|s.rangeProtections|, i requires 0 <= i < |s.rangeProtections| =>
      Protection(s.name, s.rangeProtections[i].rect, s.rangeProtections[i].editors))
  }

  /** What a step of the script leaves behind: the sheets, the alerts it showed, how it ended. */
  datatype Outcome = Outcome(sheets: seq<Sheet>, alerts: seq<string>, status: Status)

  /** A spreadsheet file. `mayProtect` says whether the acting account may change its protections. */
  class Spreadsheet {
    const name: string
    var sheets: seq<Sheet>
    const mayProtect: bool

    /** `SpreadsheetApp.create(name)`: one default sheet, owned by the acting account. */
    constructor Create(name: string)
      ensures this.name == name && sheets == [DefaultSheet] && mayProtect
    {
      this.name := name;
      sheets := [DefaultSheet];
      mayProtect := true;
    }
  }

  /** The alerts and prompts shown to the user, in order. */
  class Ui {
    var alerts: seq<string>
    var prompts: seq<string>

    constructor ()
      ensures alerts == [] && prompts == []
    {
      alerts, prompts := [], [];
    }

    method DisplayAlert(text: string)
      modifies this
      ensures alerts == old(alerts) + [text] && prompts == old(prompts)
    {
      alerts := alerts + [text];
    }

    method ShowPrompt(text: string)
      modifies this
      ensures prompts == old(prompts) + [text] && alerts == old(alerts)
    {
      prompts := prompts + [text];
    }
  }

  /** The document's key/value properties (PropertiesService.getDocumentProperties()). */
  class PropertyStore {
    var props: map<string, string>

    constructor (initial: map<string, string>)
      ensures props == initial
    {
      props := initial;
    }

    /** `setProperty(key, value)`: the key now maps to the value; no other key changes. */
    method SetProperty(key: string, value: string)
      modifies this
      ensures props == old(props)[key := value]
    {
      props := props[key := value];
    }

    /** `deleteAllProperties()`. */
    method DeleteAllProperties()
      modifies this
      ensures props == map[]
    {
      props := map[];
    }
  }

  /** A file of a Drive folder: a spreadsheet, or a file that cannot be opened as one. */
  datatype DriveFile = SpreadsheetFile(book: Spreadsheet) | OtherFile(title: string)

  /** Drive: the files of each folder, by folder ID, in the order the folder lists them. */
  class Drive {
    var folders: map<string, seq<DriveFile>>

    constructor (folders: map<string, seq<DriveFile>>)
      ensures this.folders == folders
    {
      this.folders := folders;
    }
  }
}
