/**
 * Listing a Drive folder (sheetsAndDriveInteractions.js): every file, the
 * spreadsheets among them, and the check that there is at least one.
 */
module DriveListing {
  import opened Wrappers
  import opened Host

  const NoSheetsInFolderText: string :=
    "There are no Sheets in the target Drive          Folder. Please create at least one "
    + "from the Drive Folder itself, or          use the Initialize Sheets menu under "
    + "Update User Sheets to create them."

  /** `DriveApp.getFolderById(id)`: the folder's files, or None when it raises. */
  function FolderFiles(drive: Drive, folderId: Option<string>): Option<seq<DriveFile>>
    reads drive
  {
    if folderId.Some? && folderId.value in drive.folders then Some(drive.folders[folderId.value])
    else None
  }

  /** The files that open as spreadsheets, in folder order. */
  function Openable(files: seq<DriveFile>): seq<Spreadsheet>
  {
    if files == [] then []
    else (if files[0].SpreadsheetFile? then [files[0].book] else []) + Openable(files[1..])
  }

  /** The spreadsheets `getSpreadsheetsInFolder` hands to the propagation: none when the folder is missing. */
  function Targets(drive: Drive, folderId: Option<string>): seq<Spreadsheet>
    reads drive
  {
    match FolderFiles(drive, folderId)
    case Some(files) => Openable(files)
    case None => []
  }

  /** No spreadsheet object occurs twice. */
  predicate Distinct(books: seq<Spreadsheet>)
  {
    books == [] || (books[0] !in books[1..] && Distinct(books[1..]))
  }

  /** Any spreadsheet of a distinct list differs from every other one. */
  lemma {:induction false} DistinctApart(books: seq<Spreadsheet>, i: nat, j: nat)
    requires Distinct(books) && i < |books| && j < |books| && i != j
    ensures books[i] != books[j]
  {
    if i == 0 {
      assert books[j] == books[1..][j - 1];
    } else if j == 0 {
      assert books[i] == books[1..][i - 1];
    } else {
      DistinctApart(books[1..], i - 1, j - 1);
    }
  }

  lemma DistinctFrom(books: seq<Spreadsheet>, i: nat)
    requires Distinct(books) && i < |books|
    ensures forall k :: 0 <= k < |books| && k != i ==> books[k] != books[i]
  {
    forall k | 0 <= k < |books| && k != i {
      DistinctApart(books, k, i);
    }
  }

  /** Only spreadsheets are kept, none is invented, and the list is never longer than the folder. */
  lemma {:induction false} OpenableIsFilter(files: seq<DriveFile>)
    ensures |Openable(files)| <= |files|
    ensures forall b :: b in Openable(files) <==> SpreadsheetFile(b) in files
  {
    if files != [] {
      OpenableIsFilter(files[1..]);
      assert files == [files[0]] + files[1..];
    }
  }

  lemma {:induction false} OpenableAppend(files: seq<DriveFile>, more: seq<DriveFile>)
    ensures Openable(files + more) == Openable(files) + Openable(more)
  {
    if files != [] {
      OpenableAppend(files[1..], more);
      assert (files + more)[1..] == files[1..] + more;
    } else {
      assert files + more == more;
    }
  }

  /** `getFilesInFolder`: every file of the folder, in the order its listing yields them. */
  method GetFilesInFolder(drive: Drive, folderId: Option<string>) returns (files: seq<DriveFile>, status: Status)
    ensures FolderFiles(drive, folderId).None? ==> status == Thrown(FolderNotFound) && files == []
    ensures FolderFiles(drive, folderId).Some? ==> status == Ok && files == FolderFiles(drive, folderId).value
  {
    if folderId.None? || folderId.value !in drive.folders {
      return [], Thrown(FolderNotFound);
    }
    var listing := drive.folders[folderId.value];
    files := [];
    var next := 0;
    while next < |listing|
      invariant 0 <= next <= |listing| && files == listing[..next]
    {
      files := files + [listing[next]];
      next := next + 1;
    }
    assert listing[..next] == listing;
    status := Ok;
  }

  /**
   * `getSpreadsheetsInFolder`: the files that open as spreadsheets, in order;
   * the others raise in `openById` and are skipped.
   */
  method GetSpreadsheetsInFolder(drive: Drive, folderId: Option<string>) returns (books: seq<Spreadsheet>, status: Status)
    ensures status == (if FolderFiles(drive, folderId).Some? then Ok else Thrown(FolderNotFound))
    ensures books == Targets(drive, folderId)
    ensures status == Ok ==> |books| <= |FolderFiles(drive, folderId).value|
  {
    var files;
    files, status := GetFilesInFolder(drive, folderId);
    books := [];
    if status.Thrown? {
      return;
    }
    var i := 0;
    while i < |files|
      invariant 0 <= i <= |files|
      invariant books == Openable(files[..i])
    {
      OpenableAppend(files[..i], [files[i]]);
      assert files[..i + 1] == files[..i] + [files[i]];
      if files[i].SpreadsheetFile? {
        books := books + [files[i].book];
      }
      i := i + 1;
    }
    assert files[..i] == files;
    OpenableIsFilter(files);
  }

  /**
   * `sheetsInFolderValidation`: true when the folder holds a spreadsheet;
   * otherwise an alert and false. A missing folder raises out of it.
   */
  method SheetsInFolderValidation(drive: Drive, folderId: Option<string>, ui: Ui) returns (valid: bool, status: Status)
    modifies ui
    ensures status == (if FolderFiles(drive, folderId).Some? then Ok else Thrown(FolderNotFound))
    ensures valid <==> status == Ok && |Targets(drive, folderId)| > 0
    ensures ui.alerts == old(ui.alerts) + (if status == Ok && !valid then [NoSheetsInFolderText] else [])
    ensures ui.prompts == old(ui.prompts)
  {
    var books;
    books, status := GetSpreadsheetsInFolder(drive, folderId);
    if status.Thrown? {
      return false, status;
    }
    if |books| == 0 {
      ui.DisplayAlert(NoSheetsInFolderText);
      return false, status;
    }
    valid := true;
  }
}
