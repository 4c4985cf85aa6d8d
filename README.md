# Parent Spreadsheet Editor, modelled in Dafny

Parent Spreadsheet Editor is a Google Apps Script add-on. It keeps a folder of
"child" spreadsheets in step with a master ("parent") spreadsheet. It pushes
every sheet, one sheet, or one named range of the master into every child,
and it re-applies the master's protections to the pushed sheets. It also
creates new child spreadsheets from a list of user names, and it stores its
settings in the document's property store: the user list, the folder ID, a
title suffix and a "protections on" flag.

This project models that core and proves what it promises.

## How the model is organised

- **Host model (`host.dfy`).**
  - A spreadsheet (`Host.Spreadsheet`) is an object holding a `seq<Sheet>`, which the script changes in place.
  - A sheet is a value with a name, a grid size, a sparse cell map, an optional sheet protection and a list of range protections.
  - A range is a rectangle; A1 notation is rectangle equality.
  - A folder (`Host.Drive`) lists files. Some files are spreadsheets; others cannot be opened as one.
  - `Host.Ui` logs alerts and prompt texts. `Host.PropertyStore` is the document property store.
- **Host behaviour the scripts rely on.** These are written into the model explicitly:
  - `copyTo` appends a sheet named `"Copy of " + name` with the same grid and cells and no protections.
  - Asking for a range outside a sheet's grid raises.
  - Deleting a spreadsheet's only sheet raises.
  - `protect`/`remove` raise for an account that may not change protections.
- **Operations.**
  - Each state-changing operation is a method. It is proved against a specification function over values: the sheets, the alerts shown, and how the run ended.
  - The properties are lemmas about those functions.
  - A JavaScript exception is a `Status` value, `Thrown(e)`, that the callers propagate exactly as the scripts do.
- **Files.**
  - `text.dfy`: `split`/`join` on a separator, and sorting of editor lists.
  - `main_utilities.dfy`: `convertToArray` and rectangle containment.
  - `drive_listing.dfy`: folder listing and filtering.
  - `spreadsheet_functions.dfy`: the sheet and protection helpers.
  - `propagation.dfy` and `propagation_properties.dfy`: `updateSheetsAndRanges` and what it guarantees.
  - `provisioning.dfy`: `createNewSpreadsheets`.
  - `folder_properties.dfy`: the settings class and `initializeAllSheets_`.
  - `main_actions.dfy`: the three update actions of the menu.
  - `controller.dfy`: the settings dialogs.
  - `polyfill.dfy`: `Object.assign_`.

Where the script is defective, the model does what the code does:

- **Range mode with an empty protections array.** The code names `ranges[range]` outside the loop that declares `range`. This raises a ReferenceError, and the model raises.
- **Renaming after cleanup.** The cleanup of a new spreadsheet looks up the sheet literally called `defaultSheetCopy`, not the value of that constant. Whenever a "Copy of Sheet1" exists and no sheet copied from the master is literally named `defaultSheetCopy`, this raises. When such a sheet exists, it is the one renamed "Sheet1".
- **A master sheet named "Sheet1" is lost.** A master sheet called "Sheet1" is pushed into the new spreadsheet's own "Sheet1", and the cleanup then deletes the first sheet of that name. So that master sheet never survives in a new spreadsheet (`Provisioning.CleanupDropsSheet1`). When it is the only sheet, deleting it raises (`Provisioning.CleanupOfLoneSheet1Raises`).
- **A whole-sheet update never grows a sheet.** The whole-sheet branch deletes surplus rows and columns of X but never inserts any, then asks X for a range the size of the source. When X is smaller than the master sheet in either direction, this raises (`PropagationProperties.WholeModeSmallerTargetRaises`). Once a master sheet has grown, every whole-sheet update stops at the first child spreadsheet whose sheet is smaller, and that child keeps its "Copy of X".
- **No error isolation between spreadsheets.** Nothing catches an exception between one child spreadsheet and the next. The first failure ends the run, and the transient "Copy of" sheet of the failing cycle stays behind.

## Model

| member | source | states |
|---|---|---|
| Text.JoinSplit | folderProperties.js:20-26 | Joining the pieces of a `split(",")` with "," gives back the stored string. |
| Text.SplitJoin | folderProperties.js:20-26 | Splitting a join of separator-free pieces gives back the pieces. |
| Text.SortIsSortedPermutation | spreadsheetFunctions.js:160-166 | The editor list sort yields a sorted permutation of its input. |
| Text.SortOfPermutation | spreadsheetFunctions.js:160-166 | Two editor lists with the same multiset sort to the same list, so the comparison ignores order. |
| MainUtilities.ConvertToArray | main.js:9-17 | null stays null, undefined stays undefined, an array is returned as is, and any other value becomes a one-element array. |
| MainUtilities.ConvertToArrayIdempotent | main.js:9-17 | Converting twice is converting once. |
| MainUtilities.Truthy | spreadsheetFunctions.js:221 | An argument is truthy exactly when it is neither null nor undefined, and then it stands for its items. |
| MainUtilities.IsRangeWithinLargerRange | main.js:27-35 | A true answer means every cell of the inner range lies in the outer one. |
| MainUtilities.WithinReflexive | main.js:27-35 | Every range lies within itself. |
| MainUtilities.WithinTransitive | main.js:27-35 | Containment is transitive. |
| MainUtilities.WithinIffCellsInside | main.js:27-35 | For a non-empty inner range, the bounds test holds exactly when every inner cell is in the outer range. |
| MainUtilities.CellWithinIffInRect | main.js:27-35 | The one-cell range of the active cell lies within a range exactly when the cell is inside it. |
| DriveListing.OpenableIsFilter | sheetsAndDriveInteractions.js:75-88 | The spreadsheets kept are exactly the openable files, and there are never more of them than files. |
| DriveListing.OpenableAppend | sheetsAndDriveInteractions.js:75-88 | Filtering keeps the folder's order: filtering a concatenation concatenates the filtered parts. |
| DriveListing.GetFilesInFolder | sheetsAndDriveInteractions.js:56-65 | Every file of the folder, in listing order; a missing folder raises. |
| DriveListing.GetSpreadsheetsInFolder | sheetsAndDriveInteractions.js:75-88 | The openable files in order, skipping the rest; a missing folder raises. |
| DriveListing.SheetsInFolderValidation | sheetsAndDriveInteractions.js:118-133 | True exactly when the folder holds a spreadsheet; otherwise one alert is shown. |
| SpreadsheetFunctions.StripCopyOf | spreadsheetFunctions.js:16-18 | One leading `Copy\sof\s` is cut off; a name without it is unchanged. |
| SpreadsheetFunctions.StripCopyOfRestores | spreadsheetFunctions.js:16-18 | The name the host gives a copy turns back into the original name. |
| SpreadsheetFunctions.StripCopyOfOnce | spreadsheetFunctions.js:16-18 | Only one prefix is removed from a copy of a copy. |
| SpreadsheetFunctions.StripCopyOfAnySpaces | spreadsheetFunctions.js:16-18 | With any two whitespace characters that `\s` accepts (tab, newline, no-break space and the rest, not only a space) in the two places, the prefix is cut off. |
| SpreadsheetFunctions.RemoveCopyOfPrefixFromSheets | spreadsheetFunctions.js:12-20 | Each listed sheet is renamed once per time it is listed, and the others are untouched. |
| SpreadsheetFunctions.SheetNameExistsInSpreadsheet | spreadsheetFunctions.js:32-41 | True exactly when some sheet has that exact name. |
| SpreadsheetFunctions.ClearSheetsWithName | spreadsheetFunctions.js:52-63 | The sheets end as `ClearSpec` says: for each listed name that exists, the first such sheet is deleted, and deleting the only sheet raises. |
| SpreadsheetFunctions.ClearKeepsOtherSheets | spreadsheetFunctions.js:52-63 | Sheets with unlisted names are neither removed nor reordered. |
| SpreadsheetFunctions.ClearOnlyDeletes | spreadsheetFunctions.js:52-63 | Clearing never makes up a sheet. |
| SpreadsheetFunctions.ClearRemovesListed | spreadsheetFunctions.js:52-63 | With unique names, a clear that ends normally leaves no sheet with a listed name. |
| SpreadsheetFunctions.ClearLeavesUnlisted | spreadsheetFunctions.js:52-63 | With unique names, a normal clear leaves exactly the unlisted sheets, in order. |
| SpreadsheetFunctions.UnprotectedMembers | spreadsheetFunctions.js:69-82 | Exactly the protections at other rectangles survive `unprotectRange`. |
| SpreadsheetFunctions.UnprotectedTwice | spreadsheetFunctions.js:69-82 | Unprotecting `a` and then `b` is unprotecting both at once. |
| SpreadsheetFunctions.UnprotectedIdempotent | spreadsheetFunctions.js:69-82 | Unprotecting the same ranges again changes nothing. |
| SpreadsheetFunctions.UnprotectRange | spreadsheetFunctions.js:69-82 | The sheet ends as `UnprotectSpec` says: every protection at a listed rectangle is removed, and the first removal that is not allowed raises. |
| SpreadsheetFunctions.RemoveEditors | spreadsheetFunctions.js:103-106 | An editor remains exactly when it was there and is not removed. |
| SpreadsheetFunctions.RemoveEveryEditor | spreadsheetFunctions.js:103-106 | Removing every current editor leaves none, so the protection ends with exactly the new editors. |
| SpreadsheetFunctions.ReplaceRangeProtections | spreadsheetFunctions.js:92-110 | One protection per range grants exactly the new editors; a refusal shows one alert and stops the remaining ranges. |
| SpreadsheetFunctions.ProtectSheets | spreadsheetFunctions.js:122-131 | Each listed sheet ends with one sheet protection granting the editors, and the others are unchanged. |
| SpreadsheetFunctions.SetSheetProtections | spreadsheetFunctions.js:122-131 | The sheets end as `SheetProtectSpec` says; an account that may not protect is refused at the first sheet. |
| SpreadsheetFunctions.SheetProtectIdempotent | spreadsheetFunctions.js:122-131 | Protecting the same sheets again with the same editors changes nothing. |
| SpreadsheetFunctions.IndexOf | spreadsheetFunctions.js:167 | `indexOf` gives the first position holding the value, or -1 when there is none. |
| SpreadsheetFunctions.SameEditorsOfPermutation | spreadsheetFunctions.js:166-170 | Editor lists that are permutations of each other compare equal. |
| SpreadsheetFunctions.SameEditorsIffSameMultiset | spreadsheetFunctions.js:166-170 | For e-mail lists, the sorted-string comparison holds exactly when the lists are permutations. |
| SpreadsheetFunctions.ListProtections | spreadsheetFunctions.js:155-164 | The `push` loop collects the editors and rectangle of every existing protection, in order. |
| SpreadsheetFunctions.ProtectRange | spreadsheetFunctions.js:148-180 | One range ends as `ProtectRangeSpec` says: an equal first protection is kept, a different one is replaced, and a missing one is created. |
| SpreadsheetFunctions.SetRangeProtections | spreadsheetFunctions.js:144-182 | Each range in turn as `RangeProtectSpec` says; an exception stops the rest. |
| SpreadsheetFunctions.ProtectRangeResult | spreadsheetFunctions.js:166-180 | On a sheet with at most one protection per rectangle, for an account that may protect, afterwards one protection is at the range, the first one there grants the requested editors, and the protections at other rectangles are kept in order. |
| SpreadsheetFunctions.ProtectRangeIdempotent | spreadsheetFunctions.js:166-180 | On a sheet with at most one protection per rectangle, for an account that may protect, reconciling a range twice with the same editors changes nothing the second time. (With duplicates at the range, each call replaces one of them.) |
| Propagation.PlaceCopy | spreadsheetFunctions.js:210-219 | The copy is appended; without a sheet X, the first "Copy of X" is renamed X and copied once more. |
| Propagation.PlaceSourceCopy | spreadsheetFunctions.js:210-219 | The copy and rename steps leave the sheets and indices `PlaceCopy` describes. |
| Propagation.CopyRangesInto | spreadsheetFunctions.js:221-228 | Each range is copied from the copy into X, as `RangesCopied` says; a range outside a grid raises. |
| Propagation.CopyWholeInto | spreadsheetFunctions.js:229-250 | X is trimmed to the copy's grid and the whole grid copied, as `WholeCopied` says. |
| Propagation.ApplyProtections | spreadsheetFunctions.js:252-278 | The protections are re-applied as `ProtectionsApplied` says, including the ReferenceError of line 271. |
| Propagation.UpdatePair | spreadsheetFunctions.js:210-280 | One cycle, for one spreadsheet and one source sheet, ends as `CycleSpec` says. |
| Propagation.UpdateBook | spreadsheetFunctions.js:209-281 | Every source sheet, in order, for one spreadsheet, as `TargetSpec` says. |
| Propagation.UpdateBooks | spreadsheetFunctions.js:208-282 | Every spreadsheet in folder order, until one raises, as `FolderSpec` says. |
| Propagation.UpdateSheetsAndRanges | spreadsheetFunctions.js:199-283 | A missing folder raises before anything changes; otherwise the folder's spreadsheets end as `FolderSpec` says. |
| PropagationProperties.PlacePresent | spreadsheetFunctions.js:210-219 | With sheet X present, the copy is appended and the first sheet X is the one updated. |
| PropagationProperties.PlaceAbsent | spreadsheetFunctions.js:210-219 | With no X and no leftover copy, the renamed copy and a second copy are appended. |
| PropagationProperties.PlaceNames | spreadsheetFunctions.js:210-219 | Placing adds one "Copy of X" to the names, plus one X when there was none. |
| PropagationProperties.CycleNames | spreadsheetFunctions.js:210-280 | After a cycle that went through, X exists, and the names (as a multiset) grew by exactly X when it was absent and by nothing otherwise. |
| PropagationProperties.CycleTouchesOnlyX | spreadsheetFunctions.js:210-280 | A cycle that goes through, with no leftover copy, changes only the sheet X (or appends it), every other sheet keeps its place, and no "Copy of X" remains. |
| PropagationProperties.CycleCopiesRanges | spreadsheetFunctions.js:221-228 | In range mode, a cycle that goes through, with no leftover copy, gives the cells inside the ranges the source's contents and leaves the rest as X had them. |
| PropagationProperties.CycleCopiesWhole | spreadsheetFunctions.js:229-250 | In whole-sheet mode, a cycle that goes through, with no leftover copy and well-formed sheets, leaves X with the source's grid size and cells. |
| PropagationProperties.WholeModeSmallerTargetRaises | spreadsheetFunctions.js:229-250 | In whole-sheet mode, when X has fewer rows or columns than the source, the cycle raises and the fresh "Copy of X" stays as the last sheet. |
| PropagationProperties.ProtectionsKeepContent | spreadsheetFunctions.js:252-278 | Re-applying protections never changes a sheet's name, grid or cells. |
| PropagationProperties.CycleWithoutProtections | spreadsheetFunctions.js:252 | In a cycle that goes through, with no leftover copy and no protections argument, X keeps its protections. |
| PropagationProperties.CycleEmptyProtectionsUnprotect | spreadsheetFunctions.js:273-277 | In a whole-sheet cycle that goes through, with no leftover copy and an empty protections array, X ends without a sheet protection. (For an account that may not protect, the removal raises and the cycle does not go through.) |
| PropagationProperties.RangeModeEmptyProtectionsRaises | spreadsheetFunctions.js:269-272 | In range mode with an empty protections array, the cycle raises. |
| PropagationProperties.CycleThrownKeepsCopy | spreadsheetFunctions.js:210-280 | A cycle that raises after copying leaves the copy in the spreadsheet. |
| PropagationProperties.LeftoverPlacement | spreadsheetFunctions.js:210-219 | With no sheet X and a leftover "Copy of X", the first leftover is renamed X and becomes the sheet to update, the fresh copy of the source stays at the end, and the contents are read from a copy of the renamed leftover. |
| PropagationProperties.LeftoverCopyTakesOver | spreadsheetFunctions.js:210-280 | In that case, a whole-sheet cycle that goes through leaves X with the leftover's stale cells, keeps the fresh copy of the source as "Copy of X", and touches no other sheet. |
| PropagationProperties.TargetHoldsSources | spreadsheetFunctions.js:209-281 | After a spreadsheet's run went through, it holds a sheet named as each source sheet. |
| PropagationProperties.FolderStopsAtFirstError | spreadsheetFunctions.js:208-282 | The spreadsheets before the failing one are updated, the failing one is partly updated, and the ones after it are untouched. |
| Provisioning.Titles | sheetsAndDriveInteractions.js:19-23 | A non-empty suffix is appended to every name and an empty one leaves them alone; `map` over a missing list raises. |
| Provisioning.TitlesKeepNamesApart | sheetsAndDriveInteractions.js:21-23 | Different names give different titles. |
| Provisioning.CleanUpDefaultSheet | sheetsAndDriveInteractions.js:38-45 | The new spreadsheet ends as `CleanupSpec` says. |
| Provisioning.CleanupDropsSheet1 | sheetsAndDriveInteractions.js:38-45 | With unique sheet names and no "Copy of Sheet1", a cleanup that goes through leaves exactly the sheets not called "Sheet1", in order. |
| Provisioning.CleanupOfLoneSheet1Raises | sheetsAndDriveInteractions.js:38-45 | When "Sheet1" is the only sheet, deleting it raises. |
| Provisioning.CleanupWithCopyRaises | sheetsAndDriveInteractions.js:38-45 | With a "Copy of Sheet1" and no sheet literally named `defaultSheetCopy`, looking up that literal name fails and the cleanup raises. |
| Provisioning.ProvisionCount | sheetsAndDriveInteractions.js:25-46 | A run over n titles that goes through adds exactly n spreadsheets; one that raises adds between one and n. |
| Provisioning.NewSpreadsheetHolds | sheetsAndDriveInteractions.js:26-45 | In a pass that goes through, the new spreadsheet holds what the master's sheets make of a default spreadsheet, cleaned up; the older ones are each updated as on their own. |
| Provisioning.CreateNewSpreadsheets | sheetsAndDriveInteractions.js:16-47 | One spreadsheet per title, in order, each filed in the folder and updated as `ProvisionSpec` says; the first exception ends the run. |
| FolderSettings.FolderProperties.constructor | folderProperties.js:5-12 | Every setting is read once, at construction. |
| FolderSettings.FolderProperties.GetUserList | folderProperties.js:20-26 | null when unset; otherwise separator-free pieces that join back to the stored string. |
| FolderSettings.FolderProperties.GetAdminEmailList | folderProperties.js:34-40 | The same as GetUserList, for the administrators' list. |
| FolderSettings.FolderProperties.SetProperty | folderProperties.js:93-95 | Only the store changes; the values read at construction do not. |
| FolderSettings.UserListRoundTrip | folderProperties.js:20-26 | A list stored by joining comma-free names reads back as those names. |
| FolderSettings.InitializeAllSheets | folderProperties.js:98-127 | Without a user list, it alerts and creates nothing; otherwise it provisions as `ProvisionSpec` says, with the folder alert and the caught-exception alert. |
| MainActions.Containing | main.js:68-75 | Only named ranges that contain the active cell are collected. |
| MainActions.ContainingComplete | main.js:68-75 | Every named range containing the cell is collected. |
| MainActions.ContainingAppend | main.js:68-75 | Collection keeps sheet order. |
| MainActions.CollectContaining | main.js:68-75 | The loop collects exactly `Containing`, and `sourceRange` is the last match. |
| MainActions.Inside | main.js:91-106 | Only protections inside some matching named range are kept. |
| MainActions.InsideComplete | main.js:91-106 | Every protection inside some matching range is kept. |
| MainActions.FilterProtections | main.js:91-106 | The nested loop keeps exactly `Inside`. |
| MainActions.RangeModeProtections | main.js:83-107 | With the flag exactly "true", only range protections of the sheet inside a matching range are forwarded, and none otherwise. |
| MainActions.RangeModeProtectionsComplete | main.js:83-107 | With the flag on, every such protection is forwarded. |
| MainActions.RangeValidation | main.js:44-52 | False, with an alert, exactly when no range was found. |
| MainActions.UpdateRange | main.js:59-120 | With no match, it alerts and stops. A missing folder raises. With no spreadsheets, it alerts and stops. Otherwise it propagates the active sheet, the last matching range and the filtered protections. |
| MainActions.UpdateCurrentSheet | main.js:126-148 | The active sheet, whole, is propagated with its own sheet protection when the flag is on, after the same checks. |
| MainActions.UpdateAllSheets | main.js:154-177 | Every master sheet, whole, is propagated with the master's sheet protections when the flag is on, after the same checks. |
| Controller.EmailLikeIffRegex | controller.js:78 | The script's short test decides exactly what the unanchored e-mail pattern matches. |
| Controller.FirstInvalid | controller.js:85-98 | The index of the first entry that fails the test, with all entries before it passing. |
| Controller.SavedIffAllMatch | controller.js:85-98 | A list is saved exactly when every entry matches the e-mail pattern. |
| Controller.FirstInvalidAt | controller.js:88-93 | The `break` happens at the first failing entry. |
| Controller.ChoiceTurnsProtectionsOn | controller.js:121-136 | Protections are forwarded after an answer exactly when it was YES, and Cancel keeps the old flag. |
| Controller.Controller.SetText | controller.js:109-115 | Prompts once and saves the answer unless it is cancelled or empty. |
| Controller.Controller.SetEmails | controller.js:77-100 | Saves the raw answer only when every comma-separated entry passes; otherwise it alerts with the first failing entry and saves nothing. |
| Controller.Controller.SetContent | controller.js:14-67 | Each kind prompts with its own text, plus the existing value when one is stored, and saves under its own key. |
| Controller.Controller.ApplyPermissions | controller.js:121-136 | YES stores "true", NO stores "false", and cancel stores nothing. |
| Controller.Controller.ClearAllProperties | controller.js:141-143 | The store is left with no keys. |
| Polyfill.Contributions | polyfill.js:17-27 | Each source contributes its own properties; null, undefined and the target itself contribute nothing. |
| Polyfill.MergeKeys | polyfill.js:17-27 | The merged keys are exactly the target's keys and every source's own keys. |
| Polyfill.LastSourceWins | polyfill.js:17-27 | The last source owning a key decides its value. |
| Polyfill.UnownedKeyKept | polyfill.js:21-25 | A key no source owns keeps the target's value, or stays absent. |
| Polyfill.InheritedNotCopied | polyfill.js:21-25 | Keys that sources only inherit are not copied. |
| Polyfill.Assign | polyfill.js:9-30 | A null or undefined target raises TypeError; otherwise the target itself is returned, with the sources merged into it in place and in order. |
| Polyfill.CopyOwn | polyfill.js:21-26 | The `for ... in` loop writes exactly the source's own properties onto the target. |

## Left out

- UI.js: the dialogs themselves. Alerts and prompt texts are appended to a log, the user's answers are parameters, and the yes/no dialog is logged as a prompt.
- main.js: the menus (`onOpen`) and the help page (`menuHelp_`). They only wire buttons to the modelled actions.
- main.js: how the active sheet, its named ranges and the active cell are obtained. They are parameters of the update actions.
- userSheetsModule.js is not part of this model. It is an older copy of the same operations that nothing calls, and it relies on an object the other files do not define.
- `spreadsheetExistsInFolder` (sheetsAndDriveInteractions.js:99-109) is not modelled. It calls a function that is not defined anywhere and can only raise.
- The regular-expression engine. `Controller.EmailLikeIffRegex` proves the script's test equal to an explicit description of the one pattern used.
- `setContent`'s administrator-list branch is not modelled. The content enumeration has no value that reaches it.
- Cell formatting, formulas, A1 string parsing and the host's rules about which editors a protection keeps.
  - Cells hold strings.
  - A protection's editors are exactly what the script sets.
  - The effective user added at spreadsheetFunctions.js:99 is removed again with the other editors. The host's rule that keeps the owner an editor is not modelled.
- Property values are strings and settings objects are snapshots. The store is changed through the settings object, except in `clearAllProperties` (controller.js:142), which empties the document property store directly.
- Provisioning.CreateNewSpreadsheets: the new spreadsheet is placed at the end of the folder listing.
- MainActions.UpdateAllSheets, FolderSettings.InitializeAllSheets: these, like FolderSettings.ProvisionCaught and Provisioning.CreateNewSpreadsheets, require the master spreadsheet to lie outside the target folder. The scripts (main.js:154-177, folderProperties.js:98-127) also accept a folder that holds the master. A pass would then rewrite the master's own sheets while it still reads them as sources, and the model says nothing about that case.
  - Distinct files of the folder are required to be distinct spreadsheets, here and in the other update actions.
- Propagation.UpdateSheetsAndRanges: sheet names in a spreadsheet need not be unique. `setName` to an existing name, which the host refuses, is not modelled as an error.
- MainActions.UpdateRange, MainActions.UpdateCurrentSheet and MainActions.UpdateAllSheets state the folder's new contents through a ghost outcome (`FolderSpec` of the old contents). They do not restate each cycle.
- Polyfill.Assign: a primitive target, which `Object(target)` would wrap, is not modelled. Sources are objects, null or undefined, and only enumerable string-valued properties are modelled.
- Concurrency and host quotas: each action runs alone, and host calls do not fail except as listed under the host behaviour above.
