/**
 * `folderProperties` (folderProperties.js:4-96): the script's settings, read
 * once from the document's property store when the object is built, and
 * `initializeAllSheets_` (folderProperties.js:98-127), which checks them
 * before provisioning one spreadsheet per user name.
 */
module FolderSettings {
  import opened Wrappers
  import opened Host
  import opened Text
  import opened DriveListing
  import opened MainUtilities
  import opened Propagation
  import opened Provisioning

  const UserListKey: string := "USER_LIST"
  const AdminEmailListKey: string := "ADMIN_EMAIL_LIST"
  const FolderIdKey: string := "FOLDER_ID"
  const TitleAppendKey: string := "TITLE_APPEND"
  const ProtectionBoolKey: string := "PROTECTION_BOOL"

  const NoTitlesAlert: string := "You must set at least one title in the Initialize\n    Sheets --> Set User Names menu."
  const NoFolderAlert: string := "You must set the Drive folder's ID in the Initialize\n    Sheets --> Set Drive Folder ID menu."
  const InitErrorAlert: string :=
    "An error has occurred. Please ensure that all \n      values in the Initialize Sheets menu have been set properly."

  /** `getProperty(key)`: the stored value, or null when the key is unset. */
  function Lookup(props: map<string, string>, key: string): (r: Option<string>)
    ensures r.Some? <==> key in props
    ensures r.Some? ==> r.value == props[key]
  {
    if key in props then Some(props[key]) else None
  }

  /** JavaScript truthiness of a value that is a string or null: null and "" are falsy. */
  predicate Falsy(v: Option<string>)
  {
    v.None? || v.value == ""
  }

  class FolderProperties {
    const properties: PropertyStore
    const userList: Option<string>
    const adminEmailList: Option<string>
    const folderId: Option<string>
    const titleAppend: Option<string>
    const protectionBool: Option<string>

    /** Lines 5-12: every setting is read once, here. */
    constructor (properties: PropertyStore)
      ensures this.properties == properties
      ensures userList == Lookup(properties.props, UserListKey)
      ensures adminEmailList == Lookup(properties.props, AdminEmailListKey)
      ensures folderId == Lookup(properties.props, FolderIdKey)
      ensures titleAppend == Lookup(properties.props, TitleAppendKey)
      ensures protectionBool == Lookup(properties.props, ProtectionBoolKey)
    {
      this.properties := properties;
      userList := Lookup(properties.props, UserListKey);
      adminEmailList := Lookup(properties.props, AdminEmailListKey);
      folderId := Lookup(properties.props, FolderIdKey);
      titleAppend := Lookup(properties.props, TitleAppendKey);
      protectionBool := Lookup(properties.props, ProtectionBoolKey);
    }

    /**
     * Lines 20-26: the stored list split on ",", untrimmed; `split` on null
     * raises, which is caught and gives null. The pieces hold no comma and
     * join back into the stored string.
     */
    function GetUserList(): (r: Option<seq<string>>)
      ensures r.None? <==> userList.None?
      ensures r.Some? ==> |r.value| >= 1 && SepFree(r.value, ',') && Join(r.value, ',') == userList.value
    {
      match userList
      case None => None
      case Some(s) => JoinSplit(s, ','); Some(Split(s, ','))
    }

    /** Lines 34-40, the same for the administrators' emails. */
    function GetAdminEmailList(): (r: Option<seq<string>>)
      ensures r.None? <==> adminEmailList.None?
      ensures r.Some? ==> |r.value| >= 1 && SepFree(r.value, ',') && Join(r.value, ',') == adminEmailList.value
    {
      match adminEmailList
      case None => None
      case Some(s) => JoinSplit(s, ','); Some(Split(s, ','))
    }

    /** Lines 48-54. */
    function GetFolderId(): Option<string>
    {
      folderId
    }

    /** Lines 62-68. */
    function GetTitleAppend(): Option<string>
    {
      titleAppend
    }

    /** Lines 78-84. */
    function GetProtectionBool(): Option<string>
    {
      protectionBool
    }

    /** Lines 93-95: the store changes; the values read at construction do not. */
    method SetProperty(key: string, value: string)
      modifies properties
      ensures properties.props == old(properties.props)[key := value]
    {
      properties.SetProperty(key, value);
    }
  }

  /** A list stored by joining comma-free names is read back as those names. */
  lemma UserListRoundTrip(settings: FolderProperties, names: seq<string>)
    requires |names| >= 1 && SepFree(names, ',') && settings.userList == Some(Join(names, ','))
    ensures settings.GetUserList() == Some(names)
  {
    SplitJoin(names, ',');
  }

  /** Lines 104-106: a null or empty suffix becomes "". */
  function TitleSuffix(appendToTitle: Option<string>): (r: string)
    ensures r == "" <==> Falsy(appendToTitle)
    ensures r != "" ==> appendToTitle == Some(r)
  {
    if Falsy(appendToTitle) then "" else appendToTitle.value
  }

  /** The alert of lines 114-117, shown when no folder ID is set; the run goes on all the same. */
  function FolderAlerts(folderId: Option<string>): (r: seq<string>)
    ensures r == [] <==> !Falsy(folderId)
    ensures r != [] ==> r == [NoFolderAlert]
  {
    if Falsy(folderId) then [NoFolderAlert] else []
  }

  /** The alert of lines 122-125, shown when provisioning raised. */
  function CaughtAlerts(status: Status): (r: seq<string>)
    ensures r == [] <==> status.Ok?
    ensures r != [] ==> r == [InitErrorAlert]
  {
    if status.Thrown? then [InitErrorAlert] else []
  }

  /**
   * Lines 119-125: `createNewSpreadsheets` on the list read from the
   * settings, whose exception is caught and answered with one alert.
   */
  method ProvisionCaught(drive: Drive, folderId: Option<string>, names: seq<string>, suffix: string, master: Spreadsheet, ui: Ui)
    returns (created: seq<Spreadsheet>, status: Status, ghost plan: FolderOutcome)
    requires |names| >= 1
    requires Distinct(Targets(drive, folderId)) && master !in Targets(drive, folderId)
    modifies drive, (set b | b in Targets(drive, folderId)), ui
    ensures ui.prompts == old(ui.prompts)
    ensures forall c :: c in created ==> fresh(c)
    ensures var titles := Titles(Arr(names), suffix).value;
      && |created| <= |titles| && TitlesOf(created) == titles[..|created|]
      && (status.Ok? ==> |created| == |titles|)
    ensures old(FolderFiles(drive, folderId)).None? ==>
      && drive.folders == old(drive.folders)
      && status == Thrown(FolderNotFound) && |created| == 1 && created[0].sheets == [DefaultSheet]
      && ui.alerts == old(ui.alerts) + [InitErrorAlert]
    ensures old(FolderFiles(drive, folderId)).Some? ==>
      var titles := Titles(Arr(names), suffix).value;
      var books := old(Targets(drive, folderId));
      && plan == ProvisionSpec(old(States(books)), Mays(books), |titles|, old(master.sheets), SheetProtectionsOf(old(master.sheets)))
      && drive.folders == old(drive.folders)[folderId.value := old(drive.folders[folderId.value]) + FilesOf(created)]
      && Targets(drive, folderId) == books + created
      && States(books + created) == plan.states
      && status == plan.status
      && ui.alerts == old(ui.alerts) + plan.alerts + CaughtAlerts(status)
  {
    created, status, plan := CreateNewSpreadsheets(drive, folderId, Arr(names), suffix, master, ui);
    ghost var made := Targets(drive, folderId);
    ghost var states := States(made);
    if status.Thrown? {
      ui.DisplayAlert(InitErrorAlert);
      assert States(made) == states;
    }
  }

  /**
   * `initializeAllSheets_` (lines 98-127). Without a user list it alerts
   * and stops. Without a folder ID it alerts and still calls
   * `createNewSpreadsheets`, which then makes one spreadsheet and raises;
   * whatever that call raises is caught and answered with one alert.
   * `status` is what `createNewSpreadsheets` ended with (Ok when it was not
   * called).
   */
  method InitializeAllSheets(settings: FolderProperties, drive: Drive, master: Spreadsheet, ui: Ui)
    returns (created: seq<Spreadsheet>, status: Status, ghost plan: FolderOutcome)
    requires Distinct(Targets(drive, settings.folderId)) && master !in Targets(drive, settings.folderId)
    modifies drive, (set b | b in Targets(drive, settings.folderId)), ui
    ensures ui.prompts == old(ui.prompts)
    ensures forall c :: c in created ==> fresh(c)
    ensures settings.userList.None? ==>
      created == [] && status == Ok && drive.folders == old(drive.folders) && ui.alerts == old(ui.alerts) + [NoTitlesAlert]
    ensures settings.userList.Some? ==>
      var titles := Titles(Arr(settings.GetUserList().value), TitleSuffix(settings.titleAppend)).value;
      && |created| <= |titles| && TitlesOf(created) == titles[..|created|]
      && (status.Ok? ==> |created| == |titles|)
    ensures settings.userList.Some? && old(FolderFiles(drive, settings.folderId)).None? ==>
      && drive.folders == old(drive.folders)
      && status == Thrown(FolderNotFound) && |created| == 1 && created[0].sheets == [DefaultSheet]
      && ui.alerts == old(ui.alerts) + FolderAlerts(settings.folderId) + [InitErrorAlert]
    ensures settings.userList.Some? && old(FolderFiles(drive, settings.folderId)).Some? ==>
      var titles := Titles(Arr(settings.GetUserList().value), TitleSuffix(settings.titleAppend)).value;
      var books := old(Targets(drive, settings.folderId));
      && plan == ProvisionSpec(old(States(books)), Mays(books), |titles|, old(master.sheets), SheetProtectionsOf(old(master.sheets)))
      && drive.folders == old(drive.folders)[settings.folderId.value := old(drive.folders[settings.folderId.value]) + FilesOf(created)]
      && Targets(drive, settings.folderId) == books + created
      && States(books + created) == plan.states
      && status == plan.status
      && ui.alerts == old(ui.alerts) + FolderAlerts(settings.folderId) + plan.alerts + CaughtAlerts(status)
  {
    var nameList := settings.GetUserList();
    var driveFolderId := settings.GetFolderId();
    var appendToTitle := TitleSuffix(settings.GetTitleAppend());
    plan := FolderOutcome([], [], Ok);
    ghost var books := Targets(drive, driveFolderId);
    ghost var states := States(books);
    if nameList.None? {
      ui.DisplayAlert(NoTitlesAlert);
      return [], Ok, plan;
    }
    if Falsy(driveFolderId) {
      ui.DisplayAlert(NoFolderAlert);
    }
    assert Targets(drive, driveFolderId) == books && States(books) == states;
    created, status, plan := ProvisionCaught(drive, driveFolderId, nameList.value, appendToTitle, master, ui);
  }
}
