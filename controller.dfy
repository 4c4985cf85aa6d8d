/**
 * The `controller` class of controller.js: it asks the user for a setting
 * and writes the answer into the document's property store, through the
 * settings object (`folderPropertiesObj`). Answers to prompts are
 * parameters: `response` is what `displayPrompt` returned (None when the
 * user cancelled) and `choice` what `displayYesNoChoice` returned.
 */
module Controller {
  import opened Wrappers
  import opened Host
  import opened Text
  import opened FolderSettings
  import opened MainActions

  /** `existingListText_` (line 6); the `\n` of the template is a newline. */
  const ExistingListText: string := "The existing entry is: \n"

  const NamePrompt: string :=
    "Please enter a list of comma-separated names, or a single name, \n            that will each have their own Spreadsheet, made from the Master \n            Sheet."
  const FolderIdPrompt: string :=
    "Please enter the Google Drive folder's ID. This is the alphanumeric code \n            in the URL when you navigate to the Drive folder in question."
  const TitlePrompt: string :=
    "Please enter the title you'd like appended to each user's\n            sheet."
  const ApplyPermissionsPrompt: string :=
    "Would you like \n        changes in range and sheet protections to be applied to the target \n        range(s) and sheet(s)?"
  /** `EMAIL_ERROR_TEXT` (line 82); the newline replacement of lines 83-84 leaves it as it is. */
  const EmailErrorText: string := "Error! This email is not valid: "

  /** `contentPropertyEnum` (folderProperties.js:129-133): each value is the key it is stored under. */
  datatype ContentProperty = UserList | FolderId | TitleAppend

  function KeyOf(kind: ContentProperty): (key: string)
    ensures key == match kind
      case UserList => UserListKey
      case FolderId => FolderIdKey
      case TitleAppend => TitleAppendKey
  {
    match kind
    case UserList => "USER_LIST"
    case FolderId => "FOLDER_ID"
    case TitleAppend => "TITLE_APPEND"
  }

  /** The answer of `displayYesNoChoice`: "YES", "NO", or null for cancel. */
  datatype Choice = Yes | No | Cancel

  /** Characters of `[a-zA-Z0-9._%-]`, the part before "@". */
  predicate LocalChar(c: char)
  {
    'a' <= c <= 'z' || 'A' <= c <= 'Z' || '0' <= c <= '9' || c == '.' || c == '_' || c == '%' || c == '-'
  }

  /** Characters of `[a-zA-Z\d\-]`, the part after "@". */
  predicate DomainChar(c: char)
  {
    'a' <= c <= 'z' || 'A' <= c <= 'Z' || '0' <= c <= '9' || c == '-'
  }

  /** The characters `.` does not match in a JavaScript regular expression. */
  predicate LineTerminator(c: char)
  {
    c == '\n' || c == '\r' || c == '\U{2028}' || c == '\U{2029}'
  }

  /**
   * `s[a..c+1]` is a match of `/[a-zA-Z0-9._%-]+@[a-zA-Z\d\-]+./` (line 78):
   * a non-empty local part `s[a..b]`, "@" at `b`, a non-empty domain part
   * `s[b+1..c]`, and any character but a line terminator at `c`.
   */
  ghost predicate MatchesAt(s: string, a: int, b: int, c: int)
  {
    && 0 <= a < b && b + 1 < c < |s|
    && (forall k :: a <= k < b ==> LocalChar(s[k]))
    && s[b] == '@'
    && (forall k :: b < k < c ==> DomainChar(s[k]))
    && !LineTerminator(s[c])
  }

  /** `EMAIL_REGEX.test(s)`: the pattern is not anchored, so a match anywhere in `s` will do. */
  ghost predicate EmailRegexTest(s: string)
  {
    exists a, b, c :: MatchesAt(s, a, b, c)
  }

  /** The test as the script can decide it: one local character, "@", one domain character, one more character. */
  predicate EmailLike(s: string)
  {
    exists i :: 1 <= i < |s| - 2 && ShortMatchAt(s, i)
  }

  /** The shortest match: one character on each side of "@" and one after. */
  predicate ShortMatchAt(s: string, i: int)
  {
    1 <= i && i + 2 < |s| && LocalChar(s[i - 1]) && s[i] == '@' && DomainChar(s[i + 1]) && !LineTerminator(s[i + 2])
  }

  /** A shortest match is a match. */
  lemma ShortMatchMatches(s: string, i: int)
    requires ShortMatchAt(s, i)
    ensures MatchesAt(s, i - 1, i, i + 2)
  {
    forall k | i - 1 <= k < i
      ensures LocalChar(s[k])
    {
      assert k == i - 1;
    }
    forall k | i < k < i + 2
      ensures DomainChar(s[k])
    {
      assert k == i + 1;
    }
  }

  /** Every match holds a shortest one around the same "@". */
  lemma ShortMatchInside(s: string, a: int, b: int, c: int)
    requires MatchesAt(s, a, b, c)
    ensures ShortMatchAt(s, b)
  {
    assert LocalChar(s[b - 1]);
    if c != b + 2 {
      assert DomainChar(s[b + 2]);
    }
  }

  /** The short test decides exactly what the regular expression matches. */
  lemma EmailLikeIffRegex(s: string)
    ensures EmailLike(s) <==> EmailRegexTest(s)
  {
    if EmailLike(s) {
      var i :| 1 <= i < |s| - 2 && ShortMatchAt(s, i);
      ShortMatchMatches(s, i);
    }
    if EmailRegexTest(s) {
      var a, b, c :| MatchesAt(s, a, b, c);
      ShortMatchInside(s, a, b, c);
    }
  }

  /** The index of the first entry that fails the test, which `setEmails_` reports (lines 88-94). */
  function FirstInvalid(entries: seq<string>): (r: Option<nat>)
    ensures r.Some? ==> r.value < |entries| && !EmailLike(entries[r.value])
    ensures r.Some? ==> forall j :: 0 <= j < r.value ==> EmailLike(entries[j])
    ensures r.None? ==> forall j :: 0 <= j < |entries| ==> EmailLike(entries[j])
  {
    if entries == [] then None
    else if !EmailLike(entries[0]) then Some(0)
    else
      match FirstInvalid(entries[1..])
      case None => None
      case Some(k) => Some(k + 1)
  }

  /** A list is saved exactly when every entry matches the email pattern. */
  lemma {:induction false} SavedIffAllMatch(entries: seq<string>)
    ensures FirstInvalid(entries).None? <==> forall e :: e in entries ==> EmailRegexTest(e)
  {
    if FirstInvalid(entries).None? {
      forall e | e in entries
        ensures EmailRegexTest(e)
      {
        EmailLikeIffRegex(e);
      }
    } else {
      var k := FirstInvalid(entries).value;
      EmailLikeIffRegex(entries[k]);
    }
  }

  /** `if (x) { prompt += existingListText_ + x }` for a list: any array, even [""], is truthy. */
  function ListNote(stored: Option<string>): string
  {
    if stored.None? then "" else ExistingListText + stored.value
  }

  /** The same for a string setting: null and "" add nothing. */
  function TextNote(stored: Option<string>): string
  {
    if Falsy(stored) then "" else ExistingListText + stored.value
  }

  /** The answer is written only when it is truthy: neither cancelled nor empty. */
  function Saved(props: map<string, string>, key: string, response: Option<string>): (r: map<string, string>)
    ensures Falsy(response) ==> r == props
    ensures !Falsy(response) ==> r == props[key := response.value]
  {
    if Falsy(response) then props else props[key := response.value]
  }

  /** What `applyPermissions_` stores for each answer (lines 126-135); cancel stores nothing. */
  function FlagFor(choice: Choice): Option<string>
  {
    match choice
    case Yes => Some("true")
    case No => Some("false")
    case Cancel => None
  }

  /** Protections are forwarded after an answer exactly when it was YES; after cancel the old flag stays. */
  lemma ChoiceTurnsProtectionsOn(props: map<string, string>, choice: Choice)
    ensures var after := if choice == Cancel then props else props[ProtectionBoolKey := FlagFor(choice).value];
      && (choice != Cancel ==> (ProtectionsOn(Lookup(after, ProtectionBoolKey)) <==> choice == Yes))
      && (choice == Cancel ==> Lookup(after, ProtectionBoolKey) == Lookup(props, ProtectionBoolKey))
  {
    if choice == No {
      assert "false" != "true" by { assert "false"[0] != "true"[0]; }
    }
  }

  class Controller {
    /** Line 6. */
    const existingListText: string := ExistingListText
    const settings: FolderProperties
    const ui: Ui

    /** Lines 5-7; `settings` and `ui` are the script's global settings object and dialogs. */
    constructor (settings: FolderProperties, ui: Ui)
      ensures this.settings == settings && this.ui == ui
    {
      this.settings := settings;
      this.ui := ui;
    }

    /** `setText_` (lines 109-115): the answer is saved under the key unless it is cancelled or empty. */
    method SetText(promptString: string, key: string, response: Option<string>)
      modifies settings.properties, ui
      ensures ui.prompts == old(ui.prompts) + [promptString] && ui.alerts == old(ui.alerts)
      ensures settings.properties.props == Saved(old(settings.properties.props), key, response)
    {
      ui.ShowPrompt(promptString);
      if !Falsy(response) {
        settings.SetProperty(key, response.value);
      }
    }

    /**
     * `setEmails_` (lines 77-100): the answer is split on ","; the first entry
     * that fails the pattern is reported and nothing is saved; when all
     * pass, the raw answer is saved under the key.
     */
    method SetEmails(promptString: string, key: string, response: Option<string>)
      modifies settings.properties, ui
      ensures ui.prompts == old(ui.prompts) + [promptString]
      ensures Falsy(response) ==> settings.properties.props == old(settings.properties.props) && ui.alerts == old(ui.alerts)
      ensures !Falsy(response) ==>
        var entries := Split(response.value, ',');
        match FirstInvalid(entries)
        case None =>
          settings.properties.props == old(settings.properties.props)[key := response.value] && ui.alerts == old(ui.alerts)
        case Some(k) =>
          settings.properties.props == old(settings.properties.props) && ui.alerts == old(ui.alerts) + [EmailErrorText + entries[k]]
    {
      ui.ShowPrompt(promptString);
      if !Falsy(response) {
        var emailsSplit := Split(response.value, ',');
        var validResponse := true;
        var i := 0;
        while i < |emailsSplit|
          invariant 0 <= i <= |emailsSplit|
          invariant validResponse
          invariant forall j :: 0 <= j < i ==> EmailLike(emailsSplit[j])
          invariant ui.alerts == old(ui.alerts)
          invariant ui.prompts == old(ui.prompts) + [promptString]
          invariant settings.properties.props == old(settings.properties.props)
        {
          if !EmailLike(emailsSplit[i]) {
            ui.DisplayAlert(EmailErrorText + emailsSplit[i]);
            validResponse := false;
            FirstInvalidAt(emailsSplit, i);
            break;
          }
          i := i + 1;
        }
        if validResponse {
          settings.SetProperty(key, response.value);
        }
      }
    }

    /**
     * `setContent` (lines 14-67): each kind prompts with its own text, to
     * which the current value is appended when there is one, and is saved
     * through `setText_` under the kind's own key. For the user list the
     * appended text is the stored list: split and joined again.
     */
    method SetContent(kind: ContentProperty, response: Option<string>)
      modifies settings.properties, ui
      ensures ui.prompts == old(ui.prompts) + [match kind
        case UserList => NamePrompt + ListNote(settings.userList)
        case FolderId => FolderIdPrompt + TextNote(settings.folderId)
        case TitleAppend => TitlePrompt + TextNote(settings.titleAppend)]
      ensures ui.alerts == old(ui.alerts)
      ensures settings.properties.props == Saved(old(settings.properties.props), KeyOf(kind), response)
    {
      match kind
      case UserList =>
        var currentUserList := settings.GetUserList();
        var prompt := NamePrompt;
        if currentUserList.Some? {
          prompt := prompt + existingListText + Join(currentUserList.value, ',');
        }
        assert prompt == NamePrompt + ListNote(settings.userList);
        SetText(prompt, KeyOf(kind), response);
      case FolderId =>
        var currentFolderId := settings.GetFolderId();
        var prompt := FolderIdPrompt;
        if !Falsy(currentFolderId) {
          prompt := prompt + existingListText + currentFolderId.value;
        }
        assert prompt == FolderIdPrompt + TextNote(settings.folderId);
        SetText(prompt, KeyOf(kind), response);
      case TitleAppend =>
        var currentTitleAppend := settings.GetTitleAppend();
        var prompt := TitlePrompt;
        if !Falsy(currentTitleAppend) {
          prompt := prompt + existingListText + currentTitleAppend.value;
        }
        assert prompt == TitlePrompt + TextNote(settings.titleAppend);
        SetText(prompt, KeyOf(kind), response);
    }

    /** `applyPermissions_` (lines 121-136): YES stores "true", NO stores "false", cancel stores nothing. */
    method ApplyPermissions(choice: Choice)
      modifies settings.properties, ui
      ensures ui.prompts == old(ui.prompts) + [ApplyPermissionsPrompt] && ui.alerts == old(ui.alerts)
      ensures choice == Cancel ==> settings.properties.props == old(settings.properties.props)
      ensures choice != Cancel ==>
        settings.properties.props == old(settings.properties.props)[ProtectionBoolKey := FlagFor(choice).value]
    {
      ui.ShowPrompt(ApplyPermissionsPrompt);
      match choice
      case Yes => settings.SetProperty("PROTECTION_BOOL", "true");
      case No => settings.SetProperty("PROTECTION_BOOL", "false");
      case Cancel => return;
    }

    /** `clearAllProperties` (lines 141-143): the document's store is left with no keys. */
    method ClearAllProperties()
      modifies settings.properties
      ensures settings.properties.props == map[]
    {
      settings.properties.DeleteAllProperties();
    }
  }

  /** The loop's `break` happens at the first failing entry. */
  lemma {:induction false} FirstInvalidAt(entries: seq<string>, i: nat)
    requires i < |entries| && !EmailLike(entries[i])
    requires forall j :: 0 <= j < i ==> EmailLike(entries[j])
    ensures FirstInvalid(entries) == Some(i)
  {
    if i > 0 {
      FirstInvalidAt(entries[1..], i - 1);
    }
  }
}
