/**
 * The sheet and protection operations of spreadsheetFunctions.js
 * (lines 12-182): removing the "Copy of " prefix, looking a sheet up by name,
 * deleting sheets by name, and removing, replacing and reconciling
 * protections. The whole-folder propagation built on them is in propagation.dfy.
 *
 * A JavaScript reference to a sheet becomes its index in the spreadsheet's
 * `sheets`. The ranges handed to the protection operations all lie on one
 * sheet, the one whose index is passed alongside them.
 */
module SpreadsheetFunctions {
  import opened Wrappers
  import opened Text
  import opened Host

  /** What an operation on one sheet leaves behind. */
  datatype SheetOutcome = SheetOutcome(sheet: Sheet, alerts: seq<string>, status: Status)

  // ---------------------------------------------------------------------------
  // removeCopyOfPrefixFromSheets

  /** A character matched by JavaScript's `\s`. */
  predicate IsJsSpace(c: char)
  {
    || c == ' ' || c == '\t' || c == '\n' || c == '\r' || c == '\U{B}' || c == '\U{C}'
    || c == '\U{A0}' || c == '\U{1680}' || ('\U{2000}' <= c <= '\U{200A}')
    || c == '\U{2028}' || c == '\U{2029}' || c == '\U{202F}' || c == '\U{205F}'
    || c == '\U{3000}' || c == '\U{FEFF}'
  }

  /** The name matches `/^Copy\sof\s/`. */
  predicate HasCopyOfPrefix(name: string)
  {
    |name| >= |CopyPrefix| && name[..4] == "Copy" && IsJsSpace(name[4])
      && name[5..7] == "of" && IsJsSpace(name[7])
  }

  /** `name.replace(/^Copy\sof\s/, '')`: one leading match is cut off, anything else is kept. */
  function StripCopyOf(name: string): (r: string)
    ensures HasCopyOfPrefix(name) ==> name == name[..|CopyPrefix|] + r
    ensures !HasCopyOfPrefix(name) ==> r == name
  {
    if HasCopyOfPrefix(name) then name[|CopyPrefix|..] else name
  }

  /** The name the host gives a copy is turned back into the original name. */
  lemma StripCopyOfRestores(s: string)
    ensures StripCopyOf(CopyPrefix + s) == s
  {
    var n := CopyPrefix + s;
    assert n[..4] == "Copy" && n[5..7] == "of" && n[4] == ' ' && n[7] == ' ';
    assert n[|CopyPrefix|..] == s;
  }

  /** Only one prefix goes: a copy of a copy keeps one "Copy of ". */
  lemma StripCopyOfOnce(s: string)
    ensures StripCopyOf(CopyPrefix + CopyPrefix + s) == CopyPrefix + s
  {
    assert CopyPrefix + CopyPrefix + s == CopyPrefix + (CopyPrefix + s);
    StripCopyOfRestores(CopyPrefix + s);
  }

  /** Any whitespace the regular expression's `\s` accepts counts, in either place, not only the space. */
  lemma StripCopyOfAnySpaces(c1: char, c2: char, s: string)
    requires IsJsSpace(c1) && IsJsSpace(c2)
    ensures StripCopyOf("Copy" + [c1] + "of" + [c2] + s) == s
  {
    var n := "Copy" + [c1] + "of" + [c2] + s;
    assert n[..4] == "Copy" && n[4] == c1 && n[5..7] == "of" && n[7] == c2;
    assert n[|CopyPrefix|..] == s;
  }

  /** The name after k prefix removals (a sheet listed k times is renamed k times). */
  function StripTimes(name: string, k: nat): string
  {
    if k == 0 then name else StripTimes(StripCopyOf(name), k - 1)
  }

  lemma {:induction false} StripTimesMore(name: string, k: nat)
    ensures StripTimes(name, k + 1) == StripCopyOf(StripTimes(name, k))
  {
    if k > 0 {
      StripTimesMore(StripCopyOf(name), k - 1);
    }
  }

  /** How many times j is listed. */
  function Occurrences(xs: seq<nat>, j: nat): nat
  {
    if xs == [] then 0
    else Occurrences(xs[..|xs| - 1], j) + (if xs[|xs| - 1] == j then 1 else 0)
  }

  /** Every sheet renamed once per time its index is listed. */
  function RenamedBy(sheets: seq<Sheet>, listed: seq<nat>): (r: seq<Sheet>)
    ensures |r| == |sheets|
  {
    seq(|sheets|, j requires 0 <= j < |sheets| => sheets[j].(name := StripTimes(sheets[j].name, Occurrences(listed, j))))
  }

  lemma RenamedByOneMore(sheets: seq<Sheet>, listed: seq<nat>, t: nat)
    requires t < |sheets|
    ensures var before := RenamedBy(sheets, listed);
      RenamedBy(sheets, listed + [t]) == before[t := before[t].(name := StripCopyOf(before[t].name))]
  {
    assert (listed + [t])[..|listed|] == listed;
    StripTimesMore(sheets[t].name, Occurrences(listed, t));
  }

  /** `removeCopyOfPrefixFromSheets`: each listed sheet is renamed once per time it is listed. */
  method RemoveCopyOfPrefixFromSheets(ss: Spreadsheet, targets: seq<nat>)
    requires forall t :: t in targets ==> t < |ss.sheets|
    modifies ss
    ensures ss.sheets == RenamedBy(old(ss.sheets), targets)
  {
    assert ss.sheets == RenamedBy(old(ss.sheets), targets[..0]);
    var i := 0;
    while i < |targets|
      invariant 0 <= i <= |targets|
      invariant ss.sheets == RenamedBy(old(ss.sheets), targets[..i])
    {
      var t := targets[i];
      assert t in targets;
      assert targets[..i + 1] == targets[..i] + [t];
      RenamedByOneMore(old(ss.sheets), targets[..i], t);
      ss.sheets := ss.sheets[t := ss.sheets[t].(name := StripCopyOf(ss.sheets[t].name))];
      i := i + 1;
    }
    assert targets[..i] == targets;
  }

  // ---------------------------------------------------------------------------
  // sheetNameExistsInSpreadsheet

  /** `sheetNameExistsInSpreadsheet`: true exactly when some sheet has that name. */
  method SheetNameExistsInSpreadsheet(sheetName: string, ss: Spreadsheet) returns (found: bool)
    ensures found <==> NameExists(ss.sheets, sheetName)
  {
    var sheets := ss.sheets;
    var i := 0;
    while i < |sheets|
      invariant 0 <= i <= |sheets|
      invariant forall j :: 0 <= j < i ==> sheets[j].name != sheetName
    {
      if sheets[i].name == sheetName {
        return true;
      }
      i := i + 1;
    }
    return false;
  }

  // ---------------------------------------------------------------------------
  // clearSheetsWithName

  /** For each listed name that a sheet has, the first such sheet is deleted. */
  function ClearSpec(sheets: seq<Sheet>, names: seq<string>): Outcome
  {
    if names == [] then Outcome(sheets, [], Ok)
    else if !NameExists(sheets, names[0]) then ClearSpec(sheets, names[1..])
    else if |sheets| == 1 then Outcome(sheets, [], Thrown(LastSheet))
    else ClearSpec(RemoveAt(sheets, FindByName(sheets, names[0])), names[1..])
  }

  /** `clearSheetsWithName`. The host refuses to delete the only sheet. */
  method ClearSheetsWithName(names: seq<string>, ss: Spreadsheet) returns (status: Status)
    modifies ss
    ensures Outcome(ss.sheets, [], status) == ClearSpec(old(ss.sheets), names)
  {
    var i := 0;
    while i < |names|
      invariant 0 <= i <= |names|
      invariant ClearSpec(old(ss.sheets), names) == ClearSpec(ss.sheets, names[i..])
    {
      assert names[i..][0] == names[i] && names[i..][1..] == names[i + 1..];
      var found := SheetNameExistsInSpreadsheet(names[i], ss);
      if found {
        var at := FindByName(ss.sheets, names[i]);
        if |ss.sheets| == 1 {
          return Thrown(LastSheet);
        }
        ss.sheets := RemoveAt(ss.sheets, at);
      }
      i := i + 1;
    }
    return Ok;
  }

  /** The sheets whose names are not in `names`, in order. */
  function Kept(sheets: seq<Sheet>, names: set<string>): (r: seq<Sheet>)
    ensures forall s :: s in r <==> s in sheets && s.name !in names
  {
    if sheets == [] then []
    else (if sheets[0].name in names then [] else [sheets[0]]) + Kept(sheets[1..], names)
  }

  lemma {:induction false} KeptRemoveAt(sheets: seq<Sheet>, i: nat, names: set<string>)
    requires i < |sheets| && sheets[i].name in names
    ensures Kept(RemoveAt(sheets, i), names) == Kept(sheets, names)
  {
    if i > 0 {
      KeptRemoveAt(sheets[1..], i - 1, names);
      assert RemoveAt(sheets, i)[1..] == RemoveAt(sheets[1..], i - 1);
    } else {
      assert RemoveAt(sheets, i) == sheets[1..];
    }
  }

  /** Sheets with unlisted names are neither removed nor reordered, whatever happens. */
  lemma {:induction false} ClearKeepsOtherSheets(sheets: seq<Sheet>, names: seq<string>, listed: set<string>)
    requires forall n :: n in names ==> n in listed
    ensures Kept(ClearSpec(sheets, names).sheets, listed) == Kept(sheets, listed)
  {
    if names != [] {
      if NameExists(sheets, names[0]) && |sheets| > 1 {
        KeptRemoveAt(sheets, FindByName(sheets, names[0]), listed);
        ClearKeepsOtherSheets(RemoveAt(sheets, FindByName(sheets, names[0])), names[1..], listed);
      } else if !NameExists(sheets, names[0]) {
        ClearKeepsOtherSheets(sheets, names[1..], listed);
      }
    }
  }

  predicate UniqueNames(sheets: seq<Sheet>)
  {
    forall i, j :: 0 <= i < j < |sheets| ==> sheets[i].name != sheets[j].name
  }

  /** Deleting sheets never makes one up. */
  lemma {:induction false} ClearOnlyDeletes(sheets: seq<Sheet>, names: seq<string>)
    ensures forall s :: s in ClearSpec(sheets, names).sheets ==> s in sheets
  {
    if names != [] {
      if NameExists(sheets, names[0]) && |sheets| > 1 {
        var rest := RemoveAt(sheets, FindByName(sheets, names[0]));
        ClearOnlyDeletes(rest, names[1..]);
        forall s | s in rest ensures s in sheets {
          var j :| 0 <= j < |rest| && rest[j] == s;
          if j >= FindByName(sheets, names[0]) {
            assert s == sheets[j + 1];
          }
        }
      } else if !NameExists(sheets, names[0]) {
        ClearOnlyDeletes(sheets, names[1..]);
      }
    }
  }

  /** With unique names, deleting the first sheet called n leaves none called n. */
  lemma RemoveFirstNamed(sheets: seq<Sheet>, n: string)
    requires UniqueNames(sheets) && NameExists(sheets, n)
    ensures var rest := RemoveAt(sheets, FindByName(sheets, n));
      UniqueNames(rest) && !NameExists(rest, n)
  {
    var i := FindByName(sheets, n);
    var rest := RemoveAt(sheets, i);
    forall a, b | 0 <= a < b < |rest| ensures rest[a].name != rest[b].name {
      var a', b' := if a < i then a else a + 1, if b < i then b else b + 1;
      assert rest[a] == sheets[a'] && rest[b] == sheets[b'];
    }
    forall j | 0 <= j < |rest| ensures rest[j].name != n {
      var j' := if j < i then j else j + 1;
      assert rest[j] == sheets[j'];
    }
  }

  /** With unique names, a clear that ends normally leaves no sheet with a listed name. */
  lemma {:induction false} ClearRemovesListed(sheets: seq<Sheet>, names: seq<string>)
    requires UniqueNames(sheets)
    requires ClearSpec(sheets, names).status == Ok
    ensures forall s :: s in ClearSpec(sheets, names).sheets ==> s.name !in names
  {
    if names != [] {
      var n := names[0];
      var rest := if NameExists(sheets, n) then RemoveAt(sheets, FindByName(sheets, n)) else sheets;
      if NameExists(sheets, n) {
        RemoveFirstNamed(sheets, n);
      }
      ClearRemovesListed(rest, names[1..]);
      ClearOnlyDeletes(rest, names[1..]);
      forall s | s in ClearSpec(sheets, names).sheets ensures s.name !in names {
        assert s in rest;
        var j :| 0 <= j < |rest| && rest[j] == s;
        assert s.name != n;
        assert names == [n] + names[1..];
      }
    }
  }

  /** With unique names, a clear that ends normally leaves exactly the unlisted sheets, in order. */
  lemma ClearLeavesUnlisted(sheets: seq<Sheet>, names: seq<string>)
    requires UniqueNames(sheets)
    requires ClearSpec(sheets, names).status == Ok
    ensures ClearSpec(sheets, names).sheets == Kept(sheets, set n | n in names)
  {
    var listed := set n | n in names;
    ClearKeepsOtherSheets(sheets, names, listed);
    ClearRemovesListed(sheets, names);
    KeptNone(ClearSpec(sheets, names).sheets, listed);
  }

  lemma {:induction false} KeptNone(sheets: seq<Sheet>, names: set<string>)
    requires forall s :: s in sheets ==> s.name !in names
    ensures Kept(sheets, names) == sheets
  {
    if sheets != [] {
      assert sheets[0] in sheets;
      KeptNone(sheets[1..], names);
      assert sheets == [sheets[0]] + sheets[1..];
    }
  }

  // ---------------------------------------------------------------------------
  // unprotectRange

  /** The range protections whose rectangle is none of `rects`, in order. */
  function Unprotected(ps: seq<RangeProtection>, rects: seq<Rect>): (r: seq<RangeProtection>)
    ensures |r| <= |ps|
  {
    if ps == [] then []
    else (if ps[0].rect in rects then [] else [ps[0]]) + Unprotected(ps[1..], rects)
  }

  /** Exactly the protections at other rectangles survive. */
  lemma {:induction false} UnprotectedMembers(ps: seq<RangeProtection>, rects: seq<Rect>)
    ensures forall p :: p in Unprotected(ps, rects) <==> p in ps && p.rect !in rects
  {
    if ps != [] {
      UnprotectedMembers(ps[1..], rects);
      assert ps == [ps[0]] + ps[1..];
    }
  }

  predicate Touches(ps: seq<RangeProtection>, rects: seq<Rect>)
  {
    exists p :: p in ps && p.rect in rects
  }

  lemma {:induction false} UnprotectedAppend(ps: seq<RangeProtection>, p: RangeProtection, rects: seq<Rect>)
    ensures Unprotected(ps + [p], rects) == Unprotected(ps, rects) + (if p.rect in rects then [] else [p])
  {
    if ps != [] {
      assert (ps + [p])[1..] == ps[1..] + [p];
      UnprotectedAppend(ps[1..], p, rects);
    }
  }

  lemma {:induction false} UnprotectedUntouched(ps: seq<RangeProtection>, rects: seq<Rect>)
    requires !Touches(ps, rects)
    ensures Unprotected(ps, rects) == ps
  {
    if ps != [] {
      assert ps[0] in ps;
      UnprotectedUntouched(ps[1..], rects);
      assert ps == [ps[0]] + ps[1..];
    }
  }

  /** Removing for `a` and then for `b` is removing for both at once. */
  lemma {:induction false} UnprotectedTwice(ps: seq<RangeProtection>, a: seq<Rect>, b: seq<Rect>)
    ensures Unprotected(Unprotected(ps, a), b) == Unprotected(ps, a + b)
  {
    if ps != [] {
      UnprotectedTwice(ps[1..], a, b);
      var x := Unprotected(ps, a);
      assert (ps[0].rect in a + b) == (ps[0].rect in a || ps[0].rect in b);
      if ps[0].rect !in a {
        assert x == [ps[0]] + Unprotected(ps[1..], a);
        assert x[0] == ps[0] && x[1..] == Unprotected(ps[1..], a);
        assert Unprotected(x, b) == (if ps[0].rect in b then [] else [ps[0]]) + Unprotected(x[1..], b);
        assert Unprotected(ps, a + b) == (if ps[0].rect in b then [] else [ps[0]]) + Unprotected(ps[1..], a + b);
      } else {
        assert x == Unprotected(ps[1..], a);
        assert Unprotected(ps, a + b) == Unprotected(ps[1..], a + b);
      }
    }
  }

  /** Unprotecting the same ranges again changes nothing. */
  lemma UnprotectedIdempotent(ps: seq<RangeProtection>, rects: seq<Rect>)
    ensures Unprotected(Unprotected(ps, rects), rects) == Unprotected(ps, rects)
  {
    UnprotectedMembers(ps, rects);
    UnprotectedUntouched(Unprotected(ps, rects), rects);
  }

  /** The sheet after `unprotectRange`; the first `remove()` an account may not make raises. */
  function UnprotectSpec(sheet: Sheet, rects: seq<Rect>, may: bool): SheetOutcome
  {
    if !may && Touches(sheet.rangeProtections, rects) then SheetOutcome(sheet, [], Thrown(PermissionDenied))
    else SheetOutcome(sheet.(rangeProtections := Unprotected(sheet.rangeProtections, rects)), [], Ok)
  }

  /** The inner loop of `unprotectRange`: the protections at rectangle r are removed one by one. */
  method UnprotectOne(ss: Spreadsheet, sheet: nat, r: Rect) returns (status: Status)
    requires sheet < |ss.sheets|
    modifies ss
    ensures var o := UnprotectSpec(old(ss.sheets[sheet]), [r], ss.mayProtect);
      ss.sheets == old(ss.sheets)[sheet := o.sheet] && status == o.status
  {
    var existing := ss.sheets[sheet].rangeProtections;
    var kept := [];
    var k := 0;
    while k < |existing|
      invariant 0 <= k <= |existing|
      invariant ss.sheets == old(ss.sheets)
      invariant kept == Unprotected(existing[..k], [r])
      invariant !ss.mayProtect ==> !Touches(existing[..k], [r])
    {
      assert existing[..k + 1] == existing[..k] + [existing[k]];
      UnprotectedAppend(existing[..k], existing[k], [r]);
      if existing[k].rect == r {
        if !ss.mayProtect {
          assert existing[k] in existing && existing[k].rect in [r];
          return Thrown(PermissionDenied);
        }
      } else {
        kept := kept + [existing[k]];
      }
      k := k + 1;
    }
    assert existing[..k] == existing;
    ss.sheets := ss.sheets[sheet := ss.sheets[sheet].(rangeProtections := kept)];
    return Ok;
  }

  /** `unprotectRange`: every protection whose rectangle is one of `rects` is removed. */
  method UnprotectRange(ss: Spreadsheet, sheet: nat, rects: seq<Rect>) returns (status: Status)
    requires sheet < |ss.sheets|
    modifies ss
    ensures var o := UnprotectSpec(old(ss.sheets[sheet]), rects, ss.mayProtect);
      ss.sheets == old(ss.sheets)[sheet := o.sheet] && status == o.status
  {
    ghost var s0 := old(ss.sheets[sheet]);
    ghost var ps := s0.rangeProtections;
    UnprotectedUntouched(ps, []);
    assert ss.sheets == old(ss.sheets)[sheet := s0.(rangeProtections := Unprotected(ps, []))];
    var i := 0;
    while i < |rects|
      invariant 0 <= i <= |rects|
      invariant ss.sheets == old(ss.sheets)[sheet := s0.(rangeProtections := Unprotected(ps, rects[..i]))]
      invariant !ss.mayProtect ==> !Touches(ps, rects[..i])
    {
      if !ss.mayProtect {
        UnprotectedUntouched(ps, rects[..i]);
      }
      UnprotectedTwice(ps, rects[..i], [rects[i]]);
      assert rects[..i] + [rects[i]] == rects[..i + 1];
      status := UnprotectOne(ss, sheet, rects[i]);
      if status.Thrown? {
        return;
      }
      i := i + 1;
    }
    assert rects[..i] == rects;
    return Ok;
  }

  // ---------------------------------------------------------------------------
  // replaceRangeProtections

  const AdminProtectionAlert: string := "Cannot apply protections for admin."

  /** `addEditors`: the editors are appended. */
  function AddEditors(editors: seq<string>, more: seq<string>): seq<string>
  {
    editors + more
  }

  /** `removeEditors`: every editor in `gone` is dropped. */
  function RemoveEditors(editors: seq<string>, gone: seq<string>): (r: seq<string>)
    ensures forall e :: e in r <==> e in editors && e !in gone
  {
    if editors == [] then []
    else (if editors[0] in gone then [] else [editors[0]]) + RemoveEditors(editors[1..], gone)
  }

  lemma {:induction false} RemoveCovered(editors: seq<string>, gone: seq<string>)
    requires forall e :: e in editors ==> e in gone
    ensures RemoveEditors(editors, gone) == []
  {
    if editors != [] {
      assert editors[0] in editors;
      RemoveCovered(editors[1..], gone);
    }
  }

  /** Removing every current editor leaves none, whoever they were. */
  lemma RemoveEveryEditor(editors: seq<string>)
    ensures RemoveEditors(editors, editors) == []
  {
    RemoveCovered(editors, editors);
  }

  /** A new protection with the given editors for each range, in order. */
  function Fresh(rects: seq<Rect>, editors: seq<string>): (r: seq<RangeProtection>)
    ensures |r| == |rects|
    ensures forall i :: 0 <= i < |rects| ==> r[i] == RangeProtection(rects[i], editors)
  {
    seq(|rects|, i requires 0 <= i < |rects| => RangeProtection(rects[i], editors))
  }

  /**
   * The sheet after `replaceRangeProtections`: a protection granting exactly
   * `editors` is added for each range; an account that may not protect gets one
   * alert and no change.
   */
  function ReplaceSpec(sheet: Sheet, rects: seq<Rect>, editors: seq<string>, may: bool): SheetOutcome
  {
    if rects != [] && !may then SheetOutcome(sheet, [AdminProtectionAlert], Ok)
    else SheetOutcome(sheet.(rangeProtections := sheet.rangeProtections + Fresh(rects, editors)), [], Ok)
  }

  method ReplaceRangeProtections(ss: Spreadsheet, sheet: nat, rects: seq<Rect>, newEditors: seq<string>, ui: Ui)
    requires sheet < |ss.sheets|
    modifies ss, ui
    ensures ui.prompts == old(ui.prompts)
    ensures var o := ReplaceSpec(old(ss.sheets[sheet]), rects, newEditors, ss.mayProtect);
      ss.sheets == old(ss.sheets)[sheet := o.sheet] && ui.alerts == old(ui.alerts) + o.alerts
  {
    ghost var s0 := old(ss.sheets[sheet]);
    ghost var ps := s0.rangeProtections;
    assert ps + Fresh([], newEditors) == ps;
    assert ss.sheets == old(ss.sheets)[sheet := s0.(rangeProtections := ps + Fresh([], newEditors))];
    var i := 0;
    while i < |rects|
      invariant 0 <= i <= |rects|
      invariant i > 0 ==> ss.mayProtect
      invariant i == 0 ==> ss.sheets == old(ss.sheets)
      invariant ui.alerts == old(ui.alerts) && ui.prompts == old(ui.prompts)
      invariant ss.sheets == old(ss.sheets)[sheet := s0.(rangeProtections := ps + Fresh(rects[..i], newEditors))]
    {
      if !ss.mayProtect {
        // the first protect() raises; the catch alerts and returns
        ui.DisplayAlert(AdminProtectionAlert);
        return;
      }
      var editors: seq<string> := [];
      editors := AddEditors(editors, newEditors);
      RemoveEveryEditor(editors);
      editors := RemoveEditors(editors, editors);
      editors := AddEditors(editors, newEditors);
      assert editors == newEditors;
      var protection := RangeProtection(rects[i], editors);
      assert Fresh(rects[..i + 1], newEditors) == Fresh(rects[..i], newEditors) + [protection];
      assert ss.sheets[sheet].rangeProtections + [protection] == ps + Fresh(rects[..i + 1], newEditors);
      UpdateTwice(old(ss.sheets), sheet, ss.sheets[sheet], s0.(rangeProtections := ps + Fresh(rects[..i + 1], newEditors)));
      ss.sheets := ss.sheets[sheet := ss.sheets[sheet].(rangeProtections := ss.sheets[sheet].rangeProtections + [protection])];
      i := i + 1;
    }
    assert rects[..i] == rects;
  }

  // ---------------------------------------------------------------------------
  // setSheetProtections

  /** Each listed sheet ends with one sheet protection granting `editors`. */
  function ProtectSheets(sheets: seq<Sheet>, editors: seq<string>, targets: seq<nat>): (r: seq<Sheet>)
    ensures |r| == |sheets|
    ensures forall j :: 0 <= j < |sheets| && j !in targets ==> r[j] == sheets[j]
    ensures forall j :: 0 <= j < |sheets| && j in targets ==> r[j] == sheets[j].(protection := Some(editors))
  {
    seq(|sheets|, j requires 0 <= j < |sheets| =>
      if j in targets then sheets[j].(protection := Some(editors)) else sheets[j])
  }

  /** `setSheetProtections`; an account that may not protect is refused at the first sheet. */
  function SheetProtectSpec(sheets: seq<Sheet>, editors: seq<string>, targets: seq<nat>, may: bool): Outcome
  {
    if targets != [] && !may then Outcome(sheets, [], Thrown(PermissionDenied))
    else Outcome(ProtectSheets(sheets, editors, targets), [], Ok)
  }

  method SetSheetProtections(editorEmails: seq<string>, ss: Spreadsheet, targets: seq<nat>) returns (status: Status)
    requires forall t :: t in targets ==> t < |ss.sheets|
    modifies ss
    ensures Outcome(ss.sheets, [], status) == SheetProtectSpec(old(ss.sheets), editorEmails, targets, ss.mayProtect)
  {
    var i := 0;
    while i < |targets|
      invariant 0 <= i <= |targets|
      invariant i > 0 ==> ss.mayProtect
      invariant ss.sheets == ProtectSheets(old(ss.sheets), editorEmails, targets[..i])
    {
      var t := targets[i];
      assert t in targets;
      if ss.sheets[t].protection.Some? {
        if !ss.mayProtect {
          return Thrown(PermissionDenied);
        }
        ss.sheets := ss.sheets[t := ss.sheets[t].(protection := None)];
      }
      if !ss.mayProtect {
        return Thrown(PermissionDenied);
      }
      ss.sheets := ss.sheets[t := ss.sheets[t].(protection := Some(editorEmails))];
      assert targets[..i + 1] == targets[..i] + [t];
      i := i + 1;
    }
    assert targets[..i] == targets;
    return Ok;
  }

  /** Protecting the same sheets with the same editors a second time changes nothing more. */
  lemma SheetProtectIdempotent(sheets: seq<Sheet>, editors: seq<string>, targets: seq<nat>)
    requires SheetProtectSpec(sheets, editors, targets, true).status == Ok
    ensures var once := SheetProtectSpec(sheets, editors, targets, true).sheets;
      SheetProtectSpec(once, editors, targets, true) == Outcome(once, [], Ok)
  {
    var once := ProtectSheets(sheets, editors, targets);
    assert ProtectSheets(once, editors, targets) == once;
  }

  // ---------------------------------------------------------------------------
  // setRangeProtections

  function RectsOf(ps: seq<RangeProtection>): (r: seq<Rect>)
    ensures |r| == |ps| && forall i :: 0 <= i < |ps| ==> r[i] == ps[i].rect
  {
    seq(|ps|, i requires 0 <= i < |ps| => ps[i].rect)
  }

  function EditorsOf(ps: seq<RangeProtection>): (r: seq<seq<string>>)
    ensures |r| == |ps| && forall i :: 0 <= i < |ps| ==> r[i] == ps[i].editors
  {
    seq(|ps|, i requires 0 <= i < |ps| => ps[i].editors)
  }

  /** `Array.prototype.indexOf`: the first position holding x, or -1. */
  function IndexOf<T(==)>(xs: seq<T>, x: T): (i: int)
    ensures -1 <= i < |xs|
    ensures i >= 0 ==> xs[i] == x && forall j :: 0 <= j < i ==> xs[j] != x
    ensures i < 0 ==> x !in xs
  {
    if xs == [] then -1
    else if xs[0] == x then 0
    else
      var k := IndexOf(xs[1..], x);
      if k < 0 then -1 else k + 1
  }

  /** `editors.concat().sort().toString()`: the editors sorted and joined with ",". */
  function EditorKey(editors: seq<string>): string
  {
    Join(Sort(editors), ',')
  }

  predicate SameEditors(a: seq<string>, b: seq<string>)
  {
    EditorKey(a) == EditorKey(b)
  }

  /** The comparison ignores order and repetition counts only as a multiset does. */
  lemma SameEditorsOfPermutation(a: seq<string>, b: seq<string>)
    requires multiset(a) == multiset(b)
    ensures SameEditors(a, b)
  {
    SortOfPermutation(a, b);
  }

  /** A list of e-mail addresses: no entry is empty or holds a comma. */
  predicate EmailList(editors: seq<string>)
  {
    forall i :: 0 <= i < |editors| ==> editors[i] != "" && ',' !in editors[i]
  }

  lemma EmailListSorted(a: seq<string>)
    requires EmailList(a)
    ensures EmailList(Sort(a)) && SepFree(Sort(a), ',')
  {
    SortIsSortedPermutation(a);
    forall i | 0 <= i < |Sort(a)| ensures Sort(a)[i] != "" && ',' !in Sort(a)[i] {
      assert Sort(a)[i] in multiset(a);
    }
  }

  lemma JoinStartsWithFirst(parts: seq<string>, sep: char)
    requires |parts| >= 1
    ensures |Join(parts, sep)| >= |parts[0]| && Join(parts, sep)[..|parts[0]|] == parts[0]
  {
    if |parts| > 1 {
      assert Join(parts, sep) == parts[0] + ([sep] + Join(parts[1..], sep));
    }
  }

  /** For e-mail lists the comparison is exact: the same key means the same editors. */
  lemma SameEditorsIffSameMultiset(a: seq<string>, b: seq<string>)
    requires EmailList(a) && EmailList(b)
    ensures SameEditors(a, b) <==> multiset(a) == multiset(b)
  {
    if multiset(a) == multiset(b) {
      SameEditorsOfPermutation(a, b);
    } else if SameEditors(a, b) {
      SortIsSortedPermutation(a);
      SortIsSortedPermutation(b);
      EmailListSorted(a);
      EmailListSorted(b);
      var sa, sb := Sort(a), Sort(b);
      if |sa| >= 1 && |sb| >= 1 {
        SplitJoin(sa, ',');
        SplitJoin(sb, ',');
      } else if |sa| >= 1 {
        JoinStartsWithFirst(sa, ',');
      } else if |sb| >= 1 {
        JoinStartsWithFirst(sb, ',');
      }
    }
  }

  /**
   * The sheet after `setRangeProtections` for one range: the first protection at
   * the same rectangle is kept when its editors compare equal; otherwise it is
   * removed and replaced; with none, one is created.
   */
  function ProtectRangeSpec(sheet: Sheet, r: Rect, editors: seq<string>, may: bool): SheetOutcome
  {
    var i := IndexOf(RectsOf(sheet.rangeProtections), r);
    if i < 0 then ReplaceSpec(sheet, [r], editors, may)
    else if SameEditors(sheet.rangeProtections[i].editors, editors) then SheetOutcome(sheet, [], Ok)
    else if !may then SheetOutcome(sheet, [], Thrown(PermissionDenied))
    else ReplaceSpec(sheet.(rangeProtections := RemoveAt(sheet.rangeProtections, i)), [r], editors, may)
  }

  /** `setRangeProtections` over several ranges of one sheet, stopping at the first error. */
  function RangeProtectSpec(sheet: Sheet, rects: seq<Rect>, editors: seq<string>, may: bool): SheetOutcome
    decreases |rects|
  {
    if rects == [] then SheetOutcome(sheet, [], Ok)
    else
      var o := ProtectRangeSpec(sheet, rects[0], editors, may);
      if o.status.Thrown? then o
      else
        var rest := RangeProtectSpec(o.sheet, rects[1..], editors, may);
        SheetOutcome(rest.sheet, o.alerts + rest.alerts, rest.status)
  }

  /** The `push` loop of `setRangeProtections`: the editors and the rectangle of each existing protection. */
  method ListProtections(existing: seq<RangeProtection>) returns (editors: seq<seq<string>>, a1: seq<Rect>)
    ensures editors == EditorsOf(existing) && a1 == RectsOf(existing)
  {
    editors, a1 := [], [];
    var k := 0;
    while k < |existing|
      invariant 0 <= k <= |existing|
      invariant editors == EditorsOf(existing[..k]) && a1 == RectsOf(existing[..k])
    {
      editors := editors + [existing[k].editors];
      a1 := a1 + [existing[k].rect];
      k := k + 1;
    }
    assert existing[..k] == existing;
  }

  /** One pass of `setRangeProtections`' loop: the range `r` of the sheet. */
  method ProtectRange(editorEmails: seq<string>, ss: Spreadsheet, sheet: nat, r: Rect, ui: Ui) returns (status: Status)
    requires sheet < |ss.sheets|
    modifies ss, ui
    ensures ui.prompts == old(ui.prompts)
    ensures var o := ProtectRangeSpec(old(ss.sheets[sheet]), r, editorEmails, ss.mayProtect);
      ss.sheets == old(ss.sheets)[sheet := o.sheet] && ui.alerts == old(ui.alerts) + o.alerts && status == o.status
  {
    var existing := ss.sheets[sheet].rangeProtections;
    var existingEditors, existingA1 := ListProtections(existing);
    var index := IndexOf(existingA1, r);
    // existingRangeProtectionEditors[-1] is undefined, and any array is truthy
    if index >= 0 {
      if EditorKey(existingEditors[index]) != EditorKey(editorEmails) {
        if !ss.mayProtect {
          return Thrown(PermissionDenied);
        }
        ss.sheets := ss.sheets[sheet := ss.sheets[sheet].(rangeProtections := RemoveAt(existing, index))];
        ReplaceRangeProtections(ss, sheet, [r], editorEmails, ui);
      }
    } else {
      ReplaceRangeProtections(ss, sheet, [r], editorEmails, ui);
    }
    return Ok;
  }

  /** `setRangeProtections`: each range in turn; an exception stops the rest. */
  method SetRangeProtections(editorEmails: seq<string>, ss: Spreadsheet, sheet: nat, rects: seq<Rect>, ui: Ui)
    returns (status: Status)
    requires sheet < |ss.sheets|
    modifies ss, ui
    ensures ui.prompts == old(ui.prompts)
    ensures var o := RangeProtectSpec(old(ss.sheets[sheet]), rects, editorEmails, ss.mayProtect);
      ss.sheets == old(ss.sheets)[sheet := o.sheet] && ui.alerts == old(ui.alerts) + o.alerts && status == o.status
  {
    ghost var goal := RangeProtectSpec(old(ss.sheets[sheet]), rects, editorEmails, ss.mayProtect);
    ghost var cur := old(ss.sheets[sheet]);
    ghost var alerted: seq<string> := [];
    var i := 0;
    while i < |rects|
      invariant 0 <= i <= |rects|
      invariant ui.prompts == old(ui.prompts)
      invariant ss.sheets == old(ss.sheets)[sheet := cur]
      invariant ui.alerts == old(ui.alerts) + alerted
      invariant goal == Prepend(alerted, RangeProtectSpec(cur, rects[i..], editorEmails, ss.mayProtect))
    {
      ghost var o := ProtectRangeSpec(cur, rects[i], editorEmails, ss.mayProtect);
      RangeProtectStep(cur, rects, i, editorEmails, ss.mayProtect);
      status := ProtectRange(editorEmails, ss, sheet, rects[i], ui);
      UpdateTwice(old(ss.sheets), sheet, cur, o.sheet);
      if status.Thrown? {
        return;
      }
      PrependTwice(alerted, o.alerts, RangeProtectSpec(o.sheet, rects[i + 1..], editorEmails, ss.mayProtect));
      cur := o.sheet;
      alerted := alerted + o.alerts;
      i := i + 1;
    }
    return Ok;
  }

  lemma RangeProtectStep(cur: Sheet, rects: seq<Rect>, i: nat, editors: seq<string>, may: bool)
    requires i < |rects|
    ensures var o := ProtectRangeSpec(cur, rects[i], editors, may);
      RangeProtectSpec(cur, rects[i..], editors, may)
        == if o.status.Thrown? then o else Prepend(o.alerts, RangeProtectSpec(o.sheet, rects[i + 1..], editors, may))
  {
    assert rects[i..][0] == rects[i] && rects[i..][1..] == rects[i + 1..];
  }

  function Prepend(alerts: seq<string>, o: SheetOutcome): SheetOutcome
  {
    SheetOutcome(o.sheet, alerts + o.alerts, o.status)
  }

  lemma PrependTwice(a: seq<string>, b: seq<string>, o: SheetOutcome)
    ensures Prepend(a, Prepend(b, o)) == Prepend(a + b, o)
  {
    assert a + (b + o.alerts) == (a + b) + o.alerts;
  }

  /** At most one protection per rectangle, as the script itself maintains. */
  predicate UniqueRects(ps: seq<RangeProtection>)
  {
    forall i, j :: 0 <= i < j < |ps| ==> ps[i].rect != ps[j].rect
  }

  lemma AppendNewRect(ps: seq<RangeProtection>, p: RangeProtection)
    requires UniqueRects(ps) && p.rect !in RectsOf(ps)
    ensures UniqueRects(ps + [p])
  {
    forall a, b | 0 <= a < b < |ps| + 1 ensures (ps + [p])[a].rect != (ps + [p])[b].rect {
      if b == |ps| {
        assert RectsOf(ps)[a] == ps[a].rect;
      }
    }
  }

  lemma RemoveAtKeepsUnique(ps: seq<RangeProtection>, i: nat)
    requires UniqueRects(ps) && i < |ps|
    ensures UniqueRects(RemoveAt(ps, i)) && ps[i].rect !in RectsOf(RemoveAt(ps, i))
  {
    var rest := RemoveAt(ps, i);
    forall a, b | 0 <= a < b < |rest| ensures rest[a].rect != rest[b].rect {
      var a', b' := if a < i then a else a + 1, if b < i then b else b + 1;
      assert rest[a] == ps[a'] && rest[b] == ps[b'];
    }
    forall a | 0 <= a < |rest| ensures RectsOf(rest)[a] != ps[i].rect {
      var a' := if a < i then a else a + 1;
      assert rest[a] == ps[a'];
    }
  }

  /** The protections after reconciling range r, when the account may protect. */
  lemma ProtectRangeShape(sheet: Sheet, r: Rect, editors: seq<string>)
    requires UniqueRects(sheet.rangeProtections)
    ensures var o := ProtectRangeSpec(sheet, r, editors, true);
      var ps := sheet.rangeProtections;
      var i := IndexOf(RectsOf(ps), r);
      && o.status == Ok && o.alerts == []
      && (i < 0 ==> o.sheet == sheet.(rangeProtections := ps + [RangeProtection(r, editors)]))
      && (i >= 0 && SameEditors(ps[i].editors, editors) ==> o.sheet == sheet)
      && (i >= 0 && !SameEditors(ps[i].editors, editors) ==>
            o.sheet == sheet.(rangeProtections := RemoveAt(ps, i) + [RangeProtection(r, editors)]))
  {
    assert Fresh([r], editors) == [RangeProtection(r, editors)];
  }

  /** Appending the new protection after dropping the old one at its rectangle (if any). */
  lemma ReplacedAtEnd(ps: seq<RangeProtection>, r: Rect, editors: seq<string>)
    requires UniqueRects(ps)
    ensures var i := IndexOf(RectsOf(ps), r);
      var qs := (if i < 0 then ps else RemoveAt(ps, i)) + [RangeProtection(r, editors)];
      && UniqueRects(qs)
      && Unprotected(qs, [r]) == Unprotected(ps, [r])
      && IndexOf(RectsOf(qs), r) == |qs| - 1
      && qs[|qs| - 1].editors == editors
  {
    var i := IndexOf(RectsOf(ps), r);
    var added := RangeProtection(r, editors);
    if i < 0 {
      AppendNewRect(ps, added);
      UnprotectedAppend(ps, added, [r]);
      PositionOfNewRect(ps, added);
    } else {
      assert RectsOf(ps)[i] == r;
      var rest := RemoveAt(ps, i);
      RemoveAtKeepsUnique(ps, i);
      AppendNewRect(rest, added);
      UnprotectedAppend(rest, added, [r]);
      assert ps == ps[..i] + [ps[i]] + ps[i + 1..];
      assert rest == ps[..i] + ps[i + 1..];
      UnprotectedSplit(ps[..i], ps[i], ps[i + 1..], r);
      PositionOfNewRect(rest, added);
    }
  }

  /**
   * For an account that may protect: afterwards one protection sits at the
   * rectangle, the first one found there grants the requested editors (as the
   * comparison sees them), and every protection at another rectangle is kept,
   * in order.
   */
  lemma ProtectRangeResult(sheet: Sheet, r: Rect, editors: seq<string>)
    requires UniqueRects(sheet.rangeProtections)
    ensures var o := ProtectRangeSpec(sheet, r, editors, true);
      var qs := o.sheet.rangeProtections;
      && o.status == Ok && o.alerts == []
      && o.sheet == sheet.(rangeProtections := qs)
      && UniqueRects(qs)
      && Unprotected(qs, [r]) == Unprotected(sheet.rangeProtections, [r])
      && IndexOf(RectsOf(qs), r) >= 0
      && SameEditors(qs[IndexOf(RectsOf(qs), r)].editors, editors)
  {
    ProtectRangeShape(sheet, r, editors);
    var ps := sheet.rangeProtections;
    var i := IndexOf(RectsOf(ps), r);
    if i >= 0 && SameEditors(ps[i].editors, editors) {
      assert RectsOf(ps)[i] == r;
    } else {
      ReplacedAtEnd(ps, r, editors);
    }
  }

  lemma PositionOfNewRect(ps: seq<RangeProtection>, p: RangeProtection)
    requires p.rect !in RectsOf(ps)
    ensures IndexOf(RectsOf(ps + [p]), p.rect) == |ps|
    ensures (ps + [p])[|ps|] == p
  {
    var rs := RectsOf(ps + [p]);
    assert rs[|ps|] == p.rect;
    forall j | 0 <= j < |ps| ensures rs[j] != p.rect {
      assert rs[j] == ps[j].rect == RectsOf(ps)[j];
    }
  }

  lemma UnprotectedSplit(front: seq<RangeProtection>, p: RangeProtection, back: seq<RangeProtection>, r: Rect)
    requires p.rect == r
    ensures Unprotected(front + [p] + back, [r]) == Unprotected(front + back, [r])
  {
    UnprotectedConcat(front + [p], back, [r]);
    UnprotectedConcat(front, back, [r]);
    UnprotectedAppend(front, p, [r]);
  }

  lemma {:induction false} UnprotectedConcat(a: seq<RangeProtection>, b: seq<RangeProtection>, rects: seq<Rect>)
    ensures Unprotected(a + b, rects) == Unprotected(a, rects) + Unprotected(b, rects)
  {
    if a != [] {
      assert (a + b)[1..] == a[1..] + b;
      UnprotectedConcat(a[1..], b, rects);
    } else {
      assert a + b == b;
    }
  }

  /** Reconciling a range twice with the same editors changes nothing the second time. */
  lemma ProtectRangeIdempotent(sheet: Sheet, r: Rect, editors: seq<string>)
    requires UniqueRects(sheet.rangeProtections)
    ensures var once := ProtectRangeSpec(sheet, r, editors, true).sheet;
      ProtectRangeSpec(once, r, editors, true) == SheetOutcome(once, [], Ok)
  {
    ProtectRangeResult(sheet, r, editors);
  }
}
