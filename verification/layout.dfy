/** The dashboard layout's own logic: recognising the phone from the user
    agent, the phone-model dialog (shown on mount when no model is stored,
    saved only when the trimmed text is non-empty) and the active navigation
    item. */
module Layout {
  import opened Wrappers
  import opened Text
  import opened Browser

  // ---------------------------------------------------------------------
  // The two regular expressions with captures

  /** The length of the run of digits starting at `i` — what a greedy `\d*`
      consumes there. */
  predicate DigitsBetween(s: string, i: int, j: int) {
    forall k :: i <= k < j ==> 0 <= k < |s| && IsDigit(s[k])
  }

  function DigitRun(s: string, i: nat): (n: nat)
    requires i <= |s|
    ensures i + n <= |s|
    ensures DigitsBetween(s, i, i + n)
    ensures i + n == |s| || !IsDigit(s[i + n])
    decreases |s| - i
  {
    if i < |s| && IsDigit(s[i]) then 1 + DigitRun(s, i + 1) else 0
  }

  /** A digit run is determined by where it starts: any stretch of digits
      from `i` that is not followed by a digit is the one `DigitRun` finds. */
  lemma DigitRunUnique(s: string, i: nat, j: nat)
    requires i <= j <= |s|
    requires DigitsBetween(s, i, j)
    requires j == |s| || !IsDigit(s[j])
    ensures DigitRun(s, i) == j - i
  {
  }

  /** Nothing more of the digit class can follow position `j`. */
  predicate NoDigitAt(s: string, j: int) {
    0 <= j ==> j >= |s| || !IsDigit(s[j])
  }

  /** `/iPhone OS (\d+)_(\d+)/` and `/Android (\d+\.?\d*)/`. */
  datatype Pattern = IPhoneOs | AndroidVersion

  const IPhoneOsPrefix := "iPhone OS "
  const AndroidPrefix := "Android "

  /** The captures of `pattern` when matched starting exactly at `i`, or
      `None`. Every quantifier is greedy and nothing after it could force a
      shorter run (the `_` that follows the first group is not a digit), so
      no backtracking is needed. */
  function MatchAt(pattern: Pattern, ua: string, i: nat): (r: Option<seq<string>>)
    requires i <= |ua|
    ensures r.Some? ==> |r.value| == (if pattern == IPhoneOs then 2 else 1)
  {
    match pattern
    case IPhoneOs =>
      if !OccursAt(ua, i, IPhoneOsPrefix) then None
      else
        var p := i + |IPhoneOsPrefix|;
        var m := DigitRun(ua, p);
        if m == 0 || p + m == |ua| || ua[p + m] != '_' then None
        else
          var q := p + m + 1;
          var n := DigitRun(ua, q);
          if n == 0 then None else Some([ua[p..p + m], ua[q..q + n]])
    case AndroidVersion =>
      if !OccursAt(ua, i, AndroidPrefix) then None
      else
        var p := i + |AndroidPrefix|;
        var m := DigitRun(ua, p);
        if m == 0 then None
        else if p + m < |ua| && ua[p + m] == '.' then Some([ua[p..p + m + 1 + DigitRun(ua, p + m + 1)]])
        else Some([ua[p..p + m]])
  }

  /** What it means for `/iPhone OS (\d+)_(\d+)/` to match at `i` with the
      captures `major` and `minor`: the text there reads "iPhone OS ", a
      non-empty run of digits, "_", a non-empty run of digits, and no digit
      follows. */
  predicate IsIPhoneOsMatch(ua: string, i: nat, major: string, minor: string) {
    && |major| > 0 && AllDigits(major)
    && |minor| > 0 && AllDigits(minor)
    && OccursAt(ua, i, IPhoneOsPrefix)
    && OccursAt(ua, i + |IPhoneOsPrefix|, major)
    && OccursAt(ua, i + |IPhoneOsPrefix| + |major|, "_")
    && OccursAt(ua, i + |IPhoneOsPrefix| + |major| + 1, minor)
    && NoDigitAt(ua, i + |IPhoneOsPrefix| + |major| + 1 + |minor|)
  }

  /** What it means for `/Android (\d+\.?\d*)/` to match at `i` capturing
      `version`: the text there reads "Android " and then `version`, which is
      `d` digits (at least one) followed either by nothing more, in which case
      neither a digit nor a "." follows, or by "." and more digits, in which
      case no digit follows. */
  predicate IsAndroidSplit(ua: string, i: nat, version: string, d: nat) {
    && 0 < d <= |version| && AllDigits(version[..d])
    && OccursAt(ua, i, AndroidPrefix) && OccursAt(ua, i + |AndroidPrefix|, version)
    && var next := i + |AndroidPrefix| + |version|;
       NoDigitAt(ua, next)
       && if d == |version| then next >= |ua| || ua[next] != '.'
          else version[d] == '.' && AllDigits(version[d + 1..])
  }

  predicate IsAndroidMatch(ua: string, i: nat, version: string) {
    exists d: nat | d <= |version| :: IsAndroidSplit(ua, i, version, d)
  }

  /** What the iPhone matcher returns is a match the pattern describes. */
  lemma IPhoneOsMatchSound(ua: string, i: nat)
    requires i <= |ua| && MatchAt(IPhoneOs, ua, i).Some?
    ensures IsIPhoneOsMatch(ua, i, MatchAt(IPhoneOs, ua, i).value[0], MatchAt(IPhoneOs, ua, i).value[1])
  {
    var p := i + |IPhoneOsPrefix|;
    var m := DigitRun(ua, p);
    var q := p + m + 1;
    assert ua[p + m..q] == "_";
  }

  /** Every match the pattern describes is what the iPhone matcher returns. */
  lemma IPhoneOsMatchComplete(ua: string, i: nat, major: string, minor: string)
    requires i <= |ua| && IsIPhoneOsMatch(ua, i, major, minor)
    ensures MatchAt(IPhoneOs, ua, i) == Some([major, minor])
  {
    var p := i + |IPhoneOsPrefix|;
    var q := p + |major| + 1;
    assert ua[q - 1] == "_"[0];
    forall k | p <= k < q - 1
      ensures IsDigit(ua[k])
    {
      assert ua[k] == ua[p..q - 1][k - p];
    }
    DigitRunUnique(ua, p, q - 1);
    forall k | q <= k < q + |minor|
      ensures IsDigit(ua[k])
    {
      assert ua[k] == ua[q..q + |minor|][k - q];
    }
    DigitRunUnique(ua, q, q + |minor|);
  }

  /** The iPhone matcher finds exactly the matches the pattern describes. */
  lemma IPhoneOsMatchMeaning(ua: string, i: nat, major: string, minor: string)
    requires i <= |ua|
    ensures MatchAt(IPhoneOs, ua, i) == Some([major, minor]) <==> IsIPhoneOsMatch(ua, i, major, minor)
  {
    if MatchAt(IPhoneOs, ua, i) == Some([major, minor]) {
      IPhoneOsMatchSound(ua, i);
    }
    if IsIPhoneOsMatch(ua, i, major, minor) {
      IPhoneOsMatchComplete(ua, i, major, minor);
    }
  }

  /** What the Android matcher returns is a match the pattern describes. */
  lemma AndroidMatchSound(ua: string, i: nat)
    requires i <= |ua| && MatchAt(AndroidVersion, ua, i).Some?
    ensures IsAndroidMatch(ua, i, MatchAt(AndroidVersion, ua, i).value[0])
  {
    var p := i + |AndroidPrefix|;
    var m := DigitRun(ua, p);
    var version := MatchAt(AndroidVersion, ua, i).value[0];
    assert version[..m] == ua[p..p + m];
    if p + m < |ua| && ua[p + m] == '.' {
      var n := DigitRun(ua, p + m + 1);
      assert version[m + 1..] == ua[p + m + 1..p + m + 1 + n];
    }
    assert IsAndroidSplit(ua, i, version, m);
  }

  /** Digits inside an occurrence of `sub` are digits of `ua` at the
      shifted positions. */
  lemma DigitsOfOccurrence(ua: string, p: nat, sub: string, a: nat, b: nat)
    requires OccursAt(ua, p, sub) && a <= b <= |sub| && AllDigits(sub[a..b])
    ensures DigitsBetween(ua, p + a, p + b)
  {
    forall k | p + a <= k < p + b
      ensures 0 <= k < |ua| && IsDigit(ua[k])
    {
      assert ua[k] == ua[p..p + |sub|][k - p] == sub[k - p] == sub[a..b][k - p - a];
    }
  }

  /** Every match the pattern describes is what the Android matcher
      returns. */
  lemma AndroidMatchComplete(ua: string, i: nat, version: string, d: nat)
    requires i <= |ua| && IsAndroidSplit(ua, i, version, d)
    ensures MatchAt(AndroidVersion, ua, i) == Some([version])
  {
    var p := i + |AndroidPrefix|;
    AndroidMajorRun(ua, p, version, d);
    var e := p + |version|;
    assert version == ua[p..e];
    if d < |version| {
      assert version[d + 1..] == version[d + 1..|version|];
      DigitsOfOccurrence(ua, p, version, d + 1, |version|);
      DigitRunUnique(ua, p + d + 1, e);
      assert p + d < |ua| && ua[p + d] == '.';
      assert MatchAt(AndroidVersion, ua, i) == Some([ua[p..e]]);
    } else {
      assert MatchAt(AndroidVersion, ua, i) == Some([ua[p..p + d]]);
    }
  }

  /** The digits of a described Android version before its optional "."
      are the greedy run `\d+` takes. */
  lemma AndroidMajorRun(ua: string, p: nat, version: string, d: nat)
    requires OccursAt(ua, p, version) && 0 < d <= |version| && AllDigits(version[..d])
    requires d == |version| ==> NoDigitAt(ua, p + d)
    requires d < |version| ==> version[d] == '.'
    ensures DigitRun(ua, p) == d
    ensures d < |version| ==> ua[p + d] == '.'
  {
    assert version[..d][0..d] == version[0..d];
    DigitsOfOccurrence(ua, p, version, 0, d);
    if d < |version| {
      assert ua[p + d] == ua[p..p + |version|][d] == version[d];
    }
    DigitRunUnique(ua, p, p + d);
  }

  /** The Android matcher finds exactly the matches the pattern describes. */
  lemma AndroidMatchMeaning(ua: string, i: nat, version: string)
    requires i <= |ua|
    ensures MatchAt(AndroidVersion, ua, i) == Some([version]) <==> IsAndroidMatch(ua, i, version)
  {
    if MatchAt(AndroidVersion, ua, i) == Some([version]) {
      AndroidMatchSound(ua, i);
    }
    if IsAndroidMatch(ua, i, version) {
      var d: nat :| d <= |version| && IsAndroidSplit(ua, i, version, d);
      AndroidMatchComplete(ua, i, version, d);
    }
  }

  /** `ua.match(pattern)`: the first position from `from` on where the
      pattern matches, with its captures. */
  function Search(pattern: Pattern, ua: string, from: nat): (r: Option<(nat, seq<string>)>)
    requires from <= |ua|
    ensures r.Some? ==> from <= r.value.0 <= |ua| && MatchAt(pattern, ua, r.value.0) == Some(r.value.1)
    ensures r.Some? ==> forall j :: from <= j < r.value.0 ==> MatchAt(pattern, ua, j).None?
    ensures r.None? ==> forall j :: from <= j <= |ua| ==> MatchAt(pattern, ua, j).None?
    decreases |ua| - from
  {
    var m := MatchAt(pattern, ua, from);
    if m.Some? then Some((from, m.value))
    else if from == |ua| then None
    else Search(pattern, ua, from + 1)
  }

  /** `i` is the leftmost position where `pattern` matches. */
  predicate Leftmost(pattern: Pattern, ua: string, i: nat) {
    && i <= |ua| && MatchAt(pattern, ua, i).Some?
    && forall j :: 0 <= j < i ==> MatchAt(pattern, ua, j).None?
  }

  predicate NoMatch(pattern: Pattern, ua: string) {
    forall j :: 0 <= j <= |ua| ==> MatchAt(pattern, ua, j).None?
  }
  /** The search from the start finds the leftmost match, and only that. */
  lemma SearchIsLeftmost(pattern: Pattern, ua: string, i: nat)
    ensures Leftmost(pattern, ua, i) <==> Search(pattern, ua, 0).Some? && Search(pattern, ua, 0).value.0 == i
    ensures NoMatch(pattern, ua) <==> Search(pattern, ua, 0).None?
  {
    var r := Search(pattern, ua, 0);
    if r.Some? && Leftmost(pattern, ua, i) {
      assert !(r.value.0 < i);
      assert !(i < r.value.0);
    }
  }


  // ---------------------------------------------------------------------
  // detectPhoneModel

  /** The kinds of device `detectPhoneModel` tells apart. */
  datatype Device =
    | IPhoneWithOs(major: string, minor: string)
    | IPhone
    | AndroidWithVersion(version: string)
    | Android
    | IPad
    | UnknownDevice

  function Classify(ua: string): Device {
    if Contains(ua, "iPhone") then
      match Search(IPhoneOs, ua, 0)
      case Some((_, caps)) => IPhoneWithOs(caps[0], caps[1])
      case None => IPhone
    else if Contains(ua, "Android") then
      match Search(AndroidVersion, ua, 0)
      case Some((_, caps)) => AndroidWithVersion(caps[0])
      case None => Android
    else if Contains(ua, "iPad") then IPad
    else UnknownDevice
  }

  /** The text the page shows for each kind of device. */
  function Label(d: Device): string {
    match d
    case IPhoneWithOs(major, minor) => "iPhone (iOS " + major + "." + minor + ")"
    case IPhone => "iPhone"
    case AndroidWithVersion(version) => "Android Device (" + version + ")"
    case Android => "Android Device"
    case IPad => "iPad"
    case UnknownDevice => "Unknown Device"
  }

  /** `detectPhoneModel`, reading the user agent it is given. */
  function DetectPhoneModel(userAgent: string): string {
    Label(Classify(userAgent))
  }

  /** The precedence of the checks: "iPhone" anywhere decides first, and the
      version comes from the leftmost "iPhone OS X_Y"; otherwise "Android"
      decides, with the version from the leftmost "Android V"; "iPad" counts
      only when neither word occurs; anything else is unknown. */
  lemma DetectionPrecedence(ua: string)
    ensures Contains(ua, "iPhone") ==>
              (NoMatch(IPhoneOs, ua) ==> DetectPhoneModel(ua) == "iPhone")
              && forall i: nat :: Leftmost(IPhoneOs, ua, i) ==>
                   var caps := MatchAt(IPhoneOs, ua, i).value;
                   DetectPhoneModel(ua) == "iPhone (iOS " + caps[0] + "." + caps[1] + ")"
    ensures !Contains(ua, "iPhone") && Contains(ua, "Android") ==>
              (NoMatch(AndroidVersion, ua) ==> DetectPhoneModel(ua) == "Android Device")
              && forall i: nat :: Leftmost(AndroidVersion, ua, i) ==>
                   DetectPhoneModel(ua) == "Android Device (" + MatchAt(AndroidVersion, ua, i).value[0] + ")"
    ensures !Contains(ua, "iPhone") && !Contains(ua, "Android") && Contains(ua, "iPad") ==>
              DetectPhoneModel(ua) == "iPad"
    ensures !Contains(ua, "iPhone") && !Contains(ua, "Android") && !Contains(ua, "iPad") ==>
              DetectPhoneModel(ua) == "Unknown Device"
  {
    forall i: nat | Leftmost(IPhoneOs, ua, i)
      ensures Search(IPhoneOs, ua, 0) == Some((i, MatchAt(IPhoneOs, ua, i).value))
    {
      SearchIsLeftmost(IPhoneOs, ua, i);
    }
    forall i: nat | Leftmost(AndroidVersion, ua, i)
      ensures Search(AndroidVersion, ua, 0) == Some((i, MatchAt(AndroidVersion, ua, i).value))
    {
      SearchIsLeftmost(AndroidVersion, ua, i);
    }
    SearchIsLeftmost(IPhoneOs, ua, 0);
    SearchIsLeftmost(AndroidVersion, ua, 0);
  }

  /** `s` contains `sub`, shown by the position where it occurs. */
  lemma ContainsAt(s: string, sub: string, i: nat)
    requires OccursAt(s, i, sub)
    ensures Contains(s, sub)
  {
  }

  /** `s` cannot contain `sub` when it lacks one of `sub`'s characters. */
  lemma MissingCharExcludes(s: string, sub: string, k: nat)
    requires k < |sub| && sub[k] !in s
    ensures !Contains(s, sub)
  {
  }

  /** A bare iOS version string. */
  lemma DetectsIPhoneVersion()
    ensures DetectPhoneModel("iPhone OS 17_2") == "iPhone (iOS 17.2)"
  {
    var ua := "iPhone OS 17_2";
    ContainsAt(ua, "iPhone", 0);
    assert OccursAt(ua, 0, IPhoneOsPrefix);
    assert DigitRun(ua, 12) == 0;
    assert DigitRun(ua, 10) == 2;
    assert DigitRun(ua, 14) == 0;
    assert DigitRun(ua, 13) == 1;
    assert ua[12] == '_' && ua[10..12] == "17" && ua[13..14] == "2";
    assert MatchAt(IPhoneOs, ua, 0) == Some(["17", "2"]);
  }

  /** Only one "." is taken into the Android version. */
  lemma DetectsAndroidVersion()
    ensures DetectPhoneModel("Android 14.1.2") == "Android Device (14.1)"
  {
    var ua := "Android 14.1.2";
    MissingCharExcludes(ua, "iPhone", 1);
    ContainsAt(ua, "Android", 0);
    assert OccursAt(ua, 0, AndroidPrefix);
    assert DigitRun(ua, 10) == 0;
    assert DigitRun(ua, 8) == 2;
    assert DigitRun(ua, 12) == 0;
    assert DigitRun(ua, 11) == 1;
    assert ua[10] == '.' && ua[8..12] == "14.1";
    assert MatchAt(AndroidVersion, ua, 0) == Some(["14.1"]);
  }

  /** "iPhone" wins over "iPad" even without a version to read. */
  lemma IPhoneBeatsIPad()
    ensures DetectPhoneModel("iPad iPhone") == "iPhone"
  {
    var ua := "iPad iPhone";
    ContainsAt(ua, "iPhone", 5);
    forall j | 0 <= j <= |ua|
      ensures MatchAt(IPhoneOs, ua, j).None?
    {
      MissingCharExcludes(ua, IPhoneOsPrefix, 7);
      assert !OccursAt(ua, j, IPhoneOsPrefix);
    }
    SearchIsLeftmost(IPhoneOs, ua, 0);
  }

  /** A plain iPad. */
  lemma DetectsIPad()
    ensures DetectPhoneModel("iPad") == "iPad"
  {
    MissingCharExcludes("iPad", "iPhone", 2);
    MissingCharExcludes("iPad", "Android", 0);
    ContainsAt("iPad", "iPad", 0);
  }

  /** Every detected model survives the save guard: its first character is a
      letter, so trimming never empties it. */
  lemma DetectedModelIsSavable(ua: string)
    ensures Trim(DetectPhoneModel(ua)) != []
  {
    var model := DetectPhoneModel(ua);
    assert model[0] in "iAU";
    TrimEmptyIff(model);
  }

  // ---------------------------------------------------------------------
  // Navigation

  const NavigationHrefs: seq<string> := ["/dashboard", "/profile", "/settings"]

  /** `isActive`: exact equality with the current pathname. */
  predicate IsActive(pathname: string, href: string) {
    pathname == href
  }

  /** At most one navigation item is active, and a nested path such as
      "/dashboard/history" activates none. */
  lemma AtMostOneActive(pathname: string)
    ensures forall a, b :: 0 <= a < b < |NavigationHrefs| ==>
              !(IsActive(pathname, NavigationHrefs[a]) && IsActive(pathname, NavigationHrefs[b]))
    ensures forall a :: 0 <= a < |NavigationHrefs| ==> !IsActive("/dashboard/history", NavigationHrefs[a])
  {
  }

  // ---------------------------------------------------------------------
  // The phone-model dialog

  /** The Save button is disabled exactly when the trimmed model is empty. */
  predicate SaveDisabled(phoneModel: string) {
    Trim(phoneModel) == []
  }

  /** The stored entry counts as missing when it is absent or empty, the two
      falsy strings `!storedPhoneModel` rejects. */
  predicate StoredModelMissing(stored: Option<string>) {
    stored == None || stored == Some("")
  }

  /** The layout's phone-model state. */
  class PhoneModelDialog {
    var phoneModel: string
    var showPhoneDialog: bool
    const storage: LocalStorage

    constructor (storage: LocalStorage)
      ensures phoneModel == "" && !showPhoneDialog && this.storage == storage
    {
      phoneModel := "";
      showPhoneDialog := false;
      this.storage := storage;
    }

    /** The mount effect: open the dialog when no model is stored, load the
        stored model otherwise. */
    method Mount()
      modifies this
      ensures StoredModelMissing(storage.phoneModel) ==> showPhoneDialog && phoneModel == old(phoneModel)
      ensures !StoredModelMissing(storage.phoneModel) ==>
                phoneModel == storage.phoneModel.value && showPhoneDialog == old(showPhoneDialog)
    {
      if StoredModelMissing(storage.phoneModel) {
        showPhoneDialog := true;
      } else {
        phoneModel := storage.phoneModel.value;
      }
    }

    /** Typing into the model field. */
    method TypeModel(text: string)
      modifies this
      ensures phoneModel == text && showPhoneDialog == old(showPhoneDialog)
    {
      phoneModel := text;
    }

    /** The "Auto-Detect" button: fills in the field and nothing more. */
    method Detect(userAgent: string)
      modifies this
      ensures phoneModel == DetectPhoneModel(userAgent) && showPhoneDialog == old(showPhoneDialog)
    {
      phoneModel := DetectPhoneModel(userAgent);
    }

    /** `handlePhoneModelSave`: when the trimmed model is non-empty it is
        stored, trimmed, and the dialog closes; otherwise nothing changes. The
        field itself keeps its untrimmed text. */
    method Save()
      modifies this, storage
      ensures phoneModel == old(phoneModel) && storage.user == old(storage.user)
      ensures SaveDisabled(phoneModel) ==>
                showPhoneDialog == old(showPhoneDialog) && storage.phoneModel == old(storage.phoneModel)
      ensures !SaveDisabled(phoneModel) ==>
                !showPhoneDialog && storage.phoneModel == Some(Trim(phoneModel))
    {
      if Trim(phoneModel) != [] {
        storage.phoneModel := Some(Trim(phoneModel));
        showPhoneDialog := false;
      }
    }

    /** `onOpenChange` with `false`: Escape or a click outside closes the
        dialog without saving; the typed text stays in the field. */
    method Dismiss()
      modifies this
      ensures !showPhoneDialog && phoneModel == old(phoneModel)
    {
      showPhoneDialog := false;
    }

    /** The "Change" button in the sidebar reopens the dialog; the button is
        only there when a model is set (and the sidebar is expanded). */
    method Reopen()
      requires phoneModel != ""
      modifies this
      ensures showPhoneDialog && phoneModel == old(phoneModel)
    {
      showPhoneDialog := true;
    }
  }

  /** Detecting and then saving always stores the detected label and closes
      the dialog, and a model saved once is loaded back, without the dialog,
      on the next mount. */
  method DetectSaveAndRemount(dialog: PhoneModelDialog, userAgent: string) returns (next: PhoneModelDialog)
    modifies dialog, dialog.storage
    ensures !dialog.showPhoneDialog
    ensures dialog.storage.phoneModel == Some(Trim(DetectPhoneModel(userAgent)))
    ensures !next.showPhoneDialog && next.phoneModel == Trim(DetectPhoneModel(userAgent))
  {
    dialog.Detect(userAgent);
    DetectedModelIsSavable(userAgent);
    dialog.Save();
    next := new PhoneModelDialog(dialog.storage);
    next.Mount();
  }

  /** Dismissing stores nothing: whatever was typed, the next mount sees the
      stored entry as it was, so without one the dialog opens again with an
      empty field, and with one that entry is loaded. */
  method TypeDismissAndRemount(dialog: PhoneModelDialog, text: string) returns (next: PhoneModelDialog)
    modifies dialog
    ensures !dialog.showPhoneDialog && dialog.phoneModel == text
    ensures dialog.storage.phoneModel == old(dialog.storage.phoneModel)
    ensures StoredModelMissing(old(dialog.storage.phoneModel)) ==> next.showPhoneDialog && next.phoneModel == ""
    ensures !StoredModelMissing(old(dialog.storage.phoneModel)) ==>
              !next.showPhoneDialog && next.phoneModel == old(dialog.storage.phoneModel).value
  {
    dialog.TypeModel(text);
    dialog.Dismiss();
    next := new PhoneModelDialog(dialog.storage);
    next.Mount();
  }
}
