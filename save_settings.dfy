/**
 The save plugin's settings window (Assets/Editor/SaveSettingsWindow.cs).

 The window keeps two parallel lists, the configured build target groups and
 the save method chosen for each. Its Save button refuses duplicate targets,
 then clears every save-method define symbol from every target group and adds
 the chosen one to each configured group. The engine's PlayerSettings store of
 scripting define symbols is modelled as a map from target-group name to its
 comma-separated define string; a group with no entry reads as "". Build
 target groups are named by their enum names.
 */
module SaveSettings {
  import opened Wrappers
  import opened SaveFacade

  // ---------------------------------------------------------------------------
  // Ordinal string search and replacement, as String.Contains and String.Replace
  // ---------------------------------------------------------------------------

  /** `d` occurs in `text` at index `i`. */
  ghost predicate OccursAt(text: string, d: string, i: int)
  {
    0 <= i && i + |d| <= |text| && text[i..i + |d|] == d
  }

  /** An occurrence in the tail of `text` is an occurrence in `text` one index later. */
  lemma OccursInTail(text: string, d: string, i: int)
    requires |text| > 0 && 0 <= i
    ensures OccursAt(text[1..], d, i) <==> OccursAt(text, d, i + 1)
  {
    if i + 1 + |d| <= |text| {
      assert text[1..][i..i + |d|] == text[i + 1..i + 1 + |d|];
    }
  }

  /** When `d` is not a prefix of `text`, it occurs in `text` exactly when it occurs in the tail. */
  lemma OccursPastHead(text: string, d: string)
    requires |text| > 0 && !(d <= text)
    ensures (exists i :: OccursAt(text[1..], d, i)) <==> (exists i :: OccursAt(text, d, i))
  {
    if i :| OccursAt(text[1..], d, i) {
      OccursInTail(text, d, i);
    }
    if i :| OccursAt(text, d, i) {
      assert i != 0;
      OccursInTail(text, d, i - 1);
    }
  }

  /** String.Contains: whether `d` is a prefix of some suffix of `text`. */
  function Contains(text: string, d: string): bool
    decreases |text|
  {
    if d <= text then true
    else if |text| == 0 then false
    else Contains(text[1..], d)
  }

  /** Contains holds exactly when `d` occurs in `text` at some index. */
  lemma {:induction false} ContainsIsOccurrence(text: string, d: string)
    ensures Contains(text, d) <==> exists i :: OccursAt(text, d, i)
    decreases |text|
  {
    if d <= text {
      assert OccursAt(text, d, 0);
    } else if |text| > 0 {
      ContainsIsOccurrence(text[1..], d);
      OccursPastHead(text, d);
    }
  }

  /**
   String.Replace(d, ""): deletes the occurrences of `d` found scanning left
   to right, each search resuming after the occurrence just deleted. An empty
   `d` makes the C# call throw, so it is excluded.
   */
  function RemoveAll(text: string, d: string): (r: string)
    requires |d| > 0
    ensures |r| <= |text|
    decreases |text|
  {
    if |text| < |d| then
      text
    else if d <= text then
      RemoveAll(text[|d|..], d)
    else
      [text[0]] + RemoveAll(text[1..], d)
  }

  /** Text without an occurrence of `d` is left unchanged; text with one loses at least `|d|` characters. */
  lemma {:induction false} RemoveAllChangesOnlyOccurrences(text: string, d: string)
    requires |d| > 0
    ensures !Contains(text, d) ==> RemoveAll(text, d) == text
    ensures Contains(text, d) ==> |RemoveAll(text, d)| <= |text| - |d|
    decreases |text|
  {
    if |text| < |d| {
      ContainsIsOccurrence(text, d);
    } else if !(d <= text) {
      RemoveAllChangesOnlyOccurrences(text[1..], d);
      assert Contains(text, d) == Contains(text[1..], d);
      assert [text[0]] + text[1..] == text;
    }
  }

  /** Text in which no occurrence of `d` starts inside `a` passes `a` through unchanged. */
  lemma {:induction false} RemoveAllKeepsPrefix(a: string, rest: string, d: string)
    requires |d| > 0
    requires forall i :: 0 <= i < |a| ==> !(d <= a[i..] + rest)
    ensures RemoveAll(a + rest, d) == a + RemoveAll(rest, d)
    decreases |a|
  {
    if a == [] {
      assert a + rest == rest;
    } else {
      var text := a + rest;
      assert text[1..] == a[1..] + rest;
      forall i | 0 <= i < |a[1..]| ensures !(d <= a[1..][i..] + rest) {
        assert a[1..][i..] == a[i + 1..];
      }
      RemoveAllKeepsPrefix(a[1..], rest, d);
      assert a[0..] == a;
      if |text| < |d| {
        assert RemoveAll(rest, d) == rest;
      } else {
        assert RemoveAll(text, d) == [a[0]] + RemoveAll(a[1..] + rest, d);
        assert [a[0]] + (a[1..] + RemoveAll(rest, d)) == a + RemoveAll(rest, d);
      }
    }
  }

  /**
   The first occurrence of `d` in `a + d + b` is deleted and the search goes
   on in `b`: every occurrence found scanning left to right is replaced by "".
   */
  lemma RemoveAllDeletesFirstOccurrence(a: string, b: string, d: string)
    requires |d| > 0
    requires forall i :: 0 <= i < |a| ==> !(d <= a[i..] + d + b)
    ensures RemoveAll(a + d + b, d) == a + RemoveAll(b, d)
  {
    assert a + d + b == a + (d + b);
    forall i | 0 <= i < |a| ensures !(d <= a[i..] + (d + b)) {
      assert a[i..] + d + b == a[i..] + (d + b);
    }
    RemoveAllKeepsPrefix(a, d + b, d);
    assert (d + b)[|d|..] == b;
  }

  /** A directive appended after a separator occurs in the result. */
  lemma ContainsAppended(text: string, d: string)
    ensures Contains(text + "," + d, d)
  {
    var t := text + "," + d;
    assert t[|text| + 1..|text| + 1 + |d|] == d;
    assert OccursAt(t, d, |text| + 1);
    ContainsIsOccurrence(t, d);
  }

  /**
   The add branch of AddPreprocessorDirective: a directive already present
   (as a substring) leaves the text alone; otherwise it becomes the whole text
   if the text is empty, or is appended after a comma.
   */
  function AddDirective(text: string, d: string): (r: string)
    ensures Contains(r, d)
    ensures text <= r
    ensures Contains(text, d) ==> r == text
    ensures !Contains(text, d) && text == "" ==> r == d
    ensures !Contains(text, d) && text != "" ==> r == text + "," + d
  {
    if !Contains(text, d) then
      if text == "" then
        d
      else
        ContainsAppended(text, d);
        text + "," + d
    else
      text
  }

  /** Adding a directive twice is the same as adding it once. */
  lemma AddDirectiveIdempotent(text: string, d: string)
    ensures AddDirective(AddDirective(text, d), d) == AddDirective(text, d)
  {
  }

  /** The remove branch: the text is rewritten only when it contains the directive. */
  function RemoveDirective(text: string, d: string): (r: string)
    requires |d| > 0
    ensures !Contains(text, d) ==> r == text
    ensures Contains(text, d) ==> |r| < |text|
  {
    RemoveAllChangesOnlyOccurrences(text, d);
    if Contains(text, d) then RemoveAll(text, d) else text
  }

  /** The define string PlayerSettings reports for a target group. */
  function DefinesOf(settings: map<string, string>, target: string): string
  {
    if target in settings then settings[target] else ""
  }

  /** AddPreprocessorDirective: edits one group's define string and writes it back. */
  function EditDefines(settings: map<string, string>, d: string, remove: bool, target: string): (r: map<string, string>)
    requires |d| > 0
    ensures forall t :: t != target ==> DefinesOf(r, t) == DefinesOf(settings, t)
    ensures !remove ==> Contains(DefinesOf(r, target), d)
    ensures remove && !Contains(DefinesOf(settings, target), d) ==> DefinesOf(r, target) == DefinesOf(settings, target)
  {
    var text := DefinesOf(settings, target);
    settings[target := if remove then RemoveDirective(text, d) else AddDirective(text, d)]
  }

  // ---------------------------------------------------------------------------
  // What the Save button computes
  // ---------------------------------------------------------------------------

  /** Enum.GetValues(typeof(SupportedSaveMethods)), in declaration order. */
  const AllMethods: seq<SaveMethod> :=
    [JSONSerializationFileSave, JSONSerializationPlayerPrefs, BinarySerializationFileSave, BinarySerializationPlayerPrefs]

  /** No target group appears twice. */
  ghost predicate Distinct(targets: seq<string>)
  {
    forall i, j :: 0 <= i < j < |targets| ==> targets[i] != targets[j]
  }

  /** The settings after the inner clearing loop has removed the first `n` save methods from one group. */
  function StripTarget(settings: map<string, string>, target: string, n: nat): map<string, string>
    requires n <= |AllMethods|
  {
    if n == 0 then settings
    else EditDefines(StripTarget(settings, target, n - 1), AllMethods[n - 1].Name(), true, target)
  }

  /** The settings after the outer clearing loop has run over the first `n` of `targets`. */
  function ClearTargets(settings: map<string, string>, targets: seq<string>, n: nat): map<string, string>
    requires n <= |targets|
  {
    if n == 0 then settings
    else StripTarget(ClearTargets(settings, targets, n - 1), targets[n - 1], |AllMethods|)
  }

  /** Every directive in `names` is a non-empty string. */
  ghost predicate NonEmpty(names: seq<string>)
  {
    forall k :: 0 <= k < |names| ==> |names[k]| > 0
  }

  /** The define symbols of `methods`, in order. */
  function Names(methods: seq<SaveMethod>): (r: seq<string>)
    ensures |r| == |methods|
    ensures forall k :: 0 <= k < |methods| ==> r[k] == methods[k].Name()
    ensures NonEmpty(r)
  {
    if methods == [] then [] else Names(methods[..|methods| - 1]) + [methods[|methods| - 1].Name()]
  }

  /** The settings after the add loop has added `names[k]` to `targets[k]` for each of the first `n` rows. */
  function ApplySelections(settings: map<string, string>, targets: seq<string>, names: seq<string>, n: nat): map<string, string>
    requires n <= |targets| == |names| && NonEmpty(names)
  {
    if n == 0 then settings
    else EditDefines(ApplySelections(settings, targets, names, n - 1), names[n - 1], false, targets[n - 1])
  }

  /**
   With distinct targets, row i's directive is still in its group's define
   string after the add loop has run over any n rows past row i.
   */
  lemma {:induction false} SelectionApplied(settings: map<string, string>, targets: seq<string>, names: seq<string>, n: nat, i: nat)
    requires i < n <= |targets| == |names| && NonEmpty(names)
    requires Distinct(targets)
    ensures Contains(DefinesOf(ApplySelections(settings, targets, names, n), targets[i]), names[i])
  {
    var before := ApplySelections(settings, targets, names, n - 1);
    var after := EditDefines(before, names[n - 1], false, targets[n - 1]);
    assert ApplySelections(settings, targets, names, n) == after;
    if i < n - 1 {
      SelectionApplied(settings, targets, names, n - 1, i);
      assert targets[i] != targets[n - 1];
      assert DefinesOf(after, targets[i]) == DefinesOf(before, targets[i]);
    }
  }

  /** Every configured group's define string contains the symbol of the method chosen for it. */
  ghost predicate MethodsPresent(settings: map<string, string>, targets: seq<string>, methods: seq<SaveMethod>)
    requires |targets| == |methods|
  {
    forall i :: 0 <= i < |targets| ==> Contains(DefinesOf(settings, targets[i]), methods[i].Name())
  }

  /**
   With distinct targets, after the add loop every configured group's define
   string contains the symbol of the method chosen for it.
   */
  lemma SelectionsApplied(settings: map<string, string>, targets: seq<string>, methods: seq<SaveMethod>)
    requires |targets| == |methods| && Distinct(targets)
    ensures MethodsPresent(ApplySelections(settings, targets, Names(methods), |targets|), targets, methods)
  {
    var names := Names(methods);
    forall i | 0 <= i < |targets|
      ensures Contains(DefinesOf(ApplySelections(settings, targets, names, |targets|), targets[i]), methods[i].Name())
    {
      SelectionApplied(settings, targets, names, |targets|, i);
    }
  }

  /** The message shown when `target` is configured twice. */
  function DuplicateMessage(target: string): string
  {
    "Platform " + target + " exists multiple times. \nRemove duplicate entries and save again"
  }

  /** The message shown after a successful save. */
  const AppliedMessage: string := "Settings applied."

  /** Index i is the first, in the order of the nested loops, whose target appears again at a later index. */
  ghost predicate FirstDuplicate(targets: seq<string>, i: int)
  {
    0 <= i < |targets| &&
    (exists j :: i < j < |targets| && targets[j] == targets[i]) &&
    (forall i', j :: 0 <= i' < i && i' < j < |targets| ==> targets[i'] != targets[j])
  }

  /** At most one index is the first duplicate, so the message it selects is determined by the targets. */
  lemma FirstDuplicateUnique(targets: seq<string>, i: int, k: int)
    requires FirstDuplicate(targets, i) && FirstDuplicate(targets, k)
    ensures i == k
  {
  }

  /**
   The duplicate check of the Save button: the first index i (in the order
   of the nested loops) whose target appears again at a later index j, or
   None when all targets are distinct.
   */
  method FindDuplicate(targets: seq<string>) returns (r: Option<nat>)
    ensures r.None? <==> Distinct(targets)
    ensures r.Some? ==> FirstDuplicate(targets, r.value)
  {
    var i := 0;
    while i < |targets| - 1
      invariant 0 <= i <= |targets|
      invariant forall i', j :: 0 <= i' < i && i' < j < |targets| ==> targets[i'] != targets[j]
    {
      var j := i + 1;
      while j < |targets|
        invariant i + 1 <= j <= |targets|
        invariant forall j' :: i < j' < j ==> targets[i] != targets[j']
      {
        if targets[i] == targets[j] {
          return Some(i);
        }
        j := j + 1;
      }
      i := i + 1;
    }
    return None;
  }

  class SaveSettingsWindow {
    /** Enum.GetValues(typeof(SupportedBuildTargetGroup)), by name; that enum is not part of this model. */
    const allTargets: seq<string>
    /** `_buildTargetGroup`, the same list object the settings asset holds. */
    var buildTargets: seq<string>
    /** `_selectedSaveMethod`, the same list object the settings asset holds. */
    var selectedMethods: seq<SaveMethod>
    /** `_message`, shown under the Save button. */
    var message: string
    /** PlayerSettings' scripting define symbols per target group. */
    var playerSettings: map<string, string>
    /** Whether the settings asset has been marked dirty for saving. */
    var assetDirty: bool

    /** The two lists stay parallel. */
    ghost predicate Valid()
      reads this
    {
      |buildTargets| == |selectedMethods|
    }

    /** OnEnable: the window takes the lists of the settings asset. */
    constructor (allTargets: seq<string>, targets: seq<string>, methods: seq<SaveMethod>, settings: map<string, string>)
      requires |targets| == |methods|
      ensures Valid()
      ensures this.allTargets == allTargets && buildTargets == targets && selectedMethods == methods
      ensures playerSettings == settings && message == "" && !assetDirty
    {
      this.allTargets := allTargets;
      buildTargets := targets;
      selectedMethods := methods;
      playerSettings := settings;
      message := "";
      assetDirty := false;
    }

    /** The two EnumPopup fields of row i. */
    method EditRow(i: nat, target: string, m: SaveMethod)
      requires Valid() && i < |buildTargets|
      modifies this`buildTargets, this`selectedMethods
      ensures Valid()
      ensures buildTargets == old(buildTargets)[i := target]
      ensures selectedMethods == old(selectedMethods)[i := m]
    {
      buildTargets := buildTargets[i := target];
      selectedMethods := selectedMethods[i := m];
    }

    /** The "Add Build Target" button: a new Android row saving to a JSON file. */
    method AddBuildTarget()
      requires Valid()
      modifies this`buildTargets, this`selectedMethods
      ensures Valid()
      ensures buildTargets == old(buildTargets) + ["Android"]
      ensures selectedMethods == old(selectedMethods) + [JSONSerializationFileSave]
    {
      buildTargets := buildTargets + ["Android"];
      selectedMethods := selectedMethods + [JSONSerializationFileSave];
    }

    /** The "Remove Build Target" button of row i: the row leaves both lists. */
    method RemoveBuildTarget(i: nat)
      requires Valid() && i < |buildTargets|
      modifies this`buildTargets, this`selectedMethods
      ensures Valid()
      ensures buildTargets == old(buildTargets)[..i] + old(buildTargets)[i + 1..]
      ensures selectedMethods == old(selectedMethods)[..i] + old(selectedMethods)[i + 1..]
    {
      buildTargets := buildTargets[..i] + buildTargets[i + 1..];
      selectedMethods := selectedMethods[..i] + selectedMethods[i + 1..];
    }

    /**
     AddPreprocessorDirective: rewrites one group's define string in
     PlayerSettings. Every caller passes a save method's enum name, so the
     directive is never empty (String.Replace would throw on "").
     */
    method AddPreprocessorDirective(name: string, remove: bool, target: string)
      requires |name| > 0
      modifies this`playerSettings
      ensures playerSettings == EditDefines(old(playerSettings), name, remove, target)
    {
      var text := DefinesOf(playerSettings, target);
      ghost var original := text;
      if remove {
        if Contains(text, name) {
          text := RemoveAll(text, name);
        }
        assert text == RemoveDirective(original, name);
      } else {
        if !Contains(text, name) {
          if text == "" {
            text := text + name;
            assert text == name;
          } else {
            text := text + "," + name;
          }
        }
        assert text == AddDirective(original, name);
      }
      playerSettings := playerSettings[target := text];
    }

    /** The first loop of the Save button: every save-method symbol leaves every target group. */
    method ClearSaveMethodSymbols()
      modifies this`playerSettings
      ensures playerSettings == ClearTargets(old(playerSettings), allTargets, |allTargets|)
    {
      ghost var start := playerSettings;
      var i := 0;
      while i < |allTargets|
        invariant 0 <= i <= |allTargets|
        invariant playerSettings == ClearTargets(start, allTargets, i)
      {
        ClearTarget(allTargets[i]);
        i := i + 1;
      }
    }

    /** The inner clearing loop: every save method's symbol is removed from one target group, in declaration order. */
    method ClearTarget(target: string)
      modifies this`playerSettings
      ensures playerSettings == StripTarget(old(playerSettings), target, |AllMethods|)
    {
      ghost var before := playerSettings;
      var j := 0;
      while j < |AllMethods|
        invariant 0 <= j <= |AllMethods|
        invariant playerSettings == StripTarget(before, target, j)
      {
        AddPreprocessorDirective(AllMethods[j].Name(), true, target);
        j := j + 1;
      }
    }

    /** The second loop of the Save button: each row's method is added to its target group. */
    method ApplySelectedMethods()
      requires Valid()
      modifies this`playerSettings
      ensures playerSettings == ApplySelections(old(playerSettings), buildTargets, Names(selectedMethods), |buildTargets|)
    {
      ghost var start := playerSettings;
      var targets := buildTargets;
      var methods := selectedMethods;
      ghost var names := Names(methods);
      var i := 0;
      while i < |targets|
        invariant 0 <= i <= |targets|
        invariant playerSettings == ApplySelections(start, targets, names, i)
      {
        var directive := methods[i].Name();
        assert directive == names[i];
        AddPreprocessorDirective(directive, false, targets[i]);
        i := i + 1;
      }
    }

    /** SaveSettings: the lists are already the asset's own, so it only marks the asset dirty. */
    method SaveSettings()
      modifies this`assetDirty
      ensures assetDirty
    {
      assetDirty := true;
    }

    /**
     The Save button after the duplicate check: every save-method symbol is
     removed from every target group, each row's method is added to its
     group, the asset is marked dirty and success is reported. With distinct
     targets, each configured group then contains its method's symbol.
     */
    method ApplySettings()
      requires Valid()
      modifies this`playerSettings, this`message, this`assetDirty
      ensures playerSettings == ApplySelections(ClearTargets(old(playerSettings), allTargets, |allTargets|), buildTargets, Names(selectedMethods), |buildTargets|)
      ensures message == AppliedMessage && assetDirty
      ensures Distinct(buildTargets) ==> MethodsPresent(playerSettings, buildTargets, selectedMethods)
    {
      ClearSaveMethodSymbols();
      ghost var cleared := playerSettings;
      ApplySelectedMethods();
      ghost var applied := playerSettings;
      if Distinct(buildTargets) {
        SelectionsApplied(cleared, buildTargets, selectedMethods);
        assert MethodsPresent(applied, buildTargets, selectedMethods);
      }
      SaveSettings();
      message := AppliedMessage;
      assert playerSettings == applied;
    }

    /**
     The "Save" button. With a duplicate target it only sets the duplicate
     message; otherwise it applies the settings.
     */
    method Save()
      requires Valid()
      modifies this`playerSettings, this`message, this`assetDirty
      ensures !Distinct(buildTargets) ==>
        playerSettings == old(playerSettings) && assetDirty == old(assetDirty) &&
        exists i :: FirstDuplicate(buildTargets, i) && message == DuplicateMessage(buildTargets[i])
      ensures Distinct(buildTargets) ==>
        playerSettings == ApplySelections(ClearTargets(old(playerSettings), allTargets, |allTargets|), buildTargets, Names(selectedMethods), |buildTargets|) &&
        message == AppliedMessage && assetDirty
      ensures Distinct(buildTargets) ==> MethodsPresent(playerSettings, buildTargets, selectedMethods)
    {
      var duplicate := FindDuplicate(buildTargets);
      if duplicate.Some? {
        var i := duplicate.value;
        message := DuplicateMessage(buildTargets[i]);
        return;
      }
      ApplySettings();
    }
  }
}
