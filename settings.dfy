/**
 * The settings page of `settings_toggle.js`: `localStorage` as a map from
 * keys to strings, the class lists of `<body>` and `<html>` as sets of class
 * names, and the font-size slider's value as a string. The handlers update
 * these in place; each is proved to agree with a step function, and the
 * properties of the page are proved about the step functions.
 */
module Settings {
  import opened Wrappers
  import opened Strings

  type Storage = map<string, string>

  // ----- storage -----

  /** `localStorage.getItem(key)`: `None` stands for `null`. */
  function Get(st: Storage, key: string): (r: Option<string>)
    ensures r.Some? <==> key in st
    ensures r.Some? ==> r.value == st[key]
  {
    if key in st then Some(st[key]) else None
  }

  /** The stored value is neither `null` nor empty. */
  predicate Truthy(st: Storage, key: string) {
    key in st && st[key] != ""
  }

  /** `localStorage.getItem(key) || fallback` */
  function StoredOr(st: Storage, key: string, fallback: string): (r: string)
    ensures Truthy(st, key) ==> r == st[key]
    ensures !Truthy(st, key) ==> r == fallback
  {
    if Truthy(st, key) then st[key] else fallback
  }

  /** `SettingsManager.defaults`, in declaration order. */
  const Defaults: seq<(string, string)> := [
    ("fontSize", "medium"),
    ("colorMode", "True"),
    ("dyslexicFont", "false"),
    ("ttsEnabled", "false"),
    ("speechVolume", "0.5"),
    ("altTextEnabled", "false")
  ]

  /** The defaults as a lookup: the value `init` and `resetAllSettings` write for `key`, if it is a setting. */
  function DefaultFor(key: string): (r: Option<string>)
    ensures r.Some? ==> r.value != ""
  {
    if key == "fontSize" then Some("medium")
    else if key == "colorMode" then Some("True")
    else if key == "dyslexicFont" then Some("false")
    else if key == "ttsEnabled" then Some("false")
    else if key == "speechVolume" then Some("0.5")
    else if key == "altTextEnabled" then Some("false")
    else None
  }

  /** The value `entries` lists for `key`, the last one should the key repeat. */
  function Lookup(entries: seq<(string, string)>, key: string): Option<string>
    decreases |entries|
  {
    if entries == [] then None
    else if entries[|entries| - 1].0 == key then Some(entries[|entries| - 1].1)
    else Lookup(entries[..|entries| - 1], key)
  }

  lemma {:induction false} LookupUnlisted(entries: seq<(string, string)>, key: string)
    requires forall i :: 0 <= i < |entries| ==> entries[i].0 != key
    ensures Lookup(entries, key).None?
    decreases |entries|
  {
    if entries != [] {
      LookupUnlisted(entries[..|entries| - 1], key);
    }
  }

  predicate DistinctKeys(entries: seq<(string, string)>) {
    forall i, j :: 0 <= i < j < |entries| ==> entries[i].0 != entries[j].0
  }

  lemma DefaultsDistinct()
    ensures DistinctKeys(Defaults)
  {
  }

  /** The list and the lookup agree on every key. */
  lemma DefaultsLookup(key: string)
    ensures Lookup(Defaults, key) == DefaultFor(key)
  {
    var d1, d2, d3, d4, d5 := Defaults[..1], Defaults[..2], Defaults[..3], Defaults[..4], Defaults[..5];
    assert d1[..0] == [] && d2[..1] == d1 && d3[..2] == d2 && d4[..3] == d3 && d5[..4] == d4 && Defaults[..5] == d5;
    assert Lookup(d1, key) == if key == "fontSize" then Some("medium") else None;
    assert Lookup(d2, key) == if key == "colorMode" then Some("True") else Lookup(d1, key);
    assert Lookup(d3, key) == if key == "dyslexicFont" then Some("false") else Lookup(d2, key);
    assert Lookup(d4, key) == if key == "ttsEnabled" then Some("false") else Lookup(d3, key);
    assert Lookup(d5, key) == if key == "speechVolume" then Some("0.5") else Lookup(d4, key);
    assert Lookup(Defaults, key) == if key == "altTextEnabled" then Some("false") else Lookup(d5, key);
  }

  /** Two storages that answer every `getItem` alike are the same. */
  lemma SameStorage(a: Storage, b: Storage)
    requires forall key :: Get(a, key) == Get(b, key)
    ensures a == b
  {
    assert forall key :: key in a <==> Get(a, key).Some?;
    assert a.Keys == b.Keys;
  }

  /** The storage writes of `SettingsManager.init`: a default is written only where the stored value is `null` or empty. */
  function InitWith(st: Storage, entries: seq<(string, string)>): Storage
    decreases |entries|
  {
    if entries == [] then st
    else
      var before := InitWith(st, entries[..|entries| - 1]);
      var (key, value) := entries[|entries| - 1];
      if Truthy(before, key) then before else before[key := value]
  }

  /** Key by key: a listed key keeps a non-empty stored value and otherwise gets its listed value; any other key keeps what it had. */
  lemma {:induction false} InitWithValue(st: Storage, entries: seq<(string, string)>, key: string)
    requires DistinctKeys(entries)
    ensures Get(InitWith(st, entries), key) ==
              if Truthy(st, key) || Lookup(entries, key).None? then Get(st, key) else Lookup(entries, key)
    decreases |entries|
  {
    if entries != [] {
      var front := entries[..|entries| - 1];
      assert DistinctKeys(front);
      if entries[|entries| - 1].0 == key {
        LookupUnlisted(front, key);
      }
      InitWithValue(st, front, key);
    }
  }

  /** `SettingsManager.init` */
  function Initialized(st: Storage): Storage {
    InitWith(st, Defaults)
  }

  /**
   * What `init` leaves under each key: a non-empty stored value stays, a
   * setting that is missing or empty gets its default, and any other key is
   * untouched.
   */
  lemma InitValue(st: Storage, key: string)
    ensures Get(Initialized(st), key) ==
              if Truthy(st, key) || DefaultFor(key).None? then Get(st, key) else DefaultFor(key)
  {
    DefaultsDistinct();
    InitWithValue(st, Defaults, key);
    DefaultsLookup(key);
  }

  /** After `init` every setting holds a non-empty value. */
  lemma InitFillsDefaults(st: Storage, key: string)
    requires DefaultFor(key).Some?
    ensures Truthy(Initialized(st), key)
  {
    InitValue(st, key);
  }

  /** Running `init` on every page load changes nothing after the first. */
  lemma InitIdempotent(st: Storage)
    ensures Initialized(Initialized(st)) == Initialized(st)
  {
    var once := Initialized(st);
    forall key
      ensures Get(Initialized(once), key) == Get(once, key)
    {
      InitValue(st, key);
      InitValue(once, key);
    }
    SameStorage(Initialized(once), once);
  }

  /** The storage loop of `resetAllSettings`: every listed key is overwritten. */
  function ResetWith(st: Storage, entries: seq<(string, string)>): Storage
    decreases |entries|
  {
    if entries == [] then st
    else
      var (key, value) := entries[|entries| - 1];
      ResetWith(st, entries[..|entries| - 1])[key := value]
  }

  lemma {:induction false} ResetWithValue(st: Storage, entries: seq<(string, string)>, key: string)
    ensures Get(ResetWith(st, entries), key) == if Lookup(entries, key).Some? then Lookup(entries, key) else Get(st, key)
    decreases |entries|
  {
    if entries != [] {
      ResetWithValue(st, entries[..|entries| - 1], key);
    }
  }

  /** The storage writes of `resetAllSettings`: the defaults, then `dark_mode` = `disabled`. */
  function ResetStorage(st: Storage): Storage {
    ResetWith(st, Defaults)["dark_mode" := "disabled"]
  }

  /** After a reset every setting holds its default and `dark_mode` is `disabled`; no other key is written. */
  lemma ResetRestoresDefaults(st: Storage, key: string)
    ensures Get(ResetStorage(st), key) ==
              if key == "dark_mode" then Some("disabled")
              else if DefaultFor(key).Some? then DefaultFor(key)
              else Get(st, key)
  {
    ResetWithValue(st, Defaults, key);
    DefaultsLookup(key);
  }

  /** A reset leaves nothing for `init` to fill in. */
  lemma InitAfterReset(st: Storage)
    ensures Initialized(ResetStorage(st)) == ResetStorage(st)
  {
    var r := ResetStorage(st);
    forall key
      ensures Get(Initialized(r), key) == Get(r, key)
    {
      InitValue(r, key);
      ResetRestoresDefaults(st, key);
    }
    SameStorage(Initialized(r), r);
  }

  // ----- font sizes -----

  /** `sizeValues`, smallest first. */
  const SizeValues: seq<string> := ["x-small", "small", "medium", "large", "x-large"]
  const SizeClasses: set<string> := {"x-small", "small", "medium", "large", "x-large"}

  /** `sizeValues.indexOf(size) + 1`: the slider position, 0 for an unknown size. */
  function SliderPosition(size: string): (r: nat)
    ensures r <= |SizeValues|
    ensures r == 0 <==> size !in SizeValues
    ensures r > 0 ==> SizeValues[r - 1] == size
  {
    if size == "x-small" then 1
    else if size == "small" then 2
    else if size == "medium" then 3
    else if size == "large" then 4
    else if size == "x-large" then 5
    else 0
  }

  /** `sizeMap[value]`: `None` for any other slider value. */
  function SizeMap(value: string): (r: Option<string>)
    ensures r.Some? ==> r.value in SizeClasses
  {
    if value == "1" then Some("x-small")
    else if value == "2" then Some("small")
    else if value == "3" then Some("medium")
    else if value == "4" then Some("large")
    else if value == "5" then Some("x-large")
    else None
  }

  /** The slider shows every size at a position that `sizeMap` reads back as that size. */
  lemma SliderRoundTrip(size: string)
    requires size in SizeValues
    ensures SizeMap(NatText(SliderPosition(size))) == Some(size)
  {
  }

  /** Conversely, every value `sizeMap` knows is the slider position of the size it names. */
  lemma SizeMapRoundTrip(value: string)
    requires SizeMap(value).Some?
    ensures NatText(SliderPosition(SizeMap(value).value)) == value
  {
  }

  lemma SizeClassesUnspaced(size: string)
    requires size in SizeClasses
    ensures Trim(size) == size
  {
    TrimUnspaced(size);
  }

  /** The size `updateFontSize` applies: the stored size trimmed, `medium` when none is stored. */
  function CurrentSize(st: Storage): string {
    if Truthy(st, "fontSize") then Trim(st["fontSize"]) else "medium"
  }

  /** This is `(getItem("fontSize") || "medium").trim()`: the fallback is already trimmed. */
  lemma CurrentSizeTrimmed(st: Storage)
    ensures CurrentSize(st) == Trim(StoredOr(st, "fontSize", "medium"))
  {
    TrimUnspaced("medium");
  }

  /**
   * `updateFontSize(previous)` on a class list, `size` being the size to
   * apply: the previous size's class is removed when one is given, all five
   * size classes otherwise, and then `size` is added; no other class changes.
   */
  function FontSizeApplied(classes: set<string>, size: string, previous: Option<string>): (r: set<string>)
    ensures size in r
    ensures previous.None? || previous.value == "" ==>
              r * SizeClasses == {size} * SizeClasses
              && r - SizeClasses - {size} == classes - SizeClasses - {size}
    ensures previous.Some? && previous.value != "" ==>
              r - {size} == classes - {previous.value, size}
  {
    var removed := if previous.Some? && previous.value != "" then classes - {previous.value} else classes - SizeClasses;
    removed + {size}
  }

  /** Classes outside the ones an update may touch are the same before and after it. */
  lemma GroupKept(after: set<string>, before: set<string>, touched: set<string>, group: set<string>)
    requires after - touched == before - touched
    requires touched * group == {}
    ensures after * group == before * group
  {
    forall c | c in group
      ensures c in after <==> c in before
    {
      assert c !in touched * group;
      assert c in after - touched <==> c in after;
      assert c in before - touched <==> c in before;
    }
  }

  // ----- colour modes -----

  const ModeClasses: set<string> := {"True", "Prot", "Deut", "Trit"}

  /** The mode `updateColorMode` applies: the stored mode trimmed, `True` when none is stored. */
  function CurrentMode(st: Storage): string {
    if Truthy(st, "colorMode") then Trim(st["colorMode"]) else "True"
  }

  /** This is `(getItem("colorMode") || "True").trim()`. */
  lemma CurrentModeTrimmed(st: Storage)
    ensures CurrentMode(st) == Trim(StoredOr(st, "colorMode", "True"))
  {
    TrimUnspaced("True");
  }

  /** The mode classes a class list should carry for `mode`: `True` is the standard palette and has none. */
  function ModeShownFor(mode: string): set<string> {
    if mode != "True" then {mode} * ModeClasses else {}
  }

  /**
   * `updateColorMode(previousMode)` on a class list, `mode` being the mode
   * to apply: a given previous mode that differs from `mode` is removed,
   * otherwise all four mode classes are; `mode` is then added unless it is
   * `True`.
   */
  function ColorModeApplied(classes: set<string>, mode: string, previous: Option<string>): (r: set<string>)
    ensures mode != "True" ==> mode in r
    ensures (previous.None? || previous.value == "" || previous.value == mode) ==>
              r * ModeClasses == ModeShownFor(mode)
              && r - ModeClasses - {mode} == classes - ModeClasses - {mode}
    ensures previous.Some? && previous.value != "" && previous.value != mode ==>
              previous.value !in r && r - {mode} == classes - {previous.value, mode}
              && (mode in r <==> mode != "True" || mode in classes)
  {
    var removed :=
      if previous.Some? && previous.value != "" && previous.value != mode then classes - {previous.value}
      else classes - ModeClasses;
    if mode != "True" then removed + {mode} else removed
  }

  // ----- dyslexic font -----

  /** `changeFont` on a class list: `dyslexicFont` is present exactly when the setting is on. */
  function FontApplied(classes: set<string>, on: bool): (r: set<string>)
    ensures "dyslexicFont" in r <==> on
    ensures r - {"dyslexicFont"} == classes - {"dyslexicFont"}
  {
    if on then classes + {"dyslexicFont"} else classes - {"dyslexicFont"}
  }

  /** `getItem("dyslexicFont") === "true"` */
  predicate DyslexicOn(st: Storage) {
    Get(st, "dyslexicFont") == Some("true")
  }

  /** `String(checked)`, as `setItem` stores a boolean. */
  function BoolText(b: bool): string {
    if b then "true" else "false"
  }

  // ----- the page -----

  /** Storage, the `<body>` and `<html>` class lists, and the font slider's value. */
  datatype Page = Page(storage: Storage, body: set<string>, root: set<string>, slider: string)

  function ApplyFontSize(p: Page, previous: Option<string>): (r: Page)
    ensures r == p.(body := FontSizeApplied(p.body, CurrentSize(p.storage), previous))
  {
    p.(body := FontSizeApplied(p.body, CurrentSize(p.storage), previous))
  }

  function ApplyColorMode(p: Page, previous: Option<string>): (r: Page)
    ensures r == p.(body := ColorModeApplied(p.body, CurrentMode(p.storage), previous),
                    root := ColorModeApplied(p.root, CurrentMode(p.storage), previous))
  {
    var mode := CurrentMode(p.storage);
    p.(root := ColorModeApplied(p.root, mode, previous), body := ColorModeApplied(p.body, mode, previous))
  }

  function ApplyFont(p: Page): (r: Page)
    ensures r == p.(body := FontApplied(p.body, DyslexicOn(p.storage)), root := FontApplied(p.root, DyslexicOn(p.storage)))
  {
    p.(body := FontApplied(p.body, DyslexicOn(p.storage)), root := FontApplied(p.root, DyslexicOn(p.storage)))
  }

  /** `initializeUIState`, the class-list part: size, font and colour mode applied from storage with no previous values. */
  function InitializeUI(p: Page): (r: Page)
    ensures r.storage == p.storage && r.slider == p.slider
  {
    ApplyColorMode(ApplyFont(ApplyFontSize(p, None)), None)
  }

  /** The page shows exactly one size class, that of the stored size, and the stored size is kept trimmed. */
  predicate SizeShown(p: Page) {
    var size := CurrentSize(p.storage);
    && size in SizeClasses
    && p.body * SizeClasses == {size}
    && (Truthy(p.storage, "fontSize") ==> p.storage["fontSize"] == size)
  }

  /** Both class lists carry the class of the stored colour mode and no other mode class, and the stored mode is kept trimmed. */
  predicate ModeShown(p: Page) {
    var mode := CurrentMode(p.storage);
    && mode in ModeClasses
    && p.body * ModeClasses == ModeShownFor(mode)
    && p.root * ModeClasses == ModeShownFor(mode)
    && (Truthy(p.storage, "colorMode") ==> p.storage["colorMode"] == mode)
  }

  /** Both class lists carry `dyslexicFont` exactly when the setting is on. */
  predicate FontShown(p: Page) {
    ("dyslexicFont" in p.body <==> DyslexicOn(p.storage))
    && ("dyslexicFont" in p.root <==> DyslexicOn(p.storage))
  }

  lemma ModeClassesUnspaced(mode: string)
    requires mode in ModeClasses
    ensures Trim(mode) == mode
  {
    TrimUnspaced(mode);
  }

  /** The three updates of `initializeUIState` on class lists, with no previous size or mode. */
  lemma InitialClasses(body: set<string>, root: set<string>, size: string, mode: string, on: bool)
    requires size in SizeClasses && mode in ModeClasses
    ensures var b := ColorModeApplied(FontApplied(FontSizeApplied(body, size, None), on), mode, None);
            var r := ColorModeApplied(FontApplied(root, on), mode, None);
            && b * SizeClasses == {size}
            && b * ModeClasses == ModeShownFor(mode) && r * ModeClasses == ModeShownFor(mode)
            && ("dyslexicFont" in b <==> on) && ("dyslexicFont" in r <==> on)
  {
    var b1 := FontSizeApplied(body, size, None);
    var b2 := FontApplied(b1, on);
    var b3 := ColorModeApplied(b2, mode, None);
    var r2 := FontApplied(root, on);
    var r3 := ColorModeApplied(r2, mode, None);
    assert {size} * SizeClasses == {size};
    GroupKept(b2, b1, {"dyslexicFont"}, SizeClasses);
    assert ModeClasses + {mode} == ModeClasses;
    GroupKept(b3, b2, ModeClasses, SizeClasses);
    assert "dyslexicFont" in b3 <==> "dyslexicFont" in b3 - ModeClasses - {mode};
    assert "dyslexicFont" in r3 <==> "dyslexicFont" in r3 - ModeClasses - {mode};
  }

  /** Whatever the class lists held, initialising the UI from valid stored settings shows them. */
  lemma InitializeUIShows(p: Page)
    requires CurrentSize(p.storage) in SizeClasses && CurrentMode(p.storage) in ModeClasses
    requires Truthy(p.storage, "fontSize") ==> p.storage["fontSize"] == CurrentSize(p.storage)
    requires Truthy(p.storage, "colorMode") ==> p.storage["colorMode"] == CurrentMode(p.storage)
    ensures SizeShown(InitializeUI(p)) && ModeShown(InitializeUI(p)) && FontShown(InitializeUI(p))
  {
    InitialClasses(p.body, p.root, CurrentSize(p.storage), CurrentMode(p.storage), DyslexicOn(p.storage));
  }

  /** A click on the button of colour mode `mode`. */
  function ColorButtonStep(p: Page, mode: string): (r: Page)
    ensures r.storage == p.storage["colorMode" := mode]
    ensures var previous := StoredOr(p.storage, "colorMode", "True");
            var shown := CurrentMode(r.storage);
            previous != "" && previous != shown ==>
              r.body - {shown} == p.body - {previous, shown} && r.root - {shown} == p.root - {previous, shown}
  {
    var previous := StoredOr(p.storage, "colorMode", "True");
    ApplyColorMode(p.(storage := p.storage["colorMode" := mode]), Some(previous))
  }

  /** Switching colour mode by its button keeps exactly one mode shown, the new one (none for `True`), on both class lists. */
  lemma ColorButtonShowsMode(p: Page, mode: string)
    requires ModeShown(p) && mode in ModeClasses
    ensures ModeShown(ColorButtonStep(p, mode)) && CurrentMode(ColorButtonStep(p, mode).storage) == mode
  {
    ModeClassesUnspaced(mode);
    var st := p.storage["colorMode" := mode];
    assert CurrentMode(st) == mode;
    var previous := StoredOr(p.storage, "colorMode", "True");
    assert previous == CurrentMode(p.storage);
    var body, root := ColorModeApplied(p.body, mode, Some(previous)), ColorModeApplied(p.root, mode, Some(previous));
    assert ColorButtonStep(p, mode) == Page(st, body, root, p.slider);
    ModeChange(p.body, previous, mode);
    ModeChange(p.root, previous, mode);
  }

  /** A mode class list moves from showing `previous` to showing `mode`. */
  lemma ModeChange(classes: set<string>, previous: string, mode: string)
    requires previous in ModeClasses && mode in ModeClasses
    requires classes * ModeClasses == ModeShownFor(previous)
    ensures ColorModeApplied(classes, mode, Some(previous)) * ModeClasses == ModeShownFor(mode)
  {
    var r := ColorModeApplied(classes, mode, Some(previous));
    forall c | c in ModeClasses
      ensures c in r <==> c in ModeShownFor(mode)
    {
      if previous != mode && c != previous && c != mode {
        assert c in r <==> c in r - {mode};
        assert c in classes <==> c in classes * ModeClasses;
      }
    }
  }

  /** A click on the button of size `size`: stored, applied against the previously stored size, and mirrored on the slider. */
  function FontButtonStep(p: Page, size: string): (r: Page)
    ensures r.storage == p.storage["fontSize" := size]
    ensures r.slider == NatText(SliderPosition(size))
  {
    var previous := Get(p.storage, "fontSize");
    ApplyFontSize(p.(storage := p.storage["fontSize" := size]), previous).(slider := NatText(SliderPosition(size)))
  }

  /** The slider's `input` event at `value`; a value `sizeMap` does not know stores the text `undefined`. */
  function SliderStep(p: Page, value: string): (r: Page)
    ensures r.storage == p.storage["fontSize" := SizeMap(value).GetOr("undefined")]
    ensures r.slider == value
  {
    var newSize := SizeMap(value).GetOr("undefined");
    var previous := Get(p.storage, "fontSize");
    ApplyFontSize(p.(storage := p.storage["fontSize" := newSize], slider := value), previous)
  }

  /** A size class list moves from showing `previous` alone to showing `size` alone. */
  lemma SizeChange(classes: set<string>, previous: string, size: string)
    requires size in SizeClasses && previous != ""
    requires classes * SizeClasses == {previous}
    ensures FontSizeApplied(classes, size, Some(previous)) * SizeClasses == {size}
  {
    var r := FontSizeApplied(classes, size, Some(previous));
    forall c | c in SizeClasses
      ensures c in r <==> c == size
    {
      if c != size {
        assert c in r <==> c in r - {size};
        assert c in classes <==> c in classes * SizeClasses;
      }
    }
  }

  lemma ApplyFontSizeKeepsOneSize(p: Page, size: string)
    requires SizeShown(p) && size in SizeClasses
    ensures var q := ApplyFontSize(p.(storage := p.storage["fontSize" := size]), Get(p.storage, "fontSize"));
            SizeShown(q) && CurrentSize(q.storage) == size
  {
    var st := p.storage["fontSize" := size];
    SizeClassesUnspaced(size);
    assert CurrentSize(st) == size;
    var previous := Get(p.storage, "fontSize");
    var r := FontSizeApplied(p.body, size, previous);
    assert ApplyFontSize(p.(storage := st), previous) == p.(storage := st, body := r);
    if previous.Some? && previous.value != "" {
      assert previous.value == CurrentSize(p.storage);
      SizeChange(p.body, previous.value, size);
    } else {
      assert {size} * SizeClasses == {size};
    }
    assert SizeShown(p.(storage := st, body := r));
  }

  /** Choosing a size by its button shows exactly that size and puts the slider at its position. */
  lemma FontButtonShowsSize(p: Page, size: string)
    requires SizeShown(p) && size in SizeClasses
    ensures SizeShown(FontButtonStep(p, size))
    ensures CurrentSize(FontButtonStep(p, size).storage) == size
    ensures SizeMap(FontButtonStep(p, size).slider) == Some(size)
  {
    ApplyFontSizeKeepsOneSize(p, size);
  }

  /** Moving the slider to a known position shows exactly the size it names. */
  lemma SliderShowsSize(p: Page, value: string)
    requires SizeShown(p) && SizeMap(value).Some?
    ensures SizeShown(SliderStep(p, value))
    ensures CurrentSize(SliderStep(p, value).storage) == SizeMap(value).value
  {
    ApplyFontSizeKeepsOneSize(p.(slider := value), SizeMap(value).value);
  }

  /** The dyslexic-font toggle's `change` event. */
  function DyslexicToggleStep(p: Page, checked: bool): (r: Page)
    ensures r.storage == p.storage["dyslexicFont" := BoolText(checked)]
    ensures FontShown(r) && ("dyslexicFont" in r.body <==> checked) && ("dyslexicFont" in r.root <==> checked)
  {
    ApplyFont(p.(storage := p.storage["dyslexicFont" := BoolText(checked)]))
  }

  /** The dark-mode toggle's `change` event: the class on both lists and the stored flag follow the toggle. */
  function DarkModeToggleStep(p: Page, checked: bool): (r: Page)
    ensures "dark-mode" in r.body <==> checked
    ensures "dark-mode" in r.root <==> checked
    ensures r.storage == p.storage["dark_mode" := if checked then "enabled" else "disabled"]
    ensures r.body - {"dark-mode"} == p.body - {"dark-mode"} && r.root - {"dark-mode"} == p.root - {"dark-mode"}
  {
    if checked then p.(body := p.body + {"dark-mode"}, root := p.root + {"dark-mode"}, storage := p.storage["dark_mode" := "enabled"])
    else p.(body := p.body - {"dark-mode"}, root := p.root - {"dark-mode"}, storage := p.storage["dark_mode" := "disabled"])
  }

  /** `resetAllSettings`: storage reset, defaults applied, the slider at `medium`, the dark-mode classes removed. */
  function ResetStep(p: Page): (r: Page)
    ensures r.storage == ResetStorage(p.storage)
    ensures r.slider == "3"
    ensures "dark-mode" !in r.body && "dark-mode" !in r.root
  {
    var applied := InitializeUI(p.(storage := ResetStorage(p.storage)));
    applied.(slider := "3", body := applied.body - {"dark-mode"}, root := applied.root - {"dark-mode"})
  }

  lemma ResetStorageCurrent(st: Storage)
    ensures Get(ResetStorage(st), "fontSize") == Some("medium") && CurrentSize(ResetStorage(st)) == "medium"
    ensures Get(ResetStorage(st), "colorMode") == Some("True") && CurrentMode(ResetStorage(st)) == "True"
    ensures Get(ResetStorage(st), "dyslexicFont") == Some("false")
  {
    ResetRestoresDefaults(st, "fontSize");
    ResetRestoresDefaults(st, "colorMode");
    ResetRestoresDefaults(st, "dyslexicFont");
    TrimUnspaced("medium");
    TrimUnspaced("True");
  }

  /** After a reset the page shows the default look: size `medium`, the standard palette, the regular font, no dark mode, and the slider reads back `medium`. */
  lemma ResetShowsDefaults(p: Page)
    ensures var r := ResetStep(p);
            && SizeShown(r) && CurrentSize(r.storage) == "medium" && SizeMap(r.slider) == Some("medium")
            && ModeShown(r) && r.body * ModeClasses == {} && r.root * ModeClasses == {}
            && "dyslexicFont" !in r.body && "dyslexicFont" !in r.root
  {
    ResetStorageCurrent(p.storage);
    var q := p.(storage := ResetStorage(p.storage));
    InitializeUIShows(q);
    var applied := InitializeUI(q);
    var r := ResetStep(p);
    GroupKept(r.body, applied.body, {"dark-mode"}, SizeClasses);
    GroupKept(r.body, applied.body, {"dark-mode"}, ModeClasses);
    GroupKept(r.root, applied.root, {"dark-mode"}, ModeClasses);
    assert "dyslexicFont" in r.body ==> "dyslexicFont" in applied.body;
    assert "dyslexicFont" in r.root ==> "dyslexicFont" in applied.root;
  }

  /** The reset button: nothing happens unless the confirmation is accepted; otherwise the reset and a fresh UI initialisation. */
  function ResetButtonStep(p: Page, confirmed: bool): (r: Page)
    ensures !confirmed ==> r == p
    ensures confirmed ==> r.storage == ResetStorage(p.storage) && r.slider == "3"
  {
    if confirmed then InitializeUI(ResetStep(p)) else p
  }

  /** An accepted reset shows the default look: size `medium` alone, no colour-mode class and the regular font, on both class lists. */
  lemma ResetButtonShowsDefaults(p: Page)
    ensures var r := ResetButtonStep(p, true);
            && SizeShown(r) && CurrentSize(r.storage) == "medium"
            && ModeShown(r) && r.body * ModeClasses == {} && r.root * ModeClasses == {}
            && "dyslexicFont" !in r.body && "dyslexicFont" !in r.root
  {
    ResetStorageCurrent(p.storage);
    InitializeUIShows(ResetStep(p));
  }

  /** The page load: `init`, then `initializeUIState`, then the slider set up (`indexOf(currentSize) + 1`). */
  function LoadStep(p: Page): (r: Page)
    ensures r.storage == Initialized(p.storage)
    ensures r.slider == NatText(SliderPosition(StoredOr(Initialized(p.storage), "fontSize", "medium")))
  {
    var st := Initialized(p.storage);
    var shown := InitializeUI(p.(storage := st));
    shown.(slider := NatText(SliderPosition(StoredOr(st, "fontSize", "medium"))))
  }

  // ----- the page, updated in place -----

  class SettingsPage {
    var storage: Storage
    var body: set<string>
    var root: set<string>
    var slider: string

    ghost function Snapshot(): Page
      reads this
    {
      Page(storage, body, root, slider)
    }

    constructor (storage: Storage, body: set<string>, root: set<string>, slider: string)
      ensures Snapshot() == Page(storage, body, root, slider)
    {
      this.storage := storage;
      this.body := body;
      this.root := root;
      this.slider := slider;
    }

    /** `SettingsManager.init`: one `setItem` per missing default. */
    method Init()
      modifies this
      ensures Snapshot() == old(Snapshot()).(storage := Initialized(old(storage)))
    {
      var i := 0;
      while i < |Defaults|
        invariant 0 <= i <= |Defaults|
        invariant storage == InitWith(old(storage), Defaults[..i])
        invariant Snapshot() == old(Snapshot()).(storage := storage)
      {
        var (key, value) := Defaults[i];
        if !(key in storage && storage[key] != "") {
          storage := storage[key := value];
        }
        assert Defaults[..i + 1][..i] == Defaults[..i];
        i := i + 1;
      }
      assert Defaults[..|Defaults|] == Defaults;
    }

    method UpdateFontSize(previous: Option<string>)
      modifies this
      ensures Snapshot() == ApplyFontSize(old(Snapshot()), previous)
    {
      // `(getItem("fontSize") || "medium").trim()`, the fallback needing no trimming
      var size := if "fontSize" in storage && storage["fontSize"] != "" then Trim(storage["fontSize"]) else "medium";
      if previous.Some? && previous.value != "" {
        body := body - {previous.value};
      } else {
        body := body - {"x-small", "small", "medium", "large", "x-large"};
      }
      body := body + {size};
    }

    method UpdateColorMode(previousMode: Option<string>)
      modifies this
      ensures Snapshot() == ApplyColorMode(old(Snapshot()), previousMode)
    {
      // `(getItem("colorMode") || "True").trim()`
      var mode := if "colorMode" in storage && storage["colorMode"] != "" then Trim(storage["colorMode"]) else "True";
      if previousMode.Some? && previousMode.value != "" && previousMode.value != mode {
        root := root - {previousMode.value};
        body := body - {previousMode.value};
      } else {
        root := root - {"True", "Prot", "Deut", "Trit"};
        body := body - {"True", "Prot", "Deut", "Trit"};
      }
      if mode != "True" {
        root := root + {mode};
        body := body + {mode};
      }
    }

    method ChangeFont()
      modifies this
      ensures Snapshot() == ApplyFont(old(Snapshot()))
    {
      var dysFontSetting := "dyslexicFont" in storage && storage["dyslexicFont"] == "true";
      if dysFontSetting {
        body := body + {"dyslexicFont"};
        root := root + {"dyslexicFont"};
      } else {
        body := body - {"dyslexicFont"};
        root := root - {"dyslexicFont"};
      }
    }

    method InitializeUIState()
      modifies this
      ensures Snapshot() == InitializeUI(old(Snapshot()))
    {
      UpdateFontSize(None);
      ChangeFont();
      UpdateColorMode(None);
    }

    /** The page load: `init`, then `initializeUIState`, then the slider's starting position. */
    method Load()
      modifies this
      ensures Snapshot() == LoadStep(old(Snapshot()))
    {
      Init();
      InitializeUIState();
      var currentSize := if "fontSize" in storage && storage["fontSize"] != "" then storage["fontSize"] else "medium";
      slider := NatText(SliderPosition(currentSize));
    }

    method OnColorButton(mode: string)
      modifies this
      ensures Snapshot() == ColorButtonStep(old(Snapshot()), mode)
    {
      var previousMode := if "colorMode" in storage && storage["colorMode"] != "" then storage["colorMode"] else "True";
      storage := storage["colorMode" := mode];
      UpdateColorMode(Some(previousMode));
    }

    method OnFontButton(size: string)
      modifies this
      ensures Snapshot() == FontButtonStep(old(Snapshot()), size)
    {
      var previousSize := Get(storage, "fontSize");
      storage := storage["fontSize" := size];
      UpdateFontSize(previousSize);
      slider := NatText(SliderPosition(size));
    }

    /** The slider moved to `value`. */
    method OnFontSlider(value: string)
      modifies this
      ensures Snapshot() == SliderStep(old(Snapshot()), value)
    {
      slider := value;
      var newSize := SizeMap(value).GetOr("undefined");
      var previousSize := Get(storage, "fontSize");
      storage := storage["fontSize" := newSize];
      UpdateFontSize(previousSize);
    }

    method OnDyslexicToggle(checked: bool)
      modifies this
      ensures Snapshot() == DyslexicToggleStep(old(Snapshot()), checked)
    {
      storage := storage["dyslexicFont" := BoolText(checked)];
      ChangeFont();
    }

    method OnDarkModeToggle(checked: bool)
      modifies this
      ensures Snapshot() == DarkModeToggleStep(old(Snapshot()), checked)
    {
      if checked {
        body := body + {"dark-mode"};
        root := root + {"dark-mode"};
        storage := storage["dark_mode" := "enabled"];
      } else {
        body := body - {"dark-mode"};
        root := root - {"dark-mode"};
        storage := storage["dark_mode" := "disabled"];
      }
    }

    /** `resetAllSettings`: one `setItem` per default, then `dark_mode`, then the defaults applied. */
    method ResetAllSettings()
      modifies this
      ensures Snapshot() == ResetStep(old(Snapshot()))
    {
      var i := 0;
      while i < |Defaults|
        invariant 0 <= i <= |Defaults|
        invariant storage == ResetWith(old(storage), Defaults[..i])
        invariant Snapshot() == old(Snapshot()).(storage := storage)
      {
        var (key, value) := Defaults[i];
        storage := storage[key := value];
        assert Defaults[..i + 1][..i] == Defaults[..i];
        i := i + 1;
      }
      assert Defaults[..|Defaults|] == Defaults;
      storage := storage["dark_mode" := "disabled"];

      UpdateFontSize(None);
      ChangeFont();
      UpdateColorMode(None);

      slider := "3";
      body := body - {"dark-mode"};
      root := root - {"dark-mode"};
    }

    /** The reset button, `confirmed` being the answer to the confirmation dialog. */
    method OnResetButton(confirmed: bool)
      modifies this
      ensures Snapshot() == ResetButtonStep(old(Snapshot()), confirmed)
    {
      if confirmed {
        ResetAllSettings();
        InitializeUIState();
      }
    }
  }
}
