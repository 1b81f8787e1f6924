# Recovery journey site: game engine, search and settings in Dafny

This project models three browser scripts of the site and proves properties of the model:

- the game session engine of `game.js`;
- the site search of `search.js`;
- the settings page of `settings_toggle.js`.

**The game engine.** The mutable record `game_state` of `game.js` is the class `GameEngine.GameSession`, with one field per record field the engine reads or writes. Its handlers are methods that update those fields in place:

- the two stat updaters;
- the tool unlock check;
- the recomputation of available tools;
- choosing and confirming a choice;
- using a tool;
- starting and leaving a journey.

Each method is proved to agree with a transition function of `GameRules` applied to the old record, read through a ghost function `Snapshot()`. The properties the engine promises are proved about those functions, among them:

- stats stay in range;
- unlocking never duplicates a tool;
- the three forms of a scene's `toolkit`;
- the order of the six steps of a confirmed choice;
- relapse taking priority over a win;
- the strict resistance rule of `use_tool`;
- the full reset of `start_game` against the partial one of `exit_game`;
- the day/hour time display;
- the scene-title prefix.

**The search.** The variables of `search.js` are the class `Search.SearchWidget`: the index, the current results, the selected index, the base URL, the input value and the results panel. The browser location is a pair of constructor parameters, `origin` and `pathname`. The model covers:

- URL resolution;
- the entry computed from a fetched page or from the sitemap alone;
- the preview loop;
- the query filter;
- the results header;
- keyboard navigation.

Each is proved against a pure function. The widget's consistency says two things: the selection is -1 or a valid index, and whenever there are results the panel lists exactly them. It holds initially and is proved preserved by a search, by every key and by indexing a page. Showing results alone does not preserve it (an empty list shows the no-results message), and a click outside or a base-URL update changes neither the results nor the panel.

**The settings page.** `localStorage` is a `map<string, string>`. The class lists of `<body>` and `<html>` are sets of class names, and the font slider's value is a string. The class `Settings.SettingsPage` runs the `init` and `resetAllSettings` loops over the defaults and the handlers, each proved against a step function. The lemmas state the following:

- what `init` and a reset leave under every key;
- that `init` is idempotent;
- the slider and size-map round trip;
- that exactly one size class and at most one colour-mode class are shown.

Three behaviours of the code that the model keeps as written:

- `process_pending_choice` clears the pending choice only when it renders the next scene, not on relapse or win.
- `time_advance` is added with no sign check, so time can go back.
- When no journey file loads, `load_scene_data` returns `{}` and `start_game` carries on with it. The model then reports `LoadError` alongside the reset session with nothing rendered.

## Model

| member | source | states |
|---|---|---|
| GameRules.Clamp | assets/js/game.js:553 | the result is in [0, 100], and values already in range are unchanged |
| GameRules.ApplyDelta | assets/js/game.js:549-562 | a stat update always lands in [0, 100], even from an out-of-range start; a positive change at 100 keeps 100; from an in-range start it equals plain clamping |
| GameEngine.GameSession.UpdateResistStat | assets/js/game.js:549-555 | resistance becomes `ApplyDelta` of the old value, and nothing else changes |
| GameEngine.GameSession.UpdateUseStat | assets/js/game.js:557-562 | the urge to use becomes `ApplyDelta` of the old value, and nothing else changes |
| GameRules.CheckRelapse | assets/js/game.js:605-607 | for an in-range stat, a relapse is exactly resistance 0 |
| GameRules.ToolFor | assets/js/game.js:396-403 | a tool instance exists exactly when the catalogue has loaded and holds the id, and it carries that id |
| GameRules.ListedTools | assets/js/game.js:390-409 | the array branch of `update_available_tools`: never more tools than listed entries; characterised by `ListedToolsMembers` and `ListedToolsConcat` |
| GameRules.UnlockedTools | assets/js/game.js:410-426 | the `true` branch: never more tools than unlocked ids; characterised by `UnlockedToolsMembers` and `UnlockedToolsConcat` |
| GameRules.AvailableTools | assets/js/game.js:383-428 | the three-way `toolkit` dispatch; characterised by `AvailableToolsGated` and `AvailableToolsComplete` |
| GameRules.ListedToolsMembers | assets/js/game.js:390-405 | an array toolkit offers a tool iff its id is listed as a string, unlocked and catalogued, with the catalogue's fields |
| GameRules.UnlockedToolsMembers | assets/js/game.js:410-424 | `toolkit: true` offers a tool iff its id is unlocked and catalogued, with the catalogue's fields |
| GameRules.ListedToolsConcat | assets/js/game.js:391-405 | the array form keeps array order: the tools of a concatenation are the concatenation of the tools |
| GameRules.UnlockedToolsConcat | assets/js/game.js:412-423 | the `true` form keeps unlock order |
| GameRules.AvailableToolsGated | assets/js/game.js:383-428 | every offered tool is unlocked and catalogued, and carries the catalogue's cost and benefit; a missing, `false` or other `toolkit` offers nothing |
| GameRules.AvailableToolsComplete | assets/js/game.js:386-426 | conversely, every catalogued unlocked id is offered under `true`, or under an array that lists it |
| GameEngine.GameSession.UpdateAvailableTools | assets/js/game.js:383-428 | the loops leave `available_tools` equal to the tools the scene's toolkit offers, and nothing else changes |
| GameRules.UnlockStep | assets/js/game.js:872-889 | nothing changes unless the id is a non-empty string, catalogued and not yet unlocked; otherwise exactly that id is appended once and the notice `{id, ...definition}` is staged; afterwards the id cannot be unlocked again, and a duplicate-free list stays duplicate-free |
| GameRules.Unlockable | assets/js/game.js:873-880 | the guard of `check_for_unlocked_tools`: a truthy string id, catalogued and not yet unlocked; characterised by `UnlockStep` |
| GameRules.UnlockTwice | assets/js/game.js:872-889 | unlocking the same id twice equals unlocking it once |
| GameEngine.GameSession.CheckForUnlockedTools | assets/js/game.js:872-889 | the record changes exactly as `UnlockStep` says |
| GameRules.CloseUnlockNotice | assets/js/game.js:860-869 | the notification is cleared and nothing else changes |
| GameEngine.GameSession.CloseToolUnlockPopup | assets/js/game.js:868 | the record changes exactly as `CloseUnlockNotice` says |
| GameRules.RenderStep | assets/js/game.js:350-355 | only the available tools change; a missing scene is reported and leaves the record as it was |
| GameEngine.GameSession.RenderScene | assets/js/game.js:350-371 | record and outcome as `RenderStep` says |
| GameRules.ChoiceFeedback | assets/js/game.js:458-469 | feedback is shown exactly when the choice has a resource link, as a popup exactly when popups are configured |
| GameRules.SelectStep | assets/js/game.js:441-454 | the choice and its document wait as pending; no other field changes; the feedback follows the display setting |
| GameRules.ApplyChoice | assets/js/game.js:522-530 | steps 1 to 6 of a confirmed choice; characterised by `ConfirmState` and implemented in place by `GameSession.ApplyPendingChoice` |
| GameRules.IsWinScene | assets/js/game.js:538 | the destination exists and is marked `end: 'win'`; characterised by `ConfirmState` and `RelapseBeatsWin` |
| GameEngine.GameSession.SelectChoice | assets/js/game.js:441-454 | record and feedback as `SelectStep` says |
| GameEngine.GameSession.ApplyPendingChoice | assets/js/game.js:522-530 | the six steps in order (unlock, resist, use, time, scene, path) give `ApplyChoice` of the old record |
| GameRules.Confirm | assets/js/game.js:513-517 | without a pending choice or scene data, nothing changes and nothing is pending |
| GameRules.ConfirmState | assets/js/game.js:513-546 | with a pending choice: stats, time, scene and path as the six steps make them; the unlocked list and the staged notice as the unlock check leaves them; catalogue and display setting unchanged; the outcome is relapse iff resistance is 0, win iff resistance is positive and the destination ends in `win`; only otherwise are the pending fields cleared and the destination rendered, its tools recomputed from the new unlocked list (or reported missing); on relapse, win or a missing scene the available tools are unchanged |
| GameRules.RelapseBeatsWin | assets/js/game.js:536-539 | a winning destination reached with resistance at or below zero is a relapse |
| GameEngine.GameSession.ProcessPendingChoice | assets/js/game.js:513-546 | record and outcome as `Confirm` says |
| GameRules.UseToolStep | assets/js/game.js:813-820 | refused with nothing changed when resistance is at most the cost, equality included; otherwise the cost comes off resistance and the benefit off the urge, through the updaters, and nothing else changes |
| GameRules.UseToolNeverRelapses | assets/js/game.js:813-818 | an accepted tool with a non-negative cost takes exactly its cost and cannot cause a relapse |
| GameEngine.GameSession.UseTool | assets/js/game.js:813-818 | record and result as `UseToolStep` says |
| GameRules.StartStep | assets/js/game.js:658-697 | the outcome is `LoadError` exactly when no journey file was loaded |
| GameRules.ResetForStart | assets/js/game.js:661-669 | every playthrough field is back to its initial value; only the scene pointer, the catalogue and the display setting are kept |
| GameRules.SeedStats | assets/js/game.js:679-687 | `initial_values` override resist, use and the unlocked list only; without `initial_values` nothing changes |
| GameRules.StartState | assets/js/game.js:658-697 | after `start_game`: scene and path are `scene_001`, time 0, nothing pending, no notice; resist and use from `initial_values` with `?? 100` (an explicit 0 is kept), the unlocked list copied when given; the entry scene's tools available |
| GameRules.StartForgetsSession | assets/js/game.js:658-697 | two records with the same catalogue and display setting start identically |
| GameEngine.GameSession.ResetPlaythrough | assets/js/game.js:661-669 | the record becomes `ResetForStart` of the old one |
| GameEngine.GameSession.SeedFrom | assets/js/game.js:679-687 | the record becomes `SeedStats` of the old one |
| GameEngine.GameSession.StartGame | assets/js/game.js:658-697 | record and outcome as `StartStep` says |
| GameRules.ExitStep | assets/js/game.js:730-738 | scene, stats, time, path and pending fields reset; unlocked and available tools, the notice, the catalogue and the display setting kept |
| GameRules.ExitThenStart | assets/js/game.js:658-738 | starting after an exit equals starting straight away |
| GameEngine.GameSession.ExitGame | assets/js/game.js:730-738 | the record becomes `ExitStep` of the old one |
| GameEngine.EmptyCatalogOffersNothing | assets/js/game.js:410-426 | before the catalogue has loaded, `toolkit: true` offers no tool |
| GameEngine.GameSession.constructor | assets/js/game.js:1-16 | the record starts as the literal at the top of the script |
| GameEngine.GameSession.ReadConfig | assets/js/game.js:304-306 | popups are used exactly when the attribute is missing, empty or `popup` |
| GameEngine.GameSession.LoadMasterToolkit | assets/js/game.js:840-857 | the catalogue becomes the fetched `tools`, or `{}` when the fetch failed |
| GameRules.TimeParts | assets/js/game.js:594-597 | for t of 24 or more, 24·D + H = t with H < 24 and D at least 1 |
| GameRules.TimeText | assets/js/game.js:593-601 | the time display always ends in `h`; characterised by `TimeTextDayMark` and `TimeTextInjective` |
| GameRules.TimeTextDayMark | assets/js/game.js:593-601 | the display holds a day mark iff the time is at least 24 hours |
| GameRules.TimeTextInjective | assets/js/game.js:593-601 | two different times never display the same |
| GameRules.FormatSceneTitle | assets/js/game.js:342-347 | the result starts with `Lorem Ipsum` and ends with the title; a title that already starts with it is unchanged |
| GameRules.FormatSceneTitleIdempotent | assets/js/game.js:342-347 | formatting twice equals formatting once |
| Search.RepoPath | assets/js/search.js:26-33 | empty, or "/" followed by one non-empty segment without "/" |
| Search.RepoPathOfSegment | assets/js/search.js:26-33 | for a pathname `first/segment...`, the repository path is `/segment` |
| Search.RepoPathOfEmptySegment | assets/js/search.js:29-32 | an empty second segment gives `''` |
| Search.RepoPathWithoutSlash | assets/js/search.js:29-32 | a pathname without "/" gives `''` |
| Search.CurrentDir | assets/js/search.js:57-58 | a prefix of the pathname ending in its last "/", and empty when it has none |
| Search.Resolve | assets/js/search.js:40-60 | an absolute path (`//`, `http://`, `https://`) comes back unchanged with the base untouched; otherwise an empty base becomes origin + repository path; a "/" path is appended to the base and any other path to the current directory; the URL always ends with the path; a set base is never replaced |
| Search.ResolveYieldsWebUrl | assets/js/search.js:40-59 | with a web origin and an unset or web base, a resolved relative path and the base are web URLs |
| Search.ResolveIdempotent | assets/js/search.js:40-59 | under the same conditions a resolved URL is absolute, and resolving it again changes neither it nor the base |
| Search.SearchWidget.ResolveUrl | assets/js/search.js:40-59 | URL and new base as `Resolve` says; nothing else changes |
| Search.ConfiguredBase | assets/js/search.js:179 | the sitemap's `baseUrl` when given and non-empty, else origin + repository path |
| Search.SearchWidget.ConfigureBase | assets/js/search.js:179 | the base becomes `ConfiguredBase`; nothing else changes |
| Search.PageTitle | assets/js/search.js:96 | never empty; the sitemap's title wins, then the document's, then `Untitled` |
| Search.TrimAll | assets/js/search.js:103-108 | each text trimmed, order and count kept |
| Search.MainText | assets/js/search.js:99-100 | the trimmed text of `<main>`, or empty without one; used by `Extracted` |
| Search.Truncate | assets/js/search.js:116-117 | at most 153 characters; unchanged up to 150; for a longer text, its first 150 characters followed by "..." |
| Search.TruncateIdempotent | assets/js/search.js:116-127 | truncating a preview again changes nothing |
| Search.FirstLong | assets/js/search.js:112-120 | the least index of a paragraph longer than 50 characters, or none when no paragraph is |
| Search.PreviewOf | assets/js/search.js:110-127 | at most 153 characters; the truncated first paragraph longer than 50 characters, or the truncated main text when there is none |
| Search.ChoosePreview | assets/js/search.js:110-127 | the loop with its early `break` computes `PreviewOf` |
| Search.SearchContent | assets/js/search.js:130-135 | the content begins with the lower-cased title |
| Search.Extracted | assets/js/search.js:91-153 | URL, resolved URL and badge copied; the page title; the preview of the trimmed paragraphs and main text; the content starts with the lower-cased title |
| Search.FallbackEntry | assets/js/search.js:196-215 | the sitemap's fields are copied, with the lower-cased title alone as content |
| Search.MatchesContent | assets/js/search.js:277-280 | for every indexed entry the title condition adds nothing: an entry matches iff its content contains the query |
| Search.Matches | assets/js/search.js:277-280 | content or lower-cased title contains the query; characterised by `MatchesContent` |
| Search.Filter | assets/js/search.js:277-280 | never more results than entries; characterised by `FilterMembers`, `FilterConcat` and `FilterKeepsAllMatching` |
| Search.Query | assets/js/search.js:265 | the trimmed lower-cased input; characterised by `SearchStep` |
| Search.FilterMembers | assets/js/search.js:277-280 | an entry is a result iff it is indexed and matches |
| Search.FilterConcat | assets/js/search.js:277-280 | the filter keeps index order |
| Search.FilterKeepsAllMatching | assets/js/search.js:277-280 | an entry is dropped only when it does not match |
| Search.HeaderTextPlural | assets/js/search.js:302 | the header ends in "s" iff the count is not 1 |
| Search.HeaderTextInjective | assets/js/search.js:302 | different counts give different headers |
| Search.HeaderText | assets/js/search.js:302 | `Found N result(s)`; characterised by `HeaderTextPlural` and `HeaderTextInjective` |
| Search.InitialConsistent | assets/js/search.js:15-16 | the starting state is consistent |
| Search.DisplayStep | assets/js/search.js:291-343 | the selection is reset to -1, the panel is active and shows one item per result; nothing but the selection, the panel and its visibility changes |
| Search.SearchStep | assets/js/search.js:264-284 | an empty trimmed query hides and clears the results; otherwise the results are the filtered index, shown; the selection is -1 and the state consistent afterwards |
| Search.KeyStep | assets/js/search.js:368-409 | a no-op while results are hidden or empty; Enter navigates iff the selection is a result index, to that result; Escape clears the input and results; other keys change nothing; only Escape changes more than the selection |
| Search.ArrowKeysStayInRange | assets/js/search.js:377-389 | in a consistent state an arrow leaves the selection in [0, n-1], at min(i+1, n-1) or max(i-1, 0) |
| Search.KeyStepConsistent | assets/js/search.js:368-409 | every key keeps the state consistent |
| Search.OutsideClickStep | assets/js/search.js:437-441 | the results are hidden and nothing else changes |
| Search.OutsideClickSilencesKeys | assets/js/search.js:370-372 | after a click outside, every key is ignored |
| Search.IndexStep | assets/js/search.js:185-216 | one entry is appended, with the page's URL and badge and its title in its content; an unfetched page gets the fallback entry |
| Search.IndexStepConsistent | assets/js/search.js:185-216 | indexing a page keeps the state consistent |
| Search.SearchWidget.constructor | assets/js/search.js:8-20 | empty index and results, selection -1, no base URL |
| Search.SearchWidget.ExtractContent | assets/js/search.js:91-153 | the entry is `Extracted` with the URL resolved once; only the base may change |
| Search.SearchWidget.IndexPage | assets/js/search.js:185-216 | the state becomes `IndexStep` of the old one |
| Search.SearchWidget.DisplayResults | assets/js/search.js:291-343 | the state becomes `DisplayStep` of the old one |
| Search.SearchWidget.PerformSearch | assets/js/search.js:264-284 | the state becomes `SearchStep` of the old one |
| Search.SearchWidget.OnInput | assets/js/search.js:433 | the new value, then `SearchStep` |
| Search.SearchWidget.HandleKey | assets/js/search.js:368-409 | state and navigation target as `KeyStep` says |
| Search.SearchWidget.OutsideClick | assets/js/search.js:437-441 | the state becomes `OutsideClickStep` of the old one |
| Settings.Get | assets/js/settings_toggle.js:15 | `getItem`: a value iff the key is stored, and then the stored value |
| Settings.StoredOr | assets/js/settings_toggle.js:90 | the stored value when it is non-empty, else the fallback |
| Settings.DefaultFor | assets/js/settings_toggle.js:3-10 | every default is a non-empty string |
| Settings.DefaultsLookup | assets/js/settings_toggle.js:3-10 | the list the loops run over and the lookup give every key the same default |
| Settings.InitWithValue | assets/js/settings_toggle.js:14-18 | for distinct keys, the loop writes a listed value only where the stored one is missing or empty |
| Settings.InitWith | assets/js/settings_toggle.js:14-18 | the fill loop over a list; characterised by `InitWithValue` |
| Settings.Initialized | assets/js/settings_toggle.js:12-19 | `init` over the defaults; characterised by `InitValue`, `InitFillsDefaults` and `InitIdempotent` |
| Settings.InitValue | assets/js/settings_toggle.js:12-19 | after `init` a non-empty stored value stays, a missing or empty setting holds its default, and a key that is not a setting is untouched |
| Settings.InitFillsDefaults | assets/js/settings_toggle.js:3-19 | after `init` every setting holds a non-empty value |
| Settings.InitIdempotent | assets/js/settings_toggle.js:12-19 | running `init` again changes nothing |
| Settings.SettingsPage.Init | assets/js/settings_toggle.js:12-19 | the loop leaves the storage as `Initialized` says; nothing else changes |
| Settings.ResetWithValue | assets/js/settings_toggle.js:339-341 | the loop overwrites each listed key with its listed value, the last listing winning, and leaves other keys alone |
| Settings.ResetWith | assets/js/settings_toggle.js:339-341 | the overwrite loop over a list; characterised by `ResetWithValue` |
| Settings.ResetStorage | assets/js/settings_toggle.js:337-344 | the storage writes of `resetAllSettings`; characterised by `ResetRestoresDefaults` and `InitAfterReset` |
| Settings.ResetRestoresDefaults | assets/js/settings_toggle.js:337-344 | after a reset `dark_mode` is `disabled`, every setting holds its default, and no other key changes |
| Settings.InitAfterReset | assets/js/settings_toggle.js:12-19 | after a reset `init` has nothing to fill in |
| Settings.ResetStorageCurrent | assets/js/settings_toggle.js:337-349 | after a reset the size read back is `medium`, the mode `True`, and the dyslexic font is `false` |
| Settings.SliderPosition | assets/js/settings_toggle.js:111-112 | position 0 exactly for an unknown size; otherwise the size's place in `sizeValues`, counted from 1 |
| Settings.SizeMap | assets/js/settings_toggle.js:115-122 | every value it knows names a size class |
| Settings.SliderRoundTrip | assets/js/settings_toggle.js:111-122 | the slider position of each of the five sizes reads back as that size |
| Settings.SizeMapRoundTrip | assets/js/settings_toggle.js:115-142 | every slider value `sizeMap` knows is the position of the size it names |
| Settings.CurrentSizeTrimmed | assets/js/settings_toggle.js:263 | the size applied is `(getItem("fontSize") \|\| "medium").trim()` |
| Settings.CurrentSize | assets/js/settings_toggle.js:263 | the size `updateFontSize` applies; characterised by `CurrentSizeTrimmed` |
| Settings.FontSizeApplied | assets/js/settings_toggle.js:262-275 | the size is added; with no previous size, exactly the applied size's class stays among the five and other classes are untouched; with a previous size only that one is removed |
| Settings.GroupKept | assets/js/settings_toggle.js:262-309 | classes an update does not touch are the same before and after it |
| Settings.CurrentModeTrimmed | assets/js/settings_toggle.js:278 | the mode applied is `(getItem("colorMode") \|\| "True").trim()` |
| Settings.CurrentMode | assets/js/settings_toggle.js:278 | the mode `updateColorMode` applies; characterised by `CurrentModeTrimmed` |
| Settings.ColorModeApplied | assets/js/settings_toggle.js:277-295 | a non-`True` mode is added; with no or the same previous mode, exactly its class stays among the four (none for `True`) and other classes are untouched; a different previous mode is the one class removed |
| Settings.FontApplied | assets/js/settings_toggle.js:297-309 | `dyslexicFont` is present iff the setting is on; no other class changes |
| Settings.ApplyFontSize | assets/js/settings_toggle.js:262-275 | `updateFontSize` on the page: the body classes become `FontSizeApplied` of the stored size; nothing else changes |
| Settings.ApplyColorMode | assets/js/settings_toggle.js:277-295 | `updateColorMode` on the page: both class lists become `ColorModeApplied` of the stored mode; nothing else changes |
| Settings.ApplyFont | assets/js/settings_toggle.js:297-309 | `changeFont` on the page: both class lists become `FontApplied` of the stored flag; nothing else changes |
| Settings.SettingsPage.UpdateFontSize | assets/js/settings_toggle.js:262-275 | the body classes become `FontSizeApplied`; nothing else changes |
| Settings.SettingsPage.UpdateColorMode | assets/js/settings_toggle.js:277-295 | both class lists become `ColorModeApplied`; nothing else changes |
| Settings.SettingsPage.ChangeFont | assets/js/settings_toggle.js:297-309 | both class lists become `FontApplied`; nothing else changes |
| Settings.InitializeUI | assets/js/settings_toggle.js:248-251 | storage and slider are untouched |
| Settings.InitialClasses | assets/js/settings_toggle.js:248-251 | the three updates with no previous values show exactly the size's class, the mode's class (none for `True`), and `dyslexicFont` iff on |
| Settings.InitializeUIShows | assets/js/settings_toggle.js:248-251 | from valid stored settings, initialising the UI shows them, whatever the class lists held |
| Settings.SettingsPage.InitializeUIState | assets/js/settings_toggle.js:248-251 | the page becomes `InitializeUI` of the old one |
| Settings.ColorButtonStep | assets/js/settings_toggle.js:89-93 | the new mode is stored; the previous mode removed is the one stored (or `True`) before the write, and when it differs from the new one it is the only class removed from either list |
| Settings.ModeChange | assets/js/settings_toggle.js:281-294 | a class list showing the previous mode ends up showing exactly the new one |
| Settings.ColorButtonShowsMode | assets/js/settings_toggle.js:89-93 | switching mode by its button shows exactly the new mode on both lists |
| Settings.SettingsPage.OnColorButton | assets/js/settings_toggle.js:89-93 | the page becomes `ColorButtonStep` of the old one |
| Settings.FontButtonStep | assets/js/settings_toggle.js:133-143 | the size is stored and the slider moves to its position |
| Settings.SizeChange | assets/js/settings_toggle.js:266-274 | a class list showing the previous size alone ends up showing the new size alone |
| Settings.ApplyFontSizeKeepsOneSize | assets/js/settings_toggle.js:123-136 | storing a known size and applying it against the previously stored size keeps exactly one size class, the new one |
| Settings.FontButtonShowsSize | assets/js/settings_toggle.js:133-143 | a size button shows exactly that size, and the slider reads it back |
| Settings.SettingsPage.OnFontButton | assets/js/settings_toggle.js:133-143 | the page becomes `FontButtonStep` of the old one |
| Settings.SliderStep | assets/js/settings_toggle.js:114-125 | the stored size is the mapped value, or the text `undefined`; the slider holds the value |
| Settings.SliderShowsSize | assets/js/settings_toggle.js:114-125 | a known slider value shows exactly the size it names |
| Settings.SettingsPage.OnFontSlider | assets/js/settings_toggle.js:114-125 | the page becomes `SliderStep` of the old one |
| Settings.DyslexicToggleStep | assets/js/settings_toggle.js:101-104 | `"true"`/`"false"` stored, and `dyslexicFont` shown on both lists iff checked |
| Settings.SettingsPage.OnDyslexicToggle | assets/js/settings_toggle.js:101-104 | the page becomes `DyslexicToggleStep` of the old one |
| Settings.DarkModeToggleStep | assets/js/settings_toggle.js:69-83 | `dark-mode` on both lists iff checked, the flag stored, no other class changes |
| Settings.SettingsPage.OnDarkModeToggle | assets/js/settings_toggle.js:69-83 | the page becomes `DarkModeToggleStep` of the old one |
| Settings.ResetStep | assets/js/settings_toggle.js:337-375 | the storage is reset, the slider is at 3, no `dark-mode` class remains |
| Settings.ResetShowsDefaults | assets/js/settings_toggle.js:337-375 | after a reset the page shows exactly size `medium`, no colour-mode class on either list, no `dyslexicFont`, and the slider reads back `medium` |
| Settings.SettingsPage.ResetAllSettings | assets/js/settings_toggle.js:337-375 | the loop and the updates make the page `ResetStep` of the old one |
| Settings.ResetButtonStep | assets/js/settings_toggle.js:231-237 | nothing happens unless the confirmation is accepted; an accepted reset leaves the reset storage and the slider at 3 |
| Settings.ResetButtonShowsDefaults | assets/js/settings_toggle.js:231-237 | after an accepted reset and the UI initialisation, exactly size `medium` is shown, no colour-mode class and no `dyslexicFont` on either list |
| Settings.SettingsPage.OnResetButton | assets/js/settings_toggle.js:231-237 | the page becomes `ResetButtonStep` of the old one |
| Settings.LoadStep | assets/js/settings_toggle.js:23-112 | storage initialised, the UI initialised, then the slider at the position of the stored size |
| Settings.SettingsPage.Load | assets/js/settings_toggle.js:23-112 | `init` (line 23), `initializeUIState` (line 62) and the slider set up (lines 108-112), in that order, make the page `LoadStep` of the old one |
| Settings.SettingsPage.constructor | assets/js/settings_toggle.js:1-2 | the page holds the given storage, class lists and slider value |
| Strings.Trim | assets/js/search.js:265 | `String.prototype.trim`: the result neither begins nor ends with white space and is a slice of the input surrounded only by white space |
| Strings.TrimUnspaced | assets/js/settings_toggle.js:263 | a string without surrounding white space is its own trim |
| Strings.Lower | assets/js/search.js:265 | `toLowerCase` on ASCII: same length, each character lower-cased |
| Strings.LowerConcat | assets/js/search.js:135 | lower-casing distributes over concatenation |
| Strings.StartsWithConcat | assets/js/game.js:343 | a prefix of a string is a prefix of any extension of it |
| Strings.ContainsInPrefix | assets/js/search.js:278 | `includes` is kept when text is appended |
| Strings.NatText | assets/js/game.js:597 | the decimal text of a natural: non-empty, all digits, a leading zero only for 0 |
| Strings.IntText | assets/js/game.js:599 | the decimal text of an integer: digits and an optional minus sign |
| Strings.DigitsValueOfNatText | assets/js/game.js:597 | reading back the decimal text of n gives n |
| Strings.NatTextInjective | assets/js/game.js:597 | different naturals have different decimal texts |
| Strings.IntTextInjective | assets/js/game.js:599 | different integers have different decimal texts |
| Strings.DigitRunSplit | assets/js/game.js:597 | two texts of a digit run followed by a non-digit split at the same place |
| Strings.Split | assets/js/search.js:27 | `split` on one character: at least one piece, no piece holds the separator, and joining the pieces gives the input back |
| Strings.SplitAfterFirst | assets/js/search.js:27-30 | splitting `a + sep + b` gives `a` followed by the pieces of `b` |
| Strings.SplitFirstPiece | assets/js/search.js:27-30 | the first piece is the text before the first separator |
| Strings.SplitWithoutSeparator | assets/js/search.js:27-32 | a string without the separator splits into itself alone |
| Strings.JoinStartsWithFirst | assets/js/search.js:130-135 | a join of at least one part begins with the first part |
| Strings.StartsWith | assets/js/game.js:343 | `startsWith`; characterised by `StartsWithConcat` |
| Strings.Contains | assets/js/search.js:278 | `includes`: the query occurs at some offset; characterised by `ContainsInPrefix` and `MatchesContent` |
| Strings.Join | assets/js/search.js:130-135 | `join`; characterised by `JoinStartsWithFirst` and by `Split`, whose pieces it joins back |
| Strings.AfterLast | assets/js/search.js:58 | `lastIndexOf(c) + 1`: the prefix it delimits ends in `c` (or is empty) and no `c` follows it |

## Left out

- Markup, popups and CSS: `create_journey_cards`, `render_scene` markup, `show_*_popup`, `show_inline_resource`, the `trigger_win`/`trigger_relapse` HTML, the danger classes and bar widths of `update_stats`, `highlight_text`, `update_selection`, `updateColorButtonUI` and `updateFontButtonsUI`. These build the DOM and hold no state the engine reads back; outcomes and feedback are returned as values instead.
- Fetching: the file probing of `load_scene_data` and `load_available_journeys`, the request of `load_master_toolkit`, and the fetch loop of `build_search_index`/`fetch_content`. These are network I/O. What they deliver is a parameter: `loaded`, `fetched`, or a parsed page. The loop body is `IndexPage`.
- The fallback navigation list that `build_search_index` uses when `search.json` cannot be loaded, and its catch path for a sitemap page without a title. These are error paths of the fetch.
- The async interleaving of the catalogue load with the scene load, an event-loop ordering question.
- `tts.js`, `alt-text.js`, and the speech, volume and alt-text handlers of `settings_toggle.js`. They use browser speech APIs, floating-point volume and DOM rewriting.
- `alert`, `confirm` and `window.location`. The confirmation answer is a parameter, and the navigation target is returned by `HandleKey`.
- The fallback of `navigate_to_result` to `resolve_url` when `absolute_url` is empty. With a web origin and an unset or web base URL, every resolved URL is absolute and non-empty (`ResolveIdempotent`), so the fallback is never reached there.
- LoadMasterToolkit: a toolkit file without a `tools` field leaves `master_toolkit` undefined in the script. The model always installs the fetched mapping.
- Truncate, FirstLong, PreviewOf, ChoosePreview: lengths and cut points count characters (Unicode scalar values) where the script's `.length` and `substring` count UTF-16 code units. The two agree only on text inside the Basic Multilingual Plane; outside it the 50- and 150-character thresholds and the 153 bound differ, and the script may cut a surrogate pair in half.
- `toLowerCase` lower-cases ASCII letters only (`Strings.Lower`). Other scripts' case mappings are not modelled.
- JavaScript numbers are unbounded integers here. Fractional values in a journey file are outside the model.
- Catalogue lookups by id are membership checks. Ids such as `__proto__`, which reach the object prototype in the script, are not modelled.
- A journey scene id equal to `initial_values` is not distinguished from a missing scene.
- Class-list operations with an empty or white-space token (a stored `fontSize` of only spaces) throw in the browser; the model adds the token.
- The browser's sanitising of the range input's value is not modelled. The slider holds the string written to it.
- The fields `selected_journey` and `show_dev_tools` of `game_state`, with `select_journey`, `apply_dev_tools_visibility` and the wiring in `init_game`. They only choose which file is loaded and whether a panel is visible, and the engine's rules never read them.
- The score text and danger classes that `update_stats` writes. Only its time display is modelled, as `TimeText`.
- SearchContent: states only that the content begins with the lower-cased title, which is what the query filter relies on. The full space-joined text of headings, paragraphs and main text is the function's definition and is not restated as a contract.
- The `meta` block of `extract_content` (date, description, keywords). No rule of the search reads it back.
