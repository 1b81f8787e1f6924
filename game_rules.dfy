/**
 * The recovery-journey game engine of `game.js`, as values: the journey
 * document, the session record `game_state`, and one function per operation
 * that maps the session before the operation to the session after it. The
 * class in `GameEngine` performs these operations in place and is proved to
 * agree with them; the properties of the game are proved here, about the
 * functions.
 */
module GameRules {
  import opened Wrappers
  import opened Strings

  /** MAX_STAT: the ceiling of both resistance and urge to use. */
  const MaxStat := 100
  /** Both stats start here unless the journey overrides them. */
  const DefaultStat := 100
  /** Every journey begins in this scene. */
  const EntryScene := "scene_001"
  const TitlePrefix := "Lorem Ipsum"

  // ----- content: journey documents and the tool catalogue -----

  /** An entry of the master toolkit. */
  datatype ToolDef = ToolDef(title: string, description: string, defaultResistCost: int, defaultUseBenefit: int)

  /** A tool as the toolkit popup offers it: the catalogue entry with its id, cost and benefit copied. */
  datatype ToolInstance = ToolInstance(id: string, title: string, description: string, resistCost: int, useBenefit: int)

  /** The one-shot unlock notification `{id, ...definition}`. */
  datatype UnlockedTool = UnlockedTool(id: string, def: ToolDef)

  /** A JSON value the engine only inspects for being a string; `NotString` stands for a missing field, `null`, a number, an object. */
  datatype Value = Str(s: string) | NotString

  /** A scene's `toolkit` field: missing, a boolean, an array, or any other JSON value. */
  datatype Toolkit = Undefined | Flag(on: bool) | Ids(entries: seq<Value>) | OtherValue

  datatype ResourceLink = ResourceLink(description: string, url: string, text: string)

  /** A choice; the optional numbers are `None` when missing. */
  datatype Choice = Choice(
    labelText: string,
    nextSceneId: string,
    resistChange: Option<int>,
    useChange: Option<int>,
    timeAdvance: Option<int>,
    resourceLink: Option<ResourceLink>,
    unlockTool: Value)

  datatype Scene = Scene(title: string, narration: string, choices: seq<Choice>, toolkit: Toolkit, end: Option<string>)

  /** `initial_values`; `unlockedTools` is `None` when the field is missing or not an array. */
  datatype InitialValues = InitialValues(resist: Option<int>, use: Option<int>, unlockedTools: Option<seq<string>>)

  /** A journey file: its scenes by id and its optional `initial_values`. */
  datatype Document = Document(scenes: map<string, Scene>, initialValues: Option<InitialValues>)

  /** What `load_scene_data` yields when no journey file could be fetched: `{}`. */
  const EmptyDocument := Document(map[], None)

  /** `master_toolkit`: `None` until the catalogue has loaded. */
  type Catalog = Option<map<string, ToolDef>>

  // ----- the session record -----

  /** The fields of `game_state` that the engine reads or writes. */
  datatype Session = Session(
    currentScene: string,
    resist: int,
    use: int,
    time: int,
    path: seq<string>,
    pendingChoice: Option<Choice>,
    pendingSceneData: Option<Document>,
    usePopupResources: bool,
    availableTools: seq<ToolInstance>,
    unlockedTools: seq<string>,
    masterToolkit: Catalog,
    newlyUnlockedTool: Option<UnlockedTool>)

  /** The record as the page creates it, before any journey is chosen. */
  const InitialSession := Session(EntryScene, DefaultStat, DefaultStat, 0, [], None, None, true, [], [], None, None)

  /** What the player sees after an operation, in place of the DOM it would build. */
  datatype Outcome = NothingPending | Relapse | Win | Rendered(sceneId: string) | SceneMissing(sceneId: string) | LoadError

  /** How a chosen resource link is shown. */
  datatype Feedback = NoFeedback | Popup(link: ResourceLink) | Inline(link: ResourceLink)

  datatype UseResult = Used | InsufficientResistance

  // ----- stats -----

  predicate InStatRange(v: int) {
    0 <= v <= MaxStat
  }

  /** `Math.max(0, Math.min(MAX_STAT, v))` */
  function Clamp(v: int): (r: int)
    ensures InStatRange(r)
    ensures InStatRange(v) ==> r == v
    ensures v < 0 ==> r == 0
    ensures v > MaxStat ==> r == MaxStat
  {
    if v < 0 then 0 else if v > MaxStat then MaxStat else v
  }

  /**
   * `update_resist_stat` / `update_use_stat`: a positive change at the ceiling
   * is ignored, anything else is added and clamped. The result is in range
   * whatever the starting value, and for a starting value in range the early
   * return makes no difference to plain clamping.
   */
  function ApplyDelta(stat: int, change: int): (r: int)
    ensures InStatRange(r)
    ensures stat == MaxStat && change > 0 ==> r == MaxStat
    ensures InStatRange(stat) ==> r == Clamp(stat + change)
  {
    if stat == MaxStat && change > 0 then stat else Clamp(stat + change)
  }

  /** `check_relapse`: resistance has fallen to zero or below. */
  function CheckRelapse(s: Session): (r: bool)
    ensures InStatRange(s.resist) ==> (r <==> s.resist == 0)
  {
    s.resist <= 0
  }

  // ----- toolkit -----

  /** The catalogue entry for `id` as an offered tool, if the catalogue has loaded and holds `id`. */
  function ToolFor(id: string, catalog: Catalog): (r: Option<ToolInstance>)
    ensures r.Some? <==> catalog.Some? && id in catalog.value
    ensures r.Some? ==> r.value.id == id
  {
    if catalog.Some? && id in catalog.value then
      var def := catalog.value[id];
      Some(ToolInstance(id, def.title, def.description, def.defaultResistCost, def.defaultUseBenefit))
    else None
  }

  function AsSeq<T>(o: Option<T>): (r: seq<T>)
    ensures |r| <= 1
  {
    if o.Some? then [o.value] else []
  }

  /** The array form of `toolkit`: in array order, each string id that is catalogued and unlocked. */
  function ListedTools(entries: seq<Value>, catalog: Catalog, unlocked: seq<string>): (r: seq<ToolInstance>)
    ensures |r| <= |entries|
    decreases |entries|
  {
    if entries == [] then []
    else
      var last := entries[|entries| - 1];
      ListedTools(entries[..|entries| - 1], catalog, unlocked)
        + (if last.Str? && last.s in unlocked then AsSeq(ToolFor(last.s, catalog)) else [])
  }

  /** The `toolkit: true` form: in unlock order, each unlocked id that is catalogued. */
  function UnlockedTools(unlocked: seq<string>, catalog: Catalog): (r: seq<ToolInstance>)
    ensures |r| <= |unlocked|
    decreases |unlocked|
  {
    if unlocked == [] then []
    else
      UnlockedTools(unlocked[..|unlocked| - 1], catalog) + AsSeq(ToolFor(unlocked[|unlocked| - 1], catalog))
  }

  /** `update_available_tools`: the tools a scene exposes. */
  function AvailableTools(toolkit: Toolkit, catalog: Catalog, unlocked: seq<string>): seq<ToolInstance>
  {
    match toolkit
    case Ids(entries) => ListedTools(entries, catalog, unlocked)
    case Flag(on) => if on then UnlockedTools(unlocked, catalog) else []
    case _ => []
  }

  lemma {:induction false} ListedToolsMembers(entries: seq<Value>, catalog: Catalog, unlocked: seq<string>, t: ToolInstance)
    ensures t in ListedTools(entries, catalog, unlocked) <==>
              Str(t.id) in entries && t.id in unlocked && ToolFor(t.id, catalog) == Some(t)
    decreases |entries|
  {
    if entries != [] {
      var front := entries[..|entries| - 1];
      ListedToolsMembers(front, catalog, unlocked, t);
      assert entries == front + [entries[|entries| - 1]];
    }
  }

  lemma {:induction false} UnlockedToolsMembers(unlocked: seq<string>, catalog: Catalog, t: ToolInstance)
    ensures t in UnlockedTools(unlocked, catalog) <==> t.id in unlocked && ToolFor(t.id, catalog) == Some(t)
    decreases |unlocked|
  {
    if unlocked != [] {
      var front := unlocked[..|unlocked| - 1];
      UnlockedToolsMembers(front, catalog, t);
      assert unlocked == front + [unlocked[|unlocked| - 1]];
    }
  }

  /** The array form keeps array order: the tools of a concatenation are the concatenation of the tools. */
  lemma {:induction false} ListedToolsConcat(a: seq<Value>, b: seq<Value>, catalog: Catalog, unlocked: seq<string>)
    ensures ListedTools(a + b, catalog, unlocked) == ListedTools(a, catalog, unlocked) + ListedTools(b, catalog, unlocked)
    decreases |b|
  {
    if b == [] {
      assert a + b == a;
    } else {
      var b', last := b[..|b| - 1], b[|b| - 1];
      assert (a + b)[..|a + b| - 1] == a + b' && (a + b)[|a + b| - 1] == last;
      ListedToolsConcat(a, b', catalog, unlocked);
    }
  }

  /** The `true` form keeps unlock order. */
  lemma {:induction false} UnlockedToolsConcat(a: seq<string>, b: seq<string>, catalog: Catalog)
    ensures UnlockedTools(a + b, catalog) == UnlockedTools(a, catalog) + UnlockedTools(b, catalog)
    decreases |b|
  {
    if b == [] {
      assert a + b == a;
    } else {
      var b', id := b[..|b| - 1], b[|b| - 1];
      assert (a + b)[..|a + b| - 1] == a + b' && (a + b)[|a + b| - 1] == id;
      assert UnlockedTools(a + b, catalog) == UnlockedTools(a + b', catalog) + AsSeq(ToolFor(id, catalog));
      UnlockedToolsConcat(a, b', catalog);
    }
  }

  /**
   * Every tool a scene exposes is unlocked and catalogued, carries the
   * catalogue's cost and benefit, and, for an explicit array, is listed in it;
   * a missing, `false` or malformed `toolkit` exposes nothing.
   */
  lemma AvailableToolsGated(toolkit: Toolkit, catalog: Catalog, unlocked: seq<string>, t: ToolInstance)
    requires t in AvailableTools(toolkit, catalog, unlocked)
    ensures toolkit == Flag(true) || toolkit.Ids?
    ensures t.id in unlocked
    ensures catalog.Some? && t.id in catalog.value
    ensures t.resistCost == catalog.value[t.id].defaultResistCost
    ensures t.useBenefit == catalog.value[t.id].defaultUseBenefit
    ensures toolkit.Ids? ==> Str(t.id) in toolkit.entries
  {
    match toolkit
    case Ids(entries) => ListedToolsMembers(entries, catalog, unlocked, t);
    case Flag(on) => UnlockedToolsMembers(unlocked, catalog, t);
  }

  /** Conversely, `toolkit: true` exposes every catalogued unlocked tool, and an array every catalogued unlocked string it lists. */
  lemma AvailableToolsComplete(toolkit: Toolkit, catalog: Catalog, unlocked: seq<string>, id: string)
    requires catalog.Some? && id in catalog.value && id in unlocked
    requires toolkit == Flag(true) || (toolkit.Ids? && Str(id) in toolkit.entries)
    ensures ToolFor(id, catalog).value in AvailableTools(toolkit, catalog, unlocked)
  {
    var t := ToolFor(id, catalog).value;
    if toolkit.Ids? {
      ListedToolsMembers(toolkit.entries, catalog, unlocked, t);
    } else {
      UnlockedToolsMembers(unlocked, catalog, t);
    }
  }

  // ----- unlocking -----

  predicate NoDuplicates(s: seq<string>) {
    forall i, j :: 0 <= i < j < |s| ==> s[i] != s[j]
  }

  /** When `check_for_unlocked_tools` acts: a non-empty string id, catalogued, not yet unlocked. */
  predicate Unlockable(unlockTool: Value, catalog: Catalog, unlocked: seq<string>) {
    unlockTool.Str? && unlockTool.s != "" && catalog.Some? && unlockTool.s in catalog.value && unlockTool.s !in unlocked
  }

  /**
   * `check_for_unlocked_tools`: appends the id once and stages the
   * notification, or changes nothing; afterwards the same id can no longer be
   * unlocked, and no duplicate is ever introduced.
   */
  function UnlockStep(s: Session, unlockTool: Value): (r: Session)
    ensures r.(unlockedTools := s.unlockedTools, newlyUnlockedTool := s.newlyUnlockedTool) == s
    ensures !Unlockable(unlockTool, s.masterToolkit, s.unlockedTools) ==> r == s
    ensures Unlockable(unlockTool, s.masterToolkit, s.unlockedTools) ==>
              r.unlockedTools == s.unlockedTools + [unlockTool.s]
              && r.newlyUnlockedTool == Some(UnlockedTool(unlockTool.s, s.masterToolkit.value[unlockTool.s]))
              && multiset(r.unlockedTools)[unlockTool.s] == 1
    ensures !Unlockable(unlockTool, r.masterToolkit, r.unlockedTools)
    ensures NoDuplicates(s.unlockedTools) ==> NoDuplicates(r.unlockedTools)
  {
    if Unlockable(unlockTool, s.masterToolkit, s.unlockedTools) then
      var id := unlockTool.s;
      assert multiset(s.unlockedTools)[id] == 0;
      s.(unlockedTools := s.unlockedTools + [id],
         newlyUnlockedTool := Some(UnlockedTool(id, s.masterToolkit.value[id])))
    else s
  }

  /** Unlocking the same id twice is the same as unlocking it once. */
  lemma UnlockTwice(s: Session, unlockTool: Value)
    ensures UnlockStep(UnlockStep(s, unlockTool), unlockTool) == UnlockStep(s, unlockTool)
  {
  }

  /** `close_tool_unlock_popup`: the notification is acknowledged. */
  function CloseUnlockNotice(s: Session): (r: Session)
    ensures r.newlyUnlockedTool.None?
    ensures r.(newlyUnlockedTool := s.newlyUnlockedTool) == s
  {
    s.(newlyUnlockedTool := None)
  }

  // ----- scenes and choices -----

  /** The destination is marked `end: 'win'` (a missing scene is not). */
  predicate IsWinScene(doc: Document, id: string) {
    id in doc.scenes && doc.scenes[id].end == Some("win")
  }

  /** The state part of `render_scene`: a known scene recomputes the available tools. */
  function RenderStep(s: Session, doc: Document, id: string): (r: (Session, Outcome))
    ensures r.0.(availableTools := s.availableTools) == s
    ensures r.1 == (if id in doc.scenes then Rendered(id) else SceneMissing(id))
  {
    if id in doc.scenes then
      (s.(availableTools := AvailableTools(doc.scenes[id].toolkit, s.masterToolkit, s.unlockedTools)), Rendered(id))
    else (s, SceneMissing(id))
  }

  /** `display_choice_feedback`: a resource link is shown in a popup or inline, as configured. */
  function ChoiceFeedback(choice: Choice, usePopup: bool): (r: Feedback)
    ensures r.NoFeedback? <==> choice.resourceLink.None?
    ensures r.Popup? <==> choice.resourceLink.Some? && usePopup
  {
    match choice.resourceLink
    case None => NoFeedback
    case Some(link) => if usePopup then Popup(link) else Inline(link)
  }

  /** `select_choice`: the choice and its document wait for confirmation; no stat moves yet. */
  function SelectStep(s: Session, choice: Choice, doc: Document): (r: (Session, Feedback))
    ensures r.0.pendingChoice == Some(choice) && r.0.pendingSceneData == Some(doc)
    ensures r.0.(pendingChoice := s.pendingChoice, pendingSceneData := s.pendingSceneData) == s
    ensures r.1 == ChoiceFeedback(choice, s.usePopupResources)
  {
    (s.(pendingChoice := Some(choice), pendingSceneData := Some(doc)), ChoiceFeedback(choice, s.usePopupResources))
  }

  /** Steps 1 to 6 of `process_pending_choice`, before the outcome is decided. */
  function ApplyChoice(s: Session, choice: Choice): Session
  {
    var unlocked := UnlockStep(s, choice.unlockTool);
    var resisted := unlocked.(resist := ApplyDelta(unlocked.resist, choice.resistChange.GetOr(0)));
    var used := resisted.(use := ApplyDelta(resisted.use, choice.useChange.GetOr(0)));
    var timed := used.(time := used.time + choice.timeAdvance.GetOr(0));
    timed.(currentScene := choice.nextSceneId, path := timed.path + [choice.nextSceneId])
  }

  /**
   * `process_pending_choice`. Without a pending choice nothing happens.
   * Otherwise the choice is applied in order; a relapse (resistance at zero)
   * takes priority over a winning destination; only when neither happens are
   * the pending fields cleared and the destination rendered.
   */
  function Confirm(s: Session): (r: (Session, Outcome))
    ensures s.pendingChoice.None? || s.pendingSceneData.None? ==> r == (s, NothingPending)
  {
    if s.pendingChoice.None? || s.pendingSceneData.None? then (s, NothingPending)
    else
      var choice := s.pendingChoice.value;
      var doc := s.pendingSceneData.value;
      var moved := ApplyChoice(s, choice);
      if CheckRelapse(moved) then (moved, Relapse)
      else if IsWinScene(doc, choice.nextSceneId) then (moved, Win)
      else RenderStep(moved.(pendingChoice := None, pendingSceneData := None), doc, choice.nextSceneId)
  }

  /** What `process_pending_choice` leaves behind when a choice is pending: the choice applied, then exactly one of relapse, win or render. */
  lemma ConfirmState(s: Session)
    requires s.pendingChoice.Some? && s.pendingSceneData.Some?
    ensures var r := Confirm(s);
            var choice := s.pendingChoice.value;
            var doc := s.pendingSceneData.value;
            && r.0.resist == ApplyDelta(s.resist, choice.resistChange.GetOr(0))
            && r.0.use == ApplyDelta(s.use, choice.useChange.GetOr(0))
            && r.0.time == s.time + choice.timeAdvance.GetOr(0)
            && r.0.currentScene == choice.nextSceneId
            && r.0.path == s.path + [choice.nextSceneId]
            && r.0.unlockedTools == UnlockStep(s, choice.unlockTool).unlockedTools
            && r.0.newlyUnlockedTool == UnlockStep(s, choice.unlockTool).newlyUnlockedTool
            && r.0.masterToolkit == s.masterToolkit && r.0.usePopupResources == s.usePopupResources
            && (r.1 in {Relapse, Win} ==> r.0.availableTools == s.availableTools)
            && (r.1 == SceneMissing(choice.nextSceneId) ==> r.0.availableTools == s.availableTools)
            && (r.1 == Rendered(choice.nextSceneId) ==>
                  choice.nextSceneId in doc.scenes
                  && r.0.availableTools == AvailableTools(doc.scenes[choice.nextSceneId].toolkit, s.masterToolkit,
                                                          UnlockStep(s, choice.unlockTool).unlockedTools))
            && (r.1 == Relapse <==> r.0.resist == 0)
            && (r.1 == Win <==> r.0.resist > 0 && IsWinScene(doc, choice.nextSceneId))
            && (r.1 !in {Relapse, Win} <==> r.0.pendingChoice.None?)
            && (r.1 !in {Relapse, Win} ==> r.0.pendingSceneData.None?
                                            && r.1 == (if choice.nextSceneId in doc.scenes then Rendered(choice.nextSceneId)
                                                       else SceneMissing(choice.nextSceneId)))
            && (r.1 in {Relapse, Win} ==> r.0.pendingChoice == s.pendingChoice && r.0.pendingSceneData == s.pendingSceneData)
  {
  }

  /** A relapse pre-empts a win: a winning destination reached with resistance at zero is a relapse. */
  lemma RelapseBeatsWin(s: Session)
    requires s.pendingChoice.Some? && s.pendingSceneData.Some?
    requires IsWinScene(s.pendingSceneData.value, s.pendingChoice.value.nextSceneId)
    requires s.resist + s.pendingChoice.value.resistChange.GetOr(0) <= 0
    ensures Confirm(s).1 == Relapse
  {
  }

  // ----- tools in use -----

  /**
   * `use_tool`: refused, with nothing changed, unless resistance strictly
   * exceeds the cost; otherwise the cost comes off resistance and the benefit
   * off the urge, through the clamping updaters.
   */
  function UseToolStep(s: Session, tool: ToolInstance): (r: (Session, UseResult))
    ensures s.resist <= tool.resistCost ==> r == (s, InsufficientResistance)
    ensures s.resist > tool.resistCost ==>
              r.1 == Used && r.0.(resist := s.resist, use := s.use) == s
              && r.0.resist == ApplyDelta(s.resist, -tool.resistCost)
              && r.0.use == ApplyDelta(s.use, -tool.useBenefit)
  {
    if s.resist <= tool.resistCost then (s, InsufficientResistance)
    else (s.(resist := ApplyDelta(s.resist, -tool.resistCost), use := ApplyDelta(s.use, -tool.useBenefit)), Used)
  }

  /** A tool with a non-negative cost that is accepted takes exactly its cost and can never cause a relapse. */
  lemma UseToolNeverRelapses(s: Session, tool: ToolInstance)
    requires InStatRange(s.resist) && tool.resistCost >= 0
    requires UseToolStep(s, tool).1 == Used
    ensures UseToolStep(s, tool).0.resist == s.resist - tool.resistCost
    ensures !CheckRelapse(UseToolStep(s, tool).0)
  {
  }

  // ----- starting and leaving a journey -----

  /**
   * `start_game` (state part): every session field is reset, `initial_values`
   * override the stats (`?? 100`, so an explicit 0 stays) and seed the
   * unlocked tools, and the entry scene is entered and rendered. A journey
   * that could not be loaded behaves as an empty document and reports the
   * load error.
   */
  function StartStep(s: Session, loaded: Option<Document>): (r: (Session, Outcome))
    ensures r.1 == LoadError <==> loaded.None?
  {
    var doc := loaded.GetOr(EmptyDocument);
    var entered := SeedStats(ResetForStart(s), doc).(currentScene := EntryScene, path := [EntryScene]);
    var rendered := RenderStep(entered, doc, EntryScene);
    if loaded.None? then (rendered.0, LoadError) else rendered
  }

  /** The first step of `start_game`: every field of the playthrough back to its initial value. */
  function ResetForStart(s: Session): (r: Session)
    ensures r.masterToolkit == s.masterToolkit && r.usePopupResources == s.usePopupResources
    ensures r == InitialSession.(currentScene := s.currentScene, masterToolkit := s.masterToolkit, usePopupResources := s.usePopupResources)
  {
    s.(resist := DefaultStat, use := DefaultStat, time := 0, path := [],
       pendingChoice := None, pendingSceneData := None,
       availableTools := [], unlockedTools := [], newlyUnlockedTool := None)
  }

  /** The `initial_values` step of `start_game`: a present field overrides the stat or the unlocked list, a missing one keeps it. */
  function SeedStats(s: Session, doc: Document): (r: Session)
    ensures r.(resist := s.resist, use := s.use, unlockedTools := s.unlockedTools) == s
    ensures doc.initialValues.None? ==> r == s
  {
    match doc.initialValues
    case None => s
    case Some(iv) => s.(resist := iv.resist.GetOr(DefaultStat), use := iv.use.GetOr(DefaultStat),
                        unlockedTools := iv.unlockedTools.GetOr(s.unlockedTools))
  }

  /** Everything `start_game` leaves behind, field by field. */
  lemma StartState(s: Session, loaded: Option<Document>)
    ensures var r := StartStep(s, loaded);
            var doc := loaded.GetOr(EmptyDocument);
            var iv := doc.initialValues;
            && r.0.currentScene == EntryScene && r.0.path == [EntryScene] && r.0.time == 0
            && r.0.pendingChoice.None? && r.0.pendingSceneData.None? && r.0.newlyUnlockedTool.None?
            && r.0.resist == (if iv.Some? then iv.value.resist.GetOr(DefaultStat) else DefaultStat)
            && r.0.use == (if iv.Some? then iv.value.use.GetOr(DefaultStat) else DefaultStat)
            && r.0.unlockedTools == (if iv.Some? then iv.value.unlockedTools.GetOr([]) else [])
            && r.0.masterToolkit == s.masterToolkit && r.0.usePopupResources == s.usePopupResources
            && r.0.availableTools == (if EntryScene in doc.scenes
                                      then AvailableTools(doc.scenes[EntryScene].toolkit, s.masterToolkit, r.0.unlockedTools)
                                      else [])
            && r.1 == (if loaded.None? then LoadError else if EntryScene in doc.scenes then Rendered(EntryScene) else SceneMissing(EntryScene))
  {
  }

  /** A restart forgets the previous playthrough: only the catalogue and the display setting carry over. */
  lemma StartForgetsSession(s1: Session, s2: Session, loaded: Option<Document>)
    requires s1.masterToolkit == s2.masterToolkit && s1.usePopupResources == s2.usePopupResources
    ensures StartStep(s1, loaded) == StartStep(s2, loaded)
  {
  }

  /**
   * `exit_game` (state part): scene, stats, time, path and the pending choice
   * are reset; the unlocked and available tools and any unacknowledged
   * notification are kept.
   */
  function ExitStep(s: Session): (r: Session)
    ensures r.currentScene == EntryScene && r.resist == DefaultStat && r.use == DefaultStat && r.time == 0 && r.path == []
    ensures r.pendingChoice.None? && r.pendingSceneData.None?
    ensures r.unlockedTools == s.unlockedTools && r.availableTools == s.availableTools
    ensures r.newlyUnlockedTool == s.newlyUnlockedTool
    ensures r.masterToolkit == s.masterToolkit && r.usePopupResources == s.usePopupResources
  {
    s.(currentScene := EntryScene, resist := DefaultStat, use := DefaultStat, time := 0, path := [],
       pendingChoice := None, pendingSceneData := None)
  }

  /** Starting a journey after leaving one is the same as starting it straight away. */
  lemma ExitThenStart(s: Session, loaded: Option<Document>)
    ensures StartStep(ExitStep(s), loaded) == StartStep(s, loaded)
  {
    StartForgetsSession(ExitStep(s), s, loaded);
  }

  // ----- text -----

  /** The day/hour split of `update_stats` for times of a day or more. */
  function TimeParts(t: int): (r: (nat, nat))
    requires t >= 24
    ensures 24 * r.0 + r.1 == t && r.1 < 24 && r.0 >= 1
  {
    (t / 24, t % 24)
  }

  /** The time display of `update_stats`: `"Nh"` under a day, `"Dd Hh"` from one day on. */
  function TimeText(t: int): (r: string)
    ensures |r| >= 2 && r[|r| - 1] == 'h'
  {
    if t >= 24 then
      var (days, hours) := TimeParts(t);
      NatText(days) + "d " + NatText(hours) + "h"
    else IntText(t) + "h"
  }

  lemma DayHourTextSplit(a: string, b: string, a': string, b': string)
    requires AllDigits(a) && AllDigits(a')
    requires a + "d " + b + "h" == a' + "d " + b' + "h"
    ensures a == a' && b == b'
  {
    var x, x' := "d " + b + "h", "d " + b' + "h";
    assert a + "d " + b + "h" == a + x;
    assert a' + "d " + b' + "h" == a' + x';
    DigitRunSplit(a, x, a', x');
    assert b == x[2..|x| - 1];
    assert b' == x'[2..|x'| - 1];
  }

  /** The time display never shows two different times the same way. */
  lemma TimeTextInjective(t: int, t': int)
    requires TimeText(t) == TimeText(t')
    ensures t == t'
  {
    if t >= 24 && t' >= 24 {
      DayHourTextSplit(NatText(t / 24), NatText(t % 24), NatText(t' / 24), NatText(t' % 24));
      NatTextInjective(t / 24, t' / 24);
      NatTextInjective(t % 24, t' % 24);
    } else if t < 24 && t' < 24 {
      var a, a' := IntText(t), IntText(t');
      assert a == TimeText(t)[..|TimeText(t)| - 1];
      assert a' == TimeText(t')[..|TimeText(t')| - 1];
      IntTextInjective(t, t');
    } else {
      TimeTextDayMark(t);
      TimeTextDayMark(t');
      assert false;
    }
  }

  /** Only a time of a day or more is shown with a day mark. */
  lemma TimeTextDayMark(t: int)
    ensures 'd' in TimeText(t) <==> t >= 24
  {
    if t >= 24 {
      var days := NatText(t / 24);
      assert TimeText(t)[|days|] == 'd';
    } else {
      var text := TimeText(t);
      assert forall i :: 0 <= i < |text| ==> text[i] != 'd';
    }
  }

  /** `format_scene_title`: titles are shown with the prefix, added only when missing. */
  function FormatSceneTitle(title: string): (r: string)
    ensures StartsWith(r, TitlePrefix)
    ensures |title| <= |r| && r[|r| - |title|..] == title
    ensures StartsWith(title, TitlePrefix) ==> r == title
  {
    if StartsWith(title, TitlePrefix) then title else TitlePrefix + " " + title
  }

  lemma FormatSceneTitleIdempotent(title: string)
    ensures FormatSceneTitle(FormatSceneTitle(title)) == FormatSceneTitle(title)
  {
  }
}
