/**
 * The mutable `game_state` record of `game.js` and the handlers that update
 * it. Each method changes the record in place, as the script does, and its
 * postcondition ties the new record to the transition function of
 * `GameRules` applied to the old one.
 */
module GameEngine {
  import opened Wrappers
  import opened GameRules

  class GameSession {
    var currentScene: string
    var resist: int
    var use: int
    var time: int
    var path: seq<string>
    var pendingChoice: Option<Choice>
    var pendingSceneData: Option<Document>
    var usePopupResources: bool
    var availableTools: seq<ToolInstance>
    var unlockedTools: seq<string>
    var masterToolkit: Catalog
    var newlyUnlockedTool: Option<UnlockedTool>

    /** The record as a value. */
    ghost function Snapshot(): Session
      reads this
    {
      Session(currentScene, resist, use, time, path, pendingChoice, pendingSceneData,
              usePopupResources, availableTools, unlockedTools, masterToolkit, newlyUnlockedTool)
    }

    /** The literal that opens `game.js`. */
    constructor ()
      ensures Snapshot() == InitialSession
    {
      currentScene := EntryScene;
      resist := DefaultStat;
      use := DefaultStat;
      time := 0;
      path := [];
      pendingChoice := None;
      pendingSceneData := None;
      usePopupResources := true;
      availableTools := [];
      unlockedTools := [];
      masterToolkit := None;
      newlyUnlockedTool := None;
    }

    /** `read_config`: resources are shown as popups unless the page asks for another display (a missing or empty attribute means popup). */
    method ReadConfig(resourceDisplay: Option<string>)
      modifies this
      ensures usePopupResources <==> (resourceDisplay.None? || resourceDisplay.value == "" || resourceDisplay.value == "popup")
      ensures Snapshot() == old(Snapshot()).(usePopupResources := usePopupResources)
    {
      var display := if resourceDisplay.Some? && resourceDisplay.value != "" then resourceDisplay.value else "popup";
      usePopupResources := display == "popup";
    }

    /** `load_master_toolkit`: the fetched `tools`, or an empty catalogue when the fetch failed. */
    method LoadMasterToolkit(fetched: Option<map<string, ToolDef>>)
      modifies this
      ensures masterToolkit == Some(fetched.GetOr(map[]))
      ensures Snapshot() == old(Snapshot()).(masterToolkit := masterToolkit)
    {
      masterToolkit := Some(fetched.GetOr(map[]));
    }

    method UpdateResistStat(change: int)
      modifies this
      ensures Snapshot() == old(Snapshot()).(resist := ApplyDelta(old(resist), change))
    {
      if resist == MaxStat && change > 0 {
        return;
      }
      resist := if resist + change < 0 then 0 else if resist + change > MaxStat then MaxStat else resist + change;
    }

    method UpdateUseStat(change: int)
      modifies this
      ensures Snapshot() == old(Snapshot()).(use := ApplyDelta(old(use), change))
    {
      if use == MaxStat && change > 0 {
        return;
      }
      use := if use + change < 0 then 0 else if use + change > MaxStat then MaxStat else use + change;
    }

    method CheckForUnlockedTools(choice: Choice)
      modifies this
      ensures Snapshot() == UnlockStep(old(Snapshot()), choice.unlockTool)
    {
      if choice.unlockTool.NotString? || choice.unlockTool.s == "" {
        return;
      }
      var id := choice.unlockTool.s;
      if masterToolkit.Some? && id in masterToolkit.value && id !in unlockedTools {
        unlockedTools := unlockedTools + [id];
        newlyUnlockedTool := Some(UnlockedTool(id, masterToolkit.value[id]));
      }
    }

    method CloseToolUnlockPopup()
      modifies this
      ensures Snapshot() == CloseUnlockNotice(old(Snapshot()))
    {
      newlyUnlockedTool := None;
    }

    /** `update_available_tools`: rebuilds the list one tool at a time. */
    method UpdateAvailableTools(scene: Scene)
      modifies this
      ensures Snapshot() == old(Snapshot()).(availableTools := AvailableTools(scene.toolkit, masterToolkit, unlockedTools))
    {
      var tools: seq<ToolInstance> := [];
      match scene.toolkit {
        case Ids(entries) =>
          var i := 0;
          while i < |entries|
            invariant 0 <= i <= |entries|
            invariant tools == ListedTools(entries[..i], masterToolkit, unlockedTools)
          {
            var entry := entries[i];
            if entry.Str? && masterToolkit.Some? && entry.s in masterToolkit.value && entry.s in unlockedTools {
              var def := masterToolkit.value[entry.s];
              tools := tools + [ToolInstance(entry.s, def.title, def.description, def.defaultResistCost, def.defaultUseBenefit)];
            }
            assert entries[..i + 1][..i] == entries[..i];
            i := i + 1;
          }
          assert entries[..|entries|] == entries;
        case Flag(on) =>
          if on && masterToolkit.Some? {
            var i := 0;
            while i < |unlockedTools|
              invariant 0 <= i <= |unlockedTools|
              invariant tools == UnlockedTools(unlockedTools[..i], masterToolkit)
            {
              var id := unlockedTools[i];
              if id in masterToolkit.value {
                var def := masterToolkit.value[id];
                tools := tools + [ToolInstance(id, def.title, def.description, def.defaultResistCost, def.defaultUseBenefit)];
              }
              assert unlockedTools[..i + 1][..i] == unlockedTools[..i];
              i := i + 1;
            }
            assert unlockedTools[..|unlockedTools|] == unlockedTools;
          } else if on {
            EmptyCatalogOffersNothing(unlockedTools);
          }
        case _ =>
      }
      availableTools := tools;
    }

    /** The state part of `render_scene`. */
    method RenderScene(doc: Document, id: string) returns (outcome: Outcome)
      modifies this
      ensures (Snapshot(), outcome) == RenderStep(old(Snapshot()), doc, id)
    {
      if id !in doc.scenes {
        return SceneMissing(id);
      }
      UpdateAvailableTools(doc.scenes[id]);
      outcome := Rendered(id);
    }

    method SelectChoice(choice: Choice, doc: Document) returns (feedback: Feedback)
      modifies this
      ensures (Snapshot(), feedback) == SelectStep(old(Snapshot()), choice, doc)
    {
      pendingChoice := Some(choice);
      pendingSceneData := Some(doc);
      feedback := match choice.resourceLink
        case None => NoFeedback
        case Some(link) => if usePopupResources then Popup(link) else Inline(link);
    }

    /** Steps 1 to 6 of `process_pending_choice`: unlock, both stats, time, scene and path. */
    method ApplyPendingChoice(choice: Choice)
      modifies this
      ensures Snapshot() == ApplyChoice(old(Snapshot()), choice)
    {
      CheckForUnlockedTools(choice);
      UpdateResistStat(choice.resistChange.GetOr(0));
      UpdateUseStat(choice.useChange.GetOr(0));
      time := time + choice.timeAdvance.GetOr(0);
      currentScene := choice.nextSceneId;
      path := path + [choice.nextSceneId];
    }

    /** `process_pending_choice`, the continue button. */
    method ProcessPendingChoice() returns (outcome: Outcome)
      modifies this
      ensures (Snapshot(), outcome) == Confirm(old(Snapshot()))
    {
      if pendingChoice.None? || pendingSceneData.None? {
        return NothingPending;
      }
      var choice := pendingChoice.value;
      var doc := pendingSceneData.value;

      ApplyPendingChoice(choice);

      if resist <= 0 {
        outcome := Relapse;
      } else if choice.nextSceneId in doc.scenes && doc.scenes[choice.nextSceneId].end == Some("win") {
        outcome := Win;
      } else {
        pendingChoice := None;
        pendingSceneData := None;
        outcome := RenderScene(doc, choice.nextSceneId);
      }
    }

    method UseTool(tool: ToolInstance) returns (result: UseResult)
      modifies this
      ensures (Snapshot(), result) == UseToolStep(old(Snapshot()), tool)
    {
      if resist <= tool.resistCost {
        return InsufficientResistance;
      }
      UpdateResistStat(-tool.resistCost);
      UpdateUseStat(-tool.useBenefit);
      result := Used;
    }

    /** The reset at the top of `start_game`. */
    method ResetPlaythrough()
      modifies this
      ensures Snapshot() == ResetForStart(old(Snapshot()))
    {
      resist := DefaultStat;
      use := DefaultStat;
      time := 0;
      path := [];
      pendingChoice := None;
      pendingSceneData := None;
      availableTools := [];
      unlockedTools := [];
      newlyUnlockedTool := None;
    }

    /** The `initial_values` overrides of `start_game`. */
    method SeedFrom(doc: Document)
      modifies this
      ensures Snapshot() == SeedStats(old(Snapshot()), doc)
    {
      if doc.initialValues.Some? {
        var iv := doc.initialValues.value;
        resist := iv.resist.GetOr(DefaultStat);
        use := iv.use.GetOr(DefaultStat);
        if iv.unlockedTools.Some? {
          unlockedTools := iv.unlockedTools.value;
        }
      }
    }

    /** `start_game`; `loaded` is what `load_scene_data` fetched, `None` when no journey file was found. */
    method StartGame(loaded: Option<Document>) returns (outcome: Outcome)
      modifies this
      ensures (Snapshot(), outcome) == StartStep(old(Snapshot()), loaded)
    {
      ResetPlaythrough();
      var doc := if loaded.Some? then loaded.value else EmptyDocument;
      SeedFrom(doc);
      currentScene := EntryScene;
      path := [EntryScene];
      outcome := RenderScene(doc, EntryScene);
      if loaded.None? {
        outcome := LoadError;
      }
    }

    method ExitGame()
      modifies this
      ensures Snapshot() == ExitStep(old(Snapshot()))
    {
      currentScene := EntryScene;
      resist := DefaultStat;
      use := DefaultStat;
      time := 0;
      path := [];
      pendingChoice := None;
      pendingSceneData := None;
    }
  }

  lemma EmptyCatalogOffersNothing(unlocked: seq<string>)
    ensures UnlockedTools(unlocked, None) == []
  {
    if unlocked != [] {
      EmptyCatalogOffersNothing(unlocked[..|unlocked| - 1]);
    }
  }
}
