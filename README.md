# Jumpy: save plugin, game progress, level logic and popups in Dafny

This project models the sequential logic at the core of the Unity game
"Jumpy" and of the save plugin it ships with. It then proves properties of
that model. There are six parts:

- **Save facade** (`save_facade.dfy`, module `SaveFacade`). A lazily created
  singleton binds one of four storage backends, chosen by compile-time define
  symbols; when several are enabled, the last conditional block wins. It then
  forwards save, load and clear requests to that backend, or only logs an error
  when none is bound. The backends are not modelled. A ghost log records every
  call handed to a backend, and another records every error logged.
- **Game progress** (`game_progress.dfy`, module `GameProgress`). This holds the
  saved record: high score and two volumes. It loads and saves the record
  through the facade at `persistentDataPath + "/GameValues"`, unencrypted. It
  installs a default record when a load fails, and keeps the high score as a
  running maximum, saving only on a strict improvement.
- **Save settings window** (`save_settings.dfy`, module `SaveSettings`). This
  is the editor window that edits the per-platform scripting define symbols.
  - It adds a directive only when its text is absent (ordinal substring
    search), and removes one by deleting every occurrence, as
    `String.Replace(d, "")` does.
  - Its Save button refuses duplicate build targets. Otherwise it clears every
    save-method symbol from every target group and adds each row's method to
    its group.
  - PlayerSettings is a map from target-group name to define string; a missing
    entry reads as "".
- **Level manager** (`level_manager.dfy`, module `Level`). The start countdown
  of four jumps and the latch that makes the death sequence run once per
  restart. The calls the modelled methods make into the level builder, player,
  cylinder, corn, obstacles, interface and tween engine are recorded by name, in
  order, in a ghost effect log. This includes the loading calls of `Start`.
- **Level builder** (`level_builder.dfy`, module `LevelBuilding`). The wall and
  background tile queues.
  - The lowest tile is lifted by the column's tile count and rotated to the
    back.
  - A reset walks one full rotation and restacks every tile from 0, in the
    order the queue holds.
  - Heights are in tile units.
- **Popups** (`generic_popup.dfy`, module `Popups`). The interaction latches of
  the popup base class: enable and disable that never subscribe the input
  handlers twice, the stored close action that runs at most once, the
  back-button latch, and the animation-done handlers.

`wrappers.dfy` holds the `Option` type used for C# `null`.

## Model

| member | source | states |
|---|---|---|
| SaveFacade.SelectBackend | Assets/Runtime/SaveManager.cs:42-59 | nothing is bound exactly when no save-method symbol is enabled; otherwise the bound method is enabled, and no enabled method's block comes after its block |
| SaveFacade.SaveStatics.AddRequiredScript | Assets/Runtime/SaveManager.cs:42-59 | the binding becomes SelectBackend of the enabled symbols; with none enabled it is left as it was |
| SaveFacade.SaveStatics.Instance | Assets/Runtime/SaveManager.cs:28-40 | the first access creates a fresh singleton and binds the backend; later accesses return the same object and never rebind |
| SaveFacade.SaveManager.Save | Assets/Runtime/SaveManager.cs:69-81 | unbound: nothing is forwarded, no callback is run, and the misconfiguration error is logged once; bound: exactly one save call is forwarded to the bound backend, with the same data, path, callback and encryption flag |
| SaveFacade.SaveManager.SaveString | Assets/Runtime/SaveManager.cs:83-86 | needs a bound backend (no guard); forwards exactly one save-string call with the same arguments |
| SaveFacade.SaveManager.Load | Assets/Runtime/SaveManager.cs:96-108 | unbound: nothing is forwarded and the error is logged once; bound: exactly one load call with the same path, callback and encryption flag |
| SaveFacade.SaveManager.LoadString | Assets/Runtime/SaveManager.cs:109-112 | needs a bound backend; forwards exactly one load-string call with the same arguments |
| SaveFacade.SaveManager.ClearAllData | Assets/Runtime/SaveManager.cs:114-126 | unbound: nothing is forwarded and the error is logged once; bound: exactly one clear-all call with the same path |
| SaveFacade.SaveManager.ClearFIle | Assets/Runtime/SaveManager.cs:129-137 | unbound: nothing is forwarded and the error is logged once; bound: exactly one clear-file call with the same path |
| SaveFacade.UnconfiguredProcess | Assets/Runtime/SaveManager.cs:69-108 | in a build with no save-method symbol, a save then a load reach no backend and log the error twice |
| SaveFacade.TwoDefinesProcess | Assets/Runtime/SaveManager.cs:28-59 | with the JSON-file and binary-prefs symbols both enabled, binary prefs is bound; a second access does not rebind; a save reaches that backend |
| GameProgress.NextHighScore | Assets/Runtime/GameState/CurrentGameState.cs:47-55 | the new high score is at least the old one and the offered score, is one of the two, and differs from the old one exactly when the score is strictly higher |
| GameProgress.HighScoreNeverDecreases | Assets/Runtime/GameState/CurrentGameState.cs:49-52 | after any sequence of offered scores, the high score is at least the starting one and at least every offered score |
| GameProgress.HighScoreIsAttained | Assets/Runtime/GameState/CurrentGameState.cs:47-55 | the final high score is the starting one or one of the offered scores |
| GameProgress.SavesExactlyOnImprovement | Assets/Runtime/GameState/CurrentGameState.cs:49-53 | a sequence of offers requests no save exactly when the high score ends where it started |
| GameProgress.GameProgressManager.LoadGameStatus | Assets/Runtime/GameState/CurrentGameState.cs:18-21 | goes through the facade singleton, which exists afterwards: an existing one keeps its binding, and a new one is bound from the enabled define symbols; forwards one unencrypted load of persistentDataPath + "/GameValues" with LoadDone as callback, or logs the facade error once when unbound |
| GameProgress.GameProgressManager.SaveGameStatus | Assets/Runtime/GameState/CurrentGameState.cs:26-29 | goes through the facade singleton, which exists afterwards: an existing one keeps its binding, and a new one is bound from the enabled define symbols; forwards one unencrypted save of the current record to the same path with SaveComplete as callback, or logs the facade error once when unbound |
| GameProgress.GameProgressManager.GetHighScore | Assets/Runtime/GameState/CurrentGameState.cs:36-39 | needs an installed record; returns its high score |
| GameProgress.GameProgressManager.SetHighScore | Assets/Runtime/GameState/CurrentGameState.cs:47-55 | returns NextHighScore of the old high score and the score; a strictly higher score replaces only the high score and requests exactly one save of the new record, through the singleton, which keeps an existing binding (the facade error is logged once when unbound, and no error otherwise); an equal or lower score changes nothing and saves nothing |
| GameProgress.GameProgressManager.FXVolume | Assets/Runtime/GameState/CurrentGameState.cs:61-65 | the getter reads the record's effects volume |
| GameProgress.GameProgressManager.SetFXVolume | Assets/Runtime/GameState/CurrentGameState.cs:61-65 | the setter changes only the effects volume; the high score and music volume are untouched |
| GameProgress.GameProgressManager.MusicVolume | Assets/Runtime/GameState/CurrentGameState.cs:71-75 | the getter reads the record's music volume |
| GameProgress.GameProgressManager.SetMusicVolume | Assets/Runtime/GameState/CurrentGameState.cs:71-75 | the setter changes only the music volume |
| GameProgress.GameProgressManager.LoadDone | Assets/Runtime/GameState/CurrentGameState.cs:87-98 | Success installs the loaded record; Error or Empty installs the default record and logs "Load failed " + message; nothing is saved |
| SaveSettings.ContainsIsOccurrence | Assets/Editor/SaveSettingsWindow.cs:143-151 | true exactly when the directive occurs at some index of the text |
| SaveSettings.RemoveAllChangesOnlyOccurrences | Assets/Editor/SaveSettingsWindow.cs:141-147 | replacing a directive that does not occur leaves the text unchanged; one that occurs shortens the text by at least its length |
| SaveSettings.RemoveAllKeepsPrefix | Assets/Editor/SaveSettingsWindow.cs:145 | a prefix in which no occurrence starts is kept as it is |
| SaveSettings.RemoveAllDeletesFirstOccurrence | Assets/Editor/SaveSettingsWindow.cs:145 | the first occurrence is deleted and the scan resumes after it, so every non-overlapping occurrence found left to right is replaced by "" |
| SaveSettings.ContainsAppended | Assets/Editor/SaveSettingsWindow.cs:157-160 | a directive appended after a comma occurs in the result |
| SaveSettings.AddDirective | Assets/Editor/SaveSettingsWindow.cs:148-162 | the result contains the directive and extends the text; a contained directive leaves the text unchanged; an empty text becomes exactly the directive; otherwise text + "," + directive |
| SaveSettings.AddDirectiveIdempotent | Assets/Editor/SaveSettingsWindow.cs:151 | adding a directive twice gives the same text as adding it once |
| SaveSettings.RemoveDirective | Assets/Editor/SaveSettingsWindow.cs:141-147 | an absent directive leaves the text unchanged; a present one makes it strictly shorter |
| SaveSettings.EditDefines | Assets/Editor/SaveSettingsWindow.cs:137-164 | only the target group's define string changes (and gains an entry); after an add it contains the directive; removing an absent directive leaves it unchanged |
| SaveSettings.SelectionsApplied | Assets/Editor/SaveSettingsWindow.cs:113-116 | with distinct targets, after the add loop every configured group's define string contains the name of the method chosen for it |
| SaveSettings.FirstDuplicateUnique | Assets/Editor/SaveSettingsWindow.cs:83-91 | at most one index is the first, in nested-loop order, whose target appears again later, so the duplicate message is determined by the list |
| SaveSettings.FindDuplicate | Assets/Editor/SaveSettingsWindow.cs:83-93 | finds nothing exactly when the targets are distinct; otherwise it returns the first index i, in nested-loop order, whose target appears again at a later index |
| SaveSettings.SaveSettingsWindow.constructor | Assets/Editor/SaveSettingsWindow.cs:31-41 | the window takes the asset's two lists, which have equal length |
| SaveSettings.SaveSettingsWindow.EditRow | Assets/Editor/SaveSettingsWindow.cs:62-65 | row i's target and method are replaced; the lists stay parallel |
| SaveSettings.SaveSettingsWindow.AddBuildTarget | Assets/Editor/SaveSettingsWindow.cs:74-78 | appends Android and JSON file save to the two lists, which keep equal length |
| SaveSettings.SaveSettingsWindow.RemoveBuildTarget | Assets/Editor/SaveSettingsWindow.cs:66-70 | removes the same index from both lists, which keep equal length |
| SaveSettings.SaveSettingsWindow.AddPreprocessorDirective | Assets/Editor/SaveSettingsWindow.cs:137-164 | PlayerSettings becomes EditDefines of the old settings |
| SaveSettings.SaveSettingsWindow.ClearSaveMethodSymbols | Assets/Editor/SaveSettingsWindow.cs:95-111 | the nested loops remove every save method from every target group in loop order |
| SaveSettings.SaveSettingsWindow.ApplySelectedMethods | Assets/Editor/SaveSettingsWindow.cs:113-116 | each row's method is added to its group, row by row |
| SaveSettings.SaveSettingsWindow.SaveSettings | Assets/Editor/SaveSettingsWindow.cs:130-135 | the settings asset is marked dirty |
| SaveSettings.SaveSettingsWindow.Save | Assets/Editor/SaveSettingsWindow.cs:81-120 | with a duplicated target, only the duplicate message is set, naming the target at the first index (in nested-loop order) that appears again later, and no settings change; otherwise every symbol is cleared and re-added, the asset is marked dirty, the message is "Settings applied.", and each configured group contains its method's name |
| Level.LevelManager.Start | Assets/Runtime/Level/LevelManager.cs:37-61 | the level is built, the player loaded hidden, the cylinder loaded not following and put in place, the corn and obstacles loaded, in that order; then the idle animation and the camera follow are switched on |
| Level.LevelManager.RestartLevel | Assets/Runtime/Level/LevelManager.cs:104-142 | the counter is CountTo (4); level started, level complete, idle animation and camera follow are all cleared; the reset calls happen in order |
| Level.LevelManager.StartFollowingPlayer | Assets/Runtime/Level/LevelManager.cs:194-197 | the camera follows again |
| Level.LevelManager.ResetVars | Assets/Runtime/Level/LevelManager.cs:203-209 | tweens are stopped, sliding and the cylinder are switched off, and the level is no longer started |
| Level.LevelManager.StartLevel | Assets/Runtime/Level/LevelManager.cs:216-223 | the cylinder follows, obstacles are added, the player slides, the counter is hidden, and the level is started |
| Level.LevelManager.JumpComplete | Assets/Runtime/Level/LevelManager.cs:288-308 | the counter drops by exactly one; the level starts exactly when it reaches 0; the counter display is updated while it is not negative, and sliding is switched on once it is; the gameplay button is re-enabled after every jump |
| Level.LevelManager.LevelComplete | Assets/Runtime/Level/LevelManager.cs:229-240 | only the first call after a restart acts (reset, death animation, popup scheduled); afterwards the level is not started and is complete; a second call changes nothing |
| Level.CountdownScenario | Assets/Runtime/Level/LevelManager.cs:288-308 | after a restart the level has not started after three jumps and has after the fourth; a second death before the next restart leaves the effect log as the first death left it |
| LevelBuilding.RotatedFacts | Assets/Runtime/Level/LevelBuilder.cs:191-198 | rotating a queue keeps its size, its tiles and their distinctness |
| LevelBuilding.RotateStep | Assets/Runtime/Level/LevelBuilder.cs:239-246 | one more enqueue of the head advances the rotation by one |
| LevelBuilding.FullTurn | Assets/Runtime/Level/LevelBuilder.cs:234-247 | a full rotation restores the queue's order |
| LevelBuilding.LiftKeepsStack | Assets/Runtime/Level/LevelBuilder.cs:189-198 | lifting the lowest tile of a contiguous stack by the tile count and moving it to the back gives a contiguous stack one tile higher |
| LevelBuilding.RestackFacts | Assets/Runtime/Level/LevelBuilder.cs:256-264 | giving the tiles heights 0, 1, … in order stacks them from 0 and changes no other tile |
| LevelBuilding.RestackPairFacts | Assets/Runtime/Level/LevelBuilder.cs:234-247 | restacking both walls pair by pair stacks each from 0 and changes no background tile |
| LevelBuilding.StackedFrame | Assets/Runtime/Level/LevelBuilder.cs:113-118 | a stack whose tiles keep their heights stays a stack |
| LevelBuilding.ConstructWall | Assets/Runtime/Level/LevelBuilder.cs:154-178 | creates the requested number of distinct new tiles of one column, the k-th at k times the spacing, and changes no existing tile |
| LevelBuilding.LevelBuilder.constructor | Assets/Runtime/Level/LevelBuilder.cs:36-60 | both walls have N tiles stacked from 0, and the right-wall queue holds N-1 after its lowest tile is taken out; background tiles sit at k times the scale factor (a stack when it is 1); the chickens start at 12 |
| LevelBuilding.LevelBuilder.CycleWalls | Assets/Runtime/Level/LevelBuilder.cs:188-198 | each wall's lowest tile gets the given height and moves to the back of its queue; the wall sizes are kept |
| LevelBuilding.LevelBuilder.CycleBg | Assets/Runtime/Level/LevelBuilder.cs:207-211 | the lowest background tile gets the given height and moves to the back |
| LevelBuilding.LevelBuilder.UpdateWallQueue | Assets/Runtime/Level/LevelBuilder.cs:186-199 | both walls rotate by one; each one's lowest tile is lifted by N tiles; a contiguous wall stays contiguous, one tile higher |
| LevelBuilding.LevelBuilder.UpdateBgQueue | Assets/Runtime/Level/LevelBuilder.cs:205-212 | the background rotates by one, its lowest tile is lifted by its tile count, and a contiguous background stays contiguous, one tile higher |
| LevelBuilding.LevelBuilder.UpdateChickens | Assets/Runtime/Level/LevelBuilder.cs:218-224 | the chickens rise by 20 and their horizontal scale is negated |
| LevelBuilding.ChickensTurnBack | Assets/Runtime/Level/LevelBuilder.cs:218-224 | two updates restore the chickens' orientation |
| LevelBuilding.LevelBuilder.FollowPlayer | Assets/Runtime/Level/LevelBuilder.cs:66-87 | each column rotates by one exactly when the camera has passed its lowest element; the heights are the walls' lift, then the background's lift, each applied only when its column is passed; the chickens rise by 20 and turn around exactly when passed |
| LevelBuilding.LevelBuilder.ResetWall | Assets/Runtime/Level/LevelBuilder.cs:232-248 | both walls end stacked from 0 in the order they had, with the same lowest tile; no background height changes |
| LevelBuilding.LevelBuilder.ResetBg | Assets/Runtime/Level/LevelBuilder.cs:254-264 | the background ends stacked from 0 in the order it had; no wall height changes |
| LevelBuilding.LevelBuilder.ResetBG | Assets/Runtime/Level/LevelBuilder.cs:113-118 | the chickens return to 12 and every column is restacked from 0 in its order |
| Popups.GenericPopup.Initialize | Assets/Runtime/UIScripts/AbstractClases/GenericPopup.cs:70-90 | a background is created, the opening effects run, the intro handler is subscribed once more, and the back-button latch is left as it was |
| Popups.GenericPopup.InitializeRearmed | Assets/Runtime/UIScripts/AbstractClases/GenericPopup.cs:70-90 | as Initialize, and the back-button latch is cleared |
| Popups.GenericPopup.LoadingAnimationDone | Assets/Runtime/UIScripts/AbstractClases/GenericPopup.cs:106-113 | any other state changes nothing; the intro state drops one intro-handler subscription and enables the popup |
| Popups.GenericPopup.EnablePopup | Assets/Runtime/UIScripts/AbstractClases/GenericPopup.cs:119-128 | afterwards each input handler is subscribed exactly once and the popup is interactable; on an enabled popup nothing changes |
| Popups.GenericPopup.DisablePopup | Assets/Runtime/UIScripts/AbstractClases/GenericPopup.cs:134-143 | afterwards no input handler is subscribed and the popup is not interactable; on a disabled popup nothing changes |
| Popups.GenericPopup.PerformClickActionsPopup | Assets/Runtime/UIScripts/AbstractClases/GenericPopup.cs:150-153 | plays the button sound |
| Popups.GenericPopup.ClosePopup | Assets/Runtime/UIScripts/AbstractClases/GenericPopup.cs:161-175 | the stored action is replaced only by a given one; the popup is disabled; the interface flag is recorded; the closing effects run and the outro handler is subscribed once more |
| Popups.GenericPopup.EndAnimationDone | Assets/Runtime/UIScripts/AbstractClases/GenericPopup.cs:182-189 | any other state changes nothing; the outro state drops one outro-handler subscription and destroys the popup |
| Popups.GenericPopup.DestroyPopup | Assets/Runtime/UIScripts/AbstractClases/GenericPopup.cs:195-209 | the stored action runs if there is one and is then forgotten; the popup is hidden and its background destroyed; the closed event fires only when the interface is to be re-enabled |
| Popups.DestroyEvents | Assets/Runtime/UIScripts/AbstractClases/GenericPopup.cs:197-208 | the stored action is reported once if present and never otherwise; the closed event is reported exactly when the interface flag is set |
| Popups.GenericPopup.PerformBackButtonAction | Assets/Runtime/UIScripts/AbstractClases/GenericPopup.cs:215-222 | the back reaction runs only while the latch is clear, and the latch is set either way, so it runs at most once per opening; when it runs, the popup is closed by ClosePopup(true, null) and the intro subscriptions, activity and background are kept |
| Popups.GenericPopup.BackButtonPresssed | Assets/Runtime/UIScripts/AbstractClases/GenericPopup.cs:229-232 | the base reaction closes the popup, re-enabling the interface and keeping the stored action |
| Popups.OpenAndCloseByBack | Assets/Runtime/UIScripts/AbstractClases/GenericPopup.cs:215-222 | opening and closing by back leaves the latch set and the popup hidden, with the exact effect sequence |
| Popups.BackIgnoredAfterReopening | Assets/Runtime/UIScripts/AbstractClases/GenericPopup.cs:215-222 | as written: a popup reopened after a back-button close ignores the back button (one back action in total; the popup stays open) |
| Popups.BackClosesAfterReopening | Assets/Runtime/UIScripts/AbstractClases/GenericPopup.cs:215-222 | with the latch cleared at each opening, the back button closes the popup on the second opening too |
| Popups.CloseActionRunsOnce | Assets/Runtime/UIScripts/AbstractClases/GenericPopup.cs:161-209 | a given close action runs exactly once, even if the popup is destroyed twice, and no closed event fires when the interface is not re-enabled |

## Left out

- The concrete storage backends and their file formats, encryption and PlayerPrefs access: the facade only delegates to them. The calls they receive are a ghost log. The doc comment about a default file on a missing load describes a backend.
- Misconfiguration: with no backend bound, the facade only logs an error and returns. It neither throws nor calls the completion callback, so the caller receives no result. The model follows the code.
- The editor build's variant of the error message, which names the active build target: the model logs the player build's wording, which ClearFIle uses in both builds.
- SaveFacade.SaveStatics: the C# generic type parameter is chosen per call; here the payload type is fixed per facade state. Game progress uses `Option<SavedProperties>` because the record it saves can still be null.
- The Google Play cloud-save field and its define symbol.
- GameProgress.GameProgressManager: the record is a reference in C#, and the facade receives that reference. The model copies a value, so a later change to the record is not seen by a save already handed over.
- The default values of a new SavedProperties record: SavedProperties.cs is not part of this model, so the default record is a constructor parameter.
- Volumes are `float` in C# and `real` here; no rounding is modelled.
- GameProgress.GameProgressManager.SaveComplete: the handler is empty, so it has no contract and no row.
- The catch branch of the Save button's clearing loop (a PlayerSettings exception): PlayerSettings is a total map here and cannot throw.
- The enum `SupportedBuildTargetGroup` is not part of this model. Its values are the window's `allTargets` parameter, and build targets are compared by name.
- The window's lists are the settings asset's own list objects, so SaveSettings only marks the asset dirty. The model keeps the lists in the window.
- EditorGUI layout, creation of a missing settings asset, the Version.txt label and the test-scene button.
- A Remove Build Target click inside the row loop: the loop goes on with the shifted rows in the same frame. Only the removal itself is modelled.
- SaveSettings.SaveSettingsWindow.AddPreprocessorDirective: the Debug.Log of the add branch (SaveSettingsWindow.cs:150) is an editor console message and is not modelled.
- SaveSettings.SaveSettingsWindow.AddPreprocessorDirective: requires a non-empty directive. Every caller passes a save method's enum name. With "" the remove branch would call String.Replace(""), which throws; that exception is not modelled.
- SaveSettings.RemoveAll: its own contract gives only the length bound. What it deletes is stated by RemoveAllChangesOnlyOccurrences, RemoveAllKeepsPrefix and RemoveAllDeletesFirstOccurrence. The model does not claim that no occurrence remains, because joining the pieces can form a new one.
- Unity engine calls (Instantiate, Resources.Load, GameObject.Find, Animator, Camera): each is a recorded effect or is abstracted away.
- Level.LevelManager.Start: the camera lookup, the objects it instantiates, the screen-edge references and the cylinder's player reference are engine calls; only the order of the loading calls is recorded.
- Level.LevelManager: Update, idle animation, camera follow, corn distance, jump input handling and the delayed calls (Invoke, coroutines) are frame-time and float behaviour.
- LevelBuilding.LevelBuilder.constructor: the number of tiles per column depends on the screen height in world units, so it is a parameter (at least one tile, as Dequeue needs). The background scale factor is a parameter of at least 1.
- LevelBuilding.LevelBuilder.FollowPlayer: the three camera comparisons are floats, so they are boolean parameters.
- Tile heights are in tile units (1.4 world units per wall tile, 12.8 per background tile). Chickens' heights are in world units.
- Popups: the animation-done and input events are raised by AnimatorEventsTrigger and UserInputManager, which are not part of this model. The handlers are called directly, and subscriptions are counters.
- Popups: the background fade (UpdateAlpha and the tween), the sibling index of the background, and the lazily fetched managers.
- Popups: LoadPopup in AssetsLoaderManager.cs sets the popup active and non-interactable before Initialize. That file is not part of this model.

## Findings

| source | as written | input that shows it | evidently intended | confidence | as-written member | corrected member |
|---|---|---|---|---|---|---|
| Assets/Runtime/UIScripts/AbstractClases/GenericPopup.cs:215-222 | the back-button latch is set on the first press and never cleared. Initialize (lines 70-90) leaves it set, and each popup is created once at startup and reopened by LoadPopup | open a popup, close it with the back button, open it again, press back | the back button closes the popup on every opening | medium, not executed | Popups.BackIgnoredAfterReopening | Popups.GenericPopup.InitializeRearmed, Popups.BackClosesAfterReopening |
