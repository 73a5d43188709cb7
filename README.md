# Puff Up: gameplay core in Dafny

This project models the gameplay logic of the Unity puzzle game "Puff Up". The
player presses to create a balloon, holds to inflate it and releases to
launch it upwards. A launched balloon that touches a stage's chain, or a
balloon already linked to that chain, pays its number, rounded down, into the
chain. A new balloon's number is 1. Each inflation step that finds room for
the balloon to grow sets the number to five times the new size. A chain whose required number reaches zero
breaks. The game then moves to the stage above, or the level is won after the
last stage. Every level has a budget of balloons. Pressing with the budget spent,
or a pop with none left, loses the level; the last balloon can still win it
by breaking the last chain.

The model covers five C# scripts, one file each:

- `chain.dfy`: the `Chain` threshold budget with its one-way broken latch.
  Specification functions on a `ChainState` value carry lemmas over any
  sequence of subtractions.
- `balloon_controller.dfy`: the balloon's flags, size and number. It also
  holds the growth decision over eight probe results and the link rule
  (`LinkTarget`, `TryLink`, `LinkToChain`). A collision becomes a `Collider`
  value: the other body's tag and what its `GetComponent` lookups return.
- `balloon_spawner.dfy`: press, hold and release for the current balloon, and
  the list of live balloons.
- `game_manager.dfy`: the game state machine, the balloon budget, stage
  progression on chain breaks, and the level number's clamp and wrap-around.
  It also wires every notification to its handler.
- `level_loader.dfy`: the stage layout recurrence over reals, and the base
  camera size. Each stage's scale and camera size are proved against a closed
  form, and its height against the stage below.

`scenarios.dfy` puts the class contracts together in two runs. In one, the
budget runs out. In the other, a two-stage level with chain values 20 and 15
is played to a win.

C# events and delegates are replaced by results and a dispatcher:
- `Chain.Subtract` returns whether `ChainBroke` fired.
- A balloon's collision handler returns a `BalloonEvent`.
- `GameManager.DeliverBalloonEvent` routes that event to the handlers the C#
  subscribes. It does so synchronously and in the same order.

Each coroutine is split in two. The part before its first `yield` runs inside
the method that starts it. The part after the camera has arrived is a method
of its own (`FinishPresentation`, `FinishStageTransition`).

Unity treats a destroyed object as equal to null. The model keeps a
`destroyed` flag on each balloon. It tests the flag where the C# compares the
spawner's current balloon with null. A balloon reached through a contact
(`otherBalloon` in `TryLink`, the spike ball's `balloon`) is taken to be
present, because only a live body collides.

One ordering detail of the source is kept and proved in
`GameManager.BalloonCollisionStay`. `LinkToChain` marks the balloon linked
before it subtracts. The subtraction can break the chain, and a break that is
not the last one resets every listed balloon's link before the camera moves.
So the balloon that broke the chain ends up unlinked.

## Model

| member | source | states |
|---|---|---|
| `DisplayedNumber` | Assets/Scripts/Chain.cs:43-49 | the chain's label is never negative: it shows the required number, or 0 once that is at or below zero |
| `Subtracted` | Assets/Scripts/Chain.cs:23-34 | a broken chain is left exactly as it is; otherwise the value is taken off, and the chain becomes broken exactly when it was unbroken and the result is at or below zero |
| `BrokenChainIgnoresSubtract` | Assets/Scripts/Chain.cs:25 | once broken, any sequence of subtractions leaves the chain unchanged and fires no notification |
| `ChainBrokeFiresAtMostOnce` | Assets/Scripts/Chain.cs:23-41 | over any sequence of subtractions ChainBroke fires at most once; it fires exactly when the chain goes from unbroken to broken, and the latch is never reset |
| `UnbrokenChainLosesTheSum` | Assets/Scripts/Chain.cs:27 | a chain still unbroken after a sequence of subtractions has lost exactly their sum |
| `SubtractNeverRaises` | Assets/Scripts/Chain.cs:27 | subtracting balloon numbers (never negative) never raises the required number |
| `SubtractAllAppend` | Assets/Scripts/Chain.cs:23-34 | subtracting two runs of values one after the other is the same as subtracting their concatenation |
| `BrokenChainShowsZero` | Assets/Scripts/Chain.cs:38-47 | a chain broken by subtraction shows 0 for ever after, whatever is subtracted later |
| `Chain.constructor` | Assets/Scripts/Chain.cs:8-11 | a new chain requires 20 and is not broken |
| `Chain.SetRequiredNumber` | Assets/Scripts/Chain.cs:18-21 | sets the threshold and leaves the broken latch and the notification count alone |
| `Chain.Subtract` | Assets/Scripts/Chain.cs:23-34 | the new state is `Subtracted` of the old one; the result says whether ChainBroke fired, the notification count rises by exactly that, and a broken chain stays broken |
| `Chain.Break` | Assets/Scripts/Chain.cs:36-41 | on an unbroken chain, sets the latch and counts one notification, leaving the required number alone |
| `CountFree` | Assets/Scripts/BalloonController.cs:149-163 | the number of free probes is at most the number of probes |
| `CountFreePositiveIffCanGrow` | Assets/Scripts/BalloonController.cs:149-165 | the count of free probes is positive exactly when at least one probe is free |
| `LinkTarget` | Assets/Scripts/BalloonController.cs:106-123 | the chain a contact links to is never broken. It is the touched chain whenever that is unbroken; otherwise it is the chain of a touched balloon that is linked to an unbroken one; there is none when neither applies |
| `BalloonController.constructor` | Assets/Scripts/BalloonController.cs:19-31 | a new balloon has number 1, the prefab's size, and is not launched, linked, popped or destroyed |
| `BalloonController.GetCurrentNumber` | Assets/Scripts/BalloonController.cs:65-68 | the number used for linking is the largest integer not above the balloon's number |
| `BalloonController.Launch` | Assets/Scripts/BalloonController.cs:52-58 | the balloon is launched and its link, pop state, size and number are unchanged; a balloon that was linked exactly when it had a chain still is |
| `BalloonController.Pop` | Assets/Scripts/BalloonController.cs:78-88 | Popped is reported only the first time; a second Pop changes nothing; there is no launched guard; a balloon that was linked exactly when it had a chain still is |
| `BalloonController.Destroy` | Assets/Scripts/BalloonSpawner.cs:87-90 | a destroyed balloon keeps its flags, size and number but counts as null from then on; a balloon that was linked exactly when it had a chain still is |
| `BalloonController.ResetLink` | Assets/Scripts/BalloonController.cs:175-179 | clears the link and the linked chain and nothing else |
| `BalloonController.TrySmartGrow` | Assets/Scripts/BalloonController.cs:139-173 | the size grows by delta and the number becomes five times the new size exactly when some probe is free; otherwise both are unchanged; a balloon that was linked exactly when it had a chain still is |
| `BalloonController.LinkToChain` | Assets/Scripts/BalloonController.cs:126-132 | the balloon is linked to the chain, and the chain's new state is one subtraction of the balloon's rounded-down number |
| `BalloonController.TryLink` | Assets/Scripts/BalloonController.cs:102-123 | a balloon that is not launched, or is already linked, or has no link target changes nothing; otherwise it links to `LinkTarget` and subtracts from it exactly once |
| `BalloonController.OnCollisionEnter2D` | Assets/Scripts/BalloonController.cs:70-76 | only a "Chain" contact can link; it never reports a pop |
| `BalloonController.OnCollisionStay2D` | Assets/Scripts/BalloonController.cs:90-100 | a "Spike" contact pops (launched or not); a "Chain" or "Balloon" contact links as TryLink does and reports a break exactly when the subtraction broke the chain; anything else changes nothing |
| `RemoveFirstAbsent` | Assets/Scripts/BalloonSpawner.cs:69-72 | removing a balloon that is not listed leaves the list as it is |
| `RemoveFirstCutsFirstOccurrence` | Assets/Scripts/BalloonSpawner.cs:69-72 | removing a listed balloon cuts out exactly its first occurrence, keeps the order of the rest, and takes one copy out of the multiset |
| `RemoveFirst` | Assets/Scripts/BalloonSpawner.cs:69-72 | removing a balloon shortens the list by one exactly when it is listed |
| `MultisetCut` | Assets/Scripts/BalloonSpawner.cs:71 | cutting out one position takes one copy of that element out of the multiset |
| `BalloonSpawner.constructor` | Assets/Scripts/BalloonSpawner.cs:12-14 | no balloons and no current balloon |
| `BalloonSpawner.HandleInput` | Assets/Scripts/BalloonSpawner.cs:34-65 | a press refused by the budget only checks for a loss; a granted press registers once, appends a fresh balloon and makes it current; hold inflates only the live current balloon, release launches it and clears the current balloon; the game manager's invariant is kept |
| `BalloonSpawner.Press` | Assets/Scripts/BalloonSpawner.cs:39-52 | granted exactly when the budget allowed it; then the new balloon is appended, current and unlaunched |
| `BalloonSpawner.HoldAndRelease` | Assets/Scripts/BalloonSpawner.cs:54-64 | with no live current balloon nothing changes; otherwise it grows as TrySmartGrow says when held and is launched and let go when released |
| `BalloonSpawner.BalloonPopped` | Assets/Scripts/BalloonSpawner.cs:67-75 | the list loses the popped balloon's first occurrence, if any |
| `BalloonSpawner.ResetActiveBalloons` | Assets/Scripts/BalloonSpawner.cs:77-83 | every listed balloon ends unlinked, with its launched and pop state, size and number unchanged |
| `BalloonSpawner.ClearBalloons` | Assets/Scripts/BalloonSpawner.cs:85-92 | every listed balloon is destroyed and the list is empty |
| `Registered` | Assets/Scripts/GameManager.cs:215-224 | registering adds exactly one balloon when the budget allows it and none otherwise, so the budget is never overdrawn |
| `BudgetGrantsExactlyLimit` | Assets/Scripts/GameManager.cs:203-224 | after SetBalloonLimit(limit) the first `limit` presses are granted and every later one refused; the count stops at max(limit, 0) |
| `ClampLevel` | Assets/Scripts/GameManager.cs:118-121 | the level loaded is never past the last level, and is the saved level when that is in range |
| `NextLevelNumber` | Assets/Scripts/GameManager.cs:142-146 | the next level is one more, or 1 whenever one more is past the last level; it stays in 1..levels when it started there |
| `WinsWalkLevelsInOrder` | Assets/Scripts/GameManager.cs:139-150 | successive wins walk through the levels in order and wrap around after the last |
| `WinsCycleBack` | Assets/Scripts/GameManager.cs:139-150 | after as many wins as there are levels the player is back at the starting level, and not before |
| `GameManager.constructor` | Assets/Scripts/GameManager.cs:23-28 | main menu, level 1, no budget, no level loaded |
| `GameManager.Start` | Assets/Scripts/GameManager.cs:35-45 | the spawner is disabled and the level number is read from the saved entry |
| `GameManager.CanCreateBalloon` | Assets/Scripts/GameManager.cs:210-213 | a balloon may be created exactly when the game is not out of balloons |
| `GameManager.IsOutOfBalloons` | Assets/Scripts/GameManager.cs:226-229 | out of balloons exactly when no further balloon may be created; within the budget, exactly when every balloon the limit allows (none for a limit at or below 0) has been used |
| `GameManager.SetBalloonLimit` | Assets/Scripts/GameManager.cs:203-208 | sets the limit and resets the count to 0 |
| `GameManager.RegisterBalloon` | Assets/Scripts/GameManager.cs:215-224 | counts one balloon exactly when allowed, keeps the budget within its limit, and touches nothing else |
| `GameManager.CheckForLose` | Assets/Scripts/GameManager.cs:131-137 | the game is lost and time stops exactly when out of balloons; otherwise the state is unchanged |
| `GameManager.Lose` | Assets/Scripts/GameManager.cs:152-157 | lost, shown as lost, time stopped, and the level number kept, so a retry reloads the same level |
| `GameManager.Win` | Assets/Scripts/GameManager.cs:139-150 | the spawner is disabled, the level number advances with wrap-around and is saved, and the state is won |
| `GameManager.StartStage` | Assets/Scripts/GameManager.cs:47-56 | the stage's wall is raised, its hazards move, its ChainBroke is subscribed, and input is enabled |
| `GameManager.NextLevelTransition` | Assets/Scripts/GameManager.cs:104-129 | time resumes, every balloon is destroyed, the clamped level is loaded with fresh distinct chains, stage 1, the level's budget and Gameplay; the camera frames the top stage; a one-stage level starts at once; the saved level is not written |
| `GameManager.ClearScene` | Assets/Scripts/GameManager.cs:106-108 | time resumes, every listed balloon is destroyed, the list is empty and input is disabled |
| `GameManager.LoadAndShowLevel` | Assets/Scripts/GameManager.cs:109-128 | the clamped level is loaded with stage 1, its budget and Gameplay, and is presented from the top stage |
| `GameManager.LoadCurrentLevel` | Assets/Scripts/GameManager.cs:118-126 | the level loaded is the clamped level number's, and its stages are laid out as the layout recurrence says |
| `GameManager.ShowLevel` | Assets/Scripts/GameManager.cs:58-68 | the camera is on the top stage; only a one-stage level starts without a presentation |
| `GameManager.FinishPresentation` | Assets/Scripts/GameManager.cs:69-74 | the camera ends exactly on stage 0, which then starts |
| `GameManager.FinishStageTransition` | Assets/Scripts/GameManager.cs:185-187 | the camera ends exactly on the new stage; the completed stage is deactivated and the new one starts |
| `GameManager.ChainBreak` | Assets/Scripts/GameManager.cs:164-168 | the stage number advances by exactly one and the broken stage is marked completed. After the last stage the level is won and saved, and no listed balloon changes. Otherwise the next stage's wall is lowered, every listed balloon is unlinked, the transition starts, and the level numbers, the game state and the spawner stay as they were. Every listed balloon keeps its launched and pop state, destroyed flag, size and number |
| `GameManager.SetStageComplete` | Assets/Scripts/GameManager.cs:190-201 | only the completed stage changes: obstacles hidden, hazards disabled |
| `GameManager.NextStageTransition` | Assets/Scripts/GameManager.cs:170-184 | the part before the camera move: the stage number advances by one. Past the last stage the level is won and saved, and no listed balloon changes. Otherwise only the next wall is lowered, all links are reset, the transition starts and the level numbers, the game state and the spawner are kept. Every listed balloon keeps its launched and pop state, destroyed flag, size and number |
| `GameManager.BeginStageTransition` | Assets/Scripts/GameManager.cs:179-184 | only the new stage's wall is lowered, and the transition is under way. Every listed balloon is unlinked and keeps its launched and pop state, destroyed flag, size and number |
| `GameManager.BalloonPop` | Assets/Scripts/GameManager.cs:159-162 | a pop checks for a loss |
| `GameManager.DeliverBalloonEvent` | Assets/Scripts/GameManager.cs:159-168 | no event changes nothing. A pop takes the balloon's first occurrence out of the spawner's list and runs the loss check; the stages, the level numbers, the transition and every balloon are kept. A chain break completes the stage and advances exactly when that chain's stage was started, as ChainBreak says; otherwise nothing changes. The reporting balloon keeps its flags, size and number, and keeps its link unless a break that is not the last unlinks it |
| `GameManager.DeliverPopped` | Assets/Scripts/GameManager.cs:159-162 | the popped balloon's first occurrence leaves the spawner's list, and then the loss check runs |
| `GameManager.DeliverChainBroke` | Assets/Scripts/GameManager.cs:164-168 | a broken chain whose stage was started completes that stage and advances it, with everything ChainBreak states; an unsubscribed chain changes nothing |
| `GameManager.OnlyCurrentStageBreaks` | Assets/Scripts/GameManager.cs:164-173 | a chain that was unbroken before a contact belongs to no started stage but the current one |
| `GameManager.StayContact` | Assets/Scripts/BalloonController.cs:90-100 | the balloon's stay contact does what OnCollisionStay2D does, keeps the manager's invariant, and a break it reports is of the current stage's chain. The balloon's launched state, size and number are kept |
| `GameManager.EnterContact` | Assets/Scripts/BalloonController.cs:70-76 | the balloon's enter contact keeps the manager's invariant, links only on a "Chain" contact and never pops; a break it reports is of the current stage's chain. The balloon's flags, size and number are kept |
| `GameManager.BalloonCollisionStay` | Assets/Scripts/BalloonController.cs:90-131 | the stage advances exactly when a launched, unlinked balloon links to the current stage's chain and breaks it. An advance is exactly ChainBreak's: the broken stage is completed; after the last stage the level is won and saved, the spawner disabled and no other balloon changes; otherwise the next wall is lowered and every listed balloon, the one that broke the chain included, is unlinked. A link that breaks nothing leaves the balloon linked to its target. Without an advance the stages, level numbers and transition are kept, and every other balloon is unchanged; the game state and time are kept unless a spike pops the balloon, which leaves the list and runs the loss check. A "Chain" or "Balloon" contact keeps the balloon's pop state and destroyed flag, and its launched state, size and number never change |
| `GameManager.BalloonCollisionEnter` | Assets/Scripts/BalloonController.cs:70-76 | as the stay contact, but only a "Chain" contact links and nothing pops: an advance is exactly ChainBreak's, and without one nothing but the balloon and its target chain changes. The balloon's flags, size and number are kept |
| `GameManager.LinkingContact` | Assets/Scripts/BalloonController.cs:102-131 | a contact that can link: a launched, unlinked balloon with a target links to it and pays its number once; the stage advances exactly when that breaks the current stage's chain, and then exactly as ChainBreak advances it; without an advance nothing but the balloon and its target chain changes. Nothing pops, and the balloon keeps its flags, size and number |
| `GameManager.LinkContact` | Assets/Scripts/BalloonController.cs:70-100 | the balloon's own handler for a linking contact reports nothing or a break of the current stage's chain, links as TryLink does, keeps the balloon's flags, size and number, and leaves every other listed balloon unchanged |
| `GameManager.DeliverLinkEvent` | Assets/Scripts/GameManager.cs:164-168 | what a linking contact reported advances the stage exactly when the current stage was started and holds the broken chain, and then exactly as ChainBreak does, every listed balloon unlinked after a break that is not the last; otherwise nothing changes and the reporting balloon keeps its link |
| `GameManager.SpikeBallCollision` | Assets/Scripts/SpikeBall.cs:60-75 | an active spike ball pops only a balloon that is neither launched nor popped; the pop leaves the list and checks for a loss; otherwise nothing changes, the game state, its display and time included. The balloon's launched state, link, size and number are kept either way |
| `ScaleAndCamSizeClosedForm` | Assets/Scripts/LevelLoader.cs:96-103 | stage i's scale is scaleFactor^i and its camera size baseOrthoSize * scaleFactor^i |
| `StagesAbut` | Assets/Scripts/LevelLoader.cs:96-97 | each stage's bottom edge is the previous stage's top edge |
| `StageY` | Assets/Scripts/LevelLoader.cs:96-97 | a stage is placed so that its bottom edge is the top edge of the stage below; `PlacementAt` runs this step for stage i (LevelLoader.cs:39-41, 96-103) |
| `PosYStrictlyIncreasing` | Assets/Scripts/LevelLoader.cs:96-101 | with a positive factor and height, every stage sits strictly above all earlier ones |
| `DefaultLayoutExample` | Assets/Scripts/LevelLoader.cs:12-13 | with factor 3, height 10 and camera size 5 the first three stages sit at 0, 20 and 80 with scales 1, 3, 9 and camera sizes 5, 15, 45 |
| `LevelLoader.constructor` | Assets/Scripts/LevelLoader.cs:12-18 | the base camera size starts at 5 |
| `LevelLoader.Start` | Assets/Scripts/LevelLoader.cs:20-31 | the base camera size is kept unless the screen is taller than the reference; then it becomes screen height * reference size / reference height, which is larger than the reference size |
| `LevelLoader.LoadLevel` | Assets/Scripts/LevelLoader.cs:33-108 | the level's budget is the record's; one stage per record, in order, each freshly built with its own new chain |
| `BreakStageOne` | Assets/Scripts/GameManager.cs:164-184 | a balloon of number 25 breaks a chain of 20: stage 2 follows with the transition under way, every listed balloon is unlinked, the breaking one included, and the next chain is untouched |
| `BreakStageTwo` | Assets/Scripts/GameManager.cs:139-150 | a balloon of number 15 breaks the last chain (15): the level is won and shown as won, input is disabled, and the level number advances and is saved |
| `LoadTwoStageLevel` | Assets/Scripts/GameManager.cs:104-129 | loading and presenting a two-stage level with chains 20 and 15 puts stage 1 in play with a full budget and an empty balloon list |
| `LaunchBalloon` | Assets/Scripts/BalloonSpawner.cs:34-65 | a press that inflates by delta and a release leave one fresh launched, unlinked balloon of number (prefab scale + delta) * 5 at the end of the list, with one balloon more spent |

## Left out

- The user interface: texts, panels and buttons. Only the state the UI was last told to show is kept, as a ghost field.
- The camera animation in `MoveAndScaleCam` and the one-second wait of the presentation. The model records only that the camera ends exactly on its target.
- JSON parsing. Levels are given already parsed. Obstacle and hazard positions, sizes and speeds are kept but not placed.
- `StageData.camSize` is parsed but never used. The model does not let it influence layout.
- `Instantiate` and `Destroy`: new objects are Dafny allocations. Destroying a balloon takes effect at once, not at the end of the frame. The previous level's stage objects are dropped with the stage list.
- Colours, `Random`, the pop effect and the chain's text widget. The displayed number is `DisplayedNumber`.
- Physics. The eight overlap queries are eight booleans. The growth step `growthRate * Time.deltaTime` is a parameter. Rigid-body velocity, gravity and `MoveTo` are not modelled.
- Input mapping. Mouse and touch input, and the screen-to-world conversion, become the three flags of `HandleInput`. `HandleInput` requires the spawner to be enabled, because Unity calls `Update` only then.
- The spike ball's motion, random direction, reflection and stuck timer. Only its guard that pops unlaunched balloons is kept, as `GameManager.SpikeBallCollision`.
- PlayerPrefs is an integer field. `Time.timeScale` is a paused flag; its effect on physics and coroutines is not modelled.
- C# `int` is 32 bits wide, but the model's integers are unbounded. This matters for the chain's `_requiredNumber -= value` (Chain.cs:27) and the budget's `_balloonsUsed++` (GameManager.cs:222). Gameplay values stay far below the limit, so the model leaves out the wrap-around.
- Float arithmetic. Sizes, positions and camera sizes are exact reals, and `Mathf.FloorToInt` is the floor of a real.
- GameManager.constructor and GameManager.Valid require at least one level, at least one stage per level and a saved level of at least 1. Without a level the C# fails at `levels[_currentLevelNumber-1]` (GameManager.cs:123), and without a stage at `stages[^1]` (GameManager.cs:61). The saved level is read with default 1 (GameManager.cs:39) and `Win` writes only values of at least 1.
- Stage 0 is assumed to keep the stage prefab's position 0 and scale 1.
- `LevelLoader.Start` also sets the camera's size; the model does not.
- `Pop` invokes `Popped` before it sets `_popped` and destroys the balloon. The model delivers the event after both. None of the handlers reads the balloon's flags, so the outcome is the same.
- GameManager.NextLevelTransition: the model drops a stage transition still in flight. The C# lets its coroutine run on after a reload, which can only happen when the level was lost during the camera move.
- GameManager.BalloonCollisionStay and GameManager.BalloonCollisionEnter require the chain a contact could link to to belong to the loaded level. The scene holds no other chains, because an earlier level's stages are destroyed on reload.
