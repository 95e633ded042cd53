# Drone swarm simulation: the tick engine and its command translators

This project models, in Dafny, the core of a grid-based drone swarm simulation:

- **Grid and values** (module `Environment`): positions with coordinate equality and addition, entities, and the grid's ordered entity registry with its bounds test and lookups.
- **Event bus** (module `EventSystem`): a map from event type to an ordered list of callbacks. Callbacks are opaque handler ids, and `Trigger` returns the invocations it makes, in order.
- **Actions and detector** (module `Actions`): the direction table, the one-shot move, wait and scan actions, the Chebyshev-square scan, and the detector that filters it for targets.
- **Behaviours** (module `Behaviors`): move-to with x-before-y planning and a replan after every step, random exploration, waypoint patrol through a nested move-to, search with a move/scan cadence, and the factory that builds any of them from a type name and parameters.
- **The drone** (module `Drones`): one tick runs the behaviour, or else the current action of a FIFO queue, and then the detector.
- **Command translators** (modules `Text`, `Commands`, `LlmController`):
  - the regular-expression command processor;
  - the rule-based fallback parser of the language-model controller, its executor of JSON move commands, and its generator of a command that reaches a cell.

Each class whose fields the code updates in place is a Dafny `class`. Its methods are proved against a step function on values, such as `MoveToStep`, `PatrolStep`, `ActionStep` or `Step`. What holds over several updates is proved as lemmas about those functions. Random choices are an injected index `pick` into `Compass`. An operation that fires events returns them, in firing order, as `fired` instead of calling an event manager.

Where the system's specification and its code disagree, the model follows the code:

- **set_behavior does not stop the old behaviour.** The specification says that setting a behaviour stops the previous one. `set_behavior` does not call `stop` (drone.py:198-203), and neither does `Drones.Drone.SetBehavior`.
- **A patrol completes fewer legs than the specification says.** The specification says a two-waypoint patrol with `loops=2` completes four move-tos. The patrol ends at the moment it creates its fourth leg, before running it (behavior.py:125-132), so it completes three (`Behaviors.PatrolTwoLoopsExample`).
- **A failed move command still changes the drone.** The specification says invalid input causes no partial mutation. `_execute_move_command` clears the drone first. A movement without a step count then raises and returns false, and the moves queued so far stay (llm_controller.py:339-362, `LlmController.ApplyMovements`).
- **A command with no movements is rejected.** The specification allows zero or more movement pairs in a text command. `process_command` rejects a command with none (command_processor.py:43-45, `Commands.Interpret`).

The fallback parser has a quirk that the model keeps. It tests drone numbers 1, 2, ... in order and looks for each one's phrases as plain substrings. So a text naming drone 12 selects drone 1 whenever there is at least one drone (`LlmController.LongerNumberMentions`, `LlmController.SelectDrone`).

## Model

| member | source | states |
|---|---|---|
| `Environment.Position.Add` | environment.py:18-19 | each coordinate of the sum is the sum of the coordinates |
| `Environment.PositionEquality` | environment.py:10-13 | two positions are equal exactly when both coordinates are |
| `Environment.AddCommutesAndAssociates` | environment.py:18-19 | addition is commutative and associative, with (0, 0) neutral |
| `Environment.Entity.constructor` | environment.py:22-25 | the entity has the given position, type and identity |
| `Environment.At` | environment.py:71-73 | the lookup holds exactly the registered entities standing on the cell, and no more entries than the registry |
| `Environment.AtAppend` | environment.py:71-73 | a lookup over a concatenation is the lookup over each part, in order, so registration order is kept |
| `Environment.AtSingle` | environment.py:71-73 | a single entity is found exactly when it stands on the cell |
| `Environment.FirstIndex` | environment.py:66-69 | the index of the first occurrence: it holds the element and no earlier index does |
| `Environment.RemoveFirstAbsent` | environment.py:66-69 | removing an absent entity leaves the list unchanged |
| `Environment.RemoveFirstPresent` | environment.py:66-69 | removing a present entity drops exactly its first occurrence and shortens the list by one |
| `Environment.Grid.constructor` | environment.py:34-38 | a new grid has the given size and no entities |
| `Environment.Grid.AddEntity` | environment.py:62-64 | the entity is appended at the end, with no duplicate check |
| `Environment.Grid.RemoveEntity` | environment.py:66-69 | the registry loses the first occurrence of the entity, or is unchanged when it is absent |
| `Environment.Grid.EntitiesAt` | environment.py:71-73 | exactly the registered entities on the cell |
| `Environment.Grid.Update` | environment.py:80-83 | the `update` calls one tick makes: one per registered entity, in registration order (the calls are listed, not run) |
| `Environment.AddEntityLookup` | environment.py:62-73 | after an append, a lookup sees what it saw before, then the new entity when it stands on the cell |
| `EventSystem.Subscribe` | event_system.py:31-35 | the callback joins the end of its type's list, the list is created when absent, and every other type's list is unchanged |
| `EventSystem.SubscribeTwice` | event_system.py:25-35 | registering a callback twice makes it occur twice more in its list, since there is no de-duplication |
| `EventSystem.EventManager.constructor` | event_system.py:19-20 | a new manager has no callbacks |
| `EventSystem.EventManager.Register` | event_system.py:22-29 | the decorator registers the callback like `on` and returns it unchanged |
| `EventSystem.EventManager.On` | event_system.py:31-35 | the callback map becomes `Subscribe` of the old one |
| `EventSystem.EventManager.Trigger` | event_system.py:37-42 | every callback of the type is invoked once, in registration order, with one event carrying the type and the payload; a type with no callbacks invokes nothing and the map is untouched |
| `EventSystem.EventManager.ClearAll` | event_system.py:44-46 | afterwards no event type has a callback |
| `Actions.DeltaValues` | drone.py:7-13 | the unit deltas of up, down, left and right |
| `Actions.MoveTarget` | drone.py:38-55 | a move attempt steps one cell along a known direction when that cell is on the grid, and otherwise stays; a valid position stays valid; it never moves more than one cell |
| `Actions.MoveEvents` | drone.py:38-55 | a move attempt fires `drone_moved` with the new cell when the cell it leads to is on the grid, `movement_blocked` with the direction when it is not, and nothing for an unknown direction |
| `Actions.Repeat` | command_processor.py:54-55 | `n` copies of one direction |
| `Actions.StraightWalkX` | drone.py:10-11 | a run of `left` or `right` moves shifts the x coordinate by the signed count and keeps y |
| `Actions.StraightWalkY` | drone.py:8-9 | a run of `up` or `down` moves shifts the y coordinate by the signed count and keeps x |
| `Actions.HorizontalFirstReaches` | behavior.py:39-51 | the horizontal run followed by the vertical run leads from the start to the target |
| `Actions.VerticalFirstReaches` | llm_controller.py:397-411 | the vertical run followed by the horizontal run leads from the start to the target |
| `Actions.WaitCompletesOnCall` | drone.py:64-72 | a wait of `n` ticks returns false on calls 1..n-1 and true from call n on, and its counter stops at n |
| `Actions.ColumnScanMembers` | drone.py:90-94 | the inner scan loop finds exactly the registered entities on valid cells of its column within the rows scanned |
| `Actions.SquareScanMembers` | drone.py:89-94 | the outer scan loop finds exactly the registered entities on valid cells of the columns scanned, within the radius vertically |
| `Actions.SquareMembers` | drone.py:88-94 | a scan finds exactly the registered entities on valid cells within Chebyshev distance `r` |
| `Actions.CollectSquare` | drone.py:88-94 | the nested loops collect, dx outer and dy inner, exactly the specified square scan |
| `Actions.CollectColumn` | drone.py:90-94 | the inner loop collects column `dx` in row order |
| `Actions.ActionStep` | drone.py:34-104 | an execute returns whether the action is complete; a completed action returns true and changes nothing; moves and scans complete on their first call; only moves change the position, which stays valid |
| `Actions.ActionStepEvents` | drone.py:34-104 | a pending move or scan completes on its execute: a move ends on `MoveTarget` and fires `drone_moved` with the new cell, `movement_blocked` with its direction, or nothing for an unknown direction; a scan stays put and fires one `scan_completed` carrying every entity on the valid cells of its square |
| `Actions.Action.MoveAction` | drone.py:28-32 | a pending move in the given direction |
| `Actions.Action.WaitAction` | drone.py:59-62 | a pending wait with its counter at zero |
| `Actions.Action.ScanAction` | drone.py:80-82 | a pending scan of the given range |
| `Actions.Action.Execute` | drone.py:34-104 | the new state, position, result and events are those of `ActionStep` |
| `Actions.Action.Reset` | drone.py:74-76 | the action is pending again, and a wait's counter is back at zero |
| `Actions.WaitActionRun` | drone.py:64-72 | executing a wait for the k-th time returns true exactly when k reaches the tick count |
| `Actions.Targets` | drone.py:130 | exactly the found entities of type `target` whose id differs from the drone's |
| `Actions.DetectsExactly` | drone.py:121-130 | the detector reports exactly the targets other than the drone on valid cells within its range |
| `Actions.DetectorRangeExample` | drone.py:121-130 | a detector of range 2 at (5, 5) sees a target at (6, 7) and not one at (8, 5) |
| `Actions.Detections` | drone.py:132-140 | a check fires at most one event, `target_detected`, and only with an attached drone |
| `Actions.Detector.constructor` | drone.py:108-110 | a new detector has its range and no drone |
| `Actions.Detector.AttachTo` | drone.py:112-114 | the detector is attached to the drone |
| `Actions.Detector.Check` | drone.py:116-140 | with no drone, no targets and no event; otherwise exactly the targets in range, with `target_detected` fired when there are any |
| `Behaviors.Plan` | behavior.py:34-51 | the planned route has as many moves as the Manhattan distance |
| `Behaviors.PlanNext` | behavior.py:40-51 | the cell the first planned move leads to is the start plus that move's delta |
| `Behaviors.PlanUnfold` | behavior.py:39-51 | a route is its first move followed by the route from the cell that move reaches |
| `Behaviors.PlanReaches` | behavior.py:34-51 | followed on an open grid, the route ends on the target |
| `Behaviors.PlanHeadStaysOnGrid` | behavior.py:39-51 | between two cells of the grid, the first planned move stays on the grid and gets one cell closer |
| `Behaviors.MoveToStepDone` | behavior.py:54-60 | an update returns true exactly when the behaviour had completed or the drone is on the target on entry, and then the drone does not move and nothing fires |
| `Behaviors.MoveToStepCloser` | behavior.py:62-73 | on course and not yet there, an update moves one cell closer along the plan, fires `drone_moved`, returns false and stays on course |
| `Behaviors.MoveToArrival` | behavior.py:53-73 | started d cells away on the grid, after k <= d updates the drone has made the first k planned moves, is d-k away and still on course, and update k returned false |
| `Behaviors.MoveToArrivalDone` | behavior.py:53-73 | arrival takes d updates, and update d+1 reports completion |
| `Behaviors.FollowOneMove` | behavior.py:62-71 | an update on course consumes the next move of the original plan, because of the replan after each step |
| `Behaviors.MoveToOffGridNeverCompletes` | behavior.py:58-71 | with the target off the grid, no update ever returns true and the drone stays on the grid |
| `Behaviors.MoveToExamplePlan` | behavior.py:34-51 | the route from (0, 0) to (3, 2) is right, right, right, down, down |
| `Behaviors.MoveToExample` | behavior.py:53-73 | that route reaches (3, 2) after five updates, and the sixth update returns true |
| `Behaviors.MoveToBehavior.constructor` | behavior.py:24-28 | a new move-to is pending, with its target and an empty path |
| `Behaviors.MoveToBehavior.Start` | behavior.py:30-32 | start plans the route from the drone's position |
| `Behaviors.MoveToBehavior.PlanPath` | behavior.py:34-51 | the loop builds exactly the specified route |
| `Behaviors.MoveToBehavior.Update` | behavior.py:53-73 | the new state, position, result and events are those of `MoveToStep` |
| `Behaviors.ExploreStepDone` | behavior.py:84-101 | an update returns true exactly when the behaviour had completed or a positive budget is spent; otherwise it makes one move attempt and counts one step |
| `Behaviors.ExploreCounts` | behavior.py:88-101 | until the budget is spent, and for ever when `steps <= 0`, each update counts one step, blocked moves included, returns false and keeps the drone on the grid |
| `Behaviors.ExploreFinishes` | behavior.py:88-90 | with `steps > 0`, the update after k moves returns true exactly when k equals `steps` |
| `Behaviors.ExploreBehavior.constructor` | behavior.py:77-82 | a new exploration is pending with no steps taken |
| `Behaviors.ExploreBehavior.Update` | behavior.py:84-101 | the new state, position, result and events are those of `ExploreStep` |
| `Behaviors.PatrolStep` | behavior.py:113-136 | an update keeps the waypoint index within the waypoint list |
| `Behaviors.PatrolStepNewLeg` | behavior.py:116-136 | with no running leg, an update creates a leg towards the current waypoint and advances the counters by `AdvanceLeg`; when that ends the patrol it returns true without running the leg, so the drone stays and nothing fires; otherwise it runs the new leg once and returns false |
| `Behaviors.PatrolStepRunsLeg` | behavior.py:134-136 | with a leg still running, an update keeps the counters, runs that leg once and returns false |
| `Behaviors.PatrolStepLegs` | behavior.py:113-136 | along any run of updates the counters equal `Legs(n, loops, k)` for the number k of legs created so far, so `LegCount` decides when every patrol ends |
| `Behaviors.RunLeg` | behavior.py:134-136 | running the current leg keeps the index and returns false |
| `Behaviors.LegCount` | behavior.py:118-132 | after k legs, `index + n * loop == k` with the index in range; the patrol ends exactly when it creates leg `n * max(loops, 1)` and never when `loops < 0` |
| `Behaviors.PatrolTwoLoopsExample` | behavior.py:125-132 | two waypoints with `loops == 2` end at the creation of the fourth leg, not the third |
| `Behaviors.PatrolZeroLoopsIsOne` | behavior.py:130 | `loops == 0` runs exactly like `loops == 1` |
| `Behaviors.PatrolBehavior.constructor` | behavior.py:105-111 | a new patrol is pending at waypoint 0, loop 0, with no leg |
| `Behaviors.PatrolBehavior.Update` | behavior.py:113-136 | the new state, position, result and events are those of `PatrolStep`, and the index stays in range |
| `Behaviors.PatrolBehavior.NewLeg` | behavior.py:118-132 | a fresh move-to towards the current waypoint is started, the index advances modulo the number of waypoints, a wrap counts a loop, and the patrol ends when the loop count reaches a non-negative `loops` |
| `Behaviors.PatrolBehavior.StepLeg` | behavior.py:134-136 | the nested move-to runs one update |
| `Behaviors.SearchStepDone` | behavior.py:149-178 | an update returns true exactly when the behaviour had completed or a positive move budget is spent; otherwise it fires one event, a scan when enough moves were made and a move attempt otherwise, and only a move counts towards the budget |
| `Behaviors.SearchMoves` | behavior.py:158-176 | while fewer than `stepsBetweenScans` moves have been counted since the last scan, each update is a move that counts one step and returns false |
| `Behaviors.SearchCadence` | behavior.py:158-176 | with `stepsBetweenScans == c >= 1`, c moves are followed by one scan, which resets the count |
| `Behaviors.SearchScansForever` | behavior.py:161-163 | with `stepsBetweenScans <= 0`, every update scans, the drone never moves and the search never completes |
| `Behaviors.SearchStopsAtMaxSteps` | behavior.py:153-156 | with `0 < maxSteps <= stepsBetweenScans`, a fresh search moves `maxSteps` times, and the next update returns true |
| `Behaviors.SearchBehavior.constructor` | behavior.py:140-147 | a new search is pending with both counters at zero |
| `Behaviors.SearchBehavior.Update` | behavior.py:149-178 | the new state, position, result and events are those of `SearchStep` |
| `Behaviors.Started` | behavior.py:10-32 | start keeps a behaviour's validity and completion |
| `Behaviors.StartedPlansRoute` | behavior.py:30-51 | start leaves every kind but a move-to unchanged, and gives a move-to a route of Manhattan length from the drone's cell that ends on its target |
| `Behaviors.Step` | behavior.py:14-16 | an update of any behaviour keeps it valid, returns true exactly when it is completed, and does nothing once it has completed |
| `Behaviors.Behavior.Start` | behavior.py:10-12 | the behaviour's state becomes `Started` of the old one |
| `Behaviors.Behavior.Stop` | behavior.py:18-20 | stop changes nothing, for every kind |
| `Behaviors.Behavior.Update` | behavior.py:14-16 | the new state, position, result and events are those of `Step` |
| `Behaviors.TypeName` | behavior.py:184-191 | every behaviour has one of the four type names |
| `Behaviors.ToWaypoints` | behavior.py:189 | every waypoint dictionary becomes its (x, y), in order, or the first missing `x` or `y` raises `KeyError` |
| `Behaviors.CreateBehavior` | behavior.py:183-199 | an unknown type gives `None`; a built behaviour has the requested type; `KeyError` only for a missing `x`/`y` of a move-to or a missing waypoint list or coordinate of a patrol |
| `Behaviors.CreateRoundTrip` | behavior.py:183-196 | every behaviour is built back from its type name and its parameters |
| `Behaviors.CreateDefaults` | behavior.py:187-195 | omitted parameters default to `steps = -1`, `loops = -1`, `steps_between_scans = 1`, `scan_range = 1` and `max_steps = -1`; missing required keys raise |
| `Behaviors.Initial` | behavior.py:7-8 | a new behaviour is not completed, and it is runnable unless it is a patrol without waypoints |
| `Behaviors.Instantiate` | behavior.py:183-196 | the built object is fresh and in the initial state of its description |
| `Drones.Drone.constructor` | drone.py:144-151 | a new drone is a `drone` entity at its position, with no action, behaviour or detector |
| `Drones.Drone.Update` | drone.py:158-172 | with a behaviour, the behaviour steps, and the queue and the current action's state are untouched; otherwise the current action executes and, once complete, the next queued one becomes current; the detector's events always follow |
| `Drones.Drone.TickBehavior` | drone.py:160-172 | the behaviour's step, then the detector's events |
| `Drones.Drone.TickAction` | drone.py:163-172 | the current action's step, moving on to the next queued action once it is complete, then the detector's events |
| `Drones.Drone.Detect` | drone.py:170-172 | the detector's events, and none without a detector |
| `Drones.Drone.RunBehavior` | drone.py:160-162 | the behaviour's `Step`; the drone's own fields are untouched |
| `Drones.Drone.RunAction` | drone.py:163-168 | the action's `ActionStep`, and the queue pops its head when the action completes |
| `Drones.Drone.Advance` | drone.py:166-168 | the queue loses its head, in FIFO order |
| `Drones.Drone.AddAction` | drone.py:186-191 | the action joins the end of the queue and becomes current when there is none; the behaviour is kept |
| `Drones.Drone.ClearActions` | drone.py:193-196 | no current action and an empty queue |
| `Drones.Drone.SetBehavior` | drone.py:198-203 | the actions are cleared, the behaviour is installed and started from the drone's position, and the old one is not stopped |
| `Drones.Drone.ClearBehavior` | drone.py:205-209 | the behaviour is removed and the queued actions are kept |
| `Drones.Drone.SetDetector` | drone.py:153-156 | the detector is installed and attached to this drone |
| `Text.LowerChar` | command_processor.py:28 | ASCII lowercasing of one character: upper-case letters move down by 32, everything else is kept |
| `Text.Lower` | command_processor.py:28 | the text lowercased character by character, with the length kept |
| `Text.LowerIdempotent` | command_processor.py:28 | lowercasing twice is lowercasing once |
| `Text.SkipSpaces` | command_processor.py:25 | a greedy `\s*` consumes exactly the leading whitespace |
| `Text.DigitCount` | command_processor.py:25 | a greedy `\d+` consumes exactly the leading digits |
| `Text.Numeral` | llm_controller.py:223 | the decimal numeral is a non-empty digit string |
| `Text.NumeralRoundTrip` | command_processor.py:33 | reading a numeral gives back the number |
| `Text.Contains` | llm_controller.py:98 | substring test: the word occurs at some index |
| `Text.Search` | command_processor.py:28 | a regular-expression search returns the match at the leftmost matching position, or none when no position matches |
| `Commands.DroneIdAt` | command_processor.py:25 | the drone pattern only matches text starting with `drone` |
| `Commands.FindDroneId` | command_processor.py:25-33 | the id of the leftmost `drone\s*(\d+)` match, or none when no position matches |
| `Commands.DirectionAt` | command_processor.py:41 | a direction word at the start of the text is one of up, down, left, right |
| `Commands.StepsAt` | command_processor.py:41 | the `\s*=\s*(\d+)` part covers a non-empty prefix of the text |
| `Commands.OrderAt` | command_processor.py:41 | a movement match names a known direction and covers a non-empty prefix |
| `Commands.FindOrders` | command_processor.py:41-42 | every order found names a known direction, and none is found exactly when no position of the text matches |
| `Commands.Expand` | command_processor.py:52-55 | every queued direction comes from one of the orders |
| `Commands.Interpret` | command_processor.py:25-45 | the checks in order, on the lowercased text: no drone id, an unknown id, no movements, or accepted with the leftmost id and every match |
| `Commands.InterpretIgnoresCase` | command_processor.py:28-42 | the verdict does not depend on letter case |
| `Commands.FindOrdersRender` | command_processor.py:41-42 | written-out orders `direction=steps` are read back as the same orders |
| `Commands.FindDroneIdOfText` | command_processor.py:25-33 | a command starting `drone<n>` selects drone n |
| `Commands.DroneMap` | command_processor.py:12 | every drone's id is a key, and each key maps to the last drone with that id |
| `Commands.DroneMapLaterWins` | command_processor.py:17 | of two drones sharing an id, the later one is kept |
| `Commands.EnqueueMoves` | command_processor.py:54-55 | `steps` new moves in the direction join the end of the queue, and none when the count is negative |
| `Commands.AppendMoves` | command_processor.py:52-55 | a queue of pending moves spelling out a plan is extended by `steps` copies of the direction |
| `Commands.ApplyOrders` | command_processor.py:51-55 | the emptied queue becomes one new pending move per step of each order, in order |
| `Commands.CommandProcessor.constructor` | command_processor.py:9-12 | the drone list is stored and the id map built from it |
| `Commands.CommandProcessor.SetDrones` | command_processor.py:14-17 | the list is replaced and the id map rebuilt |
| `Commands.CommandProcessor.ProcessCommand` | command_processor.py:19-58 | true exactly when the command is accepted; a rejection changes no drone; acceptance changes only the chosen drone, whose behaviour is removed and whose actions become the expanded orders, even when every count is 0 |
| `LlmController.AnyIn` | llm_controller.py:98-99 | some keyword occurs in the text |
| `LlmController.IsLikelyMovementCommand` | llm_controller.py:91-101 | the lowercased text holds a movement keyword and a drone keyword |
| `LlmController.DigitsAfter` | llm_controller.py:287 | the `word\s+(\d+)` pattern only matches text starting with the word |
| `LlmController.WordSteps` | llm_controller.py:292-300 | the first number word, in one..ten order, written after the word and a blank, with the earlier ones absent |
| `LlmController.FirstDigitsAfter` | llm_controller.py:287-290 | the number of the leftmost `word\s+(\d+)` match, which needs the word to occur |
| `LlmController.ExtractSteps` | llm_controller.py:279-302 | a non-zero count is only read next to one of the direction words |
| `LlmController.ExtractStepsFirstReading` | llm_controller.py:284-300 | the words are tried in order and the first with a reading decides: its `word\s+\d+` number when there is one, even 0, else its first number word in one..ten order |
| `LlmController.ExtractStepsNoReading` | llm_controller.py:279-302 | when no word is followed by digits or a number word, the count is 0, even if the words occur |
| `LlmController.ExtractStepsReadsNumeral` | llm_controller.py:285-290 | a direction word followed by a blank and a numeral reads as that numeral |
| `LlmController.Patterns` | llm_controller.py:222-233 | five phrases per drone number, seven for 1..10, the first being `drone <n>` |
| `LlmController.LongerNumberMentions` | llm_controller.py:222-237 | text naming `drone 12` also names drone 1 |
| `LlmController.SelectDrone` | llm_controller.py:219-240 | the smallest drone number in `1..count` that the text names, or none when it names none |
| `LlmController.StepsFor` | llm_controller.py:254-255 | the guard on the two words never changes the extracted count |
| `LlmController.EmittedWellFormed` | llm_controller.py:253-272 | at most four movements, each with a known direction and a positive count, strictly in the order left, right, up, down |
| `LlmController.EmitDirection` | llm_controller.py:254-257 | a movement for the direction exactly when its count is positive |
| `LlmController.EmitMovements` | llm_controller.py:253-272 | the four direction checks append exactly the specified movements |
| `LlmController.SimpleCommandParser` | llm_controller.py:214-277 | an error exactly when no drone number is named or no movement is found, with the matching message; otherwise a move command for the smallest named drone with those movements |
| `LlmController.PlanMovements` | llm_controller.py:343-354 | every planned move is a known direction |
| `LlmController.PlanStaysAborted` | llm_controller.py:353-362 | once a movement without a count has raised, later movements change nothing |
| `LlmController.PlanOfWellFormed` | llm_controller.py:344-354 | movements with known directions and counts run to the end and plan as many moves as their counts add up to |
| `LlmController.ParsedCommandsRun` | llm_controller.py:253-277 | commands from the fallback parser never abort when executed |
| `LlmController.FirstWithId` | llm_controller.py:328-332 | the index of the first drone with the id, or none when no drone has it |
| `LlmController.FindDrone` | llm_controller.py:327-332 | the search loop finds exactly `FirstWithId` |
| `LlmController.ApplyMovements` | llm_controller.py:342-357 | unknown directions are skipped, a missing count stops with false, and the queue holds the planned moves |
| `LlmController.ExecuteMoveCommand` | llm_controller.py:320-362 | an unknown id fails and changes no drone; otherwise only the first drone with the id changes: its behaviour is removed, its queue holds the planned moves, and the result says whether the plan ran to the end |
| `LlmController.ExecuteJsonCommand` | llm_controller.py:304-318 | any command type other than `move` fails and changes no drone; a move command does exactly what `ExecuteMoveCommand` does: an unknown id changes nothing, otherwise only the first drone with the id is cleared and given the planned moves, even when the plan aborts |
| `LlmController.GenerateCommand` | llm_controller.py:372-413 | a move command for the drone with at most two movements |
| `LlmController.GeneratedPlan` | llm_controller.py:397-411 | the vertical leg's moves, then the horizontal leg's, and the plan never aborts |
| `LlmController.GenerateCommandReaches` | llm_controller.py:383-411 | the generated command plans a shortest route: as many moves as the Manhattan distance, leading from the drone's cell to the target |

## Left out

- Rendering, the pygame window, `GridEnvironment.initialize`/`render`/`run`/`process_input_events` and the unused numpy `grid` field: these are user interface, not simulation logic.
- main.py is not part of this model: it holds the event loop, argument parsing and the `target_detected` handler glue.
- `process_goal`, `_generate_command_json`, `_call_openai_api`, `_generate_command_system_prompt` and `parse_json_instructions`: these are network, asynchronous and JSON-decoding paths.
- `_generate_random_position` and the `random.choice` calls: randomness is an injected index into `Compass`.
- Callback effects: a callback is a handler id, and `Trigger` returns the invocations it would make. Actions, behaviours and the detector return the events they fire rather than calling an event manager, so what a handler then does is not modelled.
- `Entity.id = id(self)`: an integer passed to the constructor.
- Environment.Grid.Update: lists the `update` calls of one tick without running them. Registered drones override `update` (drone.py:158-172), and main.py registers every drone. So a grid tick's effect on the drones is not modelled: the per-drone step is `Drones.Drone.Update`, but no tick runs it over all registered drones in order. Such a tick would have to show that the drones touch disjoint objects, and each drone's detection sees the cells the earlier drones moved to in the same tick.
- A drone has its grid entity as `body` rather than being one: Dafny has no class inheritance without traits.
- The action subclasses are one class with a `kind`, and `isinstance(..., MoveAction)` is `kind.Move?`.
- A behaviour's `current_action` field: every action a behaviour starts is a move or a scan, which completes on its first execute, so the field is always None between updates.
- `print` and `traceback` output.
- Python's Unicode `\s`, `\d` and `str.lower`: the model uses their ASCII meaning.
- `_execute_move_command` reads a `MoveCommand` value. JSON shapes other than dictionaries, and step counts that are not integers, are not modelled. Of the exceptions it catches, only the one raised by a missing step count is.
- `generate_command` looks the drone up through `environment.drones`, which the grid does not define: `GenerateCommand` takes the drone's position directly.
- `_simple_command_parser` only uses the number of drones, so `SelectDrone` and `SimpleCommandParser` take that number.
- `CommandProcessor(None)` (`drones or []`) is the constructor with the empty sequence.
- Behaviors.PatrolBehavior.Update: requires a non-empty waypoint list. With none, the code raises an IndexError at behavior.py:120, and that failure is not modelled.
- Drones.Drone.Update: requires the drone's behaviour to be runnable, which only excludes a patrol without waypoints, for the reason above.
