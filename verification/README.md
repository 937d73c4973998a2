# RTS-AI simulation core in Dafny

This project models the headless simulation of the RTS-AI real-time strategy game and the decision makers built on top of it. Each part is a functional model with contracts and lemmas that prove what the code promises. The parts are:

- **Simulation data and systems.** The world state holds the map grid, units, buildings, resources and players. The systems cover resource gathering, buildings (construction, production and the defence tower), units (movement, gathering, building and combat) and A* path finding on the grid.
- **Scripted bots.** The simple macro AI, the rusher, the worker rush, the turtle, the harasser, the economic boom bot and the elite commander.
- **Tuned commanders.** The parametric macro AI and its gene vector, the specialised macro AI, the game-state analyser, and the hybrid adaptive AI that switches between them.
- **Optimisers.** The particle swarm optimiser, the adaptive PSO with its evolutionary state, and the PSO manager with its fitness and evaluation bookkeeping.
- **Reinforcement learning.** The tabular Q-learning agent and brain, the scene and simulation RL environments with their state codes, the deep-RL action translator, the action masks of the three agents, and the reward ledgers of the dense, adversarial and self-play runners.
- **Scenarios and experiments.** The scenario manager, the economy rush scenario and the experiment manager.
- **Demonstration analysis.** The two Python scripts that list non-WAIT steps and source/action/target triplets from recorded demonstrations.

## Modelling conventions

- **State.** The world is an immutable value. Every dictionary of the original (units, buildings, resources and players by id) is a sequence in the order its entries were added, because enumeration order decides which unit or building a search finds first. A removal closes the gap, so later entries keep their order and a new entry goes to the end. Lookups find the first entry with the key.
- **Operations.** Each operation returns a new world, or an `Option` or a result pair where the code can fail or decline.
- **Numbers.** Single-precision floats are `real`, so rounding is not modelled. Integers are unbounded.
- **Order loops.** A bot's loop over its units (`Crew.OrderEach`) gives each unit its order and writes it back. Each loop member states what every unit ends as, through a per-unit function such as `Bots.Attack` or `SimpleAI.SteerOne`.
- **Outside inputs.** Every random draw, the frame time and the stopwatch are parameters.
- **Costs.** Costs the code reads from the configuration but that the configuration does not declare are fields of `Config.Config`.
- **Building placement.** Every build order in the code is the same three steps: spend the price (`SpendResources` takes nothing when the player cannot pay), create the unfinished building on the cell, and order the worker to build it. The bots call a `CreateBuilding` helper that has no definition in the repository; it is modelled as the placeholder of the simple macro AI (`SpawnBuildingPlaceholder`): the next ID, the type's stats, the cell blocked and occupied. `Spots.BuildAt` is this order and `Spots.Erected` states its whole effect, which every placing member promises.
- **Tower kills.** A kill by the defence tower removes the unit without returning its population. The model keeps this behaviour, and `Population.TowerKillLeaks` proves that the population ledger then drifts.

## Model

| member | source | states |
|---|---|---|
| Types.Add | Assets/_Project/Scripts/Simulation/Data/SimTypes.cs:15-16 | `+` is component-wise and `-` undoes it |
| Types.Scale | Assets/_Project/Scripts/Simulation/Data/SimTypes.cs:17 | scaling by 1 is the identity and by 0 gives `Zero` |
| Types.EqualityAgrees | Assets/_Project/Scripts/Simulation/Data/SimTypes.cs:21-24 | `==` holds exactly on equal coordinates, `!=` is its negation, `Equals(object)` holds only for a boxed equal value |
| Types.AddZeroSubInverse | Assets/_Project/Scripts/Simulation/Data/SimTypes.cs:15-16 | `Zero` is a two-sided identity for `+`; `-` and `+` undo each other |
| Types.ScaleDistributes | Assets/_Project/Scripts/Simulation/Data/SimTypes.cs:15-17 | `* k` distributes over `+` |
| Types.Unsigned | Assets/_Project/Scripts/Simulation/Data/SimTypes.cs:25 | the 32-bit pattern of an int is below 2^32 and reads back as the same int |
| Types.XorCommutes | Assets/_Project/Scripts/Simulation/Data/SimTypes.cs:25 | bitwise exclusive or is commutative |
| Types.XorZeroIffEqual | Assets/_Project/Scripts/Simulation/Data/SimTypes.cs:25 | exclusive or is zero exactly on equal patterns |
| Types.XorBound | Assets/_Project/Scripts/Simulation/Data/SimTypes.cs:25 | exclusive or of two k-bit patterns stays a k-bit pattern |
| Types.HashCode | Assets/_Project/Scripts/Simulation/Data/SimTypes.cs:25 | `x ^ y` on 32-bit components is a 32-bit int |
| Types.HashCodeProperties | Assets/_Project/Scripts/Simulation/Data/SimTypes.cs:21-25 | equal values hash alike; the hash is symmetric in x and y; it is zero exactly when x == y |
| SimMath.ClampInt | Assets/_Project/Scripts/Simulation/Core/SimMath.cs:24-29 | the result is one of v, lo, hi; inside [lo,hi] when lo <= hi; v when already inside; the lower test wins when lo > hi |
| SimMath.ClampReal | Assets/_Project/Scripts/Simulation/Core/SimMath.cs:17-22 | the same contract as the integer clamp, over reals |
| SimMath.Clamp01 | Assets/_Project/Scripts/Simulation/Core/SimMath.cs:31-36 | the result is in [0,1], equals v inside it, and agrees with the general clamp |
| SimMath.ClampIdempotentMonotone | Assets/_Project/Scripts/Simulation/Core/SimMath.cs:17-29 | clamping twice is clamping once; clamping is monotone; the float and int clamps agree on integers |
| SimMath.AbsInt | Assets/_Project/Scripts/Simulation/Core/SimMath.cs:40 | the absolute value is non-negative and is v or -v |
| SimMath.AbsReal | Assets/_Project/Scripts/Simulation/Core/SimMath.cs:39 | the absolute value is non-negative and is v or -v |
| SimMath.MinInt | Assets/_Project/Scripts/Simulation/Core/SimMath.cs:46 | the minimum is one of the arguments and at most both |
| SimMath.MaxInt | Assets/_Project/Scripts/Simulation/Core/SimMath.cs:47 | the maximum is one of the arguments and at least both |
| SimMath.MinReal | Assets/_Project/Scripts/Simulation/Core/SimMath.cs:43 | the minimum is one of the arguments and at most both |
| SimMath.MaxReal | Assets/_Project/Scripts/Simulation/Core/SimMath.cs:44 | the maximum is one of the arguments and at least both |
| SimMath.Lerp | Assets/_Project/Scripts/Simulation/Core/SimMath.cs:52-55 | the result lies between a and b; t <= 0 gives a and t >= 1 gives b |
| SimMath.FloorToInt | Assets/_Project/Scripts/Simulation/Core/SimMath.cs:13 | the greatest integer not above f |
| SimMath.CeilToInt | Assets/_Project/Scripts/Simulation/Core/SimMath.cs:14 | the least integer not below f |
| SimMath.RoundToInt | Assets/_Project/Scripts/Simulation/Core/SimMath.cs:12 | within 1/2 of f, and even on a tie |
| SimMath.RoundIsNearest | Assets/_Project/Scripts/Simulation/Core/SimMath.cs:12 | no integer is strictly closer to f than the rounded value |
| SimMath.RoundMonotone | Assets/_Project/Scripts/Simulation/Core/SimMath.cs:12 | rounding fixes integers and is monotone |
| World.FreshNode | Assets/_Project/Scripts/Simulation/Data/SimMapData.cs:3-12 | a new node is Grass, walkable, unoccupied (-1) and knows its coordinates |
| World.NewMap | Assets/_Project/Scripts/Simulation/Data/SimMapData.cs:21-40 | the map is w by h and every cell is a fresh node carrying its own coordinates |
| World.InBoundsRectangle | Assets/_Project/Scripts/Simulation/Data/SimMapData.cs:42-45 | `IsInBounds` holds exactly on [0,w) x [0,h); the rectangle is closed under reflection and excludes x = w and y = -1 |
| World.NewWorld | Assets/_Project/Scripts/Simulation/Data/SimWorldState.cs:12-28 | tick 0, a w by h fresh map, no units, buildings or resources, only player 1 with empty stocks and no population cap, counter 1 |
| World.NextID | Assets/_Project/Scripts/Simulation/Data/SimWorldState.cs:18-19 | returns the counter and advances it by one, changing nothing else |
| World.TakeIDs | Assets/_Project/Scripts/Simulation/Data/SimWorldState.cs:18-19 | n calls hand out n IDs and advance the counter by n |
| World.TakeIDsDistinct | Assets/_Project/Scripts/Simulation/Data/SimWorldState.cs:18-19 | successive IDs are consecutive from the counter and pairwise distinct |
| World.FirstIDIsOne | Assets/_Project/Scripts/Simulation/Data/SimWorldState.cs:18-28 | on a new world the first ID is 1 and the first two are 1 and 2 |
| World.GetPlayer | Assets/_Project/Scripts/Simulation/Systems/SimResourceSystem.cs:8-15 | a player is found exactly when one with that ID is stored, and the one found has that ID |
| World.OwnersSeparateIds | Assets/_Project/Scripts/Simulation/Data/SimWorldState.cs:12 | with dictionary-unique IDs, units of different owners have different IDs |
| World.SameIdSameUnit | Assets/_Project/Scripts/Simulation/Data/SimWorldState.cs:12 | with dictionary-unique IDs, one ID names one unit |
| Resources.GetResourceAmount | Assets/_Project/Scripts/Simulation/Systems/SimResourceSystem.cs:31-43 | the matching stock of a known player; 0 for an unknown player or type None |
| Resources.SpendResources | Assets/_Project/Scripts/Simulation/Systems/SimResourceSystem.cs:18-55 | succeeds exactly when the player can afford the price; on failure nothing changes; on success exactly the price leaves that player and no other player or population changes; non-negative stocks stay non-negative |
| Resources.CreditStock | Assets/_Project/Scripts/Simulation/Systems/SimResourceSystem.cs:57-68 | a credit raises only the matching stock, by the amount, and leaves population alone |
| Resources.AddResource | Assets/_Project/Scripts/Simulation/Systems/SimResourceSystem.cs:57-68 | no-op for an unknown player, a non-positive amount or type None; otherwise only that player's matching stock grows |
| Resources.ModifyPopulation | Assets/_Project/Scripts/Simulation/Systems/SimResourceSystem.cs:71-80 | adds the amount and clamps a negative result to 0, so population stays non-negative; other players untouched |
| Resources.IncreaseMaxPopulation | Assets/_Project/Scripts/Simulation/Systems/SimResourceSystem.cs:82-86 | raises only that player's cap by the amount; unknown player is a no-op |
| Resources.SpendThenRefund | Assets/_Project/Scripts/Simulation/Systems/SimResourceSystem.cs:46-68 | spending a positive price and adding its three parts back restores the player |
| Resources.RefundRestores | Assets/_Project/Scripts/Simulation/Systems/SimResourceSystem.cs:46-68 | paying then crediting each part returns the same player record |
| Resources.SpendTwice | Assets/_Project/Scripts/Simulation/Systems/SimResourceSystem.cs:18-55 | after a successful spend, the same price is affordable again exactly when the player held twice the price |
| Resources.ModifyPopulationInverse | Assets/_Project/Scripts/Simulation/Systems/SimResourceSystem.cs:71-80 | a change that never goes below zero is undone by the opposite change |
| Grid.GetNode | Assets/_Project/Scripts/Simulation/Systems/SimGridSystem.cs:28-33 | a node exactly for in-bounds coordinates, and it is the map's node there |
| Grid.WalkableImpliesFlag | Assets/_Project/Scripts/Simulation/Systems/SimGridSystem.cs:35-40 | a walkable cell has its node flag set; an out-of-bounds cell is neither walkable nor has a node |
| Grid.NeighborCandidates | Assets/_Project/Scripts/Simulation/Systems/SimGridSystem.cs:42-57 | eight king's-move neighbours: the four cardinals in the listed order, then the four diagonals |
| Grid.FindWalkableNeighbor | Assets/_Project/Scripts/Simulation/Systems/SimGridSystem.cs:42-57 | none exactly when no neighbour is walkable; otherwise a walkable neighbour with every earlier candidate not walkable, and a cardinal one whenever a cardinal is walkable |
| Grid.AdjacentAreCandidates | Assets/_Project/Scripts/Simulation/Systems/SimGridSystem.cs:42-57 | every king's-move neighbour is among the eight candidates |
| Grid.Neighbors | Assets/_Project/Scripts/Simulation/Systems/SimGridSystem.cs:128-138 | eight distinct adjacent cells, covering every king's-move neighbour |
| Grid.ManhattanMetric | Assets/_Project/Scripts/Simulation/Systems/SimGridSystem.cs:59-62 | `GetDistance` is symmetric, zero exactly on equal points, and obeys the triangle inequality |
| Grid.DistSqProperties | Assets/_Project/Scripts/Simulation/Systems/SimGridSystem.cs:172-177 | `GetDistanceSq` is symmetric, zero exactly on equal points, and bounded by the squared Manhattan distance and its half |
| Grid.AdjacentDistance | Assets/_Project/Scripts/Simulation/Systems/SimGridSystem.cs:59-177 | adjacent cells are at Manhattan distance 1 or 2 and squared distance 1 or 2 |
| Grid.MazeNode | Assets/_Project/Scripts/Simulation/Systems/SimGridSystem.cs:158-168 | a maze cell is cleared of occupants; walls become unwalkable stone and corridors walkable grass |
| Grid.GenerateMazeMap | Assets/_Project/Scripts/Simulation/Systems/SimGridSystem.cs:140-170 | every cell is unoccupied; walkability follows the 8 x 10 pattern; every cell outside it is unwalkable stone; coordinates are kept |
| Grid.MazeShape | Assets/_Project/Scripts/Simulation/Systems/SimGridSystem.cs:142-152 | the pattern's border rows are walls, (1,1) and (6,8) are open, and (4,4) is a wall |
| PathFinding.Trace | Assets/_Project/Scripts/Simulation/Systems/SimGridSystem.cs:115-126 | the came-from chain runs from the cell back to the start through linked cells with strictly falling scores |
| PathFinding.ReconstructPath | Assets/_Project/Scripts/Simulation/Systems/SimGridSystem.cs:115-126 | the reversed chain without the start ends at the cell and consists of linked cells |
| PathFinding.ChainReversed | Assets/_Project/Scripts/Simulation/Systems/SimGridSystem.cs:115-126 | reversing a chain and dropping the start gives a forward chain: each cell links to its predecessor, the start is absent, scores rise |
| PathFinding.ReconstructShape | Assets/_Project/Scripts/Simulation/Systems/SimGridSystem.cs:94-126 | a reconstructed path to the goal is non-empty, ends at the goal, avoids the start, moves by king's moves and passes only walkable cells before the goal |
| PathFinding.RemoveFirst | Assets/_Project/Scripts/Simulation/Systems/SimGridSystem.cs:96 | removing a present cell shortens the open list by one and adds nothing; removing an absent one changes nothing |
| PathFinding.SelectCurrent | Assets/_Project/Scripts/Simulation/Systems/SimGridSystem.cs:81-92 | the chosen open cell has the least f-score |
| PathFinding.RelaxOne | Assets/_Project/Scripts/Simulation/Systems/SimGridSystem.cs:98-110 | scores only fall, the open list only grows, a non-walkable non-goal neighbour changes nothing, an admissible one ends scored at most one more than the current cell and is opened if new |
| PathFinding.RelaxOneKeepsOrder | Assets/_Project/Scripts/Simulation/Systems/SimGridSystem.cs:103-110 | every link still points to a strictly smaller score |
| PathFinding.RelaxOneKeepsScores | Assets/_Project/Scripts/Simulation/Systems/SimGridSystem.cs:103-110 | the start stays scored 0 and unlinked, scores stay non-negative, scored cells stay linked, open cells stay scored |
| PathFinding.RelaxOneKeepsLinks | Assets/_Project/Scripts/Simulation/Systems/SimGridSystem.cs:98-110 | links stay king's moves onto in-bounds admissible cells whose f is g plus the Manhattan heuristic |
| PathFinding.RelaxOnePreserves | Assets/_Project/Scripts/Simulation/Systems/SimGridSystem.cs:98-110 | relaxing one neighbour keeps the search invariant |
| PathFinding.RelaxAll | Assets/_Project/Scripts/Simulation/Systems/SimGridSystem.cs:98-110 | the neighbour loop has the one-neighbour facts for every neighbour |
| PathFinding.RelaxAllPreserves | Assets/_Project/Scripts/Simulation/Systems/SimGridSystem.cs:98-110 | the neighbour loop keeps the search invariant |
| PathFinding.Search | Assets/_Project/Scripts/Simulation/Systems/SimGridSystem.cs:76-112 | the main loop returns empty or a well-shaped path |
| PathFinding.FindPath | Assets/_Project/Scripts/Simulation/Systems/SimGridSystem.cs:64-113 | empty when an end point is off the map or the two coincide; otherwise at most 3000 iterations, and a non-empty result ends at the goal, avoids the start, moves by king's moves and passes walkable cells before the goal |
| PathFinding.InitialInv | Assets/_Project/Scripts/Simulation/Systems/SimGridSystem.cs:69-74 | the initial open list and scores satisfy the search invariant |
| PathFinding.FirstIteration | Assets/_Project/Scripts/Simulation/Systems/SimGridSystem.cs:76-111 | the first iteration expands the start into its neighbours and keeps the invariant |
| PathFinding.OnlyStartScoresZero | Assets/_Project/Scripts/Simulation/Systems/SimGridSystem.cs:103-110 | every scored cell other than the start is linked, scores at least 1, and has f = g + heuristic |
| PathFinding.AdjacentGoalOpened | Assets/_Project/Scripts/Simulation/Systems/SimGridSystem.cs:98-110 | after the first iteration an adjacent goal is open, linked to the start and scored 1 |
| PathFinding.OthersScoreMore | Assets/_Project/Scripts/Simulation/Systems/SimGridSystem.cs:98-110 | after the first iteration every other open cell has f-score above 1 |
| PathFinding.AdjacentGoalSelected | Assets/_Project/Scripts/Simulation/Systems/SimGridSystem.cs:81-92 | the second iteration selects an adjacent goal |
| PathFinding.AdjacentGoal | Assets/_Project/Scripts/Simulation/Systems/SimGridSystem.cs:64-113 | a goal one king's move from the start yields the one-step path to it |
| PathFinding.OneLinkTrace | Assets/_Project/Scripts/Simulation/Systems/SimGridSystem.cs:115-126 | a goal linked straight to the start reconstructs to just the goal |
| Buildings.InitializeBuildingStats | Assets/_Project/Scripts/Simulation/Systems/SimBuildingSystem.cs:71-104 | max health 1000 and health 10; progress full exactly for a constructed building; Farm, WoodCutter and StonePit generate Meat, Wood and Stone at the configured interval and amount; a Tower gets the tower weapon; identity and the construction flag are kept |
| Buildings.InitializeIdempotent | Assets/_Project/Scripts/Simulation/Systems/SimBuildingSystem.cs:71-104 | initialising twice is initialising once |
| Buildings.OnBuildingCompleted | Assets/_Project/Scripts/Simulation/Systems/SimBuildingSystem.cs:63-69 | a Base or a House raises only its owner's population cap by its bonus; other kinds and unknown owners change nothing |
| Buildings.AdvanceConstruction | Assets/_Project/Scripts/Simulation/Systems/SimBuildingSystem.cs:33-61 | a constructed building reports completion unchanged; otherwise progress grows, health never passes the maximum nor falls, completion is reported exactly when progress reaches the maximum, and then progress is capped, health is full, the flag is set and the completion bonus applied |
| Buildings.BuildTicksExact | Assets/_Project/Scripts/Simulation/Systems/SimBuildingSystem.cs:33-61 | a building k ticks short of completion is completed by the k-th builder tick and not by the one before |
| Buildings.TenTicksToBuild | Assets/_Project/Scripts/Simulation/Systems/SimBuildingSystem.cs:33-61 | a fresh building takes exactly ten builder ticks |
| Buildings.StartTraining | Assets/_Project/Scripts/Simulation/Systems/SimBuildingSystem.cs:106-120 | a training building ignores the order; otherwise training starts exactly when the owner can pay, with the price spent and the timer at 0; a failed payment changes nothing |
| Buildings.StartTrainingIdempotent | Assets/_Project/Scripts/Simulation/Systems/SimBuildingSystem.cs:106-120 | a repeated order has no effect, so the price is paid at most once |
| Buildings.NewUnit | Assets/_Project/Scripts/Simulation/Systems/SimBuildingSystem.cs:179-192 | a spawned unit is idle with no path and full health of its type, with the soldier or worker damage |
| Buildings.SpawnUnit | Assets/_Project/Scripts/Simulation/Systems/SimBuildingSystem.cs:173-196 | without population space or a free neighbour nothing changes; otherwise exactly one unit with the next ID is appended on the first walkable neighbour, the cell records it and the owner's population grows by one |
| Buildings.SpawnKeepsIdsFresh | Assets/_Project/Scripts/Simulation/Systems/SimBuildingSystem.cs:173-196 | spawning keeps every ID below the counter, so the new ID is fresh |
| Buildings.UpdateProduction | Assets/_Project/Scripts/Simulation/Systems/SimBuildingSystem.cs:122-134 | an idle building is untouched; a training one advances its timer, and at the train time it spawns the unit, clears the flag and resets the timer |
| Buildings.ProductionYieldsOneUnit | Assets/_Project/Scripts/Simulation/Systems/SimBuildingSystem.cs:122-196 | a finished training cycle adds exactly one unit when the owner has room and a free neighbour, otherwise none |
| Buildings.UpdateResourceGeneration | Assets/_Project/Scripts/Simulation/Systems/SimBuildingSystem.cs:136-149 | a generator's timer advances; at the interval it restarts and the owner receives one cycle's amount; other buildings are untouched |
| Buildings.GeneratorCycleCredits | Assets/_Project/Scripts/Simulation/Systems/SimBuildingSystem.cs:71-149 | a completed cycle of an initialised generator credits exactly 15 of its own resource and nothing else |
| Buildings.FindNearestEnemy | Assets/_Project/Scripts/Simulation/Systems/SimBuildingSystem.cs:198-216 | none exactly when no living enemy is in range; otherwise a living enemy in range at the least squared distance |
| Buildings.ShootUnit | Assets/_Project/Scripts/Simulation/Systems/SimBuildingSystem.cs:157-168 | a survivor keeps its place with reduced health; a unit at zero health or below is removed and its cell freed, and no population count changes |
| Buildings.UpdateTowerCombat | Assets/_Project/Scripts/Simulation/Systems/SimBuildingSystem.cs:151-171 | only towers act; the timer advances, and at the attack speed the tower shoots the nearest enemy in range and resets, or clears its target and keeps the timer when none is in range |
| Buildings.TowerSparesOwnSide | Assets/_Project/Scripts/Simulation/Systems/SimBuildingSystem.cs:151-216 | a tower never removes a unit of its own side |
| Buildings.UpdateBuildingAt | Assets/_Project/Scripts/Simulation/Systems/SimBuildingSystem.cs:20-31 | one building's update changes only that building, keeps its identity, and leaves an unfinished one alone |
| Buildings.UpdateBuildingsFrom | Assets/_Project/Scripts/Simulation/Systems/SimBuildingSystem.cs:20-31 | the building loop keeps identities and leaves unfinished buildings unchanged |
| Buildings.UpdateAllBuildings | Assets/_Project/Scripts/Simulation/Systems/SimBuildingSystem.cs:20-31 | buildings are never added or removed, identities are kept and unfinished buildings are not updated |
| Units.FoundPathIsChained | Assets/_Project/Scripts/Simulation/Systems/SimGridSystem.cs:64-126 | a path the search hands to a unit is a chain of king's moves from its start that ends on the goal |
| Units.KillUnit | Assets/_Project/Scripts/Simulation/Systems/SimUnitSystem.cs:409-415 | the victim is marked dead and leaves the unit list, its cell loses its occupant, every other cell, building and resource is untouched, and only its owner's population drops by one, floored at zero |
| Units.DestroyBuilding | Assets/_Project/Scripts/Simulation/Systems/SimUnitSystem.cs:417-422 | the building leaves the world and its cell becomes walkable with no occupant; units, players and resources are untouched |
| Units.OrderMove | Assets/_Project/Scripts/Simulation/Systems/SimUnitSystem.cs:426-487 | the unit takes the searched path; with a non-empty one it moves and drops its target, ending on the goal; with none nothing but the path changes |
| Units.OrderNextTo | Assets/_Project/Scripts/Simulation/Systems/SimUnitSystem.cs:436-475 | fails, leaving the unit unchanged, exactly when no cell around the target is free; otherwise the unit targets the ID and walks to a free neighbour of the target, or starts its task on the spot |
| Units.OrderBuild | Assets/_Project/Scripts/Simulation/Systems/SimUnitSystem.cs:436-446 | with a free cell next to the building the worker targets it and moves or builds; without one it is unchanged |
| Units.TryAssignGatherTask | Assets/_Project/Scripts/Simulation/Systems/SimUnitSystem.cs:448-463 | false with the unit unchanged exactly when no neighbour of the node is free; on true the unit targets the node and moves or gathers, and only its path, target and task change |
| Units.OrderAttack | Assets/_Project/Scripts/Simulation/Systems/SimUnitSystem.cs:465-475 | with a free cell next to the building the unit targets it and moves or attacks; without one it is unchanged; only path, target and task change |
| Units.OrderAttackUnit | Assets/_Project/Scripts/Simulation/Systems/SimUnitSystem.cs:477-483 | the unit targets the enemy, takes the path to its cell, and moves, or attacks when the path is empty |
| Units.SearchTowards | Assets/_Project/Scripts/Simulation/Systems/SimUnitSystem.cs:223-234 | the search result is a walk from the unit that ends on the target, or for a building on a free neighbour of it |
| Units.MoveToTarget | Assets/_Project/Scripts/Simulation/Systems/SimUnitSystem.cs:214-255 | a waiting unit or one already on the target is unchanged; one with a path moves; one without searches and moves on success or idles with a retry delay in [0.5, 1.5) on failure; identity, position and target never change |
| Units.RetryBlocksForever | Assets/_Project/Scripts/Simulation/Systems/SimUnitSystem.cs:217-247 | once a search has failed the retry delay is positive and no later call of the routine changes the unit again |
| Units.Step | Assets/_Project/Scripts/Simulation/Systems/SimUnitSystem.cs:318-332 | progress below one is only accumulated; at one the unit steps onto the head of its path when that cell is free or its own, moving its occupancy, and otherwise drops the path; buildings, resources and players are untouched |
| Units.StepKeepsChain | Assets/_Project/Scripts/Simulation/Systems/SimUnitSystem.cs:318-332 | a step keeps the rest of the path a walk from the unit's new cell with the same end, moves at most one king's move, and never lengthens the path |
| Units.StepLands | Assets/_Project/Scripts/Simulation/Systems/SimUnitSystem.cs:321-329 | a step taken lands the unit on the head of its path with the tail still to walk and its progress reset |
| Units.ChainTail | Assets/_Project/Scripts/Simulation/Systems/SimUnitSystem.cs:329 | removing the first cell of a walk leaves a walk from that cell |
| Units.Arrive | Assets/_Project/Scripts/Simulation/Systems/SimUnitSystem.cs:259-315 | a unit without a target idles; a resource target starts gathering; attacking starts only against an enemy unit or building within attack range; building starts only on an own unfinished building within the 2.1 squared distance |
| Units.UpdateMovement | Assets/_Project/Scripts/Simulation/Systems/SimUnitSystem.cs:257-333 | without a path the unit takes its arrival task, with one it steps; buildings, resources, players, the roster and the map size are kept |
| Units.ClearCell | Assets/_Project/Scripts/Simulation/Systems/SimUnitSystem.cs:378-381 | the node's cell becomes walkable grass with no occupant and nothing else changes |
| Units.Harvest | Assets/_Project/Scripts/Simulation/Systems/SimUnitSystem.cs:367-384 | the owner is credited min(GATHER_AMOUNT, remaining) of the node's type; a node with more left keeps the rest and the map; an emptied node leaves the world, its cell is cleared and the gatherer idles |
| Units.HarvestPart | Assets/_Project/Scripts/Simulation/Systems/SimUnitSystem.cs:370-373 | a node with more than one harvest left loses exactly GATHER_AMOUNT, which the owner gains, and the map is unchanged |
| Units.HarvestLast | Assets/_Project/Scripts/Simulation/Systems/SimUnitSystem.cs:370-383 | the last harvest credits everything left, removes the node, clears its cell and idles the gatherer |
| Units.HarvestConserves | Assets/_Project/Scripts/Simulation/Systems/SimUnitSystem.cs:371-373 | what leaves the node arrives in the owner's stock of that type, so node plus stock is constant, and the node strictly shrinks |
| Units.UpdateGathering | Assets/_Project/Scripts/Simulation/Systems/SimUnitSystem.cs:335-385 | without its node the unit idles; away from it the unit re-orders itself and no stock, node or cell changes; next to it the timer runs and a harvest happens at GATHER_INTERVAL |
| Units.UpdateConstruction | Assets/_Project/Scripts/Simulation/Systems/SimUnitSystem.cs:387-407 | a missing or finished building idles the worker; at BUILD_INTERVAL the building advances by BUILD_AMOUNT_PER_TICK, the timer resets, and the worker idles once it completes; map and resources are untouched |
| Units.UpdateCombat | Assets/_Project/Scripts/Simulation/Systems/SimUnitSystem.cs:152-193 | a lost target idles the unit with no target; out of range the unit goes Idle and heads for the target; in range it waits for its attack speed and then resets its timer and strikes once |
| Units.UpdateUnit | Assets/_Project/Scripts/Simulation/Systems/SimUnitSystem.cs:137-149 | a missing, dead, idle or training unit leaves the world unchanged; moving and gathering keep buildings; moving and building keep resources |
| Population.KillKeepsAccounting | Assets/_Project/Scripts/Simulation/Systems/SimUnitSystem.cs:409-415 | when every player's population equals its unit count and unit IDs are distinct, a kill keeps both: the owner loses the unit and one population |
| Population.SpawnKeepsAccounting | Assets/_Project/Scripts/Simulation/Systems/SimBuildingSystem.cs:173-196 | a spawn keeps every player's population equal to its unit count: the owner gains the unit and one population, or nothing happens |
| Population.TowerKillLeaks | Assets/_Project/Scripts/Simulation/Systems/SimBuildingSystem.cs:163-167 | a tower kill removes the unit without touching its owner's population, leaving that population one above the unit count |
| Population.LedgerCarries | Assets/_Project/Scripts/Simulation/Systems/SimUnitSystem.cs:257-407 | any step that keeps the set of unit IDs with their owners and every player's population keeps the ledger |
| Population.PutUnitLedger | Assets/_Project/Scripts/Simulation/Systems/SimUnitSystem.cs:137-149 | writing a unit back under its own ID with its owner unchanged keeps the ledger |
| Population.StrikeLedger | Assets/_Project/Scripts/Simulation/Systems/SimUnitSystem.cs:175-185 | a blow from a unit keeps the ledger, whether it wounds, kills, damages a building or finds nothing |
| Population.StrikeKills | Assets/_Project/Scripts/Simulation/Systems/SimUnitSystem.cs:178-179 | a blow that brings a unit's health to zero or below is exactly that unit's kill |
| Population.StrikeWounds | Assets/_Project/Scripts/Simulation/Systems/SimUnitSystem.cs:178 | a blow that leaves health above zero only lowers the target's health by the damage |
| Population.CombatLedger | Assets/_Project/Scripts/Simulation/Systems/SimUnitSystem.cs:152-193 | every branch of the combat step keeps the ledger and unit-ID uniqueness |
| Population.UpdateUnitKeepsLedger | Assets/_Project/Scripts/Simulation/Systems/SimUnitSystem.cs:137-149 | every step of the unit machine keeps each player's population equal to its unit count and unit IDs distinct |
| Tick.Advance | Assets/_Project/Scripts/Simulation/DRL/SelfPlayTrainerRunner.cs:105-107 | a tick runs the building pass and then the unit pass, and the tick counter grows by exactly one |
| Tick.UpdateAllUnits | Assets/_Project/Scripts/Simulation/Systems/SimUnitSystem.cs:48-60 | the pass walks a snapshot of the unit IDs; on a world without units it changes nothing |
| Tick.UnitPassKeepsLedger | Assets/_Project/Scripts/Simulation/Systems/SimUnitSystem.cs:53-59 | walking the ID snapshot, skipping units killed earlier in the pass, keeps every player's population equal to its unit count and unit IDs distinct, whatever the draws |
| Tick.AllUnitsKeepLedger | Assets/_Project/Scripts/Simulation/Systems/SimUnitSystem.cs:48-60 | the whole unit pass keeps the population ledger and unit-ID uniqueness |
| Crew.GetAvailableWorker | Assets/_Project/Scripts/Simulation/AI/ParametricMacroAI.cs:187-193 | the first idle worker when there is one, else the first gathering worker, and none exactly when neither exists |
| Crew.FindNearestResource | Assets/_Project/Scripts/Simulation/AI/ParametricMacroAI.cs:352-363 | none exactly when no node is of the wanted type; otherwise a node of that type no farther, in squared distance, than any other such node |
| Crew.GatherTarget | Assets/_Project/Scripts/Simulation/AI/SimpleMacroAI.cs:199-210 | the nearest node of the wanted type when one exists, else the nearest node of any type, and none only on a map with no node |
| Crew.TypedImpliesAny | Assets/_Project/Scripts/Simulation/AI/SimpleMacroAI.cs:205 | a node of the wanted type is also accepted by the any-type search, so the fallback fails only on an empty map |
| Crew.OrderEach | Assets/_Project/Scripts/Simulation/AI/ParametricMacroAI.cs:269-288 | an order loop over a list, the unit at position k taking the order for k: only units change, units outside the list keep their records, orders that change nobody leave the world as it was, and with distinct IDs each listed unit stored as listed ends exactly as its order leaves it |
| Crew.OrderAll | Assets/_Project/Scripts/Simulation/AI/Bots/EliteCommanderAI.cs:426-429 | the same loop for an order that does not depend on the position: with distinct IDs each listed unit stored as listed ends as the order leaves it |
| Crew.FilterStored | Assets/_Project/Scripts/Simulation/AI/Bots/EliteCommanderAI.cs:426 | with unique IDs the units a filter selects have distinct IDs, and they are exactly the selected units of the world, each stored under its ID |
| Spots.Square | Assets/_Project/Scripts/Simulation/AI/SimpleMacroAI.cs:186-197 | the scan holds exactly the cells within Chebyshev distance r of the centre, in the order of the `for x`, `for y` loops: a smaller column first, and a smaller row within a column |
| Spots.Ring | Assets/_Project/Scripts/Simulation/AI/ParametricMacroAI.cs:319-324 | the ring test keeps exactly the cells at Chebyshev distance r, minus the gate corridor when one is asked for, in x-major loop order |
| Spots.Rings | Assets/_Project/Scripts/Simulation/AI/ParametricMacroAI.cs:317-330 | the rings from min to max radius hold exactly the cells whose Chebyshev distance lies in that range, inner rings first and x-major within a ring |
| Spots.FirstAccepted | Assets/_Project/Scripts/Simulation/AI/ParametricMacroAI.cs:326-331 | the scan returns an accepted cell of the list, and nothing exactly when no cell is accepted; every cell listed before the one returned was refused |
| Spots.FirstAcceptedConcat | Assets/_Project/Scripts/Simulation/AI/ParametricMacroAI.cs:317-330 | scanning one list after another finds the first list's cell when it has one, else the second's |
| Spots.FirstInScanOrder | Assets/_Project/Scripts/Simulation/AI/SimpleMacroAI.cs:188-194 | in an x-major scan every cell before the one found, in column-then-row order, was refused |
| Spots.FirstInRingOrder | Assets/_Project/Scripts/Simulation/AI/ParametricMacroAI.cs:317-331 | in a ring scan every cell on an inner ring, or before the one found on its ring, was refused |
| Spots.RingSearchInnermost | Assets/_Project/Scripts/Simulation/AI/ParametricMacroAI.cs:315-332 | a ring search succeeds when any scanned cell is accepted, and the cell it returns is no farther from the centre than any accepted cell |
| Spots.Placeholder | Assets/_Project/Scripts/Simulation/AI/ParametricMacroAI.cs:334-350 | the placeholder is an unfinished building of the player under the next ID with zero progress, appended to the buildings; its cell becomes unwalkable and occupied by it; units, players and resources are untouched |
| Spots.BuildAt | Assets/_Project/Scripts/Simulation/AI/SimpleMacroAI.cs:62-64 | the build order pays the price exactly when the player can afford it (no other player changes), appends one unfinished building of the kind owned by the player on the spot under the next ID with its cell blocked, and sends the worker to build it when a neighbouring cell is free; no other unit, resource or cell changes |
| Spots.PlacedStocks | Assets/_Project/Scripts/Simulation/AI/SimpleMacroAI.cs:62 | the spend leaves the player's stock paid exactly when affordable and every other player, the resources and the clock as they were |
| Spots.PlacedBuilding | Assets/_Project/Scripts/Simulation/AI/SimpleMacroAI.cs:63 | the placeholder is one unfinished building appended on the cell, which becomes blocked; no other cell changes |
| Spots.PlacedWorker | Assets/_Project/Scripts/Simulation/AI/SimpleMacroAI.cs:64 | only the worker changes, and it is sent to build when a neighbouring cell is free |
| Pace.Throttle | Assets/_Project/Scripts/Simulation/AI/SimpleMacroAI.cs:23-31 | a decision is due exactly when the clock plus the frame time reaches the interval; the clock then restarts at zero, else it accumulates and stays below the interval |
| Pace.DecisionsRationed | Assets/_Project/Scripts/Simulation/AI/SimpleMacroAI.cs:23-31 | over any run of non-negative frames, the decisions made times the interval never exceed the elapsed time plus the starting clock |
| Gsf.Threat | Assets/_Project/Scripts/Simulation/AI/SimGameStateAnalyzer.cs:47-51 | an enemy soldier is worth 200 closer than 15, 100 closer than 30, and 20 otherwise |
| Gsf.ThreatMonotone | Assets/_Project/Scripts/Simulation/AI/SimGameStateAnalyzer.cs:47-51 | a nearer soldier never threatens less |
| Gsf.EnemyThreat | Assets/_Project/Scripts/Simulation/AI/SimGameStateAnalyzer.cs:39-54 | the enemy attack power lies between 20 and 200 per enemy soldier and is zero without enemy soldiers |
| Gsf.CloseThreatIsMaximal | Assets/_Project/Scripts/Simulation/AI/SimGameStateAnalyzer.cs:49 | when every unit stands within 15 of the base, each enemy soldier counts the full 200 |
| Gsf.InactivityBonus | Assets/_Project/Scripts/Simulation/AI/SimGameStateAnalyzer.cs:70-75 | the bonus is half a point per second of inactivity beyond 60, capped at 150, and zero up to 60 |
| Gsf.BaseHealth | Assets/_Project/Scripts/Simulation/AI/SimGameStateAnalyzer.cs:40-61 | the health of the first matching base, and zero without one |
| Gsf.TotalResources | Assets/_Project/Scripts/Simulation/AI/SimGameStateAnalyzer.cs:33-34 | the player's combined stock, zero for a missing player |
| Gsf.BasePosition | Assets/_Project/Scripts/Simulation/AI/SimGameStateAnalyzer.cs:40-41 | the first own base's cell, or the map centre without a base |
| Gsf.CalculateGSF | Assets/_Project/Scripts/Simulation/AI/SimGameStateAnalyzer.cs:21-96 | ten per own soldier, fifty per finished tower plus a tenth of the base's health on each side, the threat sum, the inactivity bonus, a 1000 penalty while early and short of towers and a 1000 bonus once mature |
| Gsf.GsfMonotoneInInactivity | Assets/_Project/Scripts/Simulation/AI/SimGameStateAnalyzer.cs:70-75 | more inactivity never lowers the situation score |
| Parametric.DecodeGenes | Assets/_Project/Scripts/Simulation/AI/ParametricMacroAI.cs:53-68 | every decoded target lies in its clamp range, the ratios lie in [0, 1], the defence radius is five plus its gene, and the save threshold is at least 5 and at most 20 |
| Parametric.DecodeFaithful | Assets/_Project/Scripts/Simulation/AI/ParametricMacroAI.cs:53-68 | a gene within its range reads as its rounded value, and larger genes never decode to smaller targets |
| Parametric.NeededTowers | Assets/_Project/Scripts/Simulation/AI/ParametricMacroAI.cs:112 | the tower quota is the floor of the defence share of enemy soldiers plus ten: zero at ratio 0, all of them at ratio 1 |
| Parametric.QuotaMonotone | Assets/_Project/Scripts/Simulation/AI/ParametricMacroAI.cs:112-113 | more enemy soldiers never lower the quota, and no tower is attempted at fifteen towers or at the enemy's soldiers plus ten |
| Parametric.DefenceTarget | Assets/_Project/Scripts/Simulation/AI/ParametricMacroAI.cs:293-302 | no target without a base; otherwise a target exactly when a live enemy soldier stands strictly inside the radius, and it is one of least squared distance |
| Parametric.SendDefenders | Assets/_Project/Scripts/Simulation/AI/ParametricMacroAI.cs:305-309 | only the listed units change and their number is kept; when no soldier responds nothing changes; with distinct IDs each listed unit ends as `Parametric.Defend` leaves it |
| Parametric.Defend | Assets/_Project/Scripts/Simulation/AI/ParametricMacroAI.cs:305-309 | a soldier that is not attacking and not already after the intruder is sent after it along the path to its cell; any other unit is unchanged |
| Parametric.CheckBaseDefense | Assets/_Project/Scripts/Simulation/AI/ParametricMacroAI.cs:291-313 | true exactly when a base exists and an intruder is inside the radius; false leaves the world unchanged; on true the player's units take the alarm against the nearest intruder, units of other players keep their records, and with unique IDs each unit of the player ends as `Parametric.Defend` leaves it |
| Parametric.GatherType | Assets/_Project/Scripts/Simulation/AI/ParametricMacroAI.cs:272-283 | meat below a worker's price, then wood below a house's, then stone below a tower's; with all three met, a quarter of draws go to stone, the eco-bias share of the rest to meat, the remainder to wood |
| Parametric.MeatShareGrowsWithBias | Assets/_Project/Scripts/Simulation/AI/ParametricMacroAI.cs:281 | a stronger eco bias never turns a meat draw into another type |
| Parametric.AssignGather | Assets/_Project/Scripts/Simulation/AI/ParametricMacroAI.cs:269-288 | only the listed workers change; with distinct IDs the worker at position k ends as `Parametric.GatherOne` leaves it for the k-th draw |
| Parametric.GatherOne | Assets/_Project/Scripts/Simulation/AI/ParametricMacroAI.cs:271-287 | on a map with nodes the worker is sent to a node of the drawn type, or any node, and targets it when a cell next to it is free; otherwise it is unchanged |
| Parametric.ManageWorkers | Assets/_Project/Scripts/Simulation/AI/ParametricMacroAI.cs:261-289 | nothing happens on a map without resource nodes; only the player's idle workers change, and with unique IDs the i-th of them ends as `Parametric.GatherOne` leaves it for the i-th draw |
| Parametric.FindBuildSpot | Assets/_Project/Scripts/Simulation/AI/ParametricMacroAI.cs:315-332 | none exactly when no cell on the rings is walkable; otherwise a walkable cell on them, and every cell on an inner ring, or before it on its own ring, is blocked |
| Parametric.FindBuildSpotInnermost | Assets/_Project/Scripts/Simulation/AI/ParametricMacroAI.cs:317-330 | no walkable cell lies on a ring inside the one the search returns |
| Parametric.PlaceAt | Assets/_Project/Scripts/Simulation/AI/ParametricMacroAI.cs:247-255 | a building is placed exactly when a spot was found; then the price is paid and an unfinished building of the kind is appended there |
| Parametric.InnerRadius | Assets/_Project/Scripts/Simulation/AI/ParametricMacroAI.cs:243-245 | the inner search radius is three plus two per five own buildings |
| Parametric.TryBuildBuilding | Assets/_Project/Scripts/Simulation/AI/ParametricMacroAI.cs:234-258 | on failure nothing changes; success needs the price and a worker, pays exactly the price and appends an unfinished building on a walkable cell within the search rings; with price, worker and a free cell on the rings it succeeds |
| Parametric.TryBuildDefensiveStructure | Assets/_Project/Scripts/Simulation/AI/ParametricMacroAI.cs:195-232 | on failure nothing changes; success needs the tower's price, a worker and a base, pays the price and appends a tower on rings 1 to 6 around the base or its forward-shifted centre |
| Specialized.Update | Assets/_Project/Scripts/Simulation/AI/SpecializedMacroAI.cs:52-63 | nothing happens until a quarter second has accumulated; then the clock restarts and the static behaviour runs without genes, the parametric one with them |
| Specialized.StrategicMetrics | Assets/_Project/Scripts/Simulation/AI/SpecializedMacroAI.cs:66-83 | ten per soldier on each side, and the factor is own attack plus defence minus the enemy's |
| Specialized.MetricsAgainstAnalyzer | Assets/_Project/Scripts/Simulation/AI/SpecializedMacroAI.cs:66-83 | the commander's metrics agree with the situation analyzer on own attack and both defences, rate enemy soldiers at most half as high, so its factor is never below the analyzer's before bonuses |
| Specialized.DecodeGenes | Assets/_Project/Scripts/Simulation/AI/SpecializedMacroAI.cs:454-468 | every decoded target lies in its clamp range, the ratios lie in [0, 1], and the three priorities are the raw genes |
| Specialized.DecodeFaithful | Assets/_Project/Scripts/Simulation/AI/SpecializedMacroAI.cs:454-465 | inside the clamp ranges a gene reads as its scaled, rounded value, and a larger gene never decodes to a smaller target |
| Specialized.Insert | Assets/_Project/Scripts/Simulation/AI/SpecializedMacroAI.cs:553-554 | insertion keeps the list in stable descending order and adds exactly the new element |
| Specialized.TaskOrder | Assets/_Project/Scripts/Simulation/AI/SpecializedMacroAI.cs:553-554 | the sorted blocks are a permutation of economy, military and defence, ordered by descending score with ties in list order |
| Specialized.TaskOrderTies | Assets/_Project/Scripts/Simulation/AI/SpecializedMacroAI.cs:553-554 | equal priorities keep the list order, and a strictly highest or a leading economy priority runs first |
| Specialized.RunTasks | Assets/_Project/Scripts/Simulation/AI/SpecializedMacroAI.cs:556-560 | blocks run in sorted order, none before the last asked to block, and the loop stops only after a block asks to or at the end |
| Specialized.EcoChoice | Assets/_Project/Scripts/Simulation/AI/SpecializedMacroAI.cs:666-680 | none exactly when every type has reached its target; otherwise a type below target with the fewest buildings, ties going Farm, WoodCutter, StonePit |
| Specialized.DefaultGatherType | Assets/_Project/Scripts/Simulation/AI/SpecializedMacroAI.cs:583-592 | meat below 60 first; otherwise the least stocked of wood, meat and stone, ties in that order |
| Specialized.IdealSpot | Assets/_Project/Scripts/Simulation/AI/SpecializedMacroAI.cs:757-797 | a first-stage pick is an ideal cell of the scanned rings: valid, away from every cell to avoid, and not crowding a building |
| Specialized.FindBuildSpot | Assets/_Project/Scripts/Simulation/AI/SpecializedMacroAI.cs:751-822 | none exactly when no valid cell lies on the rings up to five beyond the maximum; otherwise a valid cell on them, never in the gate corridor |
| Specialized.BuildWorker | Assets/_Project/Scripts/Simulation/AI/SpecializedMacroAI.cs:696-701 | the only unit of a one-unit list, else the available worker |
| Specialized.Radii | Assets/_Project/Scripts/Simulation/AI/SpecializedMacroAI.cs:705-723 | a strict radius and four more; 6 to 14 for towers; otherwise four plus two per five own buildings, ten rings wide |
| Specialized.AvoidList | Assets/_Project/Scripts/Simulation/AI/SpecializedMacroAI.cs:725-733 | empty except for a barracks, which avoids exactly the enemy towers' cells |
| Specialized.TryBuildBuilding | Assets/_Project/Scripts/Simulation/AI/SpecializedMacroAI.cs:692-746 | succeeds exactly when the price is affordable, a worker exists and the search finds a spot; then exactly the price is paid and an unfinished building is appended on a valid cell; otherwise nothing changes |
| Specialized.EcoBuild | Assets/_Project/Scripts/Simulation/AI/SpecializedMacroAI.cs:666-682 | no attempt when every economy type has reached its target; a success pays the chosen type's price and appends that type |
| Specialized.TowerCentre | Assets/_Project/Scripts/Simulation/AI/SpecializedMacroAI.cs:536-542 | the own base, or halfway to the enemy base (halved toward zero) when the bias is above one half and an enemy base exists |
| Specialized.NeededTowers | Assets/_Project/Scripts/Simulation/AI/SpecializedMacroAI.cs:530-531 | seven when the defence priority is above 30, else one plus at most every soldier |
| SimpleAI.OncePerSecond | Assets/_Project/Scripts/Simulation/AI/SimpleMacroAI.cs:13-14 | over any run of non-negative frame times, the simple AI decides at most once per second of accumulated time |
| SimpleAI.Latch | Assets/_Project/Scripts/Simulation/AI/SimpleMacroAI.cs:71-73 | after a decision the attack latch is set exactly when there are at least five soldiers, or it was set and no barracks exists |
| SimpleAI.LatchRun | Assets/_Project/Scripts/Simulation/AI/SimpleMacroAI.cs:86-91 | a run of decisions whose last one sees five or more soldiers ends attacking |
| SimpleAI.LatchHoldsWithoutBarracks | Assets/_Project/Scripts/Simulation/AI/SimpleMacroAI.cs:71-73 | once attacking, the latch stays set through any run of decisions that see no barracks, whatever the soldier counts |
| SimpleAI.PlanType | Assets/_Project/Scripts/Simulation/AI/SimpleMacroAI.cs:106-124 | meat under five workers; without a barracks wood exactly while wood is under the barracks price, else stone; with one meat exactly while meat is under a soldier's price, else wood |
| SimpleAI.Steer | Assets/_Project/Scripts/Simulation/AI/SimpleMacroAI.cs:101-133 | only the listed workers change and none is added or removed; when every worker is busy or settled the world is unchanged; with distinct IDs each listed worker ends as `SimpleAI.SteerOne` leaves it |
| SimpleAI.SteerOne | Assets/_Project/Scripts/Simulation/AI/SimpleMacroAI.cs:103-132 | a busy or settled worker is unchanged; any other gets the gather order for the nearest node of the planned type, else any node, and then targets that new node unless no cell next to it is free |
| SimpleAI.ManageWorkersSmart | Assets/_Project/Scripts/Simulation/AI/SimpleMacroAI.cs:97-134 | only the player's workers can change; with unique IDs each of them ends as `SimpleAI.SteerOne` leaves it for the type the plan reads from the worker count and the stock |
| SimpleAI.FindBuildSpot | Assets/_Project/Scripts/Simulation/AI/SimpleMacroAI.cs:186-197 | no spot exactly when every cell of the 9x9 square around the centre is blocked; a found spot is walkable, inside that square, and every cell before it in the x-major scan is blocked |
| SimpleAI.BarracksStepAsWritten | Assets/_Project/Scripts/Simulation/AI/SimpleMacroAI.cs:52-68 | the step as written fails exactly when it wants a barracks (five workers, none built, price stocked, a worker) and the player has no base |
| SimpleAI.BarracksStep | Assets/_Project/Scripts/Simulation/AI/SimpleMacroAI.cs:52-68 | a barracks is placed exactly when it is wanted, a base exists and its square has a walkable cell; then exactly its price is paid, one unfinished barracks is appended on the first walkable cell within four cells of the base, and the first worker is sent to build it; otherwise nothing changes |
| SimpleAI.BarracksStepFixed | Assets/_Project/Scripts/Simulation/AI/SimpleMacroAI.cs:45-68 | with a base the two versions agree; without one the version as written fails where the corrected one declines |
| SimpleAI.IsReachable | Assets/_Project/Scripts/Simulation/AI/SimpleMacroAI.cs:164-171 | reachable exactly when the target has a free neighbour to stand on and the soldier stands there or the path search returns a path to it; never from outside the map |
| SimpleAI.NextToStandIsReachable | Assets/_Project/Scripts/Simulation/AI/SimpleMacroAI.cs:164-171 | a soldier in the map one step from the cell it would stand on reaches the target |
| SimpleAI.FindClosestEnemyBuilding | Assets/_Project/Scripts/Simulation/AI/SimpleMacroAI.cs:173-184 | none exactly when no enemy building exists; otherwise an enemy building no farther than any other, and strictly nearer than every enemy building listed before it |
| SimpleAI.SoldierOrder | Assets/_Project/Scripts/Simulation/AI/SimpleMacroAI.cs:143-158 | an engaged soldier is left alone; a reachable target is attacked; otherwise the closest enemy building is attacked when it has a free neighbour and nothing changes when it has none; every change is an attack order on an enemy building |
| SimpleAI.OrderSoldiers | Assets/_Project/Scripts/Simulation/AI/SimpleMacroAI.cs:143-159 | only listed soldiers change, none is added or removed, and with distinct IDs each ends as its own order sends it |
| Crew.FilterDistinct | Assets/_Project/Scripts/Simulation/AI/SimpleMacroAI.cs:143 | filtering a list with distinct IDs keeps them distinct |
| SimpleAI.AttackWithAllSoldiers | Assets/_Project/Scripts/Simulation/AI/SimpleMacroAI.cs:136-160 | only the player's soldiers change; with no enemy building nothing changes; otherwise, with unique IDs, each soldier ends exactly as its order against the first enemy base (else first enemy building) sends it |
| Bots.Decide | Assets/_Project/Scripts/Simulation/AI/Bots/RusherAI.cs:23-29 | a decision is made exactly when the accumulated time reaches the interval and the bot's player is present; reaching the interval resets the clock to zero, otherwise the frame time is added |
| Bots.FirstShortfall | Assets/_Project/Scripts/Simulation/AI/Bots/RusherAI.cs:139-143 | none exactly when every resource of the order is stocked to its part of the price; otherwise the earliest short resource of the order |
| Bots.ShortfallOfThree | Assets/_Project/Scripts/Simulation/AI/Bots/RusherAI.cs:139-143 | with a three-entry order (meat, wood, stone here) the first short entry is chosen, in order, and none when all three are stocked |
| Bots.GatherNode | Assets/_Project/Scripts/Simulation/AI/Bots/RusherAI.cs:155-170 | a found node belongs to the world and has something left; when some node of the type has something left the node is of that type; none exactly when neither the type nor the fallback type has a non-empty node |
| Bots.SendToGather | Assets/_Project/Scripts/Simulation/AI/Bots/RusherAI.cs:145-150 | only the listed workers change and none is added or removed; with no node for any worker the world is unchanged; with distinct IDs the worker at position k ends as `Bots.GatherOrder` leaves it for type pick(k) |
| Bots.GatherOrder | Assets/_Project/Scripts/Simulation/AI/Bots/RusherAI.cs:148-149 | no node with something left means no change; otherwise the worker targets the node and moves or gathers when a cell next to it is free, and is unchanged when none is |
| Bots.GatherFor | Assets/_Project/Scripts/Simulation/AI/Bots/RusherAI.cs:136-151 | only the player's idle workers can change; with no player or nothing short of the price the world is unchanged; otherwise, with unique IDs, each idle worker of the player ends as `Bots.GatherOrder` leaves it for the first short type |
| Bots.GatherAllIdle | Assets/_Project/Scripts/Simulation/AI/Bots/RusherAI.cs:145-150 | sending every idle worker of the player to one resource type: with unique IDs each idle worker of the player ends as `Bots.GatherOrder` leaves it for that type |
| Bots.Shifted | Assets/_Project/Scripts/Simulation/AI/Bots/RusherAI.cs:178-179 | the tried cells are the base plus each random offset, one per offset |
| Bots.PlaceFirst | Assets/_Project/Scripts/Simulation/AI/Bots/RusherAI.cs:176-192 | the first accepted try is taken and no earlier try was accepted; no spot exactly when no try is accepted, and then the world is unchanged; a spot gets the build order: paid when affordable, the unfinished building appended there and the worker sent to build it |
| Bots.PlaceAround | Assets/_Project/Scripts/Simulation/AI/Bots/RusherAI.cs:172-193 | no spot without a base; a spot is an accepted cell at the base plus one of the offsets, no earlier offset accepted, and gets the build order; with a base and no spot, every such cell was refused and nothing changes |
| Bots.PlacedNearBase | Assets/_Project/Scripts/Simulation/AI/Bots/RusherAI.cs:176-179 | with offsets drawn in [-r, r] on each axis, a placed cell lies within r cells of the base |
| Bots.IdleWorker | Assets/_Project/Scripts/Simulation/AI/Bots/RusherAI.cs:153 | none exactly when the player has no idle worker; otherwise the first one listed, with its ID found by lookup |
| Bots.BaseOf | Assets/_Project/Scripts/Simulation/AI/Bots/RusherAI.cs:37 | a found base is the player's own building of type Base; none exactly when the player has no base |
| Bots.Centre | Assets/_Project/Scripts/Simulation/AI/Bots/EcoBoomAI.cs:154 | the map centre, halved toward zero, lies on the map |
| Bots.BuildingTarget | Assets/_Project/Scripts/Simulation/AI/Bots/RusherAI.cs:129-130 | a found target is an enemy building; none exactly when no enemy building exists; an enemy base is preferred whenever one exists |
| Bots.AttackTarget | Assets/_Project/Scripts/Simulation/AI/Bots/RusherAI.cs:126-132 | an enemy unit exactly when one exists; otherwise an enemy building, a base when one exists; no target exactly when the enemy has neither |
| Bots.Attack | Assets/_Project/Scripts/Simulation/AI/Bots/RusherAI.cs:127-132 | a unit target is chased along the path to its cell and becomes the soldier's target; a building target with a free neighbour becomes the target and the soldier moves or attacks, and without a free neighbour the soldier is unchanged; without a target nothing happens; only path, target and task change |
| Bots.AttackAll | Assets/_Project/Scripts/Simulation/AI/Bots/RusherAI.cs:127-132 | only the listed soldiers change, none is added or removed, and with no target nothing changes; with distinct IDs each listed soldier ends as `Bots.Attack` leaves it |
| Bots.MarchAll | Assets/_Project/Scripts/Simulation/AI/Bots/EliteCommanderAI.cs:276-281 | only the listed units change; with distinct IDs each ends as the move order to the cell leaves it |
| EcoBoom.FourPerSecond | Assets/_Project/Scripts/Simulation/AI/Bots/EcoBoomAI.cs:33-35 | over any run of non-negative frame times, at most four decisions per second of accumulated time |
| EcoBoom.WarLatch | Assets/_Project/Scripts/Simulation/AI/Bots/EcoBoomAI.cs:43-50 | once set the war latch stays set; when clear it is set exactly at fifteen workers with more than 2500 wood or meat |
| EcoBoom.WarNeverClears | Assets/_Project/Scripts/Simulation/AI/Bots/EcoBoomAI.cs:22-50 | over any run of decisions the latch is never cleared, and it is set after any decision that saw fifteen workers and a stock above 2500 |
| EcoBoom.StageOf | Assets/_Project/Scripts/Simulation/AI/Bots/EcoBoomAI.cs:52-89 | the five branches of a decision in priority order (house at the cap, war, worker, tower, expansion), each exactly under its condition |
| EcoBoom.CheckDefenseNeeds | Assets/_Project/Scripts/Simulation/AI/Bots/EcoBoomAI.cs:162-170 | a tower is wanted exactly when one more tower is still within one per nine economy buildings |
| EcoBoom.NoTowerBelowNine | Assets/_Project/Scripts/Simulation/AI/Bots/EcoBoomAI.cs:164-169 | under nine economy buildings no tower is wanted |
| EcoBoom.Expansion | Assets/_Project/Scripts/Simulation/AI/Bots/EcoBoomAI.cs:172-185 | Farm exactly when farms are fewest (ties included); a StonePit only when pits are strictly fewest; a WoodCutter only when cutters are strictly fewer than farms and no more than pits; the chosen type always has the least count |
| EcoBoom.TryBuildBuilding | Assets/_Project/Scripts/Simulation/AI/Bots/EcoBoomAI.cs:194-243 | success without spending exactly when one of that type is unfinished; a placement needs the price, an idle worker and a base, lies on neither a multiple-of-three row nor column, is in bounds and flagged walkable, is no nearer the enemy base than its own, lies within 12 cells of the base, pays exactly the price, appends the unfinished building there and sends the first idle worker to build it; with the price, a worker and a base but no placement, every try broke a rule and nothing changes |
| EcoBoom.Deficits | Assets/_Project/Scripts/Simulation/AI/Bots/EcoBoomAI.cs:248-252 | the deficits are max(0, price - stock) per resource, or (1, 1, 1) when nothing is missing, so their sum is positive |
| EcoBoom.Pick | Assets/_Project/Scripts/Simulation/AI/Bots/EcoBoomAI.cs:258-264 | a draw picks wood, stone or meat |
| EcoBoom.ZeroDeficitNeverPicked | Assets/_Project/Scripts/Simulation/AI/Bots/EcoBoomAI.cs:259-264 | for a draw in [0, 1) a resource with no deficit is never picked |
| EcoBoom.AssignSmartGatherTasks | Assets/_Project/Scripts/Simulation/AI/Bots/EcoBoomAI.cs:245-271 | only the player's idle workers can change; without the player nothing changes; with unique IDs the k-th idle worker ends as `Bots.GatherOrder` leaves it for the type its k-th draw picks, wood as fallback |
| EcoBoom.PerformAttack | Assets/_Project/Scripts/Simulation/AI/Bots/EcoBoomAI.cs:139-156 | only the player's idle soldiers can change; with unique IDs each ends as the move order to the map centre leaves it when no enemy is left, and as `Bots.Attack` on the common target leaves it otherwise |
| Turtle.TwicePerSecond | Assets/_Project/Scripts/Simulation/AI/Bots/TurtleAI.cs:27-31 | over any run of non-negative frame times, at most two decisions per second of accumulated time |
| Turtle.NothingWithoutPlayer | Assets/_Project/Scripts/Simulation/AI/Bots/TurtleAI.cs:29-33 | without its player no decision is made, though the clock still resets at the interval |
| Turtle.GatherType | Assets/_Project/Scripts/Simulation/AI/Bots/TurtleAI.cs:217-222 | stone exactly when stone is short; wood exactly when stone is stocked and wood is short; meat exactly when both are stocked and meat is short; none exactly when nothing is short |
| Turtle.AssignGatherTasks | Assets/_Project/Scripts/Simulation/AI/Bots/TurtleAI.cs:214-230 | only the player's idle workers can change; with no shortfall nothing changes; otherwise, with unique IDs, each idle worker ends as `Bots.GatherOrder` leaves it for the first short type in stone, wood, meat order |
| Turtle.StructureCost | Assets/_Project/Scripts/Simulation/AI/Bots/TurtleAI.cs:247-253 | a house costs its full price, a barracks its wood and stone, a farm only its meat; types outside the list are free |
| Turtle.TryBuildDefensiveStructure | Assets/_Project/Scripts/Simulation/AI/Bots/TurtleAI.cs:232-261 | a placed cell needs a base, is in bounds and flagged walkable and lies within the type's reach of the base; it gets the build order (the structure's price paid when affordable, the building appended, the worker sent); without a placement every try was refused and nothing changes |
| Turtle.BuildWithIdle | Assets/_Project/Scripts/Simulation/AI/Bots/TurtleAI.cs:128-131 | with an idle worker, either nothing changes or the first idle worker builds one of the type; with a base and a flag-walkable try it always builds |
| Turtle.BuiltOneStarts | Assets/_Project/Scripts/Simulation/AI/Bots/TurtleAI.cs:255-257 | a build order keeps the buildings before it, appends one unfinished building of the type for the player, keeps the resources, and pays the player exactly when affordable |
| Turtle.CheckPopulationCap | Assets/_Project/Scripts/Simulation/AI/Bots/TurtleAI.cs:111-144 | true exactly at the cap with a house unfinished, the house unaffordable, or an idle worker; when false, or below the cap, or with a house unfinished, nothing changes; an unaffordable house changes only units; otherwise the first idle worker builds a house or nothing changes, and the stock changes only by the house price |
| Turtle.EconomyTry | Assets/_Project/Scripts/Simulation/AI/Bots/TurtleAI.cs:167-183 | reports a start exactly when the price is affordable and an idle worker exists; without a start only units change; a start is one build order by the first idle worker, or nothing when no try is free, so at most one unfinished building of the type is appended and the stock changes only by the structure's price |
| Turtle.EconomyStep | Assets/_Project/Scripts/Simulation/AI/Bots/TurtleAI.cs:149-152 | a start only when the building is wanted (few nodes left or none owned, and fewer than two owned); without a start only units change; a start is at most one build order of the type paid at its price |
| Turtle.EconomyWalk | Assets/_Project/Scripts/Simulation/AI/Bots/TurtleAI.cs:147-165 | a started type is one of those tried and fewer than two of it are owned, and at most one unfinished building of it is appended; without a start only units change |
| Turtle.EnsureInfiniteResources | Assets/_Project/Scripts/Simulation/AI/Bots/TurtleAI.cs:147-165 | at most one economy building is started, never of a type with two already owned; it is appended unfinished and the stock pays at most that one price; without a start only units change |
| Turtle.BarracksStep | Assets/_Project/Scripts/Simulation/AI/Bots/TurtleAI.cs:74-86 | the world changes only with two constructed towers and no barracks; an unaffordable barracks changes only units; an affordable one is built by the first idle worker or nothing changes; the stock changes only by the barracks price |
| Turtle.FindEnemyNearBase | Assets/_Project/Scripts/Simulation/AI/Bots/TurtleAI.cs:282-297 | a found unit is an enemy within 12 cells of the base; none exactly when there is no base or no such unit |
| Turtle.CombatTarget | Assets/_Project/Scripts/Simulation/AI/Bots/TurtleAI.cs:185-212 | a threat near the base comes first; otherwise no target under eight idle soldiers, else the first enemy unit, else an enemy building |
| Turtle.HandleTurtleCombat | Assets/_Project/Scripts/Simulation/AI/Bots/TurtleAI.cs:185-212 | only the player's idle soldiers can change; with no threat and under eight idle soldiers nothing changes; with unique IDs each idle soldier ends as `Bots.Attack` on `Turtle.CombatTarget` leaves it |
| Rusher.TwicePerSecond | Assets/_Project/Scripts/Simulation/AI/Bots/RusherAI.cs:23-27 | over any run of non-negative frame times, at most two decisions per second of accumulated time |
| Rusher.GatherType | Assets/_Project/Scripts/Simulation/AI/Bots/RusherAI.cs:139-143 | meat exactly when meat is short; wood exactly when meat is stocked and wood is short; stone exactly when both are stocked and stone is short; none exactly when nothing is short |
| Rusher.AssignGatherTasks | Assets/_Project/Scripts/Simulation/AI/Bots/RusherAI.cs:136-151 | only the player's idle workers can change; with no shortfall nothing changes; otherwise, with unique IDs, each idle worker ends as `Bots.GatherOrder` leaves it for the first short type in meat, wood, stone order |
| Rusher.BuildCost | Assets/_Project/Scripts/Simulation/AI/Bots/RusherAI.cs:182-185 | a barracks costs its wood and stone, a wood cutter its wood, a house its full price, anything else nothing |
| Rusher.TryBuildBuilding | Assets/_Project/Scripts/Simulation/AI/Bots/RusherAI.cs:172-193 | a placed cell needs a base, is in bounds and flagged walkable and lies within six cells of the base, and gets the build order (price paid when affordable, building appended, worker sent); with a base and no placement every try was refused and nothing changes |
| Rusher.BuildIfReady | Assets/_Project/Scripts/Simulation/AI/Bots/RusherAI.cs:54-58 | the world changes only when the test price is affordable and an idle worker exists, and then only by one build order of the first idle worker; with a base and a flag-walkable try that order always happens |
| Rusher.CheckPopulationCap | Assets/_Project/Scripts/Simulation/AI/Bots/RusherAI.cs:80-104 | the decision stops exactly at the cap with no house unfinished, the house affordable and an idle worker, and then one house is built or nothing changes; below the cap or with a house under way nothing changes; an unaffordable house only sends the workers gathering for it |
| Rusher.CheckResourceStarvation | Assets/_Project/Scripts/Simulation/AI/Bots/RusherAI.cs:106-119 | the world changes only with fewer than five live wood nodes, no wood cutter and the cutter's price stocked, and then by one wood cutter built by the first idle worker |
| Rusher.HandleCombat | Assets/_Project/Scripts/Simulation/AI/Bots/RusherAI.cs:121-134 | only the player's idle soldiers can change; under three idle soldiers, or with no enemy left, nothing changes; otherwise, with unique IDs, each idle soldier ends as `Bots.Attack` on the common target leaves it |
| Rusher.BranchOf | Assets/_Project/Scripts/Simulation/AI/Bots/RusherAI.cs:33-76 | the branches of a decision in order (population, workers, first barracks, army), each exactly under its condition, and waiting while the barracks is unfinished |
| Rusher.BranchesRetire | Assets/_Project/Scripts/Simulation/AI/Bots/RusherAI.cs:42-52 | at four workers the worker branch is never taken, and with a barracks the barracks branch is never taken |
| Harasser.FivePerSecond | Assets/_Project/Scripts/Simulation/AI/Bots/HarasserAI.cs:23-27 | over any run of non-negative frame times, at most five decisions per second of accumulated time |
| Harasser.GatherType | Assets/_Project/Scripts/Simulation/AI/Bots/HarasserAI.cs:209-213 | wood exactly when wood is short; stone exactly when wood is stocked and stone is short; meat exactly when both are stocked and meat is short; none exactly when nothing is short |
| Harasser.AssignGatherTasks | Assets/_Project/Scripts/Simulation/AI/Bots/HarasserAI.cs:206-221 | only the player's idle workers can change; with no shortfall nothing changes; otherwise, with unique IDs, each idle worker ends as `Bots.GatherOrder` leaves it for the first short type in wood, stone, meat order |
| Harasser.BuildCost | Assets/_Project/Scripts/Simulation/AI/Bots/HarasserAI.cs:249-251 | a barracks costs its wood and stone, a house its full price, anything else nothing |
| Harasser.BuildNearBase | Assets/_Project/Scripts/Simulation/AI/Bots/HarasserAI.cs:239-259 | a placed cell needs a base, is in bounds and flagged walkable and lies within six cells of the base, and gets the build order (price paid when affordable, building appended, worker sent); without a placement every try was refused and nothing changes |
| Harasser.CheckPopulation | Assets/_Project/Scripts/Simulation/AI/Bots/HarasserAI.cs:187-204 | the decision stops exactly at the cap with no house unfinished and the house affordable; then one house is built by the first idle worker or nothing changes; an unaffordable house only sends the workers gathering; otherwise nothing changes |
| Harasser.ProductionOf | Assets/_Project/Scripts/Simulation/AI/Bots/HarasserAI.cs:42-84 | a worker while under five and the base idles; else a first barracks when none exists, nothing while only unfinished ones exist, soldiers when the first finished barracks idles, nothing while it trains |
| Harasser.UnitSpots | Assets/_Project/Scripts/Simulation/AI/Bots/HarasserAI.cs:116-120 | the positions of the listed units, in order |
| Harasser.BuildingSpots | Assets/_Project/Scripts/Simulation/AI/Bots/HarasserAI.cs:121-125 | the positions of the listed buildings, in order |
| Harasser.ThreatSpots | Assets/_Project/Scripts/Simulation/AI/Bots/HarasserAI.cs:93-94 | every enemy soldier's and every enemy tower's cell is listed, and every listed cell holds one |
| Harasser.NearestThreat | Assets/_Project/Scripts/Simulation/AI/Bots/HarasserAI.cs:113-125 | none exactly when there is no threat; otherwise a listed cell at the least squared distance |
| Harasser.RetreatsExactly | Assets/_Project/Scripts/Simulation/AI/Bots/HarasserAI.cs:113-132 | a soldier retreats exactly when some threat is within squared distance 25 and it is under half health or the squad has fewer than three |
| Harasser.RunAxis | Assets/_Project/Scripts/Simulation/AI/Bots/HarasserAI.cs:174-178 | on the map, an axis moves at most five cells, stays on the map, and never towards the threat |
| Harasser.RunTarget | Assets/_Project/Scripts/Simulation/AI/Bots/HarasserAI.cs:172-178 | from a cell on the map the run target is on the map and within five cells on each axis |
| Harasser.AwayAxis | Assets/_Project/Scripts/Simulation/AI/Bots/HarasserAI.cs:174-175 | a step in the direction away from a point does not reduce the squared offset on that axis |
| Harasser.RunTargetIsAway | Assets/_Project/Scripts/Simulation/AI/Bots/HarasserAI.cs:172-178 | the run target is never closer to the threat than the soldier |
| Harasser.RunAway | Assets/_Project/Scripts/Simulation/AI/Bots/HarasserAI.cs:172-184 | an unwalkable run target leaves the soldier as it is; a walkable one with a path sends it moving to that cell; identity, position and health are kept |
| Harasser.PreyOf | Assets/_Project/Scripts/Simulation/AI/Bots/HarasserAI.cs:96-107 | the worker list holds exactly the enemy workers, the economy list exactly the enemy farms, wood cutters and stone pits, and a base is an enemy base |
| Harasser.AimOf | Assets/_Project/Scripts/Simulation/AI/Bots/HarasserAI.cs:141-161 | the closest enemy worker when any; else the closest enemy economy building; else the enemy base; else no target |
| Harasser.Engage | Assets/_Project/Scripts/Simulation/AI/Bots/HarasserAI.cs:138-167 | a soldier that is not idle, moving or attacking is left alone, and so is one already on its target; with no target only an idle soldier moves; a new unit target becomes its target |
| Harasser.HarassOne | Assets/_Project/Scripts/Simulation/AI/Bots/HarasserAI.cs:109-169 | a soldier runs from the nearest threat exactly when it retreats, otherwise it engages its aim |
| Harasser.RetreatDropsNoTarget | Assets/_Project/Scripts/Simulation/AI/Bots/HarasserAI.cs:128-132 | a retreating soldier keeps its target or drops it, and never takes a new one |
| Harasser.HarassAll | Assets/_Project/Scripts/Simulation/AI/Bots/HarasserAI.cs:109-169 | only the listed soldiers can change; with distinct IDs each ends as its `Harasser.HarassOne` turn leaves it |
| Harasser.ManageHarassMicro | Assets/_Project/Scripts/Simulation/AI/Bots/HarasserAI.cs:86-170 | only the player's soldiers can change; with unique IDs each ends as its `Harasser.HarassOne` turn leaves it, with the threats, the prey and the squad size read once before the pass |
| WorkerRush.TwicePerSecond | Assets/_Project/Scripts/Simulation/AI/Bots/WorkerRushAI.cs:23-25 | over any run of non-negative frame times, at most two decisions per second of accumulated time |
| WorkerRush.InsertById | Assets/_Project/Scripts/Simulation/AI/Bots/WorkerRushAI.cs:54-57 | inserting into an ID-sorted list keeps it sorted and adds exactly the one worker |
| WorkerRush.SortById | Assets/_Project/Scripts/Simulation/AI/Bots/WorkerRushAI.cs:54-57 | the result is ascending by ID and a permutation of the input |
| WorkerRush.SquadSize | Assets/_Project/Scripts/Simulation/AI/Bots/WorkerRushAI.cs:68-71 | with workers the squad has between one and all of them; from two workers on it is half, rounded down, so the rest is at least as large and at most one larger |
| WorkerRush.AttackersHaveLowestIds | Assets/_Project/Scripts/Simulation/AI/Bots/WorkerRushAI.cs:73-100 | in the sorted list every attacker's ID is at most every gatherer's |
| WorkerRush.FindBestTarget | Assets/_Project/Scripts/Simulation/AI/Bots/WorkerRushAI.cs:116-128 | an enemy base whenever one exists; else an enemy worker when any; else an enemy unit; no target exactly when there is no enemy base and no enemy unit |
| WorkerRush.Duty | Assets/_Project/Scripts/Simulation/AI/Bots/WorkerRushAI.cs:73-112 | an attacker busy attacking or moving with a target ID is left alone, otherwise it takes a unit target; with no target only an idle attacker moves; a gatherer that is not idle or has no meat node is left alone, otherwise it heads for the nearest meat node |
| WorkerRush.SplitFrom | Assets/_Project/Scripts/Simulation/AI/Bots/WorkerRushAI.cs:73-113 | only the listed workers from position i on can change; with distinct IDs the worker at position j ends as `WorkerRush.Duty` for position j leaves it |
| WorkerRush.OwnWorkersSame | Assets/_Project/Scripts/Simulation/AI/Bots/WorkerRushAI.cs:53-56 | sorting the player's workers by ID keeps the same workers and the same IDs |
| WorkerRush.OwnWorkersStored | Assets/_Project/Scripts/Simulation/AI/Bots/WorkerRushAI.cs:53-56 | with unique IDs the sorted workers have distinct IDs and each is a worker of the player stored under its ID |
| WorkerRush.ManageArmySplit | Assets/_Project/Scripts/Simulation/AI/Bots/WorkerRushAI.cs:51-114 | only the player's workers can change, and without workers nothing changes; with unique IDs the worker at position j of the list sorted by ID ends as `WorkerRush.Duty` for j leaves it, with the squad size of the worker count |
| Elite.Advance | Assets/_Project/Scripts/Simulation/AI/Bots/EliteCommanderAI.cs:53-70 | both clocks gain the frame time; the micro pass fires exactly when its clock reaches one second and the macro decision exactly when its clock passes five; a clock that fires restarts at zero |
| Elite.MacroDecisions | Assets/_Project/Scripts/Simulation/AI/Bots/EliteCommanderAI.cs:69-70 | a run of frames makes at most one macro decision per frame |
| Elite.MacroRationed | Assets/_Project/Scripts/Simulation/AI/Bots/EliteCommanderAI.cs:53-70 | over any run of non-negative frame times, at most one macro decision per five seconds of accumulated time |
| Elite.MicroRationed | Assets/_Project/Scripts/Simulation/AI/Bots/EliteCommanderAI.cs:54-65 | over any run of non-negative frame times, at most one micro pass per second of accumulated time |
| Elite.BuildingCost | Assets/_Project/Scripts/Simulation/AI/Bots/EliteCommanderAI.cs:388-394 | a house, barracks or tower costs its configured price, every other type nothing |
| Elite.SmartType | Assets/_Project/Scripts/Simulation/AI/Bots/EliteCommanderAI.cs:319-325 | meat exactly when meat is short; stone exactly when meat and wood are stocked and stone is short; wood otherwise, including when nothing is short |
| Elite.AssignSmartGatherTasks | Assets/_Project/Scripts/Simulation/AI/Bots/EliteCommanderAI.cs:316-333 | only the player's idle workers can change; without the player nothing changes; with unique IDs each idle worker ends as `Bots.GatherOrder` leaves it for `Elite.SmartType` |
| Elite.TryBuildStructure | Assets/_Project/Scripts/Simulation/AI/Bots/EliteCommanderAI.cs:335-358 | true exactly when the price is stocked, a worker idles, the base exists and some try is an even, flagged-walkable cell; then exactly the price is paid, the building is appended on the first such try and the first idle worker is sent to build it; otherwise nothing changes |
| Elite.StructureNearBase | Assets/_Project/Scripts/Simulation/AI/Bots/EliteCommanderAI.cs:346-349 | a placed structure stands on an even column, on a flagged-walkable cell, within eight cells of the base |
| Elite.TryTrainUnit | Assets/_Project/Scripts/Simulation/AI/Bots/EliteCommanderAI.cs:360-379 | without the price the idle workers gather for it; with it and no idle producer nothing changes; otherwise the first idle producer starts that unit from zero and exactly its price is paid |
| Elite.OpeningStep | Assets/_Project/Scripts/Simulation/AI/Bots/EliteCommanderAI.cs:96-120 | past the last step the opening finishes; a goal already reached advances the step and does nothing else; otherwise the current goal is pursued |
| Elite.OpeningMonotone | Assets/_Project/Scripts/Simulation/AI/Bots/EliteCommanderAI.cs:96-120 | along any run of decisions the step never goes back, advances at most once per decision, and the opening is marked over only after the whole build order |
| Elite.PursueGoal | Assets/_Project/Scripts/Simulation/AI/Bots/EliteCommanderAI.cs:122-133 | a unit goal leaves the map untouched; a building goal either builds one of the goal's type with the first idle worker or only sends the workers gathering for its price |
| Elite.FirstEnemyWithin | Assets/_Project/Scripts/Simulation/AI/Bots/EliteCommanderAI.cs:432-436 | a found unit is an enemy within range and every unit listed before it is not; none exactly when no enemy is within range |
| Elite.NearestEnemyWithin | Assets/_Project/Scripts/Simulation/AI/Bots/EliteCommanderAI.cs:432-436 | a found unit is an enemy within range and no enemy within range is closer; none exactly when no enemy is within range |
| Elite.FirstIsNotNearest | Assets/_Project/Scripts/Simulation/AI/Bots/EliteCommanderAI.cs:432-436 | with a far enemy listed before a near one, both in range, the search as written returns the far one and the nearest search the near one |
| Elite.Weakest | Assets/_Project/Scripts/Simulation/AI/Bots/EliteCommanderAI.cs:211-212 | a found unit is an enemy within attack range plus one with the least health among those; none exactly when there is no such enemy |
| Elite.MicroOne | Assets/_Project/Scripts/Simulation/AI/Bots/EliteCommanderAI.cs:194-218 | a soldier under 30% health with an enemy within four cells moves to its own cell mirrored away from the first such enemy in enumeration order; otherwise a soldier that is not attacking is left alone, and an attacking one switches to the weakest enemy in reach when that is not its target |
| Elite.MicroAll | Assets/_Project/Scripts/Simulation/AI/Bots/EliteCommanderAI.cs:194-219 | only the listed soldiers can change; with distinct IDs each ends as its `Elite.MicroOne` turn leaves it |
| Elite.PerformCombatMicro | Assets/_Project/Scripts/Simulation/AI/Bots/EliteCommanderAI.cs:190-220 | only the player's soldiers can change; with unique IDs each ends as its `Elite.MicroOne` turn leaves it |
| Elite.HarassTarget | Assets/_Project/Scripts/Simulation/AI/Bots/EliteCommanderAI.cs:229-262 | an enemy worker whenever one exists; otherwise an enemy building other than base and tower when one exists; targets are always enemies; no target exactly when there is no enemy unit, no such building and no enemy base |
| Elite.AssaultTarget | Assets/_Project/Scripts/Simulation/AI/Bots/EliteCommanderAI.cs:302-314 | an enemy base whenever one exists; a unit target only without one; targets are always enemies; no target exactly when the enemy has no unit and no building |
| Elite.SendIdle | Assets/_Project/Scripts/Simulation/AI/Bots/EliteCommanderAI.cs:276-295 | only the player's idle soldiers can change; with unique IDs each ends as `Elite.IdleOrder` on the target leaves it |
| Elite.IdleOrder | Assets/_Project/Scripts/Simulation/AI/Bots/EliteCommanderAI.cs:276-295 | without a target the soldier walks to the map centre, or keeps its task with an empty path when the centre is unreachable; with one it attacks as `Bots.Attack` says |
| Elite.PerformHarass | Assets/_Project/Scripts/Simulation/AI/Bots/EliteCommanderAI.cs:223-265 | only the player's idle soldiers can change; with unique IDs each ends as `Elite.IdleOrder` on `Elite.HarassTarget` leaves it |
| Elite.PerformTotalAssault | Assets/_Project/Scripts/Simulation/AI/Bots/EliteCommanderAI.cs:268-296 | only the player's idle soldiers can change; with unique IDs each ends as `Elite.IdleOrder` on `Elite.AssaultTarget` leaves it |
| Elite.Rally | Assets/_Project/Scripts/Simulation/AI/Bots/EliteCommanderAI.cs:426-429 | only the listed units can change; when all already target the enemy nothing changes; with distinct IDs each ends as `Elite.RallyOne` leaves it |
| Elite.RallyOne | Assets/_Project/Scripts/Simulation/AI/Bots/EliteCommanderAI.cs:428 | a unit already after the enemy is unchanged; any other is sent after it along the path to its cell |
| Elite.PerformEmergencyDefense | Assets/_Project/Scripts/Simulation/AI/Bots/EliteCommanderAI.cs:419-430 | only the player's units can change; with no base, or no enemy within fifteen cells of it, nothing changes; otherwise the result is `Elite.Rally` of the player's units on the first such enemy in enumeration order, and with unique IDs each unit of the player ends as `Elite.RallyOne` leaves it |
| Elite.DefenceFindsAttacker | Assets/_Project/Scripts/Simulation/AI/Bots/EliteCommanderAI.cs:412-423 | when the base is under attack (an enemy within ten cells) the defence's search within fifteen always finds an enemy |
| Elite.ArmyModeOf | Assets/_Project/Scripts/Simulation/AI/Bots/EliteCommanderAI.cs:166-181 | total assault exactly at ten soldiers or more, harass exactly from two to nine, gathering below two |
| Elite.MidGame | Assets/_Project/Scripts/Simulation/AI/Bots/EliteCommanderAI.cs:139-185 | at the population cap the decision either builds a house with the first idle worker or only sends the workers gathering for it, and the stock changes only by the house price |
| Elite.MacroDecision | Assets/_Project/Scripts/Simulation/AI/Bots/EliteCommanderAI.cs:72-90 | under attack only the player's units change and the opening stands; with the player present the result is then `Elite.PerformEmergencyDefense`, an enemy within fifteen cells exists, and with unique IDs each unit of the player ends as `Elite.RallyOne` on it leaves it; the opening stays sound, its step advances by at most one, a finished opening stays as it is, and the decision that finishes it does nothing else |
| Translator.CommandOf | Assets/_Project/Scripts/Simulation/DRL/DRLActionTranslator.cs:35-69 | codes outside 0..9 ask for nothing; exactly 1, 2, 7, 8 and 9 build (house, barracks, farm, wood cutter, stone pit) and exactly 3 and 4 train |
| Translator.CodesDistinct | Assets/_Project/Scripts/Simulation/DRL/DRLActionTranslator.cs:35-69 | distinct codes in 0..9 ask for distinct commands |
| Translator.FindIdleWorker | Assets/_Project/Scripts/Simulation/DRL/DRLActionTranslator.cs:228-246 | none exactly when the agent has no idle worker; otherwise an idle worker of the agent at the least squared distance from the target |
| Translator.FindGatherer | Assets/_Project/Scripts/Simulation/DRL/DRLActionTranslator.cs:249-276 | none exactly when the agent has no worker that is not building; an idle worker whenever one exists, the nearest of them; otherwise the nearest worker that is not building |
| Translator.BuildPrice | Assets/_Project/Scripts/Simulation/DRL/DRLActionTranslator.cs:90-100 | a house, farm and stone pit cost their wood, a wood cutter its meat, a barracks and a tower their wood and stone, a wall its stone, a base nothing |
| Translator.OnlyWoodCutterCostsMeat | Assets/_Project/Scripts/Simulation/DRL/DRLActionTranslator.cs:90-100 | every type but the wood cutter asks for no meat |
| Translator.TryBuildBuilding | Assets/_Project/Scripts/Simulation/DRL/DRLActionTranslator.cs:74-116 | succeeds exactly when the cell is walkable grass, an idle worker exists and the price is stocked; then exactly the price is paid, the unfinished building is appended on the cell and the builder, the idle worker nearest the cell, is sent to build it; a refusal changes nothing |
| Translator.TryTrainUnit | Assets/_Project/Scripts/Simulation/DRL/DRLActionTranslator.cs:119-135 | true exactly when a finished idle producer of the right type exists; the first one starts the unit and the price is paid when stocked; otherwise nothing changes; units are untouched |
| Translator.CellTarget | Assets/_Project/Scripts/Simulation/DRL/DRLActionTranslator.cs:140-157 | a unit target is the enemy unit whose ID occupies the cell; a building target is the enemy building with that ID when no unit has it; an empty cell or a cell held by the agent's own unit gives no target |
| Translator.Charge | Assets/_Project/Scripts/Simulation/DRL/DRLActionTranslator.cs:165-167 | a unit target becomes the soldier's target, and so does a building with a free neighbour; with no target the soldier is ordered to the cell; only path, target and task change |
| Translator.ChargeAll | Assets/_Project/Scripts/Simulation/DRL/DRLActionTranslator.cs:160-171 | only the listed soldiers can change; with distinct IDs each ends as `Translator.Charge` leaves it |
| Translator.CommandArmyAttack | Assets/_Project/Scripts/Simulation/DRL/DRLActionTranslator.cs:138-173 | true exactly when the agent has a soldier; only the agent's soldiers change, and with unique IDs each ends as `Translator.Charge` against the cell's occupant leaves it |
| Translator.ResourceOn | Assets/_Project/Scripts/Simulation/DRL/DRLActionTranslator.cs:181-185 | a found resource is the one whose ID occupies the in-bounds cell |
| Translator.Around | Assets/_Project/Scripts/Simulation/DRL/DRLActionTranslator.cs:192-195 | nine cells, exactly the 3x3 block around the point |
| Translator.GatherSpot | Assets/_Project/Scripts/Simulation/DRL/DRLActionTranslator.cs:178-210 | the resource on the cell when there is one; none exactly when no cell of the 3x3 block holds one; otherwise one from a block cell nearest the target |
| Translator.CommandGatherResource | Assets/_Project/Scripts/Simulation/DRL/DRLActionTranslator.cs:176-223 | true exactly when a resource is found and a worker that is not building exists; only that worker changes, and it ends as the gather order on the resource leaves it, heading for the resource when a cell next to it is free; a failure changes nothing |
| Translator.ExecuteAction | Assets/_Project/Scripts/Simulation/DRL/DRLActionTranslator.cs:27-71 | an off-map target fails and changes nothing; code 0 succeeds; an unknown code fails; each other code succeeds exactly when its command does and leaves the world that command leaves (`Translator.TryBuildBuilding` with its builder, `Translator.TryTrainUnit`, `Translator.CommandArmyAttack` for 5, `Translator.CommandGatherResource` for 6); only a building order names a builder |
| Masks.BuildKindOf | Assets/_Project/Scripts/Simulation/DRL/ActionSelectionAgent.cs:16-28 | exactly codes 1, 2 and 5 to 9 stand for a building |
| Masks.Off | Assets/_Project/Scripts/Simulation/DRL/ActionSelectionAgent.cs:80-83 | n flags, all off |
| Masks.ActionMask | Assets/_Project/Scripts/Simulation/DRL/ActionSelectionAgent.cs:66-203 | nothing is written without the player; otherwise thirteen flags with waiting always on; no source leaves only waiting; a worker may move, gather and build exactly what it can afford, never train or attack; a soldier may only attack and move; training is on exactly for an idle-selectable base or barracks that can afford its unit |
| Masks.Register | Assets/_Project/Scripts/Simulation/DRL/ActionSelectionAgent.cs:211-217 | a registered demonstration is pending with the given value |
| Masks.Heuristic | Assets/_Project/Scripts/Simulation/DRL/ActionSelectionAgent.cs:219-232 | a pending demonstration is emitted and cleared; otherwise 0 is emitted and nothing changes |
| Masks.Emitted | Assets/_Project/Scripts/Simulation/DRL/ActionSelectionAgent.cs:219-232 | n calls emit n values |
| Masks.IdleEmitsZeros | Assets/_Project/Scripts/Simulation/DRL/ActionSelectionAgent.cs:228-231 | without a pending demonstration every call emits 0 |
| Masks.ReplayedOnce | Assets/_Project/Scripts/Simulation/DRL/ActionSelectionAgent.cs:211-232 | a registered demonstration is emitted by the first call only, and every later call emits 0 |
| Masks.SelectionMask | Assets/_Project/Scripts/Simulation/DRL/UnitSelectionAgent.cs:68-129 | one flag per cell (one on an empty map), at least one flag on; every cell but the first is on exactly when selectable; when anything is selectable every flag equals selectability |
| Masks.SelectionObservation | Assets/_Project/Scripts/Simulation/DRL/UnitSelectionAgent.cs:31-66 | six values, all zero without the player; the unit terms are non-negative and the worker term times 30 is the player's live worker count |
| Masks.AgentBuildKind | Assets/_Project/Scripts/Simulation/DRL/RTSAgent.cs:151-200 | exactly indices 4 to 9 stand for a building |
| Masks.AgentMask | Assets/_Project/Scripts/Simulation/DRL/RTSAgent.cs:107-201 | nothing without player 1; only indices 4 to 11 are ever disabled; 10 and 11 are disabled exactly when a worker or a soldier cannot be trained, and 4 to 9 exactly when their building's full price is not stocked |
| Masks.CommandReward | Assets/_Project/Scripts/Simulation/DRL/RTSAgent.cs:85-104 | waiting earns nothing; any other command earns a positive reward exactly when it succeeded; the reward is one of 0, 0.001 and -0.005 |
| Masks.AgentAct | Assets/_Project/Scripts/Simulation/DRL/RTSAgent.cs:44-105 | waiting earns nothing; a non-waiting command with an off-map target is charged 0.005 and changes nothing; an unknown code changes nothing and is charged; any other command earns 0.001 exactly when the translator reports success, and the world is the one `Translator.ExecuteAction` leaves |
| Masks.AgentCodesMisfire | Assets/_Project/Scripts/Simulation/DRL/RTSAgent.cs:124-131 | when a worker is affordable under the cap code 10 stays enabled, yet the translator rejects it and the agent is charged; code 4 is gated on a house but trains a soldier |
| Masks.TranslatorMask | Assets/_Project/Scripts/Simulation/DRL/RTSAgent.cs:107-201 | nothing without player 1; an enabled code is known to the translator, an enabled building code is affordable at the translator's price, an enabled training code can be trained; waiting is never disabled |
| Masks.TranslatorMaskConsistent | Assets/_Project/Scripts/Simulation/DRL/RTSAgent.cs:107-201 | codes 10 and 11 are always disabled and waiting never is |
| StateCode.ThresholdIndex | Assets/_Project/Scripts/Simulation/RL/SimRLEnvironment.cs:164-168 | the level is the highest threshold the amount reaches, every later threshold lies above the amount, and an amount below every threshold gets level 0 |
| StateCode.ThresholdMonotone | Assets/_Project/Scripts/Simulation/RL/SimRLEnvironment.cs:164-168 | a larger amount never gets a lower level |
| StateCode.EncodeDecode | Assets/_Project/Scripts/RL/QLearningAgent.cs:30 | levels within the 4 x 4 x 2 x 2 ranges get a code in [0, 64) from which they are read back |
| StateCode.DecodeEncode | Assets/_Project/Scripts/RL/QLearningAgent.cs:30 | every one of the 64 rows is the code of levels within the ranges |
| StateCode.EncodeInjective | Assets/_Project/Scripts/RL/QLearningAgent.cs:30 | distinct levels within the ranges get distinct rows |
| SimRL.GetStateAsWritten | Assets/_Project/Scripts/Simulation/RL/SimRLEnvironment.cs:41-52 | 0 without player 1; otherwise between 0 and 65, so with the three declared meat thresholds the code can leave the 64-row table |
| SimRL.AsWrittenStateOverflows | Assets/_Project/Scripts/Simulation/RL/SimRLEnvironment.cs:14-51 | a rich capped player gets state 65, outside the 64 rows; stone level 1 and meat level 2 both give state 4 |
| SimRL.GetState | Assets/_Project/Scripts/Simulation/RL/SimRLEnvironment.cs:41-52 | 0 without player 1; otherwise a row in [0, 64) from which player 1's wood, stone, meat and population levels are read back |
| SimRL.GetStateSeparates | Assets/_Project/Scripts/Simulation/RL/SimRLEnvironment.cs:41-52 | players at different levels get different states |
| SimRL.OrderGather | Assets/_Project/Scripts/Simulation/RL/SimRLEnvironment.cs:88-107 | worth 5 or -0.5; -0.5 changes nothing and is what a missing node of the type gives; 5 assigns the worker to a node of the type no farther than any other of that type |
| SimRL.OrderRecruitWorker | Assets/_Project/Scripts/Simulation/RL/SimRLEnvironment.cs:109-122 | worth 50, -0.5 or -1, the last two changing nothing; 50 exactly when player 1's first Base is idle and the worker's meat is stocked, and then the meat is paid and that Base trains a worker from timer 0 |
| SimRL.SpawnBuilding | Assets/_Project/Scripts/Simulation/RL/SimRLEnvironment.cs:147-162 | a new building of player 1 under the next ID, appended, its cell blocked, nothing else but the cap (for a finished one) changing |
| SimRL.OrderBuildBarracks | Assets/_Project/Scripts/Simulation/RL/SimRLEnvironment.cs:124-139 | worth 50 or -1; 50 exactly when the barracks price is stocked and a free neighbour cell exists, and then the price is paid and an unfinished Barracks of player 1 is appended on that cell; -1 changes nothing |
| SimRL.BarracksOrderEndsEpisode | Assets/_Project/Scripts/Simulation/RL/SimRLEnvironment.cs:124-144 | a successful barracks order makes the state terminal |
| SimRL.Order | Assets/_Project/Scripts/Simulation/RL/SimRLEnvironment.cs:59-73 | without an idle worker of player 1 or for an action outside 0-4 nothing happens and nothing is earned; otherwise the order earns a non-zero amount from the five possible values |
| SimRL.Step | Assets/_Project/Scripts/Simulation/RL/SimRLEnvironment.cs:55-85 | the tick advances by one and the reward is the order's value less 0.1; a step that gives no order is worth exactly -0.1 |
| SimRL.Stocked | Assets/_Project/Scripts/Simulation/RL/SimRLEnvironment.cs:25-32 | a fresh empty map with player 1 holding only 50 meat |
| SimRL.Founded | Assets/_Project/Scripts/Simulation/RL/SimRLEnvironment.cs:34-36 | adds one finished Base of player 1 at the centre, raising the cap to the base allowance |
| SimRL.Reset | Assets/_Project/Scripts/Simulation/RL/SimRLEnvironment.cs:25-38 | the Base at the centre, at most one unit, a worker of player 1 counted in its population |
| SimRL.SpawnFirstWorker | Assets/_Project/Scripts/Simulation/RL/SimRLEnvironment.cs:37 | a worker spawned into an empty world is the only unit and its owner's population counts it |
| SimRL.ResetState | Assets/_Project/Scripts/Simulation/RL/SimRLEnvironment.cs:25-52 | a fresh episode is not terminal and sits at meat level 1 with no wood or stone |
| QLearning.Zeros | Assets/_Project/Scripts/Simulation/RL/QLearningBrain.cs:21-26 | a table of the given shape holding only zeros |
| QLearning.MaxOf | Assets/_Project/Scripts/Simulation/RL/QLearningBrain.cs:58-65 | the largest value of the row, one of its entries |
| QLearning.GreedyAction | Assets/_Project/Scripts/Simulation/RL/QLearningBrain.cs:37-49 | a position holding the row's maximum with every earlier entry strictly smaller |
| QLearning.GreedyIsFirstMax | Assets/_Project/Scripts/Simulation/RL/QLearningBrain.cs:37-49 | the greedy choice is the first position of the maximum: ties go to the lowest action |
| QLearning.Target | Assets/_Project/Scripts/Simulation/RL/QLearningBrain.cs:55-68 | the reward alone on a terminal transition; otherwise the reward plus gamma times the best next value |
| QLearning.Learn | Assets/_Project/Scripts/Simulation/RL/QLearningBrain.cs:53-71 | the shape is kept, only the visited entry changes, and it moves by alpha times the error towards the target |
| QLearning.LearnBetween | Assets/_Project/Scripts/Simulation/RL/QLearningBrain.cs:67-70 | with alpha in [0, 1] the new value lies between the old value and the target, and alpha 1 lands on the target |
| QLearning.LearnFixedPoint | Assets/_Project/Scripts/Simulation/RL/QLearningBrain.cs:67-70 | an entry already at its target leaves the table unchanged |
| QLearning.Decay | Assets/_Project/Scripts/Simulation/RL/QLearningBrain.cs:73-76 | epsilon times the decay, but never below the floor |
| QLearning.DecayMonotone | Assets/_Project/Scripts/Simulation/RL/QLearningBrain.cs:73-76 | with a decay in [0, 1] epsilon never rises and never drops below the floor |
| QLearning.DecayNMonotone | Assets/_Project/Scripts/Simulation/RL/QLearningBrain.cs:73-76 | repeated decays are non-increasing and bounded below by the floor |
| QLearning.ChooseAction | Assets/_Project/Scripts/Simulation/RL/QLearningBrain.cs:29-50 | a draw below epsilon takes the random action; otherwise the first action of maximal value |
| QLearning.NewBrain | Assets/_Project/Scripts/Simulation/RL/QLearningBrain.cs:10-26 | alpha 0.1, gamma 0.99, epsilon 1 with floor 0 and decay 0.9995, and an all-zero table |
| QLearning.BrainLearn | Assets/_Project/Scripts/Simulation/RL/QLearningBrain.cs:53-71 | only the table changes, by one learning step with the brain's own alpha and gamma |
| QLearning.BrainDecay | Assets/_Project/Scripts/Simulation/RL/QLearningBrain.cs:73-76 | only epsilon changes, and it stays at or above the floor |
| QLearning.NewAgent | Assets/_Project/Scripts/RL/QLearningAgent.cs:13-62 | a 64 x 5 all-zero table, learning rate 0.1, discount 0.9, epsilon 1 decaying by 0.995 to 0.01, and both counters at 0 |
| QLearning.UpdateQValue | Assets/_Project/Scripts/RL/QLearningAgent.cs:107-139 | the table keeps its shape, only the visited entry moves by the learning rate times the error, and one more training step is counted |
| QLearning.AgentDecay | Assets/_Project/Scripts/RL/QLearningAgent.cs:144-150 | epsilon stays at or above its floor, one more episode is counted, the table is untouched |
| QLearning.FreshAgentPicksFirst | Assets/_Project/Scripts/RL/QLearningAgent.cs:86-101 | on a fresh agent the greedy action is 0 in every state |
| RLEnv.GetCurrentState | Assets/_Project/Scripts/RL/RLEnvironment.cs:54-78 | 0 without a resource manager; otherwise a row in [0, 64) from which the wood, stone and meat levels and the "any population" flag are read back |
| RLEnv.CurrentStateInjective | Assets/_Project/Scripts/RL/RLEnvironment.cs:54-71 | stocks at different levels get different states |
| RLEnv.ResetEpisode | Assets/_Project/Scripts/RL/RLEnvironment.cs:290-294 | the step counter and both flags are cleared, the step budget is kept |
| RLEnv.OrderGather | Assets/_Project/Scripts/RL/RLEnvironment.cs:123-141 | 0.1 exactly when an idle worker and a node of the type exist, -1 otherwise |
| RLEnv.OrderRecruitWorker | Assets/_Project/Scripts/RL/RLEnvironment.cs:143-166 | 5 exactly when the base is found, 50 meat is stocked and the population is below the cap, -1 otherwise |
| RLEnv.OrderBuildBarracks | Assets/_Project/Scripts/RL/RLEnvironment.cs:168-211 | a started construction, and only that, completes the episode with the barracks flag and pays 1000 plus four per step left; -2 exactly when a worker and the 180/180 price exist but no free cell; a failure changes nothing |
| RLEnv.BarracksBonusPositive | Assets/_Project/Scripts/RL/RLEnvironment.cs:197-204 | while steps remain the barracks payment is at least 1000 |
| RLEnv.ExecuteAction | Assets/_Project/Scripts/RL/RLEnvironment.cs:82-119 | a finished episode earns 0 and changes nothing; otherwise one more step, the episode ends exactly at the budget or on a started barracks (which pays 1000 plus four per remaining step, less 0.1), and an unknown action earns -0.1 |
| RLEnv.CompletedIsFinal | Assets/_Project/Scripts/RL/RLEnvironment.cs:84 | once completed, any further actions leave the episode unchanged |
| RLEnv.EpisodeBounded | Assets/_Project/Scripts/RL/RLEnvironment.cs:84-114 | an unfinished episode is completed within the steps left of its budget, whatever the actions |
| Particle.Spread | Assets/_Project/Scripts/Simulation/AI/PSOAlgorithm.cs:40 | a draw in [0, 1) lands in [min, max] |
| Particle.NewParticle | Assets/_Project/Scripts/Simulation/AI/PSOAlgorithm.cs:30-47 | positions in [min, max] from unit draws, the best position a copy of the position and the best fitness `float.MinValue` |
| Particle.CopyPrefix | Assets/_Project/Scripts/Simulation/AI/PSOAlgorithm.cs:111 | the first `len` entries come from the source, the rest are kept |
| Particle.Improve | Assets/_Project/Scripts/Simulation/AI/PSOAlgorithm.cs:105-112 | the best fitness becomes the larger of the old one and the report, the best position changes only on a strict improvement, position and velocity are untouched |
| Particle.MaxMinClamp | Assets/_Project/Scripts/Simulation/AI/ParticleSwarmOptimizer.cs:119 | the result lies in [min, max] when that range is not empty and keeps a value already inside it |
| Particle.ClampsAgree | Assets/_Project/Scripts/Simulation/AI/ParticleSwarmOptimizer.cs:119 | on a non-empty range the max-of-min clamp agrees with the library clamp |
| Apso.NewParticleOf | Assets/_Project/Scripts/Simulation/AI/PSOAlgorithm.cs:30-47 | a particle of the draws' dimension, inside the gene range, its best equal to its position at `float.MinValue` |
| Apso.NewSwarm | Assets/_Project/Scripts/Simulation/AI/PSOAlgorithm.cs:72-92 | one particle per draw, all in the gene range; the global best is `float.MinValue` over a zero vector and dominates every personal best; the state starts in Exploration |
| Apso.ReportFitness | Assets/_Project/Scripts/Simulation/AI/PSOAlgorithm.cs:103-121 | only the reported particle and the global best change; each best takes the fitness and the particle's position on a strict improvement; the global best keeps dominating every personal best and positions stay in range |
| Apso.ReportRecordsPosition | Assets/_Project/Scripts/Simulation/AI/PSOAlgorithm.cs:108-112 | a personal improvement records exactly the particle's position and the fitness |
| Apso.BestOf | Assets/_Project/Scripts/Simulation/AI/PSOAlgorithm.cs:115-119 | the largest of a start value and the reported fitnesses, itself one of them |
| Apso.ReportAllBest | Assets/_Project/Scripts/Simulation/AI/PSOAlgorithm.cs:103-121 | after any run of reports the global best fitness is the best of its start and every report, and still dominates each personal best |
| Apso.UpdateState | Assets/_Project/Scripts/Simulation/AI/PSOAlgorithm.cs:203-221 | above 0.4 Exploration, below 0.3 Exploitation, each recorded as last active; in between Balance with the last active state kept |
| Apso.Strategy | Assets/_Project/Scripts/Simulation/AI/PSOAlgorithm.cs:136 | the current state, or the last active one while balancing |
| Apso.StrategyNeverBalance | Assets/_Project/Scripts/Simulation/AI/PSOAlgorithm.cs:136-221 | the rule a particle moves by is never Balance |
| Apso.Guide | Assets/_Project/Scripts/Simulation/AI/PSOAlgorithm.cs:146-165 | the global best under the classic rule or in Exploration, otherwise the drawn exemplar's personal best |
| Apso.MoveParticle | Assets/_Project/Scripts/Simulation/AI/PSOAlgorithm.cs:131-174 | inertia 0.729 and pulls 1.49445 towards the personal best and the guide, then a clamped move; bests untouched and the position inside the gene range |
| Apso.Step | Assets/_Project/Scripts/Simulation/AI/PSOAlgorithm.cs:124-175 | every particle moves inside the gene range, no best changes, the state follows the factor and the global best keeps dominating |
| Swarm.StartVelocity | Assets/_Project/Scripts/Simulation/AI/ParticleSwarmOptimizer.cs:29 | a unit draw gives a velocity in [-1, 1) |
| Swarm.NewParticleOf | Assets/_Project/Scripts/Simulation/AI/ParticleSwarmOptimizer.cs:16-33 | positions in [min, max], velocities in [-1, 1], the best equal to the position at `float.MinValue` |
| Swarm.NewOptimizer | Assets/_Project/Scripts/Simulation/AI/ParticleSwarmOptimizer.cs:48-64 | one particle per draw in the gene range with velocities in [-1, 1]; the global best is `float.MinValue` over a zero vector |
| Swarm.Report | Assets/_Project/Scripts/Simulation/AI/ParticleSwarmOptimizer.cs:73-92 | for a copy length: only the reported particle and the global best change, each fitness becomes the larger of the old one and the report, and a strict improvement copies that many coordinates |
| Swarm.UpdateFitness | Assets/_Project/Scripts/Simulation/AI/ParticleSwarmOptimizer.cs:73-92 | as written: fitnesses never drop and reach the reported one |
| Swarm.UpdateFitnessFreezesPositions | Assets/_Project/Scripts/Simulation/AI/ParticleSwarmOptimizer.cs:81-88 | as written no best position ever moves: the copies have length 0 |
| Swarm.FrozenExample | Assets/_Project/Scripts/Simulation/AI/ParticleSwarmOptimizer.cs:81-88 | a particle at 5 reporting 10 over a fresh swarm leaves the global best position at 0 |
| Swarm.UpdateFitnessFixed | Assets/_Project/Scripts/Simulation/AI/ParticleSwarmOptimizer.cs:73-92 | with full copies a strict improvement records the particle's exact position as personal and global best |
| Swarm.FixedTracksBest | Assets/_Project/Scripts/Simulation/AI/ParticleSwarmOptimizer.cs:85-89 | with full copies the global best position is the position that reported the global best fitness |
| Swarm.MoveParticle | Assets/_Project/Scripts/Simulation/AI/ParticleSwarmOptimizer.cs:99-123 | inertia 0.7 and pulls 1.4 towards the personal and global bests, then a move clamped into the gene range; bests untouched |
| Swarm.Step | Assets/_Project/Scripts/Simulation/AI/ParticleSwarmOptimizer.cs:94-124 | every particle moves inside the gene range and no best changes |
| Hybrid.NewHybrid | Assets/_Project/Scripts/Simulation/AI/HybridAdaptiveAI.cs:29-47 | the economy genes are active under the name Economy, the timer is zero |
| Hybrid.Choose | Assets/_Project/Scripts/Simulation/AI/HybridAdaptiveAI.cs:81-95 | Defensive exactly below -80, Aggressive exactly above 80, Economy exactly in between |
| Hybrid.Evaluate | Assets/_Project/Scripts/Simulation/AI/HybridAdaptiveAI.cs:66-115 | the factor is recorded and the mode becomes the chosen one with its genes active; the three gene sets, the timer and the switch are kept; a mode already in force changes nothing else |
| Hybrid.Update | Assets/_Project/Scripts/Simulation/AI/HybridAdaptiveAI.cs:49-64 | below one second the timer only accumulates; at one second it restarts at zero and, with switching on, the chosen mode takes over; without switching the mode and genes never change |
| Hybrid.StaticStaysEconomy | Assets/_Project/Scripts/Simulation/AI/HybridAdaptiveAI.cs:59 | without switching the commander plays its economy genes for good |
| Hybrid.TimerBelowOneSecond | Assets/_Project/Scripts/Simulation/AI/HybridAdaptiveAI.cs:55-58 | with a non-negative time step the timer stays in [0, 1) |
| Scenarios.ResetGrid | Assets/_Project/Scripts/Simulation/Scenarios/ScenarioManager.cs:34-46 | every cell becomes walkable, unoccupied Grass; the size and each node's coordinates are kept |
| Scenarios.ResetIsFreshMap | Assets/_Project/Scripts/Simulation/Scenarios/ScenarioManager.cs:34-46 | resetting a map whose nodes know their coordinates gives the freshly built map of that size |
| Scenarios.ResetWorld | Assets/_Project/Scripts/Simulation/Scenarios/ScenarioManager.cs:18-28 | no units, buildings or nodes; player 1 alone with nothing; the grid reset; tick and ID counter kept |
| Scenarios.LoadScenario | Assets/_Project/Scripts/Simulation/Scenarios/ScenarioManager.cs:11-32 | the scenario becomes current and sets up the reset world: every unit is player 1's, the only building is a Base, and every node is newer than the old world |
| Scenarios.KindOf | Assets/_Project/Scripts/Simulation/Scenarios/EconomyRushScenario.cs:125-128 | never "no resource"; Wood exactly below 0.4, Meat exactly from 0.8 |
| Scenarios.PlaceOne | Assets/_Project/Scripts/Simulation/Scenarios/EconomyRushScenario.cs:117-136 | a walkable drawn cell gets a node of the rolled kind with the next ID, then is blocked and shows the node's tile; any other draw changes nothing; no other cell changes and no cell becomes walkable |
| Scenarios.GenerateResources | Assets/_Project/Scripts/Simulation/Scenarios/EconomyRushScenario.cs:113-138 | old nodes stay in front, at most one new node per draw, each with the next ID in turn; only nodes, map and counter change |
| Scenarios.GenerateResourcesFrame | Assets/_Project/Scripts/Simulation/Scenarios/EconomyRushScenario.cs:113-138 | only cells that received a new node change |
| Scenarios.GenerateResourcesPlaces | Assets/_Project/Scripts/Simulation/Scenarios/EconomyRushScenario.cs:121-135 | every new node stands on a cell that was walkable, now blocked and showing the node's tile, holding the given amount |
| Scenarios.GenerateResourcesDistinct | Assets/_Project/Scripts/Simulation/Scenarios/EconomyRushScenario.cs:121-131 | no two new nodes share a cell |
| Scenarios.DrawsUsed | Assets/_Project/Scripts/Simulation/Scenarios/EconomyRushScenario.cs:32-34 | one draw per node asked for, as far as the stream goes, none for a non-positive count |
| Scenarios.StartBuilding | Assets/_Project/Scripts/Simulation/Scenarios/EconomyRushScenario.cs:140-151 | player 1's building with initialised stats and full progress exactly when constructed |
| Scenarios.SpawnBuilding | Assets/_Project/Scripts/Simulation/Scenarios/EconomyRushScenario.cs:140-156 | appended with the next ID, its cell blocked; a constructed one raises player 1's cap by its allowance; units, nodes and other players untouched |
| Scenarios.StartingStocks | Assets/_Project/Scripts/Simulation/Scenarios/EconomyRushScenario.cs:19-21 | player 1 gains 50 meat and nothing else changes |
| Scenarios.PlaceBase | Assets/_Project/Scripts/Simulation/Scenarios/EconomyRushScenario.cs:24-26 | a finished Base at the centre raising the cap by 10 and at most one new worker of player 1, counted in the population |
| Scenarios.StartingBase | Assets/_Project/Scripts/Simulation/Scenarios/EconomyRushScenario.cs:19-26 | the 50 meat grant, then the Base and its worker, with the cap raised by 10 |
| Scenarios.SetupMap | Assets/_Project/Scripts/Simulation/Scenarios/EconomyRushScenario.cs:14-36 | the starting base, and with settings present new resource nodes after the old ones; without settings nothing else |
| Scenarios.CheckWinCondition | Assets/_Project/Scripts/Simulation/Scenarios/EconomyRushScenario.cs:40-47 | won exactly when the player owns a Barracks, finished or not |
| Scenarios.CalculateReward | Assets/_Project/Scripts/Simulation/Scenarios/EconomyRushScenario.cs:50-110 | 0 for a missing player or before the win; on the win 950 plus ten per step left, never below 950, with a 5000-step cap and the world's tick when no experiment runs |
| Scenarios.EarlierWinPaysMore | Assets/_Project/Scripts/Simulation/Scenarios/EconomyRushScenario.cs:59-65 | an earlier win pays at least as much as a later one |
| Scenarios.BaseOnClearedWorld | Assets/_Project/Scripts/Simulation/Scenarios/EconomyRushScenario.cs:19-26 | on a cleared world the start gives player 1 alone 50 meat, no wood or stone, a cap of 10 and a population counting its worker |
| Scenarios.BaseAloneDoesNotWin | Assets/_Project/Scripts/Simulation/Scenarios/EconomyRushScenario.cs:40-66 | the starting base alone does not win and earns nothing |
| Scenarios.EconomyRushStart | Assets/_Project/Scripts/Simulation/Scenarios/ScenarioManager.cs:11-32 | loading the economy rush into any world yields the opening position, whatever the world held |
| Experiment.Record | Assets/_Project/Scripts/Simulation/Orchestrator/ExperimentManager.cs:232-233 | the window never grows past 100, drops its oldest entry when full, appends the outcome and keeps holding only 0s and 1s |
| Experiment.WindowBounded | Assets/_Project/Scripts/Simulation/Orchestrator/ExperimentManager.cs:232-233 | however many episodes are recorded, the window stays within 100 |
| Experiment.RecordShifts | Assets/_Project/Scripts/Simulation/Orchestrator/ExperimentManager.cs:232-233 | one recording followed by the later outcomes is the whole series with the dropped entry cut off |
| Experiment.WindowIsLatest | Assets/_Project/Scripts/Simulation/Orchestrator/ExperimentManager.cs:232-233 | the window holds exactly the last 100 of its old entries and the new outcomes |
| Experiment.SumOfOutcomes | Assets/_Project/Scripts/Simulation/Orchestrator/ExperimentManager.cs:235 | a window of outcomes sums to between 0 and its length |
| Experiment.WinRate | Assets/_Project/Scripts/Simulation/Orchestrator/ExperimentManager.cs:235 | a fraction in [0, 1]; 1 exactly when every windowed episode was won, 0 exactly when none was |
| Experiment.StartNewEpisode | Assets/_Project/Scripts/Simulation/Orchestrator/ExperimentManager.cs:189-196 | the economy rush is loaded into the world, which is then at the opening position, with reward and steps at 0 |
| Experiment.ProcessStep | Assets/_Project/Scripts/Simulation/Orchestrator/ExperimentManager.cs:198-223 | the environment steps with 0.1; the reward is the environment's plus the scenario's (at least 950 more on a win), one more step is counted, the states handed over are the environment's state code as written before and after the step, and the transition is done exactly on a terminal world, a win or the cap |
| Experiment.ProcessStepLeavesTable | Assets/_Project/Scripts/Simulation/Orchestrator/ExperimentManager.cs:200-215 | a player holding 2000 wood, 2000 stone and 100 meat at the population cap hands the agent state 65, outside its 64-row table |
| Experiment.RunSteps | Assets/_Project/Scripts/Simulation/Orchestrator/ExperimentManager.cs:181-184 | the loop stops on the first of a terminal world and the cap, never runs past the cap, and does nothing when either holds already |
| Experiment.EndEpisode | Assets/_Project/Scripts/Simulation/Orchestrator/ExperimentManager.cs:225-239 | the scenario's win (not a timeout) enters the window, the win rate is its mean in [0, 1], reward and steps are published and the episode counter moves on by one |
| Experiment.RunCompleteEpisodeHeadless | Assets/_Project/Scripts/Simulation/Orchestrator/ExperimentManager.cs:176-187 | one more episode, of at most the cap's steps (none for a non-positive cap), ended by a terminal world or the cap, with the window within 100 |
| Experiment.StepEpisodeVisual | Assets/_Project/Scripts/Simulation/Orchestrator/ExperimentManager.cs:164-173 | a terminal or capped episode ends and a fresh one starts; otherwise one more step is taken and the window is untouched |
| Census.HasBaseIff | Assets/_Project/Scripts/Simulation/DRL/AdversarialTrainerRunner.cs:281-282 | the first-match lookup finds a Base exactly when the player owns one |
| Census.LastBaseHealth | Assets/_Project/Scripts/Simulation/DRL/AdversarialTrainerRunner.cs:165-172 | the health of the last Base of the player in enumeration order, or 0 without one |
| Census.EnemyTally | Assets/_Project/Scripts/Simulation/DRL/AdversarialTrainerRunner.cs:158-172 | the counts are bounded by the world's units and buildings; no buildings means base health 0; zero units exactly when no unit of the enemy is alive |
| Census.PayForDrop | Assets/_Project/Scripts/Simulation/DRL/AdversarialTrainerRunner.cs:175-194 | never negative, positive exactly on a fall, and then the rate times the fall |
| Census.PayForRise | Assets/_Project/Scripts/Simulation/DRL/AdversarialTrainerRunner.cs:131-137 | never negative, positive exactly on a rise, and then the rate times the rise |
| Census.Bonus | Assets/_Project/Scripts/Simulation/DRL/AdversarialTrainerRunner.cs:142-145 | the flat bonus exactly on a rise, however large, and 0 otherwise |
| Census.DropTelescopes | Assets/_Project/Scripts/Simulation/DRL/AdversarialTrainerRunner.cs:175-198 | a fall paid over two steps earns what it earns at once |
| Census.CombatPayment | Assets/_Project/Scripts/Simulation/DRL/AdversarialTrainerRunner.cs:175-194 | never negative; zero exactly when no count fell; at least the per-unit and per-building rates times the losses |
| Census.CombatPaymentTelescopes | Assets/_Project/Scripts/Simulation/DRL/AdversarialTrainerRunner.cs:175-198 | losses paid step by step sum to the losses paid at once while no count recovers |
| Adversarial.DifficultyOf | Assets/_Project/Scripts/Simulation/DRL/AdversarialTrainerRunner.cs:209-213 | Passive exactly below 0.5, Defensive exactly in [0.5, 1.5), Aggressive from 1.5 |
| Adversarial.DifficultyMonotone | Assets/_Project/Scripts/Simulation/DRL/AdversarialTrainerRunner.cs:211-213 | a higher curriculum level never picks an easier opponent |
| Adversarial.Reset | Assets/_Project/Scripts/Simulation/DRL/AdversarialTrainerRunner.cs:201-275 | the stance follows the level, step 0 and not ended, the economy ledger at 500/500/500 and no workers, the combat tally at no units, one building and 1000 base health |
| Adversarial.CombatRewards | Assets/_Project/Scripts/Simulation/DRL/AdversarialTrainerRunner.cs:154-199 | without an agent nothing changes; otherwise the tally becomes the enemy's current one, the reward never drops and rises exactly when some enemy count fell, by at least 2 per lost building |
| Adversarial.EconomyRewards | Assets/_Project/Scripts/Simulation/DRL/AdversarialTrainerRunner.cs:119-152 | only with an agent against a Passive opponent; then the ledger is overwritten and the reward rises exactly when wood, meat, stone or the worker count rose, and never drops |
| Adversarial.NoEconomyRewardBeyondPassive | Assets/_Project/Scripts/Simulation/DRL/AdversarialTrainerRunner.cs:126 | against a harder opponent the economy pays nothing |
| Adversarial.Adjusted | Assets/_Project/Scripts/Simulation/DRL/AdversarialTrainerRunner.cs:320 | a reward changes exactly when it is 0 against a Passive opponent, and then becomes -1 |
| Adversarial.EndGame | Assets/_Project/Scripts/Simulation/DRL/AdversarialTrainerRunner.cs:311-325 | the game is ended; an ended game is untouched; otherwise an agent is paid the adjusted reward and its episode ends once |
| Adversarial.EndGameIdempotent | Assets/_Project/Scripts/Simulation/DRL/AdversarialTrainerRunner.cs:313 | ending twice is ending once |
| Adversarial.TimeoutOnlyPunishedWhenPassive | Assets/_Project/Scripts/Simulation/DRL/AdversarialTrainerRunner.cs:110-115 | a timeout costs 1 against a Passive opponent and nothing otherwise |
| Adversarial.WinReward | Assets/_Project/Scripts/Simulation/DRL/AdversarialTrainerRunner.cs:295-302 | within the budget between 2 and 4: 4 at step 0, 2 at the cap |
| Adversarial.FasterWinPaysMore | Assets/_Project/Scripts/Simulation/DRL/AdversarialTrainerRunner.cs:295-302 | a faster win pays at least as much |
| Adversarial.CheckGameResult | Assets/_Project/Scripts/Simulation/DRL/AdversarialTrainerRunner.cs:277-309 | nothing once ended; the own base lost ends with -2; otherwise the enemy base lost ends with the time-scaled win; the game ends exactly when a base is missing |
| Adversarial.WinPaysTwoToFour | Assets/_Project/Scripts/Simulation/DRL/AdversarialTrainerRunner.cs:288-307 | a win within the budget pays between 2 and 4 |
| Adversarial.SimulationStep | Assets/_Project/Scripts/Simulation/DRL/AdversarialTrainerRunner.cs:81-117 | one more step; at the cap the game is over; an ended game stays ended without another episode; at most one episode ends per step |
| Adversarial.PassiveTimeoutIsFailure | Assets/_Project/Scripts/Simulation/DRL/AdversarialTrainerRunner.cs:107-116 | a Passive game reaching the cap with both bases standing costs 1 on top of the shaping rewards and ends one episode |
| SelfPlay.DecisionTick | Assets/_Project/Scripts/Simulation/DRL/SelfPlayTrainerRunner.cs:97-103 | decisions are requested exactly when the counter reaches 4, which clears it; otherwise it counts up |
| SelfPlay.DecisionsEveryFourthStep | Assets/_Project/Scripts/Simulation/DRL/SelfPlayTrainerRunner.cs:64-103 | from a cleared counter, step n requests decisions exactly when n is a multiple of 4 |
| SelfPlay.FreshProgress | Assets/_Project/Scripts/Simulation/DRL/SelfPlayTrainerRunner.cs:294-304 | one worker, no soldiers, and an opponent of one unit, one building and a 1000-point base |
| SelfPlay.Reset | Assets/_Project/Scripts/Simulation/DRL/SelfPlayTrainerRunner.cs:223-292 | step 0, not ended, both progress records fresh, the decision counter untouched |
| SelfPlay.Pay | Assets/_Project/Scripts/Simulation/DRL/SelfPlayTrainerRunner.cs:415-442 | a present agent gains the amount, an absent seat is untouched |
| SelfPlay.EndEpisode | Assets/_Project/Scripts/Simulation/DRL/SelfPlayTrainerRunner.cs:469-480 | a present agent ends one more episode, an absent seat is untouched |
| SelfPlay.CalculateRewards | Assets/_Project/Scripts/Simulation/DRL/SelfPlayTrainerRunner.cs:139-206 | nothing without an agent or the player; otherwise the progress becomes the current live counts and enemy tally, and the reward never drops and rises exactly when own live workers or soldiers rose or some enemy count fell |
| SelfPlay.GrowthBonusIsFlat | Assets/_Project/Scripts/Simulation/DRL/SelfPlayTrainerRunner.cs:148-152 | any number of new workers pays 0.5 once |
| SelfPlay.IdlePenalty | Assets/_Project/Scripts/Simulation/DRL/SelfPlayTrainerRunner.cs:208-221 | a present agent loses 0.0001 per idle worker; the reward is unchanged exactly when there is no agent or no idle worker |
| SelfPlay.EndGame | Assets/_Project/Scripts/Simulation/DRL/SelfPlayTrainerRunner.cs:458-481 | the first call ends the game and both agents' episodes; later calls change nothing |
| SelfPlay.EndGameIdempotent | Assets/_Project/Scripts/Simulation/DRL/SelfPlayTrainerRunner.cs:461 | ending twice is ending once |
| SelfPlay.WinReward | Assets/_Project/Scripts/Simulation/DRL/SelfPlayTrainerRunner.cs:409-426 | within the budget between 200 and 700, and 200 at the cap |
| SelfPlay.FasterWinPaysMore | Assets/_Project/Scripts/Simulation/DRL/SelfPlayTrainerRunner.cs:409-426 | a faster win pays at least as much |
| SelfPlay.CheckGameResult | Assets/_Project/Scripts/Simulation/DRL/SelfPlayTrainerRunner.cs:400-456 | nothing once ended or while both bases stand; both bases gone pays -1 each; one base gone pays its owner -20 and the other the time-scaled win; in each decided case both episodes end twice, once in the branch and once in EndGame |
| SelfPlay.DecisiveRewards | Assets/_Project/Scripts/Simulation/DRL/SelfPlayTrainerRunner.cs:433-445 | a decisive result within the budget pays the winner between 200 and 700 and charges the loser 20 |
| SelfPlay.SimulationStep | Assets/_Project/Scripts/Simulation/DRL/SelfPlayTrainerRunner.cs:92-135 | decisions are requested exactly on the fourth tick, one more step is counted, the game is over at the cap, and an ended game ends no more episodes |
| SelfPlay.StalemateCostsBoth | Assets/_Project/Scripts/Simulation/DRL/SelfPlayTrainerRunner.cs:119-134 | a stalemate reaching the cap costs each agent 100 beyond its shaping rewards and ends each episode once |
| PsoManager.EnemyStrategy | Assets/_Project/Scripts/Simulation/AI/PSOManager.cs:84-95 | a defender meets an attacker and an attacker a defender; economic and general trainees meet their own kind |
| PsoManager.EnemyStrategyInvolution | Assets/_Project/Scripts/Simulation/AI/PSOManager.cs:84-95 | the opponent's opponent is the goal itself |
| PsoManager.NoLosses | Assets/_Project/Scripts/Simulation/AI/PSOManager.cs:224-227 | nothing remembered and nothing counted |
| PsoManager.TrackLosses | Assets/_Project/Scripts/Simulation/AI/PSOManager.cs:257-274 | the remembered IDs become the present ones and the counts grow by the remembered IDs now missing; a count stays exactly when nothing remembered went missing |
| PsoManager.BaseNotCountedAsDestroyed | Assets/_Project/Scripts/Simulation/AI/PSOManager.cs:268 | the enemy Base is never counted as a destroyed building |
| PsoManager.Play | Assets/_Project/Scripts/Simulation/AI/PSOManager.cs:231-293 | the match ends within the tick cap; an unfinished one stopped on the cap or the safety timer; only non-Economic goals end early, a win seeing no enemy Base and a loss seeing its own Base gone with the enemy's standing |
| PsoManager.SimulateMatch | Assets/_Project/Scripts/Simulation/AI/PSOManager.cs:217-293 | a non-positive cap gives an empty match; otherwise at most the cap's ticks |
| PsoManager.EconomicNeverEndsEarly | Assets/_Project/Scripts/Simulation/AI/PSOManager.cs:277 | an Economic match is never won or ended by a base falling |
| PsoManager.BothBasesGoneIsWin | Assets/_Project/Scripts/Simulation/AI/PSOManager.cs:289-290 | a tick that sees both bases gone is a win |
| PsoManager.CollectStats | Assets/_Project/Scripts/Simulation/AI/PSOManager.cs:295-334 | the outcome, 0.25 s per tick, the counted losses, player 1's stocks (0 without it), and no soldiers exactly when player 1 has none |
| PsoManager.EconomicFitness | Assets/_Project/Scripts/Simulation/AI/PSOManager.cs:447-456 | at most buildings, workers and stock total, and equal to it exactly when the three stocks are equal |
| PsoManager.DefensiveRaw | Assets/_Project/Scripts/Simulation/AI/PSOManager.cs:463-488 | towers, kills and base health, plus 150000 exactly for a living base that lasted 95% of the match |
| PsoManager.DefensiveFitness | Assets/_Project/Scripts/Simulation/AI/PSOManager.cs:491-498 | no tower and no soldier costs 50000; otherwise a base under a fifth of its health halves the score |
| PsoManager.SurvivingDefenderScoresHigh | Assets/_Project/Scripts/Simulation/AI/PSOManager.cs:458-499 | a defender with some defence whose healthy base survived scores at least 150000 |
| PsoManager.AggressiveFitness | Assets/_Project/Scripts/Simulation/AI/PSOManager.cs:501-526 | a loss without soldiers scores 0; a win within the match time scores at least 10000 |
| PsoManager.WinBonus | Assets/_Project/Scripts/Simulation/AI/PSOManager.cs:532-537 | 0 without a win, at least 10000 with one |
| PsoManager.GeneralPenalty | Assets/_Project/Scripts/Simulation/AI/PSOManager.cs:552-553 | between 0 and 3000; at least 2000 exactly without soldiers; 1000 or 3000 exactly below five workers |
| PsoManager.GeneralFitness | Assets/_Project/Scripts/Simulation/AI/PSOManager.cs:528-555 | the win bonus, the kills and destructions, a fifth of the stocks and the units, less the penalties |
| PsoManager.GeneralWinWorthTenThousand | Assets/_Project/Scripts/Simulation/AI/PSOManager.cs:532-534 | all else equal, winning adds at least 10000 |
| PsoManager.Fitness | Assets/_Project/Scripts/Simulation/AI/PSOManager.cs:442-559 | the score of the training goal |
| PsoManager.MatchFitness | Assets/_Project/Scripts/Simulation/AI/PSOManager.cs:316-335 | the goal's score of the final statistics with each side's base health read as its last Base |
| PsoManager.AggressiveLossWithoutArmyScoresZero | Assets/_Project/Scripts/Simulation/AI/PSOManager.cs:522-525 | a lost aggressive match without soldiers scores nothing, whatever damage was dealt |
| DenseRunner.DenseRewards | Assets/_Project/Scripts/Simulation/DRL/DRLSimRunner.cs:100-123 | nothing without player 1; otherwise the three totals are overwritten and the step costs 0.0001 on top of payments that are due exactly when the stock, the building count or the unit count rose |
| DenseRunner.SpendingIsNotCharged | Assets/_Project/Scripts/Simulation/DRL/DRLSimRunner.cs:106-109 | a fall in the stock costs nothing beyond the step |
| DenseRunner.EndGame | Assets/_Project/Scripts/Simulation/DRL/DRLSimRunner.cs:182-187 | every call pays the amount and ends one more episode, and the episode restart (`OnEpisodeBegin` calling `ResetSimulation`) sets the step to 0, the stock baseline to the 1700 granted, one unit and no building |
| DenseRunner.EndGameNotIdempotent | Assets/_Project/Scripts/Simulation/DRL/DRLSimRunner.cs:182-187 | a second call pays again and ends a second episode |
| DenseRunner.CheckWinCondition | Assets/_Project/Scripts/Simulation/DRL/DRLSimRunner.cs:164-180 | five soldiers of any owner win with +2; otherwise no worker and no soldier after step 10 lose with -1; an episode ends exactly in those cases and otherwise nothing changes |
| DenseRunner.NoLossDuringGrace | Assets/_Project/Scripts/Simulation/DRL/DRLSimRunner.cs:175 | an empty map is no loss during the first ten steps |
| DenseRunner.StepSimulation | Assets/_Project/Scripts/Simulation/DRL/DRLSimRunner.cs:65-98 | at most one more episode; without one the step count grows by one; with one the count restarts and the step ends at 1 with the reset baselines |
| DenseRunner.Frame | Assets/_Project/Scripts/Simulation/DRL/DRLSimRunner.cs:47-63 | from a step below the cap the step stays below it or the episode restarts; with a cap above one the step stays below the cap and each pass ends at most one episode |
| DenseRunner.WinAtCapEndsOnce | Assets/_Project/Scripts/Simulation/DRL/DRLSimRunner.cs:53-61 | a win on the step that reaches the cap ends exactly one episode: the reset leaves the step at 1, below the cap, and the win is paid |
| DenseRunner.TimeoutRestarts | Assets/_Project/Scripts/Simulation/DRL/DRLSimRunner.cs:57-60 | a step that reaches the cap without a win or loss ends one episode and restarts the counters |
| DenseRunner.EndGameForgets | Assets/_Project/Scripts/Simulation/DRL/DRLSimRunner.cs:154-161 | after an end the runner no longer depends on the step or the baselines it had |
| DemoAnalysis.NameOf | analyze.py:35-44 | WAIT, ATTACK, MOVE, GATHER, TRAIN WORKER and TRAIN SOLDIER exactly for 0, 10, 11, 12, 3 and 4; BUILD exactly for the rest of 1..9; UNKNOWN exactly outside 0..12 |
| DemoAnalysis.NameOfInjective | analyze.py:35-44 | distinct codes get distinct names |
| DemoAnalysis.RowsUpTo | analyze.py:78-89 | one row per non-WAIT step, in step order, each with that step's three codes |
| DemoAnalysis.RowsCoverNonWait | analyze.py:86-89 | every non-WAIT step has its row |
| DemoAnalysis.AnalyzeTripletDemos | analyze.py:46-101 | a failed load gives no report; otherwise the rows over the shortest recording and their count |
| TripletScan.ActionNamesAreKnown | analyze_triplets.py:63-72 | an action value is never named WAIT or unknown |
| TripletScan.ReportKeepsState | analyze_triplets.py:63-78 | reporting an action and jumping past its target keeps the scan's invariant |
| TripletScan.SkipKeepsState | analyze_triplets.py:79-80 | stepping over a non-action keeps the scan's invariant |
| TripletScan.AnalyzeRtsDemo | analyze_triplets.py:15-80 | a failed load gives no report; otherwise every triplet is an action read with its neighbours in order, reported positions are never adjacent, and an unreported action always follows a reported one |
| SimRL.OpeningState | Assets/_Project/Scripts/Simulation/RL/SimRLEnvironment.cs:41-52 | a world whose only building is a Base, with player 1 holding 50 meat and no wood or stone, is not terminal and sits at meat level 1 |

## Left out

- Unity scenes, `MonoBehaviour` update loops, coroutines, visualisation, logging and file I/O: `SaveTable`, `SaveQTable`, `LoadQTable`, `PrintLearnedPolicy`, `GetStats` and the statistics recorder write text or files and change no model state.
- ML-Agents plumbing: observation vectors, the academy and the sensor calls. The masks and rewards the agents compute are modelled; the neural policies are not.
- Randomness: `UnityEngine.Random` and `System.Random` draws are parameters, including the retry delay of a unit whose path search failed.
- Map generation: `GenerateMap`, `SetupBase` and the `ResetSimulation` bodies of the adversarial, self-play and dense runners build random maps. The runners' reward ledgers and end-of-game logic are modelled from a given world.
- The dense runner's agent calls `ResetSimulation` from `OnEpisodeBegin`, which the ML-Agents library runs when an episode ends. `DenseRunner.EndGame` applies the counters that reset sets; the new world, maze and worker it builds are not modelled, and `DenseRunner.Frame` takes the worlds of its steps as input. The target-selection agent's `OnEpisodeBegin` does nothing, because its reset call is commented out.
- The maze scenario builds a random maze and is not part of this model.
- Asynchronous PSO evaluation: the manager's averaging over parallel matches, `TrainingRoutine`, `RunVisualMatch` and `CreateWorldWithResources` drive Unity matches. The fitness bookkeeping they feed is modelled, and the elapsed-time check is a `timeUp` input.
- The scene RL environment moves Unity objects. It is modelled as a `Scene` snapshot of the counts it reads, and the orders' effects on those objects are not modelled.
- `SpecializedMacroAI.ExecuteStaticBehavior` delegates to the static bot scripts. Its selection of the behaviour is modelled, but running it is not.
- The frame sequencing of the parametric macro AI's `Update` is not modelled. Each of its decision steps is.
- The training loop of the economic boom bot's `ManageWarLogic` (EcoBoomAI.cs lines 111-123) only keeps soldiers training while the army gathers. Its training calls are covered by the training model, but the loop itself is not.
- Combat events raised by the unit system's `UpdateCombat` for the visualiser are not modelled.
- `Apso.Step` takes the evolutionary factor as an input. `CalculateEvolutionaryFactor` takes square roots of real distances, which this model does not compute.
- `Hybrid` takes the situation factor of each switch as an input, because its two-argument `CalculateGSF` call matches no overload of the analyser. `Gsf.CalculateGSF` is what such a call would compute.
- `Gsf.CalculateGSF` takes the distance function as a parameter, because the simulation's maths helpers do not define the distance it calls.
- `PathFinding.Search` carries a `fuel` counter that is the code's own 3000-iteration safety limit, so no behaviour is cut off by it.
- `SimMath.AbsInt` is over unbounded integers, so the wrap of `Math.Abs(int.MinValue)` is not modelled.
- Loading recordings in the two analysis scripts goes through an external library. A recording is an optional sequence, `None` on a failed load, and printing is the returned rows.
- `Adversarial.WinReward` and `SelfPlay.WinReward` require a positive step budget. The code divides by `MaxSteps`, which defaults to 5000; a zero budget would make that float division undefined, and the model does not follow it there.
- `Adversarial.EconomyRewards` requires player 1 when an agent plays against the Passive opponent. The code indexes player 1 without a check, which throws when the player is missing; the model leaves that exception out.
- `Elite.PursueGoal`: a unit goal states only that the map is untouched; the training itself is stated by `Elite.TryTrainUnit`. A building goal is stated in full.
- `Elite.MidGame`: states only what happens at the population cap. Below it, the worker, barracks, soldier, army and tower steps are stated by their own members, but their composition is not.
- `Elite.MacroDecision`: without the player's record the decision returns the world unchanged, where the code's `Players[id]` lookup throws. The model does not follow the exception.
- `Elite.AssignSmartGatherTasks`: without the player's record nothing changes, where the code's `Players[id]` lookup throws.
- `EcoBoom.AssignSmartGatherTasks`: without the player's record nothing changes, where the code's `Players[id]` lookup throws.
- `EcoBoom.StageOf`: takes the decision's tests (the cap, the war latch, the worker count, the base, the tower need) as inputs, so the decision's `Players[id]` lookup, which throws for a missing player, is outside it.
- `Experiment.ProcessStep`: hands the agent the environment's state code as written, as the code does. The agent's table lookups are outside the model; a state of 64 or 65 makes `_qTable[state, …]` throw (QLearningBrain.cs lines 39 and 55), and `Experiment.ProcessStepLeavesTable` shows such a state is reached.
- `Elite.MicroOne` and `Elite.PerformEmergencyDefense` use the search as written (`Elite.FirstEnemyWithin`), as the code does. `Elite.NearestEnemyWithin` is the corrected search of the Findings table, and no caller in the code uses it.
- `Crew.GetAvailableWorker`: after a unit has been removed, .NET's `Dictionary` may put the next unit into the freed slot and enumerate it before older ones; the model enumerates in the order of addition, so the worker found first can differ from the code's.
- `Elite.FirstEnemyWithin`: enumerates the units in the order of addition; after a removal the code may enumerate a newer unit first (see `Crew.GetAvailableWorker`).
- `Bots.AttackTarget`: enumerates units and buildings in the order of addition; after a removal the code may enumerate a newer entry first (see `Crew.GetAvailableWorker`).
- `Census.LastBaseHealth`: enumerates the buildings in the order of addition; after a removal the code may enumerate a newer building first (see `Crew.GetAvailableWorker`).
- `Buildings.FindNearestEnemy`: the tower enumerates the units in the order of addition. After a removal the code may enumerate a newer unit first, so among equally distant enemies the tower can shoot a different unit (see `Crew.GetAvailableWorker`).
- `Units.MoveToTarget`: the retry delay is a field of each unit (`retryTimer`). The code reads and writes `unit.PathRetryTimer`, but `SimUnitData` declares no such field; the only `PathRetryTimer` is a field of the unit system itself (SimUnitSystem.cs:24). The model takes the per-unit reading. Under the other reading, one shared timer, one unit's failed search would hold back every unit's search until the delay ran out; that reading is not modelled.
- `Masks.ActionMask` and `Masks.SelectionMask`: the selection agents call per-cell lookups (`GetUnitTypeAt`, `GetBuildingTypeAt`, `IsUnitOwnedByPlayer` and `GetUnitAtPosIndex`) that `DRLActionTranslator` does not define. The masks are exact only under the model's assumption of what those calls return: the unit type and owner of the unit on a cell, the building type on a cell, and no unit type on a building cell. `SimUnitType` has no value for "no unit", so that last part is the model's own choice.
- The placing members (`Bots.PlaceFirst`, `Rusher.TryBuildBuilding`, `Harasser.BuildNearBase`, `Turtle.TryBuildDefensiveStructure`, `EcoBoom.TryBuildBuilding`, `Elite.TryBuildStructure`, `Translator.TryBuildBuilding`, `SimpleAI.BarracksStep`) do not promise that only the players' stocks change, because a build order also appends the building, blocks its cell and sends the worker; they state `Spots.Erected`. Their callers (`Turtle.CheckPopulationCap`, `Turtle.EconomyTry`, `Turtle.BarracksStep`, `Rusher.CheckPopulationCap`, `Harasser.CheckPopulation`, `Elite.MidGame`, `Elite.PursueGoal`, `Elite.MacroDecision`) do not promise an untouched building list or map when they build; they state one build order by the first idle worker (`Bots.BuiltOne`).
- `SimpleAI.AttackWithAllSoldiers`: takes the soldiers from the world it is given, where the code walks the unit list taken at the start of the decision; no unit is added or removed between the two in one decision.
- `SimpleAI.OrderSoldiers`: orders every soldier against the world at the start of the loop. An order changes only that soldier, and the reachability and path searches read the map, which the loop does not change.
- `Crew.OrderEach` and `Crew.OrderAll`: every order loop (the gather, attack, defence, rally, micro, harass, split and charge loops) orders each unit against the world as it stood when the loop began. An order changes only the ordered unit's path, target and task, and it reads the map, the nodes, the buildings, the enemy's units and the ordered unit, none of which an earlier order of the loop changed.
- The per-unit clauses of the order loops' callers hold for worlds with unique unit IDs (`World.UniqueUnitIds`), as the unit dictionary's keys are; for a list with a repeated ID they promise only which units may change.
- The elite commander's comments speak of 0.1 s and 0.5 s decision intervals. The model follows the constants in the code.
- `DenseRunner.StepSimulation`: states the step count, the episode bound and the reset. The rewards are stated by `DenseRunner.DenseRewards` and `DenseRunner.CheckWinCondition`.
- `Swarm.UpdateFitness`: states only the fitness bounds, because the code as written moves no best position (see Findings).

## Findings

| source | as written | input that shows it | evidently intended | confidence | as-written member | corrected member |
|---|---|---|---|---|---|---|
| Assets/_Project/Scripts/Simulation/RL/SimRLEnvironment.cs:14-51 | three meat thresholds {0, 50, 100} give meat levels 0..2, weighted by 2 in a 64-row state code | a player with 2000 wood, 2000 stone, 100 meat at the population cap gets state 65; stone level 1 and meat level 2 both give state 4 | two meat levels, so that the code stays in 0..63 and can be decoded | not executed | SimRL.GetStateAsWritten | SimRL.GetState |
| Assets/_Project/Scripts/Simulation/DRL/RTSAgent.cs:124-131 | the mask uses its own action codes (10 = train a worker, 4 = house) while the translator reads 10 and 11 as unknown and 4 as train a soldier | player 1 can afford a worker under the cap: code 10 is enabled, the translator rejects it and the agent is charged 0.005 | a mask over the translator's code table | not executed | Masks.AgentCodesMisfire | Masks.TranslatorMask |
| Assets/_Project/Scripts/Simulation/AI/ParticleSwarmOptimizer.cs:81-88 | `Array.Copy(position, bestPosition, 0)` and the same for the global best copy zero elements | one particle at 5 reports fitness 10: the global best fitness becomes 10 and the global best position stays 0 | copy all `dimensions` coordinates | not executed | Swarm.UpdateFitness | Swarm.UpdateFitnessFixed |
| Assets/_Project/Scripts/Simulation/AI/SimpleMacroAI.cs:52-68 | the barracks step reads the base position without checking that a base exists | five workers, no barracks, the price stocked, a worker alive and the base destroyed: the step fails | decline the step when there is no base | not executed | SimpleAI.BarracksStepAsWritten | SimpleAI.BarracksStep |
| Assets/_Project/Scripts/Simulation/AI/Bots/EliteCommanderAI.cs:432-436 | `FindNearestEnemyUnit` returns the first enemy in range in enumeration order | an enemy at distance 3 listed before one at distance 1, both in range: the far one is returned | the nearest enemy in range | not executed | Elite.FirstEnemyWithin | Elite.NearestEnemyWithin |
