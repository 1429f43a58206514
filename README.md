# Gaming: pieces, decisions and the board, in Dafny

This project models the core of a turn-based grid simulation written in C++
(namespace `Gaming`). Pieces live on a row-major rectangular board:

- **Agents** carry an energy. A Simple agent follows a built-in decision
  cascade. A Strategic agent delegates its decision to a Strategy, which is
  either the default strategy or an aggressive one.
- **Resources** carry a capacity. Food keeps its declared capacity; an
  Advantage holds twice its declared capacity.

When one piece moves onto another, the two interact:

- two agents fight;
- an agent eats a resource;
- a resource moving onto something hands over to it.

Every piece gets an id from a static counter. Every round, an agent tires
and a resource spoils. The board holds the dimensions, status, round, grid
and the initial resource and agent totals. `populate` splits those totals
into per-class counts, kept in its own locals, and places that many pieces
at random slots.

Modules and files:

| file | module | models |
|---|---|---|
| `types.dfy` | `GameTypes` | positions, cell types, moves, the nine-cell surroundings, the index-to-move switch |
| `selection.dfy` | `Selection` | the scan/draw/switch pattern shared by all decisions |
| `simple_decision.dfy` | `SimpleDecision` | `Simple::takeTurn` |
| `default_strategy.dfy` | `DefaultStrategy` | `DefaultAgentStrategy::operator()` |
| `aggressive_strategy.dfy` | `AggressiveStrategy` | `AggressiveAgentStrategy::operator()` |
| `strategies.dfy` | `Strategies` | the Strategy object held by a Strategic agent |
| `ids.dfy` | `Ids` | the static id counter `Piece::__idGen` |
| `spoilage.dfy` | `Spoilage` | `Resource::age`, iterated |
| `pieces.dfy` | `Pieces` | Piece, Agent, Resource, Simple, Strategic, Food, Advantage |
| `game.dfy` | `Games` | the board: constructors, populate's counts and one placement step, `getNumSimple` |

How the model is built:

- **One class for the hierarchy.** The class tree becomes a single class
  `Pieces.Piece` with a constant `kind` tag. Every virtual member dispatches
  on that tag, which also stands in for `dynamic_cast`.
- **State changes in place.** Members that change pieces or the board in
  place (constructors, `age`, `consume`, `interact`, `operator*`, the
  placement step) are methods with `modifies` clauses.
- **Decisions are functions plus methods.** Each decision is a function
  that states the choice. A method beside it performs the source's loops
  (scan nine cells, draw, override a single candidate, switch) and is
  proved equal to that function. The preference orders are lemmas about the
  functions.
- **The random draw is a parameter.** Each draw is the parameter `r: nat`,
  and the properties are proved for every `r`.
- **Arithmetic.** Energies and capacities are `real`. The id counter is an
  unsigned 32-bit integer, so it wraps at 2^32.

Where the specification of the program and its code differ, the model
follows the code:

- `consume` on Food zeroes the capacity and returns it, so eating Food adds
  0 to the agent's energy.
- `consume` on an Advantage returns -1, so eating an Advantage costs 1
  energy.
- `consume` on Food does not mark the Food finished.
- The loser of a fight is marked finished, but its energy is not zeroed.
- A mover that is not finished after the interaction swaps positions with
  its target.
- A resource moving onto a piece calls that piece's `interact` with itself:
  an agent then eats the resource, and a resource ignores it.
- The default strategy attacks only Simple agents. It never targets
  Strategic ones.
- The aggressive strategy falls back in this order: Advantage, then Empty,
  then Food.
- The aggressive strategy compares the energy it stored at construction
  with the threshold. It does not use the holder's current energy.
- No constructor of the board checks its dimensions.
- The sized and copy constructors of the board do not set the round.

## Model

| member | source | states |
|---|---|---|
| GameTypes.IndexOf | Simple.cpp:45-75 | every move points to one of the nine cells, and the index-to-move switch maps that cell back to the move |
| GameTypes.ActionOfIsInjective | Simple.cpp:45-75 | the switch is one-to-one on the nine cell indices |
| Selection.Matching | DefaultAgentStrategy.cpp:17-21 | the indices a scan of the first k cells collects are exactly the cells of a wanted type below k; no index is collected exactly when no such cell exists |
| Selection.MatchingAscending | DefaultAgentStrategy.cpp:17-21 | the scan collects indices in strictly ascending order |
| Selection.SoleMatch | DefaultAgentStrategy.cpp:17-21 | when exactly one cell has a wanted type, the scan collects that index alone |
| Selection.Collect | DefaultAgentStrategy.cpp:17-21 | the loop over the nine cells computes exactly the candidate list |
| Selection.PickPointsIntoCandidates | DefaultAgentStrategy.cpp:47-49 | whatever the draw, a non-empty candidate list yields a move toward one of its cells |
| Selection.PickReachesEveryCandidate | DefaultAgentStrategy.cpp:48 | every candidate is chosen by some draw (ties are broken among all of them) |
| Selection.PickSingleIsDeterministic | DefaultAgentStrategy.cpp:49 | a single candidate is chosen whatever the draw |
| Selection.PickFromTier | DefaultAgentStrategy.cpp:17-49 | when some cell has a wanted type, the scan is non-empty and the chosen move points to a cell of that type |
| Selection.TierCellReachable | DefaultAgentStrategy.cpp:17-48 | every cell of a wanted type is reached by some draw |
| SimpleDecision.TakeTurn | Simple.cpp:18-80 | the two scans, the draw, the single-candidate override and the switch compute exactly the Simple agent's choice |
| SimpleDecision.SimplePreferenceOrder | Simple.cpp:25-79 | a Simple agent heads for a resource (Advantage or Food) if there is one, else an empty cell, else stays |
| SimpleDecision.SimpleNeverTargetsAgents | Simple.cpp:25-39 | a Simple agent only ever moves toward a resource or an empty cell, or stays because there is none |
| SimpleDecision.SimpleTiesReachable | Simple.cpp:25-43 | Advantage and Food are equally preferred: every resource cell is chosen by some draw |
| SimpleDecision.SimpleSoleResource | Simple.cpp:41-43 | a single resource cell is chosen whatever the draw |
| SimpleDecision.SimpleSingleCandidate | Simple.cpp:41-43 | whichever group the cascade settles on (resources or empty cells), a single cell in it is chosen whatever the draw |
| SimpleDecision.SimpleTiesAmongGroup | Simple.cpp:41-43 | whichever group the cascade settles on, every cell in it is chosen by some draw |
| DefaultStrategy.Decide | DefaultAgentStrategy.cpp:12-86 | the four scans, the draw and the switch compute exactly the default choice |
| DefaultStrategy.DefaultPreferenceOrder | DefaultAgentStrategy.cpp:17-85 | the default strategy prefers Advantage, then Food, then Empty, then a Simple agent, and otherwise stays |
| DefaultStrategy.DefaultNeverTargetsStrategic | DefaultAgentStrategy.cpp:39-45 | the default strategy never moves toward a Strategic agent, an inaccessible cell or itself, except by staying |
| DefaultStrategy.DefaultSoleAdvantage | DefaultAgentStrategy.cpp:47-49 | a single Advantage in view is chosen whatever the draw |
| DefaultStrategy.DefaultTiesReachable | DefaultAgentStrategy.cpp:17-48 | every Advantage cell in view is chosen by some draw |
| DefaultStrategy.DefaultSingleCandidate | DefaultAgentStrategy.cpp:47-49 | whichever of the four groups the cascade settles on, a single cell in it is chosen whatever the draw |
| DefaultStrategy.DefaultTiesAmongGroup | DefaultAgentStrategy.cpp:47-49 | whichever group the cascade settles on, every cell in it is chosen by some draw |
| AggressiveStrategy.Decide | AggressiveAgentStrategy.cpp:15-91 | the gated agent scan, the three fallback scans, the draw and the switch compute exactly the aggressive choice |
| AggressiveStrategy.ThresholdIsFifteen | AggressiveAgentStrategy.cpp:9 | the aggression threshold is three quarters of the starting energy, that is 15 |
| AggressiveStrategy.AggressiveAttacks | AggressiveAgentStrategy.cpp:19-25 | above the threshold, with an agent in view, the move points to an agent |
| AggressiveStrategy.AggressiveFallbackOrder | AggressiveAgentStrategy.cpp:27-90 | otherwise the preference is Advantage, then Empty, then Food, else stay |
| AggressiveStrategy.CalmNeverAttacks | AggressiveAgentStrategy.cpp:19 | at or below the threshold the move never points to an agent |
| AggressiveStrategy.AggressiveSoleTarget | AggressiveAgentStrategy.cpp:51-54 | above the threshold a single agent in view is attacked whatever the draw |
| AggressiveStrategy.AggressiveSingleCandidate | AggressiveAgentStrategy.cpp:51-54 | whichever of the four groups the cascade settles on, a single cell in it is chosen whatever the draw |
| AggressiveStrategy.AggressiveTiesAmongGroup | AggressiveAgentStrategy.cpp:51-54 | whichever group the cascade settles on, every cell in it is chosen by some draw |
| Strategies.Strategy.Apply | Strategic.cpp:21 | the virtual call operator dispatches to exactly the held strategy's choice |
| Ids.CounterAdvancesByOne | Piece.cpp:12 | until the counter wraps, each construction advances it by exactly one |
| Ids.IdsStrictlyIncrease | Piece.cpp:12 | pieces constructed later receive strictly larger ids until the counter wraps, so ids are unique below 2^32 |
| Ids.FirstIdIsOne | Piece.cpp:7-12 | the first piece ever constructed gets id 1 |
| Ids.CounterWraps | Piece.cpp:7-12 | the unsigned counter wraps from 2^32-1 back to 0 |
| Ids.IdGenerator.constructor | Piece.cpp:7 | the counter starts at 0 |
| Ids.IdGenerator.Issue | Piece.cpp:12 | pre-increment: the counter advances by one modulo 2^32 and the new value is the id |
| Spoilage.Spoiled | Resource.cpp:18-22 | one round of spoilage divides the capacity by 1.2 and leaves either 0 or at least 0.001 |
| Spoilage.SpoilageNeverIncreases | Resource.cpp:18-22 | a non-negative capacity never grows from one round to the next and stays non-negative |
| Spoilage.SpoilageBound | Resource.cpp:19 | after n rounds the capacity is at most 5c/(5+n) |
| Spoilage.SpoilsAway | Resource.cpp:18-22 | every non-negative capacity reaches 0 after finitely many rounds |
| Pieces.LettersDistinct | Food.cpp:13 | the one-letter codes S, T, F and D tell the four classes apart |
| Pieces.ResourcesStay | Resource.cpp:24 | a resource's takeTurn is STAY for every surroundings |
| Pieces.StrategicDelegates | Strategic.cpp:21 | a Strategic agent's takeTurn returns exactly its strategy's answer |
| Pieces.Piece.Simple | Simple.cpp:10 | a new Simple agent takes the next id and the given position, has both flags clear and stores the energy |
| Pieces.Piece.Strategic | Strategic.cpp:12-13 | a new Strategic agent is as a Simple one and stores its strategy |
| Pieces.Piece.Food | Food.cpp:15-16 | a new Food takes the next id and holds the declared capacity |
| Pieces.Piece.Advantage | Advantage.cpp:15-16 | a new Advantage takes the next id and holds twice the declared capacity |
| Pieces.Piece.GetCapacity | Advantage.cpp:26 | reading the capacity changes nothing |
| Pieces.Piece.Age | Agent.cpp:17-19 | an agent loses 0.3 energy; a resource's capacity spoils as Resource::age does; nothing else changes |
| Pieces.Piece.Consume | Advantage.cpp:28-33 | Food's capacity becomes 0 and 0 is returned (Resource.cpp:13-16); an Advantage's becomes -1, -1 is returned and it is finished |
| Pieces.ConsumeTwice | Resource.cpp:13-16 | consume is idempotent: both calls return the same amount, the capacity is that amount, the finished flag is as after one call, and position, turn flag and energy are unchanged |
| Pieces.Piece.TakeTurn | Strategic.cpp:21 | the virtual takeTurn returns the class's decision and changes no piece |
| Pieces.Piece.InteractWithAgent | Agent.cpp:43-59 | equal energies finish both agents; otherwise the stronger loses the weaker's energy and the weaker is finished with its energy unchanged; a resource receiver (Resource.cpp:29) changes nothing |
| Pieces.Piece.InteractWithResource | Agent.cpp:61-64 | the agent's energy grows by what consume returns and the resource is consumed; a resource receiver (Resource.cpp:31) changes nothing |
| Pieces.Piece.MoveOnto | Agent.cpp:21-41 | an agent interacts according to the other's class, then swaps positions with it exactly when it is not finished, and returns itself; a resource mover (Resource.cpp:27) lets the other piece interact with it and returns the other |
| Games.SplitCounts | Game.cpp:58-61 | a quarter (rounded down) of the resources are Advantages and the rest Food; half (rounded down) of the agents are Strategic and the rest Simple |
| Games.StaleTotalsPlaceNothing | Game.cpp:58-64 | totals still at 0 when they are split give no piece of any class |
| Games.StaleTotalsOnThreeByThree | Game.cpp:58-64 | on one 3×3 board whose totals hold 0, the plan as written gives counts (0, 0, 0, 0) and the corrected plan gives (1, 3, 1, 1) |
| Games.ThreeByThreePlan | Game.cpp:58-64 | with the totals assigned first, a 3×3 board gets 1 Advantage, 3 Food, 1 Strategic and 1 Simple |
| Games.SlotPositionIsRowMajor | Game.cpp:70 | the position given to a piece in slot i is row-major, inverts row*width+col and lies on the board |
| Games.EvalGuard | Game.cpp:69-99 | evaluating a guard's checks left to right with short-circuit `&&`: it reads out of range only through a slot check with a draw past the grid, and it accepts only draws that pass every check it holds |
| Games.GuardReadsPastEnd | Game.cpp:55-79 | with an n-slot grid, the Strategic loop (slot check only) and the Simple loop (slot check before the bound check) read slot n for the in-range draw n |
| Games.ResourceGuardStaysInside | Game.cpp:87-99 | the Food and Advantage loops check the bound first, so they never read out of range, and they accept exactly the draws that are empty slots |
| Games.UnsizedGridReadsOutOfRange | Game.cpp:21-99 | with the grid left empty by the constructors, every loop reads out of range for every draw its bound check lets through |
| Games.CountSimpleIsSlotCount | Game.cpp:113-123 | the Simple count is the number of slots holding a Simple agent |
| Games.PlacementCountsSimple | Game.cpp:69-81 | placing a piece into an empty slot raises the Simple count by one exactly when it is a Simple agent |
| Games.Game.constructor | Game.cpp:21-27 | a 3×3 board, not started, at round 0, with the totals set by populate as written (half and a quarter of the cells); the grid has its 9 empty slots (the corrected sizing) |
| Games.Game.Sized | Game.cpp:29-38 | the given dimensions, not started, round not set; the totals are set by populate as written only when manual is false; the grid has width×height empty slots (the corrected sizing) |
| Games.Game.SizedAsWritten | Game.cpp:29-38 | as written, the grid is never sized: it is empty, so a board with any cell is inconsistent |
| Games.Game.Copy | Game.cpp:40-45 | width, height, status and the slots are copied, sharing the pieces; a consistent board gives a consistent copy |
| Games.Game.PlanPopulation | Game.cpp:58-64 | the totals are half and a quarter of the cells, and the counts are split from those totals |
| Games.Game.PlanPopulationAsWritten | Game.cpp:58-64 | the totals are half and a quarter of the cells, but the counts are split from the totals as they were before the call |
| Games.Game.PlaceStep | Game.cpp:67-104 | a draw places a piece exactly when it is an empty slot, which is exactly what the bound-first guard of the Food and Advantage loops accepts; the new piece has the class, the slot's position, the next id, clear flags and the starting energy or capacity (twice it for an Advantage); one fewer remains and nothing else changes |
| Games.Game.NumSimple | Game.cpp:113-123 | the loop counts exactly the slots holding a Simple agent |

## Left out

- Stream output is not modelled: `print` in each class and `operator<<` on a piece only write text.
- Random draws:
  - The random engine and the distribution are replaced by a draw parameter, and every property is proved for all draws.
  - Each decision builds a fresh, default-seeded engine, so in the program the draw is in fact the same value on every call. The model does not rely on this.
- Floating point is modelled as exact real arithmetic; IEEE rounding of `double` is not modelled.
- Memory management is not modelled: `new`/`delete`, the destructors (among them the Strategic destructor that deletes its strategy) and the unused locals in the Agent destructor.
- `dynamic_cast` is replaced by the kind tag. This has no effect on behaviour, because every piece is exactly one of the four classes.
- Piece's reference to its Game is not modelled; no modelled member uses it.
- Games.Game.constructor: the source never sizes the grid, so as written it is an empty vector. The model gives it its 9 empty slots on purpose, as the corrected behaviour in the third finding below; Games.Game.SizedAsWritten keeps the empty grid.
- Games.Game.constructor: populate's placement loops are not run. The constructor therefore states only the totals and the size of the grid, not which slots are filled.
- Games.Game.Sized: the source never sizes the grid either; the model gives it width×height empty slots on purpose, as for the default constructor.
- Games.Game.Sized: when manual is false, populate's placement loops are not run, as for the default constructor.
- Games.Game.PlaceStep: models one iteration of a placement loop. The loops around it stop only when the draws happen to fill enough empty slots, so they are not modelled as loops.
- Game.h and the other headers are not part of this model. So the strategy a populated Strategic agent receives (the header's default argument) is a parameter of PlaceStep, carried in the piece's kind.
- Games.SplitCounts: does not model the 32-bit unsigned wrap-around of width×height or of the counts; dimensions are unbounded naturals.
- Ids.IdGenerator.Issue: the model wraps at 2^32 exactly as the unsigned counter does, so ids are unique only while fewer than 2^32 pieces have been constructed.
- The rest of the game is not part of this model: the round scheduler, how surroundings are computed, how moves are resolved on the grid, status changes, and the `turned` flag's use.
- Pieces.Piece.MoveOnto: aliasing between the board's grid and the pieces is not related to positions after a move; the board's Valid invariant is not claimed across moves.

## Findings

| source | as written | input that shows it | evidently intended | confidence | as-written member | corrected member |
|---|---|---|---|---|---|---|
| Game.cpp:58-64 | populate splits `__numInitResources` and `__numInitAgents` into class counts before it assigns them, so the counts come from the earlier values | a board whose totals hold 0 when populate runs: every count is 0 and nothing is placed (Games.StaleTotalsPlaceNothing) | assign the totals first, then split them: a 3×3 board gets 1 Advantage, 3 Food, 1 Strategic and 1 Simple (Games.ThreeByThreePlan) | not executed; high | Games.Game.PlanPopulationAsWritten | Games.Game.PlanPopulation |
| Game.cpp:55-79 | the draw ranges over 0..width×height inclusive; the Strategic loop reads `__grid[i]` without checking the bound, and the Simple loop reads it before checking `i != width*height` | on a 3×3 board whose grid has been given its 9 slots (the corrected sizing of the third row), the draw 9 makes both agent loops read slot 9, one past the end (Games.GuardReadsPastEnd); with the grid as written, see the third row | check that the draw is a slot index before reading the slot, as the Food and Advantage loops do (Games.ResourceGuardStaysInside) | not executed; high | Games.LoopGuard | Games.Game.PlaceStep |
| Game.cpp:21-45 | no constructor sizes `__grid`, and nothing else in the file does, so it stays an empty vector | Game(3, 3, false): once populate has a non-zero count, the first draw the guard reads is out of range (Games.UnsizedGridReadsOutOfRange), and getNumSimple sees no slot | give the grid width×height empty slots before populate | not executed; high | Games.Game.SizedAsWritten | Games.Game.Sized |
