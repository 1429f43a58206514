/** The board: its dimensions, status and round, the row-major grid of slots,
    the population totals and the one placement step of populate. */
module Games {
  import opened GameTypes
  import opened Ids
  import opened Pieces

  datatype Option<T> = None | Some(value: T)

  /** NUM_INIT_AGENT_FACTOR: one agent per this many cells. */
  const NumInitAgentFactor: nat := 4
  /** NUM_INIT_RESOURCE_FACTOR: one resource per this many cells. */
  const NumInitResourceFactor: nat := 2
  const MinWidth: nat := 3
  const MinHeight: nat := 3

  /** How many pieces of each class populate places. */
  datatype PopulationCounts = PopulationCounts(advantages: nat, foods: nat, strategic: nat, simple: nat)

  /** A quarter (rounded down) of the resources are Advantages, the rest Food;
      half (rounded down) of the agents are Strategic, the rest Simple. */
  function SplitCounts(resources: nat, agents: nat): (c: PopulationCounts)
    ensures c.advantages + c.foods == resources && c.advantages <= c.foods
    ensures c.strategic + c.simple == agents && c.strategic <= c.simple
    ensures c.advantages == resources / 4 && c.strategic == agents / 2
  {
    PopulationCounts(resources / 4, resources - resources / 4, agents / 2, agents - agents / 2)
  }

  /** The initial resource total: half the cells, rounded down. */
  function InitialResources(width: nat, height: nat): nat
  {
    width * height / NumInitResourceFactor
  }

  /** The initial agent total: a quarter of the cells, rounded down. */
  function InitialAgents(width: nat, height: nat): nat
  {
    width * height / NumInitAgentFactor
  }

  /** Totals still at 0 when populate splits them: nothing is placed. */
  lemma StaleTotalsPlaceNothing()
    ensures SplitCounts(0, 0) == PopulationCounts(0, 0, 0, 0)
  {
    assert 0 / 4 == 0 && 0 / 2 == 0;
  }

  /** The totals of a 3×3 board split into 1 Advantage, 3 Food, 1 Strategic
      and 1 Simple. */
  lemma ThreeByThreePlan()
    ensures SplitCounts(InitialResources(3, 3), InitialAgents(3, 3)) == PopulationCounts(1, 3, 1, 1)
  {
    assert InitialResources(3, 3) == 4 && InitialAgents(3, 3) == 2;
  }

  /** The position a piece placed into slot i gets: Position(i / w, i % w). */
  function SlotPosition(i: nat, width: nat): Position
    requires width > 0
  {
    Position(i / width, i % width)
  }

  /** The slot-to-position mapping is row-major and inverts
      `index = row * width + col`; it lands inside the board. */
  lemma SlotPositionIsRowMajor(i: nat, width: nat, height: nat)
    requires width > 0 && i < width * height
    ensures SlotPosition(i, width).row * width + SlotPosition(i, width).col == i
    ensures SlotPosition(i, width).col < width && SlotPosition(i, width).row < height
  {
  }

  /** One check of a placement loop's guard: the slot at the draw is empty
      (a read of the grid), or the draw is not width*height. */
  datatype GuardCheck = SlotEmpty | NotPastEnd

  /** What evaluating a guard does: it rejects the draw, accepts it, or reads a
      slot the grid does not have. */
  datatype GuardOutcome = Rejects | Accepts | ReadsOutOfRange

  /** The checks each placement loop of populate applies to a draw, in source
      order: the Strategic loop only checks the slot, the Simple loop checks the
      slot and then the bound, the Food and Advantage loops check the bound and
      then the slot. */
  function LoopGuard(kind: Kind): seq<GuardCheck>
  {
    if kind.StrategicAgent? then [SlotEmpty]
    else if kind.SimpleAgent? then [SlotEmpty, NotPastEnd]
    else [NotPastEnd, SlotEmpty]
  }

  /** Evaluate the checks left to right with short-circuit `&&`, for the draw i,
      on grid g of a board with n cells. A slot check reads g[i]. */
  function EvalGuard(checks: seq<GuardCheck>, g: seq<Option<Piece>>, i: nat, n: nat): (r: GuardOutcome)
    ensures r == ReadsOutOfRange ==> SlotEmpty in checks && i >= |g|
    ensures r == Accepts ==> (NotPastEnd in checks ==> i != n)
    ensures r == Accepts ==> (SlotEmpty in checks ==> i < |g| && g[i].None?)
    decreases |checks|
  {
    if checks == [] then Accepts
    else
      match checks[0]
      case NotPastEnd =>
        if i == n then Rejects else EvalGuard(checks[1..], g, i, n)
      case SlotEmpty =>
        if i >= |g| then ReadsOutOfRange
        else if g[i].Some? then Rejects
        else EvalGuard(checks[1..], g, i, n)
  }

  /** The draw ranges over 0..n inclusive for a board of n cells. For both
      agent loops, the draw n makes the guard read slot n of an n-slot grid,
      one past its end. */
  lemma GuardReadsPastEnd(kind: Kind, g: seq<Option<Piece>>)
    requires kind.IsAgent()
    ensures EvalGuard(LoopGuard(kind), g, |g|, |g|) == ReadsOutOfRange
  {
  }

  /** The resource loops check the bound first: on an n-slot grid they never
      read out of range for any draw in 0..n, and they accept exactly the
      draws that are empty slots. */
  lemma ResourceGuardStaysInside(kind: Kind, g: seq<Option<Piece>>, i: nat)
    requires kind.IsResource() && i <= |g|
    ensures EvalGuard(LoopGuard(kind), g, i, |g|) != ReadsOutOfRange
    ensures EvalGuard(LoopGuard(kind), g, i, |g|) == Accepts <==> i < |g| && g[i].None?
  {
    var checks := LoopGuard(kind);
    assert checks[1..] == [SlotEmpty] && checks[1..][1..] == [];
    if i < |g| && g[i].None? {
      assert EvalGuard(checks[1..][1..], g, i, |g|) == Accepts;
      assert EvalGuard(checks[1..], g, i, |g|) == Accepts;
    }
  }

  /** With the grid as the constructors leave it (never sized, so empty),
      every loop reads out of range for every draw its bound check lets
      through: all draws for the agent loops, all but n for the resource
      loops. */
  lemma UnsizedGridReadsOutOfRange(kind: Kind, i: nat, n: nat)
    requires i <= n && (kind.IsAgent() || i < n)
    ensures EvalGuard(LoopGuard(kind), [], i, n) == ReadsOutOfRange
  {
  }

  /** A slot holds a Simple agent. */
  predicate IsSimpleSlot(slot: Option<Piece>)
  {
    slot.Some? && slot.value.kind.SimpleAgent?
  }

  /** The number of slots holding a Simple agent, counted front to back. */
  function CountSimple(g: seq<Option<Piece>>): nat
  {
    if g == [] then 0
    else CountSimple(g[..|g| - 1]) + (if IsSimpleSlot(g[|g| - 1]) then 1 else 0)
  }

  /** The slots holding a Simple agent. */
  function SimpleSlots(g: seq<Option<Piece>>): set<nat>
  {
    set i | 0 <= i < |g| && IsSimpleSlot(g[i])
  }

  /** The count is the size of the set of Simple slots. */
  lemma {:induction false} CountSimpleIsSlotCount(g: seq<Option<Piece>>)
    ensures CountSimple(g) == |SimpleSlots(g)|
  {
    if g != [] {
      var n := |g| - 1;
      CountSimpleIsSlotCount(g[..n]);
      assert SimpleSlots(g) == SimpleSlots(g[..n]) + (if IsSimpleSlot(g[n]) then {n} else {});
    }
  }

  /** Placing a piece into an empty slot raises the Simple count by one exactly
      when the piece is a Simple agent. */
  lemma PlacementCountsSimple(g: seq<Option<Piece>>, i: nat, p: Piece)
    requires i < |g| && g[i].None?
    ensures CountSimple(g[i := Some(p)]) == CountSimple(g) + (if p.kind.SimpleAgent? then 1 else 0)
  {
    var g' := g[i := Some(p)];
    CountSimpleIsSlotCount(g);
    CountSimpleIsSlotCount(g');
    if p.kind.SimpleAgent? {
      assert SimpleSlots(g') == SimpleSlots(g) + {i};
    } else {
      assert SimpleSlots(g') == SimpleSlots(g);
    }
  }

  function EmptyGrid(n: nat): (g: seq<Option<Piece>>)
    ensures |g| == n && forall i :: 0 <= i < n ==> g[i].None?
  {
    seq(n, _ => None)
  }

  class Game {
    var width: nat
    var height: nat
    var status: Status
    var round: nat
    /** The slots, row-major; a slot is empty or owns one piece. */
    var grid: seq<Option<Piece>>
    var numInitResources: nat
    var numInitAgents: nat

    /** The pieces on the board. */
    ghost function Occupants(): set<Piece>
      reads this
    {
      set i | 0 <= i < |grid| && grid[i].Some? :: grid[i].value
    }

    /** The grid has one slot per cell and every piece on it records the
        position of its slot. */
    ghost predicate Valid()
      reads this, Occupants()
    {
      && |grid| == width * height
      && forall i :: 0 <= i < |grid| && grid[i].Some? ==>
           width > 0 && grid[i].value.position == SlotPosition(i, width)
    }

    /** Game(): a 3×3 board, not started, at round 0, then populate (of
        which the totals and counts are modelled, not the placement loops).
        The grid is given its 9 empty slots, which the source never does. */
    constructor ()
      ensures Valid() && status == NotStarted && round == 0
      ensures width == MinWidth && height == MinHeight && |grid| == 9
      ensures numInitResources == InitialResources(width, height)
      ensures numInitAgents == InitialAgents(width, height)
    {
      status := NotStarted;
      width := MinWidth;
      height := MinHeight;
      round := 0;
      grid := EmptyGrid(MinWidth * MinHeight);
      new;
      var _ := PlanPopulationAsWritten();
    }

    /** Game(width, height, manual): the given dimensions, not started;
        populate runs only when manual is false. The round is not set. The
        grid is given its width*height empty slots, which the source never
        does. */
    constructor Sized(width: nat, height: nat, manual: bool)
      ensures Valid() && status == NotStarted
      ensures this.width == width && this.height == height
      ensures |grid| == width * height
      ensures manual ==> grid == EmptyGrid(width * height)
      ensures !manual ==> numInitResources == InitialResources(width, height)
      ensures !manual ==> numInitAgents == InitialAgents(width, height)
    {
      status := NotStarted;
      this.width := width;
      this.height := height;
      grid := EmptyGrid(width * height);
      new;
      if !manual {
        var _ := PlanPopulationAsWritten();
      }
    }

    /** Game(width, height, manual) as written: no constructor sizes the grid,
        so it stays an empty vector, and a board with any cell has no slot for
        it. */
    constructor SizedAsWritten(width: nat, height: nat, manual: bool)
      ensures status == NotStarted && this.width == width && this.height == height
      ensures grid == []
      ensures width * height > 0 ==> !Valid()
      ensures !manual ==> numInitResources == InitialResources(width, height)
      ensures !manual ==> numInitAgents == InitialAgents(width, height)
    {
      status := NotStarted;
      this.width := width;
      this.height := height;
      grid := [];
      new;
      if !manual {
        var _ := PlanPopulationAsWritten();
      }
    }

    /** Game(const Game&): width, height, status and the slots (sharing the
        pieces) are copied; the round and totals are not. */
    constructor Copy(another: Game)
      ensures width == another.width && height == another.height
      ensures status == another.status && grid == another.grid
      ensures another.Valid() ==> Valid()
    {
      width := another.width;
      height := another.height;
      status := another.status;
      grid := another.grid;
    }

    /** The counts populate computes, with the totals assigned first. */
    method PlanPopulation() returns (counts: PopulationCounts)
      modifies this`numInitResources, this`numInitAgents
      ensures numInitResources == InitialResources(width, height)
      ensures numInitAgents == InitialAgents(width, height)
      ensures counts == SplitCounts(numInitResources, numInitAgents)
    {
      numInitResources := width * height / NumInitResourceFactor;
      numInitAgents := width * height / NumInitAgentFactor;
      var numAdvantages := numInitResources / 4;
      var numFoods := numInitResources - numAdvantages;
      var numStrategic := numInitAgents / 2;
      var numSimple := numInitAgents - numStrategic;
      counts := PopulationCounts(numAdvantages, numFoods, numStrategic, numSimple);
    }

    /** The counts populate computes as written: split from the totals as they
        were before this call, and only then are the totals assigned. */
    method PlanPopulationAsWritten() returns (counts: PopulationCounts)
      modifies this`numInitResources, this`numInitAgents
      ensures numInitResources == InitialResources(width, height)
      ensures numInitAgents == InitialAgents(width, height)
      ensures counts == SplitCounts(old(numInitResources), old(numInitAgents))
    {
      var numAdvantages := numInitResources / 4;
      var numFoods := numInitResources - numAdvantages;
      var numStrategic := numInitAgents / 2;
      var numSimple := numInitAgents - numStrategic;
      numInitResources := width * height / NumInitResourceFactor;
      numInitAgents := width * height / NumInitAgentFactor;
      counts := PopulationCounts(numAdvantages, numFoods, numStrategic, numSimple);
    }

    /** One iteration of a placement loop of populate, for the draw i (drawn
        from 0..width*height inclusive): if i is a slot and the slot is empty,
        a new piece of the given class is made there with the starting energy
        or capacity, and one fewer piece of that class remains to be placed.
        The bound is checked before the slot is read. */
    method PlaceStep(kind: Kind, i: nat, ids: IdGenerator, remaining: nat) returns (placed: bool, left: nat)
      requires Valid() && ids.Valid()
      requires remaining > 0 && i <= width * height
      modifies this`grid, ids
      ensures Valid() && ids.Valid()
      ensures placed == (i < |old(grid)| && old(grid)[i].None?)
      ensures placed == (EvalGuard(LoopGuard(FoodResource), old(grid), i, width * height) == Accepts)
      ensures !placed ==> grid == old(grid) && left == remaining && ids.last == old(ids.last)
      ensures placed ==>
        && left == remaining - 1
        && |grid| == |old(grid)| && grid[i].Some? && fresh(grid[i].value)
        && grid == old(grid)[i := grid[i]]
        && grid[i].value.kind == kind
        && grid[i].value.id == ids.last && ids.last == NextId(old(ids.last))
        && grid[i].value.position == SlotPosition(i, width)
        && !grid[i].value.finished && !grid[i].value.turned
        && (kind.IsAgent() ==> grid[i].value.energy == StartingAgentEnergy)
        && (kind.FoodResource? ==> grid[i].value.capacity == StartingResourceCapacity)
        && (kind.AdvantageResource? ==> grid[i].value.capacity == 2.0 * StartingResourceCapacity)
    {
      ResourceGuardStaysInside(FoodResource, grid, i);
      if i < |grid| && grid[i].None? {
        var pos := SlotPosition(i, width);
        var p: Piece;
        if kind.SimpleAgent? {
          p := new Piece.Simple(ids, pos, StartingAgentEnergy);
        } else if kind.StrategicAgent? {
          p := new Piece.Strategic(ids, pos, StartingAgentEnergy, kind.strategy);
        } else if kind.FoodResource? {
          p := new Piece.Food(ids, pos, StartingResourceCapacity);
        } else {
          p := new Piece.Advantage(ids, pos, StartingResourceCapacity);
        }
        grid := grid[i := Some(p)];
        placed, left := true, remaining - 1;
      } else {
        placed, left := false, remaining;
      }
    }

    /** getNumSimple: count the slots holding a Simple agent. */
    method NumSimple() returns (n: nat)
      ensures n == CountSimple(grid)
    {
      n := 0;
      for k := 0 to |grid|
        invariant n == CountSimple(grid[..k])
      {
        assert grid[..k + 1][..k] == grid[..k];
        if IsSimpleSlot(grid[k]) {
          n := n + 1;
        }
      }
      assert grid[..|grid|] == grid;
    }
  }

  /** The stale-totals defect on one 3×3 board whose totals still hold 0 when
      populate runs: the counts as written place nothing, the corrected order
      places 1 Advantage, 3 Food, 1 Strategic and 1 Simple. */
  method StaleTotalsOnThreeByThree() returns (asWritten: PopulationCounts, corrected: PopulationCounts)
    ensures asWritten == PopulationCounts(0, 0, 0, 0)
    ensures corrected == PopulationCounts(1, 3, 1, 1)
  {
    var board := new Game.Sized(3, 3, true);
    board.numInitResources, board.numInitAgents := 0, 0;
    asWritten := board.PlanPopulationAsWritten();
    assert asWritten == SplitCounts(0, 0);
    StaleTotalsPlaceNothing();
    board.numInitResources, board.numInitAgents := 0, 0;
    corrected := board.PlanPopulation();
    assert corrected == SplitCounts(InitialResources(3, 3), InitialAgents(3, 3));
    ThreeByThreePlan();
  }
}
