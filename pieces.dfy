/** The pieces of the board: the Piece base with its identity and flags,
    the Resources (Food, Advantage) with a capacity and the Agents (Simple,
    Strategic) with an energy. The class hierarchy becomes one class with a
    constant kind tag; every virtual member dispatches on it. */
module Pieces {
  import opened GameTypes
  import opened Ids
  import opened Spoilage
  import opened Strategies
  import SimpleDecision

  /** AGENT_FATIGUE_RATE: the energy an agent loses per round. */
  const AgentFatigueRate: real := 0.3
  /** ADVANTAGE_MULT_FACTOR: an Advantage holds twice its declared capacity. */
  const AdvantageMultFactor: real := 2.0

  /** The concrete class of a piece; a Strategic agent owns its strategy. */
  datatype Kind = SimpleAgent | StrategicAgent(strategy: Strategy) | FoodResource | AdvantageResource
  {
    predicate IsAgent()
    {
      SimpleAgent? || StrategicAgent?
    }

    predicate IsResource()
    {
      FoodResource? || AdvantageResource?
    }

    /** The one-letter category code of the class: SIMPLE_ID, STRATEGIC_ID,
        FOOD_ID, ADVANTAGE_ID. */
    function Letter(): char
    {
      match this
      case SimpleAgent => 'S'
      case StrategicAgent(_) => 'T'
      case FoodResource => 'F'
      case AdvantageResource => 'D'
    }

    /** The virtual takeTurn: a resource always stays, a Simple agent uses its
        built-in cascade, a Strategic agent whatever its strategy returns. */
    function Decision(s: Surroundings, r: nat): ActionType
    {
      match this
      case SimpleAgent => SimpleDecision.SimpleChoice(s, r)
      case StrategicAgent(st) => st.Choice(s, r)
      case FoodResource => Stay
      case AdvantageResource => Stay
    }

    /** What consume returns and leaves as the capacity: Resource::consume
        zeroes the capacity and returns it (so 0); Advantage::consume sets it
        to -1 and returns that. */
    function ConsumeYield(): real
      requires IsResource()
    {
      if FoodResource? then 0.0 else -1.0
    }
  }

  /** The letters tell the four classes apart. */
  lemma LettersDistinct(k1: Kind, k2: Kind)
    requires k1.Letter() == k2.Letter()
    ensures k1.SimpleAgent? == k2.SimpleAgent? && k1.StrategicAgent? == k2.StrategicAgent?
    ensures k1.FoodResource? == k2.FoodResource? && k1.AdvantageResource? == k2.AdvantageResource?
  {
  }

  /** A resource's takeTurn is STAY for all surroundings. */
  lemma ResourcesStay(k: Kind, s: Surroundings, r: nat)
    requires k.IsResource()
    ensures k.Decision(s, r) == Stay
  {
  }

  /** A Strategic agent's takeTurn returns exactly its strategy's answer. */
  lemma StrategicDelegates(st: Strategy, s: Surroundings, r: nat)
    ensures StrategicAgent(st).Decision(s, r) == st.Choice(s, r)
  {
  }

  class Piece {
    const id: nat
    const kind: Kind
    var position: Position
    var finished: bool
    var turned: bool
    /** Agent::__energy; not used by resources. */
    var energy: real
    /** Resource::__capacity; not used by agents. */
    var capacity: real

    /** Simple(g, p, energy): the Piece part takes the next id and the
        position, clears both flags; the Agent part stores the energy. */
    constructor Simple(ids: IdGenerator, p: Position, energy: real)
      requires ids.Valid()
      modifies ids
      ensures ids.Valid() && ids.last == NextId(old(ids.last)) && id == ids.last
      ensures kind == SimpleAgent && position == p && !finished && !turned
      ensures this.energy == energy
    {
      var next := ids.Issue();
      id := next;
      kind := SimpleAgent;
      position := p;
      finished := false;
      turned := false;
      this.energy := energy;
      capacity := 0.0;
    }

    /** Strategic(g, p, energy, s): as Simple, and the strategy is stored. */
    constructor Strategic(ids: IdGenerator, p: Position, energy: real, s: Strategy)
      requires ids.Valid()
      modifies ids
      ensures ids.Valid() && ids.last == NextId(old(ids.last)) && id == ids.last
      ensures kind == StrategicAgent(s) && position == p && !finished && !turned
      ensures this.energy == energy
    {
      var next := ids.Issue();
      id := next;
      kind := StrategicAgent(s);
      position := p;
      finished := false;
      turned := false;
      this.energy := energy;
      capacity := 0.0;
    }

    /** Food(g, p, capacity): the capacity as declared, no multiplier. */
    constructor Food(ids: IdGenerator, p: Position, capacity: real)
      requires ids.Valid()
      modifies ids
      ensures ids.Valid() && ids.last == NextId(old(ids.last)) && id == ids.last
      ensures kind == FoodResource && position == p && !finished && !turned
      ensures this.capacity == capacity
    {
      var next := ids.Issue();
      id := next;
      kind := FoodResource;
      position := p;
      finished := false;
      turned := false;
      energy := 0.0;
      this.capacity := capacity;
    }

    /** Advantage(g, p, capacity): twice the declared capacity. */
    constructor Advantage(ids: IdGenerator, p: Position, capacity: real)
      requires ids.Valid()
      modifies ids
      ensures ids.Valid() && ids.last == NextId(old(ids.last)) && id == ids.last
      ensures kind == AdvantageResource && position == p && !finished && !turned
      ensures this.capacity == 2.0 * capacity
    {
      var next := ids.Issue();
      id := next;
      kind := AdvantageResource;
      position := p;
      finished := false;
      turned := false;
      energy := 0.0;
      this.capacity := capacity * AdvantageMultFactor;
    }

    /** getCapacity: a const read of the capacity. */
    method GetCapacity() returns (c: real)
      requires kind.IsResource()
      ensures c == capacity
    {
      c := capacity;
    }

    /** The virtual age: an agent loses the fatigue rate of energy; a resource's
        capacity spoils. Nothing else changes. */
    method Age()
      modifies this
      ensures kind.IsAgent() ==> energy == old(energy) - AgentFatigueRate && capacity == old(capacity)
      ensures kind.IsResource() ==> capacity == Spoiled(old(capacity)) && energy == old(energy)
      ensures position == old(position) && finished == old(finished) && turned == old(turned)
    {
      if kind.IsAgent() {
        energy := energy - AgentFatigueRate;
      } else {
        capacity := capacity / SpoilFactor;
        if capacity < SpoilFloor {
          capacity := 0.0;
        }
      }
    }

    /** The virtual consume of a resource: the capacity becomes the yield,
        which is returned; an Advantage is also marked finished. Calling it
        again gives the same result. */
    method Consume() returns (amount: real)
      requires kind.IsResource()
      modifies this
      ensures amount == kind.ConsumeYield() && capacity == amount
      ensures kind.FoodResource? ==> amount == 0.0 && finished == old(finished)
      ensures kind.AdvantageResource? ==> amount == -1.0 && finished
      ensures position == old(position) && turned == old(turned) && energy == old(energy)
    {
      if kind.FoodResource? {
        capacity := 0.0;
        amount := capacity;
      } else {
        capacity := -1.0;
        finished := true;
        amount := capacity;
      }
    }

    /** The virtual takeTurn; const, so it changes no piece. */
    method TakeTurn(s: Surroundings, r: nat) returns (action: ActionType)
      ensures action == kind.Decision(s, r)
    {
      match kind
      case SimpleAgent =>
        action := SimpleDecision.TakeTurn(s, r);
      case StrategicAgent(st) =>
        action := st.Apply(s, r);
      case FoodResource =>
        action := Stay;
      case AdvantageResource =>
        action := Stay;
    }

    /** interact(Agent*) with this as receiver. An agent fights: equal energies
        finish both; otherwise the stronger loses the weaker's energy and the
        weaker is finished (its energy untouched). A resource ignores it. */
    method InteractWithAgent(other: Piece) returns (result: Piece)
      requires other.kind.IsAgent()
      modifies this, other
      ensures result == this
      ensures kind.IsAgent() ==> Fought(this, other)
      ensures kind.IsResource() ==> Untouched(this) && Untouched(other)
      ensures PlacesKept(this) && PlacesKept(other)
    {
      if kind.IsAgent() {
        if energy == other.energy {
          finished := true;
          other.finished := true;
        } else if energy > other.energy {
          energy := energy - other.energy;
          other.finished := true;
        } else {
          other.energy := other.energy - energy;
          finished := true;
        }
      }
      result := this;
    }

    /** interact(Resource*) with this as receiver. An agent's energy grows by
        whatever the resource's consume returns; a resource ignores it. */
    method InteractWithResource(other: Piece) returns (result: Piece)
      requires other.kind.IsResource()
      modifies this, other
      ensures result == this
      ensures kind.IsAgent() ==> Ate(this, other)
      ensures kind.IsResource() ==> Untouched(this) && Untouched(other)
      ensures PlacesKept(this) && PlacesKept(other)
    {
      if kind.IsAgent() {
        var gained := other.Consume();
        energy := energy + gained;
      }
      result := this;
    }

    /** operator*: this piece moves onto other. An agent interacts by other's
        class and then, only if it is not finished, swaps positions with other.
        A resource hands over to other.interact(this) and moves nobody. */
    method MoveOnto(other: Piece) returns (result: Piece)
      modifies this, other
      ensures kind.IsAgent() ==> result == this
      ensures kind.IsAgent() && other.kind.IsResource() ==> Ate(this, other)
      ensures kind.IsAgent() && other.kind.IsAgent() ==> Fought(this, other)
      ensures kind.IsAgent() && !finished ==> position == old(other.position) && other.position == old(position)
      ensures kind.IsAgent() && finished ==> position == old(position) && other.position == old(other.position)
      ensures kind.IsResource() ==> result == other
      ensures kind.IsResource() && other.kind.IsAgent() ==> Ate(other, this)
      ensures kind.IsResource() && other.kind.IsResource() ==> Untouched(this) && Untouched(other)
      ensures kind.IsResource() ==> PlacesKept(this) && PlacesKept(other)
      ensures turned == old(turned) && other.turned == old(other.turned)
    {
      if kind.IsAgent() {
        if other.kind.IsResource() {
          var _ := InteractWithResource(other);
        }
        if other.kind.IsAgent() {
          var _ := InteractWithAgent(other);
        }
        if !finished {
          var posNew := other.position;
          var posOld := position;
          position := posNew;
          other.position := posOld;
        }
        result := this;
      } else {
        var _ := other.InteractWithResource(this);
        result := other;
      }
    }
  }

  /** Consuming a resource twice gives the same yield both times and leaves the
      capacity at that yield; an Advantage stays finished. */
  method ConsumeTwice(res: Piece) returns (first: real, second: real)
    requires res.kind.IsResource()
    modifies res
    ensures first == second == res.capacity == res.kind.ConsumeYield()
    ensures res.kind.FoodResource? ==> second == 0.0 && res.finished == old(res.finished)
    ensures res.kind.AdvantageResource? ==> second == -1.0 && res.finished
    ensures res.position == old(res.position) && res.turned == old(res.turned)
    ensures res.energy == old(res.energy)
  {
    first := res.Consume();
    second := res.Consume();
  }

  /** Nothing of p changed. */
  twostate predicate Untouched(p: Piece)
    reads p
  {
    p.energy == old(p.energy) && p.capacity == old(p.capacity)
    && p.finished == old(p.finished) && p.position == old(p.position) && p.turned == old(p.turned)
  }

  /** p neither moved nor had its turn flag changed. */
  twostate predicate PlacesKept(p: Piece)
    reads p
  {
    p.position == old(p.position) && p.turned == old(p.turned)
  }

  /** Agent a consumed resource res: a's energy grew by the yield, res's
      capacity is the yield, res is finished if it is an Advantage, and
      nothing else of either changed (a's finished flag in particular). */
  twostate predicate Ate(a: Piece, res: Piece)
    requires res.kind.IsResource()
    reads a, res
  {
    && a.energy == old(a.energy) + res.kind.ConsumeYield()
    && a.capacity == old(a.capacity) && a.finished == old(a.finished)
    && res.capacity == res.kind.ConsumeYield()
    && res.finished == (old(res.finished) || res.kind.AdvantageResource?)
    && res.energy == old(res.energy)
  }

  /** Agents a and b fought: equal energies finish both and change no energy;
      otherwise the winner's energy drops by the loser's, the loser is finished
      with its energy untouched, and the winner's finished flag is unchanged. */
  twostate predicate Fought(a: Piece, b: Piece)
    reads a, b
  {
    && (old(a.energy) == old(b.energy) ==>
          a.finished && b.finished && a.energy == old(a.energy) && b.energy == old(b.energy))
    && (old(a.energy) > old(b.energy) ==>
          a.energy == old(a.energy) - old(b.energy) && a.finished == old(a.finished)
          && b.finished && b.energy == old(b.energy))
    && (old(a.energy) < old(b.energy) ==>
          b.energy == old(b.energy) - old(a.energy) && b.finished == old(b.finished)
          && a.finished && a.energy == old(a.energy))
    && a.capacity == old(a.capacity) && b.capacity == old(b.capacity)
  }
}
