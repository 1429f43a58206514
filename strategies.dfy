/** The Strategy a Strategic agent holds: a decision function of the
    surroundings. The polymorphic Strategy object becomes a closed datatype
    whose variants carry the strategy's own immutable parameters. */
module Strategies {
  import opened GameTypes
  import DefaultStrategy
  import AggressiveStrategy

  datatype Strategy =
    | Default
      /** AggressiveAgentStrategy(agentEnergy): the energy is stored once and
          only read afterwards. */
    | Aggressive(agentEnergy: real)
  {
    /** The move this strategy makes for surroundings s and draw r. */
    function Choice(s: Surroundings, r: nat): ActionType
    {
      match this
      case Default => DefaultStrategy.DefaultChoice(s, r)
      case Aggressive(e) => AggressiveStrategy.AggressiveChoice(e, s, r)
    }

    /** The virtual call operator(): dispatch to the variant's decision. */
    method Apply(s: Surroundings, r: nat) returns (action: ActionType)
      ensures action == Choice(s, r)
    {
      match this
      case Default =>
        action := DefaultStrategy.Decide(s, r);
      case Aggressive(e) =>
        action := AggressiveStrategy.Decide(e, s, r);
    }
  }
}
