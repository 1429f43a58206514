/** AggressiveAgentStrategy: attack other agents while the stored energy is
    above a threshold. */
module AggressiveStrategy {
  import opened GameTypes
  import opened Selection

  /** DEFAULT_AGGRESSION_THRESHOLD: three quarters of the starting agent energy. */
  const AggressionThreshold: real := StartingAgentEnergy * 0.75

  /** Cells of either kind of agent. */
  const Agents: set<PieceType> := {Simple, Strategic}

  /** The cells the aggressive strategy chooses among: agents' cells when the
      stored energy is above the threshold, else (or when there are none) the
      first non-empty group of Advantage, empty and Food cells. */
  function AggressiveCandidates(agentEnergy: real, s: Surroundings): seq<nat>
  {
    var agents := if agentEnergy > AggressionThreshold then Candidates(s, Agents) else [];
    if |agents| > 0 then agents
    else
      var advantages := Candidates(s, {Advantage});
      if |advantages| > 0 then advantages
      else
        var empties := Candidates(s, {Empty});
        if |empties| > 0 then empties
        else Candidates(s, {Food})
  }

  /** The move the aggressive strategy with stored energy agentEnergy makes for
      surroundings s and draw r. */
  function AggressiveChoice(agentEnergy: real, s: Surroundings, r: nat): ActionType
  {
    Pick(AggressiveCandidates(agentEnergy, s), r)
  }

  /** AggressiveAgentStrategy::operator(): the gated agent scan, three more
      scans run only while nothing has been found, a draw, the switch. The
      stored energy is an input that is only read. */
  method Decide(agentEnergy: real, s: Surroundings, r: nat) returns (action: ActionType)
    ensures action == AggressiveChoice(agentEnergy, s, r)
  {
    var positions: seq<nat> := [];
    if agentEnergy > AggressionThreshold {
      positions := Collect(s, Agents);
    }
    if |positions| == 0 {
      positions := Collect(s, {Advantage});
    }
    if |positions| == 0 {
      positions := Collect(s, {Empty});
    }
    if |positions| == 0 {
      positions := Collect(s, {Food});
    }
    if |positions| > 0 {
      var index := positions[r % |positions|];
      if |positions| == 1 {
        index := positions[0];
      }
      action := ActionOf(index);
    } else {
      action := Stay;
    }
  }

  /** The threshold is 15. */
  lemma ThresholdIsFifteen()
    ensures AggressionThreshold == 15.0
  {
  }

  /** Above the threshold an agent's cell, if any, is attacked. */
  lemma AggressiveAttacks(agentEnergy: real, s: Surroundings, r: nat)
    requires agentEnergy > AggressionThreshold && Has(s, Agents)
    ensures s[IndexOf(AggressiveChoice(agentEnergy, s, r))] in Agents
  {
    PickFromTier(s, Agents, r);
  }

  /** The fallback cascade Advantage, Empty, Food (empty cells before Food),
      then Stay; it is all there is at or below the threshold. */
  lemma AggressiveFallbackOrder(agentEnergy: real, s: Surroundings, r: nat)
    requires agentEnergy <= AggressionThreshold || !Has(s, Agents)
    ensures Has(s, {Advantage}) ==> s[IndexOf(AggressiveChoice(agentEnergy, s, r))] == Advantage
    ensures !Has(s, {Advantage}) && Has(s, {Empty}) ==> s[IndexOf(AggressiveChoice(agentEnergy, s, r))] == Empty
    ensures !Has(s, {Advantage, Empty}) && Has(s, {Food}) ==> s[IndexOf(AggressiveChoice(agentEnergy, s, r))] == Food
    ensures !Has(s, {Advantage, Empty, Food}) ==> AggressiveChoice(agentEnergy, s, r) == Stay
  {
    assert agentEnergy > AggressionThreshold ==> Candidates(s, Agents) == [];
    if Has(s, {Advantage}) {
      PickFromTier(s, {Advantage}, r);
    } else if Has(s, {Empty}) {
      PickFromTier(s, {Empty}, r);
    } else if Has(s, {Food}) {
      PickFromTier(s, {Food}, r);
    }
  }

  /** At or below the threshold no agent's cell is ever targeted. */
  lemma CalmNeverAttacks(agentEnergy: real, s: Surroundings, r: nat)
    requires agentEnergy <= AggressionThreshold
    ensures s[IndexOf(AggressiveChoice(agentEnergy, s, r))] in {Advantage, Empty, Food}
         || (AggressiveChoice(agentEnergy, s, r) == Stay && !Has(s, {Advantage, Empty, Food}))
  {
    AggressiveFallbackOrder(agentEnergy, s, r);
  }

  /** A single agent cell is attacked whatever the draw. */
  lemma AggressiveSoleTarget(agentEnergy: real, s: Surroundings, i: nat, r: nat)
    requires agentEnergy > AggressionThreshold
    requires i < 9 && s[i] in Agents
    requires forall j :: 0 <= j < 9 && j != i ==> s[j] !in Agents
    ensures AggressiveChoice(agentEnergy, s, r) == ActionOf(i)
  {
    SoleMatch(s, Agents, i, 9);
  }

  /** Whichever group the cascade settles on, a single cell in it is chosen
      whatever the draw. */
  lemma AggressiveSingleCandidate(agentEnergy: real, s: Surroundings, r: nat)
    requires |AggressiveCandidates(agentEnergy, s)| == 1
    ensures AggressiveChoice(agentEnergy, s, r) == ActionOf(AggressiveCandidates(agentEnergy, s)[0])
  {
    PickSingleIsDeterministic(AggressiveCandidates(agentEnergy, s), r);
  }

  /** Whichever group the cascade settles on, every cell in it is chosen by
      some draw. */
  lemma AggressiveTiesAmongGroup(agentEnergy: real, s: Surroundings, j: nat)
    requires j < |AggressiveCandidates(agentEnergy, s)|
    ensures exists r: nat :: AggressiveChoice(agentEnergy, s, r) == ActionOf(AggressiveCandidates(agentEnergy, s)[j])
  {
    PickReachesEveryCandidate(AggressiveCandidates(agentEnergy, s), j);
    assert AggressiveChoice(agentEnergy, s, j) == ActionOf(AggressiveCandidates(agentEnergy, s)[j]);
  }
}
