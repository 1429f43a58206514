/** DefaultAgentStrategy: the baseline strategy a Strategic agent can hold. */
module DefaultStrategy {
  import opened GameTypes
  import opened Selection

  /** The cells the default strategy chooses among: the first non-empty group
      of Advantage cells, Food cells, empty cells, Simple agents' cells. */
  function DefaultCandidates(s: Surroundings): seq<nat>
  {
    var advantages := Candidates(s, {Advantage});
    if |advantages| > 0 then advantages
    else
      var foods := Candidates(s, {Food});
      if |foods| > 0 then foods
      else
        var empties := Candidates(s, {Empty});
        if |empties| > 0 then empties
        else Candidates(s, {Simple})
  }

  /** The move the default strategy makes for surroundings s and draw r. */
  function DefaultChoice(s: Surroundings, r: nat): ActionType
  {
    Pick(DefaultCandidates(s), r)
  }

  /** DefaultAgentStrategy::operator(): four scans, each run only while nothing
      has been found, then a draw and the index-to-move switch. */
  method Decide(s: Surroundings, r: nat) returns (action: ActionType)
    ensures action == DefaultChoice(s, r)
  {
    var positions := Collect(s, {Advantage});
    if |positions| == 0 {
      positions := Collect(s, {Food});
    }
    if |positions| == 0 {
      positions := Collect(s, {Empty});
    }
    if |positions| == 0 {
      positions := Collect(s, {Simple});
    }
    if |positions| > 0 {
      var index := positions[r % |positions|];
      if |positions| == 1 {
        index := positions[0];
      }
      action := ActionOf(index);
    } else {
      action := Stay;
    }
  }

  /** The preference cascade Advantage, Food, Empty, Simple, then Stay. */
  lemma DefaultPreferenceOrder(s: Surroundings, r: nat)
    ensures Has(s, {Advantage}) ==> s[IndexOf(DefaultChoice(s, r))] == Advantage
    ensures !Has(s, {Advantage}) && Has(s, {Food}) ==> s[IndexOf(DefaultChoice(s, r))] == Food
    ensures !Has(s, {Advantage, Food}) && Has(s, {Empty}) ==> s[IndexOf(DefaultChoice(s, r))] == Empty
    ensures !Has(s, {Advantage, Food, Empty}) && Has(s, {Simple}) ==> s[IndexOf(DefaultChoice(s, r))] == Simple
    ensures !Has(s, {Advantage, Food, Empty, Simple}) ==> DefaultChoice(s, r) == Stay
  {
    if Has(s, {Advantage}) {
      PickFromTier(s, {Advantage}, r);
    } else if Has(s, {Food}) {
      PickFromTier(s, {Food}, r);
    } else if Has(s, {Empty}) {
      PickFromTier(s, {Empty}, r);
    } else if Has(s, {Simple}) {
      PickFromTier(s, {Simple}, r);
    }
  }

  /** Strategic agents' cells (and inaccessible or own cells) are never
      targeted: the result points to one of the four preferred kinds, or is
      Stay because no such cell exists. */
  lemma DefaultNeverTargetsStrategic(s: Surroundings, r: nat)
    ensures s[IndexOf(DefaultChoice(s, r))] in {Advantage, Food, Empty, Simple}
         || (DefaultChoice(s, r) == Stay && !Has(s, {Advantage, Food, Empty, Simple}))
  {
    DefaultPreferenceOrder(s, r);
  }

  /** A single Advantage cell is chosen whatever the draw. */
  lemma DefaultSoleAdvantage(s: Surroundings, i: nat, r: nat)
    requires i < 9 && s[i] == Advantage
    requires forall j :: 0 <= j < 9 && j != i ==> s[j] != Advantage
    ensures DefaultChoice(s, r) == ActionOf(i)
  {
    SoleMatch(s, {Advantage}, i, 9);
  }

  /** Every Advantage cell is chosen by some draw. */
  lemma DefaultTiesReachable(s: Surroundings, i: nat)
    requires i < 9 && s[i] == Advantage
    ensures exists r: nat :: DefaultChoice(s, r) == ActionOf(i)
  {
    PickFromTier(s, {Advantage}, 0);
    TierCellReachable(s, {Advantage}, i);
    var r: nat :| Pick(Candidates(s, {Advantage}), r) == ActionOf(i);
    assert DefaultChoice(s, r) == ActionOf(i);
  }

  /** Whichever group the cascade settles on, a single cell in it is chosen
      whatever the draw. */
  lemma DefaultSingleCandidate(s: Surroundings, r: nat)
    requires |DefaultCandidates(s)| == 1
    ensures DefaultChoice(s, r) == ActionOf(DefaultCandidates(s)[0])
  {
    PickSingleIsDeterministic(DefaultCandidates(s), r);
  }

  /** Whichever group the cascade settles on, every cell in it is chosen by
      some draw. */
  lemma DefaultTiesAmongGroup(s: Surroundings, j: nat)
    requires j < |DefaultCandidates(s)|
    ensures exists r: nat :: DefaultChoice(s, r) == ActionOf(DefaultCandidates(s)[j])
  {
    PickReachesEveryCandidate(DefaultCandidates(s), j);
    assert DefaultChoice(s, j) == ActionOf(DefaultCandidates(s)[j]);
  }
}
