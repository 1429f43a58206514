/** The built-in decision of a Simple agent (Simple::takeTurn). */
module SimpleDecision {
  import opened GameTypes
  import opened Selection

  /** What a Simple agent heads for first: a resource of either kind. */
  const Eatable: set<PieceType> := {Advantage, Food}

  /** The cells a Simple agent chooses among: the resource cells, or, when
      there are none, the empty cells. */
  function SimpleCandidates(s: Surroundings): seq<nat>
  {
    var resources := Candidates(s, Eatable);
    if |resources| > 0 then resources else Candidates(s, {Empty})
  }

  /** The move a Simple agent makes for surroundings s and random draw r. */
  function SimpleChoice(s: Surroundings, r: nat): ActionType
  {
    Pick(SimpleCandidates(s), r)
  }

  /** Simple::takeTurn: two scans, a draw among what the first non-empty scan
      found, and the index-to-move switch. */
  method TakeTurn(s: Surroundings, r: nat) returns (action: ActionType)
    ensures action == SimpleChoice(s, r)
  {
    var pos := Collect(s, Eatable);
    if |pos| == 0 {
      pos := Collect(s, {Empty});
    }
    if |pos| > 0 {
      var i := pos[r % |pos|];
      if |pos| == 1 {
        i := pos[0];
      }
      action := ActionOf(i);
    } else {
      action := Stay;
    }
  }

  /** The preference cascade: a resource cell if there is one (Advantage and
      Food alike), else an empty cell, else Stay. */
  lemma SimplePreferenceOrder(s: Surroundings, r: nat)
    ensures Has(s, Eatable) ==> s[IndexOf(SimpleChoice(s, r))] in Eatable
    ensures !Has(s, Eatable) && Has(s, {Empty}) ==> s[IndexOf(SimpleChoice(s, r))] == Empty
    ensures !Has(s, Eatable) && !Has(s, {Empty}) ==> SimpleChoice(s, r) == Stay
  {
    if Has(s, Eatable) {
      PickFromTier(s, Eatable, r);
    } else if Has(s, {Empty}) {
      PickFromTier(s, {Empty}, r);
    }
  }

  /** A Simple agent never targets an agent, nor any cell that is not a
      resource or empty: it either points to such a cell or stays because none
      exists. */
  lemma SimpleNeverTargetsAgents(s: Surroundings, r: nat)
    ensures s[IndexOf(SimpleChoice(s, r))] in {Advantage, Food, Empty}
         || (SimpleChoice(s, r) == Stay && !Has(s, {Advantage, Food, Empty}))
  {
    SimplePreferenceOrder(s, r);
  }

  /** Every cell of the preferred kind is chosen by some draw: Advantage and
      Food cells are equally preferred. */
  lemma SimpleTiesReachable(s: Surroundings, i: nat)
    requires i < 9 && s[i] in Eatable
    ensures exists r: nat :: SimpleChoice(s, r) == ActionOf(i)
  {
    assert Has(s, Eatable);
    PickFromTier(s, Eatable, 0);
    TierCellReachable(s, Eatable, i);
    var r: nat :| Pick(Candidates(s, Eatable), r) == ActionOf(i);
    assert SimpleChoice(s, r) == ActionOf(i);
  }

  /** A single qualifying cell is chosen whatever the draw. */
  lemma SimpleSoleResource(s: Surroundings, i: nat, r: nat)
    requires i < 9 && s[i] in Eatable
    requires forall j :: 0 <= j < 9 && j != i ==> s[j] !in Eatable
    ensures SimpleChoice(s, r) == ActionOf(i)
  {
    SoleMatch(s, Eatable, i, 9);
  }

  /** Whichever group the cascade settles on (resources or empty cells), a
      single cell in it is chosen whatever the draw. */
  lemma SimpleSingleCandidate(s: Surroundings, r: nat)
    requires |SimpleCandidates(s)| == 1
    ensures SimpleChoice(s, r) == ActionOf(SimpleCandidates(s)[0])
  {
    PickSingleIsDeterministic(SimpleCandidates(s), r);
  }

  /** Whichever group the cascade settles on, every cell in it is chosen by
      some draw. */
  lemma SimpleTiesAmongGroup(s: Surroundings, j: nat)
    requires j < |SimpleCandidates(s)|
    ensures exists r: nat :: SimpleChoice(s, r) == ActionOf(SimpleCandidates(s)[j])
  {
    PickReachesEveryCandidate(SimpleCandidates(s), j);
    assert SimpleChoice(s, j) == ActionOf(SimpleCandidates(s)[j]);
  }
}
