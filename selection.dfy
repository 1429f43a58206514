/** The pattern shared by every decision function: scan the nine cells,
    collect the indices of the wanted cell types in ascending order, then
    draw one of them and turn it into a move. */
module Selection {
  import opened GameTypes

  /** The indices below k whose cell type is wanted, in ascending order. */
  function Matching(s: Surroundings, wanted: set<PieceType>, k: nat): (m: seq<nat>)
    requires k <= 9
    ensures forall j :: 0 <= j < |m| ==> m[j] < k && s[m[j]] in wanted
    ensures forall i :: 0 <= i < k && s[i] in wanted ==> i in m
    ensures (forall i :: 0 <= i < k ==> s[i] !in wanted) ==> m == []
  {
    if k == 0 then []
    else Matching(s, wanted, k - 1) + (if s[k - 1] in wanted then [k - 1] else [])
  }

  /** Some cell has a wanted type. */
  predicate Has(s: Surroundings, wanted: set<PieceType>)
  {
    exists i :: 0 <= i < 9 && s[i] in wanted
  }

  /** The scan finds the indices in ascending order. */
  lemma {:induction false} MatchingAscending(s: Surroundings, wanted: set<PieceType>, k: nat)
    requires k <= 9
    ensures forall a, b :: 0 <= a < b < |Matching(s, wanted, k)| ==> Matching(s, wanted, k)[a] < Matching(s, wanted, k)[b]
  {
    if k > 0 {
      MatchingAscending(s, wanted, k - 1);
    }
  }

  /** All indices of cells whose type is wanted, in ascending order. */
  function Candidates(s: Surroundings, wanted: set<PieceType>): seq<nat>
  {
    Matching(s, wanted, 9)
  }

  /** One scan of the nine cells, appending each wanted index as it is met. */
  method Collect(s: Surroundings, wanted: set<PieceType>) returns (found: seq<nat>)
    ensures found == Candidates(s, wanted)
  {
    found := [];
    for i := 0 to 9
      invariant found == Matching(s, wanted, i)
    {
      if s[i] in wanted {
        found := found + [i];
      }
    }
  }

  /** The draw: the candidate at the draw modulo the candidate count, except
      that a single candidate is taken outright; the index then becomes a move
      through the switch, and no candidate at all means Stay. */
  function Pick(cands: seq<nat>, r: nat): ActionType
  {
    if |cands| == 0 then Stay
    else ActionOf(if |cands| == 1 then cands[0] else cands[r % |cands|])
  }

  /** Whatever the draw, a non-empty candidate list yields a move toward one of
      its cells. */
  lemma PickPointsIntoCandidates(cands: seq<nat>, r: nat)
    requires |cands| > 0
    requires forall j :: 0 <= j < |cands| ==> cands[j] < 9
    ensures IndexOf(Pick(cands, r)) in cands
  {
    var k := if |cands| == 1 then 0 else r % |cands|;
    ActionOfIsInjective(cands[k]);
  }

  /** Every candidate cell is chosen by some draw: ties are broken among all of
      them. */
  lemma PickReachesEveryCandidate(cands: seq<nat>, j: nat)
    requires j < |cands|
    ensures Pick(cands, j) == ActionOf(cands[j])
  {
    if |cands| == 1 {
      assert j == 0;
    } else {
      assert j % |cands| == j;
    }
  }

  /** A single candidate is chosen whatever the draw. */
  lemma PickSingleIsDeterministic(cands: seq<nat>, r: nat)
    requires |cands| == 1
    ensures Pick(cands, r) == ActionOf(cands[0])
  {
  }

  /** When some cell has a wanted type, the candidate list is non-empty and the
      pick points to a cell of a wanted type. */
  lemma PickFromTier(s: Surroundings, wanted: set<PieceType>, r: nat)
    requires Has(s, wanted)
    ensures |Candidates(s, wanted)| > 0
    ensures s[IndexOf(Pick(Candidates(s, wanted), r))] in wanted
  {
    var c := Candidates(s, wanted);
    var i :| 0 <= i < 9 && s[i] in wanted;
    assert i in c;
    PickPointsIntoCandidates(c, r);
    var t := IndexOf(Pick(c, r));
    var j :| 0 <= j < |c| && c[j] == t;
  }

  /** A cell of a wanted type can always be reached by some draw. */
  lemma TierCellReachable(s: Surroundings, wanted: set<PieceType>, i: nat)
    requires i < 9 && s[i] in wanted
    ensures exists r: nat :: Pick(Candidates(s, wanted), r) == ActionOf(i)
  {
    var c := Candidates(s, wanted);
    assert i in c;
    var j :| 0 <= j < |c| && c[j] == i;
    PickReachesEveryCandidate(c, j);
  }

  /** A cell that is the only one of a wanted type is the only index found
      once the scan has passed it. */
  lemma {:induction false} SoleMatch(s: Surroundings, wanted: set<PieceType>, i: nat, k: nat)
    requires i < 9 && k <= 9 && s[i] in wanted
    requires forall j :: 0 <= j < 9 && j != i ==> s[j] !in wanted
    ensures Matching(s, wanted, k) == if i < k then [i] else []
  {
    if k == 0 {
    } else if k - 1 == i {
      SoleMatch(s, wanted, i, k - 1);
      assert Matching(s, wanted, k - 1) == [];
    } else {
      SoleMatch(s, wanted, i, k - 1);
      assert s[k - 1] !in wanted;
    }
  }
}
