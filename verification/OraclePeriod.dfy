/**
 The end of a voting period: which ballots count, which of them is the reference, what
 rates and claims follow, and who missed.  None of it depends on the order in which maps
 are walked or equal rates are sorted.
 */
module OraclePeriod {
  import opened Results
  import opened OracleBallot

  type Ballots = map<Denom, Ballot>

  // --- Alphabetical order ---------------------------------------------------------

  predicate Less(a: string, b: string)
    decreases |a|
  {
    b != "" && (a == "" || a[0] < b[0] || (a[0] == b[0] && Less(a[1..], b[1..])))
  }

  /** The strings agree before some place, where the first has ended or has the smaller letter. */
  predicate FirstDiffers(a: string, b: string, i: nat) {
    && i <= |a| && i < |b| && a[..i] == b[..i]
    && (i == |a| || a[i] < b[i])
  }

  lemma {:induction false} LessMeans(a: string, b: string)
    ensures Less(a, b) <==> exists i: nat :: FirstDiffers(a, b, i)
    decreases |a|
  {
    if i: nat :| FirstDiffers(a, b, i) {
      if 0 < i {
        assert a[..i][0] == b[..i][0] && a[1..][..i - 1] == a[..i][1..] && b[1..][..i - 1] == b[..i][1..];
        assert FirstDiffers(a[1..], b[1..], i - 1);
        LessMeans(a[1..], b[1..]);
      }
    }
    if Less(a, b) {
      if a == "" || a[0] < b[0] {
        assert FirstDiffers(a, b, 0);
      } else {
        LessMeans(a[1..], b[1..]);
        var i: nat :| FirstDiffers(a[1..], b[1..], i);
        assert a[..i + 1] == [a[0]] + a[1..][..i] && b[..i + 1] == [b[0]] + b[1..][..i];
        assert FirstDiffers(a, b, i + 1);
      }
    }
  }

  lemma {:induction false} LessTotal(a: string, b: string)
    ensures a == b || Less(a, b) || Less(b, a)
    ensures !(Less(a, b) && Less(b, a)) && !Less(a, a)
    decreases |a|
  {
    if a != "" {
      LessTotal(a[1..], a[1..]);
      if b != "" && a[0] == b[0] {
        LessTotal(a[1..], b[1..]);
        assert a == [a[0]] + a[1..] && b == [b[0]] + b[1..];
      }
    }
  }

  lemma {:induction false} LessTransitive(a: string, b: string, c: string)
    requires Less(a, b) && Less(b, c)
    ensures Less(a, c)
    decreases |a|
  {
    if a != "" && a[0] == b[0] == c[0] { LessTransitive(a[1..], b[1..], c[1..]); }
  }

  // --- The reference --------------------------------------------------------------

  /** A ballot counts when it has power at all, and enough of it. */
  predicate Passing(b: Ballot, threshold: int) {
    Power(b) != 0 && Power(b) >= threshold
  }

  /** The ballots that count: those of targets that pass. */
  function Surviving(targets: set<Denom>, ballots: Ballots, threshold: int): Ballots {
    map d | d in ballots && d in targets && Passing(ballots[d], threshold) :: ballots[d]
  }

  /** The targets that count: all but those whose ballot failed. */
  function SurvivingTargets(targets: set<Denom>, ballots: Ballots, threshold: int): set<Denom> {
    set d | d in targets && (d in ballots ==> Passing(ballots[d], threshold))
  }

  /** More power, or as much and first in the alphabet. */
  predicate Beats(ballots: Ballots, r: Denom, d: Denom)
    requires r in ballots && d in ballots
  {
    Power(ballots[d]) < Power(ballots[r]) || (Power(ballots[d]) == Power(ballots[r]) && Less(r, d))
  }

  predicate IsReference(ballots: Ballots, r: Denom) {
    r in ballots && forall d | d in ballots && d != r :: Beats(ballots, r, d)
  }

  lemma ReferenceUnique(ballots: Ballots, r: Denom, q: Denom)
    requires IsReference(ballots, r) && IsReference(ballots, q)
    ensures r == q
  {
    LessTotal(r, q);
  }

  lemma BeatsTransitive(ballots: Ballots, a: Denom, b: Denom, c: Denom)
    requires a in ballots && b in ballots && c in ballots && Beats(ballots, a, b) && Beats(ballots, b, c)
    ensures Beats(ballots, a, c)
  {
    if Less(a, b) && Less(b, c) { LessTransitive(a, b, c); }
  }

  /** Where the walk over the ballots stands: the best of those seen. */
  predicate Best(ballots: Ballots, seen: set<Denom>, r: Denom, power: int) {
    if seen == {} then r == "" && power == 0
    else r in seen && r in ballots && power == Power(ballots[r]) && power != 0 &&
         forall d | d in seen && d != r :: d in ballots && Beats(ballots, r, d)
  }

  lemma BestGrows(ballots: Ballots, seen: set<Denom>, r: Denom, power: int, d: Denom)
    requires Best(ballots, seen, r, power) && d in ballots && d !in seen && Power(ballots[d]) > 0
    requires seen != {} ==> power > 0
    ensures var p := Power(ballots[d]);
            if p > power || power == 0 || (power == p && Less(d, r)) then Best(ballots, seen + {d}, d, p)
            else Best(ballots, seen + {d}, r, power)
  {
    LessTotal(r, d);
    var p := Power(ballots[d]);
    if seen != {} && (p > power || (power == p && Less(d, r))) {
      forall x | x in seen + {d} && x != d
        ensures x in ballots && Beats(ballots, d, x)
      {
        if x != r { BeatsTransitive(ballots, d, r, x); }
      }
    }
  }

  lemma {:induction false} BallotPower(b: Ballot)
    ensures 0 <= Power(b)
  {
    PowerNonneg(b, 0);
  }

  /** What is left of ballots and targets while some ballots are still to be seen, and the
      good ones seen. */
  ghost function Left(targets: set<Denom>, ballots: Ballots, threshold: int, todo: set<Denom>): Ballots {
    map d | d in ballots && (d !in todo ==> d in targets && Passing(ballots[d], threshold)) :: ballots[d]
  }

  ghost function LeftTargets(targets: set<Denom>, ballots: Ballots, threshold: int, todo: set<Denom>): set<Denom> {
    set d | d in targets && (d in ballots && d !in todo ==> Passing(ballots[d], threshold))
  }

  ghost function Good(targets: set<Denom>, ballots: Ballots, threshold: int, todo: set<Denom>): set<Denom> {
    set d | d in ballots && d !in todo && d in targets && Passing(ballots[d], threshold)
  }

  lemma SeeOne(targets: set<Denom>, ballots: Ballots, threshold: int, todo: set<Denom>, d: Denom)
    requires d in todo && d in ballots
    ensures var good, rest := d in targets && Passing(ballots[d], threshold), todo - {d};
            && (d in LeftTargets(targets, ballots, threshold, todo) <==> d in targets)
            && d !in Good(targets, ballots, threshold, todo)
            && Left(targets, ballots, threshold, rest)
                 == (if good then Left(targets, ballots, threshold, todo)
                     else Left(targets, ballots, threshold, todo) - {d})
            && LeftTargets(targets, ballots, threshold, rest)
                 == (if good then LeftTargets(targets, ballots, threshold, todo)
                     else LeftTargets(targets, ballots, threshold, todo) - {d})
            && Good(targets, ballots, threshold, rest)
                 == (if good then Good(targets, ballots, threshold, todo) + {d}
                     else Good(targets, ballots, threshold, todo))
  {
  }

  /** Walk the ballots in any order: drop those of no target, drop failed ones with their
      target, and keep the best. */
  method PickReferenceGridb(targets: set<Denom>, ballots: Ballots, threshold: int)
    returns (reference: Denom, targets': set<Denom>, ballots': Ballots)
    ensures targets' == SurvivingTargets(targets, ballots, threshold)
    ensures ballots' == Surviving(targets, ballots, threshold)
    ensures ballots' == map[] ==> reference == ""
    ensures ballots' != map[] ==> IsReference(ballots', reference)
  {
    targets', ballots' := targets, ballots;
    var todo, largest := ballots.Keys, 0;
    reference := "";
    ghost var seen: set<Denom> := {};
    while todo != {}
      invariant todo <= ballots.Keys
      invariant targets' == LeftTargets(targets, ballots, threshold, todo)
      invariant ballots' == Left(targets, ballots, threshold, todo)
      invariant seen == Good(targets, ballots, threshold, todo)
      invariant Best(ballots, seen, reference, largest) && (seen != {} ==> largest > 0)
      decreases |todo|
    {
      var denom :| denom in todo;
      SeeOne(targets, ballots, threshold, todo, denom);
      todo := todo - {denom};
      var power := PowerOfBallot(ballots[denom]);
      BallotPower(ballots[denom]);
      if denom !in targets' {
        ballots' := ballots' - {denom};
      } else if power == 0 || power < threshold {
        targets' := targets' - {denom};
        ballots' := ballots' - {denom};
      } else {
        BestGrows(ballots, seen, reference, largest, denom);
        seen := seen + {denom};
        if power > largest || largest == 0 {
          reference, largest := denom, power;
        } else if largest == power && Less(denom, reference) {
          reference := denom;
        }
      }
    }
    assert ballots'.Keys == seen;
  }
}
