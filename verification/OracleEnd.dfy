/**
 The end of a voting period as a whole: what the oracle leaves behind, that every
 validator computes the same, and whose miss counter rises.
 */
module OracleEnd {
  import opened FixedPoint
  import opened Results
  import opened MapSum
  import opened OracleBallot
  import opened OracleTally
  import opened OraclePeriod
  import opened OracleKeeper
  import opened OracleAgreement
  import opened OracleStored

  /** What a period starts from. */
  datatype Period = Period(votes: seq<Aggregate>, misses: map<Address, nat>,
                           targets: set<Denom>, claims: Claims, threshold: int, rules: Rules)
  {
    function Left(ballots: Ballots): Ballots {
      Surviving(targets, ballots, threshold)
    }
  }

  /** What it ends with. */
  datatype Outcome = Outcome(reference: Denom, targets: set<Denom>, rates: map<Denom, Dec>,
                             claims: Claims, misses: map<Address, nat>)

  /** Rates and claims come from tallying the ballots that count against the reference, if
      any does. */
  ghost predicate Tallied(p: Period, left: Ballots, o: Outcome) {
    && o.claims.Keys == p.claims.Keys
    && if left == map[] then o.reference == "" && o.rates == map[] && o.claims == p.claims
       else
         && IsReference(left, o.reference) && o.rates == Rates(left, o.reference, left.Keys)
         && forall who | who in p.claims ::
              o.claims[who] == Earned(p.claims[who], left, o.reference, who, p.rules, left.Keys)
  }

  /** Whoever is short of wins misses once more. */
  ghost predicate Counted(p: Period, o: Outcome) {
    && (forall who :: MissesOf(o.misses, who)
          == MissesOf(p.misses, who) + (if Short(o.claims, o.targets, who) then 1 else 0))
    && (forall who :: who in o.misses <==> who in p.misses || Short(o.claims, o.targets, who))
  }

  /** A period ends with an outcome, its ballots arranged in some way. */
  ghost predicate Ends(p: Period, ballots: Ballots, o: Outcome) {
    && Organized(ballots, p.votes, p.claims)
    && o.targets == SurvivingTargets(p.targets, ballots, p.threshold)
    && Tallied(p, p.Left(ballots), o)
    && Counted(p, o)
  }

  // --- One outcome ----------------------------------------------------------------

  lemma OrganizedOnce(p: Period, ballots: Ballots)
    requires WellFormed(p.votes) && Organized(ballots, p.votes, p.claims)
    ensures forall d | d in ballots :: OneVote(ballots[d])
  {
    forall d | d in ballots
      ensures OneVote(ballots[d])
    {
      StoredOnce(p.votes, p.claims, d);
      OneVotePermuted(VotesFor(p.votes, p.claims, d), ballots[d]);
    }
  }

  lemma BallotsSame(p: Period, a: Ballots, b: Ballots)
    requires WellFormed(p.votes) && Organized(a, p.votes, p.claims) && Organized(b, p.votes, p.claims)
    ensures SurvivingTargets(p.targets, a, p.threshold) == SurvivingTargets(p.targets, b, p.threshold)
    ensures SameVotes(p.Left(a), p.Left(b))
  {
    forall d
      ensures OneVote(VotesFor(p.votes, p.claims, d))
    {
      StoredOnce(p.votes, p.claims, d);
    }
    OrganizedSame(a, b, p.votes, p.claims);
    SurvivorsSame(a, b, p.targets, p.threshold);
  }

  lemma ClaimSame(x: Ballots, y: Ballots, ref: Denom, who: Address, rules: Rules, c: Claim)
    requires SameVotes(x, y) && ref in x
    ensures Earned(c, x, ref, who, rules, x.Keys) == Earned(c, y, ref, who, rules, y.Keys)
  {
    ScoresSame(x, y, ref, who, rules);
  }

  lemma ClaimsSame(p: Period, x: Ballots, y: Ballots, ref: Denom, claims: Claims, claims': Claims)
    requires SameVotes(x, y) && ref in x && claims.Keys == claims'.Keys == p.claims.Keys
    requires forall who | who in p.claims :: claims[who] == Earned(p.claims[who], x, ref, who, p.rules, x.Keys)
    requires forall who | who in p.claims :: claims'[who] == Earned(p.claims[who], y, ref, who, p.rules, y.Keys)
    ensures claims == claims'
  {
    forall who | who in p.claims
      ensures claims[who] == claims'[who]
    {
      ClaimSame(x, y, ref, who, p.rules, p.claims[who]);
    }
  }

  lemma TalliedSame(p: Period, x: Ballots, y: Ballots, o: Outcome, o': Outcome)
    requires SameVotes(x, y) && Tallied(p, x, o) && Tallied(p, y, o')
    ensures o.reference == o'.reference && o.rates == o'.rates && o.claims == o'.claims
  {
    assert x == map[] <==> x.Keys == {};
    assert y == map[] <==> y.Keys == {};
    if x != map[] {
      ReferenceSame(x, y, o.reference, o'.reference);
      RatesSame(x, y, o.reference);
      ClaimsSame(p, x, y, o.reference, o.claims, o'.claims);
    }
  }

  lemma CountedSame(p: Period, o: Outcome, o': Outcome)
    requires Counted(p, o) && Counted(p, o') && o.claims == o'.claims && o.targets == o'.targets
    ensures o.misses == o'.misses
  {
    forall who | who in o.misses
      ensures who in o'.misses && o.misses[who] == o'.misses[who]
    {
      assert MissesOf(o.misses, who) == MissesOf(o'.misses, who);
    }
    assert o.misses.Keys == o'.misses.Keys;
  }

  /** Every validator ends a period alike: however the votes are arranged into ballots and
      the ballots walked, the reference, targets, rates, claims and misses are the same. */
  lemma PeriodDetermined(p: Period, a: Ballots, o: Outcome, b: Ballots, o': Outcome)
    requires WellFormed(p.votes) && Ends(p, a, o) && Ends(p, b, o')
    ensures o == o'
  {
    BallotsSame(p, a, b);
    TalliedSame(p, p.Left(a), p.Left(b), o, o');
    CountedSame(p, o, o');
  }

  // --- Whose counter rises --------------------------------------------------------

  predicate NoWinsYet(claims: Claims) {
    forall who | who in claims :: claims[who].wins == 0
  }

  /** Some target that counts has no answer from the validator. */
  ghost predicate Lacks(p: Period, ballots: Ballots, o: Outcome, who: Address) {
    exists d :: d in o.targets && !Answers(p.votes, p.Left(ballots), o.reference, who, d, p.rules)
  }

  lemma LeftAmong(p: Period, ballots: Ballots)
    ensures Among(p.Left(ballots), ballots)
  {
  }

  lemma ShortMeans(p: Period, ballots: Ballots, o: Outcome, who: Address)
    requires WellFormed(p.votes) && NoWinsYet(p.claims) && Ends(p, ballots, o) && who in p.claims
    ensures Short(o.claims, o.targets, who) <==> Lacks(p, ballots, o, who)
  {
    var left := p.Left(ballots);
    LeftAmong(p, ballots);
    forall d
      ensures Covered(left, o.reference, d, who, p.rules) <==> Answers(p.votes, left, o.reference, who, d, p.rules)
    {
      AnswersWin(ballots, left, p.votes, p.claims, o.reference, who, d, p.rules);
    }
    if left == map[] {
      assert forall d :: !Answers(p.votes, left, o.reference, who, d, p.rules);
    } else {
      OrganizedOnce(p, ballots);
      WinsForAll(left, o.targets, o.reference, who, p.rules);
    }
  }

  /** A validator's miss counter rises by one exactly when it has a claim and no answer for
      some target that counts. */
  lemma MissesExactly(p: Period, ballots: Ballots, o: Outcome, who: Address)
    requires WellFormed(p.votes) && NoWinsYet(p.claims) && Ends(p, ballots, o)
    ensures MissesOf(o.misses, who)
              == MissesOf(p.misses, who) + (if who in p.claims && Lacks(p, ballots, o, who) then 1 else 0)
  {
    if who in p.claims { ShortMeans(p, ballots, o, who); }
  }

  /** From votes as the stores keep them and claims without wins, exactly those who lack an
      answer for a target that counts miss once more. */
  ghost predicate MissesFollow(p: Period, ballots: Ballots, o: Outcome) {
    WellFormed(p.votes) && NoWinsYet(p.claims) ==>
      forall who :: MissesOf(o.misses, who)
        == MissesOf(p.misses, who) + (if who in p.claims && Lacks(p, ballots, o, who) then 1 else 0)
  }

  lemma EndsMissing(p: Period, ballots: Ballots, o: Outcome)
    requires Ends(p, ballots, o)
    ensures MissesFollow(p, ballots, o)
  {
    if WellFormed(p.votes) && NoWinsYet(p.claims) {
      forall who
        ensures MissesOf(o.misses, who)
                  == MissesOf(p.misses, who) + (if who in p.claims && Lacks(p, ballots, o, who) then 1 else 0)
      {
        MissesExactly(p, ballots, o, who);
      }
    }
  }

  /** The validator abstained: it stored a rate at or below zero for a ballot that counts. */
  ghost predicate Abstains(p: Period, ballots: Ballots, who: Address, d: Denom) {
    d in p.Left(ballots) && exists x :: x <= 0 && Stored(p.votes, who, d, x)
  }

  /** Nobody misses for abstaining: without the targets it abstained on, a validator misses
      exactly as it does with them. */
  lemma AbstentionsForgiven(p: Period, ballots: Ballots, o: Outcome, who: Address)
    requires WellFormed(p.votes) && NoWinsYet(p.claims) && Ends(p, ballots, o) && who in p.claims
    ensures MissesOf(o.misses, who) == MissesOf(p.misses, who)
              + (if exists d :: d in o.targets && !Abstains(p, ballots, who, d)
                                && !Answers(p.votes, p.Left(ballots), o.reference, who, d, p.rules) then 1 else 0)
  {
    MissesExactly(p, ballots, o, who);
    forall d | Abstains(p, ballots, who, d)
      ensures Answers(p.votes, p.Left(ballots), o.reference, who, d, p.rules)
    {
      var x :| x <= 0 && Stored(p.votes, who, d, x);
      AnswersIff(p.votes, p.Left(ballots), o.reference, who, d, x, p.rules);
    }
  }

  /** A claim has won once for every coin answered for, and its validator's power for each of
      them that pays. */
  lemma ClaimsExactly(p: Period, ballots: Ballots, o: Outcome, who: Address)
    requires WellFormed(p.votes) && Ends(p, ballots, o) && who in p.claims
    ensures o.claims[who] == Awarded(p.claims[who], |Answered(p.votes, p.Left(ballots), o.reference, who, p.rules)|,
                                     |Paid(p.votes, p.Left(ballots), o.reference, who, p.rules)| * p.claims[who].power)
  {
    var left := p.Left(ballots);
    if left == map[] {
      assert Answered(p.votes, left, o.reference, who, p.rules) == {};
      assert Paid(p.votes, left, o.reference, who, p.rules) == {};
    } else {
      LeftAmong(p, ballots);
      OrganizedOnce(p, ballots);
      EarnedExactly(ballots, left, p.votes, p.claims, o.reference, who, p.rules);
    }
  }

  ghost predicate ClaimsFollow(p: Period, ballots: Ballots, o: Outcome) {
    WellFormed(p.votes) ==>
      forall who | who in p.claims :: who in o.claims && o.claims[who]
        == Awarded(p.claims[who], |Answered(p.votes, p.Left(ballots), o.reference, who, p.rules)|,
                   |Paid(p.votes, p.Left(ballots), o.reference, who, p.rules)| * p.claims[who].power)
  }

  lemma EndsClaiming(p: Period, ballots: Ballots, o: Outcome)
    requires Ends(p, ballots, o)
    ensures ClaimsFollow(p, ballots, o)
  {
    if WellFormed(p.votes) {
      forall who | who in p.claims
        ensures o.claims[who]
                  == Awarded(p.claims[who], |Answered(p.votes, p.Left(ballots), o.reference, who, p.rules)|,
                             |Paid(p.votes, p.Left(ballots), o.reference, who, p.rules)| * p.claims[who].power)
      {
        ClaimsExactly(p, ballots, o, who);
      }
    }
  }

  // --- What counts ----------------------------------------------------------------

  /** The power of the validators with a claim that stored a positive rate for a coin. */
  ghost function Backing(p: Period, d: Denom): int {
    Sum(Backers(p.votes, p.claims, d))
  }

  ghost predicate VotedOn(p: Period, d: Denom) {
    exists who, x :: who in p.claims && Stored(p.votes, who, d, x)
  }

  lemma VotedOnMeans(p: Period, ballots: Ballots, d: Denom)
    requires Organized(ballots, p.votes, p.claims)
    ensures d in ballots <==> VotedOn(p, d)
  {
    if d in ballots {
      var b := ballots[d];
      assert b != [] by { assert multiset(b) == multiset(VotesFor(p.votes, p.claims, d)); }
      BallotMeans(ballots, p.votes, p.claims, d, b[0]);
    }
    if who, x :| who in p.claims && Stored(p.votes, who, d, x) {
      BallotMeans(ballots, p.votes, p.claims, d, Vote(x, who, PowerFor(x, p.claims[who].power)));
    }
  }

  /** A ballot counts exactly when it is of a target somebody voted on, and has enough backing,
      and some; a target counts unless somebody voted on it and its ballot does not count. */
  lemma TargetsExactly(p: Period, ballots: Ballots, o: Outcome, d: Denom)
    requires WellFormed(p.votes) && Ends(p, ballots, o)
    ensures d in p.Left(ballots) <==>
              d in p.targets && VotedOn(p, d) && Backing(p, d) != 0 && Backing(p, d) >= p.threshold
    ensures d in o.targets <==>
              d in p.targets && (VotedOn(p, d) ==> Backing(p, d) != 0 && Backing(p, d) >= p.threshold)
  {
    VotedOnMeans(p, ballots, d);
    if d in ballots { BallotBacking(ballots, p.votes, p.claims, d); }
  }

  /** The reference is the coin with the most backing among those that count, the first in the
      alphabet of several. */
  lemma ReferenceExactly(p: Period, ballots: Ballots, o: Outcome, d: Denom)
    requires WellFormed(p.votes) && Ends(p, ballots, o) && d in p.Left(ballots)
    ensures o.reference in p.Left(ballots)
    ensures d == o.reference || Backing(p, d) < Backing(p, o.reference)
              || (Backing(p, d) == Backing(p, o.reference) && Less(o.reference, d))
  {
    BallotBacking(ballots, p.votes, p.claims, d);
    BallotBacking(ballots, p.votes, p.claims, o.reference);
  }

  // --- Published rates ------------------------------------------------------------

  lemma ReferencePositive(p: Period, ballots: Ballots, o: Outcome)
    requires Ends(p, ballots, o) && p.Left(ballots) != map[]
    ensures o.reference in o.rates && o.reference in ballots
    ensures IsMedian(ballots[o.reference], o.rates[o.reference])
    ensures o.rates[o.reference] > 0 <==>
              Power(ballots[o.reference]) >= 2 || forall v | v in ballots[o.reference] :: v.rate > 0
  {
    var b := ballots[o.reference];
    OrganizedPowerless(ballots, p.votes, p.claims, o.reference);
    BallotPower(b);
    var r := MedianAhead(b, 0);
    MedianIs(b, r);
    MedianPositive(b, r);
  }

  /** The reference's rate is positive exactly when the power behind it is at least two or
      nobody abstained on it; any other rate exactly when twice the reference's is more than
      one unit in the 18th decimal of its cross rate. */
  lemma RatesPositive(p: Period, ballots: Ballots, o: Outcome, d: Denom)
    requires Ends(p, ballots, o) && d in o.rates
    ensures o.reference in o.rates && o.reference in ballots && d in ballots
    ensures IsMedian(ballots[o.reference], o.rates[o.reference])
    ensures o.rates[o.reference] > 0 <==>
              Power(ballots[o.reference]) >= 2 || forall v | v in ballots[o.reference] :: v.rate > 0
    ensures d != o.reference ==>
              var b := Cast(p.Left(ballots), o.reference, d);
              var cross := Median(b);
              IsMedian(b, cross) && cross > 0 && o.rates[d] == Quo(o.rates[o.reference], cross)
                  && (o.rates[d] > 0 <==> 2 * (o.rates[o.reference] * ONE) > cross)
  {
    ReferencePositive(p, ballots, o);
    if d != o.reference {
      CrossPublished(p, ballots, o, d);
      QuotientPositive(o.rates[o.reference], Median(Cast(p.Left(ballots), o.reference, d)));
    }
  }

  lemma CrossPublished(p: Period, ballots: Ballots, o: Outcome, d: Denom)
    requires Ends(p, ballots, o) && d in o.rates && d != o.reference
    ensures var left := p.Left(ballots);
            && o.reference in left && d in left && d in ballots && o.reference in o.rates
            && var b := Cast(left, o.reference, d);
               IsMedian(b, Median(b)) && Median(b) > 0 && o.rates[d] == Quo(o.rates[o.reference], Median(b))
  {
    var left := p.Left(ballots);
    assert multiset(left[d]) == multiset(VotesFor(p.votes, p.claims, d));
    assert left[d] != [];
    MedianExists(Cast(left, o.reference, d));
  }

  lemma QuotientPositive(a: Dec, c: Dec)
    requires c > 0
    ensures Quo(a, c) > 0 <==> 2 * (a * ONE) > c
  {
    HalfEvenAtMost(a * ONE, c, 0);
  }

  // --- The keeper -----------------------------------------------------------------

  class Oracle {
    var votes: seq<Aggregate>
    var rates: map<Denom, Dec>
    var misses: map<Address, nat>

    constructor ()
      ensures votes == [] && rates == map[] && misses == map[]
    {
      votes, rates, misses := [], map[], map[];
    }

    ghost function PeriodOf(targets: set<Denom>, claims: Claims, threshold: int, rules: Rules): Period
      reads this
    {
      Period(votes, misses, targets, claims, threshold, rules)
    }

    /** End a voting period: clear the rates, organize the ballots, pick the reference,
        tally, count the misses and clear the votes. */
    method EndPeriod(targets: set<Denom>, claims: Claims, threshold: int, rules: Rules)
      returns (reference: Denom, claims': Claims, targets': set<Denom>, ghost ballots: Ballots)
      requires "" !in targets
      modifies this
      ensures votes == []
      ensures Ends(old(PeriodOf(targets, claims, threshold, rules)), ballots,
                   Outcome(reference, targets', rates, claims', misses))
      ensures MissesFollow(old(PeriodOf(targets, claims, threshold, rules)), ballots,
                           Outcome(reference, targets', rates, claims', misses))
      ensures ClaimsFollow(old(PeriodOf(targets, claims, threshold, rules)), ballots,
                           Outcome(reference, targets', rates, claims', misses))
    {
      ghost var p := PeriodOf(targets, claims, threshold, rules);
      rates, claims' := map[], claims;
      var organized := OrganizeBallotByDenom(votes, claims);
      ballots := organized;
      var left;
      reference, targets', left := PickReferenceGridb(targets, organized, threshold);
      if reference != "" {
        var tallied;
        claims', tallied := TallyAll(left, reference, rules, claims);
        rates := tallied;
      }
      misses := CountMisses(claims', targets', misses);
      votes := [];
      ghost var o := Outcome(reference, targets', rates, claims', misses);
      assert Tallied(p, left, o) && Counted(p, o);
      EndsMissing(p, ballots, o);
      EndsClaiming(p, ballots, o);
    }
  }
}
