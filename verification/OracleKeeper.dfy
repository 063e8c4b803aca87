/**
 The parts of the end of a period, as the keeper runs them: collect the votes into
 ballots, tally every ballot, set the rates, and count the misses.
 */
module OracleKeeper {
  import opened FixedPoint
  import opened Results
  import opened MapSum
  import opened OracleBallot
  import opened OracleTally
  import opened OraclePeriod

  datatype Claim = Claim(power: nat, weight: int, wins: int)

  type Claims = map<Address, Claim>

  function Awarded(c: Claim, wins: int, weight: int): Claim {
    c.(wins := c.wins + wins, weight := c.weight + weight)
  }

  /** Everyone who voted has a claim. */
  predicate Entitled(b: Ballot, claims: Claims) {
    forall v | v in b :: v.voter in claims
  }

  // --- Tallying one ballot --------------------------------------------------------

  /** Every vote that abstains or is near the median has won once, with the power it carries; no
      other claim has changed. */
  ghost predicate JudgedOne(b: Ballot, rules: Rules, claims: Claims, claims': Claims) {
    && claims'.Keys == claims.Keys
    && (forall v | v in b && v.voter in claims :: claims'[v.voter]
          == if v.rate <= 0 || Near(b, v.rate, rules) then Awarded(claims[v.voter], 1, v.power) else claims[v.voter])
    && (forall who | who in claims && (forall v | v in b :: v.voter != who) :: claims'[who] == claims[who])
  }

  lemma TallyJudges(b: Ballot, rules: Rules, claims: Claims, claims': Claims)
    requires OneVote(b) && claims'.Keys == claims.Keys
    requires forall who | who in claims :: claims'[who]
               == Awarded(claims[who], WinsIn(b, who, rules), WeightIn(b, who, rules))
    ensures JudgedOne(b, rules, claims, claims')
  {
    forall v | v in b && v.voter in claims
      ensures claims'[v.voter]
                == if v.rate <= 0 || Near(b, v.rate, rules) then Awarded(claims[v.voter], 1, v.power)
                    else claims[v.voter]
    {
      VoteWins(b, v, rules);
    }
    forall who | who in claims && (forall v | v in b :: v.voter != who)
      ensures claims'[who] == claims[who]
    {
      NonVoterWins(b, who, rules);
    }
  }

  /** Find the median and award every winning vote; the order of the votes is free. */
  method Tally(b: Ballot, rules: Rules, claims: Claims) returns (median: Dec, claims': Claims)
    requires Sorted(b) && Entitled(b, claims)
    ensures median == Median(b) && claims'.Keys == claims.Keys
    ensures forall who | who in claims :: claims'[who]
              == Awarded(claims[who], WinsIn(b, who, rules), WeightIn(b, who, rules))
    ensures OneVote(b) ==> JudgedOne(b, rules, claims, claims')
  {
    median := WeightedMedian(b);
    MedianFound(b, median);
    var spread := Mul(median, QuoInt(rules.band, 2));
    var deviation := Deviation(b, median, rules);
    if deviation > spread { spread := deviation; }
    claims' := Award(b, median, spread, claims);
    assert spread == Spread(b, median, rules);
    if OneVote(b) { TallyJudges(b, rules, claims, claims'); }
  }

  lemma MedianFound(b: Ballot, r: Dec)
    requires if b == [] then r == 0 else IsMedian(b, r)
    ensures Median(b) == r
  {
    if b != [] { MedianIs(b, r); }
  }

  /** Claims after the first votes of a ballot. */
  predicate AwardedSoFar(claims: Claims, claims': Claims, b: Ballot, median: Dec, spread: Dec) {
    && claims'.Keys == claims.Keys
    && forall who | who in claims ::
         claims'[who] == Awarded(claims[who], Total(b, WinOf(who, median, spread)),
                                 Total(b, WeightOf(who, median, spread)))
  }

  method Award(b: Ballot, median: Dec, spread: Dec, claims: Claims) returns (claims': Claims)
    requires Entitled(b, claims)
    ensures AwardedSoFar(claims, claims', b, median, spread)
  {
    claims' := claims;
    var i := 0;
    while i < |b|
      invariant 0 <= i <= |b| && AwardedSoFar(claims, claims', b[..i], median, spread)
    {
      assert b[i] in b && b[..i + 1] == b[..i] + [b[i]];
      AwardOne(claims, claims', b[..i], b[i], median, spread);
      if Wins(b[i], median, spread) {
        var claim := claims'[b[i].voter];
        claims' := claims'[b[i].voter := Awarded(claim, 1, b[i].power)];
      }
      i := i + 1;
    }
    assert b[..i] == b;
  }

  lemma AwardOne(claims: Claims, before: Claims, b: Ballot, v: Vote, median: Dec, spread: Dec)
    requires AwardedSoFar(claims, before, b, median, spread) && v.voter in claims
    ensures var after := if Wins(v, median, spread) then before[v.voter := Awarded(before[v.voter], 1, v.power)]
              else before;
            AwardedSoFar(claims, after, b + [v], median, spread)
  {
    forall who | who in claims
      ensures Total(b + [v], WinOf(who, median, spread))
                == Total(b, WinOf(who, median, spread)) + WinOf(who, median, spread)(v)
      ensures Total(b + [v], WeightOf(who, median, spread))
                == Total(b, WeightOf(who, median, spread)) + WeightOf(who, median, spread)(v)
    {
      OneMoreVote(b, v, WinOf(who, median, spread));
      OneMoreVote(b, v, WeightOf(who, median, spread));
    }
  }

  lemma OneMoreVote(b: Ballot, v: Vote, f: Vote -> int)
    ensures Total(b + [v], f) == Total(b, f) + f(v)
  {
    TotalConcat(b, [v], f);
    assert [v][1..] == [];
  }

  // --- Tallying all ballots -------------------------------------------------------

  /** A ballot as it is judged: the reference as cast, any other as cross rates. */
  function Cast(ballots: Ballots, ref: Denom, d: Denom): Ballot
    requires ref in ballots && d in ballots
  {
    if d == ref then ballots[d] else ToCross(ballots[d], ToMap(ballots[ref]))
  }

  /** A validator's wins, and their weight, in every ballot. */
  ghost function WinScores(ballots: Ballots, ref: Denom, who: Address, rules: Rules): map<Denom, int>
    requires ref in ballots
  {
    map d | d in ballots :: WinsIn(Cast(ballots, ref, d), who, rules)
  }

  ghost function WeightScores(ballots: Ballots, ref: Denom, who: Address, rules: Rules): map<Denom, int>
    requires ref in ballots
  {
    map d | d in ballots :: WeightIn(Cast(ballots, ref, d), who, rules)
  }

  /** A claim after some of the ballots: all its wins and their weight. */
  ghost function Earned(c: Claim, ballots: Ballots, ref: Denom, who: Address, rules: Rules, seen: set<Denom>): Claim
    requires ref in ballots
  {
    Awarded(c, Sum(Restrict(WinScores(ballots, ref, who, rules), seen)),
            Sum(Restrict(WeightScores(ballots, ref, who, rules), seen)))
  }

  lemma WinSumGrows(ballots: Ballots, ref: Denom, who: Address, rules: Rules, seen: set<Denom>, d: Denom)
    requires ref in ballots && d in ballots && d !in seen
    ensures var scores := WinScores(ballots, ref, who, rules);
            Sum(Restrict(scores, seen + {d})) == Sum(Restrict(scores, seen)) + WinsIn(Cast(ballots, ref, d), who, rules)
  {
    SumRestrict(WinScores(ballots, ref, who, rules), seen, d);
  }

  lemma WeightSumGrows(ballots: Ballots, ref: Denom, who: Address, rules: Rules, seen: set<Denom>, d: Denom)
    requires ref in ballots && d in ballots && d !in seen
    ensures var scores := WeightScores(ballots, ref, who, rules);
            Sum(Restrict(scores, seen + {d})) == Sum(Restrict(scores, seen))
                + WeightIn(Cast(ballots, ref, d), who, rules)
  {
    SumRestrict(WeightScores(ballots, ref, who, rules), seen, d);
  }

  lemma EarnedGrows(c: Claim, ballots: Ballots, ref: Denom, who: Address, rules: Rules, seen: set<Denom>, d: Denom)
    requires ref in ballots && d in ballots && d !in seen
    ensures var b := Cast(ballots, ref, d);
            Earned(c, ballots, ref, who, rules, seen + {d})
              == Awarded(Earned(c, ballots, ref, who, rules, seen), WinsIn(b, who, rules), WeightIn(b, who, rules))
  {
    WinSumGrows(ballots, ref, who, rules, seen, d);
    WeightSumGrows(ballots, ref, who, rules, seen, d);
  }

  lemma EarnedNothing(c: Claim, ballots: Ballots, ref: Denom, who: Address, rules: Rules)
    requires ref in ballots
    ensures Earned(c, ballots, ref, who, rules, {}) == c
  {
    SumEmpty<Denom>();
    assert Restrict(WinScores(ballots, ref, who, rules), {}) == map[];
    assert Restrict(WeightScores(ballots, ref, who, rules), {}) == map[];
  }

  /** The rate of a coin: the reference's median, or that median over the cross rate's; a
      zero cross rate gives none. */
  ghost function RateOf(ballots: Ballots, ref: Denom, d: Denom): Option<Dec>
    requires ref in ballots && d in ballots
  {
    var m := Median(Cast(ballots, ref, d));
    if d == ref then Some(m)
    else if m <= 0 then None
    else Some(Quo(Median(ballots[ref]), m))
  }

  ghost function Rates(ballots: Ballots, ref: Denom, seen: set<Denom>): map<Denom, Dec>
    requires ref in ballots
  {
    map d | d in ballots && d in seen && RateOf(ballots, ref, d).Some? :: RateOf(ballots, ref, d).value
  }

  lemma CrossMedianNonneg(ballots: Ballots, ref: Denom, d: Denom)
    requires ref in ballots && d in ballots && d != ref
    ensures Median(Cast(ballots, ref, d)) >= 0
  {
    BasesPositive(ballots[ref]);
    if r :| IsMedian(Cast(ballots, ref, d), r) {
      MedianIs(Cast(ballots, ref, d), r);
      CrossNonneg(ballots[d], ToMap(ballots[ref]), r);
    }
  }

  /** Judge one ballot: convert and sort it unless it is the reference, then tally. */
  method Judge(ballots: Ballots, ref: Denom, d: Denom, rules: Rules, claims: Claims)
    returns (median: Dec, claims': Claims)
    requires ref in ballots && d in ballots && Sorted(ballots[d]) && Entitled(ballots[d], claims)
    ensures median == Median(Cast(ballots, ref, d)) && claims'.Keys == claims.Keys
    ensures forall who | who in claims ::
              claims'[who] == Awarded(claims[who], WinsIn(Cast(ballots, ref, d), who, rules),
                                      WeightIn(Cast(ballots, ref, d), who, rules))
  {
    var b := ballots[d];
    if d != ref {
      var cross := ToCross(b, ToMap(ballots[ref]));
      ArrangedSorts(cross);
      b := Arranged(cross);
      StillEntitled(ballots[d], cross, b, ToMap(ballots[ref]), claims);
    }
    median, claims' := Tally(b, rules, claims);
    forall who
      ensures Median(b) == Median(Cast(ballots, ref, d))
      ensures WinsIn(b, who, rules) == WinsIn(Cast(ballots, ref, d), who, rules)
      ensures WeightIn(b, who, rules) == WeightIn(Cast(ballots, ref, d), who, rules)
    {
      TallyPermuted(b, Cast(ballots, ref, d), who, rules);
    }
    TallyPermuted(b, Cast(ballots, ref, d), "", rules);
  }

  lemma StillEntitled(b: Ballot, cross: Ballot, sorted: Ballot, bases: map<Address, Dec>, claims: Claims)
    requires Entitled(b, claims) && cross == ToCross(b, bases) && multiset(sorted) == multiset(cross)
    ensures Entitled(sorted, claims)
  {
    forall v | v in sorted
      ensures v.voter in claims
    {
      assert v in multiset(sorted) && v in cross;
      var i :| 0 <= i < |cross| && cross[i] == v;
      assert b[i] in b;
    }
  }

  /** Walk the surviving ballots in any order, awarding claims and setting rates. */
  method TallyAll(ballots: Ballots, ref: Denom, rules: Rules, claims: Claims)
    returns (claims': Claims, rates: map<Denom, Dec>)
    requires ref in ballots && forall d | d in ballots :: Sorted(ballots[d]) && Entitled(ballots[d], claims)
    ensures claims'.Keys == claims.Keys && rates == Rates(ballots, ref, ballots.Keys)
    ensures forall who | who in claims :: claims'[who] == Earned(claims[who], ballots, ref, who, rules, ballots.Keys)
  {
    claims', rates := claims, map[];
    var todo := ballots.Keys;
    var reference := WeightedMedian(ballots[ref]);
    MedianFound(ballots[ref], reference);
    ghost var seen: set<Denom> := {};
    forall who | who in claims
      ensures claims'[who] == Earned(claims[who], ballots, ref, who, rules, seen)
    {
      EarnedNothing(claims[who], ballots, ref, who, rules);
    }
    while todo != {}
      invariant todo <= ballots.Keys && seen == ballots.Keys - todo
      invariant claims'.Keys == claims.Keys && rates == Rates(ballots, ref, seen)
      invariant forall who | who in claims :: claims'[who] == Earned(claims[who], ballots, ref, who, rules, seen)
      decreases |todo|
    {
      var d :| d in todo;
      var median;
      ghost var before := claims';
      median, claims' := Judge(ballots, ref, d, rules, claims');
      AwardsGrow(claims, before, claims', ballots, ref, rules, seen, d);
      if d == ref {
        rates := rates[d := median];
      } else {
        CrossMedianNonneg(ballots, ref, d);
        if median != 0 { rates := rates[d := Quo(reference, median)]; }
      }
      todo := todo - {d};
      RatesGrow(ballots, ref, seen, d);
      seen := seen + {d};
    }
    assert seen == ballots.Keys;
  }

  lemma AwardsGrow(claims: Claims, before: Claims, after: Claims, ballots: Ballots, ref: Denom, rules: Rules,
                   seen: set<Denom>, d: Denom)
    requires ref in ballots && d in ballots && d !in seen && before.Keys == claims.Keys == after.Keys
    requires forall who | who in claims :: before[who] == Earned(claims[who], ballots, ref, who, rules, seen)
    requires forall who | who in before ::
               after[who] == Awarded(before[who], WinsIn(Cast(ballots, ref, d), who, rules),
                                     WeightIn(Cast(ballots, ref, d), who, rules))
    ensures forall who | who in claims :: after[who] == Earned(claims[who], ballots, ref, who, rules, seen + {d})
  {
    forall who | who in claims
      ensures after[who] == Earned(claims[who], ballots, ref, who, rules, seen + {d})
    {
      EarnedGrows(claims[who], ballots, ref, who, rules, seen, d);
    }
  }

  lemma RatesGrow(ballots: Ballots, ref: Denom, seen: set<Denom>, d: Denom)
    requires ref in ballots && d in ballots && d !in seen
    ensures Rates(ballots, ref, seen + {d})
              == (if RateOf(ballots, ref, d).Some? then Rates(ballots, ref, seen)[d := RateOf(ballots, ref, d).value]
                  else Rates(ballots, ref, seen))
  {
  }

  // --- Collecting votes -----------------------------------------------------------

  /** A validator's votes for a period. */
  datatype Aggregate = Aggregate(voter: Address, tuples: seq<(Denom, Dec)>)

  /** An abstention carries no power. */
  function VoteOf(voter: Address, rate: Dec, power: nat): Vote {
    Vote(rate, voter, if rate > 0 then power else 0)
  }

  function TupleVotes(tuples: seq<(Denom, Dec)>, voter: Address, power: nat, d: Denom): Ballot {
    if tuples == [] then [] else
      var n := |tuples| - 1;
      TupleVotes(tuples[..n], voter, power, d) + if tuples[n].0 == d then [VoteOf(voter, tuples[n].1, power)] else []
  }

  /** All votes for a denomination by validators with a claim. */
  function VotesFor(votes: seq<Aggregate>, claims: Claims, d: Denom): Ballot {
    if votes == [] then [] else
      var n := |votes| - 1;
      VotesFor(votes[..n], claims, d)
        + if votes[n].voter in claims then TupleVotes(votes[n].tuples, votes[n].voter, claims[votes[n].voter].power, d)
            else []
  }

  /** The ballots hold exactly the votes collected so far, and no empty ballot. */
  ghost predicate Collected(ballots: Ballots, so: Denom -> Ballot) {
    forall d :: if d in ballots then ballots[d] == so(d) && so(d) != [] else so(d) == []
  }

  ghost function Both(votes: seq<Aggregate>, claims: Claims, tuples: seq<(Denom, Dec)>, voter: Address,
                      power: nat): Denom -> Ballot {
    (d: Denom) => VotesFor(votes, claims, d) + TupleVotes(tuples, voter, power, d)
  }

  ghost function All(votes: seq<Aggregate>, claims: Claims): Denom -> Ballot {
    (d: Denom) => VotesFor(votes, claims, d)
  }

  function Added(ballots: Ballots, d: Denom, v: Vote): Ballots {
    ballots[d := (if d in ballots then ballots[d] else []) + [v]]
  }

  lemma CollectOne(ballots: Ballots, votes: seq<Aggregate>, claims: Claims, tuples: seq<(Denom, Dec)>, j: nat,
                   voter: Address, power: nat)
    requires j < |tuples| && Collected(ballots, Both(votes, claims, tuples[..j], voter, power))
    ensures Collected(Added(ballots, tuples[j].0, VoteOf(voter, tuples[j].1, power)),
                      Both(votes, claims, tuples[..j + 1], voter, power))
  {
    var before, after := Both(votes, claims, tuples[..j], voter, power),
        Both(votes, claims, tuples[..j + 1], voter, power);
    var cast, m := VoteOf(voter, tuples[j].1, power), Added(ballots, tuples[j].0, VoteOf(voter, tuples[j].1, power));
    assert tuples[..j + 1][..j] == tuples[..j];
    forall d
      ensures if d in m then m[d] == after(d) && after(d) != [] else after(d) == []
    {
      var more := if tuples[j].0 == d then [cast] else [];
      assert TupleVotes(tuples[..j + 1], voter, power, d) == TupleVotes(tuples[..j], voter, power, d) + more;
      assert after(d) == before(d) + more;
    }
  }

  /** Append one validator's votes to the ballots of their denominations. */
  method Append(ballots: Ballots, vote: Aggregate, power: nat, ghost votes: seq<Aggregate>, ghost claims: Claims)
    returns (ballots': Ballots)
    requires Collected(ballots, All(votes, claims))
    ensures Collected(ballots', Both(votes, claims, vote.tuples, vote.voter, power))
  {
    ballots' := ballots;
    var j := 0;
    while j < |vote.tuples|
      invariant 0 <= j <= |vote.tuples|
      invariant Collected(ballots', Both(votes, claims, vote.tuples[..j], vote.voter, power))
    {
      var denom, rate := vote.tuples[j].0, vote.tuples[j].1;
      CollectOne(ballots', votes, claims, vote.tuples, j, vote.voter, power);
      ballots' := Added(ballots', denom, VoteOf(vote.voter, rate, power));
      j := j + 1;
    }
    assert vote.tuples[..j] == vote.tuples;
  }

  /** Every ballot holds the votes for its denomination, sorted by rate. */
  ghost predicate Organized(ballots: Ballots, votes: seq<Aggregate>, claims: Claims) {
    && (forall d :: d in ballots <==> VotesFor(votes, claims, d) != [])
    && (forall d | d in ballots ::
          Sorted(ballots[d]) && multiset(ballots[d]) == multiset(VotesFor(votes, claims, d))
              && Entitled(ballots[d], claims))
  }

  method OrganizeBallotByDenom(votes: seq<Aggregate>, claims: Claims) returns (ballots: Ballots)
    ensures Organized(ballots, votes, claims)
  {
    ballots := map[];
    var i := 0;
    while i < |votes|
      invariant 0 <= i <= |votes| && Collected(ballots, All(votes[..i], claims))
    {
      assert votes[..i + 1][..i] == votes[..i];
      if votes[i].voter in claims {
        ballots := Append(ballots, votes[i], claims[votes[i].voter].power, votes[..i], claims);
      }
      assert Collected(ballots, All(votes[..i + 1], claims));
      i := i + 1;
    }
    assert votes[..i] == votes;
    ballots := SortAll(ballots, votes, claims);
  }

  /** Sort every ballot, in any order of denominations. */
  method SortAll(ballots: Ballots, ghost votes: seq<Aggregate>, ghost claims: Claims) returns (sorted: Ballots)
    requires Collected(ballots, All(votes, claims))
    ensures Organized(sorted, votes, claims)
  {
    sorted := ballots;
    var todo := ballots.Keys;
    while todo != {}
      invariant todo <= ballots.Keys == sorted.Keys
      invariant forall d | d in ballots :: sorted[d] == if d in todo then ballots[d] else Arranged(ballots[d])
      decreases |todo|
    {
      var d :| d in todo;
      sorted := sorted[d := Arranged(ballots[d])];
      todo := todo - {d};
    }
    forall d | d in sorted
      ensures Sorted(sorted[d]) && multiset(sorted[d]) == multiset(VotesFor(votes, claims, d))
                && Entitled(sorted[d], claims)
    {
      ArrangedSorts(ballots[d]);
      VotersEntitled(votes, claims, d);
      SameVoters(ballots[d], sorted[d], claims);
    }
  }

  lemma SameVoters(a: Ballot, b: Ballot, claims: Claims)
    requires Entitled(a, claims) && multiset(a) == multiset(b)
    ensures Entitled(b, claims)
  {
    forall v | v in b
      ensures v.voter in claims
    {
      assert v in multiset(b) && v in a;
    }
  }

  lemma {:induction false} TuplesBy(tuples: seq<(Denom, Dec)>, voter: Address, power: nat, d: Denom)
    ensures forall v | v in TupleVotes(tuples, voter, power, d) :: v.voter == voter
    decreases |tuples|
  {
    if tuples != [] { TuplesBy(tuples[..|tuples| - 1], voter, power, d); }
  }

  lemma {:induction false} VotersEntitled(votes: seq<Aggregate>, claims: Claims, d: Denom)
    ensures Entitled(VotesFor(votes, claims, d), claims)
    decreases |votes|
  {
    if votes != [] {
      var n := |votes| - 1;
      VotersEntitled(votes[..n], claims, d);
      if votes[n].voter in claims { TuplesBy(votes[n].tuples, votes[n].voter, claims[votes[n].voter].power, d); }
    }
  }

  lemma {:induction false} TuplesPowerless(tuples: seq<(Denom, Dec)>, voter: Address, power: nat, d: Denom)
    ensures AbstentionsPowerless(TupleVotes(tuples, voter, power, d))
    decreases |tuples|
  {
    if tuples != [] { TuplesPowerless(tuples[..|tuples| - 1], voter, power, d); }
  }

  /** Collected votes at or below zero carry no power. */
  lemma {:induction false} VotesPowerless(votes: seq<Aggregate>, claims: Claims, d: Denom)
    ensures AbstentionsPowerless(VotesFor(votes, claims, d))
    decreases |votes|
  {
    if votes != [] {
      var n := |votes| - 1;
      VotesPowerless(votes[..n], claims, d);
      if votes[n].voter in claims {
        TuplesPowerless(votes[n].tuples, votes[n].voter, claims[votes[n].voter].power, d);
      }
    }
  }

  lemma OrganizedPowerless(ballots: Ballots, votes: seq<Aggregate>, claims: Claims, d: Denom)
    requires Organized(ballots, votes, claims) && d in ballots
    ensures AbstentionsPowerless(ballots[d])
  {
    VotesPowerless(votes, claims, d);
    forall v | v in ballots[d] && v.rate <= 0
      ensures v.power == 0
    {
      assert v in multiset(ballots[d]) && v in VotesFor(votes, claims, d);
    }
  }

  // --- Misses ---------------------------------------------------------------------

  function MissesOf(misses: map<Address, nat>, who: Address): nat {
    if who in misses then misses[who] else 0
  }

  /** A validator whose wins are not as many as the targets. */
  predicate Short(claims: Claims, targets: set<Denom>, who: Address) {
    who in claims && claims[who].wins != |targets|
  }

  /** Everyone whose wins are not as many as the targets misses once more, in whatever order
      the claims are walked. */
  method CountMisses(claims: Claims, targets: set<Denom>, misses: map<Address, nat>)
    returns (misses': map<Address, nat>)
    ensures forall who ::
              MissesOf(misses', who) == MissesOf(misses, who) + (if Short(claims, targets, who) then 1 else 0)
    ensures forall who :: who in misses' <==> who in misses || Short(claims, targets, who)
  {
    misses' := misses;
    var todo := claims.Keys;
    while todo != {}
      invariant todo <= claims.Keys
      invariant forall who :: MissesOf(misses', who) == MissesOf(misses, who)
                  + (if who !in todo && Short(claims, targets, who) then 1 else 0)
      invariant forall who :: who in misses' <==> who in misses || (who !in todo && Short(claims, targets, who))
      decreases |todo|
    {
      var who :| who in todo;
      todo := todo - {who};
      if claims[who].wins != |targets| {
        misses' := misses'[who := MissesOf(misses', who) + 1];
      }
    }
  }
}
