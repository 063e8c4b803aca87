/**
 What the order of walking maps and sorting equal rates cannot change: the ballots that
 count, the reference, the rates and the wins.
 */
module OracleAgreement {
  import opened FixedPoint
  import opened Results
  import opened MapSum
  import opened OracleBallot
  import opened OracleTally
  import opened OraclePeriod
  import opened OracleKeeper

  // --- One vote each --------------------------------------------------------------

  function By(who: Address): Vote -> int {
    (v: Vote) => if v.voter == who then 1 else 0
  }

  lemma {:induction false} ByNonneg(b: Ballot, who: Address)
    ensures 0 <= Total(b, By(who))
    ensures Total(b, By(who)) == 0 ==> forall v | v in b :: v.voter != who
  {
    if b != [] { ByNonneg(b[1..], who); }
  }

  lemma {:induction false} OnceEach(b: Ballot, who: Address)
    requires OneVote(b)
    ensures Total(b, By(who)) <= 1
    ensures (forall v | v in b :: v.voter != who) ==> Total(b, By(who)) == 0
  {
    if b != [] {
      assert forall v | v in b[1..] :: v in b && v.voter != b[0].voter;
      OnceEach(b[1..], who);
    }
  }

  lemma TwiceCounts(b: Ballot, i: nat, j: nat)
    requires i < j < |b| && b[i].voter == b[j].voter
    ensures Total(b, By(b[i].voter)) >= 2
  {
    var who := b[i].voter;
    TotalWithout(b, j, By(who));
    var rest := Without(b, j);
    assert rest[i] == b[i];
    TotalWithout(rest, i, By(who));
    ByNonneg(Without(rest, i), who);
  }

  /** Voting once each does not depend on the order of the votes. */
  lemma OneVotePermuted(a: Ballot, b: Ballot)
    requires multiset(a) == multiset(b) && OneVote(a)
    ensures OneVote(b)
  {
    forall i, j | 0 <= i < j < |b|
      ensures b[i].voter != b[j].voter
    {
      OnceEach(a, b[i].voter);
      TotalPermuted(a, b, By(b[i].voter));
      if b[i].voter == b[j].voter { TwiceCounts(b, i, j); }
    }
  }

  // --- The same ballots, arranged differently -------------------------------------

  /** Two ways to arrange the same ballots, in each of which everyone votes once. */
  predicate SameVotes(a: Ballots, b: Ballots) {
    && a.Keys == b.Keys
    && forall d | d in a :: multiset(a[d]) == multiset(b[d]) && OneVote(a[d]) && OneVote(b[d])
  }

  lemma OrganizedSame(a: Ballots, b: Ballots, votes: seq<Aggregate>, claims: Claims)
    requires Organized(a, votes, claims) && Organized(b, votes, claims)
    requires forall d :: OneVote(VotesFor(votes, claims, d))
    ensures SameVotes(a, b)
  {
    forall d | d in a
      ensures d in b && multiset(a[d]) == multiset(b[d]) && OneVote(a[d]) && OneVote(b[d])
    {
      OneVotePermuted(VotesFor(votes, claims, d), a[d]);
      OneVotePermuted(VotesFor(votes, claims, d), b[d]);
    }
    forall d | d in b
      ensures d in a
    {
    }
  }

  lemma PowerSame(a: Ballots, b: Ballots, d: Denom)
    requires SameVotes(a, b) && d in a
    ensures Power(a[d]) == Power(b[d])
  {
    TotalPermuted(a[d], b[d], PowerOf());
  }

  lemma SurvivorsSame(a: Ballots, b: Ballots, targets: set<Denom>, threshold: int)
    requires SameVotes(a, b)
    ensures SurvivingTargets(targets, a, threshold) == SurvivingTargets(targets, b, threshold)
    ensures SameVotes(Surviving(targets, a, threshold), Surviving(targets, b, threshold))
  {
    forall d | d in a
      ensures Passing(a[d], threshold) == Passing(b[d], threshold)
    {
      PowerSame(a, b, d);
    }
  }

  lemma ReferenceSame(a: Ballots, b: Ballots, r: Denom, q: Denom)
    requires SameVotes(a, b) && IsReference(a, r) && IsReference(b, q)
    ensures r == q
  {
    PowerSame(a, b, r);
    PowerSame(a, b, q);
    if r != q { LessTotal(r, q); }
  }

  lemma CastSame(a: Ballots, b: Ballots, ref: Denom, d: Denom)
    requires SameVotes(a, b) && ref in a && d in a
    ensures multiset(Cast(a, ref, d)) == multiset(Cast(b, ref, d))
  {
    if d != ref {
      ToMapPermuted(a[ref], b[ref]);
      CrossPermuted(a[d], b[d], ToMap(a[ref]));
    }
  }

  /** The rates come out the same. */
  lemma RatesSame(a: Ballots, b: Ballots, ref: Denom)
    requires SameVotes(a, b) && ref in a
    ensures Rates(a, ref, a.Keys) == Rates(b, ref, b.Keys)
  {
    SameMedian(a[ref], b[ref]);
    forall d | d in a
      ensures RateOf(a, ref, d) == RateOf(b, ref, d)
    {
      CastSame(a, b, ref, d);
      SameMedian(Cast(a, ref, d), Cast(b, ref, d));
    }
  }

  lemma ScoreSame(a: Ballots, b: Ballots, ref: Denom, d: Denom, who: Address, rules: Rules)
    requires SameVotes(a, b) && ref in a && d in a
    ensures WinScores(a, ref, who, rules)[d] == WinScores(b, ref, who, rules)[d]
    ensures WeightScores(a, ref, who, rules)[d] == WeightScores(b, ref, who, rules)[d]
  {
    CastSame(a, b, ref, d);
    TallyPermuted(Cast(a, ref, d), Cast(b, ref, d), who, rules);
  }

  lemma SameMaps(m: map<Denom, int>, n: map<Denom, int>)
    requires m.Keys == n.Keys && forall d | d in m :: m[d] == n[d]
    ensures m == n
  {
  }

  /** So do the wins and their weights. */
  lemma ScoresSame(a: Ballots, b: Ballots, ref: Denom, who: Address, rules: Rules)
    requires SameVotes(a, b) && ref in a
    ensures WinScores(a, ref, who, rules) == WinScores(b, ref, who, rules)
    ensures WeightScores(a, ref, who, rules) == WeightScores(b, ref, who, rules)
  {
    var w, x := WinScores(a, ref, who, rules), WinScores(b, ref, who, rules);
    var y, z := WeightScores(a, ref, who, rules), WeightScores(b, ref, who, rules);
    forall d | d in a
      ensures w[d] == x[d] && y[d] == z[d]
    {
      ScoreSame(a, b, ref, d, who, rules);
    }
    SameMaps(w, x);
    SameMaps(y, z);
  }

  // --- Who votes once -------------------------------------------------------------

  predicate DistinctDenoms(tuples: seq<(Denom, Dec)>) {
    forall i, j | 0 <= i < j < |tuples| :: tuples[i].0 != tuples[j].0
  }

  /** Votes as the stores keep them: one aggregate per validator, one rate per coin. */
  predicate WellFormed(votes: seq<Aggregate>) {
    && (forall i | 0 <= i < |votes| :: DistinctDenoms(votes[i].tuples))
    && (forall i, j | 0 <= i < j < |votes| :: votes[i].voter != votes[j].voter)
  }

  lemma {:induction false} TuplesOnce(tuples: seq<(Denom, Dec)>, voter: Address, power: nat, d: Denom)
    requires DistinctDenoms(tuples)
    ensures |TupleVotes(tuples, voter, power, d)| <= 1
    ensures (forall i | 0 <= i < |tuples| :: tuples[i].0 != d) ==> TupleVotes(tuples, voter, power, d) == []
    decreases |tuples|
  {
    if tuples != [] {
      var n := |tuples| - 1;
      assert forall i | 0 <= i < n :: tuples[..n][i] == tuples[i];
      TuplesOnce(tuples[..n], voter, power, d);
    }
  }

  lemma {:induction false} VotersAmong(votes: seq<Aggregate>, claims: Claims, d: Denom)
    ensures forall v | v in VotesFor(votes, claims, d) :: exists i :: 0 <= i < |votes| && votes[i].voter == v.voter
    decreases |votes|
  {
    if votes != [] {
      var n := |votes| - 1;
      VotersAmong(votes[..n], claims, d);
      if votes[n].voter in claims { TuplesBy(votes[n].tuples, votes[n].voter, claims[votes[n].voter].power, d); }
      forall v | v in VotesFor(votes, claims, d)
        ensures exists i :: 0 <= i < |votes| && votes[i].voter == v.voter
      {
        if v in VotesFor(votes[..n], claims, d) {
          var i :| 0 <= i < n && votes[..n][i].voter == v.voter;
          assert votes[i].voter == v.voter;
        } else {
          assert votes[n].voter == v.voter;
        }
      }
    }
  }

  /** Stored votes give every validator at most one vote per coin. */
  lemma {:induction false} StoredOnce(votes: seq<Aggregate>, claims: Claims, d: Denom)
    requires WellFormed(votes)
    ensures OneVote(VotesFor(votes, claims, d))
    decreases |votes|
  {
    if votes != [] {
      var n := |votes| - 1;
      StoredOnce(votes[..n], claims, d);
      VotersAmong(votes[..n], claims, d);
      var before := VotesFor(votes[..n], claims, d);
      if votes[n].voter in claims {
        var more := TupleVotes(votes[n].tuples, votes[n].voter, claims[votes[n].voter].power, d);
        TuplesOnce(votes[n].tuples, votes[n].voter, claims[votes[n].voter].power, d);
        TuplesBy(votes[n].tuples, votes[n].voter, claims[votes[n].voter].power, d);
        assert VotesFor(votes, claims, d) == before + more;
        JoinOnce(votes, before, more);
      }
    }
  }

  lemma JoinOnce(votes: seq<Aggregate>, before: Ballot, more: Ballot)
    requires votes != [] && WellFormed(votes) && OneVote(before) && |more| <= 1
    requires forall v | v in before :: exists i :: 0 <= i < |votes| - 1 && votes[i].voter == v.voter
    requires forall v | v in more :: v.voter == votes[|votes| - 1].voter
    ensures OneVote(before + more)
  {
    var all := before + more;
    forall i, j | 0 <= i < j < |all|
      ensures all[i].voter != all[j].voter
    {
      assert all[i] in before;
      if j == |before| {
        var k :| 0 <= k < |votes| - 1 && votes[k].voter == all[i].voter;
        assert all[j] in more && votes[k].voter != votes[|votes| - 1].voter;
      }
    }
  }

  // --- Who misses -----------------------------------------------------------------

  /** The validator has a winning or abstaining vote in a ballot. */
  ghost predicate Won(b: Ballot, who: Address, rules: Rules) {
    exists v :: v in b && v.voter == who && Wins(v, Median(b), Spread(b, Median(b), rules))
  }

  lemma {:induction false} CountOnce(b: Ballot, who: Address, m: Dec, s: Dec)
    requires OneVote(b)
    ensures Total(b, WinOf(who, m, s)) == if exists v :: v in b && v.voter == who && Wins(v, m, s) then 1 else 0
    ensures (forall v | v in b :: v.voter != who) ==> Total(b, WinOf(who, m, s)) == 0
  {
    if b != [] {
      assert forall v | v in b[1..] :: v in b && v.voter != b[0].voter;
      CountOnce(b[1..], who, m, s);
      if b[0].voter == who && Wins(b[0], m, s) {
        assert b[0] in b;
      } else if v :| v in b && v.voter == who && Wins(v, m, s) {
        assert v in b[1..];
      }
    }
  }

  /** Cross rates leave the voters as they are. */
  lemma CastOnce(ballots: Ballots, ref: Denom, d: Denom)
    requires ref in ballots && d in ballots && OneVote(ballots[d])
    ensures OneVote(Cast(ballots, ref, d))
  {
  }

  lemma WinsOnce(ballots: Ballots, ref: Denom, d: Denom, who: Address, rules: Rules)
    requires ref in ballots && d in ballots && OneVote(ballots[d])
    ensures WinScores(ballots, ref, who, rules)[d] == if Won(Cast(ballots, ref, d), who, rules) then 1 else 0
  {
    CastOnce(ballots, ref, d);
    var b := Cast(ballots, ref, d);
    CountOnce(b, who, Median(b), Spread(b, Median(b), rules));
  }

  ghost function Ones(m: map<Denom, int>): set<Denom> {
    set d | d in m && m[d] == 1
  }

  lemma OnesWithout(m: map<Denom, int>, k: Denom)
    requires k in m
    ensures k !in Ones(m - {k}) && Ones(m) == Ones(m - {k}) + if m[k] == 1 then {k} else {}
  {
  }

  /** A sum of zeros and ones counts the ones. */
  lemma {:induction false} SumCounts(m: map<Denom, int>)
    requires forall d | d in m :: m[d] == 0 || m[d] == 1
    ensures Sum(m) == |Ones(m)|
    decreases |m|
  {
    if m == map[] {
      SumEmpty<Denom>();
      assert Ones(m) == {};
    } else {
      var k :| k in m;
      SumRemove(m, k);
      Smaller(m, k);
      SumCounts(m - {k});
      OnesWithout(m, k);
    }
  }

  lemma FullSubset(s: set<Denom>, t: set<Denom>)
    requires s <= t
    ensures |s| == |t| <==> s == t
  {
    assert t == s + (t - s);
  }

  /** The validator's vote on a target won or abstained. */
  ghost predicate Covered(left: Ballots, ref: Denom, d: Denom, who: Address, rules: Rules) {
    ref in left && d in left && Won(Cast(left, ref, d), who, rules)
  }

  /** A validator's wins are as many as the targets that count exactly when every one of them
      has its winning or abstaining vote. */
  lemma WinsForAll(left: Ballots, kept: set<Denom>, ref: Denom, who: Address, rules: Rules)
    requires ref in left && left.Keys <= kept && forall d | d in left :: OneVote(left[d])
    ensures Sum(Restrict(WinScores(left, ref, who, rules), left.Keys)) == |kept| <==>
              forall d | d in kept :: Covered(left, ref, d, who, rules)
  {
    var scores := WinScores(left, ref, who, rules);
    assert Restrict(scores, left.Keys) == scores;
    forall d | d in left
      ensures scores[d] == if Covered(left, ref, d, who, rules) then 1 else 0
    {
      WinsOnce(left, ref, d, who, rules);
    }
    SumCounts(scores);
    FullSubset(Ones(scores), kept);
  }
}
