/**
 Ballots in terms of the votes in the stores: whose vote is in a ballot and what it says,
 what power is behind it, and when it wins.
 */
module OracleStored {
  import opened FixedPoint
  import opened Results
  import opened MapSum
  import opened OracleBallot
  import opened OracleTally
  import opened OraclePeriod
  import opened OracleKeeper
  import opened OracleAgreement

  // --- Stored rates ---------------------------------------------------------------

  /** The validator's votes hold a rate for a coin. */
  ghost predicate Stored(votes: seq<Aggregate>, who: Address, d: Denom, x: Dec) {
    exists a :: a in votes && a.voter == who && (d, x) in a.tuples
  }

  /** The rate a validator stored for a coin, if any. */
  ghost function StoredRate(votes: seq<Aggregate>, who: Address, d: Denom): Option<Dec> {
    if exists x :: Stored(votes, who, d, x) then (var x :| Stored(votes, who, d, x); Some(x)) else None
  }

  lemma StoredUnique(votes: seq<Aggregate>, who: Address, d: Denom, x: Dec)
    requires WellFormed(votes)
    ensures Stored(votes, who, d, x) <==> StoredRate(votes, who, d) == Some(x)
  {
    if Stored(votes, who, d, x) {
      var y := StoredRate(votes, who, d).value;
      var a :| a in votes && a.voter == who && (d, x) in a.tuples;
      var b :| b in votes && b.voter == who && (d, y) in b.tuples;
      var i :| 0 <= i < |votes| && votes[i] == a;
      var j :| 0 <= j < |votes| && votes[j] == b;
      assert i == j;
      var k :| 0 <= k < |a.tuples| && a.tuples[k] == (d, x);
      var n :| 0 <= n < |a.tuples| && a.tuples[n] == (d, y);
      assert k == n;
    }
  }

  /** The power a vote carries: none if it abstains. */
  function PowerFor(rate: Dec, power: nat): nat {
    if rate > 0 then power else 0
  }

  lemma {:induction false} TupleVoteMeans(tuples: seq<(Denom, Dec)>, voter: Address, power: nat, d: Denom, v: Vote)
    ensures v in TupleVotes(tuples, voter, power, d) <==>
              (d, v.rate) in tuples && v.voter == voter && v.power == PowerFor(v.rate, power)
    decreases |tuples|
  {
    if tuples != [] {
      var n := |tuples| - 1;
      assert tuples == tuples[..n] + [tuples[n]];
      TupleVoteMeans(tuples[..n], voter, power, d, v);
    }
  }

  lemma {:induction false} VoteMeans(votes: seq<Aggregate>, claims: Claims, d: Denom, v: Vote)
    ensures v in VotesFor(votes, claims, d) <==>
              && v.voter in claims && Stored(votes, v.voter, d, v.rate)
              && v.power == PowerFor(v.rate, claims[v.voter].power)
    decreases |votes|
  {
    if votes != [] {
      var n := |votes| - 1;
      assert votes == votes[..n] + [votes[n]];
      VoteMeans(votes[..n], claims, d, v);
      StoredLast(votes, v.voter, d, v.rate);
      if votes[n].voter in claims {
        TupleVoteMeans(votes[n].tuples, votes[n].voter, claims[votes[n].voter].power, d, v);
      }
    }
  }

  lemma StoredLast(votes: seq<Aggregate>, who: Address, d: Denom, x: Dec)
    requires votes != []
    ensures var n := |votes| - 1;
            Stored(votes, who, d, x) <==>
              Stored(votes[..n], who, d, x) || (votes[n].voter == who && (d, x) in votes[n].tuples)
  {
    var n := |votes| - 1;
    assert votes == votes[..n] + [votes[n]];
    if Stored(votes[..n], who, d, x) {
      var a :| a in votes[..n] && a.voter == who && (d, x) in a.tuples;
      assert a in votes;
    } else if votes[n].voter == who && (d, x) in votes[n].tuples {
      assert votes[n] in votes;
    }
  }

  /** A ballot holds exactly the stored votes of validators with a claim. */
  lemma BallotMeans(ballots: Ballots, votes: seq<Aggregate>, claims: Claims, d: Denom, v: Vote)
    requires Organized(ballots, votes, claims)
    ensures d in ballots && v in ballots[d] <==>
              && v.voter in claims && Stored(votes, v.voter, d, v.rate)
              && v.power == PowerFor(v.rate, claims[v.voter].power)
  {
    VoteMeans(votes, claims, d, v);
    if d in ballots { assert v in multiset(ballots[d]) <==> v in multiset(VotesFor(votes, claims, d)); }
  }

  // --- The power behind a ballot --------------------------------------------------

  /** The power of every validator that stored a positive rate for a coin. */
  ghost function Backers(votes: seq<Aggregate>, claims: Claims, d: Denom): map<Address, int> {
    map who | who in claims && StoredRate(votes, who, d).Some? && StoredRate(votes, who, d).value > 0 ::
      claims[who].power
  }

  /** Each power is its voter's, or nothing, and each voter with power votes. */
  ghost predicate Matches(b: Ballot, m: map<Address, int>) {
    && OneVote(b)
    && (forall v | v in b :: v.power == if v.voter in m then m[v.voter] else 0)
    && (forall who | who in m :: exists v :: v in b && v.voter == who)
  }

  lemma MatchesRest(b: Ballot, m: map<Address, int>, m': map<Address, int>)
    requires b != [] && Matches(b, m) && m' == m - {b[0].voter}
    ensures Matches(b[1..], m') && Sum(m) == b[0].power + Sum(m')
  {
    var k, rest := b[0].voter, b[1..];
    assert b[0] in b;
    if k in m { SumRemove(m, k); } else { assert m' == m; }
    forall v | v in rest
      ensures v.voter != k && v.power == if v.voter in m' then m'[v.voter] else 0
    {
      assert v in b;
    }
    forall who | who in m'
      ensures exists v :: v in rest && v.voter == who
    {
      var v :| v in b && v.voter == who;
      assert v in rest;
    }
  }

  lemma MatchesNone(m: map<Address, int>)
    requires Matches([], m)
    ensures Sum(m) == 0
  {
    assert m == map[];
    SumEmpty<Address>();
  }

  lemma {:induction false} PowerIsSum(b: Ballot, m: map<Address, int>)
    requires Matches(b, m)
    ensures Power(b) == Sum(m)
  {
    if b == [] {
      MatchesNone(m);
    } else {
      var m' := m - {b[0].voter};
      MatchesRest(b, m, m');
      PowerIsSum(b[1..], m');
    }
  }

  /** A ballot's power is the sum of the claims' powers over the validators with a positive
      stored rate. */
  lemma BallotBacking(ballots: Ballots, votes: seq<Aggregate>, claims: Claims, d: Denom)
    requires WellFormed(votes) && Organized(ballots, votes, claims) && d in ballots
    ensures Power(ballots[d]) == Sum(Backers(votes, claims, d))
  {
    var b, m := ballots[d], Backers(votes, claims, d);
    StoredOnce(votes, claims, d);
    OneVotePermuted(VotesFor(votes, claims, d), b);
    forall v | v in b
      ensures v.power == if v.voter in m then m[v.voter] else 0
    {
      BallotMeans(ballots, votes, claims, d, v);
      StoredUnique(votes, v.voter, d, v.rate);
    }
    forall who | who in m
      ensures exists v :: v in b && v.voter == who
    {
      var x := StoredRate(votes, who, d).value;
      var v := Vote(x, who, claims[who].power);
      BallotMeans(ballots, votes, claims, d, v);
      assert v in b && v.voter == who;
    }
    PowerIsSum(b, m);
  }

  // --- Judged votes ---------------------------------------------------------------

  /** The validator's stored rate for the reference coin, if it is a vote at all. */
  ghost predicate HasBase(votes: seq<Aggregate>, ref: Denom, who: Address) {
    StoredRate(votes, who, ref).Some? && StoredRate(votes, who, ref).value > 0
  }

  /** What is judged of a stored rate: the rate itself in the reference coin, the rate of the
      reference against it in any other; nothing to compare counts as zero. */
  ghost function JudgedRate(votes: seq<Aggregate>, ref: Denom, who: Address, d: Denom, x: Dec): Dec {
    if d == ref then x
    else if x > 0 && HasBase(votes, ref, who) then Quo(StoredRate(votes, who, ref).value, x)
    else 0
  }

  /** A vote carries its validator's power unless it abstains, or has no reference vote beside it. */
  ghost predicate Carries(votes: seq<Aggregate>, ref: Denom, who: Address, d: Denom, x: Dec) {
    x > 0 && (d == ref || HasBase(votes, ref, who))
  }

  ghost function JudgedVote(votes: seq<Aggregate>, power: nat, ref: Denom, who: Address, d: Denom, x: Dec): Vote {
    Vote(JudgedRate(votes, ref, who, d, x), who, if Carries(votes, ref, who, d, x) then power else 0)
  }

  lemma BasesMean(ballots: Ballots, votes: seq<Aggregate>, claims: Claims, ref: Denom, who: Address)
    requires WellFormed(votes) && Organized(ballots, votes, claims) && ref in ballots && who in claims
    ensures who in ToMap(ballots[ref]) <==> HasBase(votes, ref, who)
    ensures who in ToMap(ballots[ref]) ==> ToMap(ballots[ref])[who] == StoredRate(votes, who, ref).value
  {
    var b := ballots[ref];
    StoredOnce(votes, claims, ref);
    OneVotePermuted(VotesFor(votes, claims, ref), b);
    if HasBase(votes, ref, who) {
      var v := Vote(StoredRate(votes, who, ref).value, who, claims[who].power);
      BallotMeans(ballots, votes, claims, ref, v);
      ToMapMeans(b, v);
    }
    if who in ToMap(b) {
      ToMapFrom(b, who);
      var v :| v in b && v.voter == who && v.rate > 0 && ToMap(b)[who] == v.rate;
      BallotMeans(ballots, votes, claims, ref, v);
      StoredUnique(votes, who, ref, v.rate);
    }
  }

  /** A vote as it is judged. */
  function AsJudged(left: Ballots, ref: Denom, d: Denom, v: Vote): Vote
    requires ref in left
  {
    if d == ref then v else Cross(v, ToMap(left[ref]))
  }

  lemma CastHolds(left: Ballots, ref: Denom, d: Denom, w: Vote)
    requires ref in left && d in left
    ensures w in Cast(left, ref, d) <==> exists v :: v in left[d] && w == AsJudged(left, ref, d, v)
  {
    var b := Cast(left, ref, d);
    if w in b {
      var i :| 0 <= i < |b| && b[i] == w;
      assert left[d][i] in left[d] && w == AsJudged(left, ref, d, left[d][i]);
    }
    if v :| v in left[d] && w == AsJudged(left, ref, d, v) {
      var i :| 0 <= i < |left[d]| && left[d][i] == v;
      assert b[i] == w;
    }
  }

  /** The ballots judged are among those organized. */
  predicate Among(left: Ballots, ballots: Ballots) {
    forall d | d in left :: d in ballots && left[d] == ballots[d]
  }

  lemma JudgedMeans(ballots: Ballots, left: Ballots, votes: seq<Aggregate>, claims: Claims, ref: Denom, d: Denom,
                    v: Vote)
    requires WellFormed(votes) && Organized(ballots, votes, claims) && Among(left, ballots) && ref in left
    requires v.voter in claims && v.power == PowerFor(v.rate, claims[v.voter].power)
    ensures AsJudged(left, ref, d, v) == JudgedVote(votes, claims[v.voter].power, ref, v.voter, d, v.rate)
  {
    BasesMean(ballots, votes, claims, ref, v.voter);
  }

  /** Where a validator's vote goes when a ballot is judged. */
  lemma CastMeans(ballots: Ballots, left: Ballots, votes: seq<Aggregate>, claims: Claims, ref: Denom, d: Denom, w: Vote)
    requires WellFormed(votes) && Organized(ballots, votes, claims) && Among(left, ballots) && ref in left && d in left
    requires w.voter in claims
    ensures w in Cast(left, ref, d) <==>
              && StoredRate(votes, w.voter, d).Some?
              && w == JudgedVote(votes, claims[w.voter].power, ref, w.voter, d, StoredRate(votes, w.voter, d).value)
  {
    CastHolds(left, ref, d, w);
    if v :| v in left[d] && w == AsJudged(left, ref, d, v) {
      BallotMeans(ballots, votes, claims, d, v);
      StoredUnique(votes, w.voter, d, v.rate);
      JudgedMeans(ballots, left, votes, claims, ref, d, v);
    }
    if StoredRate(votes, w.voter, d).Some? {
      var x := StoredRate(votes, w.voter, d).value;
      var v := Vote(x, w.voter, PowerFor(x, claims[w.voter].power));
      BallotMeans(ballots, votes, claims, d, v);
      JudgedMeans(ballots, left, votes, claims, ref, d, v);
      assert v in left[d];
    }
  }

  // --- Winning votes --------------------------------------------------------------

  /** The validator's stored rate answers for a coin whose ballot counts: it abstains, cannot be
      compared, or is near the median. */
  ghost predicate Answers(votes: seq<Aggregate>, left: Ballots, ref: Denom, who: Address, d: Denom, rules: Rules) {
    && ref in left && d in left && StoredRate(votes, who, d).Some?
    && var y := JudgedRate(votes, ref, who, d, StoredRate(votes, who, d).value);
       y <= 0 || Near(Cast(left, ref, d), y, rules)
  }

  /** A stored rate at or below zero answers; a positive one for the reference coin answers
      exactly near the median; a positive one without a reference vote beside it answers. */
  lemma AnswersIff(votes: seq<Aggregate>, left: Ballots, ref: Denom, who: Address, d: Denom, x: Dec, rules: Rules)
    requires WellFormed(votes) && ref in left && d in left && Stored(votes, who, d, x)
    ensures x <= 0 ==> Answers(votes, left, ref, who, d, rules)
    ensures x > 0 && d == ref ==> (Answers(votes, left, ref, who, d, rules) <==> Near(left[ref], x, rules))
    ensures x > 0 && d != ref && (forall base :: Stored(votes, who, ref, base) ==> base <= 0) ==>
              Answers(votes, left, ref, who, d, rules)
  {
    StoredUnique(votes, who, d, x);
  }

  /** A positive rate with a positive reference vote beside it answers exactly when its cross
      rate rounds to zero or is near the median of cross rates. */
  lemma AnswersAgainst(votes: seq<Aggregate>, left: Ballots, ref: Denom, who: Address, d: Denom, x: Dec, base: Dec,
                       rules: Rules)
    requires WellFormed(votes) && ref in left && d in left && d != ref
    requires x > 0 && Stored(votes, who, d, x) && base > 0 && Stored(votes, who, ref, base)
    ensures Answers(votes, left, ref, who, d, rules) <==>
              Quo(base, x) <= 0 || Near(Cast(left, ref, d), Quo(base, x), rules)
  {
    StoredUnique(votes, who, d, x);
    StoredUnique(votes, who, ref, base);
  }

  /** A validator wins in a judged ballot exactly if its stored rate answers. */
  lemma AnswersWin(ballots: Ballots, left: Ballots, votes: seq<Aggregate>, claims: Claims, ref: Denom, who: Address,
                   d: Denom, rules: Rules)
    requires WellFormed(votes) && Organized(ballots, votes, claims) && Among(left, ballots) && who in claims
    ensures Covered(left, ref, d, who, rules) <==> Answers(votes, left, ref, who, d, rules)
  {
    if ref in left && d in left {
      var b := Cast(left, ref, d);
      if w :| w in b && w.voter == who && Wins(w, Median(b), Spread(b, Median(b), rules)) {
        CastMeans(ballots, left, votes, claims, ref, d, w);
        WinsNear(b, w, rules);
      }
      if Answers(votes, left, ref, who, d, rules) {
        var w := JudgedVote(votes, claims[who].power, ref, who, d, StoredRate(votes, who, d).value);
        CastMeans(ballots, left, votes, claims, ref, d, w);
        WinsNear(b, w, rules);
        assert w in b && w.voter == who;
      }
    }
  }

  // --- Wins and weights -----------------------------------------------------------

  /** The stored rate answers and carries its validator's power. */
  ghost predicate Pays(votes: seq<Aggregate>, left: Ballots, ref: Denom, who: Address, d: Denom, rules: Rules) {
    Answers(votes, left, ref, who, d, rules) && Carries(votes, ref, who, d, StoredRate(votes, who, d).value)
  }

  lemma WeightOnce(ballots: Ballots, left: Ballots, votes: seq<Aggregate>, claims: Claims, ref: Denom, who: Address,
                   d: Denom, rules: Rules)
    requires WellFormed(votes) && Organized(ballots, votes, claims) && Among(left, ballots) && who in claims
    requires ref in left && d in left && OneVote(left[d])
    ensures WeightIn(Cast(left, ref, d), who, rules)
              == if Pays(votes, left, ref, who, d, rules) then claims[who].power else 0
  {
    var b := Cast(left, ref, d);
    var m, spread := Median(b), Spread(b, Median(b), rules);
    CastOnce(left, ref, d);
    if StoredRate(votes, who, d).Some? {
      var w := JudgedVote(votes, claims[who].power, ref, who, d, StoredRate(votes, who, d).value);
      CastMeans(ballots, left, votes, claims, ref, d, w);
      OnlyVote(b, w, WeightOf(who, m, spread));
      WinsNear(b, w, rules);
    } else {
      forall w | w in b
        ensures WeightOf(who, m, spread)(w) == 0
      {
        if w.voter == who { CastMeans(ballots, left, votes, claims, ref, d, w); }
      }
      NoVote(b, WeightOf(who, m, spread));
    }
  }

  /** A sum of equal amounts is as many of them as there are. */
  lemma {:induction false} SumUniform(m: map<Denom, int>, s: set<Denom>, amount: int)
    requires s <= m.Keys && forall d | d in m :: m[d] == if d in s then amount else 0
    ensures Sum(m) == |s| * amount
    decreases |m|
  {
    if m == map[] {
      SumEmpty<Denom>();
      assert s == {};
    } else {
      var k :| k in m;
      SumRemove(m, k);
      Smaller(m, k);
      var m', s' := m - {k}, s - {k};
      SumUniform(m', s', amount);
      if k in s {
        OneLess(|s|, |s'|, amount);
      } else {
        assert s' == s;
      }
    }
  }

  lemma OneLess(n: int, k: int, amount: int)
    requires k == n - 1
    ensures amount + k * amount == n * amount
  {
  }

  /** The coins a validator's stored rates answer for, and those that pay. */
  ghost function Answered(votes: seq<Aggregate>, left: Ballots, ref: Denom, who: Address, rules: Rules): set<Denom> {
    set d | d in left && Answers(votes, left, ref, who, d, rules)
  }

  ghost function Paid(votes: seq<Aggregate>, left: Ballots, ref: Denom, who: Address, rules: Rules): set<Denom> {
    set d | d in left && Pays(votes, left, ref, who, d, rules)
  }

  lemma WinsCounted(ballots: Ballots, left: Ballots, votes: seq<Aggregate>, claims: Claims, ref: Denom, who: Address,
                    rules: Rules)
    requires WellFormed(votes) && Organized(ballots, votes, claims) && Among(left, ballots) && who in claims
    requires ref in left && forall d | d in left :: OneVote(left[d])
    ensures Sum(WinScores(left, ref, who, rules)) == |Answered(votes, left, ref, who, rules)|
  {
    var scores, s := WinScores(left, ref, who, rules), Answered(votes, left, ref, who, rules);
    forall d | d in scores
      ensures scores[d] == if d in s then 1 else 0
    {
      WinsOnce(left, ref, d, who, rules);
      AnswersWin(ballots, left, votes, claims, ref, who, d, rules);
    }
    SumUniform(scores, s, 1);
  }

  lemma WeightsCounted(ballots: Ballots, left: Ballots, votes: seq<Aggregate>, claims: Claims, ref: Denom, who: Address,
                       rules: Rules)
    requires WellFormed(votes) && Organized(ballots, votes, claims) && Among(left, ballots) && who in claims
    requires ref in left && forall d | d in left :: OneVote(left[d])
    ensures Sum(WeightScores(left, ref, who, rules)) == |Paid(votes, left, ref, who, rules)| * claims[who].power
  {
    var scores, s := WeightScores(left, ref, who, rules), Paid(votes, left, ref, who, rules);
    forall d | d in scores
      ensures scores[d] == if d in s then claims[who].power else 0
    {
      WeightOnce(ballots, left, votes, claims, ref, who, d, rules);
    }
    SumUniform(scores, s, claims[who].power);
  }

  lemma EarnedWhole(c: Claim, left: Ballots, ref: Denom, who: Address, rules: Rules, wins: int, weight: int)
    requires ref in left
    requires Sum(WinScores(left, ref, who, rules)) == wins && Sum(WeightScores(left, ref, who, rules)) == weight
    ensures Earned(c, left, ref, who, rules, left.Keys) == Awarded(c, wins, weight)
  {
    assert Restrict(WinScores(left, ref, who, rules), left.Keys) == WinScores(left, ref, who, rules);
    assert Restrict(WeightScores(left, ref, who, rules), left.Keys) == WeightScores(left, ref, who, rules);
  }

  /** A claim after a period: one win for each coin answered for, and the validator's power for
      each that pays. */
  lemma EarnedExactly(ballots: Ballots, left: Ballots, votes: seq<Aggregate>, claims: Claims, ref: Denom, who: Address,
                      rules: Rules)
    requires WellFormed(votes) && Organized(ballots, votes, claims) && Among(left, ballots) && who in claims
    requires ref in left && forall d | d in left :: OneVote(left[d])
    ensures Earned(claims[who], left, ref, who, rules, left.Keys)
              == Awarded(claims[who], |Answered(votes, left, ref, who, rules)|,
                         |Paid(votes, left, ref, who, rules)| * claims[who].power)
  {
    WinsCounted(ballots, left, votes, claims, ref, who, rules);
    WeightsCounted(ballots, left, votes, claims, ref, who, rules);
    EarnedWhole(claims[who], left, ref, who, rules, |Answered(votes, left, ref, who, rules)|,
                |Paid(votes, left, ref, who, rules)| * claims[who].power);
  }
}
