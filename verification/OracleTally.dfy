/**
 Judging a ballot: the median, the spread around it that earns a reward, and who falls
 within.
 */
module OracleTally {
  import opened FixedPoint
  import opened Results
  import opened OracleBallot

  /** The parameters of a tally: the width of the reward band, and the square root as the
      keeper computes it in floating point. */
  datatype Rules = Rules(band: nat, root: Dec -> Dec)

  /** The weighted median of a ballot, whatever the order of its votes. */
  ghost function Median(b: Ballot): Dec {
    if exists r :: IsMedian(b, r) then var r :| IsMedian(b, r); r else 0
  }

  lemma MedianIs(b: Ballot, r: Dec)
    requires IsMedian(b, r)
    ensures Median(b) == r
  {
    MedianUnique(b, Median(b), r);
  }

  /** Every ballot with a vote has one. */
  lemma MedianExists(b: Ballot)
    requires b != []
    ensures IsMedian(b, Median(b))
  {
    ArrangedSorts(b);
    assert |Arranged(b)| == |multiset(Arranged(b))| == |multiset(b)| == |b|;
    var r := MedianAhead(Arranged(b), 0);
    MedianPermuted(Arranged(b), b, r);
    MedianIs(b, r);
  }

  lemma SameMedian(a: Ballot, b: Ballot)
    requires multiset(a) == multiset(b)
    ensures Median(a) == Median(b)
  {
    if r :| IsMedian(a, r) {
      MedianPermuted(a, b, r);
      MedianIs(a, r);
      MedianIs(b, r);
    } else if r :| IsMedian(b, r) {
      MedianPermuted(b, a, r);
    }
  }

  // --- Spread and winners ---------------------------------------------------------

  function SquareOf(median: Dec): Vote -> int {
    (v: Vote) => Mul(v.rate - median, v.rate - median)
  }

  function Deviation(b: Ballot, median: Dec, rules: Rules): Dec {
    if b == [] then 0 else (rules.root)(QuoInt(Total(b, SquareOf(median)), |b|))
  }

  function ExactSquareOf(median: Dec): Vote -> int {
    (v: Vote) => (v.rate - median) * (v.rate - median)
  }

  /** The rounded squares add up to the exact ones, but for half a unit each. */
  lemma {:induction false} SquaresSum(b: Ballot, median: Dec)
    ensures var sum, exact := Total(b, SquareOf(median)), Total(b, ExactSquareOf(median));
            0 <= sum && 2 * ONE * sum - ONE * |b| <= 2 * exact <= 2 * ONE * sum + ONE * |b|
  {
    if b != [] {
      var x := b[0].rate - median;
      SquaresSum(b[1..], median);
      SquareNonneg(x);
      HalfEvenNonneg(x * x, ONE);
    }
  }

  lemma SquareNonneg(x: int)
    ensures 0 <= x * x
  {
  }

  /** A number is the mean of squares that add up to an amount, within one and a half units in
      the 18th decimal. */
  predicate IsMean(mean: Dec, n: nat, squares: int) {
    && 0 <= mean
    && 2 * ONE * (n * mean) - ONE * n <= 2 * squares < 2 * ONE * (n * (mean + 1)) + ONE * n
  }

  lemma MeanFrom(sum: int, n: nat, squares: int)
    requires 0 < n && 0 <= sum && 2 * ONE * sum - ONE * n <= 2 * squares <= 2 * ONE * sum + ONE * n
    ensures IsMean(sum / n, n, squares)
  {
    DivMod(sum, n);
    assert 0 <= sum / n by { if sum / n < 0 { MulMono(sum / n, -1, n); } }
    assert n * (sum / n) <= sum < n * (sum / n) + n;
    assert n * (sum / n + 1) == n * (sum / n) + n;
  }

  /** The deviation is the root of the mean of the squared distances from the median. */
  lemma DeviationMeans(b: Ballot, median: Dec, rules: Rules)
    requires b != []
    ensures exists mean: Dec :: Deviation(b, median, rules) == (rules.root)(mean)
                                && IsMean(mean, |b|, Total(b, ExactSquareOf(median)))
  {
    var sum := Total(b, SquareOf(median));
    SquaresSum(b, median);
    MeanFrom(sum, |b|, Total(b, ExactSquareOf(median)));
    assert Deviation(b, median, rules) == (rules.root)(sum / |b|);
  }

  /** Half the band around the median, or the standard deviation if that is wider. */
  function Spread(b: Ballot, median: Dec, rules: Rules): Dec {
    Max(Mul(median, QuoInt(rules.band, 2)), Deviation(b, median, rules))
  }

  /** A vote wins within the spread, and so does an abstention. */
  predicate Wins(v: Vote, median: Dec, spread: Dec) {
    median - spread <= v.rate <= median + spread || v.rate <= 0
  }

  function WinOf(who: Address, median: Dec, spread: Dec): Vote -> int {
    (v: Vote) => if v.voter == who && Wins(v, median, spread) then 1 else 0
  }

  function WeightOf(who: Address, median: Dec, spread: Dec): Vote -> int {
    (v: Vote) => if v.voter == who && Wins(v, median, spread) then v.power else 0
  }

  /** How often, and with what weight, a validator wins in a ballot. */
  ghost function WinsIn(b: Ballot, who: Address, rules: Rules): int {
    Total(b, WinOf(who, Median(b), Spread(b, Median(b), rules)))
  }

  ghost function WeightIn(b: Ballot, who: Address, rules: Rules): int {
    Total(b, WeightOf(who, Median(b), Spread(b, Median(b), rules)))
  }

  /** Nothing a tally finds depends on the order of the votes. */
  lemma TallyPermuted(a: Ballot, b: Ballot, who: Address, rules: Rules)
    requires multiset(a) == multiset(b)
    ensures Median(a) == Median(b)
    ensures WinsIn(a, who, rules) == WinsIn(b, who, rules) && WeightIn(a, who, rules) == WeightIn(b, who, rules)
  {
    SameMedian(a, b);
    var m := Median(a);
    TotalPermuted(a, b, SquareOf(m));
    assert |a| == |multiset(a)| == |multiset(b)| == |b|;
    assert a == [] <==> b == [];
    var s := Spread(a, m, rules);
    TotalPermuted(a, b, WinOf(who, m, s));
    TotalPermuted(a, b, WeightOf(who, m, s));
  }

  // --- Cross rates ----------------------------------------------------------------

  /** Who voted what in the reference ballot, abstentions aside. */
  function ToMap(b: Ballot): map<Address, Dec> {
    if b == [] then map[] else
      var m, v := ToMap(b[..|b| - 1]), b[|b| - 1];
      if v.rate > 0 then m[v.voter := v.rate] else m
  }

  /** A vote as a rate against the reference; without a reference vote it abstains. */
  function Cross(v: Vote, bases: map<Address, Dec>): Vote {
    if v.voter in bases && v.rate > 0 then v.(rate := Quo(bases[v.voter], v.rate)) else v.(rate := 0, power := 0)
  }

  function ToCross(b: Ballot, bases: map<Address, Dec>): (r: Ballot)
    ensures |r| == |b| && forall i | 0 <= i < |b| :: r[i] == Cross(b[i], bases)
  {
    if b == [] then [] else [Cross(b[0], bases)] + ToCross(b[1..], bases)
  }

  /** Each validator votes at most once in a ballot. */
  predicate OneVote(b: Ballot) {
    forall i, j | 0 <= i < j < |b| :: b[i].voter != b[j].voter
  }

  lemma {:induction false} ToMapMeans(b: Ballot, v: Vote)
    requires OneVote(b)
    ensures v in b && v.rate > 0 ==> v.voter in ToMap(b) && ToMap(b)[v.voter] == v.rate
    decreases |b|
  {
    if v in b && v.rate > 0 {
      var n := |b| - 1;
      if v != b[n] {
        assert b == b[..n] + [b[n]] && v in b[..n];
        ToMapMeans(b[..n], v);
        var i :| 0 <= i < n && b[i] == v;
        assert b[i].voter != b[n].voter;
      }
    }
  }

  lemma {:induction false} ToMapFrom(b: Ballot, who: Address)
    requires who in ToMap(b)
    ensures exists v :: v in b && v.voter == who && v.rate > 0 && ToMap(b)[who] == v.rate
    decreases |b|
  {
    var n := |b| - 1;
    assert b == b[..n] + [b[n]];
    if b[n].voter == who && b[n].rate > 0 {
      assert b[n] in b;
    } else {
      ToMapFrom(b[..n], who);
      var v :| v in b[..n] && v.voter == who && v.rate > 0 && ToMap(b[..n])[who] == v.rate;
      assert v in b;
    }
  }

  lemma ToMapWithin(a: Ballot, b: Ballot, who: Address)
    requires multiset(a) == multiset(b) && OneVote(b) && who in ToMap(a)
    ensures who in ToMap(b) && ToMap(b)[who] == ToMap(a)[who]
  {
    ToMapFrom(a, who);
    var v :| v in a && v.voter == who && v.rate > 0 && ToMap(a)[who] == v.rate;
    assert v in multiset(a) && v in b;
    ToMapMeans(b, v);
  }

  lemma ToMapPermuted(a: Ballot, b: Ballot)
    requires multiset(a) == multiset(b) && OneVote(a) && OneVote(b)
    ensures ToMap(a) == ToMap(b)
  {
    forall who | who in ToMap(a)
      ensures who in ToMap(b) && ToMap(b)[who] == ToMap(a)[who]
    {
      ToMapWithin(a, b, who);
    }
    forall who | who in ToMap(b)
      ensures who in ToMap(a)
    {
      ToMapWithin(b, a, who);
    }
  }

  lemma CrossWithout(b: Ballot, k: nat, bases: map<Address, Dec>)
    requires k < |b|
    ensures ToCross(Without(b, k), bases) == Without(ToCross(b, bases), k)
  {
    var less, cross := Without(b, k), ToCross(b, bases);
    forall i | 0 <= i < |less|
      ensures ToCross(less, bases)[i] == Without(cross, k)[i]
    {
      assert less[i] == if i < k then b[i] else b[i + 1];
    }
  }

  lemma CrossContents(b: Ballot, k: nat, bases: map<Address, Dec>)
    requires k < |b|
    ensures multiset(ToCross(b, bases)) == multiset(ToCross(Without(b, k), bases)) + multiset{Cross(b[k], bases)}
  {
    CrossWithout(b, k, bases);
    ContentsWithout(ToCross(b, bases), k);
  }

  lemma {:induction false} CrossPermuted(a: Ballot, b: Ballot, bases: map<Address, Dec>)
    requires multiset(a) == multiset(b)
    ensures multiset(ToCross(a, bases)) == multiset(ToCross(b, bases))
    decreases |a|
  {
    if a == [] {
      assert |b| == |multiset(b)| == 0;
    } else {
      assert a[0] in multiset(b);
      var k :| 0 <= k < |b| && b[k] == a[0];
      ContentsWithout(a, 0);
      ContentsWithout(b, k);
      CrossPermuted(Without(a, 0), Without(b, k), bases);
      CrossContents(a, 0, bases);
      CrossContents(b, k, bases);
    }
  }

  /** Cross rates are never negative, so their median divides safely when it is not zero. */
  lemma CrossNonneg(b: Ballot, bases: map<Address, Dec>, r: Dec)
    requires (forall who | who in bases :: bases[who] > 0) && IsMedian(ToCross(b, bases), r)
    ensures r >= 0
  {
    var v :| v in ToCross(b, bases) && v.rate == r;
    var i :| 0 <= i < |b| && ToCross(b, bases)[i] == v;
    if b[i].voter in bases && b[i].rate > 0 { HalfEvenNonneg(bases[b[i].voter] * ONE, b[i].rate); }
  }

  lemma {:induction false} BasesPositive(b: Ballot)
    ensures forall who | who in ToMap(b) :: ToMap(b)[who] > 0
    decreases |b|
  {
    if b != [] { BasesPositive(b[..|b| - 1]); }
  }

  // --- Winners, vote by vote ------------------------------------------------------

  function Distance(a: Dec, b: Dec): Dec {
    if a <= b then b - a else a - b
  }

  /** The rate is near the median: within half the reward band, or within the deviation. */
  ghost predicate Near(b: Ballot, y: Dec, rules: Rules) {
    var m := Median(b);
    Distance(y, m) <= Mul(m, QuoInt(rules.band, 2)) || Distance(y, m) <= Deviation(b, m, rules)
  }

  lemma WinsNear(b: Ballot, w: Vote, rules: Rules)
    ensures Wins(w, Median(b), Spread(b, Median(b), rules)) <==> w.rate <= 0 || Near(b, w.rate, rules)
  {
  }

  lemma {:induction false} NoVote(b: Ballot, f: Vote -> int)
    requires forall w | w in b :: f(w) == 0
    ensures Total(b, f) == 0
  {
    if b != [] {
      assert b[0] in b;
      NoVote(b[1..], f);
    }
  }

  lemma {:induction false} OnlyVote(b: Ballot, v: Vote, f: Vote -> int)
    requires OneVote(b) && v in b && forall w | w in b && w.voter != v.voter :: f(w) == 0
    ensures Total(b, f) == f(v)
  {
    assert b[0] in b && forall w | w in b[1..] :: w in b && w.voter != b[0].voter;
    if b[0] == v {
      NoVote(b[1..], f);
    } else {
      OnlyVote(b[1..], v, f);
    }
  }

  /** Of a validator's one vote in a ballot: it wins if it abstains or is near the median, and
      then with the power it carries. */
  lemma VoteWins(b: Ballot, v: Vote, rules: Rules)
    requires OneVote(b) && v in b
    ensures var won := v.rate <= 0 || Near(b, v.rate, rules);
            && WinsIn(b, v.voter, rules) == (if won then 1 else 0)
            && WeightIn(b, v.voter, rules) == (if won then v.power else 0)
  {
    var m, spread := Median(b), Spread(b, Median(b), rules);
    OnlyVote(b, v, WinOf(v.voter, m, spread));
    OnlyVote(b, v, WeightOf(v.voter, m, spread));
    WinsNear(b, v, rules);
  }

  lemma NonVoterWins(b: Ballot, who: Address, rules: Rules)
    requires forall v | v in b :: v.voter != who
    ensures WinsIn(b, who, rules) == 0 && WeightIn(b, who, rules) == 0
  {
    var m, spread := Median(b), Spread(b, Median(b), rules);
    NoVote(b, WinOf(who, m, spread));
    NoVote(b, WeightOf(who, m, spread));
  }
}
