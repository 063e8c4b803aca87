/**
 Ballots of exchange-rate votes: their power, sorting, weighted median, cross rates and
 winners.  Whatever the keeper reads off a ballot depends only on which votes are in it.
 */
module OracleBallot {
  import opened FixedPoint
  import opened Results

  datatype Vote = Vote(rate: Dec, voter: Address, power: nat)

  type Ballot = seq<Vote>

  predicate Sorted(b: Ballot) {
    forall i, j | 0 <= i < j < |b| :: b[i].rate <= b[j].rate
  }

  // --- Sums over a ballot ---------------------------------------------------------

  function Total(b: Ballot, f: Vote -> int): int {
    if b == [] then 0 else f(b[0]) + Total(b[1..], f)
  }

  lemma {:induction false} TotalConcat(a: Ballot, b: Ballot, f: Vote -> int)
    ensures Total(a + b, f) == Total(a, f) + Total(b, f)
  {
    if a == [] {
      assert a + b == b;
    } else {
      assert (a + b)[1..] == a[1..] + b;
      TotalConcat(a[1..], b, f);
    }
  }

  function Without(b: Ballot, k: nat): Ballot
    requires k < |b|
  {
    b[..k] + b[k + 1..]
  }

  lemma TotalWithout(b: Ballot, k: nat, f: Vote -> int)
    requires k < |b|
    ensures Total(b, f) == f(b[k]) + Total(Without(b, k), f)
  {
    var tail := b[k..];
    assert b == b[..k] + tail;
    TotalConcat(b[..k], tail, f);
    assert Total(tail, f) == f(b[k]) + Total(b[k + 1..], f) by {
      assert tail[0] == b[k] && tail[1..] == b[k + 1..];
    }
    TotalConcat(b[..k], b[k + 1..], f);
  }

  lemma ContentsWithout(b: Ballot, k: nat)
    requires k < |b|
    ensures multiset(Without(b, k)) == multiset(b) - multiset{b[k]}
    ensures multiset(b) == multiset(Without(b, k)) + multiset{b[k]}
  {
    assert b == b[..k] + ([b[k]] + b[k + 1..]);
  }

  /** Sums do not depend on the order of the votes. */
  lemma {:induction false} TotalPermuted(a: Ballot, b: Ballot, f: Vote -> int)
    requires multiset(a) == multiset(b)
    ensures Total(a, f) == Total(b, f)
    decreases |a|
  {
    if a == [] {
      assert |b| == |multiset(b)| == 0;
    } else {
      assert a[0] in multiset(b);
      var k :| 0 <= k < |b| && b[k] == a[0];
      ContentsWithout(a, 0);
      ContentsWithout(b, k);
      assert Without(a, 0) == a[1..];
      TotalPermuted(a[1..], Without(b, k), f);
      TotalWithout(b, k, f);
    }
  }

  function PowerOf(): Vote -> int {
    (v: Vote) => v.power
  }

  function Power(b: Ballot): int {
    Total(b, PowerOf())
  }

  // --- Sorting --------------------------------------------------------------------

  function Insert(v: Vote, b: Ballot): Ballot {
    if b == [] || v.rate <= b[0].rate then [v] + b else [b[0]] + Insert(v, b[1..])
  }

  lemma {:induction false} InsertContents(v: Vote, b: Ballot)
    ensures multiset(Insert(v, b)) == multiset(b) + multiset{v}
  {
    if b != [] {
      assert b == [b[0]] + b[1..];
      InsertContents(v, b[1..]);
    }
  }

  lemma InsertAbove(v: Vote, b: Ballot, low: Dec)
    requires low <= v.rate && forall w | w in b :: low <= w.rate
    ensures forall i | 0 <= i < |Insert(v, b)| :: low <= Insert(v, b)[i].rate
  {
    var all := Insert(v, b);
    InsertContents(v, b);
    forall i | 0 <= i < |all|
      ensures low <= all[i].rate
    {
      assert all[i] in multiset(all);
      assert all[i] == v || all[i] in b;
    }
  }

  lemma {:induction false} InsertSorted(v: Vote, b: Ballot)
    requires Sorted(b)
    ensures Sorted(Insert(v, b))
  {
    if b != [] && v.rate > b[0].rate {
      InsertSorted(v, b[1..]);
      assert forall w | w in b[1..] :: b[0].rate <= w.rate;
      InsertAbove(v, b[1..], b[0].rate);
    }
  }

  /** A sorted arrangement of the votes. */
  function Arranged(b: Ballot): Ballot {
    if b == [] then [] else Insert(b[0], Arranged(b[1..]))
  }

  lemma {:induction false} ArrangedSorts(b: Ballot)
    ensures Sorted(Arranged(b)) && multiset(Arranged(b)) == multiset(b)
  {
    if b != [] {
      assert b == [b[0]] + b[1..];
      ArrangedSorts(b[1..]);
      InsertSorted(b[0], Arranged(b[1..]));
      InsertContents(b[0], Arranged(b[1..]));
    }
  }

  // --- The weighted median --------------------------------------------------------

  /** The power behind rates up to a given one. */
  function PowerUpToOf(r: Dec): Vote -> int {
    (v: Vote) => if v.rate <= r then v.power else 0
  }

  function PowerUpTo(b: Ballot, r: Dec): int {
    Total(b, PowerUpToOf(r))
  }

  /** The least rate voted for that half the power does not exceed. */
  predicate IsMedian(b: Ballot, r: Dec) {
    && (exists v :: v in b && v.rate == r)
    && Power(b) / 2 <= PowerUpTo(b, r)
    && (forall v | v in b && v.rate < r :: PowerUpTo(b, v.rate) < Power(b) / 2)
  }

  lemma MedianUnique(b: Ballot, r: Dec, q: Dec)
    requires IsMedian(b, r) && IsMedian(b, q)
    ensures r == q
  {
    var v :| v in b && v.rate == r;
    var w :| w in b && w.rate == q;
  }

  /** Which rate is the median does not depend on the order of the votes. */
  lemma MedianPermuted(a: Ballot, b: Ballot, r: Dec)
    requires multiset(a) == multiset(b) && IsMedian(a, r)
    ensures IsMedian(b, r)
  {
    TotalPermuted(a, b, PowerOf());
    TotalPermuted(a, b, PowerUpToOf(r));
    var v :| v in a && v.rate == r;
    assert v in multiset(a) && v in b;
    forall w | w in b && w.rate < r
      ensures PowerUpTo(b, w.rate) < Power(b) / 2
    {
      assert w in multiset(b) && w in a;
      TotalPermuted(a, b, PowerUpToOf(w.rate));
    }
  }

  lemma {:induction false} PowerNonneg(b: Ballot, r: Dec)
    ensures 0 <= PowerUpTo(b, r) <= Power(b)
  {
    if b != [] { PowerNonneg(b[1..], r); }
  }

  /** In a sorted ballot, the votes up to an index carry only lower rates. */
  lemma PrefixPower(b: Ballot, k: nat, r: Dec)
    requires Sorted(b) && k < |b| && r == b[k].rate
    ensures Power(b[..k + 1]) <= PowerUpTo(b, r)
    ensures forall v | v in b && v.rate < r :: PowerUpTo(b, v.rate) <= Power(b[..k])
  {
    SplitPower(b, k + 1, r);
    AllUpTo(b[..k + 1], r);
    PowerNonneg(b[k + 1..], r);
    forall v | v in b && v.rate < r
      ensures PowerUpTo(b, v.rate) <= Power(b[..k])
    {
      SplitPower(b, k, v.rate);
      NoneUpTo(b[k..], v.rate);
      PowerNonneg(b[..k], v.rate);
    }
  }

  lemma SplitPower(b: Ballot, k: nat, r: Dec)
    requires k <= |b|
    ensures PowerUpTo(b, r) == PowerUpTo(b[..k], r) + PowerUpTo(b[k..], r)
  {
    assert b == b[..k] + b[k..];
    TotalConcat(b[..k], b[k..], PowerUpToOf(r));
  }

  lemma {:induction false} AllUpTo(b: Ballot, r: Dec)
    requires forall v | v in b :: v.rate <= r
    ensures PowerUpTo(b, r) == Power(b)
  {
    if b != [] {
      assert b[0] in b && forall v | v in b[1..] :: v in b;
      AllUpTo(b[1..], r);
    }
  }

  lemma {:induction false} NoneUpTo(b: Ballot, r: Dec)
    requires forall v | v in b :: v.rate > r
    ensures PowerUpTo(b, r) == 0
  {
    if b != [] {
      assert b[0] in b && forall v | v in b[1..] :: v in b;
      NoneUpTo(b[1..], r);
    }
  }

  /** Votes at or below zero are abstentions, and carry no power. */
  predicate AbstentionsPowerless(b: Ballot) {
    forall v | v in b && v.rate <= 0 :: v.power == 0
  }

  lemma {:induction false} NoPowerBelow(b: Ballot, r: Dec)
    requires AbstentionsPowerless(b) && r <= 0
    ensures PowerUpTo(b, r) == 0
  {
    if b != [] {
      assert b[0] in b && forall v | v in b[1..] :: v in b;
      NoPowerBelow(b[1..], r);
    }
  }

  /** A median is positive exactly when the power behind it is at least two or nobody
      abstained: half of one is zero, and an abstention reaches it. */
  lemma MedianPositive(b: Ballot, r: Dec)
    requires AbstentionsPowerless(b) && Power(b) > 0 && IsMedian(b, r)
    ensures r > 0 <==> Power(b) >= 2 || forall v | v in b :: v.rate > 0
  {
    if r <= 0 {
      NoPowerBelow(b, r);
      var v :| v in b && v.rate == r;
      assert !(v.rate > 0);
    } else if Power(b) == 1 {
      forall v | v in b
        ensures v.rate > 0
      {
        PowerNonneg(b, v.rate);
      }
    }
  }

  /** Such a ballot: one validator of power one votes, another abstains, and zero wins. */
  lemma AbstentionCanWin()
    ensures var b := [Vote(0, "abstainer", 0), Vote(5, "voter", 1)];
            Sorted(b) && AbstentionsPowerless(b) && Power(b) == 1 && IsMedian(b, 0)
  {
    var a, v := Vote(0, "abstainer", 0), Vote(5, "voter", 1);
    assert [a, v][1..] == [v] && [v][1..] == [] && a in [a, v];
  }

  /** Walk a sorted ballot until half the power is reached; an empty ballot gives zero. */
  method WeightedMedian(b: Ballot) returns (r: Dec)
    requires Sorted(b)
    ensures b == [] ==> r == 0
    ensures b != [] ==> IsMedian(b, r)
  {
    var total := PowerOfBallot(b);
    PowerNonneg(b, 0);
    var pivot, i := 0, 0;
    while i < |b|
      invariant 0 <= i <= |b|
      invariant pivot == Power(b[..i])
      invariant i > 0 ==> pivot < total / 2
    {
      assert b[..i + 1] == b[..i] + [b[i]];
      TotalConcat(b[..i], [b[i]], PowerOf());
      assert [b[i]][1..] == [];
      pivot := pivot + b[i].power;
      if pivot >= total / 2 {
        PrefixPower(b, i, b[i].rate);
        LowerRatesFall(b, i, total);
        assert b[i] in b;
        return b[i].rate;
      }
      i := i + 1;
    }
    assert b[..i] == b;
    r := 0;
  }

  lemma LowerRatesFall(b: Ballot, i: nat, total: int)
    requires Sorted(b) && i < |b| && total == Power(b) && (i > 0 ==> Power(b[..i]) < total / 2)
    ensures forall v | v in b && v.rate < b[i].rate :: PowerUpTo(b, v.rate) < total / 2
  {
    PrefixPower(b, i, b[i].rate);
    assert i == 0 ==> forall v | v in b :: v.rate >= b[0].rate;
  }

  /** From where the walk stands, some vote ahead is the median. */
  lemma {:induction false} MedianAhead(b: Ballot, i: nat) returns (r: Dec)
    requires Sorted(b) && i < |b| && (i > 0 ==> Power(b[..i]) < Power(b) / 2)
    ensures IsMedian(b, r)
    decreases |b| - i
  {
    if Power(b[..i + 1]) >= Power(b) / 2 {
      r := b[i].rate;
      PrefixPower(b, i, r);
      LowerRatesFall(b, i, Power(b));
      assert b[i] in b;
    } else {
      PowerNonneg(b, 0);
      assert b[..|b|] == b;
      r := MedianAhead(b, i + 1);
    }
  }

  method PowerOfBallot(b: Ballot) returns (total: int)
    ensures total == Power(b)
  {
    total := 0;
    var i := 0;
    while i < |b|
      invariant 0 <= i <= |b|
      invariant total + Power(b[i..]) == Power(b)
    {
      assert b[i..][1..] == b[i + 1..];
      total := total + b[i].power;
      i := i + 1;
    }
  }
}
