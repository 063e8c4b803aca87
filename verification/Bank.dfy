/**
 Account balances and coin supplies, as the bank keeper stores them, and the moves that
 change them.
 */
module Bank {
  import opened Results
  import opened MapSum

  datatype Coin = Coin(denom: Denom, amount: nat)

  datatype Bank = Bank(balances: Tally<(Address, Denom)>, supply: Tally<Denom>) {

    function Balance(who: Address, denom: Denom): nat {
      At(balances, (who, denom))
    }

    function Supply(denom: Denom): nat {
      At(supply, denom)
    }
  }

  function Debit(b: Bank, who: Address, coin: Coin): Result<Bank> {
    var have := b.Balance(who, coin.denom);
    if have < coin.amount then Err(InsufficientFunds(who))
    else Ok(b.(balances := Put(b.balances, (who, coin.denom), have - coin.amount)))
  }

  function Credit(b: Bank, who: Address, coin: Coin): Bank {
    b.(balances := Put(b.balances, (who, coin.denom), b.Balance(who, coin.denom) + coin.amount))
  }

  function DebitAll(b: Bank, who: Address, coins: seq<Coin>): Result<Bank>
    decreases coins
  {
    if coins == [] then Ok(b) else
      var b1 :- Debit(b, who, coins[0]);
      DebitAll(b1, who, coins[1..])
  }

  function CreditAll(b: Bank, who: Address, coins: seq<Coin>): Bank
    decreases coins
  {
    if coins == [] then b else CreditAll(Credit(b, who, coins[0]), who, coins[1..])
  }

  /** All coins leave the sender before any reaches the receiver. */
  function SendCoins(b: Bank, from: Address, to: Address, coins: seq<Coin>): Result<Bank> {
    var b1 :- DebitAll(b, from, coins);
    Ok(CreditAll(b1, to, coins))
  }

  function MintCoin(b: Bank, to: Address, coin: Coin): Bank {
    var b1 := Credit(b, to, coin);
    b1.(supply := Put(b1.supply, coin.denom, b.Supply(coin.denom) + coin.amount))
  }

  function BurnCoin(b: Bank, from: Address, coin: Coin): Result<Bank> {
    var b1 :- Debit(b, from, coin);
    :- Need(coin.amount <= b.Supply(coin.denom), Panic);
    Ok(b1.(supply := Put(b1.supply, coin.denom, b.Supply(coin.denom) - coin.amount)))
  }

  // --- Net flows ------------------------------------------------------------------

  /** One arrow of a flow diagram: who ends up with what, whatever the route taken. */
  datatype Move =
    | Transfer(from: Address, to: Address, coin: Coin)
    | Mint(to: Address, coin: Coin)
    | Burn(from: Address, coin: Coin)

  function Apply(b: Bank, m: Move): Result<Bank> {
    match m
    case Transfer(from, to, coin) =>
      var b1 :- Debit(b, from, coin);
      Ok(Credit(b1, to, coin))
    case Mint(to, coin) => Ok(MintCoin(b, to, coin))
    case Burn(from, coin) => BurnCoin(b, from, coin)
  }

  function ApplyAll(b: Bank, moves: seq<Move>): Result<Bank>
    decreases moves
  {
    if moves == [] then Ok(b) else
      var b1 :- Apply(b, moves[0]);
      ApplyAll(b1, moves[1..])
  }

  /** What a move adds to one account's balance of one denomination. */
  function Delta(m: Move, who: Address, denom: Denom): int {
    match m
    case Transfer(from, to, coin) =>
      if coin.denom != denom then 0
      else (if to == who then coin.amount else 0) - (if from == who then coin.amount else 0)
    case Mint(to, coin) => if coin.denom == denom && to == who then coin.amount else 0
    case Burn(from, coin) => if coin.denom == denom && from == who then 0 - coin.amount else 0
  }

  function DeltaAll(moves: seq<Move>, who: Address, denom: Denom): int {
    if moves == [] then 0 else Delta(moves[0], who, denom) + DeltaAll(moves[1..], who, denom)
  }

  /** What a move adds to the supply of one denomination. */
  function SupplyDelta(m: Move, denom: Denom): int {
    match m
    case Transfer(_, _, _) => 0
    case Mint(_, coin) => if coin.denom == denom then coin.amount else 0
    case Burn(_, coin) => if coin.denom == denom then 0 - coin.amount else 0
  }

  function SupplyDeltaAll(moves: seq<Move>, denom: Denom): int {
    if moves == [] then 0 else SupplyDelta(moves[0], denom) + SupplyDeltaAll(moves[1..], denom)
  }

  lemma ApplyExact(b: Bank, m: Move, who: Address, denom: Denom)
    requires Apply(b, m).Ok?
    ensures Apply(b, m).value.Balance(who, denom) == b.Balance(who, denom) + Delta(m, who, denom)
    ensures Apply(b, m).value.Supply(denom) == b.Supply(denom) + SupplyDelta(m, denom)
  {
    if m.Transfer? {
      TransferExact(b, m, who, denom);
    }
  }

  lemma TransferExact(b: Bank, m: Move, who: Address, denom: Denom)
    requires m.Transfer? && Apply(b, m).Ok?
    ensures Apply(b, m).value.Balance(who, denom) == b.Balance(who, denom) + Delta(m, who, denom)
    ensures Apply(b, m).value.Supply(denom) == b.Supply(denom)
  {
    var b1 := Debit(b, m.from, m.coin).value;
    assert Apply(b, m).value == Credit(b1, m.to, m.coin);
  }

  /** A successful flow changes each balance and supply by exactly the sum of its arrows. */
  lemma {:induction false} ApplyAllExact(b: Bank, moves: seq<Move>, who: Address, denom: Denom)
    requires ApplyAll(b, moves).Ok?
    ensures ApplyAll(b, moves).value.Balance(who, denom) == b.Balance(who, denom) + DeltaAll(moves, who, denom)
    ensures ApplyAll(b, moves).value.Supply(denom) == b.Supply(denom) + SupplyDeltaAll(moves, denom)
    decreases moves
  {
    if moves != [] {
      ApplyExact(b, moves[0], who, denom);
      ApplyAllExact(Apply(b, moves[0]).value, moves[1..], who, denom);
    }
  }

  /** Banks that agree on every balance and supply are equal. */
  lemma SameBank(a: Bank, b: Bank)
    requires forall who, denom :: a.Balance(who, denom) == b.Balance(who, denom)
    requires forall denom :: a.Supply(denom) == b.Supply(denom)
    ensures a == b
  {
    forall k: (Address, Denom)
      ensures At(a.balances, k) == At(b.balances, k)
    {
      assert k == (k.0, k.1);
      assert a.Balance(k.0, k.1) == b.Balance(k.0, k.1);
    }
    Extensional(a.balances, b.balances);
    forall d: Denom
      ensures At(a.supply, d) == At(b.supply, d)
    {
      assert a.Supply(d) == b.Supply(d);
    }
    Extensional(a.supply, b.supply);
  }

  // --- Conservation ---------------------------------------------------------------

  /** The balances of one denomination, by account. */
  ghost function Holdings(b: Bank, denom: Denom): map<(Address, Denom), int> {
    map k | k in b.balances && k.1 == denom :: b.balances[k]
  }

  /** Every coin in existence is on some account. */
  ghost predicate Conserved(b: Bank) {
    forall denom :: Sum(Holdings(b, denom)) == b.Supply(denom)
  }

  lemma HoldingsPut(b: Bank, who: Address, d: Denom, v: nat, denom: Denom)
    ensures var b' := b.(balances := Put(b.balances, (who, d), v));
            Sum(Holdings(b', denom)) == Sum(Holdings(b, denom)) + if d == denom then v - b.Balance(who, d) else 0
  {
    var k := (who, d);
    var h := Holdings(b, denom);
    HoldingsChange(b, who, d, v, denom);
    if d == denom && v == 0 {
      if k in h { SumRemove(h, k); } else { assert h - {k} == h; }
    } else if d == denom {
      SumPut(h, k, v);
    }
  }

  lemma HoldingsChange(b: Bank, who: Address, d: Denom, v: nat, denom: Denom)
    ensures var h, h' := Holdings(b, denom), Holdings(b.(balances := Put(b.balances, (who, d), v)), denom);
            h' == if d != denom then h else if v == 0 then h - {(who, d)} else h[(who, d) := v]
  {
  }

  lemma DebitHoldings(b: Bank, who: Address, coin: Coin, denom: Denom)
    requires Debit(b, who, coin).Ok?
    ensures Sum(Holdings(Debit(b, who, coin).value, denom)) ==
            Sum(Holdings(b, denom)) - if coin.denom == denom then coin.amount else 0
  {
    var v: nat := b.Balance(who, coin.denom) - coin.amount;
    HoldingsPut(b, who, coin.denom, v, denom);
    assert Debit(b, who, coin).value == b.(balances := Put(b.balances, (who, coin.denom), v));
  }

  lemma CreditHoldings(b: Bank, who: Address, coin: Coin, denom: Denom)
    ensures Sum(Holdings(Credit(b, who, coin), denom)) ==
            Sum(Holdings(b, denom)) + if coin.denom == denom then coin.amount else 0
  {
    var v: nat := b.Balance(who, coin.denom) + coin.amount;
    HoldingsPut(b, who, coin.denom, v, denom);
    assert Credit(b, who, coin) == b.(balances := Put(b.balances, (who, coin.denom), v));
  }

  lemma ApplyHoldings(b: Bank, m: Move, denom: Denom)
    requires Apply(b, m).Ok?
    ensures Sum(Holdings(Apply(b, m).value, denom)) == Sum(Holdings(b, denom)) + SupplyDelta(m, denom)
  {
    var b' := Apply(b, m).value;
    match m
    case Transfer(from, to, coin) =>
      DebitHoldings(b, from, coin, denom);
      CreditHoldings(Debit(b, from, coin).value, to, coin, denom);
    case Mint(to, coin) =>
      CreditHoldings(b, to, coin, denom);
      assert Holdings(b', denom) == Holdings(Credit(b, to, coin), denom);
    case Burn(from, coin) =>
      DebitHoldings(b, from, coin, denom);
      assert Holdings(b', denom) == Holdings(Debit(b, from, coin).value, denom);
  }

  lemma ApplyConserves(b: Bank, m: Move)
    requires Conserved(b) && Apply(b, m).Ok?
    ensures Conserved(Apply(b, m).value)
  {
    var b' := Apply(b, m).value;
    forall denom
      ensures Sum(Holdings(b', denom)) == b'.Supply(denom)
    {
      ApplyHoldings(b, m, denom);
      ApplyExact(b, m, "", denom);
    }
  }

  /** Every flow keeps the supply equal to the sum of all balances. */
  lemma {:induction false} ApplyAllConserves(b: Bank, moves: seq<Move>)
    requires Conserved(b) && ApplyAll(b, moves).Ok?
    ensures Conserved(ApplyAll(b, moves).value)
    decreases moves
  {
    if moves != [] {
      ApplyConserves(b, moves[0]);
      ApplyAllConserves(Apply(b, moves[0]).value, moves[1..]);
    }
  }

  /** No account holds more of a coin than exists, so a funded burn never underflows. */
  lemma BalanceWithinSupply(b: Bank, who: Address, denom: Denom)
    requires Conserved(b)
    ensures b.Balance(who, denom) <= b.Supply(denom)
  {
    var h := Holdings(b, denom);
    SumBound(h);
    if (who, denom) in b.balances {
      assert (who, denom) in h;
    }
  }
}
