/**
 The keeper sends every coin through the module account: it takes the coins brought in,
 burns and mints there, and pays out from there.  Here the routes are compared with the
 net flows of the specification.
 */
module MakerRoutes {
  import opened Results
  import opened MapSum
  import opened Bank
  import opened MakerState
  import opened MakerSpec

  lemma Single(b: Bank, m: Move)
    ensures ApplyAll(b, [m]) == Apply(b, m)
  {
    assert [m][1..] == [];
    if Apply(b, m).Ok? { assert ApplyAll(Apply(b, m).value, []) == Apply(b, m); }
  }

  lemma Pair(b: Bank, m0: Move, m1: Move)
    ensures ApplyAll(b, [m0, m1]) == if Apply(b, m0).Ok? then Apply(Apply(b, m0).value, m1) else Apply(b, m0)
  {
    assert [m0, m1][1..] == [m1];
    if Apply(b, m0).Ok? { Single(Apply(b, m0).value, m1); }
  }

  /** A move succeeds exactly when the account it takes from holds the coin. */
  lemma ApplyWhen(b: Bank, m: Move)
    requires Conserved(b)
    ensures m.Mint? ==> Apply(b, m).Ok?
    ensures !m.Mint? ==> Apply(b, m).Ok? == (m.coin.amount <= b.Balance(m.from, m.coin.denom))
    ensures Apply(b, m).Err? ==> Apply(b, m) == Err(InsufficientFunds(m.from))
    ensures Apply(b, m).Ok? ==> Conserved(Apply(b, m).value)
  {
    if !m.Mint? { BalanceWithinSupply(b, m.from, m.coin.denom); }
    if Apply(b, m).Ok? { ApplyConserves(b, m); }
  }

  // --- Sending coins --------------------------------------------------------------

  lemma DebitOne(b: Bank, who: Address, coin: Coin)
    ensures DebitAll(b, who, [coin]) == Debit(b, who, coin)
    ensures CreditAll(b, who, [coin]) == Credit(b, who, coin)
  {
    assert [coin][1..] == [];
    if Debit(b, who, coin).Ok? { assert DebitAll(Debit(b, who, coin).value, who, []) == Debit(b, who, coin); }
    assert CreditAll(Credit(b, who, coin), who, []) == Credit(b, who, coin);
  }

  lemma SendOne(b: Bank, from: Address, to: Address, coin: Coin)
    ensures SendCoins(b, from, to, [coin]) == Apply(b, Transfer(from, to, coin))
  {
    DebitOne(b, from, coin);
    if Debit(b, from, coin).Ok? { DebitOne(Debit(b, from, coin).value, to, coin); }
  }

  /** Sending two coins at once is sending them one after the other. */
  lemma SendTwo(b: Bank, from: Address, to: Address, c0: Coin, c1: Coin)
    requires from != to
    ensures SendCoins(b, from, to, [c0, c1]) == ApplyAll(b, [Transfer(from, to, c0), Transfer(from, to, c1)])
  {
    Pair(b, Transfer(from, to, c0), Transfer(from, to, c1));
    assert [c0, c1][1..] == [c1];
    if Debit(b, from, c0).Ok? {
      var b1 := Debit(b, from, c0).value;
      DebitOne(b1, from, c1);
      DebitCredit(b1, from, c1, to, c0);
      if Debit(b1, from, c1).Ok? {
        DebitOne(Credit(Debit(b1, from, c1).value, to, c0), to, c1);
      }
    }
  }

  /** Debits and credits of different accounts commute. */
  lemma DebitCredit(b: Bank, from: Address, paid: Coin, to: Address, got: Coin)
    requires from != to
    ensures Debit(Credit(b, to, got), from, paid) ==
              if Debit(b, from, paid).Ok? then Ok(Credit(Debit(b, from, paid).value, to, got)) else Debit(b, from, paid)
  {
    var credited := Credit(b, to, got);
    assert credited.Balance(from, paid.denom) == b.Balance(from, paid.denom);
    if Debit(b, from, paid).Ok? {
      var x, y := Debit(credited, from, paid).value, Credit(Debit(b, from, paid).value, to, got);
      forall k: (Address, Denom)
        ensures At(x.balances, k) == At(y.balances, k)
      {
      }
      Extensional(x.balances, y.balances);
    }
  }

  /** Moving nothing changes nothing. */
  lemma Nothing(b: Bank, m: Move)
    requires m.coin.amount == 0
    ensures Apply(b, m) == Ok(b)
  {
    var b' := Apply(b, m).value;
    forall who, d
      ensures b'.Balance(who, d) == b.Balance(who, d)
    {
      ApplyExact(b, m, who, d);
    }
    forall d
      ensures b'.Supply(d) == b.Supply(d)
    {
      ApplyExact(b, m, "", d);
    }
    SameBank(b', b);
  }

  // --- Routes through the module account ------------------------------------------

  /** Coins taken in and burned on the spot are burned off the sender. */
  lemma Through(b: Bank, sender: Address, coin: Coin)
    requires Conserved(b) && sender != MAKER
    ensures var taken := Apply(b, Transfer(sender, MAKER, coin));
            Apply(b, Burn(sender, coin)) == if taken.Ok? then Apply(taken.value, Burn(MAKER, coin)) else taken
  {
    ApplyWhen(b, Burn(sender, coin));
    ApplyWhen(b, Transfer(sender, MAKER, coin));
    if Apply(b, Burn(sender, coin)).Ok? {
      var b1 := Apply(b, Transfer(sender, MAKER, coin)).value;
      ApplyExact(b, Transfer(sender, MAKER, coin), MAKER, coin.denom);
      ApplyWhen(b1, Burn(MAKER, coin));
      Same2(b, Transfer(sender, MAKER, coin), Burn(MAKER, coin), Burn(sender, coin));
    }
  }

  /** Two moves whose net effect is that of a third. */
  lemma Same2(b: Bank, m0: Move, m1: Move, m: Move)
    requires Apply(b, m0).Ok? && Apply(Apply(b, m0).value, m1).Ok? && Apply(b, m).Ok?
    requires forall who, d :: Delta(m0, who, d) + Delta(m1, who, d) == Delta(m, who, d)
    requires forall d :: SupplyDelta(m0, d) + SupplyDelta(m1, d) == SupplyDelta(m, d)
    ensures Apply(Apply(b, m0).value, m1) == Apply(b, m)
  {
    var b1 := Apply(b, m0).value;
    var x, y := Apply(b1, m1).value, Apply(b, m).value;
    forall who, d
      ensures x.Balance(who, d) == y.Balance(who, d) && x.Supply(d) == y.Supply(d)
    {
      ApplyExact(b, m0, who, d);
      ApplyExact(b1, m1, who, d);
      ApplyExact(b, m, who, d);
      assert Delta(m0, who, d) + Delta(m1, who, d) == Delta(m, who, d);
    }
    assert forall d :: x.Balance("", d) == y.Balance("", d) && x.Supply(d) == y.Supply(d);
    SameBank(x, y);
  }

  /** Three moves have the net effect of two others. */
  ghost predicate Nets(m0: Move, m1: Move, m2: Move, n0: Move, n1: Move) {
    && (forall who, d ::
          Delta(m0, who, d) + Delta(m1, who, d) + Delta(m2, who, d) == Delta(n0, who, d) + Delta(n1, who, d))
    && (forall d ::
          SupplyDelta(m0, d) + SupplyDelta(m1, d) + SupplyDelta(m2, d) == SupplyDelta(n0, d) + SupplyDelta(n1, d))
  }

  lemma Same3(b: Bank, b1: Bank, b2: Bank, b3: Bank, c1: Bank, c2: Bank, m0: Move, m1: Move, m2: Move, n0: Move,
              n1: Move)
    requires Apply(b, m0) == Ok(b1) && Apply(b1, m1) == Ok(b2) && Apply(b2, m2) == Ok(b3)
    requires Apply(b, n0) == Ok(c1) && Apply(c1, n1) == Ok(c2)
    requires Nets(m0, m1, m2, n0, n1)
    ensures b3 == c2
  {
    forall who, d
      ensures b3.Balance(who, d) == c2.Balance(who, d) && b3.Supply(d) == c2.Supply(d)
    {
      ApplyExact(b, m0, who, d);
      ApplyExact(b1, m1, who, d);
      ApplyExact(b2, m2, who, d);
      ApplyExact(b, n0, who, d);
      ApplyExact(c1, n1, who, d);
      assert Delta(m0, who, d) + Delta(m1, who, d) + Delta(m2, who, d) == Delta(n0, who, d) + Delta(n1, who, d);
    }
    assert forall d :: b3.Balance("", d) == c2.Balance("", d) && b3.Supply(d) == c2.Supply(d);
    SameBank(b3, c2);
  }

  /** A move that takes a coin its account holds. */
  lemma Affords(b: Bank, m: Move) returns (b': Bank)
    requires Conserved(b) && (m.Mint? || m.coin.amount <= b.Balance(m.from, m.coin.denom))
    ensures Apply(b, m) == Ok(b') && Conserved(b')
    ensures b'.Balance(MAKER, m.coin.denom) == b.Balance(MAKER, m.coin.denom) + Delta(m, MAKER, m.coin.denom)
  {
    ApplyWhen(b, m);
    b' := Apply(b, m).value;
    ApplyExact(b, m, MAKER, m.coin.denom);
  }

  lemma MintPayNets(r: Address, q: Address, denom: Denom, out: nat, fee: nat)
    requires r != MAKER && q != MAKER
    ensures Nets(Mint(MAKER, Coin(denom, out + fee)), Transfer(MAKER, r, Coin(denom, out)),
                 Transfer(MAKER, q, Coin(denom, fee)),
                 Mint(r, Coin(denom, out)), Mint(q, Coin(denom, fee)))
  {
  }

  /** Coins minted together and paid out to two accounts are minted to them. */
  lemma MintAndPay(b: Bank, r: Address, q: Address, denom: Denom, out: nat, fee: nat)
    returns (b1: Bank, b2: Bank, b3: Bank)
    requires Conserved(b) && r != MAKER && q != MAKER
    ensures b1 == MintCoin(b, MAKER, Coin(denom, out + fee)) && Conserved(b1)
    ensures Apply(b1, Transfer(MAKER, r, Coin(denom, out))) == Ok(b2) && Conserved(b2)
    ensures Apply(b2, Transfer(MAKER, q, Coin(denom, fee))) == Ok(b3)
    ensures ApplyAll(b, [Mint(r, Coin(denom, out)), Mint(q, Coin(denom, fee))]) == Ok(b3)
  {
    b1 := Affords(b, Mint(MAKER, Coin(denom, out + fee)));
    b2 := Affords(b1, Transfer(MAKER, r, Coin(denom, out)));
    b3 := Affords(b2, Transfer(MAKER, q, Coin(denom, fee)));
    var c1 := Affords(b, Mint(r, Coin(denom, out)));
    var c2 := Affords(c1, Mint(q, Coin(denom, fee)));
    MintPayNets(r, q, denom, out, fee);
    Same3(b, b1, b2, b3, c1, c2, Mint(MAKER, Coin(denom, out + fee)), Transfer(MAKER, r, Coin(denom, out)),
          Transfer(MAKER, q, Coin(denom, fee)), Mint(r, Coin(denom, out)), Mint(q, Coin(denom, fee)));
    Pair(b, Mint(r, Coin(denom, out)), Mint(q, Coin(denom, fee)));
  }

  lemma TakePassNets(s: Address, q: Address, denom: Denom, burned: nat, passed: nat)
    requires s != MAKER && q != MAKER
    ensures Nets(Transfer(s, MAKER, Coin(denom, burned + passed)), Burn(MAKER, Coin(denom, burned)),
                 Transfer(MAKER, q, Coin(denom, passed)),
                 Burn(s, Coin(denom, burned)), Transfer(s, q, Coin(denom, passed)))
  {
  }

  lemma TakenTogether(b: Bank, s: Address, q: Address, denom: Denom, burned: nat, passed: nat)
    requires Conserved(b)
    ensures var ins := ApplyAll(b, [Burn(s, Coin(denom, burned)), Transfer(s, q, Coin(denom, passed))]);
            && (ins.Ok? <==> burned + passed <= b.Balance(s, denom))
            && (ins.Err? ==> ins == Err(InsufficientFunds(s)))
  {
    var n0, n1 := Burn(s, Coin(denom, burned)), Transfer(s, q, Coin(denom, passed));
    Pair(b, n0, n1);
    ApplyWhen(b, n0);
    if Apply(b, n0).Ok? {
      ApplyExact(b, n0, s, denom);
      ApplyWhen(Apply(b, n0).value, n1);
    }
  }

  /** Coins taken in together, part burned and part passed on. */
  lemma TakeAndPass(b: Bank, s: Address, q: Address, denom: Denom, burned: nat, passed: nat)
    returns (b1: Bank, b2: Bank, b3: Bank)
    requires Conserved(b) && s != MAKER && q != MAKER && burned + passed <= b.Balance(s, denom)
    ensures Apply(b, Transfer(s, MAKER, Coin(denom, burned + passed))) == Ok(b1) && Conserved(b1)
    ensures Apply(b1, Burn(MAKER, Coin(denom, burned))) == Ok(b2) && Conserved(b2)
    ensures Apply(b2, Transfer(MAKER, q, Coin(denom, passed))) == Ok(b3)
    ensures ApplyAll(b, [Burn(s, Coin(denom, burned)), Transfer(s, q, Coin(denom, passed))]) == Ok(b3)
  {
    b1 := Affords(b, Transfer(s, MAKER, Coin(denom, burned + passed)));
    b2 := Affords(b1, Burn(MAKER, Coin(denom, burned)));
    b3 := Affords(b2, Transfer(MAKER, q, Coin(denom, passed)));
    TakenTogether(b, s, q, denom, burned, passed);
    var n0, n1 := Burn(s, Coin(denom, burned)), Transfer(s, q, Coin(denom, passed));
    Pair(b, n0, n1);
    TakePassNets(s, q, denom, burned, passed);
    Same3(b, b1, b2, b3, Apply(b, n0).value, ApplyAll(b, [n0, n1]).value,
          Transfer(s, MAKER, Coin(denom, burned + passed)), Burn(MAKER, Coin(denom, burned)),
          Transfer(MAKER, q, Coin(denom, passed)), n0, n1);
  }

  lemma BesideNets(r: Address, kept: Coin, minted: Coin)
    requires r != MAKER
    ensures Nets(Mint(MAKER, minted), Transfer(MAKER, r, kept), Transfer(MAKER, r, minted),
                 Transfer(MAKER, r, kept), Mint(r, minted))
  {
  }

  /** A coin minted and paid out beside one from custody. */
  lemma MintBeside(b: Bank, r: Address, kept: Coin, minted: Coin)
    requires Conserved(b) && r != MAKER && DistinctCoins(kept, minted)
    ensures SendCoins(MintCoin(b, MAKER, minted), MAKER, r, [kept, minted])
              == ApplyAll(b, [Transfer(MAKER, r, kept), Mint(r, minted)])
  {
    var m0, m1, m2, n1 := Mint(MAKER, minted), Transfer(MAKER, r, kept), Transfer(MAKER, r, minted), Mint(r, minted);
    var b1 := Affords(b, m0);
    SendTwo(b1, MAKER, r, kept, minted);
    Pair(b1, m1, m2);
    Pair(b, m1, n1);
    ApplyWhen(b, m1);
    ApplyWhen(b1, m1);
    ApplyExact(b, m0, MAKER, kept.denom);
    if Apply(b, m1).Ok? {
      var b2 := Affords(b1, m1);
      ApplyExact(b1, m1, MAKER, minted.denom);
      var b3 := Affords(b2, m2);
      var c1 := Affords(b, m1);
      var c2 := Affords(c1, n1);
      BesideNets(r, kept, minted);
      Same3(b, b1, b2, b3, c1, c2, m0, m1, m2, m1, n1);
    }
  }

  /** Two coins taken in, the second burned on the spot. */
  lemma TakeAndBurn(b: Bank, s: Address, kept: Coin, burned: Coin)
    requires Conserved(b) && s != MAKER
    ensures var taken, ins := SendCoins(b, s, MAKER, [kept, burned]),
              ApplyAll(b, [Transfer(s, MAKER, kept), Burn(s, burned)]);
            ins == if taken.Ok? then BurnCoin(taken.value, MAKER, burned) else taken
  {
    SendTwo(b, s, MAKER, kept, burned);
    Pair(b, Transfer(s, MAKER, kept), Transfer(s, MAKER, burned));
    Pair(b, Transfer(s, MAKER, kept), Burn(s, burned));
    ApplyWhen(b, Transfer(s, MAKER, kept));
    if Apply(b, Transfer(s, MAKER, kept)).Ok? {
      Through(Apply(b, Transfer(s, MAKER, kept)).value, s, burned);
    }
  }
}
