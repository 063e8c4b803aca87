/**
 The contracts never stand in the way: an operation on native coins succeeds exactly when
 the bank's own half of it does.
 */
module DualSuccess {
  import opened Results
  import opened Bank
  import opened Denoms
  import opened PairRegistry
  import opened DualLedger
  import opened DualMirror

  /** Calls that take coins succeed when the account holds them all. */
  lemma {:induction false} CallsFunded(b: Bank, from: Address, to: Option<Address>, coins: seq<Coin>)
    requires forall c :: CoinSum(coins, c) <= b.Balance(from, c)
    requires to.None? ==> forall c :: CoinSum(coins, c) <= b.Supply(c)
    ensures ApplyAll(b, Calls(Some(from), to, coins)).Ok?
    decreases coins
  {
    if coins != [] {
      var m, rest := Call(Some(from), to, coins[0]), coins[1..];
      assert Calls(Some(from), to, coins)[0] == m && Calls(Some(from), to, coins)[1..] == Calls(Some(from), to, rest);
      assert CoinSum(coins, coins[0].denom) >= coins[0].amount;
      var b' := Apply(b, m).value;
      forall c
        ensures CoinSum(rest, c) <= b'.Balance(from, c)
        ensures to.None? ==> CoinSum(rest, c) <= b'.Supply(c)
      {
        ApplyExact(b, m, from, c);
        assert CoinSum(coins, c) <= b.Balance(from, c);
      }
      CallsFunded(b', from, to, rest);
    }
  }

  /** Coins that are all registered can be paid by contract calls. */
  lemma {:induction false} PaymentsFound(r: Registry, native: seq<Coin>)
    requires RegistryOk(r) && Plain(native)
    requires forall c | c in native && !IsGas(c.denom) :: c.denom in r.byDenom
    ensures Payments(r, native).Ok?
    decreases native
  {
    if native != [] {
      assert native[0] in native && forall x | x in native[1..] :: x in native;
      PaymentsFound(r, native[1..]);
    }
  }

  lemma {:induction false} CoinWithinSum(coins: seq<Coin>, c: Coin)
    requires c in coins
    ensures c.amount <= CoinSum(coins, c.denom)
  {
    if c != coins[0] {
      assert c in coins[1..];
      CoinWithinSum(coins[1..], c);
    }
  }

  /** An account that can pay native coins at the bank can pay them in the contracts. */
  lemma LegFunded(l: Ledger, from: Address, to: Option<Address>, native: seq<Coin>)
    requires RegistryOk(l.registry) && Plain(native)
    requires forall c | c in native :: c.amount > 0 && !IsErc20Denom(c.denom)
    requires forall d | Mirrored(d) :: CoinSum(native, d) <= Shadow(l.registry, l.evm, from, d)
    requires to.None? ==> forall d | Mirrored(d) :: CoinSum(native, d) <= ShadowSupply(l.registry, l.evm, d)
    ensures Erc20Send(l.registry, l.evm, Some(from), to, native, []).Ok?
  {
    var r := l.registry;
    forall c | c in native && !IsGas(c.denom)
      ensures c.denom in r.byDenom
    {
      CoinWithinSum(native, c);
      assert Mirrored(c.denom);
    }
    PaymentsFound(r, native);
    var payments := Payments(r, native).value;
    assert payments + TokenPayments([]) == payments;
    forall c
      ensures CoinSum(payments, c) <= l.evm.Balance(from, c)
      ensures to.None? ==> CoinSum(payments, c) <= l.evm.Supply(c)
    {
      PaymentsSum(r, native, c);
      if CoinSum(payments, c) > 0 { PaidIsMirrored(r, native, c); }
    }
    CallsFunded(l.evm, from, to, payments);
  }

  lemma PaidIsMirrored(r: Registry, native: seq<Coin>, c: Contract)
    requires RegistryOk(r) && Plain(native) && c in r.byErc20 && !IsGas(r.byErc20[c].1)
    requires CoinSum(native, r.byErc20[c].1) > 0 && forall x | x in native :: !IsErc20Denom(x.denom)
    ensures Mirrored(r.byErc20[c].1) && r.byErc20[c].1 in r.byDenom && r.byDenom[r.byErc20[c].1].0 == c
  {
    SumHasCoin(native, r.byErc20[c].1);
  }

  lemma ShadowsMatch(l: Ledger, who: Address, d: Denom)
    requires Mirror(l) && Mirrored(d)
    ensures Shadow(l.registry, l.evm, who, d) == l.bank.Balance(who, d)
    ensures ShadowSupply(l.registry, l.evm, d) == l.bank.Supply(d)
  {
    MirrorGap(l, who, d);
  }

  /** Sending native coins succeeds exactly when the bank's own transfer does. */
  lemma SendWhen(l: Ledger, from: Address, to: Address, coins: seq<Coin>)
    requires RegistryOk(l.registry) && Mirror(l) && PlainNames(coins) && Erc20Tokens(coins) == []
    ensures SendStep(l, from, to, coins).Ok? <==> SendCoins(l.bank, from, to, NativeCoins(coins)).Ok?
  {
    var native := NativeCoins(coins);
    if DebitAll(l.bank, from, native).Ok? {
      NativeProper(coins);
      forall d | Mirrored(d)
        ensures CoinSum(native, d) <= Shadow(l.registry, l.evm, from, d)
      {
        ShadowsMatch(l, from, d);
        DebitAllExact(l.bank, from, native, from, d);
      }
      LegFunded(l, from, Some(to), native);
    }
  }

  /** Burning succeeds exactly when the bank's own burn does. */
  lemma BurnWhen(l: Ledger, from: Address, coins: seq<Coin>)
    requires RegistryOk(l.registry) && Mirror(l) && PlainNames(coins) && Erc20Tokens(coins) == []
    ensures BurnStep(l, from, coins).Ok? <==> ApplyAll(l.bank, Calls(Some(from), None, NativeCoins(coins))).Ok?
  {
    var native := NativeCoins(coins);
    if ApplyAll(l.bank, Calls(Some(from), None, native)).Ok? {
      NativeProper(coins);
      forall d | Mirrored(d)
        ensures CoinSum(native, d) <= Shadow(l.registry, l.evm, from, d)
        ensures CoinSum(native, d) <= ShadowSupply(l.registry, l.evm, d)
      {
        ShadowsMatch(l, from, d);
        CallsExact(l.bank, Some(from), None, native, from, d);
      }
      LegFunded(l, from, None, native);
    }
  }

  // --- Minting --------------------------------------------------------------------

  /** Mint calls never fail. */
  lemma {:induction false} MintsSucceed(b: Bank, to: Address, coins: seq<Coin>)
    ensures ApplyAll(b, Calls(None, Some(to), coins)).Ok?
    decreases coins
  {
    if coins != [] {
      var m := Call(None, Some(to), coins[0]);
      assert Calls(None, Some(to), coins)[1..] == Calls(None, Some(to), coins[1..]);
      MintsSucceed(Apply(b, m).value, to, coins[1..]);
    }
  }

  /** The coin is registered, or could be. */
  predicate CanRegister(l: Ledger, d: Denom, deploys: map<Denom, Contract>) {
    IsGas(d) || d in l.registry.byDenom || (d in l.metadata && d in deploys)
  }

  /** Registering the missing coins succeeds exactly when each has metadata and a
      deployment, and leaves none missing. */
  lemma {:induction false} RegisterMissingWhen(l: Ledger, native: seq<Coin>, deploys: map<Denom, Contract>)
    requires forall c | c in native :: !IsErc20Denom(c.denom) && l.bank.Supply(c.denom) > 0
    ensures RegisterMissing(l, native, deploys).Ok? <==> forall c | c in native :: CanRegister(l, c.denom, deploys)
    ensures RegisterMissing(l, native, deploys).Ok? ==>
              var r := RegisterMissing(l, native, deploys).value.registry;
              && (forall d | d in l.registry.byDenom :: d in r.byDenom)
              && (forall c | c in native && !IsGas(c.denom) :: c.denom in r.byDenom)
    decreases native
  {
    if native != [] {
      var d, rest := native[0].denom, native[1..];
      assert native[0] in native && forall c | c in native :: c == native[0] || c in rest;
      assert forall c | c in rest :: c in native;
      if IsGas(d) || d in l.registry.byDenom {
        RegisterMissingWhen(l, rest, deploys);
      } else if RegisterCoin(l, d, deploys).Ok? {
        var l1 := RegisterCoin(l, d, deploys).value;
        assert forall e :: CanRegister(l1, e, deploys) <==> CanRegister(l, e, deploys);
        RegisterMissingWhen(l1, rest, deploys);
      } else {
        assert !CanRegister(l, d, deploys);
      }
    }
  }

  lemma MintedSupply(b: Bank, to: Address, coins: seq<Coin>)
    ensures ApplyAll(b, Calls(None, Some(to), NativeCoins(coins))).Ok?
    ensures forall c | c in NativeCoins(coins) ::
              ApplyAll(b, Calls(None, Some(to), NativeCoins(coins))).value.Supply(c.denom) > 0
  {
    var native := NativeCoins(coins);
    MintsSucceed(b, to, native);
    NativeProper(coins);
    forall c | c in native
      ensures ApplyAll(b, Calls(None, Some(to), native)).value.Supply(c.denom) > 0
    {
      CallsExact(b, None, Some(to), native, to, c.denom);
      CoinWithinSum(native, c);
    }
  }

  /** Minting native coins succeeds exactly when each coin but the gas coin is registered or
      has metadata and a deployment. */
  lemma MintWhen(l: Ledger, to: Address, coins: seq<Coin>, deploys: map<Denom, Contract>)
    requires RegistryOk(l.registry) && PlainNames(coins) && Fresh(l, deploys) && Erc20Tokens(coins) == []
    ensures MintStep(l, to, coins, deploys).Ok? <==>
              forall c | c in NativeCoins(coins) :: CanRegister(l, c.denom, deploys)
  {
    var native := NativeCoins(coins);
    MintedSupply(l.bank, to, coins);
    NativeProper(coins);
    var l0 := l.(bank := ApplyAll(l.bank, Calls(None, Some(to), native)).value);
    RegisterMissingWhen(l0, native, deploys);
    assert forall c | c in native :: CanRegister(l0, c.denom, deploys) <==> CanRegister(l, c.denom, deploys);
    if RegisterMissing(l0, native, deploys).Ok? {
      FreshBank(l, l0.bank, deploys);
      RegisterMissingKeeps(l0, native, deploys);
      MintLegSucceeds(RegisterMissing(l0, native, deploys).value, to, native);
    }
  }

  lemma MintLegSucceeds(l: Ledger, to: Address, native: seq<Coin>)
    requires RegistryOk(l.registry) && Plain(native)
    requires forall c | c in native && !IsGas(c.denom) :: c.denom in l.registry.byDenom
    ensures Erc20Send(l.registry, l.evm, None, Some(to), native, []).Ok?
  {
    PaymentsFound(l.registry, native);
    MintsSucceed(l.evm, to, Payments(l.registry, native).value + TokenPayments([]));
  }

  // --- Multi-send -----------------------------------------------------------------

  /** The bank lags the contracts at its own address by the coins of a list. */
  ghost predicate Lags(l: Ledger, coins: seq<Coin>) {
    forall who, d | Mirrored(d) :: Gap(l, who, d) == if who == BANK then 0 - CoinSum(coins, d) else 0
  }

  predicate NoTokens(entries: seq<Entry>) {
    forall e | e in entries :: Erc20Tokens(e.coins) == []
  }

  lemma OutputSucceeds(l: Ledger, e: Entry, rest: seq<Coin>)
    requires RegistryOk(l.registry) && PlainNames(e.coins) && Erc20Tokens(e.coins) == [] && Lags(l, e.coins + rest)
    ensures OutputStep(l, e).Ok?
  {
    var native := NativeCoins(e.coins);
    NativeProper(e.coins);
    forall d | Mirrored(d)
      ensures CoinSum(native, d) <= Shadow(l.registry, l.evm, BANK, d)
    {
      assert Gap(l, BANK, d) == 0 - CoinSum(e.coins + rest, d);
      CoinSumConcat(e.coins, rest, d);
      NativeSum(e.coins, d);
    }
    LegFunded(l, BANK, Some(e.who), native);
  }

  lemma OutputLags(l: Ledger, e: Entry, rest: seq<Coin>)
    requires RegistryOk(l.registry) && PlainNames(e.coins) && Erc20Tokens(e.coins) == [] && Lags(l, e.coins + rest)
    requires OutputStep(l, e).Ok?
    ensures Lags(OutputStep(l, e).value, rest)
  {
    forall who, d | Mirrored(d)
      ensures Gap(OutputStep(l, e).value, who, d) == if who == BANK then 0 - CoinSum(rest, d) else 0
    {
      assert Gap(l, who, d) == if who == BANK then 0 - CoinSum(e.coins + rest, d) else 0;
      CoinSumConcat(e.coins, rest, d);
      OutputGap(l, e, who, d);
      NoTokensNoStray(l.registry, e.coins, d);
    }
  }

  /** No output of a balanced multi-send can fail once the inputs are in. */
  lemma {:induction false} OutputsSucceed(l: Ledger, entries: seq<Entry>)
    requires RegistryOk(l.registry) && PlainEntries(entries) && NoTokens(entries) && Lags(l, EntryCoins(entries))
    ensures OutputSteps(l, entries).Ok?
    decreases entries
  {
    if entries != [] {
      var e, rest := entries[0], entries[1..];
      assert e in entries && forall x | x in rest :: x in entries;
      OutputSucceeds(l, e, EntryCoins(rest));
      OutputLags(l, e, EntryCoins(rest));
      OutputsSucceed(OutputStep(l, e).value, rest);
    }
  }

  /** The bank's own share of the inputs. */
  function BankInputs(b: Bank, entries: seq<Entry>): Result<Bank>
    decreases entries
  {
    if entries == [] then Ok(b) else
      var b1 :- DebitAll(b, entries[0].who, NativeCoins(entries[0].coins));
      BankInputs(b1, entries[1..])
  }

  lemma InputSucceeds(l: Ledger, e: Entry, paid: seq<Coin>)
    requires RegistryOk(l.registry) && PlainNames(e.coins) && Erc20Tokens(e.coins) == [] && Lags(l, paid)
    requires DebitAll(l.bank, e.who, NativeCoins(e.coins)).Ok?
    ensures InputStep(l, e).Ok?
  {
    var native := NativeCoins(e.coins);
    NativeProper(e.coins);
    forall d | Mirrored(d)
      ensures CoinSum(native, d) <= Shadow(l.registry, l.evm, e.who, d)
    {
      assert Gap(l, e.who, d) <= 0;
      DebitAllExact(l.bank, e.who, native, e.who, d);
    }
    LegFunded(l, e.who, Some(BANK), native);
  }

  lemma InputLags(l: Ledger, e: Entry, paid: seq<Coin>)
    requires RegistryOk(l.registry) && PlainNames(e.coins) && Erc20Tokens(e.coins) == [] && Lags(l, paid)
               && InputStep(l, e).Ok?
    ensures Lags(InputStep(l, e).value, paid + e.coins)
  {
    forall who, d | Mirrored(d)
      ensures Gap(InputStep(l, e).value, who, d) == if who == BANK then 0 - CoinSum(paid + e.coins, d) else 0
    {
      assert Gap(l, who, d) == if who == BANK then 0 - CoinSum(paid, d) else 0;
      CoinSumConcat(paid, e.coins, d);
      InputGap(l, e, who, d);
      NoTokensNoStray(l.registry, e.coins, d);
    }
  }

  lemma InputWhen(l: Ledger, e: Entry, paid: seq<Coin>)
    requires RegistryOk(l.registry) && PlainNames(e.coins) && Erc20Tokens(e.coins) == [] && Lags(l, paid)
    ensures InputStep(l, e).Ok? <==> DebitAll(l.bank, e.who, NativeCoins(e.coins)).Ok?
    ensures InputStep(l, e).Ok? ==>
              && InputStep(l, e).value.bank == DebitAll(l.bank, e.who, NativeCoins(e.coins)).value
              && InputStep(l, e).value.registry == l.registry && Lags(InputStep(l, e).value, paid + e.coins)
  {
    if DebitAll(l.bank, e.who, NativeCoins(e.coins)).Ok? {
      InputSucceeds(l, e, paid);
      InputLags(l, e, paid);
    }
  }

  lemma InputsUnfold(l: Ledger, entries: seq<Entry>, l1: Ledger)
    requires entries != [] && InputStep(l, entries[0]) == Ok(l1)
    requires DebitAll(l.bank, entries[0].who, NativeCoins(entries[0].coins)) == Ok(l1.bank)
    ensures InputSteps(l, entries) == InputSteps(l1, entries[1..])
    ensures BankInputs(l.bank, entries) == BankInputs(l1.bank, entries[1..])
  {
  }

  lemma LagsRegroup(l: Ledger, paid: seq<Coin>, coins: seq<Coin>, more: seq<Coin>)
    requires Lags(l, (paid + coins) + more)
    ensures Lags(l, paid + (coins + more))
  {
    assert (paid + coins) + more == paid + (coins + more);
  }

  /** The inputs are taken exactly when the bank can take them, and then it lags by them. */
  lemma {:induction false} InputsWhen(l: Ledger, entries: seq<Entry>, paid: seq<Coin>)
    requires RegistryOk(l.registry) && PlainEntries(entries) && NoTokens(entries) && Lags(l, paid)
    ensures InputSteps(l, entries).Ok? <==> BankInputs(l.bank, entries).Ok?
    ensures InputSteps(l, entries).Ok? ==> Lags(InputSteps(l, entries).value, paid + EntryCoins(entries))
    decreases entries
  {
    if entries == [] {
      assert paid + [] == paid;
    } else {
      var e, rest := entries[0], entries[1..];
      assert e in entries && forall x | x in rest :: x in entries;
      InputWhen(l, e, paid);
      if InputStep(l, e).Ok? {
        var l1 := InputStep(l, e).value;
        InputsUnfold(l, entries, l1);
        InputsWhen(l1, rest, paid + e.coins);
        if InputSteps(l1, rest).Ok? { LagsRegroup(InputSteps(l1, rest).value, paid, e.coins, EntryCoins(rest)); }
      }
    }
  }

  lemma LagsSame(l: Ledger, inputs: seq<Entry>, outputs: seq<Entry>)
    requires Balanced(inputs, outputs) && Lags(l, [] + EntryCoins(inputs))
    ensures Lags(l, EntryCoins(outputs))
  {
    assert [] + EntryCoins(inputs) == EntryCoins(inputs);
    forall who, d | Mirrored(d)
      ensures Gap(l, who, d) == if who == BANK then 0 - CoinSum(EntryCoins(outputs), d) else 0
    {
      BalancedEverywhere(inputs, outputs, d);
    }
  }

  /** A multi-send of native coins succeeds exactly when it is balanced and the bank can
      take its inputs. */
  lemma MultiSendWhen(l: Ledger, inputs: seq<Entry>, outputs: seq<Entry>)
    requires RegistryOk(l.registry) && Mirror(l) && NoTokens(inputs) && NoTokens(outputs)
    requires PlainEntries(inputs) && PlainEntries(outputs)
    ensures MultiSendStep(l, inputs, outputs).Ok? <==> Balanced(inputs, outputs) && BankInputs(l.bank, inputs).Ok?
  {
    assert Lags(l, []) by {
      forall who, d | Mirrored(d)
        ensures Gap(l, who, d) == 0
      {
        MirrorGap(l, who, d);
      }
    }
    InputsWhen(l, inputs, []);
    if Balanced(inputs, outputs) && BankInputs(l.bank, inputs).Ok? {
      var l1 := InputSteps(l, inputs).value;
      EntriesKeepRegistry(l, inputs);
      LagsSame(l1, inputs, outputs);
      OutputsSucceed(l1, outputs);
    }
  }
}
