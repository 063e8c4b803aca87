/**
 The bank and erc20 keepers over both ledgers: the loops that split coins, look up
 contracts, and debit and credit accounts in turn, proved against the steps of the two
 ledgers.
 */
module DualKeeper {
  import opened Results
  import opened Bank
  import opened Denoms
  import opened PairRegistry
  import opened DualLedger
  import opened DualMirror
  import opened DualExact

  function Prepend(done: seq<Coin>, rest: Result<seq<Coin>>): Result<seq<Coin>> {
    if rest.Err? then rest else Ok(done + rest.value)
  }

  lemma PrependNone(rest: Result<seq<Coin>>)
    ensures Prepend([], rest) == rest
  {
    if rest.Ok? { assert [] + rest.value == rest.value; }
  }

  lemma PrependOne(done: seq<Coin>, c: Coin, rest: Result<seq<Coin>>)
    ensures Prepend(done + [c], rest) == Prepend(done, Prepend([c], rest))
  {
    if rest.Ok? { assert done + [c] + rest.value == done + ([c] + rest.value); }
  }

  class Keeper {
    var bank: Bank
    var evm: Bank
    var pairs: map<PairId, TokenPair>
    var byErc20: map<Contract, PairId>
    var byDenom: map<Denom, PairId>
    var metadata: set<Denom>

    function Pairs(): Registry
      reads this
    {
      Registry(pairs, byErc20, byDenom)
    }

    function View(): Ledger
      reads this
    {
      Ledger(bank, evm, Pairs(), metadata)
    }

    constructor (l: Ledger)
      ensures View() == l
    {
      bank, evm, metadata := l.bank, l.evm, l.metadata;
      pairs, byErc20, byDenom := l.registry.pairs, l.registry.byErc20, l.registry.byDenom;
    }

    // --- The erc20 keeper ---------------------------------------------------------

    method SplitCoinsByErc20(coins: seq<Coin>) returns (native: seq<Coin>, tokens: seq<Coin>)
      ensures native == NativeCoins(coins) && tokens == Erc20Tokens(coins)
    {
      native, tokens := [], [];
      var i := 0;
      assert coins[0..] == coins;
      while i < |coins|
        invariant 0 <= i <= |coins|
        invariant native + NativeCoins(coins[i..]) == NativeCoins(coins)
        invariant tokens + Erc20Tokens(coins[i..]) == Erc20Tokens(coins)
      {
        ghost var rest := coins[i + 1..];
        assert coins[i..][0] == coins[i] && coins[i..][1..] == rest;
        if coins[i].amount > 0 {
          if IsErc20Denom(coins[i].denom) {
            assert tokens + ([coins[i]] + Erc20Tokens(rest)) == tokens + [coins[i]] + Erc20Tokens(rest);
            tokens := tokens + [coins[i]];
          } else {
            assert native + ([coins[i]] + NativeCoins(rest)) == native + [coins[i]] + NativeCoins(rest);
            native := native + [coins[i]];
          }
        }
        i := i + 1;
      }
      assert coins[i..] == [];
    }

    /** Look up the contracts of native coins. */
    method CollectNative(native: seq<Coin>) returns (r: Check, payments: seq<Coin>)
      ensures match r
              case Fail(e) => Payments(Pairs(), native) == Err(e)
              case Pass => Payments(Pairs(), native) == Ok(payments)
    {
      payments := [];
      var i := 0;
      PrependNone(Payments(Pairs(), native));
      assert native[0..] == native;
      while i < |native|
        invariant 0 <= i <= |native|
        invariant Prepend(payments, Payments(Pairs(), native[i..])) == Payments(Pairs(), native)
      {
        ghost var rest := Payments(Pairs(), native[i + 1..]);
        assert native[i..][1..] == native[i + 1..];
        if !IsGas(native[i].denom) {
          var id := Pairs().PairIdOf(native[i].denom);
          if id.None? { r := Fail(TokenPairNotFound); return; }
          if id.value !in pairs { r := Fail(Panic); return; }
          var payment := Coin(pairs[id.value].contract, native[i].amount);
          PrependOne(payments, payment, rest);
          payments := payments + [payment];
        }
        i := i + 1;
      }
      assert native[i..] == [] && payments + [] == payments;
      r := Pass;
    }

    /** Read the contracts of tokens off their names. */
    method CollectTokens(tokens: seq<Coin>) returns (payments: seq<Coin>)
      requires forall t | t in tokens :: IsErc20Denom(t.denom)
      ensures payments == TokenPayments(tokens)
    {
      payments := [];
      var j := 0;
      while j < |tokens|
        invariant 0 <= j <= |tokens|
        invariant payments + TokenPayments(tokens[j..]) == TokenPayments(tokens)
      {
        assert tokens[j..][1..] == tokens[j + 1..];
        payments := payments + [Coin(ContractOf(tokens[j].denom), tokens[j].amount)];
        j := j + 1;
      }
    }

    method Erc20SendCoins(from: Option<Address>, to: Option<Address>, native: seq<Coin>, tokens: seq<Coin>)
      returns (r: Check)
      requires (from.Some? || to.Some?) && forall t | t in tokens :: IsErc20Denom(t.denom)
      modifies `evm
      ensures Did(r, evm, Erc20Send(Pairs(), old(evm), from, to, native, tokens))
    {
      var payments;
      r, payments := CollectNative(native);
      if r.Fail? { return; }
      var more := CollectTokens(tokens);
      r := CallContracts(from, to, payments + more);
    }

    /** Call the contracts one by one. */
    method CallContracts(from: Option<Address>, to: Option<Address>, payments: seq<Coin>) returns (r: Check)
      requires from.Some? || to.Some?
      modifies `evm
      ensures Did(r, evm, ApplyAll(old(evm), Calls(from, to, payments)))
    {
      var k := 0;
      while k < |payments|
        invariant 0 <= k <= |payments|
        invariant ApplyAll(evm, Calls(from, to, payments[k..])) == ApplyAll(old(evm), Calls(from, to, payments))
      {
        var rest := payments[k..];
        assert rest[1..] == payments[k + 1..];
        assert Calls(from, to, rest)[0] == Call(from, to, rest[0]);
        assert Calls(from, to, rest)[1..] == Calls(from, to, rest[1..]);
        var called := Apply(evm, Call(from, to, payments[k]));
        if called.Err? { return Fail(called.error); }
        evm := called.value;
        k := k + 1;
      }
      r := Pass;
    }

    method RegisterCoin(denom: Denom, deploys: map<Denom, Contract>) returns (r: Check)
      modifies `pairs, `byErc20, `byDenom
      ensures Did(r, View(), DualLedger.RegisterCoin(old(View()), denom, deploys))
    {
      if IsGas(denom) { return Fail(EvmDenom); }
      if denom !in metadata { return Fail(EvmDenom); }
      if denom in byDenom { return Fail(TokenPairAlreadyExists); }
      var supply := GetSupply(denom);
      if supply == 0 { return Fail(InvalidCoins); }
      if denom !in deploys { return Fail(EvmReverted); }
      StorePair(TokenPair(deploys[denom], denom, Module));
      r := Pass;
    }

    method StorePair(pair: TokenPair)
      modifies `pairs, `byErc20, `byDenom
      ensures Pairs() == old(Pairs()).Add(pair)
    {
      pairs := pairs[pair.Id() := pair];
      byDenom := byDenom[pair.denom := pair.Id()];
      byErc20 := byErc20[pair.contract := pair.Id()];
    }

    method RegisterErc20(contract: Contract, spelling: string, answers: bool, valid: bool) returns (r: Check)
      modifies `pairs, `byErc20, `byDenom, `metadata
      ensures Did(r, View(), DualLedger.RegisterErc20(old(View()), contract, spelling, answers, valid))
    {
      if contract in byErc20 { return Fail(TokenPairAlreadyExists); }
      if !answers { return Fail(EvmReverted); }
      var denom := CreateDenom(spelling);
      if denom in metadata { return Fail(InternalTokenPair); }
      if denom in byDenom { return Fail(InternalTokenPair); }
      if !valid { return Fail(InvalidMetadata); }
      metadata := metadata + {denom};
      StorePair(TokenPair(contract, denom, External));
      r := Pass;
    }

    /** Removing a pair keeps the registry a bijection exactly when the pair is the one its
        names lead to, or its names lead nowhere. */
    method DeleteTokenPair(pair: TokenPair)
      modifies `pairs, `byErc20, `byDenom
      ensures Pairs() == old(Pairs()).Remove(pair)
      ensures old(RegistryOk(Pairs())) ==> (RegistryOk(Pairs()) <==> old(Removable(Pairs(), pair)))
    {
      if RegistryOk(Pairs()) { RemoveKeepsIff(Pairs(), pair); }
      pairs := pairs - {pair.Id()};
      byErc20 := byErc20 - {pair.contract};
      byDenom := byDenom - {pair.denom};
    }

    // --- The bank keeper ----------------------------------------------------------

    method GetSupply(denom: Denom) returns (supply: nat)
      ensures supply == SupplyOf(View(), denom)
    {
      if !IsErc20Denom(denom) {
        supply := bank.Supply(denom);
      } else {
        supply := evm.Supply(ContractOf(denom));
      }
    }

    method SendCoins(from: Address, to: Address, coins: seq<Coin>) returns (r: Check)
      modifies `bank, `evm
      ensures Did(r, View(), SendStep(old(View()), from, to, coins))
      ensures r.Pass? && old(RegistryOk(Pairs())) && PlainNames(coins) ==>
                Moves(old(View()), View(), Pairs(), Some(from), Some(to), coins)
    {
      ghost var l := View();
      if RegistryOk(l.registry) && PlainNames(coins) { SendMoves(l, from, to, coins); }
      var native, tokens := SplitCoinsByErc20(coins);
      var taken := DebitAll(bank, from, native);
      if taken.Err? { return Fail(taken.error); }
      bank := taken.value;
      bank := CreditAll(bank, to, native);
      r := Erc20SendCoins(Some(from), Some(to), native, tokens);
    }

    /** Delegation, and with the accounts exchanged its reverse. */
    method DelegateCoins(from: Address, to: Address, coins: seq<Coin>) returns (r: Check)
      modifies `bank, `evm
      ensures Did(r, View(), DelegateStep(old(View()), from, to, coins))
      ensures r.Pass? && old(RegistryOk(Pairs())) && PlainNames(coins) ==>
                Moves(old(View()), View(), Pairs(), Some(from), Some(to), coins)
    {
      ghost var l := View();
      if RegistryOk(l.registry) && PlainNames(coins) { DelegateMoves(l, from, to, coins); }
      var native, tokens := SplitCoinsByErc20(coins);
      if tokens != [] { return Fail(InvalidCoins); }
      var taken := DebitAll(bank, from, native);
      if taken.Err? { return Fail(taken.error); }
      bank := CreditAll(taken.value, to, native);
      r := Erc20SendCoins(Some(from), Some(to), native, []);
    }

    method MintCoins(to: Address, coins: seq<Coin>, deploys: map<Denom, Contract>) returns (r: Check)
      modifies this
      ensures Did(r, View(), MintStep(old(View()), to, coins, deploys))
      ensures r.Pass? && old(RegistryOk(Pairs()) && Fresh(View(), deploys)) && PlainNames(coins) ==>
                Moves(old(View()), View(), Pairs(), None, Some(to), coins)
    {
      ghost var l := View();
      if RegistryOk(l.registry) && Fresh(l, deploys) && PlainNames(coins) { MintMoves(l, to, coins, deploys); }
      var native, tokens := SplitCoinsByErc20(coins);
      if tokens != [] { return Fail(InvalidCoins); }
      var minted := ApplyAll(bank, Calls(None, Some(to), native));
      if minted.Err? { return Fail(minted.error); }
      bank := minted.value;
      r := RegisterMissingCoins(native, deploys);
      if r.Fail? { return; }
      r := Erc20SendCoins(None, Some(to), native, []);
    }

    method RegisterMissingCoins(native: seq<Coin>, deploys: map<Denom, Contract>) returns (r: Check)
      modifies `pairs, `byErc20, `byDenom
      ensures Did(r, View(), RegisterMissing(old(View()), native, deploys))
    {
      var i := 0;
      while i < |native|
        invariant 0 <= i <= |native|
        invariant RegisterMissing(View(), native[i..], deploys) == RegisterMissing(old(View()), native, deploys)
      {
        assert native[i..][1..] == native[i + 1..];
        if !IsGas(native[i].denom) && native[i].denom !in byDenom {
          r := RegisterCoin(native[i].denom, deploys);
          if r.Fail? { return; }
        }
        i := i + 1;
      }
      r := Pass;
    }

    method BurnCoins(from: Address, coins: seq<Coin>) returns (r: Check)
      modifies `bank, `evm
      ensures Did(r, View(), BurnStep(old(View()), from, coins))
      ensures r.Pass? && old(RegistryOk(Pairs())) && PlainNames(coins) ==>
                Moves(old(View()), View(), Pairs(), Some(from), None, coins)
    {
      ghost var l := View();
      if RegistryOk(l.registry) && PlainNames(coins) { BurnMoves(l, from, coins); }
      var native, tokens := SplitCoinsByErc20(coins);
      if tokens != [] { return Fail(InvalidCoins); }
      var burned := ApplyAll(bank, Calls(Some(from), None, native));
      if burned.Err? { return Fail(burned.error); }
      bank := burned.value;
      r := Erc20SendCoins(Some(from), None, native, []);
    }

    /** Inputs go to the bank module's address in the contracts, outputs come from there. */
    method InputOutputCoins(inputs: seq<Entry>, outputs: seq<Entry>) returns (r: Check)
      modifies `bank, `evm
      ensures Did(r, View(), MultiSendStep(old(View()), inputs, outputs))
    {
      if !Balanced(inputs, outputs) { return Fail(InputOutputMismatch); }
      r := TakeInputs(inputs);
      if r.Fail? { return; }
      r := PayOutputs(outputs);
    }

    method TakeInputs(inputs: seq<Entry>) returns (r: Check)
      modifies `bank, `evm
      ensures Did(r, View(), InputSteps(old(View()), inputs))
    {
      var i := 0;
      while i < |inputs|
        invariant 0 <= i <= |inputs|
        invariant InputSteps(View(), inputs[i..]) == InputSteps(old(View()), inputs)
      {
        assert inputs[i..][1..] == inputs[i + 1..];
        r := TakeInput(inputs[i]);
        if r.Fail? { return; }
        i := i + 1;
      }
      r := Pass;
    }

    method TakeInput(e: Entry) returns (r: Check)
      modifies `bank, `evm
      ensures Did(r, View(), InputStep(old(View()), e))
    {
      var native, tokens := SplitCoinsByErc20(e.coins);
      var taken := DebitAll(bank, e.who, native);
      if taken.Err? { return Fail(taken.error); }
      bank := taken.value;
      r := Erc20SendCoins(Some(e.who), Some(BANK), native, tokens);
    }

    method PayOutputs(outputs: seq<Entry>) returns (r: Check)
      modifies `bank, `evm
      ensures Did(r, View(), OutputSteps(old(View()), outputs))
    {
      var i := 0;
      while i < |outputs|
        invariant 0 <= i <= |outputs|
        invariant OutputSteps(View(), outputs[i..]) == OutputSteps(old(View()), outputs)
      {
        assert outputs[i..][1..] == outputs[i + 1..];
        r := PayOutput(outputs[i]);
        if r.Fail? { return; }
        i := i + 1;
      }
      r := Pass;
    }

    method PayOutput(e: Entry) returns (r: Check)
      modifies `bank, `evm
      ensures Did(r, View(), OutputStep(old(View()), e))
    {
      var native, tokens := SplitCoinsByErc20(e.coins);
      bank := CreditAll(bank, e.who, native);
      r := Erc20SendCoins(Some(BANK), Some(e.who), native, tokens);
    }
  }
}
