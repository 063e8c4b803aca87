/**
 What each bank-side operation does to every balance and every supply, on both ledgers.
 */
module DualExact {
  import opened Results
  import opened Bank
  import opened Denoms
  import opened PairRegistry
  import opened DualLedger
  import opened DualMirror

  function When(here: bool, amount: nat): int {
    if here then amount else 0
  }

  /** What coins hold of one the bank keeps. */
  function Native(coins: seq<Coin>, d: Denom): nat {
    if IsErc20Denom(d) then 0 else CoinSum(coins, d)
  }

  /** What coins move in one contract: the tokens that name it, and the coin it mirrors. */
  function Tokens(r: Registry, coins: seq<Coin>, c: Contract): nat {
    Naming(coins, c) + if c in r.byErc20 && !IsGas(r.byErc20[c].1) then Native(coins, r.byErc20[c].1) else 0
  }

  lemma {:induction false} NoTokens(native: seq<Coin>, d: Denom)
    requires IsErc20Denom(d) && forall c | c in native :: !IsErc20Denom(c.denom)
    ensures CoinSum(native, d) == 0
  {
    if native != [] {
      assert native[0] in native;
      NoTokens(native[1..], d);
    }
  }

  lemma NativeIs(coins: seq<Coin>, d: Denom)
    ensures CoinSum(NativeCoins(coins), d) == Native(coins, d)
  {
    if IsErc20Denom(d) {
      NativeProper(coins);
      NoTokens(NativeCoins(coins), d);
    } else {
      NativeSum(coins, d);
    }
  }

  lemma TokensIs(r: Registry, coins: seq<Coin>, c: Contract)
    requires RegistryOk(r) && PlainNames(coins) && Payments(r, NativeCoins(coins)).Ok?
    ensures CoinSum(Payments(r, NativeCoins(coins)).value, c) + CoinSum(TokenPayments(Erc20Tokens(coins)), c)
              == Tokens(r, coins, c)
  {
    PaymentsSum(r, NativeCoins(coins), c);
    NamingPaid(coins, c);
    if c in r.byErc20 { NativeIs(coins, r.byErc20[c].1); }
  }

  // --- The two legs of an operation -----------------------------------------------

  /** The bank holds the coins' amounts less at the account they leave, and more at the account
      they reach; without the first they are new, without the second they are gone. */
  ghost predicate BankMoved(b: Bank, b': Bank, from: Option<Address>, to: Option<Address>, coins: seq<Coin>) {
    && (forall who, d :: b'.Balance(who, d)
          == b.Balance(who, d) + When(to == Some(who), Native(coins, d)) - When(from == Some(who), Native(coins, d)))
    && (forall d :: b'.Supply(d) == b.Supply(d) + When(from.None?, Native(coins, d)) - When(to.None?, Native(coins, d)))
  }

  /** So do the contracts, each for the tokens that are its own. */
  ghost predicate ContractsMoved(r: Registry, e: Bank, e': Bank, from: Option<Address>, to: Option<Address>,
                                 coins: seq<Coin>) {
    && (forall who, c :: e'.Balance(who, c)
          == e.Balance(who, c) + When(to == Some(who), Tokens(r, coins, c))
              - When(from == Some(who), Tokens(r, coins, c)))
    && (forall c :: e'.Supply(c)
          == e.Supply(c) + When(from.None?, Tokens(r, coins, c)) - When(to.None?, Tokens(r, coins, c)))
  }

  lemma BankCalls(b: Bank, b': Bank, from: Option<Address>, to: Option<Address>, coins: seq<Coin>)
    requires (from.Some? || to.Some?) && ApplyAll(b, Calls(from, to, NativeCoins(coins))) == Ok(b')
    ensures BankMoved(b, b', from, to, coins)
  {
    forall who, d
      ensures b'.Balance(who, d)
                == b.Balance(who, d) + When(to == Some(who), Native(coins, d))
                    - When(from == Some(who), Native(coins, d))
    {
      CallsExact(b, from, to, NativeCoins(coins), who, d);
      NativeIs(coins, d);
    }
    forall d
      ensures b'.Supply(d) == b.Supply(d) + When(from.None?, Native(coins, d)) - When(to.None?, Native(coins, d))
    {
      CallsExact(b, from, to, NativeCoins(coins), "", d);
      NativeIs(coins, d);
    }
  }

  lemma BankSends(b: Bank, b': Bank, from: Address, to: Address, coins: seq<Coin>)
    requires SendCoins(b, from, to, NativeCoins(coins)) == Ok(b')
    ensures BankMoved(b, b', Some(from), Some(to), coins)
  {
    forall who, d
      ensures b'.Balance(who, d)
                == b.Balance(who, d) + When(to == who, Native(coins, d)) - When(from == who, Native(coins, d))
    {
      SendExact(b, from, to, NativeCoins(coins), who, d);
      NativeIs(coins, d);
    }
    forall d
      ensures b'.Supply(d) == b.Supply(d)
    {
      SendExact(b, from, to, NativeCoins(coins), "", d);
    }
  }

  lemma ContractCalls(r: Registry, e: Bank, e': Bank, from: Option<Address>, to: Option<Address>, coins: seq<Coin>)
    requires RegistryOk(r) && PlainNames(coins) && (from.Some? || to.Some?)
    requires Erc20Send(r, e, from, to, NativeCoins(coins), Erc20Tokens(coins)) == Ok(e')
    ensures ContractsMoved(r, e, e', from, to, coins)
  {
    forall who, c
      ensures ContractMoved(e, e', from, to, who, c, Tokens(r, coins, c))
    {
      TokensIs(r, coins, c);
      ContractPaid(e, e', from, to, Payments(r, NativeCoins(coins)).value, TokenPayments(Erc20Tokens(coins)), who, c,
                   Tokens(r, coins, c));
    }
    ContractsMovedFrom(r, e, e', from, to, coins);
  }

  lemma ContractsMovedFrom(r: Registry, e: Bank, e': Bank, from: Option<Address>, to: Option<Address>, coins: seq<Coin>)
    requires from.Some? || to.Some?
    requires forall who, c :: ContractMoved(e, e', from, to, who, c, Tokens(r, coins, c))
    ensures ContractsMoved(r, e, e', from, to, coins)
  {
    forall c
      ensures e'.Supply(c) == e.Supply(c) + When(from.None?, Tokens(r, coins, c)) - When(to.None?, Tokens(r, coins, c))
    {
      assert ContractMoved(e, e', from, to, "", c, Tokens(r, coins, c));
    }
    forall who, c
      ensures e'.Balance(who, c) == e.Balance(who, c) + When(to == Some(who), Tokens(r, coins, c))
                                    - When(from == Some(who), Tokens(r, coins, c))
    {
      assert ContractMoved(e, e', from, to, who, c, Tokens(r, coins, c));
    }
  }

  /** The coins have moved on both ledgers, the contracts found in a registry. */
  ghost predicate Moves(l: Ledger, l': Ledger, r: Registry, from: Option<Address>, to: Option<Address>,
                        coins: seq<Coin>) {
    BankMoved(l.bank, l'.bank, from, to, coins) && ContractsMoved(r, l.evm, l'.evm, from, to, coins)
  }

  // --- Transfers, mints and burns -------------------------------------------------

  /** A transfer moves every coin, and every contract's tokens, from one account to the other;
      all other balances, all supplies and the registry stay. */
  lemma SendMoves(l: Ledger, from: Address, to: Address, coins: seq<Coin>)
    requires RegistryOk(l.registry) && PlainNames(coins)
    ensures var r := SendStep(l, from, to, coins);
            r.Ok? ==> && Moves(l, r.value, l.registry, Some(from), Some(to), coins)
                      && r.value.registry == l.registry && r.value.metadata == l.metadata
  {
    var r := SendStep(l, from, to, coins);
    if r.Ok? {
      BankSends(l.bank, r.value.bank, from, to, coins);
      ContractCalls(l.registry, l.evm, r.value.evm, Some(from), Some(to), coins);
    }
  }

  lemma DelegateMoves(l: Ledger, from: Address, to: Address, coins: seq<Coin>)
    requires RegistryOk(l.registry) && PlainNames(coins)
    ensures var r := DelegateStep(l, from, to, coins);
            r.Ok? ==> && Erc20Tokens(coins) == [] && Moves(l, r.value, l.registry, Some(from), Some(to), coins)
                      && r.value.registry == l.registry && r.value.metadata == l.metadata
  {
    SendMoves(l, from, to, coins);
  }

  /** A burn takes every coin off the account and the supply, on both ledgers. */
  lemma BurnMoves(l: Ledger, from: Address, coins: seq<Coin>)
    requires RegistryOk(l.registry) && PlainNames(coins)
    ensures var r := BurnStep(l, from, coins);
            r.Ok? ==> && Erc20Tokens(coins) == [] && Moves(l, r.value, l.registry, Some(from), None, coins)
                      && r.value.registry == l.registry && r.value.metadata == l.metadata
  {
    var r := BurnStep(l, from, coins);
    if r.Ok? {
      BankCalls(l.bank, r.value.bank, Some(from), None, coins);
      ContractCalls(l.registry, l.evm, r.value.evm, Some(from), None, coins);
    }
  }

  /** The registry after a mint: each coin of it that had no contract has the one deployed for it,
      and every other coin has what it had. */
  ghost predicate Registers(r: Registry, r': Registry, native: seq<Coin>, deploys: map<Denom, Contract>) {
    && (forall d :: d in r'.byDenom <==> d in r.byDenom || (0 < CoinSum(native, d) && !IsGas(d)))
    && (forall d | d in r.byDenom :: d in r'.byDenom && r'.byDenom[d] == r.byDenom[d])
    && (forall d | d in r'.byDenom && d !in r.byDenom :: d in deploys && r'.byDenom[d] == (deploys[d], d))
  }

  lemma RegistersFirst(r: Registry, r': Registry, native: seq<Coin>, deploys: map<Denom, Contract>)
    requires native != [] && native[0].amount > 0 && !IsGas(native[0].denom)
    requires native[0].denom !in r.byDenom && native[0].denom in deploys
    requires Registers(r.Add(TokenPair(deploys[native[0].denom], native[0].denom, Module)), r', native[1..], deploys)
    ensures Registers(r, r', native, deploys)
  {
    var d0 := native[0].denom;
    var r1 := r.Add(TokenPair(deploys[d0], d0, Module));
    forall d
      ensures d in r'.byDenom <==> d in r.byDenom || (0 < CoinSum(native, d) && !IsGas(d))
      ensures d in r.byDenom ==> d in r'.byDenom && r'.byDenom[d] == r.byDenom[d]
      ensures d in r'.byDenom && d !in r.byDenom ==> d in deploys && r'.byDenom[d] == (deploys[d], d)
    {
      assert d in r1.byDenom <==> d in r.byDenom || d == d0;
    }
  }

  lemma {:induction false} RegistersMissing(l: Ledger, l': Ledger, native: seq<Coin>, deploys: map<Denom, Contract>)
    requires forall c | c in native :: c.amount > 0
    requires RegisterMissing(l, native, deploys) == Ok(l')
    ensures Registers(l.registry, l'.registry, native, deploys)
    ensures l'.metadata == l.metadata && l'.bank == l.bank && l'.evm == l.evm
    decreases native
  {
    if native != [] {
      assert native[0] in native && forall x | x in native[1..] :: x in native;
      if IsGas(native[0].denom) || native[0].denom in l.registry.byDenom {
        RegistersMissing(l, l', native[1..], deploys);
      } else {
        RegistersMissing(RegisterCoin(l, native[0].denom, deploys).value, l', native[1..], deploys);
        RegistersFirst(l.registry, l'.registry, native, deploys);
      }
    }
  }

  /** A mint adds every coin to the account and to the supply, on both ledgers, and registers the
      coins that had no contract. */
  lemma MintMoves(l: Ledger, to: Address, coins: seq<Coin>, deploys: map<Denom, Contract>)
    requires RegistryOk(l.registry) && PlainNames(coins) && Fresh(l, deploys)
    ensures var r := MintStep(l, to, coins, deploys);
            r.Ok? ==> && Erc20Tokens(coins) == [] && Moves(l, r.value, r.value.registry, None, Some(to), coins)
                      && Registers(l.registry, r.value.registry, NativeCoins(coins), deploys)
                      && r.value.metadata == l.metadata
  {
    var r := MintStep(l, to, coins, deploys);
    if r.Ok? {
      var b := ApplyAll(l.bank, Calls(None, Some(to), NativeCoins(coins))).value;
      MintRegistry(l, to, coins, deploys);
      NativeProper(coins);
      RegistersMissing(l.(bank := b), RegisterMissing(l.(bank := b), NativeCoins(coins), deploys).value,
                       NativeCoins(coins), deploys);
      BankCalls(l.bank, b, None, Some(to), coins);
      ContractCalls(r.value.registry, l.evm, r.value.evm, None, Some(to), coins);
    }
  }

  // --- Registration ---------------------------------------------------------------

  /** Both names of a pair find it, and every other name finds what it found. */
  ghost predicate FoundByBoth(r: Registry, r': Registry, pair: TokenPair) {
    && r'.PairIdOf(pair.denom) == r'.PairIdOf(pair.contract) == Some(pair.Id())
    && pair.Id() in r'.pairs && r'.pairs[pair.Id()] == pair
    && (forall id | id in r.pairs :: id in r'.pairs && r'.pairs[id] == r.pairs[id])
    && (forall name: string | name != pair.denom && !(IsHexAddress(name) && HexToAddress(name) == pair.contract) ::
          r'.PairIdOf(name) == r.PairIdOf(name))
  }

  lemma AddIsFound(r: Registry, pair: TokenPair)
    requires RegistryOk(r) && pair.contract !in r.byErc20 && pair.denom !in r.byDenom
    requires !IsHexAddress(pair.denom) && IsHexAddress(pair.contract) && HexToAddress(pair.contract) == pair.contract
    ensures FoundByBoth(r, r.Add(pair), pair)
  {
    forall id | id in r.pairs
      ensures id in r.Add(pair).pairs && r.Add(pair).pairs[id] == r.pairs[id]
    {
      assert id.0 in r.byErc20;
    }
  }

  lemma SpeltAddress(spelling: string, contract: Contract)
    requires Spells(spelling, contract)
    ensures IsHexAddress(contract) && HexToAddress(contract) == contract
  {
    forall i | 0 <= i < |contract|
      ensures IsHexDigit(contract[i]) && LowerDigit(contract[i]) == contract[i]
    {
      assert contract[i] == LowerDigit(spelling[i]) && IsHexDigit(spelling[i]);
    }
    assert contract[1] != 'x' && contract[1] != 'X';
    assert Digits(contract) == contract && Lower(contract) == contract;
  }

  lemma CreatedIsNoAddress(spelling: string)
    ensures !IsHexAddress(CreateDenom(spelling))
  {
    var d := CreateDenom(spelling);
    assert d[0] == 'e' && d[1] == 'r' && Digits(d) == d && !IsHexDigit(d[1]);
  }

  /** A token is registered exactly if neither its contract nor its denomination is, and the
      contract describes itself as valid metadata that is not there yet; a coin exactly if it is
      not the gas coin, has metadata and a supply, is not registered, and can be deployed. */
  lemma RegistersWhen(l: Ledger, contract: Contract, spelling: string, answers: bool, valid: bool, denom: Denom,
                      deploys: map<Denom, Contract>)
    ensures RegisterErc20(l, contract, spelling, answers, valid).Ok? <==>
              && answers && valid && contract !in l.registry.byErc20
              && CreateDenom(spelling) !in l.registry.byDenom && CreateDenom(spelling) !in l.metadata
    ensures RegisterCoin(l, denom, deploys).Ok? <==>
              && !IsGas(denom) && denom in l.metadata && denom !in l.registry.byDenom && denom in deploys
              && 0 < if IsErc20Denom(denom) then l.evm.Supply(ContractOf(denom)) else l.bank.Supply(denom)
  {
  }

  /** A registered token is found by its denomination and by its contract; no balance changes. */
  lemma RegisterErc20Adds(l: Ledger, contract: Contract, spelling: string, answers: bool, valid: bool)
    requires RegistryOk(l.registry) && Spells(spelling, contract)
    ensures var r := RegisterErc20(l, contract, spelling, answers, valid);
            r.Ok? ==> && FoundByBoth(l.registry, r.value.registry, TokenPair(contract, CreateDenom(spelling), External))
                      && r.value.bank == l.bank && r.value.evm == l.evm
                      && r.value.metadata == l.metadata + {CreateDenom(spelling)}
  {
    if RegisterErc20(l, contract, spelling, answers, valid).Ok? {
      SpeltAddress(spelling, contract);
      CreatedIsNoAddress(spelling);
      AddIsFound(l.registry, TokenPair(contract, CreateDenom(spelling), External));
    }
  }

  /** So is a registered coin, by its name and by the contract deployed for it. */
  lemma RegisterCoinAdds(l: Ledger, denom: Denom, deploys: map<Denom, Contract>)
    requires RegistryOk(l.registry) && Fresh(l, deploys) && !IsHexAddress(denom)
    requires denom in deploys ==> IsHexAddress(deploys[denom]) && HexToAddress(deploys[denom]) == deploys[denom]
    ensures var r := RegisterCoin(l, denom, deploys);
            r.Ok? ==> && denom in deploys
                      && FoundByBoth(l.registry, r.value.registry, TokenPair(deploys[denom], denom, Module))
                      && r.value == l.(registry := r.value.registry)
  {
    if RegisterCoin(l, denom, deploys).Ok? {
      assert Unused(l, deploys[denom]);
      AddIsFound(l.registry, TokenPair(deploys[denom], denom, Module));
    }
  }

  // --- Multi-send -----------------------------------------------------------------

  /** What one account gained of a coin and of a contract's tokens; the supplies have not changed. */
  predicate Gained(l: Ledger, l': Ledger, who: Address, d: Denom, c: Contract, native: int, tokens: int) {
    && l'.bank.Balance(who, d) == l.bank.Balance(who, d) + native && l'.bank.Supply(d) == l.bank.Supply(d)
    && l'.evm.Balance(who, c) == l.evm.Balance(who, c) + tokens && l'.evm.Supply(c) == l.evm.Supply(c)
  }

  lemma LegGains(r: Registry, e: Bank, e': Bank, from: Address, to: Address, coins: seq<Coin>, who: Address,
                 c: Contract)
    requires RegistryOk(r) && PlainNames(coins)
    requires Erc20Send(r, e, Some(from), Some(to), NativeCoins(coins), Erc20Tokens(coins)) == Ok(e')
    ensures e'.Balance(who, c)
              == e.Balance(who, c) + When(who == to, Tokens(r, coins, c)) - When(who == from, Tokens(r, coins, c))
    ensures e'.Supply(c) == e.Supply(c)
  {
    ContractCalls(r, e, e', Some(from), Some(to), coins);
  }

  lemma InputGains(l: Ledger, e: Entry, who: Address, d: Denom, c: Contract)
    requires RegistryOk(l.registry) && PlainNames(e.coins) && InputStep(l, e).Ok?
    ensures var tokens := Tokens(l.registry, e.coins, c);
            Gained(l, InputStep(l, e).value, who, d, c, 0 - When(who == e.who, Native(e.coins, d)),
                   When(who == BANK, tokens) - When(who == e.who, tokens))
  {
    DebitAllExact(l.bank, e.who, NativeCoins(e.coins), who, d);
    NativeIs(e.coins, d);
    LegGains(l.registry, l.evm, InputStep(l, e).value.evm, e.who, BANK, e.coins, who, c);
  }

  lemma OutputGains(l: Ledger, e: Entry, who: Address, d: Denom, c: Contract)
    requires RegistryOk(l.registry) && PlainNames(e.coins) && OutputStep(l, e).Ok?
    ensures var tokens := Tokens(l.registry, e.coins, c);
            Gained(l, OutputStep(l, e).value, who, d, c, When(who == e.who, Native(e.coins, d)),
                   When(who == e.who, tokens) - When(who == BANK, tokens))
  {
    CreditAllExact(l.bank, e.who, NativeCoins(e.coins), who, d);
    NativeIs(e.coins, d);
    LegGains(l.registry, l.evm, OutputStep(l, e).value.evm, BANK, e.who, e.coins, who, c);
  }

  lemma Concats(r: Registry, a: seq<Coin>, b: seq<Coin>, d: Denom, c: Contract)
    ensures Native(a + b, d) == Native(a, d) + Native(b, d)
    ensures Tokens(r, a + b, c) == Tokens(r, a, c) + Tokens(r, b, c)
  {
    CoinSumConcat(a, b, d);
    NamingConcat(a, b, c);
    if c in r.byErc20 { CoinSumConcat(a, b, r.byErc20[c].1); }
  }

  lemma {:induction false} InputsGain(l: Ledger, entries: seq<Entry>, who: Address, d: Denom, c: Contract)
    requires RegistryOk(l.registry) && PlainEntries(entries) && InputSteps(l, entries).Ok?
    ensures Gained(l, InputSteps(l, entries).value, who, d, c, 0 - Native(CoinsOf(entries, who), d),
                   When(who == BANK, Tokens(l.registry, EntryCoins(entries), c))
                   - Tokens(l.registry, CoinsOf(entries, who), c))
    decreases entries
  {
    if entries != [] {
      var e, rest := entries[0], entries[1..];
      assert e in entries && forall x | x in rest :: x in entries;
      InputGains(l, e, who, d, c);
      InputsGain(InputStep(l, e).value, rest, who, d, c);
      Concats(l.registry, e.coins, EntryCoins(rest), d, c);
      Concats(l.registry, if e.who == who then e.coins else [], CoinsOf(rest, who), d, c);
    }
  }

  lemma {:induction false} OutputsGain(l: Ledger, entries: seq<Entry>, who: Address, d: Denom, c: Contract)
    requires RegistryOk(l.registry) && PlainEntries(entries) && OutputSteps(l, entries).Ok?
    ensures Gained(l, OutputSteps(l, entries).value, who, d, c, Native(CoinsOf(entries, who), d),
                   Tokens(l.registry, CoinsOf(entries, who), c)
                   - When(who == BANK, Tokens(l.registry, EntryCoins(entries), c)))
    decreases entries
  {
    if entries != [] {
      var e, rest := entries[0], entries[1..];
      assert e in entries && forall x | x in rest :: x in entries;
      OutputGains(l, e, who, d, c);
      OutputsGain(OutputStep(l, e).value, rest, who, d, c);
      Concats(l.registry, e.coins, EntryCoins(rest), d, c);
      Concats(l.registry, if e.who == who then e.coins else [], CoinsOf(rest, who), d, c);
    }
  }

  /** What enters the bank module's address leaves it. */
  lemma PassesThrough(r: Registry, inputs: seq<Entry>, outputs: seq<Entry>, c: Contract)
    requires Balanced(inputs, outputs)
    ensures Tokens(r, EntryCoins(inputs), c) == Tokens(r, EntryCoins(outputs), c)
  {
    forall d
      ensures CoinSum(EntryCoins(inputs), d) == CoinSum(EntryCoins(outputs), d)
    {
      BalancedEverywhere(inputs, outputs, d);
    }
    NamingSame(EntryCoins(inputs), EntryCoins(outputs), c);
  }

  /** A multi-send gives every account its outputs less its inputs, on both ledgers, and leaves
      the supplies and the registry alone; the bank module's address keeps nothing. */
  lemma MultiSendMoves(l: Ledger, inputs: seq<Entry>, outputs: seq<Entry>, who: Address, d: Denom, c: Contract)
    requires RegistryOk(l.registry) && PlainEntries(inputs) && PlainEntries(outputs)
    ensures var r := MultiSendStep(l, inputs, outputs);
            r.Ok? ==> && Gained(l, r.value, who, d, c,
                                Native(CoinsOf(outputs, who), d) - Native(CoinsOf(inputs, who), d),
                                Tokens(l.registry, CoinsOf(outputs, who), c)
                                - Tokens(l.registry, CoinsOf(inputs, who), c))
                      && r.value.registry == l.registry
  {
    if MultiSendStep(l, inputs, outputs).Ok? {
      var l1 := InputSteps(l, inputs).value;
      EntriesKeepRegistry(l, inputs);
      EntriesKeepRegistry(l1, outputs);
      InputsGain(l, inputs, who, d, c);
      OutputsGain(l1, outputs, who, d, c);
      PassesThrough(l.registry, inputs, outputs, c);
    }
  }
}
