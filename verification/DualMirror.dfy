/**
 The bank and the contracts agree: what each bank-side operation does to the difference
 between the two ledgers, and exactly when it leaves none.
 */
module DualMirror {
  import opened Results
  import opened Bank
  import opened Denoms
  import opened PairRegistry
  import opened DualLedger

  /** Native coins other than the gas coin are mirrored. */
  predicate Mirrored(d: Denom) {
    !IsErc20Denom(d) && !IsGas(d)
  }

  /** What the contracts say an account holds of a coin; nothing before it is registered. */
  function Shadow(r: Registry, evm: Bank, who: Address, d: Denom): nat {
    if d in r.byDenom then evm.Balance(who, r.byDenom[d].0) else 0
  }

  function ShadowSupply(r: Registry, evm: Bank, d: Denom): nat {
    if d in r.byDenom then evm.Supply(r.byDenom[d].0) else 0
  }

  /** By how much the bank is ahead of the contracts, for an account and for the supply. */
  function Gap(l: Ledger, who: Address, d: Denom): int {
    l.bank.Balance(who, d) - Shadow(l.registry, l.evm, who, d)
  }

  function SupplyGap(l: Ledger, d: Denom): int {
    l.bank.Supply(d) - ShadowSupply(l.registry, l.evm, d)
  }

  /** The two ledgers agree on a coin. */
  ghost predicate Agrees(l: Ledger, d: Denom) {
    (forall who :: Gap(l, who, d) == 0) && SupplyGap(l, d) == 0
  }

  ghost predicate Mirror(l: Ledger) {
    forall d | Mirrored(d) :: Agrees(l, d)
  }

  // --- Exact effects of the folds -------------------------------------------------

  lemma {:induction false} DebitAllExact(b: Bank, from: Address, coins: seq<Coin>, who: Address, d: Denom)
    requires DebitAll(b, from, coins).Ok?
    ensures var b' := DebitAll(b, from, coins).value;
            && b'.Balance(who, d) == b.Balance(who, d) - (if who == from then CoinSum(coins, d) else 0)
            && b'.Supply(d) == b.Supply(d)
    decreases coins
  {
    if coins != [] { DebitAllExact(Debit(b, from, coins[0]).value, from, coins[1..], who, d); }
  }

  lemma {:induction false} CreditAllExact(b: Bank, to: Address, coins: seq<Coin>, who: Address, d: Denom)
    ensures var b' := CreditAll(b, to, coins);
            && b'.Balance(who, d) == b.Balance(who, d) + (if who == to then CoinSum(coins, d) else 0)
            && b'.Supply(d) == b.Supply(d)
    decreases coins
  {
    if coins != [] { CreditAllExact(Credit(b, to, coins[0]), to, coins[1..], who, d); }
  }

  lemma SendExact(b: Bank, from: Address, to: Address, coins: seq<Coin>, who: Address, d: Denom)
    requires SendCoins(b, from, to, coins).Ok?
    ensures var b' := SendCoins(b, from, to, coins).value;
            && b'.Balance(who, d) == b.Balance(who, d) - (if who == from then CoinSum(coins, d) else 0)
                                                       + (if who == to then CoinSum(coins, d) else 0)
            && b'.Supply(d) == b.Supply(d)
  {
    DebitAllExact(b, from, coins, who, d);
    CreditAllExact(DebitAll(b, from, coins).value, to, coins, who, d);
  }

  /** What calls of one kind do to a balance and to the supply. */
  function Moved(from: Option<Address>, to: Option<Address>, who: Address, amount: nat): int {
    (if to == Some(who) then amount else 0) - (if from == Some(who) then amount else 0)
  }

  function Made(from: Option<Address>, to: Option<Address>, amount: nat): int {
    (if from.None? then amount else 0) - (if to.None? then amount else 0)
  }

  lemma {:induction false} CallsExact(b: Bank, from: Option<Address>, to: Option<Address>, coins: seq<Coin>,
                                      who: Address, d: Denom)
    requires (from.Some? || to.Some?) && ApplyAll(b, Calls(from, to, coins)).Ok?
    ensures var b' := ApplyAll(b, Calls(from, to, coins)).value;
            && b'.Balance(who, d) == b.Balance(who, d) + Moved(from, to, who, CoinSum(coins, d))
            && b'.Supply(d) == b.Supply(d) + Made(from, to, CoinSum(coins, d))
    decreases coins
  {
    if coins != [] {
      var m, rest := Call(from, to, coins[0]), coins[1..];
      assert Calls(from, to, coins)[0] == m && Calls(from, to, coins)[1..] == Calls(from, to, rest);
      ApplyExact(b, m, who, d);
      CallsExact(Apply(b, m).value, from, to, rest, who, d);
    }
  }

  lemma {:induction false} CoinSumConcat(a: seq<Coin>, b: seq<Coin>, d: Denom)
    ensures CoinSum(a + b, d) == CoinSum(a, d) + CoinSum(b, d)
  {
    if a == [] {
      assert a + b == b;
    } else {
      assert (a + b)[1..] == a[1..] + b;
      CoinSumConcat(a[1..], b, d);
    }
  }

  // --- Coins and contracts --------------------------------------------------------

  /** The coins' own names are not addresses, so they are looked up as denominations. */
  predicate PlainNames(coins: seq<Coin>) {
    forall c | c in NativeCoins(coins) :: !IsHexAddress(c.denom)
  }

  /** How much of a contract's tokens a list of coins names. */
  function Naming(coins: seq<Coin>, c: Contract): nat {
    if coins == [] then 0
    else (if IsErc20Denom(coins[0].denom) && ContractOf(coins[0].denom) == c then coins[0].amount else 0)
         + Naming(coins[1..], c)
  }

  /** Tokens that name the contract of a native coin move it behind the bank's back. */
  function Stray(r: Registry, coins: seq<Coin>, d: Denom): nat {
    if d in r.byDenom then Naming(coins, r.byDenom[d].0) else 0
  }

  lemma {:induction false} NamingPaid(coins: seq<Coin>, c: Contract)
    ensures CoinSum(TokenPayments(Erc20Tokens(coins)), c) == Naming(coins, c)
  {
    if coins != [] {
      NamingPaid(coins[1..], c);
      var tokens := Erc20Tokens(coins[1..]);
      if coins[0].amount > 0 && IsErc20Denom(coins[0].denom) {
        assert ([coins[0]] + tokens)[1..] == tokens;
        var first, rest := Coin(ContractOf(coins[0].denom), coins[0].amount), TokenPayments(tokens);
        assert ([first] + rest)[1..] == rest;
      }
    }
  }

  /** Splitting loses nothing of a native coin. */
  lemma {:induction false} NativeSum(coins: seq<Coin>, d: Denom)
    requires !IsErc20Denom(d)
    ensures CoinSum(NativeCoins(coins), d) == CoinSum(coins, d)
  {
    if coins != [] {
      NativeSum(coins[1..], d);
      var rest := NativeCoins(coins[1..]);
      assert ([coins[0]] + rest)[1..] == rest;
    }
  }

  lemma {:induction false} NativeProper(coins: seq<Coin>)
    ensures forall c | c in NativeCoins(coins) :: c.amount > 0 && !IsErc20Denom(c.denom)
  {
    if coins != [] { NativeProper(coins[1..]); }
  }

  predicate Plain(native: seq<Coin>) {
    forall c | c in native :: !IsHexAddress(c.denom)
  }

  /** The calls pay each contract exactly what its coin moves, and no other contract. */
  lemma {:induction false} PaymentsSum(r: Registry, native: seq<Coin>, c: Contract)
    requires RegistryOk(r) && Plain(native) && Payments(r, native).Ok?
    ensures CoinSum(Payments(r, native).value, c)
              == if c in r.byErc20 && !IsGas(r.byErc20[c].1) then CoinSum(native, r.byErc20[c].1) else 0
    decreases native
  {
    if native != [] {
      assert native[0] in native && forall x | x in native[1..] :: x in native;
      PaymentsSum(r, native[1..], c);
      if !IsGas(native[0].denom) {
        var id := r.byDenom[native[0].denom];
        assert r.pairs[id].contract == id.0 && r.byErc20[id.0] == id;
        var rest := Payments(r, native[1..]).value;
        assert Payments(r, native).value == [Coin(id.0, native[0].amount)] + rest;
        assert ([Coin(id.0, native[0].amount)] + rest)[1..] == rest;
      }
    }
  }

  /** A mirrored coin that moves is registered. */
  lemma {:induction false} PaidIsRegistered(r: Registry, native: seq<Coin>, d: Denom)
    requires Plain(native) && Payments(r, native).Ok? && !IsGas(d) && d !in r.byDenom
    ensures CoinSum(native, d) == 0
    decreases native
  {
    if native != [] {
      assert native[0] in native && forall x | x in native[1..] :: x in native;
      PaidIsRegistered(r, native[1..], d);
    }
  }

  predicate LegMoved(r: Registry, evm: Bank, evm': Bank, from: Option<Address>, to: Option<Address>, who: Address,
                     d: Denom, moved: nat)
    requires from.Some? || to.Some?
  {
    && Shadow(r, evm', who, d) == Shadow(r, evm, who, d) + Moved(from, to, who, moved)
    && ShadowSupply(r, evm', d) == ShadowSupply(r, evm, d) + Made(from, to, moved)
  }

  predicate ContractMoved(evm: Bank, evm': Bank, from: Option<Address>, to: Option<Address>, who: Address, c: Contract,
                          moved: nat)
    requires from.Some? || to.Some?
  {
    && evm'.Balance(who, c) == evm.Balance(who, c) + Moved(from, to, who, moved)
    && evm'.Supply(c) == evm.Supply(c) + Made(from, to, moved)
  }

  lemma CallsMoved(evm: Bank, evm': Bank, from: Option<Address>, to: Option<Address>, paid: seq<Coin>, who: Address,
                   c: Contract)
    requires (from.Some? || to.Some?) && ApplyAll(evm, Calls(from, to, paid)) == Ok(evm')
    ensures ContractMoved(evm, evm', from, to, who, c, CoinSum(paid, c))
  {
    CallsExact(evm, from, to, paid, who, c);
  }

  /** Every contract is paid what two lists of calls make it. */
  lemma ContractPaid(evm: Bank, evm': Bank, from: Option<Address>, to: Option<Address>,
                     payments: seq<Coin>, others: seq<Coin>, who: Address, c: Contract, moved: nat)
    requires (from.Some? || to.Some?) && ApplyAll(evm, Calls(from, to, payments + others)) == Ok(evm')
    requires moved == CoinSum(payments, c) + CoinSum(others, c)
    ensures ContractMoved(evm, evm', from, to, who, c, moved)
  {
    CallsMoved(evm, evm', from, to, payments + others, who, c);
    CoinSumConcat(payments, others, c);
  }

  /** What a list of tokens moves of a native coin's contract. */
  function Strayed(r: Registry, tokens: seq<Coin>, d: Denom): nat
    requires forall t | t in tokens :: IsErc20Denom(t.denom)
  {
    if d in r.byDenom then CoinSum(TokenPayments(tokens), r.byDenom[d].0) else 0
  }

  lemma StrayedIs(r: Registry, coins: seq<Coin>, d: Denom)
    ensures Strayed(r, Erc20Tokens(coins), d) == Stray(r, coins, d)
  {
    if d in r.byDenom { NamingPaid(coins, r.byDenom[d].0); }
  }

  lemma ShadowMoved(r: Registry, evm: Bank, evm': Bank, from: Option<Address>, to: Option<Address>, who: Address,
                    d: Denom, moved: nat)
    requires from.Some? || to.Some?
    requires d in r.byDenom ==> ContractMoved(evm, evm', from, to, who, r.byDenom[d].0, moved)
    requires d !in r.byDenom ==> moved == 0
    ensures LegMoved(r, evm, evm', from, to, who, d, moved)
  {
  }

  /** The calls for native coins pay a mirrored coin's contract what moves of the coin. */
  lemma NativePaid(r: Registry, native: seq<Coin>, d: Denom)
    requires RegistryOk(r) && Plain(native) && Mirrored(d) && Payments(r, native).Ok?
    ensures d in r.byDenom ==> CoinSum(Payments(r, native).value, r.byDenom[d].0) == CoinSum(native, d)
    ensures d !in r.byDenom ==> CoinSum(native, d) == 0
  {
    if d in r.byDenom {
      assert r.byErc20[r.byDenom[d].0] == r.byDenom[d];
      PaymentsSum(r, native, r.byDenom[d].0);
    } else {
      PaidIsRegistered(r, native, d);
    }
  }

  lemma LegPaid(r: Registry, evm: Bank, evm': Bank, from: Option<Address>, to: Option<Address>,
                native: seq<Coin>, tokens: seq<Coin>, who: Address, d: Denom)
    requires RegistryOk(r) && Plain(native) && Mirrored(d) && (from.Some? || to.Some?)
    requires (forall t | t in tokens :: IsErc20Denom(t.denom))
               && Erc20Send(r, evm, from, to, native, tokens) == Ok(evm')
    ensures LegMoved(r, evm, evm', from, to, who, d, CoinSum(native, d) + Strayed(r, tokens, d))
  {
    NativePaid(r, native, d);
    if d in r.byDenom { OwnContractPaid(r, evm, evm', from, to, native, tokens, who, d); }
    ShadowMoved(r, evm, evm', from, to, who, d, CoinSum(native, d) + Strayed(r, tokens, d));
  }

  lemma OwnContractPaid(r: Registry, evm: Bank, evm': Bank, from: Option<Address>, to: Option<Address>,
                        native: seq<Coin>, tokens: seq<Coin>, who: Address, d: Denom)
    requires RegistryOk(r) && Plain(native) && Mirrored(d) && d in r.byDenom && (from.Some? || to.Some?)
    requires (forall t | t in tokens :: IsErc20Denom(t.denom))
               && Erc20Send(r, evm, from, to, native, tokens) == Ok(evm')
    ensures ContractMoved(evm, evm', from, to, who, r.byDenom[d].0, CoinSum(native, d) + Strayed(r, tokens, d))
  {
    NativePaid(r, native, d);
    ContractPaid(evm, evm', from, to, Payments(r, native).value, TokenPayments(tokens), who, r.byDenom[d].0,
                 CoinSum(native, d) + Strayed(r, tokens, d));
  }

  /** The contracts' leg of an operation moves each mirrored coin as the bank's leg does, and
      the stray tokens besides. */
  lemma LegShadows(r: Registry, evm: Bank, from: Option<Address>, to: Option<Address>, coins: seq<Coin>, who: Address,
                   d: Denom)
    requires RegistryOk(r) && PlainNames(coins) && Mirrored(d) && (from.Some? || to.Some?)
    requires Erc20Send(r, evm, from, to, NativeCoins(coins), Erc20Tokens(coins)).Ok?
    ensures LegMoved(r, evm, Erc20Send(r, evm, from, to, NativeCoins(coins), Erc20Tokens(coins)).value,
                     from, to, who, d, CoinSum(NativeCoins(coins), d) + Stray(r, coins, d))
  {
    StrayedIs(r, coins, d);
    LegOf(r, evm, from, to, NativeCoins(coins), Erc20Tokens(coins), who, d, Stray(r, coins, d));
  }

  lemma LegOf(r: Registry, evm: Bank, from: Option<Address>, to: Option<Address>,
              native: seq<Coin>, tokens: seq<Coin>, who: Address, d: Denom, stray: nat)
    requires RegistryOk(r) && Plain(native) && Mirrored(d) && (from.Some? || to.Some?)
    requires (forall t | t in tokens :: IsErc20Denom(t.denom)) && Erc20Send(r, evm, from, to, native, tokens).Ok?
    requires stray == Strayed(r, tokens, d)
    ensures LegMoved(r, evm, Erc20Send(r, evm, from, to, native, tokens).value, from, to, who, d,
                     CoinSum(native, d) + stray)
  {
    LegPaid(r, evm, Erc20Send(r, evm, from, to, native, tokens).value, from, to, native, tokens, who, d);
  }

  lemma NoTokensNoStray(r: Registry, coins: seq<Coin>, d: Denom)
    requires Erc20Tokens(coins) == []
    ensures Stray(r, coins, d) == 0
  {
    if d in r.byDenom { NamingPaid(coins, r.byDenom[d].0); }
  }

  // --- Transfers ------------------------------------------------------------------

  /** A transfer opens a gap of exactly its stray tokens, at either end. */
  lemma SendGap(l: Ledger, from: Address, to: Address, coins: seq<Coin>, who: Address, d: Denom)
    requires RegistryOk(l.registry) && PlainNames(coins) && Mirrored(d) && SendStep(l, from, to, coins).Ok?
    ensures var l', stray := SendStep(l, from, to, coins).value, Stray(l.registry, coins, d);
            && Gap(l', who, d) == Gap(l, who, d) - Moved(Some(from), Some(to), who, stray)
            && SupplyGap(l', d) == SupplyGap(l, d)
  {
    SendExact(l.bank, from, to, NativeCoins(coins), who, d);
    LegShadows(l.registry, l.evm, Some(from), Some(to), coins, who, d);
  }

  /** No token among the coins names the contract of a native coin. */
  predicate ForeignTokens(r: Registry, coins: seq<Coin>) {
    forall t | t in Erc20Tokens(coins) :: Foreign(r, ContractOf(t.denom))
  }

  predicate Foreign(r: Registry, c: Contract) {
    c in r.byErc20 ==> !Mirrored(r.byErc20[c].1)
  }

  lemma {:induction false} NamingFrom(coins: seq<Coin>, c: Contract)
    ensures Naming(coins, c) > 0 <==> exists t :: t in Erc20Tokens(coins) && ContractOf(t.denom) == c
  {
    if coins != [] {
      NamingFrom(coins[1..], c);
      var rest := Erc20Tokens(coins[1..]);
      if coins[0].amount > 0 && IsErc20Denom(coins[0].denom) {
        assert Erc20Tokens(coins) == [coins[0]] + rest;
        if t :| t in rest && ContractOf(t.denom) == c {
          assert t in Erc20Tokens(coins);
        }
        assert coins[0] in Erc20Tokens(coins);
      }
    }
  }

  lemma ForeignMeans(r: Registry, coins: seq<Coin>)
    requires RegistryOk(r)
    ensures ForeignTokens(r, coins) <==> forall d | Mirrored(d) :: Stray(r, coins, d) == 0
  {
    forall d | Mirrored(d) && d in r.byDenom
      ensures Stray(r, coins, d) > 0 ==> !ForeignTokens(r, coins)
    {
      NamingFrom(coins, r.byDenom[d].0);
      assert r.byErc20[r.byDenom[d].0] == r.byDenom[d];
    }
    if t :| t in Erc20Tokens(coins) && !Foreign(r, ContractOf(t.denom)) {
      var c := ContractOf(t.denom);
      NamingFrom(coins, c);
      assert r.byDenom[r.byErc20[c].1] == r.byErc20[c];
      assert Stray(r, coins, r.byErc20[c].1) > 0;
    }
  }

  /** A transfer keeps the ledgers in agreement if and only if it goes back to its sender or
      none of its tokens names the contract of a native coin. */
  lemma SendKeepsIff(l: Ledger, from: Address, to: Address, coins: seq<Coin>)
    requires RegistryOk(l.registry) && Mirror(l) && PlainNames(coins)
    ensures SendStep(l, from, to, coins).Ok? ==>
              (Mirror(SendStep(l, from, to, coins).value) <==> from == to || ForeignTokens(l.registry, coins))
  {
    if SendStep(l, from, to, coins).Ok? {
      var l' := SendStep(l, from, to, coins).value;
      ForeignMeans(l.registry, coins);
      forall d | Mirrored(d)
        ensures Agrees(l', d) <==> from == to || Stray(l.registry, coins, d) == 0
      {
        assert Agrees(l, d);
        SendAgreesIff(l, from, to, coins, d);
      }
    }
  }

  lemma SendAgreesIff(l: Ledger, from: Address, to: Address, coins: seq<Coin>, d: Denom)
    requires RegistryOk(l.registry) && PlainNames(coins) && Mirrored(d) && SendStep(l, from, to, coins).Ok?
               && Agrees(l, d)
    ensures Agrees(SendStep(l, from, to, coins).value, d) <==> from == to || Stray(l.registry, coins, d) == 0
  {
    var l' := SendStep(l, from, to, coins).value;
    forall who
      ensures Gap(l', who, d) == 0 - Moved(Some(from), Some(to), who, Stray(l.registry, coins, d))
      ensures SupplyGap(l', d) == 0
    {
      assert Gap(l, who, d) == 0;
      SendGap(l, from, to, coins, who, d);
    }
    assert Gap(l', from, d) == 0 - Moved(Some(from), Some(to), from, Stray(l.registry, coins, d));
  }

  // --- Burning --------------------------------------------------------------------

  lemma BurnGap(l: Ledger, from: Address, coins: seq<Coin>, who: Address, d: Denom)
    requires RegistryOk(l.registry) && PlainNames(coins) && Mirrored(d) && BurnStep(l, from, coins).Ok?
    ensures Gap(BurnStep(l, from, coins).value, who, d) == Gap(l, who, d)
    ensures SupplyGap(BurnStep(l, from, coins).value, d) == SupplyGap(l, d)
  {
    CallsExact(l.bank, Some(from), None, NativeCoins(coins), who, d);
    LegShadows(l.registry, l.evm, Some(from), None, coins, who, d);
    NoTokensNoStray(l.registry, coins, d);
  }

  lemma BurnKeeps(l: Ledger, from: Address, coins: seq<Coin>)
    requires RegistryOk(l.registry) && Mirror(l) && PlainNames(coins)
    ensures BurnStep(l, from, coins).Ok? ==> Mirror(BurnStep(l, from, coins).value)
  {
    if BurnStep(l, from, coins).Ok? {
      var l' := BurnStep(l, from, coins).value;
      forall d | Mirrored(d)
        ensures Agrees(l', d)
      {
        assert Agrees(l, d);
        forall who
          ensures Gap(l', who, d) == 0 && SupplyGap(l', d) == 0
        {
          assert Gap(l, who, d) == 0;
          BurnGap(l, from, coins, who, d);
        }
        assert Gap(l', "", d) == 0;
      }
    }
  }

  // --- Registration and minting ---------------------------------------------------

  ghost predicate Unused(l: Ledger, c: Contract) {
    c !in l.registry.byErc20 && l.evm.Supply(c) == 0 && forall who :: l.evm.Balance(who, c) == 0
  }

  /** New contracts get addresses of their own. */
  ghost predicate Fresh(l: Ledger, deploys: map<Denom, Contract>) {
    && (forall d | d in deploys && d !in l.registry.byDenom :: Unused(l, deploys[d]))
    && (forall d, e | d in deploys && e in deploys && deploys[d] == deploys[e] :: d == e)
  }

  /** Registering changes what neither ledger says. */
  ghost predicate SameShadows(l: Ledger, l': Ledger) {
    && l'.bank == l.bank && l'.evm == l.evm
    && (forall who, d :: Shadow(l'.registry, l.evm, who, d) == Shadow(l.registry, l.evm, who, d))
    && (forall d :: ShadowSupply(l'.registry, l.evm, d) == ShadowSupply(l.registry, l.evm, d))
  }

  lemma SameShadowsMirror(l: Ledger, l': Ledger)
    requires SameShadows(l, l')
    ensures Mirror(l) <==> Mirror(l')
  {
    forall d
      ensures Agrees(l, d) <==> Agrees(l', d)
    {
      forall who
        ensures Gap(l, who, d) == Gap(l', who, d) && SupplyGap(l, d) == SupplyGap(l', d)
      {
      }
      assert Gap(l, "", d) == Gap(l', "", d);
    }
  }

  lemma RegisterCoinKeeps(l: Ledger, denom: Denom, deploys: map<Denom, Contract>)
    requires RegistryOk(l.registry) && Fresh(l, deploys) && RegisterCoin(l, denom, deploys).Ok?
    ensures var l' := RegisterCoin(l, denom, deploys).value;
            RegistryOk(l'.registry) && Fresh(l', deploys) && SameShadows(l, l')
  {
    var l' := RegisterCoin(l, denom, deploys).value;
    AddKeeps(l.registry, TokenPair(deploys[denom], denom, Module));
    forall d | d in deploys && d !in l'.registry.byDenom
      ensures Unused(l', deploys[d])
    {
      assert Unused(l, deploys[d]) && deploys[d] != deploys[denom];
    }
  }

  lemma {:induction false} RegisterMissingKeeps(l: Ledger, native: seq<Coin>, deploys: map<Denom, Contract>)
    requires RegistryOk(l.registry) && Fresh(l, deploys) && RegisterMissing(l, native, deploys).Ok?
    ensures var l' := RegisterMissing(l, native, deploys).value; RegistryOk(l'.registry) && SameShadows(l, l')
    decreases native
  {
    if native == [] {
    } else if IsGas(native[0].denom) || native[0].denom in l.registry.byDenom {
      RegisterMissingKeeps(l, native[1..], deploys);
    } else {
      RegisterCoinKeeps(l, native[0].denom, deploys);
      RegisterMissingKeeps(RegisterCoin(l, native[0].denom, deploys).value, native[1..], deploys);
    }
  }

  lemma MintGap(l: Ledger, b: Bank, l1: Ledger, evm: Bank, to: Address, coins: seq<Coin>, who: Address, d: Denom)
    requires Mirrored(d) && PlainNames(coins) && Erc20Tokens(coins) == []
    requires ApplyAll(l.bank, Calls(None, Some(to), NativeCoins(coins))) == Ok(b)
    requires SameShadows(l.(bank := b), l1) && RegistryOk(l1.registry)
    requires Erc20Send(l1.registry, l1.evm, None, Some(to), NativeCoins(coins), []) == Ok(evm)
    ensures Gap(l1.(evm := evm), who, d) == Gap(l, who, d) && SupplyGap(l1.(evm := evm), d) == SupplyGap(l, d)
  {
    CallsExact(l.bank, None, Some(to), NativeCoins(coins), who, d);
    LegShadows(l1.registry, l1.evm, None, Some(to), coins, who, d);
    NoTokensNoStray(l1.registry, coins, d);
    assert Shadow(l1.registry, l.evm, who, d) == Shadow(l.registry, l.evm, who, d);
    assert ShadowSupply(l1.registry, l.evm, d) == ShadowSupply(l.registry, l.evm, d);
  }

  /** Minting, which registers coins on the way, keeps the ledgers in agreement. */
  lemma MintKeeps(l: Ledger, to: Address, coins: seq<Coin>, deploys: map<Denom, Contract>)
    requires RegistryOk(l.registry) && Mirror(l) && PlainNames(coins) && Fresh(l, deploys)
    ensures MintStep(l, to, coins, deploys).Ok? ==> Mirror(MintStep(l, to, coins, deploys).value)
  {
    if MintStep(l, to, coins, deploys).Ok? {
      var native := NativeCoins(coins);
      var b := ApplyAll(l.bank, Calls(None, Some(to), native)).value;
      MintRegistry(l, to, coins, deploys);
      RegisterMissingKeeps(l.(bank := b), native, deploys);
      var l1 := RegisterMissing(l.(bank := b), native, deploys).value;
      var evm := Erc20Send(l1.registry, l1.evm, None, Some(to), native, []).value;
      forall d | Mirrored(d)
        ensures Agrees(l1.(evm := evm), d)
      {
        assert Agrees(l, d);
        forall who
          ensures Gap(l1.(evm := evm), who, d) == 0 && SupplyGap(l1.(evm := evm), d) == 0
        {
          assert Gap(l, who, d) == 0;
          MintGap(l, b, l1, evm, to, coins, who, d);
        }
        assert Gap(l1.(evm := evm), "", d) == 0;
      }
    }
  }

  lemma FreshBank(l: Ledger, bank: Bank, deploys: map<Denom, Contract>)
    requires Fresh(l, deploys)
    ensures Fresh(l.(bank := bank), deploys)
  {
    forall d | d in deploys && d !in l.registry.byDenom
      ensures Unused(l.(bank := bank), deploys[d])
    {
      assert Unused(l, deploys[d]);
    }
  }

  /** It needs no agreement to keep the registry a bijection. */
  lemma MintRegistry(l: Ledger, to: Address, coins: seq<Coin>, deploys: map<Denom, Contract>)
    requires RegistryOk(l.registry) && Fresh(l, deploys)
    ensures MintStep(l, to, coins, deploys).Ok? ==> RegistryOk(MintStep(l, to, coins, deploys).value.registry)
  {
    if MintStep(l, to, coins, deploys).Ok? {
      var b := ApplyAll(l.bank, Calls(None, Some(to), NativeCoins(coins))).value;
      FreshBank(l, b, deploys);
      RegisterMissingKeeps(l.(bank := b), NativeCoins(coins), deploys);
    }
  }

  lemma RegisterErc20Keeps(l: Ledger, contract: Contract, spelling: string, answers: bool, valid: bool)
    requires RegistryOk(l.registry) && Spells(spelling, contract)
    ensures var r := RegisterErc20(l, contract, spelling, answers, valid);
            r.Ok? ==> RegistryOk(r.value.registry) && (Mirror(l) ==> Mirror(r.value))
  {
    if RegisterErc20(l, contract, spelling, answers, valid).Ok? {
      var l' := RegisterErc20(l, contract, spelling, answers, valid).value;
      CreatedDenomParses(spelling, contract);
      AddKeeps(l.registry, TokenPair(contract, CreateDenom(spelling), External));
      forall d | Mirrored(d) && Agrees(l, d)
        ensures Agrees(l', d)
      {
        assert forall who :: Gap(l, who, d) == 0 ==> Gap(l', who, d) == 0;
      }
    }
  }

  // --- Multi-send -----------------------------------------------------------------

  predicate PlainEntries(entries: seq<Entry>) {
    forall e | e in entries :: PlainNames(e.coins)
  }

  /** Taking an input opens a gap at the bank module's address, of what was taken, and one
      of the stray tokens at the account. */
  lemma InputGap(l: Ledger, e: Entry, who: Address, d: Denom)
    requires RegistryOk(l.registry) && PlainNames(e.coins) && Mirrored(d) && InputStep(l, e).Ok?
    ensures var l', stray := InputStep(l, e).value, Stray(l.registry, e.coins, d);
            && Gap(l', who, d) == Gap(l, who, d) + (if who == e.who then stray else 0)
                                  - (if who == BANK then CoinSum(e.coins, d) + stray else 0)
            && SupplyGap(l', d) == SupplyGap(l, d)
  {
    DebitAllExact(l.bank, e.who, NativeCoins(e.coins), who, d);
    NativeSum(e.coins, d);
    LegShadows(l.registry, l.evm, Some(e.who), Some(BANK), e.coins, who, d);
  }

  /** Paying an output closes them. */
  lemma OutputGap(l: Ledger, e: Entry, who: Address, d: Denom)
    requires RegistryOk(l.registry) && PlainNames(e.coins) && Mirrored(d) && OutputStep(l, e).Ok?
    ensures var l', stray := OutputStep(l, e).value, Stray(l.registry, e.coins, d);
            && Gap(l', who, d) == Gap(l, who, d) - (if who == e.who then stray else 0)
                                  + (if who == BANK then CoinSum(e.coins, d) + stray else 0)
            && SupplyGap(l', d) == SupplyGap(l, d)
  {
    CreditAllExact(l.bank, e.who, NativeCoins(e.coins), who, d);
    NativeSum(e.coins, d);
    LegShadows(l.registry, l.evm, Some(BANK), Some(e.who), e.coins, who, d);
  }

  /** The coins of one account among the entries. */
  function CoinsOf(entries: seq<Entry>, who: Address): seq<Coin> {
    if entries == [] then []
    else (if entries[0].who == who then entries[0].coins else []) + CoinsOf(entries[1..], who)
  }

  lemma {:induction false} NamingConcat(a: seq<Coin>, b: seq<Coin>, c: Contract)
    ensures Naming(a + b, c) == Naming(a, c) + Naming(b, c)
  {
    if a == [] {
      assert a + b == b;
    } else {
      assert (a + b)[1..] == a[1..] + b;
      NamingConcat(a[1..], b, c);
    }
  }

  lemma StrayConcat(r: Registry, a: seq<Coin>, b: seq<Coin>, d: Denom)
    ensures Stray(r, a + b, d) == Stray(r, a, d) + Stray(r, b, d)
  {
    if d in r.byDenom { NamingConcat(a, b, r.byDenom[d].0); }
  }

  lemma {:induction false} EntriesKeepRegistry(l: Ledger, entries: seq<Entry>)
    ensures InputSteps(l, entries).Ok? ==> InputSteps(l, entries).value.registry == l.registry
    ensures OutputSteps(l, entries).Ok? ==> OutputSteps(l, entries).value.registry == l.registry
    decreases entries
  {
    if entries != [] {
      if InputStep(l, entries[0]).Ok? { EntriesKeepRegistry(InputStep(l, entries[0]).value, entries[1..]); }
      if OutputStep(l, entries[0]).Ok? { EntriesKeepRegistry(OutputStep(l, entries[0]).value, entries[1..]); }
    }
  }

  /** While inputs are taken, the ledgers differ at the bank module's address by exactly the
      inputs so far, and at each account by its own stray tokens. */
  lemma {:induction false} InputsLag(l: Ledger, entries: seq<Entry>, who: Address, d: Denom)
    requires RegistryOk(l.registry) && PlainEntries(entries) && Mirrored(d) && InputSteps(l, entries).Ok?
    ensures var l', r, all := InputSteps(l, entries).value, l.registry, EntryCoins(entries);
            && Gap(l', who, d) == Gap(l, who, d) + Stray(r, CoinsOf(entries, who), d)
                                  - (if who == BANK then CoinSum(all, d) + Stray(r, all, d) else 0)
            && SupplyGap(l', d) == SupplyGap(l, d)
    decreases entries
  {
    if entries != [] {
      var e, rest := entries[0], entries[1..];
      assert e in entries && forall x | x in rest :: x in entries;
      InputGap(l, e, who, d);
      InputsLag(InputStep(l, e).value, rest, who, d);
      CoinSumConcat(e.coins, EntryCoins(rest), d);
      StrayConcat(l.registry, e.coins, EntryCoins(rest), d);
      StrayConcat(l.registry, if e.who == who then e.coins else [], CoinsOf(rest, who), d);
    }
  }

  /** While outputs are paid, those differences shrink by exactly the outputs so far. */
  lemma {:induction false} OutputsCatchUp(l: Ledger, entries: seq<Entry>, who: Address, d: Denom)
    requires RegistryOk(l.registry) && PlainEntries(entries) && Mirrored(d) && OutputSteps(l, entries).Ok?
    ensures var l', r, all := OutputSteps(l, entries).value, l.registry, EntryCoins(entries);
            && Gap(l', who, d) == Gap(l, who, d) - Stray(r, CoinsOf(entries, who), d)
                                  + (if who == BANK then CoinSum(all, d) + Stray(r, all, d) else 0)
            && SupplyGap(l', d) == SupplyGap(l, d)
    decreases entries
  {
    if entries != [] {
      var e, rest := entries[0], entries[1..];
      assert e in entries && forall x | x in rest :: x in entries;
      OutputGap(l, e, who, d);
      OutputsCatchUp(OutputStep(l, e).value, rest, who, d);
      CoinSumConcat(e.coins, EntryCoins(rest), d);
      StrayConcat(l.registry, e.coins, EntryCoins(rest), d);
      StrayConcat(l.registry, if e.who == who then e.coins else [], CoinsOf(rest, who), d);
    }
  }

  lemma {:induction false} SumHasCoin(coins: seq<Coin>, d: Denom)
    requires CoinSum(coins, d) > 0
    ensures exists c :: c in coins && c.denom == d
  {
    if coins[0].denom == d {
      assert coins[0] in coins;
    } else {
      SumHasCoin(coins[1..], d);
      var c :| c in coins[1..] && c.denom == d;
      assert c in coins;
    }
  }

  lemma BalancedEverywhere(inputs: seq<Entry>, outputs: seq<Entry>, d: Denom)
    requires Balanced(inputs, outputs)
    ensures CoinSum(EntryCoins(inputs), d) == CoinSum(EntryCoins(outputs), d)
  {
    if CoinSum(EntryCoins(inputs), d) > 0 {
      SumHasCoin(EntryCoins(inputs), d);
    } else if CoinSum(EntryCoins(outputs), d) > 0 {
      SumHasCoin(EntryCoins(outputs), d);
    }
  }

  /** The coins of other denominations. */
  function Others(coins: seq<Coin>, d: Denom): (r: seq<Coin>)
    ensures |r| <= |coins|
  {
    if coins == [] then []
    else if coins[0].denom == d then Others(coins[1..], d)
    else [coins[0]] + Others(coins[1..], d)
  }

  lemma {:induction false} OthersSums(coins: seq<Coin>, d: Denom, e: Denom, c: Contract)
    ensures CoinSum(Others(coins, d), e) == if e == d then 0 else CoinSum(coins, e)
    ensures Naming(coins, c)
              == Naming(Others(coins, d), c) + if IsErc20Denom(d) && ContractOf(d) == c then CoinSum(coins, d) else 0
  {
    if coins != [] {
      OthersSums(coins[1..], d, e, c);
      if coins[0].denom != d {
        var rest := Others(coins[1..], d);
        assert ([coins[0]] + rest)[1..] == rest;
      }
    }
  }

  /** Lists that hold as much of every denomination name every contract as much. */
  lemma {:induction false} NamingSame(a: seq<Coin>, b: seq<Coin>, c: Contract)
    requires forall d :: CoinSum(a, d) == CoinSum(b, d)
    ensures Naming(a, c) == Naming(b, c)
    decreases |a| + |b|
  {
    if a == [] && b == [] {
      return;
    }
    var d := if a != [] then a[0].denom else b[0].denom;
    forall e
      ensures CoinSum(Others(a, d), e) == CoinSum(Others(b, d), e)
    {
      OthersSums(a, d, e, c);
      OthersSums(b, d, e, c);
    }
    OthersSums(a, d, d, c);
    OthersSums(b, d, d, c);
    NamingSame(Others(a, d), Others(b, d), c);
  }

  lemma StraySame(r: Registry, inputs: seq<Entry>, outputs: seq<Entry>, d: Denom)
    requires Balanced(inputs, outputs)
    ensures Stray(r, EntryCoins(inputs), d) == Stray(r, EntryCoins(outputs), d)
  {
    forall e
      ensures CoinSum(EntryCoins(inputs), e) == CoinSum(EntryCoins(outputs), e)
    {
      BalancedEverywhere(inputs, outputs, e);
    }
    if d in r.byDenom { NamingSame(EntryCoins(inputs), EntryCoins(outputs), r.byDenom[d].0); }
  }

  /** A whole multi-send leaves at each account a gap of the stray tokens it put in less
      those it took out, and nothing at the bank module's address. */
  lemma MultiSendGap(l: Ledger, inputs: seq<Entry>, outputs: seq<Entry>, who: Address, d: Denom)
    requires RegistryOk(l.registry) && PlainEntries(inputs) && PlainEntries(outputs) && Mirrored(d)
    requires MultiSendStep(l, inputs, outputs).Ok?
    ensures var l', r := MultiSendStep(l, inputs, outputs).value, l.registry;
            && Gap(l', who, d)
                 == Gap(l, who, d) + Stray(r, CoinsOf(inputs, who), d) - Stray(r, CoinsOf(outputs, who), d)
            && SupplyGap(l', d) == SupplyGap(l, d)
  {
    var l1 := InputSteps(l, inputs).value;
    EntriesKeepRegistry(l, inputs);
    InputsLag(l, inputs, who, d);
    OutputsCatchUp(l1, outputs, who, d);
    BalancedEverywhere(inputs, outputs, d);
    StraySame(l.registry, inputs, outputs, d);
  }

  /** Every account takes out the tokens naming a native coin's contract that it put in. */
  ghost predicate EvenTokens(r: Registry, inputs: seq<Entry>, outputs: seq<Entry>) {
    forall who, d | Mirrored(d) :: Stray(r, CoinsOf(inputs, who), d) == Stray(r, CoinsOf(outputs, who), d)
  }

  lemma MultiSendEven(l: Ledger, inputs: seq<Entry>, outputs: seq<Entry>)
    requires RegistryOk(l.registry) && Mirror(l) && PlainEntries(inputs) && PlainEntries(outputs)
    requires MultiSendStep(l, inputs, outputs).Ok? && EvenTokens(l.registry, inputs, outputs)
    ensures Mirror(MultiSendStep(l, inputs, outputs).value)
  {
    var l', r := MultiSendStep(l, inputs, outputs).value, l.registry;
    forall who, d | Mirrored(d)
      ensures Gap(l', who, d) == 0 && SupplyGap(l', d) == 0
    {
      MirrorGap(l, who, d);
      MultiSendGap(l, inputs, outputs, who, d);
      assert Stray(r, CoinsOf(inputs, who), d) == Stray(r, CoinsOf(outputs, who), d);
    }
    forall d | Mirrored(d)
      ensures SupplyGap(l', d) == 0
    {
      assert Gap(l', "", d) == 0;
    }
    MirrorFrom(l');
  }

  /** A multi-send keeps the ledgers in agreement if and only if, for every account and every
      mirrored contract, the tokens naming it among the account's inputs equal those among
      its outputs. */
  lemma MultiSendKeepsIff(l: Ledger, inputs: seq<Entry>, outputs: seq<Entry>)
    requires RegistryOk(l.registry) && Mirror(l) && PlainEntries(inputs) && PlainEntries(outputs)
    ensures MultiSendStep(l, inputs, outputs).Ok? ==>
              (Mirror(MultiSendStep(l, inputs, outputs).value) <==> EvenTokens(l.registry, inputs, outputs))
  {
    if MultiSendStep(l, inputs, outputs).Ok? {
      var l', r := MultiSendStep(l, inputs, outputs).value, l.registry;
      forall who, d | Mirrored(d)
        ensures Gap(l', who, d) == Stray(r, CoinsOf(inputs, who), d) - Stray(r, CoinsOf(outputs, who), d)
      {
        MirrorGap(l, who, d);
        MultiSendGap(l, inputs, outputs, who, d);
      }
      if EvenTokens(r, inputs, outputs) {
        MultiSendEven(l, inputs, outputs);
      }
      if Mirror(l') {
        forall who, d | Mirrored(d)
          ensures Stray(r, CoinsOf(inputs, who), d) == Stray(r, CoinsOf(outputs, who), d)
        {
          MirrorGap(l', who, d);
        }
      }
    }
  }

  lemma MirrorGap(l: Ledger, who: Address, d: Denom)
    requires Mirror(l) && Mirrored(d)
    ensures Gap(l, who, d) == 0 && SupplyGap(l, d) == 0
  {
    assert Agrees(l, d);
  }

  lemma MirrorFrom(l: Ledger)
    requires forall who, d | Mirrored(d) :: Gap(l, who, d) == 0
    requires forall d | Mirrored(d) :: SupplyGap(l, d) == 0
    ensures Mirror(l)
  {
    forall d | Mirrored(d)
      ensures Agrees(l, d)
    {
      assert SupplyGap(l, d) == 0;
    }
  }
}
