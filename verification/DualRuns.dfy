/**
 Whole runs of operations on the two ledgers: after which of them the pair registry is a
 bijection and the ledgers agree, with what breaks either.
 */
module DualRuns {
  import opened Results
  import opened Bank
  import opened Denoms
  import opened PairRegistry
  import opened DualLedger
  import opened DualMirror
  import opened DualSuccess
  import opened Runs

  datatype Op =
    | Send(from: Address, to: Address, coins: seq<Coin>)
    | Delegate(from: Address, to: Address, coins: seq<Coin>)
    | MintTo(to: Address, coins: seq<Coin>, deploys: map<Denom, Contract>)
    | BurnFrom(from: Address, coins: seq<Coin>)
    | MultiSend(inputs: seq<Entry>, outputs: seq<Entry>)
    | RegisterNative(denom: Denom, deploys: map<Denom, Contract>)
    | RegisterToken(contract: Contract, spelling: string, answers: bool, valid: bool)
    | DeletePair(pair: TokenPair)

  function OpStep(l: Ledger, op: Op): Result<Ledger> {
    match op
    case Send(from, to, coins) => SendStep(l, from, to, coins)
    case Delegate(from, to, coins) => DelegateStep(l, from, to, coins)
    case MintTo(to, coins, deploys) => MintStep(l, to, coins, deploys)
    case BurnFrom(from, coins) => BurnStep(l, from, coins)
    case MultiSend(inputs, outputs) => MultiSendStep(l, inputs, outputs)
    case RegisterNative(denom, deploys) => RegisterCoin(l, denom, deploys)
    case RegisterToken(contract, spelling, answers, valid) => RegisterErc20(l, contract, spelling, answers, valid)
    case DeletePair(pair) => Ok(l.(registry := l.registry.Remove(pair)))
  }

  /** An operation that fails leaves no trace. */
  function OpNext(l: Ledger, op: Op): Ledger {
    var r := OpStep(l, op);
    if r.Ok? then r.value else l
  }

  /** What the chain around the ledgers sees to: coins' names are not addresses, contracts
      are deployed at new addresses, and a denomination spells its contract. */
  ghost predicate Sane(l: Ledger, op: Op) {
    match op
    case Send(_, _, coins) => PlainNames(coins)
    case Delegate(_, _, coins) => PlainNames(coins)
    case MintTo(_, coins, deploys) => PlainNames(coins) && Fresh(l, deploys)
    case BurnFrom(_, coins) => PlainNames(coins)
    case MultiSend(inputs, outputs) => PlainEntries(inputs) && PlainEntries(outputs)
    case RegisterNative(_, deploys) => Fresh(l, deploys)
    case RegisterToken(contract, spelling, _, _) => Spells(spelling, contract)
    case DeletePair(_) => true
  }

  // --- The registry over a run ----------------------------------------------------

  lemma RegisterNativeKeeps(l: Ledger, denom: Denom, deploys: map<Denom, Contract>)
    requires RegistryOk(l.registry) && Fresh(l, deploys)
    ensures RegisterCoin(l, denom, deploys).Ok? ==>
              RegistryOk(RegisterCoin(l, denom, deploys).value.registry)
                  && SameShadows(l, RegisterCoin(l, denom, deploys).value)
  {
    if RegisterCoin(l, denom, deploys).Ok? { RegisterCoinKeeps(l, denom, deploys); }
  }

  ghost predicate Paired(l: Ledger) {
    RegistryOk(l.registry)
  }

  /** A deletion is of a removable pair. */
  ghost predicate DeletesRemovable(l: Ledger, op: Op) {
    op.DeletePair? ==> Removable(l.registry, op.pair)
  }

  /** One operation keeps the bijection if and only if it does not delete a pair that is
      not removable. */
  lemma OpRegistryIff(l: Ledger, op: Op)
    requires Paired(l) && Sane(l, op)
    ensures Paired(OpNext(l, op)) <==> DeletesRemovable(l, op)
  {
    match op
    case Send(_, _, _) =>
    case Delegate(_, _, _) =>
    case MintTo(to, coins, deploys) => MintRegistry(l, to, coins, deploys);
    case BurnFrom(_, _) =>
    case MultiSend(inputs, outputs) => MultiSendRegistry(l, inputs, outputs);
    case RegisterNative(denom, deploys) => RegisterNativeKeeps(l, denom, deploys);
    case RegisterToken(contract, spelling, answers, valid) => RegisterErc20Keeps(l, contract, spelling, answers, valid);
    case DeletePair(pair) => RemoveKeepsIff(l.registry, pair);
  }

  lemma MultiSendRegistry(l: Ledger, inputs: seq<Entry>, outputs: seq<Entry>)
    ensures MultiSendStep(l, inputs, outputs).Ok? ==> MultiSendStep(l, inputs, outputs).value.registry == l.registry
  {
    EntriesKeepRegistry(l, inputs);
    if InputSteps(l, inputs).Ok? { EntriesKeepRegistry(InputSteps(l, inputs).value, outputs); }
  }

  /** Over every run of operations, with coins and contracts registered on the way, the
      registry is a bijection after every prefix if and only if every deletion is of a
      removable pair. */
  lemma RegistryRunIff(l: Ledger, ops: seq<Op>)
    requires Paired(l) && Each(OpNext, Sane, l, ops)
    ensures Always(OpNext, Paired, l, ops) <==> Each(OpNext, DeletesRemovable, l, ops)
  {
    forall l', op | Paired(l') && Sane(l', op)
      ensures Paired(OpNext(l', op)) <==> DeletesRemovable(l', op)
    {
      OpRegistryIff(l', op);
    }
    RunIff(OpNext, Paired, Sane, DeletesRemovable, l, ops);
  }

  // --- Agreement over a run -------------------------------------------------------

  /** Nobody holds any of a coin. */
  ghost predicate Unheld(b: Bank, d: Denom) {
    b.Supply(d) == 0 && forall who :: b.Balance(who, d) == 0
  }

  /** The operation moves no native coin's contract balance on its own, and forgets no
      contract of a coin that is held. */
  ghost predicate Neutral(l: Ledger, op: Op) {
    match op
    case Send(from, to, coins) => from == to || ForeignTokens(l.registry, coins)
    case MultiSend(inputs, outputs) => EvenTokens(l.registry, inputs, outputs)
    case DeletePair(pair) =>
      && Removable(l.registry, pair)
      && (pair.Id() in l.registry.pairs && Mirrored(pair.denom) ==> Unheld(l.bank, pair.denom))
    case _ => true
  }

  ghost predicate Harmless(l: Ledger, op: Op) {
    OpStep(l, op).Err? || Neutral(l, op)
  }

  /** Both ledgers tell the same, and the registry is a bijection. */
  ghost predicate Sound(l: Ledger) {
    RegistryOk(l.registry) && Mirror(l)
  }

  /** Deleting a registered pair changes no other coin's shadow, and empties its own. */
  lemma DeletedGap(l: Ledger, pair: TokenPair, who: Address, d: Denom)
    requires RegistryOk(l.registry) && pair.Id() in l.registry.pairs
    ensures var l' := l.(registry := l.registry.Remove(pair));
            if d == pair.denom then Gap(l', who, d) == l.bank.Balance(who, d) && SupplyGap(l', d) == l.bank.Supply(d)
            else Gap(l', who, d) == Gap(l, who, d) && SupplyGap(l', d) == SupplyGap(l, d)
  {
  }

  lemma DeletedAgrees(l: Ledger, pair: TokenPair, d: Denom)
    requires RegistryOk(l.registry) && pair.Id() in l.registry.pairs && Agrees(l, d)
    ensures Agrees(l.(registry := l.registry.Remove(pair)), d) <==> d != pair.denom || Unheld(l.bank, d)
  {
    forall who
      ensures var l' := l.(registry := l.registry.Remove(pair));
              if d == pair.denom then Gap(l', who, d) == l.bank.Balance(who, d) else Gap(l', who, d) == Gap(l, who, d)
    {
      DeletedGap(l, pair, who, d);
    }
    DeletedGap(l, pair, "", d);
  }

  lemma DeleteKeepsIff(l: Ledger, pair: TokenPair)
    requires Sound(l) && Removable(l.registry, pair)
    ensures Mirror(l.(registry := l.registry.Remove(pair))) <==>
              (pair.Id() in l.registry.pairs && Mirrored(pair.denom) ==> Unheld(l.bank, pair.denom))
  {
    if pair.Id() !in l.registry.pairs {
      assert l.registry.Remove(pair) == l.registry;
    } else {
      forall d | Mirrored(d)
        ensures Agrees(l.(registry := l.registry.Remove(pair)), d) <==> d != pair.denom || Unheld(l.bank, d)
      {
        assert Agrees(l, d);
        DeletedAgrees(l, pair, d);
      }
    }
  }

  /** One operation keeps the ledgers sound if and only if it fails or is neutral. */
  lemma OpKeepsIff(l: Ledger, op: Op)
    requires Sound(l) && Sane(l, op)
    ensures Sound(OpNext(l, op)) <==> Harmless(l, op)
  {
    OpRegistryIff(l, op);
    match op
    case Send(from, to, coins) => SendKeepsIff(l, from, to, coins);
    case Delegate(from, to, coins) => SendKeepsIff(l, from, to, coins);
    case MintTo(to, coins, deploys) => MintKeeps(l, to, coins, deploys);
    case BurnFrom(from, coins) => BurnKeeps(l, from, coins);
    case MultiSend(inputs, outputs) => MultiSendKeepsIff(l, inputs, outputs);
    case RegisterNative(denom, deploys) =>
      RegisterNativeKeeps(l, denom, deploys);
      if OpStep(l, op).Ok? { SameShadowsMirror(l, OpStep(l, op).value); }
    case RegisterToken(contract, spelling, answers, valid) => RegisterErc20Keeps(l, contract, spelling, answers, valid);
    case DeletePair(pair) => if Removable(l.registry, pair) { DeleteKeepsIff(l, pair); }
  }

  /** Over every run, each balance and each supply of every native coin but the gas coin is
      equal in the bank and in its contract after every prefix, and the registry a
      bijection, if and only if every operation that succeeds is neutral. */
  lemma OpsKeepIff(l: Ledger, ops: seq<Op>)
    requires Sound(l) && Each(OpNext, Sane, l, ops)
    ensures Always(OpNext, Sound, l, ops) <==> Each(OpNext, Harmless, l, ops)
  {
    forall l', op | Sound(l') && Sane(l', op)
      ensures Sound(OpNext(l', op)) <==> Harmless(l', op)
    {
      OpKeepsIff(l', op);
    }
    RunIff(OpNext, Sound, Sane, Harmless, l, ops);
  }

  /** While the ledgers are sound, a coin's supply is the same whether asked by its own name or
      by its contract's. */
  lemma SupplyByEitherName(l: Ledger, d: Denom, spelling: string)
    requires Sound(l) && Mirrored(d) && d in l.registry.byDenom && Spells(spelling, l.registry.byDenom[d].0)
    ensures SupplyOf(l, CreateDenom(spelling)) == SupplyOf(l, d) == l.bank.Supply(d)
  {
    CreatedDenomParses(spelling, l.registry.byDenom[d].0);
    MirrorGap(l, "", d);
  }

  /** A chain with nothing on either ledger and no pair registered. */
  function EmptyChain(metadata: set<Denom>): Ledger {
    Ledger(Bank(map[], map[]), Bank(map[], map[]), EMPTY, metadata)
  }

  /** So from an empty chain: the ledgers tell the same after every prefix exactly when every
      operation that succeeds is neutral, and the registry alone is a bijection exactly
      when every deletion is of a removable pair. */
  lemma FreshRunSound(metadata: set<Denom>, ops: seq<Op>)
    requires Each(OpNext, Sane, EmptyChain(metadata), ops)
    ensures Always(OpNext, Sound, EmptyChain(metadata), ops) <==> Each(OpNext, Harmless, EmptyChain(metadata), ops)
    ensures Always(OpNext, Paired, EmptyChain(metadata), ops) <==>
              Each(OpNext, DeletesRemovable, EmptyChain(metadata), ops)
  {
    OpsKeepIff(EmptyChain(metadata), ops);
    RegistryRunIff(EmptyChain(metadata), ops);
  }

  // --- Examples -------------------------------------------------------------------

  /** A chain with five uusm on one account, mirrored by a contract. */
  const ALICE: Address := "alice"
  const BOB: Address := "bob"
  const EXAMPLE := Ledger(
    Bank(map[(ALICE, "uusm") := 5], map["uusm" := 5]),
    Bank(map[(ALICE, ZEROS) := 5], map[ZEROS := 5]),
    EMPTY.Add(TokenPair(ZEROS, "uusm", Module)), {})

  lemma ExampleMirrors()
    ensures RegistryOk(EXAMPLE.registry) && Mirror(EXAMPLE)
  {
    AddKeeps(EMPTY, TokenPair(ZEROS, "uusm", Module));
  }

  lemma ExampleToken()
    ensures var denom := CreateDenom(ZEROS); IsErc20Denom(denom) && ContractOf(denom) == ZEROS && Mirrored("uusm")
  {
    assert Spells(ZEROS, ZEROS) by { assert Lower(ZEROS) == ZEROS; }
    CreatedDenomParses(ZEROS, ZEROS);
    SplitPlain("uusm");
  }

  lemma OneToken(t: Coin)
    requires IsErc20Denom(t.denom) && t.amount > 0
    ensures NativeCoins([t]) == [] && Erc20Tokens([t]) == [t]
              && TokenPayments([t]) == [Coin(ContractOf(t.denom), t.amount)]
  {
    assert [t][1..] == [];
  }

  /** An account that holds a token can move it. */
  lemma TokenLeg(r: Registry, evm: Bank, from: Address, to: Address, t: Coin)
    requires IsErc20Denom(t.denom) && 0 < t.amount <= evm.Balance(from, ContractOf(t.denom))
    ensures Erc20Send(r, evm, Some(from), Some(to), [], [t]).Ok?
    ensures Erc20Send(r, evm, Some(from), Some(to), [], [t]).value.Balance(to, ContractOf(t.denom)) >= t.amount
  {
    OneToken(t);
    var paid := [Coin(ContractOf(t.denom), t.amount)];
    assert [] + paid == paid && paid[1..] == [];
    CallsFunded(evm, from, Some(to), paid);
    CallsExact(evm, Some(from), Some(to), paid, to, ContractOf(t.denom));
  }

  const TOKEN := Coin(CreateDenom(ZEROS), 3)

  /** Sending the token that names uusm's contract succeeds and breaks the agreement. */
  lemma MirrorCanBreak()
    ensures Sound(EXAMPLE)
    ensures var sent := SendStep(EXAMPLE, ALICE, BOB, [TOKEN]); sent.Ok? && !Mirror(sent.value)
  {
    ExampleMirrors();
    ExampleToken();
    OneToken(TOKEN);
    TokenLeg(EXAMPLE.registry, EXAMPLE.evm, ALICE, BOB, TOKEN);
    SendKeepsIff(EXAMPLE, ALICE, BOB, [TOKEN]);
    assert TOKEN in Erc20Tokens([TOKEN]) && !Foreign(EXAMPLE.registry, ZEROS);
  }

  lemma OneEntry(e: Entry, l: Ledger)
    ensures EntryCoins([e]) == e.coins
    ensures InputSteps(l, [e]) == InputStep(l, e) && OutputSteps(l, [e]) == OutputStep(l, e)
  {
    assert [e][1..] == [] && e.coins + [] == e.coins;
  }

  lemma TokenEntry(l: Ledger, who: Address, t: Coin)
    requires IsErc20Denom(t.denom) && 0 < t.amount
    ensures t.amount <= l.evm.Balance(who, ContractOf(t.denom)) ==>
              InputStep(l, Entry(who, [t])).Ok? &&
              InputStep(l, Entry(who, [t])).value.evm.Balance(BANK, ContractOf(t.denom)) >= t.amount
    ensures t.amount <= l.evm.Balance(BANK, ContractOf(t.denom)) ==> OutputStep(l, Entry(who, [t])).Ok?
  {
    OneToken(t);
    if t.amount <= l.evm.Balance(who, ContractOf(t.denom)) { TokenLeg(l.registry, l.evm, who, BANK, t); }
    if t.amount <= l.evm.Balance(BANK, ContractOf(t.denom)) { TokenLeg(l.registry, l.evm, BANK, who, t); }
  }

  lemma TokenMultiSends(l: Ledger, from: Address, to: Address, t: Coin)
    requires IsErc20Denom(t.denom) && 0 < t.amount <= l.evm.Balance(from, ContractOf(t.denom))
    ensures MultiSendStep(l, [Entry(from, [t])], [Entry(to, [t])]).Ok?
  {
    TokenEntry(l, from, t);
    var l1 := InputStep(l, Entry(from, [t])).value;
    TokenEntry(l1, to, t);
    OneEntry(Entry(from, [t]), l);
    OneEntry(Entry(to, [t]), l1);
  }

  lemma CoinsOfOne(e: Entry, who: Address)
    ensures CoinsOf([e], who) == if e.who == who then e.coins else []
  {
    assert [e][1..] == [] && e.coins + [] == e.coins;
  }

  lemma BobGains()
    ensures Stray(EXAMPLE.registry, CoinsOf([Entry(ALICE, [TOKEN])], BOB), "uusm") == 0
    ensures Stray(EXAMPLE.registry, CoinsOf([Entry(BOB, [TOKEN])], BOB), "uusm") == 3
  {
    CoinsOfOne(Entry(ALICE, [TOKEN]), BOB);
    CoinsOfOne(Entry(BOB, [TOKEN]), BOB);
    assert ALICE[0] != BOB[0];
    assert Naming([TOKEN], ZEROS) == 3 by { ExampleToken(); assert [TOKEN][1..] == []; }
  }

  /** So does moving it in a multi-send. */
  lemma MultiSendCanBreak()
    ensures var sent := MultiSendStep(EXAMPLE, [Entry(ALICE, [TOKEN])], [Entry(BOB, [TOKEN])]);
            sent.Ok? && !Mirror(sent.value)
  {
    ExampleMirrors();
    ExampleToken();
    assert NativeCoins([TOKEN]) == [] by { OneToken(TOKEN); }
    TokenMultiSends(EXAMPLE, ALICE, BOB, TOKEN);
    BobGains();
    MultiSendKeepsIff(EXAMPLE, [Entry(ALICE, [TOKEN])], [Entry(BOB, [TOKEN])]);
  }
}
