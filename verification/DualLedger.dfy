/**
 The two ledgers of the chain: the bank's, and the ERC-20 contracts' in the EVM.  Every
 bank-side operation is carried out on both.  A contract is taken to be the plain ledger
 that EIP-20 describes ("Specification", "Methods"), with mint and burn; it is modelled by
 the same balances and supplies as the bank, with contracts in place of denominations.
 */
module DualLedger {
  import opened Results
  import opened Bank
  import opened Denoms
  import opened PairRegistry

  datatype Ledger = Ledger(bank: Bank, evm: Bank, registry: Registry, metadata: set<Denom>)

  // --- Splitting coins ------------------------------------------------------------

  /** The coins the bank keeps, and those that live only in a contract; a zero amount is
      dropped from either list. */
  function NativeCoins(coins: seq<Coin>): seq<Coin> {
    if coins == [] then []
    else if coins[0].amount > 0 && !IsErc20Denom(coins[0].denom) then [coins[0]] + NativeCoins(coins[1..])
    else NativeCoins(coins[1..])
  }

  function Erc20Tokens(coins: seq<Coin>): (tokens: seq<Coin>)
    ensures forall t | t in tokens :: t.amount > 0 && IsErc20Denom(t.denom)
  {
    if coins == [] then []
    else if coins[0].amount > 0 && IsErc20Denom(coins[0].denom) then [coins[0]] + Erc20Tokens(coins[1..])
    else Erc20Tokens(coins[1..])
  }

  /** How much of one denomination a list of coins holds. */
  function CoinSum(coins: seq<Coin>, denom: Denom): nat {
    if coins == [] then 0
    else (if coins[0].denom == denom then coins[0].amount else 0) + CoinSum(coins[1..], denom)
  }

  // --- The contracts' side --------------------------------------------------------

  /** The contract calls for native coins: the gas coin is skipped, an unregistered coin
      is an error. */
  function Payments(r: Registry, native: seq<Coin>): Result<seq<Coin>> {
    if native == [] then Ok([])
    else if IsGas(native[0].denom) then Payments(r, native[1..])
    else
      var id := r.PairIdOf(native[0].denom);
      :- Need(id.Some?, TokenPairNotFound);
      :- Need(id.value in r.pairs, Panic);
      var rest :- Payments(r, native[1..]);
      Ok([Coin(r.pairs[id.value].contract, native[0].amount)] + rest)
  }

  function TokenPayments(tokens: seq<Coin>): seq<Coin>
    requires forall t | t in tokens :: IsErc20Denom(t.denom)
  {
    if tokens == [] then []
    else [Coin(ContractOf(tokens[0].denom), tokens[0].amount)] + TokenPayments(tokens[1..])
  }

  /** One call: without a sender it mints, without a receiver it burns. */
  function Call(from: Option<Address>, to: Option<Address>, coin: Coin): Move
    requires from.Some? || to.Some?
  {
    if from.None? then Mint(to.value, coin)
    else if to.None? then Burn(from.value, coin)
    else Transfer(from.value, to.value, coin)
  }

  function Calls(from: Option<Address>, to: Option<Address>, coins: seq<Coin>): (moves: seq<Move>)
    requires from.Some? || to.Some?
    ensures |moves| == |coins|
  {
    if coins == [] then [] else [Call(from, to, coins[0])] + Calls(from, to, coins[1..])
  }

  function Erc20Send(r: Registry, evm: Bank, from: Option<Address>, to: Option<Address>, native: seq<Coin>,
                     tokens: seq<Coin>): Result<Bank>
    requires (from.Some? || to.Some?) && forall t | t in tokens :: IsErc20Denom(t.denom)
  {
    var payments :- Payments(r, native);
    ApplyAll(evm, Calls(from, to, payments + TokenPayments(tokens)))
  }

  // --- Registration ---------------------------------------------------------------

  function SupplyOf(l: Ledger, denom: Denom): nat {
    if IsErc20Denom(denom) then l.evm.Supply(ContractOf(denom)) else l.bank.Supply(denom)
  }

  /** Deploy a contract for a coin and register the pair; the address a deployment would
      get is an input. */
  function RegisterCoin(l: Ledger, denom: Denom, deploys: map<Denom, Contract>): Result<Ledger> {
    var registered := denom in l.registry.byDenom;
    :- Need(!IsGas(denom), EvmDenom);
    :- Need(denom in l.metadata, EvmDenom);
    :- Need(!registered, TokenPairAlreadyExists);
    :- Need(SupplyOf(l, denom) > 0, InvalidCoins);
    :- Need(denom in deploys, EvmReverted);
    Ok(l.(registry := l.registry.Add(TokenPair(deploys[denom], denom, Module))))
  }

  /** Register an existing contract, spelled with its checksum.  Whether the contract
      answers the queries for its description, and whether that makes valid metadata,
      are inputs. */
  function RegisterErc20(l: Ledger, contract: Contract, spelling: string, answers: bool, valid: bool): Result<Ledger> {
    var denom := CreateDenom(spelling);
    :- Need(contract !in l.registry.byErc20, TokenPairAlreadyExists);
    :- Need(answers, EvmReverted);
    :- Need(denom !in l.metadata, InternalTokenPair);
    :- Need(denom !in l.registry.byDenom, InternalTokenPair);
    :- Need(valid, InvalidMetadata);
    Ok(l.(registry := l.registry.Add(TokenPair(contract, denom, External)), metadata := l.metadata + {denom}))
  }

  // --- Bank-side operations -------------------------------------------------------

  function SendStep(l: Ledger, from: Address, to: Address, coins: seq<Coin>): Result<Ledger> {
    var native, tokens := NativeCoins(coins), Erc20Tokens(coins);
    var bank :- SendCoins(l.bank, from, to, native);
    var evm :- Erc20Send(l.registry, l.evm, Some(from), Some(to), native, tokens);
    Ok(l.(bank := bank, evm := evm))
  }

  /** Delegation and its reverse: tokens do not qualify. */
  function DelegateStep(l: Ledger, from: Address, to: Address, coins: seq<Coin>): Result<Ledger> {
    var tokens := Erc20Tokens(coins);
    :- Need(tokens == [], InvalidCoins);
    SendStep(l, from, to, coins)
  }

  /** Register every coin that has no pair yet. */
  function RegisterMissing(l: Ledger, native: seq<Coin>, deploys: map<Denom, Contract>): Result<Ledger>
    decreases native
  {
    if native == [] then Ok(l)
    else if IsGas(native[0].denom) || native[0].denom in l.registry.byDenom
      then RegisterMissing(l, native[1..], deploys)
    else
      var l1 :- RegisterCoin(l, native[0].denom, deploys);
      RegisterMissing(l1, native[1..], deploys)
  }

  function MintStep(l: Ledger, to: Address, coins: seq<Coin>, deploys: map<Denom, Contract>): Result<Ledger> {
    var native := NativeCoins(coins);
    :- Need(Erc20Tokens(coins) == [], InvalidCoins);
    var bank :- ApplyAll(l.bank, Calls(None, Some(to), native));
    var l1 :- RegisterMissing(l.(bank := bank), native, deploys);
    var evm :- Erc20Send(l1.registry, l1.evm, None, Some(to), native, []);
    Ok(l1.(evm := evm))
  }

  function BurnStep(l: Ledger, from: Address, coins: seq<Coin>): Result<Ledger> {
    var native := NativeCoins(coins);
    :- Need(Erc20Tokens(coins) == [], InvalidCoins);
    var bank :- ApplyAll(l.bank, Calls(Some(from), None, native));
    var evm :- Erc20Send(l.registry, l.evm, Some(from), None, native, []);
    Ok(l.(bank := bank, evm := evm))
  }

  // --- Multi-send -----------------------------------------------------------------

  /** The bank module's own address, through which contract balances pass. */
  const BANK: Address := "bank"

  datatype Entry = Entry(who: Address, coins: seq<Coin>)

  function EntryCoins(entries: seq<Entry>): seq<Coin> {
    if entries == [] then [] else entries[0].coins + EntryCoins(entries[1..])
  }

  /** Inputs and outputs move the same coins. */
  predicate Balanced(inputs: seq<Entry>, outputs: seq<Entry>) {
    forall c | c in EntryCoins(inputs) + EntryCoins(outputs) ::
      CoinSum(EntryCoins(inputs), c.denom) == CoinSum(EntryCoins(outputs), c.denom)
  }

  function InputStep(l: Ledger, e: Entry): Result<Ledger> {
    var bank :- DebitAll(l.bank, e.who, NativeCoins(e.coins));
    var evm :- Erc20Send(l.registry, l.evm, Some(e.who), Some(BANK), NativeCoins(e.coins), Erc20Tokens(e.coins));
    Ok(l.(bank := bank, evm := evm))
  }

  function OutputStep(l: Ledger, e: Entry): Result<Ledger> {
    var bank := CreditAll(l.bank, e.who, NativeCoins(e.coins));
    var evm :- Erc20Send(l.registry, l.evm, Some(BANK), Some(e.who), NativeCoins(e.coins), Erc20Tokens(e.coins));
    Ok(l.(bank := bank, evm := evm))
  }

  function InputSteps(l: Ledger, entries: seq<Entry>): Result<Ledger>
    decreases entries
  {
    if entries == [] then Ok(l) else
      var l1 :- InputStep(l, entries[0]);
      InputSteps(l1, entries[1..])
  }

  function OutputSteps(l: Ledger, entries: seq<Entry>): Result<Ledger>
    decreases entries
  {
    if entries == [] then Ok(l) else
      var l1 :- OutputStep(l, entries[0]);
      OutputSteps(l1, entries[1..])
  }

  function MultiSendStep(l: Ledger, inputs: seq<Entry>, outputs: seq<Entry>): Result<Ledger> {
    var balanced := Balanced(inputs, outputs);
    :- Need(balanced, InputOutputMismatch);
    var l1 :- InputSteps(l, inputs);
    OutputSteps(l1, outputs)
  }
}
