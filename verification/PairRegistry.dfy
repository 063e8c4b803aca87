/**
 The registry of token pairs: three stores that must name each other.
 */
module PairRegistry {
  import opened Results
  import opened Denoms

  datatype Owner = Module | External

  datatype TokenPair = TokenPair(contract: Contract, denom: Denom, owner: Owner) {

    /** Pairs are filed under a digest of both names, taken to be collision-free. */
    function Id(): (Contract, Denom) {
      (contract, denom)
    }
  }

  type PairId = (Contract, Denom)

  datatype Registry = Registry(
    pairs: map<PairId, TokenPair>,
    byErc20: map<Contract, PairId>,
    byDenom: map<Denom, PairId>)
  {
    /** Look a pair up by either of its names. */
    function PairIdOf(token: string): Option<PairId> {
      if IsHexAddress(token) then
        (if HexToAddress(token) in byErc20 then Some(byErc20[HexToAddress(token)]) else None)
      else
        (if token in byDenom then Some(byDenom[token]) else None)
    }

    function Add(pair: TokenPair): Registry {
      Registry(pairs[pair.Id() := pair], byErc20[pair.contract := pair.Id()], byDenom[pair.denom := pair.Id()])
    }

    function Remove(pair: TokenPair): Registry {
      Registry(pairs - {pair.Id()}, byErc20 - {pair.contract}, byDenom - {pair.denom})
    }
  }

  const EMPTY := Registry(map[], map[], map[])

  /** Every pair is filed under its own id, and both its names lead to it. */
  predicate PairsNamed(r: Registry) {
    forall id | id in r.pairs ::
      && r.pairs[id].Id() == id
      && id.0 in r.byErc20 && r.byErc20[id.0] == id
      && id.1 in r.byDenom && r.byDenom[id.1] == id
  }

  /** Every name leads to a pair that carries it. */
  predicate NamesPaired(r: Registry) {
    && (forall c | c in r.byErc20 :: r.byErc20[c].0 == c && r.byErc20[c] in r.pairs)
    && (forall d | d in r.byDenom :: r.byDenom[d].1 == d && r.byDenom[d] in r.pairs)
  }

  /** An external token's denomination names its contract. */
  predicate ExternalParse(r: Registry) {
    forall id | id in r.pairs && r.pairs[id].owner.External? :: IsErc20Denom(id.1) && ContractOf(id.1) == id.0
  }

  /** The stores are one bijection between contracts and denominations. */
  predicate RegistryOk(r: Registry) {
    PairsNamed(r) && NamesPaired(r) && ExternalParse(r)
  }

  function PairOf(r: Registry, denom: Denom): TokenPair
    requires RegistryOk(r) && denom in r.byDenom
  {
    r.pairs[r.byDenom[denom]]
  }

  /** Different denominations have different contracts, and different contracts different
      denominations. */
  lemma Bijection(r: Registry, d: Denom, e: Denom, c: Contract)
    requires RegistryOk(r)
    ensures d in r.byDenom && e in r.byDenom && PairOf(r, d).contract == PairOf(r, e).contract ==> d == e
    ensures d in r.byDenom ==> PairOf(r, d).denom == d && r.byErc20[PairOf(r, d).contract] == r.byDenom[d]
    ensures c in r.byErc20 ==> r.byErc20[c].1 in r.byDenom && PairOf(r, r.byErc20[c].1).contract == c
  {
  }

  lemma AddKeeps(r: Registry, pair: TokenPair)
    requires RegistryOk(r) && pair.contract !in r.byErc20 && pair.denom !in r.byDenom
    requires pair.owner.External? ==> IsErc20Denom(pair.denom) && ContractOf(pair.denom) == pair.contract
    ensures RegistryOk(r.Add(pair))
  {
    var r' := r.Add(pair);
    forall id | id in r'.pairs
      ensures r'.pairs[id].Id() == id
      ensures id.0 in r'.byErc20 && r'.byErc20[id.0] == id
      ensures id.1 in r'.byDenom && r'.byDenom[id.1] == id
    {
    }
  }

  /** When removing a pair leaves a registry intact: it was registered, or neither of its
      names was. */
  predicate Removable(r: Registry, pair: TokenPair) {
    pair.Id() in r.pairs || (pair.contract !in r.byErc20 && pair.denom !in r.byDenom)
  }

  lemma RemoveKeeps(r: Registry, pair: TokenPair)
    requires RegistryOk(r) && Removable(r, pair)
    ensures RegistryOk(r.Remove(pair))
  {
    var r' := r.Remove(pair);
    forall id | id in r'.pairs
      ensures id.0 in r'.byErc20 && r'.byErc20[id.0] == id
      ensures id.1 in r'.byDenom && r'.byDenom[id.1] == id
    {
      assert id in r.pairs && id != pair.Id();
    }
    forall c | c in r'.byErc20
      ensures r'.byErc20[c].0 == c && r'.byErc20[c] in r'.pairs
    {
      assert r.byErc20[c] in r.pairs;
    }
    forall d | d in r'.byDenom
      ensures r'.byDenom[d].1 == d && r'.byDenom[d] in r'.pairs
    {
      assert r.byDenom[d] in r.pairs;
    }
  }

  /** Removing a pair keeps the bijection if and only if the pair is registered or both its
      names are free: removing a contract paired with another denomination breaks it. */
  lemma RemoveKeepsIff(r: Registry, pair: TokenPair)
    requires RegistryOk(r)
    ensures RegistryOk(r.Remove(pair)) <==> Removable(r, pair)
  {
    if Removable(r, pair) {
      RemoveKeeps(r, pair);
    } else {
      var r' := r.Remove(pair);
      var id := if pair.contract in r.byErc20 then r.byErc20[pair.contract] else r.byDenom[pair.denom];
      assert id in r'.pairs && (id.0 !in r'.byErc20 || id.1 !in r'.byDenom);
    }
  }

  /** The zero address. */
  const ZEROS: Contract := seq(40, _ => '0')

  /** Such a removal: the contract is paired with another denomination. */
  lemma RemoveCanBreak()
    ensures IsHexAddress(ZEROS) && HexToAddress(ZEROS) == ZEROS
    ensures var r := EMPTY.Add(TokenPair(ZEROS, "uusm", Module));
            RegistryOk(r) && !RegistryOk(r.Remove(TokenPair(ZEROS, "uusd", Module)))
  {
    assert Digits(ZEROS) == ZEROS && Lower(ZEROS) == ZEROS;
    var r := EMPTY.Add(TokenPair(ZEROS, "uusm", Module));
    AddKeeps(EMPTY, TokenPair(ZEROS, "uusm", Module));
    RemoveKeepsIff(r, TokenPair(ZEROS, "uusd", Module));
    assert (ZEROS, "uusd") != (ZEROS, "uusm") by { assert "uusd"[3] != "uusm"[3]; }
  }
}
