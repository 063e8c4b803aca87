/**
 Denominations as strings: which name the gas coin, which name an ERC-20 contract, and
 which contract they name.
 */
module Denoms {
  import opened Results

  /** A contract address: forty lower-case hexadecimal digits. */
  type Contract = string

  const PREFIX: string := "erc20"

  predicate IsHexDigit(c: char) {
    '0' <= c <= '9' || 'a' <= c <= 'f' || 'A' <= c <= 'F'
  }

  predicate IsHex(s: string) {
    forall i | 0 <= i < |s| :: IsHexDigit(s[i])
  }

  function LowerDigit(c: char): char {
    if 'A' <= c <= 'F' then c - 'A' + 'a' else c
  }

  function Lower(s: string): (r: string)
    ensures |r| == |s|
  {
    seq(|s|, i requires 0 <= i < |s| => LowerDigit(s[i]))
  }

  /** An optional 0x in front is not part of the number. */
  function Digits(s: string): string {
    if |s| >= 2 && s[0] == '0' && (s[1] == 'x' || s[1] == 'X') then s[2..] else s
  }

  predicate IsHexAddress(s: string) {
    |Digits(s)| == 40 && IsHex(Digits(s))
  }

  function HexToAddress(s: string): Contract {
    Lower(Digits(s))
  }

  /** The parts of a string between slashes. */
  function Split(s: string): (parts: seq<string>)
    ensures |parts| >= 1
    decreases |s|
  {
    if s == "" then [""]
    else if s[0] == '/' then [""] + Split(s[1..])
    else
      var rest := Split(s[1..]);
      [[s[0]] + rest[0]] + rest[1..]
  }

  predicate IsErc20Denom(denom: Denom) {
    var parts := Split(denom);
    |parts| == 2 && parts[0] == PREFIX && IsHexAddress(parts[1])
  }

  function ContractOf(denom: Denom): Contract
    requires IsErc20Denom(denom)
  {
    HexToAddress(Split(denom)[1])
  }

  /** The gas coin and its derivatives are not mirrored. */
  predicate IsGas(denom: Denom)
    decreases |denom|
  {
    "iron" <= denom || (denom != "" && IsGas(denom[1..]))
  }

  /** The denomination made for a contract; the address is spelled with its checksum, a
      choice of upper and lower case. */
  function CreateDenom(spelling: string): Denom {
    PREFIX + "/0x" + spelling
  }

  predicate Spells(spelling: string, contract: Contract) {
    |spelling| == 40 && IsHex(spelling) && Lower(spelling) == contract
  }

  lemma {:induction false} SplitPlain(s: string)
    requires '/' !in s
    ensures Split(s) == [s]
    decreases |s|
  {
    if s != "" {
      assert s[0] in s && forall c | c in s[1..] :: c in s;
      SplitPlain(s[1..]);
      assert [s[0]] + s[1..] == s;
    }
  }

  lemma {:induction false} SplitOnce(a: string, b: string)
    requires '/' !in a && '/' !in b
    ensures Split(a + "/" + b) == [a, b]
    decreases |a|
  {
    var s := a + "/" + b;
    if a == "" {
      assert s[1..] == b;
      SplitPlain(b);
    } else {
      assert a[0] in a && forall c | c in a[1..] :: c in a;
      assert s[1..] == a[1..] + "/" + b;
      SplitOnce(a[1..], b);
      assert [a[0]] + a[1..] == a;
    }
  }

  /** The denomination made for a contract names that contract, however it is spelled. */
  lemma CreatedDenomParses(spelling: string, contract: Contract)
    requires Spells(spelling, contract)
    ensures IsErc20Denom(CreateDenom(spelling)) && ContractOf(CreateDenom(spelling)) == contract
  {
    var hex := "0x" + spelling;
    assert Digits(hex) == spelling;
    forall i | 0 <= i < |hex|
      ensures hex[i] != '/'
    {
      assert i >= 2 ==> hex[i] == spelling[i - 2] && IsHexDigit(spelling[i - 2]);
    }
    SplitOnce(PREFIX, hex);
    assert CreateDenom(spelling) == PREFIX + "/" + hex;
  }

  lemma {:induction false} SplitBack(s: string)
    ensures |Split(s)| == 1 ==> s == Split(s)[0] && '/' !in s
    ensures |Split(s)| == 2 ==> s == Split(s)[0] + "/" + Split(s)[1]
    decreases |s|
  {
    if s != "" {
      var parts, rest := Split(s), Split(s[1..]);
      SplitBack(s[1..]);
      assert s == [s[0]] + s[1..];
      if s[0] == '/' {
        assert parts[0] == "" && parts[1..] == rest;
        assert |rest| == 1 ==> s == "" + "/" + rest[0];
      } else {
        assert parts[0] == [s[0]] + rest[0] && parts[1..] == rest[1..];
        assert |rest| == 2 ==> s == ([s[0]] + rest[0]) + "/" + rest[1];
      }
    }
  }

  lemma HexHasNoSlash(hex: string)
    requires IsHexAddress(hex)
    ensures '/' !in hex
  {
    var digits := Digits(hex);
    forall i | 0 <= i < |hex|
      ensures hex[i] != '/'
    {
      if digits != hex {
        assert i >= 2 ==> hex[i] == digits[i - 2] && IsHexDigit(digits[i - 2]);
      } else {
        assert IsHexDigit(digits[i]);
      }
    }
  }

  /** A token's denomination is the prefix and an address, and names the contract there. */
  lemma Erc20Means(denom: Denom)
    ensures IsErc20Denom(denom) <==> exists hex :: IsHexAddress(hex) && denom == "erc20/" + hex
    ensures forall hex | IsHexAddress(hex) && denom == "erc20/" + hex ::
              IsErc20Denom(denom) && ContractOf(denom) == HexToAddress(hex)
  {
    SplitBack(denom);
    forall hex | IsHexAddress(hex) && denom == "erc20/" + hex
      ensures IsErc20Denom(denom) && ContractOf(denom) == HexToAddress(hex)
    {
      HexHasNoSlash(hex);
      SplitOnce(PREFIX, hex);
      assert denom == PREFIX + "/" + hex;
    }
    if IsErc20Denom(denom) {
      var hex := Split(denom)[1];
      assert denom == PREFIX + "/" + hex && PREFIX + "/" == "erc20/";
      assert denom == "erc20/" + hex;
    }
  }

  /** The gas coin and its derivatives have "iron" somewhere in their name. */
  lemma {:induction false} GasMeans(denom: Denom)
    ensures IsGas(denom) <==> exists i :: 0 <= i <= |denom| && "iron" <= denom[i..]
    decreases |denom|
  {
    assert denom[0..] == denom;
    if denom != "" {
      GasMeans(denom[1..]);
      if i :| 0 <= i <= |denom[1..]| && "iron" <= denom[1..][i..] {
        assert denom[1..][i..] == denom[i + 1..];
      }
      if i :| 0 <= i <= |denom| && "iron" <= denom[i..] {
        if i > 0 { assert denom[i..] == denom[1..][i - 1..]; }
      }
    }
  }
}
