/** The chain and token helpers of scripts/utils.ts: the production and test
    chain lists, the spoke-to-hub chain mapping, chain-list validation and
    the symbol-or-address token lookup. */
module ScriptUtils {
  import opened Wrappers

  // ---------------------------------------------------------------------
  // Chains

  /** Test-network spoke chains (Goerli, zkSync Goerli, Mumbai, Arbitrum Goerli). */
  const TestChains: seq<int> := [5, 280, 80001, 421613]

  /** Production spoke chains (Ethereum, Optimism, Polygon, zkSync, Base, Arbitrum). */
  const Chains: seq<int> := [1, 10, 137, 324, 8453, 42161]

  /** Hub chain of the production deployment (Ethereum mainnet). */
  const MainnetHubChainId: int := 1

  /** Hub chain of the test deployment (Goerli). */
  const TestnetHubChainId: int := 5

  datatype ScriptError =
    | UnsupportedSpokePoolChainId(chainId: int)
    | TokenUnrecognised(token: string, chainId: int)

  /** `resolveHubChainId`: production chains map to 1, test chains to 5, and
      any other chain fails the assertion. */
  function ResolveHubChainId(spokeChainId: int): (r: Result<int, ScriptError>)
    ensures spokeChainId in Chains ==> r == Success(MainnetHubChainId)
    ensures spokeChainId in TestChains ==> r == Success(TestnetHubChainId)
    ensures r.Failure? <==> spokeChainId !in Chains + TestChains
    ensures r.Failure? ==> r.error == UnsupportedSpokePoolChainId(spokeChainId)
  {
    if spokeChainId in Chains then Success(MainnetHubChainId)
    else if spokeChainId in TestChains then Success(TestnetHubChainId)
    else Failure(UnsupportedSpokePoolChainId(spokeChainId))
  }

  /** The two lists share no chain, so the mapping is unambiguous. */
  lemma ChainListsDisjoint()
    ensures forall c :: c in Chains ==> c !in TestChains
  {
  }

  /** The result is always one of the two hub chains, and each hub chain is
      itself a known spoke chain that maps to itself, so resolving twice is
      the same as resolving once. */
  lemma ResolveHubChainIdIdempotent(spokeChainId: int)
    requires ResolveHubChainId(spokeChainId).Success?
    ensures ResolveHubChainId(spokeChainId).value in {MainnetHubChainId, TestnetHubChainId}
    ensures ResolveHubChainId(ResolveHubChainId(spokeChainId).value) == ResolveHubChainId(spokeChainId)
  {
  }

  /** `validateChainIds`: every ID must be a production or test chain; the
      scan stops at the first unknown ID (the source logs it there). */
  method ValidateChainIds(chainIds: seq<int>) returns (ok: bool)
    ensures ok <==> forall i :: 0 <= i < |chainIds| ==> chainIds[i] in Chains + TestChains
    ensures ok <==> forall i :: 0 <= i < |chainIds| ==> ResolveHubChainId(chainIds[i]).Success?
  {
    var knownChainIds := Chains + TestChains;
    var i := 0;
    while i < |chainIds|
      invariant 0 <= i <= |chainIds|
      invariant forall k :: 0 <= k < i ==> chainIds[k] in knownChainIds
    {
      if chainIds[i] !in knownChainIds {
        return false;
      }
      i := i + 1;
    }
    return true;
  }

  // ---------------------------------------------------------------------
  // Tokens

  type Address = string

  /** One entry of the contracts package's token map: the token's symbol,
      decimals and per-chain addresses. */
  datatype TokenInfo = TokenInfo(symbol: string, decimals: nat, addresses: map<int, Address>)

  /** The token map as (key, entry) pairs in the object's enumeration order. */
  type TokenSymbolsMap = seq<(string, TokenInfo)>

  /** The resolved token; `address` is absent when the entry has no address
      on the requested chain. */
  datatype ERC20 = ERC20(address: Option<Address>, decimals: nat, symbol: string)

  /** The property key JavaScript uses when indexing an object with
      `undefined`. */
  const UndefinedKey: string := "undefined"

  /** ASCII upper-casing of one character. */
  function UpperChar(c: char): (u: char)
    ensures !('a' <= u <= 'z')
    ensures !('a' <= c <= 'z') ==> u == c
    ensures 'a' <= c <= 'z' ==> 'A' <= u <= 'Z' && u as int - 'A' as int == c as int - 'a' as int
  {
    if 'a' <= c <= 'z' then (c as int - 'a' as int + 'A' as int) as char else c
  }

  /** `String.prototype.toUpperCase` on ASCII text. */
  function ToUpperCase(s: string): (r: string)
    ensures |r| == |s|
    ensures forall i :: 0 <= i < |s| ==> r[i] == UpperChar(s[i])
  {
    seq(|s|, i requires 0 <= i < |s| => UpperChar(s[i]))
  }

  /** Upper-casing is idempotent and leaves no lower-case ASCII letter. */
  lemma ToUpperCaseIdempotent(s: string)
    ensures ToUpperCase(ToUpperCase(s)) == ToUpperCase(s)
    ensures forall i :: 0 <= i < |s| ==> !('a' <= ToUpperCase(s)[i] <= 'z')
  {
  }

  /** Property lookup `TOKEN_SYMBOLS_MAP[key]`: the entry stored under
      `key`, if any (the first one, should a key repeat). */
  function LookupSymbol(tokens: TokenSymbolsMap, key: string): (r: Option<TokenInfo>)
    ensures r.None? <==> forall i :: 0 <= i < |tokens| ==> tokens[i].0 != key
    ensures r.Some? ==>
              exists i :: 0 <= i < |tokens| && tokens[i].0 == key && tokens[i].1 == r.value &&
                          forall j :: 0 <= j < i ==> tokens[j].0 != key
  {
    if |tokens| == 0 then None
    else if tokens[0].0 == key then Some(tokens[0].1)
    else
      var r := LookupSymbol(tokens[1..], key);
      assert r.Some? ==> exists i :: 0 <= i < |tokens[1..]| && tokens[1..][i].0 == key && tokens[1..][i].1 == r.value &&
                                     forall j :: 0 <= j < i ==> tokens[1..][j].0 != key;
      assert r.Some? ==> exists i :: 1 <= i < |tokens| && tokens[i].0 == key && tokens[i].1 == r.value &&
                                     forall j :: 0 <= j < i ==> tokens[j].0 != key;
      r
  }

  /** The entry has exactly `token` as its address on `chainId`. */
  predicate HasAddress(info: TokenInfo, chainId: int, token: Address) {
    chainId in info.addresses && info.addresses[chainId] == token
  }

  /** `Object.values(TOKEN_SYMBOLS_MAP).find(...)`: the first entry, in map
      order, whose address on `chainId` equals `token` exactly. */
  function FindByAddress(tokens: TokenSymbolsMap, chainId: int, token: Address): (r: Option<TokenInfo>)
    ensures r.None? <==> forall i :: 0 <= i < |tokens| ==> !HasAddress(tokens[i].1, chainId, token)
    ensures r.Some? ==>
              exists i :: 0 <= i < |tokens| && tokens[i].1 == r.value && HasAddress(r.value, chainId, token) &&
                          forall j :: 0 <= j < i ==> !HasAddress(tokens[j].1, chainId, token)
  {
    if |tokens| == 0 then None
    else if HasAddress(tokens[0].1, chainId, token) then Some(tokens[0].1)
    else
      var r := FindByAddress(tokens[1..], chainId, token);
      assert r.Some? ==> exists i :: 0 <= i < |tokens[1..]| && tokens[1..][i].1 == r.value &&
                                     forall j :: 0 <= j < i ==> !HasAddress(tokens[1..][j].1, chainId, token);
      assert r.Some? ==> exists i :: 1 <= i < |tokens| && tokens[i].1 == r.value &&
                                     forall j :: 0 <= j < i ==> !HasAddress(tokens[j].1, chainId, token);
      r
  }

  /** `resolveToken`: a non-address is upper-cased and used as the symbol key;
      an address is mapped to the symbol of the first entry holding it (or to
      `undefined`, which JavaScript turns into the key "undefined"); the key
      is then looked up, and a missing entry is an error. */
  function ResolveToken(tokens: TokenSymbolsMap, isAddress: string -> bool, token: string, chainId: int): (r: Result<ERC20, ScriptError>)
    ensures r.Failure? ==> r.error == TokenUnrecognised(token, chainId)
    ensures r.Success? ==>
              exists i :: 0 <= i < |tokens| &&
                          r.value.decimals == tokens[i].1.decimals &&
                          r.value.symbol == tokens[i].1.symbol &&
                          (r.value.address.Some? <==> chainId in tokens[i].1.addresses) &&
                          (r.value.address.Some? ==> r.value.address.value == tokens[i].1.addresses[chainId])
  {
    var symbol :=
      if !isAddress(token) then ToUpperCase(token)
      else match FindByAddress(tokens, chainId, token)
           case Some(info) => info.symbol
           case None => UndefinedKey;
    match LookupSymbol(tokens, symbol)
    case None => Failure(TokenUnrecognised(token, chainId))
    case Some(info) =>
      Success(ERC20(
        if chainId in info.addresses then Some(info.addresses[chainId]) else None,
        info.decimals,
        info.symbol))
  }

  /** Symbol lookup: for a non-address, resolution succeeds exactly when the
      upper-cased token is a key of the map, and returns that entry. */
  lemma ResolveTokenBySymbol(tokens: TokenSymbolsMap, isAddress: string -> bool, token: string, chainId: int)
    requires !isAddress(token)
    ensures ResolveToken(tokens, isAddress, token, chainId).Success? <==>
              exists i :: 0 <= i < |tokens| && tokens[i].0 == ToUpperCase(token)
    ensures ResolveToken(tokens, isAddress, token, chainId).Success? ==>
              var info := LookupSymbol(tokens, ToUpperCase(token)).value;
              ResolveToken(tokens, isAddress, token, chainId).value
                == ERC20(if chainId in info.addresses then Some(info.addresses[chainId]) else None, info.decimals, info.symbol)
  {
  }

  /** The map's shape as the contracts package builds it: keys are distinct,
      every entry is stored under its own symbol, and no entry is stored
      under "undefined". */
  predicate WellFormedTokenMap(tokens: TokenSymbolsMap) {
    && (forall i, j :: 0 <= i < j < |tokens| ==> tokens[i].0 != tokens[j].0)
    && (forall i :: 0 <= i < |tokens| ==> tokens[i].0 == tokens[i].1.symbol)
    && (forall i :: 0 <= i < |tokens| ==> tokens[i].0 != UndefinedKey)
  }

  /** Address lookup: on a well-formed map, resolving an address succeeds
      exactly when some entry holds that exact (case-sensitive) address on
      the chain, and then returns the first such entry with the address
      itself. */
  lemma {:induction false} ResolveTokenByAddress(tokens: TokenSymbolsMap, isAddress: string -> bool, token: string, chainId: int)
    requires isAddress(token)
    requires WellFormedTokenMap(tokens)
    ensures ResolveToken(tokens, isAddress, token, chainId).Success? <==>
              exists i :: 0 <= i < |tokens| && HasAddress(tokens[i].1, chainId, token)
    ensures ResolveToken(tokens, isAddress, token, chainId).Success? ==>
              var info := FindByAddress(tokens, chainId, token).value;
              ResolveToken(tokens, isAddress, token, chainId).value == ERC20(Some(token), info.decimals, info.symbol)
  {
    var found := FindByAddress(tokens, chainId, token);
    if found.Some? {
      var info := found.value;
      var i :| 0 <= i < |tokens| && tokens[i].1 == info && HasAddress(info, chainId, token) &&
               forall j :: 0 <= j < i ==> !HasAddress(tokens[j].1, chainId, token);
      var looked := LookupSymbol(tokens, info.symbol);
      assert tokens[i].0 == info.symbol;
      var k :| 0 <= k < |tokens| && tokens[k].0 == info.symbol && tokens[k].1 == looked.value &&
               forall j :: 0 <= j < k ==> tokens[j].0 != info.symbol;
      assert k == i;
    } else {
      assert LookupSymbol(tokens, UndefinedKey).None?;
    }
  }
}
