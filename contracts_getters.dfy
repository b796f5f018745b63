/// Address resolution in the getters of `helpers/contracts-getters.ts`:
/// registry key shapes, explicit-address precedence, quote currencies and
/// the asset/aggregator pairing.
module ContractsGetters {
  import opened Base
  import opened MiscUtils
  import opened ContractsHelpers

  // ---------------------------------------------------------------------
  // Registry keys

  /// `${id}.${network}.${marketId}`, the key of a market-scoped contract.
  function MarketKey(id: string, network: string, marketId: string): Path
  {
    [id, network, marketId]
  }

  /// `${contractId}.${network}.${marketId}.vn${symbol}`, the key of an NToken.
  function NTokenKey(contractId: string, network: string, marketId: string, nftSymbol: string): Path
  {
    [contractId, network, marketId, "vn" + nftSymbol]
  }

  /// `${tokenSymbol}EligibilityImpl.${network}.${marketId}`.
  function EligibilityImplKey(tokenSymbol: string, network: string, marketId: string): Path
  {
    MarketKey(tokenSymbol + "EligibilityImpl", network, marketId)
  }

  /// `${id}MockAggregator.${network}`.
  function MockAggregatorKey(id: string, network: string): Path
  {
    GlobalKey(id + "MockAggregator", network)
  }

  // ---------------------------------------------------------------------
  // Resolution

  /// `address || (await store.get(key).value()).address`: a truthy explicit
  /// address wins; otherwise the stored record must exist.
  function ResolveAddress(explicit: Option<Address>, stored: Option<DbRecord>): (r: Result<Address>)
  {
    if Truthy(explicit) then Ok(explicit.value)
    else if stored.Some? then Ok(stored.value.address)
    else Err("Cannot read properties of undefined (reading 'address')")
  }

  /// A global getter such as `getReserveLogic(address?)`.
  function GetGlobalContract(db: Store, id: string, network: string, explicit: Option<Address>): Result<Address>
  {
    ResolveAddress(explicit, Read(db, GlobalKey(id, network)))
  }

  /// A market getter such as `getLendingPool(marketId, address?)`.
  function GetMarketContract(marketDb: Store, id: string, network: string, marketId: string,
                             explicit: Option<Address>): Result<Address>
  {
    ResolveAddress(explicit, Read(marketDb, MarketKey(id, network, marketId)))
  }

  /// The explicit address is used whenever it is truthy, whatever the
  /// registries hold; otherwise the record under the getter's key decides.
  lemma ExplicitAddressFirst(db: Store, marketDb: Store, id: string, network: string, marketId: string,
                             explicit: Option<Address>)
    ensures Truthy(explicit) ==> GetGlobalContract(db, id, network, explicit) == Ok(explicit.value)
    ensures Truthy(explicit) ==> GetMarketContract(marketDb, id, network, marketId, explicit) == Ok(explicit.value)
    ensures !Truthy(explicit) ==>
              (GetGlobalContract(db, id, network, explicit).Ok? <==> GlobalKey(id, network) in db)
              && (GlobalKey(id, network) in db ==>
                    GetGlobalContract(db, id, network, explicit) == Ok(db[GlobalKey(id, network)].address))
    ensures !Truthy(explicit) ==>
              (GetMarketContract(marketDb, id, network, marketId, explicit).Ok? <==>
                 MarketKey(id, network, marketId) in marketDb)
  {
  }

  const LENDING_POOL_ADDRESSES_PROVIDER_REGISTRY := "LendingPoolAddressesProviderRegistry"

  /// `getLendingPoolAddressesProviderRegistry(address?)`: the explicit
  /// address must be a valid non-zero address to be used.
  function GetLendingPoolAddressesProviderRegistry(db: Store, network: string, explicit: Option<Address>): (r: Result<Address>)
  {
    if NotFalsyOrZeroAddress(explicit) then Ok(explicit.value)
    else ResolveAddress(None, Read(db, GlobalKey(LENDING_POOL_ADDRESSES_PROVIDER_REGISTRY, network)))
  }

  /// Unlike the other getters, the registry getter passes over a truthy but
  /// malformed or zero explicit address and reads the registry.
  lemma ProviderRegistryNeedsValidAddress(db: Store, network: string, explicit: Option<Address>)
    ensures NotFalsyOrZeroAddress(explicit) ==>
              GetLendingPoolAddressesProviderRegistry(db, network, explicit) == Ok(explicit.value)
    ensures !NotFalsyOrZeroAddress(explicit) ==>
              GetLendingPoolAddressesProviderRegistry(db, network, explicit) ==
              GetGlobalContract(db, LENDING_POOL_ADDRESSES_PROVIDER_REGISTRY, network, None)
    ensures GetLendingPoolAddressesProviderRegistry(db, network, Some(ZERO_ADDRESS)) ==
            GetGlobalContract(db, LENDING_POOL_ADDRESSES_PROVIDER_REGISTRY, network, None)
    ensures GetGlobalContract(db, LENDING_POOL_ADDRESSES_PROVIDER_REGISTRY, network, Some(ZERO_ADDRESS)) ==
            Ok(ZERO_ADDRESS)
  {
    NotFalsyOrZeroAddressCases(ZERO_ADDRESS);
  }

  /// `getEligibility(marketId, tokenSymbol, address?)`.
  function GetEligibility(marketDb: Store, marketId: string, tokenSymbol: string, network: string,
                          explicit: Option<Address>): Result<Address>
  {
    ResolveAddress(explicit, Read(marketDb, EligibilityImplKey(tokenSymbol, network, marketId)))
  }

  /// `getMockAggregator(id, address?)`.
  function GetMockAggregator(db: Store, id: string, network: string, explicit: Option<Address>): Result<Address>
  {
    ResolveAddress(explicit, Read(db, MockAggregatorKey(id, network)))
  }

  const LENDING_POOL_CONFIGURATOR_IMPL := "LendingPoolConfiguratorImpl"
  const LENDING_POOL_CONFIGURATOR := "LendingPoolConfigurator"

  /// `getLendingPoolConfiguratorImpl(address?)`: a two-segment key read from
  /// the market registry.
  function GetLendingPoolConfiguratorImpl(marketDb: Store, network: string, explicit: Option<Address>): Result<Address>
  {
    ResolveAddress(explicit, Read(marketDb, GlobalKey(LENDING_POOL_CONFIGURATOR_IMPL, network)))
  }

  /// `getLendingPoolConfiguratorProxy(marketId, address?)`.
  function GetLendingPoolConfiguratorProxy(marketDb: Store, marketId: string, network: string,
                                           explicit: Option<Address>): Result<Address>
  {
    GetMarketContract(marketDb, LENDING_POOL_CONFIGURATOR, network, marketId, explicit)
  }

  /// `getNTokenAddressFromDb(marketId, contractId, nftSymbol)`.
  function GetNTokenAddressFromDb(marketDb: Store, marketId: string, contractId: string, nftSymbol: string,
                                  network: string): Result<Address>
  {
    ResolveAddress(None, Read(marketDb, NTokenKey(contractId, network, marketId, nftSymbol)))
  }

  /// `getTreasury(address?)`.
  function GetTreasury(db: Store, network: string, explicit: Option<Address>): Result<Address>
  {
    ResolveAddress(explicit, Read(db, GlobalKey("AaveTreasury", network)))
  }

  // ---------------------------------------------------------------------
  // Which registry writes each getter sees

  /// A global getter reads back the record written under its own key, and a
  /// write under any other key leaves it unchanged.
  lemma GlobalContractRoundTrip(db: Store, id: string, network: string, k: Path, rec: DbRecord)
    ensures GetGlobalContract(db[GlobalKey(id, network) := rec], id, network, None) == Ok(rec.address)
    ensures k != GlobalKey(id, network) ==>
              GetGlobalContract(db[k := rec], id, network, None) == GetGlobalContract(db, id, network, None)
  {
  }

  /// A market getter reads back the record written under its own key, and a
  /// write under any other key leaves it unchanged.
  lemma MarketContractRoundTrip(marketDb: Store, id: string, network: string, marketId: string,
                                k: Path, rec: DbRecord)
    ensures GetMarketContract(marketDb[MarketKey(id, network, marketId) := rec], id, network, marketId, None)
            == Ok(rec.address)
    ensures k != MarketKey(id, network, marketId) ==>
              GetMarketContract(marketDb[k := rec], id, network, marketId, None) ==
              GetMarketContract(marketDb, id, network, marketId, None)
  {
  }

  /// `getEligibility` reads back `${symbol}EligibilityImpl.${network}.${marketId}`
  /// and is blind to writes under every other key.
  lemma EligibilityRoundTrip(marketDb: Store, marketId: string, symbol: string, network: string,
                             k: Path, rec: DbRecord)
    ensures GetEligibility(marketDb[[symbol + "EligibilityImpl", network, marketId] := rec],
                           marketId, symbol, network, None) == Ok(rec.address)
    ensures k != [symbol + "EligibilityImpl", network, marketId] ==>
              GetEligibility(marketDb[k := rec], marketId, symbol, network, None) ==
              GetEligibility(marketDb, marketId, symbol, network, None)
  {
  }

  /// `getMockAggregator` reads back `${id}MockAggregator.${network}` and is
  /// blind to writes under every other key.
  lemma MockAggregatorRoundTrip(db: Store, id: string, network: string, k: Path, rec: DbRecord)
    ensures GetMockAggregator(db[[id + "MockAggregator", network] := rec], id, network, None) == Ok(rec.address)
    ensures k != [id + "MockAggregator", network] ==>
              GetMockAggregator(db[k := rec], id, network, None) == GetMockAggregator(db, id, network, None)
  {
  }

  /// `getLendingPoolConfiguratorImpl` reads back
  /// `LendingPoolConfiguratorImpl.${network}` in the market registry and is
  /// blind to writes under every other key.
  lemma ConfiguratorImplRoundTrip(marketDb: Store, network: string, k: Path, rec: DbRecord)
    ensures GetLendingPoolConfiguratorImpl(marketDb[[LENDING_POOL_CONFIGURATOR_IMPL, network] := rec],
                                           network, None) == Ok(rec.address)
    ensures k != [LENDING_POOL_CONFIGURATOR_IMPL, network] ==>
              GetLendingPoolConfiguratorImpl(marketDb[k := rec], network, None) ==
              GetLendingPoolConfiguratorImpl(marketDb, network, None)
  {
  }

  /// `getNTokenAddressFromDb` reads back
  /// `${contractId}.${network}.${marketId}.vn${symbol}` and is blind to
  /// writes under every other key.
  lemma NTokenRoundTrip(marketDb: Store, marketId: string, contractId: string, symbol: string,
                        network: string, k: Path, rec: DbRecord)
    ensures GetNTokenAddressFromDb(marketDb[[contractId, network, marketId, "vn" + symbol] := rec],
                                   marketId, contractId, symbol, network) == Ok(rec.address)
    ensures k != [contractId, network, marketId, "vn" + symbol] ==>
              GetNTokenAddressFromDb(marketDb[k := rec], marketId, contractId, symbol, network) ==
              GetNTokenAddressFromDb(marketDb, marketId, contractId, symbol, network)
  {
  }

  /// `getTreasury` reads back `AaveTreasury.${network}` and is blind to
  /// writes under every other key.
  lemma TreasuryRoundTrip(db: Store, network: string, k: Path, rec: DbRecord)
    ensures GetTreasury(db[["AaveTreasury", network] := rec], network, None) == Ok(rec.address)
    ensures k != ["AaveTreasury", network] ==>
              GetTreasury(db[k := rec], network, None) == GetTreasury(db, network, None)
  {
  }

  /// The key shapes keep the getters apart: a write under an `${id}.${network}`
  /// key, which is what `registerContractInJsonDb` and
  /// `insertContractAddressInDb` produce, is never seen by a market or NToken
  /// getter, and a market-key write is never seen by an NToken getter.
  lemma WriteShapesSeparate(db: Store, marketDb: Store, id: string, network: string, marketId: string,
                            contractId: string, symbol: string, writtenId: string, writtenNetwork: string,
                            writtenMarket: string, rec: DbRecord)
    ensures GetMarketContract(marketDb[GlobalKey(writtenId, writtenNetwork) := rec], id, network, marketId, None)
            == GetMarketContract(marketDb, id, network, marketId, None)
    ensures GetEligibility(marketDb[GlobalKey(writtenId, writtenNetwork) := rec], marketId, symbol, network, None)
            == GetEligibility(marketDb, marketId, symbol, network, None)
    ensures GetNTokenAddressFromDb(marketDb[GlobalKey(writtenId, writtenNetwork) := rec],
                                   marketId, contractId, symbol, network)
            == GetNTokenAddressFromDb(marketDb, marketId, contractId, symbol, network)
    ensures GetNTokenAddressFromDb(marketDb[MarketKey(writtenId, writtenNetwork, writtenMarket) := rec],
                                   marketId, contractId, symbol, network)
            == GetNTokenAddressFromDb(marketDb, marketId, contractId, symbol, network)
    ensures GetGlobalContract(db[MarketKey(writtenId, writtenNetwork, writtenMarket) := rec], id, network, None)
            == GetGlobalContract(db, id, network, None)
  {
    MarketContractRoundTrip(marketDb, id, network, marketId, GlobalKey(writtenId, writtenNetwork), rec);
    NTokenRoundTrip(marketDb, marketId, contractId, symbol, network, GlobalKey(writtenId, writtenNetwork), rec);
    NTokenRoundTrip(marketDb, marketId, contractId, symbol, network,
                    MarketKey(writtenId, writtenNetwork, writtenMarket), rec);
  }

  // ---------------------------------------------------------------------
  // Libraries

  const RESERVE_LOGIC := "ReserveLogic"
  const NFT_VAULT_LOGIC := "NFTVaultLogic"
  const GENERIC_LOGIC := "GenericLogic"
  const VALIDATION_LOGIC := "ValidationLogic"

  const RESERVE_LOGIC_PATH := "contracts/protocol/libraries/logic/ReserveLogic.sol:ReserveLogic"
  const NFT_VAULT_LOGIC_PATH := "contracts/protocol/libraries/logic/NFTVaultLogic.sol:NFTVaultLogic"
  const VALIDATION_LOGIC_PATH := "contracts/protocol/libraries/logic/ValidationLogic.sol:ValidationLogic"

  /// The library map the lending pool is linked with.
  function LibraryMap(reserveLogic: Address, nftVaultLogic: Address, validationLogic: Address): Dict<Address>
  {
    [(RESERVE_LOGIC_PATH, reserveLogic), (NFT_VAULT_LOGIC_PATH, nftVaultLogic),
     (VALIDATION_LOGIC_PATH, validationLogic)]
  }

  /// `getVinciLibraries()`.
  function GetVinciLibraries(db: Store, network: string): (r: Result<Dict<Address>>)
    ensures r.Ok? <==> GlobalKey(RESERVE_LOGIC, network) in db && GlobalKey(NFT_VAULT_LOGIC, network) in db
                       && GlobalKey(VALIDATION_LOGIC, network) in db
    ensures r.Ok? ==> Keys(r.value) == [RESERVE_LOGIC_PATH, NFT_VAULT_LOGIC_PATH, VALIDATION_LOGIC_PATH]
    ensures r.Ok? ==> r.value == LibraryMap(db[GlobalKey(RESERVE_LOGIC, network)].address,
                                            db[GlobalKey(NFT_VAULT_LOGIC, network)].address,
                                            db[GlobalKey(VALIDATION_LOGIC, network)].address)
  {
    var reserveLogic := GetGlobalContract(db, RESERVE_LOGIC, network, None);
    var nftVaultLogic := GetGlobalContract(db, NFT_VAULT_LOGIC, network, None);
    var validationLogic := GetGlobalContract(db, VALIDATION_LOGIC, network, None);
    if reserveLogic.Err? then Err(reserveLogic.msg)
    else if nftVaultLogic.Err? then Err(nftVaultLogic.msg)
    else if validationLogic.Err? then Err(validationLogic.msg)
    else Ok(LibraryMap(reserveLogic.value, nftVaultLogic.value, validationLogic.value))
  }

  // ---------------------------------------------------------------------
  // Quote currencies and aggregator pairing

  /// `getQuoteCurrencies`.
  function GetQuoteCurrencies(oracleQuoteCurrency: string): (r: seq<string>)
  {
    if oracleQuoteCurrency == "USD" then ["USD"] else ["ETH", "WETH"]
  }

  /// USD is quoted alone; every other input, unknown strings included,
  /// falls to the ETH/WETH default.
  lemma QuoteCurrenciesCases(q: string)
    ensures q == "USD" ==> GetQuoteCurrencies(q) == ["USD"]
    ensures q != "USD" ==> GetQuoteCurrencies(q) == ["ETH", "WETH"]
    ensures GetQuoteCurrencies(q) != []
  {
  }

  /// The `map` in `getPairsTokenAggregator`: each remaining asset with the
  /// aggregator found under its symbol. A symbol without an aggregator makes
  /// `findIndex` return -1 and the destructuring of `entries[-1]` throw.
  function PairWithAggregators(assets: Dict<Address>, aggregators: Dict<Address>): (r: Result<(seq<Address>, seq<Address>)>)
    ensures r.Ok? <==> forall i :: 0 <= i < |assets| ==> assets[i].0 in Keys(aggregators)
    ensures r.Ok? ==> |r.value.0| == |assets| && |r.value.1| == |assets|
    ensures r.Ok? ==> forall i :: 0 <= i < |assets| ==>
              r.value.0[i] == assets[i].1 && Get(aggregators, assets[i].0) == Some(r.value.1[i])
  {
    if assets == [] then Ok(([], []))
    else
      var n := |assets| - 1;
      var prev := PairWithAggregators(assets[..n], aggregators);
      var (symbol, address) := assets[n];
      var index := FindIndex(Keys(aggregators), symbol);
      if prev.Err? then prev
      else if index < 0 then Err(NOT_ITERABLE)
      else Ok((prev.value.0 + [address], prev.value.1 + [aggregators[index].1]))
  }

  /// `getPairsTokenAggregator(assets, aggregators, quoteCurrency)`.
  function GetPairsTokenAggregator(assets: Dict<Address>, aggregators: Dict<Address>,
                                   oracleQuoteCurrency: string): Result<(seq<Address>, seq<Address>)>
  {
    PairWithAggregators(Omit(assets, GetQuoteCurrencies(oracleQuoteCurrency)), aggregators)
  }

  lemma {:induction false} OmitUpToDistinct<V>(obj: Dict<V>, drop: seq<string>, n: nat)
    requires n <= |obj|
    ensures DistinctKeys(OmitUpTo(obj, drop, n))
  {
    if n > 0 {
      OmitUpToDistinct(obj, drop, n - 1);
      var key := obj[n - 1].0;
      if key !in drop {
        PutDistinct(OmitUpTo(obj, drop, n - 1), key, Get(obj, key).value);
      }
    }
  }

  /// Pairing after dropping the symbols in `drop`: no dropped symbol is
  /// output; the asset list is the asset map without them, in map order, and
  /// entry `i` pairs that asset's address with the aggregator under the same
  /// symbol. It fails exactly when a remaining symbol has no aggregator.
  lemma PairsAfterOmit(assets: Dict<Address>, aggregators: Dict<Address>, drop: seq<string>)
    requires DistinctKeys(assets)
    ensures var remaining := Omit(assets, drop);
            && Keys(remaining) == FilterOut(Keys(assets), drop)
            && (PairWithAggregators(remaining, aggregators).Ok? <==>
                  forall s :: s in Keys(remaining) ==> s in Keys(aggregators))
    ensures var r := PairWithAggregators(Omit(assets, drop), aggregators);
            var symbols := FilterOut(Keys(assets), drop);
            r.Ok? ==>
              && |r.value.0| == |symbols| == |r.value.1|
              && forall i :: 0 <= i < |symbols| ==>
                   symbols[i] !in drop
                   && Get(assets, symbols[i]) == Some(r.value.0[i])
                   && Get(aggregators, symbols[i]) == Some(r.value.1[i])
  {
    var remaining := Omit(assets, drop);
    OmitKeyOrder(assets, drop);
    OmitUpToDistinct(assets, drop, |assets|);
    var r := PairWithAggregators(remaining, aggregators);
    if r.Ok? {
      var symbols := FilterOut(Keys(assets), drop);
      forall i | 0 <= i < |symbols|
        ensures symbols[i] !in drop
        ensures Get(assets, symbols[i]) == Some(r.value.0[i])
      {
        assert symbols[i] == remaining[i].0;
        assert symbols[i] in symbols;
        GetAt(remaining, i);
        OmitGet(assets, drop, symbols[i]);
      }
    }
  }

  /// `getPairsTokenAggregator` never carries a quote currency, pairs the
  /// remaining assets in map order with their aggregators, and fails exactly
  /// when one of them has none.
  lemma PairsTokenAggregatorSpec(assets: Dict<Address>, aggregators: Dict<Address>, q: string)
    requires DistinctKeys(assets)
    ensures var r := GetPairsTokenAggregator(assets, aggregators, q);
            var symbols := FilterOut(Keys(assets), GetQuoteCurrencies(q));
            && (r.Ok? <==> forall s :: s in symbols ==> s in Keys(aggregators))
            && (r.Ok? ==>
                  && |r.value.0| == |symbols| == |r.value.1|
                  && forall i :: 0 <= i < |symbols| ==>
                       symbols[i] !in GetQuoteCurrencies(q)
                       && Get(assets, symbols[i]) == Some(r.value.0[i])
                       && Get(aggregators, symbols[i]) == Some(r.value.1[i]))
  {
    PairsAfterOmit(assets, aggregators, GetQuoteCurrencies(q));
  }
}
