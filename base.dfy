/// Vocabulary shared by the deployment helpers: addresses, per-network
/// tables, JavaScript objects (ordered by insertion), the registry store,
/// the market parameter records and the transactions the helpers submit.
module Base {

  type Address = string

  /// The all-zero address the helpers use as "not configured".
  const ZERO_ADDRESS: Address := "0x0000000000000000000000000000000000000000"

  datatype Option<T> = None | Some(value: T)

  /// A helper either returns a value or throws; `Err` carries the message.
  datatype Result<T> = Ok(value: T) | Err(msg: string)

  /// The `TypeError` V8 throws when `const [a, b] = undefined` destructures
  /// the `undefined` that `entries[-1]` reads.
  const NOT_ITERABLE := "undefined is not iterable (cannot read property Symbol(Symbol.iterator))"

  /// JavaScript truthiness of a string that may be `undefined`:
  /// both `undefined` and the empty string are falsy.
  predicate Truthy(s: Option<string>)
  {
    s.Some? && s.value != ""
  }

  // ---------------------------------------------------------------------
  // Networks

  const LOCALHOST := "localhost"
  const VINCI := "vinci"
  const KOVAN := "kovan"
  const HARDHAT := "hardhat"
  const BUIDLEREVM := "buidlerevm"
  const RINKEBY := "rinkeby"
  const MAINNET := "mainnet"

  /// The members of the network enumeration, in the order the table
  /// builder fills them.
  const NETWORK_NAMES: seq<string> :=
    [LOCALHOST, VINCI, KOVAN, HARDHAT, BUIDLEREVM, RINKEBY, MAINNET]

  /// An `iParamsPerNetwork<T>` object. A missing key and a key holding
  /// `undefined` read the same.
  type Table<T> = map<string, Option<T>>

  function Lookup<T>(t: Table<T>, network: string): Option<T>
  {
    if network in t then t[network] else None
  }

  // ---------------------------------------------------------------------
  // JavaScript objects

  /// A JavaScript object seen through `Object.entries`: its keys and values
  /// in insertion order.
  type Dict<V> = seq<(string, V)>

  /// `Object.keys`.
  function Keys<V>(d: Dict<V>): (ks: seq<string>)
    ensures |ks| == |d|
    ensures forall i :: 0 <= i < |d| ==> ks[i] == d[i].0
  {
    seq(|d|, i requires 0 <= i < |d| => d[i].0)
  }

  /// No key occurs twice, as in every object JavaScript can build.
  predicate DistinctKeys<V>(d: Dict<V>)
  {
    forall i, j :: 0 <= i < j < |d| ==> d[i].0 != d[j].0
  }

  predicate Distinct(s: seq<string>)
  {
    forall i, j :: 0 <= i < j < |s| ==> s[i] != s[j]
  }

  /// `Array.prototype.findIndex` on a list of strings: the first position
  /// holding `k`, or -1.
  function FindIndex(ks: seq<string>, k: string): (i: int)
    ensures -1 <= i < |ks|
    ensures 0 <= i ==> ks[i] == k && forall j :: 0 <= j < i ==> ks[j] != k
    ensures i < 0 <==> k !in ks
  {
    if ks == [] then -1
    else if ks[0] == k then 0
    else
      var j := FindIndex(ks[1..], k);
      if j < 0 then -1 else j + 1
  }

  /// `obj[k]`, read the way the helpers do it:
  /// `Object.entries(obj)[Object.keys(obj).findIndex(x => x === k)]`.
  function Get<V>(d: Dict<V>, k: string): (r: Option<V>)
    ensures r.Some? <==> k in Keys(d)
  {
    var i := FindIndex(Keys(d), k);
    if i < 0 then None else Some(d[i].1)
  }

  /// `obj[k] = v`: an existing key keeps its position, a new key goes last.
  function Put<V>(d: Dict<V>, k: string, v: V): (r: Dict<V>)
  {
    var i := FindIndex(Keys(d), k);
    if i < 0 then d + [(k, v)] else d[i := (k, v)]
  }

  lemma FindIndexAppend(ks: seq<string>, x: string, k: string)
    ensures FindIndex(ks + [x], k) ==
            (if k in ks then FindIndex(ks, k) else if x == k then |ks| else -1)
  {
    var i := FindIndex(ks + [x], k);
    if k in ks {
      var j := FindIndex(ks, k);
      assert (ks + [x])[j] == k;
    } else if x == k {
      assert (ks + [x])[|ks|] == k;
    }
  }

  /// Reading an object extended by one entry with a new key.
  lemma GetAppend<V>(d: Dict<V>, k: string, v: V, k': string)
    ensures Get(d + [(k, v)], k') ==
            (if k' in Keys(d) then Get(d, k') else if k' == k then Some(v) else None)
  {
    assert Keys(d + [(k, v)]) == Keys(d) + [k];
    FindIndexAppend(Keys(d), k, k');
  }

  /// Reading back what `Put` wrote, and reading any other key through it.
  lemma PutGet<V>(d: Dict<V>, k: string, v: V, k': string)
    ensures Get(Put(d, k, v), k') == if k' == k then Some(v) else Get(d, k')
  {
    var i := FindIndex(Keys(d), k);
    if i < 0 {
      assert Keys(d + [(k, v)]) == Keys(d) + [k];
      FindIndexAppend(Keys(d), k, k');
    } else {
      assert Keys(d[i := (k, v)]) == Keys(d);
    }
  }

  /// `Put` adds its key to the key list once, at the end, or not at all.
  lemma PutKeys<V>(d: Dict<V>, k: string, v: V)
    ensures k in Keys(d) ==> Keys(Put(d, k, v)) == Keys(d)
    ensures k !in Keys(d) ==> Keys(Put(d, k, v)) == Keys(d) + [k]
  {
    var i := FindIndex(Keys(d), k);
    if i < 0 {
      assert Keys(d + [(k, v)]) == Keys(d) + [k];
    } else {
      assert Keys(d[i := (k, v)]) == Keys(d);
    }
  }

  /// `Put` never repeats a key.
  lemma PutDistinct<V>(d: Dict<V>, k: string, v: V)
    requires DistinctKeys(d)
    ensures DistinctKeys(Put(d, k, v))
  {
    PutKeys(d, k, v);
    var r := Put(d, k, v);
    assert forall i :: 0 <= i < |r| ==> r[i].0 == Keys(r)[i];
  }

  /// In an object without repeated keys, the last key is not among the
  /// earlier ones.
  lemma LastKeyFresh<V>(d: Dict<V>)
    requires DistinctKeys(d) && d != []
    ensures d[|d| - 1].0 !in Keys(d[..|d| - 1])
  {
    var n := |d| - 1;
    forall j | 0 <= j < n
      ensures Keys(d[..n])[j] != d[n].0
    {
      assert Keys(d[..n])[j] == d[j].0;
    }
  }

  /// In an object without repeated keys, entry `i` is what its key reads.
  lemma GetAt<V>(d: Dict<V>, i: int)
    requires DistinctKeys(d) && 0 <= i < |d|
    ensures Get(d, d[i].0) == Some(d[i].1)
  {
    var j := FindIndex(Keys(d), d[i].0);
    assert Keys(d)[i] == d[i].0;
  }

  // ---------------------------------------------------------------------
  // Registry store

  /// A dotted registry key split at its dots, as lodash's `set`/`get` read it.
  type Path = seq<string>

  /// A registry record: `{address, deployer}`, or `{address}` alone.
  datatype DbRecord = DbRecord(address: Address, deployer: Option<Address>)

  /// The JSON registry: one record per path.
  type Store = map<Path, DbRecord>

  function Read(db: Store, p: Path): Option<DbRecord>
  {
    if p in db then Some(db[p]) else None
  }

  // ---------------------------------------------------------------------
  // Market parameters (IReserveParams, INFTVaultParams, IBaseConfiguration)

  datatype Strategy = Strategy(name: string)

  datatype ReserveParams = ReserveParams(
    name: string,
    symbol: string,
    vTokenImpl: string,
    reserveFactor: string,
    strategy: Strategy,
    borrowingEnabled: bool,
    stableBorrowRateEnabled: bool,
    reserveDecimals: string,
    baseLTVAsCollateral: string,
    liquidationThreshold: string,
    liquidationBonus: string)

  datatype Eligibility = Eligibility(name: string, args: seq<int>)

  datatype NFTVaultParams = NFTVaultParams(
    name: string,
    symbol: string,
    nTokenImpl: string,
    lockdropExpiration: string,
    eligibility: Eligibility,
    baseLTVAsCollateral: string,
    liquidationThreshold: string,
    liquidationBonus: string)

  /// The fields of a pool configuration the helpers read. `AddressParams`
  /// holds the per-network address fields read by name (`poolConfig[id]`).
  datatype PoolConfig = PoolConfig(
    MarketId: string,
    VTokenNamePrefix: string,
    NTokenNamePrefix: string,
    VariableDebtTokenNamePrefix: string,
    PoolAdmin: Table<Address>,
    PoolAdminIndex: int,
    EmergencyAdmin: Table<Address>,
    EmergencyAdminIndex: int,
    WETH: Table<Address>,
    ReserveFactorTreasuryAddress: Table<Address>,
    ReserveAssets: Table<Dict<Address>>,
    UsdAddress: Address,
    OracleQuoteCurrency: string,
    BaseURI: string,
    LendingRateOracleRatesCommon: Dict<string>,
    ReservesConfig: Dict<ReserveParams>,
    NFTVaultConfig: Dict<NFTVaultParams>,
    AddressParams: map<string, Table<Address>>)

  /// `poolConfig[id]` for a per-network address field.
  function ConfigParam(config: PoolConfig, id: string): Option<Table<Address>>
  {
    if id in config.AddressParams then Some(config.AddressParams[id]) else None
  }

  // ---------------------------------------------------------------------
  // Transactions

  type Byte = b: int | 0 <= b < 256

  /// `InitNFTVaultInput` of the configurator.
  datatype NFTVaultInput = NFTVaultInput(
    nTokenImpl: Address,
    underlyingAsset: Address,
    underlyingAssetName: string,
    nTokenName: string,
    nTokenSymbol: string,
    baseURI: string,
    params: string,
    eligibility: Address,
    eligibilityParams: seq<Byte>)

  /// `InitReserveInput` of the configurator.
  datatype ReserveInput = ReserveInput(
    vTokenImpl: Address,
    stableDebtTokenImpl: Address,
    variableDebtTokenImpl: Address,
    underlyingAssetDecimals: string,
    interestRateStrategyAddress: Address,
    underlyingAsset: Address,
    treasury: Address,
    incentivesController: Address,
    underlyingAssetName: string,
    vTokenName: string,
    vTokenSymbol: string,
    variableDebtTokenName: string,
    variableDebtTokenSymbol: string,
    stableDebtTokenName: string,
    stableDebtTokenSymbol: string,
    params: string)

  /// `UpdateNTokenInput` of the configurator; `asset` is `undefined` for a
  /// vault without a token address.
  datatype UpdateNTokenInput = UpdateNTokenInput(
    asset: Option<Address>,
    name: string,
    symbol: string,
    implementation: Address,
    params: string,
    baseURI: string)

  /// A proxy `initialize` call's encoded payload: function name and arguments.
  datatype Calldata = Calldata(fn: string, args: seq<int>)

  /// What the helpers send to the chain, in the order they send it.
  /// `Register` is a write to a local registry, logged in the same trace so
  /// that its order relative to the transactions is visible.
  datatype Tx =
    | DeployTx(contract: string, address: Address, args: seq<string>, links: Dict<Address>)
    | WaitDeployment(address: Address)
    | Register(path: Path, record: DbRecord)
    | Verify(id: string, address: Address, args: seq<string>)
    | InitializeProxy(proxy: Address, impl: Address, admin: Address, data: Calldata)
    | BatchInitNFTVault(configurator: Address, vaults: seq<NFTVaultInput>)
    | BatchInitReserve(configurator: Address, reserves: seq<ReserveInput>)
    | ConfigureNFTVaultAsCollateral(configurator: Address, asset: Address,
                                    ltv: string, threshold: string, bonus: string)
    | UpdateNFTVaultActionExpiration(configurator: Address, asset: Address, expiration: string)
    | EnableBorrowingOnReserve(configurator: Address, asset: Address, stableBorrowing: bool)
    | SetReserveFactor(configurator: Address, asset: Address, factor: string)
    | UpdateNToken(configurator: Address, input: UpdateNTokenInput)
    | SetMarketBorrowRate(oracle: Address, asset: Address, rate: string)
    | SetAssetPrice(oracle: Address, asset: Address, price: string)
}
