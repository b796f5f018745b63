/// Pool configuration selection and the fallback chains of
/// `helpers/configuration.ts`.
module Configuration {
  import opened Base
  import opened MiscUtils
  import opened NetworkParams

  const VINCI_POOL := "Vinci"
  const VINCI_BAYC_POOL := "VinciBAYC"
  const VINCI_MAYC_POOL := "VinciMAYC"

  /// The three market configurations shipped with the repository.
  datatype Markets = Markets(vinci: PoolConfig, bayc: PoolConfig, mayc: PoolConfig)

  /// `Object.values(ConfigNames)` interpolated into a template string: the
  /// enumeration's values joined by commas.
  const SUPPORTED_CONFIGS := "Vinci,VinciBAYC,VinciMAYC"

  /// `loadPoolConfig`.
  function LoadPoolConfig(name: string, markets: Markets): (r: Result<PoolConfig>)
    ensures r.Ok? <==> name == VINCI_POOL || name == VINCI_BAYC_POOL || name == VINCI_MAYC_POOL
    ensures name == VINCI_POOL ==> r == Ok(markets.vinci)
    ensures name == VINCI_BAYC_POOL ==> r == Ok(markets.bayc)
    ensures name == VINCI_MAYC_POOL ==> r == Ok(markets.mayc)
    ensures r.Err? ==> r.msg == "Unsupported pool configuration: " + name
                                + " is not one of the supported configs " + SUPPORTED_CONFIGS
  {
    if name == VINCI_POOL then Ok(markets.vinci)
    else if name == VINCI_BAYC_POOL then Ok(markets.bayc)
    else if name == VINCI_MAYC_POOL then Ok(markets.mayc)
    else Err("Unsupported pool configuration: " + name + " is not one of the supported configs " + SUPPORTED_CONFIGS)
  }

  /// `process.env.FORK ? process.env.FORK : DRE.network.name`.
  function CurrentNetwork(network: string, fork: Option<string>): string
  {
    if Truthy(fork) then fork.value else network
  }

  /// `addressList[index]`: undefined outside the list.
  function SignerAt(signers: seq<Address>, index: int): (r: Option<Address>)
    ensures r.Some? <==> 0 <= index < |signers|
  {
    if 0 <= index < |signers| then Some(signers[index]) else None
  }

  /// The per-network admin if truthy, else the signer at `index`.
  function AdminFrom(table: Table<Address>, index: int, network: string, fork: Option<string>,
                     signers: seq<Address>): Option<Address>
  {
    var target := GetParamPerNetwork(table, CurrentNetwork(network, fork), fork);
    if Truthy(target) then target else SignerAt(signers, index)
  }

  /// `getGenesisPoolAdmin`.
  function GetGenesisPoolAdmin(config: PoolConfig, network: string, fork: Option<string>,
                               signers: seq<Address>): Option<Address>
  {
    AdminFrom(config.PoolAdmin, config.PoolAdminIndex, network, fork, signers)
  }

  /// `getEmergencyAdmin`.
  function GetEmergencyAdmin(config: PoolConfig, network: string, fork: Option<string>,
                             signers: seq<Address>): Option<Address>
  {
    AdminFrom(config.EmergencyAdmin, config.EmergencyAdminIndex, network, fork, signers)
  }

  /// The admin getters return the configured admin when it is truthy and
  /// fall back to the signer list only otherwise; a set FORK replaces the
  /// network in the lookup, so the network no longer matters.
  lemma AdminFallback(config: PoolConfig, network: string, other: string, fork: Option<string>,
                      signers: seq<Address>)
    ensures var configured := GetParamPerNetwork(config.PoolAdmin, CurrentNetwork(network, fork), fork);
            GetGenesisPoolAdmin(config, network, fork, signers) ==
              if Truthy(configured) then configured else SignerAt(signers, config.PoolAdminIndex)
    ensures var configured := GetParamPerNetwork(config.EmergencyAdmin, CurrentNetwork(network, fork), fork);
            GetEmergencyAdmin(config, network, fork, signers) ==
              if Truthy(configured) then configured else SignerAt(signers, config.EmergencyAdminIndex)
    ensures Truthy(fork) ==>
              GetGenesisPoolAdmin(config, network, fork, signers) == GetGenesisPoolAdmin(config, other, fork, signers)
              && GetEmergencyAdmin(config, network, fork, signers) == GetEmergencyAdmin(config, other, fork, signers)
    ensures Truthy(fork) && Truthy(Lookup(config.PoolAdmin, fork.value)) ==>
              GetGenesisPoolAdmin(config, network, fork, signers) == Lookup(config.PoolAdmin, fork.value)
  {
  }

  /// `String.prototype.includes`.
  function Contains(s: string, sub: string): (r: bool)
    decreases |s|
  {
    if |s| < |sub| then false
    else s[..|sub|] == sub || Contains(s[1..], sub)
  }

  /// Where the WETH address comes from: the configuration, or a freshly
  /// deployed mock.
  datatype WethSource = Configured(address: Address) | DeployMockWeth

  /// `getWethAddress`.
  function GetWethAddress(config: PoolConfig, network: string, fork: Option<string>): (r: Result<WethSource>)
  {
    var current := CurrentNetwork(network, fork);
    var weth := GetParamPerNetwork(config.WETH, current, fork);
    if Truthy(weth) then Ok(Configured(weth.value))
    else if Contains(current, "main") then Err("WETH not set at mainnet configuration.")
    else Ok(DeployMockWeth)
  }

  /// The three outcomes of `getWethAddress`. Since the per-network lookup
  /// has no case for mainnet, on mainnet without FORK it throws whatever
  /// the configuration holds.
  lemma GetWethAddressCases(config: PoolConfig, network: string, fork: Option<string>)
    ensures var w := GetParamPerNetwork(config.WETH, CurrentNetwork(network, fork), fork);
            && (Truthy(w) ==> GetWethAddress(config, network, fork) == Ok(Configured(w.value)))
            && (!Truthy(w) && Contains(CurrentNetwork(network, fork), "main") ==>
                  GetWethAddress(config, network, fork).Err?)
            && (!Truthy(w) && !Contains(CurrentNetwork(network, fork), "main") ==>
                  GetWethAddress(config, network, fork) == Ok(DeployMockWeth))
    ensures GetWethAddress(config, MAINNET, None).Err?
  {
    assert MAINNET[..4] == "main";
  }

  /// `getQuoteCurrency`.
  function GetQuoteCurrency(config: PoolConfig, network: string, fork: Option<string>): (r: Result<WethSource>)
    ensures config.OracleQuoteCurrency == "ETH" || config.OracleQuoteCurrency == "WETH" ==>
              r == GetWethAddress(config, network, fork)
    ensures config.OracleQuoteCurrency == "USD" ==> r == Ok(Configured(config.UsdAddress))
    ensures r.Ok? ==> config.OracleQuoteCurrency in ["ETH", "WETH", "USD"]
  {
    match config.OracleQuoteCurrency
    case "ETH" => GetWethAddress(config, network, fork)
    case "WETH" => GetWethAddress(config, network, fork)
    case "USD" => Ok(Configured(config.UsdAddress))
    case _ => Err("Quote " + config.OracleQuoteCurrency + " currency not set. Add a new case to getQuoteCurrency switch")
  }

  /// `getTreasuryAddress`.
  function GetTreasuryAddress(config: PoolConfig, network: string, fork: Option<string>): (r: Option<Address>)
    ensures Truthy(fork) ==> r == Lookup(config.ReserveFactorTreasuryAddress, fork.value)
    ensures !Truthy(fork) ==> r == GetParamPerNetwork(config.ReserveFactorTreasuryAddress, network, None)
  {
    GetParamPerNetwork(config.ReserveFactorTreasuryAddress, CurrentNetwork(network, fork), fork)
  }

  /// `getLendingRateOracles`: the common rates whose symbol is a reserve of
  /// the current network. The filter reads `Object.keys(ReserveAssets[network])`
  /// and so throws as soon as it runs on a network without reserve assets.
  function GetLendingRateOracles(config: PoolConfig, network: string, fork: Option<string>): (r: Result<Dict<string>>)
  {
    var raw := config.LendingRateOracleRatesCommon;
    var assets := Lookup(config.ReserveAssets, CurrentNetwork(network, fork));
    if assets.None? then
      (if raw == [] then Ok([]) else Err("Cannot convert undefined or null to object"))
    else
      var reserves := Keys(assets.value);
      Ok(PutAll([], raw, FilterKeys(Keys(raw), k => k in reserves)))
  }

  /// A rate entry survives exactly when its symbol is a reserve asset of the
  /// current network, with its own value; it fails only when there are
  /// rates to filter and no reserve assets for the network.
  lemma GetLendingRateOraclesSpec(config: PoolConfig, network: string, fork: Option<string>, k: string)
    ensures var assets := Lookup(config.ReserveAssets, CurrentNetwork(network, fork));
            GetLendingRateOracles(config, network, fork).Err? <==>
              assets.None? && config.LendingRateOracleRatesCommon != []
    ensures var assets := Lookup(config.ReserveAssets, CurrentNetwork(network, fork));
            var r := GetLendingRateOracles(config, network, fork);
            r.Ok? ==>
              Get(r.value, k) == (if assets.Some? && k in Keys(assets.value)
                                  then Get(config.LendingRateOracleRatesCommon, k) else None)
  {
    var raw := config.LendingRateOracleRatesCommon;
    var assets := Lookup(config.ReserveAssets, CurrentNetwork(network, fork));
    if assets.Some? {
      var reserves := Keys(assets.value);
      FilterMapByGet(raw, [], k => k in reserves, k);
    }
  }
}
