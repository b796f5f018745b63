/// Per-network and per-pool parameter selection from
/// `helpers/contracts-helpers.ts`.
module NetworkParams {
  import opened Base

  /// The networks `getParamPerNetwork` has a case for.
  predicate HasNetworkCase(network: string)
  {
    network == BUIDLEREVM || network == LOCALHOST || network == VINCI
    || network == KOVAN || network == HARDHAT
  }

  /// `getParamPerNetwork(param, network)` under `process.env.FORK = fork`.
  function GetParamPerNetwork<T>(param: Table<T>, network: string, fork: Option<string>): Option<T>
  {
    if Truthy(fork) then Lookup(param, fork.value)
    else if HasNetworkCase(network) then Lookup(param, network)
    else None
  }

  /// A set FORK decides the entry whatever the network; without it the five
  /// networks with a case read their own entry and every other network,
  /// rinkeby and mainnet included, reads `undefined`.
  lemma GetParamPerNetworkCases<T>(param: Table<T>, network: string, other: string, fork: Option<string>)
    ensures Truthy(fork) ==>
              GetParamPerNetwork(param, network, fork) == Lookup(param, fork.value)
              && GetParamPerNetwork(param, network, fork) == GetParamPerNetwork(param, other, fork)
    ensures !Truthy(fork) && HasNetworkCase(network) ==>
              GetParamPerNetwork(param, network, fork) == Lookup(param, network)
    ensures !Truthy(fork) && !HasNetworkCase(network) ==>
              GetParamPerNetwork(param, network, fork) == None
    ensures !Truthy(fork) ==>
              GetParamPerNetwork(param, RINKEBY, fork) == None
              && GetParamPerNetwork(param, MAINNET, fork) == None
  {
  }

  /// `getOptionalParamAddressPerNetwork`: a missing parameter object reads
  /// as the zero address, a present one as its per-network entry.
  function GetOptionalParamAddressPerNetwork(param: Option<Table<Address>>, network: string, fork: Option<string>): (r: Option<Address>)
    ensures param.None? ==> r == Some(ZERO_ADDRESS)
    ensures param.Some? ==> r == GetParamPerNetwork(param.value, network, fork)
  {
    match param
    case None => Some(ZERO_ADDRESS)
    case Some(t) => GetParamPerNetwork(t, network, fork)
  }

  /// An `iParamsPerPool<T>` object: the only pool is `proto`.
  datatype ParamsPerPool<T> = ParamsPerPool(proto: T)

  /// `getParamPerPool`: every pool name, known or not, selects `proto`.
  function GetParamPerPool<T>(param: ParamsPerPool<T>, pool: string): (r: T)
    ensures r == param.proto
  {
    param.proto
  }

  /// The pool name never changes the selection.
  lemma GetParamPerPoolIgnoresPool<T>(param: ParamsPerPool<T>, pool: string, other: string)
    ensures GetParamPerPool(param, pool) == GetParamPerPool(param, other)
  {
  }
}
