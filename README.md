# Vinci Protocol deployment helpers, modelled in Dafny

The Vinci Protocol deploys and configures its lending markets with the
TypeScript helpers under `helpers/`. This project models those helpers in
Dafny 4.11 and proves properties of the model. The helpers are:

- the address registry and the getters that read it back;
- the bytecode linker;
- the per-network parameter tables and the pool configuration lookups;
- the batch initialisation and configuration of reserves and NFT vaults;
- the oracle set-up and the mock price aggregators;
- the deployment sequences for libraries, token implementations and proxy pairs;
- the small list and object utilities all of them use.

The model has four building blocks:

- **Objects.** A JavaScript object is a `Dict<V>`, the list of its entries in
  insertion order (keys are assumed not to be integer-like; see "Left out"). `Get` reads an entry the way the helpers do: the entry at
  `Object.keys(o).findIndex(...)`.
- **Registries.** The two JSON registries (the global one, and the
  market-scoped one the getters read) are maps from the dotted key, split at
  its dots, to `{address, deployer}` records.
- **The chain.** A deployment session is a `Runtime.Env` object. It holds the
  network and `FORK`, the first signer, the two registries, and a trace of
  everything sent. Contract deployments take fresh addresses `addressAt(n)`
  from a counter.
- **Transactions.** Every transaction (a deployment, a configurator call, an
  oracle call) is one entry appended to that trace. A registry write is logged
  in the same trace, so the order of writes and transactions can be stated.

Helpers that work by changing state (`filterMapBy`, `linkBytecode`, `build`,
the loops of the init, configure and oracle helpers, and the deployers) are
methods with `modifies` clauses and loop invariants. Each is proved against a
specification function, and the lemmas beside that function state what the
source promises. The pure switches and fallback chains are functions.

Modules follow the source files:

| Module | File | Source |
|---|---|---|
| `Base` | `base.dfy` | `helpers/types.ts`: objects, tables, registry records, parameter records, transactions |
| `MiscUtils` | `misc_utils.dfy` | `helpers/misc-utils.ts` |
| `NetworkParams` | `network_params.dfy` | `helpers/contracts-helpers.ts`: network and pool parameter selection |
| `Configuration` | `configuration.dfy` | `helpers/configuration.ts` |
| `Runtime` | `runtime.dfy` | the deployment session (hardhat runtime, signer, chain, registries) |
| `ContractsHelpers` | `contracts_helpers.dfy` | `helpers/contracts-helpers.ts`: registry writes, save-and-verify, JSON fallback |
| `Linker` | `linker.dfy` | `helpers/contracts-helpers.ts`: `linkBytecode` |
| `MarketsHelpers` | `markets_helpers.dfy` | `helpers/markets-helpers.ts` |
| `ContractsGetters` | `contracts_getters.dfy` | `helpers/contracts-getters.ts` |
| `ContractsDeployments` | `contracts_deployments.dfy` | `helpers/contracts-deployments.ts` |
| `MockHelpers` | `mock_helpers.dfy` | `helpers/mock-helpers.ts` |
| `InitHelpers` | `init_helpers.dfy` | `helpers/init-helpers.ts` |
| `OraclesHelpers` | `oracles_helpers.dfy` | `helpers/oracles-helpers.ts` |

## Model

| member | source | states |
|---|---|---|
| MiscUtils.ChunkIsPartition | helpers/misc-utils.ts:72-80 | for a positive size, the reduce in `chunk` equals the reference partition that cuts `size` items off the front until none remain |
| MiscUtils.ChunkFlatten | helpers/misc-utils.ts:72-80 | concatenating the chunks in order gives back the input exactly |
| MiscUtils.ChunkSizes | helpers/misc-utils.ts:75-77 | every chunk is non-empty with at most `size` items, and all but the last hold exactly `size` |
| MiscUtils.ChunkCount | helpers/misc-utils.ts:73-79 | there are ceil(n / size) chunks; an empty list gives none; a size at least the length gives the whole list as one chunk |
| MiscUtils.ChunkSingletons | helpers/misc-utils.ts:72-80 | chunks of size 1 are the singletons of the input, in order |
| MiscUtils.ChunkSizeZero | helpers/misc-utils.ts:75-76 | with size 0 (`i % 0` is NaN, so every index starts a chunk) the result is one empty chunk per element |
| MiscUtils.ChunkFromBoundary | helpers/misc-utils.ts:73-79 | from any chunk start, the rest of the reduce is the partition of the rest of the list |
| MiscUtils.PartitionFlatten | helpers/misc-utils.ts:72-80 | the reference partition loses, reorders and duplicates nothing |
| MiscUtils.PartitionSizes | helpers/misc-utils.ts:75-77 | reference partition: every part holds 1 to `size` items, all but the last exactly `size` |
| MiscUtils.PartitionCount | helpers/misc-utils.ts:73-79 | the reference partition has ceil(n / size) parts |
| MiscUtils.PartitionSingletons | helpers/misc-utils.ts:72-80 | the reference partition with size 1 is the list of singletons |
| MiscUtils.OmitGet | helpers/misc-utils.ts:82-86 | `omit` keeps exactly the keys not listed, each with its original value |
| MiscUtils.OmitUpToGet | helpers/misc-utils.ts:83-85 | after the first `n` steps of the reduce, a key reads its original value exactly when it is among the first `n` keys and not listed |
| MiscUtils.OmitUpToKeys | helpers/misc-utils.ts:83-85 | after the first `n` steps of the reduce, the keys are the first `n` keys minus the listed ones, in order |
| MiscUtils.OmitKeyOrder | helpers/misc-utils.ts:82-86 | on an object without repeated keys, `omit` keeps the remaining keys in their original order |
| MiscUtils.FilterOut | helpers/misc-utils.ts:82-86 | a key is in the result exactly when it is in the list and not dropped |
| MiscUtils.JsObject.Set | helpers/misc-utils.ts:92 | `obj[k] = v` upserts: an existing key keeps its place and a new key goes last |
| MiscUtils.FilterMapBy | helpers/misc-utils.ts:88-94 | `list` is updated in place with `raw[key]` for each key of `raw` accepted by `fn`, in key order, and the same object is returned |
| MiscUtils.FilterKeys | helpers/misc-utils.ts:89-90 | a key survives the filter exactly when it is a key of `raw` and `fn` accepts it |
| MiscUtils.PutAllGet | helpers/misc-utils.ts:91-93 | writing the selected keys of `raw` into `list` makes a selected key read `raw`'s value and leaves every other key reading `list`'s |
| MiscUtils.FilterMapByGet | helpers/misc-utils.ts:88-94 | afterwards a key of `raw` accepted by `fn` reads `raw`'s value, and every other key reads what `list` held before |
| MiscUtils.NotFalsyOrZeroAddressCases | helpers/misc-utils.ts:49-54 | false for undefined, for the empty string and for the zero address; true exactly for a well-formed address other than the zero address |
| MiscUtils.ContractsOn | helpers/misc-utils.ts:39-45 | the entries counted are exactly the registry ids that hold a record for the network |
| NetworkParams.GetParamPerNetworkCases | helpers/contracts-helpers.ts:139-158 | a set FORK selects `param[FORK]` whatever the network; otherwise buidlerevm, localhost, vinci, kovan and hardhat read their own entry, and every other network, rinkeby and mainnet included, reads undefined |
| NetworkParams.GetOptionalParamAddressPerNetwork | helpers/contracts-helpers.ts:160-168 | a missing parameter object gives the zero address; a present one gives its per-network entry |
| NetworkParams.GetParamPerPool | helpers/contracts-helpers.ts:127-137 | every pool selects `proto` |
| NetworkParams.GetParamPerPoolIgnoresPool | helpers/contracts-helpers.ts:131-136 | the pool name never changes the selection |
| Configuration.LoadPoolConfig | helpers/configuration.ts:72-87 | Vinci, VinciBAYC and VinciMAYC select their own configuration; any other name fails with "Unsupported pool configuration: <name> is not one of the supported configs Vinci,VinciBAYC,VinciMAYC" |
| Configuration.SignerAt | helpers/configuration.ts:55-57 | the signer list read at an index is defined exactly inside the list |
| Configuration.AdminFallback | helpers/configuration.ts:48-70 | each admin getter returns the configured admin when it is truthy, and only otherwise the signer at the configured index; a set FORK replaces the network, so the network no longer matters |
| Configuration.GetWethAddressCases | helpers/configuration.ts:89-100 | a truthy configured WETH is returned; otherwise a network whose name contains "main" throws, and any other network deploys a mock; on mainnet without FORK it always throws |
| Configuration.GetQuoteCurrency | helpers/configuration.ts:115-125 | ETH and WETH resolve as the WETH address and USD as the configured USD address; any other currency fails |
| Configuration.GetTreasuryAddress | helpers/configuration.ts:127-130 | the treasury is the per-network entry, read under FORK when FORK is set |
| Configuration.GetLendingRateOraclesSpec | helpers/configuration.ts:132-143 | a rate survives exactly when its symbol is a reserve asset of the current network, with its own value; the helper fails exactly when there are rates and the network has no reserve assets |
| Runtime.Env.Deploy | helpers/contracts-deployments.ts:189 | a factory deployment appends its creation transaction and returns the next fresh address; the registries are untouched |
| Runtime.Env.Send | helpers/misc-utils.ts:24 | a transaction is appended to the trace and nothing else changes |
| Runtime.Env.SetRecord | helpers/contracts-helpers.ts:43-48 | a registry write upserts the record under its path and is logged in the trace |
| ContractsHelpers.RegisterContractInJsonDb | helpers/contracts-helpers.ts:28-49 | `${id}.${network}` now holds `{address, deployer}`, replacing any earlier record; the market registry and the address counter are unchanged |
| ContractsHelpers.InsertContractAddressInDb | helpers/contracts-helpers.ts:51-56 | `${id}.${network}` now holds `{address}` with no deployer |
| ContractsHelpers.WithSaveAndVerify | helpers/contracts-helpers.ts:78-90 | the wait, then the registry write, then the verification request when asked for; the record holds the instance's address and deployer |
| ContractsHelpers.DeployAndSave | helpers/contracts-deployments.ts:187-193 | a factory deployment followed by save-and-verify: one fresh address, one creation transaction, one registry write under the id |
| ContractsHelpers.SaveAndVerifyOrder | helpers/contracts-helpers.ts:84-88 | save-and-verify always waits first and registers second, and sends a verification request exactly when `verify` is set |
| ContractsHelpers.JsonFallbackOrder | helpers/contracts-helpers.ts:182-200 | a valid non-zero configured address wins; otherwise a registry address is used; the lookup fails exactly when neither is there |
| ContractsHelpers.JsonFallbackAfterRegister | helpers/contracts-helpers.ts:190-199 | an id that is neither configured nor registered fails; once it is registered, the fallback returns the registered address |
| ContractsHelpers.RegisterCounts | helpers/misc-utils.ts:39-45 | registering adds the contract to the `printContracts` count of its network and leaves every other network's count alone |
| Linker.LinkBytecode | helpers/contracts-helpers.ts:92-113 | the three nested loops compute the file-by-file, library-by-library, placeholder-by-placeholder rewrite `LinkFiles` |
| Linker.LinkFilesUnknown | helpers/contracts-helpers.ts:97-101 | when no referenced library is named in `libraries`, the bytecode comes back unchanged |
| Linker.LinkLibsUnknown | helpers/contracts-helpers.ts:96-101 | libraries of one file that are not named leave the bytecode unchanged |
| Linker.ApplyFixupEffect | helpers/contracts-helpers.ts:103-108 | one placeholder: the text before it (the `0x` included) and after it is kept, and the address without its `0x` sits in between |
| Linker.ApplyFixupChars | helpers/contracts-helpers.ts:103-108 | a 20-byte placeholder filled with a 42-character address keeps the length; the placeholder reads the address digits and every other character is unchanged |
| Linker.LinkFixupsChars | helpers/contracts-helpers.ts:103-108 | after all placeholders of one library (standard, non-overlapping), each placeholder holds the address digits and every character outside them is the original one |
| Linker.LinkFilesPlacements | helpers/contracts-helpers.ts:95-110 | the three nested loops are one pass over the artifact's placeholders, file by file and library by library, filling those of named libraries and skipping the rest |
| Linker.LinkFilesChars | helpers/contracts-helpers.ts:95-110 | partial linking of a whole artifact with standard, non-overlapping placeholders: every placeholder of a library named in `libraries` holds that library's address digits, and every other character, the placeholders of unnamed libraries included, is the original one |
| Linker.LinkFilesLength | helpers/contracts-helpers.ts:95-107 | with standard placeholders and 42-character addresses, linking preserves the bytecode length |
| Linker.LinkFilesIgnoresFileNames | helpers/contracts-helpers.ts:95-97 | libraries are matched by name alone; renaming the files changes nothing |
| MarketsHelpers.DefaultTable | helpers/markets-helpers.ts:16-24 | the default table has exactly the seven networks as keys |
| MarketsHelpers.Build | helpers/markets-helpers.ts:12-31 | the loop fills the defaults and then copies every entry of `param` over them, giving `BuildSpec` |
| MarketsHelpers.OverlayAt | helpers/markets-helpers.ts:26-28 | after the overwrite loop, a key of `param` reads `param`'s value and any other key reads the table before the loop |
| MarketsHelpers.OverlayKeys | helpers/markets-helpers.ts:26-28 | the overwrite loop adds exactly the keys of `param` to the table |
| MarketsHelpers.BuildAt | helpers/markets-helpers.ts:12-31 | all seven networks are present; a key of `param` reads `param`'s value, another network reads the default, and any other key is absent; with no `param` the result is the default table |
| MarketsHelpers.BuildAdmin | helpers/markets-helpers.ts:33-37 | the default is undefined |
| MarketsHelpers.BuildAssets | helpers/markets-helpers.ts:40-44 | the default is the empty object |
| MarketsHelpers.BuildAddress | helpers/markets-helpers.ts:47-51 | the default is the empty string |
| MarketsHelpers.BuildSameAddress | helpers/markets-helpers.ts:53-57 | every one of the seven networks maps to the address and nothing else is in the table |
| MarketsHelpers.BuildWithZeroAddress | helpers/markets-helpers.ts:59-63 | the default is the zero address |
| MarketsHelpers.BuildLibrary | helpers/markets-helpers.ts:65-71 | the default is the empty object |
| ContractsGetters.ExplicitAddressFirst | helpers/contracts-getters.ts:72-79 | a truthy explicit address is used whatever the registries hold; otherwise the getter succeeds exactly when a record exists under its key, with that record's address |
| ContractsGetters.ProviderRegistryNeedsValidAddress | helpers/contracts-getters.ts:60-70 | the providers-registry getter uses the explicit address only when it is a valid non-zero address; a zero explicit address goes to the registry, where the other getters would use it |
| ContractsGetters.GlobalContractRoundTrip | helpers/contracts-getters.ts:72-79 | a global getter without an explicit address returns the address just written under `${id}.${network}`, and a write under any other key leaves its result unchanged |
| ContractsGetters.MarketContractRoundTrip | helpers/contracts-getters.ts:128-135 | a market getter returns the address just written under `${id}.${network}.${marketId}` in the market registry, and a write under any other key leaves its result unchanged |
| ContractsGetters.EligibilityRoundTrip | helpers/contracts-getters.ts:221-228 | `getEligibility` returns the address just written under `${symbol}EligibilityImpl.${network}.${marketId}` in the market registry, and a write under any other key leaves its result unchanged |
| ContractsGetters.MockAggregatorRoundTrip | helpers/contracts-getters.ts:299-307 | `getMockAggregator` returns the address just written under `${id}MockAggregator.${network}` in the global registry, and a write under any other key leaves its result unchanged |
| ContractsGetters.ConfiguratorImplRoundTrip | helpers/contracts-getters.ts:309-316 | `getLendingPoolConfiguratorImpl` returns the address just written under `LendingPoolConfiguratorImpl.${network}` in the market registry, and a write under any other key leaves its result unchanged |
| ContractsGetters.NTokenRoundTrip | helpers/contracts-getters.ts:348-354 | `getNTokenAddressFromDb` returns the address just written under `${contractId}.${network}.${marketId}.vn${symbol}`, and a write under any other key leaves its result unchanged |
| ContractsGetters.TreasuryRoundTrip | helpers/contracts-getters.ts:398-402 | `getTreasury` returns the address just written under `AaveTreasury.${network}`, and a write under any other key leaves its result unchanged |
| ContractsGetters.WriteShapesSeparate | helpers/contracts-helpers.ts:43-56 | a write under a two-segment `${id}.${network}` key, the only shape the registry helpers write, is never seen by a market, eligibility or NToken getter; a market-key write is never seen by an NToken getter or a global getter |
| ContractsGetters.GetVinciLibraries | helpers/contracts-getters.ts:404-426 | it succeeds exactly when ReserveLogic, NFTVaultLogic and ValidationLogic are registered, and returns exactly those three path keys with the registered addresses; GenericLogic is absent |
| ContractsGetters.QuoteCurrenciesCases | helpers/contracts-getters.ts:258-267 | USD is quoted alone; every other input, unknown strings included, gives ETH and WETH |
| ContractsGetters.PairWithAggregators | helpers/contracts-getters.ts:281-296 | succeeds exactly when every asset's symbol has an aggregator entry; the two outputs have the assets' length and entry i pairs asset i's address with the aggregator under the same symbol |
| ContractsGetters.PairsAfterOmit | helpers/contracts-getters.ts:276-296 | after dropping symbols, the remaining assets keep map order, no dropped symbol is output, and the pairing fails exactly when a remaining symbol has no aggregator |
| ContractsGetters.PairsTokenAggregatorSpec | helpers/contracts-getters.ts:269-297 | no quote currency is ever output; the remaining assets are paired in map order with the aggregator under their own symbol; the call fails exactly when one has none |
| ContractsGetters.OmitUpToDistinct | helpers/contracts-getters.ts:276-279 | the object `omit` builds never repeats a key |
| ContractsDeployments.DeploymentsStep | helpers/contracts-deployments.ts:187-193 | one more deployment appends its save-and-verify events and registers its id at the next fresh address |
| ContractsDeployments.RegisterAllRead | helpers/contracts-deployments.ts:187-193 | after a run of deployments, the id of the k-th holds the k-th fresh address unless a later one reused the id |
| ContractsDeployments.RegisterAllOther | helpers/contracts-deployments.ts:187-193 | an id no deployment of the run used keeps its earlier record |
| ContractsDeployments.RunStep | helpers/contracts-deployments.ts:370-415 | one more deployment of a run, seen from the whole session's trace and registry |
| ContractsDeployments.DeployNext | helpers/contracts-deployments.ts:327-341 | the next deployment of a run: the session's trace, registry and address counter advance by exactly that deployment |
| ContractsDeployments.DeployTxs | helpers/contracts-deployments.ts:255-280 | only deployments are extracted from a trace |
| ContractsDeployments.DeployTxsAppend | helpers/contracts-deployments.ts:255-280 | the deployments of a concatenated trace are those of its parts, in order |
| ContractsDeployments.DeployEventsDeploys | helpers/contracts-helpers.ts:78-90 | a factory deployment with its save-and-verify step deploys exactly one contract |
| ContractsDeployments.DeployReserveLogicLibrary | helpers/contracts-deployments.ts:187-193 | ReserveLogic is deployed unlinked, at the next fresh address, and registered under its id |
| ContractsDeployments.DeployNFTVaultLogic | helpers/contracts-deployments.ts:195-209 | NFTVaultLogic is deployed with an empty library map and registered |
| ContractsDeployments.DeployGenericLogic | helpers/contracts-deployments.ts:211-227 | GenericLogic is linked with ReserveLogic's address alone and registered |
| ContractsDeployments.DeployValidationLogic | helpers/contracts-deployments.ts:229-253 | ValidationLogic is linked with the ReserveLogic, GenericLogic and NFTVaultLogic addresses and registered |
| ContractsDeployments.DeployVinciLibraries | helpers/contracts-deployments.ts:255-280 | four fresh addresses are used; the returned map holds ReserveLogic, NFTVaultLogic and ValidationLogic, and `getVinciLibraries` reads back exactly that map afterwards |
| ContractsDeployments.VinciLibrariesEventsDeploys | helpers/contracts-deployments.ts:255-280 | the deployments `deployVinciLibraries` makes are the four libraries with their link maps |
| ContractsDeployments.VinciLibrariesOrder | helpers/contracts-deployments.ts:258-261 | ReserveLogic, NFTVaultLogic, GenericLogic, ValidationLogic are deployed in that order, each linked only against libraries already deployed, at the linked addresses |
| ContractsDeployments.DeployLendingPool | helpers/contracts-deployments.ts:282-287 | the libraries first, then the pool linked with them; the same pool address is recorded under LendingPoolImpl (address only) and LendingPool |
| ContractsDeployments.ChooseVTokenDeployment | helpers/contracts-deployments.ts:343-352 | a deployer exists exactly for VToken and DelegationAwareVToken, and it deploys exactly that id; any other id throws |
| ContractsDeployments.DedupSpec | helpers/contracts-deployments.ts:379-384 | `[...new Set(s)]` has no repeats, holds exactly the values of `s`, and lists them in the order of their first occurrence in `s` |
| ContractsDeployments.VTokenImplDeploymentsPrefix | helpers/contracts-deployments.ts:386-396 | once the loop has thrown, later ids change nothing |
| ContractsDeployments.VTokenImplStep | helpers/contracts-deployments.ts:386-396 | one more id: skipped when configured, a throw when it has no deployer, otherwise one deployment under its own id |
| ContractsDeployments.VTokenImplDeploymentsSpec | helpers/contracts-deployments.ts:386-396 | only unconfigured known implementations are deployed, each under its own id; without a throw every unconfigured id is deployed; it throws exactly when an unconfigured id has no deployer |
| ContractsDeployments.VTokenImplDeploymentsDistinct | helpers/contracts-deployments.ts:379-396 | over a list without repeats, no implementation is deployed twice |
| ContractsDeployments.VTokenImplementationsSpec | helpers/contracts-deployments.ts:370-415 | each distinct `vTokenImpl` is considered once and deployed only when the configuration has no valid non-zero address; the two debt tokens follow the same rule under their own fields; no contract is deployed twice; it fails exactly when an unconfigured implementation has no deployer |
| ContractsDeployments.DeployVTokenImplLoop | helpers/contracts-deployments.ts:386-396 | the loop's trace, registry and address counter are those of the planned vToken deployments, and it fails with the planned error |
| ContractsDeployments.DeployDebtTokens | helpers/contracts-deployments.ts:398-414 | the stable and variable debt tokens are each deployed unless configured, extending the run |
| ContractsDeployments.DeployVTokenImplementations | helpers/contracts-deployments.ts:370-415 | the session advances by exactly the planned deployments, and the outcome is the planned error if there is one |
| ContractsDeployments.DeployMockAggregator | helpers/contracts-deployments.ts:433-442 | the aggregator is deployed with `[price, decimals]` and registered under `tokenSymbol + 'MockAggregator'` |
| ContractsDeployments.DeployTokensPriceAggregator | helpers/contracts-deployments.ts:444-456 | one aggregator deployment, with the decimals of the proto reserve of that symbol, else 18 |
| ContractsDeployments.AggregatorDeploymentSpec | helpers/contracts-deployments.ts:444-456 | the aggregator is registered where `getMockAggregator` looks for it, with the given price and the proto reserve's decimals when there is one, else 18 |
| ContractsDeployments.DeployDefaultReserveInterestRateStrategy | helpers/contracts-deployments.ts:504-514 | the strategy is registered under `name` when truthy, else under DefaultReserveInterestRateStrategy |
| ContractsDeployments.DeployRateStrategy | helpers/contracts-deployments.ts:537-548 | every strategy name goes to the default strategy's deployer and is registered under that name |
| ContractsDeployments.RateStrategyIdCases | helpers/contracts-deployments.ts:511 | a non-empty name is the id; an empty or absent name falls back to DefaultReserveInterestRateStrategy |
| ContractsDeployments.ProxyPairOrder | helpers/contracts-deployments.ts:553-570 | the implementation is deployed and registered, then the proxy, and only then is the proxy initialised, as the last step and nowhere earlier |
| ContractsDeployments.DeployTreasury | helpers/contracts-deployments.ts:550-572 | an AaveCollector behind an admin proxy, registered as AaveTreasuryImpl and AaveTreasury; `getTreasury` then finds the proxy |
| ContractsDeployments.DeployRangeEligibility | helpers/contracts-deployments.ts:574-599 | an NFTXRangeEligibility behind an admin proxy, registered as `${symbol}EligibilityImpl` and `${symbol}Eligibility` in the global registry and initialised with the range |
| MockHelpers.ProjectKeys | helpers/mock-helpers.ts:5-12 | the projection keeps the input's keys, in order |
| MockHelpers.ProjectGet | helpers/mock-helpers.ts:7-10 | each symbol reads the address of the contract under that symbol, and an absent symbol stays absent |
| MockHelpers.AllAddressesSpec | helpers/mock-helpers.ts:5-41 | the four getters are one projection: exactly the input's keys, each holding its contract's address; no contracts give an empty object |
| InitHelpers.ExtraParamsConstant | helpers/init-helpers.ts:25-37 | the vToken and NToken extra params are `0x10` whatever the token |
| InitHelpers.Word | helpers/init-helpers.ts:39-42 | a word has exactly the requested number of bytes |
| InitHelpers.WordRoundTrip | helpers/init-helpers.ts:39-42 | a number that fits in `n` bytes is read back from its big-endian word |
| InitHelpers.EligibilityParamsSpec | helpers/init-helpers.ts:44-53 | empty for every name but RANGE (upper-cased); for RANGE, 64 bytes that decode to the first two arguments, failing exactly when they are missing or outside uint256 |
| InitHelpers.EligibilityNameCase | helpers/init-helpers.ts:48 | the name comparison ignores case |
| InitHelpers.KeptEntriesMembers | helpers/init-helpers.ts:86-89 | an entry is kept exactly when it is in the input and has a truthy token address |
| InitHelpers.ConfigurableEntriesMembers | helpers/init-helpers.ts:424-430 | an entry is configured exactly when it is in the input, has a truthy token address and its LTV is not '-1' |
| InitHelpers.VaultPlanStepFails | helpers/init-helpers.ts:85-105 | one more vault fails the walk exactly when it had already failed or that vault fails |
| InitHelpers.VaultPlanFails | helpers/init-helpers.ts:85-105 | the walk fails exactly when some vault with a token address has an input that fails |
| InitHelpers.VaultPlanSpec | helpers/init-helpers.ts:85-105 | the inputs are exactly the kept vaults, in order, each built from its own vault, so symbols and inputs stay index-aligned; the walk fails exactly when a kept vault's input fails |
| InitHelpers.VaultPlanPrefixErr | helpers/init-helpers.ts:85-105 | a failure on a prefix is the failure of the whole walk |
| InitHelpers.VaultInputFields | helpers/init-helpers.ts:92-104 | NToken name `${prefix} ${name}`, symbol `v${symbol}`, the market's token address, `0x10` extra params, and the eligibility and its parameters; it fails exactly when one of those two fails |
| InitHelpers.OneBatchPerVault | helpers/init-helpers.ts:108-123 | chunking with size 1 gives exactly one `batchInitNFTVault` per kept vault, each carrying that vault alone, in input order |
| InitHelpers.InitNFTVaultByHelper | helpers/init-helpers.ts:55-124 | the chunked batches of the planned inputs are sent in order; when the walk or the configurator lookup fails, nothing is sent |
| InitHelpers.PoolPrefixes | helpers/init-helpers.ts:201-206 | Vinci has empty prefixes; VinciBAYC and VinciMAYC have `BAYC`/`BAYC-` and `MAYC`/`MAYC-`; any `Vinci<Name>` gives `<Name>` and `<Name>-` |
| InitHelpers.ReservePlanStepFails | helpers/init-helpers.ts:231-263 | one more reserve fails the walk exactly when it had already failed or that reserve fails |
| InitHelpers.ReservePlanFails | helpers/init-helpers.ts:231-263 | the walk fails exactly when some reserve with a token address has an input that fails |
| InitHelpers.ReservePlanSpec | helpers/init-helpers.ts:231-263 | the inputs are exactly the kept reserves, in order, each built from its own reserve; the walk fails exactly when a kept reserve's input fails |
| InitHelpers.ReservePlanPrefixErr | helpers/init-helpers.ts:231-263 | a failure on a prefix is the failure of the whole walk |
| InitHelpers.ReserveInputFields | helpers/init-helpers.ts:240-262 | prefixed vToken and debt names and symbols, a zero stable-debt implementation with empty stable-debt name and symbol, the token address and decimals, the vToken implementation found by the JSON fallback, and `0x10` params |
| InitHelpers.InitReservesByHelperV2 | helpers/init-helpers.ts:190-269 | all kept reserves go in one unchunked `batchInitReserve`, sent even when nothing is kept; a failing configuration, walk or configurator lookup sends nothing |
| InitHelpers.ReserveConfigInputsSpec | helpers/init-helpers.ts:413-452 | one input per configurable reserve, in order, built from that reserve and its token address |
| InitHelpers.ReserveConfigTxsAppend | helpers/init-helpers.ts:456-468 | the calls go reserve by reserve: those of a concatenation are those of its parts in order |
| InitHelpers.ReserveConfigTxsOne | helpers/init-helpers.ts:459-466 | per reserve, `setReserveFactor` always comes last, preceded by `enableBorrowingOnReserve` exactly when borrowing is enabled |
| InitHelpers.ConfigureReservesByHelper | helpers/init-helpers.ts:395-470 | the configurator calls of the configurable reserves are sent in order; if the configurator cannot be found nothing is sent |
| InitHelpers.VaultConfigInputsSpec | helpers/init-helpers.ts:342-377 | one input per configurable vault, in order, built from that vault and its token address |
| InitHelpers.VaultConfigTxsShape | helpers/init-helpers.ts:381-391 | two calls per vault in vault order: call 2i configures vault i as collateral and call 2i+1 sets its action expiration |
| InitHelpers.ConfigureNFTVaultByHelper | helpers/init-helpers.ts:326-393 | the configurator calls of the configurable vaults are sent in order; if the configurator cannot be found nothing is sent |
| InitHelpers.UpdateMatchesInit | helpers/init-helpers.ts:127-158 | `updateNToken` re-derives what `initNFTVaultByHelper` set for the same vault: name, symbol, implementation, extra params, underlying asset and base URI |
| InitHelpers.UpdateNTokens | helpers/init-helpers.ts:127-158 | one `updateNToken` per configured vault, in order, to the market's configurator; a failing configuration or configurator lookup sends nothing |
| InitHelpers.PairsTokenAggregatorSpec | helpers/init-helpers.ts:300-324 | ETH, USD and WETH are never output; the other assets are paired in map order with the aggregator under their own symbol; the call fails exactly when one has none |
| OraclesHelpers.ResolvedStep | helpers/oracles-helpers.ts:25-39 | one more entry is kept, with its asset address, exactly when its symbol resolves |
| OraclesHelpers.ResolvedSpec | helpers/oracles-helpers.ts:25-39 | exactly the entries whose symbol resolves are kept, each with the address its symbol reads and its own value; nothing is kept exactly when no symbol resolves |
| OraclesHelpers.ResolvedPrefix | helpers/oracles-helpers.ts:25-39 | the walk keeps order: the result of a prefix is a prefix of the result |
| OraclesHelpers.ResolvedAll | helpers/oracles-helpers.ts:25-39 | when every symbol resolves, entry k is kept at position k |
| OraclesHelpers.MarketRateTxs | helpers/oracles-helpers.ts:41-51 | one rate call per kept entry |
| OraclesHelpers.SetInitialMarketRatesInRatesOracleByHelper | helpers/oracles-helpers.ts:17-52 | the two loops send one `setMarketBorrowRate` per kept rate, in rate order, and change nothing else |
| OraclesHelpers.MarketRatesSpec | helpers/oracles-helpers.ts:29-51 | one call per rate whose symbol is an asset key, carrying that asset's address and that rate; every call comes from such a rate; no call exactly when no symbol is an asset key |
| OraclesHelpers.PriceTxs | helpers/oracles-helpers.ts:68 | one price call per kept entry |
| OraclesHelpers.PriceTxsSnoc | helpers/oracles-helpers.ts:59-69 | one more kept price appends one more price call |
| OraclesHelpers.SetInitialAssetPricesInOracle | helpers/oracles-helpers.ts:54-70 | the loop sends one `setAssetPrice` per price whose symbol has a truthy address, in price order |
| OraclesHelpers.InitialPricesSpec | helpers/oracles-helpers.ts:59-69 | a price whose symbol has a truthy address gets a call with that address and price; every call has a non-empty address taken from such a price |
| OraclesHelpers.AssetPricesRunStep | helpers/oracles-helpers.ts:77-85 | one more price: a call with its address, or a throw when its symbol has no address |
| OraclesHelpers.AssetPricesRunPrefix | helpers/oracles-helpers.ts:77-85 | once the loop has thrown, later prices change nothing |
| OraclesHelpers.SetAssetPricesInOracle | helpers/oracles-helpers.ts:72-86 | the calls sent and the outcome are those of the run without skip |
| OraclesHelpers.FirstMissing | helpers/oracles-helpers.ts:77-83 | the first price whose symbol is not an asset key, with every earlier one an asset key |
| OraclesHelpers.AssetPricesUpTo | helpers/oracles-helpers.ts:77-85 | up to the first symbol with no address the loop has not thrown and has sent one call per price |
| OraclesHelpers.AssetPricesSpec | helpers/oracles-helpers.ts:72-86 | the loop throws (V8's not-iterable `TypeError`) exactly when some symbol has no address, after sending the calls for the prices before the first such symbol; on success one call per price, none skipped |
| OraclesHelpers.AggregatorSymbols | helpers/oracles-helpers.ts:90-91 | only price keys get aggregators |
| OraclesHelpers.AggregatorSymbolsStep | helpers/oracles-helpers.ts:90-97 | one more price key gets an aggregator unless it is a skipped ETH |
| OraclesHelpers.AggregatorSymbolsSpec | helpers/oracles-helpers.ts:90-97 | exactly the price keys get aggregators, except ETH when skipped; with nothing skipped, one per key in key order |
| OraclesHelpers.AggregatorSymbolsDistinct | helpers/oracles-helpers.ts:90-97 | over keys that do not repeat, no symbol gets two aggregators |
| OraclesHelpers.AggregatorDeployments | helpers/oracles-helpers.ts:92-96 | deployment k is the aggregator for symbol k with the price `findIndex` finds for it |
| OraclesHelpers.AggregatorDeploymentsStep | helpers/oracles-helpers.ts:92-96 | one more symbol appends its aggregator deployment |
| OraclesHelpers.AggregatorMapStep | helpers/oracles-helpers.ts:96 | writing the next symbol with the next fresh address extends the returned object |
| OraclesHelpers.AggregatorMapKeys | helpers/oracles-helpers.ts:89-99 | the returned object has the symbols as its keys, in order |
| OraclesHelpers.AggregatorMapGet | helpers/oracles-helpers.ts:89-99 | each symbol reads back the address of its own deployment |
| OraclesHelpers.DeployRunAggregator | helpers/oracles-helpers.ts:96 | `deployTokensPriceAggregator` as the next deployment of a run |
| OraclesHelpers.DeployNextAggregator | helpers/oracles-helpers.ts:92-96 | one iteration of the loop extends the run and the returned object by one symbol |
| OraclesHelpers.DeployAggregators | helpers/oracles-helpers.ts:88-115 | one aggregator per (non-skipped) price key, in key order, with fresh consecutive addresses; the returned object maps each symbol to its address |
| OraclesHelpers.DeployMockAggregators | helpers/oracles-helpers.ts:88-100 | every price key but ETH gets an aggregator with its own price, in key order |
| OraclesHelpers.DeployAllMockAggregators | helpers/oracles-helpers.ts:102-115 | every price key gets an aggregator with its own price, in key order |
| OraclesHelpers.AggregatorsSpec | helpers/oracles-helpers.ts:88-115 | the k-th aggregator is the returned object's entry for its symbol, was deployed with that symbol's price, and is registered under `<symbol>MockAggregator`, where `getMockAggregator` looks for it |

## Left out

- Transaction submission and confirmation, contract factories, signer retrieval and the hardhat runtime are abstracted. Each transaction is a trace entry, each deployment takes the next fresh address from `addressAt`, and the signer list and network name are parameters.
- The JSON registry files are in-memory maps; file persistence is not modelled.
- `getMarketDb` is imported by the getters but is not defined in `helpers/misc-utils.ts`. The market-scoped registry is therefore a second map in `Runtime.Env`.
- `getRateStrategy`, called by `initReservesByHelperV2`, is defined nowhere in `helpers/`. It is the parameter `rateStrategy`.
- `initNFTVaultByHelper` calls `getEligibility` with one argument (`helpers/init-helpers.ts:92`). The model does what that call does: the eligibility name becomes the market id and the token symbol is `undefined`, printed as such in the key. It does not model the two-argument call that may have been intended.
- `deployRangeEligibility` writes both records to the global registry, while `getEligibility` reads the market registry. The model keeps both as written.
- Console logging is not modelled, and neither is the `chunkedSymbols` list, which is only printed.
- `toUpperCase` is modelled on ASCII letters only.
- Object keys (asset symbols, network names, library names) are assumed not to be integer-like. JavaScript lists integer-like keys such as "0" or "42" first, in ascending order, before the others; `Dict` keeps every key in insertion order.
- The registries are stored by lowdb as nested objects, and lodash's `set('id.network', …)` replaces the whole subtree under that path. The model keeps a flat map from complete paths to records. Every write in the registry helpers puts a two-segment key in the global registry, and every read of the global registry uses a two-segment key. So a write never replaces a subtree that a read of the model would still find. The market registry is only read here.
- Engine and library error texts are modelled only where a contract states them: V8's `TypeError` texts for reading `.address` of `undefined` and for destructuring `undefined`, and the leading phrase of ethers' ABI-encoding errors.
- Contract ids are assumed not to contain dots, so each id is one segment of a registry path.
- Etherscan and Tenderly verification is one `Verify` trace entry; the services are not modelled.
- Artifacts are not read from disk; `linkBytecode` takes the artifact as a value.
- MiscUtils.NotFalsyOrZeroAddressCases: well-formedness is the plain hex form `ethers.isAddress` accepts (40 hex digits, optionally after `0x`). The EIP-55 mixed-case checksum is not checked, and ICAP `XE…` addresses, which ethers v5 also accepts, are treated as malformed.
- InitHelpers.ReserveInputFields: states the fields of an input that was built. When building fails is stated separately, by `InitHelpers.ReservePlanFails` and `InitHelpers.ReservePlanSpec`.
- The zero-address test compares strings, so differently cased spellings of the zero address are not recognised as zero.
- Market rates are reduced to their `borrowRate` strings, and prices and rates are kept as the decimal strings the helpers pass through.
- Configuration values computed with floating point in the market tables are not modelled; the tables are parameters.
- `getReservesConfigByPool(VinciPools.proto)`, read by `deployTokensPriceAggregator`, is the parameter `protoReserves`.
- The `MockAggregator` instance returned by the aggregator deployers is represented by its address.
- `deployMockAggregators` and `deployAllMockAggregators` are modelled by one loop, `DeployAggregators`, whose `skipEth` flag is the only difference between them.
- The other deployers in `helpers/contracts-deployments.ts` (configurator, oracles, data providers, tokens, gateways, the `deployAllMock*` loops) are not modelled. They are the same factory-plus-save-and-verify step already covered by `ContractsHelpers.DeployAndSave`.
- `getAllMockedTokens` and `getAllMockedERC721Tokens` in the getters are not modelled; they connect to every registered mock and are registry reads.
- `initReservesByHelper` is not modelled; it is `deployReservesRateStrategy` followed by `initReservesByHelperV2`.
- `deployReservesRateStrategy` is not modelled; it loops over reserves calling `deployRateStrategy`, which is modelled.
- Permit signing and currency-unit conversion are not modelled (foreign cryptography and on-chain reads).
- The Solidity contracts are not part of this model. The configurator, oracles and proxies appear only as the calls the helpers send them.
- EVM snapshots, impersonation and the test harness are not modelled.
