/// The batch-initialisation and configuration helpers of
/// `helpers/init-helpers.ts`. Each helper first walks the market's entries
/// in `Object.entries` order, keeping those it can serve and deriving their
/// parameters, and then sends the configurator calls in that order.
module InitHelpers {
  import opened Base
  import opened MiscUtils
  import opened Configuration
  import opened ContractsHelpers
  import ContractsGetters
  import opened Runtime

  // ---------------------------------------------------------------------
  // Extra parameters

  /// `getVTokenExtraParams`: a switch with only a default case.
  function GetVTokenExtraParams(vTokenName: string, tokenAddress: Address): string
  {
    "0x10"
  }

  /// `getNTokenExtraParams`: a switch with only a default case.
  function GetNTokenExtraParams(nTokenName: string, tokenAddress: Address): string
  {
    "0x10"
  }

  /// The extra parameters are `0x10` whatever the token.
  lemma ExtraParamsConstant(name: string, token: Address, name': string, token': Address)
    ensures GetVTokenExtraParams(name, token) == GetVTokenExtraParams(name', token') == "0x10"
    ensures GetNTokenExtraParams(name, token) == GetNTokenExtraParams(name', token') == "0x10"
  {
  }

  // ---------------------------------------------------------------------
  // Eligibility parameters

  function UpperChar(c: char): char
  {
    if 'a' <= c <= 'z' then (c as int - 32) as char else c
  }

  /// `toUpperCase`, on ASCII letters.
  function UpperAscii(s: string): string
  {
    seq(|s|, i requires 0 <= i < |s| => UpperChar(s[i]))
  }

  function Pow(b: nat, n: nat): nat
  {
    if n == 0 then 1 else b * Pow(b, n - 1)
  }

  /// The bytes of a `uint` word in a contract ABI encoding.
  const WORD_BYTES := 32

  /// `v` as an `n`-byte big-endian word.
  function Word(v: nat, n: nat): (r: seq<Byte>)
    ensures |r| == n
  {
    if n == 0 then [] else Word(v / 256, n - 1) + [v % 256]
  }

  /// The number a big-endian word denotes.
  function WordValue(bs: seq<Byte>): nat
  {
    if bs == [] then 0 else WordValue(bs[..|bs| - 1]) * 256 + bs[|bs| - 1]
  }

  /// A number that fits in `n` bytes is read back from its word.
  lemma {:induction false} WordRoundTrip(v: nat, n: nat)
    requires v < Pow(256, n)
    ensures WordValue(Word(v, n)) == v
  {
    if n > 0 {
      assert v / 256 < Pow(256, n - 1);
      WordRoundTrip(v / 256, n - 1);
      var w := Word(v, n);
      assert w[..n - 1] == Word(v / 256, n - 1);
    }
  }

  /// `abiCoder.encode(["uint256", "uint256"], [start, end])`: two static
  /// words, head to head; a value outside `uint256` is refused.
  function EncodeRange(start: int, end: int): (r: Result<seq<Byte>>)
  {
    if !(0 <= start < Pow(256, WORD_BYTES)) || !(0 <= end < Pow(256, WORD_BYTES)) then
      Err("value out-of-bounds")
    else Ok(Word(start, WORD_BYTES) + Word(end, WORD_BYTES))
  }

  /// Reads the two words of an encoded range back.
  function DecodeRange(bs: seq<Byte>): (int, int)
    requires |bs| == 2 * WORD_BYTES
  {
    (WordValue(bs[..WORD_BYTES]), WordValue(bs[WORD_BYTES..]))
  }

  /// `getNTokenEligibilityParams(name, args)`: an empty byte array unless
  /// the upper-cased name is `RANGE`. A missing argument is `undefined`,
  /// which the encoder refuses.
  function GetNTokenEligibilityParams(eligibilityName: string, args: seq<int>): (r: Result<seq<Byte>>)
  {
    match UpperAscii(eligibilityName)
    case "ALLOWALL" => Ok([])
    case "RANGE" => if |args| < 2 then Err("invalid BigNumber value") else EncodeRange(args[0], args[1])
    case _ => Ok([])
  }

  /// The eligibility parameters are empty for every name but `RANGE` (in any
  /// case). For `RANGE` they are 64 bytes that decode to the first two
  /// arguments, and they fail exactly when those are missing or do not fit
  /// a `uint256`.
  lemma EligibilityParamsSpec(eligibilityName: string, args: seq<int>)
    ensures UpperAscii(eligibilityName) != "RANGE" ==> GetNTokenEligibilityParams(eligibilityName, args) == Ok([])
    ensures var r := GetNTokenEligibilityParams(eligibilityName, args);
            UpperAscii(eligibilityName) == "RANGE" ==>
              && (r.Ok? <==> |args| >= 2 && 0 <= args[0] < Pow(256, 32) && 0 <= args[1] < Pow(256, 32))
              && (r.Ok? ==> |r.value| == 64 && DecodeRange(r.value) == (args[0], args[1]))
  {
    var r := GetNTokenEligibilityParams(eligibilityName, args);
    if UpperAscii(eligibilityName) == "RANGE" && r.Ok? {
      WordRoundTrip(args[0], WORD_BYTES);
      WordRoundTrip(args[1], WORD_BYTES);
      var w0 := Word(args[0], WORD_BYTES);
      var w1 := Word(args[1], WORD_BYTES);
      assert (w0 + w1)[..WORD_BYTES] == w0;
      assert (w0 + w1)[WORD_BYTES..] == w1;
    }
  }

  /// The name comparison ignores case.
  lemma EligibilityNameCase(args: seq<int>)
    ensures GetNTokenEligibilityParams("range", args) == GetNTokenEligibilityParams("RANGE", args)
    ensures GetNTokenEligibilityParams("Range", args) == GetNTokenEligibilityParams("RANGE", args)
    ensures GetNTokenEligibilityParams("allowAll", args) == Ok([])
  {
    assert UpperAscii("range") == "RANGE";
    assert UpperAscii("Range") == "RANGE";
    assert UpperAscii("RANGE") == "RANGE";
    assert UpperAscii("allowAll") == "ALLOWALL";
  }

  // ---------------------------------------------------------------------
  // Which entries the helpers serve

  /// `tokenAddresses[symbol]` is truthy.
  predicate HasTokenAddress(tokenAddresses: Dict<Address>, symbol: string)
  {
    Truthy(Get(tokenAddresses, symbol))
  }

  /// The entries the init helpers keep, in order: those with a token address.
  function KeptEntries<P>(d: Dict<P>, tokenAddresses: Dict<Address>): Dict<P>
  {
    if d == [] then []
    else
      var n := |d| - 1;
      KeptEntries(d[..n], tokenAddresses) + (if HasTokenAddress(tokenAddresses, d[n].0) then [d[n]] else [])
  }

  /// An entry is kept exactly when it is in the input and has a token address.
  lemma {:induction false} KeptEntriesMembers<P>(d: Dict<P>, tokenAddresses: Dict<Address>, e: (string, P))
    ensures e in KeptEntries(d, tokenAddresses) <==> e in d && HasTokenAddress(tokenAddresses, e.0)
  {
    if d != [] {
      var n := |d| - 1;
      assert d == d[..n] + [d[n]];
      KeptEntriesMembers(d[..n], tokenAddresses, e);
    }
  }

  /// The entries the configure helpers keep, in order: those with a token
  /// address and an LTV other than `'-1'`.
  function ConfigurableEntries<P>(d: Dict<P>, tokenAddresses: Dict<Address>, ltvOf: P -> string): Dict<P>
  {
    if d == [] then []
    else
      var n := |d| - 1;
      ConfigurableEntries(d[..n], tokenAddresses, ltvOf)
      + (if HasTokenAddress(tokenAddresses, d[n].0) && ltvOf(d[n].1) != "-1" then [d[n]] else [])
  }

  /// An entry is configured exactly when it is in the input, has a token
  /// address and an LTV other than `'-1'`.
  lemma {:induction false} ConfigurableEntriesMembers<P>(d: Dict<P>, tokenAddresses: Dict<Address>,
                                                              ltvOf: P -> string, e: (string, P))
    ensures e in ConfigurableEntries(d, tokenAddresses, ltvOf) <==>
            e in d && HasTokenAddress(tokenAddresses, e.0) && ltvOf(e.1) != "-1"
  {
    if d != [] {
      var n := |d| - 1;
      assert d == d[..n] + [d[n]];
      ConfigurableEntriesMembers(d[..n], tokenAddresses, ltvOf, e);
    }
  }

  function ReserveLtv(params: ReserveParams): string
  {
    params.baseLTVAsCollateral
  }

  function VaultLtv(params: NFTVaultParams): string
  {
    params.baseLTVAsCollateral
  }

  // ---------------------------------------------------------------------
  // initNFTVaultByHelper

  /// The chunk size of `initNFTVaultByHelper`.
  const INIT_CHUNKS := 1

  /// What `initNFTVaultByHelper` reads besides the vault list.
  datatype VaultContext = VaultContext(
    tokenAddresses: Dict<Address>,
    baseURI: string,
    nTokenNamePrefix: string,
    ntokenGetter: NFTVaultParams -> Address,
    marketDb: Store,
    network: string)

  /// `getEligibility(params.eligibility.name)`: the call passes the
  /// eligibility name as the market id and no token symbol.
  function VaultEligibility(params: NFTVaultParams, ctx: VaultContext): Result<Address>
  {
    ContractsGetters.GetEligibility(ctx.marketDb, params.eligibility.name, "undefined", ctx.network, None)
  }

  /// The `batchInitNFTVault` input of one kept vault, whose token address
  /// is `tokenAddress`.
  function VaultInput(symbol: string, params: NFTVaultParams, tokenAddress: Address, ctx: VaultContext): Result<NFTVaultInput>
  {
    var ntoken := ctx.ntokenGetter(params);
    var eligibility := VaultEligibility(params, ctx);
    var eligibilityParams := GetNTokenEligibilityParams(params.eligibility.name, params.eligibility.args);
    if eligibility.Err? then Err(eligibility.msg)
    else if eligibilityParams.Err? then Err(eligibilityParams.msg)
    else Ok(NFTVaultInput(ntoken, tokenAddress, symbol, ctx.nTokenNamePrefix + " " + params.name,
                          "v" + params.symbol, ctx.baseURI, GetNTokenExtraParams(tokenAddress, ntoken),
                          eligibility.value, eligibilityParams.value))
  }

  /// The first loop of `initNFTVaultByHelper`: one input per kept vault,
  /// in order, or the first failure.
  function VaultPlan(vaults: Dict<NFTVaultParams>, ctx: VaultContext): Result<seq<NFTVaultInput>>
  {
    if vaults == [] then Ok([])
    else
      var n := |vaults| - 1;
      var prev := VaultPlan(vaults[..n], ctx);
      var (symbol, params) := vaults[n];
      if prev.Err? then prev
      else if !HasTokenAddress(ctx.tokenAddresses, symbol) then prev
      else match VaultInput(symbol, params, Get(ctx.tokenAddresses, symbol).value, ctx)
        case Err(msg) => Err(msg)
        case Ok(input) => Ok(prev.value + [input])
  }

  /// A vault the walk stops at: it has a token address and its input fails.
  predicate VaultFails(vault: (string, NFTVaultParams), ctx: VaultContext)
  {
    HasTokenAddress(ctx.tokenAddresses, vault.0)
    && VaultInput(vault.0, vault.1, Get(ctx.tokenAddresses, vault.0).value, ctx).Err?
  }

  /// One more vault of the walk fails it exactly when the walk had already
  /// failed or that vault fails.
  lemma VaultPlanStepFails(vaults: Dict<NFTVaultParams>, ctx: VaultContext)
    requires vaults != []
    ensures VaultPlan(vaults, ctx).Err? <==>
            VaultPlan(vaults[..|vaults| - 1], ctx).Err? || VaultFails(vaults[|vaults| - 1], ctx)
  {
  }

  /// The walk fails exactly when some vault with a token address has an
  /// input that fails.
  lemma {:induction false} VaultPlanFails(vaults: Dict<NFTVaultParams>, ctx: VaultContext)
    ensures VaultPlan(vaults, ctx).Err? <==> exists i :: 0 <= i < |vaults| && VaultFails(vaults[i], ctx)
  {
    if vaults != [] {
      var n := |vaults| - 1;
      var pre := vaults[..n];
      VaultPlanFails(pre, ctx);
      VaultPlanStepFails(vaults, ctx);
      if VaultPlan(pre, ctx).Err? {
        var i :| 0 <= i < n && VaultFails(pre[i], ctx);
        assert vaults[i] == pre[i];
      } else if !VaultFails(vaults[n], ctx) {
        forall i | 0 <= i < |vaults|
          ensures !VaultFails(vaults[i], ctx)
        {
          if i < n {
            assert vaults[i] == pre[i];
          }
        }
      }
    }
  }

  /// The walk submits exactly the kept vaults, in order, each with its own
  /// input (so the symbol list and the input list stay index-aligned), and
  /// fails exactly when a vault with a token address has an input that fails.
  lemma {:induction false} VaultPlanSpec(vaults: Dict<NFTVaultParams>, ctx: VaultContext)
    ensures var r := VaultPlan(vaults, ctx);
            var kept := KeptEntries(vaults, ctx.tokenAddresses);
            && (r.Ok? ==>
                  && |r.value| == |kept|
                  && forall i :: 0 <= i < |kept| ==>
                       HasTokenAddress(ctx.tokenAddresses, kept[i].0)
                       && VaultInput(kept[i].0, kept[i].1, Get(ctx.tokenAddresses, kept[i].0).value, ctx) == Ok(r.value[i]))
            && (r.Err? <==> exists i :: 0 <= i < |vaults| && VaultFails(vaults[i], ctx))
  {
    VaultPlanFails(vaults, ctx);
    if vaults != [] {
      var n := |vaults| - 1;
      VaultPlanSpec(vaults[..n], ctx);
      var prevKept := KeptEntries(vaults[..n], ctx.tokenAddresses);
      var kept := KeptEntries(vaults, ctx.tokenAddresses);
      var prev := VaultPlan(vaults[..n], ctx);
      var r := VaultPlan(vaults, ctx);
      var (symbol, params) := vaults[n];
      if r.Ok? {
        assert prev.Ok?;
        if HasTokenAddress(ctx.tokenAddresses, symbol) {
          assert kept == prevKept + [vaults[n]];
          var input := VaultInput(symbol, params, Get(ctx.tokenAddresses, symbol).value, ctx);
          assert r == Ok(prev.value + [input.value]);
          forall i | 0 <= i < |kept|
            ensures HasTokenAddress(ctx.tokenAddresses, kept[i].0)
            ensures VaultInput(kept[i].0, kept[i].1, Get(ctx.tokenAddresses, kept[i].0).value, ctx) == Ok(r.value[i])
          {
            if i < |prevKept| {
              assert kept[i] == prevKept[i] && r.value[i] == prev.value[i];
            }
          }
        } else {
          assert kept == prevKept;
        }
      }
    }
  }

  /// A failure on a prefix is the failure of the whole walk.
  lemma {:induction false} VaultPlanPrefixErr(vaults: Dict<NFTVaultParams>, ctx: VaultContext, i: nat)
    requires i <= |vaults| && VaultPlan(vaults[..i], ctx).Err?
    ensures VaultPlan(vaults, ctx) == VaultPlan(vaults[..i], ctx)
  {
    if i == |vaults| {
      assert vaults[..i] == vaults;
    } else {
      var n := |vaults| - 1;
      assert vaults[..n][..i] == vaults[..i];
      VaultPlanPrefixErr(vaults[..n], ctx, i);
    }
  }

  /// The fields of a vault input: names and symbols derived from the vault's
  /// own name and symbol, the market's token address, `0x10` extra params
  /// and the eligibility parameters of the vault's eligibility.
  lemma VaultInputFields(symbol: string, params: NFTVaultParams, tokenAddress: Address, ctx: VaultContext)
    ensures var r := VaultInput(symbol, params, tokenAddress, ctx);
            && (r.Ok? <==> VaultEligibility(params, ctx).Ok?
                           && GetNTokenEligibilityParams(params.eligibility.name, params.eligibility.args).Ok?)
            && (r.Ok? ==>
              && r.value.underlyingAssetName == symbol
              && r.value.underlyingAsset == tokenAddress
              && r.value.nTokenName == ctx.nTokenNamePrefix + " " + params.name
              && r.value.nTokenSymbol == "v" + params.symbol
              && r.value.nTokenImpl == ctx.ntokenGetter(params)
              && r.value.params == "0x10"
              && Ok(r.value.eligibilityParams) == GetNTokenEligibilityParams(params.eligibility.name, params.eligibility.args)
              && Ok(r.value.eligibility) == VaultEligibility(params, ctx))
  {
  }

  /// The configurator calls for a list of chunks, one per chunk, in order.
  function NFTVaultBatches(configurator: Address, chunks: seq<seq<NFTVaultInput>>): seq<Tx>
  {
    seq(|chunks|, i requires 0 <= i < |chunks| => BatchInitNFTVault(configurator, chunks[i]))
  }

  /// With chunks of one, there is exactly one `batchInitNFTVault` per kept
  /// vault, carrying that vault alone, in input order.
  lemma OneBatchPerVault(configurator: Address, inputs: seq<NFTVaultInput>)
    ensures NFTVaultBatches(configurator, Chunk(inputs, INIT_CHUNKS)) ==
            seq(|inputs|, i requires 0 <= i < |inputs| => BatchInitNFTVault(configurator, [inputs[i]]))
  {
    ChunkSingletons(inputs);
  }

  /// `initNFTVaultByHelper`.
  method InitNFTVaultByHelper(env: Env, vaults: Dict<NFTVaultParams>, tokenAddresses: Dict<Address>,
                              baseURI: string, nTokenNamePrefix: string, symbolPrefix: string, marketId: string,
                              ntokenGetter: NFTVaultParams -> Address, verify: bool)
    returns (outcome: Result<()>)
    modifies env
    ensures env.db == old(env.db) && env.marketDb == old(env.marketDb) && env.nonce == old(env.nonce)
    ensures var ctx := VaultContext(tokenAddresses, baseURI, nTokenNamePrefix, ntokenGetter, env.marketDb, env.network);
            var plan := VaultPlan(vaults, ctx);
            var configurator := ContractsGetters.GetLendingPoolConfiguratorProxy(env.marketDb, marketId, env.network, None);
            if plan.Err? then outcome == Err(plan.msg) && env.trace == old(env.trace)
            else if configurator.Err? then outcome == Err(configurator.msg) && env.trace == old(env.trace)
            else outcome.Ok? && env.trace == old(env.trace) + NFTVaultBatches(configurator.value, Chunk(plan.value, INIT_CHUNKS))
  {
    var ctx := VaultContext(tokenAddresses, baseURI, nTokenNamePrefix, ntokenGetter, env.marketDb, env.network);
    var reserveSymbols: seq<string> := [];
    var inputs: seq<NFTVaultInput> := [];
    for i := 0 to |vaults|
      invariant VaultPlan(vaults[..i], ctx) == Ok(inputs)
      invariant |reserveSymbols| == |inputs|
      invariant forall j :: 0 <= j < |inputs| ==> reserveSymbols[j] == inputs[j].underlyingAssetName
    {
      var (symbol, params) := vaults[i];
      assert vaults[..i + 1][..i] == vaults[..i];
      if !HasTokenAddress(tokenAddresses, symbol) {
        continue;
      }
      var input := VaultInput(symbol, params, Get(tokenAddresses, symbol).value, ctx);
      if input.Err? {
        VaultPlanPrefixErr(vaults, ctx, i + 1);
        return Err(input.msg);
      }
      reserveSymbols := reserveSymbols + [symbol];
      inputs := inputs + [input.value];
    }
    assert vaults[..|vaults|] == vaults;
    var configurator := ContractsGetters.GetLendingPoolConfiguratorProxy(env.marketDb, marketId, env.network, None);
    if configurator.Err? {
      return Err(configurator.msg);
    }
    var chunked := Chunk(inputs, INIT_CHUNKS);
    for k := 0 to |chunked|
      invariant env.trace == old(env.trace) + NFTVaultBatches(configurator.value, chunked[..k])
      invariant env.db == old(env.db) && env.marketDb == old(env.marketDb) && env.nonce == old(env.nonce)
    {
      env.Send(BatchInitNFTVault(configurator.value, chunked[k]));
      assert NFTVaultBatches(configurator.value, chunked[..k + 1]) ==
             NFTVaultBatches(configurator.value, chunked[..k]) + [BatchInitNFTVault(configurator.value, chunked[k])];
    }
    assert chunked[..|chunked|] == chunked;
    return Ok(());
  }

  // ---------------------------------------------------------------------
  // initReservesByHelperV2

  const VARIABLE_DEBT_TOKEN := "VariableDebtToken"

  /// The pool name without its five-letter `Vinci` stem, for names longer
  /// than that.
  function SymbolPrefix(poolName: string): string
  {
    if |poolName| > 5 then poolName[5..] else ""
  }

  function NamePrefix(poolName: string): string
  {
    if |poolName| > 5 then poolName[5..] + "-" else ""
  }

  /// The prefixes of the three shipped pools, and of any `Vinci<Name>` pool.
  lemma PoolPrefixes(name: string)
    ensures SymbolPrefix(VINCI_POOL) == "" && NamePrefix(VINCI_POOL) == ""
    ensures SymbolPrefix(VINCI_BAYC_POOL) == "BAYC" && NamePrefix(VINCI_BAYC_POOL) == "BAYC-"
    ensures SymbolPrefix(VINCI_MAYC_POOL) == "MAYC" && NamePrefix(VINCI_MAYC_POOL) == "MAYC-"
    ensures name != "" ==> SymbolPrefix(VINCI_POOL + name) == name && NamePrefix(VINCI_POOL + name) == name + "-"
  {
    assert (VINCI_POOL + name)[5..] == name;
  }

  /// What `initReservesByHelperV2` reads besides the reserve list.
  /// `rateStrategy` stands for `getRateStrategy(name, marketId).address`.
  datatype ReserveContext = ReserveContext(
    tokenAddresses: Dict<Address>,
    vTokenNamePrefix: string,
    variableDebtTokenNamePrefix: string,
    treasury: Address,
    incentivesController: Address,
    poolName: string,
    marketId: string,
    markets: Markets,
    db: Store,
    network: string,
    fork: Option<string>,
    rateStrategy: (string, string) -> Address)

  /// The `batchInitReserve` input of one kept reserve.
  function ReserveInputOf(symbol: string, params: ReserveParams, tokenAddress: Address, ctx: ReserveContext): Result<ReserveInput>
  {
    var vTokenImpl := GetContractAddressWithJsonFallback(params.vTokenImpl, ctx.poolName, ctx.markets,
                                                          ctx.db, ctx.network, ctx.fork);
    var variableDebtTokenImpl := GetContractAddressWithJsonFallback(VARIABLE_DEBT_TOKEN, ctx.poolName, ctx.markets,
                                                                     ctx.db, ctx.network, ctx.fork);
    if vTokenImpl.Err? then Err(vTokenImpl.msg)
    else if variableDebtTokenImpl.Err? then Err(variableDebtTokenImpl.msg)
    else
      var symbolPrefix := SymbolPrefix(ctx.poolName);
      var namePrefix := NamePrefix(ctx.poolName);
      Ok(ReserveInput(
        vTokenImpl.value, ZERO_ADDRESS, variableDebtTokenImpl.value, params.reserveDecimals,
        ctx.rateStrategy(params.strategy.name, ctx.marketId), tokenAddress, ctx.treasury,
        ctx.incentivesController, symbol,
        ctx.vTokenNamePrefix + " " + namePrefix + symbol, "v" + symbolPrefix + symbol,
        ctx.variableDebtTokenNamePrefix + " " + namePrefix + symbol, "vDebt" + symbolPrefix + symbol,
        "", "", GetVTokenExtraParams(params.vTokenImpl, tokenAddress)))
  }

  /// The loop of `initReservesByHelperV2`: one input per kept reserve, in
  /// order, or the first failure.
  function ReservePlan(reserves: Dict<ReserveParams>, ctx: ReserveContext): Result<seq<ReserveInput>>
  {
    if reserves == [] then Ok([])
    else
      var n := |reserves| - 1;
      var prev := ReservePlan(reserves[..n], ctx);
      var (symbol, params) := reserves[n];
      if prev.Err? then prev
      else if !HasTokenAddress(ctx.tokenAddresses, symbol) then prev
      else match ReserveInputOf(symbol, params, Get(ctx.tokenAddresses, symbol).value, ctx)
        case Err(msg) => Err(msg)
        case Ok(input) => Ok(prev.value + [input])
  }

  /// A reserve the walk stops at: it has a token address and its input fails.
  predicate ReserveFails(reserve: (string, ReserveParams), ctx: ReserveContext)
  {
    HasTokenAddress(ctx.tokenAddresses, reserve.0)
    && ReserveInputOf(reserve.0, reserve.1, Get(ctx.tokenAddresses, reserve.0).value, ctx).Err?
  }

  /// One more reserve of the walk fails it exactly when the walk had
  /// already failed or that reserve fails.
  lemma ReservePlanStepFails(reserves: Dict<ReserveParams>, ctx: ReserveContext)
    requires reserves != []
    ensures ReservePlan(reserves, ctx).Err? <==>
            ReservePlan(reserves[..|reserves| - 1], ctx).Err? || ReserveFails(reserves[|reserves| - 1], ctx)
  {
  }

  /// The walk fails exactly when some reserve with a token address has an
  /// input that fails.
  lemma {:induction false} ReservePlanFails(reserves: Dict<ReserveParams>, ctx: ReserveContext)
    ensures ReservePlan(reserves, ctx).Err? <==> exists i :: 0 <= i < |reserves| && ReserveFails(reserves[i], ctx)
  {
    if reserves != [] {
      var n := |reserves| - 1;
      var pre := reserves[..n];
      ReservePlanFails(pre, ctx);
      ReservePlanStepFails(reserves, ctx);
      if ReservePlan(pre, ctx).Err? {
        var i :| 0 <= i < n && ReserveFails(pre[i], ctx);
        assert reserves[i] == pre[i];
      } else if !ReserveFails(reserves[n], ctx) {
        forall i | 0 <= i < |reserves|
          ensures !ReserveFails(reserves[i], ctx)
        {
          if i < n {
            assert reserves[i] == pre[i];
          }
        }
      }
    }
  }

  /// The walk submits exactly the kept reserves, in order, each with its own
  /// input, and fails exactly when a reserve with a token address has an
  /// input that fails.
  lemma {:induction false} ReservePlanSpec(reserves: Dict<ReserveParams>, ctx: ReserveContext)
    ensures var r := ReservePlan(reserves, ctx);
            var kept := KeptEntries(reserves, ctx.tokenAddresses);
            && (r.Ok? ==>
                  && |r.value| == |kept|
                  && forall i :: 0 <= i < |kept| ==>
                       HasTokenAddress(ctx.tokenAddresses, kept[i].0)
                       && ReserveInputOf(kept[i].0, kept[i].1, Get(ctx.tokenAddresses, kept[i].0).value, ctx) == Ok(r.value[i]))
            && (r.Err? <==> exists i :: 0 <= i < |reserves| && ReserveFails(reserves[i], ctx))
  {
    ReservePlanFails(reserves, ctx);
    if reserves != [] {
      var n := |reserves| - 1;
      ReservePlanSpec(reserves[..n], ctx);
      var prevKept := KeptEntries(reserves[..n], ctx.tokenAddresses);
      var kept := KeptEntries(reserves, ctx.tokenAddresses);
      var prev := ReservePlan(reserves[..n], ctx);
      var r := ReservePlan(reserves, ctx);
      var (symbol, params) := reserves[n];
      if r.Ok? {
        assert prev.Ok?;
        if HasTokenAddress(ctx.tokenAddresses, symbol) {
          assert kept == prevKept + [reserves[n]];
          var input := ReserveInputOf(symbol, params, Get(ctx.tokenAddresses, symbol).value, ctx);
          assert r == Ok(prev.value + [input.value]);
          forall i | 0 <= i < |kept|
            ensures HasTokenAddress(ctx.tokenAddresses, kept[i].0)
            ensures ReserveInputOf(kept[i].0, kept[i].1, Get(ctx.tokenAddresses, kept[i].0).value, ctx) == Ok(r.value[i])
          {
            if i < |prevKept| {
              assert kept[i] == prevKept[i] && r.value[i] == prev.value[i];
            }
          }
        } else {
          assert kept == prevKept;
        }
      }
    }
  }

  lemma {:induction false} ReservePlanPrefixErr(reserves: Dict<ReserveParams>, ctx: ReserveContext, i: nat)
    requires i <= |reserves| && ReservePlan(reserves[..i], ctx).Err?
    ensures ReservePlan(reserves, ctx) == ReservePlan(reserves[..i], ctx)
  {
    if i == |reserves| {
      assert reserves[..i] == reserves;
    } else {
      var n := |reserves| - 1;
      assert reserves[..n][..i] == reserves[..i];
      ReservePlanPrefixErr(reserves[..n], ctx, i);
    }
  }

  /// The fields of a reserve input: the prefixed names and symbols, a zero
  /// stable-debt implementation with empty stable-debt name and symbol, the
  /// market's token address and the implementations the JSON fallback finds.
  lemma ReserveInputFields(symbol: string, params: ReserveParams, tokenAddress: Address, ctx: ReserveContext)
    ensures var r := ReserveInputOf(symbol, params, tokenAddress, ctx);
            r.Ok? ==>
              && r.value.underlyingAssetName == symbol
              && r.value.underlyingAsset == tokenAddress
              && r.value.vTokenName == ctx.vTokenNamePrefix + " " + NamePrefix(ctx.poolName) + symbol
              && r.value.vTokenSymbol == "v" + SymbolPrefix(ctx.poolName) + symbol
              && r.value.variableDebtTokenName == ctx.variableDebtTokenNamePrefix + " " + NamePrefix(ctx.poolName) + symbol
              && r.value.variableDebtTokenSymbol == "vDebt" + SymbolPrefix(ctx.poolName) + symbol
              && r.value.stableDebtTokenImpl == ZERO_ADDRESS
              && r.value.stableDebtTokenName == "" && r.value.stableDebtTokenSymbol == ""
              && r.value.underlyingAssetDecimals == params.reserveDecimals
              && Ok(r.value.vTokenImpl) == GetContractAddressWithJsonFallback(params.vTokenImpl, ctx.poolName,
                   ctx.markets, ctx.db, ctx.network, ctx.fork)
              && r.value.params == "0x10"
  {
  }

  /// `initReservesByHelperV2`: all kept reserves go in one `batchInitReserve`,
  /// sent even when nothing is kept.
  method InitReservesByHelperV2(env: Env, reserves: Dict<ReserveParams>, tokenAddresses: Dict<Address>,
                                vTokenNamePrefix: string, variableDebtTokenNamePrefix: string,
                                treasuryAddress: Address, incentivesController: Address, poolName: string,
                                markets: Markets, rateStrategy: (string, string) -> Address)
    returns (outcome: Result<()>)
    modifies env
    ensures env.db == old(env.db) && env.marketDb == old(env.marketDb) && env.nonce == old(env.nonce)
    ensures LoadPoolConfig(poolName, markets).Err? ==>
              outcome == Err(LoadPoolConfig(poolName, markets).msg) && env.trace == old(env.trace)
    ensures LoadPoolConfig(poolName, markets).Ok? ==>
              var marketId := LoadPoolConfig(poolName, markets).value.MarketId;
              var ctx := ReserveContext(tokenAddresses, vTokenNamePrefix, variableDebtTokenNamePrefix, treasuryAddress,
                                        incentivesController, poolName, marketId, markets, env.db, env.network,
                                        env.fork, rateStrategy);
              var plan := ReservePlan(reserves, ctx);
              var configurator := ContractsGetters.GetLendingPoolConfiguratorProxy(env.marketDb, marketId, env.network, None);
              if plan.Err? then outcome == Err(plan.msg) && env.trace == old(env.trace)
              else if configurator.Err? then outcome == Err(configurator.msg) && env.trace == old(env.trace)
              else outcome.Ok? && env.trace == old(env.trace) + [BatchInitReserve(configurator.value, plan.value)]
  {
    var poolConfig := LoadPoolConfig(poolName, markets);
    if poolConfig.Err? {
      return Err(poolConfig.msg);
    }
    var ctx := ReserveContext(tokenAddresses, vTokenNamePrefix, variableDebtTokenNamePrefix, treasuryAddress,
                              incentivesController, poolName, poolConfig.value.MarketId, markets, env.db, env.network,
                              env.fork, rateStrategy);
    var reserveSymbols: seq<string> := [];
    var initInputParams: seq<ReserveInput> := [];
    for i := 0 to |reserves|
      invariant ReservePlan(reserves[..i], ctx) == Ok(initInputParams)
      invariant |reserveSymbols| == |initInputParams|
      invariant forall j :: 0 <= j < |initInputParams| ==> reserveSymbols[j] == initInputParams[j].underlyingAssetName
    {
      var (symbol, params) := reserves[i];
      assert reserves[..i + 1][..i] == reserves[..i];
      if !HasTokenAddress(tokenAddresses, symbol) {
        continue;
      }
      var input := ReserveInputOf(symbol, params, Get(tokenAddresses, symbol).value, ctx);
      if input.Err? {
        ReservePlanPrefixErr(reserves, ctx, i + 1);
        return Err(input.msg);
      }
      reserveSymbols := reserveSymbols + [symbol];
      initInputParams := initInputParams + [input.value];
    }
    assert reserves[..|reserves|] == reserves;
    var configurator := ContractsGetters.GetLendingPoolConfiguratorProxy(env.marketDb, poolConfig.value.MarketId,
                                                                       env.network, None);
    if configurator.Err? {
      return Err(configurator.msg);
    }
    env.Send(BatchInitReserve(configurator.value, initInputParams));
    return Ok(());
  }

  // ---------------------------------------------------------------------
  // configureReservesByHelper

  /// One entry of `inputParams` in `configureReservesByHelper`.
  datatype ReserveConfigInput = ReserveConfigInput(
    asset: Address,
    baseLTV: string,
    liquidationThreshold: string,
    liquidationBonus: string,
    reserveFactor: string,
    stableBorrowingEnabled: bool,
    borrowingEnabled: bool)

  function ReserveConfigOf(tokenAddress: Address, params: ReserveParams): ReserveConfigInput
  {
    ReserveConfigInput(tokenAddress, params.baseLTVAsCollateral, params.liquidationThreshold,
                       params.liquidationBonus, params.reserveFactor, params.stableBorrowRateEnabled,
                       params.borrowingEnabled)
  }

  /// The first loop of `configureReservesByHelper`: one input per reserve
  /// with a token address and an LTV other than `'-1'`, in order.
  function ReserveConfigInputs(reserves: Dict<ReserveParams>, tokenAddresses: Dict<Address>): seq<ReserveConfigInput>
  {
    if reserves == [] then []
    else
      var n := |reserves| - 1;
      var prev := ReserveConfigInputs(reserves[..n], tokenAddresses);
      var (symbol, params) := reserves[n];
      if !HasTokenAddress(tokenAddresses, symbol) || params.baseLTVAsCollateral == "-1" then prev
      else prev + [ReserveConfigOf(Get(tokenAddresses, symbol).value, params)]
  }
  /// One input per configured entry, in order, built from that entry.
  lemma {:induction false} ReserveConfigInputsSpec(reserves: Dict<ReserveParams>, tokenAddresses: Dict<Address>)
    ensures var r := ReserveConfigInputs(reserves, tokenAddresses);
            var kept := ConfigurableEntries(reserves, tokenAddresses, ReserveLtv);
            && |r| == |kept|
            && forall i :: 0 <= i < |kept| ==>
                 HasTokenAddress(tokenAddresses, kept[i].0)
                 && r[i] == ReserveConfigOf(Get(tokenAddresses, kept[i].0).value, kept[i].1)
  {
    if reserves != [] {
      var n := |reserves| - 1;
      ReserveConfigInputsSpec(reserves[..n], tokenAddresses);
    }
  }


  /// The configurator calls of the second loop: per reserve, borrowing is
  /// enabled when asked for, then the reserve factor is set.
  function ReserveConfigTxs(configurator: Address, inputs: seq<ReserveConfigInput>): seq<Tx>
  {
    if inputs == [] then []
    else
      var n := |inputs| - 1;
      var input := inputs[n];
      ReserveConfigTxs(configurator, inputs[..n])
      + (if input.borrowingEnabled then [EnableBorrowingOnReserve(configurator, input.asset, input.stableBorrowingEnabled)] else [])
      + [SetReserveFactor(configurator, input.asset, input.reserveFactor)]
  }

  /// The calls go reserve by reserve: those of a concatenation are those of
  /// its parts, one after the other.
  lemma {:induction false} ReserveConfigTxsAppend(configurator: Address, a: seq<ReserveConfigInput>, b: seq<ReserveConfigInput>)
    ensures ReserveConfigTxs(configurator, a + b) == ReserveConfigTxs(configurator, a) + ReserveConfigTxs(configurator, b)
  {
    if b != [] {
      var n := |b| - 1;
      assert (a + b)[..|a| + n] == a + b[..n];
      ReserveConfigTxsAppend(configurator, a, b[..n]);
    } else {
      assert a + b == a;
    }
  }

  /// A reserve's own calls: `setReserveFactor` always, preceded by
  /// `enableBorrowingOnReserve` exactly when borrowing is enabled.
  lemma ReserveConfigTxsOne(configurator: Address, input: ReserveConfigInput)
    ensures var txs := ReserveConfigTxs(configurator, [input]);
            && txs[|txs| - 1] == SetReserveFactor(configurator, input.asset, input.reserveFactor)
            && (|txs| == 2 <==> input.borrowingEnabled)
            && (input.borrowingEnabled ==> txs[0] == EnableBorrowingOnReserve(configurator, input.asset, input.stableBorrowingEnabled))
            && |txs| <= 2
  {
    assert [input][..0] == [];
  }

  /// `configureReservesByHelper`.
  method ConfigureReservesByHelper(env: Env, reserves: Dict<ReserveParams>, tokenAddresses: Dict<Address>,
                                   marketId: string)
    returns (outcome: Result<()>)
    modifies env
    ensures env.db == old(env.db) && env.marketDb == old(env.marketDb) && env.nonce == old(env.nonce)
    ensures var configurator := ContractsGetters.GetLendingPoolConfiguratorProxy(env.marketDb, marketId, env.network, None);
            if configurator.Err? then outcome == Err(configurator.msg) && env.trace == old(env.trace)
            else outcome.Ok?
                 && env.trace == old(env.trace) + ReserveConfigTxs(configurator.value, ReserveConfigInputs(reserves, tokenAddresses))
  {
    var tokens: seq<Address> := [];
    var symbols: seq<string> := [];
    var inputParams: seq<ReserveConfigInput> := [];
    for i := 0 to |reserves|
      invariant inputParams == ReserveConfigInputs(reserves[..i], tokenAddresses)
      invariant |symbols| == |tokens|
      invariant |tokens| == |inputParams| && forall j :: 0 <= j < |tokens| ==> tokens[j] == inputParams[j].asset
    {
      var (assetSymbol, params) := reserves[i];
      assert reserves[..i + 1][..i] == reserves[..i];
      if !HasTokenAddress(tokenAddresses, assetSymbol) {
        continue;
      }
      if params.baseLTVAsCollateral == "-1" {
        continue;
      }
      var tokenAddress := Get(tokenAddresses, assetSymbol).value;
      inputParams := inputParams + [ReserveConfigOf(tokenAddress, params)];
      tokens := tokens + [tokenAddress];
      symbols := symbols + [assetSymbol];
    }
    assert reserves[..|reserves|] == reserves;
    var configurator := ContractsGetters.GetLendingPoolConfiguratorProxy(env.marketDb, marketId, env.network, None);
    if configurator.Err? {
      return Err(configurator.msg);
    }
    if |tokens| > 0 {
      for index := 0 to |inputParams|
        invariant env.trace == old(env.trace) + ReserveConfigTxs(configurator.value, inputParams[..index])
        invariant env.db == old(env.db) && env.marketDb == old(env.marketDb) && env.nonce == old(env.nonce)
      {
        var inputParam := inputParams[index];
        assert inputParams[..index + 1][..index] == inputParams[..index];
        if inputParam.borrowingEnabled {
          env.Send(EnableBorrowingOnReserve(configurator.value, inputParam.asset, inputParam.stableBorrowingEnabled));
        }
        env.Send(SetReserveFactor(configurator.value, inputParam.asset, inputParam.reserveFactor));
      }
      assert inputParams[..|inputParams|] == inputParams;
    }
    return Ok(());
  }

  // ---------------------------------------------------------------------
  // configureNFTVaultByHelper

  /// One entry of `inputParams` in `configureNFTVaultByHelper`.
  datatype VaultConfigInput = VaultConfigInput(
    asset: Address,
    baseLTV: string,
    liquidationThreshold: string,
    liquidationBonus: string,
    lockdropExpiration: string)

  function VaultConfigOf(tokenAddress: Address, params: NFTVaultParams): VaultConfigInput
  {
    VaultConfigInput(tokenAddress, params.baseLTVAsCollateral, params.liquidationThreshold,
                     params.liquidationBonus, params.lockdropExpiration)
  }

  /// The first loop of `configureNFTVaultByHelper`.
  function VaultConfigInputs(vaults: Dict<NFTVaultParams>, tokenAddresses: Dict<Address>): seq<VaultConfigInput>
  {
    if vaults == [] then []
    else
      var n := |vaults| - 1;
      var prev := VaultConfigInputs(vaults[..n], tokenAddresses);
      var (symbol, params) := vaults[n];
      if !HasTokenAddress(tokenAddresses, symbol) || params.baseLTVAsCollateral == "-1" then prev
      else prev + [VaultConfigOf(Get(tokenAddresses, symbol).value, params)]
  }
  /// One input per configured entry, in order, built from that entry.
  lemma {:induction false} VaultConfigInputsSpec(vaults: Dict<NFTVaultParams>, tokenAddresses: Dict<Address>)
    ensures var r := VaultConfigInputs(vaults, tokenAddresses);
            var kept := ConfigurableEntries(vaults, tokenAddresses, VaultLtv);
            && |r| == |kept|
            && forall i :: 0 <= i < |kept| ==>
                 HasTokenAddress(tokenAddresses, kept[i].0)
                 && r[i] == VaultConfigOf(Get(tokenAddresses, kept[i].0).value, kept[i].1)
  {
    if vaults != [] {
      var n := |vaults| - 1;
      VaultConfigInputsSpec(vaults[..n], tokenAddresses);
    }
  }


  /// The configurator calls of the second loop: per vault, the collateral
  /// parameters, then the action expiration.
  function VaultConfigTxs(configurator: Address, inputs: seq<VaultConfigInput>): seq<Tx>
  {
    if inputs == [] then []
    else
      var n := |inputs| - 1;
      var input := inputs[n];
      VaultConfigTxs(configurator, inputs[..n])
      + [ConfigureNFTVaultAsCollateral(configurator, input.asset, input.baseLTV, input.liquidationThreshold, input.liquidationBonus),
         UpdateNFTVaultActionExpiration(configurator, input.asset, input.lockdropExpiration)]
  }

  /// Two calls per vault, in vault order: call `2i` configures vault `i` as
  /// collateral and call `2i + 1` sets its expiration.
  lemma {:induction false} VaultConfigTxsShape(configurator: Address, inputs: seq<VaultConfigInput>)
    ensures var txs := VaultConfigTxs(configurator, inputs);
            && |txs| == 2 * |inputs|
            && forall i :: 0 <= i < |inputs| ==>
                 txs[2 * i] == ConfigureNFTVaultAsCollateral(configurator, inputs[i].asset, inputs[i].baseLTV,
                                                             inputs[i].liquidationThreshold, inputs[i].liquidationBonus)
                 && txs[2 * i + 1] == UpdateNFTVaultActionExpiration(configurator, inputs[i].asset, inputs[i].lockdropExpiration)
  {
    if inputs != [] {
      var n := |inputs| - 1;
      VaultConfigTxsShape(configurator, inputs[..n]);
    }
  }

  /// `configureNFTVaultByHelper`.
  method ConfigureNFTVaultByHelper(env: Env, vaults: Dict<NFTVaultParams>, tokenAddresses: Dict<Address>,
                                   marketId: string)
    returns (outcome: Result<()>)
    modifies env
    ensures env.db == old(env.db) && env.marketDb == old(env.marketDb) && env.nonce == old(env.nonce)
    ensures var configurator := ContractsGetters.GetLendingPoolConfiguratorProxy(env.marketDb, marketId, env.network, None);
            if configurator.Err? then outcome == Err(configurator.msg) && env.trace == old(env.trace)
            else outcome.Ok?
                 && env.trace == old(env.trace) + VaultConfigTxs(configurator.value, VaultConfigInputs(vaults, tokenAddresses))
  {
    var tokens: seq<Address> := [];
    var symbols: seq<string> := [];
    var inputParams: seq<VaultConfigInput> := [];
    for i := 0 to |vaults|
      invariant inputParams == VaultConfigInputs(vaults[..i], tokenAddresses)
      invariant |symbols| == |tokens|
      invariant |tokens| == |inputParams| && forall j :: 0 <= j < |tokens| ==> tokens[j] == inputParams[j].asset
    {
      var (assetSymbol, params) := vaults[i];
      assert vaults[..i + 1][..i] == vaults[..i];
      if !HasTokenAddress(tokenAddresses, assetSymbol) {
        continue;
      }
      if params.baseLTVAsCollateral == "-1" {
        continue;
      }
      var tokenAddress := Get(tokenAddresses, assetSymbol).value;
      inputParams := inputParams + [VaultConfigOf(tokenAddress, params)];
      tokens := tokens + [tokenAddress];
      symbols := symbols + [assetSymbol];
    }
    assert vaults[..|vaults|] == vaults;
    var configurator := ContractsGetters.GetLendingPoolConfiguratorProxy(env.marketDb, marketId, env.network, None);
    if configurator.Err? {
      return Err(configurator.msg);
    }
    if |tokens| > 0 {
      for index := 0 to |inputParams|
        invariant env.trace == old(env.trace) + VaultConfigTxs(configurator.value, inputParams[..index])
        invariant env.db == old(env.db) && env.marketDb == old(env.marketDb) && env.nonce == old(env.nonce)
      {
        var inputParam := inputParams[index];
        assert inputParams[..index + 1][..index] == inputParams[..index];
        env.Send(ConfigureNFTVaultAsCollateral(configurator.value, inputParam.asset, inputParam.baseLTV,
                                               inputParam.liquidationThreshold, inputParam.liquidationBonus));
        env.Send(UpdateNFTVaultActionExpiration(configurator.value, inputParam.asset, inputParam.lockdropExpiration));
      }
      assert inputParams[..|inputParams|] == inputParams;
    }
    return Ok(());
  }

  // ---------------------------------------------------------------------
  // updateNToken

  /// The `updateNToken` input for one vault of the configuration; the
  /// vault is not skipped when it has no token address.
  function UpdateNTokenInputOf(symbol: string, params: NFTVaultParams, tokenAddresses: Dict<Address>,
                               nTokenNamePrefix: string, ntokenGetter: NFTVaultParams -> Address,
                               baseURI: string): UpdateNTokenInput
  {
    var asset := Get(tokenAddresses, symbol);
    var ntoken := ntokenGetter(params);
    UpdateNTokenInput(asset, nTokenNamePrefix + " " + params.name, "v" + params.symbol, ntoken,
                      GetNTokenExtraParams(if asset.Some? then asset.value else "undefined", ntoken), baseURI)
  }

  /// One `updateNToken` call per configured vault, in order.
  function UpdateNTokenTxs(configurator: Address, vaults: Dict<NFTVaultParams>, tokenAddresses: Dict<Address>,
                           nTokenNamePrefix: string, ntokenGetter: NFTVaultParams -> Address, baseURI: string): seq<Tx>
  {
    seq(|vaults|, i requires 0 <= i < |vaults| =>
      UpdateNToken(configurator, UpdateNTokenInputOf(vaults[i].0, vaults[i].1, tokenAddresses, nTokenNamePrefix,
                                                     ntokenGetter, baseURI)))
  }

  /// `updateNToken` re-derives what `initNFTVaultByHelper` set for a vault
  /// initialised with the same prefix, getter and base URI: the same name,
  /// symbol, implementation, extra params and underlying asset.
  lemma UpdateMatchesInit(symbol: string, params: NFTVaultParams, ctx: VaultContext)
    requires HasTokenAddress(ctx.tokenAddresses, symbol)
    requires VaultInput(symbol, params, Get(ctx.tokenAddresses, symbol).value, ctx).Ok?
    ensures var init := VaultInput(symbol, params, Get(ctx.tokenAddresses, symbol).value, ctx).value;
            var update := UpdateNTokenInputOf(symbol, params, ctx.tokenAddresses, ctx.nTokenNamePrefix,
                                              ctx.ntokenGetter, ctx.baseURI);
            && update.name == init.nTokenName && update.symbol == init.nTokenSymbol
            && update.implementation == init.nTokenImpl && update.params == init.params
            && update.asset == Some(init.underlyingAsset) && update.baseURI == init.baseURI
  {
  }

  /// `updateNToken(tokenAddresses, ntokenGetter, poolName)`.
  method UpdateNTokens(env: Env, tokenAddresses: Dict<Address>, ntokenGetter: NFTVaultParams -> Address,
                       poolName: string, markets: Markets)
    returns (outcome: Result<()>)
    modifies env
    ensures env.db == old(env.db) && env.marketDb == old(env.marketDb) && env.nonce == old(env.nonce)
    ensures LoadPoolConfig(poolName, markets).Err? ==>
              outcome == Err(LoadPoolConfig(poolName, markets).msg) && env.trace == old(env.trace)
    ensures LoadPoolConfig(poolName, markets).Ok? ==>
              var config := LoadPoolConfig(poolName, markets).value;
              var configurator := ContractsGetters.GetLendingPoolConfiguratorProxy(env.marketDb, config.MarketId, env.network, None);
              if configurator.Err? then outcome == Err(configurator.msg) && env.trace == old(env.trace)
              else outcome.Ok? && env.trace == old(env.trace) +
                   UpdateNTokenTxs(configurator.value, config.NFTVaultConfig, tokenAddresses, config.NTokenNamePrefix,
                                   ntokenGetter, config.BaseURI)
  {
    var poolConfig := LoadPoolConfig(poolName, markets);
    if poolConfig.Err? {
      return Err(poolConfig.msg);
    }
    var config := poolConfig.value;
    var configurator := ContractsGetters.GetLendingPoolConfiguratorProxy(env.marketDb, config.MarketId, env.network, None);
    if configurator.Err? {
      return Err(configurator.msg);
    }
    var vaults := config.NFTVaultConfig;
    for i := 0 to |vaults|
      invariant env.trace == old(env.trace) + UpdateNTokenTxs(configurator.value, vaults[..i], tokenAddresses,
                                                              config.NTokenNamePrefix, ntokenGetter, config.BaseURI)
      invariant env.db == old(env.db) && env.marketDb == old(env.marketDb) && env.nonce == old(env.nonce)
    {
      var (symbol, params) := vaults[i];
      var input := UpdateNTokenInputOf(symbol, params, tokenAddresses, config.NTokenNamePrefix, ntokenGetter, config.BaseURI);
      env.Send(UpdateNToken(configurator.value, input));
      assert UpdateNTokenTxs(configurator.value, vaults[..i + 1], tokenAddresses, config.NTokenNamePrefix, ntokenGetter, config.BaseURI)
          == UpdateNTokenTxs(configurator.value, vaults[..i], tokenAddresses, config.NTokenNamePrefix, ntokenGetter, config.BaseURI)
             + [UpdateNToken(configurator.value, input)];
    }
    assert vaults[..|vaults|] == vaults;
    return Ok(());
  }

  // ---------------------------------------------------------------------
  // getPairsTokenAggregator (init-helpers variant)

  /// The symbols this variant always drops, whatever the quote currency.
  const DROPPED_SYMBOLS := ["ETH", "USD", "WETH"]

  /// `getPairsTokenAggregator(allAssetsAddresses, aggregatorsAddresses)`:
  /// ETH, USD and WETH are destructured away, the rest is paired.
  function GetPairsTokenAggregator(assets: Dict<Address>, aggregators: Dict<Address>): Result<(seq<Address>, seq<Address>)>
  {
    ContractsGetters.PairWithAggregators(Omit(assets, DROPPED_SYMBOLS), aggregators)
  }

  /// This variant never outputs ETH, USD or WETH, keeps the other assets in
  /// map order paired with the aggregator under the same symbol, and fails
  /// exactly when one of them has no aggregator.
  lemma PairsTokenAggregatorSpec(assets: Dict<Address>, aggregators: Dict<Address>)
    requires DistinctKeys(assets)
    ensures var r := GetPairsTokenAggregator(assets, aggregators);
            var symbols := FilterOut(Keys(assets), DROPPED_SYMBOLS);
            && (r.Ok? <==> forall s :: s in symbols ==> s in Keys(aggregators))
            && (r.Ok? ==>
                  && |r.value.0| == |symbols| == |r.value.1|
                  && forall i :: 0 <= i < |symbols| ==>
                       symbols[i] != "ETH" && symbols[i] != "USD" && symbols[i] != "WETH"
                       && Get(assets, symbols[i]) == Some(r.value.0[i])
                       && Get(aggregators, symbols[i]) == Some(r.value.1[i]))
  {
    ContractsGetters.PairsAfterOmit(assets, aggregators, DROPPED_SYMBOLS);
  }
}
