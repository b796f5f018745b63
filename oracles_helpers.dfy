/// The oracle set-up of `helpers/oracles-helpers.ts`: per-asset borrow
/// rates and prices sent to the rate and price oracles, and the mock price
/// aggregators deployed one per priced token.
module OraclesHelpers {
  import opened Base
  import opened ContractsHelpers
  import opened Runtime
  import opened ContractsDeployments

  // ---------------------------------------------------------------------
  // Resolving symbols to asset addresses

  /// A symbol resolves when `findIndex` finds it among the asset keys and,
  /// where falsy addresses are skipped, the address found is not empty.
  predicate Resolves(assets: Dict<Address>, skipFalsy: bool, symbol: string)
  {
    var a := Get(assets, symbol);
    a.Some? && !(skipFalsy && a.value == "")
  }

  /// The entries of a symbol-keyed object whose symbol resolves, in the
  /// object's order, each as (symbol, asset address, value).
  function Resolved(entries: Dict<string>, assets: Dict<Address>, skipFalsy: bool): seq<(string, Address, string)>
  {
    if entries == [] then []
    else
      var n := |entries| - 1;
      var prev := Resolved(entries[..n], assets, skipFalsy);
      if Resolves(assets, skipFalsy, entries[n].0)
      then prev + [(entries[n].0, Get(assets, entries[n].0).value, entries[n].1)]
      else prev
  }

  /// One more entry of the walk.
  lemma ResolvedStep(entries: Dict<string>, assets: Dict<Address>, skipFalsy: bool, i: nat)
    requires i < |entries|
    ensures Resolved(entries[..i + 1], assets, skipFalsy) ==
            if Resolves(assets, skipFalsy, entries[i].0)
            then Resolved(entries[..i], assets, skipFalsy) + [(entries[i].0, Get(assets, entries[i].0).value, entries[i].1)]
            else Resolved(entries[..i], assets, skipFalsy)
  {
    assert entries[..i + 1][..i] == entries[..i];
  }

  /// What is kept: exactly the entries whose symbol resolves, each with the
  /// address its symbol reads in the asset map and its own value; nothing
  /// is kept exactly when no symbol resolves.
  lemma {:induction false} ResolvedSpec(entries: Dict<string>, assets: Dict<Address>, skipFalsy: bool)
    ensures var r := Resolved(entries, assets, skipFalsy);
            && |r| <= |entries|
            && (forall t :: t in r ==>
                  Resolves(assets, skipFalsy, t.0) && Get(assets, t.0) == Some(t.1) && (t.0, t.2) in entries)
            && (forall i :: 0 <= i < |entries| && Resolves(assets, skipFalsy, entries[i].0) ==>
                  (entries[i].0, Get(assets, entries[i].0).value, entries[i].1) in r)
            && (r == [] <==> forall i :: 0 <= i < |entries| ==> !Resolves(assets, skipFalsy, entries[i].0))
  {
    if entries != [] {
      var n := |entries| - 1;
      var prefix := entries[..n];
      ResolvedSpec(prefix, assets, skipFalsy);
      var r := Resolved(entries, assets, skipFalsy);
      var prev := Resolved(prefix, assets, skipFalsy);
      assert forall i :: 0 <= i < n ==> entries[i] == prefix[i];
      forall t | t in r
        ensures (t.0, t.2) in entries
      {
        if t in prev {
          assert (t.0, t.2) in prefix;
        }
      }
      if Resolves(assets, skipFalsy, entries[n].0) {
        assert r[|r| - 1] == (entries[n].0, Get(assets, entries[n].0).value, entries[n].1);
      }
    }
  }

  /// The walk keeps order: what the first `i` entries keep is where the
  /// whole walk starts.
  lemma {:induction false} ResolvedPrefix(entries: Dict<string>, assets: Dict<Address>, skipFalsy: bool, i: nat)
    requires i <= |entries|
    ensures Resolved(entries[..i], assets, skipFalsy) <= Resolved(entries, assets, skipFalsy)
  {
    if i < |entries| {
      var n := |entries| - 1;
      ResolvedPrefix(entries[..n], assets, skipFalsy, i);
      assert entries[..n][..i] == entries[..i];
    } else {
      assert entries[..i] == entries;
    }
  }

  /// When every symbol resolves, nothing is dropped: entry `k` is kept at
  /// position `k`.
  lemma {:induction false} ResolvedAll(entries: Dict<string>, assets: Dict<Address>, skipFalsy: bool)
    requires forall i :: 0 <= i < |entries| ==> Resolves(assets, skipFalsy, entries[i].0)
    ensures var r := Resolved(entries, assets, skipFalsy);
            && |r| == |entries|
            && forall k :: 0 <= k < |entries| ==>
                 Resolves(assets, skipFalsy, entries[k].0) &&
                 r[k] == (entries[k].0, Get(assets, entries[k].0).value, entries[k].1)
  {
    if entries != [] {
      var n := |entries| - 1;
      ResolvedAll(entries[..n], assets, skipFalsy);
    }
  }

  // ---------------------------------------------------------------------
  // Borrow rates

  /// One `setMarketBorrowRate(asset, rate)` per kept entry, in order.
  function MarketRateTxs(oracle: Address, kept: seq<(string, Address, string)>): (txs: seq<Tx>)
    ensures |txs| == |kept|
  {
    seq(|kept|, k requires 0 <= k < |kept| => SetMarketBorrowRate(oracle, kept[k].1, kept[k].2))
  }

  /// `setInitialMarketRatesInRatesOracleByHelper(marketRates, assetsAddresses,
  /// lendingRateOracleInstance)`; each market rate is its `borrowRate`.
  method SetInitialMarketRatesInRatesOracleByHelper(env: Env, marketRates: Dict<string>,
                                                    assetsAddresses: Dict<Address>, oracle: Address)
    modifies env
    ensures env.trace == old(env.trace) + MarketRateTxs(oracle, Resolved(marketRates, assetsAddresses, false))
    ensures env.db == old(env.db) && env.marketDb == old(env.marketDb) && env.nonce == old(env.nonce)
  {
    var assetAddresses: seq<Address> := [];
    var borrowRates: seq<string> := [];
    var symbols: seq<string> := [];
    for i := 0 to |marketRates|
      invariant var kept := Resolved(marketRates[..i], assetsAddresses, false);
                && |assetAddresses| == |kept| && |borrowRates| == |kept| && |symbols| == |kept|
                && forall k :: 0 <= k < |kept| ==> kept[k] == (symbols[k], assetAddresses[k], borrowRates[k])
      invariant env.trace == old(env.trace)
      invariant env.db == old(env.db) && env.marketDb == old(env.marketDb) && env.nonce == old(env.nonce)
    {
      ResolvedStep(marketRates, assetsAddresses, false, i);
      var (assetSymbol, borrowRate) := marketRates[i];
      var assetAddressIndex := FindIndex(Keys(assetsAddresses), assetSymbol);
      if assetAddressIndex >= 0 {
        var assetAddress := assetsAddresses[assetAddressIndex].1;
        assetAddresses := assetAddresses + [assetAddress];
        borrowRates := borrowRates + [borrowRate];
        symbols := symbols + [assetSymbol];
      }
    }
    assert marketRates[..|marketRates|] == marketRates;
    ghost var kept := Resolved(marketRates, assetsAddresses, false);
    if |assetAddresses| > 0 {
      for index := 0 to |assetAddresses|
        invariant env.trace == old(env.trace) + MarketRateTxs(oracle, kept[..index])
        invariant env.db == old(env.db) && env.marketDb == old(env.marketDb) && env.nonce == old(env.nonce)
      {
        env.Send(SetMarketBorrowRate(oracle, assetAddresses[index], borrowRates[index]));
        assert MarketRateTxs(oracle, kept[..index + 1]) ==
               MarketRateTxs(oracle, kept[..index]) + [SetMarketBorrowRate(oracle, assetAddresses[index], borrowRates[index])];
      }
      assert kept[..|assetAddresses|] == kept;
    }
  }

  /// The rate calls: one per rate whose symbol is an asset key, carrying
  /// that asset's address and that rate, in rate order; none when no symbol
  /// is an asset key.
  lemma MarketRatesSpec(oracle: Address, marketRates: Dict<string>, assetsAddresses: Dict<Address>)
    ensures var txs := MarketRateTxs(oracle, Resolved(marketRates, assetsAddresses, false));
            && |txs| <= |marketRates|
            && (forall i :: 0 <= i < |marketRates| && marketRates[i].0 in Keys(assetsAddresses) ==>
                  SetMarketBorrowRate(oracle, Get(assetsAddresses, marketRates[i].0).value, marketRates[i].1) in txs)
            && (forall tx :: tx in txs ==>
                  tx.SetMarketBorrowRate? && tx.oracle == oracle &&
                  exists i :: 0 <= i < |marketRates| && marketRates[i].1 == tx.rate &&
                              Get(assetsAddresses, marketRates[i].0) == Some(tx.asset))
            && (txs == [] <==> forall i :: 0 <= i < |marketRates| ==> marketRates[i].0 !in Keys(assetsAddresses))
  {
    var kept := Resolved(marketRates, assetsAddresses, false);
    var txs := MarketRateTxs(oracle, kept);
    assert |kept| <= |marketRates| by {
      ResolvedSpec(marketRates, assetsAddresses, false);
    }
    assert forall i :: 0 <= i < |marketRates| && marketRates[i].0 in Keys(assetsAddresses) ==>
             SetMarketBorrowRate(oracle, Get(assetsAddresses, marketRates[i].0).value, marketRates[i].1) in txs
    by {
      ResolvedSpec(marketRates, assetsAddresses, false);
      forall i | 0 <= i < |marketRates| && marketRates[i].0 in Keys(assetsAddresses)
        ensures SetMarketBorrowRate(oracle, Get(assetsAddresses, marketRates[i].0).value, marketRates[i].1) in txs
      {
        assert Resolves(assetsAddresses, false, marketRates[i].0);
        var k :| 0 <= k < |kept| && kept[k] == (marketRates[i].0, Get(assetsAddresses, marketRates[i].0).value, marketRates[i].1);
        assert txs[k] == SetMarketBorrowRate(oracle, kept[k].1, kept[k].2);
      }
    }
    assert forall tx :: tx in txs ==>
             tx.SetMarketBorrowRate? && tx.oracle == oracle &&
             exists i :: 0 <= i < |marketRates| && marketRates[i].1 == tx.rate &&
                         Get(assetsAddresses, marketRates[i].0) == Some(tx.asset)
    by {
      ResolvedSpec(marketRates, assetsAddresses, false);
      forall tx | tx in txs
        ensures tx.SetMarketBorrowRate? && tx.oracle == oracle
        ensures exists i :: 0 <= i < |marketRates| && marketRates[i].1 == tx.rate &&
                            Get(assetsAddresses, marketRates[i].0) == Some(tx.asset)
      {
        var k :| 0 <= k < |txs| && txs[k] == tx;
        assert kept[k] in kept;
        var i :| 0 <= i < |marketRates| && marketRates[i] == (kept[k].0, kept[k].2);
      }
    }
    assert txs == [] <==> forall i :: 0 <= i < |marketRates| ==> marketRates[i].0 !in Keys(assetsAddresses) by {
      ResolvedSpec(marketRates, assetsAddresses, false);
      assert forall i :: 0 <= i < |marketRates| ==>
               (Resolves(assetsAddresses, false, marketRates[i].0) <==> marketRates[i].0 in Keys(assetsAddresses));
    }
  }

  // ---------------------------------------------------------------------
  // Asset prices

  /// One `setAssetPrice(asset, price)` per kept entry, in order.
  function PriceTxs(oracle: Address, kept: seq<(string, Address, string)>): (txs: seq<Tx>)
    ensures |txs| == |kept|
  {
    seq(|kept|, k requires 0 <= k < |kept| => SetAssetPrice(oracle, kept[k].1, kept[k].2))
  }

  /// One more kept price, one more call at the end.
  lemma PriceTxsSnoc(oracle: Address, kept: seq<(string, Address, string)>, e: (string, Address, string))
    ensures PriceTxs(oracle, kept + [e]) == PriceTxs(oracle, kept) + [SetAssetPrice(oracle, e.1, e.2)]
  {
  }

  /// `setInitialAssetPricesInOracle(prices, assetsAddresses, priceOracleInstance)`:
  /// a symbol missing from the asset map or mapped to a falsy address is skipped.
  method SetInitialAssetPricesInOracle(env: Env, prices: Dict<string>, assetsAddresses: Dict<Address>,
                                       oracle: Address)
    modifies env
    ensures env.trace == old(env.trace) + PriceTxs(oracle, Resolved(prices, assetsAddresses, true))
    ensures env.db == old(env.db) && env.marketDb == old(env.marketDb) && env.nonce == old(env.nonce)
  {
    for i := 0 to |prices|
      invariant env.trace == old(env.trace) + PriceTxs(oracle, Resolved(prices[..i], assetsAddresses, true))
      invariant env.db == old(env.db) && env.marketDb == old(env.marketDb) && env.nonce == old(env.nonce)
    {
      ResolvedStep(prices, assetsAddresses, true, i);
      var (assetSymbol, price) := prices[i];
      var assetAddressIndex := FindIndex(Keys(assetsAddresses), assetSymbol);
      if assetAddressIndex >= 0 {
        var assetAddress := assetsAddresses[assetAddressIndex].1;
        if assetAddress != "" {
          ghost var prev := Resolved(prices[..i], assetsAddresses, true);
          env.Send(SetAssetPrice(oracle, assetAddress, price));
          assert PriceTxs(oracle, prev + [(assetSymbol, assetAddress, price)]) ==
                 PriceTxs(oracle, prev) + [SetAssetPrice(oracle, assetAddress, price)];
        }
      }
    }
    assert prices[..|prices|] == prices;
  }

  /// The initial price calls: one per price whose symbol has a non-empty
  /// address, carrying that address and that price; a symbol without an
  /// address, or with an empty one, gets no call.
  lemma InitialPricesSpec(oracle: Address, prices: Dict<string>, assetsAddresses: Dict<Address>)
    ensures var txs := PriceTxs(oracle, Resolved(prices, assetsAddresses, true));
            && |txs| <= |prices|
            && (forall i :: 0 <= i < |prices| && Truthy(Get(assetsAddresses, prices[i].0)) ==>
                  SetAssetPrice(oracle, Get(assetsAddresses, prices[i].0).value, prices[i].1) in txs)
            && (forall tx :: tx in txs ==>
                  tx.SetAssetPrice? && tx.oracle == oracle && tx.asset != "" &&
                  exists i :: 0 <= i < |prices| && prices[i].1 == tx.price &&
                              Get(assetsAddresses, prices[i].0) == Some(tx.asset))
  {
    var kept := Resolved(prices, assetsAddresses, true);
    var txs := PriceTxs(oracle, kept);
    ResolvedSpec(prices, assetsAddresses, true);
    forall i | 0 <= i < |prices| && Truthy(Get(assetsAddresses, prices[i].0))
      ensures SetAssetPrice(oracle, Get(assetsAddresses, prices[i].0).value, prices[i].1) in txs
    {
      assert Resolves(assetsAddresses, true, prices[i].0);
      var k :| 0 <= k < |kept| && kept[k] == (prices[i].0, Get(assetsAddresses, prices[i].0).value, prices[i].1);
      assert txs[k] == SetAssetPrice(oracle, kept[k].1, kept[k].2);
    }
    forall tx | tx in txs
      ensures tx.SetAssetPrice? && tx.oracle == oracle && tx.asset != ""
      ensures exists i :: 0 <= i < |prices| && prices[i].1 == tx.price &&
                          Get(assetsAddresses, prices[i].0) == Some(tx.asset)
    {
      var k :| 0 <= k < |txs| && txs[k] == tx;
      assert kept[k] in kept;
      var i :| 0 <= i < |prices| && prices[i] == (kept[k].0, kept[k].2);
    }
  }

  /// `setAssetPricesInOracle` without the skip: the calls it sends and the
  /// error it throws at the first symbol with no address, when there is one.
  function AssetPricesRun(oracle: Address, prices: Dict<string>, assetsAddresses: Dict<Address>)
    : (seq<Tx>, Option<string>)
  {
    if prices == [] then ([], None)
    else
      var n := |prices| - 1;
      var prev := AssetPricesRun(oracle, prices[..n], assetsAddresses);
      var assetAddress := Get(assetsAddresses, prices[n].0);
      if prev.1.Some? then prev
      else if assetAddress.None? then (prev.0, Some(NOT_ITERABLE))
      else (prev.0 + [SetAssetPrice(oracle, assetAddress.value, prices[n].1)], None)
  }

  lemma AssetPricesRunStep(oracle: Address, prices: Dict<string>, assetsAddresses: Dict<Address>, i: nat)
    requires i < |prices|
    ensures var prev := AssetPricesRun(oracle, prices[..i], assetsAddresses);
            var assetAddress := Get(assetsAddresses, prices[i].0);
            AssetPricesRun(oracle, prices[..i + 1], assetsAddresses) ==
              if prev.1.Some? then prev
              else if assetAddress.None? then (prev.0, Some(NOT_ITERABLE))
              else (prev.0 + [SetAssetPrice(oracle, assetAddress.value, prices[i].1)], None)
  {
    assert prices[..i + 1][..i] == prices[..i];
  }

  /// Once the run has failed, later prices change nothing.
  lemma {:induction false} AssetPricesRunPrefix(oracle: Address, prices: Dict<string>,
                                                assetsAddresses: Dict<Address>, i: nat)
    requires i <= |prices| && AssetPricesRun(oracle, prices[..i], assetsAddresses).1.Some?
    ensures AssetPricesRun(oracle, prices, assetsAddresses) == AssetPricesRun(oracle, prices[..i], assetsAddresses)
  {
    if i < |prices| {
      var n := |prices| - 1;
      assert prices[..n][..i] == prices[..i];
      AssetPricesRunPrefix(oracle, prices[..n], assetsAddresses, i);
    } else {
      assert prices[..i] == prices;
    }
  }

  /// `setAssetPricesInOracle(prices, assetsAddresses, priceOracleInstance)`.
  method SetAssetPricesInOracle(env: Env, prices: Dict<string>, assetsAddresses: Dict<Address>, oracle: Address)
    returns (outcome: Result<()>)
    modifies env
    ensures var run := AssetPricesRun(oracle, prices, assetsAddresses);
            && env.trace == old(env.trace) + run.0
            && outcome == (if run.1.Some? then Err(run.1.value) else Ok(()))
    ensures env.db == old(env.db) && env.marketDb == old(env.marketDb) && env.nonce == old(env.nonce)
  {
    for i := 0 to |prices|
      invariant var run := AssetPricesRun(oracle, prices[..i], assetsAddresses);
                run.1.None? && env.trace == old(env.trace) + run.0
      invariant env.db == old(env.db) && env.marketDb == old(env.marketDb) && env.nonce == old(env.nonce)
    {
      AssetPricesRunStep(oracle, prices, assetsAddresses, i);
      var (assetSymbol, price) := prices[i];
      var assetAddressIndex := FindIndex(Keys(assetsAddresses), assetSymbol);
      if assetAddressIndex < 0 {
        AssetPricesRunPrefix(oracle, prices, assetsAddresses, i + 1);
        return Err(NOT_ITERABLE);
      }
      var assetAddress := assetsAddresses[assetAddressIndex].1;
      env.Send(SetAssetPrice(oracle, assetAddress, price));
    }
    assert prices[..|prices|] == prices;
    outcome := Ok(());
  }

  /// The position of the first price whose symbol is not an asset key,
  /// or the number of prices when every symbol is one.
  function FirstMissing(prices: Dict<string>, assetsAddresses: Dict<Address>): (f: nat)
    ensures f <= |prices|
    ensures forall j :: 0 <= j < f ==> prices[j].0 in Keys(assetsAddresses)
    ensures f < |prices| ==> prices[f].0 !in Keys(assetsAddresses)
  {
    if prices == [] || prices[0].0 !in Keys(assetsAddresses) then 0
    else 1 + FirstMissing(prices[1..], assetsAddresses)
  }

  /// Up to the first symbol with no address, the run has not failed and
  /// has sent one call per price.
  lemma {:induction false} AssetPricesUpTo(oracle: Address, prices: Dict<string>, assetsAddresses: Dict<Address>,
                                           i: nat)
    requires i <= FirstMissing(prices, assetsAddresses)
    ensures AssetPricesRun(oracle, prices[..i], assetsAddresses) ==
            (PriceTxs(oracle, Resolved(prices[..i], assetsAddresses, false)), None)
  {
    if i > 0 {
      var (symbol, price) := prices[i - 1];
      AssetPricesUpTo(oracle, prices, assetsAddresses, i - 1);
      assert symbol in Keys(assetsAddresses);
      var a := Get(assetsAddresses, symbol).value;
      AssetPricesRunStep(oracle, prices, assetsAddresses, i - 1);
      ResolvedStep(prices, assetsAddresses, false, i - 1);
      PriceTxsSnoc(oracle, Resolved(prices[..i - 1], assetsAddresses, false), (symbol, a, price));
    } else {
      assert prices[..0] == [];
    }
  }

  /// The run fails exactly when some price's symbol has no address, with
  /// the error of the first such symbol, after sending the calls for the
  /// prices before it; when it succeeds it has sent one call per price, in
  /// order, none skipped.
  lemma AssetPricesSpec(oracle: Address, prices: Dict<string>, assetsAddresses: Dict<Address>)
    ensures var f := FirstMissing(prices, assetsAddresses);
            var run := AssetPricesRun(oracle, prices, assetsAddresses);
            && run.0 == PriceTxs(oracle, Resolved(prices[..f], assetsAddresses, false))
            && run.1 == (if f < |prices| then Some(NOT_ITERABLE)
                         else None)
            && (run.1.Some? <==> exists i :: 0 <= i < |prices| && prices[i].0 !in Keys(assetsAddresses))
            && (run.1.None? ==> |run.0| == |prices|)
  {
    var f := FirstMissing(prices, assetsAddresses);
    AssetPricesUpTo(oracle, prices, assetsAddresses, f);
    if f < |prices| {
      AssetPricesRunStep(oracle, prices, assetsAddresses, f);
      AssetPricesRunPrefix(oracle, prices, assetsAddresses, f + 1);
    } else {
      assert prices[..f] == prices;
      ResolvedAll(prices, assetsAddresses, false);
    }
  }

  // ---------------------------------------------------------------------
  // Mock aggregators

  /// The first `n` price keys that get an aggregator, in key order: all of
  /// them, except `'ETH'` when it is skipped.
  function AggregatorSymbols(prices: Dict<string>, n: nat, skipEth: bool): (symbols: seq<string>)
    requires n <= |prices|
    ensures forall s :: s in symbols ==> s in Keys(prices)
  {
    if n == 0 then []
    else
      var prev := AggregatorSymbols(prices, n - 1, skipEth);
      if skipEth && prices[n - 1].0 == "ETH" then prev else prev + [prices[n - 1].0]
  }

  /// One more price key of the walk.
  lemma AggregatorSymbolsStep(prices: Dict<string>, x: nat, skipEth: bool)
    requires x < |prices|
    ensures AggregatorSymbols(prices, x + 1, skipEth) ==
            if skipEth && prices[x].0 == "ETH" then AggregatorSymbols(prices, x, skipEth)
            else AggregatorSymbols(prices, x, skipEth) + [prices[x].0]
  {
  }

  /// Which keys get an aggregator: each of the first `n` price keys,
  /// except `'ETH'` when it is skipped, and no other string; with nothing
  /// skipped, one per key, in key order.
  lemma {:induction false} AggregatorSymbolsSpec(prices: Dict<string>, n: nat, skipEth: bool)
    requires n <= |prices|
    ensures var symbols := AggregatorSymbols(prices, n, skipEth);
            && (forall s :: s in symbols <==> s in Keys(prices[..n]) && !(skipEth && s == "ETH"))
            && (!skipEth ==> symbols == Keys(prices[..n]))
  {
    if n > 0 {
      AggregatorSymbolsSpec(prices, n - 1, skipEth);
      var prev := AggregatorSymbols(prices, n - 1, skipEth);
      var symbols := AggregatorSymbols(prices, n, skipEth);
      var key := prices[n - 1].0;
      assert Keys(prices[..n]) == Keys(prices[..n - 1]) + [key];
      forall s
        ensures s in symbols <==> s in Keys(prices[..n]) && !(skipEth && s == "ETH")
      {
        assert s in symbols <==> s in prev || (s == key && !(skipEth && key == "ETH"));
      }
    }
  }

  /// Over keys that do not repeat, no symbol gets two aggregators.
  lemma {:induction false} AggregatorSymbolsDistinct(prices: Dict<string>, n: nat, skipEth: bool)
    requires n <= |prices| && DistinctKeys(prices)
    ensures Distinct(AggregatorSymbols(prices, n, skipEth))
  {
    if n > 0 {
      AggregatorSymbolsDistinct(prices, n - 1, skipEth);
      AggregatorSymbolsSpec(prices, n - 1, skipEth);
      var prev := AggregatorSymbols(prices, n - 1, skipEth);
      if !(skipEth && prices[n - 1].0 == "ETH") {
        assert prices[n - 1].0 !in Keys(prices[..n - 1]) by {
          var ks := Keys(prices[..n - 1]);
          forall j | 0 <= j < |ks|
            ensures ks[j] != prices[n - 1].0
          {
            assert ks[j] == prices[j].0;
          }
        }
      }
    }
  }

  /// The aggregator deployed for each symbol, with the price `findIndex`
  /// finds for it among the price keys.
  function AggregatorDeployments(prices: Dict<string>, symbols: seq<string>, protoReserves: Dict<ReserveParams>)
    : (ds: seq<Deployment>)
    requires forall s :: s in symbols ==> s in Keys(prices)
    ensures |ds| == |symbols|
    ensures forall k :: 0 <= k < |symbols| ==>
              ds[k] == AggregatorDeployment(Get(prices, symbols[k]).value, symbols[k], protoReserves)
  {
    seq(|symbols|, k requires 0 <= k < |symbols| =>
                     AggregatorDeployment(Get(prices, symbols[k]).value, symbols[k], protoReserves))
  }

  /// The returned `aggregators` object: each symbol is written in turn with
  /// the address its deployment received.
  function AggregatorMap(symbols: seq<string>, start: nat, addressAt: nat -> Address): Dict<Address>
  {
    if symbols == [] then []
    else
      var n := |symbols| - 1;
      Put(AggregatorMap(symbols[..n], start, addressAt), symbols[n], addressAt(start + n))
  }

  /// One more symbol written into the returned object.
  lemma AggregatorMapStep(aggregators: Dict<Address>, symbols: seq<string>, symbol: string, start: nat,
                          addressAt: nat -> Address, address: Address)
    requires aggregators == AggregatorMap(symbols, start, addressAt) && address == addressAt(start + |symbols|)
    ensures Put(aggregators, symbol, address) == AggregatorMap(symbols + [symbol], start, addressAt)
  {
    assert (symbols + [symbol])[..|symbols|] == symbols;
  }

  /// The returned object has the symbols as its keys, in order.
  lemma {:induction false} AggregatorMapKeys(symbols: seq<string>, start: nat, addressAt: nat -> Address)
    requires Distinct(symbols)
    ensures Keys(AggregatorMap(symbols, start, addressAt)) == symbols
  {
    if symbols != [] {
      var n := |symbols| - 1;
      var prefix := symbols[..n];
      AggregatorMapKeys(prefix, start, addressAt);
      PutKeys(AggregatorMap(prefix, start, addressAt), symbols[n], addressAt(start + n));
      assert symbols[n] !in prefix by {
        forall j | 0 <= j < n ensures prefix[j] != symbols[n] {
          assert prefix[j] == symbols[j];
        }
      }
      assert symbols == prefix + [symbols[n]];
    }
  }

  /// Each symbol reads back the address of its own deployment.
  lemma {:induction false} AggregatorMapGet(symbols: seq<string>, start: nat, addressAt: nat -> Address, k: nat)
    requires Distinct(symbols) && k < |symbols|
    ensures Get(AggregatorMap(symbols, start, addressAt), symbols[k]) == Some(addressAt(start + k))
  {
    var n := |symbols| - 1;
    var prefix := symbols[..n];
    PutGet(AggregatorMap(prefix, start, addressAt), symbols[n], addressAt(start + n), symbols[k]);
    if k < n {
      AggregatorMapGet(prefix, start, addressAt, k);
      assert prefix[k] == symbols[k];
    }
  }

  /// One more symbol of the run.
  lemma AggregatorDeploymentsStep(prices: Dict<string>, symbols: seq<string>, symbol: string,
                                  protoReserves: Dict<ReserveParams>)
    requires symbol in Keys(prices) && forall s :: s in symbols ==> s in Keys(prices)
    ensures AggregatorDeployments(prices, symbols + [symbol], protoReserves) ==
            AggregatorDeployments(prices, symbols, protoReserves)
            + [AggregatorDeployment(Get(prices, symbol).value, symbol, protoReserves)]
  {
  }

  /// The state of an aggregator run over `symbols` that started at nonce
  /// `start`, with trace `trace0` and registry `db0`.
  ghost predicate AggregatorRun(env: Env, aggregators: Dict<Address>, prices: Dict<string>, symbols: seq<string>,
                                verify: bool, protoReserves: Dict<ReserveParams>, start: nat, trace0: seq<Tx>,
                                db0: Store)
    requires forall s :: s in symbols ==> s in Keys(prices)
    reads env
  {
    var ds := AggregatorDeployments(prices, symbols, protoReserves);
    && aggregators == AggregatorMap(symbols, start, env.addressAt)
    && env.nonce == start + |symbols|
    && env.trace == trace0 + DeploymentsEvents(ds, start, env.addressAt, verify, env.network, env.deployer)
    && env.db == RegisterAll(db0, ds, start, env.addressAt, env.network, env.deployer)
  }

  /// `deployTokensPriceAggregator` as the next deployment of a run that
  /// started at nonce `start`, with trace `trace0` and registry `db0`.
  method DeployRunAggregator(env: Env, price: string, tokenSymbol: string, verify: bool,
                             protoReserves: Dict<ReserveParams>, ghost done: seq<Deployment>,
                             ghost start: nat, ghost trace0: seq<Tx>, ghost db0: Store) returns (address: Address)
    requires env.nonce == start + |done|
    requires env.trace == trace0 + DeploymentsEvents(done, start, env.addressAt, verify, env.network, env.deployer)
    requires env.db == RegisterAll(db0, done, start, env.addressAt, env.network, env.deployer)
    modifies env
    ensures var done' := done + [AggregatorDeployment(price, tokenSymbol, protoReserves)];
            && address == env.addressAt(start + |done|)
            && env.nonce == start + |done'|
            && env.trace == trace0 + DeploymentsEvents(done', start, env.addressAt, verify, env.network, env.deployer)
            && env.db == RegisterAll(db0, done', start, env.addressAt, env.network, env.deployer)
    ensures env.marketDb == old(env.marketDb)
  {
    address := DeployTokensPriceAggregator(env, price, tokenSymbol, verify, protoReserves);
    RunStep(trace0, db0, done, AggregatorDeployment(price, tokenSymbol, protoReserves), start, env.addressAt,
            verify, env.network, env.deployer);
  }

  /// One iteration of the aggregator loop for a key that is not skipped:
  /// `aggregators[tokenContractName] = await deployTokensPriceAggregator(price, tokenContractName, verify)`
  /// with the price `findIndex` finds for the key.
  method DeployNextAggregator(env: Env, aggregators: Dict<Address>, initialPrices: Dict<string>,
                              tokenContractName: string, verify: bool, protoReserves: Dict<ReserveParams>,
                              ghost symbols: seq<string>, ghost start: nat, ghost trace0: seq<Tx>, ghost db0: Store)
    returns (aggregators': Dict<Address>)
    requires tokenContractName in Keys(initialPrices) && forall s :: s in symbols ==> s in Keys(initialPrices)
    requires AggregatorRun(env, aggregators, initialPrices, symbols, verify, protoReserves, start, trace0, db0)
    modifies env
    ensures AggregatorRun(env, aggregators', initialPrices, symbols + [tokenContractName], verify, protoReserves,
                          start, trace0, db0)
    ensures env.marketDb == old(env.marketDb)
  {
    var priceIndex := FindIndex(Keys(initialPrices), tokenContractName);
    var price := initialPrices[priceIndex].1;
    ghost var done := AggregatorDeployments(initialPrices, symbols, protoReserves);
    AggregatorDeploymentsStep(initialPrices, symbols, tokenContractName, protoReserves);
    assert |done| == |symbols|;
    var address := DeployRunAggregator(env, price, tokenContractName, verify, protoReserves, done, start, trace0, db0);
    AggregatorMapStep(aggregators, symbols, tokenContractName, start, env.addressAt, address);
    aggregators' := Put(aggregators, tokenContractName, address);
  }

  /// The loop shared by `deployMockAggregators` (which skips `'ETH'`) and
  /// `deployAllMockAggregators` (which does not): one
  /// `deployTokensPriceAggregator` per price key, in key order.
  method DeployAggregators(env: Env, initialPrices: Dict<string>, skipEth: bool, verify: bool,
                           protoReserves: Dict<ReserveParams>) returns (aggregators: Dict<Address>)
    modifies env
    ensures var symbols := AggregatorSymbols(initialPrices, |initialPrices|, skipEth);
            var ds := AggregatorDeployments(initialPrices, symbols, protoReserves);
            && aggregators == AggregatorMap(symbols, old(env.nonce), env.addressAt)
            && env.nonce == old(env.nonce) + |symbols|
            && env.trace == old(env.trace) + DeploymentsEvents(ds, old(env.nonce), env.addressAt, verify,
                                                               env.network, env.deployer)
            && env.db == RegisterAll(old(env.db), ds, old(env.nonce), env.addressAt, env.network, env.deployer)
    ensures env.marketDb == old(env.marketDb)
  {
    ghost var start := env.nonce;
    ghost var trace0 := env.trace;
    ghost var db0 := env.db;
    aggregators := [];
    var keys := Keys(initialPrices);
    for x := 0 to |keys|
      invariant AggregatorRun(env, aggregators, initialPrices, AggregatorSymbols(initialPrices, x, skipEth), verify,
                              protoReserves, start, trace0, db0)
      invariant env.marketDb == old(env.marketDb)
    {
      var tokenContractName := keys[x];
      AggregatorSymbolsStep(initialPrices, x, skipEth);
      if !(skipEth && tokenContractName == "ETH") {
        aggregators := DeployNextAggregator(env, aggregators, initialPrices, tokenContractName, verify, protoReserves,
                                            AggregatorSymbols(initialPrices, x, skipEth), start, trace0, db0);
      }
    }
    assert initialPrices[..|initialPrices|] == initialPrices;
  }

  /// `deployMockAggregators(initialPrices, verify)`.
  method DeployMockAggregators(env: Env, initialPrices: Dict<string>, verify: bool, protoReserves: Dict<ReserveParams>)
    returns (aggregators: Dict<Address>)
    modifies env
    ensures var symbols := AggregatorSymbols(initialPrices, |initialPrices|, true);
            var ds := AggregatorDeployments(initialPrices, symbols, protoReserves);
            && aggregators == AggregatorMap(symbols, old(env.nonce), env.addressAt)
            && env.nonce == old(env.nonce) + |symbols|
            && env.trace == old(env.trace) + DeploymentsEvents(ds, old(env.nonce), env.addressAt, verify,
                                                               env.network, env.deployer)
            && env.db == RegisterAll(old(env.db), ds, old(env.nonce), env.addressAt, env.network, env.deployer)
    ensures env.marketDb == old(env.marketDb)
  {
    aggregators := DeployAggregators(env, initialPrices, true, verify, protoReserves);
  }

  /// `deployAllMockAggregators(initialPrices, verify)`.
  method DeployAllMockAggregators(env: Env, initialPrices: Dict<string>, verify: bool,
                                  protoReserves: Dict<ReserveParams>) returns (aggregators: Dict<Address>)
    modifies env
    ensures var symbols := AggregatorSymbols(initialPrices, |initialPrices|, false);
            var ds := AggregatorDeployments(initialPrices, symbols, protoReserves);
            && aggregators == AggregatorMap(symbols, old(env.nonce), env.addressAt)
            && env.nonce == old(env.nonce) + |symbols|
            && env.trace == old(env.trace) + DeploymentsEvents(ds, old(env.nonce), env.addressAt, verify,
                                                               env.network, env.deployer)
            && env.db == RegisterAll(old(env.db), ds, old(env.nonce), env.addressAt, env.network, env.deployer)
    ensures env.marketDb == old(env.marketDb)
  {
    aggregators := DeployAggregators(env, initialPrices, false, verify, protoReserves);
  }

  /// Two ids built by appending the same suffix differ when the symbols do.
  lemma SameSuffix(a: string, b: string, suffix: string)
    requires a != b
    ensures a + suffix != b + suffix
  {
    assert (a + suffix)[..|a|] == a;
    assert (b + suffix)[..|b|] == b;
  }

  /// The k-th aggregator of a run: it is the returned object's entry for
  /// its symbol, it was deployed with the price of that symbol's key, and
  /// the registry records it under `<symbol>MockAggregator`, where
  /// `getMockAggregator` looks for it.
  lemma AggregatorsSpec(prices: Dict<string>, skipEth: bool, protoReserves: Dict<ReserveParams>,
                        start: nat, addressAt: nat -> Address, db: Store, network: string, deployer: Address, k: nat)
    requires DistinctKeys(prices)
    requires k < |AggregatorSymbols(prices, |prices|, skipEth)|
    ensures var symbols := AggregatorSymbols(prices, |prices|, skipEth);
            var aggregators := AggregatorMap(symbols, start, addressAt);
            var ds := AggregatorDeployments(prices, symbols, protoReserves);
            && Keys(aggregators) == symbols
            && Get(aggregators, symbols[k]) == Some(addressAt(start + k))
            && ds[k].args[0] == Get(prices, symbols[k]).value
            && Read(RegisterAll(db, ds, start, addressAt, network, deployer),
                    ContractsGetters.MockAggregatorKey(symbols[k], network)) ==
               Some(DbRecord(addressAt(start + k), Some(deployer)))
  {
    var symbols := AggregatorSymbols(prices, |prices|, skipEth);
    AggregatorSymbolsDistinct(prices, |prices|, skipEth);
    AggregatorMapKeys(symbols, start, addressAt);
    AggregatorMapGet(symbols, start, addressAt, k);
    var ds := AggregatorDeployments(prices, symbols, protoReserves);
    forall j | k < j < |ds|
      ensures ds[j].id != ds[k].id
    {
      SameSuffix(symbols[j], symbols[k], MOCK_AGGREGATOR);
    }
    RegisterAllRead(db, ds, start, addressAt, network, deployer, k);
    AggregatorDeploymentSpec(Get(prices, symbols[k]).value, symbols[k], protoReserves, network);
  }
}
