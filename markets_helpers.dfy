/// The per-network table builder of `helpers/markets-helpers.ts`.
module MarketsHelpers {
  import opened Base

  /// Every network of the enumeration mapped to `d`.
  function DefaultTable<T>(d: Option<T>): (t: Table<T>)
    ensures t.Keys == set n | n in NETWORK_NAMES
  {
    map[LOCALHOST := d, VINCI := d, KOVAN := d, HARDHAT := d,
        BUIDLEREVM := d, RINKEBY := d, MAINNET := d]
  }

  /// `config[network] = value` for each entry of `entries`, in order.
  function Overlay<T>(base: Table<T>, entries: Dict<T>): Table<T>
  {
    if entries == [] then base
    else
      var last := entries[|entries| - 1];
      Overlay(base, entries[..|entries| - 1])[last.0 := Some(last.1)]
  }

  /// What `build(param, defaultValue)` returns.
  function BuildSpec<T>(param: Option<Dict<T>>, d: Option<T>): Table<T>
  {
    if param.None? then DefaultTable(d) else Overlay(DefaultTable(d), param.value)
  }

  /// Fills the seven networks with the default, then copies every entry of
  /// `param` over it.
  method Build<T>(param: Option<Dict<T>>, defaultValue: Option<T>) returns (config: Table<T>)
    ensures config == BuildSpec(param, defaultValue)
  {
    config := map[LOCALHOST := defaultValue, VINCI := defaultValue, KOVAN := defaultValue,
                  HARDHAT := defaultValue, BUIDLEREVM := defaultValue, RINKEBY := defaultValue,
                  MAINNET := defaultValue];
    if param.Some? {
      var entries := param.value;
      for i := 0 to |entries|
        invariant config == Overlay(DefaultTable(defaultValue), entries[..i])
      {
        assert entries[..i + 1][..i] == entries[..i];
        config := config[entries[i].0 := Some(entries[i].1)];
      }
      assert entries[..|entries|] == entries;
    }
  }

  /// Reading the overlaid table: a key of the entries reads what `Get`
  /// reads in the entries, any other key reads the base table.
  lemma {:induction false} OverlayAt<T>(base: Table<T>, entries: Dict<T>, k: string)
    requires DistinctKeys(entries)
    ensures k in Keys(entries) ==> Lookup(Overlay(base, entries), k) == Get(entries, k)
    ensures k !in Keys(entries) ==> Lookup(Overlay(base, entries), k) == Lookup(base, k)
  {
    if entries != [] {
      var pre := entries[..|entries| - 1];
      var last := entries[|entries| - 1];
      assert entries == pre + [(last.0, last.1)];
      assert DistinctKeys(pre);
      assert Keys(entries) == Keys(pre) + [last.0];
      OverlayAt(base, pre, k);
      GetAppend(pre, last.0, last.1, k);
    }
  }

  /// The overlaid table holds the base keys and the keys of the entries.
  lemma {:induction false} OverlayKeys<T>(base: Table<T>, entries: Dict<T>)
    ensures Overlay(base, entries).Keys == base.Keys + set x | x in Keys(entries)
  {
    if entries != [] {
      var pre := entries[..|entries| - 1];
      assert Keys(entries) == Keys(pre) + [entries[|entries| - 1].0];
      OverlayKeys(base, pre);
    }
  }

  /// The table holds all seven networks plus the keys of `param`; a key of
  /// `param` reads `param`'s value and every other network the default.
  lemma BuildAt<T>(param: Option<Dict<T>>, d: Option<T>, k: string)
    requires param.Some? ==> DistinctKeys(param.value)
    ensures forall n :: n in NETWORK_NAMES ==> n in BuildSpec(param, d)
    ensures param.Some? && k in Keys(param.value) ==>
              Lookup(BuildSpec(param, d), k) == Get(param.value, k)
    ensures (param.None? || k !in Keys(param.value)) && k in NETWORK_NAMES ==>
              Lookup(BuildSpec(param, d), k) == d
    ensures (param.None? || k !in Keys(param.value)) && k !in NETWORK_NAMES ==>
              k !in BuildSpec(param, d)
    ensures param.None? ==> BuildSpec(param, d) == DefaultTable(d)
  {
    if param.Some? {
      OverlayAt(DefaultTable(d), param.value, k);
      OverlayKeys(DefaultTable(d), param.value);
    }
  }

  /// `buildAdmin`: undefined on every network not overridden.
  method BuildAdmin<T>(param: Option<Dict<T>>) returns (config: Table<T>)
    ensures config == BuildSpec(param, None)
  {
    config := Build(param, None);
  }

  /// `buildAssets`: an empty symbol map on every network not overridden.
  method BuildAssets<V>(param: Option<Dict<Dict<V>>>) returns (config: Table<Dict<V>>)
    ensures config == BuildSpec(param, Some([]))
  {
    config := Build(param, Some([]));
  }

  /// `buildAddress`: the empty string on every network not overridden.
  method BuildAddress(param: Option<Dict<Address>>) returns (config: Table<Address>)
    ensures config == BuildSpec(param, Some(""))
  {
    config := Build(param, Some(""));
  }

  /// `buildSameAddress(a)`: every network maps to `a` and nothing else is
  /// in the table.
  method BuildSameAddress(address: Address) returns (config: Table<Address>)
    ensures config == DefaultTable(Some(address))
    ensures forall n :: n in NETWORK_NAMES ==> Lookup(config, n) == Some(address)
  {
    config := Build(Some([]), Some(address));
  }

  /// `buildWithZeroAddress`: the zero address on every network not overridden.
  method BuildWithZeroAddress(param: Option<Dict<Address>>) returns (config: Table<Address>)
    ensures config == BuildSpec(param, Some(ZERO_ADDRESS))
  {
    config := Build(param, Some(ZERO_ADDRESS));
  }

  /// `buildLibrary`: an empty library map on every network not overridden.
  method BuildLibrary<V>(param: Option<Dict<Dict<V>>>) returns (config: Table<Dict<V>>)
    ensures config == BuildSpec(param, Some([]))
  {
    config := Build(param, Some([]));
  }
}
