/// Registry writes, the save-and-verify step every deployment goes through
/// and the address fallback of `helpers/contracts-helpers.ts`.
module ContractsHelpers {
  import opened Base
  import opened MiscUtils
  import opened NetworkParams
  import opened Configuration
  import opened Runtime

  /// `${id}.${network}`, the key of a global contract.
  function GlobalKey(id: string, network: string): Path
  {
    [id, network]
  }

  /// `registerContractInJsonDb(id, instance)`: stores `{address, deployer}`
  /// under the global key, replacing any earlier record.
  method RegisterContractInJsonDb(env: Env, contractId: string, address: Address)
    modifies env
    ensures env.db == old(env.db)[GlobalKey(contractId, env.network) := DbRecord(address, Some(env.deployer))]
    ensures env.trace == old(env.trace) + [Register(GlobalKey(contractId, env.network), DbRecord(address, Some(env.deployer)))]
    ensures env.marketDb == old(env.marketDb) && env.nonce == old(env.nonce)
  {
    env.SetRecord(GlobalKey(contractId, env.network), DbRecord(address, Some(env.deployer)));
  }

  /// `insertContractAddressInDb(id, address)`: stores `{address}` alone.
  method InsertContractAddressInDb(env: Env, id: string, address: Address)
    modifies env
    ensures env.db == old(env.db)[GlobalKey(id, env.network) := DbRecord(address, None)]
    ensures env.trace == old(env.trace) + [Register(GlobalKey(id, env.network), DbRecord(address, None))]
    ensures env.marketDb == old(env.marketDb) && env.nonce == old(env.nonce)
  {
    env.SetRecord(GlobalKey(id, env.network), DbRecord(address, None));
  }

  /// What `withSaveAndVerify` adds to the trace: the wait, the registry
  /// write, then the verification request when asked for.
  function SaveAndVerifyEvents(address: Address, id: string, args: seq<string>, verify: bool,
                               network: string, deployer: Address): seq<Tx>
  {
    [WaitDeployment(address), Register(GlobalKey(id, network), DbRecord(address, Some(deployer)))]
    + (if verify then [Verify(id, address, args)] else [])
  }

  /// `withSaveAndVerify(instance, id, args, verify)`.
  method WithSaveAndVerify(env: Env, address: Address, id: string, args: seq<string>, verify: bool)
    modifies env
    ensures env.trace == old(env.trace) + SaveAndVerifyEvents(address, id, args, verify, env.network, env.deployer)
    ensures env.db == old(env.db)[GlobalKey(id, env.network) := DbRecord(address, Some(env.deployer))]
    ensures env.marketDb == old(env.marketDb) && env.nonce == old(env.nonce)
  {
    env.Send(WaitDeployment(address));
    RegisterContractInJsonDb(env, id, address);
    if verify {
      env.Send(Verify(id, address, args));
    }
  }

  /// What a factory deployment followed by `withSaveAndVerify` adds to the trace.
  function DeployEvents(contract: string, id: string, address: Address, args: seq<string>,
                        links: Dict<Address>, verify: bool, network: string, deployer: Address): seq<Tx>
  {
    [DeployTx(contract, address, args, links)] + SaveAndVerifyEvents(address, id, args, verify, network, deployer)
  }

  /// `withSaveAndVerify(await new Factory(...).deploy(...args), id, args, verify)`.
  method DeployAndSave(env: Env, contract: string, id: string, args: seq<string>,
                       links: Dict<Address>, verify: bool) returns (address: Address)
    modifies env
    ensures address == env.addressAt(old(env.nonce)) && env.nonce == old(env.nonce) + 1
    ensures env.trace == old(env.trace) + DeployEvents(contract, id, address, args, links, verify, env.network, env.deployer)
    ensures env.db == old(env.db)[GlobalKey(id, env.network) := DbRecord(address, Some(env.deployer))]
    ensures env.marketDb == old(env.marketDb)
  {
    address := env.Deploy(contract, args, links);
    WithSaveAndVerify(env, address, id, args, verify);
  }

  /// The save-and-verify events always start with the wait and the
  /// registry write, in that order, and hold a verification request exactly
  /// when one was asked for.
  lemma SaveAndVerifyOrder(address: Address, id: string, args: seq<string>, verify: bool,
                           network: string, deployer: Address)
    ensures var e := SaveAndVerifyEvents(address, id, args, verify, network, deployer);
            && e[0] == WaitDeployment(address)
            && e[1] == Register(GlobalKey(id, network), DbRecord(address, Some(deployer)))
            && (Verify(id, address, args) in e <==> verify)
            && |e| == if verify then 3 else 2
  {
  }

  /// `getContractAddressWithJsonFallback(id, pool)`: a valid non-zero
  /// address from the market configuration, else a truthy address from the
  /// registry, else an error.
  function GetContractAddressWithJsonFallback(id: string, pool: string, markets: Markets, db: Store,
                                              network: string, fork: Option<string>): (r: Result<Address>)
  {
    match LoadPoolConfig(pool, markets)
    case Err(msg) => Err(msg)
    case Ok(config) =>
      var atConfig := GetOptionalParamAddressPerNetwork(ConfigParam(config, id), network, fork);
      if NotFalsyOrZeroAddress(atConfig) then Ok(atConfig.value)
      else
        var atDb := Read(db, GlobalKey(id, network));
        if atDb.Some? && atDb.value.address != "" then Ok(atDb.value.address)
        else Err("Missing contract address " + id + " at Market config and JSON local db")
  }

  /// The fallback order: configuration first, registry second, error last;
  /// a configured address never yields to the registry.
  lemma JsonFallbackOrder(id: string, pool: string, markets: Markets, db: Store,
                          network: string, fork: Option<string>)
    requires LoadPoolConfig(pool, markets).Ok?
    ensures var config := LoadPoolConfig(pool, markets).value;
            var atConfig := GetOptionalParamAddressPerNetwork(ConfigParam(config, id), network, fork);
            var atDb := Read(db, GlobalKey(id, network));
            var r := GetContractAddressWithJsonFallback(id, pool, markets, db, network, fork);
            && (NotFalsyOrZeroAddress(atConfig) ==> r == Ok(atConfig.value))
            && (!NotFalsyOrZeroAddress(atConfig) && atDb.Some? && atDb.value.address != "" ==>
                  r == Ok(atDb.value.address))
            && (r.Err? <==> !NotFalsyOrZeroAddress(atConfig) && (atDb.None? || atDb.value.address == ""))
  {
  }

  /// A configuration without the id that has never registered it fails;
  /// once a deployment is registered under the id, the fallback finds it.
  lemma JsonFallbackAfterRegister(id: string, pool: string, markets: Markets, db: Store,
                                  network: string, fork: Option<string>, address: Address, deployer: Address)
    requires LoadPoolConfig(pool, markets).Ok?
    requires id !in LoadPoolConfig(pool, markets).value.AddressParams
    requires address != ""
    ensures GlobalKey(id, network) !in db ==>
              GetContractAddressWithJsonFallback(id, pool, markets, db, network, fork).Err?
    ensures GetContractAddressWithJsonFallback(id, pool, markets,
              db[GlobalKey(id, network) := DbRecord(address, Some(deployer))], network, fork) == Ok(address)
  {
    NotFalsyOrZeroAddressCases(ZERO_ADDRESS);
  }

  /// Registering adds the contract to those `printContracts` counts for the
  /// network and changes no other network's count.
  lemma RegisterCounts(db: Store, id: string, network: string, other: string, record: DbRecord)
    ensures ContractsOn(db[GlobalKey(id, network) := record], network) == ContractsOn(db, network) + {id}
    ensures other != network ==>
              ContractsOn(db[GlobalKey(id, network) := record], other) == ContractsOn(db, other)
  {
    var db' := db[GlobalKey(id, network) := record];
    assert GlobalKey(id, network) in db';
    forall x | x in ContractsOn(db', network)
      ensures x in ContractsOn(db, network) + {id}
    {
      var p :| p in db' && |p| >= 2 && p[0] == x && p[1] == network;
      if p != GlobalKey(id, network) {
        assert p in db;
      }
    }
    forall x | x in ContractsOn(db, network)
      ensures x in ContractsOn(db', network)
    {
      var p :| p in db && |p| >= 2 && p[0] == x && p[1] == network;
      assert p in db';
    }
    if other != network {
      forall x | x in ContractsOn(db', other)
        ensures x in ContractsOn(db, other)
      {
        var p :| p in db' && |p| >= 2 && p[0] == x && p[1] == other;
        assert p in db;
      }
      forall x | x in ContractsOn(db, other)
        ensures x in ContractsOn(db', other)
      {
        var p :| p in db && |p| >= 2 && p[0] == x && p[1] == other;
        assert p in db';
      }
    }
  }
}
