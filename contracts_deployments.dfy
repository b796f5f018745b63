/// The deployment sequences of `helpers/contracts-deployments.ts`: the logic
/// libraries and the lending pool, the token implementations, the mock price
/// aggregators, the rate strategies and the two proxy pairs. Each factory
/// deployment takes the next fresh address of the session and is registered
/// under its id by `withSaveAndVerify`.
module ContractsDeployments {
  import opened Base
  import opened MiscUtils
  import opened NetworkParams
  import opened Configuration
  import opened ContractsHelpers
  import opened Runtime
  import ContractsGetters

  // ---------------------------------------------------------------------
  // Runs of unlinked deployments

  /// One factory deployment followed by `withSaveAndVerify`, without links:
  /// the contract, the registry id and the constructor arguments.
  datatype Deployment = Deployment(contract: string, id: string, args: seq<string>)

  /// What a run of unlinked deployments adds to the trace; the k-th one
  /// receives the address `addressAt(start + k)`.
  function DeploymentsEvents(ds: seq<Deployment>, start: nat, addressAt: nat -> Address,
                             verify: bool, network: string, deployer: Address): seq<Tx>
  {
    if ds == [] then []
    else
      var n := |ds| - 1;
      DeploymentsEvents(ds[..n], start, addressAt, verify, network, deployer)
      + DeployEvents(ds[n].contract, ds[n].id, addressAt(start + n), ds[n].args, [], verify, network, deployer)
  }

  /// The global registry after a run of deployments.
  function RegisterAll(db: Store, ds: seq<Deployment>, start: nat, addressAt: nat -> Address,
                       network: string, deployer: Address): Store
  {
    if ds == [] then db
    else
      var n := |ds| - 1;
      RegisterAll(db, ds[..n], start, addressAt, network, deployer)
        [GlobalKey(ds[n].id, network) := DbRecord(addressAt(start + n), Some(deployer))]
  }

  /// One more deployment extends the run's events and registry writes.
  lemma DeploymentsStep(db: Store, ds: seq<Deployment>, d: Deployment, start: nat, addressAt: nat -> Address,
                        verify: bool, network: string, deployer: Address)
    ensures DeploymentsEvents(ds + [d], start, addressAt, verify, network, deployer) ==
            DeploymentsEvents(ds, start, addressAt, verify, network, deployer)
            + DeployEvents(d.contract, d.id, addressAt(start + |ds|), d.args, [], verify, network, deployer)
    ensures RegisterAll(db, ds + [d], start, addressAt, network, deployer) ==
            RegisterAll(db, ds, start, addressAt, network, deployer)
              [GlobalKey(d.id, network) := DbRecord(addressAt(start + |ds|), Some(deployer))]
  {
    assert (ds + [d])[..|ds|] == ds;
  }

  /// After a run, the id of the k-th deployment holds the k-th address,
  /// unless a later deployment reused the id.
  lemma {:induction false} RegisterAllRead(db: Store, ds: seq<Deployment>, start: nat, addressAt: nat -> Address,
                                           network: string, deployer: Address, k: nat)
    requires k < |ds| && forall j :: k < j < |ds| ==> ds[j].id != ds[k].id
    ensures Read(RegisterAll(db, ds, start, addressAt, network, deployer), GlobalKey(ds[k].id, network)) ==
            Some(DbRecord(addressAt(start + k), Some(deployer)))
  {
    var n := |ds| - 1;
    if k < n {
      RegisterAllRead(db, ds[..n], start, addressAt, network, deployer, k);
      assert GlobalKey(ds[n].id, network) != GlobalKey(ds[k].id, network) by {
        assert GlobalKey(ds[n].id, network)[0] != GlobalKey(ds[k].id, network)[0];
      }
    }
  }

  /// An id no deployment of the run used keeps its old record.
  lemma {:induction false} RegisterAllOther(db: Store, ds: seq<Deployment>, start: nat, addressAt: nat -> Address,
                                            network: string, deployer: Address, id: string)
    requires forall j :: 0 <= j < |ds| ==> ds[j].id != id
    ensures Read(RegisterAll(db, ds, start, addressAt, network, deployer), GlobalKey(id, network)) ==
            Read(db, GlobalKey(id, network))
  {
    if ds != [] {
      var n := |ds| - 1;
      RegisterAllOther(db, ds[..n], start, addressAt, network, deployer, id);
      assert GlobalKey(ds[n].id, network) != GlobalKey(id, network) by {
        assert GlobalKey(ds[n].id, network)[0] != GlobalKey(id, network)[0];
      }
    }
  }

  lemma AppendAssoc<T>(a: seq<T>, b: seq<T>, c: seq<T>)
    ensures a + (b + c) == (a + b) + c
  {
  }

  /// One more deployment, seen from the whole trace and registry of a
  /// session whose run started with trace `trace0` and registry `db0`.
  lemma RunStep(trace0: seq<Tx>, db0: Store, done: seq<Deployment>, d: Deployment, start: nat,
                addressAt: nat -> Address, verify: bool, network: string, deployer: Address)
    ensures trace0 + DeploymentsEvents(done + [d], start, addressAt, verify, network, deployer) ==
            (trace0 + DeploymentsEvents(done, start, addressAt, verify, network, deployer))
            + DeployEvents(d.contract, d.id, addressAt(start + |done|), d.args, [], verify, network, deployer)
    ensures RegisterAll(db0, done + [d], start, addressAt, network, deployer) ==
            RegisterAll(db0, done, start, addressAt, network, deployer)
              [GlobalKey(d.id, network) := DbRecord(addressAt(start + |done|), Some(deployer))]
  {
    DeploymentsStep(db0, done, d, start, addressAt, verify, network, deployer);
    AppendAssoc(trace0, DeploymentsEvents(done, start, addressAt, verify, network, deployer),
                DeployEvents(d.contract, d.id, addressAt(start + |done|), d.args, [], verify, network, deployer));
  }

  /// `withSaveAndVerify(await new Factory().deploy(...args), id, args, verify)`
  /// for the next deployment of a run that started at nonce `start`, with
  /// trace `trace0` and registry `db0`.
  method DeployNext(env: Env, d: Deployment, verify: bool, ghost done: seq<Deployment>, ghost start: nat,
                    ghost trace0: seq<Tx>, ghost db0: Store) returns (address: Address)
    requires env.nonce == start + |done|
    requires env.trace == trace0 + DeploymentsEvents(done, start, env.addressAt, verify, env.network, env.deployer)
    requires env.db == RegisterAll(db0, done, start, env.addressAt, env.network, env.deployer)
    modifies env
    ensures address == env.addressAt(start + |done|) && env.nonce == start + |done + [d]|
    ensures env.trace == trace0 + DeploymentsEvents(done + [d], start, env.addressAt, verify, env.network, env.deployer)
    ensures env.db == RegisterAll(db0, done + [d], start, env.addressAt, env.network, env.deployer)
    ensures env.marketDb == old(env.marketDb)
  {
    address := DeployAndSave(env, d.contract, d.id, d.args, [], verify);
    RunStep(trace0, db0, done, d, start, env.addressAt, verify, env.network, env.deployer);
  }

  // ---------------------------------------------------------------------
  // Libraries and the lending pool

  const LENDING_POOL := "LendingPool"
  const LENDING_POOL_IMPL := "LendingPoolImpl"

  /// The deployments of a trace, in order.
  function DeployTxs(trace: seq<Tx>): (r: seq<Tx>)
    ensures forall t :: t in r ==> t.DeployTx?
  {
    if trace == [] then []
    else
      var n := |trace| - 1;
      DeployTxs(trace[..n]) + (if trace[n].DeployTx? then [trace[n]] else [])
  }

  lemma {:induction false} DeployTxsAppend(a: seq<Tx>, b: seq<Tx>)
    ensures DeployTxs(a + b) == DeployTxs(a) + DeployTxs(b)
  {
    if b != [] {
      var n := |b| - 1;
      assert (a + b)[..|a| + n] == a + b[..n];
      DeployTxsAppend(a, b[..n]);
    } else {
      assert a + b == a;
    }
  }

  /// A factory deployment with its save-and-verify step deploys one contract.
  lemma DeployEventsDeploys(contract: string, id: string, address: Address, args: seq<string>,
                            links: Dict<Address>, verify: bool, network: string, deployer: Address)
    ensures DeployTxs(DeployEvents(contract, id, address, args, links, verify, network, deployer)) ==
            [DeployTx(contract, address, args, links)]
  {
    var rest := SaveAndVerifyEvents(address, id, args, verify, network, deployer);
    DeployTxsAppend([DeployTx(contract, address, args, links)], rest);
    var r0 := rest[..1];
    assert DeployTxs(r0) == [] by { assert r0[..0] == []; }
    assert DeployTxs(rest[..2]) == [] by { assert rest[..2][..1] == r0; }
    if verify {
      assert rest[..|rest|][..2] == rest[..2];
    }
    assert rest[..|rest|] == rest;
    assert [DeployTx(contract, address, args, links)][..0] == [];
  }

  /// Every link of a deployment names a contract deployed before it, at the
  /// linked address.
  predicate LinksResolved(deploys: seq<Tx>)
  {
    forall i, k :: 0 <= i < |deploys| && deploys[i].DeployTx? && 0 <= k < |deploys[i].links| ==>
      exists j :: 0 <= j < i && deploys[j].DeployTx?
                  && deploys[j].contract == deploys[i].links[k].0 && deploys[j].address == deploys[i].links[k].1
  }

  /// What `deployVinciLibraries` adds to the trace, given the addresses of
  /// ReserveLogic, NFTVaultLogic, GenericLogic and ValidationLogic. Each
  /// deployment carries the library map its bytecode is linked with.
  function VinciLibrariesEvents(reserveLogic: Address, nftVaultLogic: Address, genericLogic: Address,
                                validationLogic: Address, verify: bool, network: string, deployer: Address): seq<Tx>
  {
    DeployEvents(ContractsGetters.RESERVE_LOGIC, ContractsGetters.RESERVE_LOGIC, reserveLogic, [], [],
                 verify, network, deployer)
    + DeployEvents(ContractsGetters.NFT_VAULT_LOGIC, ContractsGetters.NFT_VAULT_LOGIC, nftVaultLogic, [], [],
                   verify, network, deployer)
    + DeployEvents(ContractsGetters.GENERIC_LOGIC, ContractsGetters.GENERIC_LOGIC, genericLogic, [],
                   [(ContractsGetters.RESERVE_LOGIC, reserveLogic)], verify, network, deployer)
    + DeployEvents(ContractsGetters.VALIDATION_LOGIC, ContractsGetters.VALIDATION_LOGIC, validationLogic, [],
                   [(ContractsGetters.RESERVE_LOGIC, reserveLogic), (ContractsGetters.GENERIC_LOGIC, genericLogic),
                    (ContractsGetters.NFT_VAULT_LOGIC, nftVaultLogic)], verify, network, deployer)
  }

  /// The global registry after `deployVinciLibraries`.
  function VinciLibrariesDb(db: Store, reserveLogic: Address, nftVaultLogic: Address, genericLogic: Address,
                            validationLogic: Address, network: string, deployer: Address): Store
  {
    db[GlobalKey(ContractsGetters.RESERVE_LOGIC, network) := DbRecord(reserveLogic, Some(deployer))]
      [GlobalKey(ContractsGetters.NFT_VAULT_LOGIC, network) := DbRecord(nftVaultLogic, Some(deployer))]
      [GlobalKey(ContractsGetters.GENERIC_LOGIC, network) := DbRecord(genericLogic, Some(deployer))]
      [GlobalKey(ContractsGetters.VALIDATION_LOGIC, network) := DbRecord(validationLogic, Some(deployer))]
  }

  /// `deployReserveLogicLibrary`.
  method DeployReserveLogicLibrary(env: Env, verify: bool) returns (address: Address)
    modifies env
    ensures address == env.addressAt(old(env.nonce)) && env.nonce == old(env.nonce) + 1
    ensures env.trace == old(env.trace) + DeployEvents(ContractsGetters.RESERVE_LOGIC, ContractsGetters.RESERVE_LOGIC,
                                                       address, [], [], verify, env.network, env.deployer)
    ensures env.db == old(env.db)[GlobalKey(ContractsGetters.RESERVE_LOGIC, env.network) := DbRecord(address, Some(env.deployer))]
    ensures env.marketDb == old(env.marketDb)
  {
    address := DeployAndSave(env, ContractsGetters.RESERVE_LOGIC, ContractsGetters.RESERVE_LOGIC, [], [], verify);
  }

  /// `deployNFTVaultLogic`: linked with an empty library map.
  method DeployNFTVaultLogic(env: Env, verify: bool) returns (address: Address)
    modifies env
    ensures address == env.addressAt(old(env.nonce)) && env.nonce == old(env.nonce) + 1
    ensures env.trace == old(env.trace) + DeployEvents(ContractsGetters.NFT_VAULT_LOGIC, ContractsGetters.NFT_VAULT_LOGIC,
                                                       address, [], [], verify, env.network, env.deployer)
    ensures env.db == old(env.db)[GlobalKey(ContractsGetters.NFT_VAULT_LOGIC, env.network) := DbRecord(address, Some(env.deployer))]
    ensures env.marketDb == old(env.marketDb)
  {
    address := DeployAndSave(env, ContractsGetters.NFT_VAULT_LOGIC, ContractsGetters.NFT_VAULT_LOGIC, [], [], verify);
  }

  /// `deployGenericLogic(reserveLogic)`: linked with ReserveLogic.
  method DeployGenericLogic(env: Env, reserveLogic: Address, verify: bool) returns (address: Address)
    modifies env
    ensures address == env.addressAt(old(env.nonce)) && env.nonce == old(env.nonce) + 1
    ensures env.trace == old(env.trace) + DeployEvents(ContractsGetters.GENERIC_LOGIC, ContractsGetters.GENERIC_LOGIC,
                                                       address, [], [(ContractsGetters.RESERVE_LOGIC, reserveLogic)],
                                                       verify, env.network, env.deployer)
    ensures env.db == old(env.db)[GlobalKey(ContractsGetters.GENERIC_LOGIC, env.network) := DbRecord(address, Some(env.deployer))]
    ensures env.marketDb == old(env.marketDb)
  {
    address := DeployAndSave(env, ContractsGetters.GENERIC_LOGIC, ContractsGetters.GENERIC_LOGIC, [],
                             [(ContractsGetters.RESERVE_LOGIC, reserveLogic)], verify);
  }

  /// `deployValidationLogic(reserveLogic, nftVaultLogic, genericLogic)`:
  /// linked with the three libraries deployed before it.
  method DeployValidationLogic(env: Env, reserveLogic: Address, nftVaultLogic: Address, genericLogic: Address,
                               verify: bool) returns (address: Address)
    modifies env
    ensures address == env.addressAt(old(env.nonce)) && env.nonce == old(env.nonce) + 1
    ensures env.trace == old(env.trace) + DeployEvents(ContractsGetters.VALIDATION_LOGIC, ContractsGetters.VALIDATION_LOGIC,
                                                       address, [],
                                                       [(ContractsGetters.RESERVE_LOGIC, reserveLogic),
                                                        (ContractsGetters.GENERIC_LOGIC, genericLogic),
                                                        (ContractsGetters.NFT_VAULT_LOGIC, nftVaultLogic)],
                                                       verify, env.network, env.deployer)
    ensures env.db == old(env.db)[GlobalKey(ContractsGetters.VALIDATION_LOGIC, env.network) := DbRecord(address, Some(env.deployer))]
    ensures env.marketDb == old(env.marketDb)
  {
    address := DeployAndSave(env, ContractsGetters.VALIDATION_LOGIC, ContractsGetters.VALIDATION_LOGIC, [],
                             [(ContractsGetters.RESERVE_LOGIC, reserveLogic),
                              (ContractsGetters.GENERIC_LOGIC, genericLogic),
                              (ContractsGetters.NFT_VAULT_LOGIC, nftVaultLogic)], verify);
  }

  /// `deployVinciLibraries`: the four libraries in dependency order; the
  /// returned map is what `getVinciLibraries` reads back afterwards.
  method DeployVinciLibraries(env: Env, verify: bool) returns (libraries: Dict<Address>)
    modifies env
    ensures env.nonce == old(env.nonce) + 4
    ensures var n := old(env.nonce);
            && libraries == ContractsGetters.LibraryMap(env.addressAt(n), env.addressAt(n + 1), env.addressAt(n + 3))
            && env.trace == old(env.trace) + VinciLibrariesEvents(env.addressAt(n), env.addressAt(n + 1),
                                                                  env.addressAt(n + 2), env.addressAt(n + 3),
                                                                  verify, env.network, env.deployer)
            && env.db == VinciLibrariesDb(old(env.db), env.addressAt(n), env.addressAt(n + 1), env.addressAt(n + 2),
                                          env.addressAt(n + 3), env.network, env.deployer)
    ensures ContractsGetters.GetVinciLibraries(env.db, env.network) == Ok(libraries)
    ensures env.marketDb == old(env.marketDb)
  {
    var reserveLogic := DeployReserveLogicLibrary(env, verify);
    var nftVaultLogic := DeployNFTVaultLogic(env, verify);
    var genericLogic := DeployGenericLogic(env, reserveLogic, verify);
    var validationLogic := DeployValidationLogic(env, reserveLogic, nftVaultLogic, genericLogic, verify);
    libraries := ContractsGetters.LibraryMap(reserveLogic, nftVaultLogic, validationLogic);
  }

  /// The deployments of the four libraries, with their link maps.
  function VinciLibrariesDeploys(reserveLogic: Address, nftVaultLogic: Address, genericLogic: Address,
                                 validationLogic: Address): seq<Tx>
  {
    [DeployTx(ContractsGetters.RESERVE_LOGIC, reserveLogic, [], []),
     DeployTx(ContractsGetters.NFT_VAULT_LOGIC, nftVaultLogic, [], []),
     DeployTx(ContractsGetters.GENERIC_LOGIC, genericLogic, [], [(ContractsGetters.RESERVE_LOGIC, reserveLogic)]),
     DeployTx(ContractsGetters.VALIDATION_LOGIC, validationLogic, [],
              [(ContractsGetters.RESERVE_LOGIC, reserveLogic), (ContractsGetters.GENERIC_LOGIC, genericLogic),
               (ContractsGetters.NFT_VAULT_LOGIC, nftVaultLogic)])]
  }

  lemma VinciLibrariesEventsDeploys(reserveLogic: Address, nftVaultLogic: Address, genericLogic: Address,
                                    validationLogic: Address, verify: bool, network: string, deployer: Address)
    ensures DeployTxs(VinciLibrariesEvents(reserveLogic, nftVaultLogic, genericLogic, validationLogic,
                                           verify, network, deployer)) ==
            VinciLibrariesDeploys(reserveLogic, nftVaultLogic, genericLogic, validationLogic)
  {
    var rl := ContractsGetters.RESERVE_LOGIC;
    var nl := ContractsGetters.NFT_VAULT_LOGIC;
    var gl := ContractsGetters.GENERIC_LOGIC;
    var vl := ContractsGetters.VALIDATION_LOGIC;
    var l3 := [(rl, reserveLogic)];
    var l4 := [(rl, reserveLogic), (gl, genericLogic), (nl, nftVaultLogic)];
    var e1 := DeployEvents(rl, rl, reserveLogic, [], [], verify, network, deployer);
    var e2 := DeployEvents(nl, nl, nftVaultLogic, [], [], verify, network, deployer);
    var e3 := DeployEvents(gl, gl, genericLogic, [], l3, verify, network, deployer);
    var e4 := DeployEvents(vl, vl, validationLogic, [], l4, verify, network, deployer);
    DeployEventsDeploys(rl, rl, reserveLogic, [], [], verify, network, deployer);
    DeployEventsDeploys(nl, nl, nftVaultLogic, [], [], verify, network, deployer);
    DeployEventsDeploys(gl, gl, genericLogic, [], l3, verify, network, deployer);
    DeployEventsDeploys(vl, vl, validationLogic, [], l4, verify, network, deployer);
    DeployTxsAppend(e1, e2);
    DeployTxsAppend(e1 + e2, e3);
    DeployTxsAppend(e1 + e2 + e3, e4);
  }

  /// The libraries are deployed ReserveLogic, NFTVaultLogic, GenericLogic,
  /// ValidationLogic, each linked only against libraries already deployed.
  lemma VinciLibrariesOrder(reserveLogic: Address, nftVaultLogic: Address, genericLogic: Address,
                            validationLogic: Address, verify: bool, network: string, deployer: Address)
    ensures var d := DeployTxs(VinciLibrariesEvents(reserveLogic, nftVaultLogic, genericLogic, validationLogic,
                                                    verify, network, deployer));
            && |d| == 4
            && d[0].contract == ContractsGetters.RESERVE_LOGIC && d[1].contract == ContractsGetters.NFT_VAULT_LOGIC
            && d[2].contract == ContractsGetters.GENERIC_LOGIC && d[3].contract == ContractsGetters.VALIDATION_LOGIC
            && d[0].address == reserveLogic && d[1].address == nftVaultLogic
            && d[2].address == genericLogic && d[3].address == validationLogic
            && LinksResolved(d)
  {
    VinciLibrariesEventsDeploys(reserveLogic, nftVaultLogic, genericLogic, validationLogic, verify, network, deployer);
    var d := VinciLibrariesDeploys(reserveLogic, nftVaultLogic, genericLogic, validationLogic);
    forall i, k | 0 <= i < |d| && d[i].DeployTx? && 0 <= k < |d[i].links|
      ensures exists j :: 0 <= j < i && d[j].DeployTx?
                          && d[j].contract == d[i].links[k].0 && d[j].address == d[i].links[k].1
    {
      if i == 2 {
        assert d[0].contract == d[i].links[k].0;
      } else {
        assert i == 3;
        if k == 0 {
          assert d[0].contract == d[i].links[k].0;
        } else if k == 1 {
          assert d[2].contract == d[i].links[k].0;
        } else {
          assert d[1].contract == d[i].links[k].0;
        }
      }
    }
  }

  /// `deployLendingPool`: the libraries, then the pool linked with them,
  /// recorded as `LendingPoolImpl` (address only) and as `LendingPool`.
  method DeployLendingPool(env: Env, verify: bool) returns (address: Address)
    modifies env
    ensures var n := old(env.nonce);
            var libraries := ContractsGetters.LibraryMap(env.addressAt(n), env.addressAt(n + 1), env.addressAt(n + 3));
            && address == env.addressAt(n + 4) && env.nonce == n + 5
            && env.trace == old(env.trace)
                            + VinciLibrariesEvents(env.addressAt(n), env.addressAt(n + 1), env.addressAt(n + 2),
                                                   env.addressAt(n + 3), verify, env.network, env.deployer)
                            + [DeployTx(LENDING_POOL, address, [], libraries),
                               Register(GlobalKey(LENDING_POOL_IMPL, env.network), DbRecord(address, None))]
                            + SaveAndVerifyEvents(address, LENDING_POOL, [], verify, env.network, env.deployer)
            && env.db == VinciLibrariesDb(old(env.db), env.addressAt(n), env.addressAt(n + 1), env.addressAt(n + 2),
                                          env.addressAt(n + 3), env.network, env.deployer)
                           [GlobalKey(LENDING_POOL_IMPL, env.network) := DbRecord(address, None)]
                           [GlobalKey(LENDING_POOL, env.network) := DbRecord(address, Some(env.deployer))]
            && ContractsGetters.GetVinciLibraries(env.db, env.network) == Ok(libraries)
    ensures env.db[GlobalKey(LENDING_POOL_IMPL, env.network)].address == address
    ensures env.db[GlobalKey(LENDING_POOL, env.network)].address == address
    ensures env.marketDb == old(env.marketDb)
  {
    var libraries := DeployVinciLibraries(env, verify);
    address := env.Deploy(LENDING_POOL, [], libraries);
    InsertContractAddressInDb(env, LENDING_POOL_IMPL, address);
    WithSaveAndVerify(env, address, LENDING_POOL, [], verify);
  }

  // ---------------------------------------------------------------------
  // Token implementations

  const VTOKEN := "VToken"
  const DELEGATION_AWARE_VTOKEN := "DelegationAwareVToken"
  const STABLE_DEBT_TOKEN := "StableDebtToken"
  const VARIABLE_DEBT_TOKEN := "VariableDebtToken"
  const STABLE_DEBT_TOKEN_IMPLEMENTATION := "StableDebtTokenImplementation"
  const VARIABLE_DEBT_TOKEN_IMPLEMENTATION := "VariableDebtTokenImplementation"

  /// The two vToken deployers `chooseVTokenDeployment` can return.
  datatype VTokenDeployer = DeployGenericVTokenImpl | DeployDelegationAwareVTokenImpl

  /// The contract, and registry id, a vToken deployer deploys.
  function DeployedBy(d: VTokenDeployer): string
  {
    match d
    case DeployGenericVTokenImpl => VTOKEN
    case DeployDelegationAwareVTokenImpl => DELEGATION_AWARE_VTOKEN
  }

  /// `chooseVTokenDeployment(id)`: the deployer for the two known vToken
  /// implementations, which deploys exactly that id; a throw for any other.
  function ChooseVTokenDeployment(id: string): (r: Result<VTokenDeployer>)
    ensures r.Ok? <==> id == VTOKEN || id == DELEGATION_AWARE_VTOKEN
    ensures r.Ok? ==> DeployedBy(r.value) == id
  {
    if id == VTOKEN then Ok(DeployGenericVTokenImpl)
    else if id == DELEGATION_AWARE_VTOKEN then Ok(DeployDelegationAwareVTokenImpl)
    else Err("Missing vToken implementation deployment script for: " + id)
  }

  /// `[...new Set(s)]`: each value once, at its first occurrence.
  function Dedup(s: seq<string>): seq<string>
  {
    if s == [] then []
    else
      var n := |s| - 1;
      var prev := Dedup(s[..n]);
      if s[n] in prev then prev else prev + [s[n]]
  }

  /// No value twice, every value of `s`, listed in the order of first
  /// occurrence in `s`.
  lemma {:induction false} DedupSpec(s: seq<string>)
    ensures Distinct(Dedup(s))
    ensures forall x :: x in Dedup(s) <==> x in s
    ensures forall a, b :: 0 <= a < b < |Dedup(s)| ==> FindIndex(s, Dedup(s)[a]) < FindIndex(s, Dedup(s)[b])
  {
    if s != [] {
      var n := |s| - 1;
      var pre := s[..n];
      DedupSpec(pre);
      assert s == pre + [s[n]];
      var d := Dedup(s);
      forall a, b | 0 <= a < b < |d|
        ensures FindIndex(s, d[a]) < FindIndex(s, d[b])
      {
        FindIndexAppend(pre, s[n], d[a]);
        FindIndexAppend(pre, s[n], d[b]);
        if b == |Dedup(pre)| {
          assert d[a] == Dedup(pre)[a] && d[a] in pre;
        } else {
          assert d[a] == Dedup(pre)[a] && d[b] == Dedup(pre)[b];
        }
      }
    }
  }

  /// The distinct `vTokenImpl`s of the reserves, in first-occurrence order.
  function VTokenImpls(reserves: Dict<ReserveParams>): seq<string>
  {
    Dedup(seq(|reserves|, i requires 0 <= i < |reserves| => reserves[i].1.vTokenImpl))
  }

  /// `notFalsyOrZeroAddress(getOptionalParamAddressPerNetwork(poolConfig[id], network))`.
  predicate Configured(config: PoolConfig, id: string, network: string, fork: Option<string>)
  {
    NotFalsyOrZeroAddress(GetOptionalParamAddressPerNetwork(ConfigParam(config, id), network, fork))
  }

  /// The walk over the distinct vToken implementations: the deployments it
  /// makes and the error that stopped it, if any.
  function VTokenImplDeployments(ids: seq<string>, config: PoolConfig, network: string,
                                 fork: Option<string>): (seq<Deployment>, Option<string>)
  {
    if ids == [] then ([], None)
    else
      var n := |ids| - 1;
      var prev := VTokenImplDeployments(ids[..n], config, network, fork);
      if prev.1.Some? || Configured(config, ids[n], network, fork) then prev
      else match ChooseVTokenDeployment(ids[n])
        case Err(msg) => (prev.0, Some(msg))
        case Ok(d) => (prev.0 + [Deployment(DeployedBy(d), DeployedBy(d), [])], None)
  }

  /// The debt-token implementations deployed after the vTokens.
  function DebtTokenDeployments(config: PoolConfig, network: string, fork: Option<string>): seq<Deployment>
  {
    (if Configured(config, STABLE_DEBT_TOKEN_IMPLEMENTATION, network, fork) then []
     else [Deployment(STABLE_DEBT_TOKEN, STABLE_DEBT_TOKEN, [])])
    + (if Configured(config, VARIABLE_DEBT_TOKEN_IMPLEMENTATION, network, fork) then []
       else [Deployment(VARIABLE_DEBT_TOKEN, VARIABLE_DEBT_TOKEN, [])])
  }

  /// Everything `deployVTokenImplementations` deploys, in order, and the
  /// error it throws, if any.
  function VTokenImplementationsPlan(pool: string, markets: Markets, reserves: Dict<ReserveParams>,
                                     network: string, fork: Option<string>): (seq<Deployment>, Option<string>)
  {
    match LoadPoolConfig(pool, markets)
    case Err(msg) => ([], Some(msg))
    case Ok(config) =>
      var vtokens := VTokenImplDeployments(VTokenImpls(reserves), config, network, fork);
      if vtokens.1.Some? then vtokens
      else (vtokens.0 + DebtTokenDeployments(config, network, fork), None)
  }

  lemma {:induction false} VTokenImplDeploymentsPrefix(ids: seq<string>, config: PoolConfig, network: string,
                                                       fork: Option<string>, i: nat)
    requires i <= |ids| && VTokenImplDeployments(ids[..i], config, network, fork).1.Some?
    ensures VTokenImplDeployments(ids, config, network, fork) == VTokenImplDeployments(ids[..i], config, network, fork)
  {
    if i < |ids| {
      var n := |ids| - 1;
      assert ids[..n][..i] == ids[..i];
      VTokenImplDeploymentsPrefix(ids[..n], config, network, fork, i);
    } else {
      assert ids[..i] == ids;
    }
  }

  /// The vToken walk deploys only unconfigured, known implementations
  /// from the list, each under its own id; when it does not stop, every
  /// unconfigured one is deployed; it stops exactly when one unconfigured id
  /// has no deployer.
  lemma {:induction false} VTokenImplDeploymentsSpec(ids: seq<string>, config: PoolConfig, network: string,
                                                     fork: Option<string>)
    ensures var p := VTokenImplDeployments(ids, config, network, fork);
            && (forall d :: d in p.0 ==>
                  && d.contract in ids && d.id == d.contract && d.args == []
                  && !Configured(config, d.contract, network, fork)
                  && (d.contract == VTOKEN || d.contract == DELEGATION_AWARE_VTOKEN))
            && (p.1.None? ==> forall x :: x in ids && !Configured(config, x, network, fork) ==>
                                Deployment(x, x, []) in p.0)
            && (p.1.Some? <==> exists x :: x in ids && !Configured(config, x, network, fork)
                                          && ChooseVTokenDeployment(x).Err?)
  {
    if ids != [] {
      var n := |ids| - 1;
      var pre := ids[..n];
      assert ids == pre + [ids[n]];
      VTokenImplDeploymentsSpec(pre, config, network, fork);
      var prev := VTokenImplDeployments(pre, config, network, fork);
      if prev.1.Some? {
        var x :| x in pre && !Configured(config, x, network, fork) && ChooseVTokenDeployment(x).Err?;
        assert x in ids;
      }
    }
  }

  /// No contract is deployed twice.
  predicate DistinctContracts(ds: seq<Deployment>)
  {
    forall i, j :: 0 <= i < j < |ds| ==> ds[i].contract != ds[j].contract
  }

  /// Over a list without repeats, no implementation is deployed twice.
  lemma {:induction false} VTokenImplDeploymentsDistinct(ids: seq<string>, config: PoolConfig, network: string,
                                                         fork: Option<string>)
    requires Distinct(ids)
    ensures DistinctContracts(VTokenImplDeployments(ids, config, network, fork).0)
  {
    if ids != [] {
      var n := |ids| - 1;
      var pre := ids[..n];
      assert Distinct(pre) by {
        forall i, j | 0 <= i < j < |pre| ensures pre[i] != pre[j] {
          assert pre[i] == ids[i] && pre[j] == ids[j];
        }
      }
      VTokenImplDeploymentsDistinct(pre, config, network, fork);
      var prev := VTokenImplDeployments(pre, config, network, fork);
      var p := VTokenImplDeployments(ids, config, network, fork);
      assert DistinctContracts(prev.0);
      if prev.1.Some? || Configured(config, ids[n], network, fork) || ChooseVTokenDeployment(ids[n]).Err? {
        assert p.0 == prev.0;
        forall i, j | 0 <= i < j < |p.0|
          ensures p.0[i].contract != p.0[j].contract
        {
          assert p.0[i] == prev.0[i] && p.0[j] == prev.0[j];
        }
      } else {
        VTokenImplDeploymentsSpec(pre, config, network, fork);
        assert ids[n] !in pre by {
          forall i | 0 <= i < n ensures pre[i] != ids[n] {
            assert pre[i] == ids[i];
          }
        }
        assert p.0 == prev.0 + [Deployment(ids[n], ids[n], [])];
        forall i, j | 0 <= i < j < |p.0|
          ensures p.0[i].contract != p.0[j].contract
        {
          if j == |prev.0| {
            assert p.0[i] == prev.0[i] && prev.0[i] in prev.0;
            assert prev.0[i].contract in pre;
            assert p.0[j].contract == ids[n];
          } else {
            assert p.0[i] == prev.0[i] && p.0[j] == prev.0[j];
          }
        }
      }
    }
  }

  /// `deployVTokenImplementations` considers each distinct `vTokenImpl` once
  /// and deploys it only when the configuration has no usable address for
  /// it; the debt tokens follow the same rule under their own fields, and
  /// no contract is deployed twice.
  lemma VTokenImplementationsSpec(pool: string, markets: Markets, reserves: Dict<ReserveParams>,
                                  network: string, fork: Option<string>)
    requires LoadPoolConfig(pool, markets).Ok?
    ensures var config := LoadPoolConfig(pool, markets).value;
            var plan := VTokenImplementationsPlan(pool, markets, reserves, network, fork);
            var impls := seq(|reserves|, i requires 0 <= i < |reserves| => reserves[i].1.vTokenImpl);
            && (forall d :: d in plan.0 ==>
                  d.id == d.contract && d.args == []
                  && ((d.contract in impls && !Configured(config, d.contract, network, fork))
                      || (d.contract == STABLE_DEBT_TOKEN
                          && !Configured(config, STABLE_DEBT_TOKEN_IMPLEMENTATION, network, fork))
                      || (d.contract == VARIABLE_DEBT_TOKEN
                          && !Configured(config, VARIABLE_DEBT_TOKEN_IMPLEMENTATION, network, fork))))
            && (forall i, j :: 0 <= i < j < |plan.0| ==> plan.0[i].contract != plan.0[j].contract)
            && (plan.1.Some? <==> exists x :: x in impls && !Configured(config, x, network, fork)
                                             && ChooseVTokenDeployment(x).Err?)
            && (plan.1.None? ==>
                  && (forall x :: x in impls && !Configured(config, x, network, fork) ==> Deployment(x, x, []) in plan.0)
                  && (!Configured(config, STABLE_DEBT_TOKEN_IMPLEMENTATION, network, fork) ==>
                        Deployment(STABLE_DEBT_TOKEN, STABLE_DEBT_TOKEN, []) in plan.0)
                  && (!Configured(config, VARIABLE_DEBT_TOKEN_IMPLEMENTATION, network, fork) ==>
                        Deployment(VARIABLE_DEBT_TOKEN, VARIABLE_DEBT_TOKEN, []) in plan.0))
  {
    var config := LoadPoolConfig(pool, markets).value;
    var impls := seq(|reserves|, i requires 0 <= i < |reserves| => reserves[i].1.vTokenImpl);
    var ids := VTokenImpls(reserves);
    DedupSpec(impls);
    VTokenImplDeploymentsSpec(ids, config, network, fork);
    VTokenImplDeploymentsDistinct(ids, config, network, fork);
    var vtokens := VTokenImplDeployments(ids, config, network, fork);
    var debt := DebtTokenDeployments(config, network, fork);
    var plan := VTokenImplementationsPlan(pool, markets, reserves, network, fork);
    if vtokens.1.None? {
      assert plan.0 == vtokens.0 + debt;
      forall i, j | 0 <= i < j < |plan.0| ensures plan.0[i].contract != plan.0[j].contract {
        if j < |vtokens.0| {
        } else if i < |vtokens.0| {
          assert plan.0[i] in vtokens.0;
          assert plan.0[j] in debt;
        } else {
          assert plan.0[i] == debt[i - |vtokens.0|] && plan.0[j] == debt[j - |vtokens.0|];
        }
      }
      forall d | d in plan.0
        ensures d.id == d.contract && d.args == []
        ensures (d.contract in impls && !Configured(config, d.contract, network, fork))
                || (d.contract == STABLE_DEBT_TOKEN
                    && !Configured(config, STABLE_DEBT_TOKEN_IMPLEMENTATION, network, fork))
                || (d.contract == VARIABLE_DEBT_TOKEN
                    && !Configured(config, VARIABLE_DEBT_TOKEN_IMPLEMENTATION, network, fork))
      {
        if d in vtokens.0 {
          assert d.contract in ids;
        } else {
          assert d in debt;
        }
      }
      forall x | x in impls && !Configured(config, x, network, fork)
        ensures Deployment(x, x, []) in plan.0
      {
        assert x in ids;
        assert Deployment(x, x, []) in vtokens.0;
      }
    }
  }

  /// One more id of the vToken walk.
  lemma VTokenImplStep(ids: seq<string>, config: PoolConfig, network: string, fork: Option<string>, x: nat)
    requires x < |ids|
    ensures var prev := VTokenImplDeployments(ids[..x], config, network, fork);
            VTokenImplDeployments(ids[..x + 1], config, network, fork) ==
              if prev.1.Some? || Configured(config, ids[x], network, fork) then prev
              else if ChooseVTokenDeployment(ids[x]).Err? then (prev.0, Some(ChooseVTokenDeployment(ids[x]).msg))
              else (prev.0 + [Deployment(ids[x], ids[x], [])], None)
  {
    assert ids[..x + 1][..x] == ids[..x];
  }

  /// The loop of `deployVTokenImplementations` over the distinct ids; the
  /// test on the configured address is `Configured`.
  method DeployVTokenImplLoop(env: Env, vTokenImplementations: seq<string>, poolConfig: PoolConfig, verify: bool)
    returns (failure: Option<string>)
    modifies env
    ensures var p := VTokenImplDeployments(vTokenImplementations, poolConfig, env.network, env.fork);
            && failure == p.1
            && env.nonce == old(env.nonce) + |p.0|
            && env.trace == old(env.trace) + DeploymentsEvents(p.0, old(env.nonce), env.addressAt, verify,
                                                               env.network, env.deployer)
            && env.db == RegisterAll(old(env.db), p.0, old(env.nonce), env.addressAt, env.network, env.deployer)
    ensures env.marketDb == old(env.marketDb)
  {
    ghost var start := env.nonce;
    ghost var db0 := env.db;
    ghost var trace0 := env.trace;
    for x := 0 to |vTokenImplementations|
      invariant var done := VTokenImplDeployments(vTokenImplementations[..x], poolConfig, env.network, env.fork);
                && done.1.None?
                && env.nonce == start + |done.0|
                && env.trace == trace0 + DeploymentsEvents(done.0, start, env.addressAt, verify, env.network, env.deployer)
                && env.db == RegisterAll(db0, done.0, start, env.addressAt, env.network, env.deployer)
      invariant env.marketDb == old(env.marketDb)
    {
      ghost var done := VTokenImplDeployments(vTokenImplementations[..x], poolConfig, env.network, env.fork).0;
      VTokenImplStep(vTokenImplementations, poolConfig, env.network, env.fork, x);
      if !Configured(poolConfig, vTokenImplementations[x], env.network, env.fork) {
        var chosen := ChooseVTokenDeployment(vTokenImplementations[x]);
        if chosen.Err? {
          VTokenImplDeploymentsPrefix(vTokenImplementations, poolConfig, env.network, env.fork, x + 1);
          return Some(chosen.msg);
        }
        var _ := DeployNext(env, Deployment(vTokenImplementations[x], vTokenImplementations[x], []), verify,
                            done, start, trace0, db0);
      }
    }
    assert vTokenImplementations[..|vTokenImplementations|] == vTokenImplementations;
    failure := None;
  }

  /// The two debt-token implementations at the end of
  /// `deployVTokenImplementations`, each deployed unless configured.
  method DeployDebtTokens(env: Env, poolConfig: PoolConfig, verify: bool, ghost done: seq<Deployment>,
                          ghost start: nat, ghost trace0: seq<Tx>, ghost db0: Store)
    requires env.nonce == start + |done|
    requires env.trace == trace0 + DeploymentsEvents(done, start, env.addressAt, verify, env.network, env.deployer)
    requires env.db == RegisterAll(db0, done, start, env.addressAt, env.network, env.deployer)
    modifies env
    ensures var all := done + DebtTokenDeployments(poolConfig, env.network, env.fork);
            && env.nonce == start + |all|
            && env.trace == trace0 + DeploymentsEvents(all, start, env.addressAt, verify, env.network, env.deployer)
            && env.db == RegisterAll(db0, all, start, env.addressAt, env.network, env.deployer)
    ensures env.marketDb == old(env.marketDb)
  {
    ghost var all := done;
    if !Configured(poolConfig, STABLE_DEBT_TOKEN_IMPLEMENTATION, env.network, env.fork) {
      var d := Deployment(STABLE_DEBT_TOKEN, STABLE_DEBT_TOKEN, []);
      var _ := DeployNext(env, d, verify, all, start, trace0, db0);
      all := all + [d];
    }
    if !Configured(poolConfig, VARIABLE_DEBT_TOKEN_IMPLEMENTATION, env.network, env.fork) {
      var d := Deployment(VARIABLE_DEBT_TOKEN, VARIABLE_DEBT_TOKEN, []);
      var _ := DeployNext(env, d, verify, all, start, trace0, db0);
      all := all + [d];
    }
    assert all == done + DebtTokenDeployments(poolConfig, env.network, env.fork);
  }

  /// `deployVTokenImplementations(pool, reservesConfig, verify)`.
  method DeployVTokenImplementations(env: Env, pool: string, markets: Markets, reservesConfig: Dict<ReserveParams>,
                                     verify: bool) returns (outcome: Result<()>)
    modifies env
    ensures var plan := VTokenImplementationsPlan(pool, markets, reservesConfig, env.network, env.fork);
            && env.nonce == old(env.nonce) + |plan.0|
            && env.trace == old(env.trace) + DeploymentsEvents(plan.0, old(env.nonce), env.addressAt, verify,
                                                               env.network, env.deployer)
            && env.db == RegisterAll(old(env.db), plan.0, old(env.nonce), env.addressAt, env.network, env.deployer)
            && outcome == (if plan.1.Some? then Err(plan.1.value) else Ok(()))
    ensures env.marketDb == old(env.marketDb)
  {
    var loaded := LoadPoolConfig(pool, markets);
    if loaded.Err? {
      return Err(loaded.msg);
    }
    var poolConfig := loaded.value;
    ghost var start := env.nonce;
    ghost var db0 := env.db;
    ghost var trace0 := env.trace;
    var failure := DeployVTokenImplLoop(env, VTokenImpls(reservesConfig), poolConfig, verify);
    if failure.Some? {
      return Err(failure.value);
    }
    ghost var done := VTokenImplDeployments(VTokenImpls(reservesConfig), poolConfig, env.network, env.fork).0;
    DeployDebtTokens(env, poolConfig, verify, done, start, trace0, db0);
    outcome := Ok(());
  }

  // ---------------------------------------------------------------------
  // Mock aggregators and rate strategies

  const MOCK_AGGREGATOR := "MockAggregator"
  const DEFAULT_DECIMALS := "18"

  /// `tokenSymbol + 'MockAggregator'`; an absent symbol prints as `undefined`.
  function MockAggregatorId(tokenSymbol: Option<string>): string
  {
    match tokenSymbol
    case Some(s) => s + MOCK_AGGREGATOR
    case None => "undefined" + MOCK_AGGREGATOR
  }

  /// `deployMockAggregator([price, decimals], tokenSymbol, verify)`.
  method DeployMockAggregator(env: Env, price: string, decimals: string, tokenSymbol: Option<string>, verify: bool)
    returns (address: Address)
    modifies env
    ensures address == env.addressAt(old(env.nonce)) && env.nonce == old(env.nonce) + 1
    ensures env.trace == old(env.trace) + DeployEvents(MOCK_AGGREGATOR, MockAggregatorId(tokenSymbol), address,
                                                       [price, decimals], [], verify, env.network, env.deployer)
    ensures env.db == old(env.db)[GlobalKey(MockAggregatorId(tokenSymbol), env.network) := DbRecord(address, Some(env.deployer))]
    ensures env.marketDb == old(env.marketDb)
  {
    address := DeployAndSave(env, MOCK_AGGREGATOR, MockAggregatorId(tokenSymbol), [price, decimals], [], verify);
  }

  /// The aggregator deployment for one token: its price and the decimals of
  /// the proto market's reserve of that symbol, else `'18'`.
  function AggregatorDeployment(price: string, tokenSymbol: string, protoReserves: Dict<ReserveParams>): Deployment
  {
    var configData := Get(protoReserves, tokenSymbol);
    Deployment(MOCK_AGGREGATOR, MockAggregatorId(Some(tokenSymbol)),
               [price, if configData.Some? then configData.value.reserveDecimals else DEFAULT_DECIMALS])
  }

  /// `deployTokensPriceAggregator(price, tokenSymbol, verify)`; the proto
  /// market's reserves are a parameter.
  method DeployTokensPriceAggregator(env: Env, price: string, tokenSymbol: string, verify: bool,
                                     protoReserves: Dict<ReserveParams>) returns (address: Address)
    modifies env
    ensures var d := AggregatorDeployment(price, tokenSymbol, protoReserves);
            && address == env.addressAt(old(env.nonce)) && env.nonce == old(env.nonce) + 1
            && env.trace == old(env.trace) + DeployEvents(d.contract, d.id, address, d.args, [], verify,
                                                          env.network, env.deployer)
            && env.db == old(env.db)[GlobalKey(d.id, env.network) := DbRecord(address, Some(env.deployer))]
    ensures env.marketDb == old(env.marketDb)
  {
    var configData := Get(protoReserves, tokenSymbol);
    var decimals := if configData.Some? then configData.value.reserveDecimals else DEFAULT_DECIMALS;
    address := DeployMockAggregator(env, price, decimals, Some(tokenSymbol), verify);
  }

  /// The aggregator of a symbol is registered where `getMockAggregator`
  /// looks for it, with the proto reserve's decimals when there is one.
  lemma AggregatorDeploymentSpec(price: string, tokenSymbol: string, protoReserves: Dict<ReserveParams>,
                                 network: string)
    ensures var d := AggregatorDeployment(price, tokenSymbol, protoReserves);
            && GlobalKey(d.id, network) == ContractsGetters.MockAggregatorKey(tokenSymbol, network)
            && d.args[0] == price
            && (tokenSymbol !in Keys(protoReserves) ==> d.args[1] == DEFAULT_DECIMALS)
            && (forall r :: (tokenSymbol, r) in protoReserves && DistinctKeys(protoReserves) ==>
                              d.args[1] == r.reserveDecimals)
  {
    forall r | (tokenSymbol, r) in protoReserves && DistinctKeys(protoReserves)
      ensures AggregatorDeployment(price, tokenSymbol, protoReserves).args[1] == r.reserveDecimals
    {
      var i :| 0 <= i < |protoReserves| && protoReserves[i] == (tokenSymbol, r);
      GetAt(protoReserves, i);
    }
  }

  const DEFAULT_RESERVE_INTEREST_RATE_STRATEGY := "DefaultReserveInterestRateStrategy"

  /// `name ? name : eContractid.DefaultReserveInterestRateStrategy`.
  function RateStrategyId(name: Option<string>): string
  {
    if Truthy(name) then name.value else DEFAULT_RESERVE_INTEREST_RATE_STRATEGY
  }

  /// `deployDefaultReserveInterestRateStrategy(args, verify, name?)`.
  method DeployDefaultReserveInterestRateStrategy(env: Env, args: seq<string>, verify: bool, name: Option<string>)
    returns (address: Address)
    modifies env
    ensures address == env.addressAt(old(env.nonce)) && env.nonce == old(env.nonce) + 1
    ensures env.trace == old(env.trace) + DeployEvents(DEFAULT_RESERVE_INTEREST_RATE_STRATEGY, RateStrategyId(name),
                                                       address, args, [], verify, env.network, env.deployer)
    ensures env.db == old(env.db)[GlobalKey(RateStrategyId(name), env.network) := DbRecord(address, Some(env.deployer))]
    ensures env.marketDb == old(env.marketDb)
  {
    address := DeployAndSave(env, DEFAULT_RESERVE_INTEREST_RATE_STRATEGY, RateStrategyId(name), args, [], verify);
  }

  /// `deployRateStrategy(strategyName, args, verify)`: every name goes to
  /// the default strategy's deployer, registered under that name.
  method DeployRateStrategy(env: Env, strategyName: string, args: seq<string>, verify: bool)
    returns (address: Address)
    modifies env
    ensures address == env.addressAt(old(env.nonce)) && env.nonce == old(env.nonce) + 1
    ensures env.trace == old(env.trace) + DeployEvents(DEFAULT_RESERVE_INTEREST_RATE_STRATEGY,
                                                       RateStrategyId(Some(strategyName)), address, args, [],
                                                       verify, env.network, env.deployer)
    ensures env.db == old(env.db)[GlobalKey(RateStrategyId(Some(strategyName)), env.network) :=
                                  DbRecord(address, Some(env.deployer))]
    ensures env.marketDb == old(env.marketDb)
  {
    address := DeployDefaultReserveInterestRateStrategy(env, args, verify, Some(strategyName));
  }

  /// A named strategy is registered under its name; an empty or absent name
  /// falls back to the default strategy's id.
  lemma RateStrategyIdCases(name: string)
    ensures name != "" ==> RateStrategyId(Some(name)) == name
    ensures RateStrategyId(Some("")) == DEFAULT_RESERVE_INTEREST_RATE_STRATEGY
    ensures RateStrategyId(None) == DEFAULT_RESERVE_INTEREST_RATE_STRATEGY
  {
  }

  // ---------------------------------------------------------------------
  // Proxy pairs

  const PROXY := "InitializableAdminUpgradeabilityProxy"
  const AAVE_COLLECTOR := "AaveCollector"
  const AAVE_TREASURY_IMPL := "AaveTreasuryImpl"
  const AAVE_TREASURY := "AaveTreasury"
  const NFTX_RANGE_ELIGIBILITY := "NFTXRangeEligibility"

  /// What a proxy pair adds to the trace: the implementation deployed and
  /// registered, then the proxy deployed and registered, then the proxy's
  /// `initialize(implementation, deployer, initData)`.
  function ProxyPairEvents(implContract: string, implId: string, proxyId: string, impl: Address, proxy: Address,
                           initData: Calldata, verify: bool, network: string, deployer: Address): seq<Tx>
  {
    DeployEvents(implContract, implId, impl, [], [], verify, network, deployer)
    + DeployEvents(PROXY, proxyId, proxy, [], [], verify, network, deployer)
    + [InitializeProxy(proxy, impl, deployer, initData)]
  }

  /// The order inside a proxy pair: the implementation is registered, then
  /// the proxy, and only then is the proxy initialized, as the last step.
  lemma ProxyPairOrder(implContract: string, implId: string, proxyId: string, impl: Address, proxy: Address,
                       initData: Calldata, verify: bool, network: string, deployer: Address)
    ensures var e := ProxyPairEvents(implContract, implId, proxyId, impl, proxy, initData, verify, network, deployer);
            var k := if verify then 4 else 3;
            && |e| == 2 * k + 1
            && e[0] == DeployTx(implContract, impl, [], [])
            && e[2] == Register(GlobalKey(implId, network), DbRecord(impl, Some(deployer)))
            && e[k] == DeployTx(PROXY, proxy, [], [])
            && e[k + 2] == Register(GlobalKey(proxyId, network), DbRecord(proxy, Some(deployer)))
            && e[2 * k] == InitializeProxy(proxy, impl, deployer, initData)
            && forall i :: 0 <= i < 2 * k ==> !e[i].InitializeProxy?
  {
  }

  /// The global registry after a proxy pair.
  function ProxyPairDb(db: Store, implId: string, proxyId: string, impl: Address, proxy: Address,
                       network: string, deployer: Address): Store
  {
    db[GlobalKey(implId, network) := DbRecord(impl, Some(deployer))]
      [GlobalKey(proxyId, network) := DbRecord(proxy, Some(deployer))]
  }

  /// `deployTreasury`: an `AaveCollector` behind an admin proxy, registered
  /// as `AaveTreasuryImpl` and `AaveTreasury`; `getTreasury` then finds the
  /// proxy.
  method DeployTreasury(env: Env, verify: bool) returns (treasury: Address)
    modifies env
    ensures var n := old(env.nonce);
            && treasury == env.addressAt(n + 1) && env.nonce == n + 2
            && env.trace == old(env.trace) + ProxyPairEvents(AAVE_COLLECTOR, AAVE_TREASURY_IMPL, AAVE_TREASURY,
                                                             env.addressAt(n), treasury, Calldata("initialize", []),
                                                             verify, env.network, env.deployer)
            && env.db == ProxyPairDb(old(env.db), AAVE_TREASURY_IMPL, AAVE_TREASURY, env.addressAt(n), treasury,
                                     env.network, env.deployer)
    ensures ContractsGetters.GetTreasury(env.db, env.network, None) == Ok(treasury)
    ensures env.marketDb == old(env.marketDb)
  {
    var implementation := DeployAndSave(env, AAVE_COLLECTOR, AAVE_TREASURY_IMPL, [], [], verify);
    treasury := DeployAndSave(env, PROXY, AAVE_TREASURY, [], [], verify);
    env.Send(InitializeProxy(treasury, implementation, env.deployer, Calldata("initialize", [])));
  }

  /// `${tokenSymbol}EligibilityImpl` and `${tokenSymbol}Eligibility`.
  function EligibilityImplId(tokenSymbol: string): string { tokenSymbol + "EligibilityImpl" }
  function EligibilityId(tokenSymbol: string): string { tokenSymbol + "Eligibility" }

  /// `deployRangeEligibility(rangeStart, rangeEnd, tokenSymbol, verify)`:
  /// an `NFTXRangeEligibility` behind an admin proxy, initialized with
  /// `__NFTXEligibility_init(rangeStart, rangeEnd)`. Both records go to the
  /// global registry; the market-scoped registry is left as it was.
  method DeployRangeEligibility(env: Env, rangeStart: int, rangeEnd: int, tokenSymbol: string, verify: bool)
    returns (eligibility: Address)
    modifies env
    ensures var n := old(env.nonce);
            && eligibility == env.addressAt(n + 1) && env.nonce == n + 2
            && env.trace == old(env.trace) + ProxyPairEvents(NFTX_RANGE_ELIGIBILITY, EligibilityImplId(tokenSymbol),
                                                             EligibilityId(tokenSymbol), env.addressAt(n), eligibility,
                                                             Calldata("__NFTXEligibility_init", [rangeStart, rangeEnd]),
                                                             verify, env.network, env.deployer)
            && env.db == ProxyPairDb(old(env.db), EligibilityImplId(tokenSymbol), EligibilityId(tokenSymbol),
                                     env.addressAt(n), eligibility, env.network, env.deployer)
    ensures env.marketDb == old(env.marketDb)
  {
    var implementation := DeployAndSave(env, NFTX_RANGE_ELIGIBILITY, EligibilityImplId(tokenSymbol), [], [], verify);
    eligibility := DeployAndSave(env, PROXY, EligibilityId(tokenSymbol), [], [], verify);
    env.Send(InitializeProxy(eligibility, implementation, env.deployer,
                             Calldata("__NFTXEligibility_init", [rangeStart, rangeEnd])));
  }
}
