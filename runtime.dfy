/// The deployment session the helpers run in: the selected network and
/// FORK, the first signer, the chain (seen as the trace of what was sent and
/// a source of fresh contract addresses) and the two JSON registries.
module Runtime {
  import opened Base

  class Env {
    /// `DRE.network.name`.
    const network: string
    /// `process.env.FORK`.
    const fork: Option<string>
    /// The first signer, sender of every deployment.
    const deployer: Address
    /// The address the n-th deployment of the session receives.
    const addressAt: nat -> Address

    /// The global registry and the market-scoped registry.
    var db: Store
    var marketDb: Store
    /// Everything sent so far, oldest first.
    var trace: seq<Tx>
    /// Deployments made so far.
    var nonce: nat

    constructor (network: string, fork: Option<string>, deployer: Address,
                 addressAt: nat -> Address, db: Store, marketDb: Store)
      ensures this.network == network && this.fork == fork && this.deployer == deployer
      ensures this.addressAt == addressAt && this.db == db && this.marketDb == marketDb
      ensures trace == [] && nonce == 0
    {
      this.network := network;
      this.fork := fork;
      this.deployer := deployer;
      this.addressAt := addressAt;
      this.db := db;
      this.marketDb := marketDb;
      trace := [];
      nonce := 0;
    }

    /// A contract factory's `deploy(...)`: the creation transaction is sent
    /// and the contract gets the next fresh address.
    method Deploy(contract: string, args: seq<string>, links: Dict<Address>) returns (address: Address)
      modifies this
      ensures address == addressAt(old(nonce)) && nonce == old(nonce) + 1
      ensures trace == old(trace) + [DeployTx(contract, address, args, links)]
      ensures db == old(db) && marketDb == old(marketDb)
    {
      address := addressAt(nonce);
      nonce := nonce + 1;
      trace := trace + [DeployTx(contract, address, args, links)];
    }

    /// Sends one transaction (and waits for it).
    method Send(tx: Tx)
      modifies this
      ensures trace == old(trace) + [tx]
      ensures db == old(db) && marketDb == old(marketDb) && nonce == old(nonce)
    {
      trace := trace + [tx];
    }

    /// `getDb().set(path, record).write()`: upsert into the global registry.
    method SetRecord(path: Path, record: DbRecord)
      modifies this
      ensures db == old(db)[path := record]
      ensures trace == old(trace) + [Register(path, record)]
      ensures marketDb == old(marketDb) && nonce == old(nonce)
    {
      db := db[path := record];
      trace := trace + [Register(path, record)];
    }
  }
}
