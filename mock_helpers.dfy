/// The symbol-to-address projections of `helpers/mock-helpers.ts`.
module MockHelpers {
  import opened Base

  /// A connected contract instance; the projections read only its address.
  datatype ContractHandle = ContractHandle(address: Address)

  /// `Object.entries(contracts).reduce((acc, [s, c]) => ({...acc, [s]: c.address}), {})`.
  function ProjectAddresses(contracts: Dict<ContractHandle>): (r: Dict<Address>)
  {
    if contracts == [] then []
    else
      var n := |contracts| - 1;
      Put(ProjectAddresses(contracts[..n]), contracts[n].0, contracts[n].1.address)
  }

  /// `getAllTokenAddresses`.
  function GetAllTokenAddresses(mockTokens: Dict<ContractHandle>): Dict<Address>
  {
    ProjectAddresses(mockTokens)
  }

  /// `getAllERC721TokenAddresses`.
  function GetAllERC721TokenAddresses(mockErc721Tokens: Dict<ContractHandle>): Dict<Address>
  {
    ProjectAddresses(mockErc721Tokens)
  }

  /// `getAllEligibilityAddresses`.
  function GetAllEligibilityAddresses(mockEligibilities: Dict<ContractHandle>): Dict<Address>
  {
    ProjectAddresses(mockEligibilities)
  }

  /// `getAllAggregatorsAddresses`.
  function GetAllAggregatorsAddresses(mockAggregators: Dict<ContractHandle>): Dict<Address>
  {
    ProjectAddresses(mockAggregators)
  }

  /// The projection keeps the input's keys, in the input's order.
  lemma {:induction false} ProjectKeys(contracts: Dict<ContractHandle>)
    requires DistinctKeys(contracts)
    ensures Keys(ProjectAddresses(contracts)) == Keys(contracts)
  {
    if contracts != [] {
      var n := |contracts| - 1;
      var prefix := contracts[..n];
      ProjectKeys(prefix);
      PutKeys(ProjectAddresses(prefix), contracts[n].0, contracts[n].1.address);
      LastKeyFresh(contracts);
      assert Keys(contracts) == Keys(prefix) + [contracts[n].0];
    }
  }

  /// Every symbol reads as the address of the contract under that symbol,
  /// and a symbol absent from the input is absent from the result.
  lemma {:induction false} ProjectGet(contracts: Dict<ContractHandle>, symbol: string)
    requires DistinctKeys(contracts)
    ensures Get(ProjectAddresses(contracts), symbol) ==
            match Get(contracts, symbol)
            case None => None
            case Some(c) => Some(c.address)
  {
    if contracts != [] {
      var n := |contracts| - 1;
      var prefix := contracts[..n];
      ProjectGet(prefix, symbol);
      PutGet(ProjectAddresses(prefix), contracts[n].0, contracts[n].1.address, symbol);
      assert contracts == prefix + [contracts[n]];
      GetAppend(prefix, contracts[n].0, contracts[n].1, symbol);
      LastKeyFresh(contracts);
    }
  }

  /// The four getters are one projection: each result has exactly its
  /// input's keys, each holding that contract's address; no contracts give
  /// an empty object.
  lemma AllAddressesSpec(contracts: Dict<ContractHandle>, symbol: string)
    requires DistinctKeys(contracts)
    ensures var r := GetAllTokenAddresses(contracts);
            && Keys(r) == Keys(contracts)
            && (symbol in Keys(contracts) ==> Get(r, symbol) == Some(Get(contracts, symbol).value.address))
            && (symbol !in Keys(contracts) ==> Get(r, symbol) == None)
    ensures GetAllERC721TokenAddresses(contracts) == GetAllTokenAddresses(contracts)
            && GetAllEligibilityAddresses(contracts) == GetAllTokenAddresses(contracts)
            && GetAllAggregatorsAddresses(contracts) == GetAllTokenAddresses(contracts)
    ensures GetAllTokenAddresses([]) == []
  {
    ProjectKeys(contracts);
    ProjectGet(contracts, symbol);
  }
}
