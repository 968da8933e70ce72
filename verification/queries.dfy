/**
 The read-only views a principal has of the ledger: one contract by id, the
 list of its live contracts, and the list of its unpaid jobs on contracts in
 progress. A record the principal may not see is reported exactly like a
 record that does not exist.
 */
module Queries {
  import opened Wrappers
  import opened Store

  /** Contract `id`, if it exists and the principal is its client or its contractor. */
  function GetContract(l: Ledger, principal: PartyId, id: ContractId): (r: Result<Contract, Error>)
    ensures r.Success? <==> id in l.contracts && IsParty(l.contracts[id], principal)
    ensures r.Success? ==> r.value == l.contracts[id]
    ensures r.Failure? ==> r == Failure(NotFound)
  {
    if id in l.contracts && IsParty(l.contracts[id], principal) then Success(l.contracts[id])
    else Failure(NotFound)
  }

  /** The principal's contracts that are not terminated, keyed by id. */
  function ListContracts(l: Ledger, principal: PartyId): (r: map<ContractId, Contract>)
    ensures forall id :: id in r <==>
      id in l.contracts && l.contracts[id].status != Terminated && IsParty(l.contracts[id], principal)
    ensures forall id :: id in r ==> r[id] == l.contracts[id]
  {
    map id | id in l.contracts
             && l.contracts[id].status != Terminated
             && IsParty(l.contracts[id], principal)
      :: l.contracts[id]
  }

  /** The unpaid jobs on the principal's contracts that are in progress, keyed by id. */
  function UnpaidJobs(l: Ledger, principal: PartyId): (r: map<JobId, Job>)
    ensures forall j :: j in r <==>
      && j in l.jobs
      && !l.jobs[j].paid
      && l.jobs[j].contract in l.contracts
      && l.contracts[l.jobs[j].contract].status == InProgress
      && IsParty(l.contracts[l.jobs[j].contract], principal)
    ensures forall j :: j in r ==> r[j] == l.jobs[j]
  {
    map j | j in l.jobs
            && !l.jobs[j].paid
            && l.jobs[j].contract in l.contracts
            && l.contracts[l.jobs[j].contract].status == InProgress
            && IsParty(l.contracts[l.jobs[j].contract], principal)
      :: l.jobs[j]
  }

  /**
   A contract the principal is not party to yields the same answer as an id
   that does not exist, so the answer does not reveal which one it is.
   */
  lemma GetContractHidesExistence(l: Ledger, principal: PartyId, hidden: ContractId, absent: ContractId)
    requires hidden in l.contracts && !IsParty(l.contracts[hidden], principal)
    requires absent !in l.contracts
    ensures GetContract(l, principal, hidden) == GetContract(l, principal, absent)
  {
  }

  /** Both the client and the contractor of a contract can fetch it. */
  lemma GetContractBothParties(l: Ledger, id: ContractId)
    requires id in l.contracts
    ensures GetContract(l, l.contracts[id].client, id) == Success(l.contracts[id])
    ensures GetContract(l, l.contracts[id].contractor, id) == Success(l.contracts[id])
  {
  }

  /** The list is exactly the contracts `GetContract` reveals, minus the terminated ones. */
  lemma ListContractsMatchesGet(l: Ledger, principal: PartyId)
    ensures forall id :: id in ListContracts(l, principal) <==>
      GetContract(l, principal, id).Success? && GetContract(l, principal, id).value.status != Terminated
    ensures forall id :: id in ListContracts(l, principal) ==>
      GetContract(l, principal, id) == Success(ListContracts(l, principal)[id])
  {
  }

  /** Every listed unpaid job belongs to a listed contract the principal can fetch. */
  lemma UnpaidJobsOnListedContracts(l: Ledger, principal: PartyId)
    ensures forall j :: j in UnpaidJobs(l, principal) ==>
      && UnpaidJobs(l, principal)[j].contract in ListContracts(l, principal)
      && GetContract(l, principal, UnpaidJobs(l, principal)[j].contract).Success?
  {
  }

  /** The two parties of a contract see the same unpaid jobs on it. */
  lemma UnpaidJobsSymmetric(l: Ledger, j: JobId)
    requires j in l.jobs && l.jobs[j].contract in l.contracts
    ensures j in UnpaidJobs(l, l.contracts[l.jobs[j].contract].client)
        <==> j in UnpaidJobs(l, l.contracts[l.jobs[j].contract].contractor)
  {
  }
}
