/**
 The three tables of the payments service as one immutable value.

 A `Ledger` holds parties (clients and contractors with a balance), contracts
 linking one client and one contractor, and jobs that belong to a contract.
 Money is an `int` number of cents. A party's balance may be absent (a SQL
 NULL); every operation reads an absent balance as 0.
 */
module Store {
  import opened Wrappers
  import opened Sums

  type PartyId = nat
  type ContractId = nat
  type JobId = nat

  datatype Role = Client | Contractor

  datatype Status = New | InProgress | Terminated

  datatype Party = Party(role: Role, balance: Option<int>)

  datatype Contract = Contract(client: PartyId, contractor: PartyId, status: Status)

  /** `paymentDate` is part of the record but no operation of this model sets it. */
  datatype Job = Job(contract: ContractId, price: int, paid: bool, paymentDate: Option<int>)

  datatype Ledger = Ledger(
    parties: map<PartyId, Party>,
    contracts: map<ContractId, Contract>,
    jobs: map<JobId, Job>)

  /** Why an operation was rejected; none of them changes the ledger. */
  datatype Error =
    | NotFound           // no such record, or not visible to the principal
    | InsufficientFunds  // the payer's balance is below the job's price
    | InvalidInput       // a required request parameter is absent
    | PolicyViolation    // the deposit exceeds a quarter of what is owed
    | MissingProfile     // a balance change was asked of a party that is not there
    | Conflict           // the job is already paid (guarded variant only)

  /** The balance of a party, an absent balance counting as 0. */
  function Bal(p: Party): int {
    p.balance.GetOr(0)
  }

  /** The balance of party `id`, or 0 when there is no such party. */
  function Balance(l: Ledger, id: PartyId): int {
    if id in l.parties then Bal(l.parties[id]) else 0
  }

  /** `p` is the client or the contractor of `c`. */
  predicate IsParty(c: Contract, p: PartyId) {
    c.client == p || c.contractor == p
  }

  /** The balance column of the party table, as a function of the party id. */
  function Balances(l: Ledger): nat -> int {
    (k: nat) => Balance(l, k)
  }

  /** The sum of all balances: the money held inside the ledger. */
  function TotalBalance(l: Ledger): int {
    SumSet(l.parties.Keys, Balances(l))
  }

  /**
   Referential well-formedness of the tables: every contract links two
   distinct existing parties and every job belongs to an existing contract.
   */
  predicate Valid(l: Ledger) {
    && (forall c :: c in l.contracts ==>
          && l.contracts[c].client in l.parties
          && l.contracts[c].contractor in l.parties
          && l.contracts[c].client != l.contracts[c].contractor)
    && (forall j :: j in l.jobs ==> l.jobs[j].contract in l.contracts)
  }

  /** No party holds a negative balance. */
  predicate NonNegative(l: Ledger) {
    forall p :: p in l.parties ==> Bal(l.parties[p]) >= 0
  }

  /** Every job has a non-negative price. */
  predicate PricesNonNegative(l: Ledger) {
    forall j :: j in l.jobs ==> l.jobs[j].price >= 0
  }
}
