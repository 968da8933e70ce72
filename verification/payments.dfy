/**
 The payment orchestrator: a client pays for a job on one of its contracts.

 As written, the handler finds the job only through a contract whose client
 is the principal, compares the principal's balance with the price, and then,
 as one atomic step, debits the client, credits the contractor and marks the
 job paid. It never looks at the job's `paid` flag or the contract's status
 and never sets `paymentDate`. `PayForJobGuarded` is a separate variant, not
 the handler's behaviour, that refuses to pay a job twice.
 */
module Payments {
  import opened Wrappers
  import opened Sums
  import opened Store
  import opened ProfileService
  import opened Deposits
  import opened Queries

  /**
   Job `jobId` is found by the pay handler's lookup for `principal`: the job
   exists and is joined to a contract whose client is the principal. These
   are exactly the jobs whose contract the principal can fetch by id and
   holds as client. On a well-formed ledger a contract's contractor never
   finds its jobs here.
   */
  function PayableBy(l: Ledger, principal: PartyId, jobId: JobId): (found: bool)
    ensures found <==>
      && jobId in l.jobs
      && GetContract(l, principal, l.jobs[jobId].contract).Success?
      && GetContract(l, principal, l.jobs[jobId].contract).value.client == principal
  {
    && jobId in l.jobs
    && l.jobs[jobId].contract in l.contracts
    && l.contracts[l.jobs[jobId].contract].client == principal
  }

  /** The contractor of the contract job `jobId` belongs to. */
  function ContractorOf(l: Ledger, jobId: JobId): PartyId
    requires jobId in l.jobs && l.jobs[jobId].contract in l.contracts
  {
    l.contracts[l.jobs[jobId].contract].contractor
  }

  /**
   After a payment of job `jobId` from `client`: the job is paid and otherwise
   as it was, no other job and no contract changed, and no party other than
   the client and the contractor changed.
   */
  predicate PaymentFrame(l: Ledger, l': Ledger, client: PartyId, jobId: JobId)
    requires jobId in l.jobs && l.jobs[jobId].contract in l.contracts
  {
    && l'.contracts == l.contracts
    && l'.jobs.Keys == l.jobs.Keys
    && l'.jobs[jobId].paid
    && l'.jobs[jobId].price == l.jobs[jobId].price
    && l'.jobs[jobId].contract == l.jobs[jobId].contract
    && l'.jobs[jobId].paymentDate == l.jobs[jobId].paymentDate
    && (forall j :: j in l.jobs && j != jobId ==> l'.jobs[j] == l.jobs[j])
    && l'.parties.Keys == l.parties.Keys
    && (forall p :: p in l.parties ==> l'.parties[p].role == l.parties[p].role)
    && (forall p :: p in l.parties && p != client && p != ContractorOf(l, jobId) ==>
          l'.parties[p] == l.parties[p])
  }

  /** Pay job `jobId` on behalf of `principal`, whose party record the caller has loaded. */
  function PayForJob(l: Ledger, principal: PartyId, jobId: JobId): (r: Result<Ledger, Error>)
    requires principal in l.parties
    ensures r == Failure(NotFound) <==> !PayableBy(l, principal, jobId)
    ensures r == Failure(InsufficientFunds) <==>
      PayableBy(l, principal, jobId) && Balance(l, principal) < l.jobs[jobId].price
    ensures r == Failure(MissingProfile) <==>
      && PayableBy(l, principal, jobId)
      && Balance(l, principal) >= l.jobs[jobId].price
      && ContractorOf(l, jobId) !in l.parties
    ensures r.Success? ==> PayableBy(l, principal, jobId) && PaymentFrame(l, r.value, principal, jobId)
  {
    if !PayableBy(l, principal, jobId) then Failure(NotFound)
    else
      var job := l.jobs[jobId];
      if Balance(l, principal) < job.price then Failure(InsufficientFunds)
      else
        // one transaction: both balance changes and the job update, or nothing
        match AddBalance(l, principal, -job.price)
        case Failure(e) => Failure(e)
        case Success(debited) =>
          match AddBalance(debited, ContractorOf(l, jobId), job.price)
          case Failure(e) => Failure(e)
          case Success(credited) => Success(credited.(jobs := credited.jobs[jobId := job.(paid := true)]))
  }

  /** On a well-formed ledger the only outcomes are not found, insufficient funds, or success. */
  lemma PayForJobOutcome(l: Ledger, principal: PartyId, jobId: JobId)
    requires Valid(l) && principal in l.parties
    ensures PayForJob(l, principal, jobId).Success? <==>
      PayableBy(l, principal, jobId) && Balance(l, principal) >= l.jobs[jobId].price
  {
  }

  /** A balance exactly equal to the price is enough. */
  lemma PayForJobExactBalance(l: Ledger, principal: PartyId, jobId: JobId)
    requires Valid(l) && principal in l.parties
    requires PayableBy(l, principal, jobId) && Balance(l, principal) == l.jobs[jobId].price
    ensures PayForJob(l, principal, jobId).Success?
    ensures Balance(PayForJob(l, principal, jobId).value, principal) == 0
  {
  }

  /** The contractor of a contract can never pay for its jobs: they are not found. */
  lemma ContractorCannotPay(l: Ledger, jobId: JobId)
    requires Valid(l) && jobId in l.jobs
    ensures ContractorOf(l, jobId) in l.parties
    ensures PayForJob(l, ContractorOf(l, jobId), jobId) == Failure(NotFound)
  {
  }

  /** A job the principal may not pay is reported exactly like a job that does not exist. */
  lemma PayForJobHidesExistence(l: Ledger, principal: PartyId, hidden: JobId, absent: JobId)
    requires principal in l.parties
    requires hidden in l.jobs && !PayableBy(l, principal, hidden)
    requires absent !in l.jobs
    ensures PayForJob(l, principal, hidden) == PayForJob(l, principal, absent)
  {
  }

  /** The client loses exactly the price and the contractor gains exactly the price. */
  lemma PayForJobTransfers(l: Ledger, principal: PartyId, jobId: JobId)
    requires Valid(l) && principal in l.parties
    requires PayForJob(l, principal, jobId).Success?
    ensures Balance(PayForJob(l, principal, jobId).value, principal)
         == Balance(l, principal) - l.jobs[jobId].price
    ensures Balance(PayForJob(l, principal, jobId).value, ContractorOf(l, jobId))
         == Balance(l, ContractorOf(l, jobId)) + l.jobs[jobId].price
  {
  }

  /**
   When the job's client and contractor are distinct parties, as `Valid`
   demands of every contract, payment moves money and creates none: the sum
   of all balances is unchanged.
   */
  lemma PayForJobConserves(l: Ledger, principal: PartyId, jobId: JobId)
    requires principal in l.parties
    requires PayForJob(l, principal, jobId).Success?
    requires ContractorOf(l, jobId) != principal
    ensures TotalBalance(PayForJob(l, principal, jobId).value) == TotalBalance(l)
  {
    var price := l.jobs[jobId].price;
    var debited := AddBalance(l, principal, -price).value;
    AddBalanceTotal(l, principal, -price);
    var credited := AddBalance(debited, ContractorOf(l, jobId), price).value;
    AddBalanceTotal(debited, ContractorOf(l, jobId), price);
    var l' := PayForJob(l, principal, jobId).value;
    assert l'.parties == credited.parties;
    SumSetAgree(l'.parties.Keys, Balances(l'), Balances(credited));
  }

  /** A payment keeps the tables well formed. */
  lemma PayForJobValid(l: Ledger, principal: PartyId, jobId: JobId)
    requires Valid(l) && principal in l.parties
    requires PayForJob(l, principal, jobId).Success?
    ensures Valid(PayForJob(l, principal, jobId).value)
  {
  }

  /** With non-negative prices, a payment leaves every balance non-negative. */
  lemma PayForJobNonNegative(l: Ledger, principal: PartyId, jobId: JobId)
    requires Valid(l) && NonNegative(l) && PricesNonNegative(l) && principal in l.parties
    requires PayForJob(l, principal, jobId).Success?
    ensures NonNegative(PayForJob(l, principal, jobId).value)
  {
    PayForJobTransfers(l, principal, jobId);
    var l' := PayForJob(l, principal, jobId).value;
    forall p | p in l'.parties
      ensures Bal(l'.parties[p]) >= 0
    {
      assert Balance(l', p) == Bal(l'.parties[p]);
      assert Balance(l, p) == Bal(l.parties[p]);
    }
  }

  /** A payment takes exactly the paid job out of the set of jobs a party owes for. */
  lemma PayForJobOutstandingJobs(l: Ledger, principal: PartyId, jobId: JobId, t: PartyId)
    requires principal in l.parties
    requires PayForJob(l, principal, jobId).Success?
    ensures OutstandingJobs(PayForJob(l, principal, jobId).value, t) == OutstandingJobs(l, t) - {jobId}
    ensures jobId in OutstandingJobs(l, t) <==> t == principal && !l.jobs[jobId].paid
    ensures forall j :: Prices(PayForJob(l, principal, jobId).value)(j) == Prices(l)(j)
  {
    var l' := PayForJob(l, principal, jobId).value;
    assert OutstandingJobs(l', t) == OutstandingJobs(l, t) - {jobId};
    assert forall j :: Prices(l')(j) == Prices(l)(j);
  }

  /**
   Paying an unpaid job takes its price off what the client owes; no other
   party's debt changes, and paying a job that was already paid changes none.
   */
  lemma PayForJobOutstanding(l: Ledger, principal: PartyId, jobId: JobId, t: PartyId)
    requires principal in l.parties
    requires PayForJob(l, principal, jobId).Success?
    ensures Outstanding(PayForJob(l, principal, jobId).value, t)
         == Outstanding(l, t) - (if t == principal && !l.jobs[jobId].paid then l.jobs[jobId].price else 0)
  {
    PayForJobOutstandingJobs(l, principal, jobId, t);
    var l' := PayForJob(l, principal, jobId).value;
    var before := OutstandingJobs(l, t);
    SumSetAgree(before - {jobId}, Prices(l'), Prices(l));
    if jobId in before {
      SumSetRemove(before, Prices(l), jobId);
    } else {
      assert before - {jobId} == before;
    }
  }

  /** A paid job leaves every unpaid list; every other job stays in the lists it was in. */
  lemma PayForJobUnpaidLists(l: Ledger, principal: PartyId, jobId: JobId, q: PartyId)
    requires principal in l.parties
    requires PayForJob(l, principal, jobId).Success?
    ensures jobId !in UnpaidJobs(PayForJob(l, principal, jobId).value, q)
    ensures forall j :: j != jobId ==>
      (j in UnpaidJobs(PayForJob(l, principal, jobId).value, q) <==> j in UnpaidJobs(l, q))
  {
  }

  /** Every job in a client's unpaid list on its own contract is payable by it, given the funds. */
  lemma UnpaidJobsArePayable(l: Ledger, principal: PartyId, jobId: JobId)
    requires Valid(l) && principal in l.parties
    requires jobId in UnpaidJobs(l, principal)
    requires l.contracts[l.jobs[jobId].contract].client == principal
    ensures jobId in OutstandingJobs(l, principal)
    ensures PayForJob(l, principal, jobId) != Failure(NotFound)
    ensures Balance(l, principal) >= l.jobs[jobId].price ==> PayForJob(l, principal, jobId).Success?
  {
  }

  /** As written, a job already marked paid is paid again when the client has the funds. */
  lemma PayForJobIgnoresPaidFlag(l: Ledger, principal: PartyId, jobId: JobId)
    requires Valid(l) && principal in l.parties
    requires PayableBy(l, principal, jobId) && l.jobs[jobId].paid
    requires Balance(l, principal) >= l.jobs[jobId].price
    ensures PayForJob(l, principal, jobId).Success?
    ensures Balance(PayForJob(l, principal, jobId).value, principal)
         == Balance(l, principal) - l.jobs[jobId].price
  {
  }

  /**
   As written, paying the same job twice transfers the price twice when the
   client can still afford it: there is no guard against double payment.
   */
  lemma PayForJobTwice(l: Ledger, principal: PartyId, jobId: JobId)
    requires Valid(l) && principal in l.parties
    requires PayableBy(l, principal, jobId)
    requires Balance(l, principal) >= 2 * l.jobs[jobId].price
    requires l.jobs[jobId].price >= 0
    ensures PayForJob(l, principal, jobId).Success?
    ensures PayForJob(PayForJob(l, principal, jobId).value, principal, jobId).Success?
    ensures
      var l2 := PayForJob(PayForJob(l, principal, jobId).value, principal, jobId).value;
      && Balance(l2, principal) == Balance(l, principal) - 2 * l.jobs[jobId].price
      && Balance(l2, ContractorOf(l, jobId)) == Balance(l, ContractorOf(l, jobId)) + 2 * l.jobs[jobId].price
  {
    PayForJobTransfers(l, principal, jobId);
    var l1 := PayForJob(l, principal, jobId).value;
    PayForJobValid(l, principal, jobId);
    assert PayableBy(l1, principal, jobId);
    assert ContractorOf(l1, jobId) == ContractorOf(l, jobId);
    PayForJobTransfers(l1, principal, jobId);
  }

  /**
   Variant, not the handler's behaviour: the same payment with a guard that
   refuses a job already marked paid.
   */
  function PayForJobGuarded(l: Ledger, principal: PartyId, jobId: JobId): (r: Result<Ledger, Error>)
    requires principal in l.parties
    ensures r == Failure(NotFound) <==> !PayableBy(l, principal, jobId)
    ensures r == Failure(Conflict) <==> PayableBy(l, principal, jobId) && l.jobs[jobId].paid
    ensures r.Success? ==> !l.jobs[jobId].paid && PaymentFrame(l, r.value, principal, jobId)
  {
    if !PayableBy(l, principal, jobId) then Failure(NotFound)
    else if l.jobs[jobId].paid then Failure(Conflict)
    else PayForJob(l, principal, jobId)
  }

  /** On a job that is not yet paid the guarded variant behaves exactly as the handler. */
  lemma GuardedAgreesOnUnpaid(l: Ledger, principal: PartyId, jobId: JobId)
    requires principal in l.parties
    requires !(PayableBy(l, principal, jobId) && l.jobs[jobId].paid)
    ensures PayForJobGuarded(l, principal, jobId) == PayForJob(l, principal, jobId)
  {
  }

  /** With the guard, a second payment of the same job is refused and moves nothing. */
  lemma GuardedNoDoublePayment(l: Ledger, principal: PartyId, jobId: JobId)
    requires principal in l.parties
    requires PayForJobGuarded(l, principal, jobId).Success?
    ensures PayForJobGuarded(PayForJobGuarded(l, principal, jobId).value, principal, jobId)
         == Failure(Conflict)
  {
  }

  /**
   Client 1 (balance 100) pays job 5 (price 60) to contractor 2 (balance 0):
   the balances become 40 and 60 and the job is paid. A second attempt is
   refused for insufficient funds as written, and as a conflict when guarded.
   With a balance of 200 the handler pays the same job twice.
   */
  lemma PaymentScenario()
    ensures
      var l := Ledger(
        map[1 := Party(Client, Some(100)), 2 := Party(Contractor, Some(0))],
        map[7 := Contract(1, 2, InProgress)],
        map[5 := Job(7, 60, false, None)]);
      && PayForJob(l, 1, 5).Success?
      && Balance(PayForJob(l, 1, 5).value, 1) == 40
      && Balance(PayForJob(l, 1, 5).value, 2) == 60
      && PayForJob(l, 1, 5).value.jobs[5].paid
      && PayForJob(PayForJob(l, 1, 5).value, 1, 5) == Failure(InsufficientFunds)
      && PayForJobGuarded(PayForJob(l, 1, 5).value, 1, 5) == Failure(Conflict)
      && PayForJob(l, 2, 5) == Failure(NotFound)
    ensures
      var rich := Ledger(
        map[1 := Party(Client, Some(200)), 2 := Party(Contractor, Some(0))],
        map[7 := Contract(1, 2, InProgress)],
        map[5 := Job(7, 60, false, None)]);
      && PayForJob(rich, 1, 5).Success?
      && PayForJob(PayForJob(rich, 1, 5).value, 1, 5).Success?
      && Balance(PayForJob(PayForJob(rich, 1, 5).value, 1, 5).value, 1) == 80
      && Balance(PayForJob(PayForJob(rich, 1, 5).value, 1, 5).value, 2) == 120
  {
  }
}
