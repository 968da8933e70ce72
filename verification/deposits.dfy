/**
 The deposit authorizer: credit a client's balance, but never by more than a
 quarter of what that client still owes for unpaid jobs at that moment.

 Only an absent amount is rejected as invalid; a zero or negative amount
 reaches the ceiling check and, when accepted, is applied as it is. The party
 making the request is not compared with the target, so it is no parameter.
 */
module Deposits {
  import opened Wrappers
  import opened Sums
  import opened Store
  import opened ProfileService

  /** The ids of the unpaid jobs on contracts whose client is `target`, whatever their status. */
  function OutstandingJobs(l: Ledger, target: PartyId): (s: set<JobId>)
    ensures forall j :: j in s <==>
      && j in l.jobs
      && !l.jobs[j].paid
      && l.jobs[j].contract in l.contracts
      && l.contracts[l.jobs[j].contract].client == target
  {
    set j | j in l.jobs
            && !l.jobs[j].paid
            && l.jobs[j].contract in l.contracts
            && l.contracts[l.jobs[j].contract].client == target
  }

  /** The price column of the job table, as a function of the job id. */
  function Prices(l: Ledger): nat -> int {
    (j: nat) => if j in l.jobs then l.jobs[j].price else 0
  }

  /**
   What `target` still owes: the total of the prices of its outstanding jobs
   (in any order, by `SumSetRemove`). It is 0 when nothing is outstanding and
   never negative when no price is.
   */
  function Outstanding(l: Ledger, target: PartyId): (total: int)
    ensures OutstandingJobs(l, target) == {} ==> total == 0
    ensures PricesNonNegative(l) ==> total >= 0
  {
    SumOfOwedJobs(OutstandingJobs(l, target), l);
    SumSet(OutstandingJobs(l, target), Prices(l))
  }

  /** A sum of job prices over job ids of `l` is non-negative when no price is negative. */
  lemma SumOfOwedJobs(owed: set<JobId>, l: Ledger)
    requires forall j :: j in owed ==> j in l.jobs
    ensures PricesNonNegative(l) ==> SumSet(owed, Prices(l)) >= 0
  {
    if PricesNonNegative(l) {
      SumSetNonNegative(owed, Prices(l));
    }
  }

  /**
   Credit `amount` to `target`, provided the amount is given, the party exists
   and the amount is at most a quarter of what the party owes. The refusal
   test "amount exceeds a quarter of the debt" is written `4 * amount >
   outstanding`, which needs no fractions.
   */
  function Deposit(l: Ledger, target: PartyId, amount: Option<int>): (r: Result<Ledger, Error>)
    ensures r == Failure(InvalidInput) <==> amount.None?
    ensures amount.Some? ==> (r == Failure(NotFound) <==> target !in l.parties)
    ensures amount.Some? && target in l.parties ==>
      (r == Failure(PolicyViolation) <==> 4 * amount.value > Outstanding(l, target))
    ensures r.Success? <==>
      amount.Some? && target in l.parties && 4 * amount.value <= Outstanding(l, target)
    ensures r.Success? ==>
      && amount.Some?
      && r.value.parties.Keys == l.parties.Keys
      && Balance(r.value, target) == Balance(l, target) + amount.value
      && r.value.parties[target].role == l.parties[target].role
      && (forall p :: p in l.parties && p != target ==> r.value.parties[p] == l.parties[p])
      && r.value.contracts == l.contracts
      && r.value.jobs == l.jobs
  {
    if amount.None? then Failure(InvalidInput)
    else if target !in l.parties then Failure(NotFound)
    else if 4 * amount.value > Outstanding(l, target) then Failure(PolicyViolation)
    else AddBalance(l, target, amount.value)
  }

  /** What a party owes depends on the contract and job tables only. */
  lemma OutstandingFrame(l: Ledger, l': Ledger, target: PartyId)
    requires l'.contracts == l.contracts && l'.jobs == l.jobs
    ensures Outstanding(l', target) == Outstanding(l, target)
  {
    assert OutstandingJobs(l', target) == OutstandingJobs(l, target);
    assert Prices(l') == Prices(l);
  }

  /** The contract status plays no part in the debt: a terminated contract's unpaid jobs still count. */
  lemma OutstandingIgnoresStatus(l: Ledger, c: ContractId, status: Status, target: PartyId)
    requires c in l.contracts
    ensures Outstanding(l.(contracts := l.contracts[c := l.contracts[c].(status := status)]), target)
         == Outstanding(l, target)
  {
    var l' := l.(contracts := l.contracts[c := l.contracts[c].(status := status)]);
    assert OutstandingJobs(l', target) == OutstandingJobs(l, target);
    assert Prices(l') == Prices(l);
  }

  /** An accepted deposit adds exactly `amount` to the money in the ledger. */
  lemma DepositTotal(l: Ledger, target: PartyId, amount: Option<int>)
    requires Deposit(l, target, amount).Success?
    ensures TotalBalance(Deposit(l, target, amount).value) == TotalBalance(l) + amount.value
  {
    AddBalanceTotal(l, target, amount.value);
  }

  /**
   A deposit changes no party's debt, so an accepted deposit can be made
   again, and the two together credit twice the amount.
   */
  lemma DepositRepeatable(l: Ledger, target: PartyId, amount: Option<int>)
    requires Deposit(l, target, amount).Success?
    ensures forall t :: Outstanding(Deposit(l, target, amount).value, t) == Outstanding(l, t)
    ensures Deposit(Deposit(l, target, amount).value, target, amount).Success?
    ensures Balance(Deposit(Deposit(l, target, amount).value, target, amount).value, target)
         == Balance(l, target) + 2 * amount.value
  {
    var l' := Deposit(l, target, amount).value;
    forall t | true
      ensures Outstanding(l', t) == Outstanding(l, t)
    {
      OutstandingFrame(l, l', t);
    }
  }

  /** With nothing owed, every positive amount is refused. */
  lemma DepositNothingOwed(l: Ledger, target: PartyId, amount: int)
    requires target in l.parties && Outstanding(l, target) == 0 && amount > 0
    ensures Deposit(l, target, Some(amount)) == Failure(PolicyViolation)
  {
  }

  /** The ceiling is inclusive: an amount of exactly a quarter of the debt is accepted. */
  lemma DepositCeilingInclusive(l: Ledger, target: PartyId, amount: int)
    requires target in l.parties && 4 * amount == Outstanding(l, target)
    ensures Deposit(l, target, Some(amount)).Success?
    ensures Balance(Deposit(l, target, Some(amount)).value, target) == Balance(l, target) + amount
  {
  }

  /**
   No sign check: when prices are non-negative, a zero or negative amount
   always passes the ceiling and is applied as given.
   */
  lemma DepositNonPositiveAccepted(l: Ledger, target: PartyId, amount: int)
    requires PricesNonNegative(l) && target in l.parties && amount <= 0
    ensures Deposit(l, target, Some(amount)).Success?
    ensures Balance(Deposit(l, target, Some(amount)).value, target) == Balance(l, target) + amount
  {
    SumSetNonNegative(OutstandingJobs(l, target), Prices(l));
  }

  /** A negative "deposit" larger than the balance drives the balance below zero. */
  lemma DepositCanOverdraw(l: Ledger, target: PartyId, amount: int)
    requires PricesNonNegative(l) && target in l.parties
    requires amount < 0 && Balance(l, target) + amount < 0
    ensures Deposit(l, target, Some(amount)).Success?
    ensures !NonNegative(Deposit(l, target, Some(amount)).value)
  {
    DepositNonPositiveAccepted(l, target, amount);
  }

  /** A non-negative deposit keeps every balance non-negative. */
  lemma DepositNonNegative(l: Ledger, target: PartyId, amount: int)
    requires NonNegative(l) && amount >= 0
    requires Deposit(l, target, Some(amount)).Success?
    ensures NonNegative(Deposit(l, target, Some(amount)).value)
  {
  }

  /** A deposit keeps the tables well formed. */
  lemma DepositValid(l: Ledger, target: PartyId, amount: Option<int>)
    requires Valid(l) && Deposit(l, target, amount).Success?
    ensures Valid(Deposit(l, target, amount).value)
  {
  }

  /**
   A client owing 25 + 15 = 40 may deposit 10, but not 11; a target that
   is not a party is not found, and a missing amount is invalid.
   */
  lemma DepositScenario()
    ensures
      var l := Ledger(
        map[1 := Party(Client, Some(0)), 2 := Party(Contractor, None)],
        map[7 := Contract(1, 2, InProgress)],
        map[3 := Job(7, 25, false, None), 4 := Job(7, 15, false, None), 5 := Job(7, 90, true, None)]);
      && Outstanding(l, 1) == 40
      && Deposit(l, 1, Some(10)).Success?
      && Balance(Deposit(l, 1, Some(10)).value, 1) == 10
      && Deposit(l, 1, Some(11)) == Failure(PolicyViolation)
      && Deposit(l, 9, Some(10)) == Failure(NotFound)
      && Deposit(l, 1, None) == Failure(InvalidInput)
  {
    var l := Ledger(
      map[1 := Party(Client, Some(0)), 2 := Party(Contractor, None)],
      map[7 := Contract(1, 2, InProgress)],
      map[3 := Job(7, 25, false, None), 4 := Job(7, 15, false, None), 5 := Job(7, 90, true, None)]);
    assert OutstandingJobs(l, 1) == {3, 4};
    SumSetRemove({3, 4}, Prices(l), 3);
    SumSetRemove({4}, Prices(l), 4);
    assert {3, 4} - {3} == {4};
    assert {4} - {4} == {};
  }
}
