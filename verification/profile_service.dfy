/**
 The balance mutator: apply a signed delta to one party's balance.

 It reads an absent balance as 0, never clamps the result, and fails when the
 party is not there. Sign checks are the callers' business.
 */
module ProfileService {
  import opened Wrappers
  import opened Sums
  import opened Store

  /** Party `id` with its balance replaced by the old balance plus `delta`. */
  function AddBalance(l: Ledger, id: PartyId, delta: int): (r: Result<Ledger, Error>)
    ensures r.Failure? <==> id !in l.parties
    ensures r.Failure? ==> r.error == MissingProfile
    ensures r.Success? ==>
      && r.value.parties.Keys == l.parties.Keys
      && Balance(r.value, id) == Balance(l, id) + delta
      && r.value.parties[id].balance.Some?
      && r.value.parties[id].role == l.parties[id].role
      && (forall p :: p in l.parties && p != id ==> r.value.parties[p] == l.parties[p])
      && r.value.contracts == l.contracts
      && r.value.jobs == l.jobs
  {
    if id !in l.parties then Failure(MissingProfile)
    else
      var p := l.parties[id];
      Success(l.(parties := l.parties[id := p.(balance := Some(Bal(p) + delta))]))
  }

  /** Applying `d1` and then `d2` is the same as applying `d1 + d2`. */
  lemma AddBalanceCompose(l: Ledger, id: PartyId, d1: int, d2: int)
    requires id in l.parties
    ensures AddBalance(l, id, d1).Success?
    ensures AddBalance(AddBalance(l, id, d1).value, id, d2) == AddBalance(l, id, d1 + d2)
  {
    var twice := AddBalance(AddBalance(l, id, d1).value, id, d2).value;
    var once := AddBalance(l, id, d1 + d2).value;
    assert twice.parties == once.parties;
  }

  /**
   A zero delta keeps every balance; the ledger is identical unless the
   balance was absent, in which case it is now recorded as 0.
   */
  lemma AddBalanceZero(l: Ledger, id: PartyId)
    requires id in l.parties
    ensures AddBalance(l, id, 0).Success?
    ensures forall p :: Balance(AddBalance(l, id, 0).value, p) == Balance(l, p)
    ensures l.parties[id].balance.Some? ==> AddBalance(l, id, 0).value == l
    ensures l.parties[id].balance.None? ==> AddBalance(l, id, 0).value.parties[id].balance == Some(0)
  {
    var l' := AddBalance(l, id, 0).value;
    if l.parties[id].balance.Some? {
      assert l'.parties == l.parties;
    }
  }

  /** An absent balance is replaced by exactly the delta. */
  lemma AddBalanceFromAbsent(l: Ledger, id: PartyId, delta: int)
    requires id in l.parties && l.parties[id].balance.None?
    ensures AddBalance(l, id, delta).Success?
    ensures AddBalance(l, id, delta).value.parties[id].balance == Some(delta)
  {
  }

  /** The result is not clamped: a debit larger than the balance leaves it negative. */
  lemma AddBalanceNotClamped(l: Ledger, id: PartyId, delta: int)
    requires id in l.parties && Balance(l, id) + delta < 0
    ensures AddBalance(l, id, delta).Success?
    ensures Balance(AddBalance(l, id, delta).value, id) < 0
    ensures !NonNegative(AddBalance(l, id, delta).value)
  {
  }

  /** The money in the ledger changes by exactly `delta`. */
  lemma AddBalanceTotal(l: Ledger, id: PartyId, delta: int)
    requires id in l.parties
    ensures AddBalance(l, id, delta).Success?
    ensures TotalBalance(AddBalance(l, id, delta).value) == TotalBalance(l) + delta
  {
    var l' := AddBalance(l, id, delta).value;
    SumSetPoint(l.parties.Keys, Balances(l), Balances(l'), id, delta);
  }

  /** A balance change keeps the tables well formed. */
  lemma AddBalanceValid(l: Ledger, id: PartyId, delta: int)
    requires Valid(l) && id in l.parties
    ensures AddBalance(l, id, delta).Success?
    ensures Valid(AddBalance(l, id, delta).value)
  {
  }
}
