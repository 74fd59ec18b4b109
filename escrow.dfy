/** The part of `ReservableCurrency` the kitties pallets use, as an abstract ledger of
    free and reserved balances per account (missing entries read as zero). */
module Escrow {
  import opened Frame

  datatype Balances = Balances(free: map<AccountId, nat>, reserved: map<AccountId, nat>)

  function Free(b: Balances, a: AccountId): nat
  {
    if a in b.free then b.free[a] else 0
  }

  function Reserved(b: Balances, a: AccountId): nat
  {
    if a in b.reserved then b.reserved[a] else 0
  }

  /** What an account holds in all: escrow operations only move value between its two parts. */
  function Total(b: Balances, a: AccountId): nat
  {
    Free(b, a) + Reserved(b, a)
  }

  /** `can_reserve`: the free balance covers the amount. */
  predicate CanReserve(b: Balances, a: AccountId, amount: nat)
  {
    amount <= Free(b, a)
  }

  /** `reserve`: moves `amount` of `a` from free to reserved, or fails when the
      free balance does not cover it. */
  function Reserve(b: Balances, a: AccountId, amount: nat): (r: Option<Balances>)
    ensures r.Some? <==> CanReserve(b, a, amount)
    ensures r.Some? ==> Free(r.value, a) + amount == Free(b, a)
    ensures r.Some? ==> Reserved(r.value, a) == Reserved(b, a) + amount
    ensures r.Some? ==> forall o :: o != a ==> Free(r.value, o) == Free(b, o) && Reserved(r.value, o) == Reserved(b, o)
    ensures r.Some? ==> forall o :: Total(r.value, o) == Total(b, o)
  {
    if amount <= Free(b, a) then
      Some(Balances(b.free[a := Free(b, a) - amount], b.reserved[a := Reserved(b, a) + amount]))
    else
      None
  }

  /** `unreserve`: moves up to `amount` of `a` back from reserved to free; it never
      fails and releases at most what is reserved. */
  function Unreserve(b: Balances, a: AccountId, amount: nat): (r: Balances)
    ensures Reserved(r, a) == if amount <= Reserved(b, a) then Reserved(b, a) - amount else 0
    ensures Free(r, a) == Free(b, a) + (Reserved(b, a) - Reserved(r, a))
    ensures forall o :: o != a ==> Free(r, o) == Free(b, o) && Reserved(r, o) == Reserved(b, o)
    ensures forall o :: Total(r, o) == Total(b, o)
  {
    var released := if amount <= Reserved(b, a) then amount else Reserved(b, a);
    Balances(b.free[a := Free(b, a) + released], b.reserved[a := Reserved(b, a) - released])
  }

  /** Releasing what was just reserved gives every account back its balances. */
  lemma ReserveUnreserve(b: Balances, a: AccountId, amount: nat)
    requires CanReserve(b, a, amount)
    ensures forall o :: Free(Unreserve(Reserve(b, a, amount).value, a, amount), o) == Free(b, o)
    ensures forall o :: Reserved(Unreserve(Reserve(b, a, amount).value, a, amount), o) == Reserved(b, o)
  {
  }
}
