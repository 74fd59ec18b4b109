/** The kitties ledger shared by the escrow generations of the pallet
    (substrate-advanced-course-two and lesson4): the id counter, the id->kitty and
    id->owner maps, the bounded per-owner lists and the escrowed price, with the
    reference transitions of `create`, `breed` and `transfer` and the invariant they keep.
    The kitty record `K` differs between the generations and is a type parameter. */
module KittyLedger {
  import opened Frame
  import opened Escrow

  type KittyId = nat

  /** The configured constants: `KittyPrice`, `MaxKittyIndex` (the capacity of each
      owner's list) and `KittyIndex::max_value()`. */
  datatype Config = Config(price: nat, capacity: nat, maxKittyId: nat)

  /** The pallet's errors that calls can return, plus `BadOrigin` from `ensure_signed`
      and `ReserveFailed` for the currency's own refusal to reserve. `KittyIdOverflow`
      is only ever unwrapped, never returned. */
  datatype Error = BadOrigin | InvalidKittyId | NotOwner | SameKittyId | NotEnoughBalance
                 | OwnTooManyKitties | ReserveFailed

  /** `NextKittyId`, `Kitties`, `KittyOwner`, `AllKitties` and the currency. */
  datatype Ledger<K> = Ledger(
    nextKittyId: KittyId,
    kitties: map<KittyId, K>,
    kittyOwner: map<KittyId, AccountId>,
    allKitties: map<AccountId, seq<KittyId>>,
    currency: Balances)

  /** `AllKitties` is a `ValueQuery`: an account without an entry owns the empty list. */
  function Owned<K>(l: Ledger<K>, a: AccountId): seq<KittyId>
  {
    if a in l.allKitties then l.allKitties[a] else []
  }

  /** `get_next_id`: the counter, unless it has reached the largest id. A returned id
      can always be incremented. */
  function GetNextId<K>(l: Ledger<K>, cfg: Config): (r: Option<KittyId>)
    ensures r.Some? <==> l.nextKittyId < cfg.maxKittyId
    ensures r.Some? ==> r.value == l.nextKittyId && CheckedAdd(r.value, 1, cfg.maxKittyId).Some?
  {
    if cfg.maxKittyId <= l.nextKittyId then None else Some(l.nextKittyId)
  }

  /** `get_kitty`: succeeds exactly for stored ids. */
  function GetKitty<K>(l: Ledger<K>, id: KittyId): (r: Option<K>)
    ensures r.Some? <==> id in l.kitties
    ensures r.Some? ==> r.value == l.kitties[id]
  {
    if id in l.kitties then Some(l.kitties[id]) else None
  }

  /** The writes of a successful `create` or `breed`: reserve the price, store the kitty
      and its owner under the counter, advance the counter and append the id to the
      owner's list. */
  function Mint<K>(l: Ledger<K>, cfg: Config, who: AccountId, kitty: K): Ledger<K>
    requires CanReserve(l.currency, who, cfg.price)
  {
    var id := l.nextKittyId;
    Ledger(id + 1,
           l.kitties[id := kitty],
           l.kittyOwner[id := who],
           l.allKitties[who := Owned(l, who) + [id]],
           Reserve(l.currency, who, cfg.price).value)
  }

  /** Reference transition of `create` (`kitty` is built from the random DNA). Errors
      in order: NotEnoughBalance, InvalidKittyId (counter exhausted), OwnTooManyKitties. */
  function Create<K>(l: Ledger<K>, cfg: Config, origin: Origin, kitty: K): (r: Result<Ledger<K>, Error>)
    ensures r.Ok? ==> r.value.nextKittyId == l.nextKittyId + 1
    ensures r.Ok? ==> l.nextKittyId in r.value.kitties && r.value.kitties[l.nextKittyId] == kitty
    ensures r.Ok? ==> origin.Signed? && l.nextKittyId in r.value.kittyOwner && r.value.kittyOwner[l.nextKittyId] == origin.who
    ensures r.Ok? ==> origin.Signed? && Reserved(r.value.currency, origin.who) == Reserved(l.currency, origin.who) + cfg.price
  {
    if !origin.Signed? then Err(BadOrigin)
    else if !CanReserve(l.currency, origin.who, cfg.price) then Err(NotEnoughBalance)
    else if GetNextId(l, cfg).None? then Err(InvalidKittyId)
    else if |Owned(l, origin.who)| >= cfg.capacity then Err(OwnTooManyKitties)
    else Ok(Mint(l, cfg, origin.who, kitty))
  }

  /** Reference transition of `breed`; `offspring` builds the child from the two parents
      (it combines their DNA with the random selector). Errors in order:
      NotEnoughBalance, SameKittyId, InvalidKittyId (a parent is missing),
      InvalidKittyId (counter exhausted), OwnTooManyKitties. Who owns the parents is not
      looked at. */
  function Breed<K>(l: Ledger<K>, cfg: Config, origin: Origin, id1: KittyId, id2: KittyId,
                    offspring: (K, K) -> K): (r: Result<Ledger<K>, Error>)
    ensures r.Ok? ==> id1 in l.kitties && id2 in l.kitties && id1 != id2
    ensures r.Ok? ==> r.value.nextKittyId == l.nextKittyId + 1
    ensures r.Ok? ==> l.nextKittyId in r.value.kitties
                      && r.value.kitties[l.nextKittyId] == offspring(l.kitties[id1], l.kitties[id2])
    ensures r.Ok? ==> forall id :: id in l.kitties && id != l.nextKittyId ==> id in r.value.kitties && r.value.kitties[id] == l.kitties[id]
    ensures r.Ok? ==> origin.Signed? && l.nextKittyId in r.value.kittyOwner && r.value.kittyOwner[l.nextKittyId] == origin.who
    ensures r.Ok? ==> origin.Signed? && Reserved(r.value.currency, origin.who) == Reserved(l.currency, origin.who) + cfg.price
  {
    if !origin.Signed? then Err(BadOrigin)
    else if !CanReserve(l.currency, origin.who, cfg.price) then Err(NotEnoughBalance)
    else if id1 == id2 then Err(SameKittyId)
    else if GetKitty(l, id1).None? || GetKitty(l, id2).None? then Err(InvalidKittyId)
    else if GetNextId(l, cfg).None? then Err(InvalidKittyId)
    else if |Owned(l, origin.who)| >= cfg.capacity then Err(OwnTooManyKitties)
    else Ok(Mint(l, cfg, origin.who, offspring(l.kitties[id1], l.kitties[id2])))
  }

  /** `kitties.remove(index)` at the first position of `x`; a list without `x` is left as
      it is (under the invariant the transferred id is always present). */
  function RemoveFirst(s: seq<KittyId>, x: KittyId): seq<KittyId>
  {
    if s == [] then []
    else if s[0] == x then s[1..]
    else [s[0]] + RemoveFirst(s[1..], x)
  }

  /** `RemoveFirst` takes out one occurrence of `x` and nothing else, and leaves a list
      without `x` as it is. */
  lemma {:induction false} RemoveFirstMultiset(s: seq<KittyId>, x: KittyId)
    ensures x !in s ==> RemoveFirst(s, x) == s
    ensures multiset(RemoveFirst(s, x)) == multiset(s) - multiset{x}
  {
    if s != [] {
      assert s == [s[0]] + s[1..];
      RemoveFirstMultiset(s[1..], x);
    }
  }

  /** Removing the first `x` from `p + [x] + q`, where `p` has no `x`, leaves `p + q`. */
  lemma {:induction false} RemoveFirstSplit(p: seq<KittyId>, x: KittyId, q: seq<KittyId>)
    requires x !in p
    ensures RemoveFirst(p + [x] + q, x) == p + q
  {
    if p == [] {
      assert p + [x] + q == [x] + q;
    } else {
      assert (p + [x] + q)[1..] == p[1..] + [x] + q;
      RemoveFirstSplit(p[1..], x, q);
      assert p + q == [p[0]] + (p[1..] + q);
    }
  }

  /** Removing at the first index of `x` is `RemoveFirst`. */
  lemma RemoveFirstAt(s: seq<KittyId>, x: KittyId, i: nat)
    requires i < |s| && s[i] == x && forall j :: 0 <= j < i ==> s[j] != x
    ensures RemoveFirst(s, x) == s[..i] + s[i + 1..]
  {
    assert s == s[..i] + [x] + s[i + 1..];
    RemoveFirstSplit(s[..i], x, s[i + 1..]);
  }

  /** `kitties.iter().position(|&r| r == x)` */
  method Position(s: seq<KittyId>, x: KittyId) returns (r: Option<nat>)
    ensures r.Some? <==> x in s
    ensures r.Some? ==> r.value < |s| && s[r.value] == x && forall j :: 0 <= j < r.value ==> s[j] != x
  {
    var i := 0;
    while i < |s|
      invariant 0 <= i <= |s|
      invariant forall j :: 0 <= j < i ==> s[j] != x
    {
      if s[i] == x {
        return Some(i);
      }
      i := i + 1;
    }
    return None;
  }

  /** The writes of `transfer` once its checks have passed, in the source's order:
      release the caller's price, reserve it on the new owner (ReserveFailed), rewrite
      the owner, take the id out of the caller's list and append it to the new owner's
      (OwnTooManyKitties when that list is full). */
  function Handover<K>(l: Ledger<K>, cfg: Config, who: AccountId, id: KittyId, newOwner: AccountId): Result<Ledger<K>, Error>
  {
    var released := Unreserve(l.currency, who, cfg.price);
    var locked := Reserve(released, newOwner, cfg.price);
    if locked.None? then Err(ReserveFailed)
    else
      var lists := l.allKitties[who := RemoveFirst(Owned(l, who), id)];
      var dest := if newOwner in lists then lists[newOwner] else [];
      if |dest| >= cfg.capacity then Err(OwnTooManyKitties)
      else Ok(Ledger(l.nextKittyId, l.kitties, l.kittyOwner[id := newOwner],
                     lists[newOwner := dest + [id]], locked.value))
  }

  /** The new owner's list as `transfer` finds it for the push: after the id has been
      taken out of the caller's list (the same list when the new owner is the caller). */
  function ListAfterRemoval<K>(l: Ledger<K>, who: AccountId, id: KittyId, newOwner: AccountId): seq<KittyId>
  {
    if newOwner == who then RemoveFirst(Owned(l, who), id) else Owned(l, newOwner)
  }

  /** Reference transition of `transfer`. Checks in order: the CALLER can reserve the
      price (NotEnoughBalance), the kitty exists (InvalidKittyId), the caller owns it
      (NotOwner); then `Handover`. The steps are applied in order, so a transfer to
      oneself moves the id to the end of the caller's list. */
  function Transfer<K>(l: Ledger<K>, cfg: Config, origin: Origin, id: KittyId, newOwner: AccountId): (r: Result<Ledger<K>, Error>)
    ensures r.Ok? ==> origin.Signed? && id in l.kittyOwner && l.kittyOwner[id] == origin.who
    ensures r.Ok? ==> r.value.kittyOwner == l.kittyOwner[id := newOwner]
    ensures r.Ok? ==> r.value.kitties == l.kitties && r.value.nextKittyId == l.nextKittyId
  {
    if !origin.Signed? then Err(BadOrigin)
    else if !CanReserve(l.currency, origin.who, cfg.price) then Err(NotEnoughBalance)
    else if GetKitty(l, id).None? then Err(InvalidKittyId)
    else if id !in l.kittyOwner || l.kittyOwner[id] != origin.who then Err(NotOwner)
    else Handover(l, cfg, origin.who, id, newOwner)
  }

  // ---------------------------------------------------------------------------
  // The invariant web

  /** The counter is within the id type and above every id in use, and an id has an
      owner exactly when it has a kitty. */
  ghost predicate CounterInv<K>(l: Ledger<K>, cfg: Config)
  {
    && l.nextKittyId <= cfg.maxKittyId
    && l.kittyOwner.Keys == l.kitties.Keys
    && (forall id :: id in l.kitties ==> id < l.nextKittyId)
  }

  /** `KittyOwner[id] == a` exactly when `id` occurs once in `AllKitties[a]`; an id occurs
      in no other list. */
  ghost predicate ListsMatchOwners<K>(l: Ledger<K>)
  {
    forall a, id :: multiset(Owned(l, a))[id] == if id in l.kittyOwner && l.kittyOwner[id] == a then 1 else 0
  }

  ghost predicate WithinCapacity<K>(l: Ledger<K>, cfg: Config)
  {
    forall a :: |Owned(l, a)| <= cfg.capacity
  }

  /** Each account has the price reserved once per kitty it owns. */
  ghost predicate EscrowMatches<K>(l: Ledger<K>, cfg: Config)
  {
    forall a :: Reserved(l.currency, a) == cfg.price * |Owned(l, a)|
  }

  /** The storage invariant of the pallet. */
  ghost predicate Inv<K>(l: Ledger<K>, cfg: Config)
  {
    CounterInv(l, cfg) && ListsMatchOwners(l) && WithinCapacity(l, cfg) && EscrowMatches(l, cfg)
  }

  /** The genesis state: no kitties, counter 0, nothing reserved. */
  function Genesis<K>(endowment: map<AccountId, nat>): Ledger<K>
  {
    Ledger(0, map[], map[], map[], Balances(endowment, map[]))
  }

  lemma GenesisInv<K>(cfg: Config, endowment: map<AccountId, nat>)
    ensures Inv(Genesis<K>(endowment), cfg)
  {
  }

  /** Under the invariant a kitty's id is in its owner's list, so the
      `position(...).unwrap()` of `transfer` cannot panic. */
  lemma OwnerListed<K>(l: Ledger<K>, id: KittyId)
    requires ListsMatchOwners(l) && id in l.kittyOwner
    ensures id in Owned(l, l.kittyOwner[id])
  {
    assert multiset(Owned(l, l.kittyOwner[id]))[id] == 1;
  }

  lemma MulSucc(p: nat, n: nat)
    ensures p * (n + 1) == p * n + p
  {
  }

  lemma MintLists<K>(l: Ledger<K>, cfg: Config, who: AccountId, kitty: K)
    requires CounterInv(l, cfg) && ListsMatchOwners(l) && CanReserve(l.currency, who, cfg.price)
    ensures ListsMatchOwners(Mint(l, cfg, who, kitty))
  {
    var l' := Mint(l, cfg, who, kitty);
    var id := l.nextKittyId;
    assert id !in l.kittyOwner;
    forall a, x
      ensures multiset(Owned(l', a))[x] == if x in l'.kittyOwner && l'.kittyOwner[x] == a then 1 else 0
    {
      assert multiset(Owned(l, a))[x] == if x in l.kittyOwner && l.kittyOwner[x] == a then 1 else 0;
      if a == who {
        assert Owned(l', a) == Owned(l, a) + [id];
        assert multiset(Owned(l', a)) == multiset(Owned(l, a)) + multiset{id};
      } else {
        assert Owned(l', a) == Owned(l, a);
      }
    }
  }

  lemma MintEscrow<K>(l: Ledger<K>, cfg: Config, who: AccountId, kitty: K)
    requires EscrowMatches(l, cfg) && WithinCapacity(l, cfg) && CanReserve(l.currency, who, cfg.price)
    requires |Owned(l, who)| < cfg.capacity
    ensures EscrowMatches(Mint(l, cfg, who, kitty), cfg) && WithinCapacity(Mint(l, cfg, who, kitty), cfg)
  {
    var l' := Mint(l, cfg, who, kitty);
    forall a ensures Reserved(l'.currency, a) == cfg.price * |Owned(l', a)| && |Owned(l', a)| <= cfg.capacity {
      if a == who {
        MulSucc(cfg.price, |Owned(l, a)|);
      } else {
        assert Owned(l', a) == Owned(l, a);
      }
    }
  }

  lemma MintInv<K>(l: Ledger<K>, cfg: Config, who: AccountId, kitty: K)
    requires Inv(l, cfg) && CanReserve(l.currency, who, cfg.price)
    requires l.nextKittyId < cfg.maxKittyId && |Owned(l, who)| < cfg.capacity
    ensures Inv(Mint(l, cfg, who, kitty), cfg)
  {
    MintLists(l, cfg, who, kitty);
    MintEscrow(l, cfg, who, kitty);
  }

  /** `create` keeps the invariant and every account's free + reserved. */
  lemma CreateInv<K>(l: Ledger<K>, cfg: Config, origin: Origin, kitty: K)
    requires Inv(l, cfg)
    ensures Create(l, cfg, origin, kitty).Ok? ==> Inv(Create(l, cfg, origin, kitty).value, cfg)
    ensures Create(l, cfg, origin, kitty).Ok? ==>
              forall a :: Total(Create(l, cfg, origin, kitty).value.currency, a) == Total(l.currency, a)
  {
    if Create(l, cfg, origin, kitty).Ok? {
      MintInv(l, cfg, origin.who, kitty);
    }
  }

  /** `breed` keeps the invariant and every account's free + reserved. */
  lemma BreedInv<K>(l: Ledger<K>, cfg: Config, origin: Origin, id1: KittyId, id2: KittyId, offspring: (K, K) -> K)
    requires Inv(l, cfg)
    ensures Breed(l, cfg, origin, id1, id2, offspring).Ok? ==> Inv(Breed(l, cfg, origin, id1, id2, offspring).value, cfg)
    ensures Breed(l, cfg, origin, id1, id2, offspring).Ok? ==>
              forall a :: Total(Breed(l, cfg, origin, id1, id2, offspring).value.currency, a) == Total(l.currency, a)
  {
    if Breed(l, cfg, origin, id1, id2, offspring).Ok? {
      MintInv(l, cfg, origin.who, offspring(l.kitties[id1], l.kitties[id2]));
    }
  }

  /** The lists after a successful handover: the caller's loses its first `id`, the new
      owner's gains `id` at the end (for a transfer to oneself, both in turn). */
  lemma HandoverLists<K>(l: Ledger<K>, cfg: Config, who: AccountId, id: KittyId, newOwner: AccountId)
    requires Handover(l, cfg, who, id, newOwner).Ok?
    ensures var l' := Handover(l, cfg, who, id, newOwner).value;
            var removed := RemoveFirst(Owned(l, who), id);
            && Owned(l', newOwner) == (if newOwner == who then removed else Owned(l, newOwner)) + [id]
            && (newOwner != who ==> Owned(l', who) == removed)
            && (forall a :: a != newOwner && a != who ==> Owned(l', a) == Owned(l, a))
  {
  }

  lemma HandoverOwnership<K>(l: Ledger<K>, cfg: Config, who: AccountId, id: KittyId, newOwner: AccountId)
    requires ListsMatchOwners(l) && id in l.kittyOwner && l.kittyOwner[id] == who
    requires Handover(l, cfg, who, id, newOwner).Ok?
    ensures ListsMatchOwners(Handover(l, cfg, who, id, newOwner).value)
  {
    var l' := Handover(l, cfg, who, id, newOwner).value;
    assert multiset(Owned(l, who))[id] == 1;
    forall a, x
      ensures multiset(Owned(l', a))[x] == if x in l'.kittyOwner && l'.kittyOwner[x] == a then 1 else 0
    {
      assert multiset(Owned(l, a))[x] == if x in l.kittyOwner && l.kittyOwner[x] == a then 1 else 0;
      assert multiset(Owned(l, who))[x] == if x in l.kittyOwner && l.kittyOwner[x] == who then 1 else 0;
      HandoverOwnershipAt(l, cfg, who, id, newOwner, a, x);
    }
  }

  /** `HandoverOwnership` for one account `a` and one id `x`. */
  lemma HandoverOwnershipAt<K>(l: Ledger<K>, cfg: Config, who: AccountId, id: KittyId, newOwner: AccountId,
                               a: AccountId, x: KittyId)
    requires id in l.kittyOwner && l.kittyOwner[id] == who && multiset(Owned(l, who))[id] == 1
    requires multiset(Owned(l, a))[x] == if x in l.kittyOwner && l.kittyOwner[x] == a then 1 else 0
    requires multiset(Owned(l, who))[x] == if x in l.kittyOwner && l.kittyOwner[x] == who then 1 else 0
    requires Handover(l, cfg, who, id, newOwner).Ok?
    ensures var l' := Handover(l, cfg, who, id, newOwner).value;
            multiset(Owned(l', a))[x] == if x in l'.kittyOwner && l'.kittyOwner[x] == a then 1 else 0
  {
    var l' := Handover(l, cfg, who, id, newOwner).value;
    var removed := RemoveFirst(Owned(l, who), id);
    HandoverLists(l, cfg, who, id, newOwner);
    RemoveFirstMultiset(Owned(l, who), id);
    assert l'.kittyOwner == l.kittyOwner[id := newOwner];
    if a == newOwner {
      var dest := if newOwner == who then removed else Owned(l, newOwner);
      assert multiset(Owned(l', a)) == multiset(dest) + multiset{id};
    }
  }

  lemma RemoveFirstLength(s: seq<KittyId>, x: KittyId)
    requires x in s
    ensures |RemoveFirst(s, x)| == |s| - 1
  {
    RemoveFirstMultiset(s, x);
    assert multiset(s)[x] >= 1;
    assert |multiset(RemoveFirst(s, x))| == |multiset(s)| - 1;
  }

  /** A handover moves the price from the caller's reserve to the new owner's (for two
      different accounts) and keeps every account's free + reserved. */
  lemma HandoverReserves<K>(l: Ledger<K>, cfg: Config, who: AccountId, id: KittyId, newOwner: AccountId)
    requires EscrowMatches(l, cfg) && id in Owned(l, who)
    requires Handover(l, cfg, who, id, newOwner).Ok?
    ensures var l' := Handover(l, cfg, who, id, newOwner).value;
            && (newOwner != who ==> Reserved(l'.currency, who) + cfg.price == Reserved(l.currency, who))
            && (newOwner != who ==> Reserved(l'.currency, newOwner) == Reserved(l.currency, newOwner) + cfg.price)
            && (forall a :: Total(l'.currency, a) == Total(l.currency, a))
  {
    MulSucc(cfg.price, |Owned(l, who)| - 1);
  }

  /** One account's escrow and list length after a handover. */
  lemma HandoverAccount<K>(l: Ledger<K>, cfg: Config, who: AccountId, id: KittyId, newOwner: AccountId, a: AccountId)
    requires EscrowMatches(l, cfg) && WithinCapacity(l, cfg) && id in Owned(l, who)
    requires Handover(l, cfg, who, id, newOwner).Ok?
    ensures var l' := Handover(l, cfg, who, id, newOwner).value;
            Reserved(l'.currency, a) == cfg.price * |Owned(l', a)| && |Owned(l', a)| <= cfg.capacity
  {
    var removed := RemoveFirst(Owned(l, who), id);
    RemoveFirstLength(Owned(l, who), id);
    HandoverLists(l, cfg, who, id, newOwner);
    MulSucc(cfg.price, |removed|);
    if a == newOwner {
      MulSucc(cfg.price, |if newOwner == who then removed else Owned(l, newOwner)|);
    }
  }

  lemma HandoverEscrow<K>(l: Ledger<K>, cfg: Config, who: AccountId, id: KittyId, newOwner: AccountId)
    requires EscrowMatches(l, cfg) && WithinCapacity(l, cfg) && id in Owned(l, who)
    requires Handover(l, cfg, who, id, newOwner).Ok?
    ensures EscrowMatches(Handover(l, cfg, who, id, newOwner).value, cfg)
    ensures WithinCapacity(Handover(l, cfg, who, id, newOwner).value, cfg)
  {
    forall a {
      HandoverAccount(l, cfg, who, id, newOwner, a);
    }
  }

  lemma HandoverInv<K>(l: Ledger<K>, cfg: Config, who: AccountId, id: KittyId, newOwner: AccountId)
    requires Inv(l, cfg) && id in l.kittyOwner && l.kittyOwner[id] == who
    requires Handover(l, cfg, who, id, newOwner).Ok?
    ensures Inv(Handover(l, cfg, who, id, newOwner).value, cfg)
    ensures forall a :: Total(Handover(l, cfg, who, id, newOwner).value.currency, a) == Total(l.currency, a)
  {
    HandoverOwnership(l, cfg, who, id, newOwner);
    OwnerListed(l, id);
    HandoverEscrow(l, cfg, who, id, newOwner);
    HandoverReserves(l, cfg, who, id, newOwner);
  }

  /** `transfer` keeps the invariant and every account's free + reserved. */
  lemma TransferInv<K>(l: Ledger<K>, cfg: Config, origin: Origin, id: KittyId, newOwner: AccountId)
    requires Inv(l, cfg)
    ensures Transfer(l, cfg, origin, id, newOwner).Ok? ==> Inv(Transfer(l, cfg, origin, id, newOwner).value, cfg)
    ensures Transfer(l, cfg, origin, id, newOwner).Ok? ==>
              forall a :: Total(Transfer(l, cfg, origin, id, newOwner).value.currency, a) == Total(l.currency, a)
  {
    if Transfer(l, cfg, origin, id, newOwner).Ok? {
      assert Transfer(l, cfg, origin, id, newOwner) == Handover(l, cfg, origin.who, id, newOwner);
      HandoverInv(l, cfg, origin.who, id, newOwner);
    }
  }

  // ---------------------------------------------------------------------------
  // Error precedence, ids, and what the calls look at

  /** `create` by a signer fails with exactly the first of: NotEnoughBalance (free
      balance below the price), InvalidKittyId (counter exhausted), OwnTooManyKitties
      (list full); and succeeds exactly when none applies. */
  lemma CreateErrors<K>(l: Ledger<K>, cfg: Config, who: AccountId, kitty: K)
    ensures Create(l, cfg, Signed(who), kitty) == Err(NotEnoughBalance) <==> !CanReserve(l.currency, who, cfg.price)
    ensures Create(l, cfg, Signed(who), kitty) == Err(InvalidKittyId) <==>
              CanReserve(l.currency, who, cfg.price) && cfg.maxKittyId <= l.nextKittyId
    ensures Create(l, cfg, Signed(who), kitty) == Err(OwnTooManyKitties) <==>
              CanReserve(l.currency, who, cfg.price) && l.nextKittyId < cfg.maxKittyId && cfg.capacity <= |Owned(l, who)|
    ensures Create(l, cfg, Signed(who), kitty).Ok? <==>
              CanReserve(l.currency, who, cfg.price) && l.nextKittyId < cfg.maxKittyId && |Owned(l, who)| < cfg.capacity
  {
  }

  /** `breed` by a signer fails with exactly the first of: NotEnoughBalance,
      SameKittyId, InvalidKittyId (a parent missing, or the counter exhausted),
      OwnTooManyKitties; and succeeds exactly when none applies. */
  lemma BreedErrors<K>(l: Ledger<K>, cfg: Config, who: AccountId, id1: KittyId, id2: KittyId, offspring: (K, K) -> K)
    ensures Breed(l, cfg, Signed(who), id1, id2, offspring) == Err(NotEnoughBalance) <==> !CanReserve(l.currency, who, cfg.price)
    ensures Breed(l, cfg, Signed(who), id1, id2, offspring) == Err(SameKittyId) <==>
              CanReserve(l.currency, who, cfg.price) && id1 == id2
    ensures Breed(l, cfg, Signed(who), id1, id2, offspring) == Err(InvalidKittyId) <==>
              CanReserve(l.currency, who, cfg.price) && id1 != id2
              && (id1 !in l.kitties || id2 !in l.kitties || cfg.maxKittyId <= l.nextKittyId)
    ensures Breed(l, cfg, Signed(who), id1, id2, offspring) == Err(OwnTooManyKitties) <==>
              CanReserve(l.currency, who, cfg.price) && id1 != id2 && id1 in l.kitties && id2 in l.kitties
              && l.nextKittyId < cfg.maxKittyId && cfg.capacity <= |Owned(l, who)|
    ensures Breed(l, cfg, Signed(who), id1, id2, offspring).Ok? <==>
              CanReserve(l.currency, who, cfg.price) && id1 != id2 && id1 in l.kitties && id2 in l.kitties
              && l.nextKittyId < cfg.maxKittyId && |Owned(l, who)| < cfg.capacity
  {
  }

  /** `transfer` by a signer fails with exactly the first of: NotEnoughBalance (the
      CALLER's free balance below the price, whatever the new owner holds),
      InvalidKittyId, NotOwner, ReserveFailed (the new owner cannot reserve the price
      once the caller's is released), OwnTooManyKitties (the new owner's list, after
      the removal, is full); and succeeds exactly when none applies. */
  lemma TransferErrors<K>(l: Ledger<K>, cfg: Config, who: AccountId, id: KittyId, newOwner: AccountId)
    ensures Transfer(l, cfg, Signed(who), id, newOwner) == Err(NotEnoughBalance) <==> !CanReserve(l.currency, who, cfg.price)
    ensures Transfer(l, cfg, Signed(who), id, newOwner) == Err(InvalidKittyId) <==>
              CanReserve(l.currency, who, cfg.price) && id !in l.kitties
    ensures Transfer(l, cfg, Signed(who), id, newOwner) == Err(NotOwner) <==>
              CanReserve(l.currency, who, cfg.price) && id in l.kitties && (id !in l.kittyOwner || l.kittyOwner[id] != who)
    ensures Transfer(l, cfg, Signed(who), id, newOwner) == Err(ReserveFailed) <==>
              CanReserve(l.currency, who, cfg.price) && id in l.kitties && id in l.kittyOwner && l.kittyOwner[id] == who
              && !CanReserve(Unreserve(l.currency, who, cfg.price), newOwner, cfg.price)
    ensures Transfer(l, cfg, Signed(who), id, newOwner) == Err(OwnTooManyKitties) <==>
              CanReserve(l.currency, who, cfg.price) && id in l.kitties && id in l.kittyOwner && l.kittyOwner[id] == who
              && CanReserve(Unreserve(l.currency, who, cfg.price), newOwner, cfg.price)
              && cfg.capacity <= |ListAfterRemoval(l, who, id, newOwner)|
    ensures Transfer(l, cfg, Signed(who), id, newOwner).Ok? <==>
              CanReserve(l.currency, who, cfg.price) && id in l.kitties && id in l.kittyOwner && l.kittyOwner[id] == who
              && CanReserve(Unreserve(l.currency, who, cfg.price), newOwner, cfg.price)
              && |ListAfterRemoval(l, who, id, newOwner)| < cfg.capacity
  {
  }

  /** A successful transfer between two accounts under the invariant: the caller's
      reserved balance drops by the price and the new owner's grows by it, the id
      leaves the caller's list and is appended to the new owner's, and every
      account's free + reserved is unchanged. */
  lemma TransferEffect<K>(l: Ledger<K>, cfg: Config, who: AccountId, id: KittyId, newOwner: AccountId)
    requires Inv(l, cfg) && newOwner != who && Transfer(l, cfg, Signed(who), id, newOwner).Ok?
    ensures var l' := Transfer(l, cfg, Signed(who), id, newOwner).value;
            && Reserved(l'.currency, who) + cfg.price == Reserved(l.currency, who)
            && Reserved(l'.currency, newOwner) == Reserved(l.currency, newOwner) + cfg.price
            && multiset(Owned(l', who)) == multiset(Owned(l, who)) - multiset{id}
            && Owned(l', newOwner) == Owned(l, newOwner) + [id]
            && (forall a :: Total(l'.currency, a) == Total(l.currency, a))
  {
    assert Transfer(l, cfg, Signed(who), id, newOwner) == Handover(l, cfg, who, id, newOwner);
    OwnerListed(l, id);
    HandoverLists(l, cfg, who, id, newOwner);
    RemoveFirstMultiset(Owned(l, who), id);
    HandoverReserves(l, cfg, who, id, newOwner);
  }

  /** Ids are never reused: a successful `create` or `breed` under the invariant stores
      the new kitty under an id not in use, adds exactly that id and leaves every
      existing kitty as it was; the counter only grows, by exactly one. */
  lemma MintFresh<K>(l: Ledger<K>, cfg: Config, who: AccountId, kitty: K)
    requires CounterInv(l, cfg) && CanReserve(l.currency, who, cfg.price)
    ensures l.nextKittyId !in l.kitties
    ensures Mint(l, cfg, who, kitty).kitties.Keys == l.kitties.Keys + {l.nextKittyId}
    ensures forall id :: id in l.kitties ==> Mint(l, cfg, who, kitty).kitties[id] == l.kitties[id]
    ensures Mint(l, cfg, who, kitty).nextKittyId == l.nextKittyId + 1
  {
  }

  lemma CreateFresh<K>(l: Ledger<K>, cfg: Config, origin: Origin, kitty: K)
    requires CounterInv(l, cfg) && Create(l, cfg, origin, kitty).Ok?
    ensures l.nextKittyId !in l.kitties
    ensures Create(l, cfg, origin, kitty).value.kitties == l.kitties[l.nextKittyId := kitty]
    ensures l.nextKittyId < Create(l, cfg, origin, kitty).value.nextKittyId
  {
    MintFresh(l, cfg, origin.who, kitty);
  }

  lemma BreedFresh<K>(l: Ledger<K>, cfg: Config, origin: Origin, id1: KittyId, id2: KittyId, offspring: (K, K) -> K)
    requires CounterInv(l, cfg) && Breed(l, cfg, origin, id1, id2, offspring).Ok?
    ensures l.nextKittyId !in l.kitties && l.nextKittyId != id1 && l.nextKittyId != id2
    ensures Breed(l, cfg, origin, id1, id2, offspring).value.kitties[id1] == l.kitties[id1]
    ensures Breed(l, cfg, origin, id1, id2, offspring).value.kitties[id2] == l.kitties[id2]
    ensures l.nextKittyId < Breed(l, cfg, origin, id1, id2, offspring).value.nextKittyId
  {
    MintFresh(l, cfg, origin.who, offspring(l.kitties[id1], l.kitties[id2]));
  }

  /** `breed` does not look at who owns the parents: with the owner map replaced by any
      other, it gives the same outcome and the same child. */
  lemma BreedIgnoresParentOwners<K>(l: Ledger<K>, cfg: Config, origin: Origin, id1: KittyId, id2: KittyId,
                                    offspring: (K, K) -> K, owners: map<KittyId, AccountId>)
    ensures Breed(l.(kittyOwner := owners), cfg, origin, id1, id2, offspring).Ok? <==> Breed(l, cfg, origin, id1, id2, offspring).Ok?
    ensures Breed(l, cfg, origin, id1, id2, offspring).Ok? ==>
              Breed(l.(kittyOwner := owners), cfg, origin, id1, id2, offspring).value.kitties
              == Breed(l, cfg, origin, id1, id2, offspring).value.kitties
  {
  }
}
