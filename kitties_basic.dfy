/** The ledger of the first kitties pallet (substrate-advanced-course-one): an id
    counter and the id->kitty and id->owner maps; no price, no escrow, no per-owner
    lists. The reference transitions of `create`, `breed` and `transfer`. */
module BasicLedger {
  import opened Frame
  import opened Genetics

  type KittyId = nat

  /** `struct Kitty(pub [u8; 16])` */
  datatype Kitty = Kitty(dna: Dna)

  /** The pallet's errors, plus `BadOrigin` from `ensure_signed`. */
  datatype Error = BadOrigin | InvalidKittyId | NotOwner | SameKittyId

  /** `NextKittyId` (a `u32`, initially 0), `Kitties` and `KittyOwner`. */
  datatype Ledger = Ledger(nextKittyId: uint32, kitties: map<KittyId, Kitty>, kittyOwner: map<KittyId, AccountId>)

  /** `get_next_id`: the counter, unless it is `u32::MAX`. */
  function GetNextId(l: Ledger): (r: Option<KittyId>)
    ensures r.Some? <==> l.nextKittyId != U32_MAX
    ensures r.Some? ==> r.value == l.nextKittyId && r.value + 1 <= U32_MAX
  {
    if l.nextKittyId == U32_MAX then None else Some(l.nextKittyId)
  }

  /** `get_kitty`: succeeds exactly for stored ids. */
  function GetKitty(l: Ledger, id: KittyId): (r: Option<Kitty>)
    ensures r.Some? <==> id in l.kitties
    ensures r.Some? ==> r.value == l.kitties[id]
  {
    if id in l.kitties then Some(l.kitties[id]) else None
  }

  /** The writes of a successful `create` or `breed`: the kitty and its owner under the
      counter, then the counter plus one. */
  function Record(l: Ledger, who: AccountId, kitty: Kitty): Ledger
    requires l.nextKittyId < U32_MAX
  {
    Ledger(l.nextKittyId + 1, l.kitties[l.nextKittyId := kitty], l.kittyOwner[l.nextKittyId := who])
  }

  /** Reference transition of `create`; `dna` is the random DNA. */
  function Create(l: Ledger, origin: Origin, dna: Dna): (r: Result<Ledger, Error>)
    ensures r.Ok? <==> origin.Signed? && l.nextKittyId != U32_MAX
    ensures r.Ok? ==> r.value.nextKittyId == l.nextKittyId + 1
    ensures r.Ok? ==> r.value.kitties == l.kitties[l.nextKittyId := Kitty(dna)]
    ensures r.Ok? ==> r.value.kittyOwner == l.kittyOwner[l.nextKittyId := origin.who]
  {
    if !origin.Signed? then Err(BadOrigin)
    else if GetNextId(l).None? then Err(InvalidKittyId)
    else Ok(Record(l, origin.who, Kitty(dna)))
  }

  /** Reference transition of `breed`; `selector` is the random selector. Errors in
      order: SameKittyId, InvalidKittyId (a parent is missing), InvalidKittyId (counter
      exhausted). Neither a balance nor who owns the parents is looked at. */
  function Breed(l: Ledger, origin: Origin, id1: KittyId, id2: KittyId, selector: Dna): (r: Result<Ledger, Error>)
    ensures r.Ok? <==> origin.Signed? && id1 != id2 && id1 in l.kitties && id2 in l.kitties && l.nextKittyId != U32_MAX
    ensures r.Ok? ==> r.value.nextKittyId == l.nextKittyId + 1
    ensures r.Ok? ==> r.value.kitties == l.kitties[l.nextKittyId := Kitty(ChildDna(l.kitties[id1].dna, l.kitties[id2].dna, selector))]
    ensures r.Ok? ==> r.value.kittyOwner == l.kittyOwner[l.nextKittyId := origin.who]
  {
    if !origin.Signed? then Err(BadOrigin)
    else if id1 == id2 then Err(SameKittyId)
    else if GetKitty(l, id1).None? || GetKitty(l, id2).None? then Err(InvalidKittyId)
    else if GetNextId(l).None? then Err(InvalidKittyId)
    else Ok(Record(l, origin.who, Kitty(ChildDna(l.kitties[id1].dna, l.kitties[id2].dna, selector))))
  }

  /** Reference transition of `transfer`: the kitty must exist (InvalidKittyId) and
      belong to the caller (NotOwner); then only its owner entry is rewritten. */
  function Transfer(l: Ledger, origin: Origin, id: KittyId, newOwner: AccountId): (r: Result<Ledger, Error>)
    ensures r.Ok? <==> origin.Signed? && id in l.kitties && id in l.kittyOwner && l.kittyOwner[id] == origin.who
    ensures r.Ok? ==> r.value == l.(kittyOwner := l.kittyOwner[id := newOwner])
  {
    if !origin.Signed? then Err(BadOrigin)
    else if GetKitty(l, id).None? then Err(InvalidKittyId)
    else if id !in l.kittyOwner || l.kittyOwner[id] != origin.who then Err(NotOwner)
    else Ok(l.(kittyOwner := l.kittyOwner[id := newOwner]))
  }

  /** Every kitty has an owner and vice versa, and the counter is above every id. */
  ghost predicate Inv(l: Ledger)
  {
    && l.kittyOwner.Keys == l.kitties.Keys
    && (forall id :: id in l.kitties ==> id < l.nextKittyId)
  }

  /** The genesis state: no kitties, counter 0. */
  function Genesis(): (r: Ledger)
    ensures Inv(r) && r.kitties == map[]
  {
    Ledger(0, map[], map[])
  }

  /** A new kitty never overwrites an existing one: under the invariant the id it gets
      is not in use, the ids in use grow by exactly that id, and the invariant is kept. */
  lemma RecordFresh(l: Ledger, who: AccountId, kitty: Kitty)
    requires Inv(l) && l.nextKittyId < U32_MAX
    ensures l.nextKittyId !in l.kitties
    ensures Record(l, who, kitty).kitties.Keys == l.kitties.Keys + {l.nextKittyId}
    ensures forall id :: id in l.kitties ==> Record(l, who, kitty).kitties[id] == l.kitties[id]
    ensures Inv(Record(l, who, kitty))
  {
  }

  lemma CreateInv(l: Ledger, origin: Origin, dna: Dna)
    requires Inv(l)
    ensures Create(l, origin, dna).Ok? ==> Inv(Create(l, origin, dna).value) && l.nextKittyId !in l.kitties
  {
    if Create(l, origin, dna).Ok? {
      RecordFresh(l, origin.who, Kitty(dna));
    }
  }

  /** `breed` keeps the invariant and leaves both parents as they were. */
  lemma BreedInv(l: Ledger, origin: Origin, id1: KittyId, id2: KittyId, selector: Dna)
    requires Inv(l)
    ensures Breed(l, origin, id1, id2, selector).Ok? ==>
              && Inv(Breed(l, origin, id1, id2, selector).value)
              && Breed(l, origin, id1, id2, selector).value.kitties[id1] == l.kitties[id1]
              && Breed(l, origin, id1, id2, selector).value.kitties[id2] == l.kitties[id2]
  {
    if Breed(l, origin, id1, id2, selector).Ok? {
      RecordFresh(l, origin.who, Kitty(ChildDna(l.kitties[id1].dna, l.kitties[id2].dna, selector)));
    }
  }

  lemma TransferInv(l: Ledger, origin: Origin, id: KittyId, newOwner: AccountId)
    requires Inv(l)
    ensures Transfer(l, origin, id, newOwner).Ok? ==> Inv(Transfer(l, origin, id, newOwner).value)
  {
  }

  /** Which error `create` returns: BadOrigin for an unsigned origin, InvalidKittyId
      when the counter is at `u32::MAX`. */
  lemma CreateErrors(l: Ledger, origin: Origin, dna: Dna)
    ensures Create(l, origin, dna) == Err(BadOrigin) <==> !origin.Signed?
    ensures Create(l, origin, dna) == Err(InvalidKittyId) <==> origin.Signed? && l.nextKittyId == U32_MAX
    ensures Create(l, origin, dna).Err? ==> Create(l, origin, dna).error in {BadOrigin, InvalidKittyId}
  {
  }

  /** Which error `breed` returns, in the source's order: BadOrigin, SameKittyId, then
      InvalidKittyId for a missing parent or an exhausted counter. */
  lemma BreedErrors(l: Ledger, origin: Origin, id1: KittyId, id2: KittyId, selector: Dna)
    ensures Breed(l, origin, id1, id2, selector) == Err(BadOrigin) <==> !origin.Signed?
    ensures Breed(l, origin, id1, id2, selector) == Err(SameKittyId) <==> origin.Signed? && id1 == id2
    ensures Breed(l, origin, id1, id2, selector) == Err(InvalidKittyId) <==>
              origin.Signed? && id1 != id2 && (id1 !in l.kitties || id2 !in l.kitties || l.nextKittyId == U32_MAX)
    ensures Breed(l, origin, id1, id2, selector) != Err(NotOwner)
  {
  }

  /** Which error `transfer` returns, in the source's order: BadOrigin, InvalidKittyId
      for a missing kitty, NotOwner for a kitty the caller does not own. */
  lemma TransferErrors(l: Ledger, origin: Origin, id: KittyId, newOwner: AccountId)
    ensures Transfer(l, origin, id, newOwner) == Err(BadOrigin) <==> !origin.Signed?
    ensures Transfer(l, origin, id, newOwner) == Err(InvalidKittyId) <==> origin.Signed? && id !in l.kitties
    ensures Transfer(l, origin, id, newOwner) == Err(NotOwner) <==>
              origin.Signed? && id in l.kitties && (id !in l.kittyOwner || l.kittyOwner[id] != origin.who)
    ensures Transfer(l, origin, id, newOwner) != Err(SameKittyId)
  {
  }

  /** `breed(x, x)` by a signer fails with SameKittyId whether or not `x` exists: the
      check comes before the parents are looked up. */
  lemma BreedSameIdFirst(l: Ledger, who: AccountId, id: KittyId, selector: Dna)
    ensures Breed(l, Signed(who), id, id, selector) == Err(SameKittyId)
  {
  }
}

/** The first kitties pallet (substrate-advanced-course-one). The storage items are
    fields of `Pallet`; each call follows the source statement by statement. No call
    fails after its first write, so none needs to roll anything back. */
module KittiesBasic {
  import opened Frame
  import opened Genetics
  import opened BasicLedger

  class Pallet {
    var nextKittyId: uint32
    var kitties: map<KittyId, Kitty>
    var kittyOwner: map<KittyId, AccountId>

    function State(): Ledger
      reads this
    {
      Ledger(nextKittyId, kitties, kittyOwner)
    }

    ghost predicate Valid()
      reads this
    {
      Inv(State())
    }

    /** Genesis: the counter's default value is 0. */
    constructor ()
      ensures Valid() && State() == Genesis()
    {
      nextKittyId := 0;
      kitties := map[];
      kittyOwner := map[];
    }

    /** `create`; `dna` is what `random_value` hashes for the caller. */
    method Create(origin: Origin, dna: Dna) returns (r: Outcome<Error>)
      requires Valid()
      modifies this
      ensures Valid()
      ensures Dispatched(BasicLedger.Create(old(State()), origin, dna), old(State()), r, State())
    {
      var signer := EnsureSigned(origin);
      if signer.None? {
        return Fail(BadOrigin);
      }
      var who := signer.value;
      var next := GetNextId(State());
      if next.None? {
        return Fail(InvalidKittyId);
      }
      var kittyId := next.value;
      CreateInv(State(), origin, dna);
      kitties := kitties[kittyId := Kitty(dna)];
      kittyOwner := kittyOwner[kittyId := who];
      // `kitty_id + 1` cannot overflow: get_next_id refused u32::MAX
      nextKittyId := kittyId + 1;
      r := Pass;
    }

    /** `breed`; `selector` is what `random_value` hashes for the caller. */
    method Breed(origin: Origin, kittyId1: KittyId, kittyId2: KittyId, selector: Dna) returns (r: Outcome<Error>)
      requires Valid()
      modifies this
      ensures Valid()
      ensures Dispatched(BasicLedger.Breed(old(State()), origin, kittyId1, kittyId2, selector), old(State()), r, State())
    {
      var signer := EnsureSigned(origin);
      if signer.None? {
        return Fail(BadOrigin);
      }
      var who := signer.value;
      if kittyId1 == kittyId2 {
        return Fail(SameKittyId);
      }
      var kitty1 := GetKitty(State(), kittyId1);
      if kitty1.None? {
        return Fail(InvalidKittyId);
      }
      var kitty2 := GetKitty(State(), kittyId2);
      if kitty2.None? {
        return Fail(InvalidKittyId);
      }
      var next := GetNextId(State());
      if next.None? {
        return Fail(InvalidKittyId);
      }
      var kittyId := next.value;
      var data := Combine(kitty1.value.dna, kitty2.value.dna, selector);
      BreedInv(State(), origin, kittyId1, kittyId2, selector);
      kitties := kitties[kittyId := Kitty(data)];
      kittyOwner := kittyOwner[kittyId := who];
      // `kitty_id + 1` cannot overflow: get_next_id refused u32::MAX
      nextKittyId := kittyId + 1;
      r := Pass;
    }

    /** `transfer` */
    method Transfer(origin: Origin, kittyId: KittyId, newOwner: AccountId) returns (r: Outcome<Error>)
      requires Valid()
      modifies this
      ensures Valid()
      ensures Dispatched(BasicLedger.Transfer(old(State()), origin, kittyId, newOwner), old(State()), r, State())
    {
      var signer := EnsureSigned(origin);
      if signer.None? {
        return Fail(BadOrigin);
      }
      var who := signer.value;
      var kitty := GetKitty(State(), kittyId);
      if kitty.None? {
        return Fail(InvalidKittyId);
      }
      if kittyId !in kittyOwner || kittyOwner[kittyId] != who {
        return Fail(NotOwner);
      }
      kittyOwner := kittyOwner[kittyId := newOwner];
      r := Pass;
    }
  }
}
