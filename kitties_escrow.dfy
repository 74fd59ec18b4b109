/** The kitties pallet of substrate-advanced-course-two: the escrow ledger of
    `KittyLedger` over kitties that are just their DNA. The storage items are fields
    of `Pallet`; each call follows the source statement by statement inside the
    storage transaction FRAME opens for a dispatch, which `Restore` rolls back when
    a later step fails. */
module KittiesEscrow {
  import opened Frame
  import opened Escrow
  import opened Genetics
  import opened KittyLedger

  /** `struct Kitty(pub [u8; 16])` */
  datatype Kitty = Kitty(dna: Dna)

  /** How `breed` builds the child from the random selector. */
  function Offspring(selector: Dna): (Kitty, Kitty) -> Kitty
  {
    (k1: Kitty, k2: Kitty) => Kitty(ChildDna(k1.dna, k2.dna, selector))
  }

  class Pallet {
    const config: Config
    var nextKittyId: KittyId
    var kitties: map<KittyId, Kitty>
    var kittyOwner: map<KittyId, AccountId>
    var allKitties: map<AccountId, seq<KittyId>>
    var currency: Balances

    function State(): Ledger<Kitty>
      reads this
    {
      Ledger(nextKittyId, kitties, kittyOwner, allKitties, currency)
    }

    ghost predicate Valid()
      reads this
    {
      Inv(State(), config)
    }

    /** Genesis: every account starts with its endowment free and nothing reserved. */
    constructor (config: Config, endowment: map<AccountId, nat>)
      ensures this.config == config && Valid()
      ensures State() == Genesis(endowment)
    {
      this.config := config;
      nextKittyId := 0;
      kitties := map[];
      kittyOwner := map[];
      allKitties := map[];
      currency := Balances(endowment, map[]);
      new;
      GenesisInv<Kitty>(config, endowment);
    }

    /** Discards the writes of a failed call (the dispatch's storage transaction). */
    method Restore(saved: Ledger<Kitty>)
      modifies this
      ensures State() == saved
    {
      nextKittyId := saved.nextKittyId;
      kitties := saved.kitties;
      kittyOwner := saved.kittyOwner;
      allKitties := saved.allKitties;
      currency := saved.currency;
    }

    /** `create`; `dna` is what `random_value` hashes for the caller. */
    method Create(origin: Origin, dna: Dna) returns (r: Outcome<Error>)
      requires Valid()
      modifies this
      ensures Valid()
      ensures Dispatched(KittyLedger.Create(old(State()), config, origin, Kitty(dna)), old(State()), r, State())
    {
      var signer := EnsureSigned(origin);
      if signer.None? {
        return Fail(BadOrigin);
      }
      var who := signer.value;
      var price := config.price;
      if !CanReserve(currency, who, price) {
        return Fail(NotEnoughBalance);
      }
      var next := GetNextId(State(), config);
      if next.None? {
        return Fail(InvalidKittyId);
      }
      r := Mint(who, Kitty(dna));
      CreateInv(old(State()), config, origin, Kitty(dna));
    }

    /** `breed`; `selector` is what `random_value` hashes for the caller. */
    method Breed(origin: Origin, kittyId1: KittyId, kittyId2: KittyId, selector: Dna) returns (r: Outcome<Error>)
      requires Valid()
      modifies this
      ensures Valid()
      ensures Dispatched(KittyLedger.Breed(old(State()), config, origin, kittyId1, kittyId2, Offspring(selector)),
                         old(State()), r, State())
    {
      var signer := EnsureSigned(origin);
      if signer.None? {
        return Fail(BadOrigin);
      }
      var who := signer.value;
      var price := config.price;
      if !CanReserve(currency, who, price) {
        return Fail(NotEnoughBalance);
      }
      if kittyId1 == kittyId2 {
        return Fail(SameKittyId);
      }
      var kitty1 := GetKitty(State(), kittyId1);
      if kitty1.None? {
        return Fail(InvalidKittyId);
      }
      var kitty2 := GetKitty(State(), kittyId2);
      if kitty2.None? {
        return Fail(InvalidKittyId);
      }
      var next := GetNextId(State(), config);
      if next.None? {
        return Fail(InvalidKittyId);
      }
      var data := Combine(kitty1.value.dna, kitty2.value.dna, selector);
      r := Mint(who, Kitty(data));
      BreedInv(old(State()), config, origin, kittyId1, kittyId2, Offspring(selector));
    }

    /** `transfer` */
    method Transfer(origin: Origin, kittyId: KittyId, newOwner: AccountId) returns (r: Outcome<Error>)
      requires Valid()
      modifies this
      ensures Valid()
      ensures Dispatched(KittyLedger.Transfer(old(State()), config, origin, kittyId, newOwner), old(State()), r, State())
    {
      var signer := EnsureSigned(origin);
      if signer.None? {
        return Fail(BadOrigin);
      }
      var who := signer.value;
      var price := config.price;
      if !CanReserve(currency, who, price) {
        return Fail(NotEnoughBalance);
      }
      var kitty := GetKitty(State(), kittyId);
      if kitty.None? {
        return Fail(InvalidKittyId);
      }
      if !(kittyId in kittyOwner && kittyOwner[kittyId] == who) {
        return Fail(NotOwner);
      }
      // the invariant lists every kitty under its owner
      OwnerListed(State(), kittyId);
      r := Handover(who, kittyId, newOwner);
      TransferInv(old(State()), config, origin, kittyId, newOwner);
    }

    /** The storage writes `create` and `breed` share once their checks have passed. */
    method Mint(who: AccountId, kitty: Kitty) returns (r: Outcome<Error>)
      requires CanReserve(currency, who, config.price) && nextKittyId < config.maxKittyId
      modifies this
      ensures var spec := if |Owned(old(State()), who)| >= config.capacity then Err(OwnTooManyKitties)
                          else Ok(KittyLedger.Mint(old(State()), config, who, kitty));
              Dispatched(spec, old(State()), r, State())
    {
      var price := config.price;
      var kittyId := nextKittyId;
      var saved := State();
      // can_reserve was checked by the caller, so this reserve succeeds
      currency := Reserve(currency, who, price).value;
      kitties := kitties[kittyId := kitty];
      kittyOwner := kittyOwner[kittyId := who];
      // `checked_add(1).unwrap()` cannot panic: get_next_id returned an id below the maximum
      nextKittyId := CheckedAdd(kittyId, 1, config.maxKittyId).value;
      var owned := if who in allKitties then allKitties[who] else [];
      if |owned| >= config.capacity {
        Restore(saved);
        return Fail(OwnTooManyKitties);
      }
      allKitties := allKitties[who := owned + [kittyId]];
      r := Pass;
    }

    /** The storage writes of `transfer` once its checks have passed. */
    method Handover(who: AccountId, kittyId: KittyId, newOwner: AccountId) returns (r: Outcome<Error>)
      requires kittyId in Owned(State(), who)
      modifies this
      ensures Dispatched(KittyLedger.Handover(old(State()), config, who, kittyId, newOwner), old(State()), r, State())
    {
      var price := config.price;
      var saved := State();
      currency := Unreserve(currency, who, price);
      var locked := Reserve(currency, newOwner, price);
      if locked.None? {
        Restore(saved);
        return Fail(ReserveFailed);
      }
      currency := locked.value;
      kittyOwner := kittyOwner[kittyId := newOwner];
      var owned := if who in allKitties then allKitties[who] else [];
      // `.unwrap()` cannot panic: the caller's list holds the id
      var index := Position(owned, kittyId);
      var i := index.value;
      RemoveFirstAt(owned, kittyId, i);
      allKitties := allKitties[who := owned[..i] + owned[i + 1..]];
      assert allKitties == saved.allKitties[who := RemoveFirst(Owned(saved, who), kittyId)];
      var dest := if newOwner in allKitties then allKitties[newOwner] else [];
      if |dest| >= config.capacity {
        Restore(saved);
        return Fail(OwnTooManyKitties);
      }
      allKitties := allKitties[newOwner := dest + [kittyId]];
      r := Pass;
    }
  }
}
