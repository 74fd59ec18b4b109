/** The kitty record of lesson4 — DNA plus an `asset` — and `update_kitty`, which
    rewrites the asset, with the off-chain round that drives it. */
module KittyAsset {
  import opened Frame
  import opened Genetics
  import opened KittyLedger
  import opened OffchainIndex

  /** `struct Kitty { dna: [u8; 16], asset: u32 }` */
  datatype Kitty = Kitty(dna: Dna, asset: uint32)

  /** How `breed` builds the child from the random selector; a new kitty has asset 0. */
  function Offspring(selector: Dna): (Kitty, Kitty) -> Kitty
  {
    (k1: Kitty, k2: Kitty) => Kitty(ChildDna(k1.dna, k2.dna, selector), 0)
  }

  /** Reference transition of `update_kitty`: any signed caller may set the asset of an
      existing kitty; a missing id is InvalidKittyId. */
  function UpdateKitty(l: Ledger<Kitty>, origin: Origin, id: KittyId, asset: uint32): (r: Result<Ledger<Kitty>, Error>)
  {
    if !origin.Signed? then Err(BadOrigin)
    else
      match GetKitty(l, id)
      case None => Err(InvalidKittyId)
      case Some(kitty) => Ok(l.(kitties := l.kitties[id := Kitty(kitty.dna, asset)]))
  }

  /** `update_kitty` fails exactly for an unsigned origin or a missing id; on success it
      sets that kitty's asset and changes nothing else: not its DNA, not the other
      kitties, not the owners, lists, counter or balances. */
  lemma UpdateKittyEffect(l: Ledger<Kitty>, origin: Origin, id: KittyId, asset: uint32)
    ensures UpdateKitty(l, origin, id, asset) == Err(BadOrigin) <==> !origin.Signed?
    ensures UpdateKitty(l, origin, id, asset) == Err(InvalidKittyId) <==> origin.Signed? && id !in l.kitties
    ensures UpdateKitty(l, origin, id, asset).Ok? ==>
              var l' := UpdateKitty(l, origin, id, asset).value;
              && id in l'.kitties && l'.kitties[id] == Kitty(l.kitties[id].dna, asset)
              && l'.kitties.Keys == l.kitties.Keys
              && (forall other :: other in l.kitties && other != id ==> l'.kitties[other] == l.kitties[other])
              && l'.kittyOwner == l.kittyOwner && l'.allKitties == l.allKitties
              && l'.nextKittyId == l.nextKittyId && l'.currency == l.currency
  {
  }

  /** Applying `update_kitty` twice with the same arguments is applying it once. */
  lemma UpdateKittyIdempotent(l: Ledger<Kitty>, origin: Origin, id: KittyId, asset: uint32)
    requires UpdateKitty(l, origin, id, asset).Ok?
    ensures UpdateKitty(UpdateKitty(l, origin, id, asset).value, origin, id, asset) == UpdateKitty(l, origin, id, asset)
  {
    var l' := UpdateKitty(l, origin, id, asset).value;
    assert l'.kitties[id := Kitty(l'.kitties[id].dna, asset)] == l'.kitties;
  }

  /** `update_kitty` keeps the ledger invariant (it changes no key of any map). */
  lemma UpdateKittyInv(l: Ledger<Kitty>, cfg: Config, origin: Origin, id: KittyId, asset: uint32)
    requires Inv(l, cfg)
    ensures UpdateKitty(l, origin, id, asset).Ok? ==> Inv(UpdateKitty(l, origin, id, asset).value, cfg)
  {
    if UpdateKitty(l, origin, id, asset).Ok? {
      var l' := UpdateKitty(l, origin, id, asset).value;
      assert forall a :: Owned(l', a) == Owned(l, a);
    }
  }

  /** The off-chain round: a kitty created in block `blockNumber` is indexed under that
      block's key, so that block's worker asks to update exactly that kitty with the
      block's parity asset, and the update succeeds for any signer. */
  lemma CreatedKittyGetsAsset(l: Ledger<Kitty>, cfg: Config, origin: Origin, dna: Dna, store: Store,
                              blockNumber: BlockNumber, submitter: AccountId)
    requires cfg.maxKittyId <= U32_MAX
    requires Create(l, cfg, origin, Kitty(dna, 0)).Ok?
    ensures var id := l.nextKittyId;
            var l' := Create(l, cfg, origin, Kitty(dna, 0)).value;
            && WorkerRequest(StoreKittyToIndexing(store, blockNumber, id), blockNumber) == Some((id, AssetForBlock(blockNumber)))
            && UpdateKitty(l', Signed(submitter), id, AssetForBlock(blockNumber)).Ok?
            && UpdateKitty(l', Signed(submitter), id, AssetForBlock(blockNumber)).value.kitties[id]
               == Kitty(dna, AssetForBlock(blockNumber))
  {
    WorkerSeesIndexedKitty(store, blockNumber, l.nextKittyId);
  }
}

/** The kitties pallet of lesson4: the escrow ledger of `KittyLedger` over `KittyAsset`
    kitties, `update_kitty`, and the off-chain index that `create` and `breed` write
    after they succeed. The storage items are fields of `Pallet`; each call follows
    the source statement by statement inside the storage transaction FRAME opens for
    a dispatch, which `Restore` rolls back when a later step fails. */
module KittiesOffchain {
  import opened Frame
  import opened Escrow
  import opened Genetics
  import opened KittyLedger
  import opened OffchainIndex
  import opened KittyAsset

  class Pallet {
    const config: Config
    var nextKittyId: KittyId
    var kitties: map<KittyId, Kitty>
    var kittyOwner: map<KittyId, AccountId>
    var allKitties: map<AccountId, seq<KittyId>>
    var currency: Balances
    /** The persistent off-chain storage that `offchain_index::set` writes into. */
    var indexing: Store

    function State(): Ledger<Kitty>
      reads this
    {
      Ledger(nextKittyId, kitties, kittyOwner, allKitties, currency)
    }

    /** The ledger invariant; ids are `u32`s in this runtime. */
    ghost predicate Valid()
      reads this
    {
      Inv(State(), config) && config.maxKittyId <= U32_MAX
    }

    /** Genesis: every account starts with its endowment free and nothing reserved, and
        nothing is indexed. */
    constructor (config: Config, endowment: map<AccountId, nat>)
      requires config.maxKittyId <= U32_MAX
      ensures this.config == config && Valid()
      ensures State() == Genesis(endowment) && indexing == map[]
    {
      this.config := config;
      nextKittyId := 0;
      kitties := map[];
      kittyOwner := map[];
      allKitties := map[];
      currency := Balances(endowment, map[]);
      indexing := map[];
      new;
      GenesisInv<Kitty>(config, endowment);
    }

    /** Discards the writes of a failed call (the dispatch's storage transaction). */
    method Restore(saved: Ledger<Kitty>)
      modifies this
      ensures State() == saved && indexing == old(indexing)
    {
      nextKittyId := saved.nextKittyId;
      kitties := saved.kitties;
      kittyOwner := saved.kittyOwner;
      allKitties := saved.allKitties;
      currency := saved.currency;
    }

    /** `create` in block `blockNumber`; `dna` is what `random_value` hashes for the
        caller. Only a successful call indexes the new id. */
    method Create(origin: Origin, dna: Dna, blockNumber: BlockNumber) returns (r: Outcome<Error>)
      requires Valid()
      modifies this
      ensures Valid()
      ensures Dispatched(KittyLedger.Create(old(State()), config, origin, Kitty(dna, 0)), old(State()), r, State())
      ensures indexing == if r == Pass then StoreKittyToIndexing(old(indexing), blockNumber, old(nextKittyId)) else old(indexing)
    {
      var signer := EnsureSigned(origin);
      if signer.None? {
        return Fail(BadOrigin);
      }
      var who := signer.value;
      var price := config.price;
      if !CanReserve(currency, who, price) {
        return Fail(NotEnoughBalance);
      }
      var next := GetNextId(State(), config);
      if next.None? {
        return Fail(InvalidKittyId);
      }
      var kittyId := next.value;
      r := Mint(who, Kitty(dna, 0));
      CreateInv(old(State()), config, origin, Kitty(dna, 0));
      if r == Pass {
        indexing := StoreKittyToIndexing(indexing, blockNumber, kittyId);
      }
    }

    /** `breed` in block `blockNumber`; `selector` is what `random_value` hashes for the
        caller. Only a successful call indexes the new id. */
    method Breed(origin: Origin, kittyId1: KittyId, kittyId2: KittyId, selector: Dna, blockNumber: BlockNumber)
      returns (r: Outcome<Error>)
      requires Valid()
      modifies this
      ensures Valid()
      ensures Dispatched(KittyLedger.Breed(old(State()), config, origin, kittyId1, kittyId2, Offspring(selector)),
                         old(State()), r, State())
      ensures indexing == if r == Pass then StoreKittyToIndexing(old(indexing), blockNumber, old(nextKittyId)) else old(indexing)
    {
      var signer := EnsureSigned(origin);
      if signer.None? {
        return Fail(BadOrigin);
      }
      var who := signer.value;
      var price := config.price;
      if !CanReserve(currency, who, price) {
        return Fail(NotEnoughBalance);
      }
      if kittyId1 == kittyId2 {
        return Fail(SameKittyId);
      }
      var kitty1 := GetKitty(State(), kittyId1);
      if kitty1.None? {
        return Fail(InvalidKittyId);
      }
      var kitty2 := GetKitty(State(), kittyId2);
      if kitty2.None? {
        return Fail(InvalidKittyId);
      }
      var next := GetNextId(State(), config);
      if next.None? {
        return Fail(InvalidKittyId);
      }
      var kittyId := next.value;
      var data := Combine(kitty1.value.dna, kitty2.value.dna, selector);
      r := Mint(who, Kitty(data, 0));
      BreedInv(old(State()), config, origin, kittyId1, kittyId2, Offspring(selector));
      if r == Pass {
        indexing := StoreKittyToIndexing(indexing, blockNumber, kittyId);
      }
    }

    /** `transfer` */
    method Transfer(origin: Origin, kittyId: KittyId, newOwner: AccountId) returns (r: Outcome<Error>)
      requires Valid()
      modifies this
      ensures Valid()
      ensures Dispatched(KittyLedger.Transfer(old(State()), config, origin, kittyId, newOwner), old(State()), r, State())
      ensures indexing == old(indexing)
    {
      var signer := EnsureSigned(origin);
      if signer.None? {
        return Fail(BadOrigin);
      }
      var who := signer.value;
      var price := config.price;
      if !CanReserve(currency, who, price) {
        return Fail(NotEnoughBalance);
      }
      var kitty := GetKitty(State(), kittyId);
      if kitty.None? {
        return Fail(InvalidKittyId);
      }
      if kittyId !in kittyOwner || kittyOwner[kittyId] != who {
        return Fail(NotOwner);
      }
      // the invariant lists every kitty under its owner
      OwnerListed(State(), kittyId);
      r := Handover(who, kittyId, newOwner);
      TransferInv(old(State()), config, origin, kittyId, newOwner);
    }

    /** `update_kitty` */
    method UpdateKitty(origin: Origin, kittyId: KittyId, asset: uint32) returns (r: Outcome<Error>)
      requires Valid()
      modifies this
      ensures Valid()
      ensures Dispatched(KittyAsset.UpdateKitty(old(State()), origin, kittyId, asset), old(State()), r, State())
      ensures indexing == old(indexing)
    {
      var signer := EnsureSigned(origin);
      if signer.None? {
        return Fail(BadOrigin);
      }
      var kitty := GetKitty(State(), kittyId);
      if kitty.None? {
        return Fail(InvalidKittyId);
      }
      UpdateKittyInv(State(), config, origin, kittyId, asset);
      kitties := kitties[kittyId := Kitty(kitty.value.dna, asset)];
      r := Pass;
    }

    /** The storage writes `create` and `breed` share once their checks have passed. */
    method Mint(who: AccountId, kitty: Kitty) returns (r: Outcome<Error>)
      requires CanReserve(currency, who, config.price) && nextKittyId < config.maxKittyId
      modifies this
      ensures var spec := if |Owned(old(State()), who)| >= config.capacity then Err(OwnTooManyKitties)
                          else Ok(KittyLedger.Mint(old(State()), config, who, kitty));
              Dispatched(spec, old(State()), r, State())
      ensures indexing == old(indexing)
    {
      var price := config.price;
      var kittyId := nextKittyId;
      var saved := State();
      // can_reserve was checked by the caller, so this reserve succeeds
      currency := Reserve(currency, who, price).value;
      kitties := kitties[kittyId := kitty];
      kittyOwner := kittyOwner[kittyId := who];
      // `checked_add(1).unwrap()` cannot panic: get_next_id returned an id below the maximum
      nextKittyId := CheckedAdd(kittyId, 1, config.maxKittyId).value;
      var owned := if who in allKitties then allKitties[who] else [];
      if |owned| >= config.capacity {
        Restore(saved);
        return Fail(OwnTooManyKitties);
      }
      allKitties := allKitties[who := owned + [kittyId]];
      r := Pass;
    }

    /** The storage writes of `transfer` once its checks have passed. */
    method Handover(who: AccountId, kittyId: KittyId, newOwner: AccountId) returns (r: Outcome<Error>)
      requires kittyId in Owned(State(), who)
      modifies this
      ensures Dispatched(KittyLedger.Handover(old(State()), config, who, kittyId, newOwner), old(State()), r, State())
      ensures indexing == old(indexing)
    {
      var price := config.price;
      var saved := State();
      currency := Unreserve(currency, who, price);
      var locked := Reserve(currency, newOwner, price);
      if locked.None? {
        Restore(saved);
        return Fail(ReserveFailed);
      }
      currency := locked.value;
      kittyOwner := kittyOwner[kittyId := newOwner];
      var owned := if who in allKitties then allKitties[who] else [];
      // `.unwrap()` cannot panic: the caller's list holds the id
      var index := Position(owned, kittyId);
      var i := index.value;
      RemoveFirstAt(owned, kittyId, i);
      allKitties := allKitties[who := owned[..i] + owned[i + 1..]];
      assert allKitties == saved.allKitties[who := RemoveFirst(Owned(saved, who), kittyId)];
      var dest := if newOwner in allKitties then allKitties[newOwner] else [];
      if |dest| >= config.capacity {
        Restore(saved);
        return Fail(OwnTooManyKitties);
      }
      allKitties := allKitties[newOwner := dest + [kittyId]];
      r := Pass;
    }
  }
}
