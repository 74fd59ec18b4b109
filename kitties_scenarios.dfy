/** The kitties test scenarios, stated over the course-two reference transitions with
    the test runtime's configuration: a price of 10, at most 3 kitties per owner, a
    `u32` id, and accounts Alice, Bob and Charlie endowed with 100, 25 and 1. */
module KittiesScenarios {
  import opened Frame
  import opened Escrow
  import opened Genetics
  import opened KittyLedger
  import opened KittiesEscrow

  const ALICE: AccountId := 0
  const BOB: AccountId := 1
  const CHARLIE: AccountId := 2

  /** `KittyPrice = 10`, `MaxKittyIndex = ConstU32<3>`, `KittyIndex = u32`. */
  const MOCK: Config := Config(10, 3, U32_MAX)

  /** The test externality: balances (0, 100), (1, 25), (2, 1); nothing else stored. */
  function MockGenesis(): (r: Ledger<Kitty>)
    ensures Inv(r, MOCK)
    ensures Free(r.currency, ALICE) == 100 && Free(r.currency, BOB) == 25 && Free(r.currency, CHARLIE) == 1
  {
    GenesisInv<Kitty>(MOCK, map[ALICE := 100, BOB := 25, CHARLIE := 1]);
    Genesis(map[ALICE := 100, BOB := 25, CHARLIE := 1])
  }

  /** Alice creates kitty 0: she owns it, it is stored, the counter is 1 and the price
      is reserved from her balance. */
  lemma CreateWorks(dna: Dna)
    ensures var r := Create(MockGenesis(), MOCK, Signed(ALICE), Kitty(dna));
            && r.Ok? && r.value.nextKittyId == 1
            && r.value.kittyOwner[0] == ALICE && r.value.kitties[0] == Kitty(dna)
            && Reserved(r.value.currency, ALICE) == 10 && Free(r.value.currency, ALICE) == 90
  {
    var g := MockGenesis();
    assert CanReserve(g.currency, ALICE, 10);
    assert Owned(g, ALICE) == [];
  }

  /** Charlie, holding 1, cannot pay the price. */
  lemma CreateNotEnoughBalance(dna: Dna)
    ensures Create(MockGenesis(), MOCK, Signed(CHARLIE), Kitty(dna)) == Err(NotEnoughBalance)
  {
  }

  /** With the counter set to `u32::MAX`, Bob's `create` fails with InvalidKittyId. */
  lemma CreateInvalidKittyId(dna: Dna)
    ensures Create(MockGenesis().(nextKittyId := U32_MAX), MOCK, Signed(BOB), Kitty(dna)) == Err(InvalidKittyId)
  {
    assert CanReserve(MockGenesis().currency, BOB, 10);
  }

  /** Three kitties for Alice, then the fourth `create` fails with OwnTooManyKitties. */
  lemma FourthCreateFails(d1: Dna, d2: Dna, d3: Dna, d4: Dna)
    ensures var r1 := Create(MockGenesis(), MOCK, Signed(ALICE), Kitty(d1));
            && r1.Ok?
            && var r2 := Create(r1.value, MOCK, Signed(ALICE), Kitty(d2));
            && r2.Ok?
            && var r3 := Create(r2.value, MOCK, Signed(ALICE), Kitty(d3));
            && r3.Ok?
            && Create(r3.value, MOCK, Signed(ALICE), Kitty(d4)) == Err(OwnTooManyKitties)
  {
    var l1 := AliceCreates(MockGenesis(), d1, 0);
    var l2 := AliceCreates(l1, d2, 1);
    var l3 := AliceCreates(l2, d3, 2);
    assert CanReserve(l3.currency, ALICE, 10);
  }

  /** Two kitties and their child: the child is Alice's, id 2, the counter 3, and
      three prices (30) are reserved from her. */
  lemma BreedWorks(d1: Dna, d2: Dna, selector: Dna)
    ensures var r1 := Create(MockGenesis(), MOCK, Signed(ALICE), Kitty(d1));
            && r1.Ok?
            && var r2 := Create(r1.value, MOCK, Signed(ALICE), Kitty(d2));
            && r2.Ok?
            && var r := Breed(r2.value, MOCK, Signed(ALICE), 0, 1, Offspring(selector));
            && r.Ok?
            && 2 in r.value.kittyOwner && r.value.kittyOwner[2] == ALICE
            && 2 in r.value.kitties && r.value.kitties[2] == Kitty(ChildDna(d1, d2, selector))
            && r.value.nextKittyId == 3
            && Reserved(r.value.currency, ALICE) == 30
  {
    var l1 := AliceCreates(MockGenesis(), d1, 0);
    var l2 := AliceCreates(l1, d2, 1);
    assert CanReserve(l2.currency, ALICE, 10);
    assert l2.kitties[0] == Kitty(d1) && l2.kitties[1] == Kitty(d2);
    var child := Kitty(ChildDna(d1, d2, selector));
    assert Offspring(selector)(l2.kitties[0], l2.kitties[1]) == child;
    var l3 := Mint(l2, MOCK, ALICE, child);
    assert Breed(l2, MOCK, Signed(ALICE), 0, 1, Offspring(selector)) == Ok(l3);
    assert l3.kittyOwner[2] == ALICE && l3.kitties[2] == child;
    assert Reserved(l3.currency, ALICE) == Reserved(l2.currency, ALICE) + 10;
  }

  /** Bob's two kitties leave him 5, so he cannot pay for a child. */
  lemma BreedNotEnoughBalance(d1: Dna, d2: Dna, selector: Dna)
    ensures var r1 := Create(MockGenesis(), MOCK, Signed(BOB), Kitty(d1));
            && r1.Ok?
            && var r2 := Create(r1.value, MOCK, Signed(BOB), Kitty(d2));
            && r2.Ok?
            && Breed(r2.value, MOCK, Signed(BOB), 0, 1, Offspring(selector)) == Err(NotEnoughBalance)
  {
    var g := MockGenesis();
    assert CanReserve(g.currency, BOB, 10) && Owned(g, BOB) == [];
    var l1 := Create(g, MOCK, Signed(BOB), Kitty(d1)).value;
    assert Free(l1.currency, BOB) == 15 && Owned(l1, BOB) == [0];
    var l2 := Create(l1, MOCK, Signed(BOB), Kitty(d2)).value;
    assert Free(l2.currency, BOB) == 5;
  }

  /** Breeding a kitty with itself fails with SameKittyId; with the not-yet-used id 2,
      InvalidKittyId. */
  lemma BreedBadParents(d1: Dna, d2: Dna, selector: Dna)
    ensures var r1 := Create(MockGenesis(), MOCK, Signed(ALICE), Kitty(d1));
            && r1.Ok?
            && var r2 := Create(r1.value, MOCK, Signed(ALICE), Kitty(d2));
            && r2.Ok?
            && Breed(r2.value, MOCK, Signed(ALICE), 0, 0, Offspring(selector)) == Err(SameKittyId)
            && Breed(r2.value, MOCK, Signed(ALICE), 0, 2, Offspring(selector)) == Err(InvalidKittyId)
  {
    var l1 := AliceCreates(MockGenesis(), d1, 0);
    var l2 := AliceCreates(l1, d2, 1);
    assert CanReserve(l2.currency, ALICE, 10);
    assert 2 !in l2.kitties;
  }

  /** With three kitties Alice cannot breed a fourth. */
  lemma BreedTooMany(d1: Dna, d2: Dna, d3: Dna, selector: Dna)
    ensures var r1 := Create(MockGenesis(), MOCK, Signed(ALICE), Kitty(d1));
            && r1.Ok?
            && var r2 := Create(r1.value, MOCK, Signed(ALICE), Kitty(d2));
            && r2.Ok?
            && var r3 := Create(r2.value, MOCK, Signed(ALICE), Kitty(d3));
            && r3.Ok?
            && Breed(r3.value, MOCK, Signed(ALICE), 0, 1, Offspring(selector)) == Err(OwnTooManyKitties)
  {
    var l1 := AliceCreates(MockGenesis(), d1, 0);
    var l2 := AliceCreates(l1, d2, 1);
    var l3 := AliceCreates(l2, d3, 2);
    assert CanReserve(l3.currency, ALICE, 10);
  }

  /** Alice gives kitty 0 to Bob: Bob owns it, the counter stays 1, and the escrow
      moves with it (Alice 0 reserved, Bob 10). */
  lemma TransferWorks(dna: Dna)
    ensures var r1 := Create(MockGenesis(), MOCK, Signed(ALICE), Kitty(dna));
            && r1.Ok?
            && var r := Transfer(r1.value, MOCK, Signed(ALICE), 0, BOB);
            && r.Ok?
            && r.value.kittyOwner[0] == BOB && 0 in r.value.kitties && r.value.nextKittyId == 1
            && Reserved(r.value.currency, ALICE) == 0 && Reserved(r.value.currency, BOB) == 10
  {
    var g := MockGenesis();
    var l1 := AliceCreates(g, dna, 0);
    assert l1.currency == Reserve(g.currency, ALICE, 10).value;
    assert Reserved(l1.currency, BOB) == 0 && Free(l1.currency, BOB) == 25;
    assert CanReserve(l1.currency, ALICE, 10);
    assert CanReserve(Unreserve(l1.currency, ALICE, 10), BOB, 10);
    assert Owned(l1, BOB) == [];
    assert Transfer(l1, MOCK, Signed(ALICE), 0, BOB).Ok?;
    TransferEffect(l1, MOCK, ALICE, 0, BOB);
  }

  /** Bob, with 5 left after two kitties, cannot transfer: the caller's balance is
      checked first, whatever the new owner holds. */
  lemma TransferNotEnoughBalance(d1: Dna, d2: Dna)
    ensures var r1 := Create(MockGenesis(), MOCK, Signed(BOB), Kitty(d1));
            && r1.Ok?
            && var r2 := Create(r1.value, MOCK, Signed(BOB), Kitty(d2));
            && r2.Ok?
            && Transfer(r2.value, MOCK, Signed(BOB), 1, ALICE) == Err(NotEnoughBalance)
  {
    var g := MockGenesis();
    assert CanReserve(g.currency, BOB, 10) && Owned(g, BOB) == [];
    var l1 := Create(g, MOCK, Signed(BOB), Kitty(d1)).value;
    assert Free(l1.currency, BOB) == 15 && Owned(l1, BOB) == [0];
    var l2 := Create(l1, MOCK, Signed(BOB), Kitty(d2)).value;
    assert Free(l2.currency, BOB) == 5;
  }

  /** Alice owns three kitties; Bob's kitty 3 cannot be given to her. */
  lemma TransferTooMany(d1: Dna, d2: Dna, d3: Dna, d4: Dna)
    ensures var r1 := Create(MockGenesis(), MOCK, Signed(ALICE), Kitty(d1));
            && r1.Ok?
            && var r2 := Create(r1.value, MOCK, Signed(ALICE), Kitty(d2));
            && r2.Ok?
            && var r3 := Create(r2.value, MOCK, Signed(ALICE), Kitty(d3));
            && r3.Ok?
            && var r4 := Create(r3.value, MOCK, Signed(BOB), Kitty(d4));
            && r4.Ok?
            && Transfer(r4.value, MOCK, Signed(BOB), 3, ALICE) == Err(OwnTooManyKitties)
  {
    var g := MockGenesis();
    var l1 := AliceCreates(g, d1, 0);
    var l2 := AliceCreates(l1, d2, 1);
    var l3 := AliceCreates(l2, d3, 2);
    assert Free(l3.currency, BOB) == 25 && Reserved(l3.currency, BOB) == 0 && Owned(l3, BOB) == [];
    assert CanReserve(l3.currency, BOB, 10);
    var l4 := Create(l3, MOCK, Signed(BOB), Kitty(d4)).value;
    assert Free(l4.currency, BOB) == 15 && Reserved(l4.currency, BOB) == 10;
    assert Owned(l4, BOB) == [3] && Owned(l4, ALICE) == Owned(l3, ALICE);
    assert l4.kittyOwner[3] == BOB;
    var released := Unreserve(l4.currency, BOB, 10);
    assert Free(released, ALICE) == 70;
    assert CanReserve(released, ALICE, 10);
    assert RemoveFirst([3], 3) == [];
    var lists := l4.allKitties[BOB := RemoveFirst(Owned(l4, BOB), 3)];
    assert ALICE in lists && lists[ALICE] == Owned(l4, ALICE);
  }

  /** Bob cannot give away Alice's kitty. */
  lemma TransferNotOwner(dna: Dna)
    ensures var r1 := Create(MockGenesis(), MOCK, Signed(ALICE), Kitty(dna));
            && r1.Ok?
            && Transfer(r1.value, MOCK, Signed(BOB), 0, ALICE) == Err(NotOwner)
  {
    var g := MockGenesis();
    var l1 := AliceCreates(g, dna, 0);
    assert Free(l1.currency, BOB) == 25;
  }

  /** Alice's `create` in a state where she owns `n` < 3 kitties, holds 100 - 10 n
      free and the counter is `n`: it succeeds and she then owns `n + 1`. */
  lemma AliceCreates(l: Ledger<Kitty>, dna: Dna, n: nat) returns (l': Ledger<Kitty>)
    requires n < 3 && l.nextKittyId == n && |Owned(l, ALICE)| == n
    requires Free(l.currency, ALICE) == 100 - 10 * n
    requires Free(l.currency, BOB) == 25 && Reserved(l.currency, BOB) == 0 && Owned(l, BOB) == []
    ensures Create(l, MOCK, Signed(ALICE), Kitty(dna)).Ok? && l' == Create(l, MOCK, Signed(ALICE), Kitty(dna)).value
    ensures l'.nextKittyId == n + 1 && |Owned(l', ALICE)| == n + 1
    ensures Free(l'.currency, ALICE) == 100 - 10 * (n + 1)
    ensures Reserved(l'.currency, ALICE) == Reserved(l.currency, ALICE) + 10
    ensures Free(l'.currency, BOB) == 25 && Reserved(l'.currency, BOB) == 0 && Owned(l', BOB) == []
    ensures l'.kittyOwner[n] == ALICE && l'.kitties[n] == Kitty(dna)
    ensures forall id :: id in l.kitties ==> id in l'.kitties
  {
    assert CanReserve(l.currency, ALICE, 10);
    l' := Mint(l, MOCK, ALICE, Kitty(dna));
  }
}
