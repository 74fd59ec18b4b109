# Substrate course pallets in Dafny

This project models the ledger logic of the pallets and the contract in the
`shiyivei/substrate-advanced-course` repository:

- **three generations of the kitties pallet**:
  - the first one (course one) has a counter, an id→kitty map and an id→owner map;
  - the second (course two) adds a price that stays reserved from the owner's free balance for each kitty they hold, and a bounded per-owner list of ids;
  - the third (lesson 4) adds an `asset` field, `update_kitty`, and an off-chain indexing round: a block's new kitty id is written to off-chain storage, and the off-chain worker asks to set its asset to 100 or 200;
- **the ERC-20 ink! contract** of lesson 5, with balances, allowances, `transfer`, `transfer_from` and `approve`;
- **the proof-of-existence pallet** of lesson 3, a map from bounded byte strings to (owner, block);
- **the template pallet** of course four, one `Option<u32>` cell plus the validity rule for unsigned calls.

Every dispatchable call comes in two forms:

- a **reference transition**: a pure function from the old storage to `Ok(new storage)` or `Err(error)`. The lemmas are stated about these functions.
- a **method of a class** whose fields are the storage items. It follows the source statement by statement and writes the fields in place. When a later step fails, it rolls back the earlier writes with `Restore`, as FRAME's storage transaction does for a failed dispatch. Each method is proved against its reference transition with `Dispatched` (module `Frame`). Success therefore means exactly the transition's new state, and failure means the same error with storage untouched (all-or-nothing).

Course two and lesson 4 share one generic ledger, `KittyLedger`. Its invariant `Inv` says:

- the owner map and the owner lists agree; each owned id occurs exactly once, in its owner's list only;
- no list exceeds the capacity `MaxKittyIndex`;
- every account has `price × |its list|` reserved;
- the counter is above every id in use.

`create`, `breed`, `transfer` and `update_kitty` preserve this invariant and every account's free + reserved.

Foreign parts are parameters:

- the random DNA and selector (`random_value`, blake2);
- the block number;
- the ink! caller (`env().caller()`).

The currency is an abstract free/reserved ledger (module `Escrow`). In it, `can_reserve` holds exactly when the free balance covers the amount.

Files:

| file | content |
|---|---|
| frame.dfy | origins, `u32`/`u64`, `Option`/`Result`/`Outcome`, `ensure_signed`, `ensure_none`, `checked_add`, `Dispatched` |
| escrow.dfy | the free/reserved ledger used by `reserve`/`unreserve`/`can_reserve` |
| genetics.dfy | DNA, the reference child DNA, the `breed` loop |
| kitty_ledger.dfy | the reference transitions and invariants of the escrow kitties ledger |
| kitties_escrow.dfy | the course-two pallet as a class |
| kitties_scenarios.dfy | the kitties test scenarios over the test runtime's configuration |
| offchain_index.dfy | SCALE `u32`, `derived_key`, `store_kitty_to_indexing`, the worker's decision |
| kitties_offchain.dfy | lesson 4: the kitty with an asset, `update_kitty`, and the pallet class with its off-chain store |
| kitties_basic.dfy | the course-one pallet |
| erc20.dfy | the ERC-20 contract |
| poe.dfy | the proof-of-existence pallet |
| template.dfy | the template pallet |

## Model

| member | source | states |
|---|---|---|
| Frame.EnsureSigned | lesson4/backend/pallets/kitties/src/lib.rs:223 | a signer exactly for a signed origin, and it is that origin's account |
| Frame.CheckedAdd | substrate-advanced-course-four/pallets/template/src/lib.rs:173 | `Some(a + b)` exactly when the sum fits the type, `None` otherwise |
| Escrow.Reserve | substrate-advanced-course-two/pallets/kitties/src/lib.rs:149 | succeeds exactly when `can_reserve`; moves the amount from free to reserved for that account only; keeps everyone's free + reserved |
| Escrow.Unreserve | substrate-advanced-course-two/pallets/kitties/src/lib.rs:258 | releases min(amount, reserved) back to free for that account only; keeps everyone's free + reserved |
| Escrow.ReserveUnreserve | substrate-advanced-course-two/pallets/kitties/src/lib.rs:257-259 | releasing what was just reserved gives every account back its free and reserved balances |
| Genetics.Combine | lesson4/backend/pallets/kitties/src/lib.rs:299-303 | the byte loop `(a[i] & s[i]) \| (b[i] & s[i])` yields the reference child `(a \| b) & s` |
| Genetics.ChildDna | lesson4/backend/pallets/kitties/src/lib.rs:299-303 | the reference child; its meaning is stated by `Genetics.ChildBitsBounded`, `ChildDnaSymmetric` and `ChildMaskedBySelector`, and the loop is proved equal to it by `Genetics.Combine` |
| Genetics.ChildBitsBounded | lesson4/backend/pallets/kitties/src/lib.rs:301-303 | every child bit is a selector bit and a bit of one of the parents |
| Genetics.ChildDnaSymmetric | substrate-advanced-course-two/pallets/kitties/src/lib.rs:207-209 | swapping the parents gives the same child |
| Genetics.ChildMaskedBySelector | substrate-advanced-course-one/pallets/kitties/src/lib.rs:123-125 | for any selector, where its byte is zero the child's byte is zero, whatever the parents; derived from `Genetics.ChildBitsBounded` |
| Frame.EnsureNone | substrate-advanced-course-four/pallets/template/src/lib.rs:194 | holds exactly for an unsigned origin; used by `Template.SubmitDataUnsigned` |
| Escrow.CanReserve | substrate-advanced-course-two/pallets/kitties/src/lib.rs:138 | the free balance covers the amount; `Escrow.Reserve` succeeds exactly when it holds |
| KittyLedger.Owned | substrate-advanced-course-two/pallets/kitties/src/lib.rs:91-97 | a `ValueQuery` list, empty for an account without an entry; `KittyLedger.ListsMatchOwners` ties it to the owner map |
| KittyLedger.Mint | substrate-advanced-course-two/pallets/kitties/src/lib.rs:149-166 | the shared writes of create/breed; stated by `KittyLedger.MintFresh` and `MintInv` |
| KittyLedger.RemoveFirst | substrate-advanced-course-two/pallets/kitties/src/lib.rs:265-268 | the list after the removal; stated by `KittyLedger.RemoveFirstMultiset` and `RemoveFirstAt` |
| KittyLedger.Handover | substrate-advanced-course-two/pallets/kitties/src/lib.rs:257-275 | the writes of a transfer after its checks; stated by `KittyLedger.HandoverLists`, `HandoverReserves` and `HandoverInv` |
| KittyLedger.ListAfterRemoval | substrate-advanced-course-two/pallets/kitties/src/lib.rs:271-273 | the new owner's list that `try_push` sees; its length decides OwnTooManyKitties in `KittyLedger.TransferErrors` |
| KittyLedger.GetNextId | substrate-advanced-course-two/pallets/kitties/src/lib.rs:294-301 | the counter exactly when it is below the id type's maximum, so `kitty_id + 1` cannot overflow |
| KittyLedger.GetKitty | substrate-advanced-course-two/pallets/kitties/src/lib.rs:303-308 | the stored kitty exactly for stored ids |
| KittyLedger.Create | substrate-advanced-course-two/pallets/kitties/src/lib.rs:129-172 | on success: counter + 1, the kitty stored under the old counter, owned by the caller, price reserved |
| KittyLedger.Breed | substrate-advanced-course-two/pallets/kitties/src/lib.rs:176-235 | on success: distinct existing parents, the child built from them under the old counter and owned by the caller, the caller's reserve up by the price, every other kitty unchanged |
| KittyLedger.Transfer | substrate-advanced-course-two/pallets/kitties/src/lib.rs:238-280 | on success: the caller was the owner, only the owner entry changes among kitties/owners, counter unchanged |
| KittyLedger.RemoveFirstMultiset | substrate-advanced-course-two/pallets/kitties/src/lib.rs:265-268 | removing the id from the caller's list takes out one occurrence and nothing else |
| KittyLedger.RemoveFirstAt | substrate-advanced-course-two/pallets/kitties/src/lib.rs:266-267 | `remove(position(..))` equals removing the first occurrence |
| KittyLedger.Position | substrate-advanced-course-two/pallets/kitties/src/lib.rs:266 | `position` finds an index exactly when the id is in the list, and it is the first one |
| KittyLedger.GenesisInv | substrate-advanced-course-two/pallets/kitties/src/lib.rs:72-97 | the empty genesis storage satisfies the invariant |
| KittyLedger.OwnerListed | substrate-advanced-course-two/pallets/kitties/src/lib.rs:266 | under the invariant the owned id is in its owner's list, so `position(..).unwrap()` cannot panic |
| KittyLedger.MintInv | substrate-advanced-course-two/pallets/kitties/src/lib.rs:149-166 | the writes of a successful create/breed keep the invariant |
| KittyLedger.CreateInv | substrate-advanced-course-two/pallets/kitties/src/lib.rs:129-172 | `create` keeps the invariant and every account's free + reserved |
| KittyLedger.BreedInv | substrate-advanced-course-two/pallets/kitties/src/lib.rs:176-235 | `breed` keeps the invariant and every account's free + reserved |
| KittyLedger.HandoverLists | substrate-advanced-course-two/pallets/kitties/src/lib.rs:264-275 | the caller's list loses the id, the new owner's gains it at the end, all other lists unchanged |
| KittyLedger.HandoverOwnership | substrate-advanced-course-two/pallets/kitties/src/lib.rs:261-275 | after the handover the owner map and the lists still agree |
| KittyLedger.HandoverReserves | substrate-advanced-course-two/pallets/kitties/src/lib.rs:257-259 | the price moves from the caller's reserve to the new owner's; free + reserved kept |
| KittyLedger.HandoverEscrow | substrate-advanced-course-two/pallets/kitties/src/lib.rs:257-275 | after the handover `reserved == price × owned` and every list within capacity |
| KittyLedger.HandoverInv | substrate-advanced-course-two/pallets/kitties/src/lib.rs:257-275 | the handover keeps the whole invariant and every account's free + reserved |
| KittyLedger.TransferInv | substrate-advanced-course-two/pallets/kitties/src/lib.rs:238-280 | `transfer` keeps the invariant and every account's free + reserved |
| KittyLedger.CreateErrors | substrate-advanced-course-two/pallets/kitties/src/lib.rs:138-166 | exact conditions of each error in order NotEnoughBalance, InvalidKittyId, OwnTooManyKitties, and of success |
| KittyLedger.BreedErrors | substrate-advanced-course-two/pallets/kitties/src/lib.rs:188-230 | exact conditions of NotEnoughBalance, SameKittyId, InvalidKittyId (parent missing or counter exhausted), OwnTooManyKitties, and of success |
| KittyLedger.TransferErrors | substrate-advanced-course-two/pallets/kitties/src/lib.rs:249-275 | exact conditions of each error in order NotEnoughBalance (the caller's balance), InvalidKittyId, NotOwner, the recipient's reserve failure, OwnTooManyKitties (the new owner's list after the removal is full), and of success |
| KittyLedger.TransferEffect | substrate-advanced-course-two/pallets/kitties/src/lib.rs:257-275 | a successful transfer between two accounts: caller reserved −price, new owner +price, id leaves one list and is appended to the other, totals kept |
| KittyLedger.MintFresh | substrate-advanced-course-two/pallets/kitties/src/lib.rs:152-161 | the new id is not in use, exactly it is added, existing kitties untouched, counter + 1 |
| KittyLedger.CreateFresh | substrate-advanced-course-two/pallets/kitties/src/lib.rs:141-161 | a created kitty never overwrites one in use and the counter strictly grows |
| KittyLedger.BreedFresh | substrate-advanced-course-two/pallets/kitties/src/lib.rs:198-225 | the child's id is new and differs from both parents, the parents are unchanged, the counter strictly grows |
| KittyLedger.BreedIgnoresParentOwners | lesson4/backend/pallets/kitties/src/lib.rs:286-306 | `breed` gives the same outcome and child whoever owns the parents |
| KittiesEscrow.Offspring | substrate-advanced-course-two/pallets/kitties/src/lib.rs:205-212 | the course-two child from the random selector; `Genetics.Combine` computes its DNA |
| KittiesEscrow.Pallet.constructor | substrate-advanced-course-two/pallets/kitties/src/lib.rs:72-97 | genesis storage: counter 0, no kitties, endowments free, nothing reserved |
| KittiesEscrow.Pallet.Restore | substrate-advanced-course-two/pallets/kitties/src/lib.rs:163-166 | a failed dispatch leaves storage as saved |
| KittiesEscrow.Pallet.Create | substrate-advanced-course-two/pallets/kitties/src/lib.rs:129-172 | the call does exactly the reference `create`, all-or-nothing, keeping the invariant |
| KittiesEscrow.Pallet.Breed | substrate-advanced-course-two/pallets/kitties/src/lib.rs:176-235 | the call does exactly the reference `breed`, all-or-nothing, keeping the invariant |
| KittiesEscrow.Pallet.Transfer | substrate-advanced-course-two/pallets/kitties/src/lib.rs:238-280 | the call does exactly the reference `transfer`, all-or-nothing, keeping the invariant |
| KittiesEscrow.Pallet.Mint | substrate-advanced-course-two/pallets/kitties/src/lib.rs:149-166 | reserve, inserts, counter, then `try_push`; a full list rolls everything back |
| KittiesEscrow.Pallet.Handover | substrate-advanced-course-two/pallets/kitties/src/lib.rs:257-275 | unreserve, reserve, owner, list removal and push; a failure rolls everything back |
| KittiesScenarios.MockGenesis | lesson3-back-node/pallets/kitties/src/mock.rs:103 | the test genesis with balances 100/25/1 satisfies the invariant |
| KittiesScenarios.CreateWorks | lesson3-back-node/pallets/kitties/src/tests.rs:13-40 | Alice's create: kitty 0 is hers, counter 1, 10 reserved |
| KittiesScenarios.CreateNotEnoughBalance | lesson3-back-node/pallets/kitties/src/tests.rs:43-53 | Charlie (1) gets NotEnoughBalance |
| KittiesScenarios.CreateInvalidKittyId | lesson3-back-node/pallets/kitties/src/tests.rs:56-68 | with the counter at `u32::MAX` Bob gets InvalidKittyId |
| KittiesScenarios.FourthCreateFails | lesson3-back-node/pallets/kitties/src/tests.rs:71-84 | three creates succeed, the fourth gives OwnTooManyKitties |
| KittiesScenarios.BreedWorks | lesson3-back-node/pallets/kitties/src/tests.rs:88-125 | two creates and a breed: child 2 is Alice's, counter 3, 30 reserved |
| KittiesScenarios.BreedNotEnoughBalance | lesson3-back-node/pallets/kitties/src/tests.rs:128-142 | Bob's breed after two creates gives NotEnoughBalance |
| KittiesScenarios.BreedBadParents | lesson3-back-node/pallets/kitties/src/tests.rs:146-184 | `breed(0, 0)` gives SameKittyId and `breed(0, 2)` gives InvalidKittyId |
| KittiesScenarios.BreedTooMany | lesson3-back-node/pallets/kitties/src/tests.rs:188-209 | with three kitties the breed gives OwnTooManyKitties |
| KittiesScenarios.TransferWorks | lesson3-back-node/pallets/kitties/src/tests.rs:213-250 | Alice→Bob: Bob owns it, counter 1, Alice 0 reserved, Bob 10 |
| KittiesScenarios.TransferNotEnoughBalance | lesson3-back-node/pallets/kitties/src/tests.rs:253-269 | Bob, with 5 free, gets NotEnoughBalance though Alice is rich |
| KittiesScenarios.TransferTooMany | lesson3-back-node/pallets/kitties/src/tests.rs:273-292 | a transfer to Alice with three kitties gives OwnTooManyKitties |
| KittiesScenarios.TransferNotOwner | lesson3-back-node/pallets/kitties/src/tests.rs:295-309 | Bob transferring Alice's kitty gets NotOwner |
| OffchainIndex.EncodeU32 | lesson4/backend/pallets/kitties/src/lib.rs:429 | the encoding of a `u32` is four bytes |
| OffchainIndex.DecodeU32 | lesson4/backend/pallets/kitties/src/lib.rs:187 | decoding succeeds exactly on inputs of at least four bytes |
| OffchainIndex.DecodeEncode | lesson4/backend/pallets/kitties/src/lib.rs:187 | decoding what was encoded gives the value back |
| OffchainIndex.EncodeInjective | lesson4/backend/pallets/kitties/src/lib.rs:429 | distinct values have distinct encodings |
| OffchainIndex.DerivedKey | lesson4/backend/pallets/kitties/src/lib.rs:428-438 | `b"kitty_pallet::indexing01"`, then `/`, then the encoded block number |
| OffchainIndex.DerivedKeyInjective | lesson4/backend/pallets/kitties/src/lib.rs:428-438 | two blocks share a key exactly when they are the same block |
| OffchainIndex.StoreKittyToIndexing | lesson4/backend/pallets/kitties/src/lib.rs:441-449 | the block's key decodes to the id; every other key unchanged (an earlier id of the same block is overwritten) |
| OffchainIndex.AssetForBlock | lesson4/backend/pallets/kitties/src/lib.rs:201-207 | 100 exactly for odd blocks, 200 exactly for even ones |
| OffchainIndex.WorkerRequest | lesson4/backend/pallets/kitties/src/lib.rs:175-213 | a request exactly when the block's record exists and decodes; it names that id and the block's asset |
| OffchainIndex.WorkerSeesIndexedKitty | lesson4/backend/pallets/kitties/src/lib.rs:187-207 | after indexing an id in a block, that block's worker asks to update exactly that id |
| OffchainIndex.IndexingIsPerBlock | lesson4/backend/pallets/kitties/src/lib.rs:428-447 | indexing in one block does not change what another block's worker sees |
| KittyAsset.Offspring | lesson4/backend/pallets/kitties/src/lib.rs:299-306 | the lesson-4 child with asset 0; `Genetics.Combine` computes its DNA |
| KittyAsset.UpdateKitty | lesson4/backend/pallets/kitties/src/lib.rs:384-398 | reference `update_kitty`; stated by `KittyAsset.UpdateKittyEffect`, `UpdateKittyIdempotent` and `UpdateKittyInv` |
| KittyAsset.UpdateKittyEffect | lesson4/backend/pallets/kitties/src/lib.rs:384-398 | fails exactly for an unsigned origin or a missing id; on success only the asset of that kitty changes |
| KittyAsset.UpdateKittyIdempotent | lesson4/backend/pallets/kitties/src/lib.rs:393-395 | applying it twice equals applying it once |
| KittyAsset.UpdateKittyInv | lesson4/backend/pallets/kitties/src/lib.rs:384-398 | it keeps the ledger invariant |
| KittyAsset.CreatedKittyGetsAsset | lesson4/backend/pallets/kitties/src/lib.rs:237-263 | a kitty created in a block starts with asset 0, is indexed under that block, and the worker's update gives it the block's asset |
| KittiesOffchain.Pallet.constructor | lesson4/backend/pallets/kitties/src/lib.rs:119-144 | genesis storage and an empty off-chain store |
| KittiesOffchain.Pallet.Restore | lesson4/backend/pallets/kitties/src/lib.rs:257-260 | a failed dispatch leaves storage as saved |
| KittiesOffchain.Pallet.Create | lesson4/backend/pallets/kitties/src/lib.rs:221-268 | exactly the reference `create` (asset 0), all-or-nothing; the id is indexed only on success |
| KittiesOffchain.Pallet.Breed | lesson4/backend/pallets/kitties/src/lib.rs:272-334 | exactly the reference `breed`, all-or-nothing; the id is indexed only on success |
| KittiesOffchain.Pallet.Transfer | lesson4/backend/pallets/kitties/src/lib.rs:337-381 | exactly the reference `transfer`, all-or-nothing, off-chain store untouched |
| KittiesOffchain.Pallet.UpdateKitty | lesson4/backend/pallets/kitties/src/lib.rs:384-398 | exactly the reference `update_kitty`, off-chain store untouched |
| KittiesOffchain.Pallet.Mint | lesson4/backend/pallets/kitties/src/lib.rs:240-260 | the shared writes of create/breed with rollback on a full list |
| KittiesOffchain.Pallet.Handover | lesson4/backend/pallets/kitties/src/lib.rs:357-376 | the writes of transfer with rollback on failure |
| BasicLedger.GetNextId | substrate-advanced-course-one/pallets/kitties/src/lib.rs:168-173 | the counter exactly when it is not `u32::MAX`, so `kitty_id + 1` fits |
| BasicLedger.GetKitty | substrate-advanced-course-one/pallets/kitties/src/lib.rs:175-180 | the stored kitty exactly for stored ids |
| BasicLedger.Create | substrate-advanced-course-one/pallets/kitties/src/lib.rs:88-101 | succeeds exactly for a signer below the maximum; records kitty and owner under the old counter, counter + 1; the errors are stated by `BasicLedger.CreateErrors` |
| BasicLedger.Breed | substrate-advanced-course-one/pallets/kitties/src/lib.rs:105-136 | succeeds exactly for distinct existing parents below the maximum; the child under the old counter, counter + 1; the errors are stated by `BasicLedger.BreedErrors` |
| BasicLedger.Transfer | substrate-advanced-course-one/pallets/kitties/src/lib.rs:139-154 | succeeds exactly for the owner of an existing kitty; changes only its owner entry; which error a failure returns is stated by `BasicLedger.TransferErrors` |
| BasicLedger.Record | substrate-advanced-course-one/pallets/kitties/src/lib.rs:95-97 | the shared writes of create/breed; stated by `BasicLedger.RecordFresh` |
| BasicLedger.Genesis | substrate-advanced-course-one/pallets/kitties/src/lib.rs:35-38 | the initial storage (counter 0) satisfies the invariant |
| BasicLedger.RecordFresh | substrate-advanced-course-one/pallets/kitties/src/lib.rs:95-97 | the new id is unused, exactly it is added, existing kitties unchanged |
| BasicLedger.CreateInv | substrate-advanced-course-one/pallets/kitties/src/lib.rs:88-101 | `create` keeps the invariant |
| BasicLedger.BreedInv | substrate-advanced-course-one/pallets/kitties/src/lib.rs:105-136 | `breed` keeps the invariant and leaves both parents unchanged |
| BasicLedger.TransferInv | substrate-advanced-course-one/pallets/kitties/src/lib.rs:139-154 | `transfer` keeps the invariant |
| BasicLedger.CreateErrors | substrate-advanced-course-one/pallets/kitties/src/lib.rs:89-90 | BadOrigin exactly for an unsigned origin, InvalidKittyId exactly for a signer at `u32::MAX`, and no other error |
| BasicLedger.BreedErrors | substrate-advanced-course-one/pallets/kitties/src/lib.rs:110-117 | BadOrigin exactly when unsigned, SameKittyId exactly for equal ids, InvalidKittyId exactly for distinct ids with a missing parent or an exhausted counter, never NotOwner |
| BasicLedger.TransferErrors | substrate-advanced-course-one/pallets/kitties/src/lib.rs:144-148 | BadOrigin exactly when unsigned, InvalidKittyId exactly for a missing kitty, NotOwner exactly for an existing kitty the caller does not own |
| BasicLedger.BreedSameIdFirst | substrate-advanced-course-one/pallets/kitties/src/lib.rs:112-115 | `breed(x, x)` gives SameKittyId whether or not `x` exists |
| KittiesBasic.Pallet.constructor | substrate-advanced-course-one/pallets/kitties/src/lib.rs:50-60 | the initial storage |
| KittiesBasic.Pallet.Create | substrate-advanced-course-one/pallets/kitties/src/lib.rs:88-101 | the call does exactly the reference `create` |
| KittiesBasic.Pallet.Breed | substrate-advanced-course-one/pallets/kitties/src/lib.rs:105-136 | the call does exactly the reference `breed` |
| KittiesBasic.Pallet.Transfer | substrate-advanced-course-one/pallets/kitties/src/lib.rs:139-154 | the call does exactly the reference `transfer` |
| Erc20Token.New | lesson5/erc20/lib.rs:44-68 | stated by `Erc20Token.NewToken` |
| Erc20Token.BalanceOf | lesson5/erc20/lib.rs:76-84 | a missing balance reads as 0; its values after each message are stated by `Erc20Token.NewToken` and `InnerTransferEffect` |
| Erc20Token.Allowance | lesson5/erc20/lib.rs:87-89 | a missing allowance reads as 0; its values after each message are stated by `Erc20Token.ApproveEffect` and `TransferFromEffect` |
| Erc20Token.Approve | lesson5/erc20/lib.rs:92-104 | stated by `Erc20Token.ApproveEffect` |
| Erc20Token.InnerTransfer | lesson5/erc20/lib.rs:139-161 | stated by `Erc20Token.InnerTransferEffect` and `InnerTransferConserves` |
| Erc20Token.TransferFrom | lesson5/erc20/lib.rs:117-137 | stated by `Erc20Token.TransferFromEffect` and `TransferFromConserves` |
| Erc20Token.SumUpdate | lesson5/erc20/lib.rs:149-152 | writing one balance changes the sum by the difference |
| Erc20Token.BalanceBelowSum | lesson5/erc20/lib.rs:151-152 | no balance exceeds the sum of balances |
| Erc20Token.NewToken | lesson5/erc20/lib.rs:44-68 | the caller holds the supply, everyone else 0, every allowance 0, the balances add up to the supply |
| Erc20Token.ApproveEffect | lesson5/erc20/lib.rs:92-104 | the allowance is overwritten with the amount; other allowances, balances and supply unchanged |
| Erc20Token.InnerTransferEffect | lesson5/erc20/lib.rs:139-161 | InsufficientBalance exactly when `from` holds less; on success `from` −amount, `to` +amount, a self-transfer changes nothing, others unchanged |
| Erc20Token.InnerTransferConserves | lesson5/erc20/lib.rs:139-161 | while the balances add up to the supply the credit cannot overflow, and they still add up afterwards |
| Erc20Token.TransferFromEffect | lesson5/erc20/lib.rs:117-137 | InsufficientApproval exactly when the allowance is short; an inner failure is passed on; on success the allowance drops by exactly the amount |
| Erc20Token.TransferFromConserves | lesson5/erc20/lib.rs:117-137 | `transfer_from` keeps the balances adding up to the supply |
| Erc20.Contract.constructor | lesson5/erc20/lib.rs:44-68 | the storage of `new` |
| Erc20.Contract.TotalSupply | lesson5/erc20/lib.rs:71-73 | the stored supply, which `Erc20.Contract.Valid` keeps equal to the sum of balances |
| Erc20.Contract.BalanceOf | lesson5/erc20/lib.rs:76-84 | `Erc20Token.BalanceOf` of the current storage |
| Erc20.Contract.Approval | lesson5/erc20/lib.rs:87-89 | `Erc20Token.Allowance` of the current storage |
| Erc20.Contract.Approve | lesson5/erc20/lib.rs:92-104 | always succeeds, storage as `Erc20Token.Approve` |
| Erc20.Contract.Transfer | lesson5/erc20/lib.rs:107-114 | `inner_transfer` from the caller |
| Erc20.Contract.TransferFrom | lesson5/erc20/lib.rs:117-137 | the reference `transfer_from`, with the doubled allowance write |
| Erc20.Contract.InnerTransfer | lesson5/erc20/lib.rs:139-161 | the reference `inner_transfer`, re-reading `to` after the debit |
| ProofOfExistence.CreateClaim | lesson3/backend/pallets/poe/src/lib.rs:69-88 | reference `create_claim`; stated by `ProofOfExistence.CreateClaimEffect` and `TooLongFirst` |
| ProofOfExistence.RevokeClaim | lesson3/backend/pallets/poe/src/lib.rs:92-107 | reference `revoke_claim`; stated by `ProofOfExistence.RevokeClaimEffect` and `OnlyOwner` |
| ProofOfExistence.TransferClaim | lesson3/backend/pallets/poe/src/lib.rs:111-132 | reference `transfer_claim`; stated by `ProofOfExistence.TransferClaimEffect` and `OnlyOwner` |
| ProofOfExistence.TooLongFirst | lesson3/backend/pallets/poe/src/lib.rs:73-74 | a claim over the bound gives ClaimTooLong from all three calls whatever is stored |
| ProofOfExistence.CreateClaimEffect | lesson3/backend/pallets/poe/src/lib.rs:69-88 | ProofAlreadyExist exactly for a stored claim; on success exactly that key gets (sender, now) |
| ProofOfExistence.RevokeClaimEffect | lesson3/backend/pallets/poe/src/lib.rs:92-107 | ClaimNotExist, then NotClaimOwner; succeeds exactly for the recorded owner of a stored bounded claim, and then exactly that key is removed |
| ProofOfExistence.TransferClaimEffect | lesson3/backend/pallets/poe/src/lib.rs:111-132 | ClaimNotExist, then NotClaimOwner; succeeds exactly for the recorded owner of a stored bounded claim, and then the key gets (dest, the current block) |
| ProofOfExistence.OnlyOwner | lesson3/backend/pallets/poe/src/lib.rs:100-124 | only the recorded owner can revoke or transfer a claim |
| ProofOfExistence.CreateThenRevoke | lesson3/backend/pallets/poe/src/lib.rs:80-102 | create then revoke by the same signer restores the map |
| ProofOfExistence.CallsKeepBound | lesson3/backend/pallets/poe/src/lib.rs:35-40 | every stored claim stays within `MaxClaimLength` |
| ProofOfExistence.TestRuns | substrate-advanced-course-one/pallets/poe/src/tests.rs:10-111 | the test runs: create stores (1, now), a repeat fails, revoke/transfer of a missing claim fail, a transfer stores (2, now) |
| PoePallet.Pallet.constructor | lesson3/backend/pallets/poe/src/lib.rs:34-40 | an empty `Proofs` map |
| PoePallet.Pallet.CreateClaim | lesson3/backend/pallets/poe/src/lib.rs:69-88 | the call does exactly the reference `create_claim` |
| PoePallet.Pallet.RevokeClaim | lesson3/backend/pallets/poe/src/lib.rs:92-107 | the call does exactly the reference `revoke_claim` |
| PoePallet.Pallet.TransferClaim | lesson3/backend/pallets/poe/src/lib.rs:111-132 | the call does exactly the reference `transfer_claim` |
| Template.DoSomething | substrate-advanced-course-four/pallets/template/src/lib.rs:147-160 | reference `do_something`; stated by `Template.DoSomethingSets` |
| Template.CauseError | substrate-advanced-course-four/pallets/template/src/lib.rs:164-179 | reference `cause_error`; stated by `Template.CauseErrorEffect` |
| Template.DoSomethingSets | substrate-advanced-course-four/pallets/template/src/lib.rs:147-160 | a signer's `do_something(v)` stores `Some(v)` whatever the cell held |
| Template.CauseErrorEffect | substrate-advanced-course-four/pallets/template/src/lib.rs:164-179 | NoneValue on an empty cell, StorageOverflow at `u32::MAX`, otherwise exactly + 1 |
| Template.SubmitDataUnsigned | substrate-advanced-course-four/pallets/template/src/lib.rs:193-199 | succeeds exactly for the none origin, else BadOrigin |
| Template.ValidateUnsigned | substrate-advanced-course-four/pallets/template/src/lib.rs:319-330 | valid exactly for `submit_data_unsigned`: priority 10000, provides tag 1 under the prefix, longevity 3, propagate; otherwise `InvalidTransaction::Call` |
| Template.WorkerSubmissionValid | substrate-advanced-course-four/pallets/template/src/lib.rs:208-211 | the worker's `submit_data_unsigned(42)` is valid and succeeds unsigned |
| TemplatePallet.Pallet.constructor | substrate-advanced-course-four/pallets/template/src/lib.rs:114-118 | the cell starts empty |
| TemplatePallet.Pallet.DoSomething | substrate-advanced-course-four/pallets/template/src/lib.rs:147-160 | the call does exactly the reference `do_something` |
| TemplatePallet.Pallet.CauseError | substrate-advanced-course-four/pallets/template/src/lib.rs:164-179 | the call does exactly the reference `cause_error`, cell unchanged on failure |
| TemplatePallet.Pallet.SubmitDataUnsigned | substrate-advanced-course-four/pallets/template/src/lib.rs:193-199 | the reference result, no storage touched |

## Left out

- Randomness: `random_value` (randomness source, extrinsic index, blake2) is not modelled; the DNA and the breeding selector are parameters of `create` and `breed`.
- Signing and submitting transactions (`send_signed_tx`, `Signer`, `SubmitTransaction`, the `crypto` module): the model stops at what the worker would submit (`OffchainIndex.WorkerRequest`).
- The worker's 8-second `sleep_until`, all `log::` output, and the concurrency and best effort of off-chain workers.
- Events (`deposit_event`, ink! `emit_event`) and weights are not modelled.
- `pallet_balances` internals (existential deposit, locks): the currency is the abstract free/reserved ledger `Escrow`.
- The recipient-side `reserve` failure in `transfer` is the model's own error `ReserveFailed`, since it is a currency error rather than one of the pallet's.
- SCALE encoding is modelled only for `u32` (four little-endian bytes); the worker's decode reads the first four bytes of the record, and the model does not check that the record has no trailing bytes.
- The runtime wiring and the hooks that do nothing here: the template's `on_initialize`/`on_finalize`/`on_idle`, its `offchain_worker` beyond the submitted call, and its commented-out HTTP/JSON code.
- The PoE test `create_claim_failed_when_claim_too_long` expects a two-byte claim to be too long, while another test stores a two-byte claim; the pallet it tests is not part of this model. `ProofOfExistence.TestRuns` covers the other tests for any bound of at least two bytes.
- In course one, `GetDefaultValue` names `T::KittyIndex` with no `T` in scope; the model takes the intended initial counter of 0.
- `KittyIdOverflow` is not modelled as an error: the `checked_add(..).unwrap()` it feeds is proved never to fail.
- ERC-20's `Overflow` error stands for the arithmetic trap of `to_balance + amount` in the `u128` balance type; it is not an error of the contract, and it is proved unreachable while the balances add up to the supply.
- The ink! caller (`env().caller()`) is a parameter of the contract's messages.
- The kitties tests belong to the lesson3-back-node pallet, whose `lib.rs` is not part of this model; `KittiesScenarios` states their runs over the course-two reference transitions with the constants of that test runtime (`mock.rs`).
- The ERC-20 getters `total_supply`, `balance_of` and `approval` are plain reads of the storage and carry no contract of their own; `Erc20Token.NewToken`, `ApproveEffect` and `InnerTransferEffect` state what they return.
- The course-one pallet is modelled without the counter's generic index type: its ids are `u32`, as its code states.
