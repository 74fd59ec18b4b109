/** The off-chain indexing protocol of the lesson4 kitties pallet: during block
    execution a successful `create`/`breed` writes the new kitty's id under a key
    derived from the block number; the off-chain worker of that block reads it back
    and decides which `update_kitty` it submits. Values are SCALE encodings, which for
    a `u32` is four bytes, least significant first. */
module OffchainIndex {
  import opened Frame

  type Byte = x: int | 0 <= x < 0x100

  /** `b"kitty_pallet::indexing01"` */
  const ONCHAIN_TX_KEY: seq<Byte> :=
    [0x6b, 0x69, 0x74, 0x74, 0x79, 0x5f, 0x70, 0x61, 0x6c, 0x6c, 0x65, 0x74,
     0x3a, 0x3a, 0x69, 0x6e, 0x64, 0x65, 0x78, 0x69, 0x6e, 0x67, 0x30, 0x31]

  /** `b"/"` */
  const SEPARATOR: Byte := 0x2f

  /** The persistent off-chain storage: byte keys to byte values. */
  type Store = map<seq<Byte>, seq<Byte>>

  /** SCALE encoding of a `u32`. */
  function EncodeU32(n: uint32): (r: seq<Byte>)
    ensures |r| == 4
  {
    var q1 := n / 0x100;
    var q2 := q1 / 0x100;
    var q3 := q2 / 0x100;
    [n % 0x100, q1 % 0x100, q2 % 0x100, q3 % 0x100]
  }

  /** SCALE decoding of a `u32` from the first four bytes of its input, which fails
      when fewer than four bytes are there. */
  function DecodeU32(b: seq<Byte>): (r: Option<uint32>)
    ensures r.Some? <==> |b| >= 4
  {
    if |b| < 4 then None
    else Some(b[0] as int + 0x100 * (b[1] as int) + 0x1_0000 * (b[2] as int) + 0x100_0000 * (b[3] as int))
  }

  /** Decoding inverts encoding. */
  lemma {:induction false} DecodeEncode(n: uint32)
    ensures DecodeU32(EncodeU32(n)) == Some(n)
  {
    var q1 := n / 0x100;
    var q2 := q1 / 0x100;
    var q3 := q2 / 0x100;
    assert q3 < 0x100;
    assert q2 == 0x100 * q3 + q2 % 0x100;
    assert q1 == 0x100 * q2 + q1 % 0x100;
    assert n == 0x100 * q1 + n % 0x100;
  }

  /** Encoding is injective: distinct values have distinct encodings. */
  lemma EncodeInjective(m: uint32, n: uint32)
    requires EncodeU32(m) == EncodeU32(n)
    ensures m == n
  {
    DecodeEncode(m);
    DecodeEncode(n);
  }

  /** `derived_key(block_number)`: the key prefix, a slash, the encoded block number. */
  function DerivedKey(blockNumber: BlockNumber): (r: seq<Byte>)
    ensures |r| == |ONCHAIN_TX_KEY| + 5
    ensures r[..|ONCHAIN_TX_KEY|] == ONCHAIN_TX_KEY && r[|ONCHAIN_TX_KEY|] == SEPARATOR
    ensures r[|ONCHAIN_TX_KEY| + 1..] == EncodeU32(blockNumber)
  {
    ONCHAIN_TX_KEY + [SEPARATOR] + EncodeU32(blockNumber)
  }

  /** Different blocks index under different keys. */
  lemma DerivedKeyInjective(b1: BlockNumber, b2: BlockNumber)
    ensures DerivedKey(b1) == DerivedKey(b2) <==> b1 == b2
  {
    if DerivedKey(b1) == DerivedKey(b2) {
      EncodeInjective(b1, b2);
    }
  }

  /** `store_kitty_to_indexing(kitty_id)` in block `blockNumber`: overwrites the
      block's entry with the encoded id and touches no other key. */
  function StoreKittyToIndexing(store: Store, blockNumber: BlockNumber, kittyId: uint32): (r: Store)
    ensures DerivedKey(blockNumber) in r && DecodeU32(r[DerivedKey(blockNumber)]) == Some(kittyId)
    ensures forall k :: k != DerivedKey(blockNumber) ==> (k in r <==> k in store) && (k in r ==> r[k] == store[k])
  {
    DecodeEncode(kittyId);
    store[DerivedKey(blockNumber) := EncodeU32(kittyId)]
  }

  /** The asset the worker asks for: 100 in odd blocks, 200 in even ones. */
  function AssetForBlock(blockNumber: BlockNumber): (r: uint32)
    ensures r == 100 <==> blockNumber % 2 == 1
    ensures r == 200 <==> blockNumber % 2 == 0
  {
    if blockNumber % 2 != 0 then 100 else 200
  }

  /** What `offchain_worker(block_number)` submits: `update_kitty(id, asset)` for the id
      recorded under the block's key, or nothing when there is no record it can decode. */
  function WorkerRequest(store: Store, blockNumber: BlockNumber): (r: Option<(uint32, uint32)>)
    ensures r.Some? <==> DerivedKey(blockNumber) in store && DecodeU32(store[DerivedKey(blockNumber)]).Some?
    ensures r.Some? ==> r.value.0 == DecodeU32(store[DerivedKey(blockNumber)]).value
    ensures r.Some? ==> r.value.1 == AssetForBlock(blockNumber)
  {
    var key := DerivedKey(blockNumber);
    if key in store then
      match DecodeU32(store[key])
      case Some(kittyId) => Some((kittyId, AssetForBlock(blockNumber)))
      case None => None
    else None
  }

  /** After the id is indexed in a block, that block's worker asks to update exactly
      that kitty, with the block's parity asset. */
  lemma WorkerSeesIndexedKitty(store: Store, blockNumber: BlockNumber, kittyId: uint32)
    ensures WorkerRequest(StoreKittyToIndexing(store, blockNumber, kittyId), blockNumber)
            == Some((kittyId, AssetForBlock(blockNumber)))
  {
  }

  /** Indexing in one block leaves what the worker of any other block sees unchanged. */
  lemma {:induction false} IndexingIsPerBlock(store: Store, b1: BlockNumber, b2: BlockNumber, kittyId: uint32)
    requires b1 != b2
    ensures WorkerRequest(StoreKittyToIndexing(store, b1, kittyId), b2) == WorkerRequest(store, b2)
  {
    DerivedKeyInjective(b1, b2);
  }
}
