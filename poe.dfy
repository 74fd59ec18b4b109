/** The proof-of-existence pallet of lesson3: the `Proofs` map from claims (byte
    strings of at most `MaxClaimLength` bytes) to the claim's owner and the block it
    was recorded in, with the reference transitions of its three calls. */
module ProofOfExistence {
  import opened Frame

  type Claim = seq<bv8>

  /** The value stored for a claim: `(T::AccountId, T::BlockNumber)`. */
  datatype Proof = Proof(owner: AccountId, block: BlockNumber)

  type Proofs = map<Claim, Proof>

  /** The pallet's errors, plus `BadOrigin` from `ensure_signed`. */
  datatype Error = BadOrigin | ProofAlreadyExist | ClaimTooLong | ClaimNotExist | NotClaimOwner

  /** `BoundedVec::try_from(claim)` succeeds exactly for claims within the bound. */
  predicate Bounded(claim: Claim, maxClaimLength: nat)
  {
    |claim| <= maxClaimLength
  }

  /** `create_claim(claim)` by `origin` in block `now`. */
  function CreateClaim(p: Proofs, maxClaimLength: nat, origin: Origin, claim: Claim, now: BlockNumber): Result<Proofs, Error>
  {
    if !origin.Signed? then Err(BadOrigin)
    else if !Bounded(claim, maxClaimLength) then Err(ClaimTooLong)
    else if claim in p then Err(ProofAlreadyExist)
    else Ok(p[claim := Proof(origin.who, now)])
  }

  /** `revoke_claim(claim)` by `origin`. */
  function RevokeClaim(p: Proofs, maxClaimLength: nat, origin: Origin, claim: Claim): Result<Proofs, Error>
  {
    if !origin.Signed? then Err(BadOrigin)
    else if !Bounded(claim, maxClaimLength) then Err(ClaimTooLong)
    else if claim !in p then Err(ClaimNotExist)
    else if p[claim].owner != origin.who then Err(NotClaimOwner)
    else Ok(p - {claim})
  }

  /** `transfer_claim(claim, dest)` by `origin` in block `now`. */
  function TransferClaim(p: Proofs, maxClaimLength: nat, origin: Origin, claim: Claim, dest: AccountId,
                         now: BlockNumber): Result<Proofs, Error>
  {
    if !origin.Signed? then Err(BadOrigin)
    else if !Bounded(claim, maxClaimLength) then Err(ClaimTooLong)
    else if claim !in p then Err(ClaimNotExist)
    else if p[claim].owner != origin.who then Err(NotClaimOwner)
    else Ok(p[claim := Proof(dest, now)])
  }

  /** A signed call with a claim over the bound fails with ClaimTooLong whatever is
      stored: the length is checked before any lookup. */
  lemma TooLongFirst(p: Proofs, maxClaimLength: nat, who: AccountId, claim: Claim, dest: AccountId, now: BlockNumber)
    requires !Bounded(claim, maxClaimLength)
    ensures CreateClaim(p, maxClaimLength, Signed(who), claim, now) == Err(ClaimTooLong)
    ensures RevokeClaim(p, maxClaimLength, Signed(who), claim) == Err(ClaimTooLong)
    ensures TransferClaim(p, maxClaimLength, Signed(who), claim, dest, now) == Err(ClaimTooLong)
  {
  }

  /** `create_claim` fails with ProofAlreadyExist exactly for a stored (bounded) claim;
      when it succeeds the claim is the caller's as of this block and every other key
      keeps its proof. */
  lemma CreateClaimEffect(p: Proofs, maxClaimLength: nat, origin: Origin, claim: Claim, now: BlockNumber)
    ensures CreateClaim(p, maxClaimLength, origin, claim, now) == Err(ProofAlreadyExist)
            <==> origin.Signed? && Bounded(claim, maxClaimLength) && claim in p
    ensures CreateClaim(p, maxClaimLength, origin, claim, now).Ok? <==>
              origin.Signed? && Bounded(claim, maxClaimLength) && claim !in p
    ensures CreateClaim(p, maxClaimLength, origin, claim, now).Ok? ==>
              var p' := CreateClaim(p, maxClaimLength, origin, claim, now).value;
              && claim in p' && p'[claim] == Proof(origin.who, now)
              && (forall c :: c != claim ==> (c in p' <==> c in p) && (c in p ==> p'[c] == p[c]))
  {
  }

  /** `revoke_claim` checks existence, then ownership, and succeeds exactly for the
      recorded owner of a stored claim; when it succeeds exactly that claim is gone. */
  lemma RevokeClaimEffect(p: Proofs, maxClaimLength: nat, origin: Origin, claim: Claim)
    ensures RevokeClaim(p, maxClaimLength, origin, claim) == Err(ClaimNotExist)
            <==> origin.Signed? && Bounded(claim, maxClaimLength) && claim !in p
    ensures RevokeClaim(p, maxClaimLength, origin, claim) == Err(NotClaimOwner)
            <==> origin.Signed? && Bounded(claim, maxClaimLength) && claim in p && p[claim].owner != origin.who
    ensures RevokeClaim(p, maxClaimLength, origin, claim).Ok? <==>
              origin.Signed? && Bounded(claim, maxClaimLength) && claim in p && p[claim].owner == origin.who
    ensures RevokeClaim(p, maxClaimLength, origin, claim).Ok? ==>
              var p' := RevokeClaim(p, maxClaimLength, origin, claim).value;
              && p'.Keys == p.Keys - {claim}
              && (forall c :: c in p' ==> p'[c] == p[c])
  {
  }

  /** `transfer_claim` checks existence, then ownership, and succeeds exactly for the
      recorded owner of a stored claim; when it succeeds the claim
      belongs to `dest` as of the CURRENT block (not the block it was first recorded
      in), and every other key keeps its proof. */
  lemma TransferClaimEffect(p: Proofs, maxClaimLength: nat, origin: Origin, claim: Claim, dest: AccountId, now: BlockNumber)
    ensures TransferClaim(p, maxClaimLength, origin, claim, dest, now) == Err(ClaimNotExist)
            <==> origin.Signed? && Bounded(claim, maxClaimLength) && claim !in p
    ensures TransferClaim(p, maxClaimLength, origin, claim, dest, now) == Err(NotClaimOwner)
            <==> origin.Signed? && Bounded(claim, maxClaimLength) && claim in p && p[claim].owner != origin.who
    ensures TransferClaim(p, maxClaimLength, origin, claim, dest, now).Ok? <==>
              origin.Signed? && Bounded(claim, maxClaimLength) && claim in p && p[claim].owner == origin.who
    ensures TransferClaim(p, maxClaimLength, origin, claim, dest, now).Ok? ==>
              var p' := TransferClaim(p, maxClaimLength, origin, claim, dest, now).value;
              && p'.Keys == p.Keys && p'[claim] == Proof(dest, now)
              && (forall c :: c in p && c != claim ==> p'[c] == p[c])
  {
  }

  /** Only the recorded owner can revoke or transfer a claim. */
  lemma OnlyOwner(p: Proofs, maxClaimLength: nat, origin: Origin, claim: Claim, dest: AccountId, now: BlockNumber)
    ensures RevokeClaim(p, maxClaimLength, origin, claim).Ok? ==>
              origin.Signed? && claim in p && p[claim].owner == origin.who
    ensures TransferClaim(p, maxClaimLength, origin, claim, dest, now).Ok? ==>
              origin.Signed? && claim in p && p[claim].owner == origin.who
  {
  }

  /** Creating a claim and revoking it as the same signer gives back the map as it was. */
  lemma {:induction false} CreateThenRevoke(p: Proofs, maxClaimLength: nat, origin: Origin, claim: Claim, now: BlockNumber)
    requires CreateClaim(p, maxClaimLength, origin, claim, now).Ok?
    ensures RevokeClaim(CreateClaim(p, maxClaimLength, origin, claim, now).value, maxClaimLength, origin, claim) == Ok(p)
  {
    assert p[claim := Proof(origin.who, now)] - {claim} == p;
  }

  /** Every stored claim is within the bound. */
  ghost predicate AllBounded(p: Proofs, maxClaimLength: nat)
  {
    forall c :: c in p ==> Bounded(c, maxClaimLength)
  }

  /** The three calls keep every key within the bound. */
  lemma CallsKeepBound(p: Proofs, maxClaimLength: nat, origin: Origin, claim: Claim, dest: AccountId, now: BlockNumber)
    requires AllBounded(p, maxClaimLength)
    ensures CreateClaim(p, maxClaimLength, origin, claim, now).Ok? ==>
              AllBounded(CreateClaim(p, maxClaimLength, origin, claim, now).value, maxClaimLength)
    ensures RevokeClaim(p, maxClaimLength, origin, claim).Ok? ==>
              AllBounded(RevokeClaim(p, maxClaimLength, origin, claim).value, maxClaimLength)
    ensures TransferClaim(p, maxClaimLength, origin, claim, dest, now).Ok? ==>
              AllBounded(TransferClaim(p, maxClaimLength, origin, claim, dest, now).value, maxClaimLength)
  {
  }

  /** The runs of the pallet's tests, for any bound of at least two bytes: a create
      stores (1, now); a second create of the same claim fails; revoking or
      transferring a claim nobody made fails with ClaimNotExist; create then transfer
      to 2 stores (2, now). */
  lemma TestRuns(maxClaimLength: nat, now: BlockNumber)
    requires maxClaimLength >= 2
    ensures CreateClaim(map[], maxClaimLength, Signed(1), [1, 2], now) == Ok(map[[1, 2] := Proof(1, now)])
    ensures CreateClaim(CreateClaim(map[], maxClaimLength, Signed(1), [0, 1], now).value, maxClaimLength, Signed(1), [0, 1], now)
            == Err(ProofAlreadyExist)
    ensures RevokeClaim(map[], maxClaimLength, Signed(1), [0, 1]) == Err(ClaimNotExist)
    ensures TransferClaim(map[], maxClaimLength, Signed(1), [0, 1], 2, now) == Err(ClaimNotExist)
    ensures TransferClaim(CreateClaim(map[], maxClaimLength, Signed(1), [0, 1], now).value, maxClaimLength, Signed(1), [0, 1], 2, now)
            == Ok(map[[0, 1] := Proof(2, now)])
  {
    var claim: Claim := [0, 1];
    assert map[claim := Proof(1, now)][claim := Proof(2, now)] == map[claim := Proof(2, now)];
  }
}

/** The pallet object: `Proofs` as a field that the calls update in place. `now` is
    `frame_system::block_number()`. No call fails after its write. */
module PoePallet {
  import opened Frame
  import opened ProofOfExistence

  class Pallet {
    /** `MaxClaimLength` */
    const maxClaimLength: nat
    var proofs: Proofs

    ghost predicate Valid()
      reads this
    {
      AllBounded(proofs, maxClaimLength)
    }

    constructor (maxClaimLength: nat)
      ensures this.maxClaimLength == maxClaimLength && proofs == map[] && Valid()
    {
      this.maxClaimLength := maxClaimLength;
      proofs := map[];
    }

    /** `create_claim` */
    method CreateClaim(origin: Origin, claim: Claim, now: BlockNumber) returns (r: Outcome<Error>)
      requires Valid()
      modifies this
      ensures Valid()
      ensures Dispatched(ProofOfExistence.CreateClaim(old(proofs), maxClaimLength, origin, claim, now), old(proofs), r, proofs)
    {
      var sender := EnsureSigned(origin);
      if sender.None? {
        return Fail(BadOrigin);
      }
      if !Bounded(claim, maxClaimLength) {
        return Fail(ClaimTooLong);
      }
      if claim in proofs {
        return Fail(ProofAlreadyExist);
      }
      proofs := proofs[claim := Proof(sender.value, now)];
      r := Pass;
    }

    /** `revoke_claim` */
    method RevokeClaim(origin: Origin, claim: Claim) returns (r: Outcome<Error>)
      requires Valid()
      modifies this
      ensures Valid()
      ensures Dispatched(ProofOfExistence.RevokeClaim(old(proofs), maxClaimLength, origin, claim), old(proofs), r, proofs)
    {
      var sender := EnsureSigned(origin);
      if sender.None? {
        return Fail(BadOrigin);
      }
      if !Bounded(claim, maxClaimLength) {
        return Fail(ClaimTooLong);
      }
      if claim !in proofs {
        return Fail(ClaimNotExist);
      }
      var owner := proofs[claim].owner;
      if owner != sender.value {
        return Fail(NotClaimOwner);
      }
      proofs := proofs - {claim};
      r := Pass;
    }

    /** `transfer_claim` */
    method TransferClaim(origin: Origin, claim: Claim, dest: AccountId, now: BlockNumber) returns (r: Outcome<Error>)
      requires Valid()
      modifies this
      ensures Valid()
      ensures Dispatched(ProofOfExistence.TransferClaim(old(proofs), maxClaimLength, origin, claim, dest, now),
                         old(proofs), r, proofs)
    {
      var sender := EnsureSigned(origin);
      if sender.None? {
        return Fail(BadOrigin);
      }
      if !Bounded(claim, maxClaimLength) {
        return Fail(ClaimTooLong);
      }
      if claim !in proofs {
        return Fail(ClaimNotExist);
      }
      var owner := proofs[claim].owner;
      if owner != sender.value {
        return Fail(NotClaimOwner);
      }
      proofs := proofs[claim := Proof(dest, now)];
      r := Pass;
    }
  }
}
