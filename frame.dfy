/** Runtime vocabulary shared by the pallets: accounts, dispatch origins, fixed-width
    integers, and the wrappers used for results of dispatchable calls. */
module Frame {

  /** Accounts are opaque identifiers (the test runtimes use `u64`). */
  type AccountId = nat

  const U32_MAX: int := 0xFFFF_FFFF
  const U64_MAX: int := 0xFFFF_FFFF_FFFF_FFFF

  type uint32 = x: int | 0 <= x <= U32_MAX
  type uint64 = x: int | 0 <= x <= U64_MAX

  /** The block number of the node runtimes is a `u32`. */
  type BlockNumber = uint32

  /** FRAME's `RawOrigin`; `Unsigned` is its `None` variant (an unsigned extrinsic). */
  datatype Origin = Root | Signed(who: AccountId) | Unsigned

  datatype Option<+T> = None | Some(value: T)

  datatype Result<+T, +E> = Ok(value: T) | Err(error: E)

  /** The result of a dispatchable call (`DispatchResult`). */
  datatype Outcome<+E> = Pass | Fail(error: E)

  /** `ensure_signed`: the signer of a signed origin, nothing for any other origin. */
  function EnsureSigned(origin: Origin): (r: Option<AccountId>)
    ensures r.Some? <==> origin.Signed?
    ensures r.Some? ==> r.value == origin.who
  {
    if origin.Signed? then Some(origin.who) else None
  }

  /** `ensure_none`: holds exactly for the origin of an unsigned extrinsic. */
  predicate EnsureNone(origin: Origin)
  {
    origin.Unsigned?
  }

  /** `checked_add` on an unsigned integer type whose largest value is `max`. */
  function CheckedAdd(a: nat, b: nat, max: nat): (r: Option<nat>)
    ensures r.Some? <==> a + b <= max
    ensures r.Some? ==> r.value == a + b
  {
    if a + b <= max then Some(a + b) else None
  }

  /** A dispatchable call is all-or-nothing: when the reference transition `spec`
      succeeds the call reports success and the storage is the new state; when it
      fails the call reports the same error and the storage is exactly as before. */
  ghost predicate Dispatched<S, E>(spec: Result<S, E>, before: S, r: Outcome<E>, after: S)
  {
    match spec
    case Ok(next) => r == Pass && after == next
    case Err(e) => r == Fail(e) && after == before
  }
}
