/** The template pallet of substrate-advanced-course-four: the one storage cell
    `Something` (an optional `u32`), the calls that set and increment it, the unsigned
    call its off-chain worker submits, and the rule by which the pool validates
    unsigned calls. */
module Template {
  import opened Frame

  /** The pallet's errors, plus `BadOrigin` from `ensure_signed`/`ensure_none`. */
  datatype Error = BadOrigin | NoneValue | StorageOverflow

  /** The pallet's calls. */
  datatype Call = DoSomethingCall(something: uint32) | CauseErrorCall | SubmitDataUnsignedCall(n: uint64)

  /** `do_something(something)`: any signer overwrites the cell. */
  function DoSomething(cell: Option<uint32>, origin: Origin, something: uint32): Result<Option<uint32>, Error>
  {
    if !origin.Signed? then Err(BadOrigin) else Ok(Some(something))
  }

  /** `cause_error()`: increments the cell with `checked_add(1)`. */
  function CauseError(cell: Option<uint32>, origin: Origin): Result<Option<uint32>, Error>
  {
    if !origin.Signed? then Err(BadOrigin)
    else
      match cell
      case None => Err(NoneValue)
      case Some(current) =>
        match CheckedAdd(current, 1, U32_MAX)
        case None => Err(StorageOverflow)
        case Some(incremented) => Ok(Some(incremented))
  }

  /** `do_something` stores `Some(v)` for any signer whatever the cell held. */
  lemma DoSomethingSets(cell: Option<uint32>, who: AccountId, v: uint32)
    ensures DoSomething(cell, Signed(who), v) == Ok(Some(v))
  {
  }

  /** `cause_error` by a signer fails with NoneValue on an empty cell and with
      StorageOverflow at `u32::MAX`, and otherwise stores the value plus exactly one. */
  lemma CauseErrorEffect(cell: Option<uint32>, who: AccountId)
    ensures cell.None? ==> CauseError(cell, Signed(who)) == Err(NoneValue)
    ensures cell == Some(U32_MAX) ==> CauseError(cell, Signed(who)) == Err(StorageOverflow)
    ensures cell.Some? && cell.value < U32_MAX ==> CauseError(cell, Signed(who)) == Ok(Some(cell.value + 1))
  {
  }

  /** `submit_data_unsigned(n)`: only an unsigned extrinsic may call it, and it writes
      nothing. */
  function SubmitDataUnsigned(origin: Origin, n: uint64): (r: Outcome<Error>)
    ensures r == Pass <==> origin.Unsigned?
    ensures r.Fail? ==> r.error == BadOrigin
  {
    if EnsureNone(origin) then Pass else Fail(BadOrigin)
  }

  /** A transaction tag: the prefix given to `with_tag_prefix` and the value given to
      `and_provides`. */
  datatype Tag = Tag(prefix: string, value: int)

  /** The fields of a `ValidTransaction`. */
  datatype ValidTransaction = ValidTransaction(priority: uint64, requiredTags: seq<Tag>, providedTags: seq<Tag>,
                                               longevity: uint64, propagate: bool)

  /** The only rejection the pallet gives: `InvalidTransaction::Call`. */
  datatype InvalidTransaction = InvalidCall

  /** `validate_unsigned(_source, call)` */
  function ValidateUnsigned(call: Call): (r: Result<ValidTransaction, InvalidTransaction>)
    ensures r.Ok? <==> call.SubmitDataUnsignedCall?
    ensures r.Ok? ==> r.value == ValidTransaction(10000, [], [Tag("ExampleOffchainWorker", 1)], 3, true)
    ensures r.Err? ==> r.error == InvalidCall
  {
    if call.SubmitDataUnsignedCall? then
      Ok(ValidTransaction(10000, [], [Tag("ExampleOffchainWorker", 1)], 3, true))
    else
      Err(InvalidCall)
  }

  /** What the off-chain worker submits, `submit_data_unsigned(42)`, is accepted by
      the pool and, dispatched unsigned, succeeds. */
  lemma WorkerSubmissionValid()
    ensures ValidateUnsigned(SubmitDataUnsignedCall(42)).Ok?
    ensures SubmitDataUnsigned(Unsigned, 42) == Pass
  {
  }
}

/** The pallet object: `Something` as a field the calls update in place. */
module TemplatePallet {
  import opened Frame
  import opened Template

  class Pallet {
    var something: Option<uint32>

    constructor ()
      ensures something == None
    {
      something := None;
    }

    /** `do_something(something)` */
    method DoSomething(origin: Origin, value: uint32) returns (r: Outcome<Error>)
      modifies this
      ensures Dispatched(Template.DoSomething(old(something), origin, value), old(something), r, something)
    {
      var who := EnsureSigned(origin);
      if who.None? {
        return Fail(BadOrigin);
      }
      something := Some(value);
      r := Pass;
    }

    /** `cause_error()` */
    method CauseError(origin: Origin) returns (r: Outcome<Error>)
      modifies this
      ensures Dispatched(Template.CauseError(old(something), origin), old(something), r, something)
    {
      var who := EnsureSigned(origin);
      if who.None? {
        return Fail(BadOrigin);
      }
      match something {
        case None =>
          return Fail(NoneValue);
        case Some(current) =>
          var next := CheckedAdd(current, 1, U32_MAX);
          if next.None? {
            return Fail(StorageOverflow);
          }
          something := Some(next.value);
          r := Pass;
      }
    }

    /** `submit_data_unsigned(n)` reads and writes no storage. */
    method SubmitDataUnsigned(origin: Origin, n: uint64) returns (r: Outcome<Error>)
      ensures r == Template.SubmitDataUnsigned(origin, n)
    {
      if !EnsureNone(origin) {
        return Fail(BadOrigin);
      }
      r := Pass;
    }
  }
}
