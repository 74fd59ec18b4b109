/** The ERC-20 token contract of lesson5 (an ink! contract): a fixed total supply,
    balances and allowances, with the reference transitions of its messages. */
module Erc20Token {
  import opened Frame

  const U128_MAX: int := 0xFFFF_FFFF_FFFF_FFFF_FFFF_FFFF_FFFF_FFFF

  /** ink!'s `Balance` is a `u128`. */
  type Balance = x: int | 0 <= x <= U128_MAX

  /** The contract's errors, plus `Overflow` for the arithmetic trap a `u128` addition
      would raise (`Token` shows it cannot happen). */
  datatype Error = InsufficientBalance | InsufficientApproval | Overflow

  /** The storage: `total_supply`, `balances` and `approval` (owner, spender). */
  datatype Token = Token(totalSupply: Balance, balances: map<AccountId, Balance>,
                         approval: map<(AccountId, AccountId), Balance>)

  /** The sum of all balances. */
  ghost function Sum(m: map<AccountId, Balance>): nat
    decreases |m|
  {
    if m == map[] then 0
    else
      var k :| k in m;
      m[k] + Sum(m - {k})
  }

  /** Summing can start from any key. */
  lemma {:induction false} SumRemove(m: map<AccountId, Balance>, k: AccountId)
    requires k in m
    ensures Sum(m) == m[k] + Sum(m - {k})
    decreases |m|
  {
    var j :| j in m && Sum(m) == m[j] + Sum(m - {j});
    if j != k {
      assert k in m - {j} && j in m - {k};
      SumRemove(m - {j}, k);
      SumRemove(m - {k}, j);
      assert m - {j} - {k} == m - {k} - {j};
    }
  }

  /** A `Mapping` reads a missing key as the default 0. */
  function Get(m: map<AccountId, Balance>, a: AccountId): Balance
  {
    if a in m then m[a] else 0
  }

  /** Writing one balance changes the sum by the difference. */
  lemma SumUpdate(m: map<AccountId, Balance>, k: AccountId, v: Balance)
    ensures Sum(m[k := v]) + Get(m, k) == Sum(m) + v
  {
    var m' := m[k := v];
    SumRemove(m', k);
    assert m' - {k} == m - {k};
    if k in m {
      SumRemove(m, k);
    } else {
      assert m - {k} == m;
    }
  }

  /** No single balance exceeds the sum. */
  lemma BalanceBelowSum(m: map<AccountId, Balance>, k: AccountId)
    ensures Get(m, k) <= Sum(m)
  {
    if k in m {
      SumRemove(m, k);
    }
  }

  /** The invariant of the contract: the balances add up to the total supply. */
  ghost predicate Conserved(t: Token)
  {
    Sum(t.balances) == t.totalSupply
  }

  /** `new(total_supply)`: the caller holds the whole supply, nobody has allowed anything. */
  function New(caller: AccountId, totalSupply: Balance): Token
  {
    Token(totalSupply, map[caller := totalSupply], map[])
  }

  /** `balance_of(who)` */
  function BalanceOf(t: Token, who: AccountId): Balance
  {
    Get(t.balances, who)
  }

  /** `approval(owner, spender)` */
  function Allowance(t: Token, owner: AccountId, spender: AccountId): Balance
  {
    if (owner, spender) in t.approval then t.approval[(owner, spender)] else 0
  }

  /** A new token: the caller's balance and the total supply are the initial supply,
      every other balance and every allowance is 0, and the balances add up. */
  lemma NewToken(caller: AccountId, totalSupply: Balance)
    ensures BalanceOf(New(caller, totalSupply), caller) == totalSupply
    ensures New(caller, totalSupply).totalSupply == totalSupply
    ensures forall a :: a != caller ==> BalanceOf(New(caller, totalSupply), a) == 0
    ensures forall o: AccountId, s: AccountId :: Allowance(New(caller, totalSupply), o, s) == 0
    ensures Conserved(New(caller, totalSupply))
  {
    SumRemove(map[caller := totalSupply], caller);
    assert map[caller := totalSupply] - {caller} == map[];
  }

  /** `approve(to, amount)` by `caller`: overwrites the allowance. */
  function Approve(t: Token, caller: AccountId, to: AccountId, amount: Balance): Token
  {
    t.(approval := t.approval[(caller, to) := amount])
  }

  /** `approve` sets the allowance to `amount` (it does not add to it), leaves every
      other allowance, every balance and the supply as they were. */
  lemma ApproveEffect(t: Token, caller: AccountId, to: AccountId, amount: Balance)
    ensures Allowance(Approve(t, caller, to, amount), caller, to) == amount
    ensures forall o: AccountId, s: AccountId :: (o, s) != (caller, to) ==> Allowance(Approve(t, caller, to, amount), o, s) == Allowance(t, o, s)
    ensures Approve(t, caller, to, amount).balances == t.balances
    ensures Approve(t, caller, to, amount).totalSupply == t.totalSupply
  {
  }

  /** `inner_transfer(from, to, amount)`: debit `from`, then credit `to` with its balance
      as read AFTER the debit. */
  function InnerTransfer(t: Token, from: AccountId, to: AccountId, amount: Balance): Result<Token, Error>
  {
    var fromBalance := BalanceOf(t, from);
    if fromBalance < amount then Err(InsufficientBalance)
    else
      var debited := t.balances[from := fromBalance - amount];
      var toBalance := Get(debited, to);
      if toBalance + amount > U128_MAX then Err(Overflow)
      else Ok(t.(balances := debited[to := toBalance + amount]))
  }

  /** `inner_transfer` fails with InsufficientBalance exactly when `from` holds less than
      `amount`; on success it debits `from` and credits `to` by `amount` (a transfer to
      oneself changes no balance), touches no other balance, no allowance and not
      the supply. */
  lemma InnerTransferEffect(t: Token, from: AccountId, to: AccountId, amount: Balance)
    ensures InnerTransfer(t, from, to, amount) == Err(InsufficientBalance) <==> BalanceOf(t, from) < amount
    ensures InnerTransfer(t, from, to, amount).Ok? ==>
              var t' := InnerTransfer(t, from, to, amount).value;
              && (from != to ==> BalanceOf(t', from) + amount == BalanceOf(t, from))
              && (from != to ==> BalanceOf(t', to) == BalanceOf(t, to) + amount)
              && (from == to ==> BalanceOf(t', from) == BalanceOf(t, from))
              && (forall a :: a != from && a != to ==> BalanceOf(t', a) == BalanceOf(t, a))
              && t'.approval == t.approval && t'.totalSupply == t.totalSupply
  {
  }

  /** While the balances add up to the supply the credit cannot overflow, and a
      successful transfer keeps them adding up. */
  lemma InnerTransferConserves(t: Token, from: AccountId, to: AccountId, amount: Balance)
    requires Conserved(t)
    ensures InnerTransfer(t, from, to, amount) != Err(Overflow)
    ensures InnerTransfer(t, from, to, amount).Ok? ==> Conserved(InnerTransfer(t, from, to, amount).value)
  {
    var fromBalance := BalanceOf(t, from);
    if amount <= fromBalance {
      var debited := t.balances[from := fromBalance - amount];
      SumUpdate(t.balances, from, fromBalance - amount);
      BalanceBelowSum(debited, to);
      var toBalance := Get(debited, to);
      assert toBalance + amount <= t.totalSupply;
      SumUpdate(debited, to, toBalance + amount);
    }
  }

  /** `transfer_from(from, to, amount)` by `caller`: the caller's allowance from `from`
      must cover the amount; then `inner_transfer`, then the allowance is lowered. */
  function TransferFrom(t: Token, caller: AccountId, from: AccountId, to: AccountId, amount: Balance): Result<Token, Error>
  {
    var approval := Allowance(t, from, caller);
    if approval < amount then Err(InsufficientApproval)
    else
      match InnerTransfer(t, from, to, amount)
      case Err(e) => Err(e)
      case Ok(moved) => Ok(moved.(approval := moved.approval[(from, caller) := approval - amount]))
  }

  /** `transfer_from` fails with InsufficientApproval exactly when the allowance is below
      `amount`, and otherwise with whatever `inner_transfer` fails with; on success the
      balances are those of `inner_transfer`, the caller's allowance from `from` drops by
      exactly `amount` and every other allowance is unchanged. */
  lemma TransferFromEffect(t: Token, caller: AccountId, from: AccountId, to: AccountId, amount: Balance)
    ensures TransferFrom(t, caller, from, to, amount) == Err(InsufficientApproval) <==> Allowance(t, from, caller) < amount
    ensures Allowance(t, from, caller) >= amount && InnerTransfer(t, from, to, amount).Err? ==>
              TransferFrom(t, caller, from, to, amount) == Err(InnerTransfer(t, from, to, amount).error)
    ensures TransferFrom(t, caller, from, to, amount).Ok? ==>
              var t' := TransferFrom(t, caller, from, to, amount).value;
              && InnerTransfer(t, from, to, amount).Ok?
              && t'.balances == InnerTransfer(t, from, to, amount).value.balances
              && Allowance(t', from, caller) + amount == Allowance(t, from, caller)
              && (forall o: AccountId, s: AccountId :: (o, s) != (from, caller) ==> Allowance(t', o, s) == Allowance(t, o, s))
              && t'.totalSupply == t.totalSupply
  {
  }

  /** `transfer_from` keeps the balances adding up to the supply. */
  lemma TransferFromConserves(t: Token, caller: AccountId, from: AccountId, to: AccountId, amount: Balance)
    requires Conserved(t)
    ensures TransferFrom(t, caller, from, to, amount) != Err(Overflow)
    ensures TransferFrom(t, caller, from, to, amount).Ok? ==> Conserved(TransferFrom(t, caller, from, to, amount).value)
  {
    InnerTransferConserves(t, from, to, amount);
  }
}

/** The contract object: its storage fields updated in place by the messages, which
    follow the source statement by statement. `caller` is `self.env().caller()`. */
module Erc20 {
  import opened Frame
  import opened Erc20Token

  class Contract {
    var totalSupply: Balance
    var balances: map<AccountId, Balance>
    var approval: map<(AccountId, AccountId), Balance>

    function State(): Token
      reads this
    {
      Token(totalSupply, balances, approval)
    }

    ghost predicate Valid()
      reads this
    {
      Conserved(State())
    }

    /** `new(total_supply)` */
    constructor (caller: AccountId, supply: Balance)
      ensures Valid() && State() == New(caller, supply)
    {
      totalSupply := supply;
      balances := map[caller := supply];
      approval := map[];
      new;
      NewToken(caller, supply);
    }

    /** `total_supply()` */
    function TotalSupply(): Balance
      reads this
    {
      totalSupply
    }

    /** `balance_of(who)` */
    function BalanceOf(who: AccountId): Balance
      reads this
    {
      Erc20Token.BalanceOf(State(), who)
    }

    /** `approval(owner, spender)` */
    function Approval(owner: AccountId, spender: AccountId): Balance
      reads this
    {
      Allowance(State(), owner, spender)
    }

    /** `approve(to, amount)` always succeeds. */
    method Approve(caller: AccountId, to: AccountId, amount: Balance) returns (r: Outcome<Error>)
      requires Valid()
      modifies this
      ensures Valid() && r == Pass
      ensures State() == Erc20Token.Approve(old(State()), caller, to, amount)
    {
      approval := approval[(caller, to) := amount];
      r := Pass;
    }

    /** `transfer(to, amount)` */
    method Transfer(caller: AccountId, to: AccountId, amount: Balance) returns (r: Outcome<Error>)
      requires Valid()
      modifies this
      ensures Valid()
      ensures Dispatched(Erc20Token.InnerTransfer(old(State()), caller, to, amount), old(State()), r, State())
    {
      r := InnerTransfer(caller, to, amount);
    }

    /** `transfer_from(from, to, amount)`; the new allowance is written twice, as in the
        source, with the same value. */
    method TransferFrom(caller: AccountId, from: AccountId, to: AccountId, amount: Balance) returns (r: Outcome<Error>)
      requires Valid()
      modifies this
      ensures Valid()
      ensures Dispatched(Erc20Token.TransferFrom(old(State()), caller, from, to, amount), old(State()), r, State())
    {
      var allowed := Approval(from, caller);
      if allowed < amount {
        return Fail(InsufficientApproval);
      }
      r := InnerTransfer(from, to, amount);
      if r.Fail? {
        return;
      }
      approval := approval[(from, caller) := allowed - amount];
      approval := approval[(from, caller) := allowed - amount];
    }

    /** `inner_transfer(from, to, amount)`; the credit re-reads `to` after the debit. */
    method InnerTransfer(from: AccountId, to: AccountId, amount: Balance) returns (r: Outcome<Error>)
      requires Valid()
      modifies this
      ensures Valid()
      ensures Dispatched(Erc20Token.InnerTransfer(old(State()), from, to, amount), old(State()), r, State())
    {
      InnerTransferConserves(State(), from, to, amount);
      var fromBalance := BalanceOf(from);
      if fromBalance < amount {
        return Fail(InsufficientBalance);
      }
      balances := balances[from := fromBalance - amount];
      var toBalance := BalanceOf(to);
      // cannot overflow: the balances add up to the total supply
      balances := balances[to := toBalance + amount];
      r := Pass;
    }
  }
}
