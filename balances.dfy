/** The Balances pallet: a ledger from account to an unsigned 128-bit balance,
    with a transfer that uses checked arithmetic. */
module Balances {
  import opened Support

  /** Largest value of the runtime's `u128` balance type. */
  const MaxBalance: int := 0xFFFF_FFFF_FFFF_FFFF_FFFF_FFFF_FFFF_FFFF

  type Balance = x: int | 0 <= x <= MaxBalance

  const NotEnoughFunds: string := "Not enough funds"
  const AmountTooLarge: string := "Amount is too large"

  /** `u128::checked_sub`: the difference, or None when it would be negative. */
  function CheckedSub(a: Balance, b: Balance): (r: Option<Balance>)
    ensures r.Some? <==> b <= a
    ensures r.Some? ==> r.value + b == a
  {
    if b <= a then Some(a - b) else None
  }

  /** `u128::checked_add`: the sum, or None when it exceeds the type's maximum. */
  function CheckedAdd(a: Balance, b: Balance): (r: Option<Balance>)
    ensures r.Some? <==> a + b <= MaxBalance
    ensures r.Some? ==> r.value - b == a
  {
    if a + b <= MaxBalance then Some(a + b) else None
  }

  /** Balance of `who`; an account never written holds zero. */
  function BalanceIn(balances: map<AccountID, Balance>, who: AccountID): Balance
  {
    if who in balances then balances[who] else 0
  }

  /** The calls this pallet exposes to the runtime. */
  datatype Call = Transfer(to: AccountID, amount: Balance)

  /** Result and new ledger of `transfer(caller, to, amount)` on `balances`. */
  function TransferOutcome(balances: map<AccountID, Balance>, caller: AccountID, to: AccountID, amount: Balance)
    : (r: (DispatchResult, map<AccountID, Balance>))
    ensures r.0 == Ok <==> amount <= BalanceIn(balances, caller) && BalanceIn(balances, to) + amount <= MaxBalance
    ensures amount > BalanceIn(balances, caller) ==> r == (Err(NotEnoughFunds), balances)
    ensures amount <= BalanceIn(balances, caller) && BalanceIn(balances, to) + amount > MaxBalance
            ==> r == (Err(AmountTooLarge), balances)
    ensures r.0 == Ok && caller != to ==>
              && BalanceIn(r.1, caller) == BalanceIn(balances, caller) - amount
              && BalanceIn(r.1, to) == BalanceIn(balances, to) + amount
              && BalanceIn(r.1, caller) + BalanceIn(r.1, to) == BalanceIn(balances, caller) + BalanceIn(balances, to)
    ensures r.0 == Ok && caller == to ==> BalanceIn(r.1, caller) == BalanceIn(balances, caller) + amount
    ensures r.0 == Ok ==> r.1.Keys == balances.Keys + {caller, to}
    ensures forall a :: a != caller && a != to ==> BalanceIn(r.1, a) == BalanceIn(balances, a)
  {
    var callerBalance := BalanceIn(balances, caller);
    var toBalance := BalanceIn(balances, to);
    match CheckedSub(callerBalance, amount)
    case None => (Err(NotEnoughFunds), balances)
    case Some(newCallerBalance) =>
      match CheckedAdd(toBalance, amount)
      case None => (Err(AmountTooLarge), balances)
      case Some(newToBalance) => (Ok, balances[caller := newCallerBalance][to := newToBalance])
  }

  /** Sum of the balances of `accounts`. */
  function Total(balances: map<AccountID, Balance>, accounts: seq<AccountID>): int
  {
    if accounts == [] then 0 else BalanceIn(balances, accounts[0]) + Total(balances, accounts[1..])
  }

  predicate Distinct(accounts: seq<AccountID>)
  {
    forall i, j :: 0 <= i < j < |accounts| ==> accounts[i] != accounts[j]
  }

  /** A successful transfer between two different accounts moves `amount` out of
      any group of accounts holding the caller and into any group holding the
      recipient; a group holding both (or neither) keeps its total. */
  lemma {:induction false} TransferShiftsTotal(balances: map<AccountID, Balance>, caller: AccountID, to: AccountID,
                                               amount: Balance, accounts: seq<AccountID>)
    requires caller != to && Distinct(accounts)
    requires TransferOutcome(balances, caller, to, amount).0 == Ok
    ensures Total(TransferOutcome(balances, caller, to, amount).1, accounts)
            == Total(balances, accounts)
               - (if caller in accounts then amount else 0)
               + (if to in accounts then amount else 0)
  {
    if accounts != [] {
      var rest := accounts[1..];
      assert Distinct(rest) by {
        forall i, j | 0 <= i < j < |rest| ensures rest[i] != rest[j] {
          assert rest[i] == accounts[i + 1] && rest[j] == accounts[j + 1];
        }
      }
      assert caller in accounts <==> caller == accounts[0] || caller in rest;
      assert to in accounts <==> to == accounts[0] || to in rest;
      assert accounts[0] !in rest by {
        forall k | 0 <= k < |rest| ensures rest[k] != accounts[0] {
          assert rest[k] == accounts[k + 1];
        }
      }
      TransferShiftsTotal(balances, caller, to, amount, rest);
    }
  }

  /** Conservation: among a closed group holding both parties, the total is unchanged. */
  lemma TransferConservesTotal(balances: map<AccountID, Balance>, caller: AccountID, to: AccountID,
                               amount: Balance, accounts: seq<AccountID>)
    requires caller != to && Distinct(accounts) && caller in accounts && to in accounts
    requires TransferOutcome(balances, caller, to, amount).0 == Ok
    ensures Total(TransferOutcome(balances, caller, to, amount).1, accounts) == Total(balances, accounts)
  {
    TransferShiftsTotal(balances, caller, to, amount, accounts);
  }

  class Pallet {
    var balances: map<AccountID, Balance>

    constructor ()
      ensures balances == map[]
    {
      balances := map[];
    }

    /** Overwrites (or creates) the entry of `who`. */
    method SetBalance(who: AccountID, amount: Balance)
      modifies this
      ensures balances == old(balances)[who := amount]
      ensures BalanceIn(balances, who) == amount
      ensures forall a :: a != who ==> BalanceIn(balances, a) == BalanceIn(old(balances), a)
    {
      balances := balances[who := amount];
    }

    /** Reads the balance of `who` (zero when absent); changes nothing. */
    method Balance(who: AccountID) returns (b: Balance)
      ensures b == BalanceIn(balances, who)
    {
      b := if who in balances then balances[who] else 0;
    }

    /** Checks funds, then overflow, and writes both balances only when both pass. */
    method Transfer(caller: AccountID, to: AccountID, amount: Balance) returns (r: DispatchResult)
      modifies this
      ensures (r, balances) == TransferOutcome(old(balances), caller, to, amount)
    {
      var callerBalance := Balance(caller);
      var toBalance := Balance(to);
      var newCallerBalance := CheckedSub(callerBalance, amount);
      if newCallerBalance.None? {
        return Err(NotEnoughFunds);
      }
      var newToBalance := CheckedAdd(toBalance, amount);
      if newToBalance.None? {
        return Err(AmountTooLarge);
      }
      SetBalance(caller, newCallerBalance.value);
      SetBalance(to, newToBalance.value);
      r := Ok;
    }

    /** Pallet-level dispatch: a `Transfer` call made on behalf of `caller`. */
    method Dispatch(caller: AccountID, call: Call) returns (r: DispatchResult)
      modifies this
      ensures (r, balances) == TransferOutcome(old(balances), caller, call.to, call.amount)
    {
      match call
      case Transfer(to, amount) =>
        r := Transfer(caller, to, amount);
    }
  }
}
