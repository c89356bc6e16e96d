/** The System pallet: the block counter and the per-account nonce ledger. */
module System {
  import opened Support

  /** Nonce of `who`; an account with no entry has nonce zero. */
  function NonceOf(nonce: map<AccountID, nat>, who: AccountID): nat
  {
    if who in nonce then nonce[who] else 0
  }

  /** The nonce ledger after one `inc_nonce(who)`. */
  function NonceIncremented(nonce: map<AccountID, nat>, who: AccountID): (r: map<AccountID, nat>)
    ensures who in r && r[who] == NonceOf(nonce, who) + 1
    ensures who !in nonce ==> r[who] == 1
    ensures forall a :: a != who ==> NonceOf(r, a) == NonceOf(nonce, a)
    ensures r.Keys == nonce.Keys + {who}
  {
    nonce[who := NonceOf(nonce, who) + 1]
  }

  /** The nonce ledger after `n` successive calls of `inc_nonce(who)`. */
  function NonceIncrementedTimes(nonce: map<AccountID, nat>, who: AccountID, n: nat): map<AccountID, nat>
  {
    if n == 0 then nonce else NonceIncremented(NonceIncrementedTimes(nonce, who, n - 1), who)
  }

  /** `n` increments raise `who`'s nonce by exactly `n` and touch no other account. */
  lemma {:induction false} RepeatedIncrements(nonce: map<AccountID, nat>, who: AccountID, n: nat)
    ensures NonceOf(NonceIncrementedTimes(nonce, who, n), who) == NonceOf(nonce, who) + n
    ensures forall a :: a != who ==> NonceOf(NonceIncrementedTimes(nonce, who, n), a) == NonceOf(nonce, a)
  {
    if n > 0 {
      RepeatedIncrements(nonce, who, n - 1);
    }
  }

  /** Starting from an absent entry, `n` increments leave the nonce at `n`. */
  lemma {:induction false} RepeatedIncrementsFromAbsent(who: AccountID, n: nat)
    ensures NonceOf(NonceIncrementedTimes(map[], who, n), who) == n
  {
    RepeatedIncrements(map[], who, n);
  }

  class Pallet {
    /** The current block number. */
    var blockNumber: nat
    /** Map from an account to its nonce. */
    var nonce: map<AccountID, nat>

    constructor ()
      ensures blockNumber == 0 && nonce == map[]
    {
      blockNumber := 0;
      nonce := map[];
    }

    /** Reads the current block number; changes nothing. */
    method BlockNumber() returns (n: nat)
      ensures n == blockNumber
    {
      n := blockNumber;
    }

    method IncBlockNumber()
      modifies this
      ensures blockNumber == old(blockNumber) + 1
      ensures nonce == old(nonce)
    {
      blockNumber := blockNumber + 1;
    }

    method IncNonce(who: AccountID)
      modifies this
      ensures nonce == NonceIncremented(old(nonce), who)
      ensures blockNumber == old(blockNumber)
    {
      var current := if who in nonce then nonce[who] else 0;
      var next := current + 1;
      nonce := nonce[who := next];
    }
  }
}
