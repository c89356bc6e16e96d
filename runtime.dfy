/** The runtime: one instance of each pallet, the call envelope that routes an
    instruction to its pallet, and the block executor. */
module Runtime {
  import opened Support
  import Sys = System
  import Bal = Balances
  import Poe = ProofOfExistence

  /** The call envelope: one variant per pallet, holding that pallet's call. */
  datatype RuntimeCall =
    | Balances(balancesCall: Bal.Call)
    | ProofOfExistence(claimsCall: Poe.Call)

  type RuntimeHeader = Header<nat>
  type RuntimeExtrinsic = Extrinsic<AccountID, RuntimeCall>
  type RuntimeBlock = Block<RuntimeHeader, RuntimeExtrinsic>

  const BlockNumberMismatch: string := "The imported block number doesn't match the current's"

  /** The whole runtime state: the System pallet's counter and nonces, the
      balance ledger and the claim ledger. */
  datatype State = State(
    blockNumber: nat,
    nonce: map<AccountID, nat>,
    balances: map<AccountID, Bal.Balance>,
    claims: map<Poe.Content, AccountID>)

  /** The record the executor reports for an extrinsic whose dispatch failed. */
  datatype ExtrinsicError = ExtrinsicError(blockNumber: nat, index: nat, error: string)

  /** State after applying extrinsics, with the failures reported on the way. */
  datatype Applied = Applied(state: State, log: seq<ExtrinsicError>)

  /** Result and new state of `dispatch(caller, call)`. */
  function DispatchOutcome(s: State, caller: AccountID, call: RuntimeCall): (r: (DispatchResult, State))
    ensures r.1.blockNumber == s.blockNumber && r.1.nonce == s.nonce
    ensures r.0.Err? ==> r.1 == s
    ensures call.Balances? ==>
              && r.1.claims == s.claims
              && (r.0, r.1.balances)
                 == Bal.TransferOutcome(s.balances, caller, call.balancesCall.to, call.balancesCall.amount)
    ensures call.ProofOfExistence? && call.claimsCall.CreateClaim? ==>
              && r.1.balances == s.balances
              && (r.0, r.1.claims)
                 == Poe.CreateClaimOutcome(s.claims, call.claimsCall.caller, call.claimsCall.claim)
    ensures call.ProofOfExistence? && call.claimsCall.RevokeClaim? ==>
              && r.1.balances == s.balances
              && (r.0, r.1.claims)
                 == Poe.RevokeClaimOutcome(s.claims, call.claimsCall.caller, call.claimsCall.claim)
  {
    match call
    case Balances(Transfer(to, amount)) =>
      var (result, balances) := Bal.TransferOutcome(s.balances, caller, to, amount);
      (result, s.(balances := balances))
    case ProofOfExistence(CreateClaim(who, claim)) =>
      var (result, claims) := Poe.CreateClaimOutcome(s.claims, who, claim);
      (result, s.(claims := claims))
    case ProofOfExistence(RevokeClaim(who, claim)) =>
      var (result, claims) := Poe.RevokeClaimOutcome(s.claims, who, claim);
      (result, s.(claims := claims))
  }

  /** Claim calls act for the caller named inside the call; the extrinsic's caller is ignored. */
  lemma ClaimCallsIgnoreOuterCaller(s: State, caller1: AccountID, caller2: AccountID, call: RuntimeCall)
    requires call.ProofOfExistence?
    ensures DispatchOutcome(s, caller1, call) == DispatchOutcome(s, caller2, call)
  {
  }

  /** One extrinsic: the caller's nonce goes up first, then the call is dispatched. */
  function ExtrinsicOutcome(s: State, ext: RuntimeExtrinsic): (r: (DispatchResult, State))
    ensures r.1.blockNumber == s.blockNumber
    ensures r.1.nonce == Sys.NonceIncremented(s.nonce, ext.caller)
    ensures r.0.Err? ==> r.1 == s.(nonce := Sys.NonceIncremented(s.nonce, ext.caller))
  {
    DispatchOutcome(s.(nonce := Sys.NonceIncremented(s.nonce, ext.caller)), ext.caller, ext.call)
  }

  /** Applies `xs` in order to `s`, reporting each failure under block number
      `blockNumber` with its zero-based index, and carrying on after it. */
  function ExtrinsicsApplied(s: State, blockNumber: nat, xs: seq<RuntimeExtrinsic>): (r: Applied)
    ensures r.state.blockNumber == s.blockNumber
    ensures forall e | e in r.log :: e.blockNumber == blockNumber && e.index < |xs|
    ensures forall j, k | 0 <= j < k < |r.log| :: r.log[j].index < r.log[k].index
    decreases |xs|
  {
    if xs == [] then Applied(s, [])
    else
      var last := |xs| - 1;
      var before := ExtrinsicsApplied(s, blockNumber, xs[..last]);
      var (result, after) := ExtrinsicOutcome(before.state, xs[last]);
      Applied(after, if result.Err? then before.log + [ExtrinsicError(blockNumber, last, result.error)] else before.log)
  }

  /** The failure log is exact: extrinsic `i` has a record precisely when its
      dispatch (on the state the earlier extrinsics left) fails, and that record
      carries the block number and the dispatch's error. */
  lemma {:induction false} FailuresLogged(s: State, blockNumber: nat, xs: seq<RuntimeExtrinsic>, i: nat)
    requires i < |xs|
    ensures var result := ExtrinsicOutcome(ExtrinsicsApplied(s, blockNumber, xs[..i]).state, xs[i]).0;
            var log := ExtrinsicsApplied(s, blockNumber, xs).log;
            && (result.Err? ==> ExtrinsicError(blockNumber, i, result.error) in log)
            && (forall e | e in log && e.index == i :: result.Err? && e == ExtrinsicError(blockNumber, i, result.error))
    decreases |xs|
  {
    var last := |xs| - 1;
    var front := xs[..last];
    var before := ExtrinsicsApplied(s, blockNumber, front);
    var step := ExtrinsicOutcome(before.state, xs[last]).0;
    var log := ExtrinsicsApplied(s, blockNumber, xs).log;
    assert log == if step.Err? then before.log + [ExtrinsicError(blockNumber, last, step.error)] else before.log;
    if i < last {
      assert front[..i] == xs[..i] && front[i] == xs[i];
      FailuresLogged(s, blockNumber, front, i);
    } else {
      assert front == xs[..i];
      assert forall e | e in before.log :: e.index < i;
    }
  }

  /** Result and new state of `execute_block(block)`. */
  function BlockOutcome(s: State, block: RuntimeBlock): (r: (DispatchResult, Applied))
    ensures r.1.state.blockNumber == s.blockNumber + 1
    ensures r.0 == Ok <==> block.header.blockNumber == s.blockNumber + 1
    ensures r.0.Err? ==>
              && r.0 == Err(BlockNumberMismatch)
              && r.1 == Applied(s.(blockNumber := s.blockNumber + 1), [])
  {
    var advanced := s.(blockNumber := s.blockNumber + 1);
    if advanced.blockNumber != block.header.blockNumber then
      (Err(BlockNumberMismatch), Applied(advanced, []))
    else
      (Ok, ExtrinsicsApplied(advanced, block.header.blockNumber, block.extrinsics))
  }

  /** Number of extrinsics in `xs` whose outer caller is `who`. */
  function CallerCount(xs: seq<RuntimeExtrinsic>, who: AccountID): nat
  {
    if xs == [] then 0
    else CallerCount(xs[..|xs| - 1], who) + (if xs[|xs| - 1].caller == who then 1 else 0)
  }

  /** Every extrinsic advances its caller's nonce exactly once, whatever its outcome. */
  lemma {:induction false} ExtrinsicsAdvanceNonces(s: State, blockNumber: nat, xs: seq<RuntimeExtrinsic>, who: AccountID)
    ensures Sys.NonceOf(ExtrinsicsApplied(s, blockNumber, xs).state.nonce, who)
            == Sys.NonceOf(s.nonce, who) + CallerCount(xs, who)
    decreases |xs|
  {
    if xs != [] {
      ExtrinsicsAdvanceNonces(s, blockNumber, xs[..|xs| - 1], who);
    }
  }

  /** After a block that is accepted, each account's nonce has grown by the number
      of that block's extrinsics it sent; accounts that sent none keep theirs. */
  lemma BlockAdvancesNonces(s: State, block: RuntimeBlock)
    requires BlockOutcome(s, block).0 == Ok
    ensures forall who :: Sys.NonceOf(BlockOutcome(s, block).1.state.nonce, who)
                          == Sys.NonceOf(s.nonce, who) + CallerCount(block.extrinsics, who)
  {
    var advanced := s.(blockNumber := s.blockNumber + 1);
    forall who
      ensures Sys.NonceOf(BlockOutcome(s, block).1.state.nonce, who)
              == Sys.NonceOf(s.nonce, who) + CallerCount(block.extrinsics, who)
    {
      ExtrinsicsAdvanceNonces(advanced, block.header.blockNumber, block.extrinsics, who);
    }
  }

  /** Applying one more extrinsic is one more step from where the others left off. */
  lemma AppliedSnoc(s: State, blockNumber: nat, xs: seq<RuntimeExtrinsic>, x: RuntimeExtrinsic)
    ensures ExtrinsicsApplied(s, blockNumber, xs + [x]).state
            == ExtrinsicOutcome(ExtrinsicsApplied(s, blockNumber, xs).state, x).1
  {
    assert (xs + [x])[..|xs|] == xs;
  }

  /** Applying `xs + ys` is applying `xs`, then `ys` to the state `xs` left. */
  lemma {:induction false} ExtrinsicsCompose(s: State, blockNumber: nat, xs: seq<RuntimeExtrinsic>, ys: seq<RuntimeExtrinsic>)
    ensures ExtrinsicsApplied(s, blockNumber, xs + ys).state
            == ExtrinsicsApplied(ExtrinsicsApplied(s, blockNumber, xs).state, blockNumber, ys).state
    decreases |ys|
  {
    if ys == [] {
      assert xs + ys == xs;
    } else {
      var front, x := ys[..|ys| - 1], ys[|ys| - 1];
      assert ys == front + [x];
      assert xs + ys == (xs + front) + [x];
      ExtrinsicsCompose(s, blockNumber, xs, front);
      var mid := ExtrinsicsApplied(s, blockNumber, xs).state;
      AppliedSnoc(s, blockNumber, xs + front, x);
      AppliedSnoc(mid, blockNumber, front, x);
    }
  }

  /** A claim keeps its owner through any extrinsics none of which is that
      owner's revocation of it. */
  lemma {:induction false} ClaimSurvives(s: State, blockNumber: nat, xs: seq<RuntimeExtrinsic>,
                                         claim: Poe.Content, owner: AccountID)
    requires Poe.ClaimOf(s.claims, claim) == Some(owner)
    requires forall i :: 0 <= i < |xs| ==> xs[i].call != ProofOfExistence(Poe.RevokeClaim(owner, claim))
    ensures Poe.ClaimOf(ExtrinsicsApplied(s, blockNumber, xs).state.claims, claim) == Some(owner)
    decreases |xs|
  {
    if xs != [] {
      var front := xs[..|xs| - 1];
      assert forall i :: 0 <= i < |front| ==> front[i] == xs[i];
      ClaimSurvives(s, blockNumber, front, claim, owner);
    }
  }

  class Runtime {
    const system: Sys.Pallet
    const balances: Bal.Pallet
    const proofOfExistence: Poe.Pallet

    /** The state held by the three pallets. */
    function Abstract(): State
      reads system, balances, proofOfExistence
    {
      State(system.blockNumber, system.nonce, balances.balances, proofOfExistence.claims)
    }

    constructor ()
      ensures fresh(system) && fresh(balances) && fresh(proofOfExistence)
      ensures Abstract() == State(0, map[], map[], map[])
    {
      system := new Sys.Pallet();
      balances := new Bal.Pallet();
      proofOfExistence := new Poe.Pallet();
    }

    /** Routes `call` to the pallet that owns it; never touches the System pallet. */
    method Dispatch(caller: AccountID, call: RuntimeCall) returns (r: DispatchResult)
      modifies balances, proofOfExistence
      ensures (r, Abstract()) == DispatchOutcome(old(Abstract()), caller, call)
    {
      match call
      case Balances(Transfer(to, amount)) =>
        r := balances.Transfer(caller, to, amount);
      case ProofOfExistence(CreateClaim(who, claim)) =>
        r := proofOfExistence.CreateClaim(who, claim);
      case ProofOfExistence(RevokeClaim(who, claim)) =>
        r := proofOfExistence.RevokeClaim(who, claim);
    }

    /** Advances the block number, checks it against the header, then applies
        every extrinsic in order; `log` models the diagnostics for failed ones. */
    method ExecuteBlock(block: RuntimeBlock) returns (r: DispatchResult, ghost log: seq<ExtrinsicError>)
      modifies system, balances, proofOfExistence
      ensures (r, Applied(Abstract(), log)) == BlockOutcome(old(Abstract()), block)
    {
      system.IncBlockNumber();
      var current := system.BlockNumber();
      if current != block.header.blockNumber {
        return Err(BlockNumberMismatch), [];
      }
      ghost var start := Abstract();
      log := [];
      var xs := block.extrinsics;
      var i := 0;
      while i < |xs|
        invariant 0 <= i <= |xs|
        invariant Applied(Abstract(), log) == ExtrinsicsApplied(start, block.header.blockNumber, xs[..i])
      {
        var ext := xs[i];
        assert xs[..i + 1][..i] == xs[..i];
        system.IncNonce(ext.caller);
        var result := Dispatch(ext.caller, ext.call);
        if result.Err? {
          log := log + [ExtrinsicError(block.header.blockNumber, i, result.error)];
        }
        i := i + 1;
      }
      assert xs[..i] == xs;
      r := Ok;
    }
  }
}
