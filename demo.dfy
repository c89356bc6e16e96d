/** The four blocks the repository's demonstration driver executes, replayed
    against the runtime: every block is accepted and the final ledgers are as
    the transfers and claims imply. */
module Demo {
  import opened Support
  import Bal = Balances
  import Poe = ProofOfExistence
  import opened Runtime

  const Alice: AccountID := "alice"
  const Bob: AccountID := "bob"
  const Charlie: AccountID := "charlie"
  const AliceContent: Poe.Content := "The Book of Alice"
  const BobContent: Poe.Content := "The Book of Bob"

  const Genesis: RuntimeBlock := Block(Header(1), [
    Extrinsic(Alice, Balances(Bal.Transfer(Bob, 30))),
    Extrinsic(Alice, Balances(Bal.Transfer(Charlie, 20)))])
  const Block2: RuntimeBlock := Block(Header(2), [
    Extrinsic(Alice, ProofOfExistence(Poe.CreateClaim(Alice, AliceContent))),
    Extrinsic(Bob, ProofOfExistence(Poe.CreateClaim(Bob, BobContent)))])
  const Block3: RuntimeBlock := Block(Header(3), [
    Extrinsic(Alice, ProofOfExistence(Poe.RevokeClaim(Alice, AliceContent)))])
  /** Bob claims his content a second time: the extrinsic fails, the block does not. */
  const Block4: RuntimeBlock := Block(Header(4), [
    Extrinsic(Bob, ProofOfExistence(Poe.CreateClaim(Bob, BobContent)))])

  lemma Unroll1(s: State, blockNumber: nat, xs: seq<RuntimeExtrinsic>)
    requires |xs| == 1
    ensures ExtrinsicsApplied(s, blockNumber, xs).state == ExtrinsicOutcome(s, xs[0]).1
  {
    assert xs == [] + [xs[0]];
    AppliedSnoc(s, blockNumber, [], xs[0]);
  }

  lemma Unroll2(s: State, blockNumber: nat, xs: seq<RuntimeExtrinsic>)
    requires |xs| == 2
    ensures ExtrinsicsApplied(s, blockNumber, xs).state
            == ExtrinsicOutcome(ExtrinsicOutcome(s, xs[0]).1, xs[1]).1
  {
    assert xs == [xs[0]] + [xs[1]];
    AppliedSnoc(s, blockNumber, [xs[0]], xs[1]);
    Unroll1(s, blockNumber, [xs[0]]);
  }

  /** Alice pays Bob 30 and Charlie 20 out of her 100. */
  lemma GenesisOutcome(s: State)
    requires s.blockNumber == 0 && s.claims == map[]
    requires Bal.BalanceIn(s.balances, Alice) == 100
    requires Bal.BalanceIn(s.balances, Bob) == 0 && Bal.BalanceIn(s.balances, Charlie) == 0
    ensures var (r, after) := BlockOutcome(s, Genesis);
            && r == Ok && after.state.claims == map[]
            && Bal.BalanceIn(after.state.balances, Alice) == 50
            && Bal.BalanceIn(after.state.balances, Bob) == 30
            && Bal.BalanceIn(after.state.balances, Charlie) == 20
  {
    Unroll2(s.(blockNumber := 1), 1, Genesis.extrinsics);
  }

  /** Alice and Bob each claim their own book. */
  lemma Block2Outcome(s: State)
    requires s.blockNumber == 1 && s.claims == map[]
    ensures var (r, after) := BlockOutcome(s, Block2);
            && r == Ok && after.state.balances == s.balances
            && after.state.claims == map[AliceContent := Alice, BobContent := Bob]
  {
    Unroll2(s.(blockNumber := 2), 2, Block2.extrinsics);
  }

  /** Alice revokes her claim; Bob's stays. */
  lemma Block3Outcome(s: State)
    requires s.blockNumber == 2 && s.claims == map[AliceContent := Alice, BobContent := Bob]
    ensures var (r, after) := BlockOutcome(s, Block3);
            && r == Ok && after.state.balances == s.balances
            && after.state.claims == map[BobContent := Bob]
  {
    assert AliceContent != BobContent by { assert AliceContent[12] != BobContent[12]; }
    Unroll1(s.(blockNumber := 3), 3, Block3.extrinsics);
    assert map[AliceContent := Alice, BobContent := Bob] - {AliceContent} == map[BobContent := Bob];
  }

  /** Bob's repeated claim fails inside an accepted block and changes no ledger. */
  lemma Block4Outcome(s: State)
    requires s.blockNumber == 3 && s.claims == map[BobContent := Bob]
    ensures var (r, after) := BlockOutcome(s, Block4);
            && r == Ok && after.state.balances == s.balances && after.state.claims == s.claims
            && |after.log| == 1 && after.log[0] == ExtrinsicError(4, 0, Poe.ClaimAlreadyExists)
  {
    Unroll1(s.(blockNumber := 4), 4, Block4.extrinsics);
    assert Block4.extrinsics == [] + [Block4.extrinsics[0]];
    AppliedSnoc(s.(blockNumber := 4), 4, [], Block4.extrinsics[0]);
  }

  method ReplayDemoBlocks() returns (results: seq<DispatchResult>, finalState: State)
    ensures results == [Ok, Ok, Ok, Ok]
    ensures finalState.blockNumber == 4
    ensures Bal.BalanceIn(finalState.balances, Alice) == 50
    ensures Bal.BalanceIn(finalState.balances, Bob) == 30
    ensures Bal.BalanceIn(finalState.balances, Charlie) == 20
    ensures finalState.claims == map[BobContent := Bob]
  {
    var runtime := new Runtime();
    runtime.balances.SetBalance(Alice, 100);
    var r1, r2, r3, r4;
    ghost var log;
    GenesisOutcome(runtime.Abstract());
    r1, log := runtime.ExecuteBlock(Genesis);
    Block2Outcome(runtime.Abstract());
    r2, log := runtime.ExecuteBlock(Block2);
    Block3Outcome(runtime.Abstract());
    r3, log := runtime.ExecuteBlock(Block3);
    Block4Outcome(runtime.Abstract());
    r4, log := runtime.ExecuteBlock(Block4);
    results := [r1, r2, r3, r4];
    finalState := runtime.Abstract();
  }
}
