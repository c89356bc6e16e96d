# rust-state-machine in Dafny

A model of a minimal blockchain-style state-transition runtime. Three pallets
(independent state modules) each own a slice of the state:

- **System**: the current block number and a nonce per account (absent = 0).
- **Balances**: a balance per account (absent = 0), an unsigned 128-bit value,
  and a `transfer` that checks funds and overflow before writing anything.
- **Proof of existence**: a ledger from content to the single account that
  has claimed it, with owner-only revocation.

The **runtime** owns one instance of each pallet. `dispatch` routes a
`RuntimeCall` to the pallet that owns it; `execute_block` advances the block
number, rejects a block whose header carries a different number, and then, for
each extrinsic in order, advances the caller's nonce and dispatches the call,
carrying on past failed calls.

Files, one module each: `support.dfy` (`Support`: `Option`, `DispatchResult`,
`Header`, `Extrinsic`, `Block`), `system.dfy` (`System`), `balances.dfy`
(`Balances`), `proof_of_existence.dfy` (`ProofOfExistence`), `runtime.dfy`
(`Runtime`) and `demo.dfy` (`Demo`, the four blocks of the demonstration
driver replayed).

Each pallet is a class whose fields are Dafny maps, mirroring the Rust structs
and their `BTreeMap`s. Its state-changing methods are proved against a pure
"outcome" function on the map (`TransferOutcome`, `CreateClaimOutcome`,
`RevokeClaimOutcome`, `NonceIncremented`) that returns the result together
with the new map. The properties are stated and proved about those functions.
The `Runtime` class does the same with the `State` datatype: `Abstract()` reads
the three pallets, `ExecuteBlock`'s loop is proved against the fold
`ExtrinsicsApplied`, and the executor lemmas are about that fold.

Concrete types follow `src/main.rs:8-18`: `AccountID` and `Content` are
`string`; `Balance` is an integer in `0 .. 2^128 - 1`; block numbers and nonces
are `nat`. Errors are `Err` values carrying the exact messages of the source.
`src/support.rs` is not part of this model. `Header`, `Extrinsic` and `Block`
are defined only from how `src/main.rs` uses them: a header with a
`block_number`, an extrinsic with a `caller` and a `call`, and a block with a
header and a sequence of extrinsics.

A successful
transfer keeps the sum of the two balances only when the caller and the
recipient are different accounts. A self-transfer that passes both checks reads
the balance twice, then writes `balance - amount` and then `balance + amount`.
The second write wins, so the account gains `amount`. `TransferOutcome` states
this behaviour, and the conservation lemmas require `caller != to`.

## Model

| member | source | states |
|---|---|---|
| System.NonceIncremented | src/system.rs:41-46 | after `inc_nonce(who)` the entry of `who` exists and equals its old nonce (zero if absent) plus one, so an absent account gets 1; every other account's nonce is unchanged; the key set gains only `who` |
| System.RepeatedIncrements | src/system.rs:41-46 | `n` successive `inc_nonce(who)` raise `who`'s nonce by exactly `n` and leave every other account's nonce as it was |
| System.RepeatedIncrementsFromAbsent | src/system.rs:41-46 | starting from no entry, `n` calls of `inc_nonce(who)` leave the nonce at `n` |
| System.Pallet.constructor | src/system.rs:25-27 | a new System pallet has block number 0 and an empty nonce map |
| System.Pallet.BlockNumber | src/system.rs:30-32 | returns the stored block number and changes nothing |
| System.Pallet.IncBlockNumber | src/system.rs:35-37 | the block number rises by exactly one; the nonce map is untouched |
| System.Pallet.IncNonce | src/system.rs:41-46 | the nonce map becomes `NonceIncremented` of the old one; the block number is untouched |
| Balances.CheckedSub | src/balances.rs:47 | `checked_sub` on `u128`: defined exactly when the subtrahend is at most the minuend, and then it is the true difference |
| Balances.CheckedAdd | src/balances.rs:48 | `checked_add` on `u128`: defined exactly when the sum is at most 2^128 - 1, and then it is the true sum |
| Balances.TransferOutcome | src/balances.rs:38-54 | success exactly when the caller has at least `amount` and the recipient's balance plus `amount` fits in `u128`; insufficient funds gives `Err("Not enough funds")` with the ledger unchanged, and this check wins when both fail; otherwise overflow gives `Err("Amount is too large")` with the ledger unchanged; on success with distinct accounts the caller loses `amount`, the recipient gains it and their sum is preserved; a successful self-transfer leaves the balance at old plus `amount`; every other account is unchanged; on success both entries exist |
| Balances.TransferShiftsTotal | src/balances.rs:47-51 | for any list of distinct accounts, a successful transfer between two different accounts lowers the list's total by `amount` if it holds the caller and raises it by `amount` if it holds the recipient |
| Balances.TransferConservesTotal | src/balances.rs:47-51 | a successful transfer between two different accounts of a closed group leaves the group's total balance unchanged |
| Balances.Pallet.constructor | src/balances.rs:20-22 | a new Balances pallet has an empty ledger, so every balance reads as zero |
| Balances.Pallet.SetBalance | src/balances.rs:25-27 | afterwards `who`'s balance is `amount` and every other account's balance is unchanged |
| Balances.Pallet.Balance | src/balances.rs:31-33 | returns the stored balance, or zero for an account never written, and changes nothing |
| Balances.Pallet.Transfer | src/balances.rs:38-54 | result and new ledger are those of `TransferOutcome` on the old ledger: both checks run on balances read before any write, and nothing is written unless both pass |
| Balances.Pallet.Dispatch | src/balances.rs:69-76 | dispatching `Call::Transfer{to, amount}` for `caller` has the same result and effect as `transfer(caller, to, amount)` |
| ProofOfExistence.ClaimOf | src/proof_of_existence.rs:29-34 | the owner lookup is `Some(owner)` exactly when the content is in the ledger, with the stored owner, and `None` otherwise |
| ProofOfExistence.CreateClaimOutcome | src/proof_of_existence.rs:38-46 | success exactly when the content is unclaimed, and then its owner is the caller; on claimed content `Err("Claim already exists")` with the ledger unchanged, whoever the caller is; no other content's owner changes |
| ProofOfExistence.RevokeClaimOutcome | src/proof_of_existence.rs:51-62 | success exactly when the caller is the current owner, and then the entry is removed entirely; unclaimed content gives `Err("Claim does not exist")`, a non-owner gets `Err("Not the owner")`, both with the ledger unchanged; no other content's owner changes |
| ProofOfExistence.ClaimBlocksLaterCreate | src/proof_of_existence.rs:36-46 | after `create_claim(x, c)` succeeds, `create_claim(y, c)` fails with `Err("Claim already exists")` for every `y`, and `x` remains the owner |
| ProofOfExistence.Pallet.constructor | src/proof_of_existence.rs:24-26 | a new pallet has an empty claim ledger |
| ProofOfExistence.Pallet.GetClaim | src/proof_of_existence.rs:29-34 | returns the owner lookup of the content and changes nothing |
| ProofOfExistence.Pallet.CreateClaim | src/proof_of_existence.rs:38-46 | result and new ledger are those of `CreateClaimOutcome` on the old ledger |
| ProofOfExistence.Pallet.RevokeClaim | src/proof_of_existence.rs:51-62 | result and new ledger are those of `RevokeClaimOutcome` on the old ledger |
| Runtime.DispatchOutcome | src/main.rs:89-112 | dispatch never changes the block number or the nonces; a failed dispatch leaves the whole state unchanged; `Balances::Transfer` acts only on the balance ledger and gives exactly `transfer`'s result with the extrinsic's caller; `CreateClaim`/`RevokeClaim` act only on the claim ledger and give exactly the pallet's result with the caller embedded in the call |
| Runtime.ClaimCallsIgnoreOuterCaller | src/main.rs:98-108 | for a proof-of-existence call the outcome of dispatch is the same whichever account is the extrinsic's caller |
| Runtime.ExtrinsicOutcome | src/main.rs:67-75 | one extrinsic keeps the block number and increments the caller's nonce whatever the outcome; when its dispatch fails, that nonce increment is its only effect |
| Runtime.ExtrinsicsApplied | src/main.rs:67-75 | applying extrinsics keeps the block number; every reported failure carries the block number and an index inside the block, and reports appear in increasing index order |
| Runtime.FailuresLogged | src/main.rs:67-75 | the failure log is exact: extrinsic `i` has a record exactly when its dispatch, on the state the earlier extrinsics left, fails; that record is the only one with index `i` and carries the block number and that dispatch's error |
| Runtime.BlockOutcome | src/main.rs:61-78 | the block number always rises by exactly one; the result is `Ok` exactly when the header's number equals the new block number, whatever the extrinsics' outcomes; otherwise it is `Err("The imported block number doesn't match the current's")`, no extrinsic is applied and no nonce, balance or claim changes |
| Runtime.ExtrinsicsAdvanceNonces | src/main.rs:67-68 | after applying a sequence of extrinsics, each account's nonce has grown by exactly the number of them whose outer caller it is |
| Runtime.BlockAdvancesNonces | src/main.rs:61-77 | after an accepted block, every account's nonce has grown by the number of the block's extrinsics it sent; accounts that sent none keep their nonce |
| Runtime.AppliedSnoc | src/main.rs:67-75 | applying one more extrinsic is a single further step from the state the earlier ones left |
| Runtime.ExtrinsicsCompose | src/main.rs:67-75 | extrinsics apply strictly in order: applying `xs + ys` equals applying `ys` to the state left by `xs` |
| Runtime.ClaimSurvives | src/main.rs:67-75 | a claim keeps its owner through any sequence of extrinsics none of which is that owner's revocation of it |
| Runtime.Runtime.constructor | src/main.rs:52-58 | a new runtime has block number 0 and empty nonce, balance and claim ledgers, in three fresh pallets |
| Runtime.Runtime.Dispatch | src/main.rs:89-112 | the pallets' new state and the result are those of `DispatchOutcome`; the System pallet is outside its frame |
| Runtime.Runtime.ExecuteBlock | src/main.rs:61-78 | the result, the new state of all three pallets and the failure log are those of `BlockOutcome` on the old state |
| Demo.GenesisOutcome | src/main.rs:124-142 | the first demonstration block is accepted and leaves alice 50, bob 30 and charlie 20 out of alice's 100 |
| Demo.Block2Outcome | src/main.rs:144-162 | the second block is accepted and records alice's and bob's claims |
| Demo.Block3Outcome | src/main.rs:164-173 | the third block is accepted and removes alice's claim, keeping bob's |
| Demo.Block4Outcome | src/main.rs:175-184 | the fourth block is accepted although its one extrinsic fails with `Err("Claim already exists")`; that failure is the single reported error, and the balance and claim ledgers are unchanged (bob's nonce still advances) |
| Demo.ReplayDemoBlocks | src/main.rs:115-189 | executing the four demonstration blocks on a fresh runtime returns `Ok` four times and ends at block 4 with the balances and claims above |

## Left out

- `main` in `src/main.rs:115-192` builds blocks by hand and prints the runtime's `Debug` form. Console output is not modelled. Its four blocks are replayed in `Demo`.
- The `eprintln!` diagnostic for a failed extrinsic (`src/main.rs:69-74`) is console output. It is modelled as the ghost log of `ExtrinsicError` records that `ExecuteBlock` returns.
- The generic `Config` traits and the `num` trait bounds (`src/system.rs:7-11`, `src/balances.rs:9-11`, `src/proof_of_existence.rs:6-11`) are compile-time polymorphism. The model uses the concrete types the runtime picks instead.
- System.Pallet.IncBlockNumber: the block number is a `nat`, not the runtime's `u32`, so the overflow of `+=` (a panic or a wrap, depending on the build profile) is not modelled.
- System.Pallet.IncNonce: the nonce is a `nat`, not the runtime's `u32`, so the overflow of `+` is not modelled.
- `#[derive(Debug)]` formatting and the `'static` lifetime of `Content` have no counterpart in the model.
- `src/support.rs` is not part of this model. The `Dispatch` trait is modelled only through the two `Dispatch` methods that implement it.
- Moving values into calls and cloning account identifiers carry no meaning for values, so the model does not represent them.
