# Proof-of-existence claim registry

A model of the `poe` pallet of a Substrate node. The pallet keeps one storage map, `Proofs`, from a proof to a claim on it. A proof is an opaque byte vector. A claim is the owner's account id and a block number. Three dispatchable calls change the map:

- `create_claim` records the caller as the owner of an unclaimed proof, at the current block.
- `revoke_claim` lets the owner delete the claim.
- `transfer_claim` lets the owner hand the claim to another account. The stored block becomes the current one.

Every call either succeeds with exactly one change to the map, or fails with one of `ProofOverflow`, `ProofAlreadyClaimed`, `NoSuchProof` or `NotProofOwner` and leaves the map untouched.

The model has four modules:

- `Registry` (registry.dfy) gives the calls as pure transitions on the map. Its lemmas state what a single call does.
- `History` (history.dfy) replays a sequence of calls. Its inductive lemmas state what holds across any sequence: uniqueness until revoked, the length invariant, no claim dated in the future, and that nobody but the owner can disturb a claim.
- `Pallet` (pallet.dfy) is the pallet as a class. Its field `proofs` is the storage map. The methods `CreateClaim`, `RevokeClaim` and `TransferClaim` check their conditions in order, return early on the first error, and otherwise write the map once. Each method's postcondition equates its result and the new map with the `Registry` transition applied to the old map. Its invariant `Valid` says that every stored proof passed the length check.
- `PalletTests` (pallet_tests.dfy) holds the ten unit tests of `pallets/poe/src/tests.rs` as verified scenarios. Each one returns what its test asserts on. `assert_noop!` becomes "the error, and storage before equals storage after".

The pallet's implementation file, `pallets/poe/src/lib.rs`, is not part of this model. The behaviour is rebuilt from what the tests assert. Error names follow the code (`ProofOverflow`, `ProofAlreadyClaimed`, `NoSuchProof`, `NotProofOwner`).

**The length bound at equality.** The test at tests.rs:19-26 expects a proof of length 4 to be rejected. The comment on line 21 says the bound is 4. An inclusive check (`len <= bound`) would accept that proof. So the test and an inclusive check disagree. The model does not choose between them. The comparison is part of the configuration (`LengthCheck`: `Inclusive` or `Exclusive`). Everything except that one test is proved under both readings:

- A proof longer than the bound is always rejected.
- A proof shorter than the bound never overflows.
- At exactly the bound, the proof overflows if and only if the check is `Exclusive` (`BoundaryDependsOnCheck`).
- The scenario for tests.rs:19-26 holds if and only if the check is `Exclusive`.

**The block stored on transfer.** No test advances the block number. So tests.rs:95-98 cannot tell "refresh the block on transfer" apart from "keep the creation block". The model follows the literal assertion: after a transfer, the stored block is the current block passed to the call.

## Model

| member | source | states |
|---|---|---|
| Registry.OverflowRejected | pallets/poe/src/tests.rs:30-37 | a proof longer than the bound is rejected with `ProofOverflow` whatever the registry holds, and the registry is returned unchanged, under either length reading |
| Registry.ShortProofNeverOverflows | pallets/poe/src/tests.rs:7-16 | a proof shorter than the bound (like the 2-byte proof of the test) is never rejected with `ProofOverflow`, under either reading |
| Registry.BoundaryDependsOnCheck | pallets/poe/src/tests.rs:19-26 | a proof whose length equals the bound is rejected with `ProofOverflow` if and only if the bound is exclusive |
| Registry.FailedCallIsNoop | pallets/poe/src/tests.rs:22-123 | every call of every kind that returns an error leaves the registry equal to what it was, which is what `assert_noop!` checks |
| Registry.CallTouchesOnlyItsProof | pallets/poe/src/tests.rs:7-100 | a call neither adds, removes nor alters the entry of any proof other than its own |
| Registry.CreateStoresCallerAndBlock | pallets/poe/src/tests.rs:7-16 | creating a fitting, unclaimed proof succeeds, adds exactly that key, and stores `(caller, current block)` under it |
| Registry.AlreadyClaimedWhoeverCalls | pallets/poe/src/tests.rs:41-50 | on a registry whose stored proofs all pass the length check, creating a proof that is already claimed fails with `ProofAlreadyClaimed` whoever calls, the owner included, and changes nothing |
| Registry.ExistenceCheckedFirst | pallets/poe/src/tests.rs:66-125 | revoking or transferring an absent proof fails with `NoSuchProof` whoever calls, so existence is checked before ownership, and changes nothing |
| Registry.OnlyOwnerMayRevokeOrTransfer | pallets/poe/src/tests.rs:77-113 | on a registered proof, revoke and transfer succeed if and only if the caller is the stored owner; any other caller gets `NotProofOwner` and the registry is unchanged |
| Registry.RevokeRemovesEntry | pallets/poe/src/tests.rs:53-63 | a successful revoke removes exactly the revoked key, so `Proofs::get` then returns `None` |
| Registry.RevokeUndoesCreate | pallets/poe/src/tests.rs:53-63 | create followed by revoke by the same account succeeds and gives back exactly the registry before the create |
| Registry.RevokedProofClaimableAgain | pallets/poe/src/tests.rs:53-63 | after a successful revoke, any account can claim the proof again |
| Registry.TransferReplacesEntry | pallets/poe/src/tests.rs:89-100 | a successful transfer keeps the key set and stores `(dest, current block)` under the proof |
| Registry.ApplyPreservesAllFit | pallets/poe/src/tests.rs:30-37 | every call keeps the invariant that each stored proof passes the length check |
| Registry.ApplyKeepsClaimsNotAfter | pallets/poe/src/tests.rs:95-98 | a call made at a block no later than `t` never stores a block later than `t` |
| History.RunPreservesAllFit | pallets/poe/src/tests.rs:30-37 | after any sequence of calls, every stored proof passes the length check |
| History.RunKeepsClaimsNotAfter | pallets/poe/src/tests.rs:11-14 | after any sequence of calls made at blocks no later than `t`, no stored block number exceeds `t` |
| History.ClaimSurvivesUntilRevoked | pallets/poe/src/tests.rs:41-50 | a claimed proof stays in the registry through any sequence of calls in which no revoke of it succeeds; failed revokes, by non-owners for instance, are allowed |
| History.SecondCreateFailsUntilRevoked | pallets/poe/src/tests.rs:41-50 | once a proof is claimed, a later create of it by any account fails with `ProofAlreadyClaimed` until a revoke of it succeeds, whatever other calls (failed revokes of it included) come in between |
| History.EntryUntouchedWithoutOwner | pallets/poe/src/tests.rs:77-113 | while the owner of a proof makes no call on that proof (calls on other proofs are allowed), its entry (owner and block) stays exactly as it is |
| History.FailedRunIsNoop | pallets/poe/src/tests.rs:22-123 | a sequence of calls that all fail leaves the registry unchanged |
| Pallet.PoeModule.constructor | pallets/poe/src/tests.rs:8 | a fresh test externality starts with an empty `Proofs` map, which satisfies the length invariant |
| Pallet.PoeModule.Get | pallets/poe/src/tests.rs:11-14 | the storage getter returns `None` exactly for an unclaimed proof, and the stored `(owner, block)` otherwise |
| Pallet.PoeModule.CreateClaim | pallets/poe/src/tests.rs:7-50 | checks the length first (`ProofOverflow`), then presence (`ProofAlreadyClaimed`), then inserts `proof -> (who, now)`; the result and new map equal the `Registry` transition, storage is untouched on error, and the length invariant is kept |
| Pallet.PoeModule.RevokeClaim | pallets/poe/src/tests.rs:53-86 | checks existence (`NoSuchProof`), then ownership (`NotProofOwner`), then removes the entry; equals the `Registry` transition and leaves storage untouched on error |
| Pallet.PoeModule.TransferClaim | pallets/poe/src/tests.rs:89-125 | checks existence, then ownership, then overwrites the entry with `(dest, now)`; equals the `Registry` transition and leaves storage untouched on error |
| PalletTests.CreateClaimWorks | pallets/poe/src/tests.rs:7-16 | account 1 claims `[0,1]`: the call succeeds and the getter returns `(1, current block)` |
| PalletTests.CreateClaimFailedWhenProofOverflowNottrue | pallets/poe/src/tests.rs:19-26 | a 4-byte proof against the bound 4 fails with `ProofOverflow` and leaves storage untouched if and only if the bound is exclusive; under an inclusive bound it is stored |
| PalletTests.CreateClaimFailedWhenProofOverflow | pallets/poe/src/tests.rs:30-37 | a 6-byte proof against the bound 4 fails with `ProofOverflow` and storage is unchanged |
| PalletTests.CreateClaimFailedWhenProofAlreadyExist | pallets/poe/src/tests.rs:41-50 | a second claim of `[0,1]` fails with `ProofAlreadyClaimed` and storage is unchanged |
| PalletTests.RevokeClaimWorks | pallets/poe/src/tests.rs:53-63 | the owner revokes `[0,1]`: the call succeeds and the getter then returns `None` |
| PalletTests.RevokeClaimFailedWhenProofNotExist | pallets/poe/src/tests.rs:66-74 | revoking an unclaimed proof fails with `NoSuchProof` and storage is unchanged |
| PalletTests.RevokeClaimFailedWhenNotOwner | pallets/poe/src/tests.rs:77-86 | account 2 revoking account 1's claim fails with `NotProofOwner` and storage is unchanged |
| PalletTests.TransferClaimWorks | pallets/poe/src/tests.rs:89-100 | the owner transfers `[0,1]` to account 2: the call succeeds and the getter returns `(2, current block)` |
| PalletTests.TransferClaimFailedWhenNotOwner | pallets/poe/src/tests.rs:103-113 | account 3 transferring account 1's claim fails with `NotProofOwner` and storage is unchanged |
| PalletTests.TransferClaimFailedWhenProofNotExist | pallets/poe/src/tests.rs:116-125 | transferring an unclaimed proof fails with `NoSuchProof` and storage is unchanged |

## Left out

- Origins and signature checks (`Origin::signed`, `ensure_signed`): the caller is a plain account id that has already been authenticated.
- The runtime clock (`frame_system::Pallet::block_number()`): the current block number is a parameter of each call. The model never advances it.
- The mock runtime and storage externalities (`new_test_ext().execute_with`, `crate::mock`): storage is an in-memory map field, and each scenario starts from a fresh, empty pallet.
- The type-level bound (`BoundedVec`, `ConstU32`), SCALE encoding, events, weights and extrinsic dispatch: the bound is an explicit length check against a configured constant.
- Registry.BoundaryDependsOnCheck: the treatment of a proof whose length equals the bound is left open. It is a configuration choice (`LengthCheck`), because tests.rs:19-26 contradicts an inclusive bound and the pallet's implementation is not part of this model.
- Registry.TransferReplacesEntry: stores the current block, which is the literal assertion of tests.rs:95-98. The tests cannot tell this apart from keeping the creation block, because the block number never moves in them.
