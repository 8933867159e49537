/**
 * The proof-of-existence claim registry as pure state transitions.
 *
 * The registry maps a proof (an opaque byte vector) to the claim on it: the
 * owning account and the block number at which the claim was made or last
 * transferred. Each of the three calls either succeeds with exactly one change
 * to the map or fails with a named error and returns the map untouched.
 */
module Registry {

  /** The mock runtime's account id and block number are both `u64`. */
  newtype u64 = x: int | 0 <= x < 0x1_0000_0000_0000_0000

  type AccountId = u64
  type BlockNumber = u64
  type Proof = seq<bv8>

  /** The value stored under a proof: (owner, block number). */
  type Claim = (AccountId, BlockNumber)
  type Proofs = map<Proof, Claim>

  datatype Option<T> = None | Some(value: T)

  /** The pallet's error enum. */
  datatype Error = ProofOverflow | ProofAlreadyClaimed | NoSuchProof | NotProofOwner

  /** A dispatch result: `Ok(())` or one of the pallet's errors. */
  datatype Outcome = Ok | Err(error: Error)

  /** What a call returns together with the registry it leaves behind. */
  datatype Step = Step(outcome: Outcome, proofs: Proofs)

  /**
   * How a proof's length is compared with the configured bound. `Inclusive`
   * accepts a proof whose length equals the bound, `Exclusive` rejects it.
   * The two readings differ only at that one length.
   */
  datatype LengthCheck = Inclusive | Exclusive

  datatype Config = Config(maxLen: nat, check: LengthCheck)

  /** The proof is rejected with `ProofOverflow`. */
  predicate TooLong(cfg: Config, proof: Proof) {
    match cfg.check
    case Inclusive => |proof| > cfg.maxLen
    case Exclusive => |proof| >= cfg.maxLen
  }

  /** Registry invariant: every stored proof passed the length check. */
  predicate AllFit(cfg: Config, m: Proofs) {
    forall p :: p in m ==> !TooLong(cfg, p)
  }

  /** Every stored block number is at most `t`. */
  predicate ClaimsNotAfter(m: Proofs, t: BlockNumber) {
    forall p :: p in m ==> m[p].1 <= t
  }

  function CreateClaim(cfg: Config, m: Proofs, who: AccountId, proof: Proof, now: BlockNumber): Step {
    if TooLong(cfg, proof) then Step(Err(ProofOverflow), m)
    else if proof in m then Step(Err(ProofAlreadyClaimed), m)
    else Step(Ok, m[proof := (who, now)])
  }

  function RevokeClaim(m: Proofs, who: AccountId, proof: Proof): Step {
    if proof !in m then Step(Err(NoSuchProof), m)
    else if m[proof].0 != who then Step(Err(NotProofOwner), m)
    else Step(Ok, m - {proof})
  }

  function TransferClaim(m: Proofs, who: AccountId, proof: Proof, dest: AccountId, now: BlockNumber): Step {
    if proof !in m then Step(Err(NoSuchProof), m)
    else if m[proof].0 != who then Step(Err(NotProofOwner), m)
    else Step(Ok, m[proof := (dest, now)])
  }

  /** A signed call to the pallet, `who` being the already-verified origin. */
  datatype Call =
    | Create(who: AccountId, proof: Proof)
    | Revoke(who: AccountId, proof: Proof)
    | Transfer(who: AccountId, proof: Proof, dest: AccountId)

  /** A call dispatched at block `now`. */
  datatype Tx = Tx(call: Call, now: BlockNumber)

  /** Dispatches one call to the matching operation. */
  function Apply(cfg: Config, m: Proofs, tx: Tx): Step {
    match tx.call
    case Create(who, proof) => CreateClaim(cfg, m, who, proof, tx.now)
    case Revoke(who, proof) => RevokeClaim(m, who, proof)
    case Transfer(who, proof, dest) => TransferClaim(m, who, proof, dest, tx.now)
  }

  // ---------------------------------------------------------------------------
  // The length bound
  // ---------------------------------------------------------------------------

  /** A proof strictly longer than the bound is rejected, under either reading, and nothing changes. */
  lemma OverflowRejected(cfg: Config, m: Proofs, who: AccountId, proof: Proof, now: BlockNumber)
    requires |proof| > cfg.maxLen
    ensures CreateClaim(cfg, m, who, proof, now) == Step(Err(ProofOverflow), m)
  {
  }

  /** A proof strictly shorter than the bound never overflows, under either reading. */
  lemma ShortProofNeverOverflows(cfg: Config, m: Proofs, who: AccountId, proof: Proof, now: BlockNumber)
    requires |proof| < cfg.maxLen
    ensures CreateClaim(cfg, m, who, proof, now).outcome != Err(ProofOverflow)
  {
  }

  /** At exactly the bound the outcome depends on the reading: overflow iff `Exclusive`. */
  lemma BoundaryDependsOnCheck(cfg: Config, m: Proofs, who: AccountId, proof: Proof, now: BlockNumber)
    requires |proof| == cfg.maxLen
    ensures CreateClaim(cfg, m, who, proof, now).outcome == Err(ProofOverflow) <==> cfg.check == Exclusive
  {
  }

  // ---------------------------------------------------------------------------
  // One call at a time
  // ---------------------------------------------------------------------------

  /** Every failing call leaves the registry exactly as it was. */
  lemma FailedCallIsNoop(cfg: Config, m: Proofs, tx: Tx)
    ensures Apply(cfg, m, tx).outcome.Err? ==> Apply(cfg, m, tx).proofs == m
  {
  }

  /** A call changes no entry other than the one under its own proof. */
  lemma CallTouchesOnlyItsProof(cfg: Config, m: Proofs, tx: Tx, k: Proof)
    requires k != tx.call.proof
    ensures k in Apply(cfg, m, tx).proofs <==> k in m
    ensures k in m ==> Apply(cfg, m, tx).proofs[k] == m[k]
  {
  }

  /** Creating a fitting, unclaimed proof succeeds and stores `(who, now)` under it. */
  lemma CreateStoresCallerAndBlock(cfg: Config, m: Proofs, who: AccountId, proof: Proof, now: BlockNumber)
    requires !TooLong(cfg, proof) && proof !in m
    ensures CreateClaim(cfg, m, who, proof, now).outcome == Ok
    ensures CreateClaim(cfg, m, who, proof, now).proofs.Keys == m.Keys + {proof}
    ensures CreateClaim(cfg, m, who, proof, now).proofs[proof] == (who, now)
  {
  }

  /** On a registry keeping its length invariant, a claimed proof is refused whoever the caller is, the owner included. */
  lemma AlreadyClaimedWhoeverCalls(cfg: Config, m: Proofs, who: AccountId, proof: Proof, now: BlockNumber)
    requires AllFit(cfg, m) && proof in m
    ensures CreateClaim(cfg, m, who, proof, now) == Step(Err(ProofAlreadyClaimed), m)
  {
  }

  /** Revoke and transfer of an absent proof report `NoSuchProof` whoever calls: existence is checked before ownership. */
  lemma ExistenceCheckedFirst(m: Proofs, who: AccountId, proof: Proof, dest: AccountId, now: BlockNumber)
    requires proof !in m
    ensures RevokeClaim(m, who, proof) == Step(Err(NoSuchProof), m)
    ensures TransferClaim(m, who, proof, dest, now) == Step(Err(NoSuchProof), m)
  {
  }

  /** On a registered proof, revoke and transfer succeed exactly when the caller is the stored owner, and fail with `NotProofOwner` otherwise. */
  lemma OnlyOwnerMayRevokeOrTransfer(m: Proofs, who: AccountId, proof: Proof, dest: AccountId, now: BlockNumber)
    requires proof in m
    ensures RevokeClaim(m, who, proof).outcome == Ok <==> who == m[proof].0
    ensures TransferClaim(m, who, proof, dest, now).outcome == Ok <==> who == m[proof].0
    ensures who != m[proof].0 ==> RevokeClaim(m, who, proof) == Step(Err(NotProofOwner), m)
    ensures who != m[proof].0 ==> TransferClaim(m, who, proof, dest, now) == Step(Err(NotProofOwner), m)
  {
  }

  /** A successful revoke removes the entry, so a later lookup finds nothing. */
  lemma RevokeRemovesEntry(m: Proofs, who: AccountId, proof: Proof)
    requires RevokeClaim(m, who, proof).outcome == Ok
    ensures proof !in RevokeClaim(m, who, proof).proofs
    ensures RevokeClaim(m, who, proof).proofs.Keys == m.Keys - {proof}
  {
  }

  /** Revoking right after creating gives back the registry as it was before the claim. */
  lemma RevokeUndoesCreate(cfg: Config, m: Proofs, who: AccountId, proof: Proof, now: BlockNumber)
    requires !TooLong(cfg, proof) && proof !in m
    ensures RevokeClaim(CreateClaim(cfg, m, who, proof, now).proofs, who, proof) == Step(Ok, m)
  {
  }

  /** Once revoked, the proof is free again: anyone may claim it as if it had never existed. */
  lemma RevokedProofClaimableAgain(cfg: Config, m: Proofs, owner: AccountId, other: AccountId,
                                   proof: Proof, now: BlockNumber)
    requires AllFit(cfg, m)
    requires RevokeClaim(m, owner, proof).outcome == Ok
    ensures CreateClaim(cfg, RevokeClaim(m, owner, proof).proofs, other, proof, now).outcome == Ok
  {
  }

  /** A successful transfer keeps the key set and replaces the entry by `(dest, now)`. */
  lemma TransferReplacesEntry(m: Proofs, who: AccountId, proof: Proof, dest: AccountId, now: BlockNumber)
    requires TransferClaim(m, who, proof, dest, now).outcome == Ok
    ensures TransferClaim(m, who, proof, dest, now).proofs.Keys == m.Keys
    ensures TransferClaim(m, who, proof, dest, now).proofs[proof] == (dest, now)
  {
  }

  /** Every call keeps the invariant that stored proofs pass the length check. */
  lemma ApplyPreservesAllFit(cfg: Config, m: Proofs, tx: Tx)
    requires AllFit(cfg, m)
    ensures AllFit(cfg, Apply(cfg, m, tx).proofs)
  {
  }

  /** A call made at a block no later than `t` records no block later than `t`. */
  lemma ApplyKeepsClaimsNotAfter(cfg: Config, m: Proofs, tx: Tx, t: BlockNumber)
    requires ClaimsNotAfter(m, t) && tx.now <= t
    ensures ClaimsNotAfter(Apply(cfg, m, tx).proofs, t)
  {
  }
}
