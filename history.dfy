/**
 * Sequences of calls. The runtime dispatches calls one after another, each
 * completing before the next starts; `Run` replays such a sequence against the
 * registry, and the lemmas here state what holds across any sequence.
 */
module History {
  import opened Registry

  /** The registry after dispatching `txs` in order, starting from `m`. */
  function Run(cfg: Config, m: Proofs, txs: seq<Tx>): Proofs
    decreases |txs|
  {
    if txs == [] then m else Run(cfg, Apply(cfg, m, txs[0]).proofs, txs[1..])
  }

  predicate RevokesProof(tx: Tx, p: Proof) {
    tx.call.Revoke? && tx.call.proof == p
  }

  /** No call in `txs`, dispatched in order from `m`, is a revoke of `p` that succeeds. */
  predicate NoRevokeSucceeds(cfg: Config, m: Proofs, txs: seq<Tx>, p: Proof)
    decreases |txs|
  {
    txs == [] ||
    (!(RevokesProof(txs[0], p) && Apply(cfg, m, txs[0]).outcome == Ok) &&
     NoRevokeSucceeds(cfg, Apply(cfg, m, txs[0]).proofs, txs[1..], p))
  }

  /** The invariant that every stored proof passes the length check holds after any sequence of calls. */
  lemma {:induction false} RunPreservesAllFit(cfg: Config, m: Proofs, txs: seq<Tx>)
    requires AllFit(cfg, m)
    ensures AllFit(cfg, Run(cfg, m, txs))
    decreases |txs|
  {
    if txs != [] {
      ApplyPreservesAllFit(cfg, m, txs[0]);
      RunPreservesAllFit(cfg, Apply(cfg, m, txs[0]).proofs, txs[1..]);
    }
  }

  /** With calls made at blocks no later than `t`, no stored block number lies beyond `t`. */
  lemma {:induction false} RunKeepsClaimsNotAfter(cfg: Config, m: Proofs, txs: seq<Tx>, t: BlockNumber)
    requires ClaimsNotAfter(m, t)
    requires forall i :: 0 <= i < |txs| ==> txs[i].now <= t
    ensures ClaimsNotAfter(Run(cfg, m, txs), t)
    decreases |txs|
  {
    if txs != [] {
      ApplyKeepsClaimsNotAfter(cfg, m, txs[0], t);
      RunKeepsClaimsNotAfter(cfg, Apply(cfg, m, txs[0]).proofs, txs[1..], t);
    }
  }

  /** A claimed proof stays claimed through any sequence of calls in which no revoke of it succeeds. */
  lemma {:induction false} ClaimSurvivesUntilRevoked(cfg: Config, m: Proofs, txs: seq<Tx>, p: Proof)
    requires p in m
    requires NoRevokeSucceeds(cfg, m, txs, p)
    ensures p in Run(cfg, m, txs)
    decreases |txs|
  {
    if txs != [] {
      var next := Apply(cfg, m, txs[0]).proofs;
      if txs[0].call.proof != p {
        CallTouchesOnlyItsProof(cfg, m, txs[0], p);
      }
      assert p in next;
      ClaimSurvivesUntilRevoked(cfg, next, txs[1..], p);
    }
  }

  /**
   * Uniqueness: once a proof is claimed, a fresh `create_claim` of it by any
   * account fails with `ProofAlreadyClaimed` until a revoke of it succeeds.
   */
  lemma SecondCreateFailsUntilRevoked(cfg: Config, m: Proofs, txs: seq<Tx>, p: Proof,
                                      anyone: AccountId, now: BlockNumber)
    requires AllFit(cfg, m) && p in m
    requires NoRevokeSucceeds(cfg, m, txs, p)
    ensures CreateClaim(cfg, Run(cfg, m, txs), anyone, p, now).outcome == Err(ProofAlreadyClaimed)
  {
    RunPreservesAllFit(cfg, m, txs);
    ClaimSurvivesUntilRevoked(cfg, m, txs, p);
  }

  /** As long as its owner makes no call on it, nobody can revoke, transfer or overwrite a claim. */
  lemma {:induction false} EntryUntouchedWithoutOwner(cfg: Config, m: Proofs, txs: seq<Tx>, p: Proof)
    requires p in m
    requires forall i :: 0 <= i < |txs| && txs[i].call.proof == p ==> txs[i].call.who != m[p].0
    ensures p in Run(cfg, m, txs) && Run(cfg, m, txs)[p] == m[p]
    decreases |txs|
  {
    if txs != [] {
      var next := Apply(cfg, m, txs[0]).proofs;
      if txs[0].call.proof != p {
        CallTouchesOnlyItsProof(cfg, m, txs[0], p);
      }
      assert p in next && next[p] == m[p];
      EntryUntouchedWithoutOwner(cfg, next, txs[1..], p);
    }
  }

  /** A sequence of calls every one of which fails leaves the registry unchanged. */
  lemma {:induction false} FailedRunIsNoop(cfg: Config, m: Proofs, txs: seq<Tx>)
    requires forall i :: 0 <= i < |txs| ==> Apply(cfg, m, txs[i]).outcome.Err?
    ensures Run(cfg, m, txs) == m
    decreases |txs|
  {
    if txs != [] {
      FailedCallIsNoop(cfg, m, txs[0]);
      FailedRunIsNoop(cfg, m, txs[1..]);
    }
  }
}
