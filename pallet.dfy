/**
 * The `poe` pallet with its `Proofs` storage map as a mutable field. Each
 * dispatchable checks its conditions in order, returns the first error it
 * meets without touching storage, and otherwise writes the map once.
 */
module Pallet {
  import opened Registry

  class PoeModule {
    /** The configured proof-length bound and how it is compared. */
    const cfg: Config
    /** The `Proofs` storage map: proof -> (owner, block number). */
    var proofs: Proofs

    ghost predicate Valid()
      reads this
    {
      AllFit(cfg, proofs)
    }

    /** Genesis: the storage map starts empty. */
    constructor (cfg: Config)
      ensures this.cfg == cfg && proofs == map[]
      ensures Valid()
    {
      this.cfg := cfg;
      proofs := map[];
    }

    /** The storage getter `Proofs::get`: `None` for an unclaimed proof, the stored claim otherwise. */
    function Get(proof: Proof): (r: Option<Claim>)
      reads this
      ensures r == None <==> proof !in proofs
      ensures r.Some? ==> proof in proofs && r.value == proofs[proof]
    {
      if proof in proofs then Some(proofs[proof]) else None
    }

    method CreateClaim(who: AccountId, proof: Proof, now: BlockNumber) returns (r: Outcome)
      requires Valid()
      modifies this`proofs
      ensures Valid()
      ensures Step(r, proofs) == Registry.CreateClaim(cfg, old(proofs), who, proof, now)
      ensures r.Err? ==> proofs == old(proofs)
    {
      if TooLong(cfg, proof) {
        return Err(ProofOverflow);
      }
      if proof in proofs {
        return Err(ProofAlreadyClaimed);
      }
      proofs := proofs[proof := (who, now)];
      r := Ok;
    }

    method RevokeClaim(who: AccountId, proof: Proof) returns (r: Outcome)
      requires Valid()
      modifies this`proofs
      ensures Valid()
      ensures Step(r, proofs) == Registry.RevokeClaim(old(proofs), who, proof)
      ensures r.Err? ==> proofs == old(proofs)
    {
      if proof !in proofs {
        return Err(NoSuchProof);
      }
      var (owner, _) := proofs[proof];
      if owner != who {
        return Err(NotProofOwner);
      }
      proofs := proofs - {proof};
      r := Ok;
    }

    method TransferClaim(who: AccountId, proof: Proof, dest: AccountId, now: BlockNumber) returns (r: Outcome)
      requires Valid()
      modifies this`proofs
      ensures Valid()
      ensures Step(r, proofs) == Registry.TransferClaim(old(proofs), who, proof, dest, now)
      ensures r.Err? ==> proofs == old(proofs)
    {
      if proof !in proofs {
        return Err(NoSuchProof);
      }
      var (owner, _) := proofs[proof];
      if owner != who {
        return Err(NotProofOwner);
      }
      proofs := proofs[proof := (dest, now)];
      r := Ok;
    }
  }
}
