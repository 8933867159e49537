/**
 * The pallet's unit tests as verified scenarios. Each starts from a fresh
 * pallet with the test bound of 4, dispatches the same calls as the test at
 * the same block `now`, and returns what the test asserts on. Since it is not
 * known whether a proof of exactly the bound's length is accepted, every
 * scenario takes the length reading as a parameter and holds under both,
 * except the one test whose verdict depends on it.
 */
module PalletTests {
  import opened Registry
  import opened Pallet

  /** The mock runtime's configuration: proofs are bounded by 4. */
  function TestConfig(check: LengthCheck): Config {
    Config(4, check)
  }

  method CreateClaimWorks(check: LengthCheck, now: BlockNumber) returns (r: Outcome, stored: Option<Claim>)
    ensures r == Ok
    ensures stored == Some((1, now))
  {
    var poe := new PoeModule(TestConfig(check));
    r := poe.CreateClaim(1, [0, 1], now);
    stored := poe.Get([0, 1]);
  }

  /**
   * A proof of length 4 against the bound 4: rejected with `ProofOverflow`
   * and storage untouched only if the bound is exclusive; under an inclusive
   * bound the claim is stored instead.
   */
  method CreateClaimFailedWhenProofOverflowNottrue(check: LengthCheck, now: BlockNumber)
    returns (r: Outcome, before: Proofs, after: Proofs)
    ensures r == Err(ProofOverflow) <==> check == Exclusive
    ensures check == Exclusive ==> after == before
    ensures check == Inclusive ==> r == Ok && after == before[[0, 1, 2, 3] := (1, now)]
  {
    var poe := new PoeModule(TestConfig(check));
    before := poe.proofs;
    r := poe.CreateClaim(1, [0, 1, 2, 3], now);
    after := poe.proofs;
  }

  method CreateClaimFailedWhenProofOverflow(check: LengthCheck, now: BlockNumber)
    returns (r: Outcome, before: Proofs, after: Proofs)
    ensures r == Err(ProofOverflow)
    ensures after == before
  {
    var poe := new PoeModule(TestConfig(check));
    before := poe.proofs;
    r := poe.CreateClaim(1, [0, 1, 2, 3, 4, 5], now);
    after := poe.proofs;
  }

  method CreateClaimFailedWhenProofAlreadyExist(check: LengthCheck, now: BlockNumber)
    returns (r: Outcome, before: Proofs, after: Proofs)
    ensures r == Err(ProofAlreadyClaimed)
    ensures after == before
  {
    var poe := new PoeModule(TestConfig(check));
    var _ := poe.CreateClaim(1, [0, 1], now);
    before := poe.proofs;
    r := poe.CreateClaim(1, [0, 1], now);
    after := poe.proofs;
  }

  method RevokeClaimWorks(check: LengthCheck, now: BlockNumber) returns (r: Outcome, stored: Option<Claim>)
    ensures r == Ok
    ensures stored == None
  {
    var poe := new PoeModule(TestConfig(check));
    var _ := poe.CreateClaim(1, [0, 1], now);
    r := poe.RevokeClaim(1, [0, 1]);
    stored := poe.Get([0, 1]);
  }

  method RevokeClaimFailedWhenProofNotExist(check: LengthCheck) returns (r: Outcome, before: Proofs, after: Proofs)
    ensures r == Err(NoSuchProof)
    ensures after == before
  {
    var poe := new PoeModule(TestConfig(check));
    before := poe.proofs;
    r := poe.RevokeClaim(1, [0, 1]);
    after := poe.proofs;
  }

  method RevokeClaimFailedWhenNotOwner(check: LengthCheck, now: BlockNumber)
    returns (r: Outcome, before: Proofs, after: Proofs)
    ensures r == Err(NotProofOwner)
    ensures after == before
  {
    var poe := new PoeModule(TestConfig(check));
    var _ := poe.CreateClaim(1, [0, 1], now);
    before := poe.proofs;
    r := poe.RevokeClaim(2, [0, 1]);
    after := poe.proofs;
  }

  method TransferClaimWorks(check: LengthCheck, now: BlockNumber) returns (r: Outcome, stored: Option<Claim>)
    ensures r == Ok
    ensures stored == Some((2, now))
  {
    var poe := new PoeModule(TestConfig(check));
    var _ := poe.CreateClaim(1, [0, 1], now);
    var dest: AccountId := 2;
    r := poe.TransferClaim(1, [0, 1], dest, now);
    stored := poe.Get([0, 1]);
  }

  method TransferClaimFailedWhenNotOwner(check: LengthCheck, now: BlockNumber)
    returns (r: Outcome, before: Proofs, after: Proofs)
    ensures r == Err(NotProofOwner)
    ensures after == before
  {
    var poe := new PoeModule(TestConfig(check));
    var _ := poe.CreateClaim(1, [0, 1], now);
    var dest: AccountId := 2;
    before := poe.proofs;
    r := poe.TransferClaim(3, [0, 1], dest, now);
    after := poe.proofs;
  }

  method TransferClaimFailedWhenProofNotExist(check: LengthCheck, now: BlockNumber)
    returns (r: Outcome, before: Proofs, after: Proofs)
    ensures r == Err(NoSuchProof)
    ensures after == before
  {
    var poe := new PoeModule(TestConfig(check));
    var dest: AccountId := 2;
    before := poe.proofs;
    r := poe.TransferClaim(1, [0, 1], dest, now);
    after := poe.proofs;
  }
}
