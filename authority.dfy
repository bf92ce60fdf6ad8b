/**
 * The program-derived signing authority: the signer-seed set a call carries
 * when the program's own identity must sign, and the empty set when the
 * signer is a wallet that signed the transaction itself.
 */
module Authority {
  import opened Solana

  /**
   * `&[&[amm_seed, &[nonce]]]`: exactly one signer, whose seeds are the
   * pool's seed followed by the one-byte bump nonce.
   */
  function ProgramSigners(ammSeed: seq<u8>, nonce: u8): (signers: seq<SignerSeeds>)
    ensures |signers| == 1 && |signers[0]| == 2
    ensures signers[0][0] == ammSeed && signers[0][1] == [nonce]
  {
    var authoritySignatureSeeds := [ammSeed, [nonce]];
    [authoritySignatureSeeds]
  }

  /** `&[]`: no program-derived signer. */
  const WalletSigners: seq<SignerSeeds> := []

  /**
   * The two choices never coincide, and the program's signer set determines
   * the seed and nonce it was derived from.
   */
  lemma SignerChoicesDistinct(ammSeed: seq<u8>, nonce: u8, otherSeed: seq<u8>, otherNonce: u8)
    ensures ProgramSigners(ammSeed, nonce) != WalletSigners
    ensures ProgramSigners(ammSeed, nonce) == ProgramSigners(otherSeed, otherNonce)
            <==> ammSeed == otherSeed && nonce == otherNonce
  {
    if ProgramSigners(ammSeed, nonce) == ProgramSigners(otherSeed, otherNonce) {
      assert ProgramSigners(ammSeed, nonce)[0][1][0] == nonce;
      assert ProgramSigners(otherSeed, otherNonce)[0][1][0] == otherNonce;
    }
  }
}
