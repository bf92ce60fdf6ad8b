/**
 * The pieces of the Solana program interface that the invokers handle:
 * fixed-width integers, public keys, account handles, account metadata
 * and program errors.
 */
module Solana {
  import opened Wrappers

  newtype u8 = x: int | 0 <= x < 0x100
  newtype u16 = x: int | 0 <= x < 0x1_0000
  newtype u32 = x: int | 0 <= x < 0x1_0000_0000
  newtype u64 = x: int | 0 <= x < 0x1_0000_0000_0000_0000
  newtype u128 = x: int | 0 <= x < 0x1_0000_0000_0000_0000_0000_0000_0000_0000
  newtype i64 = x: int | -0x8000_0000_0000_0000 <= x < 0x8000_0000_0000_0000

  /** Rust's `i64::MAX`. */
  const I64_MAX: i64 := 0x7fff_ffff_ffff_ffff

  /** Rust's `NonZeroU64`. */
  type NonZeroU64 = x: u64 | x != 0 witness 1

  /** A 32-byte ed25519 public key. */
  type Pubkey = s: seq<u8> | |s| == 32 witness seq(32, _ => 0)

  /**
   * The part of `AccountInfo` this layer looks at: the account's address and
   * the two flags the runtime attaches to it. Lamports, data and owner live in
   * the runtime and are never read here.
   */
  datatype AccountInfo = AccountInfo(key: Pubkey, isSigner: bool, isWritable: bool)

  /** An instruction's view of one account: its address and the access it asks for. */
  datatype AccountMeta = AccountMeta(pubkey: Pubkey, isSigner: bool, isWritable: bool)

  /** `AccountMeta::new`: a writable account. */
  function NewMeta(pubkey: Pubkey, isSigner: bool): (m: AccountMeta)
    ensures m.pubkey == pubkey && m.isSigner == isSigner && m.isWritable
  {
    AccountMeta(pubkey, isSigner, true)
  }

  /** `AccountMeta::new_readonly`: a read-only account. */
  function NewReadonlyMeta(pubkey: Pubkey, isSigner: bool): (m: AccountMeta)
    ensures m.pubkey == pubkey && m.isSigner == isSigner && !m.isWritable
  {
    AccountMeta(pubkey, isSigner, false)
  }

  /** An error raised by a library builder or returned by a called program; its reason is opaque here. */
  datatype ProgramError = ProgramError(reason: nat)

  /** Solana's `ProgramResult`. */
  type ProgramResult = Result<(), ProgramError>

  /** The seeds of one program-derived signer, replayed in place of a signature. */
  type SignerSeeds = seq<seq<u8>>
}
