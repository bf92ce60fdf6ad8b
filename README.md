# Raydium AMM cross-program invokers and event logs, modelled in Dafny

This project models two parts of the Raydium AMM on-chain program.

1. **The invokers** (`program/src/invokers.rs`). Each wrapper composes one cross-program call to the token program, the associated-token-account program or the OpenBook/Serum order-book venue. A wrapper does four things:
   - it chooses the signer seeds: `[amm_seed, [nonce]]` when the pool's program-derived authority signs, and none when a wallet signs;
   - it asks a library builder for the instruction and propagates the builder's error with `?`;
   - it lays out the account handles in a fixed order, appending an optional referral or referrer only when one is present;
   - it makes exactly one `invoke_signed` call and returns that call's result unchanged.
2. **The event logs** (`program/src/log.rs`). This part covers:
   - the `LogType` <-> `u8` codec;
   - the `check_assert_eq!` key check;
   - the five event records and their serialized layout, where `log_type` always comes first;
   - the first-byte dispatch of `decode_ray_log`;
   - the output-buffer sizing of `encode_ray_log`.

Modules, one per component:

- `Wrappers`: `Option` and `Result`.
- `Solana`: fixed-width integers, `Pubkey` (32 bytes), `AccountInfo {key, isSigner, isWritable}`, `AccountMeta` with `AccountMeta::new` / `new_readonly`, `ProgramError`, and signer seeds.
- `Dex`: the venue's `Side`, `OrderType`, `SelfTradeBehavior`, `NewOrderInstructionV3`, `MarketInstruction` and `Instruction`.
- `Cpi`: the operation descriptors (one constructor for each library builder the invokers call), the `Call` record `(descriptor, accounts, signers)`, and the class `Runtime`.
  - `Runtime` keeps the trace of calls made. `InvokeSigned` appends to that trace.
  - `Runtime` has two opaque oracles. `buildError` stands for the library builders, which may reject a descriptor. `respond` stands for the called program's answer.
  - `SuppliedAt(c, slots)` ties each address the descriptor names to the position of its account handle among those passed. The runtime resolves instruction accounts by key, so every named address must be passed.
- `Authority`: the two signer-seed choices.
- `Invokers`: for each wrapper, a function `...Call` giving the call it makes, and a method that builds the list (pushing the optional account in place) and dispatches.
  - Each method's contract says the trace grows by exactly that call and the result is the runtime's answer.
  - On a builder error, the method returns the error and the trace is unchanged.
- `RayLog`: the log codec, the record layouts (bincode's fixed-width little-endian struct layout: fields in declaration order, `Pubkey` as 32 raw bytes), the decoder and the encoder's buffer handling.

Where the specification and the code differ, the model follows the code:

- The code never derives an address. It only builds the seed set `[amm_seed, [nonce]]` and hands it to the runtime, so no `derive` operation is modelled.
- The account handles passed to `invoke_signed` are matched to the instruction by key, not by position. The create-ATA wrapper passes them in a different order from the one its instruction lists. The model therefore states each wrapper's exact order as the code writes it, and separately proves that every address the descriptor names is supplied.
- `replace_order_by_client_id` cannot fail: it always returns `Ok`. The `?` after it at `program/src/invokers.rs:451` therefore never returns early, and the replace wrapper always dispatches.

## Model

| member | source | states |
|---|---|---|
| `Cpi.Runtime.InvokeSigned` | program/src/invokers.rs:91-95 | one call `(descriptor, accounts, signers)` is appended to the trace; the result is the called program's answer, unchanged |
| `Cpi.AtMostOneDispatch` | program/src/invokers.rs:82-95 | a wrapper's effect is at most one call, appended after earlier calls; the call is made exactly when the builder accepts the descriptor; on a builder error the trace is unchanged and that error is returned |
| `Cpi.SuppliedAtSupplies` | program/src/invokers.rs:82-95 | a placement of the descriptor's addresses among the passed accounts shows that no address the instruction names is missing |
| `Authority.ProgramSigners` | program/src/invokers.rs:107-108 | exactly one signer, whose seeds are `amm_seed` then the one-byte nonce |
| `Authority.SignerChoicesDistinct` | program/src/invokers.rs:107-108 | the program's signer set is never the empty (wallet-signed) set, and it determines its seed and nonce |
| `Invokers.OptionalKeyOf` | program/src/invokers.rs:422-425 | the optional key is present exactly when the optional account is, and is that account's key |
| `Invokers.CreateAtaCall` | program/src/invokers.rs:54-72 | 7 accounts starting with the associated account; no signer seeds; funding, wallet, mint and token program are accounts 1-4 |
| `Invokers.CreateAtaSplToken` | program/src/invokers.rs:45-73 | no builder error is possible; exactly the `CreateAtaCall` call is made and its result returned |
| `Invokers.BurnCall` | program/src/invokers.rs:82-95 | accounts `[burn_account, mint, authority, token_program]`; the amount and signer set as given; every address the burn names is passed |
| `Invokers.TokenBurn` | program/src/invokers.rs:75-96 | builder error returned before any call; otherwise one burn call with no signer seeds |
| `Invokers.CloseCall` | program/src/invokers.rs:107-121 | accounts `[close_account, destination, authority, token_program]`; program signer seeds; every named address passed |
| `Invokers.TokenCloseWithAuthority` | program/src/invokers.rs:99-122 | builder error returned before any call; otherwise exactly the `CloseCall` call |
| `Invokers.TokenBurnWithAuthority` | program/src/invokers.rs:125-150 | builder error returned before any call; otherwise one burn call with the program's signer seeds |
| `Invokers.MintToCall` | program/src/invokers.rs:162-177 | accounts `[mint, destination, authority, token_program]`; the amount as given; program signer seeds; every named address passed |
| `Invokers.TokenMintTo` | program/src/invokers.rs:153-178 | builder error returned before any call; otherwise exactly the `MintToCall` call |
| `Invokers.TransferCall` | program/src/invokers.rs:188-200 | accounts `[source, destination, owner/authority, token_program]`; the amount and signer set as given; every named address passed |
| `Invokers.TokenTransfer` | program/src/invokers.rs:181-201 | builder error returned before any call; otherwise one transfer call with no signer seeds |
| `Invokers.TokenTransferWithAuthority` | program/src/invokers.rs:222-246 | builder error returned before any call; otherwise one transfer call with the program's signer seeds |
| `Invokers.SetAuthorityCall` | program/src/invokers.rs:257-267 | accounts `[account, authority, token_program]`; the new authority travels as data (`Some(key)`); the authority type as given; signer seeds built from `authority_nonce` |
| `Invokers.TokenSetAuthority` | program/src/invokers.rs:248-268 | builder error returned before any call; otherwise exactly the `SetAuthorityCall` call |
| `Invokers.InitOpenOrdersCall` | program/src/invokers.rs:280-298 | accounts `[dex, open_orders, owner, market, rent_sysvar]`; no market authority; program signer seeds; every named address passed |
| `Invokers.InvokeDexInitOpenOrders` | program/src/invokers.rs:271-299 | builder error returned before any call; otherwise exactly the `InitOpenOrdersCall` call |
| `Invokers.CloseOpenOrdersCall` | program/src/invokers.rs:310-327 | accounts `[dex, open_orders, owner, destination, market]`, which are exactly the descriptor's addresses in order; program signer seeds |
| `Invokers.InvokeDexCloseOpenOrders` | program/src/invokers.rs:301-328 | builder error returned before any call; otherwise exactly the `CloseOpenOrdersCall` call |
| `Invokers.OrderPayload` | program/src/invokers.rs:442-450 | side, limit price, quantities, order type, client id and limit are carried unchanged; self-trade is fixed to `CancelProvide` and `max_ts` to `i64::MAX` |
| `Invokers.ReplaceOrderByClientId` | program/src/invokers.rs:330-391 | always `Ok`; program id is the dex id given; 12 metas in the venue's order plus the referral when given; only the open-orders owner signs; all writable except the owner, the token program and the rent sysvar (and the referral); payload fields unchanged |
| `Invokers.OrderAccounts` | program/src/invokers.rs:453-470 | 13 accounts from `dex_program` to `rent_account`, then the referral last only when present (13 or 14 in all) |
| `Invokers.NewOrderCall` | program/src/invokers.rs:538-588 | accounts are `OrderAccounts` and exactly the descriptor's addresses in order; fixed-policy payload; referral key present exactly with the referral; program signer seeds |
| `Invokers.InvokeDexNewOrderV3` | program/src/invokers.rs:509-589 | builder error returned before any call; otherwise exactly the `NewOrderCall` call |
| `Invokers.ReplaceOrderCall` | program/src/invokers.rs:419-472 | accounts are `OrderAccounts`, and their keys are the instruction's program id followed by its metas' keys; fixed-policy payload; program signer seeds |
| `Invokers.InvokeDexReplaceOrderByClientId` | program/src/invokers.rs:393-473 | the call is always made (the local builder cannot fail); exactly the `ReplaceOrderCall` call |
| `Invokers.NewOrderAndReplaceAgree` | program/src/invokers.rs:569-586 | new-order and replace pass the same accounts, signer seeds and order payload, and their instructions name the same addresses |
| `Invokers.CancelAccounts` | program/src/invokers.rs:620-628 | the 7 accounts `[dex, market, bids, asks, open_orders, owner, event_q]` |
| `Invokers.CancelOrderCall` | program/src/invokers.rs:606-629 | accounts are `CancelAccounts` and exactly the descriptor's addresses in order; side and order id as given; program signer seeds |
| `Invokers.InvokeDexCancelOrderV2` | program/src/invokers.rs:592-630 | builder error returned before any call; otherwise exactly the `CancelOrderCall` call |
| `Invokers.CancelByClientIdsCall` | program/src/invokers.rs:644-668 | the same 7 accounts as cancel-order; the ids as given, always 8 slots; program signer seeds |
| `Invokers.InvokeDexCancelOrdersByClientOrderIds` | program/src/invokers.rs:633-669 | builder error returned before any call; otherwise exactly the `CancelByClientIdsCall` call |
| `Invokers.SettleFundsAccounts` | program/src/invokers.rs:732-746 | exactly 10 accounts `[dex, market, open_orders, owner, coin_vault, pc_vault, coin_wallet, pc_wallet, vault_signer, token_program]` without a referrer, 11 with one, and the referrer last |
| `Invokers.SettleFundsCall` | program/src/invokers.rs:710-747 | accounts are `SettleFundsAccounts`; the referrer key is present exactly with the referrer; program signer seeds; each named address is at its stated position |
| `Invokers.InvokeDexSettleFunds` | program/src/invokers.rs:695-748 | builder error returned before any call; otherwise exactly the `SettleFundsCall` call |
| `RayLog.CheckAssertEq` | program/src/log.rs:41-47 | returns the given error exactly when the two values differ, otherwise falls through |
| `RayLog.IntoU8` | program/src/log.rs:101-109 | every type's code is in 0..4 |
| `RayLog.FromU8` | program/src/log.rs:90-99 | defined for codes 0..4 only; the type returned encodes back to the code |
| `RayLog.LogTypeRoundTrip` | program/src/log.rs:90-109 | `from_u8(into_u8(t)) == t`, and `into_u8` is injective |
| `RayLog.LeRoundTrip` | program/src/log.rs:236 | a little-endian integer field of width `n` reads back as the value written |
| `RayLog.DecodeEncodeFields` | program/src/log.rs:236 | serialized fields read back as themselves, whatever bytes follow them |
| `RayLog.RecordShape` | program/src/log.rs:117-221 | each record's declared field types in order, with `log_type: u8` first |
| `RayLog.RecordSizes` | program/src/log.rs:117-221 | serialized sizes 75 (Init), 105 (Deposit), 89 (Withdraw), 57 (SwapBaseIn, SwapBaseOut) |
| `RayLog.FromFields` | program/src/log.rs:262-279 | a record rebuilt from its type's fields is of that type |
| `RayLog.FieldsRebuild` | program/src/log.rs:117-221 | each record's fields follow its type's layout and rebuild the record |
| `RayLog.Serialize` | program/src/log.rs:236 | the serialized record has its type's fixed size and starts with its `log_type` byte |
| `RayLog.DecodeRayLog` | program/src/log.rs:258-282 | dispatch on the first byte (0..4 only); succeeds exactly when the input is long enough for that record; the decoded record has that type and that `log_type` |
| `RayLog.DecodeSerialized` | program/src/log.rs:258-282 | a record whose `log_type` holds its own code decodes back to itself |
| `RayLog.BufferHoldsBase64` | program/src/log.rs:238 | `n * 4 / 3 + 4` is at least the padded base64 length `4 * ceil(n / 3)` |
| `RayLog.Resize` | program/src/log.rs:238-241 | `Vec::resize`: the new length, the old prefix kept, new slots filled |
| `RayLog.EncodeRayLog` | program/src/log.rs:234-245 | the encoder's output fits the first buffer; after the second resize the buffer is exactly the bytes written; the log line fits `LOG_SIZE` |
| `RayLog.LogLineFits` | program/src/log.rs:244 | `"ray_log: "` plus every record's encoding fits in 256 characters |

## Left out

- What `invoke_signed` does (balances, ownership checks, order matching, rent reclaim) happens inside other programs. Its result is the opaque oracle `Runtime.respond`.
- The library builders (`spl_token::instruction::*`, `spl_associated_token_account::instruction::*`, `serum_dex::instruction::*`) are library code. They are the opaque oracle `Runtime.buildError`; which descriptors they reject is not modelled.
- `MarketInstruction::pack` is library code. The instruction's data is kept as the unpacked `MarketInstruction`.
- The empty multisig signer list (`&[]`) every token builder receives is a constant and is not modelled.
- `AccountInfo`'s lamports, data, owner and `Rc`/`RefCell` sharing are never read by this code and are not modelled.
- Program-derived address derivation and signature checks are done by the runtime, from the seeds passed.
- `log_keys_mismatch`, `msg!`, `arrform!`, `println!` and `from_utf8_unchecked` are I/O and formatting.
  - `CheckAssertEq`: does not produce the mismatch message that the macro logs before returning.
  - `EncodeRayLog`: returns the encoded buffer instead of emitting the log line.
- Base64 (the `base64` crate) is a library. `EncodeRayLog` takes the encoder as a parameter, and requires only that its output has the padded length of section 4 of RFC 4648.
  - `DecodeRayLog`: starts from the decoded bytes; the base64 decoding and its `unwrap` panic are not modelled.
- Bincode (the `bincode` crate) is a library. The model writes out its fixed-width little-endian struct layout instead.
  - `DecodeRayLog`: models bincode's decoding only for the five record layouts, and maps the `unwrap` panic on a short input to `None`.
- `DescriptorKeys`: places an optional account (referral, referrer) last. The settle-funds builder takes the referrer before the vault signer.
- `program/src/lib.rs` (module declarations, `security_txt!`, `declare_id!`) and `program/src/entrypoint.rs` (hands off to `Processor`, which is not part of this model) are not modelled.
