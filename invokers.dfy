/**
 * The invokers: one wrapper per external operation. Each wrapper picks the
 * signer seeds, asks the library builder for the operation's descriptor
 * (propagating its error with `?`), lays out the account handles in the
 * order the called program expects, appends an optional account only when
 * it is present, and makes exactly one `invoke_signed` call whose result it
 * returns unchanged.
 *
 * For every wrapper a function `...Call` gives the call it makes; the
 * wrapper method's contract says that this call, and no other, is made.
 */
module Invokers {
  import opened Wrappers
  import opened Solana
  import opened Dex
  import opened Cpi
  import opened Authority

  /** The list with the optional account appended when it is present. */
  function WithOptional(accounts: seq<AccountInfo>, extra: Option<AccountInfo>): (r: seq<AccountInfo>)
    ensures |r| == |accounts| + (if extra.Some? then 1 else 0) && r[..|accounts|] == accounts
    ensures extra.Some? ==> r[|accounts|] == extra.value
  {
    if extra.Some? then accounts + [extra.value] else accounts
  }

  /** The key of an optional account handle. */
  function OptionalKeyOf(account: Option<AccountInfo>): (k: Option<Pubkey>)
    ensures k.Some? <==> account.Some?
    ensures k.Some? ==> k.value == account.value.key
  {
    if account.Some? then Some(account.value.key) else None
  }

  // ---------------------------------------------------------------------
  // Token custody
  // ---------------------------------------------------------------------

  /** The call `create_ata_spl_token` makes. */
  function CreateAtaCall(associatedAccount: AccountInfo, fundingAccount: AccountInfo, walletAccount: AccountInfo,
                         tokenMintAccount: AccountInfo, tokenProgramAccount: AccountInfo,
                         ataProgramAccount: AccountInfo, systemProgramAccount: AccountInfo): (c: Call)
    ensures c.accounts == [associatedAccount, fundingAccount, walletAccount, tokenMintAccount,
                           tokenProgramAccount, ataProgramAccount, systemProgramAccount]
    ensures c.signers == WalletSigners
    ensures SuppliedAt(c, [1, 2, 3, 4])
  {
    Call(CreateAtaIx(fundingAccount.key, walletAccount.key, tokenMintAccount.key, tokenProgramAccount.key),
         [associatedAccount, fundingAccount, walletAccount, tokenMintAccount,
          tokenProgramAccount, ataProgramAccount, systemProgramAccount],
         WalletSigners)
  }

  /**
   * `create_ata_spl_token`. Its builder returns an instruction, not a
   * `Result`, so nothing can fail before the call.
   */
  method CreateAtaSplToken(rt: Runtime, associatedAccount: AccountInfo, fundingAccount: AccountInfo,
                           walletAccount: AccountInfo, tokenMintAccount: AccountInfo,
                           tokenProgramAccount: AccountInfo, ataProgramAccount: AccountInfo,
                           systemProgramAccount: AccountInfo)
    returns (r: ProgramResult)
    modifies rt
    ensures rt.Dispatched(old(rt.trace), CreateAtaCall(associatedAccount, fundingAccount, walletAccount,
                                                       tokenMintAccount, tokenProgramAccount,
                                                       ataProgramAccount, systemProgramAccount), r)
  {
    var ix := CreateAtaIx(fundingAccount.key, walletAccount.key, tokenMintAccount.key, tokenProgramAccount.key);
    r := rt.InvokeSigned(ix, [associatedAccount, fundingAccount, walletAccount, tokenMintAccount,
                              tokenProgramAccount, ataProgramAccount, systemProgramAccount], WalletSigners);
  }

  /** The call a burn makes, signed by `signers`. */
  function BurnCall(tokenProgram: AccountInfo, burnAccount: AccountInfo, mint: AccountInfo, authority: AccountInfo,
                    burnAmount: u64, signers: seq<SignerSeeds>): (c: Call)
    ensures c.accounts == [burnAccount, mint, authority, tokenProgram]
    ensures c.descriptor.BurnIx? && c.descriptor.amount == burnAmount
    ensures c.signers == signers
    ensures SuppliedAt(c, [3, 0, 1, 2])
  {
    Call(BurnIx(tokenProgram.key, burnAccount.key, mint.key, authority.key, burnAmount),
         [burnAccount, mint, authority, tokenProgram], signers)
  }

  /** `token_burn`: the owner is a wallet that signed the transaction. */
  method TokenBurn(rt: Runtime, tokenProgram: AccountInfo, burnAccount: AccountInfo, mint: AccountInfo,
                   owner: AccountInfo, burnAmount: u64)
    returns (r: ProgramResult)
    modifies rt
    ensures rt.BuiltThenDispatched(old(rt.trace), BurnCall(tokenProgram, burnAccount, mint, owner, burnAmount,
                                                           WalletSigners), r)
  {
    var ix := BurnIx(tokenProgram.key, burnAccount.key, mint.key, owner.key, burnAmount);
    var built := rt.buildError(ix);
    if built.Some? {
      return Err(built.value);
    }
    r := rt.InvokeSigned(ix, [burnAccount, mint, owner, tokenProgram], WalletSigners);
  }

  /** The call `token_close_with_authority` makes. */
  function CloseCall(tokenProgram: AccountInfo, closeAccount: AccountInfo, destinationAccount: AccountInfo,
                     authority: AccountInfo, ammSeed: seq<u8>, nonce: u8): (c: Call)
    ensures c.accounts == [closeAccount, destinationAccount, authority, tokenProgram]
    ensures c.signers == ProgramSigners(ammSeed, nonce)
    ensures SuppliedAt(c, [3, 0, 1, 2])
  {
    Call(CloseAccountIx(tokenProgram.key, closeAccount.key, destinationAccount.key, authority.key),
         [closeAccount, destinationAccount, authority, tokenProgram], ProgramSigners(ammSeed, nonce))
  }

  /** `token_close_with_authority`: the authority is the program's own identity. */
  method TokenCloseWithAuthority(rt: Runtime, tokenProgram: AccountInfo, closeAccount: AccountInfo,
                                 destinationAccount: AccountInfo, authority: AccountInfo,
                                 ammSeed: seq<u8>, nonce: u8)
    returns (r: ProgramResult)
    modifies rt
    ensures rt.BuiltThenDispatched(old(rt.trace), CloseCall(tokenProgram, closeAccount, destinationAccount,
                                                            authority, ammSeed, nonce), r)
  {
    var signers := ProgramSigners(ammSeed, nonce);
    var ix := CloseAccountIx(tokenProgram.key, closeAccount.key, destinationAccount.key, authority.key);
    var built := rt.buildError(ix);
    if built.Some? {
      return Err(built.value);
    }
    r := rt.InvokeSigned(ix, [closeAccount, destinationAccount, authority, tokenProgram], signers);
  }

  /** `token_burn_with_authority`: the authority is the program's own identity. */
  method TokenBurnWithAuthority(rt: Runtime, tokenProgram: AccountInfo, burnAccount: AccountInfo, mint: AccountInfo,
                                authority: AccountInfo, ammSeed: seq<u8>, nonce: u8, burnAmount: u64)
    returns (r: ProgramResult)
    modifies rt
    ensures rt.BuiltThenDispatched(old(rt.trace), BurnCall(tokenProgram, burnAccount, mint, authority, burnAmount,
                                                           ProgramSigners(ammSeed, nonce)), r)
  {
    var signers := ProgramSigners(ammSeed, nonce);
    var ix := BurnIx(tokenProgram.key, burnAccount.key, mint.key, authority.key, burnAmount);
    var built := rt.buildError(ix);
    if built.Some? {
      return Err(built.value);
    }
    r := rt.InvokeSigned(ix, [burnAccount, mint, authority, tokenProgram], signers);
  }

  /** The call `token_mint_to` makes. */
  function MintToCall(tokenProgram: AccountInfo, mint: AccountInfo, destination: AccountInfo, authority: AccountInfo,
                      ammSeed: seq<u8>, nonce: u8, amount: u64): (c: Call)
    ensures c.accounts == [mint, destination, authority, tokenProgram]
    ensures c.descriptor.MintToIx? && c.descriptor.amount == amount
    ensures c.signers == ProgramSigners(ammSeed, nonce)
    ensures SuppliedAt(c, [3, 0, 1, 2])
  {
    Call(MintToIx(tokenProgram.key, mint.key, destination.key, authority.key, amount),
         [mint, destination, authority, tokenProgram], ProgramSigners(ammSeed, nonce))
  }

  /** `token_mint_to`: the mint authority is the program's own identity. */
  method TokenMintTo(rt: Runtime, tokenProgram: AccountInfo, mint: AccountInfo, destination: AccountInfo,
                     authority: AccountInfo, ammSeed: seq<u8>, nonce: u8, amount: u64)
    returns (r: ProgramResult)
    modifies rt
    ensures rt.BuiltThenDispatched(old(rt.trace), MintToCall(tokenProgram, mint, destination, authority,
                                                             ammSeed, nonce, amount), r)
  {
    var signers := ProgramSigners(ammSeed, nonce);
    var ix := MintToIx(tokenProgram.key, mint.key, destination.key, authority.key, amount);
    var built := rt.buildError(ix);
    if built.Some? {
      return Err(built.value);
    }
    r := rt.InvokeSigned(ix, [mint, destination, authority, tokenProgram], signers);
  }

  /** The call a transfer makes, signed by `signers`. */
  function TransferCall(tokenProgram: AccountInfo, source: AccountInfo, destination: AccountInfo,
                        authority: AccountInfo, amount: u64, signers: seq<SignerSeeds>): (c: Call)
    ensures c.accounts == [source, destination, authority, tokenProgram]
    ensures c.descriptor.TransferIx? && c.descriptor.amount == amount
    ensures c.signers == signers
    ensures SuppliedAt(c, [3, 0, 1, 2])
  {
    Call(TransferIx(tokenProgram.key, source.key, destination.key, authority.key, amount),
         [source, destination, authority, tokenProgram], signers)
  }

  /** `token_transfer`: the owner is a wallet that signed the transaction. */
  method TokenTransfer(rt: Runtime, tokenProgram: AccountInfo, source: AccountInfo, destination: AccountInfo,
                       owner: AccountInfo, depositAmount: u64)
    returns (r: ProgramResult)
    modifies rt
    ensures rt.BuiltThenDispatched(old(rt.trace), TransferCall(tokenProgram, source, destination, owner,
                                                               depositAmount, WalletSigners), r)
  {
    var ix := TransferIx(tokenProgram.key, source.key, destination.key, owner.key, depositAmount);
    var built := rt.buildError(ix);
    if built.Some? {
      return Err(built.value);
    }
    r := rt.InvokeSigned(ix, [source, destination, owner, tokenProgram], WalletSigners);
  }

  /** `token_transfer_with_authority`: the authority is the program's own identity. */
  method TokenTransferWithAuthority(rt: Runtime, tokenProgram: AccountInfo, source: AccountInfo,
                                    destination: AccountInfo, authority: AccountInfo,
                                    ammSeed: seq<u8>, nonce: u8, amount: u64)
    returns (r: ProgramResult)
    modifies rt
    ensures rt.BuiltThenDispatched(old(rt.trace), TransferCall(tokenProgram, source, destination, authority,
                                                               amount, ProgramSigners(ammSeed, nonce)), r)
  {
    var signers := ProgramSigners(ammSeed, nonce);
    var ix := TransferIx(tokenProgram.key, source.key, destination.key, authority.key, amount);
    var built := rt.buildError(ix);
    if built.Some? {
      return Err(built.value);
    }
    r := rt.InvokeSigned(ix, [source, destination, authority, tokenProgram], signers);
  }

  /**
   * The call `token_set_authority` makes. The new authority is carried in
   * the instruction data, so it is not among the accounts.
   */
  function SetAuthorityCall(tokenProgram: AccountInfo, account: AccountInfo, authority: AccountInfo,
                            newAuthority: AccountInfo, ammSeed: seq<u8>, authorityNonce: u8,
                            authorityType: AuthorityType): (c: Call)
    ensures c.accounts == [account, authority, tokenProgram]
    ensures c.descriptor.SetAuthorityIx? && c.descriptor.newAuthority == Some(newAuthority.key)
    ensures c.descriptor.authorityType == authorityType
    ensures c.signers == ProgramSigners(ammSeed, authorityNonce)
    ensures SuppliedAt(c, [2, 0, 1])
  {
    Call(SetAuthorityIx(tokenProgram.key, account.key, Some(newAuthority.key), authorityType, authority.key),
         [account, authority, tokenProgram], ProgramSigners(ammSeed, authorityNonce))
  }

  /** `token_set_authority`, signed with `authority_nonce`. */
  method TokenSetAuthority(rt: Runtime, tokenProgram: AccountInfo, account: AccountInfo, authority: AccountInfo,
                           newAuthority: AccountInfo, ammSeed: seq<u8>, authorityNonce: u8,
                           authorityType: AuthorityType)
    returns (r: ProgramResult)
    modifies rt
    ensures rt.BuiltThenDispatched(old(rt.trace), SetAuthorityCall(tokenProgram, account, authority, newAuthority,
                                                                   ammSeed, authorityNonce, authorityType), r)
  {
    var signers := ProgramSigners(ammSeed, authorityNonce);
    var ix := SetAuthorityIx(tokenProgram.key, account.key, Some(newAuthority.key), authorityType, authority.key);
    var built := rt.buildError(ix);
    if built.Some? {
      return Err(built.value);
    }
    r := rt.InvokeSigned(ix, [account, authority, tokenProgram], signers);
  }

  // ---------------------------------------------------------------------
  // Order book: open-orders lifecycle
  // ---------------------------------------------------------------------

  /**
   * The call `invoke_dex_init_open_orders` makes. The builder fixes the rent
   * sysvar itself; the handle passed for it is the fifth account.
   */
  function InitOpenOrdersCall(dexProgram: AccountInfo, openOrders: AccountInfo, openOrdersOwner: AccountInfo,
                              market: AccountInfo, rentSysvar: AccountInfo, ammSeed: seq<u8>, nonce: u8): (c: Call)
    ensures c.accounts == [dexProgram, openOrders, openOrdersOwner, market, rentSysvar]
    ensures c.descriptor.InitOpenOrdersIx? && c.descriptor.marketAuthority.None?
    ensures c.signers == ProgramSigners(ammSeed, nonce)
    ensures SuppliedAt(c, [0, 1, 2, 3])
  {
    Call(InitOpenOrdersIx(dexProgram.key, openOrders.key, openOrdersOwner.key, market.key, None),
         [dexProgram, openOrders, openOrdersOwner, market, rentSysvar], ProgramSigners(ammSeed, nonce))
  }

  /** `invoke_dex_init_open_orders`. */
  method InvokeDexInitOpenOrders(rt: Runtime, dexProgram: AccountInfo, openOrders: AccountInfo,
                                 openOrdersOwner: AccountInfo, market: AccountInfo, rentSysvar: AccountInfo,
                                 ammSeed: seq<u8>, nonce: u8)
    returns (r: ProgramResult)
    modifies rt
    ensures rt.BuiltThenDispatched(old(rt.trace), InitOpenOrdersCall(dexProgram, openOrders, openOrdersOwner,
                                                                     market, rentSysvar, ammSeed, nonce), r)
  {
    var signers := ProgramSigners(ammSeed, nonce);
    var ix := InitOpenOrdersIx(dexProgram.key, openOrders.key, openOrdersOwner.key, market.key, None);
    var built := rt.buildError(ix);
    if built.Some? {
      return Err(built.value);
    }
    var accounts := [dexProgram, openOrders, openOrdersOwner, market, rentSysvar];
    r := rt.InvokeSigned(ix, accounts, signers);
  }

  /** The call `invoke_dex_close_open_orders` makes. */
  function CloseOpenOrdersCall(dexProgram: AccountInfo, openOrders: AccountInfo, openOrdersOwner: AccountInfo,
                               destination: AccountInfo, market: AccountInfo, ammSeed: seq<u8>, nonce: u8): (c: Call)
    ensures c.accounts == [dexProgram, openOrders, openOrdersOwner, destination, market]
    ensures c.signers == ProgramSigners(ammSeed, nonce)
    ensures AccountKeys(c.accounts) == DescriptorKeys(c.descriptor)
  {
    Call(CloseOpenOrdersIx(dexProgram.key, openOrders.key, openOrdersOwner.key, destination.key, market.key),
         [dexProgram, openOrders, openOrdersOwner, destination, market], ProgramSigners(ammSeed, nonce))
  }

  /** `invoke_dex_close_open_orders`. */
  method InvokeDexCloseOpenOrders(rt: Runtime, dexProgram: AccountInfo, openOrders: AccountInfo,
                                  openOrdersOwner: AccountInfo, destination: AccountInfo, market: AccountInfo,
                                  ammSeed: seq<u8>, nonce: u8)
    returns (r: ProgramResult)
    modifies rt
    ensures rt.BuiltThenDispatched(old(rt.trace), CloseOpenOrdersCall(dexProgram, openOrders, openOrdersOwner,
                                                                      destination, market, ammSeed, nonce), r)
  {
    var signers := ProgramSigners(ammSeed, nonce);
    var ix := CloseOpenOrdersIx(dexProgram.key, openOrders.key, openOrdersOwner.key, destination.key, market.key);
    var built := rt.buildError(ix);
    if built.Some? {
      return Err(built.value);
    }
    var accounts := [dexProgram, openOrders, openOrdersOwner, destination, market];
    r := rt.InvokeSigned(ix, accounts, signers);
  }

  // ---------------------------------------------------------------------
  // Order book: placing and replacing orders
  // ---------------------------------------------------------------------

  /**
   * The payload both order wrappers send: the caller's order parameters
   * unchanged, with self-trade fixed to `CancelProvide` and no expiry
   * (`max_ts = i64::MAX`).
   */
  function OrderPayload(side: Side, limitPrice: NonZeroU64, maxCoinQty: NonZeroU64,
                        maxNativePcQtyIncludingFees: NonZeroU64, orderType: OrderType, clientOrderId: u64,
                        limit: u16): (o: NewOrderInstructionV3)
    ensures o.side == side && o.limitPrice == limitPrice && o.maxCoinQty == maxCoinQty
    ensures o.orderType == orderType && o.clientOrderId == clientOrderId && o.limit == limit
    ensures o.maxNativePcQtyIncludingFees == maxNativePcQtyIncludingFees
    ensures o.selfTradeBehavior == CancelProvide && o.maxTs == I64_MAX
  {
    NewOrderInstructionV3(side, limitPrice, maxCoinQty, orderType, clientOrderId, CancelProvide, limit,
                          maxNativePcQtyIncludingFees, I64_MAX)
  }

  /**
   * `replace_order_by_client_id`: the venue instruction built locally. Twelve
   * account metas in the venue's order, all writable and non-signing except
   * the open-orders owner (read-only signer), the token program and the rent
   * sysvar (read-only); the referral, when given, is appended read-only. The
   * order parameters are carried unchanged, and building never fails.
   */
  function ReplaceOrderByClientId(market: Pubkey, openOrdersAccount: Pubkey, requestQueue: Pubkey,
                                  eventQueue: Pubkey, marketBids: Pubkey, marketAsks: Pubkey, orderPayer: Pubkey,
                                  openOrdersAccountOwner: Pubkey, coinVault: Pubkey, pcVault: Pubkey,
                                  splTokenProgramId: Pubkey, rentSysvarId: Pubkey,
                                  srmAccountReferral: Option<Pubkey>, programId: Pubkey,
                                  side: Side, limitPrice: NonZeroU64, maxCoinQty: NonZeroU64, orderType: OrderType,
                                  clientOrderId: u64, selfTradeBehavior: SelfTradeBehavior, limit: u16,
                                  maxNativePcQtyIncludingFees: NonZeroU64, maxTs: i64)
    : (r: Result<Instruction, DexError>)
    ensures r.Ok?
    ensures r.value.programId == programId
    ensures r.value.data == MarketInstruction.ReplaceOrderByClientId(
              NewOrderInstructionV3(side, limitPrice, maxCoinQty, orderType, clientOrderId, selfTradeBehavior,
                                    limit, maxNativePcQtyIncludingFees, maxTs))
    ensures |r.value.accounts| == if srmAccountReferral.Some? then 13 else 12
    ensures MetaKeys(r.value.accounts) ==
            [market, openOrdersAccount, requestQueue, eventQueue, marketBids, marketAsks, orderPayer,
             openOrdersAccountOwner, coinVault, pcVault, splTokenProgramId, rentSysvarId]
            + OptionalKey(srmAccountReferral)
    ensures forall i :: 0 <= i < |r.value.accounts| ==> r.value.accounts[i].isSigner == (i == 7)
    ensures forall i :: 0 <= i < |r.value.accounts| ==>
              r.value.accounts[i].isWritable == (i < 12 && i != 7 && i != 10 && i != 11)
  {
    var data := MarketInstruction.ReplaceOrderByClientId(
      NewOrderInstructionV3(side, limitPrice, maxCoinQty, orderType, clientOrderId, selfTradeBehavior,
                            limit, maxNativePcQtyIncludingFees, maxTs));
    var accounts := [
      NewMeta(market, false),
      NewMeta(openOrdersAccount, false),
      NewMeta(requestQueue, false),
      NewMeta(eventQueue, false),
      NewMeta(marketBids, false),
      NewMeta(marketAsks, false),
      NewMeta(orderPayer, false),
      NewReadonlyMeta(openOrdersAccountOwner, true),
      NewMeta(coinVault, false),
      NewMeta(pcVault, false),
      NewReadonlyMeta(splTokenProgramId, false),
      NewReadonlyMeta(rentSysvarId, false)
    ];
    var accounts := if srmAccountReferral.Some?
                    then accounts + [NewReadonlyMeta(srmAccountReferral.value, false)]
                    else accounts;
    Ok(Instruction(programId, accounts, data))
  }

  /**
   * The accounts both order wrappers pass: the thirteen handles from the
   * venue program to the rent sysvar, then the referral when present.
   */
  function OrderAccounts(dexProgram: AccountInfo, market: AccountInfo, openOrders: AccountInfo, reqQ: AccountInfo,
                         eventQ: AccountInfo, bids: AccountInfo, asks: AccountInfo, payer: AccountInfo,
                         openOrdersOwner: AccountInfo, coinVault: AccountInfo, pcVault: AccountInfo,
                         tokenProgram: AccountInfo, rentAccount: AccountInfo,
                         srmAccountReferral: Option<AccountInfo>): (accounts: seq<AccountInfo>)
    ensures |accounts| == if srmAccountReferral.Some? then 14 else 13
    ensures accounts[..13] == [dexProgram, market, openOrders, reqQ, eventQ, bids, asks, payer, openOrdersOwner,
                               coinVault, pcVault, tokenProgram, rentAccount]
    ensures srmAccountReferral.Some? ==> accounts[13] == srmAccountReferral.value
    ensures AccountKeys(accounts) ==
            [dexProgram.key, market.key, openOrders.key, reqQ.key, eventQ.key, bids.key, asks.key, payer.key,
             openOrdersOwner.key, coinVault.key, pcVault.key, tokenProgram.key, rentAccount.key]
            + OptionalKey(OptionalKeyOf(srmAccountReferral))
  {
    WithOptional([dexProgram, market, openOrders, reqQ, eventQ, bids, asks, payer, openOrdersOwner,
                  coinVault, pcVault, tokenProgram, rentAccount], srmAccountReferral)
  }

  /** The call `invoke_dex_new_order_v3` makes. */
  function NewOrderCall(dexProgram: AccountInfo, market: AccountInfo, openOrders: AccountInfo, reqQ: AccountInfo,
                        eventQ: AccountInfo, bids: AccountInfo, asks: AccountInfo, payer: AccountInfo,
                        openOrdersOwner: AccountInfo, coinVault: AccountInfo, pcVault: AccountInfo,
                        tokenProgram: AccountInfo, rentAccount: AccountInfo,
                        srmAccountReferral: Option<AccountInfo>, ammSeed: seq<u8>, nonce: u8,
                        side: Side, limitPrice: NonZeroU64, maxCoinQty: NonZeroU64,
                        maxNativePcQtyIncludingFees: NonZeroU64, orderType: OrderType, clientOrderId: u64,
                        limit: u16): (c: Call)
    ensures c.accounts == OrderAccounts(dexProgram, market, openOrders, reqQ, eventQ, bids, asks, payer,
                                        openOrdersOwner, coinVault, pcVault, tokenProgram, rentAccount,
                                        srmAccountReferral)
    ensures c.descriptor.NewOrderIx?
    ensures c.descriptor.order == OrderPayload(side, limitPrice, maxCoinQty, maxNativePcQtyIncludingFees,
                                               orderType, clientOrderId, limit)
    ensures c.descriptor.referral == OptionalKeyOf(srmAccountReferral)
    ensures c.signers == ProgramSigners(ammSeed, nonce)
    ensures AccountKeys(c.accounts) == DescriptorKeys(c.descriptor)
  {
    Call(NewOrderIx(market.key, openOrders.key, reqQ.key, eventQ.key, bids.key, asks.key, payer.key,
                    openOrdersOwner.key, coinVault.key, pcVault.key, tokenProgram.key, rentAccount.key,
                    OptionalKeyOf(srmAccountReferral), dexProgram.key,
                    OrderPayload(side, limitPrice, maxCoinQty, maxNativePcQtyIncludingFees, orderType,
                                 clientOrderId, limit)),
         OrderAccounts(dexProgram, market, openOrders, reqQ, eventQ, bids, asks, payer, openOrdersOwner,
                       coinVault, pcVault, tokenProgram, rentAccount, srmAccountReferral),
         ProgramSigners(ammSeed, nonce))
  }

  /** `invoke_dex_new_order_v3`. */
  method InvokeDexNewOrderV3(rt: Runtime, dexProgram: AccountInfo, market: AccountInfo, openOrders: AccountInfo,
                             reqQ: AccountInfo, eventQ: AccountInfo, bids: AccountInfo, asks: AccountInfo,
                             payer: AccountInfo, openOrdersOwner: AccountInfo, coinVault: AccountInfo,
                             pcVault: AccountInfo, tokenProgram: AccountInfo, rentAccount: AccountInfo,
                             srmAccountReferral: Option<AccountInfo>, ammSeed: seq<u8>, nonce: u8,
                             side: Side, limitPrice: NonZeroU64, maxCoinQty: NonZeroU64,
                             maxNativePcQtyIncludingFees: NonZeroU64, orderType: OrderType, clientOrderId: u64,
                             limit: u16)
    returns (r: ProgramResult)
    modifies rt
    ensures rt.BuiltThenDispatched(old(rt.trace),
              NewOrderCall(dexProgram, market, openOrders, reqQ, eventQ, bids, asks, payer, openOrdersOwner,
                           coinVault, pcVault, tokenProgram, rentAccount, srmAccountReferral, ammSeed, nonce,
                           side, limitPrice, maxCoinQty, maxNativePcQtyIncludingFees, orderType,
                           clientOrderId, limit), r)
  {
    var signers := ProgramSigners(ammSeed, nonce);
    var srmAccountReferralKey: Option<Pubkey> := None;
    if srmAccountReferral.Some? {
      srmAccountReferralKey := Some(srmAccountReferral.value.key);
    }
    var ix := NewOrderIx(market.key, openOrders.key, reqQ.key, eventQ.key, bids.key, asks.key, payer.key,
                         openOrdersOwner.key, coinVault.key, pcVault.key, tokenProgram.key, rentAccount.key,
                         srmAccountReferralKey, dexProgram.key,
                         NewOrderInstructionV3(side, limitPrice, maxCoinQty, orderType, clientOrderId,
                                               CancelProvide, limit, maxNativePcQtyIncludingFees, I64_MAX));
    var built := rt.buildError(ix);
    if built.Some? {
      return Err(built.value);
    }
    var accounts := [dexProgram, market, openOrders, reqQ, eventQ, bids, asks, payer, openOrdersOwner,
                     coinVault, pcVault, tokenProgram, rentAccount];
    if srmAccountReferral.Some? {
      accounts := accounts + [srmAccountReferral.value];
    }
    r := rt.InvokeSigned(ix, accounts, signers);
  }

  /** The call `invoke_dex_replace_order_by_client_id` makes. */
  function ReplaceOrderCall(dexProgram: AccountInfo, market: AccountInfo, openOrders: AccountInfo,
                            reqQ: AccountInfo, eventQ: AccountInfo, bids: AccountInfo, asks: AccountInfo,
                            payer: AccountInfo, openOrdersOwner: AccountInfo, coinVault: AccountInfo,
                            pcVault: AccountInfo, tokenProgram: AccountInfo, rentAccount: AccountInfo,
                            srmAccountReferral: Option<AccountInfo>, ammSeed: seq<u8>, nonce: u8,
                            side: Side, limitPrice: NonZeroU64, maxCoinQty: NonZeroU64,
                            maxNativePcQtyIncludingFees: NonZeroU64, orderType: OrderType, clientOrderId: u64,
                            limit: u16): (c: Call)
    ensures c.accounts == OrderAccounts(dexProgram, market, openOrders, reqQ, eventQ, bids, asks, payer,
                                        openOrdersOwner, coinVault, pcVault, tokenProgram, rentAccount,
                                        srmAccountReferral)
    ensures c.descriptor.BuiltIx? && c.descriptor.instruction.programId == dexProgram.key
    ensures c.descriptor.instruction.data.order ==
            OrderPayload(side, limitPrice, maxCoinQty, maxNativePcQtyIncludingFees, orderType, clientOrderId, limit)
    ensures c.signers == ProgramSigners(ammSeed, nonce)
    ensures AccountKeys(c.accounts) == DescriptorKeys(c.descriptor)
  {
    var ix := ReplaceOrderByClientId(market.key, openOrders.key, reqQ.key, eventQ.key, bids.key, asks.key,
                                     payer.key, openOrdersOwner.key, coinVault.key, pcVault.key,
                                     tokenProgram.key, rentAccount.key, OptionalKeyOf(srmAccountReferral),
                                     dexProgram.key, side, limitPrice, maxCoinQty, orderType, clientOrderId,
                                     CancelProvide, limit, maxNativePcQtyIncludingFees, I64_MAX);
    Call(BuiltIx(ix.value),
         OrderAccounts(dexProgram, market, openOrders, reqQ, eventQ, bids, asks, payer, openOrdersOwner,
                       coinVault, pcVault, tokenProgram, rentAccount, srmAccountReferral),
         ProgramSigners(ammSeed, nonce))
  }

  /**
   * `invoke_dex_replace_order_by_client_id`. The instruction is built by
   * `ReplaceOrderByClientId`, which never fails, so its `?` never returns
   * early and the call is always made.
   */
  method InvokeDexReplaceOrderByClientId(rt: Runtime, dexProgram: AccountInfo, market: AccountInfo,
                                         openOrders: AccountInfo, reqQ: AccountInfo, eventQ: AccountInfo,
                                         bids: AccountInfo, asks: AccountInfo, payer: AccountInfo,
                                         openOrdersOwner: AccountInfo, coinVault: AccountInfo, pcVault: AccountInfo,
                                         tokenProgram: AccountInfo, rentAccount: AccountInfo,
                                         srmAccountReferral: Option<AccountInfo>, ammSeed: seq<u8>, nonce: u8,
                                         side: Side, limitPrice: NonZeroU64, maxCoinQty: NonZeroU64,
                                         maxNativePcQtyIncludingFees: NonZeroU64, orderType: OrderType,
                                         clientOrderId: u64, limit: u16)
    returns (r: ProgramResult)
    modifies rt
    ensures rt.Dispatched(old(rt.trace),
              ReplaceOrderCall(dexProgram, market, openOrders, reqQ, eventQ, bids, asks, payer, openOrdersOwner,
                               coinVault, pcVault, tokenProgram, rentAccount, srmAccountReferral, ammSeed, nonce,
                               side, limitPrice, maxCoinQty, maxNativePcQtyIncludingFees, orderType,
                               clientOrderId, limit), r)
  {
    var signers := ProgramSigners(ammSeed, nonce);
    var srmAccountReferralKey: Option<Pubkey> := None;
    if srmAccountReferral.Some? {
      srmAccountReferralKey := Some(srmAccountReferral.value.key);
    }
    var ix := ReplaceOrderByClientId(market.key, openOrders.key, reqQ.key, eventQ.key, bids.key, asks.key,
                                     payer.key, openOrdersOwner.key, coinVault.key, pcVault.key,
                                     tokenProgram.key, rentAccount.key, srmAccountReferralKey, dexProgram.key,
                                     side, limitPrice, maxCoinQty, orderType, clientOrderId, CancelProvide, limit,
                                     maxNativePcQtyIncludingFees, I64_MAX);
    var accounts := [dexProgram, market, openOrders, reqQ, eventQ, bids, asks, payer, openOrdersOwner,
                     coinVault, pcVault, tokenProgram, rentAccount];
    if srmAccountReferral.Some? {
      accounts := accounts + [srmAccountReferral.value];
    }
    r := rt.InvokeSigned(BuiltIx(ix.value), accounts, signers);
  }

  /**
   * Placing and replacing an order hand over the same accounts and the same
   * order payload, under the same signer seeds.
   */
  lemma NewOrderAndReplaceAgree(dexProgram: AccountInfo, market: AccountInfo, openOrders: AccountInfo,
                                reqQ: AccountInfo, eventQ: AccountInfo, bids: AccountInfo, asks: AccountInfo,
                                payer: AccountInfo, openOrdersOwner: AccountInfo, coinVault: AccountInfo,
                                pcVault: AccountInfo, tokenProgram: AccountInfo, rentAccount: AccountInfo,
                                srmAccountReferral: Option<AccountInfo>, ammSeed: seq<u8>, nonce: u8,
                                side: Side, limitPrice: NonZeroU64, maxCoinQty: NonZeroU64,
                                maxNativePcQtyIncludingFees: NonZeroU64, orderType: OrderType,
                                clientOrderId: u64, limit: u16)
    ensures var n := NewOrderCall(dexProgram, market, openOrders, reqQ, eventQ, bids, asks, payer,
                                  openOrdersOwner, coinVault, pcVault, tokenProgram, rentAccount,
                                  srmAccountReferral, ammSeed, nonce, side, limitPrice, maxCoinQty,
                                  maxNativePcQtyIncludingFees, orderType, clientOrderId, limit);
            var p := ReplaceOrderCall(dexProgram, market, openOrders, reqQ, eventQ, bids, asks, payer,
                                      openOrdersOwner, coinVault, pcVault, tokenProgram, rentAccount,
                                      srmAccountReferral, ammSeed, nonce, side, limitPrice, maxCoinQty,
                                      maxNativePcQtyIncludingFees, orderType, clientOrderId, limit);
            n.accounts == p.accounts && n.signers == p.signers &&
            n.descriptor.order == p.descriptor.instruction.data.order &&
            DescriptorKeys(n.descriptor) == DescriptorKeys(p.descriptor)
  {
  }

  // ---------------------------------------------------------------------
  // Order book: cancelling orders
  // ---------------------------------------------------------------------

  /** The accounts both cancel wrappers pass. */
  function CancelAccounts(dexProgram: AccountInfo, market: AccountInfo, bids: AccountInfo, asks: AccountInfo,
                          openOrders: AccountInfo, openOrdersOwner: AccountInfo, eventQ: AccountInfo)
    : (accounts: seq<AccountInfo>)
    ensures accounts == [dexProgram, market, bids, asks, openOrders, openOrdersOwner, eventQ]
  {
    [dexProgram, market, bids, asks, openOrders, openOrdersOwner, eventQ]
  }

  /** The call `invoke_dex_cancel_order_v2` makes. */
  function CancelOrderCall(dexProgram: AccountInfo, market: AccountInfo, bids: AccountInfo, asks: AccountInfo,
                           openOrders: AccountInfo, openOrdersOwner: AccountInfo, eventQ: AccountInfo,
                           ammSeed: seq<u8>, nonce: u8, side: Side, orderId: u128): (c: Call)
    ensures c.accounts == CancelAccounts(dexProgram, market, bids, asks, openOrders, openOrdersOwner, eventQ)
    ensures c.descriptor.CancelOrderIx? && c.descriptor.side == side && c.descriptor.orderId == orderId
    ensures c.signers == ProgramSigners(ammSeed, nonce)
    ensures AccountKeys(c.accounts) == DescriptorKeys(c.descriptor)
  {
    Call(CancelOrderIx(dexProgram.key, market.key, bids.key, asks.key, openOrders.key, openOrdersOwner.key,
                       eventQ.key, side, orderId),
         CancelAccounts(dexProgram, market, bids, asks, openOrders, openOrdersOwner, eventQ),
         ProgramSigners(ammSeed, nonce))
  }

  /** `invoke_dex_cancel_order_v2`. */
  method InvokeDexCancelOrderV2(rt: Runtime, dexProgram: AccountInfo, market: AccountInfo, bids: AccountInfo,
                                asks: AccountInfo, openOrders: AccountInfo, openOrdersOwner: AccountInfo,
                                eventQ: AccountInfo, ammSeed: seq<u8>, nonce: u8, side: Side, orderId: u128)
    returns (r: ProgramResult)
    modifies rt
    ensures rt.BuiltThenDispatched(old(rt.trace), CancelOrderCall(dexProgram, market, bids, asks, openOrders,
                                                                  openOrdersOwner, eventQ, ammSeed, nonce,
                                                                  side, orderId), r)
  {
    var signers := ProgramSigners(ammSeed, nonce);
    var ix := CancelOrderIx(dexProgram.key, market.key, bids.key, asks.key, openOrders.key, openOrdersOwner.key,
                            eventQ.key, side, orderId);
    var built := rt.buildError(ix);
    if built.Some? {
      return Err(built.value);
    }
    var accounts := [dexProgram, market, bids, asks, openOrders, openOrdersOwner, eventQ];
    r := rt.InvokeSigned(ix, accounts, signers);
  }

  /** The call `invoke_dex_cancel_orders_by_client_order_ids` makes. */
  function CancelByClientIdsCall(dexProgram: AccountInfo, market: AccountInfo, bids: AccountInfo,
                                 asks: AccountInfo, openOrders: AccountInfo, openOrdersOwner: AccountInfo,
                                 eventQ: AccountInfo, ammSeed: seq<u8>, nonce: u8, clientOrderIds: ClientIds)
    : (c: Call)
    ensures c.accounts == CancelAccounts(dexProgram, market, bids, asks, openOrders, openOrdersOwner, eventQ)
    ensures c.descriptor.CancelByClientIdsIx? && c.descriptor.clientOrderIds == clientOrderIds
    ensures |c.descriptor.clientOrderIds| == 8
    ensures c.signers == ProgramSigners(ammSeed, nonce)
    ensures AccountKeys(c.accounts) == DescriptorKeys(c.descriptor)
  {
    Call(CancelByClientIdsIx(dexProgram.key, market.key, bids.key, asks.key, openOrders.key,
                             openOrdersOwner.key, eventQ.key, clientOrderIds),
         CancelAccounts(dexProgram, market, bids, asks, openOrders, openOrdersOwner, eventQ),
         ProgramSigners(ammSeed, nonce))
  }

  /** `invoke_dex_cancel_orders_by_client_order_ids`. */
  method InvokeDexCancelOrdersByClientOrderIds(rt: Runtime, dexProgram: AccountInfo, market: AccountInfo,
                                               bids: AccountInfo, asks: AccountInfo, openOrders: AccountInfo,
                                               openOrdersOwner: AccountInfo, eventQ: AccountInfo,
                                               ammSeed: seq<u8>, nonce: u8, clientOrderIds: ClientIds)
    returns (r: ProgramResult)
    modifies rt
    ensures rt.BuiltThenDispatched(old(rt.trace), CancelByClientIdsCall(dexProgram, market, bids, asks,
                                                                        openOrders, openOrdersOwner, eventQ,
                                                                        ammSeed, nonce, clientOrderIds), r)
  {
    var signers := ProgramSigners(ammSeed, nonce);
    var ix := CancelByClientIdsIx(dexProgram.key, market.key, bids.key, asks.key, openOrders.key,
                                  openOrdersOwner.key, eventQ.key, clientOrderIds);
    var built := rt.buildError(ix);
    if built.Some? {
      return Err(built.value);
    }
    var accounts := [dexProgram, market, bids, asks, openOrders, openOrdersOwner, eventQ];
    r := rt.InvokeSigned(ix, accounts, signers);
  }

  // ---------------------------------------------------------------------
  // Order book: settling funds
  // ---------------------------------------------------------------------

  /**
   * The accounts `invoke_dex_settle_funds` passes: ten fixed handles, then
   * the referrer's quote wallet when present.
   */
  function SettleFundsAccounts(dexProgram: AccountInfo, market: AccountInfo, openOrders: AccountInfo,
                               owner: AccountInfo, coinVault: AccountInfo, pcVault: AccountInfo,
                               coinWallet: AccountInfo, pcWallet: AccountInfo, vaultSigner: AccountInfo,
                               splTokenProgram: AccountInfo, referrerPcWallet: Option<AccountInfo>)
    : (accounts: seq<AccountInfo>)
    ensures |accounts| == if referrerPcWallet.Some? then 11 else 10
    ensures accounts[..10] == [dexProgram, market, openOrders, owner, coinVault, pcVault, coinWallet, pcWallet,
                               vaultSigner, splTokenProgram]
    ensures referrerPcWallet.Some? ==> accounts[10] == referrerPcWallet.value
  {
    WithOptional([dexProgram, market, openOrders, owner, coinVault, pcVault, coinWallet, pcWallet,
                  vaultSigner, splTokenProgram], referrerPcWallet)
  }

  /** The call `invoke_dex_settle_funds` makes. */
  function SettleFundsCall(dexProgram: AccountInfo, market: AccountInfo, openOrders: AccountInfo,
                           owner: AccountInfo, coinVault: AccountInfo, pcVault: AccountInfo,
                           coinWallet: AccountInfo, pcWallet: AccountInfo, vaultSigner: AccountInfo,
                           splTokenProgram: AccountInfo, referrerPcWallet: Option<AccountInfo>,
                           ammSeed: seq<u8>, nonce: u8): (c: Call)
    ensures c.accounts == SettleFundsAccounts(dexProgram, market, openOrders, owner, coinVault, pcVault,
                                              coinWallet, pcWallet, vaultSigner, splTokenProgram, referrerPcWallet)
    ensures c.descriptor.SettleFundsIx? && c.descriptor.referrer == OptionalKeyOf(referrerPcWallet)
    ensures c.signers == ProgramSigners(ammSeed, nonce)
    ensures SuppliedAt(c, [0, 1, 9, 2, 3, 4, 6, 5, 7, 8] + (if referrerPcWallet.Some? then [10] else []))
  {
    Call(SettleFundsIx(dexProgram.key, market.key, splTokenProgram.key, openOrders.key, owner.key, coinVault.key,
                       coinWallet.key, pcVault.key, pcWallet.key, OptionalKeyOf(referrerPcWallet), vaultSigner.key),
         SettleFundsAccounts(dexProgram, market, openOrders, owner, coinVault, pcVault, coinWallet, pcWallet,
                             vaultSigner, splTokenProgram, referrerPcWallet),
         ProgramSigners(ammSeed, nonce))
  }

  /** `invoke_dex_settle_funds`. */
  method InvokeDexSettleFunds(rt: Runtime, dexProgram: AccountInfo, market: AccountInfo, openOrders: AccountInfo,
                              owner: AccountInfo, coinVault: AccountInfo, pcVault: AccountInfo,
                              coinWallet: AccountInfo, pcWallet: AccountInfo, vaultSigner: AccountInfo,
                              splTokenProgram: AccountInfo, referrerPcWallet: Option<AccountInfo>,
                              ammSeed: seq<u8>, nonce: u8)
    returns (r: ProgramResult)
    modifies rt
    ensures rt.BuiltThenDispatched(old(rt.trace),
              SettleFundsCall(dexProgram, market, openOrders, owner, coinVault, pcVault, coinWallet, pcWallet,
                              vaultSigner, splTokenProgram, referrerPcWallet, ammSeed, nonce), r)
  {
    var signers := ProgramSigners(ammSeed, nonce);
    var referrerPcWalletKey: Option<Pubkey> := None;
    if referrerPcWallet.Some? {
      referrerPcWalletKey := Some(referrerPcWallet.value.key);
    }
    var ix := SettleFundsIx(dexProgram.key, market.key, splTokenProgram.key, openOrders.key, owner.key,
                            coinVault.key, coinWallet.key, pcVault.key, pcWallet.key, referrerPcWalletKey,
                            vaultSigner.key);
    var built := rt.buildError(ix);
    if built.Some? {
      return Err(built.value);
    }
    var accounts := [dexProgram, market, openOrders, owner, coinVault, pcVault, coinWallet, pcWallet,
                     vaultSigner, splTokenProgram];
    if referrerPcWallet.Some? {
      accounts := accounts + [referrerPcWallet.value];
    }
    r := rt.InvokeSigned(ix, accounts, signers);
  }
}
