/**
 * Cross-program invocation: the operation descriptors the library builders
 * return, the call record `invoke_signed` receives, and the runtime that
 * performs calls.
 */
module Cpi {
  import opened Wrappers
  import opened Solana
  import opened Dex

  /** The token program's `AuthorityType`. */
  datatype AuthorityType = MintTokens | FreezeAccount | AccountOwner | CloseAccount

  /**
   * One operation descriptor per builder the invokers call. The library
   * builders (`spl_token::instruction::*`,
   * `spl_associated_token_account::instruction::*`,
   * `serum_dex::instruction::*`) are not modelled; a descriptor records what
   * each builder was asked for, with its arguments. `BuiltIx` holds an
   * instruction this program built itself.
   */
  datatype Descriptor =
    | CreateAtaIx(funding: Pubkey, wallet: Pubkey, mint: Pubkey, tokenProgram: Pubkey)
    | BurnIx(tokenProgram: Pubkey, account: Pubkey, mint: Pubkey, authority: Pubkey, amount: u64)
    | CloseAccountIx(tokenProgram: Pubkey, account: Pubkey, destination: Pubkey, authority: Pubkey)
    | MintToIx(tokenProgram: Pubkey, mint: Pubkey, account: Pubkey, authority: Pubkey, amount: u64)
    | TransferIx(tokenProgram: Pubkey, source: Pubkey, destination: Pubkey, authority: Pubkey, amount: u64)
    | SetAuthorityIx(tokenProgram: Pubkey, account: Pubkey, newAuthority: Option<Pubkey>,
                     authorityType: AuthorityType, authority: Pubkey)
    | InitOpenOrdersIx(dexProgram: Pubkey, openOrders: Pubkey, owner: Pubkey, market: Pubkey,
                       marketAuthority: Option<Pubkey>)
    | CloseOpenOrdersIx(dexProgram: Pubkey, openOrders: Pubkey, owner: Pubkey, destination: Pubkey, market: Pubkey)
    | NewOrderIx(market: Pubkey, openOrders: Pubkey, requestQueue: Pubkey, eventQueue: Pubkey,
                 bids: Pubkey, asks: Pubkey, payer: Pubkey, owner: Pubkey, coinVault: Pubkey, pcVault: Pubkey,
                 tokenProgram: Pubkey, rent: Pubkey, referral: Option<Pubkey>, dexProgram: Pubkey,
                 order: NewOrderInstructionV3)
    | BuiltIx(instruction: Instruction)
    | CancelOrderIx(dexProgram: Pubkey, market: Pubkey, bids: Pubkey, asks: Pubkey, openOrders: Pubkey,
                    owner: Pubkey, eventQueue: Pubkey, side: Side, orderId: u128)
    | CancelByClientIdsIx(dexProgram: Pubkey, market: Pubkey, bids: Pubkey, asks: Pubkey,
                          openOrders: Pubkey, owner: Pubkey, eventQueue: Pubkey, clientOrderIds: ClientIds)
    | SettleFundsIx(dexProgram: Pubkey, market: Pubkey, tokenProgram: Pubkey, openOrders: Pubkey, owner: Pubkey,
                    coinVault: Pubkey, coinWallet: Pubkey, pcVault: Pubkey, pcWallet: Pubkey,
                    referrer: Option<Pubkey>, vaultSigner: Pubkey)

  /** The venue's `[u64; 8]` batch of client order ids. */
  type ClientIds = s: seq<u64> | |s| == 8 witness [0, 0, 0, 0, 0, 0, 0, 0]

  function OptionalKey(k: Option<Pubkey>): seq<Pubkey>
  {
    if k.Some? then [k.value] else []
  }

  function MetaKeys(metas: seq<AccountMeta>): (keys: seq<Pubkey>)
    ensures |keys| == |metas| && forall i :: 0 <= i < |metas| ==> keys[i] == metas[i].pubkey
  {
    seq(|metas|, i requires 0 <= i < |metas| => metas[i].pubkey)
  }

  /**
   * The addresses a descriptor names as programs or accounts: the program it
   * calls and the accounts handed to its builder. The new authority of
   * `SetAuthority` travels in the instruction data, not as an account, so it
   * is not among them; neither are addresses the builders derive or fix
   * themselves (the associated account, the rent sysvar of `InitOpenOrders`).
   */
  function DescriptorKeys(d: Descriptor): seq<Pubkey>
  {
    match d
    case CreateAtaIx(funding, wallet, mint, tokenProgram) =>
      [funding, wallet, mint, tokenProgram]
    case BurnIx(tokenProgram, account, mint, authority, _) =>
      [tokenProgram, account, mint, authority]
    case CloseAccountIx(tokenProgram, account, destination, authority) =>
      [tokenProgram, account, destination, authority]
    case MintToIx(tokenProgram, mint, account, authority, _) =>
      [tokenProgram, mint, account, authority]
    case TransferIx(tokenProgram, source, destination, authority, _) =>
      [tokenProgram, source, destination, authority]
    case SetAuthorityIx(tokenProgram, account, _, _, authority) =>
      [tokenProgram, account, authority]
    case InitOpenOrdersIx(dexProgram, openOrders, owner, market, marketAuthority) =>
      [dexProgram, openOrders, owner, market] + OptionalKey(marketAuthority)
    case CloseOpenOrdersIx(dexProgram, openOrders, owner, destination, market) =>
      [dexProgram, openOrders, owner, destination, market]
    case NewOrderIx(market, openOrders, requestQueue, eventQueue, bids, asks, payer, owner, coinVault, pcVault,
                    tokenProgram, rent, referral, dexProgram, _) =>
      [dexProgram, market, openOrders, requestQueue, eventQueue, bids, asks, payer, owner, coinVault, pcVault,
       tokenProgram, rent] + OptionalKey(referral)
    case BuiltIx(ix) =>
      [ix.programId] + MetaKeys(ix.accounts)
    case CancelOrderIx(dexProgram, market, bids, asks, openOrders, owner, eventQueue, _, _) =>
      [dexProgram, market, bids, asks, openOrders, owner, eventQueue]
    case CancelByClientIdsIx(dexProgram, market, bids, asks, openOrders, owner, eventQueue, _) =>
      [dexProgram, market, bids, asks, openOrders, owner, eventQueue]
    case SettleFundsIx(dexProgram, market, tokenProgram, openOrders, owner, coinVault, coinWallet, pcVault,
                       pcWallet, referrer, vaultSigner) =>
      [dexProgram, market, tokenProgram, openOrders, owner, coinVault, coinWallet, pcVault, pcWallet, vaultSigner]
      + OptionalKey(referrer)
  }

  /** One `invoke_signed(instruction, accounts, signers_seeds)` call. */
  datatype Call = Call(descriptor: Descriptor, accounts: seq<AccountInfo>, signers: seq<SignerSeeds>)

  function AccountKeys(accounts: seq<AccountInfo>): (keys: seq<Pubkey>)
    ensures |keys| == |accounts| && forall i :: 0 <= i < |accounts| ==> keys[i] == accounts[i].key
  {
    seq(|accounts|, i requires 0 <= i < |accounts| => accounts[i].key)
  }

  /**
   * The runtime resolves every program and account an instruction names
   * against the account handles passed beside it. `slots` says where: the
   * descriptor's `i`-th address is the key of account `slots[i]`.
   */
  predicate SuppliedAt(c: Call, slots: seq<nat>)
  {
    var keys := DescriptorKeys(c.descriptor);
    |slots| == |keys| &&
    forall i :: 0 <= i < |slots| ==> slots[i] < |c.accounts| && c.accounts[slots[i]].key == keys[i]
  }

  /** No address the descriptor names is missing from the accounts passed. */
  ghost predicate SuppliesKeys(c: Call)
  {
    forall k :: k in DescriptorKeys(c.descriptor) ==> exists i :: 0 <= i < |c.accounts| && c.accounts[i].key == k
  }

  /** A placement of the descriptor's addresses among the accounts shows that none is missing. */
  lemma {:induction false} SuppliedAtSupplies(c: Call, slots: seq<nat>)
    requires SuppliedAt(c, slots)
    ensures SuppliesKeys(c)
  {
    var keys := DescriptorKeys(c.descriptor);
    forall k | k in keys
      ensures exists i :: 0 <= i < |c.accounts| && c.accounts[i].key == k
    {
      var j :| 0 <= j < |keys| && keys[j] == k;
      assert c.accounts[slots[j]].key == k;
    }
  }

  /**
   * The environment the invokers run in. `buildError` stands for the library
   * builders: a descriptor they reject yields that error through `?`.
   * `respond` stands for the called program: what the `n`-th call of the
   * transaction returns. `trace` records every call in order.
   */
  class Runtime {
    var trace: seq<Call>
    const buildError: Descriptor -> Option<ProgramError>
    const respond: (nat, Call) -> ProgramResult

    constructor (buildError: Descriptor -> Option<ProgramError>, respond: (nat, Call) -> ProgramResult)
      ensures trace == [] && this.buildError == buildError && this.respond == respond
    {
      trace := [];
      this.buildError := buildError;
      this.respond := respond;
    }

    /** `solana_program::program::invoke_signed`: one call, its result returned unchanged. */
    method InvokeSigned(instruction: Descriptor, accounts: seq<AccountInfo>, signers: seq<SignerSeeds>)
      returns (r: ProgramResult)
      modifies this
      ensures trace == old(trace) + [Call(instruction, accounts, signers)]
      ensures r == respond(|old(trace)|, Call(instruction, accounts, signers))
    {
      r := respond(|trace|, Call(instruction, accounts, signers));
      trace := trace + [Call(instruction, accounts, signers)];
    }

    /** Starting from `before`, exactly the call `c` was made and `r` is its result. */
    ghost predicate Dispatched(before: seq<Call>, c: Call, r: ProgramResult)
      reads this
    {
      trace == before + [c] && r == respond(|before|, c)
    }

    /**
     * The descriptor of `c` was built with `?` and then `c` dispatched: a
     * builder error is returned before any call, otherwise `c` is made once.
     */
    ghost predicate BuiltThenDispatched(before: seq<Call>, c: Call, r: ProgramResult)
      reads this
    {
      match buildError(c.descriptor)
      case Some(e) => trace == before && r == Err(e)
      case None => Dispatched(before, c, r)
    }
  }

  /** A wrapper's effect is at most one call, appended after the calls already made. */
  lemma AtMostOneDispatch(rt: Runtime, before: seq<Call>, c: Call, r: ProgramResult)
    requires rt.BuiltThenDispatched(before, c, r)
    ensures |before| <= |rt.trace| <= |before| + 1 && rt.trace[..|before|] == before
    ensures |rt.trace| == |before| + 1 <==> rt.buildError(c.descriptor).None?
    ensures |rt.trace| == |before| + 1 ==> rt.trace[|before|] == c && r == rt.respond(|before|, c)
    ensures |rt.trace| == |before| ==> r == Err(rt.buildError(c.descriptor).value)
  {
  }
}
