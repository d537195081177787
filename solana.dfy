/** The Solana vocabulary the core works with: public keys, account metas,
    the well-known program and sysvar ids, instructions as records of the
    calls that build them, and the abstract ledger the RPC reads return. */
module Solana {
  import opened Wrappers
  import Utf8

  /** A public key, written by its base-58 text. `toBase58()` is the field;
      base-58 is one-to-one, so keys are equal exactly when their texts are. */
  datatype Key = Key(base58: string)

  /** `{ pubkey, isSigner, isWritable }`. */
  datatype AccountMeta = AccountMeta(pubkey: Key, isSigner: bool, isWritable: bool)

  const SYSTEM_PROGRAM_ID := Key("11111111111111111111111111111111")
  const TOKEN_PROGRAM_ID := Key("TokenkegQfeZyiNwAJbNbGKPFXCWuBvf9Ss623VQ5DA")
  const MEMO_PROGRAM_ID := Key("MemoSq4gqABAXKb96qnH8TysNcWxMyWCqXgDLGmfcHr")
  const SPL_ASSOCIATED_TOKEN_ACCOUNT_PROGRAM_ID := Key("ATokenGPvbdGVxr1b2hvZbsiqW5xWH25efTNsLJA8knL")
  const CANDY_MACHINE_PROGRAM := Key("cndyAnrLdpjq1Ssp1z8xxDsB8dxe7u4HL5Nxi2K5WXZ")
  const TOKEN_METADATA_PROGRAM_ID := Key("metaqbxxUerdq28cj1RbAWkYQm3ybzjb6a8bt518x1s")
  const SYSVAR_RENT_PUBKEY := Key("SysvarRent111111111111111111111111111111111")
  const SYSVAR_CLOCK_PUBKEY := Key("SysvarC1ock11111111111111111111111111111111")
  const SYSVAR_SLOT_HASHES_PUBKEY := Key("SysvarS1otHashes111111111111111111111111111")
  const SYSVAR_INSTRUCTIONS_PUBKEY := Key("Sysvar1nstructions1111111111111111111111111")

  /** `MintLayout.span`: the size in bytes of a token mint account. */
  const MINT_SIZE := 82

  /** A seed of a program-derived address: literal bytes (`Buffer.from(text)`)
      or a key's 32 bytes (`key.toBuffer()`). */
  datatype Seed = Text(text: string) | KeyBytes(key: Key)

  /** What `PublicKey.findProgramAddress` returns: the address and its bump. */
  datatype ProgramAddress = ProgramAddress(address: Key, bump: nat)

  /** `PublicKey.findProgramAddress(seeds, programId)`; hashing is left
      abstract, so every derivation takes this function as a parameter. */
  type FindProgramAddress = (seq<Seed>, Key) -> ProgramAddress

  /** The seeds of the associated token account of `owner` for `mint`. */
  function AssociatedTokenSeeds(owner: Key, mint: Key): seq<Seed> {
    [KeyBytes(owner), KeyBytes(TOKEN_PROGRAM_ID), KeyBytes(mint)]
  }

  /** `getAssociatedTokenAddress(mint, owner)`: the address derived from
      the owner, the token program and the mint under the associated-token
      program. */
  function AssociatedTokenAddress(find: FindProgramAddress, owner: Key, mint: Key): Key {
    find(AssociatedTokenSeeds(owner, mint), SPL_ASSOCIATED_TOKEN_ACCOUNT_PROGRAM_ID).address
  }

  /** The accounts of the candy machine's `mintNft` instruction. */
  datatype MintNftAccounts = MintNftAccounts(
    candyMachine: Key, candyMachineCreator: Key, payer: Key, wallet: Key,
    mint: Key, metadata: Key, masterEdition: Key, mintAuthority: Key,
    updateAuthority: Key, tokenMetadataProgram: Key, tokenProgram: Key,
    systemProgram: Key, rent: Key, clock: Key, recentBlockhashes: Key,
    instructionSysvarAccount: Key)

  /** The library instruction builders the core calls, each recorded with the
      arguments it was given; their byte layouts belong to the libraries. */
  datatype LibraryCall =
    | SystemTransfer(fromPubkey: Key, toPubkey: Key, lamports: int)
    | TransferChecked(source: Key, mint: Key, destination: Key, owner: Key, amount: int, decimals: nat)
    | CreateAccount(fromPubkey: Key, newAccountPubkey: Key, space: nat, lamports: int, programId: Key)
    | InitializeMint(mint: Key, decimals: nat, mintAuthority: Key, freezeAuthority: Key, programId: Key)
    | MintTo(mint: Key, destination: Key, authority: Key, amount: int, multiSigners: seq<Key>, programId: Key)
    | Approve(account: Key, delegate: Key, owner: Key, amount: int, multiSigners: seq<Key>, programId: Key)
    | Revoke(account: Key, owner: Key, multiSigners: seq<Key>, programId: Key)
    | MintNft(creatorBump: nat, accounts: MintNftAccounts, remainingAccounts: Option<seq<AccountMeta>>)

  /** A `TransactionInstruction`: one a library built, with the keys pushed
      after the builder's own (`instruction.keys.push`), or one written out
      as program, keys and data. */
  datatype Instruction =
    | Library(call: LibraryCall, appendedKeys: seq<AccountMeta>)
    | Explicit(programId: Key, keys: seq<AccountMeta>, data: seq<Utf8.Byte>)

  /** `reference?: PublicKey | PublicKey[]`, taken by the URL encoders and the
      pay-transaction builder. */
  datatype Reference = NoReference | OneReference(key: Key) | References(keys: seq<Key>)

  /** The references as a list: a single key is a one-element list. */
  function ReferenceList(r: Reference): seq<Key> {
    match r
    case NoReference => []
    case OneReference(k) => [k]
    case References(ks) => ks
  }

  /** `AccountInfo`, as `getAccountInfo` returns it. */
  datatype AccountInfo = AccountInfo(owner: Key, executable: bool, lamports: nat)

  /** A token mint, as `getMint` returns it. */
  datatype MintInfo = MintInfo(decimals: nat, isInitialized: bool)

  /** A token account, as `getAccount` returns it. */
  datatype TokenAccountInfo = TokenAccountInfo(amount: nat, isInitialized: bool, isFrozen: bool)

  /** What the cluster holds: an address is absent from `accounts` when
      `getAccountInfo` returns null, and absent from `mints` or
      `tokenAccounts` when `getMint` or `getAccount` throws for it. */
  datatype Ledger = Ledger(
    accounts: map<Key, AccountInfo>,
    mints: map<Key, MintInfo>,
    tokenAccounts: map<Key, TokenAccountInfo>)
}
