/** The candy-machine side of a mint: the state read from the candy machine
    account, the program-derived addresses the mint needs, the associated
    token account instruction, the assembly of one mint's instructions,
    cleanup instructions, signers and remaining accounts, and the address
    shortener. */
module CandyMachine {
  import opened Wrappers
  import opened Strings
  import opened Solana

  /** `data.whitelistMintSettings`: the whitelist token's mint and whether a
      whitelist token is burnt on every mint. */
  datatype WhitelistMintSettings = WhitelistMintSettings(mint: Key, burnEveryTime: bool)

  /** The fields of the candy machine's `data` the core reads. Counts, dates
      and the price are whole numbers. */
  datatype CandyMachineData = CandyMachineData(
    itemsAvailable: int,
    goLiveDate: int,
    price: int,
    whitelistMintSettings: Option<WhitelistMintSettings>)

  /** The candy machine account as `program.account.candyMachine.fetch`
      decodes it. */
  datatype CandyMachineAccount = CandyMachineAccount(
    data: CandyMachineData,
    itemsRedeemed: int,
    wallet: Key,
    tokenMint: Option<Key>)

  /** `CandyMachineState`; `goLiveDate` is in milliseconds, as a `Date`
      holds it. */
  datatype CandyMachineState = CandyMachineState(
    id: Key,
    state: CandyMachineAccount,
    itemsAvailable: int,
    itemsRedeemed: int,
    itemsRemaining: int,
    goLiveDate: int)

  /** What the candy machine program's accounts decode to: candy machines by
      address, and for each collection PDA whose fetch succeeds, its
      collection mint. An address missing from a map is one whose fetch
      throws. */
  datatype ProgramAccounts = ProgramAccounts(
    candyMachines: map<Key, CandyMachineAccount>,
    collectionPdas: map<Key, Key>)

  /** `getCandyMachineState`: `None` when the fetch of the candy machine
      throws. */
  function GetCandyMachineState(candyMachineId: Key, program: ProgramAccounts): (r: Option<CandyMachineState>)
    ensures r.Some? <==> candyMachineId in program.candyMachines
    ensures r.Some? ==>
      var account := program.candyMachines[candyMachineId];
      && r.value.id == candyMachineId && r.value.state == account
      && r.value.itemsAvailable == account.data.itemsAvailable
      && r.value.itemsRedeemed == account.itemsRedeemed
      && r.value.itemsRemaining + r.value.itemsRedeemed == r.value.itemsAvailable
      && r.value.goLiveDate == 1000 * account.data.goLiveDate
  {
    if candyMachineId !in program.candyMachines then None
    else
      var state := program.candyMachines[candyMachineId];
      var itemsAvailable := state.data.itemsAvailable;
      var itemsRedeemed := state.itemsRedeemed;
      Some(CandyMachineState(candyMachineId, state, itemsAvailable, itemsRedeemed,
        itemsAvailable - itemsRedeemed, state.data.goLiveDate * 1000))
  }

  // Program-derived addresses.

  function MetadataSeeds(mint: Key): seq<Seed> {
    [Text("metadata"), KeyBytes(TOKEN_METADATA_PROGRAM_ID), KeyBytes(mint)]
  }

  /** `getMetadata`: derived under the token-metadata program from
      `"metadata"`, that program's id and the mint. */
  function GetMetadata(find: FindProgramAddress, mint: Key): (r: Key)
    ensures r == find([Text("metadata"), KeyBytes(TOKEN_METADATA_PROGRAM_ID), KeyBytes(mint)],
                      TOKEN_METADATA_PROGRAM_ID).address
  {
    find(MetadataSeeds(mint), TOKEN_METADATA_PROGRAM_ID).address
  }

  /** `getMasterEdition`: the metadata's seeds followed by `"edition"`,
      under the same program. */
  function GetMasterEdition(find: FindProgramAddress, mint: Key): (r: Key)
    ensures r == find([Text("metadata"), KeyBytes(TOKEN_METADATA_PROGRAM_ID), KeyBytes(mint), Text("edition")],
                      TOKEN_METADATA_PROGRAM_ID).address
  {
    assert MetadataSeeds(mint) + [Text("edition")]
        == [Text("metadata"), KeyBytes(TOKEN_METADATA_PROGRAM_ID), KeyBytes(mint), Text("edition")];
    find(MetadataSeeds(mint) + [Text("edition")], TOKEN_METADATA_PROGRAM_ID).address
  }

  /** `getTokenWallet`: the wallet's associated token account for `mint`,
      derived under the associated-token program from the wallet, the token
      program's id and the mint; the same address `getAtaForMint` gives. */
  function GetTokenWallet(find: FindProgramAddress, wallet: Key, mint: Key): (r: Key)
    ensures r == find([KeyBytes(wallet), KeyBytes(TOKEN_PROGRAM_ID), KeyBytes(mint)],
                      SPL_ASSOCIATED_TOKEN_ACCOUNT_PROGRAM_ID).address
    ensures r == GetAtaForMint(find, mint, wallet).address
  {
    AssociatedTokenAddress(find, wallet, mint)
  }

  /** `getCandyMachineCreator`: address and bump derived under the candy
      machine program from `"candy_machine"` and the candy machine. */
  function GetCandyMachineCreator(find: FindProgramAddress, candyMachine: Key): (r: ProgramAddress)
    ensures r == find([Text("candy_machine"), KeyBytes(candyMachine)], CANDY_MACHINE_PROGRAM)
  {
    find([Text("candy_machine"), KeyBytes(candyMachine)], CANDY_MACHINE_PROGRAM)
  }

  /** `getAtaForMint`: the buyer's associated token account for `mint`,
      with its bump. */
  function GetAtaForMint(find: FindProgramAddress, mint: Key, buyer: Key): (r: ProgramAddress)
    ensures r == find([KeyBytes(buyer), KeyBytes(TOKEN_PROGRAM_ID), KeyBytes(mint)],
                      SPL_ASSOCIATED_TOKEN_ACCOUNT_PROGRAM_ID)
  {
    find(AssociatedTokenSeeds(buyer, mint), SPL_ASSOCIATED_TOKEN_ACCOUNT_PROGRAM_ID)
  }

  /** `getCollectionPDA`: derived under the candy machine program from
      `"collection"` and the candy machine. */
  function GetCollectionPda(find: FindProgramAddress, candyMachineAddress: Key): (r: ProgramAddress)
    ensures r == find([Text("collection"), KeyBytes(candyMachineAddress)], CANDY_MACHINE_PROGRAM)
  {
    find([Text("collection"), KeyBytes(candyMachineAddress)], CANDY_MACHINE_PROGRAM)
  }

  /** `getCollectionAuthorityRecordPDA`: the metadata's seeds followed by
      `"collection_authority"` and the new authority, under the
      token-metadata program. */
  function GetCollectionAuthorityRecordPda(find: FindProgramAddress, mint: Key, newAuthority: Key): (r: ProgramAddress)
    ensures r == find([Text("metadata"), KeyBytes(TOKEN_METADATA_PROGRAM_ID), KeyBytes(mint),
                       Text("collection_authority"), KeyBytes(newAuthority)], TOKEN_METADATA_PROGRAM_ID)
  {
    assert MetadataSeeds(mint) + [Text("collection_authority"), KeyBytes(newAuthority)]
        == [Text("metadata"), KeyBytes(TOKEN_METADATA_PROGRAM_ID), KeyBytes(mint),
            Text("collection_authority"), KeyBytes(newAuthority)];
    find(MetadataSeeds(mint) + [Text("collection_authority"), KeyBytes(newAuthority)], TOKEN_METADATA_PROGRAM_ID)
  }

  /** A derivation without collisions: different seeds or programs give
      different addresses. */
  ghost predicate CollisionFree(find: FindProgramAddress) {
    forall s1, p1, s2, p2 :: find(s1, p1).address == find(s2, p2).address ==> s1 == s2 && p1 == p2
  }

  /** The helpers' seeds keep their addresses apart: for one mint, the
      metadata, the master edition and the token wallet are three accounts,
      and a candy machine's creator is not its collection PDA. */
  lemma DerivedAddressesDistinct(find: FindProgramAddress, wallet: Key, mint: Key, candyMachine: Key)
    requires CollisionFree(find)
    ensures GetMetadata(find, mint) != GetMasterEdition(find, mint)
    ensures GetMetadata(find, mint) != GetTokenWallet(find, wallet, mint)
    ensures GetMasterEdition(find, mint) != GetTokenWallet(find, wallet, mint)
    ensures GetCandyMachineCreator(find, candyMachine).address != GetCollectionPda(find, candyMachine).address
  {
    assert |MetadataSeeds(mint) + [Text("edition")]| == 4;
    assert MetadataSeeds(mint)[0] != AssociatedTokenSeeds(wallet, mint)[0];
    assert ([Text("candy_machine"), KeyBytes(candyMachine)])[0] != ([Text("collection"), KeyBytes(candyMachine)])[0];
  }

  /** Each helper's address determines the keys it was derived from, since
      the keys are seeds: one metadata account, master edition and creator
      per mint or candy machine, one token wallet per wallet and mint. */
  lemma DerivedAddressesInjective(find: FindProgramAddress)
    requires CollisionFree(find)
    ensures forall m1, m2 :: GetMetadata(find, m1) == GetMetadata(find, m2) ==> m1 == m2
    ensures forall m1, m2 :: GetMasterEdition(find, m1) == GetMasterEdition(find, m2) ==> m1 == m2
    ensures forall w1, m1, w2, m2 :: GetTokenWallet(find, w1, m1) == GetTokenWallet(find, w2, m2) ==> w1 == w2 && m1 == m2
    ensures forall c1, c2 :: GetCandyMachineCreator(find, c1).address == GetCandyMachineCreator(find, c2).address ==> c1 == c2
    ensures forall c1, c2 :: GetCollectionPda(find, c1).address == GetCollectionPda(find, c2).address ==> c1 == c2
    ensures forall m1, a1, m2, a2 ::
              GetCollectionAuthorityRecordPda(find, m1, a1).address == GetCollectionAuthorityRecordPda(find, m2, a2).address
              ==> m1 == m2 && a1 == a2
  {
    forall m1, m2 | GetMetadata(find, m1) == GetMetadata(find, m2)
      ensures m1 == m2
    {
      assert MetadataSeeds(m1)[2] == MetadataSeeds(m2)[2];
    }
    forall m1, m2 | GetMasterEdition(find, m1) == GetMasterEdition(find, m2)
      ensures m1 == m2
    {
      assert (MetadataSeeds(m1) + [Text("edition")])[2] == (MetadataSeeds(m2) + [Text("edition")])[2];
    }
    forall w1, m1, w2, m2 | GetTokenWallet(find, w1, m1) == GetTokenWallet(find, w2, m2)
      ensures w1 == w2 && m1 == m2
    {
      assert AssociatedTokenSeeds(w1, m1) == AssociatedTokenSeeds(w2, m2);
      assert AssociatedTokenSeeds(w1, m1)[0] == AssociatedTokenSeeds(w2, m2)[0];
      assert AssociatedTokenSeeds(w1, m1)[2] == AssociatedTokenSeeds(w2, m2)[2];
    }
    forall c1, c2 | GetCandyMachineCreator(find, c1).address == GetCandyMachineCreator(find, c2).address
      ensures c1 == c2
    {
      assert [Text("candy_machine"), KeyBytes(c1)][1] == [Text("candy_machine"), KeyBytes(c2)][1];
    }
    forall c1, c2 | GetCollectionPda(find, c1).address == GetCollectionPda(find, c2).address
      ensures c1 == c2
    {
      assert [Text("collection"), KeyBytes(c1)][1] == [Text("collection"), KeyBytes(c2)][1];
    }
    forall m1, a1, m2, a2 | GetCollectionAuthorityRecordPda(find, m1, a1).address
                            == GetCollectionAuthorityRecordPda(find, m2, a2).address
      ensures m1 == m2 && a1 == a2
    {
      var s1 := MetadataSeeds(m1) + [Text("collection_authority"), KeyBytes(a1)];
      var s2 := MetadataSeeds(m2) + [Text("collection_authority"), KeyBytes(a2)];
      assert s1 == s2;
      assert s1[2] == s2[2] && s1[4] == s2[4];
    }
  }

  /** `createAssociatedTokenAccountInstruction`: payer, the new account, its
      owner and mint, then the system program, the token program and the
      rent sysvar; only the payer signs; only the payer and the new account
      are written; no data. */
  function CreateAssociatedTokenAccountInstruction(
    associatedTokenAddress: Key, payer: Key, walletAddress: Key, splTokenMintAddress: Key): (ix: Instruction)
    ensures ix.Explicit? && ix.programId == SPL_ASSOCIATED_TOKEN_ACCOUNT_PROGRAM_ID && ix.data == []
    ensures |ix.keys| == 7
    ensures ix.keys[0].pubkey == payer && ix.keys[1].pubkey == associatedTokenAddress
    ensures ix.keys[2].pubkey == walletAddress && ix.keys[3].pubkey == splTokenMintAddress
    ensures ix.keys[4].pubkey == SYSTEM_PROGRAM_ID && ix.keys[5].pubkey == TOKEN_PROGRAM_ID
    ensures ix.keys[6].pubkey == SYSVAR_RENT_PUBKEY
    ensures forall i :: 0 <= i < 7 ==> (ix.keys[i].isSigner <==> i == 0)
    ensures forall i :: 0 <= i < 7 ==> (ix.keys[i].isWritable <==> i <= 1)
  {
    Explicit(SPL_ASSOCIATED_TOKEN_ACCOUNT_PROGRAM_ID, [
        AccountMeta(payer, true, true),
        AccountMeta(associatedTokenAddress, false, true),
        AccountMeta(walletAddress, false, false),
        AccountMeta(splTokenMintAddress, false, false),
        AccountMeta(SYSTEM_PROGRAM_ID, false, false),
        AccountMeta(TOKEN_PROGRAM_ID, false, false),
        AccountMeta(SYSVAR_RENT_PUBKEY, false, false)
      ], [])
  }

  /** `shortenAddress(address, chars = 4)`: `address.slice(0, chars)`,
      `...`, `address.slice(-chars)`. For a positive count this is the first
      and the last `chars` characters (the whole address on each side when it
      is shorter); for a count of zero, `slice(-0)` is the whole address. */
  function ShortenAddress(address: string, chars: int := 4): (r: string)
    ensures chars > 0 ==>
      var k := if chars < |address| then chars else |address|;
      r == address[..k] + "..." + address[|address| - k..]
    ensures chars == 0 ==> r == "..." + address
  {
    Slice(address, 0, chars) + "..." + SliceFrom(address, -chars)
  }

  /** With the default count, an address of eight or more characters keeps
      its first four and last four: eleven characters in all. */
  lemma ShortenAddressDefault(address: string)
    requires |address| >= 8
    ensures ShortenAddress(address) == address[..4] + "..." + address[|address| - 4..]
    ensures |ShortenAddress(address)| == 11
  {
  }

  // Assembling one mint.

  /** The keypairs `Keypair.generate` makes during one mint: the new mint,
      and the whitelist burn authority and transfer authority when their
      branches run. */
  datatype GeneratedKeys = GeneratedKeys(mint: Key, whitelistBurnAuthority: Key, transferAuthority: Key)

  /** The candy machine lets `delegate` spend `amount` from `account`:
      an approve goes into the mint's instructions and the matching revoke
      into its cleanup. */
  datatype Delegation = Delegation(account: Key, delegate: Key, amount: int)

  /** What `mintOneToken` returns; signers are given by their public keys. */
  datatype MintPlan = MintPlan(instructions: seq<Instruction>, cleanupInstructions: seq<Instruction>, signers: seq<Key>)

  function ApproveFor(d: Delegation, owner: Key): Instruction {
    Library(Approve(d.account, d.delegate, owner, d.amount, [], TOKEN_PROGRAM_ID), [])
  }

  function RevokeFor(d: Delegation, owner: Key): Instruction {
    Library(Revoke(d.account, owner, [], TOKEN_PROGRAM_ID), [])
  }

  function Approves(ds: seq<Delegation>, owner: Key): seq<Instruction> {
    seq(|ds|, i requires 0 <= i < |ds| => ApproveFor(ds[i], owner))
  }

  function Revokes(ds: seq<Delegation>, owner: Key): seq<Instruction> {
    seq(|ds|, i requires 0 <= i < |ds| => RevokeFor(ds[i], owner))
  }

  /** The four instructions every mint starts with: create the mint account,
      initialise it with 0 decimals and the payer as mint and freeze
      authority, create the payer's token account for it, mint one token. */
  function SetupInstructions(find: FindProgramAddress, payer: Key, mint: Key, rentExemption: int): seq<Instruction> {
    var token := GetTokenWallet(find, payer, mint);
    [ Library(CreateAccount(payer, mint, MINT_SIZE, rentExemption, TOKEN_PROGRAM_ID), []),
      Library(InitializeMint(mint, 0, payer, payer, TOKEN_PROGRAM_ID), []),
      CreateAssociatedTokenAccountInstruction(token, payer, payer, mint),
      Library(MintTo(mint, token, payer, 1, [], TOKEN_PROGRAM_ID), []) ]
  }

  function WhitelistToken(find: FindProgramAddress, settings: WhitelistMintSettings, payer: Key): Key {
    GetAtaForMint(find, settings.mint, payer).address
  }

  predicate BurnsWhitelistToken(cms: CandyMachineState) {
    cms.state.data.whitelistMintSettings.Some? && cms.state.data.whitelistMintSettings.value.burnEveryTime
  }

  /** The whitelist burn authority may take one whitelist token when
      tokens are burnt and the payer's whitelist token account exists. */
  function WhitelistDelegations(cms: CandyMachineState, find: FindProgramAddress, payer: Key,
                                generated: GeneratedKeys, accounts: map<Key, AccountInfo>): seq<Delegation> {
    var settings := cms.state.data.whitelistMintSettings;
    if BurnsWhitelistToken(cms) && WhitelistToken(find, settings.value, payer) in accounts
    then [Delegation(WhitelistToken(find, settings.value, payer), generated.whitelistBurnAuthority, 1)]
    else []
  }

  /** The transfer authority may take `price` from the payer's payment token
      account when the candy machine sells for a token. */
  function TokenMintDelegations(cms: CandyMachineState, find: FindProgramAddress, payer: Key,
                                generated: GeneratedKeys): seq<Delegation> {
    if cms.state.tokenMint.Some?
    then [Delegation(GetTokenWallet(find, payer, cms.state.tokenMint.value), generated.transferAuthority,
                     cms.state.data.price)]
    else []
  }

  /** The delegations of one mint, whitelist first. */
  function Delegations(cms: CandyMachineState, find: FindProgramAddress, payer: Key,
                       generated: GeneratedKeys, accounts: map<Key, AccountInfo>): seq<Delegation> {
    WhitelistDelegations(cms, find, payer, generated, accounts) + TokenMintDelegations(cms, find, payer, generated)
  }

  lemma ApprovesRevokesAppend(a: seq<Delegation>, b: seq<Delegation>, owner: Key)
    ensures Approves(a + b, owner) == Approves(a, owner) + Approves(b, owner)
    ensures Revokes(a + b, owner) == Revokes(a, owner) + Revokes(b, owner)
  {
  }

  /** The signers beyond the mint and the payer, in the order they join. */
  function ExtraSigners(cms: CandyMachineState, generated: GeneratedKeys): seq<Key> {
    (if BurnsWhitelistToken(cms) then [generated.whitelistBurnAuthority] else [])
    + (if cms.state.tokenMint.Some? then [generated.transferAuthority] else [])
  }

  function WhitelistAccounts(cms: CandyMachineState, find: FindProgramAddress, payer: Key,
                             generated: GeneratedKeys): seq<AccountMeta> {
    match cms.state.data.whitelistMintSettings
    case None => []
    case Some(settings) =>
      [AccountMeta(WhitelistToken(find, settings, payer), false, true)]
      + (if settings.burnEveryTime
         then [AccountMeta(settings.mint, false, true), AccountMeta(generated.whitelistBurnAuthority, true, false)]
         else [])
  }

  function PaymentAccounts(cms: CandyMachineState, find: FindProgramAddress, payer: Key,
                           generated: GeneratedKeys): seq<AccountMeta> {
    match cms.state.tokenMint
    case None => []
    case Some(tokenMint) =>
      [AccountMeta(GetTokenWallet(find, payer, tokenMint), false, true),
       AccountMeta(generated.transferAuthority, true, false)]
  }

  /** The collection's five accounts, when its PDA account exists and its
      fetch succeeds. */
  function CollectionAccounts(cms: CandyMachineState, find: FindProgramAddress,
                              accounts: map<Key, AccountInfo>, program: ProgramAccounts): seq<AccountMeta> {
    var collectionPda := GetCollectionPda(find, cms.id).address;
    if collectionPda in accounts && collectionPda in program.collectionPdas then
      var collectionMint := program.collectionPdas[collectionPda];
      [AccountMeta(collectionPda, false, true),
       AccountMeta(collectionMint, false, false),
       AccountMeta(GetMetadata(find, collectionMint), false, true),
       AccountMeta(GetMasterEdition(find, collectionMint), false, false),
       AccountMeta(GetCollectionAuthorityRecordPda(find, collectionMint, collectionPda).address, false, false)]
    else []
  }

  function RemainingAccounts(cms: CandyMachineState, find: FindProgramAddress, payer: Key, generated: GeneratedKeys,
                             accounts: map<Key, AccountInfo>, program: ProgramAccounts): seq<AccountMeta> {
    WhitelistAccounts(cms, find, payer, generated) + PaymentAccounts(cms, find, payer, generated)
      + CollectionAccounts(cms, find, accounts, program)
  }

  function MintNftAccountsFor(cms: CandyMachineState, find: FindProgramAddress, payer: Key, mint: Key): MintNftAccounts {
    MintNftAccounts(
      cms.id, GetCandyMachineCreator(find, cms.id).address, payer, cms.state.wallet,
      mint, GetMetadata(find, mint), GetMasterEdition(find, mint), payer,
      payer, TOKEN_METADATA_PROGRAM_ID, TOKEN_PROGRAM_ID,
      SYSTEM_PROGRAM_ID, SYSVAR_RENT_PUBKEY, SYSVAR_CLOCK_PUBKEY, SYSVAR_SLOT_HASHES_PUBKEY,
      SYSVAR_INSTRUCTIONS_PUBKEY)
  }

  /** `program.instruction.mintNft`, with `undefined` remaining accounts
      when there are none. */
  function MintNftInstruction(cms: CandyMachineState, find: FindProgramAddress, payer: Key, mint: Key,
                              remaining: seq<AccountMeta>): Instruction {
    Library(MintNft(GetCandyMachineCreator(find, cms.id).bump, MintNftAccountsFor(cms, find, payer, mint),
                    if |remaining| > 0 then Some(remaining) else None), [])
  }

  /** The plan of one mint, section by section. */
  function MintOneTokenPlan(cms: CandyMachineState, find: FindProgramAddress, payer: Key, generated: GeneratedKeys,
                            rentExemption: int, accounts: map<Key, AccountInfo>, program: ProgramAccounts): MintPlan {
    var ds := Delegations(cms, find, payer, generated, accounts);
    var remaining := RemainingAccounts(cms, find, payer, generated, accounts, program);
    MintPlan(
      SetupInstructions(find, payer, generated.mint, rentExemption) + Approves(ds, payer)
        + [MintNftInstruction(cms, find, payer, generated.mint, remaining)],
      Revokes(ds, payer),
      [generated.mint, payer] + ExtraSigners(cms, generated))
  }

  /** The whitelist branch of `mintOneToken`: the payer's whitelist token
      account joins the remaining accounts; when tokens are burnt, so do the
      whitelist mint and the burn authority, which also signs, and an
      approve/revoke pair is added when the whitelist token account exists. */
  method AddWhitelist(cms: CandyMachineState, find: FindProgramAddress, payer: Key, generated: GeneratedKeys,
                      accounts: map<Key, AccountInfo>, remaining0: seq<AccountMeta>, signers0: seq<Key>,
                      instructions0: seq<Instruction>, cleanup0: seq<Instruction>)
    returns (remaining: seq<AccountMeta>, signers: seq<Key>, instructions: seq<Instruction>, cleanup: seq<Instruction>)
    ensures remaining == remaining0 + WhitelistAccounts(cms, find, payer, generated)
    ensures signers == signers0 + (if BurnsWhitelistToken(cms) then [generated.whitelistBurnAuthority] else [])
    ensures instructions == instructions0 + Approves(WhitelistDelegations(cms, find, payer, generated, accounts), payer)
    ensures cleanup == cleanup0 + Revokes(WhitelistDelegations(cms, find, payer, generated, accounts), payer)
  {
    remaining, signers, instructions, cleanup := remaining0, signers0, instructions0, cleanup0;
    if cms.state.data.whitelistMintSettings.Some? {
      var settings := cms.state.data.whitelistMintSettings.value;
      var whitelistToken := GetAtaForMint(find, settings.mint, payer).address;
      remaining := remaining + [AccountMeta(whitelistToken, false, true)];
      if settings.burnEveryTime {
        var whitelistBurnAuthority := generated.whitelistBurnAuthority;
        remaining := remaining + [AccountMeta(settings.mint, false, true)];
        remaining := remaining + [AccountMeta(whitelistBurnAuthority, true, false)];
        signers := signers + [whitelistBurnAuthority];
        if whitelistToken in accounts {
          instructions := instructions
            + [Library(Approve(whitelistToken, whitelistBurnAuthority, payer, 1, [], TOKEN_PROGRAM_ID), [])];
          cleanup := cleanup + [Library(Revoke(whitelistToken, payer, [], TOKEN_PROGRAM_ID), [])];
        }
      }
    }
  }

  /** The token-mint branch of `mintOneToken`: the payer's payment token
      account and the transfer authority join the remaining accounts, the
      transfer authority signs and may take `price`, and is revoked after. */
  method AddTokenMintPayment(cms: CandyMachineState, find: FindProgramAddress, payer: Key, generated: GeneratedKeys,
                             remaining0: seq<AccountMeta>, signers0: seq<Key>,
                             instructions0: seq<Instruction>, cleanup0: seq<Instruction>)
    returns (remaining: seq<AccountMeta>, signers: seq<Key>, instructions: seq<Instruction>, cleanup: seq<Instruction>)
    ensures remaining == remaining0 + PaymentAccounts(cms, find, payer, generated)
    ensures signers == signers0 + (if cms.state.tokenMint.Some? then [generated.transferAuthority] else [])
    ensures instructions == instructions0 + Approves(TokenMintDelegations(cms, find, payer, generated), payer)
    ensures cleanup == cleanup0 + Revokes(TokenMintDelegations(cms, find, payer, generated), payer)
  {
    remaining, signers, instructions, cleanup := remaining0, signers0, instructions0, cleanup0;
    if cms.state.tokenMint.Some? {
      var transferAuthority := generated.transferAuthority;
      var tokenAccount := GetTokenWallet(find, payer, cms.state.tokenMint.value);
      remaining := remaining + [AccountMeta(tokenAccount, false, true)];
      remaining := remaining + [AccountMeta(transferAuthority, true, false)];
      instructions := instructions
        + [Library(Approve(tokenAccount, transferAuthority, payer, cms.state.data.price, [], TOKEN_PROGRAM_ID), [])];
      signers := signers + [transferAuthority];
      cleanup := cleanup + [Library(Revoke(tokenAccount, payer, [], TOKEN_PROGRAM_ID), [])];
    }
  }

  /** The collection branch of `mintOneToken`: when the collection PDA
      account exists and its fetch succeeds, its five accounts join the
      remaining accounts; a failed fetch is caught and logged and adds
      nothing. */
  method AddCollection(cms: CandyMachineState, find: FindProgramAddress, accounts: map<Key, AccountInfo>,
                       program: ProgramAccounts, remaining0: seq<AccountMeta>)
    returns (remaining: seq<AccountMeta>)
    ensures remaining == remaining0 + CollectionAccounts(cms, find, accounts, program)
  {
    remaining := remaining0;
    var collectionPda := GetCollectionPda(find, cms.id).address;
    if collectionPda in accounts {
      if collectionPda in program.collectionPdas {
        var collectionMint := program.collectionPdas[collectionPda];
        var collectionAuthorityRecord := GetCollectionAuthorityRecordPda(find, collectionMint, collectionPda).address;
        var collectionMetadata := GetMetadata(find, collectionMint);
        var collectionMasterEdition := GetMasterEdition(find, collectionMint);
        remaining := remaining + [
          AccountMeta(collectionPda, false, true),
          AccountMeta(collectionMint, false, false),
          AccountMeta(collectionMetadata, false, true),
          AccountMeta(collectionMasterEdition, false, false),
          AccountMeta(collectionAuthorityRecord, false, false)];
      }
    }
  }

  /** The plan assembled from the three branches, in the order they run. */
  lemma PlanOfSections(cms: CandyMachineState, find: FindProgramAddress, payer: Key, generated: GeneratedKeys,
                       rentExemption: int, accounts: map<Key, AccountInfo>, program: ProgramAccounts,
                       instructions: seq<Instruction>, cleanup: seq<Instruction>, signers: seq<Key>,
                       remaining: seq<AccountMeta>)
    requires var wd, td := WhitelistDelegations(cms, find, payer, generated, accounts),
                           TokenMintDelegations(cms, find, payer, generated);
             && instructions == SetupInstructions(find, payer, generated.mint, rentExemption)
                                + Approves(wd, payer) + Approves(td, payer)
             && cleanup == [] + Revokes(wd, payer) + Revokes(td, payer)
             && signers == [generated.mint, payer]
                           + (if BurnsWhitelistToken(cms) then [generated.whitelistBurnAuthority] else [])
                           + (if cms.state.tokenMint.Some? then [generated.transferAuthority] else [])
             && remaining == [] + WhitelistAccounts(cms, find, payer, generated)
                             + PaymentAccounts(cms, find, payer, generated) + CollectionAccounts(cms, find, accounts, program)
    ensures MintPlan(instructions + [MintNftInstruction(cms, find, payer, generated.mint, remaining)], cleanup, signers)
            == MintOneTokenPlan(cms, find, payer, generated, rentExemption, accounts, program)
  {
    var wd, td := WhitelistDelegations(cms, find, payer, generated, accounts),
                  TokenMintDelegations(cms, find, payer, generated);
    ApprovesRevokesAppend(wd, td, payer);
    var ds := Delegations(cms, find, payer, generated, accounts);
    assert instructions == SetupInstructions(find, payer, generated.mint, rentExemption) + Approves(ds, payer);
    assert cleanup == Revokes(ds, payer);
    assert signers == [generated.mint, payer] + ExtraSigners(cms, generated);
    assert remaining == RemainingAccounts(cms, find, payer, generated, accounts, program);
  }

  /** `mintOneToken`, assembled the way it is in `candymachine.ts`: three lists and the
      remaining accounts grow under the whitelist, token-mint and collection
      branches, and the `mintNft` instruction closes the list. The RPC reads
      are `accounts` and `program`, the rent-exempt minimum is
      `rentExemption`, and the generated keypairs are `generated`. */
  method MintOneToken(cms: CandyMachineState, find: FindProgramAddress, payer: Key, generated: GeneratedKeys,
                      rentExemption: int, accounts: map<Key, AccountInfo>, program: ProgramAccounts)
    returns (plan: MintPlan)
    ensures plan == MintOneTokenPlan(cms, find, payer, generated, rentExemption, accounts, program)
  {
    var mint := generated.mint;
    var token := GetTokenWallet(find, payer, mint);
    var metadata := GetMetadata(find, mint);
    var masterEdition := GetMasterEdition(find, mint);

    var remainingAccounts: seq<AccountMeta> := [];
    var signers: seq<Key> := [mint, payer];
    var cleanupInstructions: seq<Instruction> := [];
    var instructions: seq<Instruction> := [
      Library(CreateAccount(payer, mint, MINT_SIZE, rentExemption, TOKEN_PROGRAM_ID), []),
      Library(InitializeMint(mint, 0, payer, payer, TOKEN_PROGRAM_ID), []),
      CreateAssociatedTokenAccountInstruction(token, payer, payer, mint),
      Library(MintTo(mint, token, payer, 1, [], TOKEN_PROGRAM_ID), [])];
    assert instructions == SetupInstructions(find, payer, mint, rentExemption);

    remainingAccounts, signers, instructions, cleanupInstructions :=
      AddWhitelist(cms, find, payer, generated, accounts, remainingAccounts, signers, instructions, cleanupInstructions);
    remainingAccounts, signers, instructions, cleanupInstructions :=
      AddTokenMintPayment(cms, find, payer, generated, remainingAccounts, signers, instructions, cleanupInstructions);
    remainingAccounts := AddCollection(cms, find, accounts, program, remainingAccounts);


    var creator := GetCandyMachineCreator(find, cms.id);
    var accountsOfMint := MintNftAccounts(
      cms.id, creator.address, payer, cms.state.wallet, mint, metadata, masterEdition, payer, payer,
      TOKEN_METADATA_PROGRAM_ID, TOKEN_PROGRAM_ID, SYSTEM_PROGRAM_ID, SYSVAR_RENT_PUBKEY,
      SYSVAR_CLOCK_PUBKEY, SYSVAR_SLOT_HASHES_PUBKEY, SYSVAR_INSTRUCTIONS_PUBKEY);
    assert accountsOfMint == MintNftAccountsFor(cms, find, payer, mint);
    var instr := Library(MintNft(creator.bump, accountsOfMint,
      if |remainingAccounts| > 0 then Some(remainingAccounts) else None), []);
    assert instr == MintNftInstruction(cms, find, payer, mint, remainingAccounts);
    PlanOfSections(cms, find, payer, generated, rentExemption, accounts, program,
                   instructions, cleanupInstructions, signers, remainingAccounts);
    instructions := instructions + [instr];

    plan := MintPlan(instructions, cleanupInstructions, signers);
  }

  // Properties of the plan.

  /** The setup comes first, in its fixed order, then the approves, and the
      `mintNft` instruction is last and appears nowhere else. */
  lemma MintInstructionOrder(cms: CandyMachineState, find: FindProgramAddress, payer: Key, generated: GeneratedKeys,
                             rentExemption: int, accounts: map<Key, AccountInfo>, program: ProgramAccounts)
    ensures var ins := MintOneTokenPlan(cms, find, payer, generated, rentExemption, accounts, program).instructions;
            var mint, token := generated.mint, GetTokenWallet(find, payer, generated.mint);
            && |ins| >= 5
            && ins[0] == Library(CreateAccount(payer, mint, MINT_SIZE, rentExemption, TOKEN_PROGRAM_ID), [])
            && ins[1] == Library(InitializeMint(mint, 0, payer, payer, TOKEN_PROGRAM_ID), [])
            && ins[2] == CreateAssociatedTokenAccountInstruction(token, payer, payer, mint)
            && ins[3] == Library(MintTo(mint, token, payer, 1, [], TOKEN_PROGRAM_ID), [])
            && (forall i :: 4 <= i < |ins| - 1 ==> ins[i].Library? && ins[i].call.Approve?)
            && ins[|ins| - 1].Library? && ins[|ins| - 1].call.MintNft?
            && (forall i :: 0 <= i < |ins| - 1 ==> !(ins[i].Library? && ins[i].call.MintNft?))
  {
    var ds := Delegations(cms, find, payer, generated, accounts);
    var ins := MintOneTokenPlan(cms, find, payer, generated, rentExemption, accounts, program).instructions;
    var setup := SetupInstructions(find, payer, generated.mint, rentExemption);
    var approves := Approves(ds, payer);
    assert |ins| == 4 + |approves| + 1;
    forall i | 4 <= i < |ins| - 1
      ensures ins[i] == approves[i - 4]
    {
    }
  }

  /** Every approve is paired with a revoke of the same token account by
      the same owner, in the same order: there are as many cleanup
      instructions as approves. */
  lemma ApproveRevokePairing(cms: CandyMachineState, find: FindProgramAddress, payer: Key, generated: GeneratedKeys,
                             rentExemption: int, accounts: map<Key, AccountInfo>, program: ProgramAccounts)
    ensures var plan := MintOneTokenPlan(cms, find, payer, generated, rentExemption, accounts, program);
            var ins, cleanup := plan.instructions, plan.cleanupInstructions;
            && |cleanup| == |ins| - 5
            && forall i :: 0 <= i < |cleanup| ==>
                 var approve := ins[4 + i].call;
                 && ins[4 + i].Library? && approve.Approve? && approve.owner == payer
                 && cleanup[i] == Library(Revoke(approve.account, payer, [], TOKEN_PROGRAM_ID), [])
  {
    var ds := Delegations(cms, find, payer, generated, accounts);
    var plan := MintOneTokenPlan(cms, find, payer, generated, rentExemption, accounts, program);
    var approves := Approves(ds, payer);
    assert |plan.instructions| == 4 + |approves| + 1;
    forall i | 0 <= i < |plan.cleanupInstructions|
      ensures plan.instructions[4 + i] == ApproveFor(ds[i], payer)
    {
      assert plan.instructions[4 + i] == approves[i];
    }
  }

  /** Which approves a mint makes: the whitelist approve, for one token and
      to the burn authority, exactly when tokens are burnt and the payer's
      whitelist token account exists; then the payment approve, for `price`
      and to the transfer authority, exactly when the candy machine sells for
      a token. */
  lemma DelegationRules(cms: CandyMachineState, find: FindProgramAddress, payer: Key, generated: GeneratedKeys,
                        accounts: map<Key, AccountInfo>)
    ensures var ds := Delegations(cms, find, payer, generated, accounts);
            var whitelisted := BurnsWhitelistToken(cms)
              && WhitelistToken(find, cms.state.data.whitelistMintSettings.value, payer) in accounts;
            && |ds| == (if whitelisted then 1 else 0) + (if cms.state.tokenMint.Some? then 1 else 0)
            && (whitelisted ==>
                  ds[0] == Delegation(WhitelistToken(find, cms.state.data.whitelistMintSettings.value, payer),
                                      generated.whitelistBurnAuthority, 1))
            && (cms.state.tokenMint.Some? ==>
                  ds[|ds| - 1] == Delegation(GetTokenWallet(find, payer, cms.state.tokenMint.value),
                                             generated.transferAuthority, cms.state.data.price))
  {
  }

  /** Keypairs `Keypair.generate` makes are new: distinct from each other
      and from the payer. */
  predicate FreshKeys(payer: Key, generated: GeneratedKeys) {
    var m, b, t := generated.mint, generated.whitelistBurnAuthority, generated.transferAuthority;
    m != b && m != t && b != t && payer != m && payer != b && payer != t
  }

  /** Signers start as the mint and the payer. The burn authority joins
      exactly when whitelist tokens are burnt, whether or not the payer's
      whitelist token account exists; the transfer authority joins exactly
      when the candy machine sells for a token. */
  lemma SignerRules(cms: CandyMachineState, find: FindProgramAddress, payer: Key, generated: GeneratedKeys,
                    rentExemption: int, accounts: map<Key, AccountInfo>, program: ProgramAccounts)
    requires FreshKeys(payer, generated)
    ensures var signers := MintOneTokenPlan(cms, find, payer, generated, rentExemption, accounts, program).signers;
            && signers[..2] == [generated.mint, payer]
            && (generated.whitelistBurnAuthority in signers <==> BurnsWhitelistToken(cms))
            && (generated.transferAuthority in signers <==> cms.state.tokenMint.Some?)
            && |signers| == 2 + (if BurnsWhitelistToken(cms) then 1 else 0) + (if cms.state.tokenMint.Some? then 1 else 0)
            && signers == [generated.mint, payer]
                          + (if BurnsWhitelistToken(cms) then [generated.whitelistBurnAuthority] else [])
                          + (if cms.state.tokenMint.Some? then [generated.transferAuthority] else [])
  {
  }

  /** The remaining accounts of `mintNft`: the whitelist token account
      (writable); if tokens are burnt, the whitelist mint (writable) and the
      burn authority (signing); if the candy machine sells for a token, the
      payment token account (writable) and the transfer authority (signing);
      then the collection's entries. They are passed as `undefined` exactly
      when there are none. */
  lemma RemainingAccountRules(cms: CandyMachineState, find: FindProgramAddress, payer: Key, generated: GeneratedKeys,
                              rentExemption: int, accounts: map<Key, AccountInfo>, program: ProgramAccounts)
    ensures var ins := MintOneTokenPlan(cms, find, payer, generated, rentExemption, accounts, program).instructions;
            var remaining := RemainingAccounts(cms, find, payer, generated, accounts, program);
            var w := WhitelistAccounts(cms, find, payer, generated);
            var settings := cms.state.data.whitelistMintSettings;
            && ins[|ins| - 1].call.remainingAccounts == (if remaining == [] then None else Some(remaining))
            && |w| == (if settings.None? then 0 else if settings.value.burnEveryTime then 3 else 1)
            && (settings.Some? ==> remaining[0] == AccountMeta(WhitelistToken(find, settings.value, payer), false, true))
            && (BurnsWhitelistToken(cms) ==>
                  remaining[1..3] == [AccountMeta(settings.value.mint, false, true),
                                      AccountMeta(generated.whitelistBurnAuthority, true, false)])
            && (cms.state.tokenMint.Some? ==>
                  remaining[|w|..|w| + 2] == [AccountMeta(GetTokenWallet(find, payer, cms.state.tokenMint.value), false, true),
                                              AccountMeta(generated.transferAuthority, true, false)])
  {
    MintInstructionOrder(cms, find, payer, generated, rentExemption, accounts, program);
    var remaining := RemainingAccounts(cms, find, payer, generated, accounts, program);
    var w := WhitelistAccounts(cms, find, payer, generated);
    var pay := PaymentAccounts(cms, find, payer, generated);
    var c := CollectionAccounts(cms, find, accounts, program);
    assert remaining == w + pay + c;
    if cms.state.tokenMint.Some? {
      assert remaining[|w|..|w| + 2] == pay;
    }
  }

  /** The collection adds its five entries, last, exactly when the
      collection PDA account exists and its fetch succeeds; a failed fetch
      leaves the remaining accounts as they were. */
  lemma CollectionRules(cms: CandyMachineState, find: FindProgramAddress, payer: Key, generated: GeneratedKeys,
                        accounts: map<Key, AccountInfo>, program: ProgramAccounts)
    ensures var pda := GetCollectionPda(find, cms.id).address;
            var remaining := RemainingAccounts(cms, find, payer, generated, accounts, program);
            var before := WhitelistAccounts(cms, find, payer, generated) + PaymentAccounts(cms, find, payer, generated);
            && (pda in accounts && pda in program.collectionPdas ==>
                  |remaining| == |before| + 5 && remaining[..|before|] == before
                  && remaining[|before|] == AccountMeta(pda, false, true)
                  && remaining[|before| + 1] == AccountMeta(program.collectionPdas[pda], false, false)
                  && var collectionMint := program.collectionPdas[pda];
                     remaining[|before| + 2..] == [
                       AccountMeta(GetMetadata(find, collectionMint), false, true),
                       AccountMeta(GetMasterEdition(find, collectionMint), false, false),
                       AccountMeta(GetCollectionAuthorityRecordPda(find, collectionMint, pda).address, false, false)])
            && (!(pda in accounts && pda in program.collectionPdas) ==> remaining == before)
  {
    var remaining := RemainingAccounts(cms, find, payer, generated, accounts, program);
    var before := WhitelistAccounts(cms, find, payer, generated) + PaymentAccounts(cms, find, payer, generated);
    assert remaining == before + CollectionAccounts(cms, find, accounts, program);
  }
}
