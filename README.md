# Solana Pay mint fork: URL encoder, transaction builders, candy-machine mint

This project models the core of the `mint` package of a Solana Pay fork in Dafny:

- **URL encoder.** `encodePayURL` and `encodeMintURL` turn a payment or a mint intent into a `solana:` URL. Each builds an ordered list of `[key, value]` entries and joins them as `key=encodeURIComponent(value)` pairs separated by `&`.
- **Pay transaction builder.** `createPayTransaction` runs a chain of checks over the payer's and the recipient's accounts. The first check that fails decides the error. It then builds a native SOL transfer or a checked SPL token transfer. The transfer carries the reference keys, and an optional memo instruction goes before it.
- **Mint transaction builder.** `createMintTransaction` guards a candy-machine mint. `mintOneToken` assembles that mint as four lists:
  - the instructions;
  - the cleanup instructions;
  - the signers;
  - the remaining accounts of the `mintNft` instruction.

  Together with these come the helpers `getCandyMachineState` (the remaining item count), `createAssociatedTokenAccountInstruction` and `shortenAddress`.

Modules of the model:

- `Wrappers`: `Option` and `Result`.
- `Strings`: `indexOf`, `split`, `join` and JavaScript `slice`.
- `Utf8`: UTF-8 over Unicode scalar values, with its decoder.
- `UriComponent`: ECMAScript `encodeURIComponent`, with a percent-decoder as its partner.
- `Decimal`: BigNumber amounts as an integer mantissa and a scale.
  - `decimalPlaces()`;
  - `toFixed(decimalPlaces())`, with a parser that reads the text back;
  - `floor(amount × 10^d)`.
- `Solana`:
  - keys and the well-known program ids;
  - account metas;
  - instructions as values that record their arguments;
  - the ledger as maps from keys to account records;
  - address derivation as a function parameter.
- `EncodeUrl`: the two encoders as the source's imperative builders, proved against list-valued specification functions. The ordering, count and omission rules are proved about those lists. A URL parser is given as the partner of a round-trip lemma.
- `CandyMachine`: `mintOneToken` as an imperative builder proved against a plan function, with the assembly rules proved as lemmas about the plan.
- `CreateTransaction`: the two transaction builders as the source's if-chains. Each is proved against an outcome function. A pay build's checks form a list, and the outcome is the error of the first check that fails.

The RPC reads become parameters. Account data is a `Ledger` of maps. The candy machine program's accounts are a `ProgramAccounts` value. `findProgramAddress` is a function parameter. The keypairs from `Keypair.generate` and the rent-exempt minimum are parameters too.

## Model

| member | source | states |
|---|---|---|
| EncodeUrl.EncodePayUrl | mint/src/encodeURL.ts:120-129 | The URL is `solana:` plus the percent-encoded recipient, then `?` and the rendered pay entries when there are any. |
| EncodeUrl.EncodePayUrlParams | mint/src/encodeURL.ts:131-165 | The query is the rendering of the pay entry list: amount, spl-token, one entry per reference, then label, message and memo. |
| EncodeUrl.EncodeMintUrl | mint/src/encodeURL.ts:50-59 | The mint URL adds `?` and the query only when the mint entry list is non-empty. |
| EncodeUrl.EncodeMintUrlParams | mint/src/encodeURL.ts:61-103 | The query renders candy machine, config and treasury, all under `spl-token`, followed by the common tail. |
| EncodeUrl.PushReferences | mint/src/encodeURL.ts:142-150 | The loop appends one `reference` entry per key, in input order. A single key counts as a one-element list. |
| EncodeUrl.PushText | mint/src/encodeURL.ts:152-162 | A text entry is appended only when the text is present and not `""`. |
| EncodeUrl.PushTail | mint/src/encodeURL.ts:79-99 | Both encoders append references, label, message and memo in that order. |
| EncodeUrl.RenderQueryEmpty | mint/src/encodeURL.ts:123-126 | The joined query is `""` exactly when there are no entries, so the truthiness test on the string adds `?` exactly when entries exist. |
| EncodeUrl.ParseParamRender | mint/src/encodeURL.ts:164 | A rendered `key=encodeURIComponent(value)` pair reads back as the same key and value. |
| EncodeUrl.RenderParamHasNoAmpersand | mint/src/encodeURL.ts:164 | A rendered pair contains no `&`, so joining cannot merge or split pairs. |
| EncodeUrl.ParseParamsRender | mint/src/encodeURL.ts:164 | Rendering the pairs one by one and parsing them back gives the entry list. |
| EncodeUrl.QueryRoundTrip | mint/src/encodeURL.ts:164 | Splitting the `&`-joined query and decoding each pair gives back the entries in order. There is no leading or trailing separator. |
| EncodeUrl.UrlRoundTrip | mint/src/encodeURL.ts:120-129 | Parsing a URL built from a recipient and an entry list gives back that recipient's base-58 text and that list. |
| EncodeUrl.RestSplits | mint/src/encodeURL.ts:121-126 | After the protocol comes the encoded recipient. The first `?`, when the URL has one, directly follows it and is followed by the query. |
| EncodeUrl.EncodedHasNo | mint/src/encodeURL.ts:121 | `encodeURIComponent` output holds no character outside the unreserved set and `%`. In particular it holds no `?`. |
| EncodeUrl.QuestionMarkIffParams | mint/src/encodeURL.ts:120-129 | A URL contains `?` exactly when its entry list is non-empty, and it starts with `solana:`. |
| EncodeUrl.TailValues | mint/src/encodeURL.ts:142-162 | In the tail, the `reference` values are the keys' texts in order, and label, message and memo each appear at most once, only when truthy. |
| EncodeUrl.TailOrdered | mint/src/encodeURL.ts:142-162 | The tail is ordered reference, label, message, memo, and it holds no amount or spl-token entry. |
| EncodeUrl.TailEmpty | mint/src/encodeURL.ts:142-162 | The tail is empty exactly when there are no references and label, message and memo are all absent or `""`. |
| EncodeUrl.PayParamsOrdered | mint/src/encodeURL.ts:131-164 | The pay entries appear in the fixed order amount, spl-token, reference…, label, message, memo. |
| EncodeUrl.PayParamValues | mint/src/encodeURL.ts:131-164 | The values under each pay key are given key by key. A present amount appears once in fixed-point form and a present token once. There is one reference value per key in order, and each text appears once when truthy. |
| EncodeUrl.PayAmountReadsBack | mint/src/encodeURL.ts:134-136 | The single `amount` value parses back to the amount with exactly `decimalPlaces()` fractional digits. |
| EncodeUrl.MintParamsOrdered | mint/src/encodeURL.ts:61-99 | The mint entries put all `spl-token` entries before any reference, and they are ordered overall. |
| EncodeUrl.MintParamValues | mint/src/encodeURL.ts:61-99 | The `spl-token` values are candy machine, config and treasury in that order. The mint query never has an `amount`. The other keys follow the tail rules. |
| EncodeUrl.MintTailMatchesPay | mint/src/encodeURL.ts:79-99 | For the same references, label, message and memo, the mint and pay encoders emit the same values under every key other than amount and spl-token. |
| EncodeUrl.PayUrlQuery | mint/src/encodeURL.ts:120-165 | A pay URL has `?` exactly when an amount or token is given, there is a reference, or a label, message or memo is non-empty. |
| EncodeUrl.MintUrlQuery | mint/src/encodeURL.ts:50-103 | A mint URL has `?` exactly when one of the three keys is given, there is a reference, or a text field is non-empty. |
| EncodeUrl.TailPlain | mint/src/encodeURL.ts:142-162 | Every key the tail emits is non-empty and free of `=` and `&`. |
| EncodeUrl.PayUrlRoundTrip | mint/src/encodeURL.ts:120-165 | Parsing a pay URL gives back the recipient and exactly the pay entry list. |
| EncodeUrl.MintUrlRoundTrip | mint/src/encodeURL.ts:50-103 | Parsing a mint URL gives back the recipient and exactly the mint entry list. |
| UriComponent.DecodeEncode | mint/src/encodeURL.ts:164 | Percent-decoding the output of `encodeURIComponent` gives back the string. |
| UriComponent.EncodeChars | mint/src/encodeURL.ts:164 | `encodeURIComponent` emits only unreserved characters and `%`. |
| Utf8.DecodeEncode | mint/src/createTransaction.ts:218 | The UTF-8 bytes of a string decode back to the string. |
| Utf8.EncodeInjective | mint/src/createTransaction.ts:218 | Different memos have different UTF-8 data. |
| Decimal.DecimalPlaces | mint/src/createTransaction.ts:150 | `decimalPlaces()` is at most the written scale. |
| Decimal.NormalizeProperties | mint/src/encodeURL.ts:135 | Stripping trailing zeros keeps the value, leaves no trailing zero and has scale `decimalPlaces()`. |
| Decimal.ParseFixedText | mint/src/encodeURL.ts:135 | `toFixed(decimalPlaces())` reads back as the normalized amount, with exactly `decimalPlaces()` fractional digits. |
| Decimal.FixedTextShape | mint/src/encodeURL.ts:135 | The fixed-point text is an optional `-` and digits, with a `.` before exactly `decimalPlaces()` digits when there are any. It has no exponent. |
| Decimal.BaseUnits | mint/src/createTransaction.ts:153 | `amount × 10^d` rounded down: the result u satisfies u ≤ amount × 10^d < u + 1. |
| Decimal.BaseUnitsExact | mint/src/createTransaction.ts:150-153 | The rounding is exact if and only if the amount has at most d decimal places. |
| Strings.RelativeIndex | mint/src/candymachine.ts:427 | A JavaScript `slice` bound resolves to an index within the string. |
| Strings.SplitJoin | mint/src/encodeURL.ts:164 | Splitting a join of separator-free parts gives back the parts. |
| CandyMachine.GetCandyMachineState | mint/src/candymachine.ts:62-100 | A state exists exactly when the candy machine account is fetched. Then itemsRemaining + itemsRedeemed = itemsAvailable, and the go-live date is in milliseconds. |
| CandyMachine.CreateAssociatedTokenAccountInstruction | mint/src/candymachine.ts:32-60 | The instruction has seven keys in fixed order. Only the payer signs, and only the payer and the associated account are writable. The data is empty and the program is the associated-token program. |
| CandyMachine.ShortenAddress | mint/src/candymachine.ts:426-428 | The result is the first c characters, `...`, and the last c characters, each clamped to the length. With c = 0 it is `'...' + address`. |
| CandyMachine.ShortenAddressDefault | mint/src/candymachine.ts:426-428 | With the default of 4 and an address of at least 8 characters, the result is 11 characters: first 4, `...`, last 4. |
| CandyMachine.GetMetadata | mint/src/candymachine.ts:118-131 | The address is derived under the token-metadata program from the seeds `"metadata"`, the token-metadata program id and the mint. |
| CandyMachine.GetMasterEdition | mint/src/candymachine.ts:102-116 | The address is derived under the token-metadata program from `"metadata"`, the token-metadata program id, the mint and `"edition"`. |
| CandyMachine.GetTokenWallet | mint/src/candymachine.ts:133-143 | The address is derived under the associated-token program from the wallet, the token program id and the mint. It equals the address `getAtaForMint` gives for the same mint and wallet. |
| CandyMachine.GetCandyMachineCreator | mint/src/candymachine.ts:145-152 | The address and bump are derived under the candy machine program from `"candy_machine"` and the candy machine. |
| CandyMachine.GetAtaForMint | mint/src/candymachine.ts:154-162 | The address and bump are derived under the associated-token program from the buyer, the token program id and the mint. |
| CandyMachine.GetCollectionPda | mint/src/candymachine.ts:164-171 | The address and bump are derived under the candy machine program from `"collection"` and the candy machine. |
| CandyMachine.GetCollectionAuthorityRecordPda | mint/src/candymachine.ts:174-188 | The address and bump are derived under the token-metadata program from `"metadata"`, the token-metadata program id, the mint, `"collection_authority"` and the new authority. |
| CandyMachine.DerivedAddressesDistinct | mint/src/candymachine.ts:102-188 | For a collision-free derivation, the metadata, master edition and token wallet of one mint are distinct, and a candy machine's creator differs from its collection PDA. |
| CandyMachine.DerivedAddressesInjective | mint/src/candymachine.ts:102-188 | For a collision-free derivation, each helper's address determines the keys it was derived from: the mint, the wallet and mint, the candy machine, or the mint and authority. |
| CandyMachine.MintOneToken | mint/src/candymachine.ts:191-424 | The imperative assembly yields exactly the plan: setup, approves and `mintNft` as instructions, revokes as cleanup, and the signers. |
| CandyMachine.AddWhitelist | mint/src/candymachine.ts:240-294 | The whitelist branch appends the whitelist accounts, the burn authority as signer when burning, and the whitelist approve and revoke exactly when that delegation applies. |
| CandyMachine.AddTokenMintPayment | mint/src/candymachine.ts:296-333 | The token-mint branch appends the payment accounts, the transfer authority as signer, and the approve of `price` with its revoke, exactly when a token mint is set. |
| CandyMachine.AddCollection | mint/src/candymachine.ts:337-390 | The collection branch appends the five collection accounts exactly when the PDA account exists and its fetch succeeds. |
| CandyMachine.PlanOfSections | mint/src/candymachine.ts:203-422 | The setup instructions followed by the three branches' additions and the `mintNft` instruction form the plan of one mint. |
| CandyMachine.MintInstructionOrder | mint/src/candymachine.ts:207-420 | The first four instructions are, in order, createAccount, initializeMint with 0 decimals and the payer as both authorities, create-ATA, and mintTo of 1. Only approves follow, and `mintNft` is last and occurs only there. |
| CandyMachine.ApproveRevokePairing | mint/src/candymachine.ts:272-333 | Each approve is matched, in the same order, by a revoke of the same token account. There are as many cleanup instructions as approves. |
| CandyMachine.DelegationRules | mint/src/candymachine.ts:255-333 | The whitelist approve (amount 1) is added only when burning is on and the whitelist token account exists. The token-mint approve uses the price. |
| CandyMachine.SignerRules | mint/src/candymachine.ts:204-325 | Signers are exactly `[mint, payer]`, then the burn authority when burning is on (whether or not the whitelist account exists), then the transfer authority when a token mint is set. With fresh keys, each authority is a signer exactly under its condition. |
| CandyMachine.RemainingAccountRules | mint/src/candymachine.ts:249-415 | The remaining accounts are, in order: the whitelist token (writable), then the whitelist mint and burn authority when burning, then the payment account and transfer authority. When the list is empty it is passed as `undefined`. |
| CandyMachine.CollectionRules | mint/src/candymachine.ts:337-390 | The collection entries come after the others, only when the collection PDA account exists and its fetch succeeds. They are, in order: the PDA (writable), the collection mint, its metadata (writable), its master edition and the collection authority record. Otherwise the list is unchanged. |
| CreateTransaction.CreatePayTransaction | mint/src/createTransaction.ts:123-227 | The if-chain, the reference loop and the memo assembly give the outcome function: the first failed check's error, or the transaction. |
| CreateTransaction.NativeTransfer | mint/src/createTransaction.ts:141-165 | The native checks and the lamport conversion give the outcome of the native check list. |
| CreateTransaction.TokenTransfer | mint/src/createTransaction.ts:167-196 | The token checks and conversion give the outcome of the token check list. |
| CreateTransaction.FetchTokenAccount | mint/src/createTransaction.ts:179-188 | A token account is fetched exactly when its three checks pass: it exists, is initialized and is not frozen. Otherwise the first failed check's error is returned. |
| CreateTransaction.PayFailureIsFirstFailedCheck | mint/src/createTransaction.ts:131-192 | Every failure is the error of a check that fails while all earlier checks hold. |
| CreateTransaction.PayAccountsFirst | mint/src/createTransaction.ts:131-135 | A missing payer fails with 'payer not found'. Otherwise a missing recipient fails with 'recipient not found'. This holds whatever the token and amount. |
| CreateTransaction.NativeSucceedsIff | mint/src/createTransaction.ts:141-165 | A native payment succeeds if and only if all of these hold: both accounts exist, both are owned by the system program, neither is executable, the scale is at most 9, and the lamports do not exceed the balance. |
| CreateTransaction.NativeDecimalsBeforeFunds | mint/src/createTransaction.ts:150-157 | With valid accounts, more than 9 decimal places fails with 'amount decimals invalid' before the balance is compared. |
| CreateTransaction.NativeTransferExact | mint/src/createTransaction.ts:150-164 | A built native transfer goes from payer to recipient with exactly amount × 10^9 lamports, within the balance. |
| CreateTransaction.TokenSucceedsIff | mint/src/createTransaction.ts:167-196 | A token payment succeeds if and only if all of these hold: both accounts exist; the mint is fetched and initialized, and the amount fits its decimals; both token accounts are fetched, initialized and not frozen; the balance covers the tokens. |
| CreateTransaction.TokenTransferExact | mint/src/createTransaction.ts:173-195 | A built token transfer goes between the two associated token accounts, with the payer as owner. It records the mint and its decimals, and moves exactly amount × 10^decimals units. |
| CreateTransaction.PayTransactionShape | mint/src/createTransaction.ts:199-226 | The transaction is `[memo, transfer]` when a memo (even `""`) is given and `[transfer]` otherwise. The memo has no keys and UTF-8 data that decodes to the memo. The references are appended in order as read-only non-signers. |
| CreateTransaction.CreateMintTransaction | mint/src/createTransaction.ts:51-107 | The guards and the assembly give the mint outcome function. |
| CreateTransaction.MintSucceedsIff | mint/src/createTransaction.ts:53-67 | A mint is built if and only if all of these hold: the payer exists, the candy machine id is given and fetched, and available − redeemed is not exactly 0. |
| CreateTransaction.MintCleanupPresence | mint/src/createTransaction.ts:74-105 | A built mint carries the plan's instructions and signers. It carries a cleanup transaction exactly when the cleanup list is non-empty, and that transaction holds the list. |

The URL parser (`ParseUrl`, `ParseQuery`, `ParseParam`) and the percent-decoder exist only as partners for the round-trip lemmas. The repository's own URL parser is not part of this model.

A library instruction is modelled as `Library(call, appendedKeys)`. The keys the library builder puts on the transfer are implied by `call`, and the reference metas are kept separately in `appendedKeys`. So the keys present before the references are unchanged by construction.

## Left out

- RPC reads are lookups in maps passed in as `Ledger` and `ProgramAccounts`, so network failures and asynchrony are not modelled. This covers `getAccountInfo`, `getMint`, `getAccount`, `program.account.*.fetch` and `getMinimumBalanceForRentExemption`. Every fetch or decode error of the token library and of the program client becomes `AccountFetchError(address)`.
- `Program.fetchIdl` is assumed to succeed, and the Anchor `Provider` and `Wallet` wrappers are not modelled.
- Base-58 encoding is not modelled: a key is its base-58 text. Address derivation is a function parameter `find`, and `Keypair.generate` is replaced by the keys in `GeneratedKeys`, because derivation is hashing and key generation is randomness.
- Byte layouts of library instructions are not modelled. `SystemProgram.transfer`, `createTransferCheckedInstruction`, `createAccount`, `createInitializeMintInstruction`, `createMintToInstruction`, approve, revoke and `mintNft` are constructors that record their arguments. Only the memo instruction and the associated-token-account instruction are built explicitly, because the core builds those itself.
- The `Transaction` object is modelled as its instruction list. Fee payer, blockhash and signing are not set by these functions.
- CreateTransaction.NativeTransfer: the lamports are compared as exact integers, because the conversion to a JavaScript float by `amount.toNumber()` is not modelled.
- CreateTransaction.TokenTransfer: `BigInt(String(amount))` is taken to be the exact integer, because the exponent notation `String` uses for BigNumbers of 10^21 and more, which would make `BigInt` throw, is not modelled.
- CreateTransaction.TokenTransfer: `getAssociatedTokenAddress` derives an address for any owner, because its rejection of owners off the ed25519 curve is not modelled.
- CandyMachine.GetCandyMachineState: bn.js `toNumber()` is exact below 2^53 and throws at 2^53 and above. The model leaves out that throw: it returns a state for any item counts and go-live date. `new Date(...)` is modelled as its millisecond value.
- CandyMachine.MintOneToken: the token-mint approve takes `price.toNumber()`, which throws for a price of 2^53 or more. The model leaves out that throw and approves any price.
- Only finite amounts are modelled. NaN and infinite BigNumbers are not, and neither is the rounding mode argument beyond `ROUND_FLOOR`.
- Strings are sequences of Unicode scalar values. So `encodeURIComponent`'s `URIError` on a lone surrogate, and `Buffer.from`'s replacement of one, cannot arise.
- `console.log` and `console.error` are not modelled. The try/catch around the collection fetch is modelled by its effect: a failed fetch adds nothing.
- The repository's decoder (`parseMintURL`), signature finder and validators are not part of this model, because they are not among the files shown.
- The drivers under `mint/example/` are not modelled: polling, timers, airdrops, submission and `process.exit`.
