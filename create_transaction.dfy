/** The transaction builders: `createPayTransaction`, a chain of checks over
    the payer's and recipient's accounts followed by a native or token
    transfer carrying the references and an optional memo before it, and the
    guards of `createMintTransaction` around one candy-machine mint. */
module CreateTransaction {
  import opened Wrappers
  import Utf8
  import opened Decimal
  import opened Solana
  import opened Strings
  import opened CandyMachine

  /** `SOL_DECIMALS`: a lamport is 10^-9 SOL (`LAMPORTS_PER_SOL`). */
  const SOL_DECIMALS: nat := 9

  /** What a build can throw: a `CreateTransactionError` with its message,
      or the token library's or the candy machine program's error for an
      account it could not fetch or decode. */
  datatype Error =
    | CreateTransactionError(message: string)
    | AccountFetchError(address: Key)

  // Guards as an ordered list of checks.

  /** One guard: the condition that lets the build go on, and what is
      thrown when it does not hold. */
  datatype Check = Check(holds: bool, error: Error)

  /** The error of the first check that does not hold. */
  function FirstFailed(checks: seq<Check>): Option<Error> {
    if checks == [] then None
    else if !checks[0].holds then Some(checks[0].error)
    else FirstFailed(checks[1..])
  }

  /** No check fails exactly when all hold. */
  lemma {:induction false} FirstFailedNone(checks: seq<Check>)
    ensures FirstFailed(checks).None? <==> forall i :: 0 <= i < |checks| ==> checks[i].holds
  {
    if checks != [] {
      FirstFailedNone(checks[1..]);
      assert forall i :: 1 <= i < |checks| ==> checks[i] == checks[1..][i - 1];
    }
  }

  /** The error is that of check `i` when every earlier check holds and
      check `i` does not: later checks are never consulted. */
  lemma {:induction false} FirstFailedAt(checks: seq<Check>, i: nat)
    requires i < |checks| && !checks[i].holds
    requires forall j :: 0 <= j < i ==> checks[j].holds
    ensures FirstFailed(checks) == Some(checks[i].error)
  {
    if i > 0 {
      assert forall j :: 0 <= j < i - 1 ==> checks[1..][j] == checks[j + 1];
      FirstFailedAt(checks[1..], i - 1);
    }
  }

  /** Passing check `k` leaves the first failure to the checks after it. */
  lemma PassAt(checks: seq<Check>, k: nat)
    requires k < |checks| && checks[k].holds
    ensures FirstFailed(checks[k..]) == FirstFailed(checks[k + 1..])
  {
    assert checks[k..][1..] == checks[k + 1..];
  }

  /** A failing check `k` is the first failure of the checks from `k` on. */
  lemma FailAt(checks: seq<Check>, k: nat)
    requires k < |checks| && !checks[k].holds
    ensures FirstFailed(checks[k..]) == Some(checks[k].error)
  {
    assert checks[k..][0] == checks[k];
  }

  /** Checks in sequence: the second list is consulted only when the first
      passes. */
  lemma {:induction false} FirstFailedAppend(a: seq<Check>, b: seq<Check>)
    ensures FirstFailed(a + b) == if FirstFailed(a).Some? then FirstFailed(a) else FirstFailed(b)
  {
    if a != [] {
      assert (a + b)[1..] == a[1..] + b;
      FirstFailedAppend(a[1..], b);
    } else {
      assert a + b == b;
    }
  }

  /** Conversely, a failure names a check that fails after all earlier
      ones held. */
  lemma {:induction false} FirstFailedWitness(checks: seq<Check>)
    requires FirstFailed(checks).Some?
    ensures exists i :: 0 <= i < |checks| && !checks[i].holds && checks[i].error == FirstFailed(checks).value
                        && forall j :: 0 <= j < i ==> checks[j].holds
  {
    if checks[0].holds {
      FirstFailedWitness(checks[1..]);
      var i :| 0 <= i < |checks[1..]| && !checks[1..][i].holds && checks[1..][i].error == FirstFailed(checks).value
               && forall j :: 0 <= j < i ==> checks[1..][j].holds;
      assert forall j :: 1 <= j < i + 1 ==> checks[j] == checks[1..][j - 1];
      assert checks[i + 1] == checks[1..][i];
    } else {
      assert !checks[0].holds;
    }
  }

  // createPayTransaction.

  function Fail(message: string): Error {
    CreateTransactionError(message)
  }

  /** The checks of `createPayTransaction`, in the order `createPayTransaction`
      makes them. A check on fetched data is written `fetched ==> condition`; the
      check that the fetch succeeded comes earlier, so the first failure is
      the same. */
  function PayChecks(ledger: Ledger, find: FindProgramAddress, payer: Key, recipient: Key,
                     amount: Decimal, splToken: Option<Key>): seq<Check> {
    match splToken
    case None => NativeChecks(ledger, payer, recipient, amount)
    case Some(mint) =>
      var T := ledger.tokenAccounts;
      var payerAta, recipientAta := AssociatedTokenAddress(find, payer, mint), AssociatedTokenAddress(find, recipient, mint);
      TokenHeadChecks(ledger, payer, recipient, amount, mint)
        + TokenAccountChecks(T, payerAta, "payer") + TokenAccountChecks(T, recipientAta, "recipient")
        + [FundsCheck(ledger, amount, mint, payerAta)]
  }

  /** The native branch: account lookups, both accounts owned by the system
      program and not executable, the amount no finer than a lamport and
      covered by the payer's balance. */
  function NativeChecks(ledger: Ledger, payer: Key, recipient: Key, amount: Decimal): seq<Check> {
    var A := ledger.accounts;
    [ Check(payer in A, Fail("payer not found")),
      Check(recipient in A, Fail("recipient not found")),
      Check(payer in A ==> A[payer].owner == SYSTEM_PROGRAM_ID, Fail("payer owner invalid")),
      Check(payer in A ==> !A[payer].executable, Fail("payer executable")),
      Check(recipient in A ==> A[recipient].owner == SYSTEM_PROGRAM_ID, Fail("recipient owner invalid")),
      Check(recipient in A ==> !A[recipient].executable, Fail("recipient executable")),
      Check(DecimalPlaces(amount) <= SOL_DECIMALS, Fail("amount decimals invalid")),
      Check(payer in A ==> BaseUnits(amount, SOL_DECIMALS) <= A[payer].lamports, Fail("insufficient funds"))]
  }

  /** The token branch up to the mint: account lookups, then the mint is
      fetched, initialized and fine enough for the amount. */
  function TokenHeadChecks(ledger: Ledger, payer: Key, recipient: Key, amount: Decimal, mint: Key): seq<Check> {
    var A, M := ledger.accounts, ledger.mints;
    [ Check(payer in A, Fail("payer not found")),
      Check(recipient in A, Fail("recipient not found")),
      Check(mint in M, AccountFetchError(mint)),
      Check(mint in M ==> M[mint].isInitialized, Fail("mint not initialized")),
      Check(mint in M ==> DecimalPlaces(amount) <= M[mint].decimals, Fail("amount decimals invalid")) ]
  }

  /** An associated token account, the payer's or the recipient's (`role`):
      fetched, initialized, not frozen. */
  function TokenAccountChecks(T: map<Key, TokenAccountInfo>, ata: Key, role: string): seq<Check> {
    [ Check(ata in T, AccountFetchError(ata)),
      Check(ata in T ==> T[ata].isInitialized, Fail(role + " not initialized")),
      Check(ata in T ==> !T[ata].isFrozen, Fail(role + " frozen")) ]
  }

  /** The payer's token account covers the amount in base units. */
  function FundsCheck(ledger: Ledger, amount: Decimal, mint: Key, payerAta: Key): Check {
    var M, T := ledger.mints, ledger.tokenAccounts;
    Check(mint in M && payerAta in T ==> BaseUnits(amount, M[mint].decimals) <= T[payerAta].amount,
          Fail("insufficient funds"))
  }

  /** The transfer: native lamports `floor(amount × 10^9)` from payer to
      recipient, or `floor(amount × 10^decimals)` tokens between the two
      associated token accounts, checked against the mint and its
      decimals. */
  function Transfer(ledger: Ledger, find: FindProgramAddress, payer: Key, recipient: Key,
                    amount: Decimal, splToken: Option<Key>): LibraryCall
    requires splToken.Some? ==> splToken.value in ledger.mints
  {
    match splToken
    case None => SystemTransfer(payer, recipient, BaseUnits(amount, SOL_DECIMALS))
    case Some(mint) =>
      var decimals := ledger.mints[mint].decimals;
      TransferChecked(AssociatedTokenAddress(find, payer, mint), mint, AssociatedTokenAddress(find, recipient, mint),
                      payer, BaseUnits(amount, decimals), decimals)
  }

  /** The references as extra keys: read-only and not signing. */
  function ReferenceMetas(keys: seq<Key>): seq<AccountMeta> {
    seq(|keys|, i requires 0 <= i < |keys| => AccountMeta(keys[i], false, false))
  }

  /** The memo program instruction: no keys, the memo's UTF-8 bytes. */
  function MemoInstruction(memo: string): Instruction {
    Explicit(MEMO_PROGRAM_ID, [], Utf8.Encode(memo))
  }

  /** The transaction of a successful build: the memo when one is given
      (`memo != null`, so also `""`), then the transfer with the references
      appended. */
  function PayInstructions(transfer: LibraryCall, references: seq<Key>, memo: Option<string>): seq<Instruction> {
    (if memo.Some? then [MemoInstruction(memo.value)] else []) + [Library(transfer, ReferenceMetas(references))]
  }

  /** The outcome of the checks: the first failed check's error, or the
      transfer. */
  function TransferOutcome(ledger: Ledger, find: FindProgramAddress, payer: Key, recipient: Key, amount: Decimal,
                           splToken: Option<Key>): Result<LibraryCall, Error> {
    var checks := PayChecks(ledger, find, payer, recipient, amount, splToken);
    match FirstFailed(checks)
    case Some(e) => Failure(e)
    case None =>
      FirstFailedNone(checks);
      assert splToken.Some? ==> checks[2].holds;
      Success(Transfer(ledger, find, payer, recipient, amount, splToken))
  }

  /** What `createPayTransaction` resolves to: the first failed check's
      error, or the transaction. */
  function PayOutcome(ledger: Ledger, find: FindProgramAddress, payer: Key, recipient: Key, amount: Decimal,
                      splToken: Option<Key>, reference: Reference, memo: Option<string>): Result<seq<Instruction>, Error> {
    match TransferOutcome(ledger, find, payer, recipient, amount, splToken)
    case Failure(e) => Failure(e)
    case Success(transfer) => Success(PayInstructions(transfer, ReferenceList(reference), memo))
  }

  /** `createPayTransaction`, as `createTransaction.ts` writes it: the reads are lookups
      in `ledger`, `getAssociatedTokenAddress` derives through `find`. */
  method CreatePayTransaction(ledger: Ledger, find: FindProgramAddress, payer: Key, recipient: Key, amount: Decimal,
                              splToken: Option<Key>, reference: Reference, memo: Option<string>)
    returns (r: Result<seq<Instruction>, Error>)
    ensures r == PayOutcome(ledger, find, payer, recipient, amount, splToken, reference, memo)
  {
    var checks := PayChecks(ledger, find, payer, recipient, amount, splToken);
    if payer !in ledger.accounts {
      FirstFailedAt(checks, 0);
      return Failure(Fail("payer not found"));
    }
    if recipient !in ledger.accounts {
      FirstFailedAt(checks, 1);
      return Failure(Fail("recipient not found"));
    }

    var prepared: Result<LibraryCall, Error>;
    if splToken.None? {
      prepared := NativeTransfer(ledger, payer, recipient, amount);
    } else {
      prepared := TokenTransfer(ledger, find, payer, recipient, amount, splToken.value);
    }
    if prepared.Failure? {
      return Failure(prepared.error);
    }
    var instruction := prepared.value;

    var keys: seq<AccountMeta> := [];
    if !reference.NoReference? {
      var references := if reference.OneReference? then [reference.key] else reference.keys;
      for i := 0 to |references|
        invariant keys == ReferenceMetas(references[..i])
      {
        assert ReferenceMetas(references[..i + 1]) == ReferenceMetas(references[..i]) + [AccountMeta(references[i], false, false)];
        keys := keys + [AccountMeta(references[i], false, false)];
      }
      assert references[..|references|] == references;
    }
    assert keys == ReferenceMetas(ReferenceList(reference));

    var transaction: seq<Instruction> := [];
    if memo.Some? {
      transaction := transaction + [Explicit(MEMO_PROGRAM_ID, [], Utf8.Encode(memo.value))];
    }
    transaction := transaction + [Library(instruction, keys)];
    assert transaction == PayInstructions(instruction, ReferenceList(reference), memo);
    return Success(transaction);
  }

  /** The native branch of `createPayTransaction`, once both accounts are
      fetched. Check `k` passed leaves the outcome to `checks[k + 1..]`. */
  method NativeTransfer(ledger: Ledger, payer: Key, recipient: Key, amount: Decimal)
    returns (r: Result<LibraryCall, Error>)
    requires payer in ledger.accounts && recipient in ledger.accounts
    ensures forall find :: r == TransferOutcome(ledger, find, payer, recipient, amount, None)
  {
    ghost var checks := NativeChecks(ledger, payer, recipient, amount);
    assert checks[0..] == checks;
    PassAt(checks, 0);
    PassAt(checks, 1);
    var payerInfo, recipientInfo := ledger.accounts[payer], ledger.accounts[recipient];
    if payerInfo.owner != SYSTEM_PROGRAM_ID {
      FailAt(checks, 2);
      return Failure(Fail("payer owner invalid"));
    }
    PassAt(checks, 2);
    if payerInfo.executable {
      FailAt(checks, 3);
      return Failure(Fail("payer executable"));
    }
    PassAt(checks, 3);
    if recipientInfo.owner != SYSTEM_PROGRAM_ID {
      FailAt(checks, 4);
      return Failure(Fail("recipient owner invalid"));
    }
    PassAt(checks, 4);
    if recipientInfo.executable {
      FailAt(checks, 5);
      return Failure(Fail("recipient executable"));
    }
    PassAt(checks, 5);
    if DecimalPlaces(amount) > SOL_DECIMALS {
      FailAt(checks, 6);
      return Failure(Fail("amount decimals invalid"));
    }
    PassAt(checks, 6);
    var lamports := BaseUnits(amount, SOL_DECIMALS);
    if lamports > payerInfo.lamports {
      FailAt(checks, 7);
      return Failure(Fail("insufficient funds"));
    }
    PassAt(checks, 7);
    assert checks[8..] == [];
    return Success(SystemTransfer(payer, recipient, lamports));
  }

  /** The token branch of `createPayTransaction`, once both accounts are
      fetched. Check `k` passed leaves the outcome to `head[k + 1..]`. */
  method TokenTransfer(ledger: Ledger, find: FindProgramAddress, payer: Key, recipient: Key, amount: Decimal, mintAddress: Key)
    returns (r: Result<LibraryCall, Error>)
    requires payer in ledger.accounts && recipient in ledger.accounts
    ensures r == TransferOutcome(ledger, find, payer, recipient, amount, Some(mintAddress))
  {
    var payerAta := AssociatedTokenAddress(find, payer, mintAddress);
    var recipientAta := AssociatedTokenAddress(find, recipient, mintAddress);
    ghost var head := TokenHeadChecks(ledger, payer, recipient, amount, mintAddress);
    ghost var payerChecks := TokenAccountChecks(ledger.tokenAccounts, payerAta, "payer");
    ghost var recipientChecks := TokenAccountChecks(ledger.tokenAccounts, recipientAta, "recipient");
    ghost var funds := [FundsCheck(ledger, amount, mintAddress, payerAta)];
    ghost var checks := PayChecks(ledger, find, payer, recipient, amount, Some(mintAddress));
    assert checks == head + payerChecks + recipientChecks + funds;
    FirstFailedAppend(head + payerChecks + recipientChecks, funds);
    FirstFailedAppend(head + payerChecks, recipientChecks);
    FirstFailedAppend(head, payerChecks);

    assert head[0..] == head;
    PassAt(head, 0);
    PassAt(head, 1);
    if mintAddress !in ledger.mints {
      FailAt(head, 2);
      return Failure(AccountFetchError(mintAddress));
    }
    PassAt(head, 2);
    var mint := ledger.mints[mintAddress];
    if !mint.isInitialized {
      FailAt(head, 3);
      return Failure(Fail("mint not initialized"));
    }
    PassAt(head, 3);
    if DecimalPlaces(amount) > mint.decimals {
      FailAt(head, 4);
      return Failure(Fail("amount decimals invalid"));
    }
    PassAt(head, 4);
    assert head[5..] == [];
    var tokens := BaseUnits(amount, mint.decimals);

    var payerAccount := FetchTokenAccount(ledger, payerAta, "payer");
    if payerAccount.Failure? {
      return Failure(payerAccount.error);
    }
    var recipientAccount := FetchTokenAccount(ledger, recipientAta, "recipient");
    if recipientAccount.Failure? {
      return Failure(recipientAccount.error);
    }

    if tokens > payerAccount.value.amount {
      return Failure(Fail("insufficient funds"));
    }
    return Success(TransferChecked(payerAta, mintAddress, recipientAta, payer, tokens, mint.decimals));
  }

  /** `getAccount` of an associated token account followed by
      `createPayTransaction`'s two checks on it, whose messages name the account's `role`. */
  method FetchTokenAccount(ledger: Ledger, ata: Key, role: string) returns (r: Result<TokenAccountInfo, Error>)
    ensures FirstFailed(TokenAccountChecks(ledger.tokenAccounts, ata, role)) == if r.Failure? then Some(r.error) else None
    ensures r.Success? ==> ata in ledger.tokenAccounts && r.value == ledger.tokenAccounts[ata]
  {
    var checks := TokenAccountChecks(ledger.tokenAccounts, ata, role);
    assert checks[0..] == checks;
    if ata !in ledger.tokenAccounts {
      FailAt(checks, 0);
      return Failure(AccountFetchError(ata));
    }
    PassAt(checks, 0);
    var account := ledger.tokenAccounts[ata];
    if !account.isInitialized {
      FailAt(checks, 1);
      return Failure(Fail(role + " not initialized"));
    }
    PassAt(checks, 1);
    if account.isFrozen {
      FailAt(checks, 2);
      return Failure(Fail(role + " frozen"));
    }
    PassAt(checks, 2);
    assert checks[3..] == [];
    return Success(account);
  }

  // Properties of createPayTransaction.

  /** A failure is always the error of a check that fails while every
      check before it holds: no error is raised out of order. */
  lemma PayFailureIsFirstFailedCheck(ledger: Ledger, find: FindProgramAddress, payer: Key, recipient: Key, amount: Decimal,
                                     splToken: Option<Key>, reference: Reference, memo: Option<string>)
    requires PayOutcome(ledger, find, payer, recipient, amount, splToken, reference, memo).Failure?
    ensures var checks := PayChecks(ledger, find, payer, recipient, amount, splToken);
      exists i :: 0 <= i < |checks| && !checks[i].holds
                  && checks[i].error == PayOutcome(ledger, find, payer, recipient, amount, splToken, reference, memo).error
                  && forall j :: 0 <= j < i ==> checks[j].holds
  {
    FirstFailedWitness(PayChecks(ledger, find, payer, recipient, amount, splToken));
  }

  /** The accounts are looked up first, the payer before the recipient,
      whatever is being transferred. */
  lemma PayAccountsFirst(ledger: Ledger, find: FindProgramAddress, payer: Key, recipient: Key, amount: Decimal,
                         splToken: Option<Key>, reference: Reference, memo: Option<string>)
    ensures payer !in ledger.accounts ==>
      PayOutcome(ledger, find, payer, recipient, amount, splToken, reference, memo) == Failure(Fail("payer not found"))
    ensures payer in ledger.accounts && recipient !in ledger.accounts ==>
      PayOutcome(ledger, find, payer, recipient, amount, splToken, reference, memo) == Failure(Fail("recipient not found"))
  {
    var checks := PayChecks(ledger, find, payer, recipient, amount, splToken);
    if payer !in ledger.accounts {
      FirstFailedAt(checks, 0);
    } else if recipient !in ledger.accounts {
      FirstFailedAt(checks, 1);
    }
  }

  /** Which native SOL payments succeed: both accounts exist, are owned by
      the system program and are not executable, the amount has at most nine
      decimal places, and the payer holds at least that many lamports. */
  lemma NativeSucceedsIff(ledger: Ledger, find: FindProgramAddress, payer: Key, recipient: Key, amount: Decimal,
                          reference: Reference, memo: Option<string>)
    ensures PayOutcome(ledger, find, payer, recipient, amount, None, reference, memo).Success? <==>
      var A := ledger.accounts;
      && payer in A && recipient in A
      && A[payer].owner == SYSTEM_PROGRAM_ID && !A[payer].executable
      && A[recipient].owner == SYSTEM_PROGRAM_ID && !A[recipient].executable
      && DecimalPlaces(amount) <= SOL_DECIMALS
      && BaseUnits(amount, SOL_DECIMALS) <= A[payer].lamports
  {
    var checks := PayChecks(ledger, find, payer, recipient, amount, None);
    FirstFailedNone(checks);
    if FirstFailed(checks).None? {
      assert checks[0].holds && checks[1].holds && checks[2].holds && checks[3].holds;
      assert checks[4].holds && checks[5].holds && checks[6].holds && checks[7].holds;
    }
  }

  /** Too many decimal places is reported before a short balance: once the
      accounts pass, a native amount finer than a lamport fails with
      `amount decimals invalid` whatever the payer holds. */
  lemma NativeDecimalsBeforeFunds(ledger: Ledger, find: FindProgramAddress, payer: Key, recipient: Key, amount: Decimal,
                                  reference: Reference, memo: Option<string>)
    requires payer in ledger.accounts && recipient in ledger.accounts
    requires ledger.accounts[payer].owner == SYSTEM_PROGRAM_ID && !ledger.accounts[payer].executable
    requires ledger.accounts[recipient].owner == SYSTEM_PROGRAM_ID && !ledger.accounts[recipient].executable
    requires DecimalPlaces(amount) > SOL_DECIMALS
    ensures PayOutcome(ledger, find, payer, recipient, amount, None, reference, memo) == Failure(Fail("amount decimals invalid"))
  {
    var checks := PayChecks(ledger, find, payer, recipient, amount, None);
    assert checks == NativeChecks(ledger, payer, recipient, amount);
    assert checks[0].holds && checks[1].holds && checks[2].holds;
    assert checks[3].holds && checks[4].holds && checks[5].holds;
    FirstFailedAt(checks, 6);
  }

  /** A native payment moves exactly `amount × 10^9` lamports: the decimals
      check makes the rounding down of `createPayTransaction`'s conversion
      exact. */
  lemma NativeTransferExact(ledger: Ledger, find: FindProgramAddress, payer: Key, recipient: Key, amount: Decimal,
                            reference: Reference, memo: Option<string>)
    requires PayOutcome(ledger, find, payer, recipient, amount, None, reference, memo).Success?
    ensures var tx := PayOutcome(ledger, find, payer, recipient, amount, None, reference, memo).value;
      && tx[|tx| - 1].Library? && tx[|tx| - 1].call.SystemTransfer?
      && tx[|tx| - 1].call.fromPubkey == payer && tx[|tx| - 1].call.toPubkey == recipient
      && Shift(tx[|tx| - 1].call.lamports, amount.scale) == Shift(amount.mantissa, SOL_DECIMALS)
      && tx[|tx| - 1].call.lamports <= ledger.accounts[payer].lamports
  {
    NativeSucceedsIff(ledger, find, payer, recipient, amount, reference, memo);
    BaseUnitsExact(amount, SOL_DECIMALS);
  }

  /** Which token payments succeed: both accounts exist, the mint is
      fetched and initialized and the amount fits its decimals, both
      associated token accounts are fetched, initialized and not frozen,
      and the payer's holds at least the amount in base units. */
  lemma TokenSucceedsIff(ledger: Ledger, find: FindProgramAddress, payer: Key, recipient: Key, amount: Decimal,
                         mint: Key, reference: Reference, memo: Option<string>)
    ensures PayOutcome(ledger, find, payer, recipient, amount, Some(mint), reference, memo).Success? <==>
      var A, M, T := ledger.accounts, ledger.mints, ledger.tokenAccounts;
      var payerAta, recipientAta := AssociatedTokenAddress(find, payer, mint), AssociatedTokenAddress(find, recipient, mint);
      && payer in A && recipient in A
      && mint in M && M[mint].isInitialized && DecimalPlaces(amount) <= M[mint].decimals
      && payerAta in T && T[payerAta].isInitialized && !T[payerAta].isFrozen
      && recipientAta in T && T[recipientAta].isInitialized && !T[recipientAta].isFrozen
      && BaseUnits(amount, M[mint].decimals) <= T[payerAta].amount
  {
    var T := ledger.tokenAccounts;
    var payerAta, recipientAta := AssociatedTokenAddress(find, payer, mint), AssociatedTokenAddress(find, recipient, mint);
    var head := TokenHeadChecks(ledger, payer, recipient, amount, mint);
    var payerChecks, recipientChecks := TokenAccountChecks(T, payerAta, "payer"), TokenAccountChecks(T, recipientAta, "recipient");
    var funds := [FundsCheck(ledger, amount, mint, payerAta)];
    FirstFailedAppend(head + payerChecks + recipientChecks, funds);
    FirstFailedAppend(head + payerChecks, recipientChecks);
    FirstFailedAppend(head, payerChecks);
    FirstFailedNone(head);
    FirstFailedNone(payerChecks);
    FirstFailedNone(recipientChecks);
    FirstFailedNone(funds);
    if FirstFailed(head).None? {
      assert head[0].holds && head[1].holds && head[2].holds && head[3].holds && head[4].holds;
    }
    if FirstFailed(payerChecks).None? {
      assert payerChecks[0].holds && payerChecks[1].holds && payerChecks[2].holds;
    }
    if FirstFailed(recipientChecks).None? {
      assert recipientChecks[0].holds && recipientChecks[1].holds && recipientChecks[2].holds;
    }
    if FirstFailed(funds).None? {
      assert funds[0].holds;
    }
  }

  /** A token payment is a checked transfer between the two associated
      token accounts, by the payer, of exactly `amount × 10^decimals` base
      units, asserting the mint and its decimals. */
  lemma TokenTransferExact(ledger: Ledger, find: FindProgramAddress, payer: Key, recipient: Key, amount: Decimal,
                           mint: Key, reference: Reference, memo: Option<string>)
    requires PayOutcome(ledger, find, payer, recipient, amount, Some(mint), reference, memo).Success?
    ensures mint in ledger.mints
    ensures var tx := PayOutcome(ledger, find, payer, recipient, amount, Some(mint), reference, memo).value;
      var t := tx[|tx| - 1];
      && t.Library? && t.call.TransferChecked?
      && t.call.source == AssociatedTokenAddress(find, payer, mint)
      && t.call.destination == AssociatedTokenAddress(find, recipient, mint)
      && t.call.owner == payer && t.call.mint == mint
      && t.call.decimals == ledger.mints[mint].decimals
      && Shift(t.call.amount, amount.scale) == Shift(amount.mantissa, t.call.decimals)
  {
    TokenSucceedsIff(ledger, find, payer, recipient, amount, mint, reference, memo);
    BaseUnitsExact(amount, ledger.mints[mint].decimals);
  }

  /** The shape of a built transaction: the memo instruction first when a
      memo is given, its data decoding back to the memo, then the transfer
      carrying the references, in order, as read-only non-signing keys. */
  lemma PayTransactionShape(ledger: Ledger, find: FindProgramAddress, payer: Key, recipient: Key, amount: Decimal,
                            splToken: Option<Key>, reference: Reference, memo: Option<string>)
    requires PayOutcome(ledger, find, payer, recipient, amount, splToken, reference, memo).Success?
    ensures var tx := PayOutcome(ledger, find, payer, recipient, amount, splToken, reference, memo).value;
      var refs := ReferenceList(reference);
      && |tx| == (if memo.Some? then 2 else 1)
      && (memo.Some? ==> tx[0].Explicit? && tx[0].programId == MEMO_PROGRAM_ID && tx[0].keys == []
                         && Utf8.Decode(tx[0].data) == Some(memo.value))
      && tx[|tx| - 1].Library?
      && |tx[|tx| - 1].appendedKeys| == |refs|
      && forall i :: 0 <= i < |refs| ==>
           tx[|tx| - 1].appendedKeys[i] == AccountMeta(refs[i], false, false)
  {
    if memo.Some? {
      Utf8.DecodeEncode(memo.value);
    }
  }

  // createMintTransaction.

  /** `candymachineId`, the one parameter `createMintTransaction` requires:
      a missing one is reported by name, and `[undefined].join(', ')` is the
      empty string. */
  const MISSING_PARAMS_MESSAGE: string := Join([""], ", ") + " undefined in CreateMintTransactionParams"

  /** What `createMintTransaction` returns: the mint's transaction, the
      cleanup transaction only when there is something to clean up, and the
      signers. */
  datatype MintTransaction = MintTransaction(
    transaction: seq<Instruction>,
    cleanupTransaction: Option<seq<Instruction>>,
    signers: seq<Key>)

  /** The returned value for a plan of `mintOneToken`. */
  function MintTransactionOf(plan: MintPlan): MintTransaction {
    MintTransaction(plan.instructions,
                    if |plan.cleanupInstructions| > 0 then Some(plan.cleanupInstructions) else None,
                    plan.signers)
  }

  /** What `createMintTransaction` resolves to. */
  function MintOutcome(ledger: Ledger, program: ProgramAccounts, find: FindProgramAddress, payer: Key,
                       candymachineId: Option<Key>, generated: GeneratedKeys, rentExemption: int): Result<MintTransaction, Error> {
    if payer !in ledger.accounts then Failure(Fail("payer not found"))
    else if candymachineId.None? then Failure(Fail(MISSING_PARAMS_MESSAGE))
    else match GetCandyMachineState(candymachineId.value, program)
      case None => Failure(AccountFetchError(candymachineId.value))
      case Some(cms) =>
        if cms.itemsRemaining == 0 then Failure(Fail("No items left to mint!"))
        else Success(MintTransactionOf(MintOneTokenPlan(cms, find, payer, generated, rentExemption, ledger.accounts, program)))
  }

  /** `createMintTransaction`: the payer's account is read, the parameter
      checked, the candy machine fetched and its remaining items checked
      before one token is minted. */
  method CreateMintTransaction(ledger: Ledger, program: ProgramAccounts, find: FindProgramAddress, payer: Key,
                               candymachineId: Option<Key>, generated: GeneratedKeys, rentExemption: int)
    returns (r: Result<MintTransaction, Error>)
    ensures r == MintOutcome(ledger, program, find, payer, candymachineId, generated, rentExemption)
  {
    if payer !in ledger.accounts {
      return Failure(Fail("payer not found"));
    }
    var missingParams: seq<string> := if candymachineId.None? then [""] else [];
    if |missingParams| > 0 {
      return Failure(Fail(Join(missingParams, ", ") + " undefined in CreateMintTransactionParams"));
    }
    var fetched := GetCandyMachineState(candymachineId.value, program);
    if fetched.None? {
      return Failure(AccountFetchError(candymachineId.value));
    }
    var candyMachineState := fetched.value;
    if candyMachineState.itemsRemaining == 0 {
      return Failure(Fail("No items left to mint!"));
    }
    var plan := MintOneToken(candyMachineState, find, payer, generated, rentExemption, ledger.accounts, program);
    var cleanupTransaction := if |plan.cleanupInstructions| > 0 then Some(plan.cleanupInstructions) else None;
    return Success(MintTransaction(plan.instructions, cleanupTransaction, plan.signers));
  }

  /** A mint is built exactly when the payer's account exists, a candy
      machine is named and fetched, and it has items left (remaining is
      available minus redeemed, and only zero stops the mint). */
  lemma MintSucceedsIff(ledger: Ledger, program: ProgramAccounts, find: FindProgramAddress, payer: Key,
                        candymachineId: Option<Key>, generated: GeneratedKeys, rentExemption: int)
    ensures MintOutcome(ledger, program, find, payer, candymachineId, generated, rentExemption).Success? <==>
      && payer in ledger.accounts
      && candymachineId.Some?
      && candymachineId.value in program.candyMachines
      && var account := program.candyMachines[candymachineId.value];
         account.data.itemsAvailable - account.itemsRedeemed != 0
  {
    if payer in ledger.accounts && candymachineId.Some? {
      var cms := GetCandyMachineState(candymachineId.value, program);
      if cms.Some? {
        assert cms.value.itemsRemaining + cms.value.itemsRedeemed == cms.value.itemsAvailable;
      }
    }
  }

  /** A built mint carries the plan's instructions and signers, and a
      cleanup transaction exactly when the plan has cleanup instructions,
      holding those. */
  lemma MintCleanupPresence(ledger: Ledger, program: ProgramAccounts, find: FindProgramAddress, payer: Key,
                            candymachineId: Option<Key>, generated: GeneratedKeys, rentExemption: int)
    requires MintOutcome(ledger, program, find, payer, candymachineId, generated, rentExemption).Success?
    ensures var m := MintOutcome(ledger, program, find, payer, candymachineId, generated, rentExemption).value;
      var cms := GetCandyMachineState(candymachineId.value, program).value;
      var plan := MintOneTokenPlan(cms, find, payer, generated, rentExemption, ledger.accounts, program);
      && m.transaction == plan.instructions
      && m.signers == plan.signers
      && (m.cleanupTransaction.Some? <==> plan.cleanupInstructions != [])
      && (m.cleanupTransaction.Some? ==> m.cleanupTransaction.value == plan.cleanupInstructions)
  {
  }
}
