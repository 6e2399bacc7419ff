/** What the transaction controller promises, proved about the functions that
    specify its handlers: the balance arithmetic, the effect of a deposit or
    withdrawal, the passcode challenge and its single use, the conservation
    of money by a transfer, and the self-transfer guard. */
module TransactionProperties {
  import opened Common
  import opened Text
  import opened Money
  import opened AccountModel
  import opened TransactionModel
  import opened UserModel
  import opened Store
  import opened TransactionController
  import ErrorHandler

  // ---------------------------------------------------------------------
  // Balance arithmetic
  // ---------------------------------------------------------------------

  /** calculateNewBalance succeeds exactly for a positive amount of a debit
      the balance covers or of a credit; a debit subtracts, a credit adds; a
      debit the balance does not cover is refused as insufficient funds, a
      non-positive amount by its own message, and an unknown kind is a server
      error. */
  lemma BalanceArithmetic(current: int, amount: int, kind: TxnType)
    ensures CalculateNewBalance(current, amount, kind).Ok?
            <==> amount > 0 && (IsCredit(kind) || (IsDebit(kind) && amount <= current))
    ensures IsDebit(kind) && CalculateNewBalance(current, amount, kind).Ok? ==>
              CalculateNewBalance(current, amount, kind).value == current - amount
    ensures IsCredit(kind) && CalculateNewBalance(current, amount, kind).Ok? ==>
              CalculateNewBalance(current, amount, kind).value == current + amount
    ensures CalculateNewBalance(current, amount, kind).Err? ==>
              CalculateNewBalance(current, amount, kind).error.status == (if IsDebit(kind) || IsCredit(kind) then 400 else 500)
    ensures IsDebit(kind) && amount <= 0 ==> CalculateNewBalance(current, amount, kind) == Err(DebitNotPositive)
    ensures IsDebit(kind) && 0 < amount && current < amount ==> CalculateNewBalance(current, amount, kind) == Err(InsufficientFunds)
    ensures IsCredit(kind) && amount <= 0 ==> CalculateNewBalance(current, amount, kind) == Err(CreditNotPositive)
    ensures !IsDebit(kind) && !IsCredit(kind) ==> CalculateNewBalance(current, amount, kind) == Err(InvalidCalculationType)
  {
  }

  /** A withdrawal followed by a deposit of the same amount restores the
      balance. */
  lemma WithdrawThenDeposit(current: int, amount: int)
    requires 0 < amount <= current
    ensures CalculateNewBalance(current, amount, Withdrawal).Ok?
    ensures CalculateNewBalance(CalculateNewBalance(current, amount, Withdrawal).value, amount, Deposit) == Ok(current)
  {
  }

  // ---------------------------------------------------------------------
  // createTransaction
  // ---------------------------------------------------------------------

  /** A rejected deposit or withdrawal leaves the store as it was. */
  lemma CreateTransactionFailureChangesNothing(s: State, userId: UserId, req: TxnRequest, now: int)
    ensures CreateTransactionSpec(s, userId, req, now).result.Err? ==> CreateTransactionSpec(s, userId, req, now).state == s
  {
  }

  /** The reasons a deposit or withdrawal is refused, in the order they are
      checked. */
  lemma CreateTransactionRejects(s: State, userId: UserId, req: TxnRequest, now: int)
    ensures ParseAmount(req.amount).None? ==>
              CreateTransactionSpec(s, userId, req, now).result == Err(InvalidAmountFormat)
    ensures ParseAmount(req.amount) == Some(0) ==>
              CreateTransactionSpec(s, userId, req, now).result == Err(AmountNotPositive)
    ensures PositiveAmount(req.amount).Some? && !IsObjectIdString(req.accountId) ==>
              CreateTransactionSpec(s, userId, req, now).result == Err(IdCastFailed)
    ensures PositiveAmount(req.amount).Some? && IsObjectIdString(req.accountId)
            && FindOne(s.accounts, ByIdAndOwner(req.accountId, userId)).None? ==>
              CreateTransactionSpec(s, userId, req, now).result == Err(AccountNotFound)
    ensures var found := FindOne(s.accounts, ByIdAndOwner(req.accountId, userId));
            PositiveAmount(req.amount).Some? && IsObjectIdString(req.accountId) && found.Some? ==>
              var next := CalculateNewBalance(s.accounts[found.value].balance, PositiveAmount(req.amount).value, req.txnType);
              next.Err? ==> CreateTransactionSpec(s, userId, req, now).result == Err(next.error)
  {
  }

  /** A successful deposit or withdrawal applies calculateNewBalance to the
      caller's account, changes no other account, and appends exactly one
      record carrying the amount and the new balance. */
  lemma CreateTransactionEffect(s: State, userId: UserId, req: TxnRequest, now: int, i: nat)
    requires FindOne(s.accounts, ByIdAndOwner(req.accountId, userId)) == Some(i)
    requires CreateTransactionSpec(s, userId, req, now).result.Ok?
    ensures PositiveAmount(req.amount).Some?
    ensures CalculateNewBalance(s.accounts[i].balance, ParseAmount(req.amount).value, req.txnType).Ok?
    ensures var o := CreateTransactionSpec(s, userId, req, now);
            var amount := ParseAmount(req.amount).value;
            var newBalance := CalculateNewBalance(s.accounts[i].balance, amount, req.txnType).value;
            && |o.state.accounts| == |s.accounts|
            && o.state.accounts[i] == s.accounts[i].(balance := newBalance)
            && (forall k :: 0 <= k < |s.accounts| && k != i ==> o.state.accounts[k] == s.accounts[k])
            && o.state.users == s.users
            && |o.state.transactions| == |s.transactions| + 1
            && o.state.transactions[..|s.transactions|] == s.transactions
            && var t := o.state.transactions[|s.transactions|];
               && t.accountId == s.accounts[i].id && t.userId == userId && t.txnType == req.txnType
               && t.amount == amount && t.amountScale == WrittenScale(req.amount) && t.balanceAfter == newBalance
               && t.description == Trim(if req.description != "" then req.description else Capitalize(TypeName(req.txnType)))
               && (t.withdrawalMethod.Some? <==> req.txnType == Withdrawal && req.withdrawalMethod != "")
               && t.relatedAccountId.None? && t.transactionDate == req.transactionDate
               && o.result == Ok(t)
  {
    var o := CreateTransactionSpec(s, userId, req, now);
    assert o.state.transactions[..|s.transactions|] == s.transactions;
  }

  /** The answer to a deposit or withdrawal shows the amount as the request
      wrote it: it reads back as the same amount with the same number of
      fraction digits, and it is the request's string itself unless that
      string had leading zeros ("007.5" is answered as "7.5"). */
  lemma CreateTransactionEchoesAmount(s: State, userId: UserId, req: TxnRequest, now: int)
    requires CreateTransactionSpec(s, userId, req, now).result.Ok?
    ensures var v := View(CreateTransactionSpec(s, userId, req, now).result.value).amount;
            && ParseAmount(v) == ParseAmount(req.amount)
            && WrittenScale(v) == WrittenScale(req.amount)
            && (NoLeadingZeros(req.amount) ==> v == req.amount)
  {
    var i := FindOne(s.accounts, ByIdAndOwner(req.accountId, userId)).value;
    CreateTransactionEffect(s, userId, req, now, i);
    ParsedScale(req.amount);
    var t := CreateTransactionSpec(s, userId, req, now).result.value;
    ScaledRoundTrip(t.amount, t.amountScale);
    if NoLeadingZeros(req.amount) {
      WrittenRoundTrip(req.amount);
    }
  }

  /** A deposit adds its amount to the money in the store, a withdrawal
      takes it away. */
  lemma {:induction false} CreateTransactionTotal(s: State, userId: UserId, req: TxnRequest, now: int)
    requires CreateTransactionSpec(s, userId, req, now).result.Ok?
    ensures TotalBalance(CreateTransactionSpec(s, userId, req, now).state.accounts)
            == TotalBalance(s.accounts) + (if IsCredit(req.txnType) then ParseAmount(req.amount).value else -ParseAmount(req.amount).value)
  {
    var i := FindOne(s.accounts, ByIdAndOwner(req.accountId, userId)).value;
    var newBalance := CalculateNewBalance(s.accounts[i].balance, ParseAmount(req.amount).value, req.txnType).value;
    TotalBalanceUpdate(s.accounts, i, s.accounts[i].(balance := newBalance));
  }

  /** Deposits and withdrawals keep ids and numbers unique and never
      overdraw an account. */
  lemma CreateTransactionKeepsValid(s: State, userId: UserId, req: TxnRequest, now: int)
    requires Valid(s)
    ensures Valid(CreateTransactionSpec(s, userId, req, now).state)
  {
    var o := CreateTransactionSpec(s, userId, req, now);
    if o.result.Ok? {
      var i := FindOne(s.accounts, ByIdAndOwner(req.accountId, userId)).value;
      CreateTransactionEffect(s, userId, req, now, i);
    }
  }

  /** The CastError Mongoose raises when a query's `_id` is not an ObjectId. */
  function IdCastError(message: string, stack: string): ErrorHandler.ErrorInfo {
    ErrorHandler.ErrorInfo(None, message, "CastError", Some("ObjectId"), "_id", None, None, None, stack)
  }

  /** IdCastFailed is what the error handler sends for that error, whatever
      its message. */
  lemma IdCastReply(message: string, stack: string, production: bool)
    ensures var h := ErrorHandler.HandleError(IdCastError(message, stack), production, false);
            h.Send? && h.status == IdCastFailed.status && h.body.message == IdCastFailed.message
  {
  }

  // ---------------------------------------------------------------------
  // initiateTransfer
  // ---------------------------------------------------------------------

  /** Initiating a transfer never touches an account or the records. */
  lemma InitiateMovesNoMoney(s: State, userId: UserId, req: TransferRequest, code: string, salt: nat, now: int, guard: SelfTransferGuard)
    ensures InitiateTransferSpec(s, userId, req, code, salt, now, guard).state.accounts == s.accounts
    ensures InitiateTransferSpec(s, userId, req, code, salt, now, guard).state.transactions == s.transactions
  {
    InitiateFailureChangesNothing(s, userId, req, code, salt, now, guard);
  }

  /** A refused initiation stores no challenge. */
  lemma InitiateFailureChangesNothing(s: State, userId: UserId, req: TransferRequest, code: string, salt: nat, now: int, guard: SelfTransferGuard)
    ensures InitiateTransferSpec(s, userId, req, code, salt, now, guard).result.Err? ==>
              InitiateTransferSpec(s, userId, req, code, salt, now, guard).state == s
  {
  }

  /** A successful initiation has checked everything the transfer needs, and
      stores the hash of the code with an expiry ten minutes on, replacing any
      earlier challenge of the caller and no other user's. */
  lemma InitiateSuccess(s: State, userId: UserId, req: TransferRequest, code: string, salt: nat, now: int, guard: SelfTransferGuard)
    requires InitiateTransferSpec(s, userId, req, code, salt, now, guard).result.Ok?
    ensures !MissingDetails(req, false) && PositiveAmount(req.amount).Some?
    ensures userId in s.users && HasPhoneNumber(s.users[userId])
    ensures IsObjectIdString(req.fromAccountId) && (req.transferType == "internal" ==> IsObjectIdString(req.toAccountId))
    ensures FindOne(s.accounts, ByIdAndOwner(req.fromAccountId, userId)).Some?
    ensures PositiveAmount(req.amount).value <= s.accounts[FindOne(s.accounts, ByIdAndOwner(req.fromAccountId, userId)).value].balance
    ensures req.transferType == "internal" || req.transferType == "external"
    ensures req.transferType == "internal" ==> !SameAccount(guard, req.fromAccountId, req.toAccountId)
    ensures RecipientQuery(req, userId).Some? && FindOne(s.accounts, RecipientQuery(req, userId).value).Some?
    ensures var u := InitiateTransferSpec(s, userId, req, code, salt, now, guard).state.users;
            && u.Keys == s.users.Keys
            && u[userId].otpCode == Some(HashOtp(code, salt))
            && u[userId].otpCodeExpires == Some(now + 600000)
            && u[userId] == s.users[userId].(otpCode := Some(HashOtp(code, salt)),
                                              otpCodeExpires := Some(now + 600000), updatedAt := now)
            && (forall id :: id in s.users && id != userId ==> u[id] == s.users[id])
    ensures InitiateTransferSpec(s, userId, req, code, salt, now, guard).state
            == s.(users := s.users[userId := IssueChallenge(s.users[userId], code, salt, now)])
    ensures InitiateTransferSpec(s, userId, req, code, salt, now, guard).result == Ok(InitiatedMessage)
  {
  }

  // ---------------------------------------------------------------------
  // executeTransfer: the passcode gate
  // ---------------------------------------------------------------------

  /** The request is complete and its amount is well-formed and positive. */
  predicate WellFormedExecution(req: TransferRequest) {
    !MissingDetails(req, true) && PositiveAmount(req.amount).Some?
  }

  /** The caller holds a live challenge that the request's code answers. */
  predicate PasscodeAccepted(s: State, userId: UserId, req: TransferRequest, now: int) {
    && userId in s.users
    && s.users[userId].otpCode.Some? && s.users[userId].otpCodeExpires.Some?
    && now <= s.users[userId].otpCodeExpires.value
    && OtpMatches(req.otp, s.users[userId].otpCode.value)
  }

  /** Without a stored challenge nothing happens. */
  lemma ExecuteWithoutChallenge(s: State, userId: UserId, req: TransferRequest, now: int, guard: SelfTransferGuard)
    requires WellFormedExecution(req) && userId in s.users
    requires s.users[userId].otpCode.None? || s.users[userId].otpCodeExpires.None?
    ensures ExecuteTransferSpec(s, userId, req, now, guard) == Reject(s, NoChallenge)
  {
  }

  /** An expired challenge is cleared and the transfer refused; no account
      or record changes. */
  lemma ExecuteExpired(s: State, userId: UserId, req: TransferRequest, now: int, guard: SelfTransferGuard)
    requires WellFormedExecution(req) && userId in s.users
    requires s.users[userId].otpCode.Some? && s.users[userId].otpCodeExpires.Some?
    requires now > s.users[userId].otpCodeExpires.value
    ensures var o := ExecuteTransferSpec(s, userId, req, now, guard);
            && o.result == Err(ChallengeExpired)
            && o.state.accounts == s.accounts && o.state.transactions == s.transactions
            && o.state.users[userId].otpCode.None? && o.state.users[userId].otpCodeExpires.None?
            && o.state.users == s.users[userId := ClearChallenge(s.users[userId], now)]
  {
  }

  /** A wrong code is refused and the challenge stays, so the caller may try
      again until it expires. */
  lemma ExecuteWrongCode(s: State, userId: UserId, req: TransferRequest, now: int, guard: SelfTransferGuard)
    requires WellFormedExecution(req) && userId in s.users
    requires s.users[userId].otpCode.Some? && s.users[userId].otpCodeExpires.Some?
    requires now <= s.users[userId].otpCodeExpires.value
    requires !OtpMatches(req.otp, s.users[userId].otpCode.value)
    ensures ExecuteTransferSpec(s, userId, req, now, guard) == Reject(s, WrongPasscode)
  {
  }

  /** Moving money never changes a user. */
  lemma CommitKeepsUsers(s: State, userId: UserId, req: TransferRequest, amount: int, now: int, guard: SelfTransferGuard)
    ensures CommitTransfer(s, userId, req, amount, now, guard).state.users == s.users
  {
  }

  /** A refused transfer after the gate changes no account and no record. */
  lemma CommitFailureMovesNoMoney(s: State, userId: UserId, req: TransferRequest, amount: int, now: int, guard: SelfTransferGuard)
    ensures CommitTransfer(s, userId, req, amount, now, guard).result.Err? ==>
              CommitTransfer(s, userId, req, amount, now, guard).state == s
  {
  }

  /** An accepted code is consumed whatever follows: the challenge is gone
      after the call, whether the transfer then succeeds or not. */
  lemma ExecuteConsumesChallenge(s: State, userId: UserId, req: TransferRequest, now: int, guard: SelfTransferGuard)
    requires WellFormedExecution(req) && PasscodeAccepted(s, userId, req, now)
    ensures var u := ExecuteTransferSpec(s, userId, req, now, guard).state.users;
            && u == s.users[userId := ClearChallenge(s.users[userId], now)]
            && u[userId].otpCode.None? && u[userId].otpCodeExpires.None?
  {
    CommitKeepsUsers(ConsumeChallenge(s, userId, now), userId, req, PositiveAmount(req.amount).value, now, guard);
  }

  /** The code is single-use: presenting it again, at any time, finds no
      challenge and changes nothing. */
  lemma ExecuteReplayRefused(s: State, userId: UserId, req: TransferRequest, now: int, later: int, guard: SelfTransferGuard)
    requires WellFormedExecution(req) && PasscodeAccepted(s, userId, req, now)
    ensures var s1 := ExecuteTransferSpec(s, userId, req, now, guard).state;
            ExecuteTransferSpec(s1, userId, req, later, guard) == Reject(s1, NoChallenge)
  {
    ExecuteConsumesChallenge(s, userId, req, now, guard);
  }

  /** Only an accepted code moves money: every other call leaves the
      accounts and the records as they were. */
  lemma ExecuteNeedsPasscode(s: State, userId: UserId, req: TransferRequest, now: int, guard: SelfTransferGuard)
    requires !(WellFormedExecution(req) && PasscodeAccepted(s, userId, req, now))
    ensures ExecuteTransferSpec(s, userId, req, now, guard).result.Err?
    ensures ExecuteTransferSpec(s, userId, req, now, guard).state.accounts == s.accounts
    ensures ExecuteTransferSpec(s, userId, req, now, guard).state.transactions == s.transactions
  {
  }

  // ---------------------------------------------------------------------
  // executeTransfer: moving the money
  // ---------------------------------------------------------------------

  /** A transfer that succeeds has found its source among the caller's
      accounts and its recipient by the transfer type. */
  lemma ExecuteSuccessResolves(s: State, userId: UserId, req: TransferRequest, now: int, guard: SelfTransferGuard)
    requires ExecuteTransferSpec(s, userId, req, now, guard).result.Ok?
    ensures WellFormedExecution(req) && PasscodeAccepted(s, userId, req, now)
    ensures IsObjectIdString(req.fromAccountId) && (req.transferType == "internal" ==> IsObjectIdString(req.toAccountId))
    ensures FindOne(s.accounts, ByIdAndOwner(req.fromAccountId, userId)).Some?
    ensures RecipientQuery(req, userId).Some? && FindOne(s.accounts, RecipientQuery(req, userId).value).Some?
  {
  }

  /** Past an accepted passcode, executeTransfer is the commit step on the
      store with the challenge consumed. */
  lemma ExecuteIsCommit(s: State, userId: UserId, req: TransferRequest, now: int, guard: SelfTransferGuard)
    requires WellFormedExecution(req) && PasscodeAccepted(s, userId, req, now)
    ensures ExecuteTransferSpec(s, userId, req, now, guard)
            == CommitTransfer(ConsumeChallenge(s, userId, now), userId, req, PositiveAmount(req.amount).value, now, guard)
  {
  }

  /** A commit that succeeds debits the source, which covers the amount, and
      settles with the recipient the transfer type resolves to; with the
      ObjectId guard the two are different accounts. */
  lemma CommitSuccess(s: State, userId: UserId, req: TransferRequest, amount: int, now: int,
                      guard: SelfTransferGuard, i: nat, j: nat)
    requires CommitTransfer(s, userId, req, amount, now, guard).result.Ok?
    requires FindOne(s.accounts, ByIdAndOwner(req.fromAccountId, userId)) == Some(i)
    requires RecipientQuery(req, userId).Some? && FindOne(s.accounts, RecipientQuery(req, userId).value) == Some(j)
    ensures 0 < amount <= s.accounts[i].balance
    ensures guard == ByObjectId ==> s.accounts[i].id != s.accounts[j].id
    ensures CommitTransfer(s, userId, req, amount, now, guard)
            == Settle(s, i, j, if req.transferType == "internal" then userId else s.accounts[j].userId,
                      userId, req, amount, s.accounts[i].balance - amount, now)
  {
    if req.transferType == "internal" {
      CommitInternalSuccess(s, userId, req, amount, now, guard, i, j);
    } else {
      CommitExternalSuccess(s, userId, req, amount, now, guard, i, j);
    }
  }

  lemma CommitInternalSuccess(s: State, userId: UserId, req: TransferRequest, amount: int, now: int,
                              guard: SelfTransferGuard, i: nat, j: nat)
    requires CommitTransfer(s, userId, req, amount, now, guard).result.Ok? && req.transferType == "internal"
    requires FindOne(s.accounts, ByIdAndOwner(req.fromAccountId, userId)) == Some(i)
    requires FindOne(s.accounts, ByIdAndOwner(req.toAccountId, userId)) == Some(j)
    ensures 0 < amount <= s.accounts[i].balance
    ensures guard == ByObjectId ==> s.accounts[i].id != s.accounts[j].id
    ensures CommitTransfer(s, userId, req, amount, now, guard)
            == Settle(s, i, j, userId, userId, req, amount, s.accounts[i].balance - amount, now)
  {
    assert !SameAccount(guard, req.fromAccountId, req.toAccountId);
    if guard == ByObjectId {
      assert s.accounts[i].id == CanonicalId(req.fromAccountId);
      assert s.accounts[j].id == CanonicalId(req.toAccountId);
    }
  }

  lemma CommitExternalSuccess(s: State, userId: UserId, req: TransferRequest, amount: int, now: int,
                              guard: SelfTransferGuard, i: nat, j: nat)
    requires CommitTransfer(s, userId, req, amount, now, guard).result.Ok? && req.transferType != "internal"
    requires FindOne(s.accounts, ByIdAndOwner(req.fromAccountId, userId)) == Some(i)
    requires FindOne(s.accounts, ByNumber(Trim(req.recipientAccountNumber))) == Some(j)
    ensures req.transferType == "external"
    ensures 0 < amount <= s.accounts[i].balance
    ensures s.accounts[i].id != s.accounts[j].id
    ensures CommitTransfer(s, userId, req, amount, now, guard)
            == Settle(s, i, j, s.accounts[j].userId, userId, req, amount, s.accounts[i].balance - amount, now)
  {
  }

  /** Settling a positive amount saves the source and then the recipient, and
      appends the transfer-out record and then the transfer-in record, each
      naming the other account's number and carrying its account's new
      balance. */
  lemma SettleEffect(s: State, i: nat, j: nat, inOwner: UserId, userId: UserId, req: TransferRequest,
                     amount: int, newFrom: int, now: int)
    requires i < |s.accounts| && j < |s.accounts| && amount > 0
    ensures var o := Settle(s, i, j, inOwner, userId, req, amount, newFrom, now);
            && o.state.accounts == s.accounts[i := s.accounts[i].(balance := newFrom)]
                                             [j := s.accounts[j].(balance := s.accounts[j].balance + amount)]
            && o.state.users == s.users
            && |o.state.transactions| == |s.transactions| + 2
            && o.state.transactions[..|s.transactions|] == s.transactions
            && var out := o.state.transactions[|s.transactions|];
               var inn := o.state.transactions[|s.transactions| + 1];
               && out.txnType == TransferOut && out.accountId == s.accounts[i].id && out.userId == userId
               && out.amount == amount && out.amountScale == WrittenScale(req.amount) && out.balanceAfter == newFrom
               && out.relatedAccountId == Some(s.accounts[j].accountNumber)
               && inn.txnType == TransferIn && inn.accountId == s.accounts[j].id && inn.userId == inOwner
               && inn.amount == amount && inn.amountScale == WrittenScale(req.amount)
               && inn.balanceAfter == s.accounts[j].balance + amount
               && inn.relatedAccountId == Some(s.accounts[i].accountNumber)
               && o.result == Ok(out)
  {
    var o := Settle(s, i, j, inOwner, userId, req, amount, newFrom, now);
    assert o.state.transactions[..|s.transactions|] == s.transactions;
  }

  /** A successful transfer is the settlement, on the store with the
      challenge consumed, between the source and the recipient; with the
      ObjectId guard the recipient is a different account. */
  lemma ExecuteIsSettle(s: State, userId: UserId, req: TransferRequest, now: int, i: nat, j: nat, guard: SelfTransferGuard)
    requires ExecuteTransferSpec(s, userId, req, now, guard).result.Ok?
    requires FindOne(s.accounts, ByIdAndOwner(req.fromAccountId, userId)) == Some(i)
    requires RecipientQuery(req, userId).Some? && FindOne(s.accounts, RecipientQuery(req, userId).value) == Some(j)
    ensures guard == ByObjectId ==> i != j && s.accounts[i].id != s.accounts[j].id
    ensures userId in s.users && 0 < PositiveAmount(req.amount).value <= s.accounts[i].balance
    ensures ExecuteTransferSpec(s, userId, req, now, guard)
            == Settle(ConsumeChallenge(s, userId, now), i, j,
                      if req.transferType == "internal" then userId else s.accounts[j].userId,
                      userId, req, PositiveAmount(req.amount).value,
                      s.accounts[i].balance - PositiveAmount(req.amount).value, now)
  {
    ExecuteSuccessResolves(s, userId, req, now, guard);
    ExecuteIsCommit(s, userId, req, now, guard);
    var c := ConsumeChallenge(s, userId, now);
    assert c.accounts == s.accounts;
    CommitSuccess(c, userId, req, PositiveAmount(req.amount).value, now, guard, i, j);
  }

  /** A successful transfer takes the amount from the source and gives it to
      the recipient account (a different one under the ObjectId guard),
      leaves every other account alone, and consumes the caller's challenge. */
  lemma ExecuteSuccess(s: State, userId: UserId, req: TransferRequest, now: int, i: nat, j: nat, guard: SelfTransferGuard)
    requires ExecuteTransferSpec(s, userId, req, now, guard).result.Ok?
    requires FindOne(s.accounts, ByIdAndOwner(req.fromAccountId, userId)) == Some(i)
    requires RecipientQuery(req, userId).Some? && FindOne(s.accounts, RecipientQuery(req, userId).value) == Some(j)
    ensures guard == ByObjectId ==> i != j && s.accounts[i].id != s.accounts[j].id
    ensures userId in s.users && PositiveAmount(req.amount).value <= s.accounts[i].balance
    ensures ExecuteTransferSpec(s, userId, req, now, guard).state.accounts
            == Transferred(s.accounts, i, j, PositiveAmount(req.amount).value)
    ensures ExecuteTransferSpec(s, userId, req, now, guard).state.users == s.users[userId := ClearChallenge(s.users[userId], now)]
  {
    ExecuteIsSettle(s, userId, req, now, i, j, guard);
    var amount := PositiveAmount(req.amount).value;
    var inOwner := if req.transferType == "internal" then userId else s.accounts[j].userId;
    SettleAfterConsume(s, i, j, inOwner, userId, req, amount, now);
  }

  /** Settling after the challenge is consumed: the balances as settled, and
      the caller's challenge gone. */
  lemma SettleAfterConsume(s: State, i: nat, j: nat, inOwner: UserId, userId: UserId, req: TransferRequest,
                           amount: int, now: int)
    requires i < |s.accounts| && j < |s.accounts| && amount > 0 && userId in s.users
    ensures var o := Settle(ConsumeChallenge(s, userId, now), i, j, inOwner, userId, req, amount, s.accounts[i].balance - amount, now);
            && o.state.accounts == Transferred(s.accounts, i, j, amount)
            && o.state.users == s.users[userId := ClearChallenge(s.users[userId], now)]
  {
    SettleEffect(ConsumeChallenge(s, userId, now), i, j, inOwner, userId, req, amount, s.accounts[i].balance - amount, now);
  }

  /** A successful transfer appends two records: the transfer-out on the
      source, naming the recipient's number, then the transfer-in on the
      recipient, naming the source's number and owned by the caller for an
      internal transfer and by the recipient's user for an external one; each
      carries its account's new balance, and the answer is the transfer-out
      record. */
  lemma ExecuteRecords(s: State, userId: UserId, req: TransferRequest, now: int, i: nat, j: nat, guard: SelfTransferGuard)
    requires ExecuteTransferSpec(s, userId, req, now, guard).result.Ok?
    requires FindOne(s.accounts, ByIdAndOwner(req.fromAccountId, userId)) == Some(i)
    requires RecipientQuery(req, userId).Some? && FindOne(s.accounts, RecipientQuery(req, userId).value) == Some(j)
    ensures var ts := ExecuteTransferSpec(s, userId, req, now, guard).state.transactions;
            |ts| == |s.transactions| + 2 && ts[..|s.transactions|] == s.transactions
    ensures var out := ExecuteTransferSpec(s, userId, req, now, guard).state.transactions[|s.transactions|];
            && out.txnType == TransferOut && out.accountId == s.accounts[i].id && out.userId == userId
            && out.amount == PositiveAmount(req.amount).value && out.amountScale == WrittenScale(req.amount)
            && out.balanceAfter == s.accounts[i].balance - PositiveAmount(req.amount).value
            && out.relatedAccountId == Some(s.accounts[j].accountNumber)
            && ExecuteTransferSpec(s, userId, req, now, guard).result == Ok(out)
    ensures var inn := ExecuteTransferSpec(s, userId, req, now, guard).state.transactions[|s.transactions| + 1];
            && inn.txnType == TransferIn && inn.accountId == s.accounts[j].id
            && inn.userId == (if req.transferType == "internal" then userId else s.accounts[j].userId)
            && inn.amount == PositiveAmount(req.amount).value && inn.amountScale == WrittenScale(req.amount)
            && inn.balanceAfter == s.accounts[j].balance + PositiveAmount(req.amount).value
            && inn.relatedAccountId == Some(s.accounts[i].accountNumber)
  {
    ExecuteIsSettle(s, userId, req, now, i, j, guard);
    var amount := PositiveAmount(req.amount).value;
    var inOwner := if req.transferType == "internal" then userId else s.accounts[j].userId;
    SettleEffect(ConsumeChallenge(s, userId, now), i, j, inOwner, userId, req, amount, s.accounts[i].balance - amount, now);
  }

  /** The answer to a transfer shows the amount as the request wrote it, as
      for a deposit. */
  lemma ExecuteEchoesAmount(s: State, userId: UserId, req: TransferRequest, now: int, guard: SelfTransferGuard)
    requires ExecuteTransferSpec(s, userId, req, now, guard).result.Ok?
    ensures var v := View(ExecuteTransferSpec(s, userId, req, now, guard).result.value).amount;
            && ParseAmount(v) == ParseAmount(req.amount)
            && WrittenScale(v) == WrittenScale(req.amount)
            && (NoLeadingZeros(req.amount) ==> v == req.amount)
  {
    ExecuteSuccessResolves(s, userId, req, now, guard);
    var i := FindOne(s.accounts, ByIdAndOwner(req.fromAccountId, userId)).value;
    var j := FindOne(s.accounts, RecipientQuery(req, userId).value).value;
    ExecuteRecords(s, userId, req, now, i, j, guard);
    ParsedScale(req.amount);
    var t := ExecuteTransferSpec(s, userId, req, now, guard).result.value;
    ScaledRoundTrip(t.amount, t.amountScale);
    if NoLeadingZeros(req.amount) {
      WrittenRoundTrip(req.amount);
    }
  }

  /** A refused transfer moves no money and writes no record, whether it is
      refused at the gate or after the passcode was consumed. */
  lemma ExecuteFailureMovesNoMoney(s: State, userId: UserId, req: TransferRequest, now: int, guard: SelfTransferGuard)
    ensures var o := ExecuteTransferSpec(s, userId, req, now, guard);
            o.result.Err? ==> o.state.accounts == s.accounts && o.state.transactions == s.transactions
  {
    if WellFormedExecution(req) && PasscodeAccepted(s, userId, req, now) {
      ExecuteIsCommit(s, userId, req, now, guard);
      CommitFailureMovesNoMoney(ConsumeChallenge(s, userId, now), userId, req, PositiveAmount(req.amount).value, now, guard);
    } else {
      ExecuteNeedsPasscode(s, userId, req, now, guard);
    }
  }

  /** With the corrected (ObjectId) self-transfer guard, a transfer conserves
      the money in the store. AsWrittenExecuteCreatesMoney shows the handler
      as written does not. */
  lemma ExecuteConservesTotal(s: State, userId: UserId, req: TransferRequest, now: int)
    ensures TotalBalance(ExecuteTransferSpec(s, userId, req, now, ByObjectId).state.accounts) == TotalBalance(s.accounts)
  {
    var o := ExecuteTransferSpec(s, userId, req, now, ByObjectId);
    if o.result.Ok? {
      ExecuteSuccessResolves(s, userId, req, now, ByObjectId);
      var i := FindOne(s.accounts, ByIdAndOwner(req.fromAccountId, userId)).value;
      var j := FindOne(s.accounts, RecipientQuery(req, userId).value).value;
      ExecuteSuccess(s, userId, req, now, i, j, ByObjectId);
      TransferConservesTotal(s.accounts, i, j, PositiveAmount(req.amount).value);
    } else {
      ExecuteFailureMovesNoMoney(s, userId, req, now, ByObjectId);
    }
  }

  /** Every outcome of a transfer keeps ids and numbers unique and leaves no
      account overdrawn. */
  lemma ExecuteKeepsValid(s: State, userId: UserId, req: TransferRequest, now: int, guard: SelfTransferGuard)
    requires Valid(s)
    ensures Valid(ExecuteTransferSpec(s, userId, req, now, guard).state)
  {
    var o := ExecuteTransferSpec(s, userId, req, now, guard);
    if o.result.Ok? {
      ExecuteSuccessResolves(s, userId, req, now, guard);
      var i := FindOne(s.accounts, ByIdAndOwner(req.fromAccountId, userId)).value;
      var j := FindOne(s.accounts, RecipientQuery(req, userId).value).value;
      ExecuteSuccess(s, userId, req, now, i, j, guard);
      TransferKeepsValid(s.accounts, i, j, PositiveAmount(req.amount).value);
    } else {
      ExecuteFailureMovesNoMoney(s, userId, req, now, guard);
    }
  }

  /** The accounts after amount moves from position i to position j. */
  function Transferred(accounts: seq<Account>, i: nat, j: nat, amount: int): seq<Account>
    requires i < |accounts| && j < |accounts|
  {
    accounts[i := accounts[i].(balance := accounts[i].balance - amount)]
            [j := accounts[j].(balance := accounts[j].balance + amount)]
  }

  /** Moving a covered amount between two accounts keeps the account
      invariants. */
  lemma TransferKeepsValid(accounts: seq<Account>, i: nat, j: nat, amount: int)
    requires i < |accounts| && j < |accounts| && 0 < amount <= accounts[i].balance
    requires UniqueIds(accounts) && UniqueNumbers(accounts) && NoOverdraft(accounts)
    ensures var a := Transferred(accounts, i, j, amount);
            UniqueIds(a) && UniqueNumbers(a) && NoOverdraft(a)
  {
    var a1 := accounts[i := accounts[i].(balance := accounts[i].balance - amount)];
    SetBalanceKeepsValid(accounts, i, accounts[i].balance - amount);
    SetBalanceKeepsValid(a1, j, accounts[j].balance + amount);
  }

  /** Moving an amount between two different accounts leaves the total as
      it was. */
  lemma TransferConservesTotal(accounts: seq<Account>, i: nat, j: nat, amount: int)
    requires i < |accounts| && j < |accounts| && i != j
    ensures TotalBalance(Transferred(accounts, i, j, amount)) == TotalBalance(accounts)
  {
    var a1 := accounts[i := accounts[i].(balance := accounts[i].balance - amount)];
    TotalBalanceUpdate(accounts, i, a1[i]);
    TotalBalanceUpdate(a1, j, accounts[j].(balance := accounts[j].balance + amount));
  }

  /** Setting one balance to a non-negative value keeps the account
      invariants. */
  lemma SetBalanceKeepsValid(accounts: seq<Account>, k: nat, b: int)
    requires k < |accounts| && b >= 0
    requires UniqueIds(accounts) && UniqueNumbers(accounts) && NoOverdraft(accounts)
    ensures var a := accounts[k := accounts[k].(balance := b)];
            UniqueIds(a) && UniqueNumbers(a) && NoOverdraft(a)
  {
  }

  // ---------------------------------------------------------------------
  // The two steps together
  // ---------------------------------------------------------------------

  /** Initiation refuses an internal transfer whose two ids the guard
      deems the same. */
  lemma InitiateRejectsSelfTransfer(s: State, userId: UserId, req: TransferRequest, code: string, salt: nat, now: int, guard: SelfTransferGuard)
    requires req.transferType == "internal" && SameAccount(guard, req.fromAccountId, req.toAccountId)
    ensures InitiateTransferSpec(s, userId, req, code, salt, now, guard).result.Err?
  {
  }

  /** Executing, before the challenge expires and with the code it was issued
      for, a transfer that was initiated succeeds, except for an external
      transfer whose account number resolves to the source account. */
  lemma InitiateThenExecute(s: State, userId: UserId, req: TransferRequest, code: string, salt: nat, t0: int, t1: int, guard: SelfTransferGuard)
    requires InitiateTransferSpec(s, userId, req, code, salt, t0, guard).result.Ok?
    requires req.otp == code && IsOtpCode(code) && t1 <= t0 + OtpLifetime
    ensures var s1 := InitiateTransferSpec(s, userId, req, code, salt, t0, guard).state;
            var o := ExecuteTransferSpec(s1, userId, req, t1, guard);
            var i := FindOne(s.accounts, ByIdAndOwner(req.fromAccountId, userId)).value;
            var j := FindOne(s.accounts, RecipientQuery(req, userId).value).value;
            o.result.Ok? <==> !(req.transferType == "external" && s.accounts[i].id == s.accounts[j].id)
  {
    InitiateSuccess(s, userId, req, code, salt, t0, guard);
    var s1 := InitiateTransferSpec(s, userId, req, code, salt, t0, guard).state;
    assert s1.accounts == s.accounts;
    assert WellFormedExecution(req) && PasscodeAccepted(s1, userId, req, t1);
    ExecuteIsCommit(s1, userId, req, t1, guard);
  }

  /** An external transfer to the caller's own account number passes
      initiation, and its execution is refused only after the code has been
      consumed: the caller must initiate again. */
  lemma ExternalToOwnNumber(s: State, userId: UserId, req: TransferRequest, code: string, salt: nat, t0: int, t1: int, guard: SelfTransferGuard)
    requires req.transferType == "external"
    requires InitiateTransferSpec(s, userId, req, code, salt, t0, guard).result.Ok?
    requires req.otp == code && IsOtpCode(code) && t1 <= t0 + OtpLifetime
    requires FindOne(s.accounts, ByIdAndOwner(req.fromAccountId, userId)) == FindOne(s.accounts, ByNumber(Trim(req.recipientAccountNumber)))
    ensures var s1 := InitiateTransferSpec(s, userId, req, code, salt, t0, guard).state;
            var o := ExecuteTransferSpec(s1, userId, req, t1, guard);
            && o.result == Err(ExternalToOwnAccount)
            && o.state.accounts == s.accounts && o.state.transactions == s.transactions
            && o.state.users[userId].otpCode.None?
  {
    InitiateSuccess(s, userId, req, code, salt, t0, guard);
    var s1 := InitiateTransferSpec(s, userId, req, code, salt, t0, guard).state;
    assert s1.accounts == s.accounts;
    assert WellFormedExecution(req) && PasscodeAccepted(s1, userId, req, t1);
    ExecuteIsCommit(s1, userId, req, t1, guard);
    ExecuteConsumesChallenge(s1, userId, req, t1, guard);
  }

  // ---------------------------------------------------------------------
  // The self-transfer guard
  // ---------------------------------------------------------------------

  /** Two request ids that differ only in the case of their hexadecimal
      digits: both are valid ObjectIds, the guard as written lets them
      through, and they cast to the same ObjectId. */
  lemma CaseVariantIds()
    ensures IsObjectIdString(Repeat('A', 24)) && IsObjectIdString(Repeat('a', 24))
    ensures !SameAccountAsWritten(Repeat('A', 24), Repeat('a', 24))
    ensures SameAccountRequested(Repeat('A', 24), Repeat('a', 24))
  {
    var upper, lower := Repeat('A', 24), Repeat('a', 24);
    assert upper[0] != lower[0];
    CanonicalIdChars(upper);
    CanonicalIdChars(lower);
    assert CanonicalId(upper) == lower;
    assert CanonicalId(lower) == lower;
  }

  /** Two filters that select the same accounts find the same one. */
  lemma FindOneAgrees(accounts: seq<Account>, q1: AccountQuery, q2: AccountQuery)
    requires forall a :: Selects(q1, a) <==> Selects(q2, a)
    ensures FindOne(accounts, q1) == FindOne(accounts, q2)
  {
  }

  /** With the guard as written, an internal transfer between two spellings
      of one account's id succeeds, and because the recipient's save lands
      last the account ends up credited instead of unchanged: the store
      gains the amount. */
  lemma AsWrittenGuardCreatesMoney(s: State, userId: UserId, req: TransferRequest, amount: int, now: int, i: nat)
    requires req.transferType == "internal"
    requires !SameAccountAsWritten(req.fromAccountId, req.toAccountId)
    requires SameAccountRequested(req.fromAccountId, req.toAccountId)
    requires IsObjectIdString(req.fromAccountId) && IsObjectIdString(req.toAccountId)
    requires FindOne(s.accounts, ByIdAndOwner(req.fromAccountId, userId)) == Some(i)
    requires 0 < amount <= s.accounts[i].balance
    ensures var o := CommitTransfer(s, userId, req, amount, now, AsWritten);
            && o.result.Ok?
            && o.state.accounts == s.accounts[i := s.accounts[i].(balance := s.accounts[i].balance + amount)]
            && TotalBalance(o.state.accounts) == TotalBalance(s.accounts) + amount
  {
    FindOneAgrees(s.accounts, ByIdAndOwner(req.fromAccountId, userId), ByIdAndOwner(req.toAccountId, userId));
    CommitInternalUnfold(s, userId, req, amount, now, AsWritten, i, i);
    SettleEffect(s, i, i, userId, userId, req, amount, s.accounts[i].balance - amount, now);
    var credited := s.accounts[i].(balance := s.accounts[i].balance + amount);
    assert s.accounts[i := s.accounts[i].(balance := s.accounts[i].balance - amount)][i := credited]
           == s.accounts[i := credited];
    TotalBalanceUpdate(s.accounts, i, credited);
  }

  /** An internal commit past the guard is the settlement between the two
      accounts the ids find. */
  lemma CommitInternalUnfold(s: State, userId: UserId, req: TransferRequest, amount: int, now: int,
                             guard: SelfTransferGuard, i: nat, j: nat)
    requires req.transferType == "internal" && !SameAccount(guard, req.fromAccountId, req.toAccountId)
    requires IsObjectIdString(req.fromAccountId) && IsObjectIdString(req.toAccountId)
    requires FindOne(s.accounts, ByIdAndOwner(req.fromAccountId, userId)) == Some(i)
    requires FindOne(s.accounts, ByIdAndOwner(req.toAccountId, userId)) == Some(j)
    requires 0 < amount <= s.accounts[i].balance
    ensures CommitTransfer(s, userId, req, amount, now, guard)
            == Settle(s, i, j, userId, userId, req, amount, s.accounts[i].balance - amount, now)
  {
    assert CalculateNewBalance(s.accounts[i].balance, amount, TransferOut) == Ok(s.accounts[i].balance - amount);
  }

  /** The corrected guard refuses the same request and changes nothing. */
  lemma CorrectedGuardRefusesCaseVariant(s: State, userId: UserId, req: TransferRequest, amount: int, now: int, i: nat)
    requires req.transferType == "internal"
    requires SameAccountRequested(req.fromAccountId, req.toAccountId)
    requires IsObjectIdString(req.fromAccountId)
    requires FindOne(s.accounts, ByIdAndOwner(req.fromAccountId, userId)) == Some(i)
    requires 0 < amount <= s.accounts[i].balance
    ensures CommitTransfer(s, userId, req, amount, now, ByObjectId) == Reject(s, SameAccountTransfer)
  {
  }

  /** executeTransfer as written, given an accepted passcode and a request
      whose two ids are case variants of one of the caller's accounts that
      covers the amount: it succeeds, and the store gains the amount. */
  lemma AsWrittenExecuteCreatesMoney(s: State, userId: UserId, req: TransferRequest, now: int, i: nat)
    requires WellFormedExecution(req) && PasscodeAccepted(s, userId, req, now)
    requires req.transferType == "internal"
    requires !SameAccountAsWritten(req.fromAccountId, req.toAccountId)
    requires SameAccountRequested(req.fromAccountId, req.toAccountId)
    requires IsObjectIdString(req.fromAccountId) && IsObjectIdString(req.toAccountId)
    requires FindOne(s.accounts, ByIdAndOwner(req.fromAccountId, userId)) == Some(i)
    requires PositiveAmount(req.amount).value <= s.accounts[i].balance
    ensures var o := ExecuteTransferSpec(s, userId, req, now, AsWritten);
            && o.result.Ok?
            && TotalBalance(o.state.accounts) == TotalBalance(s.accounts) + PositiveAmount(req.amount).value
  {
    ExecuteIsCommit(s, userId, req, now, AsWritten);
    var c := ConsumeChallenge(s, userId, now);
    assert c.accounts == s.accounts;
    AsWrittenGuardCreatesMoney(c, userId, req, PositiveAmount(req.amount).value, now, i);
  }

  /** executeTransfer with the corrected guard refuses the same request once
      the passcode is consumed, and moves no money. */
  lemma CorrectedExecuteRefuses(s: State, userId: UserId, req: TransferRequest, now: int, i: nat)
    requires WellFormedExecution(req) && PasscodeAccepted(s, userId, req, now)
    requires req.transferType == "internal"
    requires SameAccountRequested(req.fromAccountId, req.toAccountId)
    requires IsObjectIdString(req.fromAccountId)
    requires FindOne(s.accounts, ByIdAndOwner(req.fromAccountId, userId)) == Some(i)
    requires PositiveAmount(req.amount).value <= s.accounts[i].balance
    ensures ExecuteTransferSpec(s, userId, req, now, ByObjectId) == Reject(ConsumeChallenge(s, userId, now), SameAccountTransfer)
  {
    ExecuteIsCommit(s, userId, req, now, ByObjectId);
    CorrectedGuardRefusesCaseVariant(ConsumeChallenge(s, userId, now), userId, req, PositiveAmount(req.amount).value, now, i);
  }
}
