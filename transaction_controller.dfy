/** The transaction controller: the balance arithmetic, deposits and
    withdrawals, the two-step transfer guarded by a one-time passcode, and the
    transaction queries. Each handler that writes the store is a method on a
    Database, proved to have the effect of a function on the store's State;
    the properties are proved about those functions in TransactionProperties. */
module TransactionController {
  import opened Common
  import opened Text
  import opened Money
  import opened AccountModel
  import opened TransactionModel
  import opened UserModel
  import opened Store

  // ---------------------------------------------------------------------
  // The errors the controller raises, with their status codes
  // ---------------------------------------------------------------------

  const DebitNotPositive := Failure(400, "Withdrawal/Transfer amount must be positive.")
  const InsufficientFunds := Failure(400, "Insufficient funds.")
  const CreditNotPositive := Failure(400, "Deposit amount must be positive.")
  const InvalidCalculationType := Failure(500, "Invalid calculation type provided.")
  const InvalidAccountId := Failure(400, "Invalid account ID format")
  const AccountNotFound := Failure(404, "Account not found or access denied.")
  const InvalidAmountFormat := Failure(400, "Invalid amount format")
  const AmountNotPositive := Failure(400, "Amount must be positive")
  const MissingTransferDetails := Failure(400, "Missing required transfer details.")
  const UserNotFound := Failure(404, "User not found.")
  const NoPhoneNumber := Failure(400, "No registered phone number found for OTP verification.")
  const SendingAccountNotFound := Failure(404, "Sending account not found or access denied.")
  const SameAccountTransfer := Failure(400, "Cannot transfer to the same account.")
  const InternalRecipientNotFound := Failure(404, "Internal recipient account not found or not owned by user.")
  const RecipientNumberNotFound := Failure(404, "Recipient account number not found.")
  const InvalidTransferType := Failure(400, "Invalid transfer type specified.")
  const ExternalToOwnAccount := Failure(400, "Cannot perform external transfer to your own account number.")
  const InvalidTransferTypeAtExecution := Failure(400, "Invalid transfer type during execution.")
  const MissingExecutionDetails := Failure(400, "Missing required transfer or OTP details.")
  const NoChallenge := Failure(400, "No OTP found or previously initiated for this user.")
  const ChallengeExpired := Failure(400, "OTP has expired. Please initiate transfer again.")
  const WrongPasscode := Failure(400, "Invalid OTP provided.")

  /** What the client receives when Mongoose cannot cast a request id to an
      ObjectId inside a query: the CastError on path `_id` reaches the error
      handler, which answers it with 404 (errorHandler.js:16-19). */
  const IdCastFailed := Failure(404, "Resource not found. Invalid ID format for path: _id")

  // ---------------------------------------------------------------------
  // Balance arithmetic
  // ---------------------------------------------------------------------

  /** The kinds that take money out of an account. */
  predicate IsDebit(t: TxnType) { t == Withdrawal || t == TransferOut }

  /** The kinds that put money into an account. */
  predicate IsCredit(t: TxnType) { t == Deposit || t == TransferIn }

  /** calculateNewBalance: the balance after applying `amount` (in cents) to
      `current` as a change of kind `kind`. */
  function CalculateNewBalance(current: int, amount: int, kind: TxnType): (r: Result<int>)
    ensures r.Ok? ==> amount > 0 && (IsDebit(kind) || IsCredit(kind))
    ensures r.Ok? && current >= 0 ==> r.value >= 0
  {
    if IsDebit(kind) then
      if amount <= 0 then Err(DebitNotPositive)
      else if amount > current then Err(InsufficientFunds)
      else Ok(current - amount)
    else if IsCredit(kind) then
      if amount <= 0 then Err(CreditNotPositive)
      else Ok(current + amount)
    else Err(InvalidCalculationType)
  }

  // ---------------------------------------------------------------------
  // Formatting of records for responses
  // ---------------------------------------------------------------------

  /** A record as the API sends it: the stored fields, with amount and
      balanceAfter as decimal strings. */
  datatype TransactionView = TransactionView(
    accountId: AccountId,
    userId: UserId,
    txnType: TxnType,
    withdrawalMethod: Option<string>,
    amount: string,
    description: string,
    relatedAccountId: Option<string>,
    balanceAfter: string,
    transactionDate: Option<int>,
    createdAt: int)

  /** A record with its two decimals rendered as strings by Decimal128's
      toString(): the amount with the scale it was written with, the balance
      (produced by toFixed(2)) with two decimals; every other field is
      carried over unchanged. */
  function View(t: Transaction): (v: TransactionView)
    ensures v.accountId == t.accountId && v.userId == t.userId && v.txnType == t.txnType
    ensures v.withdrawalMethod == t.withdrawalMethod && v.description == t.description
    ensures v.relatedAccountId == t.relatedAccountId && v.transactionDate == t.transactionDate
    ensures v.createdAt == t.createdAt
    ensures v.amount == FormatDecimal(t.amount, t.amountScale) && v.balanceAfter == FormatCents(t.balanceAfter)
  {
    TransactionView(t.accountId, t.userId, t.txnType, t.withdrawalMethod, FormatDecimal(t.amount, t.amountScale),
                    t.description, t.relatedAccountId, FormatCents(t.balanceAfter),
                    t.transactionDate, t.createdAt)
  }

  /** The decimals of a view read back as the stored amounts, and the amount
      shows the scale it was stored with. */
  lemma ViewReadsBack(t: Transaction)
    requires FitsScale(t.amount, t.amountScale) && t.balanceAfter >= 0
    ensures ParseAmount(View(t).amount) == Some(t.amount)
    ensures WrittenScale(View(t).amount) == t.amountScale
    ensures ParseAmount(View(t).balanceAfter) == Some(t.balanceAfter)
  {
    ScaledRoundTrip(t.amount, t.amountScale);
    ParseFormatRoundTrip(t.balanceAfter);
  }

  /** formatTransaction: null stays null, a record becomes its view. */
  function FormatTransaction(found: Option<Transaction>): (r: Option<TransactionView>)
    ensures r.None? <==> found.None?
    ensures r.Some? ==> r.value == View(found.value)
  {
    match found
    case None => None
    case Some(t) => Some(View(t))
  }

  /** What a handler sends for the record it created: the record formatted,
      or the error unchanged. */
  function Respond(r: Result<Transaction>): Result<TransactionView> {
    match r
    case Ok(t) => Ok(View(t))
    case Err(f) => Err(f)
  }

  /** results.map(formatTransaction).filter(tx => tx !== null) */
  function FormatAll(found: seq<Option<Transaction>>): (r: seq<TransactionView>)
    ensures |r| <= |found|
    ensures (forall k :: 0 <= k < |found| ==> found[k].Some?) ==>
              |r| == |found| && forall k :: 0 <= k < |r| ==> r[k] == View(found[k].value)
  {
    if found == [] then []
    else
      var rest := FormatAll(found[1..]);
      match FormatTransaction(found[0])
      case None => rest
      case Some(v) => [v] + rest
  }

  /** The views of records, one per record, in the same order. */
  function Views(ts: seq<Transaction>): (r: seq<TransactionView>)
    ensures |r| == |ts| && forall k :: 0 <= k < |ts| ==> r[k] == View(ts[k])
  {
    if ts == [] then [] else [View(ts[0])] + Views(ts[1..])
  }

  /** Formatting records fetched as documents gives their views. */
  lemma DocumentViews(ts: seq<Transaction>)
    ensures FormatAll(AsDocuments(ts)) == Views(ts)
  {
  }

  /** Query results as documents: every element is present. */
  function AsDocuments(ts: seq<Transaction>): (r: seq<Option<Transaction>>)
    ensures |r| == |ts| && forall k :: 0 <= k < |ts| ==> r[k] == Some(ts[k])
  {
    seq(|ts|, k requires 0 <= k < |ts| => Some(ts[k]))
  }

  // ---------------------------------------------------------------------
  // Reads
  // ---------------------------------------------------------------------

  /** Records ordered by createdAt, newest first. */
  ghost predicate NewestFirst(ts: seq<Transaction>) {
    forall i, j :: 0 <= i < j < |ts| ==> ts[i].createdAt >= ts[j].createdAt
  }

  /** Inserts t into a newest-first sequence. */
  function InsertByDate(t: Transaction, ts: seq<Transaction>): (r: seq<Transaction>)
    requires NewestFirst(ts)
    ensures |r| == |ts| + 1
    ensures multiset(r) == multiset(ts) + multiset{t}
    ensures r[0] == t || (ts != [] && r[0] == ts[0])
    ensures NewestFirst(r)
  {
    if ts == [] || t.createdAt >= ts[0].createdAt then
      ConsNewestFirst(t, ts);
      [t] + ts
    else
      var rest := InsertByDate(t, ts[1..]);
      assert ts == [ts[0]] + ts[1..];
      assert multiset(ts) == multiset{ts[0]} + multiset(ts[1..]);
      ConsNewestFirst(ts[0], rest);
      [ts[0]] + rest
  }

  /** A record no older than the head of a newest-first sequence can go in
      front of it. */
  lemma ConsNewestFirst(t: Transaction, ts: seq<Transaction>)
    requires NewestFirst(ts) && (ts == [] || t.createdAt >= ts[0].createdAt)
    ensures NewestFirst([t] + ts)
  {
    var r := [t] + ts;
    forall i, j | 0 <= i < j < |r|
      ensures r[i].createdAt >= r[j].createdAt
    {
      assert r[j] == ts[j - 1];
      if i > 0 {
        assert r[i] == ts[i - 1];
      } else if j > 1 {
        assert ts[0].createdAt >= ts[j - 1].createdAt;
      }
    }
  }

  /** .sort({ createdAt: -1 }): the same records, newest first. Records with
      equal createdAt may come in any order. */
  function SortNewestFirst(ts: seq<Transaction>): (r: seq<Transaction>)
    ensures NewestFirst(r)
    ensures multiset(r) == multiset(ts)
    ensures |r| == |ts|
  {
    if ts == [] then []
    else
      assert ts == [ts[0]] + ts[1..];
      InsertByDate(ts[0], SortNewestFirst(ts[1..]))
  }

  /** Inserting a record adds its view to the views, whatever the place. */
  lemma {:induction false} InsertViews(t: Transaction, ts: seq<Transaction>)
    requires NewestFirst(ts)
    ensures multiset(Views(InsertByDate(t, ts))) == multiset(Views(ts)) + multiset{View(t)}
  {
    if ts == [] || t.createdAt >= ts[0].createdAt {
      var r := InsertByDate(t, ts);
      assert r == [t] + ts;
      assert r[1..] == ts;
      assert Views(r) == [View(t)] + Views(ts);
    } else {
      var rest := InsertByDate(t, ts[1..]);
      var r := InsertByDate(t, ts);
      InsertViews(t, ts[1..]);
      assert r == [ts[0]] + rest;
      assert r[1..] == rest;
      assert Views(r) == [View(ts[0])] + Views(rest);
      assert Views(ts) == [View(ts[0])] + Views(ts[1..]);
    }
  }

  /** Sorting permutes the views of the records. */
  lemma {:induction false} SortViews(ts: seq<Transaction>)
    ensures multiset(Views(SortNewestFirst(ts))) == multiset(Views(ts))
  {
    if ts != [] {
      SortViews(ts[1..]);
      InsertViews(ts[0], SortNewestFirst(ts[1..]));
      assert Views(ts) == [View(ts[0])] + Views(ts[1..]);
    }
  }

  /** Query results sorted newest first and formatted: one view per record,
      in createdAt order, and the views are those of the records, each as
      often as it occurs. */
  function ListNewestFirst(ts: seq<Transaction>): (r: seq<TransactionView>)
    ensures |r| == |ts|
    ensures multiset(r) == multiset(Views(ts))
    ensures forall i, j :: 0 <= i < j < |r| ==> r[i].createdAt >= r[j].createdAt
    ensures forall t :: t in ts ==> View(t) in r
    ensures forall k :: 0 <= k < |r| ==> exists t :: t in ts && r[k] == View(t)
  {
    var sorted := SortNewestFirst(ts);
    DocumentViews(sorted);
    SortViews(ts);
    SortedViews(ts, sorted);
    FormatAll(AsDocuments(sorted))
  }

  /** Every record appears in the sorted views, and every sorted view is of
      one of the records. */
  lemma SortedViews(ts: seq<Transaction>, sorted: seq<Transaction>)
    requires multiset(sorted) == multiset(ts)
    ensures forall t :: t in ts ==> View(t) in Views(sorted)
    ensures forall k :: 0 <= k < |sorted| ==> sorted[k] in ts
  {
    var r := Views(sorted);
    forall t | t in ts
      ensures View(t) in r
    {
      assert t in multiset(sorted);
      var k :| 0 <= k < |sorted| && sorted[k] == t;
      assert r[k] == View(t);
    }
    forall k | 0 <= k < |sorted|
      ensures sorted[k] in ts
    {
      assert sorted[k] in multiset(ts);
    }
  }

  /** getUserTransactions: the caller's records, newest first, formatted. */
  function GetUserTransactions(s: State, userId: UserId): (r: seq<TransactionView>)
    ensures forall k :: 0 <= k < |r| ==> r[k].userId == userId
    ensures forall t :: t in s.transactions && t.userId == userId ==> View(t) in r
    ensures forall k :: 0 <= k < |r| ==> exists t :: t in s.transactions && r[k] == View(t)
    ensures forall i, j :: 0 <= i < j < |r| ==> r[i].createdAt >= r[j].createdAt
    ensures |r| == |Find(s.transactions, RecordsOfUser(userId))|
    ensures multiset(r) == multiset(Views(Find(s.transactions, RecordsOfUser(userId))))
  {
    ListNewestFirst(Find(s.transactions, RecordsOfUser(userId)))
  }

  /** getTransactionsForAccount: 400 for a malformed id, 404 unless the
      caller owns the account, else that account's records, newest first. */
  function GetTransactionsForAccount(s: State, userId: UserId, accountId: string): (r: Result<seq<TransactionView>>)
    ensures !IsObjectIdString(accountId) ==> r == Err(InvalidAccountId)
    ensures IsObjectIdString(accountId) ==>
              (r.Ok? <==> exists k :: 0 <= k < |s.accounts| && Selects(ByIdAndOwner(accountId, userId), s.accounts[k]))
    ensures r.Err? && IsObjectIdString(accountId) ==> r.error == AccountNotFound
    ensures r.Ok? ==> forall k :: 0 <= k < |r.value| ==> r.value[k].accountId == CanonicalId(accountId)
    ensures r.Ok? ==> forall t :: t in s.transactions && t.accountId == CanonicalId(accountId) ==> View(t) in r.value
    ensures r.Ok? ==> forall k :: 0 <= k < |r.value| ==> exists t :: t in s.transactions && r.value[k] == View(t)
    ensures r.Ok? ==> forall i, j :: 0 <= i < j < |r.value| ==> r.value[i].createdAt >= r.value[j].createdAt
    ensures r.Ok? ==> |r.value| == |Find(s.transactions, RecordsOfAccount(CanonicalId(accountId)))|
    ensures r.Ok? ==> multiset(r.value) == multiset(Views(Find(s.transactions, RecordsOfAccount(CanonicalId(accountId)))))
  {
    if !IsObjectIdString(accountId) then Err(InvalidAccountId)
    else if FindOne(s.accounts, ByIdAndOwner(accountId, userId)).None? then
      Err(AccountNotFound)
    else
      Ok(ListNewestFirst(Find(s.transactions, RecordsOfAccount(CanonicalId(accountId)))))
  }

  // ---------------------------------------------------------------------
  // Deposits and withdrawals
  // ---------------------------------------------------------------------

  /** The body of a deposit or withdrawal request. Absent strings are "";
      transactionDate is present only when it is a valid date. */
  datatype TxnRequest = TxnRequest(
    accountId: string,
    txnType: TxnType,
    amount: string,
    description: string,
    transactionDate: Option<int>,
    withdrawalMethod: string)

  /** The record createTransaction stores, after the schema trims its strings. */
  function DepositRecord(account: Account, userId: UserId, req: TxnRequest, amount: int, newBalance: int, now: int): Transaction {
    Transaction(
      accountId := account.id,
      userId := userId,
      txnType := req.txnType,
      withdrawalMethod :=
        if req.txnType == Withdrawal && req.withdrawalMethod != "" then Some(Trim(req.withdrawalMethod)) else None,
      amount := amount,
      amountScale := WrittenScale(req.amount),
      description := Trim(if req.description != "" then req.description else Capitalize(TypeName(req.txnType))),
      relatedAccountId := None,
      balanceAfter := newBalance,
      transactionDate := req.transactionDate,
      createdAt := now)
  }

  /** The effect of createTransaction on the store, and its answer. */
  function CreateTransactionSpec(s: State, userId: UserId, req: TxnRequest, now: int): Outcome<Transaction> {
    match ParseAmount(req.amount)
    case None => Reject(s, InvalidAmountFormat)
    case Some(amount) =>
      if amount <= 0 then Reject(s, AmountNotPositive)
      else if !IsObjectIdString(req.accountId) then Reject(s, IdCastFailed)
      else match FindOne(s.accounts, ByIdAndOwner(req.accountId, userId))
        case None => Reject(s, AccountNotFound)
        case Some(i) =>
          match CalculateNewBalance(s.accounts[i].balance, amount, req.txnType)
          case Err(f) => Outcome(s, Err(f))
          case Ok(newBalance) =>
            var record := DepositRecord(s.accounts[i], userId, req, amount, newBalance, now);
            Outcome(
              s.(accounts := s.accounts[i := s.accounts[i].(balance := newBalance)],
                 transactions := s.transactions + [record]),
              Ok(record))
  }

  /** createTransaction: read the account, compute, save it, append the record. */
  method CreateTransaction(db: Database, userId: UserId, req: TxnRequest, now: int) returns (r: Result<TransactionView>)
    modifies db
    ensures db.Snapshot() == CreateTransactionSpec(old(db.Snapshot()), userId, req, now).state
    ensures r == Respond(CreateTransactionSpec(old(db.Snapshot()), userId, req, now).result)
  {
    var parsed := ParseAmount(req.amount);
    if parsed.None? {
      return Err(InvalidAmountFormat);
    }
    var amount := parsed.value;
    if amount <= 0 {
      return Err(AmountNotPositive);
    }
    if !IsObjectIdString(req.accountId) {
      return Err(IdCastFailed);
    }
    var found := FindOne(db.accounts, ByIdAndOwner(req.accountId, userId));
    if found.None? {
      return Err(AccountNotFound);
    }
    var account := db.accounts[found.value];
    var newBalance := CalculateNewBalance(account.balance, amount, req.txnType);
    if newBalance.Err? {
      return Err(newBalance.error);
    }
    db.accounts := db.accounts[found.value := account.(balance := newBalance.value)];
    var record := DepositRecord(account, userId, req, amount, newBalance.value, now);
    db.transactions := db.transactions + [record];
    r := Ok(View(record));
  }

  // ---------------------------------------------------------------------
  // Transfers guarded by a one-time passcode
  // ---------------------------------------------------------------------

  const OtpExpiryMinutes: int := 10

  /** The lifetime of a challenge in milliseconds. */
  const OtpLifetime: int := OtpExpiryMinutes * 60 * 1000

  /** A 6-digit numeric passcode, as the generator produces. */
  predicate IsOtpCode(code: string) {
    |code| == 6 && AllDigits(code)
  }

  /** The body of an initiate or execute request; absent strings are "". */
  datatype TransferRequest = TransferRequest(
    transferType: string,
    fromAccountId: string,
    toAccountId: string,
    recipientAccountNumber: string,
    amount: string,
    description: string,
    otp: string)

  /** The presence test both handlers start with; execution also needs the
      passcode. */
  predicate MissingDetails(req: TransferRequest, needsOtp: bool) {
    req.transferType == "" || req.fromAccountId == "" || req.amount == ""
    || (needsOtp && req.otp == "")
    || (req.transferType == "internal" && req.toAccountId == "")
    || (req.transferType == "external" && req.recipientAccountNumber == "")
  }

  /** The user has a phone number to send the passcode to. */
  predicate HasPhoneNumber(u: User) {
    u.phoneNumber.Some? && u.phoneNumber.value != ""
  }

  /** The user with a new challenge: the hash of `code` and an expiry
      OtpLifetime after now, replacing any earlier one. */
  function IssueChallenge(u: User, code: string, salt: nat, now: int): User {
    u.(otpCode := Some(HashOtp(code, salt)), otpCodeExpires := Some(now + OtpLifetime), updatedAt := now)
  }

  /** The user with the challenge unset ($unset of both fields). */
  function ClearChallenge(u: User, now: int): User {
    u.(otpCode := None, otpCodeExpires := None, updatedAt := now)
  }

  /** The two ways of deciding that an internal transfer names its source
      account as its recipient. */
  datatype SelfTransferGuard =
    | AsWritten  // the two request strings are equal
    | ByObjectId // the two request strings cast to the same ObjectId

  /** The self-transfer guard as the source writes it: the two request
      strings are equal. */
  predicate SameAccountAsWritten(fromAccountId: string, toAccountId: string) {
    fromAccountId == toAccountId
  }

  /** The corrected self-transfer guard: the two request strings name the
      same ObjectId. */
  predicate SameAccountRequested(fromAccountId: string, toAccountId: string) {
    CanonicalId(fromAccountId) == CanonicalId(toAccountId)
  }

  predicate SameAccount(guard: SelfTransferGuard, fromAccountId: string, toAccountId: string) {
    match guard
    case AsWritten => SameAccountAsWritten(fromAccountId, toAccountId)
    case ByObjectId => SameAccountRequested(fromAccountId, toAccountId)
  }

  /** How the recipient is looked up: an account of the caller's for an
      internal transfer, any account with the number for an external one. */
  function RecipientQuery(req: TransferRequest, userId: UserId): Option<AccountQuery> {
    if req.transferType == "internal" then Some(ByIdAndOwner(req.toAccountId, userId))
    else if req.transferType == "external" then Some(ByNumber(Trim(req.recipientAccountNumber)))
    else None
  }

  const InitiatedMessage: string := "OTP generated (check console). Please verify to complete the transfer."

  /** The effect of initiateTransfer, given the generated code, the salt and
      the clock. With AsWritten it is the handler as the source writes it;
      with ByObjectId it is the handler with the corrected self-transfer
      guard. */
  function InitiateTransferSpec(s: State, userId: UserId, req: TransferRequest, code: string, salt: nat, now: int,
                                guard: SelfTransferGuard): Outcome<string> {
    if MissingDetails(req, false) then Reject(s, MissingTransferDetails)
    else if PositiveAmount(req.amount).None? then Reject(s, InvalidAmountFormat)
    else if userId !in s.users then Reject(s, UserNotFound)
    else if !HasPhoneNumber(s.users[userId]) then
      Reject(s, NoPhoneNumber)
    else if !IsObjectIdString(req.fromAccountId) then
      Reject(s, IdCastFailed)
    else
      var amount := PositiveAmount(req.amount).value;
      match FindOne(s.accounts, ByIdAndOwner(req.fromAccountId, userId))
      case None => Reject(s, SendingAccountNotFound)
      case Some(i) =>
        if amount > s.accounts[i].balance then Reject(s, InsufficientFunds)
        else if req.transferType == "internal" && SameAccount(guard, req.fromAccountId, req.toAccountId) then
          Reject(s, SameAccountTransfer)
        else if req.transferType == "internal" && !IsObjectIdString(req.toAccountId) then
          Reject(s, IdCastFailed)
        else if req.transferType == "internal" && FindOne(s.accounts, ByIdAndOwner(req.toAccountId, userId)).None? then
          Reject(s, InternalRecipientNotFound)
        else if req.transferType == "external" && FindOne(s.accounts, ByNumber(Trim(req.recipientAccountNumber))).None? then
          Reject(s, RecipientNumberNotFound)
        else if req.transferType != "internal" && req.transferType != "external" then
          Reject(s, InvalidTransferType)
        else
          Outcome(s.(users := s.users[userId := IssueChallenge(s.users[userId], code, salt, now)]), Ok(InitiatedMessage))
  }

  /** initiateTransfer: validate, check funds and recipient, store the
      challenge. */
  method InitiateTransfer(db: Database, userId: UserId, req: TransferRequest, code: string, salt: nat, now: int)
    returns (r: Result<string>)
    modifies db
    ensures db.Snapshot() == InitiateTransferSpec(old(db.Snapshot()), userId, req, code, salt, now, AsWritten).state
    ensures r == InitiateTransferSpec(old(db.Snapshot()), userId, req, code, salt, now, AsWritten).result
  {
    if MissingDetails(req, false) {
      return Err(MissingTransferDetails);
    }
    var amount := PositiveAmount(req.amount);
    if amount.None? {
      return Err(InvalidAmountFormat);
    }
    if userId !in db.users {
      return Err(UserNotFound);
    }
    var user := db.users[userId];
    if !HasPhoneNumber(user) {
      return Err(NoPhoneNumber);
    }
    if !IsObjectIdString(req.fromAccountId) {
      return Err(IdCastFailed);
    }
    var from := FindOne(db.accounts, ByIdAndOwner(req.fromAccountId, userId));
    if from.None? {
      return Err(SendingAccountNotFound);
    }
    if amount.value > db.accounts[from.value].balance {
      return Err(InsufficientFunds);
    }
    if req.transferType == "internal" {
      if SameAccountAsWritten(req.fromAccountId, req.toAccountId) {
        return Err(SameAccountTransfer);
      }
      if !IsObjectIdString(req.toAccountId) {
        return Err(IdCastFailed);
      }
      var recipient := FindOne(db.accounts, ByIdAndOwner(req.toAccountId, userId));
      if recipient.None? {
        return Err(InternalRecipientNotFound);
      }
    } else if req.transferType == "external" {
      var recipient := FindOne(db.accounts, ByNumber(Trim(req.recipientAccountNumber)));
      if recipient.None? {
        return Err(RecipientNumberNotFound);
      }
    } else {
      return Err(InvalidTransferType);
    }
    db.users := db.users[userId := IssueChallenge(user, code, salt, now)];
    r := Ok(InitiatedMessage);
  }

  /** The transfer-out record on the source account. */
  function OutRecord(from: Account, to: Account, owner: UserId, amount: int, scale: nat, newBalance: int,
                     desc: string, now: int): Transaction {
    Transaction(from.id, owner, TransferOut, None, amount, scale, Trim(desc + " to Acc " + to.accountNumber),
                Some(to.accountNumber), newBalance, None, now)
  }

  /** The transfer-in record on the recipient account. */
  function InRecord(from: Account, to: Account, owner: UserId, amount: int, scale: nat, newBalance: int,
                    desc: string, now: int): Transaction {
    Transaction(to.id, owner, TransferIn, None, amount, scale, Trim(desc + " from Acc " + from.accountNumber),
                Some(from.accountNumber), newBalance, None, now)
  }

  /** description || 'Transfer' */
  function CommonDescription(req: TransferRequest): string {
    if req.description != "" then req.description else "Transfer"
  }

  /** Credits the recipient at j, saves both balances, and appends the
      transfer-out record on i and the transfer-in record on j. */
  function Settle(s: State, i: nat, j: nat, inOwner: UserId, userId: UserId, req: TransferRequest,
                  amount: int, newFrom: int, now: int): Outcome<Transaction>
    requires i < |s.accounts| && j < |s.accounts|
  {
    var from := s.accounts[i];
    var to := s.accounts[j];
    match CalculateNewBalance(to.balance, amount, TransferIn)
    case Err(f) => Outcome(s, Err(f))
    case Ok(newTo) =>
      var out := OutRecord(from, to, userId, amount, WrittenScale(req.amount), newFrom, CommonDescription(req), now);
      var inn := InRecord(from, to, inOwner, amount, WrittenScale(req.amount), newTo, CommonDescription(req), now);
      Outcome(
        s.(accounts := s.accounts[i := from.(balance := newFrom)][j := to.(balance := newTo)],
           transactions := s.transactions + [out] + [inn]),
        Ok(out))
  }

  /** What executeTransfer does once the passcode has been consumed, with
      the given self-transfer guard. */
  function CommitTransfer(s: State, userId: UserId, req: TransferRequest, amount: int, now: int,
                          guard: SelfTransferGuard): Outcome<Transaction> {
    if !IsObjectIdString(req.fromAccountId) then Reject(s, IdCastFailed)
    else match FindOne(s.accounts, ByIdAndOwner(req.fromAccountId, userId))
    case None => Reject(s, SendingAccountNotFound)
    case Some(i) =>
      match CalculateNewBalance(s.accounts[i].balance, amount, TransferOut)
      case Err(f) => Outcome(s, Err(f))
      case Ok(newFrom) =>
        if req.transferType == "internal" then
          if SameAccount(guard, req.fromAccountId, req.toAccountId) then
            Reject(s, SameAccountTransfer)
          else if !IsObjectIdString(req.toAccountId) then Reject(s, IdCastFailed)
          else match FindOne(s.accounts, ByIdAndOwner(req.toAccountId, userId))
            case None => Reject(s, InternalRecipientNotFound)
            case Some(j) => Settle(s, i, j, userId, userId, req, amount, newFrom, now)
        else if req.transferType == "external" then
          match FindOne(s.accounts, ByNumber(Trim(req.recipientAccountNumber)))
          case None => Reject(s, RecipientNumberNotFound)
          case Some(j) =>
            if s.accounts[i].id == s.accounts[j].id then
              Reject(s, ExternalToOwnAccount)
            else Settle(s, i, j, s.accounts[j].userId, userId, req, amount, newFrom, now)
        else Reject(s, InvalidTransferTypeAtExecution)
  }

  /** s with the caller's challenge unset. */
  function ConsumeChallenge(s: State, userId: UserId, now: int): State
    requires userId in s.users
  {
    s.(users := s.users[userId := ClearChallenge(s.users[userId], now)])
  }

  /** The effect of executeTransfer: check the passcode, consume it, then
      move the money. With AsWritten it is the handler as the source writes
      it; with ByObjectId it is the handler with the corrected self-transfer
      guard. */
  function ExecuteTransferSpec(s: State, userId: UserId, req: TransferRequest, now: int,
                               guard: SelfTransferGuard): Outcome<Transaction> {
    if MissingDetails(req, true) then Reject(s, MissingExecutionDetails)
    else if PositiveAmount(req.amount).None? then Reject(s, InvalidAmountFormat)
    else if userId !in s.users then Reject(s, UserNotFound)
    else
      var user := s.users[userId];
      if user.otpCode.None? || user.otpCodeExpires.None? then
        Reject(s, NoChallenge)
      else if now > user.otpCodeExpires.value then
        Reject(ConsumeChallenge(s, userId, now), ChallengeExpired)
      else if !OtpMatches(req.otp, user.otpCode.value) then
        Reject(s, WrongPasscode)
      else
        CommitTransfer(ConsumeChallenge(s, userId, now), userId, req, PositiveAmount(req.amount).value, now, guard)
  }

  const TransferCompletedMessage: string := "Transfer completed successfully!"

  /** The body of a successful execution: the message and the transfer-out
      record as formatTransaction renders it. */
  datatype TransferReceipt = TransferReceipt(message: string, transferOut: TransactionView)

  /** The answer executeTransfer sends for the outcome of the commit. */
  function RespondTransfer(r: Result<Transaction>): Result<TransferReceipt> {
    match r
    case Ok(out) => Ok(TransferReceipt(TransferCompletedMessage, View(out)))
    case Err(f) => Err(f)
  }

  /** executeTransfer, step by step: the passcode is unset as soon as it
      matches, before any account is read. */
  method ExecuteTransfer(db: Database, userId: UserId, req: TransferRequest, now: int) returns (r: Result<TransferReceipt>)
    modifies db
    ensures db.Snapshot() == ExecuteTransferSpec(old(db.Snapshot()), userId, req, now, AsWritten).state
    ensures r == RespondTransfer(ExecuteTransferSpec(old(db.Snapshot()), userId, req, now, AsWritten).result)
  {
    if MissingDetails(req, true) {
      return Err(MissingExecutionDetails);
    }
    var amount := PositiveAmount(req.amount);
    if amount.None? {
      return Err(InvalidAmountFormat);
    }
    if userId !in db.users {
      return Err(UserNotFound);
    }
    var user := db.users[userId];
    if user.otpCode.None? || user.otpCodeExpires.None? {
      return Err(NoChallenge);
    }
    if now > user.otpCodeExpires.value {
      db.users := db.users[userId := ClearChallenge(user, now)];
      return Err(ChallengeExpired);
    }
    if !OtpMatches(req.otp, user.otpCode.value) {
      return Err(WrongPasscode);
    }
    db.users := db.users[userId := ClearChallenge(user, now)];

    if !IsObjectIdString(req.fromAccountId) {
      return Err(IdCastFailed);
    }
    var from := FindOne(db.accounts, ByIdAndOwner(req.fromAccountId, userId));
    if from.None? {
      return Err(SendingAccountNotFound);
    }
    var fromAccount := db.accounts[from.value];
    var newFrom := CalculateNewBalance(fromAccount.balance, amount.value, TransferOut);
    if newFrom.Err? {
      return Err(newFrom.error);
    }
    var to: nat;
    var inOwner: UserId;
    if req.transferType == "internal" {
      if SameAccountAsWritten(req.fromAccountId, req.toAccountId) {
        return Err(SameAccountTransfer);
      }
      if !IsObjectIdString(req.toAccountId) {
        return Err(IdCastFailed);
      }
      var found := FindOne(db.accounts, ByIdAndOwner(req.toAccountId, userId));
      if found.None? {
        return Err(InternalRecipientNotFound);
      }
      to, inOwner := found.value, userId;
    } else if req.transferType == "external" {
      var found := FindOne(db.accounts, ByNumber(Trim(req.recipientAccountNumber)));
      if found.None? {
        return Err(RecipientNumberNotFound);
      }
      if fromAccount.id == db.accounts[found.value].id {
        return Err(ExternalToOwnAccount);
      }
      to, inOwner := found.value, db.accounts[found.value].userId;
    } else {
      return Err(InvalidTransferTypeAtExecution);
    }
    var toAccount := db.accounts[to];
    var newTo := CalculateNewBalance(toAccount.balance, amount.value, TransferIn);
    if newTo.Err? {
      return Err(newTo.error);
    }
    db.accounts := db.accounts[from.value := fromAccount.(balance := newFrom.value)];
    db.accounts := db.accounts[to := toAccount.(balance := newTo.value)];
    var desc := CommonDescription(req);
    var scale := WrittenScale(req.amount);
    var out := OutRecord(fromAccount, toAccount, userId, amount.value, scale, newFrom.value, desc, now);
    var inn := InRecord(fromAccount, toAccount, inOwner, amount.value, scale, newTo.value, desc, now);
    db.transactions := db.transactions + [out];
    db.transactions := db.transactions + [inn];
    r := Ok(TransferReceipt(TransferCompletedMessage, View(out)));
  }

  // ---------------------------------------------------------------------
  // Deprecated direct transfers
  // ---------------------------------------------------------------------

  const DeprecatedMessage: string := "This transfer method is deprecated. Please use the OTP flow."

  // The two stubs take the store as every handler does; without a
  // `modifies` clause they cannot change it.

  /** transferBetweenAccounts: always refuses, and touches nothing. */
  method TransferBetweenAccounts(db: Database) returns (r: Result<TransactionView>)
    ensures r == Err(Failure(400, DeprecatedMessage))
  {
    r := Err(Failure(400, DeprecatedMessage));
  }

  /** transferToExternalAccount: always refuses, and touches nothing. */
  method TransferToExternalAccount(db: Database) returns (r: Result<TransactionView>)
    ensures r == Err(Failure(400, DeprecatedMessage))
  {
    r := Err(Failure(400, DeprecatedMessage));
  }
}
