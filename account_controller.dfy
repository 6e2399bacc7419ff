/** The account controller: opening an account, listing and reading accounts
    with their owner checks, an account's history, deletion of an empty
    account with its records, and renaming. The handlers that write the
    store are methods on a Database proved to have the effect of a function
    on its State; the properties are proved in AccountProperties. */
module AccountController {
  import opened Common
  import opened Text
  import opened Money
  import opened AccountModel
  import opened TransactionModel
  import opened Store
  import opened TransactionController

  // ---------------------------------------------------------------------
  // The errors the controller raises, with their status codes
  // ---------------------------------------------------------------------

  const AccountNumberConflict := Failure(409, "Account number conflict, please try again.")
  const AccountMissing := Failure(404, "Account not found")
  const NotAccountOwner := Failure(403, "Not authorized to access this account")
  const NotAuthorized := Failure(403, "Not authorized")
  const BalanceNotZero := Failure(400, "Account balance must be zero before deletion.")
  const NicknameTooLong := Failure(400, "Nickname cannot exceed 50 characters.")

  const DeletedMessage: string := "Account deleted successfully"

  /** The longest nickname renameAccount accepts, in UTF-16 code units. */
  const NicknameLimit: nat := 50

  // ---------------------------------------------------------------------
  // Accounts as the client sees them
  // ---------------------------------------------------------------------

  /** An account with its balance rendered as the Decimal128's string. */
  datatype AccountView = AccountView(
    id: AccountId,
    userId: UserId,
    accountNumber: string,
    accountType: AccountType,
    balance: string,
    accountNickname: Option<string>)

  function ViewAccount(a: Account): (v: AccountView)
    ensures v.id == a.id && v.userId == a.userId && v.accountNumber == a.accountNumber
    ensures v.accountType == a.accountType && v.accountNickname == a.accountNickname
  {
    AccountView(a.id, a.userId, a.accountNumber, a.accountType, FormatCents(a.balance), a.accountNickname)
  }

  /** What a handler sends for the account it wrote: the account's view, or
      the error unchanged. */
  function RespondAccount(r: Result<Account>): Result<AccountView> {
    match r
    case Ok(a) => Ok(ViewAccount(a))
    case Err(f) => Err(f)
  }

  // ---------------------------------------------------------------------
  // createAccount
  // ---------------------------------------------------------------------

  /** The insert violates a unique index (error code 11000): the new _id or
      the generated account number is already stored. */
  predicate Conflicts(accounts: seq<Account>, id: AccountId, number: string) {
    exists k :: 0 <= k < |accounts| && (accounts[k].id == id || accounts[k].accountNumber == number)
  }

  /** The effect of createAccount. newId is the ObjectId the driver assigns
      and draw the random number behind the account number. */
  function CreateAccountSpec(s: State, userId: UserId, accountType: Option<AccountType>, newId: AccountId, draw: nat): Outcome<Account>
    requires draw < AccountNumberRange
  {
    var number := GenerateAccountNumber(draw);
    if Conflicts(s.accounts, newId, number) then Reject(s, AccountNumberConflict)
    else
      var a := NewAccount(newId, userId, number, accountType);
      Outcome(s.(accounts := s.accounts + [a]), Ok(a))
  }

  /** createAccount: Account.create, answered with the new account. */
  method CreateAccount(db: Database, userId: UserId, accountType: Option<AccountType>, newId: AccountId, draw: nat)
    returns (r: Result<AccountView>)
    requires draw < AccountNumberRange
    modifies db
    ensures db.Snapshot() == CreateAccountSpec(old(db.Snapshot()), userId, accountType, newId, draw).state
    ensures r == RespondAccount(CreateAccountSpec(old(db.Snapshot()), userId, accountType, newId, draw).result)
  {
    var number := GenerateAccountNumber(draw);
    if Conflicts(db.accounts, newId, number) {
      return Err(AccountNumberConflict);
    }
    var a := NewAccount(newId, userId, number, accountType);
    db.accounts := db.accounts + [a];
    r := Ok(ViewAccount(a));
  }

  // ---------------------------------------------------------------------
  // Reads
  // ---------------------------------------------------------------------

  /** getUserAccounts: exactly the caller's accounts, each with its balance
      as a string; the count sent is the length of the list. */
  function GetUserAccounts(s: State, userId: UserId): (r: seq<AccountView>)
    ensures |r| == |FindByOwner(s.accounts, userId)|
    ensures forall k :: 0 <= k < |r| ==> r[k].userId == userId
    ensures forall a :: a in s.accounts && a.userId == userId ==> ViewAccount(a) in r
    ensures forall k :: 0 <= k < |r| ==> exists a :: a in s.accounts && r[k] == ViewAccount(a)
    ensures forall k :: 0 <= k < |r| ==> r[k] == ViewAccount(FindByOwner(s.accounts, userId)[k])
  {
    var owned := FindByOwner(s.accounts, userId);
    var r := seq(|owned|, k requires 0 <= k < |owned| => ViewAccount(owned[k]));
    assert forall a :: a in owned ==> ViewAccount(a) in r by {
      forall a | a in owned
        ensures ViewAccount(a) in r
      {
        var k :| 0 <= k < |owned| && owned[k] == a;
        assert r[k] == ViewAccount(a);
      }
    }
    assert forall k :: 0 <= k < |r| ==> owned[k] in owned && r[k] == ViewAccount(owned[k]);
    r
  }

  /** getAccountById: 400 for a malformed id, 404 when no account has it,
      403 when another user owns it, else the account. */
  function GetAccountById(s: State, userId: UserId, rawId: string): (r: Result<AccountView>)
    ensures !IsObjectIdString(rawId) ==> r == Err(InvalidAccountId)
    ensures IsObjectIdString(rawId) ==>
              (r == Err(AccountMissing) <==> forall k :: 0 <= k < |s.accounts| ==> !Selects(ById(rawId), s.accounts[k]))
    ensures r.Ok? ==> exists k :: 0 <= k < |s.accounts| && Selects(ByIdAndOwner(rawId, userId), s.accounts[k])
                                  && r.value == ViewAccount(s.accounts[k])
  {
    if !IsObjectIdString(rawId) then Err(InvalidAccountId)
    else match FindOne(s.accounts, ById(rawId))
      case None => Err(AccountMissing)
      case Some(i) =>
        if s.accounts[i].userId != userId then Err(NotAccountOwner)
        else Ok(ViewAccount(s.accounts[i]))
  }

  /** getAccountTransactions: the same checks as getAccountById (with a
      shorter 403 message), then the account's records formatted. The sort
      key the query names is not a stored field, so the order of the list is
      whatever the server returns; the model lists the records in stored
      order and promises only which views the list holds. */
  function GetAccountTransactions(s: State, userId: UserId, rawId: string): (r: Result<seq<TransactionView>>)
    ensures !IsObjectIdString(rawId) ==> r == Err(InvalidAccountId)
    ensures IsObjectIdString(rawId) ==>
              (r == Err(AccountMissing) <==> forall k :: 0 <= k < |s.accounts| ==> !Selects(ById(rawId), s.accounts[k]))
    ensures r.Ok? ==> exists k :: 0 <= k < |s.accounts| && Selects(ByIdAndOwner(rawId, userId), s.accounts[k])
    ensures r.Ok? ==> |r.value| == |Find(s.transactions, RecordsOfAccount(CanonicalId(rawId)))|
    ensures r.Ok? ==> forall k :: 0 <= k < |r.value| ==> r.value[k].accountId == CanonicalId(rawId)
    ensures r.Ok? ==> forall t :: t in s.transactions && t.accountId == CanonicalId(rawId) ==> View(t) in r.value
    ensures r.Ok? ==> forall k :: 0 <= k < |r.value| ==> exists t :: t in s.transactions && r.value[k] == View(t)
    ensures r.Ok? ==> multiset(r.value) == multiset(Views(Find(s.transactions, RecordsOfAccount(CanonicalId(rawId)))))
  {
    if !IsObjectIdString(rawId) then Err(InvalidAccountId)
    else match FindOne(s.accounts, ById(rawId))
      case None => Err(AccountMissing)
      case Some(i) =>
        if s.accounts[i].userId != userId then Err(NotAuthorized)
        else
          assert Selects(ByIdAndOwner(rawId, userId), s.accounts[i]);
          Ok(ViewAll(Find(s.transactions, RecordsOfAccount(CanonicalId(rawId)))))
  }

  /** Query results formatted, in the order the query returned them. */
  function ViewAll(ts: seq<Transaction>): (r: seq<TransactionView>)
    ensures r == Views(ts)
    ensures forall t :: t in ts ==> View(t) in r
  {
    var r := FormatAll(AsDocuments(ts));
    DocumentViews(ts);
    assert forall t :: t in ts ==> View(t) in r by {
      forall t | t in ts
        ensures View(t) in r
      {
        var k :| 0 <= k < |ts| && ts[k] == t;
        assert r[k] == View(t);
      }
    }
    r
  }

  // ---------------------------------------------------------------------
  // deleteAccount
  // ---------------------------------------------------------------------

  /** The effect of deleteAccount: the caller's account, if its balance
      renders as "0.00", goes with every record filed under it. */
  function DeleteAccountSpec(s: State, userId: UserId, rawId: string): Outcome<string> {
    if !IsObjectIdString(rawId) then Reject(s, InvalidAccountId)
    else match FindOne(s.accounts, ByIdAndOwner(rawId, userId))
      case None => Reject(s, AccountNotFound)
      case Some(i) =>
        if FormatCents(s.accounts[i].balance) != "0.00" then Reject(s, BalanceNotZero)
        else
          assert Selects(ById(rawId), s.accounts[i]);
          var target := FindOne(s.accounts, ById(rawId)).value;
          Outcome(
            s.(accounts := RemoveAt(s.accounts, target),
               transactions := DeleteMany(s.transactions, RecordsOfAccount(CanonicalId(rawId)))),
            Ok(DeletedMessage))
  }

  /** deleteAccount: findOne, the balance check, deleteMany on the records,
      then findByIdAndDelete on the account. */
  method DeleteAccount(db: Database, userId: UserId, rawId: string) returns (r: Result<string>)
    modifies db
    ensures db.Snapshot() == DeleteAccountSpec(old(db.Snapshot()), userId, rawId).state
    ensures r == DeleteAccountSpec(old(db.Snapshot()), userId, rawId).result
  {
    if !IsObjectIdString(rawId) {
      return Err(InvalidAccountId);
    }
    var found := FindOne(db.accounts, ByIdAndOwner(rawId, userId));
    if found.None? {
      return Err(AccountNotFound);
    }
    var account := db.accounts[found.value];
    if FormatCents(account.balance) != "0.00" {
      return Err(BalanceNotZero);
    }
    db.transactions := DeleteMany(db.transactions, RecordsOfAccount(CanonicalId(rawId)));
    assert Selects(ById(rawId), account);
    var target := FindOne(db.accounts, ById(rawId));
    db.accounts := RemoveAt(db.accounts, target.value);
    r := Ok(DeletedMessage);
  }

  // ---------------------------------------------------------------------
  // renameAccount
  // ---------------------------------------------------------------------

  /** The nickname to store: an empty (or absent) request removes it,
      anything else is trimmed. */
  function NicknameToSave(requested: string): (n: Option<string>)
    ensures n.None? <==> requested == ""
    ensures n.Some? ==> n.value == Trim(requested)
  {
    if requested == "" then None else Some(Trim(requested))
  }

  /** The 400 check, made before the account is looked up: a non-empty
      nickname longer than the limit. */
  predicate NicknameRejected(n: Option<string>) {
    n.Some? && n.value != "" && Utf16Length(n.value) > NicknameLimit
  }

  /** Assigning accountNickname: the schema trims the string it is given. */
  function SetNickname(a: Account, n: Option<string>): Account {
    a.(accountNickname := if n.Some? then Some(Trim(n.value)) else None)
  }

  /** The effect of renameAccount. */
  function RenameAccountSpec(s: State, userId: UserId, rawId: string, requested: string): Outcome<Account> {
    var n := NicknameToSave(requested);
    if !IsObjectIdString(rawId) then Reject(s, InvalidAccountId)
    else if NicknameRejected(n) then Reject(s, NicknameTooLong)
    else match FindOne(s.accounts, ByIdAndOwner(rawId, userId))
      case None => Reject(s, AccountNotFound)
      case Some(i) =>
        var renamed := SetNickname(s.accounts[i], n);
        Outcome(s.(accounts := s.accounts[i := renamed]), Ok(renamed))
  }

  /** renameAccount: validate, find, assign the nickname, save. */
  method RenameAccount(db: Database, userId: UserId, rawId: string, requested: string) returns (r: Result<AccountView>)
    modifies db
    ensures db.Snapshot() == RenameAccountSpec(old(db.Snapshot()), userId, rawId, requested).state
    ensures r == RespondAccount(RenameAccountSpec(old(db.Snapshot()), userId, rawId, requested).result)
  {
    var n := NicknameToSave(requested);
    if !IsObjectIdString(rawId) {
      return Err(InvalidAccountId);
    }
    if NicknameRejected(n) {
      return Err(NicknameTooLong);
    }
    var found := FindOne(db.accounts, ByIdAndOwner(rawId, userId));
    if found.None? {
      return Err(AccountNotFound);
    }
    var renamed := SetNickname(db.accounts[found.value], n);
    db.accounts := db.accounts[found.value := renamed];
    r := Ok(ViewAccount(renamed));
  }
}
