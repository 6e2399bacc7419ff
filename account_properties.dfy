/** What the account handlers promise: who may see an account, that opening,
    deleting and renaming keep ids and numbers unique and the money where it
    was, that a deletion takes exactly the account's records with it, and
    that a rename touches only the nickname. */
module AccountProperties {
  import opened Common
  import opened Text
  import opened Money
  import opened AccountModel
  import opened TransactionModel
  import opened Store
  import opened TransactionController
  import opened AccountController

  /** The balance a view shows reads back as the stored balance. */
  lemma AccountViewReadsBack(a: Account)
    requires a.balance >= 0
    ensures ParseAmount(ViewAccount(a).balance) == Some(a.balance)
  {
    ParseFormatRoundTrip(a.balance);
  }

  // ---------------------------------------------------------------------
  // createAccount
  // ---------------------------------------------------------------------

  /** createAccount answers 409 exactly when the new id or number is taken,
      and then stores nothing; otherwise it appends one empty account of the
      caller's, numbered after the draw. */
  lemma CreateAccountOutcome(s: State, userId: UserId, accountType: Option<AccountType>, newId: AccountId, draw: nat)
    requires draw < AccountNumberRange
    ensures var o := CreateAccountSpec(s, userId, accountType, newId, draw);
            && (o.result.Err? <==> Conflicts(s.accounts, newId, GenerateAccountNumber(draw)))
            && (o.result.Err? ==> o == Reject(s, AccountNumberConflict))
            && (o.result.Ok? ==>
                  var a := o.result.value;
                  && o.state == s.(accounts := s.accounts + [a])
                  && a.id == newId && a.userId == userId && a.balance == 0 && a.accountNickname.None?
                  && a.accountType == (if accountType.Some? then accountType.value else Checking)
                  && |a.accountNumber| == AccountNumberLength && AllDigits(a.accountNumber)
                  && DigitsValue(a.accountNumber) == draw)
  {
    var number := GenerateAccountNumber(draw);
    if !Conflicts(s.accounts, newId, number) {
      var a := NewAccount(newId, userId, number, accountType);
      FormatIsZeroString(a.balance);
    }
  }

  /** Opening an account keeps ids and numbers unique and every balance
      non-negative, and adds nothing to the money held. */
  lemma CreateKeepsValid(s: State, userId: UserId, accountType: Option<AccountType>, newId: AccountId, draw: nat)
    requires draw < AccountNumberRange && Valid(s)
    ensures var o := CreateAccountSpec(s, userId, accountType, newId, draw);
            Valid(o.state) && TotalBalance(o.state.accounts) == TotalBalance(s.accounts)
  {
    var number := GenerateAccountNumber(draw);
    if !Conflicts(s.accounts, newId, number) {
      var a := NewAccount(newId, userId, number, accountType);
      FormatIsZeroString(a.balance);
      TotalBalanceAppend(s.accounts, a);
      var accounts := s.accounts + [a];
      assert forall k :: 0 <= k < |s.accounts| ==> accounts[k] == s.accounts[k];
      assert forall k :: 0 <= k < |s.accounts| ==> s.accounts[k].id != newId && s.accounts[k].accountNumber != number;
    }
  }

  // ---------------------------------------------------------------------
  // Reads
  // ---------------------------------------------------------------------

  /** With unique ids, getAccountById answers the account exactly when the
      caller owns it, and 403 exactly when someone else does. */
  lemma AccountByIdAccess(s: State, userId: UserId, rawId: string)
    requires UniqueIds(s.accounts) && IsObjectIdString(rawId)
    ensures GetAccountById(s, userId, rawId).Ok? <==>
              exists k :: 0 <= k < |s.accounts| && Selects(ByIdAndOwner(rawId, userId), s.accounts[k])
    ensures GetAccountById(s, userId, rawId) == Err(NotAccountOwner) <==>
              exists k :: 0 <= k < |s.accounts| && Selects(ById(rawId), s.accounts[k]) && s.accounts[k].userId != userId
  {
    match FindOne(s.accounts, ById(rawId))
    case None =>
    case Some(i) =>
      forall k | 0 <= k < |s.accounts| && Selects(ById(rawId), s.accounts[k])
        ensures k == i
      {
        FindByIdUnique(s.accounts, ById(rawId), k);
      }
  }

  /** The same for getAccountTransactions, whose 403 has its own message. */
  lemma AccountTransactionsAccess(s: State, userId: UserId, rawId: string)
    requires UniqueIds(s.accounts) && IsObjectIdString(rawId)
    ensures GetAccountTransactions(s, userId, rawId).Ok? <==>
              exists k :: 0 <= k < |s.accounts| && Selects(ByIdAndOwner(rawId, userId), s.accounts[k])
    ensures GetAccountTransactions(s, userId, rawId) == Err(NotAuthorized) <==>
              exists k :: 0 <= k < |s.accounts| && Selects(ById(rawId), s.accounts[k]) && s.accounts[k].userId != userId
  {
    match FindOne(s.accounts, ById(rawId))
    case None =>
    case Some(i) =>
      forall k | 0 <= k < |s.accounts| && Selects(ById(rawId), s.accounts[k])
        ensures k == i
      {
        FindByIdUnique(s.accounts, ById(rawId), k);
      }
  }

  /** The account history holds the same views as the transaction
      controller's per-account query, only not sorted: both answer for an
      owned account, with the same views, each as often. */
  lemma AccountHistoriesAgree(s: State, userId: UserId, rawId: string)
    requires UniqueIds(s.accounts)
    ensures GetAccountTransactions(s, userId, rawId).Ok? <==> GetTransactionsForAccount(s, userId, rawId).Ok?
    ensures GetAccountTransactions(s, userId, rawId).Ok? ==>
              var mine, sorted := GetAccountTransactions(s, userId, rawId).value, GetTransactionsForAccount(s, userId, rawId).value;
              |mine| == |sorted| && multiset(mine) == multiset(sorted) && forall v :: v in mine <==> v in sorted
  {
    if IsObjectIdString(rawId) {
      AccountTransactionsAccess(s, userId, rawId);
      var records := Find(s.transactions, RecordsOfAccount(CanonicalId(rawId)));
      SortedAndStoredViews(records);
    }
  }

  /** Sorting the records before formatting them changes the order of the
      views and nothing else. */
  lemma SortedAndStoredViews(records: seq<Transaction>)
    ensures |ViewAll(records)| == |ListNewestFirst(records)|
    ensures multiset(ViewAll(records)) == multiset(ListNewestFirst(records))
    ensures forall v :: v in ViewAll(records) <==> v in ListNewestFirst(records)
  {
    var mine, sorted := ViewAll(records), ListNewestFirst(records);
    forall v | v in mine
      ensures v in sorted
    {
      var k :| 0 <= k < |mine| && mine[k] == v;
      assert records[k] in records;
    }
  }

  // ---------------------------------------------------------------------
  // deleteAccount
  // ---------------------------------------------------------------------

  /** deleteAccount succeeds exactly for the caller's account with a zero
      balance; each refusal raises its own error and changes nothing. */
  lemma DeleteAccountOutcome(s: State, userId: UserId, rawId: string)
    requires UniqueIds(s.accounts)
    ensures var o := DeleteAccountSpec(s, userId, rawId);
            && (o.result.Ok? <==>
                  IsObjectIdString(rawId) &&
                  exists k :: 0 <= k < |s.accounts| && Selects(ByIdAndOwner(rawId, userId), s.accounts[k])
                                && s.accounts[k].balance == 0)
            && (o.result.Err? ==> o.state == s)
            && (!IsObjectIdString(rawId) ==> o.result == Err(InvalidAccountId))
            && (IsObjectIdString(rawId) &&
                (forall k :: 0 <= k < |s.accounts| ==> !Selects(ByIdAndOwner(rawId, userId), s.accounts[k]))
                ==> o.result == Err(AccountNotFound))
            && (forall k ::
                  IsObjectIdString(rawId) && 0 <= k < |s.accounts| &&
                  Selects(ByIdAndOwner(rawId, userId), s.accounts[k]) && s.accounts[k].balance != 0
                  ==> o.result == Err(BalanceNotZero))
  {
    if IsObjectIdString(rawId) {
      match FindOne(s.accounts, ByIdAndOwner(rawId, userId))
      case None =>
      case Some(i) =>
        FormatIsZeroString(s.accounts[i].balance);
        forall k | 0 <= k < |s.accounts| && Selects(ByIdAndOwner(rawId, userId), s.accounts[k])
          ensures k == i
        {
          FindByIdUnique(s.accounts, ByIdAndOwner(rawId, userId), k);
        }
    }
  }

  /** A deletion removes the one account it names, which held nothing, and
      exactly the records filed under it; the users and the money held stay
      as they were, and the store stays valid. */
  lemma DeleteSuccess(s: State, userId: UserId, rawId: string)
    requires Valid(s) && DeleteAccountSpec(s, userId, rawId).result.Ok?
    ensures var o := DeleteAccountSpec(s, userId, rawId);
            && (exists i :: 0 <= i < |s.accounts| && Selects(ByIdAndOwner(rawId, userId), s.accounts[i])
                            && s.accounts[i].balance == 0 && o.state.accounts == RemoveAt(s.accounts, i))
            && (forall k :: 0 <= k < |o.state.accounts| ==> o.state.accounts[k].id != CanonicalId(rawId))
            && (forall t :: t in o.state.transactions <==> t in s.transactions && t.accountId != CanonicalId(rawId))
            && |o.state.transactions| + |Find(s.transactions, RecordsOfAccount(CanonicalId(rawId)))| == |s.transactions|
            && o.state.users == s.users
            && TotalBalance(o.state.accounts) == TotalBalance(s.accounts)
            && Valid(o.state)
  {
    var i := FindOne(s.accounts, ByIdAndOwner(rawId, userId)).value;
    FindByIdUnique(s.accounts, ById(rawId), i);
    FormatIsZeroString(s.accounts[i].balance);
    var accounts := RemoveAt(s.accounts, i);
    TotalBalanceRemove(s.accounts, i);
    FindDeletePartition(s.transactions, RecordsOfAccount(CanonicalId(rawId)));
    RemoveKeepsValid(s.accounts, i);
    forall k | 0 <= k < |accounts|
      ensures accounts[k].id != CanonicalId(rawId)
    {
      if k < i {
        assert accounts[k] == s.accounts[k];
      } else {
        assert accounts[k] == s.accounts[k + 1];
      }
    }
  }

  /** Removing an account keeps the others' ids and numbers unique and their
      balances non-negative. */
  lemma RemoveKeepsValid(accounts: seq<Account>, i: nat)
    requires i < |accounts|
    requires UniqueIds(accounts) && UniqueNumbers(accounts) && NoOverdraft(accounts)
    ensures var r := RemoveAt(accounts, i);
            UniqueIds(r) && UniqueNumbers(r) && NoOverdraft(r)
  {
    var r := RemoveAt(accounts, i);
    assert forall k :: 0 <= k < |r| ==> r[k] == accounts[if k < i then k else k + 1];
  }

  // ---------------------------------------------------------------------
  // renameAccount
  // ---------------------------------------------------------------------

  /** The nickname a rename stores: none for an empty request, else the
      request trimmed, and then either empty or within the limit. */
  lemma NicknameStored(requested: string)
    requires !NicknameRejected(NicknameToSave(requested))
    ensures forall a: Account :: SetNickname(a, NicknameToSave(requested)) == a.(accountNickname := NicknameToSave(requested))
    ensures NicknameToSave(requested).None? <==> requested == ""
    ensures NicknameToSave(requested).Some? ==>
              var n := NicknameToSave(requested).value;
              n == Trim(requested) && (n == "" || Utf16Length(n) <= NicknameLimit)
  {
    if requested != "" {
      TrimIdempotent(requested);
    }
  }

  /** renameAccount checks the id, then the length, and only then looks the
      account up: a nickname over the limit is refused even for an account
      that does not exist. Every refusal changes nothing. */
  lemma RenameAccountOutcome(s: State, userId: UserId, rawId: string, requested: string)
    requires UniqueIds(s.accounts)
    ensures var o := RenameAccountSpec(s, userId, rawId, requested);
            && (o.result.Ok? <==>
                  IsObjectIdString(rawId) && !NicknameRejected(NicknameToSave(requested)) &&
                  exists k :: 0 <= k < |s.accounts| && Selects(ByIdAndOwner(rawId, userId), s.accounts[k]))
            && (o.result.Err? ==> o.state == s)
            && (IsObjectIdString(rawId) && NicknameRejected(NicknameToSave(requested)) ==> o.result == Err(NicknameTooLong))
  {
    if IsObjectIdString(rawId) && !NicknameRejected(NicknameToSave(requested)) {
      match FindOne(s.accounts, ByIdAndOwner(rawId, userId))
      case None =>
      case Some(i) =>
    }
  }

  /** A rename changes the nickname of the caller's account and nothing
      else: no balance moves, and the store stays valid. */
  lemma RenameSuccess(s: State, userId: UserId, rawId: string, requested: string)
    requires Valid(s) && RenameAccountSpec(s, userId, rawId, requested).result.Ok?
    ensures var o := RenameAccountSpec(s, userId, rawId, requested);
            && (exists i :: 0 <= i < |s.accounts| && Selects(ByIdAndOwner(rawId, userId), s.accounts[i])
                            && o.state.accounts == s.accounts[i := s.accounts[i].(accountNickname := NicknameToSave(requested))])
            && o.state.users == s.users && o.state.transactions == s.transactions
            && TotalBalance(o.state.accounts) == TotalBalance(s.accounts)
            && Valid(o.state)
  {
    var i := FindOne(s.accounts, ByIdAndOwner(rawId, userId)).value;
    NicknameStored(requested);
    var renamed := s.accounts[i].(accountNickname := NicknameToSave(requested));
    TotalBalanceUpdate(s.accounts, i, renamed);
  }

  /** Renaming twice to the same nickname is renaming once. */
  lemma RenameIdempotent(s: State, userId: UserId, rawId: string, requested: string)
    ensures var o := RenameAccountSpec(s, userId, rawId, requested);
            RenameAccountSpec(o.state, userId, rawId, requested) == o
  {
    var n := NicknameToSave(requested);
    if IsObjectIdString(rawId) && !NicknameRejected(n) {
      match FindOne(s.accounts, ByIdAndOwner(rawId, userId))
      case None =>
      case Some(i) =>
        NicknameStored(requested);
        var renamed := SetNickname(s.accounts[i], n);
        FindFromUpdate(s.accounts, ByIdAndOwner(rawId, userId), 0, i, renamed);
        assert s.accounts[i := renamed][i] == renamed;
        assert s.accounts[i := renamed][i := renamed] == s.accounts[i := renamed];
    }
  }
}
