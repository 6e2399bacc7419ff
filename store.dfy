/** The document store the controllers read and write: the accounts in
    insertion order, the users by id, and the transaction records in
    insertion order. */
module Store {
  import opened Common
  import opened Text
  import opened AccountModel
  import opened TransactionModel
  import opened UserModel

  datatype State = State(
    accounts: seq<Account>,
    users: map<UserId, User>,
    transactions: seq<Transaction>)

  /** A controller's effect: the store afterwards and what it answers. */
  datatype Outcome<T> = Outcome(state: State, result: Result<T>)

  /** An outcome that leaves the store as it was and raises an error. */
  function Reject<T>(s: State, f: Failure): (o: Outcome<T>)
    ensures o.state == s && o.result == Err(f)
  {
    Outcome(s, Err(f))
  }

  /** The account filters the controllers pass to findById, findOne and
      exists. Ids arrive as request strings and are cast to ObjectIds. */
  datatype AccountQuery =
    | ById(rawId: string)
    | ByIdAndOwner(rawId: string, owner: UserId)
    | ByNumber(number: string)

  predicate Selects(q: AccountQuery, a: Account) {
    match q
    case ById(rawId) => a.id == CanonicalId(rawId)
    case ByIdAndOwner(rawId, owner) => a.id == CanonicalId(rawId) && a.userId == owner
    case ByNumber(number) => a.accountNumber == number
  }

  /** findOne: the position of the first account the filter selects. */
  function FindOne(accounts: seq<Account>, q: AccountQuery): (r: Option<nat>)
    ensures r.Some? ==> r.value < |accounts| && Selects(q, accounts[r.value])
    ensures r.Some? ==> forall k :: 0 <= k < r.value ==> !Selects(q, accounts[k])
    ensures r.None? <==> forall k :: 0 <= k < |accounts| ==> !Selects(q, accounts[k])
  {
    FindFrom(accounts, q, 0)
  }

  function FindFrom(accounts: seq<Account>, q: AccountQuery, start: nat): (r: Option<nat>)
    requires start <= |accounts|
    ensures r.Some? ==> start <= r.value < |accounts| && Selects(q, accounts[r.value])
    ensures r.Some? ==> forall k :: start <= k < r.value ==> !Selects(q, accounts[k])
    ensures r.None? <==> forall k :: start <= k < |accounts| ==> !Selects(q, accounts[k])
    decreases |accounts| - start
  {
    if start == |accounts| then None
    else if Selects(q, accounts[start]) then Some(start)
    else FindFrom(accounts, q, start + 1)
  }

  /** find({ userId }): the accounts the user owns, in insertion order. */
  function FindByOwner(accounts: seq<Account>, owner: UserId): (r: seq<Account>)
    ensures |r| <= |accounts|
    ensures forall a :: a in r <==> a in accounts && a.userId == owner
  {
    if accounts == [] then []
    else
      var rest := FindByOwner(accounts[1..], owner);
      assert forall a :: a in accounts <==> a == accounts[0] || a in accounts[1..];
      if accounts[0].userId == owner then [accounts[0]] + rest else rest
  }

  /** find({ userId }) keeps each owned account as many times as the
      collection holds it, and no other account. */
  lemma {:induction false} FindByOwnerCounts(accounts: seq<Account>, owner: UserId)
    ensures forall a :: multiset(FindByOwner(accounts, owner))[a]
                        == (if a.userId == owner then multiset(accounts)[a] else 0)
  {
    if accounts != [] {
      FindByOwnerCounts(accounts[1..], owner);
      assert accounts == [accounts[0]] + accounts[1..];
      assert multiset(accounts) == multiset{accounts[0]} + multiset(accounts[1..]);
    }
  }

  /** Replacing an account by one the filter selects alike leaves findOne's
      answer as it was. */
  lemma {:induction false} FindFromUpdate(accounts: seq<Account>, q: AccountQuery, start: nat, i: nat, a: Account)
    requires start <= |accounts| && i < |accounts|
    requires Selects(q, a) == Selects(q, accounts[i])
    ensures FindFrom(accounts[i := a], q, start) == FindFrom(accounts, q, start)
    decreases |accounts| - start
  {
    if start < |accounts| {
      FindFromUpdate(accounts, q, start + 1, i, a);
    }
  }

  /** No two accounts share an _id. */
  ghost predicate UniqueIds(accounts: seq<Account>) {
    forall i, j :: 0 <= i < j < |accounts| ==> accounts[i].id != accounts[j].id
  }

  /** No two accounts share an account number (the unique index). */
  ghost predicate UniqueNumbers(accounts: seq<Account>) {
    forall i, j :: 0 <= i < j < |accounts| ==> accounts[i].accountNumber != accounts[j].accountNumber
  }

  /** Every balance is at least zero. The schema does not enforce it; the
      balance arithmetic keeps it. */
  ghost predicate NoOverdraft(accounts: seq<Account>) {
    forall i :: 0 <= i < |accounts| ==> accounts[i].balance >= 0
  }

  ghost predicate Valid(s: State) {
    UniqueIds(s.accounts) && UniqueNumbers(s.accounts) && NoOverdraft(s.accounts)
  }

  /** With unique ids a query on an id has at most one answer. */
  lemma FindByIdUnique(accounts: seq<Account>, q: AccountQuery, k: nat)
    requires UniqueIds(accounts) && !q.ByNumber?
    requires k < |accounts| && Selects(q, accounts[k])
    ensures FindOne(accounts, q) == Some(k)
  {
  }

  /** With unique numbers a query on a number has at most one answer. */
  lemma FindByNumberUnique(accounts: seq<Account>, q: AccountQuery, k: nat)
    requires UniqueNumbers(accounts) && q.ByNumber?
    requires k < |accounts| && Selects(q, accounts[k])
    ensures FindOne(accounts, q) == Some(k)
  {
  }

  /** The money held by all accounts together. */
  function TotalBalance(accounts: seq<Account>): int {
    if accounts == [] then 0 else TotalBalance(accounts[..|accounts| - 1]) + accounts[|accounts| - 1].balance
  }

  /** Changing one balance changes the total by the difference. */
  lemma {:induction false} TotalBalanceUpdate(accounts: seq<Account>, i: nat, a: Account)
    requires i < |accounts|
    ensures TotalBalance(accounts[i := a]) == TotalBalance(accounts) - accounts[i].balance + a.balance
  {
    var n := |accounts|;
    var updated := accounts[i := a];
    if i < n - 1 {
      assert updated[..n - 1] == accounts[..n - 1][i := a];
      TotalBalanceUpdate(accounts[..n - 1], i, a);
    } else {
      assert updated[..n - 1] == accounts[..n - 1];
    }
  }

  /** Appending an account adds its balance to the total. */
  lemma TotalBalanceAppend(accounts: seq<Account>, a: Account)
    ensures TotalBalance(accounts + [a]) == TotalBalance(accounts) + a.balance
  {
    assert (accounts + [a])[..|accounts|] == accounts;
  }

  /** accounts without the one at position i (findByIdAndDelete). */
  function RemoveAt(accounts: seq<Account>, i: nat): (r: seq<Account>)
    requires i < |accounts|
    ensures |r| == |accounts| - 1
    ensures forall k :: 0 <= k < i ==> r[k] == accounts[k]
    ensures forall k :: i <= k < |r| ==> r[k] == accounts[k + 1]
  {
    accounts[..i] + accounts[i + 1..]
  }

  /** Removing an account removes its balance from the total. */
  lemma {:induction false} TotalBalanceRemove(accounts: seq<Account>, i: nat)
    requires i < |accounts|
    ensures TotalBalance(RemoveAt(accounts, i)) == TotalBalance(accounts) - accounts[i].balance
  {
    var n := |accounts|;
    var r := RemoveAt(accounts, i);
    if i == n - 1 {
      assert r == accounts[..n - 1];
    } else {
      assert r[..|r| - 1] == RemoveAt(accounts[..n - 1], i);
      TotalBalanceRemove(accounts[..n - 1], i);
    }
  }

  /** The record filters the controllers pass to find and deleteMany. */
  datatype RecordQuery =
    | RecordsOfUser(userId: UserId)
    | RecordsOfAccount(accountId: AccountId)

  predicate Matches(q: RecordQuery, t: Transaction) {
    match q
    case RecordsOfUser(userId) => t.userId == userId
    case RecordsOfAccount(accountId) => t.accountId == accountId
  }

  /** find: the records the filter matches, in insertion order. */
  function Find(ts: seq<Transaction>, q: RecordQuery): (r: seq<Transaction>)
    ensures |r| <= |ts|
    ensures forall t :: t in r <==> t in ts && Matches(q, t)
    ensures forall k :: 0 <= k < |r| ==> Matches(q, r[k])
  {
    if ts == [] then []
    else
      var rest := Find(ts[1..], q);
      assert forall t :: t in ts <==> t == ts[0] || t in ts[1..];
      if Matches(q, ts[0]) then [ts[0]] + rest else rest
  }

  /** deleteMany: the records the filter does not match, in insertion order. */
  function DeleteMany(ts: seq<Transaction>, q: RecordQuery): (r: seq<Transaction>)
    ensures |r| <= |ts|
    ensures forall t :: t in r <==> t in ts && !Matches(q, t)
  {
    if ts == [] then []
    else
      var rest := DeleteMany(ts[1..], q);
      assert forall t :: t in ts <==> t == ts[0] || t in ts[1..];
      if Matches(q, ts[0]) then rest else [ts[0]] + rest
  }

  /** find and deleteMany split the records between them. */
  lemma {:induction false} FindDeletePartition(ts: seq<Transaction>, q: RecordQuery)
    ensures |Find(ts, q)| + |DeleteMany(ts, q)| == |ts|
    ensures multiset(Find(ts, q)) + multiset(DeleteMany(ts, q)) == multiset(ts)
  {
    if ts != [] {
      FindDeletePartition(ts[1..], q);
      assert ts == [ts[0]] + ts[1..];
    }
  }

  /** find keeps insertion order: the matches in a concatenation are the
      matches in the first part followed by those in the second. */
  lemma {:induction false} FindAppend(a: seq<Transaction>, b: seq<Transaction>, q: RecordQuery)
    ensures Find(a + b, q) == Find(a, q) + Find(b, q)
  {
    if a != [] {
      FindAppend(a[1..], b, q);
      assert (a + b)[1..] == a[1..] + b;
    } else {
      assert a + b == b;
    }
  }

  /** deleteMany keeps insertion order: what survives in a concatenation is
      what survives in the first part followed by what survives in the
      second. */
  lemma {:induction false} DeleteManyAppend(a: seq<Transaction>, b: seq<Transaction>, q: RecordQuery)
    ensures DeleteMany(a + b, q) == DeleteMany(a, q) + DeleteMany(b, q)
  {
    if a != [] {
      DeleteManyAppend(a[1..], b, q);
      assert (a + b)[1..] == a[1..] + b;
    } else {
      assert a + b == b;
    }
  }

  /** A record appended to the store comes last in find's answer when it
      matches, and last among the survivors of deleteMany when it does not. */
  lemma AppendedLast(ts: seq<Transaction>, t: Transaction, q: RecordQuery)
    ensures Find(ts + [t], q) == Find(ts, q) + (if Matches(q, t) then [t] else [])
    ensures DeleteMany(ts + [t], q) == DeleteMany(ts, q) + (if Matches(q, t) then [] else [t])
  {
    FindAppend(ts, [t], q);
    DeleteManyAppend(ts, [t], q);
    assert [t][1..] == [];
  }

  /** The store as the controllers see it: three collections they read and
      overwrite in place. */
  class Database {
    var accounts: seq<Account>
    var users: map<UserId, User>
    var transactions: seq<Transaction>

    constructor (accounts: seq<Account>, users: map<UserId, User>, transactions: seq<Transaction>)
      ensures Snapshot() == State(accounts, users, transactions)
    {
      this.accounts := accounts;
      this.users := users;
      this.transactions := transactions;
    }

    function Snapshot(): State
      reads this
    {
      State(accounts, users, transactions)
    }
  }
}
