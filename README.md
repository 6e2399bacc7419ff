# bankyyy server core, modelled in Dafny

This project models the core of the bankyyy banking API, an Express and
Mongoose server. It covers:

- the transaction controller: deposits, withdrawals, the two-step transfer
  protected by a one-time passcode, and the transaction histories;
- the account controller: opening, listing, reading, renaming and deleting
  accounts;
- the Account schema's defaults and its account-number generator;
- the user profile read and update;
- the error-handling middleware;
- the admin-password check.

Money is a whole number of cents. `Money.ParseAmount` reads the request
format `^\d+(\.\d{1,2})?$` into cents. A stored Decimal128 keeps the number
of fraction digits it was written with, so a record carries that scale and
`Money.FormatDecimal` prints its amount the way `Decimal128.toString()` does
("10" stays "10", "5.5" stays "5.5"). Balances come out of `toFixed(2)` and
are printed with two decimals (`Money.FormatCents`).

The database is a value `Store.State`: the accounts and the transactions in
insertion order, and the users by id. A class `Store.Database` holds the same
three collections as fields the controllers overwrite in place. Each handler
that writes has two parts:

- a specification function (`…Spec`) that gives the new state and the
  answer;
- a method on `Database` whose `ensures` ties its new state and its result
  to that function.

The two transfer specifications take the internal self-transfer guard as a
parameter: `AsWritten` compares the two request strings, as the source does,
and `ByObjectId` compares the ObjectIds they name. The `Database` methods
use `AsWritten`. Lemmas that hold for both guards take the guard as a
parameter. Lemmas that hold only for the corrected guard say so.

The properties the source promises are proved as lemmas about the
specification functions: conservation of money, uniqueness of ids and
numbers, no overdraft, single use of the passcode, what each refusal leaves
unchanged, and idempotence.

Ids arrive as request strings. A query on `_id` matches once Mongoose has
cast the string to an ObjectId, so lookups compare `Text.CanonicalId`, the
lower-cased hexadecimal string. Where a handler passes a request id
straight to a query (createTransaction, initiateTransfer, executeTransfer),
an id that is not 24 hexadecimal digits makes the cast fail; the CastError
reaches the error handler, which answers 404 "Resource not found. Invalid ID
format for path: _id" (`TransactionController.IdCastFailed`). The route
check `isMongoId()` lets such ids through when they start with `0x`.

The generated passcode, the bcrypt salt, the random account-number draw, the
new document id and the clock are parameters of the operations.

## Model

| member | source | states |
|---|---|---|
| Text.Trim | server/controllers/userController.js:68-70 | the trimmed string is never longer than the input |
| Text.TrimSpec | server/controllers/userController.js:68-70 | trim keeps exactly the infix after the leading spaces, and only spaces follow it |
| Text.TrimInfix | server/controllers/userController.js:68-70 | what trim keeps starts right after the leading spaces |
| Text.TrimTrailing | server/controllers/userController.js:68-70 | only spaces follow what trim keeps |
| Text.TrimEnds | server/controllers/userController.js:68-70 | a trimmed string neither starts nor ends with a space |
| Text.TrimIdempotent | server/controllers/userController.js:68-70 | trimming twice is trimming once |
| Text.LeadingSpaces | server/controllers/userController.js:68-70 | counts exactly the run of spaces at the start of the string |
| Text.Utf16Length | server/controllers/accountController.js:182 | the JavaScript length lies between the number of characters and twice that |
| Text.CanonicalId | server/controllers/transactionController.js:266 | the cast id has the length of the request id |
| Text.CanonicalIdChars | server/controllers/transactionController.js:266 | the cast lower-cases each hexadecimal digit and keeps its position |
| Money.NatToDecimal | server/models/Account.js:7 | `toString()` of a non-negative integer is a non-empty run of digits |
| Money.DecimalRoundTrip | server/models/Account.js:7 | reading back a rendered number gives the number |
| Money.DecimalLength | server/models/Account.js:6-7 | a number below 10^k takes at most k digits |
| Money.DigitsValueAppend | server/models/Account.js:7 | the value of a concatenation of digit strings |
| Money.ZerosValue | server/models/Account.js:7 | a run of zeros denotes zero |
| Money.PadStart | server/models/Account.js:7 | padStart makes the string exactly the width long, or leaves a longer one as it is |
| Money.PadZerosValue | server/models/Account.js:7 | zero padding does not change the number denoted |
| Money.ParseAmount | server/controllers/transactionController.js:103 | an accepted amount starts with a digit and is a non-negative number of cents |
| Money.PositiveAmount | server/controllers/transactionController.js:103-109 | an accepted amount parses and is above zero, and every positive parse is accepted |
| Money.IndexOfAfterDigits | server/controllers/transactionController.js:103 | the first '.' after a run of digits is the one that ends it |
| Money.ParseFormatRoundTrip | server/controllers/transactionController.js:14-28 | a rendered non-negative balance parses back to the same cents |
| Money.FormatIsZeroString | server/controllers/accountController.js:137 | the rendered balance is "0.00" exactly when the balance is zero |
| Money.ParsedScale | server/controllers/transactionController.js:103 | every accepted amount fits the number of fraction digits it was written with |
| Money.ScaledRoundTrip | server/controllers/transactionController.js:25-26 | an amount printed with a scale it fits parses back to the same cents and shows that scale |
| Money.CanonicalDecimal | server/controllers/transactionController.js:25-26 | a digit string without leading zeros is printed back as itself |
| Money.WrittenRoundTrip | server/controllers/transactionController.js:103-126 | an accepted amount without leading zeros, printed with its written scale, is the written string |
| AccountModel.GenerateAccountNumber | server/models/Account.js:5-10 | the number has ten digits and denotes the draw |
| AccountModel.GeneratedNumbersDistinct | server/models/Account.js:5-10 | different draws give different account numbers |
| AccountModel.NewAccount | server/models/Account.js:12-42 | a new account has balance zero, no nickname, and the requested type or checking |
| Store.Reject | server/controllers/accountController.js:131-133 | a refusal leaves the store as it was and raises that error |
| Store.FindOne | server/controllers/transactionController.js:179 | findOne answers the first account the filter selects, and None exactly when none is selected |
| Store.FindFrom | server/controllers/transactionController.js:179 | the first selected position at or after the start |
| Store.FindByOwner | server/controllers/accountController.js:38 | the listed accounts are exactly those the user owns |
| Store.FindByOwnerCounts | server/controllers/accountController.js:38 | each owned account is listed as many times as it is stored, and no other account is listed |
| Store.FindFromUpdate | server/controllers/accountController.js:189-203 | replacing an account by one the filter selects alike leaves findOne's answer unchanged |
| Store.FindByIdUnique | server/models/Account.js:12 | with unique ids a query on an id has at most one answer |
| Store.FindByNumberUnique | server/models/Account.js:18-23 | with unique numbers a query on a number has at most one answer |
| Store.TotalBalanceUpdate | server/controllers/transactionController.js:118-119 | changing one balance changes the total by the difference |
| Store.TotalBalanceAppend | server/controllers/accountController.js:14 | appending an account adds its balance to the total |
| Store.RemoveAt | server/controllers/accountController.js:147 | findByIdAndDelete keeps every other account in order |
| Store.TotalBalanceRemove | server/controllers/accountController.js:147 | removing an account removes its balance from the total |
| Store.Find | server/controllers/transactionController.js:354 | find keeps exactly the matching records |
| Store.DeleteMany | server/controllers/accountController.js:142 | deleteMany keeps exactly the records that do not match |
| Store.FindDeletePartition | server/controllers/accountController.js:142 | find and deleteMany split the records between them |
| Store.FindAppend | server/controllers/transactionController.js:354 | find keeps insertion order: the matches of a concatenation are the matches of each part, in order |
| Store.DeleteManyAppend | server/controllers/accountController.js:142 | deleteMany keeps insertion order: the survivors of a concatenation are the survivors of each part, in order |
| Store.AppendedLast | server/controllers/transactionController.js:354 | a record appended last comes last in find's answer if it matches, and last among deleteMany's survivors if not |
| Store.Database.constructor | server/models/Account.js:12-46 | the store holds the three collections it is given |
| TransactionController.CalculateNewBalance | server/controllers/transactionController.js:31-88 | succeeds only for a positive amount of a known kind, and never takes a non-negative balance below zero |
| TransactionController.View | server/controllers/transactionController.js:14-28 | every modelled field carries over; the amount is printed with its written scale and the balance with two decimals |
| TransactionController.ViewReadsBack | server/controllers/transactionController.js:25-26 | the printed amount reads back as the stored amount with the stored scale, and the balance as the stored balance |
| TransactionController.FormatTransaction | server/controllers/transactionController.js:14-18 | null stays null, a record becomes its view |
| TransactionController.FormatAll | server/controllers/transactionController.js:361 | the views of the present results, in order |
| TransactionController.Views | server/controllers/transactionController.js:361 | one view per record, in the same order |
| TransactionController.DocumentViews | server/controllers/transactionController.js:361 | formatting fetched documents gives exactly the views of the records |
| TransactionController.AsDocuments | server/controllers/transactionController.js:354 | every query result is present |
| TransactionController.InsertByDate | server/controllers/transactionController.js:354 | insertion keeps a newest-first sequence newest first and adds exactly the record |
| TransactionController.ConsNewestFirst | server/controllers/transactionController.js:354 | a record no older than the head can go in front |
| TransactionController.SortNewestFirst | server/controllers/transactionController.js:354 | the sort is newest first and a permutation of its input |
| TransactionController.InsertViews | server/controllers/transactionController.js:354 | inserting a record adds its view to the views, as a multiset |
| TransactionController.SortViews | server/controllers/transactionController.js:354 | the views of the sorted records are a permutation of the views of the records |
| TransactionController.ListNewestFirst | server/controllers/transactionController.js:354-361 | one view per record, in createdAt order; as a multiset the list is the views of the records |
| TransactionController.SortedViews | server/controllers/transactionController.js:354-361 | every record has its view in the sorted views, and every sorted record is one of the records |
| TransactionController.GetUserTransactions | server/controllers/transactionController.js:347-375 | the caller's records, newest first; as a multiset, the views of exactly the caller's records |
| TransactionController.GetTransactionsForAccount | server/controllers/transactionController.js:378-424 | 400 for a malformed id, 404 unless the caller owns the account, else that account's records newest first; as a multiset, the views of exactly its records |
| TransactionController.CreateTransaction | server/controllers/transactionController.js:92-146 | the new store and the answer are those of createTransaction's effect |
| TransactionController.InitiateTransfer | server/controllers/transactionController.js:150-220 | the new store and the answer are those of initiateTransfer's effect with the guard as written |
| TransactionController.ExecuteTransfer | server/controllers/transactionController.js:222-330 | the new store and the answer are those of executeTransfer's effect with the guard as written; a success answers "Transfer completed successfully!" with the transfer-out record |
| TransactionController.TransferBetweenAccounts | server/controllers/transactionController.js:334-337 | always refuses with 400 "This transfer method is deprecated. Please use the OTP flow." and changes nothing |
| TransactionController.TransferToExternalAccount | server/controllers/transactionController.js:338-341 | always refuses with 400 "This transfer method is deprecated. Please use the OTP flow." and changes nothing |
| TransactionProperties.BalanceArithmetic | server/controllers/transactionController.js:31-88 | success exactly when covered or a credit; subtraction or addition; an uncovered debit is "Insufficient funds.", a non-positive amount its own 400, an unknown kind 500 |
| TransactionProperties.WithdrawThenDeposit | server/controllers/transactionController.js:31-88 | a withdrawal then a deposit of the same amount restores the balance |
| TransactionProperties.CreateTransactionFailureChangesNothing | server/controllers/transactionController.js:103-113 | a refused deposit or withdrawal leaves the store unchanged |
| TransactionProperties.CreateTransactionRejects | server/controllers/transactionController.js:103-116 | the reasons for a refusal in the order they are checked: format, zero, an id that does not cast (404 from the error handler), no such account, then the balance rule's own error |
| TransactionProperties.CreateTransactionEffect | server/controllers/transactionController.js:112-134 | success applies the balance rule to the caller's account only and appends one record with the amount, its written scale and the new balance |
| TransactionProperties.CreateTransactionEchoesAmount | server/controllers/transactionController.js:103-137 | the answer's amount reads back as the request's, with its scale, and is the request's string unless that had leading zeros |
| TransactionProperties.CreateTransactionTotal | server/controllers/transactionController.js:115-119 | a deposit adds its amount to the money held and a withdrawal takes it away |
| TransactionProperties.CreateTransactionKeepsValid | server/controllers/transactionController.js:115-119 | deposits and withdrawals keep ids and numbers unique and never overdraw |
| TransactionProperties.InitiateMovesNoMoney | server/controllers/transactionController.js:150-220 | initiation never touches an account or a record |
| TransactionProperties.InitiateFailureChangesNothing | server/controllers/transactionController.js:161-197 | a refused initiation stores no challenge |
| TransactionProperties.InitiateSuccess | server/controllers/transactionController.js:173-205 | for either guard: success means every check passed, including that guard and the casts of the ids, and the new state is the old one with only the caller's challenge replaced by the code's hash with a ten-minute expiry (and its updatedAt set) |
| TransactionProperties.InitiateRejectsSelfTransfer | server/controllers/transactionController.js:188 | an internal transfer whose two ids the guard deems the same is refused (for AsWritten, two equal strings) |
| TransactionProperties.ExecuteWithoutChallenge | server/controllers/transactionController.js:247 | without a stored challenge nothing changes |
| TransactionProperties.ExecuteExpired | server/controllers/transactionController.js:248-251 | an expired challenge is cleared (the caller's record alone changes), the transfer refused, and no money moves |
| TransactionProperties.ExecuteWrongCode | server/controllers/transactionController.js:253-254 | a wrong code is refused and the challenge stays |
| TransactionProperties.ExecuteConsumesChallenge | server/controllers/transactionController.js:258 | an accepted code is consumed whatever follows |
| TransactionProperties.ExecuteReplayRefused | server/controllers/transactionController.js:247-258 | presenting the code again, at any time, finds no challenge and changes nothing |
| TransactionProperties.ExecuteNeedsPasscode | server/controllers/transactionController.js:247-258 | only an accepted code moves money |
| TransactionProperties.CommitKeepsUsers | server/controllers/transactionController.js:261-315 | moving money never changes a user |
| TransactionProperties.CommitFailureMovesNoMoney | server/controllers/transactionController.js:266-314 | a transfer refused after the gate changes no account and no record |
| TransactionProperties.ExecuteSuccessResolves | server/controllers/transactionController.js:266-295 | a successful transfer cast its ids, found its source among the caller's accounts and its recipient by the transfer type |
| TransactionProperties.ExecuteIsCommit | server/controllers/transactionController.js:258-315 | for either guard: past an accepted code, execution is the commit with that guard on the store with the challenge consumed |
| TransactionProperties.CommitSuccess | server/controllers/transactionController.js:266-311 | a successful commit had a covering source and, with the ObjectId guard, a different recipient |
| TransactionProperties.CommitInternalSuccess | server/controllers/transactionController.js:271-290 | an internal commit settles with the caller's other account |
| TransactionProperties.CommitExternalSuccess | server/controllers/transactionController.js:292-311 | an external commit settles with the account holding the trimmed number, never the source |
| TransactionProperties.SettleEffect | server/controllers/transactionController.js:278-308 | settling saves both balances and appends the out record, then the in record, each naming the other account |
| TransactionProperties.ExecuteIsSettle | server/controllers/transactionController.js:258-311 | for either guard: a successful transfer is a settlement between the source and the recipient; only under the corrected guard are they different accounts |
| TransactionProperties.ExecuteSuccess | server/controllers/transactionController.js:269-302 | for either guard: success debits the source, credits the recipient, leaves other accounts alone and consumes the challenge; only under the corrected guard are the two different |
| TransactionProperties.SettleAfterConsume | server/controllers/transactionController.js:258-302 | settling after the consume gives the settled balances and no challenge |
| TransactionProperties.ExecuteRecords | server/controllers/transactionController.js:285-321 | two records are appended with the amount and its written scale, owned as the source says, and the answer is the transfer-out record |
| TransactionProperties.ExecuteEchoesAmount | server/controllers/transactionController.js:236-321 | the answer's amount reads back as the request's, with its scale, and is the request's string unless that had leading zeros |
| TransactionProperties.ExecuteFailureMovesNoMoney | server/controllers/transactionController.js:241-315 | a refused transfer moves no money and writes no record |
| TransactionProperties.ExecuteConservesTotal | server/controllers/transactionController.js:269-302 | corrected guard: a transfer conserves the money in the store |
| TransactionProperties.ExecuteKeepsValid | server/controllers/transactionController.js:269-302 | every transfer outcome keeps ids and numbers unique and overdraws nothing |
| TransactionProperties.TransferKeepsValid | server/controllers/transactionController.js:278-281 | moving a covered amount between two accounts keeps the account invariants |
| TransactionProperties.TransferConservesTotal | server/controllers/transactionController.js:278-281 | moving an amount between two different accounts keeps the total |
| TransactionProperties.SetBalanceKeepsValid | server/controllers/transactionController.js:118-119 | setting one balance to a non-negative value keeps the invariants |
| TransactionProperties.InitiateThenExecute | server/controllers/transactionController.js:150-330 | an initiated transfer, executed in time with its 6-digit code, succeeds unless an external number resolves to the source |
| TransactionProperties.ExternalToOwnNumber | server/controllers/transactionController.js:191-193 | an external transfer to one's own number passes initiation and is refused only after the code is consumed |
| TransactionProperties.CaseVariantIds | server/controllers/transactionController.js:271-272 | two ids that differ only in letter case pass the guard as written and name one ObjectId |
| TransactionProperties.FindOneAgrees | server/controllers/transactionController.js:266-274 | filters that select the same accounts find the same one |
| TransactionProperties.AsWrittenGuardCreatesMoney | server/controllers/transactionController.js:271-281 | with the guard as written, a transfer between two spellings of one id succeeds and the store gains the amount |
| TransactionProperties.CommitInternalUnfold | server/controllers/transactionController.js:271-290 | an internal commit past the guard is the settlement between the two accounts found |
| TransactionProperties.CorrectedGuardRefusesCaseVariant | server/controllers/transactionController.js:271-272 | the ObjectId guard refuses that request and changes nothing |
| TransactionProperties.AsWrittenExecuteCreatesMoney | server/controllers/transactionController.js:222-330 | executeTransfer as written, with an accepted code and two spellings of one covering account's id, succeeds and the store gains the amount |
| TransactionProperties.CorrectedExecuteRefuses | server/controllers/transactionController.js:271-272 | with the corrected guard the same request is refused after the code is consumed, and no money moves |
| AccountController.ViewAccount | server/controllers/accountController.js:17 | every modelled field carries over and the balance is rendered |
| AccountController.CreateAccount | server/controllers/accountController.js:10-23 | the new store and the answer are those of createAccount's effect |
| AccountController.GetUserAccounts | server/controllers/accountController.js:28-60 | position by position the view of the caller's accounts as find returns them (multiplicity by Store.FindByOwnerCounts), so the count is their number |
| AccountController.GetAccountById | server/controllers/accountController.js:65-79 | 404 exactly when no account has the id; success only for an account the caller owns |
| AccountController.GetAccountTransactions | server/controllers/accountController.js:84-112 | for an owned account, as a multiset exactly the views of its records |
| AccountController.ViewAll | server/controllers/accountController.js:101-107 | the views of the results, one per result, in order |
| AccountController.DeleteAccount | server/controllers/accountController.js:119-157 | the new store and the answer are those of deleteAccount's effect |
| AccountController.NicknameToSave | server/controllers/accountController.js:172 | an empty request removes the nickname, anything else is stored trimmed |
| AccountController.RenameAccount | server/controllers/accountController.js:161-218 | the new store and the answer are those of renameAccount's effect |
| AccountProperties.AccountViewReadsBack | server/controllers/accountController.js:17 | the balance a view shows reads back as the stored balance |
| AccountProperties.CreateAccountOutcome | server/controllers/accountController.js:10-23 | 409 exactly when the id or number is taken, storing nothing; else one empty account of the caller's, numbered after the draw |
| AccountProperties.CreateKeepsValid | server/models/Account.js:18-34 | opening an account keeps ids and numbers unique and balances non-negative, and adds no money |
| AccountProperties.AccountByIdAccess | server/controllers/accountController.js:69-75 | with unique ids: success exactly when the caller owns the account, 403 exactly when someone else does |
| AccountProperties.AccountTransactionsAccess | server/controllers/accountController.js:91-107 | the same access rule for the account history |
| AccountProperties.AccountHistoriesAgree | server/controllers/accountController.js:84-112 | the account history and the per-account transaction query answer alike and hold the same views, each as often |
| AccountProperties.SortedAndStoredViews | server/controllers/transactionController.js:400-411 | sorting before formatting permutes the views and changes nothing else |
| AccountProperties.DeleteAccountOutcome | server/controllers/accountController.js:127-137 | deletion succeeds exactly for the caller's account with a zero balance; each refusal has its error and changes nothing |
| AccountProperties.DeleteSuccess | server/controllers/accountController.js:140-151 | deletion removes that one account and exactly its records, keeps users and the money held, and keeps the store valid |
| AccountProperties.RemoveKeepsValid | server/controllers/accountController.js:147 | removing an account keeps the invariants of the rest |
| AccountProperties.NicknameStored | server/controllers/accountController.js:172-185 | the stored nickname is none, or the trimmed request, which is empty or within 50 characters |
| AccountProperties.RenameAccountOutcome | server/controllers/accountController.js:172-198 | the id is checked, then the length, then the lookup; every refusal changes nothing |
| AccountProperties.RenameSuccess | server/controllers/accountController.js:189-212 | a rename changes only that account's nickname; no money moves and the store stays valid |
| AccountProperties.RenameIdempotent | server/controllers/accountController.js:161-218 | renaming twice to the same nickname is renaming once |
| UserController.OrEmpty | server/controllers/userController.js:35-36 | a missing string is shown as "" |
| UserController.ProfileOf | server/controllers/userController.js:31-39 | the profile shows the user's fields, with "" for a missing phone or address |
| UserController.GetUserProfile | server/controllers/userController.js:9-50 | 404 exactly for an unknown user, else the profile |
| UserController.UpdateUserProfile | server/controllers/userController.js:55-97 | the new store and the answer are those of updateUserProfile's effect |
| UserController.UpdateEffect | server/controllers/userController.js:60-89 | a refusal changes nothing; success writes only the caller, sets each supplied field to its trimmed value, keeps the rest, and says "updated" exactly when something changed |
| UserController.UpdateRefusals | server/controllers/userController.js:72-96 | an empty name is refused first; a changed number another user holds is "Phone number is already in use.", but a clash on "" gets the error handler's duplicate-key message |
| TransactionProperties.IdCastReply | server/middleware/errorHandler.js:16-19 | the error handler answers a CastError on `_id` with 404 and "Resource not found. Invalid ID format for path: _id", whatever its message |
| UserController.EmptyPhoneClashReply | server/middleware/errorHandler.js:22-27 | the error handler answers a duplicate "" phone number with 409 and "Duplicate value entered for 'phoneNumber'. Please use another value." |
| UserController.UpdateIdempotent | server/controllers/userController.js:55-97 | sending the same update again finds nothing to change |
| ErrorHandler.BaseStatus | server/middleware/errorHandler.js:7-9 | an error status is kept, anything else becomes 500 |
| ErrorHandler.BaseMessage | server/middleware/errorHandler.js:11 | the message is never empty and is the error's own when it has one |
| ErrorHandler.Classify | server/middleware/errorHandler.js:7-38 | the status sent is always an error status |
| ErrorHandler.HandleError | server/middleware/errorHandler.js:5-69 | delegates exactly when headers were sent; otherwise sends the classified status and message; stack and details only outside production |
| ErrorHandler.ClassifyPrecedence | server/middleware/errorHandler.js:16-38 | validation beats duplicate key, which beats an ObjectId cast, which beats the error's own status |
| ErrorHandler.FailureResponse | server/middleware/errorHandler.js:7-11 | an error a controller raises reaches the client with its message and status, or 500 for a non-error status |
| AuthController.ExpectedPassword | server/controllers/authController.js:20 | the configured password, or 'qwerty' when none is configured |
| AuthController.VerifyAdmin | server/controllers/authController.js:4-40 | 400 'Admin password is required' exactly without a password, 200 'Admin verification successful' exactly for the expected one, 401 'Invalid admin password' otherwise |
| AuthController.OnlyExpectedPasswordAccepted | server/controllers/authController.js:20-34 | exactly one password is accepted |

## Left out

- Floating point: `parseFloat` and Decimal128 arithmetic are modelled as exact integer cents. The request amounts are limited to two decimals, as the route validators require.
- `Promise.all` is modelled as sequential saves and creates. There are no races and no partial failure between the two writes of a transfer.
- `ObjectId.isValid` and the ObjectId cast accepting 12-character strings (read as twelve raw bytes) are not modelled: the model treats an id as valid exactly when it is 24 hexadecimal digits, so a 12-character id is refused with 400 where `isValid` is tested and with the cast's 404 where it is queried. The route check `isMongoId()` refuses 12-character ids, but accepts ids of 24 characters with a `0x` prefix, which the model follows to the 400 or the cast's 404.
- Document fields outside the model: the transaction's `_id`, and the `updatedAt` and `__v` fields of transactions and accounts, which the answers spread from the stored document, are not part of `TransactionView` or `AccountView`. The `success: true` flag of the JSON bodies is implied by an `Ok` result.
- Route validators (express-validator escaping, trimming and length checks), the authentication middleware, JWT, logging and the database connection are not modelled. The caller's id is a parameter.
- bcrypt, otp-generator, `Math.random`, the new document id and the clock are parameters. A bcrypt hash is represented by its salt and the code it hashes, so comparison succeeds exactly for that code.
- The 401 "not authorized" paths for a missing `req.user` are not modelled, because the authentication middleware always sets it.
- Non-string request values (a JavaScript TypeError on `.trim()`) are not modelled.
- The `'0.00'` / `'N/A'` fallbacks for a missing amount, balanceAfter or balance are not modelled. The schema requires those fields.
- The refetch failure at server/controllers/userController.js:83 is not modelled. It cannot happen without concurrent writes.
- createAccount's accountType values outside the enum are not modelled, because the route rejects them. `None` models the schema default.
- AccountController.GetAccountTransactions: claims no order for the list. The query sorts on `timestamp`, which the Transaction schema does not store, so the order is whatever the server returns. The model lists records in stored order.
- Decimal128 stores a coefficient and an exponent, so the leading zeros of a written amount are not kept: "007.5" is stored and answered as "7.5". The model keeps the amount in cents and its written scale, which is all Decimal128 keeps of an amount the route grammar accepts.
- The user name, email and password rules of the User schema, other than the required name and the unique sparse phone number, are not modelled. The profile update never writes them.

## Findings

| source | as written | input that shows it | evidently intended | confidence | as-written member | corrected member |
|---|---|---|---|---|---|---|
| server/controllers/transactionController.js:188, 271-272 | the internal self-transfer guard compares the two request strings | an internal transfer with `fromAccountId` "aaaaaaaaaaaaaaaaaaaaaaaa" and `toAccountId` "AAAAAAAAAAAAAAAAAAAAAAAA" | refuse any transfer whose two ids name the same ObjectId; as written, both ids find one account, its debit is overwritten by the later credit, and the store gains the amount | not executed | TransactionProperties.AsWrittenExecuteCreatesMoney | TransactionProperties.ExecuteConservesTotal |
