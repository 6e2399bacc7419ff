/** The account document: its fields, their defaults and the generator of
    account numbers. */
module AccountModel {
  import opened Common
  import opened Money

  /** ObjectIds, as the strings they print as. */
  type AccountId = string
  type UserId = string

  datatype AccountType = Checking | Savings

  /** The schema's default for accountType. */
  const DefaultAccountType: AccountType := Checking

  /** An account number is drawn from [0, 10^10). */
  const AccountNumberRange: nat := 10000000000
  const AccountNumberLength: nat := 10

  /** A stored account. The balance is in cents; the nickname is absent (None)
      or a string the schema trims. */
  datatype Account = Account(
    id: AccountId,
    userId: UserId,
    accountNumber: string,
    accountType: AccountType,
    balance: int,
    accountNickname: Option<string>)

  /** generateAccountNumber, given the draw Math.floor(Math.random() * 10^10):
      the draw in decimal, left-padded with '0' to ten characters. */
  function GenerateAccountNumber(draw: nat): (r: string)
    requires draw < AccountNumberRange
    ensures |r| == AccountNumberLength && AllDigits(r)
    ensures DigitsValue(r) == draw
  {
    assert Pow10(10) == AccountNumberRange;
    DecimalLength(draw, 10);
    DecimalRoundTrip(draw);
    PadZerosValue(NatToDecimal(draw), AccountNumberLength);
    PadStart(NatToDecimal(draw), AccountNumberLength, '0')
  }

  /** Different draws give different account numbers. */
  lemma GeneratedNumbersDistinct(x: nat, y: nat)
    requires x < AccountNumberRange && y < AccountNumberRange && x != y
    ensures GenerateAccountNumber(x) != GenerateAccountNumber(y)
  {
    var a, b := GenerateAccountNumber(x), GenerateAccountNumber(y);
    assert DigitsValue(a) != DigitsValue(b);
  }

  /** Account.create({ userId, accountType }) with the schema's defaults
      filled in: the type defaults to checking, the balance to 0.00, and
      there is no nickname. */
  function NewAccount(id: AccountId, userId: UserId, accountNumber: string, requested: Option<AccountType>): (a: Account)
    ensures a.id == id && a.userId == userId && a.accountNumber == accountNumber
    ensures a.accountType == (if requested.Some? then requested.value else Checking)
    ensures FormatCents(a.balance) == "0.00"
    ensures a.accountNickname.None?
  {
    FormatIsZeroString(0);
    var accountType := if requested.Some? then requested.value else DefaultAccountType;
    Account(id, userId, accountNumber, accountType, 0, None)
  }
}

/** The transaction record: the kinds of balance change and the fields stored
    with each. */
module TransactionModel {
  import opened Common
  import opened AccountModel

  datatype TxnType = Deposit | Withdrawal | TransferOut | TransferIn | Fee | Interest

  /** The enum value the schema stores for each kind. */
  function TypeName(t: TxnType): string {
    match t
    case Deposit => "deposit"
    case Withdrawal => "withdrawal"
    case TransferOut => "transfer-out"
    case TransferIn => "transfer-in"
    case Fee => "fee"
    case Interest => "interest"
  }

  /** A stored record. amount and balanceAfter are in cents; amountScale is
      the number of fraction digits the amount was written with in the
      request (its Decimal128 keeps them); relatedAccountId
      holds the counterparty's account number; createdAt is the insertion
      time in milliseconds. */
  datatype Transaction = Transaction(
    accountId: AccountId,
    userId: UserId,
    txnType: TxnType,
    withdrawalMethod: Option<string>,
    amount: int,
    amountScale: nat,
    description: string,
    relatedAccountId: Option<string>,
    balanceAfter: int,
    transactionDate: Option<int>,
    createdAt: int)
}

/** The user document, as far as the core uses it: the profile fields and
    the one-time-passcode challenge. */
module UserModel {
  import opened Common

  /** A salted bcrypt hash of a passcode. bcrypt.compare succeeds exactly when
      the candidate is the code that was hashed, so the hash is represented
      by its salt and that code. */
  datatype OtpHash = OtpHash(salt: nat, code: string)

  /** bcrypt.hash(code, salt) */
  function HashOtp(code: string, salt: nat): OtpHash {
    OtpHash(salt, code)
  }

  /** bcrypt.compare(candidate, hash) */
  predicate OtpMatches(candidate: string, hash: OtpHash) {
    candidate == hash.code
  }

  /** Times are milliseconds since the epoch. phoneNumber and address are
      optional; otpCode and otpCodeExpires are the stored challenge. */
  datatype User = User(
    name: string,
    email: string,
    phoneNumber: Option<string>,
    address: Option<string>,
    otpCode: Option<OtpHash>,
    otpCodeExpires: Option<int>,
    createdAt: int,
    updatedAt: int)
}
