/** The bank account catalogue: domain `account`, prefix 10. */
module AccountErrors {
  import opened Text
  import opened Errors

  datatype AccountErrorCode = InsufficientFunds | InvalidAmount | AccountClosed | NegativeDeposit

  /** The catalogue row of each variant: (index, status, tag). */
  function Entry(c: AccountErrorCode): (r: ErrorCode)
    ensures r.domain == "account" && r.prefix == 10
  {
    match c
    case InsufficientFunds => ErrorCode("account", 10, 1, 400, "INSUFFICIENT_FUNDS")
    case InvalidAmount => ErrorCode("account", 10, 2, 400, "INVALID_AMOUNT")
    case AccountClosed => ErrorCode("account", 10, 3, 410, "ACCOUNT_CLOSED")
    case NegativeDeposit => ErrorCode("account", 10, 4, 400, "NEGATIVE_DEPOSIT")
  }

  /** `ErrorCode::error(message)`. */
  function Raise(c: AccountErrorCode, message: string): (r: CqrsError)
    ensures r.domain == "account" && r.message == message
    ensures r.internalCode == InternalCode(Entry(c)) && r.status == Entry(c).status
    ensures r.code == "ACCOUNT_" + Entry(c).tag
  {
    var u := ToUpper("account");
    assert u == "ACCOUNT";
    FromCode(Entry(c), message)
  }

  /** `From<ErrorCode> for CqrsError`: the display tag becomes the message. */
  function ToCqrsError(c: AccountErrorCode): (r: CqrsError)
    ensures r.message == Entry(c).tag && r.code == "ACCOUNT_" + r.message
  {
    Raise(c, Entry(c).tag)
  }

  /** The internal codes 10001..10004; AccountClosed is 410, the others 400. */
  lemma Codes()
    ensures InternalCode(Entry(InsufficientFunds)) == 10001
    ensures InternalCode(Entry(InvalidAmount)) == 10002
    ensures InternalCode(Entry(AccountClosed)) == 10003
    ensures InternalCode(Entry(NegativeDeposit)) == 10004
    ensures forall c :: Entry(c).status == (if c == AccountClosed then 410 else 400)
    ensures ToCqrsError(InsufficientFunds).code == "ACCOUNT_INSUFFICIENT_FUNDS"
  {
  }

  /** Every row fits the `u16` internal code, and rows are told apart by it. */
  lemma TableWellFormed(a: AccountErrorCode, b: AccountErrorCode)
    ensures InternalCode(Entry(a)) < 0x1_0000
    ensures InternalCode(Entry(a)) == InternalCode(Entry(b)) ==> a == b
  {
    InternalCodeFitsU16(Entry(a));
  }
}
