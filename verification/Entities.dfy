// The rows the wallet service persists (internal/entity/models.go).
module Entities {
  import opened Int64

  // A UUID: only its identity and its order matter. The lexicographic order of
  // UUID strings and the order of the uuid column are the numeric order.
  type Id = nat

  // Nanoseconds of the database clock.
  type Time = int

  datatype Option<+T> = None | Some(value: T)

  datatype WalletStatus = Active | OtherStatus(name: string)

  datatype Wallet = Wallet(id: Id, userId: Id, balance: int64, status: WalletStatus)

  // The type columns are text, so a reader can meet values the engine never writes.
  datatype TransactionType = TopUp | Transfer | OtherType(name: string)

  datatype Transaction = Transaction(
    id: Id, ref: Id, kind: TransactionType,
    source: Option<Id>, destination: Option<Id>,
    amount: int64, key: string, initiatedBy: Id, description: Option<string>)

  datatype EntryType = Debit | Credit | OtherEntry(name: string)

  datatype LedgerEntry = LedgerEntry(
    id: Id, transactionId: Id, walletId: Id, kind: EntryType,
    amount: int64, balanceBefore: int64, balanceAfter: int64, createdAt: Time)

  // The signed effect of an entry on the balance of its wallet.
  function Signed(e: LedgerEntry): int {
    var amount: int := e.amount;
    match e.kind
    case Credit => amount
    case Debit => -amount
    case OtherEntry(_) => 0
  }
}
