/** The two kinds of transaction the database stores (its `TransactionType` enum). */
module TxKind {
  datatype TxType = INCOME | EXPENSE {
    function Name(): string {
      match this
      case INCOME => "INCOME"
      case EXPENSE => "EXPENSE"
    }
  }
}
