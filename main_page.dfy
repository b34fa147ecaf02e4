/**
 * The main page's in-memory transaction list: it starts empty and the add
 * dialog's submissions are appended to it. The page has no handler that
 * removes or changes an element.
 */
module MainPage {

  class TransactionPage<T> {
    var transactions: seq<T>

    constructor ()
      ensures transactions == []
    {
      transactions := [];
    }

    /** `handleAddTransaction`: append the submitted record at the end. */
    method AddTransaction(data: T)
      modifies this
      ensures transactions == old(transactions) + [data]
      ensures |transactions| == |old(transactions)| + 1
      ensures transactions[..|old(transactions)|] == old(transactions)
    {
      transactions := transactions + [data];
    }
  }

  /** Two adds keep the records in submission order after what was there. */
  method AddTwice<T>(first: T, second: T) returns (recorded: seq<T>)
    ensures recorded == [first, second]
  {
    var page := new TransactionPage<T>();
    page.AddTransaction(first);
    page.AddTransaction(second);
    recorded := page.transactions;
  }
}
