/**
 * The transaction list view: keeps the transactions whose title contains
 * the query and whose category matches the selector, ignoring letter
 * case, in their original order, and shows a "nothing found" message
 * when none is left.
 */
module TransactionList {
  import opened Wrappers
  import opened Text
  import opened TxKind

  datatype Category = Category(id: string, name: Option<string>, color: Option<string>)

  datatype Transaction = Transaction(
    id: string,
    title: string,
    amount: real,
    date: string,
    note: Option<string>,
    category: Option<Category>,
    txType: TxType)

  /** `tx.category?.name?.toLowerCase() || ""`. */
  function CategoryKey(tx: Transaction): string {
    if tx.category.Some? && tx.category.value.name.Some? then Lower(tx.category.value.name.value) else ""
  }

  predicate MatchesQuery(tx: Transaction, query: string) {
    Contains(Lower(tx.title), Lower(query))
  }

  predicate MatchesCategory(tx: Transaction, selector: string) {
    Lower(selector) == "all" || CategoryKey(tx) == Lower(selector)
  }

  predicate Matches(tx: Transaction, query: string, selector: string) {
    MatchesQuery(tx, query) && MatchesCategory(tx, selector)
  }

  /** `transactions.filter(...)`: the matching transactions, in input order. */
  function Filter(txs: seq<Transaction>, query: string, selector: string): (r: seq<Transaction>)
    ensures |r| <= |txs|
    ensures forall i :: 0 <= i < |r| ==> Matches(r[i], query, selector)
  {
    if txs == [] then []
    else if Matches(txs[0], query, selector) then [txs[0]] + Filter(txs[1..], query, selector)
    else Filter(txs[1..], query, selector)
  }

  /** `sub` is `s` with some elements left out, the others in their order. */
  predicate IsSubsequence(sub: seq<Transaction>, s: seq<Transaction>)
    decreases |s|
  {
    if sub == [] then true
    else if s == [] then false
    else if sub[0] == s[0] then IsSubsequence(sub[1..], s[1..])
    else IsSubsequence(sub, s[1..])
  }

  /** The output keeps relative order: it is a subsequence of the input. */
  lemma {:induction false} FilterIsSubsequence(txs: seq<Transaction>, query: string, selector: string)
    ensures IsSubsequence(Filter(txs, query, selector), txs)
  {
    if txs != [] {
      FilterIsSubsequence(txs[1..], query, selector);
      var rest := Filter(txs[1..], query, selector);
      if Matches(txs[0], query, selector) {
        assert ([txs[0]] + rest)[1..] == rest;
      }
    }
  }

  /** A transaction is kept exactly when it is in the input and matches, and as often. */
  lemma {:induction false} FilterCount(txs: seq<Transaction>, query: string, selector: string, tx: Transaction)
    ensures multiset(Filter(txs, query, selector))[tx] ==
            (if Matches(tx, query, selector) then multiset(txs)[tx] else 0)
  {
    if txs != [] {
      FilterCount(txs[1..], query, selector, tx);
      assert txs == [txs[0]] + txs[1..];
    }
  }

  lemma FilterMembership(txs: seq<Transaction>, query: string, selector: string, tx: Transaction)
    ensures tx in Filter(txs, query, selector) <==> tx in txs && Matches(tx, query, selector)
  {
    FilterCount(txs, query, selector, tx);
  }

  /** Filtering distributes over concatenation: order is preserved piece by piece. */
  lemma {:induction false} FilterAppend(a: seq<Transaction>, b: seq<Transaction>, query: string, selector: string)
    ensures Filter(a + b, query, selector) == Filter(a, query, selector) + Filter(b, query, selector)
  {
    if a == [] {
      assert a + b == b;
    } else {
      assert (a + b)[1..] == a[1..] + b;
      FilterAppend(a[1..], b, query, selector);
    }
  }

  /** When every transaction matches, the list comes back unchanged. */
  lemma {:induction false} FilterAllMatch(txs: seq<Transaction>, query: string, selector: string)
    requires forall i :: 0 <= i < |txs| ==> Matches(txs[i], query, selector)
    ensures Filter(txs, query, selector) == txs
  {
    if txs != [] {
      FilterAllMatch(txs[1..], query, selector);
    }
  }

  /** Filtering twice is filtering once. */
  lemma FilterIdempotent(txs: seq<Transaction>, query: string, selector: string)
    ensures Filter(Filter(txs, query, selector), query, selector) == Filter(txs, query, selector)
  {
    FilterAllMatch(Filter(txs, query, selector), query, selector);
  }

  /** A selector spelling "all" in any letter case matches every category. */
  lemma AllSelectorMatchesEverything(tx: Transaction, selector: string)
    requires Lower(selector) == "all"
    ensures MatchesCategory(tx, selector)
  {
  }

  /** Otherwise only the lower-cased category name equal to the lower-cased selector matches. */
  lemma CategoryMatchIff(tx: Transaction, selector: string)
    requires Lower(selector) != "all"
    ensures MatchesCategory(tx, selector) <==>
      (if tx.category.Some? && tx.category.value.name.Some?
       then Lower(tx.category.value.name.value) == Lower(selector)
       else selector == "")
  {
  }

  /** The empty query with "all" shows the whole list, unchanged and in order. */
  lemma EmptyQueryAllIsIdentity(txs: seq<Transaction>, selector: string)
    requires Lower(selector) == "all"
    ensures Filter(txs, "", selector) == txs
  {
    forall i | 0 <= i < |txs|
      ensures Matches(txs[i], "", selector)
    {
      ContainsEmpty(Lower(txs[i].title));
    }
    FilterAllMatch(txs, "", selector);
  }

  /** The query is compared without regard to ASCII letter case. */
  lemma QueryCaseInsensitive(txs: seq<Transaction>, query: string, selector: string)
    ensures Filter(txs, Lower(query), selector) == Filter(txs, query, selector)
  {
    LowerIdempotent(query);
  }

  /** What the component renders. */
  datatype View = NoResults | Cards(items: seq<Transaction>)

  function Render(txs: seq<Transaction>, query: string, selector: string): (v: View)
    ensures v.Cards? ==> v.items == Filter(txs, query, selector) && v.items != []
  {
    var kept := Filter(txs, query, selector);
    if |kept| == 0 then NoResults else Cards(kept)
  }

  /** The "nothing found" message is shown exactly when no transaction matches. */
  lemma NoResultsIff(txs: seq<Transaction>, query: string, selector: string)
    ensures Render(txs, query, selector) == NoResults <==>
            forall i :: 0 <= i < |txs| ==> !Matches(txs[i], query, selector)
  {
    if Render(txs, query, selector) != NoResults {
      var tx := Filter(txs, query, selector)[0];
      FilterMembership(txs, query, selector, tx);
    } else {
      forall i | 0 <= i < |txs|
        ensures !Matches(txs[i], query, selector)
      {
        FilterMembership(txs, query, selector, txs[i]);
      }
    }
  }
}
