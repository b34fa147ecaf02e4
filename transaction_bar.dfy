/**
 * The transaction search bar: it owns a search widget, stores the last
 * search the widget reported, and renders the transaction list with it.
 * The widget's `onSearch` is wired to `HandleSearch`, so every user
 * action that makes the widget report a search also updates the bar.
 */
module TransactionBar {
  import opened CategorySearch
  import opened TransactionList

  /** The summary line shows "toate" for the empty query. */
  function QueryCaption(query: string): (r: string)
    ensures r != ""
    ensures query != "" ==> r == query
    ensures query == "" ==> r == "toate"
  {
    if query == "" then "toate" else query
  }

  class TransactionSearchBar {
    const transactions: seq<Transaction>
    const widget: SearchWidget
    var currentQuery: string
    var currentCategory: string

    /**
     * The bar shows the last reported search (the initial one before any),
     * and its category is always the widget's selection.
     */
    ghost predicate Valid()
      reads this, widget
    {
      && currentCategory == widget.selectedCategory
      && (widget.emitted == [] ==> currentQuery == "" && currentCategory == "all")
      && (widget.emitted != [] ==>
            widget.emitted[|widget.emitted| - 1] == SearchRequest(currentQuery, currentCategory))
    }

    constructor (transactions: seq<Transaction>)
      ensures Valid() && fresh(widget)
      ensures this.transactions == transactions
      ensures currentQuery == "" && currentCategory == "all"
      ensures Shown() == transactions
    {
      this.transactions := transactions;
      widget := new SearchWidget();
      currentQuery := "";
      currentCategory := "all";
      new;
      EmptyQueryAllIsIdentity(transactions, "all");
    }

    /** What the list receives: the unmodified prop filtered by the current query and category. */
    function Shown(): (r: seq<Transaction>)
      reads this
      ensures IsSubsequence(r, transactions)
      ensures forall i :: 0 <= i < |r| ==> Matches(r[i], currentQuery, currentCategory)
      ensures r == Filter(transactions, currentQuery, currentCategory)
    {
      FilterIsSubsequence(transactions, currentQuery, currentCategory);
      Filter(transactions, currentQuery, currentCategory)
    }

    /** The list component's output: the cards of what is shown, or the "nothing found" message. */
    function View(): (v: TransactionList.View)
      reads this
      ensures v == NoResults <==> Shown() == []
      ensures v.Cards? ==> v.items == Shown()
    {
      Render(transactions, currentQuery, currentCategory)
    }

    /**
     * `handleSearch`: replace both query and category. It is the widget's
     * `onSearch` callback and is reached only through `ChooseCategory` and
     * `Search`, which re-establish `Valid()`; called on its own it may break it.
     */
    method HandleSearch(term: string, category: string)
      modifies this
      ensures currentQuery == term && currentCategory == category
    {
      currentQuery := term;
      currentCategory := category;
    }

    /** Typing in the widget changes only the widget's term. */
    method Type(value: string)
      requires Valid()
      modifies widget
      ensures Valid()
      ensures widget.searchTerm == value && widget.emitted == old(widget.emitted)
      ensures currentQuery == old(currentQuery) && currentCategory == old(currentCategory)
    {
      widget.InputChange(value);
    }

    /** Choosing a category filters at once with the widget's current term. */
    method ChooseCategory(value: string)
      requires Valid()
      modifies this, widget
      ensures Valid()
      ensures currentCategory == value && currentQuery == widget.searchTerm == old(widget.searchTerm)
      ensures |widget.emitted| == |old(widget.emitted)| + 1
    {
      widget.CategoryChange(value);
      var request := widget.emitted[|widget.emitted| - 1];
      HandleSearch(request.term, request.category);
    }

    /** Clicking search (or pressing Enter) applies the widget's term and category. */
    method Search()
      requires Valid()
      modifies this, widget
      ensures Valid()
      ensures currentQuery == widget.searchTerm && currentCategory == widget.selectedCategory
      ensures widget.searchTerm == old(widget.searchTerm)
      ensures widget.selectedCategory == old(widget.selectedCategory)
    {
      widget.SearchClick();
      var request := widget.emitted[|widget.emitted| - 1];
      HandleSearch(request.term, request.category);
    }
  }

  /** A transaction is listed exactly when it is one of the bar's transactions and matches its search. */
  lemma ShownIff(bar: TransactionSearchBar, tx: Transaction)
    ensures tx in bar.Shown() <==> tx in bar.transactions && Matches(tx, bar.currentQuery, bar.currentCategory)
  {
    FilterMembership(bar.transactions, bar.currentQuery, bar.currentCategory, tx);
  }
}
