/**
 * The search widget: it holds the typed term and the selected category,
 * and reports searches to its `onSearch` callback. The callback calls are
 * recorded, oldest first, in `emitted`.
 */
module CategorySearch {
  import opened Wrappers

  datatype CategoryOption = CategoryOption(value: string, caption: string)

  /** `FINANCIAL_CATEGORIES`, in menu order. */
  const FinancialCategories: seq<CategoryOption> := [
    CategoryOption("all", "Toate Categoriile"),
    CategoryOption("food", "Mâncare"),
    CategoryOption("transport", "Transport"),
    CategoryOption("bills", "Facturi"),
    CategoryOption("entertainment", "Divertisment"),
    CategoryOption("salary", "Salariu"),
    CategoryOption("other", "Altele")
  ]

  /** `options.find(c => c.value === value)?.label`. */
  function FindLabel(options: seq<CategoryOption>, value: string): (r: Option<string>)
    ensures r.Some? ==> CategoryOption(value, r.value) in options
    ensures r.None? <==> forall i :: 0 <= i < |options| ==> options[i].value != value
  {
    if options == [] then None
    else if options[0].value == value then Some(options[0].caption)
    else FindLabel(options[1..], value)
  }

  lemma ValuesDistinct()
    ensures forall i, j :: 0 <= i < j < |FinancialCategories| ==>
              FinancialCategories[i].value != FinancialCategories[j].value
  {
  }

  /** With distinct values, `find` returns the label paired with the value, whichever it is. */
  lemma {:induction false} FindLabelUnique(options: seq<CategoryOption>, i: nat)
    requires i < |options|
    requires forall a, b :: 0 <= a < b < |options| ==> options[a].value != options[b].value
    ensures FindLabel(options, options[i].value) == Some(options[i].caption)
  {
    if i > 0 {
      assert options[0].value != options[i].value;
      assert options[1..][i - 1] == options[i];
      FindLabelUnique(options[1..], i - 1);
    }
  }

  /** Every menu value shows its own label; "all" shows "Toate Categoriile". */
  lemma MenuLabels(i: nat)
    requires i < |FinancialCategories|
    ensures FindLabel(FinancialCategories, FinancialCategories[i].value) == Some(FinancialCategories[i].caption)
    ensures FindLabel(FinancialCategories, "all") == Some("Toate Categoriile")
  {
    ValuesDistinct();
    FindLabelUnique(FinancialCategories, i);
  }

  /** One call of `onSearch(term, category)`. */
  datatype SearchRequest = SearchRequest(term: string, category: string)

  class SearchWidget {
    var searchTerm: string
    var selectedCategory: string
    var emitted: seq<SearchRequest>

    constructor ()
      ensures searchTerm == "" && selectedCategory == "all" && emitted == []
    {
      searchTerm := "";
      selectedCategory := "all";
      emitted := [];
    }

    /** The label on the dropdown button. */
    function SelectedLabel(): (r: Option<string>)
      reads this
      ensures r.Some? ==> CategoryOption(selectedCategory, r.value) in FinancialCategories
      ensures r.None? <==> forall i :: 0 <= i < |FinancialCategories| ==> FinancialCategories[i].value != selectedCategory
    {
      FindLabel(FinancialCategories, selectedCategory)
    }

    /** `handleInputChange`: the term follows the input; nothing is reported. */
    method InputChange(value: string)
      modifies this
      ensures searchTerm == value
      ensures selectedCategory == old(selectedCategory) && emitted == old(emitted)
    {
      searchTerm := value;
    }

    /** `handleCategoryChange`: select the category and report it with the current term. */
    method CategoryChange(value: string)
      modifies this
      ensures selectedCategory == value && searchTerm == old(searchTerm)
      ensures emitted == old(emitted) + [SearchRequest(old(searchTerm), value)]
    {
      selectedCategory := value;
      emitted := emitted + [SearchRequest(searchTerm, value)];
    }

    /** `handleSearchClick`: report the current term and category; the state stays as it is. */
    method SearchClick()
      modifies this
      ensures searchTerm == old(searchTerm) && selectedCategory == old(selectedCategory)
      ensures emitted == old(emitted) + [SearchRequest(searchTerm, selectedCategory)]
    {
      emitted := emitted + [SearchRequest(searchTerm, selectedCategory)];
    }

    /** The input's `onKeyDown`: Enter searches, any other key does nothing. */
    method KeyDown(key: string)
      modifies this
      ensures searchTerm == old(searchTerm) && selectedCategory == old(selectedCategory)
      ensures emitted == if key == "Enter" then old(emitted) + [SearchRequest(searchTerm, selectedCategory)]
                         else old(emitted)
    {
      if key == "Enter" {
        SearchClick();
      }
    }
  }
}
