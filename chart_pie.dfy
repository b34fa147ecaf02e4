/**
 * The expenses pie chart: the total of the slices it is given, the hovered
 * slice (set on mouse enter, cleared on mouse leave), the centre label and
 * the colour of each slice, both looked up in the fixed budget-category
 * configuration.
 */
module ChartPie {
  import opened Wrappers
  import opened Text

  datatype Slice = Slice(name: string, value: real)

  /** `BUDGET_CATEGORIES`. */
  const BudgetCategories: seq<string> := ["FOOD", "TRANSPORT", "BILLS", "ENTERTAINMENT", "SALARY", "OTHER"]

  datatype Style = Style(caption: string, color: string)

  /** `chartConfig`: a label and a colour variable per budget category. */
  const PieConfig: map<string, Style> := map[
    "FOOD" := Style("Mâncare", "var(--chart-1)"),
    "TRANSPORT" := Style("Transport", "var(--chart-2)"),
    "BILLS" := Style("Facturi", "var(--chart-3)"),
    "ENTERTAINMENT" := Style("Divertisment", "var(--chart-4)"),
    "SALARY" := Style("Salariu", "var(--chart-5)"),
    "OTHER" := Style("Altele", "var(--chart-6)")
  ]

  /** The configured keys are exactly the budget categories, all in upper case. */
  lemma ConfigKeysAreBudgetCategories()
    ensures PieConfig.Keys == set c | c in BudgetCategories
    ensures forall k :: k in PieConfig ==> Upper(k) == k
  {
    assert Upper("FOOD") == "FOOD";
    assert Upper("TRANSPORT") == "TRANSPORT";
    assert Upper("BILLS") == "BILLS";
    assert Upper("ENTERTAINMENT") == "ENTERTAINMENT";
    assert Upper("SALARY") == "SALARY";
    assert Upper("OTHER") == "OTHER";
  }

  /** `data.reduce((sum, item) => sum + item.value, 0)`: folds from the left. */
  function Total(data: seq<Slice>): (t: real)
    ensures data == [] ==> t == 0.0
  {
    if data == [] then 0.0 else Total(data[..|data| - 1]) + data[|data| - 1].value
  }

  /** The total of a concatenation is the sum of the totals. */
  lemma {:induction false} TotalAppend(a: seq<Slice>, b: seq<Slice>)
    ensures Total(a + b) == Total(a) + Total(b)
    decreases |b|
  {
    if b == [] {
      assert a + b == a;
    } else {
      assert (a + b)[..|a + b| - 1] == a + b[..|b| - 1];
      TotalAppend(a, b[..|b| - 1]);
    }
  }

  /** Every value counts once: the total is the first value plus the total of the rest. */
  lemma TotalFirst(data: seq<Slice>)
    requires data != []
    ensures Total(data) == data[0].value + Total(data[1..])
  {
    TotalAppend([data[0]], data[1..]);
    assert [data[0]] + data[1..] == data;
    assert [data[0]][..0] == [];
  }

  /** Non-negative values give a non-negative total that bounds every value. */
  lemma {:induction false} TotalBounds(data: seq<Slice>, i: nat)
    requires forall j :: 0 <= j < |data| ==> data[j].value >= 0.0
    requires i < |data|
    ensures Total(data) >= data[i].value >= 0.0
  {
    TotalFirst(data);
    if i > 0 {
      TotalBounds(data[1..], i - 1);
    } else if |data| > 1 {
      TotalBounds(data[1..], 0);
    }
  }

  /** `hoverIndex !== null ? data[hoverIndex] : null`: out-of-range indices read `undefined`. */
  function ActiveSlice(data: seq<Slice>, hover: Option<int>): (r: Option<Slice>)
    ensures r.Some? <==> hover.Some? && 0 <= hover.value < |data|
    ensures r.Some? ==> r.value == data[hover.value]
  {
    if hover.Some? && 0 <= hover.value < |data| then Some(data[hover.value]) else None
  }

  /** `chartConfig[name]?.label || name`. */
  function SliceLabel(name: string): (r: string)
    ensures name in PieConfig ==> r == PieConfig[name].caption
    ensures name !in PieConfig ==> r == name
  {
    if name in PieConfig && PieConfig[name].caption != "" then PieConfig[name].caption else name
  }

  /** `activeLabel`: "" while nothing is hovered. */
  function ActiveLabel(data: seq<Slice>, hover: Option<int>): (r: string)
    ensures hover.None? ==> r == ""
    ensures ActiveSlice(data, hover).Some? ==> r == SliceLabel(ActiveSlice(data, hover).value.name)
  {
    match ActiveSlice(data, hover)
    case None => ""
    case Some(s) => SliceLabel(s.name)
  }

  const DefaultFill := "var(--color-foreground)"

  /** A cell's `fill`: the configured colour for its name, else the foreground colour. */
  function CellFill(name: string): (r: string)
    ensures name in PieConfig ==> r == PieConfig[name].color
    ensures name !in PieConfig ==> r == DefaultFill
  {
    if name in PieConfig && PieConfig[name].color != "" then PieConfig[name].color else DefaultFill
  }

  /** The centre of the chart: the hovered slice's label and value, or the total. */
  datatype Centre = HoveredSlice(caption: string, value: real) | TotalSpent(total: real)

  function CentreOf(data: seq<Slice>, hover: Option<int>): (r: Centre)
    ensures r.TotalSpent? <==> ActiveSlice(data, hover).None?
    ensures r.TotalSpent? ==> r.total == Total(data)
    ensures r.HoveredSlice? ==> r.value == data[hover.value].value && r.caption == ActiveLabel(data, hover)
  {
    match ActiveSlice(data, hover)
    case None => TotalSpent(Total(data))
    case Some(s) => HoveredSlice(ActiveLabel(data, hover), s.value)
  }

  class PieChart {
    const data: seq<Slice>
    var hoverIndex: Option<int>

    constructor (data: seq<Slice>)
      ensures this.data == data && hoverIndex == None
      ensures Centre() == TotalSpent(Total(data))
    {
      this.data := data;
      hoverIndex := None;
    }

    function Centre(): Centre
      reads this
    {
      CentreOf(data, hoverIndex)
    }

    /** A segment is drawn enlarged exactly when it is the hovered one. */
    function IsHovered(index: int): (r: bool)
      reads this
      ensures r <==> hoverIndex == Some(index)
    {
      hoverIndex.Some? && hoverIndex.value == index
    }

    method MouseEnter(index: int)
      modifies this
      ensures hoverIndex == Some(index)
    {
      hoverIndex := Some(index);
    }

    method MouseLeave()
      modifies this
      ensures hoverIndex == None && Centre() == TotalSpent(Total(data))
    {
      hoverIndex := None;
    }
  }
}
