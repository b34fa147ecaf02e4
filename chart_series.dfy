/**
 * The chart read endpoint (GET): every stored transaction, in the order
 * storage returns it (requested ascending by date), becomes one chart
 * point carrying its calendar day, its signed amount and its category.
 * Storage is a parameter: the rows it returned, or the failure it raised.
 */
module ChartSeries {
  import opened Wrappers
  import opened Text
  import opened TxKind

  /** A stored row as this endpoint reads it; `date` is its ISO-8601 timestamp. */
  datatype Row<C> = Row(date: string, amount: real, txType: TxType, category: C)

  datatype Point<C> = Point(date: string, amount: real, category: C)

  /** The calendar day of an ISO timestamp: `iso.split("T")[0]`. */
  function Day(iso: string): (d: string)
    ensures IsPrefix(d, iso) && 'T' !in d
    ensures |d| < |iso| ==> iso[|d|] == 'T'
  {
    BeforeFirst(iso, 'T')
  }

  /** `+amount` for income, `-amount` for every other type. */
  function Signed(r: Row): real {
    if r.txType == INCOME then r.amount else -r.amount
  }

  function PointOf<C>(r: Row<C>): Point<C> {
    Point(Day(r.date), Signed(r), r.category)
  }

  /** `transactions.map(...)` into chart points. */
  function Points<C>(rows: seq<Row<C>>): (ps: seq<Point<C>>)
    ensures |ps| == |rows|
  {
    if rows == [] then [] else [PointOf(rows[0])] + Points(rows[1..])
  }

  /** Point `i` is made from row `i` alone: one point per row, same order, nothing merged. */
  lemma {:induction false} PointsAt<C>(rows: seq<Row<C>>, i: nat)
    requires i < |rows|
    ensures Points(rows)[i].date == Day(rows[i].date)
    ensures Points(rows)[i].amount == (if rows[i].txType == INCOME then rows[i].amount else -rows[i].amount)
    ensures Points(rows)[i].category == rows[i].category
  {
    if i > 0 {
      PointsAt(rows[1..], i - 1);
    }
  }

  /** Mapping a concatenation maps each part: the output follows the storage order. */
  lemma {:induction false} PointsAppend<C>(a: seq<Row<C>>, b: seq<Row<C>>)
    ensures Points(a + b) == Points(a) + Points(b)
  {
    if a != [] {
      assert (a + b)[1..] == a[1..] + b;
      PointsAppend(a[1..], b);
    } else {
      assert a + b == b;
    }
  }

  /** With non-negative amounts the sign of a point tells its type. */
  lemma SignTellsType<C>(r: Row<C>)
    requires r.amount > 0.0
    ensures PointOf(r).amount > 0.0 <==> r.txType == INCOME
    ensures PointOf(r).amount == r.amount || PointOf(r).amount == -r.amount
  {
  }

  /**
   * Two rows on the same day give two points with the same date key, each
   * keeping its own signed amount: nothing is summed per day.
   */
  lemma SameDayNotMerged<C>(income: Row<C>, expense: Row<C>)
    requires Day(income.date) == Day(expense.date)
    requires income.txType == INCOME && expense.txType == EXPENSE
    ensures var ps := Points([income, expense]);
      |ps| == 2 && ps[0].date == ps[1].date
      && ps[0].amount == income.amount && ps[1].amount == -expense.amount
  {
    assert [income, expense][1..] == [expense];
  }

  /** A timestamp whose eleventh character is its first "T" has its first ten characters as the day. */
  lemma DayOfIso(iso: string)
    requires |iso| > 10 && iso[10] == 'T' && 'T' !in iso[..10]
    ensures Day(iso) == iso[..10]
  {
  }

  datatype Reply<C> = Chart(points: seq<Point<C>>) | Error(message: string) {
    function Status(): int {
      if Chart? then 200 else 500
    }
  }

  /** GET: the points of the storage read, or a 500 with a fixed body on any failure. */
  function Get<C>(read: Result<seq<Row<C>>, string>): (r: Reply<C>)
    ensures read.Failure? ==> r == Error("Failed to fetch transactions") && r.Status() == 500
    ensures read.Success? ==> r == Chart(Points(read.value)) && r.Status() == 200
    ensures read.Success? ==> |r.points| == |read.value|
  {
    match read
    case Success(rows) => Chart(Points(rows))
    case Failure(_) => Error("Failed to fetch transactions")
  }
}
