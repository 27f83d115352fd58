/** The dashboard screen: chart rows reshaped for the pie and line charts, an invoice
    table paged by `currentPage`, and the loading/error flags of the fetch that fills
    them. Only the next/previous handlers keep the page within `totalPages`; the table
    control and a refetch can leave it beyond. */
module Dashboard {
  import opened JsText

  // ---------------------------------------------------------------------------
  // Chart reshaping
  // ---------------------------------------------------------------------------

  /** A row of the pie-chart response. */
  datatype PieRow = PieRow(name: string, total: int)

  /** A slice handed to the pie chart (its random colour is not modelled). */
  datatype PieSlice = PieSlice(name: string, population: int, legendFontColor: string, legendFontSize: int)

  const LegendFontColor: string := "#7F7F7F"
  const LegendFontSize: int := 15

  /** `pieData.map(item => ({ name: item.name, population: item.total, ... }))`. */
  function PieSlices(rows: seq<PieRow>): (r: seq<PieSlice>)
    ensures |r| == |rows|
    ensures forall i :: 0 <= i < |rows| ==>
      r[i].name == rows[i].name && r[i].population == rows[i].total
      && r[i].legendFontColor == LegendFontColor && r[i].legendFontSize == LegendFontSize
  {
    if rows == [] then []
    else [PieSlice(rows[0].name, rows[0].total, LegendFontColor, LegendFontSize)] + PieSlices(rows[1..])
  }

  /** One category's entry in a line-chart row. */
  datatype CategorySales = CategorySales(sales: int)

  /** A row of the line-chart response: a location and its categories. */
  datatype LineRow = LineRow(location: string, data: seq<CategorySales>)

  /** `{ labels, datasets: [{ data }] }` handed to the line chart. */
  datatype LineChart = LineChart(labels: seq<string>, data: seq<int>)

  /** `data.reduce((sum, category) => sum + category.sales, acc)`: a left fold. */
  function ReduceSales(acc: int, data: seq<CategorySales>): (r: int)
    ensures data == [] ==> r == acc
    ensures (forall i :: 0 <= i < |data| ==> data[i].sales >= 0) ==> r >= acc
    ensures (forall i :: 0 <= i < |data| ==> data[i].sales == 0) ==> r == acc
    decreases |data|
  {
    if data == [] then acc else ReduceSales(acc + data[0].sales, data[1..])
  }

  /** The sum of the `sales` fields, as a reference definition. */
  function TotalSales(data: seq<CategorySales>): int {
    if data == [] then 0 else TotalSales(data[..|data| - 1]) + data[|data| - 1].sales
  }

  lemma {:induction false} TotalSalesAppend(a: seq<CategorySales>, b: seq<CategorySales>)
    ensures TotalSales(a + b) == TotalSales(a) + TotalSales(b)
    decreases |b|
  {
    if b == [] {
      assert a + b == a;
    } else {
      TotalSalesAppend(a, b[..|b| - 1]);
      assert (a + b)[..|a + b| - 1] == a + b[..|b| - 1];
    }
  }

  /** The fold starting from `acc` adds the total of the category sales to `acc`. */
  lemma {:induction false} ReduceIsTotal(acc: int, data: seq<CategorySales>)
    ensures ReduceSales(acc, data) == acc + TotalSales(data)
    decreases |data|
  {
    if data != [] {
      ReduceIsTotal(acc + data[0].sales, data[1..]);
      TotalSalesAppend([data[0]], data[1..]);
      assert [data[0]] + data[1..] == data;
      assert TotalSales([data[0]]) == data[0].sales by {
        assert [data[0]][..0] == [];
      }
    }
  }

  /** With no negative sales a location's total is at least each category's sales. */
  lemma {:induction false} TotalSalesBoundsEach(data: seq<CategorySales>, k: nat)
    requires forall i :: 0 <= i < |data| ==> data[i].sales >= 0
    requires k < |data|
    ensures TotalSales(data) >= data[k].sales
    decreases |data|
  {
    var init := data[..|data| - 1];
    if k < |data| - 1 {
      TotalSalesBoundsEach(init, k);
    }
    TotalSalesNonNegative(init);
  }

  lemma {:induction false} TotalSalesNonNegative(data: seq<CategorySales>)
    requires forall i :: 0 <= i < |data| ==> data[i].sales >= 0
    ensures TotalSales(data) >= 0
    decreases |data|
  {
    if data != [] {
      TotalSalesNonNegative(data[..|data| - 1]);
    }
  }

  /** `lineData.map(item => item.location)`. */
  function LineLabels(rows: seq<LineRow>): (r: seq<string>)
    ensures |r| == |rows|
    ensures forall i :: 0 <= i < |rows| ==> r[i] == rows[i].location
  {
    if rows == [] then [] else [rows[0].location] + LineLabels(rows[1..])
  }

  /** `lineData.map(item => item.data.reduce((sum, category) => sum + category.sales, 0))`. */
  function LineTotals(rows: seq<LineRow>): (r: seq<int>)
    ensures |r| == |rows|
    ensures forall i :: 0 <= i < |rows| ==> r[i] == TotalSales(rows[i].data)
  {
    if rows == [] then []
    else
      ReduceIsTotal(0, rows[0].data);
      [ReduceSales(0, rows[0].data)] + LineTotals(rows[1..])
  }

  /** The line chart: one point per location, in the order of the labels, valued at the
      sum of that location's category sales. */
  function LineChartOf(rows: seq<LineRow>): (r: LineChart)
    ensures |r.labels| == |rows| && |r.data| == |rows|
    ensures forall i :: 0 <= i < |rows| ==> r.labels[i] == rows[i].location && r.data[i] == TotalSales(rows[i].data)
  {
    LineChart(LineLabels(rows), LineTotals(rows))
  }

  // ---------------------------------------------------------------------------
  // Paging
  // ---------------------------------------------------------------------------

  /** `handleNextPage`: one page on iff there is a further page, else unchanged. */
  function NextPage(current: int, totalPages: int): (r: int)
    ensures r == current + 1 <==> current < totalPages
    ensures r == current <==> current >= totalPages
    ensures 1 <= current <= totalPages ==> 1 <= r <= totalPages
  {
    if current < totalPages then current + 1 else current
  }

  /** `handlePrevPage`: one page back iff past the first page, else unchanged. */
  function PrevPage(current: int): (r: int)
    ensures r == current - 1 <==> current > 1
    ensures r == current <==> current <= 1
    ensures current >= 1 ==> 1 <= r <= current
  {
    if current > 1 then current - 1 else current
  }

  datatype Move = Next | Prev

  /** The page reached from `current` after calling the handlers in `moves`: each call
      moves at most one page. */
  function Navigate(moves: seq<Move>, current: int, totalPages: int): (r: int)
    ensures moves == [] ==> r == current
    ensures current - |moves| <= r <= current + |moves|
    ensures (forall k :: 0 <= k < |moves| ==> moves[k] == Next) && current >= totalPages ==> r == current
  {
    if moves == [] then current
    else
      var p := if moves[0] == Next then NextPage(current, totalPages) else PrevPage(current);
      Navigate(moves[1..], p, totalPages)
  }

  /** Starting within the pages, any sequence of handler calls stays within the pages.
      The rendered screen binds neither handler to a control, so this is what the
      handlers would guarantee, not what the screen does. */
  lemma {:induction false} NavigationStaysInRange(moves: seq<Move>, current: int, totalPages: int)
    requires 1 <= current <= totalPages
    ensures 1 <= Navigate(moves, current, totalPages) <= totalPages
  {
    if moves != [] {
      var p := if moves[0] == Next then NextPage(current, totalPages) else PrevPage(current);
      NavigationStaysInRange(moves[1..], p, totalPages);
    }
  }

  /** A permitted Next followed by Prev returns to the page, and vice versa. */
  lemma NextPrevRoundTrip(current: int, totalPages: int)
    ensures 1 <= current < totalPages ==> PrevPage(NextPage(current, totalPages)) == current
    ensures 1 < current <= totalPages ==> NextPage(PrevPage(current), totalPages) == current
  {
  }

  /** The table control counts pages from 0, the screen from 1. */
  function ControlPage(currentPage: int): (r: int)
    ensures currentPage >= 1 <==> r >= 0
    ensures r < currentPage
  {
    currentPage - 1
  }

  /** `onPageChange={(page) => setCurrentPage(page + 1)}`. */
  function PageFromControl(page: int): (r: int)
    ensures page >= 0 <==> r >= 1
    ensures r > page
  {
    page + 1
  }

  lemma ControlPageRoundTrip(page: int, currentPage: int)
    ensures ControlPage(PageFromControl(page)) == page
    ensures PageFromControl(ControlPage(currentPage)) == currentPage
  {
  }

  // ---------------------------------------------------------------------------
  // Screen state
  // ---------------------------------------------------------------------------

  datatype Invoice = Invoice(name: string, email: string, cost: string, date: string)

  /** The invoice-table response: one page of invoices and the page count. */
  datatype InvoicePage = InvoicePage(invoices: seq<Invoice>, totalPages: int)

  /** How the three requests awaited together settled. */
  datatype FetchOutcome =
    | Fetched(pie: seq<PieRow>, line: seq<LineRow>, page: InvoicePage)
    | Failed(message: string)

  /** What the screen renders. */
  datatype View = Spinner | ErrorText(message: string) | Charts

  class Screen {
    var pieChartData: seq<PieSlice>
    var lineChartData: LineChart
    var invoicesTableData: seq<Invoice>
    var loading: bool
    var error: string
    var currentPage: int
    var totalPages: int
    /** The pages whose invoices were requested, in order (the effect re-runs whenever `currentPage` changes). */
    var requestedPages: seq<int>

    constructor ()
      ensures loading && error == "" && currentPage == 1 && totalPages == 1
      ensures pieChartData == [] && lineChartData == LineChart([], []) && invoicesTableData == []
      ensures requestedPages == [1]
    {
      pieChartData, lineChartData, invoicesTableData := [], LineChart([], []), [];
      loading, error := true, "";
      currentPage, totalPages := 1, 1;
      requestedPages := [1];
    }

    /** A change of `currentPage` re-runs the fetch for the new page. */
    method SetCurrentPage(page: int)
      modifies this`currentPage, this`requestedPages
      ensures currentPage == page
      ensures requestedPages == if page == old(currentPage) then old(requestedPages) else old(requestedPages) + [page]
    {
      if page != currentPage {
        requestedPages := requestedPages + [page];
      }
      currentPage := page;
    }

    method HandleNextPage()
      modifies this`currentPage, this`requestedPages
      ensures currentPage == NextPage(old(currentPage), totalPages)
      ensures old(1 <= currentPage <= totalPages) ==> 1 <= currentPage <= totalPages
      ensures requestedPages == if old(currentPage) < totalPages then old(requestedPages) + [currentPage] else old(requestedPages)
    {
      if currentPage < totalPages {
        SetCurrentPage(currentPage + 1);
      }
    }

    method HandlePrevPage()
      modifies this`currentPage, this`requestedPages
      ensures currentPage == PrevPage(old(currentPage))
      ensures old(1 <= currentPage <= totalPages) ==> 1 <= currentPage <= totalPages
      ensures requestedPages == if old(currentPage) > 1 then old(requestedPages) + [currentPage] else old(requestedPages)
    {
      if currentPage > 1 {
        SetCurrentPage(currentPage - 1);
      }
    }

    /** The pagination control reports a 0-based page. The page lies within the range only
        when the control offers `0 <= page < totalPages`; nothing here checks it. */
    method OnPageChange(page: int)
      modifies this`currentPage, this`requestedPages
      ensures currentPage == PageFromControl(page) && ControlPage(currentPage) == page
      ensures (1 <= currentPage <= totalPages) <==> 0 <= page < totalPages
      ensures requestedPages == if page + 1 == old(currentPage) then old(requestedPages) else old(requestedPages) + [page + 1]
    {
      SetCurrentPage(page + 1);
    }

    /** The end of `fetchData`: on success the charts, table and page count are replaced; on
        failure the message is kept; either way loading ends. */
    method FetchSettled(outcome: FetchOutcome)
      modifies this`pieChartData, this`lineChartData, this`invoicesTableData, this`totalPages, this`error, this`loading
      ensures !loading
      ensures outcome.Fetched? ==>
        && pieChartData == PieSlices(outcome.pie) && lineChartData == LineChartOf(outcome.line)
        && invoicesTableData == outcome.page.invoices && totalPages == outcome.page.totalPages
        && error == old(error)
      ensures outcome.Failed? ==>
        && error == outcome.message
        && pieChartData == old(pieChartData) && lineChartData == old(lineChartData)
        && invoicesTableData == old(invoicesTableData) && totalPages == old(totalPages)
    {
      match outcome {
        case Fetched(pie, line, page) =>
          pieChartData := PieSlices(pie);
          lineChartData := LineChartOf(line);
          invoicesTableData := page.invoices;
          totalPages := page.totalPages;
        case Failed(message) =>
          error := message;
      }
      loading := false;
    }

    /** The spinner while loading, then the error text if any, else the charts. */
    function Rendered(): (v: View)
      reads this
      ensures v == Spinner <==> loading
      ensures v.ErrorText? ==> v.message == error && error != ""
      ensures v == Charts <==> !loading && error == ""
    {
      if loading then Spinner else if Truthy(error) then ErrorText(error) else Charts
    }
  }

  /** A fetch with five pages, the control's last page, then a refetch reporting two pages:
      `currentPage` is left beyond `totalPages`, because a refetch replaces the page count
      without touching the page. */
  method RefetchOutgrowsPages() returns (page: int, total: int)
    ensures page == 5 && total == 2 && page > total
  {
    var screen := new Screen();
    screen.FetchSettled(Fetched([], [], InvoicePage([], 5)));
    screen.OnPageChange(4);
    screen.FetchSettled(Fetched([], [], InvoicePage([], 2)));
    page, total := screen.currentPage, screen.totalPages;
  }
}
