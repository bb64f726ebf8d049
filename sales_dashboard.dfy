/** The sales dashboard: a filter ("today", "last7" or "last30"), the
    dashboard record it loads (profit, top sellers, low stock, monthly profit,
    sales, `loading`), and the delete action with its `deleting` flag. Each
    remote call is an input reply; the calls made are returned in order. */
module SalesDashboard {
  import opened Common

  /** The remote endpoints the dashboard calls. */
  datatype Endpoint =
    | SalesLastDays(days: nat)
    | SalesLast7Days
    | SalesLast30Days
    | ProfitToday
    | ProfitLast7Days
    | ProfitLast30Days
    | TopSelling
    | LowStock
    | MonthlyProfit
    | DeleteSale(saleId: string)

  /** The sales and profit of one filter. */
  datatype Filtered = Filtered(sales: seq<Json>, totalProfit: real)

  const NoSales: Filtered := Filtered([], 0.0)

  predicate IsKnownFilter(filter: string) {
    filter == "today" || filter == "last7" || filter == "last30"
  }

  /** The calls `loadFilteredData(filter)` makes: the filter's sales endpoint,
      then, if that succeeded, its profit endpoint; none for any other filter. */
  function FilteredCalls(filter: string, salesReply: Reply<seq<Json>>): (calls: seq<Endpoint>)
    ensures !IsKnownFilter(filter) ==> calls == []
    ensures filter == "today" ==> calls == [SalesLastDays(1)] + (if salesReply.Ok? then [ProfitToday] else [])
    ensures filter == "last7" ==> calls == [SalesLast7Days] + (if salesReply.Ok? then [ProfitLast7Days] else [])
    ensures filter == "last30" ==> calls == [SalesLast30Days] + (if salesReply.Ok? then [ProfitLast30Days] else [])
  {
    if filter == "today" then [SalesLastDays(1)] + (if salesReply.Ok? then [ProfitToday] else [])
    else if filter == "last7" then [SalesLast7Days] + (if salesReply.Ok? then [ProfitLast7Days] else [])
    else if filter == "last30" then [SalesLast30Days] + (if salesReply.Ok? then [ProfitLast30Days] else [])
    else []
  }

  /** What `loadFilteredData(filter)` resolves to: the two replies when both
      calls succeed, and no sales with zero profit for any other filter or any
      failure (it never rejects). */
  function FilteredResult(filter: string, salesReply: Reply<seq<Json>>, profitReply: Reply<real>): (r: Filtered)
    ensures r != NoSales ==> IsKnownFilter(filter) && salesReply.Ok? && profitReply.Ok?
    ensures IsKnownFilter(filter) && salesReply.Ok? && profitReply.Ok? ==> r == Filtered(salesReply.value, profitReply.value)
    ensures !IsKnownFilter(filter) || salesReply.Err? || profitReply.Err? ==> r == NoSales
  {
    if IsKnownFilter(filter) && salesReply.Ok? && profitReply.Ok? then Filtered(salesReply.value, profitReply.value)
    else NoSales
  }

  /** `loadFilteredData(filterType)`: the sales call, then the profit call, each
      reply taken in turn; the first failure ends it with no sales. */
  method LoadFilteredData(filterType: string, salesReply: Reply<seq<Json>>, profitReply: Reply<real>)
    returns (calls: seq<Endpoint>, result: Filtered)
    ensures calls == FilteredCalls(filterType, salesReply)
    ensures result == FilteredResult(filterType, salesReply, profitReply)
  {
    var sales: seq<Json> := [];
    var totalProfit: real := 0.0;
    calls := [];
    if IsKnownFilter(filterType) {
      var salesCall, profitCall := SalesLast30Days, ProfitLast30Days;
      if filterType == "today" {
        salesCall, profitCall := SalesLastDays(1), ProfitToday;
      } else if filterType == "last7" {
        salesCall, profitCall := SalesLast7Days, ProfitLast7Days;
      }
      calls := calls + [salesCall];
      if salesReply.Err? {
        return calls, NoSales;
      }
      sales := salesReply.value;
      calls := calls + [profitCall];
      if profitReply.Err? {
        return calls, NoSales;
      }
      totalProfit := profitReply.value;
    }
    result := Filtered(sales, totalProfit);
  }

  /** One row of the monthly-profit reply: `_id` and its `month` may be missing. */
  datatype MonthlyRow = MonthlyRow(id: Option<MonthId>, totalProfit: Option<real>)
  datatype MonthId = MonthId(month: Option<int>)

  datatype MonthLabel = MonthNumber(n: int) | NotAvailable
  datatype MonthlyPoint = MonthlyPoint(month: MonthLabel, profit: real)

  /** `{ month: m._id?.month || "N/A", profit: m.totalProfit || 0 }` */
  function PointOf(row: MonthlyRow): (p: MonthlyPoint)
    ensures p.month == NotAvailable <==> row.id.None? || row.id.value.month.None? || row.id.value.month.value == 0
    ensures p.month.MonthNumber? ==> row.id == Some(MonthId(Some(p.month.n)))
    ensures p.profit == (if row.totalProfit.Some? then row.totalProfit.value else 0.0)
  {
    var month :=
      if row.id.Some? && row.id.value.month.Some? && row.id.value.month.value != 0
      then MonthNumber(row.id.value.month.value) else NotAvailable;
    var profit := if row.totalProfit.Some? && row.totalProfit.value != 0.0 then row.totalProfit.value else 0.0;
    MonthlyPoint(month, profit)
  }

  /** `monthlyProfitRes.map(...)`: one point per row, in order. */
  function MonthlyPoints(rows: seq<MonthlyRow>): (r: seq<MonthlyPoint>)
    ensures |r| == |rows|
    ensures forall i :: 0 <= i < |rows| ==> r[i] == PointOf(rows[i])
  {
    if rows == [] then [] else [PointOf(rows[0])] + MonthlyPoints(rows[1..])
  }

  /** The heading of the sales table. */
  function FilterLabel(filter: string): (heading: string)
    ensures heading == "Today" <==> filter == "today"
    ensures heading == "Last 7 Days" <==> filter == "last7"
    ensures heading == "Last 30 Days" <==> filter != "today" && filter != "last7"
  {
    if filter == "today" then "Today" else if filter == "last7" then "Last 7 Days" else "Last 30 Days"
  }

  /** The dashboard record held in state. */
  datatype DashboardRecord = DashboardRecord(
    totalProfit: real,
    topSelling: seq<Json>,
    lowStock: seq<Json>,
    monthlyProfit: seq<MonthlyPoint>,
    sales: seq<Json>,
    loading: bool)

  const InitialRecord: DashboardRecord := DashboardRecord(0.0, [], [], [], [], true)

  class SalesDashboardView {
    var data: DashboardRecord
    var filter: string
    var deleting: bool

    constructor ()
      ensures data == InitialRecord && filter == "today" && !deleting
    {
      data := InitialRecord;
      filter := "today";
      deleting := false;
    }

    /** A filter button: a different filter re-runs the load effect. */
    method SetFilter(value: string) returns (reload: bool)
      modifies this
      ensures filter == value && reload == (value != old(filter))
      ensures data == old(data) && deleting == old(deleting)
    {
      reload := value != filter;
      filter := value;
    }

    /** The load effect: the three dashboard calls and `loadFilteredData(filter)`
        run together. When all three succeed every field is replaced and
        `loading` cleared; when one fails only `loading` is cleared. */
    method LoadData(top: Reply<seq<Json>>, low: Reply<seq<Json>>, monthly: Reply<seq<MonthlyRow>>,
                    salesReply: Reply<seq<Json>>, profitReply: Reply<real>)
      returns (calls: seq<Endpoint>)
      modifies this
      ensures filter == old(filter) && deleting == old(deleting)
      ensures calls == [TopSelling, LowStock, MonthlyProfit] + FilteredCalls(filter, salesReply)
      ensures top.Ok? && low.Ok? && monthly.Ok? ==>
        var f := FilteredResult(filter, salesReply, profitReply);
        data == DashboardRecord(f.totalProfit, top.value, low.value, MonthlyPoints(monthly.value), f.sales, false)
      ensures !(top.Ok? && low.Ok? && monthly.Ok?) ==> data == old(data).(loading := false)
    {
      var filteredCalls, filteredData := LoadFilteredData(filter, salesReply, profitReply);
      calls := [TopSelling, LowStock, MonthlyProfit] + filteredCalls;
      if top.Ok? && low.Ok? && monthly.Ok? {
        data := DashboardRecord(
          filteredData.totalProfit,
          top.value,
          low.value,
          MonthlyPoints(monthly.value),
          filteredData.sales,
          false);
      } else {
        data := data.(loading := false);
      }
    }

    /** The delete button, up to the delete call: a declined confirmation
        changes nothing; otherwise `deleting` is set. */
    method BeginDelete(confirmed: bool) returns (started: bool)
      modifies this
      ensures started == confirmed
      ensures deleting == (confirmed || old(deleting))
      ensures data == old(data) && filter == old(filter)
    {
      started := confirmed;
      if confirmed {
        deleting := true;
      }
    }

    /** The rest of the delete: after a successful delete the filtered data is
        reloaded and only `sales` and `totalProfit` are replaced; after a failed
        one nothing is. `deleting` is cleared either way. */
    method FinishDelete(saleId: string, deleteReply: Reply<Json>, salesReply: Reply<seq<Json>>, profitReply: Reply<real>)
      returns (calls: seq<Endpoint>)
      modifies this
      ensures !deleting && filter == old(filter)
      ensures deleteReply.Err? ==> calls == [DeleteSale(saleId)] && data == old(data)
      ensures deleteReply.Ok? ==>
        var f := FilteredResult(filter, salesReply, profitReply);
        && calls == [DeleteSale(saleId)] + FilteredCalls(filter, salesReply)
        && data == old(data).(sales := f.sales, totalProfit := f.totalProfit)
    {
      calls := [DeleteSale(saleId)];
      if deleteReply.Ok? {
        var refreshCalls, refreshed := LoadFilteredData(filter, salesReply, profitReply);
        calls := calls + refreshCalls;
        data := data.(sales := refreshed.sales, totalProfit := refreshed.totalProfit);
      }
      deleting := false;
    }
  }
}
