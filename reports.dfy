/** The reports screen: six monthly rows of revenue, hours, clients and service calls,
    the growth of the last month over the one before, totals over all rows, a
    top-clients list and colours cycled over chart entries. */
module Reports {
  import opened Views

  datatype MonthRow = MonthRow(month: string, revenue: real, hours: real, clients: real, serviceCalls: real)

  datatype ClientRevenue = ClientRevenue(name: string, revenue: real, percentage: real)

  // Growth of the last month

  /** `currentMonth` is the last row and `previousMonth` the one before it; the screen
      reads fields of both, so it needs at least two rows. */
  function LastTwo(rows: seq<MonthRow>): (r: (MonthRow, MonthRow))
    requires |rows| >= 2
    ensures rows == rows[..|rows| - 2] + [r.0, r.1]
  {
    (rows[|rows| - 2], rows[|rows| - 1])
  }

  /** The percentage change from `previous` to `current`. */
  function Growth(current: real, previous: real): (g: real)
    requires previous != 0.0
    ensures g * previous == (current - previous) * 100.0
  {
    ((current - previous) / previous) * 100.0
  }

  /** Against a positive base, growth is positive iff the value rose, zero iff it stayed. */
  lemma GrowthSign(current: real, previous: real)
    requires previous > 0.0
    ensures Growth(current, previous) > 0.0 <==> current > previous
    ensures Growth(current, previous) == 0.0 <==> current == previous
  {
    var g := Growth(current, previous);
    if g > 0.0 {
      assert g * previous > 0.0;
    }
    if current > previous {
      assert g * previous > 0.0;
    }
  }

  /** `revenueGrowth`: the change from the next-to-last month's revenue to the last
      month's, in percent of the former. */
  function RevenueGrowth(rows: seq<MonthRow>): (g: real)
    requires |rows| >= 2 && rows[|rows| - 2].revenue != 0.0
    ensures g * rows[|rows| - 2].revenue == (rows[|rows| - 1].revenue - rows[|rows| - 2].revenue) * 100.0
  {
    Growth(LastTwo(rows).1.revenue, LastTwo(rows).0.revenue)
  }

  /** `hoursGrowth`: the change from the next-to-last month's hours to the last month's,
      in percent of the former. */
  function HoursGrowth(rows: seq<MonthRow>): (g: real)
    requires |rows| >= 2 && rows[|rows| - 2].hours != 0.0
    ensures g * rows[|rows| - 2].hours == (rows[|rows| - 1].hours - rows[|rows| - 2].hours) * 100.0
  {
    Growth(LastTwo(rows).1.hours, LastTwo(rows).0.hours)
  }

  /** What `formatGrowth` draws: an up or down arrow in green or red, and a magnitude. */
  datatype GrowthBadge = GrowthBadge(up: bool, magnitude: real)

  /** `formatGrowth`: up iff the growth is strictly positive, so no change shows as down;
      the number shown is the absolute value. */
  function FormatGrowth(growth: real): (b: GrowthBadge)
    ensures b.up <==> growth > 0.0
    ensures b.magnitude >= 0.0
    ensures b.magnitude == growth || b.magnitude == -growth
  {
    GrowthBadge(growth > 0.0, if growth < 0.0 then -growth else growth)
  }

  /** A growth and its opposite show the same number; of the two only a positive one points up. */
  lemma FormatGrowthSymmetric(growth: real)
    ensures FormatGrowth(-growth).magnitude == FormatGrowth(growth).magnitude
    ensures !(FormatGrowth(growth).up && FormatGrowth(-growth).up)
  {
  }

  /** The badge of the last month points up iff that month beat the one before. */
  lemma RevenueBadgeUpIff(rows: seq<MonthRow>)
    requires |rows| >= 2 && LastTwo(rows).0.revenue > 0.0
    ensures FormatGrowth(RevenueGrowth(rows)).up <==> rows[|rows| - 1].revenue > rows[|rows| - 2].revenue
  {
    GrowthSign(LastTwo(rows).1.revenue, LastTwo(rows).0.revenue);
  }

  // Totals

  /** `Math.max` over a non-empty list. */
  function Max(xs: seq<real>): (m: real)
    requires xs != []
    ensures forall i :: 0 <= i < |xs| ==> xs[i] <= m
    ensures exists i :: 0 <= i < |xs| && xs[i] == m
  {
    if |xs| == 1 then xs[0]
    else
      var rest := Max(xs[1..]);
      assert forall i :: 1 <= i < |xs| ==> xs[i] == xs[1..][i - 1];
      if xs[0] >= rest then xs[0] else rest
  }

  function RevenueOf(r: MonthRow): real { r.revenue }
  function HoursOf(r: MonthRow): real { r.hours }
  function ClientsOf(r: MonthRow): real { r.clients }
  function CallsOf(r: MonthRow): real { r.serviceCalls }

  /** `revenueData.map(item => item.clients)`. */
  function ClientsColumn(rows: seq<MonthRow>): (cs: seq<real>)
    ensures |cs| == |rows|
    ensures forall i :: 0 <= i < |rows| ==> cs[i] == rows[i].clients
  {
    seq(|rows|, i requires 0 <= i < |rows| => rows[i].clients)
  }

  /** A quotient has no value where the source divides by zero. */
  datatype ReportTotals = ReportTotals(
    totalRevenue: real,
    totalHours: real,
    totalClients: Option<real>,
    totalServiceCalls: real,
    averageHourlyRate: Option<real>,
    avgCallsPerMonth: Option<real>)

  /** `totalStatistics`: revenue, hours and calls are sums over the rows; the client
      figure is the largest monthly count, not a sum; the two averages divide revenue by
      hours and calls by the number of rows. */
  function TotalStatistics(rows: seq<MonthRow>): (t: ReportTotals)
    ensures t.totalRevenue == Sum(rows, RevenueOf)
    ensures t.totalHours == Sum(rows, HoursOf)
    ensures t.totalServiceCalls == Sum(rows, CallsOf)
    ensures t.totalClients.Some? <==> rows != []
    ensures t.totalClients.Some? ==>
              (forall i :: 0 <= i < |rows| ==> rows[i].clients <= t.totalClients.value)
              && (exists i :: 0 <= i < |rows| && rows[i].clients == t.totalClients.value)
    ensures t.averageHourlyRate.Some? <==> t.totalHours != 0.0
    ensures t.averageHourlyRate.Some? ==> t.averageHourlyRate.value * t.totalHours == t.totalRevenue
    ensures t.avgCallsPerMonth.Some? <==> rows != []
    ensures t.avgCallsPerMonth.Some? ==> t.avgCallsPerMonth.value * |rows| as real == t.totalServiceCalls
  {
    var revenue := Sum(rows, RevenueOf);
    var hours := Sum(rows, HoursOf);
    var calls := Sum(rows, CallsOf);
    var clients := ClientsColumn(rows);
    var top := if rows == [] then None else Some(Max(clients));
    assert top.Some? ==> exists i :: 0 <= i < |rows| && rows[i].clients == top.value by {
      if top.Some? {
        var i :| 0 <= i < |clients| && clients[i] == top.value;
        assert rows[i].clients == top.value;
      }
    }
    ReportTotals(revenue, hours, top, calls,
                 if hours == 0.0 then None else Some(revenue / hours),
                 if rows == [] then None else Some(calls / |rows| as real))
  }

  /** With no negative counts the client figure, the largest monthly count, never
      exceeds the sum of the monthly counts. */
  lemma {:induction false} MaxClientsAtMostSum(rows: seq<MonthRow>)
    requires rows != []
    requires forall i :: 0 <= i < |rows| ==> rows[i].clients >= 0.0
    ensures Max(ClientsColumn(rows)) <= Sum(rows, ClientsOf)
    ensures TotalStatistics(rows).totalClients.value <= Sum(rows, ClientsOf)
  {
    if |rows| > 1 {
      MaxClientsAtMostSum(rows[1..]);
      assert ClientsColumn(rows)[1..] == ClientsColumn(rows[1..]);
      SumNonNegative(rows[1..], ClientsOf);
    }
  }

  // Top clients and colours

  datatype RankedClient = RankedClient(rank: nat, client: ClientRevenue)

  /** `clientRevenueData.slice(0, 4)`, numbered from 1 in the given order. */
  function TopClients(data: seq<ClientRevenue>): (r: seq<RankedClient>)
    ensures |r| == if |data| < 4 then |data| else 4
    ensures forall i :: 0 <= i < |r| ==> r[i].client == data[i]
    ensures forall i :: 0 <= i < |r| ==> r[i].rank == i + 1
  {
    var k := if |data| < 4 then |data| else 4;
    seq(k, i requires 0 <= i < k => RankedClient(i + 1, data[i]))
  }

  function ClientsOfRanking(r: seq<RankedClient>): (cs: seq<ClientRevenue>)
    ensures |cs| == |r|
    ensures forall i :: 0 <= i < |r| ==> cs[i] == r[i].client
  {
    seq(|r|, i requires 0 <= i < |r| => r[i].client)
  }

  /** The list shown is a prefix of the data, nothing is reordered, and ranks run 1, 2, ...
      without gaps; a list of four or fewer entries is shown whole. */
  lemma TopClientsIsPrefix(data: seq<ClientRevenue>)
    ensures ClientsOfRanking(TopClients(data)) <= data
    ensures |data| <= 4 ==> ClientsOfRanking(TopClients(data)) == data
    ensures forall i, j :: 0 <= i < j < |TopClients(data)| ==> TopClients(data)[i].rank < TopClients(data)[j].rank
  {
    var cs := ClientsOfRanking(TopClients(data));
    assert cs == data[..|cs|];
  }

  /** The five chart colours. */
  const Colors: seq<string> := ["#3B82F6", "#10B981", "#F59E0B", "#EF4444", "#8B5CF6"]

  /** The colour of the chart entry at `index`, cycling through the palette. */
  function ColorFor(index: nat): (c: string)
    ensures c in Colors
  {
    Colors[index % |Colors|]
  }

  /** Colours repeat every five entries, and any five consecutive entries get five different colours. */
  lemma ColorCycle(i: nat, j: nat)
    ensures ColorFor(i + 5) == ColorFor(i)
    ensures i < j < i + 5 ==> ColorFor(i) != ColorFor(j)
  {
    assert (i + 5) % 5 == i % 5;
    if i < j < i + 5 {
      assert i % 5 != j % 5;
    }
  }

  // Sample data

  const Rows: seq<MonthRow> := [
    MonthRow("ינואר", 45000.0, 120.0, 15.0, 25.0),
    MonthRow("פברואר", 52000.0, 140.0, 18.0, 30.0),
    MonthRow("מרץ", 48000.0, 135.0, 16.0, 28.0),
    MonthRow("אפריל", 55000.0, 150.0, 20.0, 35.0),
    MonthRow("מאי", 62000.0, 165.0, 22.0, 40.0),
    MonthRow("יוני", 58000.0, 155.0, 21.0, 38.0)
  ]

  const ClientRevenueRows: seq<ClientRevenue> := [
    ClientRevenue("חברת טק סולושנס", 25000.0, 35.0),
    ClientRevenue("משרד עורכי דין רוזן", 18000.0, 25.0),
    ClientRevenue("קליניקת השיניים", 12000.0, 17.0),
    ClientRevenue("חברת פיננסים", 10000.0, 14.0),
    ClientRevenue("אחרים", 6500.0, 9.0)
  ]

  /** June fell from May on both revenue and hours, so both growth badges point down. */
  lemma SampleGrowthDown()
    ensures !FormatGrowth(RevenueGrowth(Rows)).up
    ensures !FormatGrowth(HoursGrowth(Rows)).up
  {
    GrowthSign(58000.0, 62000.0);
    GrowthSign(155.0, 165.0);
  }

  /** On the sample rows the client card reads 22, the largest month, while the clients
      of all months add up to 112. */
  lemma SampleClientsIsMax()
    ensures TotalStatistics(Rows).totalClients == Some(22.0)
    ensures Sum(Rows, ClientsOf) == 112.0
  {
    SampleClientsSum();
    var cs := ClientsColumn(Rows);
    assert cs == [15.0, 18.0, 16.0, 20.0, 22.0, 21.0];
    assert cs[1..][1..][1..][1..] == [22.0, 21.0];
    assert Max([22.0, 21.0]) == 22.0;
    assert cs[1..][1..][1..] == [20.0, 22.0, 21.0];
    assert cs[1..][1..] == [16.0, 20.0, 22.0, 21.0];
    assert cs[1..] == [18.0, 16.0, 20.0, 22.0, 21.0];
  }

  lemma SampleClientsSum()
    ensures Sum(Rows, ClientsOf) == 112.0
  {
    var r := Rows;
    assert r[5..][1..] == [];
    assert Sum(r[5..], ClientsOf) == 21.0;
    assert r[4..][1..] == r[5..];
    assert Sum(r[4..], ClientsOf) == 43.0;
    assert r[3..][1..] == r[4..];
    assert Sum(r[3..], ClientsOf) == 63.0;
    assert r[2..][1..] == r[3..];
    assert Sum(r[2..], ClientsOf) == 79.0;
    assert r[1..][1..] == r[2..];
    assert Sum(r[1..], ClientsOf) == 97.0;
  }

  /** The top-clients card lists the first four clients ranked 1 to 4, leaving out "others". */
  lemma SampleTopClients()
    ensures |TopClients(ClientRevenueRows)| == 4
    ensures TopClients(ClientRevenueRows)[3] == RankedClient(4, ClientRevenue("חברת פיננסים", 10000.0, 14.0))
  {
  }
}
