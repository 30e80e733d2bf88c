/**
 * The health-history panel of the dashboard: the 30-cell status chain
 * (seven days of mocked history followed by inactive future days), the
 * mocked daily reports and the "Active Alerts" card. Cells are modelled as
 * data; the HTML they are rendered into is not.
 */
module Health {
  import opened Wrappers
  import opened Text

  const ChainLength := 30
  const HistoryLength := 7
  /** The index of the cell marked as today. */
  const CurrentIndex := 6

  /** The mocked seven-day history per organ. */
  const MockHistories: map<string, seq<string>> := map[
    "Liver" := ["green", "yellow", "red", "green", "green", "yellow", "red"],
    "Kidneys" := ["green", "green", "yellow", "green", "green", "green", "green"],
    "Pancreas" := ["yellow", "yellow", "green", "green", "yellow", "green", "green"],
    "Breasts" := ["green", "green", "green", "yellow", "green", "green", "yellow"],
    "Thyroid" := ["yellow", "red", "red", "yellow", "yellow", "yellow", "red"],
    "Heart" := ["green", "green", "yellow", "green", "green", "green", "green"],
    "Lungs" := ["green", "yellow", "green", "green", "green", "yellow", "green"]
  ]

  /** `mock_history.get(organ_name, ["green"] * 7)`. */
  function History(organ: string): seq<string> {
    if organ in MockHistories then MockHistories[organ] else seq(HistoryLength, _ => "green")
  }

  /** `history + ["inactive"] * 23`. */
  function Statuses(organ: string): seq<string> {
    History(organ) + seq(ChainLength - HistoryLength, _ => "inactive")
  }

  /** One day of the chain: its label, its status class, its hover title and whether it is today. */
  datatype Cell = Cell(day: string, status: string, title: string, current: bool)

  function StatusText(status: string): string {
    if status == "green" then "Healthy" else if status == "yellow" then "Warning" else "Critical"
  }

  /** The cell at `index` of the chain, carrying `status`. */
  function DayCell(index: nat, status: string): Cell {
    var day := NatToString(index + 1);
    Cell(day, status,
      if status == "inactive" then "Day " + day + ": No data" else "Day " + day + ": " + StatusText(status),
      index == CurrentIndex)
  }

  /** `zip(days, all_statuses)` with `days` the labels "1" to "30", one cell per pair. */
  function HealthChain(organ: string): seq<Cell> {
    var statuses := Statuses(organ);
    var n := if |statuses| < ChainLength then |statuses| else ChainLength;
    seq(n, i requires 0 <= i < n => DayCell(i, statuses[i]))
  }

  /** The loop that renders the chain, one cell per day in order. */
  method BuildHealthChain(organ: string) returns (cells: seq<Cell>)
    ensures cells == HealthChain(organ)
  {
    var statuses := History(organ) + seq(ChainLength - HistoryLength, _ => "inactive");
    var n := if |statuses| < ChainLength then |statuses| else ChainLength;
    cells := [];
    for i := 0 to n
      invariant |cells| == i
      invariant forall k :: 0 <= k < i ==> cells[k] == DayCell(k, statuses[k])
    {
      var day := NatToString(i + 1);
      var status := statuses[i];
      var title := if status == "inactive" then "Day " + day + ": No data"
                   else "Day " + day + ": " + StatusText(status);
      cells := cells + [Cell(day, status, title, i == CurrentIndex)];
    }
  }

  /** Every mocked history covers seven days, with statuses green, yellow or red. */
  lemma MockHistoriesWellFormed()
    ensures forall organ :: organ in MockHistories ==> |MockHistories[organ]| == HistoryLength
    ensures forall organ, i :: organ in MockHistories && 0 <= i < |MockHistories[organ]| ==>
      MockHistories[organ][i] in {"green", "yellow", "red"}
  {
  }

  /** Any organ's history is seven active days. */
  lemma HistoryWellFormed(organ: string)
    ensures |History(organ)| == HistoryLength
    ensures forall i :: 0 <= i < HistoryLength ==> History(organ)[i] in {"green", "yellow", "red"}
  {
    MockHistoriesWellFormed();
  }

  /**
   * The chain has 30 cells labelled "1" to "30"; the first seven carry the
   * organ's history (all green for an organ without one), the rest are
   * inactive, and only the seventh is today.
   */
  lemma HealthChainShape(organ: string)
    ensures |HealthChain(organ)| == ChainLength
    ensures forall i :: 0 <= i < ChainLength ==> HealthChain(organ)[i].day == NatToString(i + 1)
    ensures forall i :: 0 <= i < ChainLength ==> ParseNat(HealthChain(organ)[i].day) == Some(i + 1)
    ensures forall i :: 0 <= i < ChainLength ==> (HealthChain(organ)[i].current <==> i == CurrentIndex)
    ensures forall i :: 0 <= i < HistoryLength ==> HealthChain(organ)[i].status == History(organ)[i]
    ensures organ !in MockHistories ==> forall i :: 0 <= i < HistoryLength ==> HealthChain(organ)[i].status == "green"
    ensures forall i :: HistoryLength <= i < ChainLength ==> HealthChain(organ)[i].status == "inactive"
  {
    HistoryWellFormed(organ);
    var c := HealthChain(organ);
    forall i | 0 <= i < ChainLength ensures ParseNat(c[i].day) == Some(i + 1) {
      ParseNatToString(i + 1);
    }
  }

  /** Hover titles: "No data" on inactive days, and Healthy / Warning / Critical on active ones. */
  lemma HealthChainTitles(organ: string)
    ensures |HealthChain(organ)| == ChainLength
    ensures forall i :: HistoryLength <= i < ChainLength ==>
      HealthChain(organ)[i].title == "Day " + HealthChain(organ)[i].day + ": No data"
    ensures forall i :: 0 <= i < HistoryLength ==>
      var cell := HealthChain(organ)[i];
      cell.title == "Day " + cell.day + ": " +
        (if cell.status == "green" then "Healthy" else if cell.status == "yellow" then "Warning" else "Critical")
    ensures forall i :: 0 <= i < HistoryLength ==> HealthChain(organ)[i].status != "inactive"
  {
    HistoryWellFormed(organ);
  }

  // ---------------------------------------------------------------------
  // Daily reports
  // ---------------------------------------------------------------------

  datatype Vitals = Vitals(heartRate: string, bloodPressure: string, temperature: string)

  datatype DailyReport = DailyReport(
    date: string, status: string, notes: string, vitals: Vitals,
    recommendations: seq<string>, alerts: seq<string>)

  /** `f"{t / 10:.1f}"` for a number of tenths `t`. */
  function Tenths(t: nat): string {
    NatToString(t / 10) + "." + NatToString(t % 10)
  }

  /** The mocked report of day `i`: every third day carries a concern. */
  function Report(i: nat): DailyReport {
    var concern := i % 3 == 0;
    DailyReport(
      "2024-03-" + Pad2(i),
      if !concern then "healthy" else "unhealthy",
      if !concern then "Regular checkup completed" else "Some concerns noted",
      Vitals(NatToString(60 + i), "120/" + NatToString(70 + i), Tenths(365 + i)),
      ["Continue regular monitoring",
       if !concern then "Maintain exercise routine" else "Schedule follow-up",
       "Stay hydrated"],
      if !concern then [] else ["Elevated readings detected"])
  }

  /** The dict comprehension over days 1 to 30, keyed by the day's decimal label. */
  function DailyReports(): map<string, DailyReport> {
    map i | 1 <= i <= ChainLength :: NatToString(i) := Report(i)
  }

  /** Day `i` is unhealthy with exactly one alert when `i` is a multiple of three, healthy with none otherwise. */
  lemma ReportConcernRule(i: nat)
    ensures Report(i).status == "unhealthy" <==> i % 3 == 0
    ensures Report(i).status == "unhealthy" ==> |Report(i).alerts| == 1
    ensures Report(i).status != "unhealthy" ==> Report(i).status == "healthy" && Report(i).alerts == []
  {
  }

  /** The report stored under the label of day `i` is the report of day `i`, dated that day. */
  lemma {:induction false} DailyReportsLookup(i: nat)
    requires 1 <= i <= ChainLength
    ensures NatToString(i) in DailyReports()
    ensures DailyReports()[NatToString(i)] == Report(i)
    ensures ParseNat(DailyReports()[NatToString(i)].date[8..]) == Some(i)
  {
    var key := NatToString(i);
    assert key in DailyReports();
    var j :| 1 <= j <= ChainLength && NatToString(j) == key && DailyReports()[key] == Report(j);
    NatToStringInjective(i, j);
    ReportDated(i);
  }

  /** Day `i`'s report is dated day `i` of the month. */
  lemma ReportDated(i: nat)
    ensures ParseNat(Report(i).date[8..]) == Some(i)
  {
    var date := Report(i).date;
    assert date[8..] == Pad2(i);
  }

  /** Every key of the reports is the label of one of days 1 to 30. */
  lemma DailyReportsKeys(key: string)
    requires key in DailyReports()
    ensures exists i :: 1 <= i <= ChainLength && key == NatToString(i)
  {
  }

  /** The report shown when a day is selected: `selected_day and selected_day in daily_reports`. */
  function SelectedReport(selectedDay: Option<string>): Option<DailyReport> {
    if selectedDay.Some? && selectedDay.value != "" && selectedDay.value in DailyReports()
    then Some(DailyReports()[selectedDay.value])
    else None
  }

  /** Selecting a day of the chain opens that day's report. */
  lemma SelectingAChainDayOpensItsReport(organ: string, i: nat)
    requires i < ChainLength
    ensures |HealthChain(organ)| == ChainLength
    ensures SelectedReport(Some(HealthChain(organ)[i].day)) == Some(Report(i + 1))
  {
    HistoryWellFormed(organ);
    assert HealthChain(organ)[i].day == NatToString(i + 1);
    DailyReportsLookup(i + 1);
  }

  // ---------------------------------------------------------------------
  // The Active Alerts card
  // ---------------------------------------------------------------------

  /** What the card shows: the notes if any, the alert list, and whether "No active alerts" is printed. */
  datatype AlertsCard = AlertsCard(notes: Option<string>, alerts: seq<string>, noActiveAlerts: bool)

  function AlertsCardOf(report: DailyReport): (card: AlertsCard)
    ensures card.noActiveAlerts <==> report.notes == "" && report.alerts == []
    ensures card.notes.Some? <==> report.notes != ""
    ensures card.notes.Some? ==> card.notes.value == report.notes
    ensures card.alerts == report.alerts
  {
    var notes := if report.notes != "" then Some(report.notes) else None;
    if report.alerts != [] then AlertsCard(notes, report.alerts, false)
    else if report.notes == "" then AlertsCard(notes, [], true)
    else AlertsCard(notes, [], false)
  }

  /** No mocked report ever prints "No active alerts": every one has notes. */
  lemma MockReportsShowNotes(i: nat)
    ensures !AlertsCardOf(Report(i)).noActiveAlerts
    ensures AlertsCardOf(Report(i)).notes.Some?
  {
  }
}
