/** The chart-report store: the current report, a history of at most
    fifty reports (newest first), and the generating and error flags. */
module QimenStore {
  import opened Wrappers
  import opened Text
  import opened Types
  import opened QimenApi
  import opened QimenCalculator

  const HistoryLimit := 50
  const UnknownGenerateError := "生成报告时发生未知错误"

  // ---------------------------------------------------------------------
  // The history

  /** `s.slice(0, n)` on any list. */
  function Prefix<T>(s: seq<T>, n: nat): (r: seq<T>)
    ensures |r| == if |s| < n then |s| else n
    ensures r == s[..|r|]
  {
    if |s| <= n then s else s[..n]
  }

  /** `[report, ...reports.slice(0, 49)]`. */
  function PushHistory(reports: seq<QimenReport>, report: QimenReport): (r: seq<QimenReport>)
    ensures |r| == if |reports| < HistoryLimit then |reports| + 1 else HistoryLimit
    ensures r[0] == report && r[1..] == reports[..|r| - 1]
  {
    [report] + Prefix(reports, HistoryLimit - 1)
  }

  function Reverse<T>(s: seq<T>): (r: seq<T>)
    ensures |r| == |s|
  {
    if s == [] then [] else [s[|s| - 1]] + Reverse(s[..|s| - 1])
  }

  /** The history after generating `added` in order. */
  function PushAll(reports: seq<QimenReport>, added: seq<QimenReport>): seq<QimenReport>
  {
    if added == [] then reports else PushHistory(PushAll(reports, added[..|added| - 1]), added[|added| - 1])
  }

  /** Newest first, oldest evicted: after any run of generations the
      history is the reports generated, latest first, followed by the
      earlier history, cut to fifty. */
  lemma {:induction false} PushAllNewestFirst(reports: seq<QimenReport>, added: seq<QimenReport>)
    requires |reports| <= HistoryLimit
    ensures PushAll(reports, added) == Prefix(Reverse(added) + reports, HistoryLimit)
    decreases |added|
  {
    if added != [] {
      var n := |added| - 1;
      var init, x := added[..n], added[n];
      PushAllNewestFirst(reports, init);
      var before := Reverse(init) + reports;
      assert Reverse(added) + reports == [x] + before;
      var cut := Prefix(before, HistoryLimit);
      assert PushAll(reports, added) == [x] + Prefix(cut, HistoryLimit - 1);
      assert Prefix(cut, HistoryLimit - 1) == Prefix(before, HistoryLimit - 1);
    }
  }

  /** The history never grows beyond fifty. */
  lemma {:induction false} PushAllBounded(reports: seq<QimenReport>, added: seq<QimenReport>)
    requires |reports| <= HistoryLimit
    ensures |PushAll(reports, added)| <= HistoryLimit
    ensures |added| > 0 ==> PushAll(reports, added)[0] == added[|added| - 1]
    decreases |added|
  {
    if added != [] {
      PushAllBounded(reports, added[..|added| - 1]);
    }
  }

  // ---------------------------------------------------------------------
  // Lookup and deletion

  /** `reports.filter(r => r.id !== id)`. */
  function RemoveById(reports: seq<QimenReport>, id: string): (r: seq<QimenReport>)
    ensures |r| <= |reports|
    ensures forall i :: 0 <= i < |r| ==> r[i].id != id
    ensures forall x :: x in r <==> x in reports && x.id != id
  {
    if reports == [] then []
    else
      var last := reports[|reports| - 1];
      RemoveById(reports[..|reports| - 1], id) + (if last.id != id then [last] else [])
  }

  /** Removing an id that is absent changes nothing, and removing twice is
      removing once. */
  lemma {:induction false} RemoveByIdAbsent(reports: seq<QimenReport>, id: string)
    requires forall i :: 0 <= i < |reports| ==> reports[i].id != id
    ensures RemoveById(reports, id) == reports
    decreases |reports|
  {
    if reports != [] {
      var init := reports[..|reports| - 1];
      RemoveByIdAbsent(init, id);
      calc {
        RemoveById(reports, id);
        RemoveById(init, id) + [reports[|reports| - 1]];
        init + [reports[|reports| - 1]];
        reports;
      }
    }
  }

  /** A single report stays exactly when its id differs. */
  lemma RemoveByIdSingle(x: QimenReport, id: string)
    ensures RemoveById([x], id) == if x.id != id then [x] else []
  {
  }

  /** The filter keeps order: it distributes over concatenation. */
  lemma {:induction false} RemoveByIdAppend(a: seq<QimenReport>, b: seq<QimenReport>, id: string)
    ensures RemoveById(a + b, id) == RemoveById(a, id) + RemoveById(b, id)
    decreases |b|
  {
    if b == [] {
      assert a + b == a;
    } else {
      var init, last := b[..|b| - 1], b[|b| - 1];
      var kept := if last.id != id then [last] else [];
      RemoveByIdAppend(a, init, id);
      calc {
        RemoveById(a + b, id);
        { assert (a + b)[..|a + b| - 1] == a + init && (a + b)[|a + b| - 1] == last; }
        RemoveById(a + init, id) + kept;
        (RemoveById(a, id) + RemoveById(init, id)) + kept;
        RemoveById(a, id) + (RemoveById(init, id) + kept);
        RemoveById(a, id) + RemoveById(b, id);
      }
    }
  }

  lemma RemoveByIdIdempotent(reports: seq<QimenReport>, id: string)
    ensures RemoveById(RemoveById(reports, id), id) == RemoveById(reports, id)
  {
    RemoveByIdAbsent(RemoveById(reports, id), id);
  }

  /** `reports.find(r => r.id === id)`: the first report with that id. */
  function FindById(reports: seq<QimenReport>, id: string): (r: Option<QimenReport>)
    ensures r.None? <==> forall i :: 0 <= i < |reports| ==> reports[i].id != id
    ensures r.Some? ==> r.value.id == id && exists k :: (0 <= k < |reports| && reports[k] == r.value &&
      forall j :: 0 <= j < k ==> reports[j].id != id)
  {
    if reports == [] then None
    else if reports[0].id == id then Some(reports[0])
    else
      var rest := FindById(reports[1..], id);
      assert forall i :: 1 <= i < |reports| ==> reports[i] == reports[1..][i - 1];
      if rest.Some? then
        assert exists k :: (0 <= k < |reports| && reports[k] == rest.value &&
          forall j :: 0 <= j < k ==> reports[j].id != id) by {
          var k' :| 0 <= k' < |reports[1..]| && reports[1..][k'] == rest.value &&
            forall j :: 0 <= j < k' ==> reports[1..][j].id != id;
          assert reports[k' + 1] == rest.value;
        }
        rest
      else rest
  }

  /** The newest report is found by its id, and a deleted id is not found. */
  lemma FindAfterPushAndRemove(reports: seq<QimenReport>, report: QimenReport, id: string)
    ensures FindById(PushHistory(reports, report), report.id) == Some(report)
    ensures FindById(RemoveById(reports, id), id).None?
  {
  }

  // ---------------------------------------------------------------------
  // Summary

  datatype ReportSummary = ReportSummary(id: string, title: string, preview: string, timestamp: int)

  /** `getReportSummary`: the title `<gongli> - <questionType>` and the
      first hundred characters of the analysis followed by '...'. */
  function Summary(report: QimenReport): (r: ReportSummary)
    ensures r.id == report.id && r.timestamp == report.timestamp
    ensures r.title == report.result.basicInfo.gongli + " - " + report.input.questionType
    ensures |r.preview| == (if |report.result.analysis| < 100 then |report.result.analysis| else 100) + 3
    ensures r.preview[..|r.preview| - 3] <= report.result.analysis
    ensures r.preview[|r.preview| - 3..] == "..."
  {
    var preview := Take(report.result.analysis, 100) + "...";
    assert preview[..|preview| - 3] == Take(report.result.analysis, 100);
    ReportSummary(report.id, report.result.basicInfo.gongli + " - " + report.input.questionType, preview, report.timestamp)
  }

  // ---------------------------------------------------------------------
  // Persistence

  /** The persisted object: `reports` as saved; `error` is added by the
      version-0 migration. A missing field is None. */
  datatype Persisted = Persisted(reports: Option<seq<QimenReport>>, error: Option<Option<string>>)

  const Version := 1

  /** `migrate`: from version 0 the object gains `error: null`; any other
      version passes through. */
  function Migrate(p: Persisted, version: int): (r: Persisted)
    ensures r.reports == p.reports
    ensures version == 0 ==> r.error == Some(None)
    ensures version != 0 ==> r == p
  {
    if version == 0 then p.(error := Some(None)) else p
  }

  /** The message caught by `generateReport`: an Error's own message,
      else the fixed unknown-error text. */
  function CaughtMessage(t: Thrown): (r: string)
    ensures t.ErrorObject? ==> r == t.message
    ensures t.NonError? ==> r == UnknownGenerateError
  {
    match t
    case ErrorObject(m) => m
    case NonError => UnknownGenerateError
  }

  class ChartStore {
    var currentReport: Option<QimenReport>
    var reports: seq<QimenReport>
    var isGenerating: bool
    var error: Option<string>

    constructor ()
      ensures currentReport.None? && reports == [] && !isGenerating && error.None?
      ensures Valid()
    {
      currentReport, reports, isGenerating, error := None, [], false, None;
    }

    /** The bound every reachable state keeps. */
    predicate Valid()
      reads this
    {
      |reports| <= HistoryLimit
    }

    /** The first step of `generateReport`, before the await. */
    method BeginGenerate()
      modifies this
      ensures isGenerating && error.None?
      ensures currentReport == old(currentReport) && reports == old(reports)
    {
      isGenerating, error := true, None;
    }

    /** The second step of `generateReport`, with the outcome of the
        calculation: the report becomes current and heads the history, or
        the error message is recorded and nothing else changes. */
    method FinishGenerate(outcome: Result<QimenReport, Thrown>)
      modifies this
      ensures !isGenerating
      ensures outcome.Success? || old(Valid()) ==> Valid()
      ensures outcome.Success? ==>
        currentReport == Some(outcome.value) && reports == PushHistory(old(reports), outcome.value) && error.None?
      ensures outcome.Failure? ==>
        currentReport == old(currentReport) && reports == old(reports) && error == Some(CaughtMessage(outcome.error))
    {
      match outcome
      case Success(report) =>
        currentReport, reports, isGenerating, error := Some(report), PushHistory(reports, report), false, None;
      case Failure(thrown) =>
        isGenerating, error := false, Some(CaughtMessage(thrown));
    }

    /** `generateReport`: both steps around the calculation; `transport`,
        `freshId` and `now` are the calculation's environment. An invalid
        input ends in the calculator's error message. */
    method GenerateReport(input: QimenInput, transport: Option<ApiResponse>, freshId: string, now: int)
      modifies this
      ensures !isGenerating
      ensures ValidInput(input) || old(Valid()) ==> Valid()
      ensures ValidInput(input) ==>
        var report := Calculate(input, transport, freshId, now).value;
        currentReport == Some(report) && reports == PushHistory(old(reports), report) && error.None?
      ensures !ValidInput(input) ==>
        currentReport == old(currentReport) && reports == old(reports) && error == Some(InvalidInputMessage)
    {
      BeginGenerate();
      var outcome := match Calculate(input, transport, freshId, now)
        case Success(report) => Success(report)
        case Failure(message) => Failure(ErrorObject(message));
      FinishGenerate(outcome);
    }

    /** `setCurrentReport`. */
    method SetCurrentReport(report: Option<QimenReport>)
      modifies this
      ensures currentReport == report
      ensures reports == old(reports) && isGenerating == old(isGenerating) && error == old(error)
    {
      currentReport := report;
    }

    /** `clearCurrentReport`. */
    method ClearCurrentReport()
      modifies this
      ensures currentReport.None?
      ensures reports == old(reports) && isGenerating == old(isGenerating) && error == old(error)
    {
      currentReport := None;
    }

    /** `getReportById`. */
    method GetReportById(id: string) returns (r: Option<QimenReport>)
      ensures r == FindById(reports, id)
    {
      r := FindById(reports, id);
    }

    /** `deleteReport`: every report with that id goes, and the current
        report is cleared only when it has that id. */
    method DeleteReport(id: string)
      modifies this
      ensures old(Valid()) ==> Valid()
      ensures reports == RemoveById(old(reports), id)
      ensures old(currentReport).Some? && old(currentReport).value.id == id ==> currentReport.None?
      ensures !(old(currentReport).Some? && old(currentReport).value.id == id) ==> currentReport == old(currentReport)
      ensures isGenerating == old(isGenerating) && error == old(error)
    {
      reports := RemoveById(reports, id);
      if currentReport.Some? && currentReport.value.id == id {
        currentReport := None;
      }
    }

    /** `clearError`. */
    method ClearError()
      modifies this
      ensures error.None?
      ensures currentReport == old(currentReport) && reports == old(reports) && isGenerating == old(isGenerating)
    {
      error := None;
    }

    /** `partialize`: only the history is saved. */
    function Partialize(): (p: Persisted)
      reads this
      ensures p.reports == Some(reports) && p.error.None?
    {
      Persisted(Some(reports), None)
    }

    /** Rehydration: the saved fields replace the current ones, then the
        current report is reset. */
    method Rehydrate(p: Persisted)
      modifies this
      ensures currentReport.None?
      ensures reports == if p.reports.Some? then p.reports.value else old(reports)
      ensures error == if p.error.Some? then p.error.value else old(error)
      ensures isGenerating == old(isGenerating)
      ensures (p.reports.Some? ==> |p.reports.value| <= HistoryLimit) && (p.reports.None? ==> old(Valid())) ==> Valid()
    {
      if p.reports.Some? {
        reports := p.reports.value;
      }
      if p.error.Some? {
        error := p.error.value;
      }
      currentReport := None;
    }
  }

  /** Saving and restoring keeps the history and drops the current report. */
  method SaveAndRestore(store: ChartStore, target: ChartStore)
    modifies target
    ensures target.reports == store.reports && target.currentReport.None?
    ensures target.error == old(target.error)
    ensures store.Valid() ==> target.Valid()
  {
    var saved := Migrate(store.Partialize(), Version);
    target.Rehydrate(saved);
  }
}
