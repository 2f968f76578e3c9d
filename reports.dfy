// Report generation as a fixed three-step pipeline. A concrete report is
// the choice of its three hooks; `Generate` is the template method that
// composes them, and the end-of-day report's hooks all produce nothing yet.
module Reports {
  import opened Models

  /** A report: formatted rows. */
  type Report = seq<string>

  /** Intermediate rows between the pipeline steps. */
  type ReportData = seq<string>

  /** The three overridable steps of a concrete report. */
  datatype ReportHooks = ReportHooks(
    fetchData: ReportRequest -> ReportData,
    computeReport: ReportData -> ReportData,
    format: ReportData -> Report)

  /** One hook invocation, with the argument it received. */
  datatype PipelineStep =
    | FetchDataStep(request: ReportRequest)
    | ComputeReportStep(rawData: ReportData)
    | FormatStep(computedData: ReportData)

  /** What one `generate` did: the hooks it called, in order, and the report. */
  datatype Generation = Generation(steps: seq<PipelineStep>, report: Report)

  /** `generate`: fetch, then compute on what was fetched, then format what
      was computed, and return the formatted report unchanged. */
  function Generate(hooks: ReportHooks, request: ReportRequest): (g: Generation)
    ensures |g.steps| == 3
    ensures g.steps[0] == FetchDataStep(request)
    ensures g.steps[1] == ComputeReportStep(hooks.fetchData(request))
    ensures g.steps[2] == FormatStep(hooks.computeReport(hooks.fetchData(request)))
    ensures g.report == hooks.format(hooks.computeReport(hooks.fetchData(request)))
  {
    var rawData := hooks.fetchData(request);
    var computedData := hooks.computeReport(rawData);
    Generation([FetchDataStep(request), ComputeReportStep(rawData), FormatStep(computedData)],
               hooks.format(computedData))
  }

  /** Each hook is called exactly once, fetch first and format last. */
  lemma GenerateCallsEachHookOnce(hooks: ReportHooks, request: ReportRequest)
    ensures var steps := Generate(hooks, request).steps;
      && (forall i :: 0 <= i < |steps| && steps[i].FetchDataStep? ==> i == 0)
      && (forall i :: 0 <= i < |steps| && steps[i].ComputeReportStep? ==> i == 1)
      && (forall i :: 0 <= i < |steps| && steps[i].FormatStep? ==> i == 2)
  {
  }

  /** When fetching yields nothing and both later steps map nothing to
      nothing, the report is empty. */
  lemma EmptyDataProducesEmptyReport(hooks: ReportHooks, request: ReportRequest)
    requires hooks.fetchData(request) == []
    requires hooks.computeReport([]) == []
    requires hooks.format([]) == []
    ensures Generate(hooks, request).report == []
  {
  }

  function EndOfDayFetchData(request: ReportRequest): (rows: ReportData)
    ensures rows == []
  {
    []
  }

  function EndOfDayComputeReport(data: ReportData): (rows: ReportData)
    ensures rows == []
  {
    []
  }

  function EndOfDayFormat(data: ReportData): (report: Report)
    ensures report == []
  {
    []
  }

  /** The end-of-day report. */
  const EndOfDayReport: ReportHooks := ReportHooks(EndOfDayFetchData, EndOfDayComputeReport, EndOfDayFormat)

  /** Every end-of-day hook returns an empty collection whatever its input,
      so the end-of-day report is empty for every request. */
  lemma EndOfDayReportIsEmpty(request: ReportRequest, data: ReportData)
    ensures EndOfDayReport.fetchData(request) == []
    ensures EndOfDayReport.computeReport(data) == []
    ensures EndOfDayReport.format(data) == []
    ensures Generate(EndOfDayReport, request).report == []
  {
  }
}
