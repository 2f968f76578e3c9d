// The placeholder services the server is wired with: every request-handling
// method completes normally with a failure response, and the subscription
// methods do nothing.
module StubServices {
  import opened Models
  import opened Services

  const MarketDataNotImplemented: string := "MarketDataService: not yet implemented"
  const CalculationNotImplemented: string := "CalculationService: not yet implemented"
  const ManipulationNotImplemented: string := "ManipulationService: not yet implemented"
  const TransformNotImplemented: string := "ManipulationService::transform: not yet implemented"
  const ReportNotImplementedFor: string := "ReportService: not yet implemented for "

  /** `s` occurs in `text` starting at index `i`. */
  ghost predicate OccursAt(text: string, s: string, i: int) {
    0 <= i <= |text| - |s| && text[i..i + |s|] == s
  }

  /** `s` occurs in `text` as a contiguous run (`text.find(s) != npos`). */
  ghost predicate Contains(text: string, s: string) {
    exists i :: OccursAt(text, s, i)
  }

  /** A normal return of an unsuccessful response with no data. */
  ghost predicate FailsWith(outcome: Outcome<Response>, message: string) {
    outcome == Returned(Response(false, message, []))
  }

  function StubGetData(request: Request): (r: Outcome<Response>)
    ensures FailsWith(r, MarketDataNotImplemented)
  {
    Returned(Response(false, MarketDataNotImplemented, []))
  }

  function StubSubscribe(symbol: string): (r: Outcome<()>)
    ensures r.Returned?
  {
    Returned(())
  }

  function StubUnsubscribe(symbol: string): (r: Outcome<()>)
    ensures r.Returned?
  {
    Returned(())
  }

  function StubCalculate(request: Request): (r: Outcome<Response>)
    ensures FailsWith(r, CalculationNotImplemented)
  {
    Returned(Response(false, CalculationNotImplemented, []))
  }

  function StubManipulate(request: Request): (r: Outcome<Response>)
    ensures FailsWith(r, ManipulationNotImplemented)
  {
    Returned(Response(false, ManipulationNotImplemented, []))
  }

  function StubTransform(request: Request): (r: Outcome<Response>)
    ensures FailsWith(r, TransformNotImplemented)
  {
    Returned(Response(false, TransformNotImplemented, []))
  }

  /** The report stub names the requested report type in its message. */
  function StubGenerateReport(request: ReportRequest): (r: Outcome<Response>)
    ensures r.Returned? && !r.value.success && r.value.data == []
    ensures Contains(r.value.message, request.reportType)
    ensures |r.value.message| == |ReportNotImplementedFor| + |request.reportType|
    ensures r.value.message[..|ReportNotImplementedFor|] == ReportNotImplementedFor
    ensures r.value.message[|ReportNotImplementedFor|..] == request.reportType
  {
    var message := ReportNotImplementedFor + request.reportType;
    assert OccursAt(message, request.reportType, |ReportNotImplementedFor|);
    Returned(Response(false, message, []))
  }

  const StubMarketDataService: MarketDataService := MarketDataService(StubGetData, StubSubscribe, StubUnsubscribe)
  const StubCalculationService: CalculationService := CalculationService(StubCalculate)
  const StubManipulationService: ManipulationService := ManipulationService(StubManipulate, StubTransform)
  const StubReportService: ReportService := ReportService(StubGenerateReport)

  /** No stub ever reports success, and every failure message is non-empty;
      the two manipulation methods are told apart by their messages. */
  lemma StubsNeverSucceed(request: Request, reportRequest: ReportRequest)
    ensures var r := StubMarketDataService.getData(request); r.Returned? && !r.value.success && r.value.message != []
    ensures var r := StubCalculationService.calculate(request); r.Returned? && !r.value.success && r.value.message != []
    ensures var r := StubManipulationService.manipulate(request); r.Returned? && !r.value.success && r.value.message != []
    ensures var r := StubManipulationService.transform(request); r.Returned? && !r.value.success && r.value.message != []
    ensures var r := StubReportService.generateReport(reportRequest); r.Returned? && !r.value.success && r.value.message != []
    ensures StubManipulationService.manipulate(request) != StubManipulationService.transform(request)
  {
    assert |StubReportService.generateReport(reportRequest).value.message| >= |ReportNotImplementedFor|;
    assert ManipulationNotImplemented[22] != TransformNotImplemented[22];
  }
}
