// The executable commands: one adapter per request type, each bound at
// construction to one service and to the parameters it will pass, and each
// executing by exactly one delegating call whose result it returns verbatim.
module Commands {
  import opened Models
  import opened Services

  /** A constructed command. The three request-driven commands keep a copy of
      the request they were built from; the report command keeps the
      structured report parameters it was given instead. */
  datatype Command =
    | GetMarketDataCommand(marketData: MarketDataService, request: Request)
    | CalculationCommand(calculation: CalculationService, request: Request)
    | ManipulationCommand(manipulation: ManipulationService, request: Request)
    | ReportCommand(reports: ReportService, reportRequest: ReportRequest)

  /** What one `execute()` did: the service calls it made, in order, and its
      own outcome (a response, or the exception the service threw). */
  datatype Execution = Execution(calls: seq<ServiceCall>, outcome: Outcome<Response>)

  /** `execute()`: one call into the bound service with the stored
      parameters; the service's outcome is passed through unchanged. */
  function Execute(command: Command): (e: Execution)
    ensures |e.calls| == 1
    ensures command.GetMarketDataCommand? ==>
      e.calls[0] == GetData(command.request) && e.outcome == command.marketData.getData(command.request)
    ensures command.CalculationCommand? ==>
      e.calls[0] == CalculateCall(command.request) && e.outcome == command.calculation.calculate(command.request)
    ensures command.ManipulationCommand? ==>
      e.calls[0] == ManipulateCall(command.request) && e.outcome == command.manipulation.manipulate(command.request)
    ensures command.ReportCommand? ==>
      e.calls[0] == GenerateReportCall(command.reportRequest)
      && e.outcome == command.reports.generateReport(command.reportRequest)
  {
    match command
    case GetMarketDataCommand(service, request) =>
      Execution([GetData(request)], service.getData(request))
    case CalculationCommand(service, request) =>
      Execution([CalculateCall(request)], service.calculate(request))
    case ManipulationCommand(service, request) =>
      Execution([ManipulateCall(request)], service.manipulate(request))
    case ReportCommand(service, reportRequest) =>
      Execution([GenerateReportCall(reportRequest)], service.generateReport(reportRequest))
  }

  /** A market-data command never calls subscribe or unsubscribe: what it does
      is the same whatever those two methods do. */
  lemma MarketDataIgnoresSubscriptions(service: MarketDataService, request: Request,
                                       subscribe: string -> Outcome<()>, unsubscribe: string -> Outcome<()>)
    ensures Execute(GetMarketDataCommand(service, request))
         == Execute(GetMarketDataCommand(service.(subscribe := subscribe, unsubscribe := unsubscribe), request))
    ensures forall call <- Execute(GetMarketDataCommand(service, request)).calls ::
      !call.Subscribe? && !call.Unsubscribe?
  {
  }

  /** A manipulation command calls `manipulate`, never `transform`. */
  lemma ManipulationIgnoresTransform(service: ManipulationService, request: Request,
                                     transform: Request -> Outcome<Response>)
    ensures Execute(ManipulationCommand(service, request))
         == Execute(ManipulationCommand(service.(transform := transform), request))
    ensures forall call <- Execute(ManipulationCommand(service, request)).calls :: !call.TransformCall?
  {
  }

  /** The argument passed to the service is the request (or report request)
      stored at construction, so executing the same command twice makes the
      same call. */
  lemma ExecutePassesStoredParameters(command: Command)
    ensures command.GetMarketDataCommand? || command.CalculationCommand? || command.ManipulationCommand? ==>
      Execute(command).calls[0].request == command.request
    ensures command.ReportCommand? ==> Execute(command).calls[0].reportRequest == command.reportRequest
  {
  }
}
