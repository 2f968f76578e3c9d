// The four service interfaces the commands call into. A service is a record
// of its methods, each a total function from its argument to what the call
// does: return a value or throw. Implementations are supplied from outside
// (the stubs in StubServices, or any other function values).
module Services {
  import opened Models

  datatype MarketDataService = MarketDataService(
    getData: Request -> Outcome<Response>,
    subscribe: string -> Outcome<()>,
    unsubscribe: string -> Outcome<()>)

  datatype CalculationService = CalculationService(
    calculate: Request -> Outcome<Response>)

  datatype ManipulationService = ManipulationService(
    manipulate: Request -> Outcome<Response>,
    transform: Request -> Outcome<Response>)

  datatype ReportService = ReportService(
    generateReport: ReportRequest -> Outcome<Response>)

  /** One call into a service method, with its argument: what a command is
      observed to do when it executes. */
  datatype ServiceCall =
    | GetData(request: Request)
    | Subscribe(symbol: string)
    | Unsubscribe(symbol: string)
    | CalculateCall(request: Request)
    | ManipulateCall(request: Request)
    | TransformCall(request: Request)
    | GenerateReportCall(reportRequest: ReportRequest)
}
