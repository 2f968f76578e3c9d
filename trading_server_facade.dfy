// The request dispatcher: the single entry point that turns a request into
// a response. It creates the command through its copy of the registry,
// executes it, and converts every exception into a failure response,
// classified by the exception's kind alone.
module Facade {
  import opened Models
  import opened Services
  import opened Commands
  import opened Registry
  import opened StubServices

  const UnknownRequestTypePrefix: string := "Unknown request type: "
  const InternalServerErrorPrefix: string := "Internal server error: "

  /** The facade's fields: the four injected services and the registry,
      which the constructor takes by value, so the facade owns a copy. */
  datatype TradingServerFacade = TradingServerFacade(
    marketDataService: MarketDataService,
    calculationService: CalculationService,
    manipulationService: ManipulationService,
    reportService: ReportService,
    registry: FactoryTable)

  /** The constructor: stores the services and a copy of the registry's
      table as it is at construction time. */
  method NewTradingServerFacade(marketDataService: MarketDataService, calculationService: CalculationService,
                                manipulationService: ManipulationService, reportService: ReportService,
                                registry: CommandRegistry)
    returns (facade: TradingServerFacade)
    ensures facade.registry == registry.factories
    ensures facade.marketDataService == marketDataService && facade.calculationService == calculationService
    ensures facade.manipulationService == manipulationService && facade.reportService == reportService
  {
    facade := TradingServerFacade(marketDataService, calculationService, manipulationService, reportService,
                                  registry.factories);
  }

  /** The body of the `try` block: create the command, then execute it.
      An exception from either stage ends it. */
  function Dispatch(registry: FactoryTable, request: Request): (r: Outcome<Response>)
    ensures request.requestType !in registry ==> r == Threw(OutOfRange(NoCommandRegistered))
    ensures r.Returned? ==>
      && request.requestType in registry
      && registry[request.requestType](request).Returned?
      && Execute(registry[request.requestType](request).value).outcome == r
  {
    match Lookup(registry, request)
    case Threw(e) => Threw(e)
    case Returned(command) => Execute(command).outcome
  }

  /** The two handlers: `out_of_range` first, any other exception second. */
  function ErrorResponse(e: Exception): (r: Response)
    ensures !r.success && r.data == []
    ensures var prefix := if e.OutOfRange? then UnknownRequestTypePrefix else InternalServerErrorPrefix;
      && |r.message| == |prefix| + |e.what|
      && r.message[..|prefix|] == prefix
      && r.message[|prefix|..] == e.what
  {
    match e
    case OutOfRange(what) => Response(false, UnknownRequestTypePrefix + what, [])
    case OtherException(what) => Response(false, InternalServerErrorPrefix + what, [])
  }

  /** `handleRequest`: a response that completed normally is returned
      unchanged; every exception becomes an unsuccessful response with no
      data, so none escapes. */
  function HandleRequest(facade: TradingServerFacade, request: Request): (r: Response)
    ensures Dispatch(facade.registry, request).Returned? ==> r == Dispatch(facade.registry, request).value
    ensures Dispatch(facade.registry, request).Threw? ==> !r.success && r.data == []
    ensures r.success ==> Dispatch(facade.registry, request) == Returned(r)
  {
    match Dispatch(facade.registry, request)
    case Returned(response) => response
    case Threw(e) => ErrorResponse(e)
  }

  /** A tag with no registered factory yields the fixed unknown-type
      response. */
  lemma UnregisteredTypeResponse(facade: TradingServerFacade, request: Request)
    requires request.requestType !in facade.registry
    ensures HandleRequest(facade, request)
         == Response(false, UnknownRequestTypePrefix + NoCommandRegistered, [])
  {
  }

  /** If the command is created and executes normally, its response is what
      the caller gets. */
  lemma SuccessfulDispatchPassesResponse(facade: TradingServerFacade, request: Request, command: Command)
    requires request.requestType in facade.registry
    requires facade.registry[request.requestType](request) == Returned(command)
    requires Execute(command).outcome.Returned?
    ensures HandleRequest(facade, request) == Execute(command).outcome.value
  {
  }

  /** Exceptions are classified by kind, whichever stage raised them: an
      `out_of_range` from a factory or from `execute` reads as an unknown
      request type, any other exception as an internal server error. */
  lemma ExceptionsClassifiedByKind(facade: TradingServerFacade, request: Request, e: Exception)
    requires request.requestType in facade.registry
    requires var created := facade.registry[request.requestType](request);
      created == Threw(e) || (created.Returned? && Execute(created.value).outcome == Threw(e))
    ensures e.OutOfRange? ==> HandleRequest(facade, request) == Response(false, UnknownRequestTypePrefix + e.what, [])
    ensures e.OtherException? ==>
      HandleRequest(facade, request) == Response(false, InternalServerErrorPrefix + e.what, [])
  {
  }

  /** `handleRequest` never reads the stored services: replacing them changes
      nothing, since dispatch goes through the registry alone. */
  lemma ServicesNotConsulted(facade: TradingServerFacade, request: Request,
                             marketDataService: MarketDataService, calculationService: CalculationService,
                             manipulationService: ManipulationService, reportService: ReportService)
    ensures HandleRequest(facade, request)
         == HandleRequest(facade.(marketDataService := marketDataService, calculationService := calculationService,
                                  manipulationService := manipulationService, reportService := reportService),
                          request)
  {
  }

  /** So a facade with an empty registry fails every request, whatever
      services it holds. */
  lemma EmptyRegistryFailsEveryRequest(facade: TradingServerFacade, request: Request)
    requires facade.registry == map[]
    ensures !HandleRequest(facade, request).success
    ensures HandleRequest(facade, request).message == UnknownRequestTypePrefix + NoCommandRegistered
  {
  }

  // The wiring the server is assembled with: each defined tag gets a factory
  // that binds the matching service; the report factory ignores the request
  // and binds report parameters fixed when the registry is wired.

  function MarketDataFactory(service: MarketDataService): (factory: Factory) {
    (request: Request) => Returned(GetMarketDataCommand(service, request))
  }

  function CalculationFactory(service: CalculationService): (factory: Factory) {
    (request: Request) => Returned(CalculationCommand(service, request))
  }

  function ManipulationFactory(service: ManipulationService): (factory: Factory) {
    (request: Request) => Returned(ManipulationCommand(service, request))
  }

  function ReportFactory(service: ReportService, reportRequest: ReportRequest): (factory: Factory) {
    (request: Request) => Returned(ReportCommand(service, reportRequest))
  }

  function StandardWiring(marketDataService: MarketDataService, calculationService: CalculationService,
                          manipulationService: ManipulationService, reportService: ReportService,
                          reportRequest: ReportRequest): (table: FactoryTable)
    ensures table.Keys == DefinedRequestTypes
  {
    map[GetMarketData := MarketDataFactory(marketDataService),
        Calculate := CalculationFactory(calculationService),
        Manipulate := ManipulationFactory(manipulationService),
        GenerateReport := ReportFactory(reportService, reportRequest)]
  }

  /** Registers the four factories one after another, as the bootstrap
      code does. */
  method WireRegistry(marketDataService: MarketDataService, calculationService: CalculationService,
                      manipulationService: ManipulationService, reportService: ReportService,
                      reportRequest: ReportRequest)
    returns (registry: CommandRegistry)
    ensures fresh(registry)
    ensures registry.factories
         == StandardWiring(marketDataService, calculationService, manipulationService, reportService, reportRequest)
  {
    registry := new CommandRegistry();
    registry.RegisterCommand(GetMarketData, MarketDataFactory(marketDataService));
    registry.RegisterCommand(Calculate, CalculationFactory(calculationService));
    registry.RegisterCommand(Manipulate, ManipulationFactory(manipulationService));
    registry.RegisterCommand(GenerateReport, ReportFactory(reportService, reportRequest));
  }

  /** With the standard wiring, each defined tag reaches its own service
      method, and a response that service returns comes back unchanged. */
  lemma WiredDispatchReachesService(marketDataService: MarketDataService, calculationService: CalculationService,
                                    manipulationService: ManipulationService, reportService: ReportService,
                                    reportRequest: ReportRequest, request: Request)
    ensures var facade := TradingServerFacade(marketDataService, calculationService, manipulationService,
                                              reportService,
                                              StandardWiring(marketDataService, calculationService,
                                                             manipulationService, reportService, reportRequest));
      var r := HandleRequest(facade, request);
      && (request.requestType == GetMarketData && marketDataService.getData(request).Returned? ==>
            r == marketDataService.getData(request).value)
      && (request.requestType == Calculate && calculationService.calculate(request).Returned? ==>
            r == calculationService.calculate(request).value)
      && (request.requestType == Manipulate && manipulationService.manipulate(request).Returned? ==>
            r == manipulationService.manipulate(request).value)
      && (request.requestType == GenerateReport && reportService.generateReport(reportRequest).Returned? ==>
            r == reportService.generateReport(reportRequest).value)
      && (request.requestType !in DefinedRequestTypes ==>
            r == Response(false, UnknownRequestTypePrefix + NoCommandRegistered, []))
  {
  }

  /** The report parameters are fixed when the registry is wired: the
      incoming request's payload has no influence on a report request. */
  lemma ReportIgnoresRequestPayload(facade: TradingServerFacade, reportService: ReportService,
                                    reportRequest: ReportRequest, request: Request, payload: seq<byte>)
    requires request.requestType == GenerateReport
    requires facade.registry == facade.registry[GenerateReport := ReportFactory(reportService, reportRequest)]
    ensures HandleRequest(facade, request) == HandleRequest(facade, request.(payload := payload))
  {
  }

  /** The server as bootstrapped: every service is a stub. */
  function StubFacade(reportRequest: ReportRequest): (facade: TradingServerFacade) {
    TradingServerFacade(StubMarketDataService, StubCalculationService, StubManipulationService, StubReportService,
                        StandardWiring(StubMarketDataService, StubCalculationService, StubManipulationService,
                                       StubReportService, reportRequest))
  }

  /** Wired to the stubs, the server answers every request, of any tag,
      with an unsuccessful response; for the four defined tags that
      response is the stub's own. */
  lemma StubFacadeNeverSucceeds(reportRequest: ReportRequest, request: Request)
    ensures !HandleRequest(StubFacade(reportRequest), request).success
    ensures request.requestType == GetMarketData ==>
      HandleRequest(StubFacade(reportRequest), request).message == MarketDataNotImplemented
    ensures request.requestType == Calculate ==>
      HandleRequest(StubFacade(reportRequest), request).message == CalculationNotImplemented
    ensures request.requestType == Manipulate ==>
      HandleRequest(StubFacade(reportRequest), request).message == ManipulationNotImplemented
    ensures request.requestType == GenerateReport ==>
      Contains(HandleRequest(StubFacade(reportRequest), request).message, reportRequest.reportType)
  {
    WiredDispatchReachesService(StubMarketDataService, StubCalculationService, StubManipulationService,
                                StubReportService, reportRequest, request);
  }
}
