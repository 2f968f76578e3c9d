# HFT server interface: framing, connection slot, command dispatch

This project models the core of a trading server's network and dispatch
layers and proves properties of the model.

- **Wire format** (`Framing`). Every message is a 4-byte big-endian length
  followed by that many payload bytes. `EncodeBE32`/`DecodeBE32` are the
  length codec and `Frame` is what `send` writes. `ReadFrame` is what
  `receive` reads off a byte stream, including the two short-read errors.
- **Transport** (`Transport`). `BoostAsioSslTransport` is a class with:
  - the running flag and whether the acceptor listens;
  - the single active-socket slot that `send` and `receive` use;
  - the sockets with an outstanding asynchronous accept or handshake.

  An `SslSocket` is two byte streams plus an open flag. `Send` and `Receive`
  are proved against `Frame` and `ReadFrame`. The accept and handshake
  completion handlers are methods the environment may call in any order, for
  any operation still outstanding. A handler may also run with the flag
  cleared, which models a handler that runs while `stop` is in progress.
  `TransportScenarios` drives whole connection lifecycles through the
  methods' contracts alone.
- **Commands and services** (`Models`, `Services`, `Commands`,
  `StubServices`). A service is a record of total functions. A function
  returns either a value or a thrown exception (`Outcome`). The four command
  adapters are one datatype, and `Execute` records the service calls it makes.
  The stub services return the fixed "not yet implemented" responses.
- **Registry** (`Registry`). `CommandRegistry` is a class holding
  `map<RequestType, Factory>`:
  - `RegisterCommand` updates the map in place.
  - `Create` is a read-only lookup, specified by the function `Lookup`.
- **Facade** (`Facade`). `HandleRequest` is the error boundary. It looks the
  command up in the facade's own copy of the registry and executes it. It
  turns every exception into a failure response, classified by the
  exception's kind.
  `StandardWiring`/`WireRegistry` is the registration sequence the server is
  bootstrapped with.
- **Reports** (`Reports`). `Generate` is the three-step template method. The
  end-of-day report's hooks all return empty collections.

C++ exceptions are explicit results:
- `Outcome` in the dispatch layer, with `out_of_range` distinguished from
  every other `std::exception`;
- `Status` in the transport, whose error cases name the `runtime_error`s
  and the bind failure that `start` can raise.

Integers are unbounded. The `static_cast<uint32_t>` of the buffer size in
`send` is written out as a remainder modulo 2^32.

## Model

| member | source | states |
|---|---|---|
| Framing.EncodeBE32 | src/transport/BoostAsioSslTransport.cpp:24-32 | four bytes, the first being the most significant byte of the value |
| Framing.DecodeEncode | src/transport/BoostAsioSslTransport.cpp:24-41 | decoding the encoding of every 32-bit value gives the value back |
| Framing.EncodeDecode | src/transport/BoostAsioSslTransport.cpp:35-41 | encoding the decoding of every 4-byte sequence gives the bytes back, so the codec is a bijection |
| Framing.DecodeBE32 | src/transport/BoostAsioSslTransport.cpp:35-41 | byte 0 is the most significant byte of the decoded value and byte 3 the least significant |
| Framing.Frame | src/transport/BoostAsioSslTransport.cpp:165-173 | the bytes send writes are a 4-byte header followed by exactly the buffer |
| Framing.ReadFrame | src/transport/BoostAsioSslTransport.cpp:192-218 | a successful read returns the bytes that follow the 4-byte header and leaves a suffix of the stream, all of it accounted for; a failed read leaves nothing |
| Framing.ReadFrameConsumesOneFrame | src/transport/BoostAsioSslTransport.cpp:192-218 | a successful receive consumes exactly 4 + L bytes, where L is the decoded header and fits in 32 bits, and those bytes are the frame of the returned payload |
| Framing.ReadFrameFailsOnlyWhenShort | src/transport/BoostAsioSslTransport.cpp:195-216 | the header read fails exactly when fewer than 4 bytes remain, and the payload read fails exactly when fewer than L remain after the header; a failure returns no partial buffer |
| Framing.ReadFrameOfFrame | src/transport/BoostAsioSslTransport.cpp:157-218 | receive applied to what send wrote returns the buffer, the empty buffer included, and leaves the bytes after the frame |
| Framing.ReadFrames | src/transport/BoostAsioSslTransport.cpp:184-219 | n successive receives give n results, the first being the frame read at the head of the stream |
| Framing.ReadFramesOfFrames | src/transport/BoostAsioSslTransport.cpp:157-219 | message boundaries are kept: as many receives as there were sends return the sent buffers one by one, in order, and leave exactly the bytes that followed |
| Framing.OversizedFrameDoesNotRoundTrip | src/transport/BoostAsioSslTransport.cpp:165 | a buffer of 2^32 bytes or more, whose size the cast truncates, does not read back as itself |
| Transport.ReceiveStatus | src/transport/BoostAsioSslTransport.cpp:199-218 | receive reports success exactly when the frame read succeeded |
| Transport.SslSocket.Write | src/transport/BoostAsioSslTransport.cpp:173-177 | a write on an open socket appends all the bytes, and on a closed one fails and writes nothing |
| Transport.SslSocket.ReadExactly | src/transport/BoostAsioSslTransport.cpp:195-199 | a read fills the buffer with the first bytes of the stream and consumes them, or fails when the stream is shorter than the buffer |
| Transport.SslSocket.Close | src/transport/BoostAsioSslTransport.cpp:137-138 | closing leaves the streams as they were and the socket not open |
| Transport.BoostAsioSslTransport.constructor | src/transport/BoostAsioSslTransport.cpp:48-70 | a new transport is stopped, not listening, with an empty slot and nothing outstanding |
| Transport.BoostAsioSslTransport.Start | src/transport/BoostAsioSslTransport.cpp:85-117 | start while running changes nothing; otherwise the flag is set; a bind failure is reported and arms no accept; a successful bind listens and arms exactly one accept on a new, unused socket |
| Transport.BoostAsioSslTransport.Stop | src/transport/BoostAsioSslTransport.cpp:123-151 | stop while stopped changes nothing; afterwards the transport is stopped, not listening and its slot is empty, and the socket that was active is closed |
| Transport.BoostAsioSslTransport.Send | src/transport/BoostAsioSslTransport.cpp:157-178 | with an empty slot, fails with no active connection and touches no stream; otherwise appends exactly Frame(buffer) to the active socket's output in one write, or fails when the connection is down |
| Transport.BoostAsioSslTransport.Receive | src/transport/BoostAsioSslTransport.cpp:184-219 | with an empty slot, fails with no active connection; otherwise its result and the stream left are those of ReadFrame on the active socket's input |
| Transport.BoostAsioSslTransport.AcceptNextConnection | src/transport/BoostAsioSslTransport.cpp:225-230 | one new, unused socket gets an outstanding accept; nothing else changes |
| Transport.BoostAsioSslTransport.DoHandshake | src/transport/BoostAsioSslTransport.cpp:256-260 | an outstanding handshake is added for the accepted socket; nothing else changes |
| Transport.BoostAsioSslTransport.OnAccept | src/transport/BoostAsioSslTransport.cpp:231-249 | the completed accept is no longer outstanding; success starts the handshake; failure, an aborted accept included, arms no new accept and closes the socket, whose last reference the handler held |
| Transport.BoostAsioSslTransport.OnHandshake | src/transport/BoostAsioSslTransport.cpp:260-283 | success puts the socket in the slot and closes the socket it replaces, whose last reference the slot held; failure leaves the slot and its socket unchanged and closes the socket whose handshake failed; either way exactly one new accept is armed while running and none when stopped |
| TransportScenarios.Connected | src/transport/BoostAsioSslTransport.cpp:85-283 | start, an accepted connection and a successful handshake leave that socket in the slot, unused, with the next accept armed |
| TransportScenarios.FramesReceivedInOrder | src/transport/BoostAsioSslTransport.cpp:184-219 | on a connected transport, receives return the peer's frames in order, the empty frame included, and consume exactly those frames |
| TransportScenarios.Loopback | src/transport/BoostAsioSslTransport.cpp:157-219 | what send writes, fed back to the peer's input, is received as the same buffer with nothing left over |
| TransportScenarios.SessionAfterStop | src/transport/BoostAsioSslTransport.cpp:123-189 | after stop, send and receive both fail with no active connection and the peer's socket is closed |
| TransportScenarios.SecondClientReplacesFirst | src/transport/BoostAsioSslTransport.cpp:274-277 | a second successful handshake takes over the slot and closes the first connection; sends go to the second client only |
| TransportScenarios.FailedHandshakeKeepsConnection | src/transport/BoostAsioSslTransport.cpp:262-269 | a failed handshake closes its own socket, keeps the current connection usable and re-arms exactly one accept |
| TransportScenarios.PeerGoneAway | src/transport/BoostAsioSslTransport.cpp:173-218 | after the peer goes away, a frame it sent before is still received, while a send fails and writes nothing |
| TransportScenarios.AcceptErrorEndsAcceptCycle | src/transport/BoostAsioSslTransport.cpp:233-239 | after an accept error the transport still runs and listens, with no accept or handshake outstanding |
| TransportScenarios.HandshakeCompletingAfterStop | src/transport/BoostAsioSslTransport.cpp:274-282 | a handshake handler that runs while stop is in progress, after the flag is cleared and the slot emptied, still fills the slot, and arms no accept |
| TransportScenarios.StartAfterFailedBind | src/transport/BoostAsioSslTransport.cpp:87-97 | after a failed bind the flag stays set, so a second start is a no-op that neither listens nor accepts |
| Commands.Execute | src/server/commands/GetMarketDataCommand.hpp:35-38 | each command makes exactly one service call, to its own service method with the stored request or report request, and returns that call's outcome verbatim |
| Commands.MarketDataIgnoresSubscriptions | src/server/commands/GetMarketDataCommand.hpp:35-38 | a market-data command never calls subscribe or unsubscribe, and its result does not depend on them |
| Commands.ManipulationIgnoresTransform | src/server/commands/ManipulationCommand.hpp:35-38 | a manipulation command calls manipulate, never transform, and its result does not depend on transform |
| Commands.ExecutePassesStoredParameters | src/server/commands/ReportCommand.hpp:31-41 | the one call carries exactly the parameters stored at construction: the request, or for a report the structured report request |
| StubServices.StubGetData | src/server/StubServices.hpp:41-44 | returns normally with success false, "MarketDataService: not yet implemented" and no data |
| StubServices.StubSubscribe | src/server/StubServices.hpp:46-49 | completes without failing |
| StubServices.StubUnsubscribe | src/server/StubServices.hpp:51-54 | completes without failing |
| StubServices.StubCalculate | src/server/StubServices.hpp:69-72 | returns normally with success false, "CalculationService: not yet implemented" and no data |
| StubServices.StubManipulate | src/server/StubServices.hpp:87-90 | returns normally with success false, "ManipulationService: not yet implemented" and no data |
| StubServices.StubTransform | src/server/StubServices.hpp:92-95 | returns normally with success false, "ManipulationService::transform: not yet implemented" and no data |
| StubServices.StubGenerateReport | src/server/StubServices.hpp:110-115 | returns normally with success false and no data; the message is "ReportService: not yet implemented for " followed by the report type, so it contains the report type |
| StubServices.StubsNeverSucceed | src/server/StubServices.hpp:41-115 | no stub response succeeds, each carries a non-empty message, and manipulate and transform are told apart |
| Reports.Generate | src/services/reports/BaseReport.cpp:8-17 | fetch, then compute on what was fetched, then format what was computed; the result is format(computeReport(fetchData(r))) |
| Reports.GenerateCallsEachHookOnce | src/services/reports/BaseReport.cpp:11-17 | each hook is called exactly once: fetch first, compute second, format last |
| Reports.EmptyDataProducesEmptyReport | src/services/reports/BaseReport.cpp:8-17 | when the fetch yields nothing and the later hooks map empty to empty, the report is empty |
| Reports.EndOfDayFetchData | src/services/reports/EndOfDayReport.cpp:8-18 | returns an empty collection whatever the request |
| Reports.EndOfDayComputeReport | src/services/reports/EndOfDayReport.cpp:20-26 | returns an empty collection whatever the input |
| Reports.EndOfDayFormat | src/services/reports/EndOfDayReport.cpp:28-34 | returns an empty report whatever the input |
| Reports.EndOfDayReportIsEmpty | src/services/reports/EndOfDayReport.cpp:8-34 | every end-of-day hook returns an empty collection for every input, so generating the report gives an empty report |
| Registry.CommandRegistry.constructor | include/server/CommandRegistry.hpp:38-64 | a new registry has no factories |
| Registry.CommandRegistry.RegisterCommand | src/server/CommandRegistry.cpp:10-12 | the tag now maps to the factory and every other tag keeps its entry |
| Registry.Lookup | src/server/CommandRegistry.cpp:27-32 | a registered tag hands the caller's request, unchanged, to its factory and gives back what the factory gives; an absent tag throws out_of_range "No command registered for the given RequestType" |
| Registry.CommandRegistry.Create | src/server/CommandRegistry.cpp:25-33 | the result is Lookup on the table; the registry is not modified |
| Registry.CreateAfterRegister | src/server/CommandRegistry.cpp:12-32 | after registering f for a tag, creating for a request of that tag is f applied to that very request |
| Registry.RegisterOverwrites | src/server/CommandRegistry.cpp:12 | registering the same tag twice keeps only the later factory |
| Registry.RegisterLeavesOtherTypes | src/server/CommandRegistry.cpp:12 | registering one tag leaves what every other tag creates unchanged |
| Registry.RegisterAll | src/server/CommandRegistry.cpp:10-12 | after a series of registrations the table keeps every tag it had and holds every tag registered |
| Registry.RegisterAllLeavesOtherTypes | src/server/CommandRegistry.cpp:12 | a tag that no registration in the series names creates exactly what it created before |
| Registry.LastRegistrationWins | tests/unit/test_CommandRegistry.cpp:63-78 | over any series of registrations, the last factory registered for a tag is the one create applies to the request |
| Registry.EmptyRegistryFails | src/server/CommandRegistry.cpp:27-31 | a fresh registry throws out_of_range "No command registered for the given RequestType" for every request |
| Registry.CreateFailsIffUnregistered | src/server/CommandRegistry.cpp:27-32 | when the factory for the request's tag, if any, does not throw, create throws exactly for unregistered tags |
| Registry.AllDefinedTypesRegistered | tests/unit/test_CommandRegistry.cpp:80-100 | with all four tags registered to non-throwing factories, create succeeds for each of them |
| Facade.NewTradingServerFacade | src/server/TradingServerFacade.cpp:10-22 | the facade stores the four services and a copy of the registry's table |
| Facade.Dispatch | src/server/TradingServerFacade.cpp:26-30 | an unregistered tag throws out_of_range; a normal return comes only from a command that was created and then executed normally, and is that command's outcome |
| Facade.ErrorResponse | src/server/TradingServerFacade.cpp:31-38 | every caught exception gives success false and no data; the message is "Unknown request type: " for out_of_range, and "Internal server error: " for any other exception, followed by the exception's own message |
| Facade.HandleRequest | src/server/TradingServerFacade.cpp:24-39 | a normally returned response comes back unchanged; every exception becomes success false with no data, and none escapes; a successful response is always the command's own |
| Facade.UnregisteredTypeResponse | src/server/TradingServerFacade.cpp:31-34 | an unregistered tag gives {false, "Unknown request type: No command registered for the given RequestType", no data} |
| Facade.SuccessfulDispatchPassesResponse | src/server/TradingServerFacade.cpp:28-29 | when the command is created and executes normally, its response is returned unchanged |
| Facade.ExceptionsClassifiedByKind | src/server/TradingServerFacade.cpp:26-38 | an out_of_range from a factory or from execute reads as an unknown request type, and any other exception as an internal server error with its message |
| Facade.ServicesNotConsulted | src/server/TradingServerFacade.cpp:24-39 | replacing the stored services does not change any response |
| Facade.EmptyRegistryFailsEveryRequest | tests/unit/test_TradingServerFacade.cpp:176-185 | with an empty registry every request fails with the unknown-type message, whatever services are present |
| Facade.StandardWiring | src/main.cpp:88-121 | the bootstrap registers exactly the four defined request types |
| Facade.WireRegistry | src/main.cpp:88-121 | registering the four factories one after another yields exactly the standard table |
| Facade.WiredDispatchReachesService | src/main.cpp:88-129 | with the standard wiring, each defined tag reaches its own service method and a response it returns comes back unchanged; any other tag gets the unknown-type response |
| Facade.ReportIgnoresRequestPayload | src/main.cpp:108-120 | the report parameters are fixed at wiring time, so the request's payload does not change a report response |
| Facade.StubFacadeNeverSucceeds | tests/unit/test_ServerBootstrap.cpp:129-218 | a facade wired to the stubs answers every request with success false, with the stub's own message for each of the four defined tags |

## Left out

- The TLS library and the network are not modelled. Endpoint parsing, the TLS context options, certificate loading, the handshake protocol and `TCP_NODELAY` are left out. A socket is two byte streams. Accept and handshake completions are methods carrying a success flag.
- Concurrency is not modelled: the io_context thread, the work guard, the socket mutex, and the atomic flag. The transport is sequential, and the completion handlers are called explicitly.
- Transport.BoostAsioSslTransport.Start: `open`, `set_option`, `bind` and `listen` are one success flag. Their thrown `system_error` is the `BindFailed` result. After a failed bind the flag stays set, and the model shows that as written, not as a recovery.
- Transport.BoostAsioSslTransport.Stop: stopping the io_context and joining its thread are not modelled, and neither is the destructor's call to `stop`. An accept or handshake still outstanding keeps its entry. The model lets its handler run after `stop` has returned, and after a later `start`. In the source the io_context is stopped and never restarted, so once `stop` returns no handler runs again, and an accept armed by a later `start` never completes.
- Transport.SslSocket.ReadExactly: a read that finds too few bytes fails at once and drains the stream, even on an open connection. The real `transfer_exactly` read blocks until the bytes arrive or the connection fails, with no timeout. Blocking is not modelled.
- Services are modelled as stateless functions, so executing the same command twice gets the same outcome. Stateful services, such as mocks that answer differently on later calls, are not modelled.
- Transport.SslSocket.Write: a write is all-or-nothing. A partially written frame after a mid-write error is not modelled.
- The texts of the transport's `runtime_error`s and `ec.message()` are not modelled. The errors are kinds (`NoActiveConnection`, `SendFailed`, `ReceiveFailed`, `BindFailed`).
- Transport.BoostAsioSslTransport.Receive: when a read runs out of bytes, it consumes whatever the stream held. What a real socket leaves after an error is not specified.
- Exceptions not derived from `std::exception` are not modelled. They would escape `handleRequest`, and `Outcome` has no way to express that.
- Commands.Execute: commands are closed to the four adapters. Commands defined only in tests can appear only through the abstract factories of the registry lemmas.
- All console logging, including that of the stub subscription methods, is not modelled.
- `main.cpp` argument parsing, signal handling and process startup are not modelled.
- The packed POD structs and the market-data header (floating point, byte layout) are not modelled.
- The declaration-only interface headers are not modelled. They appear only as the signatures of the service records and the report hooks.
