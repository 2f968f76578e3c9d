// Value types shared by the server layers: the request-type tag, the request
// and response records, the report parameters, and the way a C++ exception
// becomes an explicit result.
module Models {

  /** An unsigned 8-bit value (`uint8_t`). */
  type byte = x: int | 0 <= x < 0x100

  /** An unsigned 32-bit value (`uint32_t`). */
  type uint32 = x: int | 0 <= x < 0x1_0000_0000

  /** `RequestType` is an `enum class : uint32_t`: any 32-bit value can be
      carried by a request, and four of them are named. */
  type RequestType = uint32

  const GetMarketData: RequestType := 0
  const Calculate: RequestType := 1
  const Manipulate: RequestType := 2
  const GenerateReport: RequestType := 3

  /** The four tags the server defines. */
  const DefinedRequestTypes: set<RequestType> := {GetMarketData, Calculate, Manipulate, GenerateReport}

  /** A decoded client request: its type tag and an opaque payload. */
  datatype Request = Request(requestType: RequestType, payload: seq<byte>)

  /** The reply to a request. */
  datatype Response = Response(success: bool, message: string, data: seq<byte>)

  /** Structured parameters of a report. */
  datatype ReportRequest = ReportRequest(reportType: string, dateFrom: string, dateTo: string)

  /** A `std::exception` the server code can observe, split the way the
      dispatcher's handlers split them: `std::out_of_range` and any other. */
  datatype Exception = OutOfRange(what: string) | OtherException(what: string)

  /** The outcome of a call that either returns a value or throws. */
  datatype Outcome<+T> = Returned(value: T) | Threw(exception: Exception)
}
