/** The messages of LSPS0 and LSPS2, as requests and responses. */
module Messages {
  import opened Types

  type Int32 = n: int | -0x8000_0000 <= n < 0x8000_0000

  datatype ResponseError = ResponseError(code: Int32, message: string, data: Option<string>)

  datatype Request =
    | ListProtocols
    | GetInfo(token: Option<string>)
    | Buy(openingFeeParams: OpeningFeeParams, paymentSizeMsat: Option<UInt64>)

  datatype Response =
    | ListProtocolsResult(protocols: seq<UInt16>)
    | ListProtocolsError(error: ResponseError)
    | GetInfoResult(openingFeeParamsMenu: seq<OpeningFeeParams>)
    | GetInfoError(error: ResponseError)
    | BuyResult(interceptScid: string, lspCltvExpiryDelta: UInt32, clientTrustsLsp: bool)
    | BuyError(error: ResponseError)

  datatype LSPSMessage =
    | Invalid(error: ResponseError)
    | RequestMessage(id: RequestId, request: Request)
    | ResponseMessage(id: RequestId, response: Response)

  datatype LSPSMethod = LSPS0ListProtocols | LSPS2GetInfo | LSPS2Buy

  const UNRECOGNIZED_OR_STALE_TOKEN: Int32 := 2
  const INVALID_OPENING_FEE_PARAMS: Int32 := 2
  const PAYMENT_SIZE_TOO_SMALL: Int32 := 3
  const PAYMENT_SIZE_TOO_LARGE: Int32 := 4

  /** An error response; its text is not modelled. */
  function ErrorOf(code: Int32): ResponseError { ResponseError(code, "", None) }

  /** The method that a request calls. */
  function MethodOf(request: Request): LSPSMethod {
    match request
    case ListProtocols => LSPS0ListProtocols
    case GetInfo(_) => LSPS2GetInfo
    case Buy(_, _) => LSPS2Buy
  }

  /** The method that a response answers. */
  function Answers(response: Response): LSPSMethod {
    match response
    case ListProtocolsResult(_) => LSPS0ListProtocols
    case ListProtocolsError(_) => LSPS0ListProtocols
    case GetInfoResult(_) => LSPS2GetInfo
    case GetInfoError(_) => LSPS2GetInfo
    case BuyResult(_, _, _) => LSPS2Buy
    case BuyError(_) => LSPS2Buy
  }
}
