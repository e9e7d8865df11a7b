/** The small part of the Python runtime that the handlers' observable behaviour
    depends on: optional values (`dict.get` returning None), the exceptions that
    can escape a handler, and `str()` of an optional string as an f-string
    applies it. */
module Runtime {

  datatype Option<+T> = None | Some(value: T)

  /** Why an HTTP exchange raised a `requests.exceptions.RequestException`:
      the exchange itself failed, or `raise_for_status` raised an `HTTPError`. */
  datatype RequestError =
    | ConnectionFailure(reason: string)
    | HTTPError(status: int)

  /** The exceptions that can leave one of the modelled handlers. */
  datatype Exception =
    | PaymentException(message: string, details: RequestError)
    | PaymentStatusException(message: string, details: RequestError)
    | AttributeError      // a method called on None (`None.replace`, `None.get`)
    | ParseError          // `xml.etree.ElementTree.fromstring` on text that is not XML
    | KeyError            // a missing key in the SNS event
    | IndexError          // an empty `Records` list
    | JSONDecodeError     // `json.loads` on text that is not JSON
    | ParamValidationError  // botocore's client-side check of a request parameter
    | ClientError(code: string)  // an error returned by an AWS service

  /** What a Python call does: return a value or raise. */
  datatype Outcome<+T> = Returned(value: T) | Raised(exception: Exception)

  /** `str(v)` for a value that is a string or None, as an f-string
      interpolation renders it. */
  function Str(v: Option<string>): string
  {
    match v
    case Some(x) => x
    case None => "None"
  }
}
