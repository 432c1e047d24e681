/** `NetworkService`: classifying a transport's answer into data or a
    `NetworkError`, and the `load` pipeline around it. The transport itself
    (a URL session) is a parameter of the model. */
module NetworkService {
  import opened Wrappers
  import opened NetworkErrors
  import opened Requests

  /** The response a transport hands back: an HTTP response with its status
      code and optional URL, or a response of any other kind. */
  datatype UrlResponse =
    | HttpResponse(statusCode: int, url: Option<string>)
    | OtherResponse

  /** The single outcome of one data task. */
  datatype Transport =
    | Delivered(data: seq<byte>, response: UrlResponse)
    | TransportFailed(error: AnyError)

  /** Status-code classes of section 15 of RFC 9110. */
  datatype StatusClass = Informational | Successful | Redirection | ClientError | ServerFault | Unassigned

  function ClassOf(status: int): StatusClass {
    if 100 <= status <= 199 then Informational
    else if 200 <= status <= 299 then Successful
    else if 300 <= status <= 399 then Redirection
    else if 400 <= status <= 499 then ClientError
    else if 500 <= status <= 599 then ServerFault
    else Unassigned
  }

  /** `handleResponse`: a 2xx answer passes its data through, 400 is a bad
      request naming the response URL, 500 is a server error, any other
      status is `Custom` with that status, and a non-HTTP response is `Unknown`. */
  function HandleResponse(data: seq<byte>, response: UrlResponse): (r: Result<seq<byte>, NetworkError>)
    ensures r.Success? <==> response.HttpResponse? && ClassOf(response.statusCode) == Successful
    ensures r.Success? ==> r.value == data
    ensures response.OtherResponse? ==> r == Failure(Unknown)
    ensures response.HttpResponse? && response.statusCode == 400 ==>
      r == Failure(BadRequest(response.url.GetOr("")))
    ensures response.HttpResponse? && response.statusCode == 500 ==> r == Failure(ServerError)
    ensures response.HttpResponse? && r.Failure? && response.statusCode != 400 && response.statusCode != 500 ==>
      r == Failure(Custom("error", response.statusCode))
  {
    match response
    case HttpResponse(status, url) =>
      if 200 <= status <= 299 then Success(data)
      else if status == 400 then Failure(BadRequest(url.GetOr("")))
      else if status == 500 then Failure(ServerError)
      else Failure(Custom("error", status))
    case OtherResponse => Failure(Unknown)
  }

  /** Read against the status classes of RFC 9110: only the Successful class
      yields data; in the Client Error and Server Error classes exactly 400
      and 500 get their own cases; every informational, redirection or
      unassigned status ends up as `Custom` carrying the status. */
  lemma ClassifierByStatusClass(data: seq<byte>, status: int, url: Option<string>)
    ensures var r := HandleResponse(data, HttpResponse(status, url));
      && (ClassOf(status) == Successful <==> r == Success(data))
      && (ClassOf(status) == ClientError ==>
            if status == 400 then r.error.BadRequest? else r.error == Custom("error", status))
      && (ClassOf(status) == ServerFault ==>
            if status == 500 then r.error == ServerError else r.error == Custom("error", status))
      && (ClassOf(status) in {Informational, Redirection, Unassigned} ==> r.error == Custom("error", status))
  {
  }

  /** For a status without a case of its own, the message shown to the user
      reads back as that status and the message "error". */
  lemma UnclassifiedStatusMessage(data: seq<byte>, status: int, url: Option<string>)
    requires ClassOf(status) != Successful && status != 400 && status != 500
    ensures var r := HandleResponse(data, HttpResponse(status, url));
      r.Failure? && ParseCustom(Description(r.error).value) == Some((status, "error"))
  {
    CustomDescriptionRoundTrip("error", status);
  }

  // URL-loading error codes (`URLError.Code` raw values).
  const NotConnectedToInternet: int := -1009
  const NetworkConnectionLost: int := -1005
  const BadServerResponse: int := -1011

  /** `resolve(error:)`: maps any error raised along the pipeline into the taxonomy. */
  function Resolve(err: AnyError): (r: NetworkError)
    ensures err.Network? ==> r == err.error
    ensures err.Foreign? ==> r != Unknown
    ensures err.Foreign? ==> (r == Offline <==> err.code == NotConnectedToInternet || err.code == NetworkConnectionLost)
    ensures err.Foreign? && err.code == BadServerResponse ==> r == BadRequest(err.description)
    ensures err.Foreign? && err.code !in {NotConnectedToInternet, NetworkConnectionLost, BadServerResponse} ==>
      r == Custom(err.description, err.code)
  {
    match err
    case Network(e) => e
    case Foreign(code, description) =>
      if code == NotConnectedToInternet || code == NetworkConnectionLost then Offline
      else if code == BadServerResponse then BadRequest(description)
      else Custom(description, code)
  }

  /** Resolving an already resolved error changes nothing. */
  lemma ResolveIdempotent(err: AnyError)
    ensures Resolve(Network(Resolve(err))) == Resolve(err)
  {
  }

  /** Losing connectivity resolves to `Offline` whatever the message says. */
  lemma OfflineIgnoresDescription(code: int, d1: string, d2: string)
    requires Resolve(Foreign(code, d1)) == Offline
    ensures Resolve(Foreign(code, d2)) == Offline
  {
  }

  /** `resolve` agrees with `asErrorNetworkService` on `NetworkError` values
      and, unlike it, never turns a foreign error into `Unknown`. */
  lemma ResolveRefinesAsNetworkError(err: AnyError)
    ensures err.Network? ==> Resolve(err) == AsNetworkError(err)
    ensures err.Foreign? ==> AsNetworkError(err) == Unknown && Resolve(err) != Unknown
  {
  }

  /** The data task's `tryMap(handleResponse)` followed by `mapError(resolve)`. */
  function Deliver(t: Transport): (r: Result<seq<byte>, NetworkError>)
    ensures t.TransportFailed? ==> r == Failure(Resolve(t.error))
  {
    match t
    case Delivered(data, response) =>
      (match HandleResponse(data, response)
       case Success(d) => Success(d)
       case Failure(e) => Failure(Resolve(Network(e))))
    case TransportFailed(err) => Failure(Resolve(err))
  }

  /** `mapError(resolve)` leaves every classifier outcome as it was. */
  lemma DeliverKeepsClassification(data: seq<byte>, response: UrlResponse)
    ensures Deliver(Delivered(data, response)) == HandleResponse(data, response)
  {
  }

  /** `load`: build the request, hand it to the session and classify the
      answer. A build that throws makes `load` fail with `Unknown`, never
      with the error the build raised. */
  method Load(e: Endpoint, session: UrlRequest -> Transport) returns (r: Result<seq<byte>, NetworkError>)
    requires ValidScheme(Scheme(e))
    ensures !PathFitsAuthority(Some(e.host), e.path) ==> r == Failure(Unknown)
    ensures PathFitsAuthority(Some(e.host), e.path) ==>
      exists req :: Built(e, Success(req)) && r == Deliver(session(req))
  {
    var built := Build(e);
    match built
    case Failure(_) =>
      r := Failure(Unknown);
    case Success(req) =>
      r := Deliver(session(req));
  }
}
