/** The closed error taxonomy of the networking layer, its user-facing
    messages, and the conversion of an arbitrary error into it. */
module NetworkErrors {
  import opened Wrappers
  import opened Decimal
  import opened Strings

  /** Every failure the networking layer reports. `Decoding` carries the text
      that interpolating the underlying decoder error produces. */
  datatype NetworkError =
    | ServerError
    | BadRequest(detail: string)
    | URLFailure
    | Decoding(cause: string)
    | Offline
    | Custom(message: string, code: int)
    | Unknown

  /** A Swift `Error` value: either a `NetworkError`, or a foreign error seen
      through its bridged `NSError` code and its localized description. */
  datatype AnyError =
    | Network(error: NetworkError)
    | Foreign(code: int, description: string)

  const UnknownText: string := "An unknown error occurred."
  const BadRequestPrefix: string := "Request is invalid. "
  const ServerErrorText: string := "Server encountered a problem." + ['\n'] + "Please try again in a moment!"
  const OfflineText: string := "Your Internet connection is offline." + ['\n'] + "Please check your network status."
  const URLFailureText: string := "URL not valid"
  const DecodingPrefix: string := "Failed to Decoding "
  const CustomSeparator: string := ", "

  /** `errorDescription`: typed `String?`, but every case yields a message. */
  function Description(e: NetworkError): (r: Option<string>)
    ensures r.Some?
    ensures 1 <= |r.value|
  {
    match e
    case Unknown => Some(UnknownText)
    case Custom(message, status) => Some(DecimalString(status) + CustomSeparator + message)
    case BadRequest(parameters) => Some(BadRequestPrefix + parameters)
    case ServerError => Some(ServerErrorText)
    case Offline => Some(OfflineText)
    case URLFailure => Some(URLFailureText)
    case Decoding(cause) => Some(DecodingPrefix + cause)
  }

  /** `Error.asErrorNetworkService`: a `NetworkError` is kept, anything else is `Unknown`. */
  function AsNetworkError(err: AnyError): (r: NetworkError)
    ensures err.Network? ==> r == err.error
    ensures err.Foreign? ==> r == Unknown
  {
    if err.Network? then err.error else Unknown
  }

  /** Converting an already converted error changes nothing, and a
      `NetworkError` survives the trip through `Error` unchanged. */
  lemma AsNetworkErrorIdempotent(err: AnyError, e: NetworkError)
    ensures AsNetworkError(Network(AsNetworkError(err))) == AsNetworkError(err)
    ensures AsNetworkError(Network(e)) == e
  {
  }

  // ---------------------------------------------------------------------
  // Reading a message back

  /** Splits `"<status>, <message>"` into its status code and message. */
  function ParseCustom(s: string): Option<(int, string)> {
    match SplitAtComma(s)
    case Some((digits, message)) =>
      (match ParseDecimal(digits)
       case Some(code) => Some((code, message))
       case None => None)
    case None => None
  }

  /** Recovers the error a message was rendered from. */
  function ParseDescription(s: string): Option<NetworkError> {
    if s == UnknownText then Some(Unknown)
    else if s == ServerErrorText then Some(ServerError)
    else if s == OfflineText then Some(Offline)
    else if s == URLFailureText then Some(URLFailure)
    else if HasPrefix(s, BadRequestPrefix) then Some(BadRequest(s[|BadRequestPrefix|..]))
    else if HasPrefix(s, DecodingPrefix) then Some(Decoding(s[|DecodingPrefix|..]))
    else match ParseCustom(s)
      case Some((code, message)) => Some(Custom(message, code))
      case None => None
  }

  /** A `Custom` message is the decimal status, `", "`, then the message,
      and both halves can be read back from it. */
  lemma {:induction false} CustomDescriptionRoundTrip(message: string, status: int)
    ensures Description(Custom(message, status)).value == DecimalString(status) + CustomSeparator + message
    ensures ParseCustom(Description(Custom(message, status)).value) == Some((status, message))
  {
    var digits := DecimalString(status);
    assert ',' !in digits;
    SplitAtCommaJoin(digits, message);
    DecimalRoundTrip(status);
  }

  /** The reader of `Custom` messages accepts exactly the messages `Custom`
      renders: a string reads as a status and a message if and only if it
      is their rendering, so `"017, m"` and `"-0, m"` are rejected. */
  lemma ParseCustomExact(s: string, message: string, status: int)
    ensures ParseCustom(s) == Some((status, message)) <==> s == Description(Custom(message, status)).value
  {
    CustomDescriptionRoundTrip(message, status);
    if ParseCustom(s) == Some((status, message)) {
      var (digits, rest) := SplitAtComma(s).value;
      ParseDecimalExact(digits, status);
    }
  }

  /** Every message reads back as the error it was rendered from. */
  lemma {:induction false} DescriptionRoundTrip(e: NetworkError)
    ensures ParseDescription(Description(e).value) == Some(e)
  {
    var s := Description(e).value;
    match e {
      case BadRequest(p) =>
        assert s[0] == 'R';
        assert UnknownText[0] == 'A' && ServerErrorText[0] == 'S';
        assert OfflineText[0] == 'Y' && URLFailureText[0] == 'U';
        assert s[..|BadRequestPrefix|] == BadRequestPrefix;
        assert s[|BadRequestPrefix|..] == p;
      case Decoding(cause) =>
        assert s[0] == 'F';
        assert UnknownText[0] == 'A' && ServerErrorText[0] == 'S';
        assert OfflineText[0] == 'Y' && URLFailureText[0] == 'U';
        assert s[..|DecodingPrefix|] == DecodingPrefix;
        assert s[|DecodingPrefix|..] == cause;
      case Custom(message, status) =>
        var digits := DecimalString(status);
        assert s == digits + CustomSeparator + message;
        assert s[0] == digits[0];
        assert s[0] == '-' || IsDigit(s[0]);
        assert UnknownText[0] == 'A' && ServerErrorText[0] == 'S';
        assert OfflineText[0] == 'Y' && URLFailureText[0] == 'U';
        assert BadRequestPrefix[0] == 'R' && DecodingPrefix[0] == 'F';
        assert s != UnknownText && s != ServerErrorText && s != OfflineText && s != URLFailureText;
        assert !HasPrefix(s, BadRequestPrefix) && !HasPrefix(s, DecodingPrefix);
        CustomDescriptionRoundTrip(message, status);
      case _ =>
    }
  }

  /** Different errors never share a message; in particular the fixed
      messages of `Unknown`, `ServerError`, `Offline` and `URLFailure` are
      pairwise distinct. */
  lemma DescriptionInjective(e1: NetworkError, e2: NetworkError)
    requires Description(e1) == Description(e2)
    ensures e1 == e2
  {
    DescriptionRoundTrip(e1);
    DescriptionRoundTrip(e2);
  }

  /** `BadRequest(p)` is rendered as the fixed prefix followed by `p`. */
  lemma BadRequestDescription(p: string)
    ensures HasPrefix(Description(BadRequest(p)).value, BadRequestPrefix)
    ensures Description(BadRequest(p)).value[|BadRequestPrefix|..] == p
  {
  }

  /** `Decoding(e)` is rendered as the fixed prefix followed by e's text. */
  lemma DecodingDescription(cause: string)
    ensures HasPrefix(Description(Decoding(cause)).value, DecodingPrefix)
    ensures Description(Decoding(cause)).value[|DecodingPrefix|..] == cause
  {
  }
}
