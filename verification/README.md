# Goat-Weather networking core in Dafny

A model of the request/response pipeline of the Goat-Weather iOS app and
widget, with proofs about it. The model covers four parts:

- **Request builder** (`Requests`, in `request.dfy`). This is `Request.build()`.
  An endpoint descriptor becomes URL components. For GET every parameter
  becomes a query item; POST gets no query. The headers are copied. The
  method's raw value is set and no body is attached. When the components
  form no URL, the build throws `Custom("Error Generating URL", 0)`.
- **Response classifier and error resolver** (`NetworkService`, in
  `network_service.dfy`). `handleResponse` maps a status code to data or to
  an error. `resolve(error:)` maps transport failures to a `NetworkError`.
  `load` chains the build, the session and these two steps.
- **Error taxonomy** (`NetworkErrors`, in `network_error.dfy`). This is the
  closed `NetworkError` enum, its `errorDescription` messages and
  `asErrorNetworkService`.
- **Weather record projections** (`OpenWeather`, in `open_weather_model.dfy`).
  These are the `location` string ("City, COUNTRY") and `iconURL`.

Supporting modules:

- `Wrappers` holds Option and Result. Swift optionals become `Option` and
  `throws` becomes `Result`.
- `Decimal` models how Swift prints an `Int` and holds its parser.
- `Strings` holds prefix, suffix and index-of helpers and the split at the first `", "`, which
  both the `Custom` message reader and the location reader use.
- `AsciiCase` models Foundation's `capitalized` and Swift's `uppercased()`.
  Only ASCII letters change case. Which non-ASCII characters are cased or
  case-ignorable is a parameter.

Every operation of the repository has a partner it is proved against:

- error messages have a parser, and `ParseDescription(Description(e)) == Some(e)`;
- the status printer has `ParseDecimal`, which accepts exactly the strings it prints;
- the classifier is checked against the status classes of section 15 of RFC 9110;
- `resolve` is compared with `asErrorNetworkService`;
- when the city holds no comma, the location splits back into its city and country parts, up to letter case;
- icon URLs have `IconName`;
- two builds of one descriptor are proved equal up to the order of their query items.

`ComposeUrl` stands in for Foundation's `URLComponents.url`. It is a plain
definition and has no partner; see "## Left out".

The transport is a parameter of `Load`: a function from the built request
to the single outcome of the data task (`Delivered(data, response)` or
`TransportFailed(error)`). A Swift `Error` is modelled as `AnyError`. It is
either a `NetworkError`, or a foreign error seen through its bridged
`NSError` code and its localized description.

One design note: the error taxonomy has a `URLFailure` case that would fit
a URL composition failure, but `build()` throws `Custom("Error Generating URL", 0)`
instead, and `load` then replaces whatever was thrown with `Unknown`. The
model follows the code.

## Model

| member | source | states |
|---|---|---|
| NetworkErrors.Description | Goat-Weather/Services/Error/NetworkError.swift:61-78 | `errorDescription` is total: every case yields a message, and that message is never empty |
| NetworkErrors.DescriptionRoundTrip | Goat-Weather/Services/Error/NetworkError.swift:61-78 | every message reads back as the exact error it was rendered from, so the case and its payload are both recoverable |
| NetworkErrors.DescriptionInjective | Goat-Weather/Services/Error/NetworkError.swift:63-76 | distinct errors never share a message; in particular the fixed messages of Unknown, ServerError, Offline and URLFailure are pairwise distinct |
| NetworkErrors.CustomDescriptionRoundTrip | Goat-Weather/Services/Error/NetworkError.swift:65-66 | `Custom(message, status)` renders as Swift's decimal printing of the status, `", "`, then the message; splitting at the first comma gives back both |
| NetworkErrors.ParseCustomExact | Goat-Weather/Services/Error/NetworkError.swift:65-66 | a string reads as a status and a message exactly when it is the `Custom` rendering of that pair, so non-canonical numbers such as `"017"` or `"-0"` are rejected |
| NetworkErrors.BadRequestDescription | Goat-Weather/Services/Error/NetworkError.swift:67-68 | `BadRequest(p)` renders as `"Request is invalid. "` followed by exactly `p` |
| NetworkErrors.DecodingDescription | Goat-Weather/Services/Error/NetworkError.swift:75-76 | `Decoding(e)` renders as `"Failed to Decoding "` followed by exactly e's text |
| NetworkErrors.AsNetworkError | Goat-Weather/Services/Error/NetworkError.swift:37-39 | a `NetworkError` is returned unchanged; any other error becomes `Unknown` |
| NetworkErrors.AsNetworkErrorIdempotent | Goat-Weather/Services/Error/NetworkError.swift:37-39 | converting twice equals converting once, and a `NetworkError` survives the trip through `Error` |
| Decimal.DecimalRoundTrip | Goat-Weather/Services/Error/NetworkError.swift:65-66 | the interpolated status code parses back to the same integer, negatives included |
| Decimal.DecimalString | Goat-Weather/Services/Error/NetworkError.swift:65-66 | `"\(status)"` is canonical: digits with no leading zero except `"0"` itself, a minus sign exactly for negative values, never `"-0"` |
| Decimal.ParseDecimalExact | Goat-Weather/Services/Error/NetworkError.swift:65-66 | a string parses as `n` if and only if it is exactly how Swift prints `n` |
| Requests.RawValueRoundTrip | Goat-Weather/Services/Networking/Request.swift:36-39 | `"POST"` and `"GET"` name the two methods exactly: each method reads back from its raw value, and a string reads as a method only if it is that method's raw value |
| Requests.EndpointDefaults | Goat-Weather/Services/Networking/Request.swift:50-55 | a descriptor that overrides nothing gets scheme `https`, method GET and no headers, and `https` is a valid scheme |
| Requests.QueryItemsOf | Goat-Weather/Services/Networking/Request.swift:64-68 | one query item per parameter entry, with the entry's name and printed value; none is lost or duplicated, and the count equals the parameter count |
| Requests.Build | Goat-Weather/Services/Networking/Request.swift:58-79 | the build fails exactly when no URL forms, and then with `Custom("Error Generating URL", 0)`, never `URLFailure`; otherwise scheme, host and path are copied, GET carries every parameter as a query item, POST has no query, the headers are the descriptor's, the method string reads back as the descriptor's method, and there is no body |
| Requests.QueryItemsArePermutations | Goat-Weather/Services/Networking/Request.swift:64-69 | any two query-item lists built from one parameter map hold the same items, each once |
| Requests.BuildDeterministic | Goat-Weather/Services/Networking/Request.swift:58-79 | two builds of one descriptor agree on success or failure, URL scheme, host and path, method, headers and body; their query items differ at most in order |
| NetworkService.HandleResponse | Goat-Weather/Services/Networking/NetworkService.swift:62-76 | data comes back byte-for-byte exactly when the response is HTTP with a 2xx status; 400 gives `BadRequest` with the response URL or `""`; 500 gives `ServerError`; any other status gives `Custom("error", status)`; a non-HTTP response gives `Unknown` |
| NetworkService.ClassifierByStatusClass | Goat-Weather/Services/Networking/NetworkService.swift:63-72 | against the classes of section 15 of RFC 9110: only the Successful class yields data; in the Client Error and Server Error classes only 400 and 500 get their own cases; informational, redirection and unassigned statuses all become `Custom` with that status |
| NetworkService.UnclassifiedStatusMessage | Goat-Weather/Services/Networking/NetworkService.swift:70-71 | for a status without a case of its own, the user-facing message reads back as that status code and the message "error" |
| NetworkService.Resolve | Goat-Weather/Services/Networking/NetworkService.swift:78-92 | a `NetworkError` passes unchanged; a foreign error becomes `Offline` exactly when its code is not-connected or connection-lost, whatever its message; bad-server-response becomes `BadRequest` with the description; any other code becomes `Custom` with the description and the same code; a foreign error is never `Unknown` |
| NetworkService.ResolveIdempotent | Goat-Weather/Services/Networking/NetworkService.swift:79-80 | resolving an already resolved error changes nothing |
| NetworkService.OfflineIgnoresDescription | Goat-Weather/Services/Networking/NetworkService.swift:84-85 | whether a foreign error resolves to `Offline` depends on its code only, never on its message text |
| NetworkService.ResolveRefinesAsNetworkError | Goat-Weather/Services/Networking/NetworkService.swift:78-92 | `resolve` agrees with `asErrorNetworkService` on `NetworkError` values, and unlike it never turns a foreign error into `Unknown` |
| NetworkService.Deliver | Goat-Weather/Services/Networking/NetworkService.swift:52-55 | a failed data task fails with the resolved form of its error |
| NetworkService.DeliverKeepsClassification | Goat-Weather/Services/Networking/NetworkService.swift:52-55 | the `mapError(resolve)` step leaves every classifier outcome, data or error, exactly as the classifier produced it |
| NetworkService.Load | Goat-Weather/Services/Networking/NetworkService.swift:47-60 | if the build throws, `load` fails with `Unknown`, never with the thrown `Custom`; otherwise its outcome is the delivered classification of the session's answer to a request the builder could have produced |
| AsciiCase.Capitalize | Goat-Weather/Shared/OpenWeatherModel.swift:46 | `capitalized` keeps the length; a character whose nearest earlier character that is not case-ignorable is cased becomes lower case, and every other character becomes upper case; ASCII letters are the cased ASCII characters and the classes of other characters are a parameter |
| AsciiCase.CapitalizeWord | Goat-Weather/Shared/OpenWeatherModel.swift:46 | a word that starts with a cased character, goes on with cased or case-ignorable characters and holds no capital after its first character is capitalized by upper-casing only its first character |
| AsciiCase.CapitalizeSplits | Goat-Weather/Shared/OpenWeatherModel.swift:46 | a character that is neither cased nor case-ignorable (space, hyphen, digit) ends a word: the text after it is capitalized on its own |
| AsciiCase.CapitalizeHyphenated | Goat-Weather/Shared/OpenWeatherModel.swift:46 | `"saint-denis"` capitalizes to `"Saint-Denis"` |
| AsciiCase.CapitalizeAfterDigit | Goat-Weather/Shared/OpenWeatherModel.swift:46 | `"1st"` capitalizes to `"1St"` |
| AsciiCase.CapitalizeAfterApostrophe | Goat-Weather/Shared/OpenWeatherModel.swift:46 | `"don't"` capitalizes to `"Don't"` |
| AsciiCase.CapitalizeAfterCasedNonAscii | Goat-Weather/Shared/OpenWeatherModel.swift:46 | when `ü` is cased, `"münchen"` capitalizes to `"München"` |
| AsciiCase.CapitalizeAfterIgnorableNonAscii | Goat-Weather/Shared/OpenWeatherModel.swift:46 | when `’` is case-ignorable, `"n’djamena"` capitalizes to `"N’djamena"` |
| AsciiCase.Uppercase | Goat-Weather/Shared/OpenWeatherModel.swift:46 | `uppercased()` keeps the length and upper-cases each character in place |
| OpenWeather.Location | Goat-Weather/Shared/OpenWeatherModel.swift:43-48 | for every classification of the non-ASCII characters, the location is the city (name or `""`) capitalized word by word, then `", "`, then the country (or `""`) upper-cased, character by character |
| OpenWeather.LocationSplits | Goat-Weather/Shared/OpenWeatherModel.swift:43-48 | when the city holds no comma, the location splits at its first comma into parts equal to the city and the country up to letter case, and the country part has no lowercase letter |
| OpenWeather.LocationOfMissingFields | Goat-Weather/Shared/OpenWeatherModel.swift:44-46 | the location is defined when the name, `sys` or country is missing and still contains the `", "` separator; an empty record gives exactly `", "` |
| OpenWeather.IconURL | Goat-Weather/Shared/OpenWeatherModel.swift:50-52 | the icon URL starts with `https://openweathermap.org/img/wn/`, ends with `@2x.png`, and its length is the template's plus the code's |
| OpenWeather.IconURLRoundTrip | Goat-Weather/Shared/OpenWeatherModel.swift:50-52 | the icon code reads back from its URL, and any URL that reads as a code is that code's URL |
| OpenWeather.IconURLInjective | Goat-Weather/Shared/OpenWeatherModel.swift:50-52 | distinct icon codes give distinct URLs |
| OpenWeather.IconURLIgnoresRecord | Goat-Weather/Shared/OpenWeatherModel.swift:50-52 | the URL depends only on the icon code, not on the record it is asked of |
| OpenWeather.SampleProjections | Goat-Weather/Shared/OpenWeatherModel.swift:43-52 | for the sample response of the test suite (Horinouchi, JP, icon `02n`), the location is `"Horinouchi, JP"` and the icon URL ends with `02n@2x.png` |

## Left out

- JSON decoding through `Codable` is not modelled. The model starts from the decoded record. The `NetworkClient` that raises `Decoding` is not part of this model.
- The `coord` field (`CoordModel`, two `Double`s) is not modelled, because it is floating point and no modelled operation reads it.
- `Decoding(Error)` carries the interpolated text of the underlying error as a string. The model does not say how a decoder error prints.
- URLSession, the Combine publishers, cancellation and asynchrony are not modelled. The session is a function parameter of `Load` that returns the single outcome of one data task.
- Requests.ComposeUrl: only the path rule of section 3.3 of RFC 3986 decides whether a URL forms. Foundation's percent-encoding and its handling of unusual host characters are not modelled. The URL is kept as its components and never rendered as a string.
- Requests.Build: an invalid scheme makes Foundation trap rather than return nil. The model states this as the precondition `ValidScheme` (section 3.1 of RFC 3986), which the default `https` meets.
- Requests.QueryItemsOf: Swift's dictionary iteration order is unspecified. The model picks keys in an arbitrary order and states only set and count facts about the result.
- `ParamValue`: parameters of type `Any` are modelled as integers, printed in decimal, or as values whose printed text is given. How a `Double` or any other type prints is not modelled.
- AsciiCase.Capitalize: only the ASCII letters change case. A non-ASCII letter keeps its case wherever it stands, so `"épinay"` gives `"épinay"` where Foundation gives `"Épinay"`. The word rule does follow Foundation's behaviour rather than the documented whitespace rule: a word ends at any character that is neither cased nor case-ignorable. The Unicode Cased and Case_Ignorable properties of non-ASCII characters are a parameter (`unicode`) of `Capitalize` and `Location`. They are not tabulated, so every property proved holds for every choice of those classes.
- AsciiCase.Uppercase: Swift's `uppercased()` applies the full Unicode case mapping (independent of locale). The model upper-cases ASCII letters only.
- Swift `Int` is 64-bit, but the model's integers are unbounded. No modelled operation does arithmetic on status or error codes, so wrap-around cannot arise.
- `asErrorFileManager` is not modelled, because `DatabaseFileManagerError` is not part of this model.
- Left out as UI, platform or I/O glue: the view models and view controllers, the widget provider and views, location permission, the collection-view layout and image resizing, and `URL.toUIImage`.
