/** Endpoint descriptors and how `build()` turns one into a URL request. */
module Requests {
  import opened Wrappers
  import opened Decimal
  import opened NetworkErrors

  newtype byte = b: int | 0 <= b < 256

  datatype HttpMethod = Post | Get

  /** The enum's raw value, which becomes the request's `httpMethod`. */
  function RawValue(m: HttpMethod): string {
    match m
    case Post => "POST"
    case Get => "GET"
  }

  /** `HTTPMethod(rawValue:)`: the method with that raw value, if any. */
  function MethodFromRawValue(s: string): Option<HttpMethod> {
    if s == "POST" then Some(Post) else if s == "GET" then Some(Get) else None
  }

  /** The raw values name the methods exactly: each method reads back from
      its raw value, and only the two raw values read as a method. */
  lemma RawValueRoundTrip(m: HttpMethod, s: string)
    ensures MethodFromRawValue(RawValue(m)) == Some(m)
    ensures MethodFromRawValue(s) == Some(m) <==> RawValue(m) == s
  {
  }

  /** A parameter value of type `Any`, seen through what `"\(value)"`
      prints for it: integers are printed in decimal; for any other value
      (a string, or a `Double` coordinate) the model takes the printed text
      as given. */
  datatype ParamValue =
    | Integer(number: int)
    | Printed(text: string)

  /** `"\(value)"` for a parameter value. */
  function Stringify(v: ParamValue): string {
    match v
    case Integer(n) => DecimalString(n)
    case Printed(t) => t
  }

  /** A type conforming to `Request`. The members the protocol extension
      gives defaults for are `None` when the type does not provide them. */
  datatype Endpoint = Endpoint(
    schemeOverride: Option<string>,
    host: string,
    path: string,
    methodOverride: Option<HttpMethod>,
    parameters: map<string, ParamValue>,
    headersOverride: Option<map<string, string>>)

  function Scheme(e: Endpoint): string {
    e.schemeOverride.GetOr("https")
  }

  function Method(e: Endpoint): HttpMethod {
    e.methodOverride.GetOr(Get)
  }

  function Headers(e: Endpoint): map<string, string> {
    e.headersOverride.GetOr(map[])
  }

  /** A descriptor that overrides none of the defaulted members. */
  function PlainEndpoint(host: string, path: string, parameters: map<string, ParamValue>): (e: Endpoint)
    ensures e.host == host && e.path == path && e.parameters == parameters
  {
    Endpoint(None, host, path, None, parameters, None)
  }

  /** A descriptor without overrides is an HTTPS GET with no headers. */
  lemma EndpointDefaults(host: string, path: string, parameters: map<string, ParamValue>)
    ensures var e := PlainEndpoint(host, path, parameters);
      Scheme(e) == "https" && Method(e) == Get && Headers(e) == map[]
    ensures ValidScheme("https")
  {
  }

  // ---------------------------------------------------------------------
  // URL components (RFC 3986, section 3)

  predicate IsAlpha(c: char) {
    'a' <= c <= 'z' || 'A' <= c <= 'Z'
  }

  /** `scheme = ALPHA *( ALPHA / DIGIT / "+" / "-" / "." )`, section 3.1 of
      RFC 3986. Foundation traps when any other scheme is assigned. */
  predicate ValidScheme(s: string) {
    && 1 <= |s|
    && IsAlpha(s[0])
    && forall i | 1 <= i < |s| :: IsAlpha(s[i]) || IsDigit(s[i]) || s[i] in "+-."
  }

  datatype QueryItem = QueryItem(name: string, value: string)

  /** `URLComponents`: `None` stands for a component never assigned. */
  datatype UrlComponents = UrlComponents(
    scheme: string,
    host: Option<string>,
    path: string,
    queryItems: Option<seq<QueryItem>>)

  /** Section 3.3 of RFC 3986: with an authority the path is empty or starts
      with `/`; without one it does not start with `//`. */
  predicate PathFitsAuthority(host: Option<string>, path: string) {
    if host.Some? then |path| == 0 || path[0] == '/'
    else !(2 <= |path| && path[..2] == "//")
  }

  /** `URLComponents.url`: the URL, kept as its components, or `None` when
      the components cannot form one. */
  function ComposeUrl(c: UrlComponents): (r: Option<UrlComponents>)
    ensures r.Some? <==> PathFitsAuthority(c.host, c.path)
    ensures r.Some? ==> r.value == c
  {
    if PathFitsAuthority(c.host, c.path) then Some(c) else None
  }

  /** The request `build()` produces. */
  datatype UrlRequest = UrlRequest(
    url: UrlComponents,
    httpMethod: string,
    headers: map<string, string>,
    body: Option<seq<byte>>)

  const UrlGenerationError: NetworkError := Custom("Error Generating URL", 0)

  // ---------------------------------------------------------------------
  // Building

  function Names(items: seq<QueryItem>): set<string> {
    set i | 0 <= i < |items| :: items[i].name
  }

  /** The query items list every parameter exactly once, under its own name
      and with its value printed; the order is left open. */
  ghost predicate QueryItemsFor(items: seq<QueryItem>, parameters: map<string, ParamValue>) {
    && |items| == |parameters.Keys|
    && Names(items) == parameters.Keys
    && (forall i | 0 <= i < |items| ::
          items[i].name in parameters && items[i].value == Stringify(parameters[items[i].name]))
    && (forall i, j | 0 <= i < j < |items| :: items[i].name != items[j].name)
  }

  /** `parameters.forEach`: one query item per entry, in the dictionary's
      unspecified iteration order. */
  method QueryItemsOf(parameters: map<string, ParamValue>) returns (items: seq<QueryItem>)
    ensures QueryItemsFor(items, parameters)
  {
    items := [];
    var remaining := parameters.Keys;
    while remaining != {}
      invariant remaining <= parameters.Keys
      invariant Names(items) == parameters.Keys - remaining
      invariant |items| + |remaining| == |parameters.Keys|
      invariant forall i | 0 <= i < |items| ::
        items[i].name in parameters && items[i].value == Stringify(parameters[items[i].name])
      invariant forall i, j | 0 <= i < j < |items| :: items[i].name != items[j].name
      decreases remaining
    {
      var key :| key in remaining;
      var item := QueryItem(key, Stringify(parameters[key]));
      AppendQueryItem(items, item, parameters);
      items := items + [item];
      remaining := remaining - {key};
    }
  }

  /** One more entry keeps the items faithful to the parameters and their names distinct. */
  lemma AppendQueryItem(items: seq<QueryItem>, item: QueryItem, parameters: map<string, ParamValue>)
    requires item.name in parameters && item.value == Stringify(parameters[item.name])
    requires item.name !in Names(items)
    requires forall i | 0 <= i < |items| ::
      items[i].name in parameters && items[i].value == Stringify(parameters[items[i].name])
    requires forall i, j | 0 <= i < j < |items| :: items[i].name != items[j].name
    ensures Names(items + [item]) == Names(items) + {item.name}
    ensures forall i | 0 <= i < |items| + 1 ::
      (items + [item])[i].name in parameters
      && (items + [item])[i].value == Stringify(parameters[(items + [item])[i].name])
    ensures forall i, j | 0 <= i < j < |items| + 1 :: (items + [item])[i].name != (items + [item])[j].name
  {
    NamesAppend(items, item);
    assert forall i | 0 <= i < |items| :: items[i].name in Names(items);
  }

  lemma NamesAppend(items: seq<QueryItem>, item: QueryItem)
    ensures Names(items + [item]) == Names(items) + {item.name}
  {
    assert forall i | 0 <= i < |items| :: (items + [item])[i] == items[i];
    assert (items + [item])[|items|] == item;
  }

  /** What `build()` promises about its outcome: it fails exactly when the
      components form no URL, and then with the fixed `Custom` error (not
      `URLFailure`); otherwise scheme, host and path are copied, GET carries
      every parameter as a query item, POST carries no query at all, the
      headers are the descriptor's, the method is its raw value and there is
      no body. */
  ghost predicate Built(e: Endpoint, r: Result<UrlRequest, NetworkError>) {
    && (r.Failure? <==> !PathFitsAuthority(Some(e.host), e.path))
    && (r.Failure? ==> r.error == UrlGenerationError)
    && (r.Success? ==>
          var req := r.value;
          && req.url.scheme == Scheme(e)
          && req.url.host == Some(e.host)
          && req.url.path == e.path
          && (Method(e) == Get ==> req.url.queryItems.Some? && QueryItemsFor(req.url.queryItems.value, e.parameters))
          && (Method(e) == Post ==> req.url.queryItems.None?)
          && req.headers == Headers(e)
          && MethodFromRawValue(req.httpMethod) == Some(Method(e))
          && req.body.None?)
  }

  /** `Request.build()`. */
  method Build(e: Endpoint) returns (r: Result<UrlRequest, NetworkError>)
    requires ValidScheme(Scheme(e))
    ensures Built(e, r)
  {
    var queryItems: Option<seq<QueryItem>> := None;
    if Method(e) == Get {
      var items := QueryItemsOf(e.parameters);
      queryItems := Some(items);
    }
    var components := UrlComponents(Scheme(e), Some(e.host), e.path, queryItems);
    var url := ComposeUrl(components);
    if url.None? {
      return Failure(UrlGenerationError);
    }
    RawValueRoundTrip(Method(e), RawValue(Method(e)));
    r := Success(UrlRequest(url.value, RawValue(Method(e)), Headers(e), None));
  }

  /** With distinct elements, an element occurs once if present and never otherwise. */
  lemma {:induction false} DistinctCount(items: seq<QueryItem>, x: QueryItem)
    requires forall i, j | 0 <= i < j < |items| :: items[i].name != items[j].name
    ensures multiset(items)[x] == if x in items then 1 else 0
  {
    if |items| > 0 {
      var last := items[|items| - 1];
      var front := items[..|items| - 1];
      assert items == front + [last];
      DistinctCount(front, x);
      if x == last {
        assert forall k | 0 <= k < |front| :: front[k].name != last.name;
        assert x !in front;
      }
    }
  }

  /** Two query-item lists for the same parameters hold the same items,
      each once: they differ at most in order. */
  lemma QueryItemsArePermutations(a: seq<QueryItem>, b: seq<QueryItem>, parameters: map<string, ParamValue>)
    requires QueryItemsFor(a, parameters) && QueryItemsFor(b, parameters)
    ensures multiset(a) == multiset(b)
  {
    forall x: QueryItem
      ensures multiset(a)[x] == multiset(b)[x]
    {
      DistinctCount(a, x);
      DistinctCount(b, x);
      if x in a {
        var i :| 0 <= i < |a| && a[i] == x;
        assert x.name in Names(b);
        var j :| 0 <= j < |b| && b[j].name == x.name;
        assert b[j] == x;
      }
      if x in b {
        var j :| 0 <= j < |b| && b[j] == x;
        assert x.name in Names(a);
        var i :| 0 <= i < |a| && a[i].name == x.name;
        assert a[i] == x;
      }
    }
  }

  /** Building is a function of the descriptor: two builds of one descriptor
      agree on the outcome, the URL, the method and the headers, and their
      query items are permutations of each other. */
  lemma BuildDeterministic(e: Endpoint, r1: Result<UrlRequest, NetworkError>, r2: Result<UrlRequest, NetworkError>)
    requires Built(e, r1) && Built(e, r2)
    ensures r1.Success? <==> r2.Success?
    ensures r1.Failure? ==> r1 == r2
    ensures r1.Success? ==>
      && r1.value.url.scheme == r2.value.url.scheme
      && r1.value.url.host == r2.value.url.host
      && r1.value.url.path == r2.value.url.path
      && r1.value.url.queryItems.Some? == r2.value.url.queryItems.Some?
      && (r1.value.url.queryItems.Some? ==> multiset(r1.value.url.queryItems.value) == multiset(r2.value.url.queryItems.value))
      && r1.value.httpMethod == r2.value.httpMethod
      && r1.value.headers == r2.value.headers
      && r1.value.body == r2.value.body
  {
    if r1.Success? {
      RawValueRoundTrip(Method(e), r1.value.httpMethod);
      RawValueRoundTrip(Method(e), r2.value.httpMethod);
      if Method(e) == Get {
        QueryItemsArePermutations(r1.value.url.queryItems.value, r2.value.url.queryItems.value, e.parameters);
      }
    }
  }
}
