/** The client's error taxonomy (`APIClientError`), its hand-written equality and the
    three predicates the retry engine consults. */
module ApiErrors {
  import opened Wrappers
  import Text

  /** Foundation's `URLError`: only the code and the localized text matter here. */
  datatype UrlError = UrlError(code: int, localizedDescription: string)

  /** `URLError.Code` raw values of the three connectivity failures. */
  const NotConnectedToInternet: int := -1009
  const NetworkConnectionLost: int := -1005
  const TimedOut: int := -1001

  /** One entry of a GraphQL response's `errors` list. */
  datatype GraphQLError = GraphQLError(
    message: string,
    errorType: Option<string>,
    path: Option<seq<string>>,
    extensions: Option<map<string, string>>)

  datatype APIClientError =
    | Client(urlError: UrlError)
    | Http(statusCode: int)
    | Unauthorized
    | GraphQLErrors(errors: seq<GraphQLError>)
    | DecodingError(message: string)
    | NoData
    | Unknown(message: string)

  /** Anything a `throws` call of the client can raise: an `APIClientError`, a raw
      `URLError` from the transport, or any other error (encoding, cancellation) that
      the retry engine does not catch. */
  datatype Thrown =
    | Api(error: APIClientError)
    | Url(urlError: UrlError)
    | Foreign(description: string)

  /** The custom `==`: `.client` values compare by code only, every other case by its
      payload, and values of different cases are unequal. */
  function Same(l: APIClientError, r: APIClientError): (b: bool)
    ensures l.Client? && r.Client? ==> (b <==> l.urlError.code == r.urlError.code)
    ensures !l.Client? ==> (b <==> l == r)
    ensures l.Client? != r.Client? ==> !b
  {
    match (l, r)
    case (Client(a), Client(b)) => a.code == b.code
    case (Http(a), Http(b)) => a == b
    case (Unauthorized, Unauthorized) => true
    case (GraphQLErrors(a), GraphQLErrors(b)) => a == b
    case (DecodingError(a), DecodingError(b)) => a == b
    case (NoData, NoData) => true
    case (Unknown(a), Unknown(b)) => a == b
    case _ => false
  }

  /** `Same` is an equivalence relation, so it is a lawful `Equatable` conformance. */
  lemma SameIsEquivalence(a: APIClientError, b: APIClientError, c: APIClientError)
    ensures Same(a, a)
    ensures Same(a, b) ==> Same(b, a)
    ensures Same(a, b) && Same(b, c) ==> Same(a, c)
  {
  }

  /** Two network errors with the same code but different descriptions are equal. */
  lemma ClientEqualityIgnoresDescription(code: int, d1: string, d2: string)
    requires d1 != d2
    ensures Same(Client(UrlError(code, d1)), Client(UrlError(code, d2)))
    ensures Client(UrlError(code, d1)) != Client(UrlError(code, d2))
  {
  }

  /** An error entry that signals an authorization failure. */
  predicate IsAuthMarker(e: GraphQLError)
  {
    e.errorType == Some("401") || e.errorType == Some("UNAUTHORIZED")
  }

  predicate HasAuthMarker(errors: seq<GraphQLError>)
  {
    exists i :: 0 <= i < |errors| && IsAuthMarker(errors[i])
  }

  predicate IsUnauthorized(e: APIClientError)
  {
    match e
    case Unauthorized => true
    case Http(code) => code == 401
    case GraphQLErrors(errors) => HasAuthMarker(errors)
    case _ => false
  }

  predicate IsNetworkError(e: APIClientError)
  {
    match e
    case Client(u) => u.code in [NotConnectedToInternet, NetworkConnectionLost, TimedOut]
    case _ => false
  }

  /** Written, as in the source, with the custom `==`. */
  predicate IsRetryable(e: APIClientError)
  {
    IsNetworkError(e) || Same(e, Http(500)) || Same(e, Http(502)) || Same(e, Http(503))
  }

  /** Retryable means: a connectivity failure, or HTTP 500, 502 or 503, and nothing else. */
  lemma RetryableExactly(e: APIClientError)
    ensures IsRetryable(e) <==>
      (e.Client? && e.urlError.code in {NotConnectedToInternet, NetworkConnectionLost, TimedOut})
      || (e.Http? && e.statusCode in {500, 502, 503})
  {
  }

  /** Unauthorized means: `.unauthorized`, HTTP 401, or a GraphQL error list carrying an
      authorization marker. */
  lemma UnauthorizedExactly(e: APIClientError)
    ensures IsUnauthorized(e) <==>
      e == Unauthorized || e == Http(401)
      || (e.GraphQLErrors? && exists g :: g in e.errors && IsAuthMarker(g))
  {
    if e.GraphQLErrors? {
      if HasAuthMarker(e.errors) {
        var i :| 0 <= i < |e.errors| && IsAuthMarker(e.errors[i]);
        assert e.errors[i] in e.errors;
      }
    }
  }

  /** The two recovery paths never compete: no error is both retryable and unauthorized. */
  lemma RetryableAndUnauthorizedDisjoint(e: APIClientError)
    ensures !(IsRetryable(e) && IsUnauthorized(e))
  {
  }

  /** The terminal kinds: decoding failures, missing data, unknown failures and every
      HTTP code other than 401/500/502/503 trigger neither recovery path. */
  lemma TerminalKinds(e: APIClientError)
    requires e.DecodingError? || e.NoData? || e.Unknown?
      || (e.Http? && e.statusCode !in {401, 500, 502, 503})
    ensures !IsRetryable(e) && !IsUnauthorized(e)
  {
  }

  /** A network error is never unauthorized, whatever its code. */
  lemma ClientNeverUnauthorized(u: UrlError)
    ensures !IsUnauthorized(Client(u))
    ensures IsRetryable(Client(u)) <==> IsNetworkError(Client(u))
  {
  }

  /** `errorDescription`, the user-facing text of each case. */
  function ErrorDescription(e: APIClientError): (d: string)
    ensures e.GraphQLErrors? && e.errors != [] ==> d == e.errors[0].message
    ensures e.GraphQLErrors? && e.errors == [] ==> d == "GraphQL error"
    ensures e.Http? ==> d == "HTTP error: " + Text.IntToString(e.statusCode)
  {
    match e
    case Client(u) => "Network error: " + u.localizedDescription
    case Http(code) => "HTTP error: " + Text.IntToString(code)
    case Unauthorized => "Unauthorized. Please sign in again."
    case GraphQLErrors(errors) => if errors != [] then errors[0].message else "GraphQL error"
    case DecodingError(message) => "Failed to parse response: " + message
    case NoData => "No data received from server"
    case Unknown(message) => "Unknown error: " + message
  }

  /** Distinct HTTP codes get distinct descriptions. */
  lemma HttpDescriptionsDistinct(a: int, b: int)
    requires a != b
    ensures ErrorDescription(Http(a)) != ErrorDescription(Http(b))
  {
    var p := "HTTP error: ";
    if ErrorDescription(Http(a)) == ErrorDescription(Http(b)) {
      assert Text.IntToString(a) == ErrorDescription(Http(a))[|p|..];
      assert Text.IntToString(b) == ErrorDescription(Http(b))[|p|..];
      IntToStringInjective(a, b);
    }
  }

  lemma IntToStringInjective(a: int, b: int)
    requires Text.IntToString(a) == Text.IntToString(b)
    ensures a == b
  {
    var s := Text.IntToString(a);
    if a < 0 {
      assert Text.NatToString(-a) == s[1..] == Text.NatToString(-b);
      Text.NatToStringInjective(-a, -b);
    } else {
      Text.NatToStringInjective(a, b);
    }
  }
}
