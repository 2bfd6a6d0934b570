/**
 * The request layer of the IReV client (src/services/irev_api/index.ts,
 * lines 60-65 and 147-176): the URL and headers of a request, and the
 * classification of what comes back.
 *
 * The network is a parameter: a response is an input value, and `fetch` a
 * function from the request sent to the response received.
 */
module IrevHttp {
  import opened Wrappers
  import opened IrevSupport

  /** The versioned base path every endpoint path is appended to. */
  const ApiPrefix: string := "/api/v1"

  type Header = (string, string)

  /** Query parameters as the key/value pairs of the object handed to `URLSearchParams`. */
  type Query = seq<(string, string)>

  /** A GET request as `fetch` is called with it. */
  datatype HttpRequest = HttpRequest(url: string, headers: seq<Header>, keepalive: bool)

  /** The `{success, data}` envelope every response body carries once parsed. */
  datatype Envelope<D> = Envelope(success: bool, data: D)

  /**
   * What `response.json()` yields: a rejection when the body does not parse,
   * `null` for the body `null`, or the parsed envelope.
   */
  datatype Body<D> = Unparsable | Null | Parsed(envelope: Envelope<D>)

  /**
   * A response: its HTTP status and what its body parses to. `success` is the
   * truthiness of the parsed `success` field.
   */
  datatype Response<D> = Response(status: int, json: Body<D>) {
    /** The Fetch standard's `ok`: a status in 200-299. */
    predicate Ok() {
      200 <= status <= 299
    }
  }

  /** What `fetch` settles to: a rejection on a network failure, or a response. */
  datatype Fetched<D> = NetworkFailure | Received(response: Response<D>)

  /**
   * What an endpoint call fails with: a plain `Error` thrown by an argument
   * check; a `TypeError`, from a failed `fetch` or from reading `success` of a
   * `null` body; or an `IrevApiError` carrying the response it was raised for.
   */
  datatype Rejection<D> = Thrown(error: Error) | TypeError | IrevApiError(response: Response<D>)

  /**
   * One endpoint call: the request issued, if any, and what the call resolves
   * to (a value of the caller's type `T`) or rejects with.
   */
  datatype Call<T, D> = Call(sent: Option<HttpRequest>, result: Result<T, Rejection<D>>)

  /** One `key=value` pair of a query string. */
  function EncodePair(p: (string, string)): string {
    p.0 + "=" + p.1
  }

  /**
   * `URLSearchParams(queryParams).toString()`: the pairs joined by `&`.
   * Percent-encoding of keys and values is not modelled.
   */
  function EncodeQuery(q: Query): (r: string)
    ensures r == "" <==> q == []
    ensures |q| == 1 ==> r == EncodePair(q[0])
  {
    if q == [] then ""
    else if |q| == 1 then EncodePair(q[0])
    else EncodePair(q[0]) + "&" + EncodeQuery(q[1..])
  }

  /** The URL `${host}/api/v1${path}?${params}`. */
  function Url(host: string, path: string, q: Query): (u: string)
    ensures |u| > |host| + |ApiPrefix| + |path|
    ensures u[..|host|] == host
    ensures u[|host|..|host| + |ApiPrefix| + |path|] == ApiPrefix + path
    ensures u[|host| + |ApiPrefix| + |path|] == '?'
    ensures u[|host| + |ApiPrefix| + |path| + 1..] == EncodeQuery(q)
    ensures q == [] ==> |u| == |host| + |ApiPrefix| + |path| + 1
  {
    host + ApiPrefix + path + "?" + EncodeQuery(q)
  }

  /** The headers of every request, in the order they are written. */
  function Headers(token: string, userAgent: string): (h: seq<Header>)
    ensures HeaderValue(h, "Accept") == Some("application/json")
    ensures HeaderValue(h, "Authorization") == Some("Bearer " + token)
    ensures HeaderValue(h, "User-Agent") == Some(userAgent)
    ensures |h| == 3
  {
    var h := [("Accept", "application/json"),
              ("Authorization", "Bearer " + token),
              ("User-Agent", userAgent)];
    assert h[1..][1..] == h[2..];
    assert HeaderValue(h[2..], "User-Agent") == Some(userAgent);
    h
  }

  /** The value of the first header called `name`. */
  function HeaderValue(h: seq<Header>, name: string): Option<string> {
    if h == [] then None
    else if h[0].0 == name then Some(h[0].1)
    else HeaderValue(h[1..], name)
  }

  /**
   * What `request` does with a response: the envelope's `data` when the status
   * is ok, the body parses and `success` is truthy. An ok response whose body
   * is `null` fails with the `TypeError` of reading `null.success`; every
   * other failure is an `IrevApiError` carrying that response.
   */
  function Classify<D>(response: Response<D>): (r: Result<D, Rejection<D>>)
    ensures r.Success? <==> response.Ok() && response.json.Parsed? && response.json.envelope.success
    ensures r.Success? ==> r.value == response.json.envelope.data
    ensures response.Ok() && response.json.Null? ==> r == Failure(TypeError)
    ensures r.Failure? && !(response.Ok() && response.json.Null?) ==> r.error == IrevApiError(response)
  {
    if response.Ok() then
      match response.json
      case Unparsable => Failure(IrevApiError(response))
      case Null => Failure(TypeError)
      case Parsed(envelope) =>
        if envelope.success then Success(envelope.data) else Failure(IrevApiError(response))
    else
      Failure(IrevApiError(response))
  }

  /**
   * What the awaited `fetch` and the classification after it settle to: a
   * failed `fetch` rejects with its `TypeError`, unwrapped; a response is
   * classified.
   */
  function Settle<D>(fetched: Fetched<D>): (r: Result<D, Rejection<D>>)
    ensures fetched.NetworkFailure? ==> r == Failure(TypeError)
    ensures fetched.Received? ==> r == Classify(fetched.response)
  {
    match fetched
    case NetworkFailure => Failure(TypeError)
    case Received(response) => Classify(response)
  }

  /** A decimal digit character. */
  predicate IsDigit(c: char) {
    '0' <= c <= '9'
  }

  /** The digit character for 0..9. */
  function DigitChar(d: nat): (c: char)
    requires d < 10
    ensures IsDigit(c)
  {
    ['0', '1', '2', '3', '4', '5', '6', '7', '8', '9'][d]
  }

  /** The value of one digit character. */
  function DigitValue(c: char): (d: nat)
    requires IsDigit(c)
    ensures d < 10
  {
    (c as int) - ('0' as int)
  }

  /**
   * The decimal digits of a non-negative integer: how a state number in 1..37
   * (the only numbers that reach this function) is written in a template
   * string. JavaScript writes numbers from 1e21 up in exponent form instead.
   */
  function DecimalString(n: nat): (s: string)
    ensures |s| > 0
    ensures forall i :: 0 <= i < |s| ==> IsDigit(s[i])
    ensures s[0] == '0' ==> n == 0
  {
    if n < 10 then [DigitChar(n)] else DecimalString(n / 10) + [DigitChar(n % 10)]
  }

  /** Reads a string of digits back as a number. */
  function ParseDecimal(s: string): nat
    requires forall i :: 0 <= i < |s| ==> IsDigit(s[i])
  {
    if s == [] then 0 else ParseDecimal(s[..|s| - 1]) * 10 + DigitValue(s[|s| - 1])
  }

  /** The decimal text of a number reads back as that number. */
  lemma {:induction false} DecimalRoundTrip(n: nat)
    ensures ParseDecimal(DecimalString(n)) == n
  {
    var s := DecimalString(n);
    if n < 10 {
      assert s[..|s| - 1] == [];
      assert DigitValue(DigitChar(n)) == n;
    } else {
      DecimalRoundTrip(n / 10);
      assert s[..|s| - 1] == DecimalString(n / 10);
      assert DigitValue(DigitChar(n % 10)) == n % 10;
    }
  }

  /** Different numbers are written differently. */
  lemma DecimalStringInjective(m: nat, n: nat)
    requires DecimalString(m) == DecimalString(n)
    ensures m == n
  {
    DecimalRoundTrip(m);
    DecimalRoundTrip(n);
  }
}
