/** The `call_*` wrappers around the backend's HTTP endpoints. Each wrapper makes one
    request, lets `raise_for_status` turn an error status into an exception, and
    catches every `RequestException`, returning a sentinel (an error string, `None`
    or `False`) in its place. The request itself is an input here: an `HttpOutcome`
    is what the HTTP client saw, and each wrapper is a pure map from it to the value
    the wrapper returns. */
module Backend {
  import opened Common

  /** One outbound request as the HTTP client saw it: a response with its status, its
      reason phrase and its decoded body, or a transport failure (connection refused,
      timeout, ...) carrying the exception's text. */
  datatype HttpOutcome<+P> =
    | Response(status: int, reason: string, body: P)
    | TransportFailure(message: string)

  /** `raise_for_status` raises for client errors (4xx) and server errors (5xx), and
      for no other status. */
  predicate IsErrorStatus(status: int)
  {
    400 <= status < 600
  }

  /** The request ends in a `RequestException`. */
  predicate Fails<P>(o: HttpOutcome<P>)
  {
    o.TransportFailure? || IsErrorStatus(o.status)
  }

  /** The text `{e}` of the caught exception: the transport error's message, or, for
      an error status, the response's reason phrase. */
  function ExceptionText<P>(o: HttpOutcome<P>): string
  {
    match o
    case TransportFailure(message) => message
    case Response(_, reason, _) => reason
  }

  /** A wrapper result that is either the payload or an error string in its place. */
  datatype StrOr<+T> = Value(value: T) | ErrorText(text: string)

  const ListDatabasesPrefix := "Error listing databases: "
  const GenerateSqlPrefix := "Error generating SQL: "

  /** call_list_databases: the `KnownDB` list, or an error string in its place. */
  function CallListDatabases(o: HttpOutcome<seq<string>>): (r: StrOr<seq<string>>)
    ensures r.Value? <==> !Fails(o)
    ensures r.Value? ==> r.value == o.body
    ensures r.ErrorText? ==> r.text == ListDatabasesPrefix + ExceptionText(o) && r.text != ""
  {
    if Fails(o) then ErrorText(ListDatabasesPrefix + ExceptionText(o)) else Value(o.body)
  }

  /** The shape shared by the wrappers whose sentinel is `None`: the payload when the
      request does not raise, `None` when it does. */
  function PayloadOrNone<T>(o: HttpOutcome<T>): (r: Option<T>)
    ensures r.Some? <==> !Fails(o)
    ensures r.Some? ==> r.value == o.body
  {
    if Fails(o) then None else Some(o.body)
  }

  /** call_get_known_sql: the `KnownSQL` suggestions, or `None`. */
  function CallGetKnownSql(o: HttpOutcome<seq<string>>): (r: Option<seq<string>>)
    ensures r.Some? <==> !Fails(o)
    ensures r.Some? ==> r.value == o.body
  {
    PayloadOrNone(o)
  }

  /** call_generate_sql: the whole decoded response object (not only its SQL), or an
      error string in its place. The same mapping serves both front-ends; the older
      one differs only in sending no identity token. */
  function CallGenerateSql<P>(o: HttpOutcome<P>): (r: StrOr<P>)
    ensures r.Value? <==> !Fails(o)
    ensures r.Value? ==> r.value == o.body
    ensures r.ErrorText? ==> r.text == GenerateSqlPrefix + ExceptionText(o) && r.text != ""
  {
    if Fails(o) then ErrorText(GenerateSqlPrefix + ExceptionText(o)) else Value(o.body)
  }

  /** call_run_query: the result rows carried in the `KnownDB` field, or `None`. */
  function CallRunQuery(o: HttpOutcome<seq<Row>>): (r: Option<seq<Row>>)
    ensures r.Some? <==> !Fails(o)
    ensures r.Some? ==> r.value == o.body
  {
    PayloadOrNone(o)
  }

  /** call_embed_sql: `True` when the request does not raise, `False` when it does.
      The body is never read. Only 4xx and 5xx count as failures, so a response with
      any other status, a redirect status among them, is acknowledged. */
  function CallEmbedSql<P>(o: HttpOutcome<P>): (acknowledged: bool)
    ensures acknowledged <==> !Fails(o)
    ensures o.Response? ==> (acknowledged <==> !IsErrorStatus(o.status))
    ensures o.TransportFailure? ==> !acknowledged
  {
    !Fails(o)
  }

  /** call_natural_response: the `NaturalResponse` text, or `None`. */
  function CallNaturalResponse(o: HttpOutcome<string>): (r: Option<string>)
    ensures r.Some? <==> !Fails(o)
    ensures r.Some? ==> r.value == o.body
  {
    PayloadOrNone(o)
  }

  /** call_generate_viz: the `GeneratedChartjs` object, or `None`. */
  function CallGenerateViz(o: HttpOutcome<Charts>): (r: Option<Charts>)
    ensures r.Some? <==> !Fails(o)
    ensures r.Some? ==> r.value == o.body
  {
    PayloadOrNone(o)
  }
}
