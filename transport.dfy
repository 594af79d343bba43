/**
 * The HTTP transport the connector talks through, and the classification of
 * its responses that every operation applies.
 */
module Transport {
  import opened Wrappers
  import Json
  import opened Documents

  /** The failures the connector raises. */
  datatype JiraError =
    | LoginFailure                                       // the login exception (status 401)
    | JiraFailure(message: string, inner: Option<string>) // the connector exception, with an optional inner message
    | Malformed                                          // a response body of a shape the decoding cannot read

  datatype Result<T> = Ok(value: T) | Err(error: JiraError)

  datatype HttpMethod = Get | Put | Post

  /**
   * A query-parameter value: text, or a number. The connector renders numbers
   * with their decimal ToString(); carrying the number fixes that text.
   */
  datatype QueryValue = Text(text: string) | Number(n: int)

  /** One request: HTTP method, resource path, URL segments, query parameters and JSON body. */
  datatype Request = Request(
    verb: HttpMethod,
    resource: string,
    segments: seq<(string, string)>,
    query: seq<(string, QueryValue)>,
    body: Option<Json.Value>)

  /** One response: status code, status description, raw body and the decoded body. */
  datatype Response = Response(status: int, description: string, content: string, doc: Doc)

  /**
   * The one success status an operation accepts: 200 OK for reads, 201 Created
   * for a new comment, 204 No Content for updates and transitions (sections
   * 15.3.1, 15.3.2 and 15.3.5 of RFC 9110).
   */
  datatype Success = OK | Created | NoContent
  {
    function Code(): int
    {
      match this
      case OK => 200
      case Created => 201
      case NoContent => 204
    }
  }

  /** 401 Unauthorized, section 15.5.2 of RFC 9110. */
  const Unauthorized: int := 401

  /**
   * The check after every call: the expected status gives the body, 401 the
   * login failure, anything else the connector exception carrying the status
   * description with the raw body as inner message.
   */
  function Classify(resp: Response, expected: Success): (r: Result<Doc>)
    ensures r.Ok? <==> resp.status == expected.Code()
    ensures r.Ok? ==> r.value == resp.doc
    ensures r == Err(LoginFailure) <==> resp.status == Unauthorized
    ensures resp.status != expected.Code() && resp.status != Unauthorized ==>
              r == Err(JiraFailure(resp.description, Some(resp.content)))
  {
    if resp.status == expected.Code() then Ok(resp.doc)
    else if resp.status == Unauthorized then Err(LoginFailure)
    else Err(JiraFailure(resp.description, Some(resp.content)))
  }

  /** 401 is never a success, whatever the operation; it is always the login failure. */
  lemma UnauthorizedIsLoginFailure(resp: Response, expected: Success)
    requires resp.status == Unauthorized
    ensures Classify(resp, expected) == Err(LoginFailure)
  {
  }

  /**
   * A stand-in for the HTTP client: `server` answers each request (the remote
   * service), `sent` records the requests in the order they were executed.
   */
  class Transport {
    const server: Request -> Response
    var sent: seq<Request>

    constructor (server: Request -> Response)
      ensures this.server == server && sent == []
    {
      this.server := server;
      sent := [];
    }

    method Execute(req: Request) returns (resp: Response)
      modifies this`sent
      ensures sent == old(sent) + [req]
      ensures resp == server(req)
    {
      sent := sent + [req];
      resp := server(req);
    }
  }
}
