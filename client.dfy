/**
  `PCPClient` of `client.py`: the pmproxy REST client. It has a session
  only between entering and exiting; entering opens a PMAPI context for the
  target host and keeps its id, and each request names that context. The
  network is outside the model: every request takes the reply pmproxy gives
  (or the transport failure), and the client keeps a log of the requests it
  sends.
*/
module Client {
  import opened Wrappers
  import opened Strings
  import opened Errors
  import opened Values

  /** One GET to pmproxy with its query parameters; a context of None is the unset context id. */
  datatype Request =
    | ContextRequest(hostspec: string)
    | FetchRequest(context: Option<int>, names: string)
    | SearchRequest(context: Option<int>, prefix: string)
    | DescribeRequest(context: Option<int>, names: string)

  /**
    A received HTTP response: status code, body text, the text of the
    HTTPStatusError raised for it when the status is not 2xx, and the parsed
    JSON field the caller reads.
  */
  datatype HttpReply<T> = HttpReply(status: int, text: string, errorMessage: string, body: T)

  const NotConnected := Other("RuntimeError", "Client not connected. Use async with context.")

  /** `resp.raise_for_status()` followed by reading the body: only a 2xx status passes. */
  function Checked<T>(reply: Result<HttpReply<T>, PyError>): (r: Result<T, PyError>)
    ensures reply.Err? ==> r == Err(reply.error)
    ensures reply.Ok? ==> (r.Ok? <==> 200 <= reply.value.status < 300)
    ensures r.Ok? ==> r.value == reply.value.body
    ensures reply.Ok? && r.Err? ==> r.error == HttpStatus(reply.value.status, reply.value.text, reply.value.errorMessage)
  {
    match reply
    case Err(e) => Err(e)
    case Ok(resp) =>
      if 200 <= resp.status < 300 then Ok(resp.body) else Err(HttpStatus(resp.status, resp.text, resp.errorMessage))
  }

  /** `metrics[0] if metrics else {}` over the `metrics` list of a reply. */
  function FirstOrEmpty(metrics: seq<Meta>): (m: Meta)
    ensures |metrics| > 0 ==> m == metrics[0]
    ensures |metrics| == 0 ==> m == []
  {
    if |metrics| > 0 then metrics[0] else []
  }

  class PCPClient {
    const baseUrl: string
    const targetHost: string
    const auth: Option<(string, string)>
    const timeout: real

    /** `_client is not None`: an HTTP session is open. */
    var session: bool
    /** `_context_id`. */
    var contextId: Option<int>
    /** The requests sent so far, oldest first. */
    var sent: seq<Request>

    /** A new client has no session and no context. */
    constructor(baseUrl: string, targetHost: string := "localhost", auth: Option<(string, string)> := None,
                timeout: real := 30.0)
      ensures this.baseUrl == baseUrl && this.targetHost == targetHost
      ensures this.auth == auth && this.timeout == timeout
      ensures !session && contextId.None? && sent == []
    {
      this.baseUrl := baseUrl;
      this.targetHost := targetHost;
      this.auth := auth;
      this.timeout := timeout;
      session := false;
      contextId := None;
      sent := [];
    }

    /**
      `__aenter__`: opens the session, then asks for a context on the target
      host. The context id is set only from a 2xx reply that carries
      `context`; otherwise the failure is raised and the id is left as it was.
    */
    method Enter(reply: Result<HttpReply<Option<int>>, PyError>) returns (r: Result<(), PyError>)
      modifies this
      ensures session
      ensures sent == old(sent) + [ContextRequest(targetHost)]
      ensures Checked(reply).Err? ==> r == Err(Checked(reply).error) && contextId == old(contextId)
      ensures Checked(reply) == Ok(None) ==> r == Err(Other("KeyError", "'context'")) && contextId == old(contextId)
      ensures Checked(reply).Ok? && Checked(reply).value.Some? ==> r == Ok(()) && contextId == Checked(reply).value
    {
      session := true;
      sent := sent + [ContextRequest(targetHost)];
      var body :- Checked(reply);
      if body.None? {
        return Err(Other("KeyError", "'context'"));
      }
      contextId := body;
      return Ok(());
    }

    /** `__aexit__`: closes the session if there is one; the context id is kept. */
    method Exit()
      modifies this
      ensures !session
      ensures contextId == old(contextId) && sent == old(sent)
    {
      if session {
        session := false;
      }
    }

    /** `fetch(names)`: the names joined by "," under the current context; the reply's JSON as is. */
    method Fetch(names: seq<string>, reply: Result<HttpReply<RawResponse>, PyError>) returns (r: Result<RawResponse, PyError>)
      modifies this
      ensures session == old(session) && contextId == old(contextId)
      ensures !session ==> r == Err(NotConnected) && sent == old(sent)
      ensures session ==> r == Checked(reply) && sent == old(sent) + [FetchRequest(contextId, Join(names, ","))]
    {
      if !session {
        return Err(NotConnected);
      }
      sent := sent + [FetchRequest(contextId, Join(names, ","))];
      r := Checked(reply);
    }

    /** `search(pattern)`: the reply's `metrics` list, or [] when the field is absent. */
    method Search(pattern: string, reply: Result<HttpReply<Option<seq<Meta>>>, PyError>) returns (r: Result<seq<Meta>, PyError>)
      modifies this
      ensures session == old(session) && contextId == old(contextId)
      ensures !session ==> r == Err(NotConnected) && sent == old(sent)
      ensures session ==> sent == old(sent) + [SearchRequest(contextId, pattern)]
      ensures session && Checked(reply).Err? ==> r == Err(Checked(reply).error)
      ensures session && Checked(reply).Ok? ==> r == Ok(Checked(reply).value.GetOr([]))
    {
      if !session {
        return Err(NotConnected);
      }
      sent := sent + [SearchRequest(contextId, pattern)];
      var metrics :- Checked(reply);
      return Ok(metrics.GetOr([]));
    }

    /** `describe(name)`: the first metric of the reply, or {} when there is none. */
    method Describe(name: string, reply: Result<HttpReply<Option<seq<Meta>>>, PyError>) returns (r: Result<Meta, PyError>)
      modifies this
      ensures session == old(session) && contextId == old(contextId)
      ensures !session ==> r == Err(NotConnected) && sent == old(sent)
      ensures session ==> sent == old(sent) + [DescribeRequest(contextId, name)]
      ensures session && Checked(reply).Err? ==> r == Err(Checked(reply).error)
      ensures session && Checked(reply).Ok? ==> r == Ok(FirstOrEmpty(Checked(reply).value.GetOr([])))
    {
      if !session {
        return Err(NotConnected);
      }
      sent := sent + [DescribeRequest(contextId, name)];
      var metrics :- Checked(reply);
      return Ok(FirstOrEmpty(metrics.GetOr([])));
    }
  }

  /**
    A whole client life: a fetch before entering is refused; after a
    successful enter the fetch names the new context; after exit the fetch is
    refused again while the context id stays as it was.
  */
  method Lifecycle(host: string, context: int, names: seq<string>, reply: Result<HttpReply<RawResponse>, PyError>)
    returns (before: Result<RawResponse, PyError>, during: Result<RawResponse, PyError>,
             after: Result<RawResponse, PyError>, log: seq<Request>, kept: Option<int>)
    ensures before == Err(NotConnected) && after == Err(NotConnected)
    ensures during == Checked(reply)
    ensures log == [ContextRequest(host), FetchRequest(Some(context), Join(names, ","))]
    ensures kept == Some(context)
  {
    var c := new PCPClient("http://localhost:44322", host);
    before := c.Fetch(names, reply);
    var entered := c.Enter(Ok(HttpReply(200, "", "", Some(context))));
    during := c.Fetch(names, reply);
    c.Exit();
    c.Exit();
    after := c.Fetch(names, reply);
    log := c.sent;
    kept := c.contextId;
  }
}
