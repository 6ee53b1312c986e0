/**
  The context helpers of `context.py`: access to the lifespan client and
  settings of a request, and the choice of client for a requested host. The
  host allow-list of the settings is a parameter (`isHostAllowed`), since its
  definition is not part of this model.
*/
module Context {
  import opened Wrappers
  import opened Errors
  import opened Config
  import opened Client

  /** The lifespan context: the shared client and the settings. */
  datatype Lifespan = Lifespan(client: PCPClient, settings: Settings)

  /** `ctx.request_context`, whose `lifespan_context` may be None. */
  datatype RequestContext = RequestContext(lifespan: Option<Lifespan>)

  /** The MCP context of a call; `request` is None outside a request. */
  datatype McpContext = McpContext(request: Option<RequestContext>)

  const ContextUnavailable := ToolError("Server context not available")

  /** `_validate_context`: both the request context and its lifespan context must be present. */
  function ValidateContext(ctx: McpContext): (r: Result<Lifespan, PyError>)
    ensures r.Err? <==> ctx.request.None? || ctx.request.value.lifespan.None?
    ensures r.Err? ==> r.error == ContextUnavailable
    ensures r.Ok? ==> r.value == ctx.request.value.lifespan.value
  {
    if ctx.request.None? || ctx.request.value.lifespan.None? then Err(ContextUnavailable)
    else Ok(ctx.request.value.lifespan.value)
  }

  /** `get_client`: the lifespan client. */
  function GetClient(ctx: McpContext): (r: Result<PCPClient, PyError>)
    ensures r.Ok? <==> ctx.request.Some? && ctx.request.value.lifespan.Some?
    ensures r.Err? ==> r.error == ContextUnavailable
    ensures r.Ok? ==> r.value == ctx.request.value.lifespan.value.client
  {
    var lifespan :- ValidateContext(ctx);
    Ok(lifespan.client)
  }

  /** `get_settings`: the lifespan settings. */
  function GetSettings(ctx: McpContext): (r: Result<Settings, PyError>)
    ensures r.Ok? <==> ctx.request.Some? && ctx.request.value.lifespan.Some?
    ensures r.Err? ==> r.error == ContextUnavailable
    ensures r.Ok? ==> r.value == ctx.request.value.lifespan.value.settings
  {
    var lifespan :- ValidateContext(ctx);
    Ok(lifespan.settings)
  }

  /** Client and settings are available together, and both fail with the same error otherwise. */
  lemma AccessorsAgree(ctx: McpContext)
    ensures GetClient(ctx).Ok? <==> GetSettings(ctx).Ok?
    ensures GetClient(ctx).Err? ==> GetClient(ctx).error == GetSettings(ctx).error == ContextUnavailable
    ensures GetClient(ctx).Ok? ==>
              Lifespan(GetClient(ctx).value, GetSettings(ctx).value) == ctx.request.value.lifespan.value
  {
  }

  /** The steps `get_client_for_host` takes around the caller's block. */
  datatype Event = Constructed(host: string) | Entered | Yielded | Exited

  /** The error for a host outside the allow-list. */
  function HostDenied(host: string): PyError
  {
    ToolError("Host '" + host + "' is not in the allowed hosts list. "
              + "Configure PCP_ALLOWED_HOSTS to permit additional hosts.")
  }

  /**
    `async with get_client_for_host(ctx, host)`: no host, or the configured
    target host, yields the lifespan client; a host outside the allow-list is
    refused before any client exists; any other host gets a new client for
    that host with the configured URL, credentials and timeout, entered
    before it is yielded and exited once after the caller's block. A failed
    enter propagates, and then nothing is yielded and nothing exited.
    `yielded` is the client the caller's block receives (or the raised
    error), in the state it is left in once the block has finished and the
    client has been exited; `events` are the steps in order.
  */
  method WithClientForHost(ctx: McpContext, host: Option<string>, isHostAllowed: string -> bool,
                           enterReply: Result<HttpReply<Option<int>>, PyError>)
    returns (yielded: Result<PCPClient, PyError>, events: seq<Event>)
    ensures GetSettings(ctx).Err? ==> yielded == Err(ContextUnavailable) && events == []
    ensures GetSettings(ctx).Ok? && (host.None? || host.value == GetSettings(ctx).value.targetHost) ==>
              yielded == GetClient(ctx) && yielded.Ok? && events == [Yielded]
    ensures GetSettings(ctx).Ok? && host.Some? && host.value != GetSettings(ctx).value.targetHost
            && !isHostAllowed(host.value) ==>
              yielded == Err(HostDenied(host.value)) && events == []
    ensures GetSettings(ctx).Ok? && host.Some? && host.value != GetSettings(ctx).value.targetHost
            && isHostAllowed(host.value) ==>
              && |events| >= 2 && events[..2] == [Constructed(host.value), Entered]
              && (yielded.Err? <==> events == [Constructed(host.value), Entered])
              && (yielded.Ok? <==> events == [Constructed(host.value), Entered, Yielded, Exited])
    ensures yielded.Ok? && Constructed(host.GetOr("")) in events ==>
              var c, s := yielded.value, GetSettings(ctx).value;
              && fresh(c) && !c.session
              && c.targetHost == host.value && c.baseUrl == BaseUrl(s) && c.auth == Auth(s) && c.timeout == s.timeout
              && c.sent == [ContextRequest(host.value)] && Checked(enterReply).Ok? && c.contextId == Checked(enterReply).value
  {
    events := [];
    var settings :- ValidateContext(ctx);
    var s := settings.settings;
    if host.None? || host.value == s.targetHost {
      return GetClient(ctx), [Yielded];
    }
    var h := host.value;
    if !isHostAllowed(h) {
      return Err(HostDenied(h)), [];
    }
    var c := new PCPClient(BaseUrl(s), h, Auth(s), s.timeout);
    events := [Constructed(h)];
    var entered := c.Enter(enterReply);
    events := events + [Entered];
    if entered.Err? {
      return Err(entered.error), events;
    }
    events := events + [Yielded];
    c.Exit();
    events := events + [Exited];
    yielded := Ok(c);
  }
}
