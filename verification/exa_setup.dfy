/**
  The decision logic of `setup_exa_mcp_server` (research_tools.py:79-152):
  resolve the search API key, register the "exa" tool server (tolerating
  an "already exists" error), list its capabilities, and attach the
  allow-listed ones, collecting the ids of those that attach.

  The platform is replaced by its answers: whether adding the server
  returns or raises, whether listing returns or raises, and for each
  listed capability what attaching it would return. The result records
  the ids returned and the platform calls made, in order.
 */
module ExaSetup {
  import opened Options
  import Text

  const ServerName: string := "exa"
  const DesiredTools: seq<string> := ["web_search_exa", "crawling_exa"]
  const AlreadyExists: string := "already exists"

  /** Python truthiness of an optional string: present and non-empty. */
  predicate Present(key: Option<string>) {
    key.Some? && key.value != ""
  }

  /**
    `api_key or os.getenv("EXA_API_KEY")`, then the `if not exa_api_key`
    test: the explicit key when present, otherwise the environment's, and
    no key when neither is present (an empty string counts as absent).
   */
  function ResolveKey(apiKey: Option<string>, envKey: Option<string>): (r: Option<string>)
    ensures r.None? || Present(r)
    ensures r.Some? <==> Present(apiKey) || Present(envKey)
    ensures Present(apiKey) ==> r == apiKey
    ensures !Present(apiKey) && Present(envKey) ==> r == envKey
  {
    if Present(apiKey) then apiKey
    else if Present(envKey) then envKey
    else None
  }

  /** What the platform answers when asked to attach one capability. */
  datatype AttachOutcome = Attached(id: string) | AttachFailed(message: string)

  /** A capability the server lists, with the platform's answer to attaching it. */
  datatype McpTool = McpTool(name: string, attach: AttachOutcome)

  datatype ServerOutcome = ServerAdded | ServerFailed(message: string)
  datatype Listing = Listed(tools: seq<McpTool>) | ListingFailed(message: string)

  /** The platform's answers to the calls setup can make. */
  datatype Platform = Platform(addServer: ServerOutcome, listing: Listing)

  datatype PlatformCall =
    | AddMcpServer(server: string)
    | ListMcpTools(server: string)
    | AddMcpTool(server: string, tool: string)

  /** The ids setup returns and the platform calls it made, in order. */
  datatype SetupRun = SetupRun(toolIds: seq<string>, calls: seq<PlatformCall>)

  predicate Desired(name: string) {
    name in DesiredTools
  }

  /** The names setup tries to attach: the allow-listed ones, in listing order. */
  function DesiredNames(tools: seq<McpTool>): seq<string>
    decreases |tools|
  {
    if |tools| == 0 then []
    else (if Desired(tools[0].name) then [tools[0].name] else []) + DesiredNames(tools[1..])
  }

  /** The ids of the allow-listed tools that attach, in listing order. */
  function AttachedIds(tools: seq<McpTool>): seq<string>
    decreases |tools|
  {
    if |tools| == 0 then []
    else
      (if Desired(tools[0].name) && tools[0].attach.Attached? then [tools[0].attach.id] else [])
      + AttachedIds(tools[1..])
  }

  /** One attach call per name, in order. */
  function AttachCalls(names: seq<string>): (calls: seq<PlatformCall>)
    ensures |calls| == |names|
    ensures forall i :: 0 <= i < |names| ==> calls[i] == AddMcpTool(ServerName, names[i])
  {
    seq(|names|, i requires 0 <= i < |names| => AddMcpTool(ServerName, names[i]))
  }

  /** Adding the server counts as done: it returned, or raised an error saying the server already exists. */
  predicate ServerRegistered(outcome: ServerOutcome) {
    outcome.ServerAdded? || Text.Contains(outcome.message, AlreadyExists)
  }

  /**
    The whole setup. Without a key nothing is called and nothing returned;
    a server registration that fails for another reason, or a listing that
    fails, ends setup with no ids; otherwise every allow-listed capability
    gets one attach call in listing order, and the ids of those that attach
    are returned in that order.
   */
  function SetupExaMcpServer(apiKey: Option<string>, envKey: Option<string>, platform: Platform): (r: SetupRun)
    ensures !Present(apiKey) && !Present(envKey) ==> r == SetupRun([], [])
    ensures Present(apiKey) || Present(envKey) ==> |r.calls| >= 1 && r.calls[0] == AddMcpServer(ServerName)
    ensures (Present(apiKey) || Present(envKey)) && !ServerRegistered(platform.addServer)
            ==> r == SetupRun([], [AddMcpServer(ServerName)])
    ensures (Present(apiKey) || Present(envKey)) && ServerRegistered(platform.addServer) && platform.listing.ListingFailed?
            ==> r == SetupRun([], [AddMcpServer(ServerName), ListMcpTools(ServerName)])
    ensures r.toolIds != [] ==> platform.listing.Listed? && r.toolIds == AttachedIds(platform.listing.tools)
    ensures forall i :: 2 <= i < |r.calls| ==> r.calls[i].AddMcpTool? && Desired(r.calls[i].tool)
  {
    if ResolveKey(apiKey, envKey).None? then
      SetupRun([], [])
    else if !ServerRegistered(platform.addServer) then
      SetupRun([], [AddMcpServer(ServerName)])
    else
      match platform.listing
      case ListingFailed(_) =>
        SetupRun([], [AddMcpServer(ServerName), ListMcpTools(ServerName)])
      case Listed(tools) =>
        DesiredNamesAreDesired(tools);
        SetupRun(AttachedIds(tools),
                 [AddMcpServer(ServerName), ListMcpTools(ServerName)] + AttachCalls(DesiredNames(tools)))
  }

  /**
    The attach loop of research_tools.py:128-145: for each listed tool in
    order, an allow-listed name gets an attach attempt, a successful attach
    contributes its id, and a failed one is skipped.
   */
  method AttachDesiredTools(tools: seq<McpTool>) returns (toolIds: seq<string>, attempts: seq<string>)
    ensures toolIds == AttachedIds(tools)
    ensures attempts == DesiredNames(tools)
  {
    toolIds := [];
    attempts := [];
    for i := 0 to |tools|
      invariant toolIds == AttachedIds(tools[..i])
      invariant attempts == DesiredNames(tools[..i])
    {
      var tool := tools[i];
      AttachedIdsAppend(tools[..i], [tool]);
      DesiredNamesAppend(tools[..i], [tool]);
      assert tools[..i + 1] == tools[..i] + [tool];
      if tool.name in DesiredTools {
        attempts := attempts + [tool.name];
        match tool.attach
        case Attached(id) =>
          toolIds := toolIds + [id];
        case AttachFailed(_) =>
      }
    }
    assert tools[..|tools|] == tools;
  }

  // ---------------------------------------------------------------------
  // Properties of the selection

  lemma {:induction false} DesiredNamesAppend(a: seq<McpTool>, b: seq<McpTool>)
    ensures DesiredNames(a + b) == DesiredNames(a) + DesiredNames(b)
    decreases |a|
  {
    if |a| == 0 {
      assert a + b == b;
    } else {
      assert (a + b)[1..] == a[1..] + b;
      DesiredNamesAppend(a[1..], b);
    }
  }

  /**
    Attaching is item by item: the ids from a concatenated listing are the
    ids from the first part followed by the ids from the second, so order
    is kept and what happens to one tool does not affect the others.
   */
  lemma {:induction false} AttachedIdsAppend(a: seq<McpTool>, b: seq<McpTool>)
    ensures AttachedIds(a + b) == AttachedIds(a) + AttachedIds(b)
    decreases |a|
  {
    if |a| == 0 {
      assert a + b == b;
    } else {
      assert (a + b)[1..] == a[1..] + b;
      AttachedIdsAppend(a[1..], b);
    }
  }

  /** A tool whose attach fails is skipped and the rest are still processed. */
  lemma FailedAttachSkipped(before: seq<McpTool>, tool: McpTool, after: seq<McpTool>)
    requires tool.attach.AttachFailed?
    ensures AttachedIds(before + [tool] + after) == AttachedIds(before + after)
  {
    AttachedIdsAppend(before + [tool], after);
    AttachedIdsAppend(before, [tool]);
    AttachedIdsAppend(before, after);
  }

  /** Only allow-listed names get an attach attempt, and every listed allow-listed name gets one. */
  lemma {:induction false} DesiredNamesAreDesired(tools: seq<McpTool>)
    ensures forall n :: n in DesiredNames(tools) <==> Desired(n) && exists i :: 0 <= i < |tools| && tools[i].name == n
    decreases |tools|
  {
    if |tools| > 0 {
      DesiredNamesAreDesired(tools[1..]);
      forall n
        ensures n in DesiredNames(tools) <==> Desired(n) && exists i :: 0 <= i < |tools| && tools[i].name == n
      {
        if Desired(n) && (exists i :: 0 <= i < |tools| && tools[i].name == n) {
          var i :| 0 <= i < |tools| && tools[i].name == n;
          if i > 0 {
            assert tools[1..][i - 1].name == n;
          }
        }
        if n in DesiredNames(tools[1..]) {
          var j :| 0 <= j < |tools[1..]| && tools[1..][j].name == n;
          assert tools[j + 1].name == n;
        }
      }
    }
  }

  /**
    An id is returned exactly when some listed allow-listed tool attached
    with that id.
   */
  lemma {:induction false} AttachedIdsMembership(tools: seq<McpTool>, id: string)
    ensures id in AttachedIds(tools)
        <==> exists i :: 0 <= i < |tools| && Desired(tools[i].name) && tools[i].attach == Attached(id)
    decreases |tools|
  {
    if |tools| > 0 {
      AttachedIdsMembership(tools[1..], id);
      if exists i :: 0 <= i < |tools| && Desired(tools[i].name) && tools[i].attach == Attached(id) {
        var i :| 0 <= i < |tools| && Desired(tools[i].name) && tools[i].attach == Attached(id);
        if i > 0 {
          assert tools[1..][i - 1] == tools[i];
        }
      }
      if id in AttachedIds(tools[1..]) {
        var j :| 0 <= j < |tools[1..]| && Desired(tools[1..][j].name) && tools[1..][j].attach == Attached(id);
        assert tools[j + 1] == tools[1..][j];
      }
    }
  }

  /**
    No more ids than attach attempts, and exactly as many precisely when
    every allow-listed tool attaches.
   */
  lemma {:induction false} AttachedIdsBound(tools: seq<McpTool>)
    ensures |AttachedIds(tools)| <= |DesiredNames(tools)|
    ensures |AttachedIds(tools)| == |DesiredNames(tools)|
        <==> forall i :: 0 <= i < |tools| && Desired(tools[i].name) ==> tools[i].attach.Attached?
    decreases |tools|
  {
    if |tools| > 0 {
      AttachedIdsBound(tools[1..]);
      assert forall i :: 1 <= i < |tools| ==> tools[i] == tools[1..][i - 1];
    }
  }

  /** An "already exists" error from adding the server changes nothing: setup goes on as if it had been added. */
  lemma ExistingServerTolerated(apiKey: Option<string>, envKey: Option<string>, message: string, listing: Listing)
    requires Text.Contains(message, AlreadyExists)
    ensures SetupExaMcpServer(apiKey, envKey, Platform(ServerFailed(message), listing))
         == SetupExaMcpServer(apiKey, envKey, Platform(ServerAdded, listing))
  {
  }

  /**
    With a key, a registered server and a successful listing, setup
    returns the attached ids and makes one attach call per allow-listed
    tool, after adding the server and listing it.
   */
  lemma SetupAttaches(apiKey: Option<string>, envKey: Option<string>, addServer: ServerOutcome, tools: seq<McpTool>)
    requires Present(apiKey) || Present(envKey)
    requires ServerRegistered(addServer)
    ensures var r := SetupExaMcpServer(apiKey, envKey, Platform(addServer, Listed(tools)));
            && r.toolIds == AttachedIds(tools)
            && |r.toolIds| <= |DesiredNames(tools)|
            && r.calls == [AddMcpServer(ServerName), ListMcpTools(ServerName)] + AttachCalls(DesiredNames(tools))
  {
    AttachedIdsBound(tools);
  }
}
