/**
 * The preview provider: the compile state machine, the compile-server log
 * and the log socket (src/contexts/PreviewContext.tsx). The HTTP reply and
 * the socket's events are inputs; nothing here talks to a network.
 */
module PreviewContext {
  import opened Wrappers
  import opened Strings
  import opened FileSystemNode

  /** What the preview pane is told about the last compile. */
  datatype PreviewState = PreviewState(
    projectName: Option<string>,
    previewUrl: Option<string>,
    apiUrl: Option<string>,
    loading: bool,
    error: Option<string>)

  const InitialState := PreviewState(None, None, None, false, None)

  /** JavaScript truthiness of an optional string: present and not empty. */
  predicate Truthy(o: Option<string>) {
    o.Some? && o.value != ""
  }

  /**
   * How a compile request ended: a reply carrying a URL, a reply carrying an
   * `error` field (and no URL), or an exception from the request itself.
   */
  datatype HttpResult = Ok(url: string) | ErrResult(error: string) | Fault(message: string)

  /**
   * The message of the TypeError raised when a reply has neither a truthy
   * `error` nor a URL, so the code reads `.split` of undefined.
   */
  const MissingUrlMessage := "Cannot read properties of undefined (reading 'split')"

  /** Which compile endpoint a request went to. */
  datatype Target = Mobile | Backend

  /** The state update made when a compile starts. */
  function StartState(s: PreviewState, name: string, target: Target): (r: PreviewState)
    ensures r.loading && r.error == None && r.projectName == Some(name)
    ensures r.previewUrl == s.previewUrl
    ensures r.apiUrl == if target == Backend then None else s.apiUrl
  {
    var r := s.(loading := true, error := None, projectName := Some(name));
    if target == Backend then r.(apiUrl := None) else r
  }

  /** Whether a reply goes down the success path. */
  predicate Succeeds(result: HttpResult) {
    result.Ok?
  }

  /** The state update made when a compile's reply or fault arrives. */
  function SettleState(s: PreviewState, name: string, target: Target, result: HttpResult): (r: PreviewState)
    ensures r.projectName == Some(name) && !r.loading
    ensures Succeeds(result) ==> r.error == s.error
    ensures Succeeds(result) && target == Mobile ==> r.previewUrl == Some(result.url) && r.apiUrl == None
    ensures Succeeds(result) && target == Backend ==> r.apiUrl == Some(result.url) && r.previewUrl == None
    ensures !Succeeds(result) ==> r.previewUrl == s.previewUrl && r.apiUrl == s.apiUrl
    ensures result.ErrResult? && result.error != "" ==> r.error == Some(result.error)
    ensures result.ErrResult? && result.error == "" ==> r.error == Some(MissingUrlMessage)
    ensures result.Fault? ==> r.error == Some(result.message)
  {
    match result
    case Ok(url) =>
      if target == Mobile then s.(previewUrl := Some(url), apiUrl := None, loading := false, projectName := Some(name))
      else s.(apiUrl := Some(url), previewUrl := None, loading := false, projectName := Some(name))
    case ErrResult(e) =>
      if e != "" then s.(error := Some(e), loading := false, projectName := Some(name))
      else s.(error := Some(MissingUrlMessage), loading := false, projectName := Some(name))
    case Fault(m) =>
      s.(error := Some(m), loading := false, projectName := Some(name))
  }

  /** The mobile session id: the last '/'-separated segment of the preview URL. */
  function MobileSessionId(previewUrl: string): (id: string)
    ensures id == LastField(previewUrl, '/')
    ensures '/' !in id && EndsWith(previewUrl, id)
  {
    Split(LastField(previewUrl, '/'), '/')[0]
  }

  /** The backend session id: field 3 of the API URL split on '/', if there is one. */
  function BackendSessionId(apiUrl: string): (id: Option<string>)
    ensures id.Some? <==> |Split(apiUrl, '/')| >= 4
    ensures id.Some? ==> id.value == Split(apiUrl, '/')[3] && '/' !in id.value
  {
    var parts := Split(apiUrl, '/');
    if |parts| > 3 then Some(parts[3]) else None
  }

  /** The id the log socket is opened with after a successful compile. */
  function SessionId(target: Target, url: string): Option<string> {
    if target == Mobile then Some(MobileSessionId(url)) else BackendSessionId(url)
  }

  /** A URL ending in "/<id>" gives back `id` as its mobile session id. */
  lemma MobileSessionIdRoundTrip(prefix: string, id: string)
    requires '/' !in id
    ensures MobileSessionId(prefix + "/" + id) == id
  {
    assert prefix + "/" + id == prefix + ['/'] + id;
    LastFieldAfterSeparator(prefix, '/', id);
  }

  /** "/<a>/<b>/<id>" gives back `id` as its backend session id. */
  lemma BackendSessionIdRoundTrip(a: string, b: string, id: string)
    requires '/' !in a && '/' !in b && '/' !in id
    ensures BackendSessionId("/" + a + "/" + b + "/" + id) == Some(id)
  {
    var t := b + ['/'] + id;
    var u := a + ['/'] + t;
    var v := [] + ['/'] + u;
    assert Split(u, '/') == [a, b, id] by {
      SplitCons(b, '/', id);
      SplitCons(a, '/', t);
    }
    SplitCons([], '/', u);
    assert v == "/" + a + "/" + b + "/" + id by {
      var rhs := "/" + a + "/" + b + "/" + id;
      assert |v| == |rhs|;
      forall i | 0 <= i < |v| ensures v[i] == rhs[i] {
        if i == 0 {
        } else if i < 1 + |a| {
          assert v[i] == a[i - 1] == rhs[i];
        } else if i == 1 + |a| {
        } else if i < 2 + |a| + |b| {
          assert v[i] == b[i - 2 - |a|] == rhs[i];
        } else if i == 2 + |a| + |b| {
        } else {
          assert v[i] == id[i - 3 - |a| - |b|] == rhs[i];
        }
      }
    }
    assert Split(v, '/') == ["", a, b, id];
  }

  /** An API URL with only two segments after the root, such as "/api/xyz789", has no backend session id. */
  lemma ShortApiUrlHasNoSessionId(a: string, b: string)
    requires '/' !in a && '/' !in b
    ensures BackendSessionId("/" + a + "/" + b) == None
  {
    var u := a + ['/'] + b;
    var v := [] + ['/'] + u;
    SplitCons(a, '/', b);
    SplitCons([], '/', u);
    assert Split(v, '/') == ["", a, b];
    assert v == "/" + a + "/" + b;
  }

  // ---------------------------------------------------------------------
  // Replaying starts and replies in the order they happen
  // ---------------------------------------------------------------------

  /** Something that changes the preview state: a compile starting, or its reply arriving. */
  datatype Event = Start(name: string, target: Target) | Settle(name: string, target: Target, result: HttpResult)

  function Step(s: PreviewState, e: Event): PreviewState {
    match e
    case Start(name, target) => StartState(s, name, target)
    case Settle(name, target, result) => SettleState(s, name, target, result)
  }

  function Replay(s: PreviewState, events: seq<Event>): PreviewState
    decreases |events|
  {
    if events == [] then s else Replay(Step(s, events[0]), events[1..])
  }

  /** Never both a preview URL and an API URL. */
  predicate AtMostOneUrl(s: PreviewState) {
    !(s.previewUrl.Some? && s.apiUrl.Some?)
  }

  /** Every start and every reply keeps at most one of the two URLs set. */
  lemma StepKeepsAtMostOneUrl(s: PreviewState, e: Event)
    requires AtMostOneUrl(s)
    ensures AtMostOneUrl(Step(s, e))
  {
  }

  /** However starts and replies interleave, the two URLs are never set together. */
  lemma {:induction false} ReplayKeepsAtMostOneUrl(s: PreviewState, events: seq<Event>)
    requires AtMostOneUrl(s)
    ensures AtMostOneUrl(Replay(s, events))
    decreases |events|
  {
    if events != [] {
      StepKeepsAtMostOneUrl(s, events[0]);
      ReplayKeepsAtMostOneUrl(Step(s, events[0]), events[1..]);
    }
  }

  lemma {:induction false} ReplaySnoc(s: PreviewState, events: seq<Event>, e: Event)
    ensures Replay(s, events + [e]) == Step(Replay(s, events), e)
    decreases |events|
  {
    if events == [] {
      assert [e][1..] == [];
    } else {
      assert (events + [e])[1..] == events[1..] + [e];
      ReplaySnoc(Step(s, events[0]), events[1..], e);
    }
  }

  /**
   * No reply is discarded as stale: whatever came before, the last reply to
   * arrive names the project and ends loading.
   */
  lemma LastReplyWins(s: PreviewState, events: seq<Event>, name: string, target: Target, result: HttpResult)
    ensures var r := Replay(s, events + [Settle(name, target, result)]);
      r.projectName == Some(name) && !r.loading
      && (Succeeds(result) && target == Mobile ==> r.previewUrl == Some(result.url))
      && (Succeeds(result) && target == Backend ==> r.apiUrl == Some(result.url))
      && (Succeeds(result) ==> r.error == Replay(s, events).error)
      && (result.ErrResult? && result.error != "" ==> r.error == Some(result.error))
      && (result.ErrResult? && result.error == "" ==> r.error == Some(MissingUrlMessage))
      && (result.Fault? ==> r.error == Some(result.message))
  {
    ReplaySnoc(s, events, Settle(name, target, result));
  }

  /**
   * Two compiles whose replies cross: the first project's late failure is
   * shown under its name although the second project's URL is still set.
   */
  lemma CrossedRepliesKeepLaterUrl(a: string, b: string, url: string, msg: string)
    requires msg != ""
    ensures var r := Replay(InitialState, [Start(a, Mobile), Start(b, Mobile), Settle(b, Mobile, Ok(url)), Settle(a, Mobile, ErrResult(msg))]);
      r == PreviewState(Some(a), Some(url), None, false, Some(msg))
  {
    var e := [Start(a, Mobile), Start(b, Mobile), Settle(b, Mobile, Ok(url)), Settle(a, Mobile, ErrResult(msg))];
    ReplayFour(InitialState, e);
  }

  /**
   * A success does not clear an error left by a reply that arrived after
   * its own compile started.
   */
  lemma SuccessKeepsCrossedError(a: string, b: string, url: string, msg: string)
    requires msg != ""
    ensures var r := Replay(InitialState, [Start(a, Mobile), Start(b, Mobile), Settle(a, Mobile, ErrResult(msg)), Settle(b, Mobile, Ok(url))]);
      r == PreviewState(Some(b), Some(url), None, false, Some(msg))
  {
    var e := [Start(a, Mobile), Start(b, Mobile), Settle(a, Mobile, ErrResult(msg)), Settle(b, Mobile, Ok(url))];
    ReplayFour(InitialState, e);
  }

  lemma ReplayTwo(s: PreviewState, e: seq<Event>)
    requires |e| == 2
    ensures Replay(s, e) == Step(Step(s, e[0]), e[1])
  {
    var s1 := Step(s, e[0]);
    assert Replay(s, e) == Replay(s1, e[1..]);
    assert e[1..][0] == e[1];
    assert Replay(s1, e[1..]) == Replay(Step(s1, e[1]), e[1..][1..]);
    assert e[1..][1..] == [];
  }

  lemma ReplayFour(s: PreviewState, e: seq<Event>)
    requires |e| == 4
    ensures Replay(s, e) == Step(Step(Step(Step(s, e[0]), e[1]), e[2]), e[3])
  {
    ReplayTwo(Step(Step(s, e[0]), e[1]), e[2..]);
    assert e[1..][1..] == e[2..];
  }

  // ---------------------------------------------------------------------
  // The provider
  // ---------------------------------------------------------------------

  /** One entry of the compile-server log, as the server sends it. */
  datatype LogEntry = LogEntry(kind: string, message: string, timestamp: string)

  /** The log socket, opened with the session id as its `projectId` query. */
  datatype Socket = Socket(projectId: Option<string>)

  class PreviewProvider {
    var state: PreviewState
    var consoleMessages: seq<LogEntry>
    var ws: Option<Socket>

    constructor ()
      ensures state == InitialState && consoleMessages == [] && ws == None
    {
      state := InitialState;
      consoleMessages := [];
      ws := None;
    }

    /** connectWebSocket: keeps the new socket; the old one is not closed here. */
    method ConnectWebSocket(projectId: Option<string>)
      modifies this
      ensures ws == Some(Socket(projectId))
      ensures state == old(state) && consoleMessages == old(consoleMessages)
    {
      ws := Some(Socket(projectId));
    }

    /** A `log` event: the entry goes after all earlier ones. */
    method OnLog(log: LogEntry)
      modifies this
      ensures consoleMessages == old(consoleMessages) + [log]
      ensures state == old(state) && ws == old(ws)
    {
      consoleMessages := consoleMessages + [log];
    }

    /** A `connect_error` event: one synthetic error entry is appended. */
    method OnConnectError(errMessage: string, timestamp: string)
      modifies this
      ensures consoleMessages == old(consoleMessages) + [LogEntry("error", "WebSocket error: " + errMessage, timestamp)]
      ensures state == old(state) && ws == old(ws)
    {
      consoleMessages := consoleMessages + [LogEntry("error", "WebSocket error: " + errMessage, timestamp)];
    }

    /** A `disconnect` event: the stored socket is dropped. */
    method OnDisconnect()
      modifies this
      ensures ws == None
      ensures state == old(state) && consoleMessages == old(consoleMessages)
    {
      ws := None;
    }

    /** The synchronous start of compileProject / compileBackendProject. */
    method BeginCompile(project: Node, target: Target)
      modifies this
      ensures state == StartState(old(state), project.name, target)
      ensures consoleMessages == [] && ws == old(ws)
    {
      state := StartState(state, project.name, target);
      consoleMessages := [];
    }

    /**
     * The rest of a compile once its reply (or fault) is in: a success opens
     * the log socket with the session id and records the URL; anything else
     * records the error.
     */
    method FinishCompile(project: Node, target: Target, result: HttpResult)
      modifies this
      ensures state == SettleState(old(state), project.name, target, result)
      ensures ws == if Succeeds(result) then Some(Socket(SessionId(target, result.url))) else old(ws)
      ensures consoleMessages == old(consoleMessages)
    {
      match result {
        case Ok(url) =>
          var projectId := if target == Mobile then Some(MobileSessionId(url)) else BackendSessionId(url);
          ConnectWebSocket(projectId);
          if target == Mobile {
            state := state.(previewUrl := Some(url), apiUrl := None, loading := false, projectName := Some(project.name));
          } else {
            state := state.(apiUrl := Some(url), previewUrl := None, loading := false, projectName := Some(project.name));
          }
        case ErrResult(e) =>
          if e != "" {
            state := state.(error := Some(e), loading := false, projectName := Some(project.name));
          } else {
            state := state.(error := Some(MissingUrlMessage), loading := false, projectName := Some(project.name));
          }
        case Fault(m) =>
          state := state.(error := Some(m), loading := false, projectName := Some(project.name));
      }
    }

    /** A compile whose reply arrives before anything else happens. */
    method CompileProject(project: Node, target: Target, result: HttpResult)
      modifies this
      ensures state == Replay(old(state), [Start(project.name, target), Settle(project.name, target, result)])
      ensures consoleMessages == []
      ensures ws == if Succeeds(result) then Some(Socket(SessionId(target, result.url))) else old(ws)
    {
      ghost var s0 := state;
      BeginCompile(project, target);
      FinishCompile(project, target, result);
      ReplayTwo(s0, [Start(project.name, target), Settle(project.name, target, result)]);
    }
  }
}
