/**
 * How a matched mock service answers (`backend/app/services/mock_processor.py`):
 * proxying to an upstream, returning a stored static reply, or running the service's
 * condition script and answering with the first branch whose condition holds.
 *
 * The upstream HTTP call and the Python sandbox are inputs: `Upstream` is what the one
 * outbound call returned, `Sandbox` what running the script and evaluating each
 * condition produced.
 */
module MockProcessor {
  import opened Wrappers
  import opened Text
  import PyDict
  import opened Models

  type Params = PyDict.Dict<string, string>

  /** The parts of the incoming request the processor reads. */
  datatype RequestInfo = RequestInfo(
    verb: string,
    path: string,
    query: string,
    headers: Headers,
    body: string)

  /** Diagnostics attached to a proxied reply for the request log. */
  datatype ProxyInfo = ProxyInfo(
    targetUrl: string,
    proxyHeaders: Headers,
    responseStatus: Option<int>,
    responseHeaders: Headers,
    responseBody: string,
    error: Option<string>)

  /** `(status_code, body, headers, proxy_info)`. */
  datatype Reply = Reply(status: int, body: string, headers: Headers, proxyInfo: Option<ProxyInfo>)

  /** What the single outbound HTTP call produced. */
  datatype Upstream =
    | Answered(status: int, body: string, headers: Headers)
    | TransportError(msg: string)   // an `httpx.RequestError`
    | OtherError(msg: string)       // any other exception raised while proxying

  /** A script variable after `exec`: `None`, or a value shown by `str(...)`. */
  datatype PyValue = PyNone | Shown(text: string)

  /** Running the condition script: its error text, or the variables it left behind. */
  datatype Prepared = ScriptFailed(msg: string) | ScriptRan(context: seq<(string, PyValue)>)

  /** The outcome of `eval` on one condition. */
  datatype Verdict = Holds | Fails | Raised

  datatype Sandbox = Sandbox(
    prepared: Prepared,
    verdict: string -> Verdict,
    render: string -> string)

  const RequestHeadersDropped: set<string> := {"content-length", "host"}
  const ResponseHeadersDropped: set<string> :=
    {"content-length", "transfer-encoding", "connection", "content-encoding"}

  /** Context names a script variable may not contribute to the proxy parameters. */
  const ReservedNames: set<string> :=
    {"request", "headers", "query", "body", "method", "path", "json",
     "__builtins__", "__name__", "__doc__", "__package__"}

  const NoProxyUrl := "Не указан proxy_url"
  const ConnectionFailed := "Ошибка соединения с внешним сервисом: "
  const ProxyFailed := "Внутренняя ошибка proxy: "
  const UnknownStrategy := "Неизвестная стратегия"
  const ScriptFailedPrefix := "Ошибка выполнения условного кода: "
  const BranchWithoutUrl := "Ошибка конфигурации: не указан proxy_url"
  const NothingHeld := "Ни одно условие не выполнено"
  const NoConditions := "Нет условий для обработки"
  const ConditionalProxyFailed := "Ошибка проксирования: "

  // ---------------------------------------------------------------------------------
  // Header filtering
  // ---------------------------------------------------------------------------------

  /** The header pairs whose lower-cased name is not in `dropped`, in order. */
  function Kept(hs: Headers, dropped: set<string>): seq<(string, string)>
  {
    if hs == [] then []
    else
      var last := hs[|hs| - 1];
      Kept(hs[..|hs| - 1], dropped) + (if Lower(last.0) in dropped then [] else [last])
  }

  /** The dict built by copying every kept header. */
  function Filtered(hs: Headers, dropped: set<string>): Headers
  {
    PyDict.FromPairs(Kept(hs, dropped))
  }

  /** Copies every header whose lower-cased name is not in `dropped` into a fresh dict. */
  method FilterHeaders(hs: Headers, dropped: set<string>) returns (r: Headers)
    ensures r == Filtered(hs, dropped)
  {
    r := [];
    var i := 0;
    while i < |hs|
      invariant i <= |hs|
      invariant r == PyDict.SetAll([], Kept(hs[..i], dropped))
    {
      var (k, v) := hs[i];
      KeptSnoc(hs, dropped, i);
      var pairs := Kept(hs[..i], dropped);
      if Lower(k) !in dropped {
        assert (pairs + [(k, v)])[..|pairs|] == pairs;
        assert PyDict.SetAll([], pairs + [(k, v)]) == PyDict.Set(r, k, v);
        r := PyDict.Set(r, k, v);
      } else {
        assert Kept(hs[..i + 1], dropped) == pairs;
      }
      i := i + 1;
    }
    assert hs[..i] == hs;
  }

  lemma KeptSnoc(hs: Headers, dropped: set<string>, i: nat)
    requires i < |hs|
    ensures Kept(hs[..i + 1], dropped)
         == Kept(hs[..i], dropped) + (if Lower(hs[i].0) in dropped then [] else [hs[i]])
  {
    assert hs[..i + 1][..i] == hs[..i];
  }

  lemma {:induction false} KeptLastValue(hs: Headers, dropped: set<string>, k: string)
    ensures PyDict.LastValue(Kept(hs, dropped), k)
         == if Lower(k) in dropped then None else PyDict.LastValue(hs, k)
  {
    if hs != [] {
      var last := hs[|hs| - 1];
      var front := Kept(hs[..|hs| - 1], dropped);
      KeptLastValue(hs[..|hs| - 1], dropped, k);
      if Lower(last.0) in dropped {
        assert Kept(hs, dropped) == front;
      } else {
        assert (front + [last])[..|front|] == front;
      }
    }
  }

  /**
   * A dropped name (in any letter case) is absent from the result; any other name holds
   * the value of its last occurrence in the input.
   */
  lemma FilteredGet(hs: Headers, dropped: set<string>, k: string)
    ensures PyDict.Get(Filtered(hs, dropped), k)
         == if Lower(k) in dropped then None else PyDict.LastValue(hs, k)
  {
    PyDict.SetAllGet([], Kept(hs, dropped), k);
    KeptLastValue(hs, dropped, k);
  }

  // ---------------------------------------------------------------------------------
  // Target URL
  // ---------------------------------------------------------------------------------

  function Placeholder(name: string): (r: string)
    ensures |r| > 0
  {
    "{" + name + "}"
  }

  /** Some path parameter's `{name}` occurs in the proxy URL. */
  predicate HasPlaceholder(url: string, params: Params)
  {
    exists i :: 0 <= i < |params| && Contains(url, Placeholder(params[i].0))
  }

  /** Each parameter in order replaces its placeholder wherever it then occurs. */
  function SubstituteAll(url: string, params: Params): string
  {
    if params == [] then url
    else
      var t := SubstituteAll(url, params[..|params| - 1]);
      var (name, value) := params[|params| - 1];
      if Contains(t, Placeholder(name)) then Replace(t, Placeholder(name), value) else t
  }

  /**
   * The part of the request path beyond the service path, both without trailing slashes:
   * nothing when they are equal, the remainder (given a leading `/`) when the request
   * path extends the service path, and the whole request path otherwise.
   */
  function AdditionalPath(mockPath: string, requestPath: string): string
  {
    var m := RStripSet(mockPath, {'/'});
    var q := RStripSet(requestPath, {'/'});
    if m == q then ""
    else if StartsWith(q, m) then
      var rest := q[|m|..];
      if StartsWith(rest, "/") then rest else "/" + rest
    else q
  }

  function QuerySuffix(query: string): string
  {
    if query != "" then "?" + query else ""
  }

  /** The URL the proxy calls. */
  function ProxyUrl(proxyUrl: string, mockPath: string, requestPath: string, params: Params,
                    query: string): string
  {
    (if HasPlaceholder(proxyUrl, params) then SubstituteAll(proxyUrl, params)
     else RStripSet(proxyUrl, {'/'})
          + (if requestPath != mockPath then AdditionalPath(mockPath, requestPath) else ""))
    + QuerySuffix(query)
  }

  /**
   * Builds the target URL: substitutes path parameters when the proxy URL names any of
   * them, otherwise appends the part of the request path beyond the service path; then
   * appends the query string.
   */
  method BuildProxyUrl(proxyUrl: string, mockPath: string, requestPath: string,
                       params: Params, query: string) returns (url: string)
    ensures url == ProxyUrl(proxyUrl, mockPath, requestPath, params, query)
  {
    if HasPlaceholder(proxyUrl, params) {
      url := Substitute(proxyUrl, params);
    } else {
      url := RStripSet(proxyUrl, {'/'});
      if requestPath != mockPath {
        var extra := AdditionalPath(mockPath, requestPath);
        if extra != "" {
          url := url + extra;
        }
      }
    }
    if query != "" {
      url := url + "?" + query;
    }
  }

  /** Replaces each parameter's placeholder with its value, parameter by parameter. */
  method Substitute(proxyUrl: string, params: Params) returns (url: string)
    ensures url == SubstituteAll(proxyUrl, params)
  {
    url := proxyUrl;
    var i := 0;
    while i < |params|
      invariant i <= |params|
      invariant url == SubstituteAll(proxyUrl, params[..i])
    {
      var (name, value) := params[i];
      assert params[..i + 1][..i] == params[..i];
      if Contains(url, Placeholder(name)) {
        url := Replace(url, Placeholder(name), value);
      }
      i := i + 1;
    }
    assert params[..i] == params;
  }

  lemma {:induction false} RStripSlashKeepsLead(s: string)
    requires StartsWith(s, "/")
    ensures RStripSet(s, {'/'}) == "" || StartsWith(RStripSet(s, {'/'}), "/")
    decreases |s|
  {
    if |s| > 0 && s[|s| - 1] in {'/'} && |s| > 1 {
      assert StartsWith(s[..|s| - 1], "/");
      RStripSlashKeepsLead(s[..|s| - 1]);
    }
  }

  /**
   * The appended path is empty exactly when the two paths agree up to trailing slashes
   * (or the request path is all slashes), and for a request path starting with `/` it
   * always starts with `/`.
   */
  lemma AdditionalPathShape(mockPath: string, requestPath: string)
    ensures var m := RStripSet(mockPath, {'/'});
            var q := RStripSet(requestPath, {'/'});
            AdditionalPath(mockPath, requestPath) == "" <==> m == q || q == ""
    ensures StartsWith(requestPath, "/") ==>
              AdditionalPath(mockPath, requestPath) == ""
              || StartsWith(AdditionalPath(mockPath, requestPath), "/")
  {
    var m := RStripSet(mockPath, {'/'});
    var q := RStripSet(requestPath, {'/'});
    if StartsWith(requestPath, "/") {
      RStripSlashKeepsLead(requestPath);
    }
    if m != q && StartsWith(q, m) {
      assert q[..|q|] == q;
      assert |q[|m|..]| > 0;
      var rest := q[|m|..];
      if !StartsWith(rest, "/") {
        assert ("/" + rest)[..1] == "/";
      }
    }
  }

  /**
   * When the request path extends the service path by whole segments, the service path
   * followed by the appended path is the request path (trailing slashes aside).
   */
  lemma AdditionalPathCompletes(mockPath: string, requestPath: string)
    requires StartsWith(RStripSet(requestPath, {'/'}), RStripSet(mockPath, {'/'}) + "/")
    ensures RStripSet(mockPath, {'/'}) + AdditionalPath(mockPath, requestPath)
         == RStripSet(requestPath, {'/'})
  {
    var m := RStripSet(mockPath, {'/'});
    var q := RStripSet(requestPath, {'/'});
    assert q[..|m|] == (m + "/")[..|m|] == m;
    assert StartsWith(q, m);
    assert q[|m|..][..1] == q[..|m| + 1][|m|..] == "/";
    assert m != q;
    assert m + q[|m|..] == q;
  }

  /** Placeholders that never occur leave the URL untouched. */
  lemma {:induction false} SubstituteNothing(url: string, params: Params)
    requires !HasPlaceholder(url, params)
    ensures SubstituteAll(url, params) == url
  {
    if params != [] {
      var front := params[..|params| - 1];
      assert !HasPlaceholder(url, front) by {
        forall i | 0 <= i < |front|
          ensures !Contains(url, Placeholder(front[i].0))
        {
          assert front[i] == params[i];
        }
      }
      SubstituteNothing(url, front);
      assert !Contains(url, Placeholder(params[|params| - 1].0));
    }
  }

  /**
   * A conditional branch proxies with the request path as both paths, so nothing is ever
   * appended; only substitution and the query string change the branch's URL.
   */
  lemma BranchUrlAppendsNothing(proxyUrl: string, path: string, params: Params, query: string)
    ensures ProxyUrl(proxyUrl, path, path, params, query)
         == (if HasPlaceholder(proxyUrl, params) then SubstituteAll(proxyUrl, params)
             else RStripSet(proxyUrl, {'/'})) + QuerySuffix(query)
  {
  }

  // ---------------------------------------------------------------------------------
  // Replies from the upstream
  // ---------------------------------------------------------------------------------

  /**
   * The reply for what the upstream call produced: its status and body with hop-by-hop
   * headers dropped, or `failedStatus`/`otherStatus` with the error text.
   */
  function Relay(url: string, sent: Headers, upstream: Upstream,
                 failedStatus: int, failedPrefix: string,
                 otherStatus: int, otherPrefix: string): Reply
  {
    match upstream
    case Answered(status, body, hs) =>
      Reply(status, body, Filtered(hs, ResponseHeadersDropped),
            Some(ProxyInfo(url, sent, Some(status), hs, body, None)))
    case TransportError(e) =>
      Reply(failedStatus, failedPrefix + e, [], Some(ProxyInfo(url, sent, None, [], "", Some(e))))
    case OtherError(e) =>
      Reply(otherStatus, otherPrefix + e, [], Some(ProxyInfo(url, sent, None, [], "", Some(e))))
  }

  /** The proxy strategy's reply. */
  function ProxyReply(s: MockService, req: RequestInfo, params: Params, upstream: Upstream): Reply
  {
    if !Truthy(s.proxyUrl) then Reply(500, NoProxyUrl, [], None)
    else
      Relay(ProxyUrl(s.proxyUrl.value, s.path, req.path, params, req.query),
            Filtered(req.headers, RequestHeadersDropped), upstream,
            502, ConnectionFailed, 500, ProxyFailed)
  }

  /** Forwards the request to the service's proxy URL. */
  method ProcessProxy(s: MockService, req: RequestInfo, params: Params, upstream: Upstream)
    returns (reply: Reply)
    ensures reply == ProxyReply(s, req, params, upstream)
    ensures !Truthy(s.proxyUrl) ==> reply.status == 500 && reply.proxyInfo.None?
    ensures Truthy(s.proxyUrl) ==>
              reply.proxyInfo.Some?
              && reply.proxyInfo.value.targetUrl
                 == ProxyUrl(s.proxyUrl.value, s.path, req.path, params, req.query)
              && reply.proxyInfo.value.proxyHeaders == Filtered(req.headers, RequestHeadersDropped)
    ensures Truthy(s.proxyUrl) && upstream.Answered? ==>
              reply.status == upstream.status && reply.body == upstream.body
              && reply.proxyInfo.value.error.None?
    ensures Truthy(s.proxyUrl) && upstream.TransportError? ==>
              reply.status == 502 && reply.headers == []
              && reply.proxyInfo.value.responseStatus.None?
              && reply.proxyInfo.value.error == Some(upstream.msg)
    ensures Truthy(s.proxyUrl) && upstream.OtherError? ==>
              reply.status == 500 && reply.headers == []
              && reply.proxyInfo.value.error == Some(upstream.msg)
  {
    if !Truthy(s.proxyUrl) {
      return Reply(500, NoProxyUrl, [], None);
    }
    var url := BuildProxyUrl(s.proxyUrl.value, s.path, req.path, params, req.query);
    var sent := FilterHeaders(req.headers, RequestHeadersDropped);
    match upstream {
      case Answered(status, body, hs) =>
        var kept := FilterHeaders(hs, ResponseHeadersDropped);
        reply := Reply(status, body, kept, Some(ProxyInfo(url, sent, Some(status), hs, body, None)));
      case TransportError(e) =>
        reply := Reply(502, ConnectionFailed + e, [], Some(ProxyInfo(url, sent, None, [], "", Some(e))));
      case OtherError(e) =>
        reply := Reply(500, ProxyFailed + e, [], Some(ProxyInfo(url, sent, None, [], "", Some(e))));
    }
  }

  /** The static strategy's reply: the stored status, body (or "") and headers (or none). */
  function ProcessStatic(s: MockService): (r: Reply)
    ensures r.status == s.staticStatusCode && r.proxyInfo.None?
    ensures s.staticResponse.Some? ==> r.body == s.staticResponse.value
    ensures s.staticResponse.None? ==> r.body == ""
    ensures s.staticHeaders.Some? ==> r.headers == s.staticHeaders.value
    ensures s.staticHeaders.None? ==> r.headers == []
  {
    Reply(s.staticStatusCode, s.staticResponse.GetOr(""), s.staticHeaders.GetOr([]), None)
  }

  // ---------------------------------------------------------------------------------
  // Conditional branches
  // ---------------------------------------------------------------------------------

  /** The script variables that become proxy parameters: not reserved, not `_`-prefixed, not None. */
  function ScriptVars(context: seq<(string, PyValue)>): seq<(string, string)>
  {
    if context == [] then []
    else
      var (name, value) := context[|context| - 1];
      ScriptVars(context[..|context| - 1])
      + (if name !in ReservedNames && !StartsWith(name, "_") && value.Shown?
         then [(name, value.text)] else [])
  }

  function ExtendedParamsOf(params: Params, context: seq<(string, PyValue)>): Params
  {
    PyDict.SetAll(params, ScriptVars(context))
  }

  /** Copies the path parameters and adds every eligible script variable as text. */
  method ExtendParams(params: Params, context: seq<(string, PyValue)>) returns (ext: Params)
    ensures ext == ExtendedParamsOf(params, context)
  {
    ext := params;
    var i := 0;
    while i < |context|
      invariant i <= |context|
      invariant ext == PyDict.SetAll(params, ScriptVars(context[..i]))
    {
      var (name, value) := context[i];
      ScriptVarsSnoc(context, i);
      var vars := ScriptVars(context[..i]);
      if name !in ReservedNames && !StartsWith(name, "_") && value.Shown? {
        assert (vars + [(name, value.text)])[..|vars|] == vars;
        assert PyDict.SetAll(params, vars + [(name, value.text)]) == PyDict.Set(ext, name, value.text);
        ext := PyDict.Set(ext, name, value.text);
      } else {
        assert ScriptVars(context[..i + 1]) == vars;
      }
      i := i + 1;
    }
    assert context[..i] == context;
  }

  lemma ScriptVarsSnoc(context: seq<(string, PyValue)>, i: nat)
    requires i < |context|
    ensures ScriptVars(context[..i + 1])
         == ScriptVars(context[..i])
            + (if context[i].0 !in ReservedNames && !StartsWith(context[i].0, "_")
                  && context[i].1.Shown?
               then [(context[i].0, context[i].1.text)] else [])
  {
    assert context[..i + 1][..i] == context[..i];
  }

  lemma {:induction false} ScriptVarsReserved(context: seq<(string, PyValue)>, k: string)
    requires k in ReservedNames || StartsWith(k, "_")
    ensures PyDict.LastValue(ScriptVars(context), k).None?
  {
    if context != [] {
      var vars := ScriptVars(context[..|context| - 1]);
      ScriptVarsReserved(context[..|context| - 1], k);
      var (name, value) := context[|context| - 1];
      if name !in ReservedNames && !StartsWith(name, "_") && value.Shown? {
        assert (vars + [(name, value.text)])[..|vars|] == vars;
      } else {
        assert ScriptVars(context) == vars;
      }
    }
  }

  /** A reserved or `_`-prefixed name keeps its path-parameter value, whatever the script did. */
  lemma ReservedNamesKeepPathParams(params: Params, context: seq<(string, PyValue)>, k: string)
    requires k in ReservedNames || StartsWith(k, "_")
    ensures PyDict.Get(ExtendedParamsOf(params, context), k) == PyDict.Get(params, k)
  {
    PyDict.SetAllGet(params, ScriptVars(context), k);
    ScriptVarsReserved(context, k);
  }

  /**
   * A variable whose last value in the script's context is not None overrides the path
   * parameter of that name; `path_params` itself is not reserved.
   */
  lemma ScriptVariableOverrides(params: Params, context: seq<(string, PyValue)>, k: string, x: string)
    requires k !in ReservedNames && !StartsWith(k, "_")
    requires |context| > 0 && context[|context| - 1] == (k, Shown(x))
    ensures PyDict.Get(ExtendedParamsOf(params, context), k) == Some(x)
  {
    PyDict.SetAllGet(params, ScriptVars(context), k);
    var vars := ScriptVars(context[..|context| - 1]);
    assert ScriptVars(context) == vars + [(k, x)];
  }

  /** The reply of a branch that proxies. */
  function BranchProxyReply(proxyUrl: string, req: RequestInfo, params: Params, upstream: Upstream): Reply
  {
    Relay(ProxyUrl(proxyUrl, req.path, req.path, params, req.query),
          Filtered(req.headers, RequestHeadersDropped), upstream,
          500, ConditionalProxyFailed, 500, ConditionalProxyFailed)
  }

  /** Proxies on behalf of a conditional branch; every failure is a 500. */
  method ProxyConditionalRequest(proxyUrl: string, req: RequestInfo, params: Params, upstream: Upstream)
    returns (reply: Reply)
    ensures reply == BranchProxyReply(proxyUrl, req, params, upstream)
    ensures reply.proxyInfo.Some?
    ensures upstream.Answered? ==> reply.status == upstream.status && reply.body == upstream.body
    ensures !upstream.Answered? ==>
              reply.status == 500 && reply.headers == []
              && reply.body == ConditionalProxyFailed + upstream.msg
  {
    var sent := FilterHeaders(req.headers, RequestHeadersDropped);
    var url := BuildProxyUrl(proxyUrl, req.path, req.path, params, req.query);
    match upstream {
      case Answered(status, body, hs) =>
        var kept := FilterHeaders(hs, ResponseHeadersDropped);
        reply := Reply(status, body, kept, Some(ProxyInfo(url, sent, Some(status), hs, body, None)));
      case TransportError(e) =>
        reply := Reply(500, ConditionalProxyFailed + e, [], Some(ProxyInfo(url, sent, None, [], "", Some(e))));
      case OtherError(e) =>
        reply := Reply(500, ConditionalProxyFailed + e, [], Some(ProxyInfo(url, sent, None, [], "", Some(e))));
    }
  }

  function ConditionOf(b: Option<Branch>): Option<string>
  {
    if b.Some? then b.value.condition else None
  }

  /** A present branch with a condition that `eval` finds true. */
  predicate Fires(b: Option<Branch>, verdict: string -> Verdict)
  {
    ConditionOf(b).Some? && verdict(ConditionOf(b).value) == Holds
  }

  /** The first branch that fires. */
  function FirstFiring(bs: seq<Option<Branch>>, verdict: string -> Verdict): (r: Option<nat>)
    ensures r.Some? ==> r.value < |bs| && Fires(bs[r.value], verdict)
                        && forall j :: 0 <= j < r.value ==> !Fires(bs[j], verdict)
    ensures r.None? ==> forall j :: 0 <= j < |bs| ==> !Fires(bs[j], verdict)
  {
    if bs == [] then None
    else if Fires(bs[0], verdict) then Some(0)
    else
      match FirstFiring(bs[1..], verdict)
      case None => None
      case Some(k) => Some(k + 1)
  }

  /** The conditions `eval` sees when the branches are scanned to the end, in order. */
  function Evaluated(bs: seq<Option<Branch>>): seq<string>
  {
    if bs == [] then []
    else
      Evaluated(bs[..|bs| - 1])
      + (if ConditionOf(bs[|bs| - 1]).Some? then [ConditionOf(bs[|bs| - 1]).value] else [])
  }

  /** The reply of the branch that fired. */
  function FiredReply(b: Branch, req: RequestInfo, params: Params, context: seq<(string, PyValue)>,
                      upstream: Upstream, render: string -> string): Reply
  {
    if b.responseType == "proxy" then
      if Truthy(b.proxyUrl) then
        BranchProxyReply(b.proxyUrl.value, req, ExtendedParamsOf(params, context), upstream)
      else Reply(500, BranchWithoutUrl, [], None)
    else Reply(b.statusCode, render(b.response.GetOr("")), b.headers.GetOr([]), None)
  }

  /** The service has a non-empty script and a non-empty list of branches. */
  predicate HasScript(s: MockService)
  {
    Truthy(s.conditionCode) && s.conditionalResponses.Some? && |s.conditionalResponses.value| > 0
  }

  /** The conditional strategy's reply and the conditions evaluated on the way. */
  function ConditionalReply(s: MockService, req: RequestInfo, params: Params, upstream: Upstream,
                            sandbox: Sandbox): (Reply, seq<string>)
  {
    if !HasScript(s) then
      (Reply(s.conditionalStatusCode, NoConditions, s.conditionalHeaders.GetOr([]), None), [])
    else
      match sandbox.prepared
      case ScriptFailed(e) => (Reply(500, ScriptFailedPrefix + e, [], None), [])
      case ScriptRan(context) =>
        var bs := s.conditionalResponses.value;
        match FirstFiring(bs, sandbox.verdict)
        case None =>
          (Reply(s.conditionalStatusCode, NothingHeld, s.conditionalHeaders.GetOr([]), None),
           Evaluated(bs))
        case Some(k) =>
          (FiredReply(bs[k].value, req, params, context, upstream, sandbox.render),
           Evaluated(bs[..k + 1]))
  }

  /** The reply of the branch that fired, computed as the source does. */
  method AnswerBranch(b: Branch, req: RequestInfo, params: Params, context: seq<(string, PyValue)>,
                      upstream: Upstream, render: string -> string) returns (reply: Reply)
    ensures reply == FiredReply(b, req, params, context, upstream, render)
  {
    if b.responseType == "proxy" {
      if Truthy(b.proxyUrl) {
        var ext := ExtendParams(params, context);
        reply := ProxyConditionalRequest(b.proxyUrl.value, req, ext, upstream);
      } else {
        reply := Reply(500, BranchWithoutUrl, [], None);
      }
    } else {
      reply := Reply(b.statusCode, render(b.response.GetOr("")), b.headers.GetOr([]), None);
    }
  }

  /**
   * Runs the script, then evaluates the branch conditions in order and answers with the
   * first that holds; branches that are missing, have no condition, or whose condition
   * raises are skipped, and no condition after the winner is evaluated.
   */
  method ProcessConditional(s: MockService, req: RequestInfo, params: Params, upstream: Upstream,
                            sandbox: Sandbox) returns (reply: Reply, evaluated: seq<string>)
    ensures (reply, evaluated) == ConditionalReply(s, req, params, upstream, sandbox)
  {
    if !HasScript(s) {
      return Reply(s.conditionalStatusCode, NoConditions, s.conditionalHeaders.GetOr([]), None), [];
    }
    if sandbox.prepared.ScriptFailed? {
      return Reply(500, ScriptFailedPrefix + sandbox.prepared.msg, [], None), [];
    }
    var bs := s.conditionalResponses.value;
    evaluated := [];
    var i := 0;
    while i < |bs|
      invariant i <= |bs|
      invariant forall j :: 0 <= j < i ==> !Fires(bs[j], sandbox.verdict)
      invariant evaluated == Evaluated(bs[..i])
    {
      assert bs[..i + 1][..i] == bs[..i];
      var b := bs[i];
      if b.Some? && b.value.condition.Some? {
        var cond := b.value.condition.value;
        evaluated := evaluated + [cond];
        var v := sandbox.verdict(cond);
        if v == Holds {
          FirstFiringAt(bs, sandbox.verdict, i);
          reply := AnswerBranch(b.value, req, params, sandbox.prepared.context, upstream, sandbox.render);
          return;
        }
      } else {
        assert Evaluated(bs[..i + 1]) == Evaluated(bs[..i]) + [];
      }
      i := i + 1;
    }
    assert bs[..i] == bs;
    reply := Reply(s.conditionalStatusCode, NothingHeld, s.conditionalHeaders.GetOr([]), None);
  }

  lemma FirstFiringAt(bs: seq<Option<Branch>>, verdict: string -> Verdict, i: nat)
    requires i < |bs| && Fires(bs[i], verdict)
    requires forall j :: 0 <= j < i ==> !Fires(bs[j], verdict)
    ensures FirstFiring(bs, verdict) == Some(i)
  {
    var r := FirstFiring(bs, verdict);
  }

  /** The conditions evaluated up to any branch are a prefix of those evaluated overall. */
  lemma {:induction false} EvaluatedPrefix(bs: seq<Option<Branch>>, k: nat)
    requires k <= |bs|
    ensures Evaluated(bs[..k]) <= Evaluated(bs)
    decreases |bs| - k
  {
    if k < |bs| {
      EvaluatedPrefix(bs, k + 1);
      assert bs[..k + 1][..k] == bs[..k];
    } else {
      assert bs[..k] == bs;
    }
  }

  /** Every branch without a condition is never evaluated: one evaluation per conditioned branch. */
  lemma {:induction false} EvaluatedCount(bs: seq<Option<Branch>>)
    ensures |Evaluated(bs)| == |set j | 0 <= j < |bs| && ConditionOf(bs[j]).Some?|
  {
    if bs != [] {
      var n := |bs| - 1;
      var front := bs[..n];
      EvaluatedCount(front);
      var a := set j | 0 <= j < n && ConditionOf(front[j]).Some?;
      var b := set j | 0 <= j < |bs| && ConditionOf(bs[j]).Some?;
      if ConditionOf(bs[n]).Some? {
        assert b == a + {n};
      } else {
        assert b == a;
      }
    }
  }

  /**
   * The winning branch's condition is the last thing evaluated, and the conditions
   * evaluated are a prefix of those a full scan would evaluate.
   */
  lemma WinnerEvaluatedLast(s: MockService, req: RequestInfo, params: Params, upstream: Upstream,
                            sandbox: Sandbox, k: nat)
    requires HasScript(s) && sandbox.prepared.ScriptRan?
    requires FirstFiring(s.conditionalResponses.value, sandbox.verdict) == Some(k)
    ensures var evaluated := ConditionalReply(s, req, params, upstream, sandbox).1;
            var bs := s.conditionalResponses.value;
            |evaluated| > 0 && evaluated[|evaluated| - 1] == bs[k].value.condition.value
            && evaluated <= Evaluated(bs)
  {
    var bs := s.conditionalResponses.value;
    EvaluatedPrefix(bs, k + 1);
    assert bs[..k + 1][..k] == bs[..k];
  }

  /**
   * The branch that answers is the first that fires: when branch `k` fires and none before
   * it does, its reply is the strategy's reply, and the conditions evaluated are exactly
   * those of branches `0..k`.
   */
  lemma FirstFiringBranchAnswers(s: MockService, req: RequestInfo, params: Params, upstream: Upstream,
                                 sandbox: Sandbox, k: nat)
    requires HasScript(s) && sandbox.prepared.ScriptRan?
    requires k < |s.conditionalResponses.value| && Fires(s.conditionalResponses.value[k], sandbox.verdict)
    requires forall j :: 0 <= j < k ==> !Fires(s.conditionalResponses.value[j], sandbox.verdict)
    ensures ConditionalReply(s, req, params, upstream, sandbox) ==
              (FiredReply(s.conditionalResponses.value[k].value, req, params, sandbox.prepared.context,
                          upstream, sandbox.render),
               Evaluated(s.conditionalResponses.value[..k + 1]))
  {
    FirstFiringAt(s.conditionalResponses.value, sandbox.verdict, k);
  }

  /**
   * When no branch fires, the reply is the default status with the "no condition met" body,
   * after every present condition was evaluated.
   */
  lemma NoBranchFires(s: MockService, req: RequestInfo, params: Params, upstream: Upstream, sandbox: Sandbox)
    requires HasScript(s) && sandbox.prepared.ScriptRan?
    requires forall j :: 0 <= j < |s.conditionalResponses.value| ==>
               !Fires(s.conditionalResponses.value[j], sandbox.verdict)
    ensures ConditionalReply(s, req, params, upstream, sandbox) ==
              (Reply(s.conditionalStatusCode, NothingHeld, s.conditionalHeaders.GetOr([]), None),
               Evaluated(s.conditionalResponses.value))
  {
  }

  // ---------------------------------------------------------------------------------
  // Dispatch
  // ---------------------------------------------------------------------------------

  /** The reply for a matched service, by its strategy. */
  method ProcessRequest(s: MockService, req: RequestInfo, params: Params, upstream: Upstream,
                        sandbox: Sandbox) returns (reply: Reply, evaluated: seq<string>)
    ensures s.strategy.Proxy? ==> reply == ProxyReply(s, req, params, upstream) && evaluated == []
    ensures s.strategy.Static? ==> reply == ProcessStatic(s) && evaluated == []
    ensures s.strategy.Conditional? ==>
              (reply, evaluated) == ConditionalReply(s, req, params, upstream, sandbox)
    ensures s.strategy.OtherStrategy? ==>
              reply == Reply(500, UnknownStrategy, [], None) && evaluated == []
  {
    evaluated := [];
    match s.strategy {
      case Proxy =>
        reply := ProcessProxy(s, req, params, upstream);
      case Static =>
        reply := ProcessStatic(s);
      case Conditional =>
        reply, evaluated := ProcessConditional(s, req, params, upstream, sandbox);
      case OtherStrategy(_) =>
        reply := Reply(500, UnknownStrategy, [], None);
    }
  }
}
