/**
 * Route selection and the stored-service guards of `backend/app/services/mock_service.py`.
 *
 * An incoming request is routed to the first active service, in listing order, that lists
 * the request method and whose path template matches the request path. A REST service is
 * taken at once. A SOAP service (considered only when the request has headers) is taken
 * at once when the detected SOAP method fits its name, skipped when a method was detected
 * but does not fit, and remembered as a fallback when no method was detected; the last
 * such fallback answers when nothing is taken. There is no ranking by specificity: the
 * listing order alone decides between candidates.
 */
module MockServiceStore {
  import opened Wrappers
  import opened Text
  import PyDict
  import opened Models
  import opened PathParser
  import SoapParser
  import Schemas

  // ---------------------------------------------------------------- SOAP name matching

  const NameSeparators: set<char> := {'.', '_', '-'}

  /** Two name parts longer than two characters, one inside the other. */
  predicate PartsRelated(a: string, b: string)
  {
    |a| > 2 && |b| > 2 && (a == b || Contains(b, a) || Contains(a, b))
  }

  predicate PartsOverlap(xs: seq<string>, ys: seq<string>)
  {
    exists i, j :: 0 <= i < |xs| && 0 <= j < |ys| && PartsRelated(xs[i], ys[j])
  }

  /** `_matches_soap_service(service_name, soap_method)`, test by test as the source orders them. */
  function MatchesSoapService(serviceName: string, soapMethod: string): bool
  {
    if serviceName == "" || soapMethod == "" then false
    else
      var s := Strip(Lower(serviceName));
      var m := Strip(Lower(soapMethod));
      if Contains(s, m) then true
      else if EndsWith(s, "_" + m) then true
      else if StartsWith(s, m + "_") then true
      else if EndsWith(s, "." + m) then true
      else if StartsWith(s, m + ".") then true
      else if EndsWith(s, m) then true
      else if StartsWith(s, m) then true
      else if Contains(m, s) then true
      else PartsOverlap(Split(s, NameSeparators), Split(m, NameSeparators))
  }

  /**
   * The naming patterns all reduce to three tests: the trimmed lower-cased method inside
   * the name, the name inside the method, or a shared part of more than two characters.
   */
  lemma MatchesCharacterised(serviceName: string, soapMethod: string)
    ensures MatchesSoapService(serviceName, soapMethod) <==>
      serviceName != "" && soapMethod != "" &&
      var s := Strip(Lower(serviceName));
      var m := Strip(Lower(soapMethod));
      Contains(s, m) || Contains(m, s) || PartsOverlap(Split(s, NameSeparators), Split(m, NameSeparators))
  {
    if serviceName != "" && soapMethod != "" {
      var s := Strip(Lower(serviceName));
      var m := Strip(Lower(soapMethod));
      if EndsWith(s, "_" + m) {
        EndsWithContains(s, "_" + m);
        ContainsParts(s, "_", m);
      }
      if StartsWith(s, m + "_") {
        StartsWithContains(s, m + "_");
        ContainsParts(s, m, "_");
      }
      if EndsWith(s, "." + m) {
        EndsWithContains(s, "." + m);
        ContainsParts(s, ".", m);
      }
      if StartsWith(s, m + ".") {
        StartsWithContains(s, m + ".");
        ContainsParts(s, m, ".");
      }
      if EndsWith(s, m) {
        EndsWithContains(s, m);
      }
      if StartsWith(s, m) {
        StartsWithContains(s, m);
      }
    }
  }

  /** Whether a method fits a service name does not depend on which of the two is which. */
  lemma MatchesSymmetric(a: string, b: string)
    ensures MatchesSoapService(a, b) == MatchesSoapService(b, a)
  {
    MatchesCharacterised(a, b);
    MatchesCharacterised(b, a);
    var sa := Split(Strip(Lower(a)), NameSeparators);
    var sb := Split(Strip(Lower(b)), NameSeparators);
    if PartsOverlap(sa, sb) {
      var i, j :| 0 <= i < |sa| && 0 <= j < |sb| && PartsRelated(sa[i], sb[j]);
      assert PartsRelated(sb[j], sa[i]);
    }
    if PartsOverlap(sb, sa) {
      var i, j :| 0 <= i < |sb| && 0 <= j < |sa| && PartsRelated(sb[i], sa[j]);
      assert PartsRelated(sa[j], sb[i]);
    }
  }

  // ---------------------------------------------------------------- route selection

  /** What route selection reads from the request. */
  datatype Lookup = Lookup(
    path: string,
    verb: string,
    body: string,
    headers: Headers,
    bodyMethod: Option<string>)

  predicate MethodListed(s: MockService, verb: string)
  {
    exists i :: 0 <= i < |s.methods| && Upper(s.methods[i]) == Upper(verb)
  }

  predicate Routable(services: seq<MockService>)
  {
    forall i :: 0 <= i < |services| ==> Compiles(services[i].path)
  }

  /** The service lists the method and its template matches the path. */
  predicate Candidate(s: MockService, q: Lookup)
  {
    MethodListed(s, q.verb) && Compiles(s.path) && PathsMatch(s.path, q.path)
  }

  function SoapMethodOf(q: Lookup): Option<string>
  {
    SoapParser.ExtractSoapMethod(q.headers, q.body, q.bodyMethod)
  }

  /** A candidate that ends the search: a REST service, or a SOAP service whose name fits the method. */
  predicate Decides(s: MockService, q: Lookup)
  {
    Candidate(s, q) &&
    (s.serviceType.Rest?
     || (q.headers != [] && Truthy(SoapMethodOf(q)) && MatchesSoapService(s.name, SoapMethodOf(q).value)))
  }

  /** A SOAP candidate kept in reserve because no SOAP method was detected. */
  predicate Fallback(s: MockService, q: Lookup)
  {
    Candidate(s, q) && s.serviceType.Soap? && q.headers != [] && !Truthy(SoapMethodOf(q))
  }

  /** Position of the first `true`. */
  function FirstTrue(bs: seq<bool>): (r: Option<nat>)
    ensures r.Some? ==> (r.value < |bs| && bs[r.value] && forall j :: 0 <= j < r.value ==> !bs[j])
    ensures r.None? ==> forall j :: 0 <= j < |bs| ==> !bs[j]
  {
    if bs == [] then None
    else if bs[0] then Some(0)
    else
      match FirstTrue(bs[1..])
      case None => None
      case Some(i) => Some(i + 1)
  }

  /** Position of the last `true`. */
  function LastTrue(bs: seq<bool>): (r: Option<nat>)
    ensures r.Some? ==> (r.value < |bs| && bs[r.value] && forall j :: r.value < j < |bs| ==> !bs[j])
    ensures r.None? ==> forall j :: 0 <= j < |bs| ==> !bs[j]
  {
    if bs == [] then None
    else if bs[|bs| - 1] then Some(|bs| - 1)
    else LastTrue(bs[..|bs| - 1])
  }

  lemma {:induction false} FirstTrueAt(bs: seq<bool>, i: nat)
    requires i < |bs| && bs[i] && forall j :: 0 <= j < i ==> !bs[j]
    ensures FirstTrue(bs) == Some(i)
  {
    if i > 0 {
      FirstTrueAt(bs[1..], i - 1);
    }
  }

  lemma FirstTrueAfter(bs: seq<bool>, i: nat)
    requires i < |bs| && FirstTrue(bs[..i]).None? && bs[i]
    ensures FirstTrue(bs) == Some(i)
  {
    FirstTrueAt(bs, i);
  }

  lemma FirstTrueExtend(bs: seq<bool>, b: bool)
    requires FirstTrue(bs).None? && !b
    ensures FirstTrue(bs + [b]).None?
  {
  }

  lemma LastTrueExtend(bs: seq<bool>, b: bool)
    ensures LastTrue(bs + [b]) == if b then Some(|bs|) else LastTrue(bs)
  {
    assert (bs + [b])[..|bs|] == bs;
  }

  function DecidingFlags(services: seq<MockService>, q: Lookup): (bs: seq<bool>)
    ensures |bs| == |services|
    ensures forall i :: 0 <= i < |services| ==> bs[i] == Decides(services[i], q)
  {
    seq(|services|, i requires 0 <= i < |services| => Decides(services[i], q))
  }

  function FallbackFlags(services: seq<MockService>, q: Lookup): (bs: seq<bool>)
    ensures |bs| == |services|
    ensures forall i :: 0 <= i < |services| ==> bs[i] == Fallback(services[i], q)
  {
    seq(|services|, i requires 0 <= i < |services| => Fallback(services[i], q))
  }

  function FirstDeciding(services: seq<MockService>, q: Lookup): Option<nat>
  {
    FirstTrue(DecidingFlags(services, q))
  }

  function LastFallback(services: seq<MockService>, q: Lookup): Option<nat>
  {
    LastTrue(FallbackFlags(services, q))
  }

  /** The service that answers, given by its position in the listing. */
  function Selected(services: seq<MockService>, q: Lookup): (r: Option<nat>)
    ensures r.Some? ==> r.value < |services|
  {
    if FirstDeciding(services, q).Some? then FirstDeciding(services, q) else LastFallback(services, q)
  }

  /** The method's case-insensitive membership test, as the loop over `service.methods` computes it. */
  method ListsMethod(s: MockService, verb: string) returns (listed: bool)
    ensures listed == MethodListed(s, verb)
  {
    listed := false;
    var k := 0;
    while k < |s.methods|
      invariant 0 <= k <= |s.methods|
      invariant listed <==> exists j :: 0 <= j < k && Upper(s.methods[j]) == Upper(verb)
    {
      if Upper(s.methods[k]) == Upper(verb) {
        listed := true;
      }
      k := k + 1;
    }
  }

  /** What one pass of the scan does with a service. */
  datatype Step = Take | Reserve | Pass

  /**
   * The body of the scan for one service: skip it unless it lists the method and its
   * template matches; take a REST service; for a SOAP service with request headers,
   * take it when the detected method fits its name and reserve it when none was detected.
   */
  method Examine(s: MockService, q: Lookup) returns (step: Step, pathParams: Params)
    requires Compiles(s.path)
    ensures step.Take? <==> Decides(s, q)
    ensures step.Reserve? <==> Fallback(s, q)
    ensures !step.Pass? ==> ExtractParameters(s.path, q.path) == Some(pathParams)
  {
    pathParams := [];
    var listed := ListsMethod(s, q.verb);
    if !listed {
      return Pass, pathParams;
    }
    var extracted := ExtractParameters(s.path, q.path);
    if extracted.None? {
      return Pass, pathParams;
    }
    pathParams := extracted.value;
    if s.serviceType.Soap? && q.headers != [] {
      var soapMethod := SoapParser.ExtractSoapMethod(q.headers, q.body, q.bodyMethod);
      assert soapMethod == SoapMethodOf(q);
      if Truthy(soapMethod) {
        if MatchesSoapService(s.name, soapMethod.value) {
          step := Take;
        } else {
          step := Pass;
        }
      } else {
        step := Reserve;
      }
    } else if s.serviceType.Rest? {
      step := Take;
    } else {
      step := Pass;
    }
  }

  /** `Examine` on the service at position `i`, stated against the flag sequences. */
  method ExamineAt(services: seq<MockService>, q: Lookup, i: nat) returns (step: Step, pathParams: Params)
    requires i < |services| && Compiles(services[i].path)
    ensures step.Take? == DecidingFlags(services, q)[i]
    ensures step.Reserve? == FallbackFlags(services, q)[i]
    ensures !step.Pass? ==> ExtractParameters(services[i].path, q.path) == Some(pathParams)
  {
    step, pathParams := Examine(services[i], q);
  }

  /** What the lookup promises: the selected service with its captured parameters, or `(None, {})`. */
  predicate Answers(services: seq<MockService>, q: Lookup, found: Option<MockService>, params: Params)
    requires Routable(services)
  {
    match Selected(services, q)
    case None => found.None? && params == []
    case Some(k) => found == Some(services[k]) && ExtractParameters(services[k].path, q.path) == Some(params)
  }

  /** No service among the first `i` decides. */
  predicate NoneDecided(services: seq<MockService>, q: Lookup, i: nat)
    requires i <= |services|
  {
    FirstTrue(DecidingFlags(services, q)[..i]).None?
  }

  /** The remembered fallback is the last fallback among the first `i` services, with its parameters. */
  predicate Remembered(services: seq<MockService>, q: Lookup, i: nat, fallback: Option<MockService>, fallbackParams: Params)
    requires Routable(services) && i <= |services|
  {
    RememberedBy(FallbackFlags(services, q), services, q, i, fallback, fallbackParams)
  }

  /** `Remembered`, for any flags marking the fallbacks. */
  predicate RememberedBy(bs: seq<bool>, services: seq<MockService>, q: Lookup, i: nat,
                         fallback: Option<MockService>, fallbackParams: Params)
    requires Routable(services) && i <= |services| == |bs|
  {
    match LastTrue(bs[..i])
    case None => fallback.None? && fallbackParams == []
    case Some(k) => fallback == Some(services[k]) && ExtractParameters(services[k].path, q.path) == Some(fallbackParams)
  }

  /** The scan state after the first `i` services: none decided, the last fallback remembered. */
  predicate Scanned(services: seq<MockService>, q: Lookup, i: nat, fallback: Option<MockService>, fallbackParams: Params)
    requires Routable(services)
  {
    i <= |services| && NoneDecided(services, q, i) && Remembered(services, q, i, fallback, fallbackParams)
  }

  /** One pass of the scan: either the service at `i` answers, or the state moves past it. */
  method Advance(services: seq<MockService>, q: Lookup, i: nat, fallback: Option<MockService>, fallbackParams: Params)
    returns (done: bool, found: Option<MockService>, params: Params, fallback': Option<MockService>, fallbackParams': Params)
    requires Routable(services) && i < |services|
    requires Scanned(services, q, i, fallback, fallbackParams)
    ensures done ==> Answers(services, q, found, params)
    ensures !done ==> Scanned(services, q, i + 1, fallback', fallbackParams')
  {
    var step, pathParams := ExamineAt(services, q, i);
    fallback', fallbackParams' := fallback, fallbackParams;
    found, params := None, [];
    if step.Take? {
      TakeAnswers(services, q, i, fallback, fallbackParams, pathParams);
      return true, Some(services[i]), pathParams, fallback', fallbackParams';
    } else if step.Reserve? {
      fallback', fallbackParams' := Some(services[i]), pathParams;
    }
    PassOn(services, q, i, fallback, fallbackParams, fallback', fallbackParams');
    done := false;
  }

  lemma TakeAnswers(services: seq<MockService>, q: Lookup, i: nat, fallback: Option<MockService>, fallbackParams: Params, params: Params)
    requires Routable(services) && i < |services|
    requires Scanned(services, q, i, fallback, fallbackParams)
    requires DecidingFlags(services, q)[i] && ExtractParameters(services[i].path, q.path) == Some(params)
    ensures Answers(services, q, Some(services[i]), params)
  {
    FirstTrueAfter(DecidingFlags(services, q), i);
  }

  lemma PassOn(services: seq<MockService>, q: Lookup, i: nat, fallback: Option<MockService>, fallbackParams: Params,
               fallback': Option<MockService>, fallbackParams': Params)
    requires Routable(services) && i < |services|
    requires Scanned(services, q, i, fallback, fallbackParams)
    requires !DecidingFlags(services, q)[i]
    requires FallbackFlags(services, q)[i] ==>
      fallback' == Some(services[i]) && ExtractParameters(services[i].path, q.path) == Some(fallbackParams')
    requires !FallbackFlags(services, q)[i] ==> fallback' == fallback && fallbackParams' == fallbackParams
    ensures Scanned(services, q, i + 1, fallback', fallbackParams')
  {
    StillUndecided(services, q, i);
    StillRemembered(services, q, i, fallback, fallbackParams, fallback', fallbackParams');
  }

  lemma StillUndecided(services: seq<MockService>, q: Lookup, i: nat)
    requires i < |services| && NoneDecided(services, q, i) && !DecidingFlags(services, q)[i]
    ensures NoneDecided(services, q, i + 1)
  {
    var decides := DecidingFlags(services, q);
    assert decides[..i + 1] == decides[..i] + [decides[i]];
    FirstTrueExtend(decides[..i], decides[i]);
  }

  lemma StillRemembered(services: seq<MockService>, q: Lookup, i: nat, fallback: Option<MockService>, fallbackParams: Params,
                        fallback': Option<MockService>, fallbackParams': Params)
    requires Routable(services) && i < |services|
    requires Remembered(services, q, i, fallback, fallbackParams)
    requires FallbackFlags(services, q)[i] ==>
      fallback' == Some(services[i]) && ExtractParameters(services[i].path, q.path) == Some(fallbackParams')
    requires !FallbackFlags(services, q)[i] ==> fallback' == fallback && fallbackParams' == fallbackParams
    ensures Remembered(services, q, i + 1, fallback', fallbackParams')
  {
    StillRememberedBy(FallbackFlags(services, q), services, q, i, fallback, fallbackParams, fallback', fallbackParams');
  }

  lemma StillRememberedBy(bs: seq<bool>, services: seq<MockService>, q: Lookup, i: nat,
                          fallback: Option<MockService>, fallbackParams: Params,
                          fallback': Option<MockService>, fallbackParams': Params)
    requires Routable(services) && i < |services| == |bs|
    requires RememberedBy(bs, services, q, i, fallback, fallbackParams)
    requires bs[i] ==> fallback' == Some(services[i]) && ExtractParameters(services[i].path, q.path) == Some(fallbackParams')
    requires !bs[i] ==> fallback' == fallback && fallbackParams' == fallbackParams
    ensures RememberedBy(bs, services, q, i + 1, fallback', fallbackParams')
  {
    assert bs[..i + 1] == bs[..i] + [bs[i]];
    LastTrueExtend(bs[..i], bs[i]);
  }

  /**
   * `find_mock_service_by_path_and_method`: scans the active services in listing order and
   * returns the selected service with the parameters its template captured, or `(None, {})`.
   */
  method FindMockService(services: seq<MockService>, q: Lookup) returns (found: Option<MockService>, params: Params)
    requires Routable(services)
    ensures Answers(services, q, found, params)
  {
    var fallback: Option<MockService> := None;
    var fallbackParams: Params := [];
    var i := 0;
    while i < |services|
      invariant Scanned(services, q, i, fallback, fallbackParams)
    {
      var done;
      done, found, params, fallback, fallbackParams := Advance(services, q, i, fallback, fallbackParams);
      if done {
        return;
      }
      i := i + 1;
    }
    ScannedAll(services, q, fallback, fallbackParams);
    return fallback, fallbackParams;
  }

  /** Once every service is scanned without a decision, the remembered fallback is the answer. */
  lemma ScannedAll(services: seq<MockService>, q: Lookup, fallback: Option<MockService>, fallbackParams: Params)
    requires Routable(services) && Scanned(services, q, |services|, fallback, fallbackParams)
    ensures Answers(services, q, fallback, fallbackParams)
  {
    assert DecidingFlags(services, q)[..|services|] == DecidingFlags(services, q);
    assert FallbackFlags(services, q)[..|services|] == FallbackFlags(services, q);
  }

  /** The selected service lists the method and its template matches the path. */
  lemma SelectedIsCandidate(services: seq<MockService>, q: Lookup)
    requires Selected(services, q).Some?
    ensures Candidate(services[Selected(services, q).value], q)
  {
  }

  /** With no candidate at all the lookup comes back empty. */
  lemma NoCandidateNoService(services: seq<MockService>, q: Lookup)
    requires forall j :: 0 <= j < |services| ==> !Candidate(services[j], q)
    ensures Selected(services, q).None?
  {
  }

  /** A request without headers is never routed to a SOAP service. */
  lemma NoHeadersNoSoap(services: seq<MockService>, q: Lookup)
    requires q.headers == [] && Selected(services, q).Some?
    ensures services[Selected(services, q).value].serviceType.Rest?
  {
  }

  /**
   * Listing order decides: a REST candidate is chosen exactly when no earlier service
   * decides, whatever the specificity of later templates.
   */
  lemma FirstRestCandidateWins(services: seq<MockService>, q: Lookup, i: nat)
    requires i < |services| && Candidate(services[i], q) && services[i].serviceType.Rest?
    requires forall j :: 0 <= j < i ==> !Decides(services[j], q)
    ensures Selected(services, q) == Some(i)
  {
    FirstTrueAt(DecidingFlags(services, q), i);
  }

  /** A fallback answers only when no service decides, and then the last fallback does. */
  lemma FallbackOnlyWhenUndecided(services: seq<MockService>, q: Lookup)
    requires Selected(services, q).Some? && services[Selected(services, q).value].serviceType.Soap?
    requires !Decides(services[Selected(services, q).value], q)
    ensures FirstDeciding(services, q).None? && Selected(services, q) == LastFallback(services, q)
  {
  }
  // ---------------------------------------------------------------- create / update guards

  /** The `ValueError` text raised for a rejected template. */
  function PathErrorText(e: PathError): string
  {
    "Некорректный шаблон пути: " + PathErrorMessage(e)
  }

  /**
   * `create_mock_service`: the template is validated first; an accepted request becomes the
   * stored record under the id the store assigns, with an empty branch list stored as `None`.
   */
  function CreateMockService(d: Schemas.CreateData, id: int): (r: Result<MockService, string>)
    ensures r.Err? <==> ValidatePathPattern(d.path).PathRejected?
    ensures r.Err? ==> r.error == PathErrorText(ValidatePathPattern(d.path).reason)
    ensures r.Ok? ==> (r.value.id == id && r.value.name == d.name && r.value.path == d.path
      && r.value.methods == d.methods && r.value.strategy == d.strategy && r.value.serviceType == d.serviceType
      && r.value.isActive == d.isActive && r.value.proxyUrl == d.proxyUrl && r.value.staticResponse == d.staticResponse
      && r.value.staticStatusCode == d.staticStatusCode && r.value.conditionCode == d.conditionCode
      && r.value.proxyDelay == d.proxyDelay && r.value.staticHeaders == d.staticHeaders
      && r.value.staticDelay == d.staticDelay && r.value.conditionalDelay == d.conditionalDelay
      && r.value.conditionalStatusCode == d.conditionalStatusCode
      && r.value.conditionalHeaders == d.conditionalHeaders)
    ensures r.Ok? ==> (r.value.conditionalResponses.None? <==> d.conditionalResponses.None? || d.conditionalResponses.value == [])
    ensures r.Ok? && r.value.conditionalResponses.Some? ==>
      |r.value.conditionalResponses.value| == |d.conditionalResponses.value|
      && forall i :: 0 <= i < |d.conditionalResponses.value| ==>
           r.value.conditionalResponses.value[i] == Some(d.conditionalResponses.value[i])
  {
    match ValidatePathPattern(d.path)
    case PathRejected(e) => Err(PathErrorText(e))
    case PathOk =>
      var branches :=
        if d.conditionalResponses.Some? && d.conditionalResponses.value != [] then
          Some(seq(|d.conditionalResponses.value|, i requires 0 <= i < |d.conditionalResponses.value| =>
            Some(d.conditionalResponses.value[i])))
        else None;
      Ok(MockService(
        id, d.name, d.path, d.methods, d.strategy, d.serviceType,
        d.proxyUrl, d.proxyDelay,
        d.staticResponse, d.staticStatusCode, d.staticHeaders, d.staticDelay,
        d.conditionCode, branches, d.conditionalDelay, d.conditionalStatusCode, d.conditionalHeaders,
        d.isActive))
  }

  /** Every created service can take part in route selection: its template compiles. */
  lemma CreatedIsRoutable(services: seq<MockService>, d: Schemas.CreateData, id: int)
    requires Routable(services) && CreateMockService(d, id).Ok?
    ensures Routable(services + [CreateMockService(d, id).value])
  {
    ValidCompiles(d.path);
  }

  /**
   * The guard of `update_mock_service`: a supplied non-null path must pass validation;
   * an omitted or `null` path is not checked.
   */
  function CheckUpdatePath(path: Schemas.Supplied<string>): (r: Result<(), string>)
    ensures r.Err? <==> path.Given? && ValidatePathPattern(path.value).PathRejected?
    ensures r.Err? ==> r.error == PathErrorText(ValidatePathPattern(path.value).reason)
  {
    match path
    case Given(p) =>
      (match ValidatePathPattern(p)
       case PathRejected(e) => Err(PathErrorText(e))
       case PathOk => Ok(()))
    case _ => Ok(())
  }

  /** A path that passed the update guard compiles, so the updated service stays routable. */
  lemma UpdatedPathRoutable(path: Schemas.Supplied<string>)
    requires CheckUpdatePath(path).Ok? && path.Given?
    ensures Compiles(path.value)
  {
    ValidCompiles(path.value);
  }
}
