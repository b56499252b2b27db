/**
 * The WSDL import endpoints of `backend/app/api/wsdl.py`: cleaning the WSDL URL into a proxy
 * target, validating the import request, naming the services, and turning every parsed
 * operation into a preview or into a stored proxy mock.
 *
 * Downloading and parsing the WSDL is an input here (`ParseResult`), and storing a record
 * is a parameter that either yields the database id or fails.
 */
module WsdlApi {
  import opened Wrappers
  import opened Text
  import Models
  import Schemas
  import MockServiceStore
  import WsdlService

  // ---------------------------------------------------------------- proxy URL

  /** `s` ends with `suffix` when ASCII case is ignored; `suffix` is written in lower case. */
  predicate EndsWithIgnoringCase(s: string, suffix: string)
  {
    |suffix| <= |s| && Lower(s[|s| - |suffix|..]) == suffix
  }

  /** `re.sub(suffix + '$', '', s, flags=re.IGNORECASE)`. */
  function DropSuffixIgnoringCase(s: string, suffix: string): string
  {
    if EndsWithIgnoringCase(s, suffix) then s[..|s| - |suffix|] else s
  }

  /** `clean_wsdl_url_for_proxy`: drop a trailing `?wsdl`, then a trailing `.wsdl`. */
  function CleanWsdlUrlForProxy(url: string): string
  {
    DropSuffixIgnoringCase(DropSuffixIgnoringCase(url, "?wsdl"), ".wsdl")
  }

  /**
   * The cleaned URL is a prefix of the original, shorter by 0, 5 or 10 characters, and a
   * URL with neither suffix comes back unchanged.
   */
  lemma CleanWsdlUrlShape(url: string)
    ensures StartsWith(url, CleanWsdlUrlForProxy(url))
    ensures |url| - |CleanWsdlUrlForProxy(url)| in {0, 5, 10}
    ensures !EndsWithIgnoringCase(url, "?wsdl") && !EndsWithIgnoringCase(url, ".wsdl") ==> CleanWsdlUrlForProxy(url) == url
  {
    var once := DropSuffixIgnoringCase(url, "?wsdl");
    assert StartsWith(url, once);
    var twice := DropSuffixIgnoringCase(once, ".wsdl");
    assert StartsWith(once, twice);
    assert url[..|twice|] == once[..|twice|];
  }

  /** Whatever ends in `.wsdl` loses exactly that suffix. */
  lemma CleanWsdlFileUrl(base: string)
    ensures CleanWsdlUrlForProxy(base + ".wsdl") == base
  {
    var url := base + ".wsdl";
    assert url[|url| - 5..] == ".wsdl";
    assert url[|url| - 5] == '.';
    assert !EndsWithIgnoringCase(url, "?wsdl") by {
      assert Lower(url[|url| - 5..])[0] == '.';
    }
    assert url[..|url| - 5] == base;
  }

  /**
   * A `?wsdl` query is dropped; if what remains ends in `.wsdl`, that goes too, and
   * otherwise the rest is left as it was.
   */
  lemma CleanWsdlQueryUrl(base: string)
    ensures !EndsWithIgnoringCase(base, ".wsdl") ==> CleanWsdlUrlForProxy(base + "?wsdl") == base
    ensures EndsWithIgnoringCase(base, ".wsdl") ==> CleanWsdlUrlForProxy(base + "?wsdl") == base[..|base| - 5]
  {
    var url := base + "?wsdl";
    assert url[|url| - 5..] == "?wsdl";
    assert url[..|url| - 5] == base;
  }

  // ---------------------------------------------------------------- requests

  const SchemeMessage := "URL должен начинаться с http:// или https://"

  /** The `wsdl_url` validator of both request models. */
  function ValidateWsdlUrl(v: string): (r: Result<string, string>)
    ensures r.Ok? <==> StartsWith(v, "http://") || StartsWith(v, "https://")
    ensures r.Ok? ==> r.value == v
    ensures r.Err? ==> r.error == SchemeMessage
  {
    if StartsWith(v, "http://") || StartsWith(v, "https://") then Ok(v) else Err(SchemeMessage)
  }

  /** A `WSDLImportRequest` body: the URL is required, the other two fields may be omitted. */
  datatype ImportRequest = ImportRequest(wsdlUrl: string, basePath: Option<string>, servicePrefix: Option<string>)

  /** A validated import request. */
  datatype ImportSettings = ImportSettings(wsdlUrl: string, basePath: string, servicePrefix: string)

  /**
   * `WSDLImportRequest(**body)`: the URL must use http or https; a supplied base path gets a
   * leading `/` (the same rule as the mock schema's `path`); omitted fields take `/soap` and
   * the empty prefix, which no validator sees.
   */
  function ValidateImportRequest(q: ImportRequest): (r: Result<ImportSettings, string>)
    ensures r.Ok? <==> ValidateWsdlUrl(q.wsdlUrl).Ok?
    ensures r.Ok? ==> r.value.wsdlUrl == q.wsdlUrl && StartsWith(r.value.basePath, "/")
    ensures r.Ok? && q.basePath.Some? ==>
              r.value.basePath == q.basePath.value || r.value.basePath == "/" + q.basePath.value
    ensures r.Ok? && q.basePath.Some? ==> r.value.basePath == Schemas.NormalizePath(q.basePath.value)
    ensures r.Ok? && q.basePath.None? ==> r.value.basePath == "/soap"
    ensures r.Ok? ==> r.value.servicePrefix == q.servicePrefix.GetOr("")
  {
    match ValidateWsdlUrl(q.wsdlUrl)
    case Err(e) => Err(e)
    case Ok(url) =>
      Ok(ImportSettings(
        url,
        if q.basePath.Some? then Schemas.NormalizePath(q.basePath.value) else "/soap",
        q.servicePrefix.GetOr("")))
  }

  /** The name of the service created for an operation. */
  function ServiceName(prefix: string, serviceName: string, operationName: string): (r: string)
    ensures EndsWith(r, "_" + operationName)
    ensures prefix != "" ==> StartsWith(r, prefix + "_")
    ensures prefix == "" ==> StartsWith(r, serviceName + "_")
    ensures |r| == |(if prefix != "" then prefix else serviceName)| + 1 + |operationName|
  {
    var owner := if prefix != "" then prefix else serviceName;
    assert (owner + "_" + operationName)[..|owner + "_"|] == owner + "_";
    assert (owner + "_" + operationName)[|owner|..] == "_" + operationName;
    owner + "_" + operationName
  }

  /** What `parse_wsdl_from_url` returns. */
  datatype ParseResult = ParseResult(
    serviceName: string,
    targetNamespace: string,
    soapAddress: string,
    operations: seq<WsdlService.Operation>,
    errors: seq<string>,
    warnings: seq<string>)

  /** An `HTTPException` with its status code and detail. */
  datatype HttpError = HttpError(status: int, detail: string)

  function ParseErrorsDetail(errors: seq<string>): string
  {
    "Ошибки парсинга WSDL: " + Join(errors, ", ")
  }

  // ---------------------------------------------------------------- preview

  datatype Preview = Preview(
    name: string,
    path: string,
    methods: seq<string>,
    operationName: string,
    soapAction: string,
    sampleRequest: string,
    sampleResponse: string,
    proxyUrl: string)

  /** The sample request and response shown for one operation. */
  datatype Samples = Samples(request: string, response: string)

  /**
   * The samples `generate_soap_envelope` and `generate_soap_response` write for an operation
   * with no caller data, in namespace `ns`. The preview passes the namespace the parse left in
   * the service's `tns` entry, which is the document's target namespace (empty when it had none).
   */
  function SamplesIn(ns: string): WsdlService.Operation -> Samples
  {
    (op: WsdlService.Operation) =>
      Samples(
        Join(WsdlService.EnvelopeLines(op, WsdlService.Values([]), ns), "\n"),
        Join(WsdlService.ResponseLines(op, WsdlService.Values([]), ns), "\n"))
  }

  /** The preview of one operation, given its samples. */
  function PreviewOf(s: ImportSettings, result: ParseResult, op: WsdlService.Operation, samples: Samples): Preview
  {
    Preview(
      ServiceName(s.servicePrefix, result.serviceName, op.name), s.basePath, ["POST"], op.name, op.soapAction,
      samples.request, samples.response, CleanWsdlUrlForProxy(s.wsdlUrl))
  }

  /** The previews of `ops`, in order. */
  function PreviewsOf(s: ImportSettings, result: ParseResult, ops: seq<WsdlService.Operation>,
                      sample: WsdlService.Operation -> Samples): seq<Preview>
  {
    if ops == [] then []
    else PreviewsOf(s, result, ops[..|ops| - 1], sample) + [PreviewOf(s, result, ops[|ops| - 1], sample(ops[|ops| - 1]))]
  }

  /** There is one preview per operation, and the preview at `i` is that of operation `i`. */
  lemma {:induction false} PreviewsOfEach(s: ImportSettings, result: ParseResult, ops: seq<WsdlService.Operation>,
                                          sample: WsdlService.Operation -> Samples)
    ensures |PreviewsOf(s, result, ops, sample)| == |ops|
    ensures forall i :: 0 <= i < |ops| ==>
      PreviewsOf(s, result, ops, sample)[i] == PreviewOf(s, result, ops[i], sample(ops[i]))
  {
    if ops != [] {
      var front := ops[..|ops| - 1];
      PreviewsOfEach(s, result, front, sample);
      assert forall i :: 0 <= i < |front| ==> front[i] == ops[i];
    }
  }

  /** The loop of `preview_wsdl_import`, with the sample writer as a parameter. */
  method BuildPreviews(s: ImportSettings, result: ParseResult, sample: WsdlService.Operation -> Samples)
    returns (previews: seq<Preview>)
    ensures previews == PreviewsOf(s, result, result.operations, sample)
  {
    var ops := result.operations;
    previews := [];
    var i := 0;
    while i < |ops|
      invariant i <= |ops|
      invariant previews == PreviewsOf(s, result, ops[..i], sample)
    {
      var op := ops[i];
      var name := ServiceName(s.servicePrefix, result.serviceName, op.name);
      var proxyUrl := CleanWsdlUrlForProxy(s.wsdlUrl);
      var samples := sample(op);
      assert ops[..i + 1][..i] == ops[..i];
      previews := previews + [Preview(name, s.basePath, ["POST"], op.name, op.soapAction,
                                      samples.request, samples.response, proxyUrl)];
      i := i + 1;
    }
    assert ops[..i] == ops;
  }

  /** `preview_wsdl_import`: parse errors give 400; otherwise one preview per operation, in order. */
  method PreviewImport(s: ImportSettings, result: ParseResult) returns (r: Result<seq<Preview>, HttpError>)
    ensures r.Err? <==> result.errors != []
    ensures r.Err? ==> r.error == HttpError(400, ParseErrorsDetail(result.errors))
    ensures r.Ok? ==> r.value == PreviewsOf(s, result, result.operations, SamplesIn(result.targetNamespace))
  {
    if result.errors != [] {
      return Err(HttpError(400, ParseErrorsDetail(result.errors)));
    }
    var previews := BuildPreviews(s, result, SamplesIn(result.targetNamespace));
    return Ok(previews);
  }

  // ---------------------------------------------------------------- import

  /** Why creating the service for one operation failed. */
  datatype Failure =
    | InvalidRequest(problems: seq<Schemas.Problem>)
    | RejectedPath(message: string)
    | StoreFailed

  /** One entry of the import's answer. */
  datatype ImportEntry =
    | Created(id: int, name: string, path: string, operationName: string, soapAction: string)
    | Failed(operationName: string, soapAction: string, cause: Failure)

  /** The `MockServiceCreate` built for an operation: a POST proxy to the cleaned WSDL URL. */
  function MockRequest(s: ImportSettings, name: string): Schemas.CreateInput
  {
    Schemas.CreateInput(
      name, s.basePath, ["POST"], Models.Proxy, Models.Soap, true,
      Schemas.Given(CleanWsdlUrlForProxy(s.wsdlUrl)), 0.0,
      Schemas.Missing, 200, None, 0.0,
      Schemas.Missing, None, 0.0, 200, None)
  }

  /**
   * One pass of the import loop for the operation at position `i`. `store(i, d)` is the
   * database insert: the new id, or `None` when it raises.
   */
  function ImportOne(s: ImportSettings, result: ParseResult, i: nat, store: (nat, Schemas.CreateData) -> Option<int>)
    : ImportEntry
    requires i < |result.operations|
  {
    var op := result.operations[i];
    var name := ServiceName(s.servicePrefix, result.serviceName, op.name);
    match Schemas.ValidateCreate(MockRequest(s, name))
    case Err(problems) => Failed(op.name, op.soapAction, InvalidRequest(problems))
    case Ok(d) =>
      match store(i, d)
      case None => (if MockServiceStore.CreateMockService(d, 0).Err?
                    then Failed(op.name, op.soapAction, RejectedPath(MockServiceStore.CreateMockService(d, 0).error))
                    else Failed(op.name, op.soapAction, StoreFailed))
      case Some(id) =>
        match MockServiceStore.CreateMockService(d, id)
        case Err(message) => Failed(op.name, op.soapAction, RejectedPath(message))
        case Ok(m) => Created(m.id, m.name, m.path, op.name, op.soapAction)
  }

  /**
   * `import_wsdl_services`: parse errors give 400; otherwise every operation yields one entry,
   * in order, and a failure on one operation does not stop the others.
   */
  method ImportWsdlServices(s: ImportSettings, result: ParseResult, store: (nat, Schemas.CreateData) -> Option<int>)
    returns (r: Result<seq<ImportEntry>, HttpError>)
    ensures r.Err? <==> result.errors != []
    ensures r.Err? ==> r.error == HttpError(400, ParseErrorsDetail(result.errors))
    ensures r.Ok? ==>
              |r.value| == |result.operations|
              && forall i :: 0 <= i < |result.operations| ==> r.value[i] == ImportOne(s, result, i, store)
  {
    if result.errors != [] {
      return Err(HttpError(400, ParseErrorsDetail(result.errors)));
    }
    var entries: seq<ImportEntry> := [];
    var i := 0;
    while i < |result.operations|
      invariant i <= |result.operations| && |entries| == i
      invariant forall j :: 0 <= j < i ==> entries[j] == ImportOne(s, result, j, store)
    {
      entries := entries + [ImportOne(s, result, i, store)];
      i := i + 1;
    }
    return Ok(entries);
  }

  /** Every created entry names the operation's service and sits at the base path. */
  lemma CreatedEntry(s: ImportSettings, result: ParseResult, i: nat, store: (nat, Schemas.CreateData) -> Option<int>)
    requires i < |result.operations| && StartsWith(s.basePath, "/")
    requires ImportOne(s, result, i, store).Created?
    ensures var e := ImportOne(s, result, i, store);
            e.name == ServiceName(s.servicePrefix, result.serviceName, result.operations[i].name)
            && e.path == s.basePath
            && e.operationName == result.operations[i].name && e.soapAction == result.operations[i].soapAction
            && Some(e.id) == store(i, Schemas.ValidateCreate(MockRequest(s, e.name)).value)
  {
  }

  /**
   * The record validation leaves for an operation: the base path, `POST` only, a SOAP proxy
   * to the cleaned WSDL URL with no delay, active.
   */
  lemma ImportedRecord(s: ImportSettings, name: string)
    requires StartsWith(s.basePath, "/") && Schemas.ValidateCreate(MockRequest(s, name)).Ok?
    ensures var d := Schemas.ValidateCreate(MockRequest(s, name)).value;
            d.name == name && d.path == s.basePath && d.methods == ["POST"]
            && d.strategy == Models.Proxy && d.serviceType == Models.Soap
            && d.proxyUrl == Some(CleanWsdlUrlForProxy(s.wsdlUrl)) && d.proxyDelay == 0.0 && d.isActive
  {
    assert Upper("POST") == "POST";
    assert Schemas.ValidateMethods(["POST"]).value == ["POST"];
  }

  /**
   * The create request of an operation validates exactly when the name and base path fit
   * their bounds and the cleaned URL is not empty.
   */
  lemma ImportRequestAccepted(s: ImportSettings, name: string)
    ensures Schemas.ValidateCreate(MockRequest(s, name)).Ok? <==>
              1 <= |name| <= 255 && 1 <= |s.basePath| <= 1000 && CleanWsdlUrlForProxy(s.wsdlUrl) != ""
  {
    Schemas.CreateAccepted(MockRequest(s, name));
    assert Upper("POST") == "POST";
  }

  /** The cleaned URL of an accepted WSDL URL is never empty: part of the scheme survives. */
  lemma AcceptedUrlCleansNonEmpty(url: string)
    requires ValidateWsdlUrl(url).Ok?
    ensures CleanWsdlUrlForProxy(url) != ""
  {
    CleanWsdlUrlShape(url);
    if |url| <= 10 {
      // where a `?wsdl` suffix would need its `?`, the scheme has a letter, `:` or `/`
      var k := |url| - 5;
      assert url[k] in {'t', 'p', 's', ':', '/'} by {
        if StartsWith(url, "http://") {
          assert url[k] == "http://"[k];
        } else {
          assert url[k] == "https://"[k];
        }
      }
      assert LowerChar(url[k]) != '?';
      assert Lower(url[k..])[0] != '?';
    }
  }

  /**
   * After the import request validated, an operation's create request is refused only for a
   * name or base path beyond its length bound.
   */
  lemma ValidatedImportCreates(q: ImportRequest, name: string)
    requires ValidateImportRequest(q).Ok?
    ensures var s := ValidateImportRequest(q).value;
            Schemas.ValidateCreate(MockRequest(s, name)).Ok? <==> 1 <= |name| <= 255 && |s.basePath| <= 1000
  {
    var s := ValidateImportRequest(q).value;
    ImportRequestAccepted(s, name);
    AcceptedUrlCleansNonEmpty(s.wsdlUrl);
  }
}
