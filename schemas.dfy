/**
 * The request schemas of `backend/app/schemas/mock_service.py`: field bounds, the HTTP-verb
 * and path normalisers, and the per-strategy checks.
 *
 * Validation follows the schema library the service uses: fields are validated in
 * declaration order, every failing field contributes one problem, a field's own bounds are
 * checked before its validator, and a validator runs only on a field the request supplied
 * (an explicit `null` counts as supplied, an omitted field does not).
 */
module Schemas {
  import opened Wrappers
  import opened Text
  import opened Models

  /** A request field: omitted, an explicit `null`, or a value. */
  datatype Supplied<T> = Missing | Null | Given(value: T)
  {
    function ToOption(): Option<T>
    {
      if Given? then Some(value) else None
    }
  }

  /** Python truthiness of a supplied string (omitted and `null` are both falsy). */
  predicate Filled(v: Supplied<string>)
  {
    v.Given? && v.value != ""
  }

  const AllowedMethods: seq<string> := ["GET", "POST", "PUT", "DELETE", "PATCH", "HEAD", "OPTIONS"]

  predicate StatusInRange(code: int) { 100 <= code <= 599 }

  // ---------------------------------------------------------------- normalisers

  /** The `methods` validator: the first verb outside the allowed list, or every verb upper-cased. */
  function ValidateMethods(methods: seq<string>): (r: Result<seq<string>, string>)
    ensures r.Ok? <==> forall i :: 0 <= i < |methods| ==> Upper(methods[i]) in AllowedMethods
    ensures r.Ok? ==> |r.value| == |methods| && forall i :: 0 <= i < |methods| ==> r.value[i] == Upper(methods[i])
    ensures r.Err? ==> exists i :: 0 <= i < |methods| && r.error == methods[i] && Upper(methods[i]) !in AllowedMethods
                           && forall j :: 0 <= j < i ==> Upper(methods[j]) in AllowedMethods
  {
    if methods == [] then Ok([])
    else if Upper(methods[0]) !in AllowedMethods then Err(methods[0])
    else
      match ValidateMethods(methods[1..])
      case Err(m) => Err(m)
      case Ok(rest) => Ok([Upper(methods[0])] + rest)
  }

  lemma UpperIdempotent(s: string)
    ensures Upper(Upper(s)) == Upper(s)
  {
  }

  /** Validating an already validated list of verbs changes nothing. */
  lemma ValidateMethodsIdempotent(methods: seq<string>)
    requires ValidateMethods(methods).Ok?
    ensures ValidateMethods(ValidateMethods(methods).value) == ValidateMethods(methods)
  {
    var v := ValidateMethods(methods).value;
    forall i | 0 <= i < |v|
      ensures Upper(v[i]) == v[i]
    {
      UpperIdempotent(methods[i]);
    }
    var w := ValidateMethods(v).value;
    assert w == v;
  }

  /** The `path` validator: prepend `/` when it is missing. */
  function NormalizePath(p: string): (r: string)
    ensures StartsWith(r, "/")
    ensures StartsWith(p, "/") ==> r == p
    ensures !StartsWith(p, "/") ==> r == "/" + p
  {
    if StartsWith(p, "/") then p else "/" + p
  }

  lemma NormalizePathIdempotent(p: string)
    ensures NormalizePath(NormalizePath(p)) == NormalizePath(p)
  {
  }

  // ---------------------------------------------------------------- conditional branches

  /** A conditional branch as the request supplies it; an omitted `response_type` defaults to `static`. */
  datatype BranchInput = BranchInput(
    condition: string,
    responseType: Option<string>,
    response: Supplied<string>,
    proxyUrl: Supplied<string>,
    statusCode: int,
    headers: Option<Headers>,
    delay: real)

  datatype BranchProblem =
    | MissingResponse
    | MissingBranchProxyUrl
    | BranchStatusOutOfRange
    | BranchNegativeDelay

  function ResponseTypeOf(b: BranchInput): string
  {
    b.responseType.GetOr("static")
  }

  /** Every branch problem, in field order. */
  function BranchProblems(b: BranchInput): seq<BranchProblem>
  {
    (if b.response != Missing && ResponseTypeOf(b) == "static" && !Filled(b.response) then [MissingResponse] else [])
    + (if b.proxyUrl != Missing && ResponseTypeOf(b) == "proxy" && !Filled(b.proxyUrl) then [MissingBranchProxyUrl] else [])
    + (if !StatusInRange(b.statusCode) then [BranchStatusOutOfRange] else [])
    + (if b.delay < 0.0 then [BranchNegativeDelay] else [])
  }

  /** A valid branch becomes the stored record that `.dict()` produces; headers are kept even on a proxy branch. */
  function ValidateBranch(b: BranchInput): (r: Result<Branch, seq<BranchProblem>>)
    ensures r.Ok? <==> BranchAcceptable(b)
    ensures r.Ok? ==> (r.value.condition == Some(b.condition) && r.value.responseType == ResponseTypeOf(b)
      && r.value.headers == b.headers && StatusInRange(r.value.statusCode) && r.value.delay >= 0.0)
    ensures r.Ok? ==> (r.value.response == b.response.ToOption() && r.value.proxyUrl == b.proxyUrl.ToOption()
      && r.value.statusCode == b.statusCode && r.value.delay == b.delay)
    ensures r.Err? ==> r.error != []
  {
    var problems := BranchProblems(b);
    if problems == [] then
      Ok(Branch(Some(b.condition), ResponseTypeOf(b), b.response.ToOption(), b.proxyUrl.ToOption(),
                b.statusCode, b.headers, b.delay))
    else Err(problems)
  }

  /** The branch rules, stated on their own. */
  predicate BranchAcceptable(b: BranchInput)
  {
    StatusInRange(b.statusCode) && b.delay >= 0.0
    && (ResponseTypeOf(b) == "static" && b.response != Missing ==> Filled(b.response))
    && (ResponseTypeOf(b) == "proxy" && b.proxyUrl != Missing ==> Filled(b.proxyUrl))
  }

  /**
   * A static branch whose `response` is omitted passes: the check runs only on a supplied
   * value. An explicit `null` or empty response is refused.
   */
  lemma StaticBranchResponseChecked(b: BranchInput)
    requires StatusInRange(b.statusCode) && b.delay >= 0.0 && ResponseTypeOf(b) == "static"
    ensures b.response == Missing ==> ValidateBranch(b).Ok?
    ensures b.response.Null? || b.response == Given("") ==> ValidateBranch(b) == Err([MissingResponse])
  {
    if b.response.Null? || b.response == Given("") {
      assert ResponseTypeOf(b) != "proxy";
      assert BranchProblems(b) == [MissingResponse] + [] + [] + [];
      assert BranchProblems(b) == [MissingResponse];
    }
  }

  // ---------------------------------------------------------------- create

  /** The body of a create request. Required fields are present; defaults are already filled in. */
  datatype CreateInput = CreateInput(
    name: string,
    path: string,
    methods: seq<string>,
    strategy: Strategy,
    serviceType: ServiceType,
    isActive: bool,
    proxyUrl: Supplied<string>,
    proxyDelay: real,
    staticResponse: Supplied<string>,
    staticStatusCode: int,
    staticHeaders: Option<Headers>,
    staticDelay: real,
    conditionCode: Supplied<string>,
    conditionalResponses: Option<seq<BranchInput>>,
    conditionalDelay: real,
    conditionalStatusCode: int,
    conditionalHeaders: Option<Headers>)

  /** A create request after validation: verbs upper-cased, path normalised, branches converted. */
  datatype CreateData = CreateData(
    name: string,
    path: string,
    methods: seq<string>,
    strategy: Strategy,
    serviceType: ServiceType,
    isActive: bool,
    proxyUrl: Option<string>,
    proxyDelay: real,
    staticResponse: Option<string>,
    staticStatusCode: int,
    staticHeaders: Option<Headers>,
    staticDelay: real,
    conditionCode: Option<string>,
    conditionalResponses: Option<seq<Branch>>,
    conditionalDelay: real,
    conditionalStatusCode: int,
    conditionalHeaders: Option<Headers>)

  datatype Problem =
    | NameLength
    | PathLength
    | NoMethods
    | BadMethod(verb: string)
    | UnknownStrategy
    | MissingProxyUrl
    | NegativeProxyDelay
    | MissingStaticResponse
    | StaticStatusOutOfRange
    | NegativeStaticDelay
    | MissingConditionCode
    | BadBranch(index: nat, problems: seq<BranchProblem>)
    | NegativeConditionalDelay
    | ConditionalStatusOutOfRange

  /** The problems of each branch, tagged with its position. */
  function BranchesProblems(bs: seq<BranchInput>): (ps: seq<Problem>)
    ensures ps == [] <==> forall i :: 0 <= i < |bs| ==> BranchAcceptable(bs[i])
    ensures forall p :: p in ps ==> p.BadBranch?
  {
    if bs == [] then []
    else
      var init := BranchesProblems(bs[..|bs| - 1]);
      var last := ValidateBranch(bs[|bs| - 1]);
      assert forall i :: 0 <= i < |bs| - 1 ==> bs[..|bs| - 1][i] == bs[i];
      init + (if last.Err? then [BadBranch(|bs| - 1, last.error)] else [])
  }

  /** The validated branches, in order. */
  function ConvertBranches(bs: seq<BranchInput>): (r: seq<Branch>)
    requires forall i :: 0 <= i < |bs| ==> BranchAcceptable(bs[i])
    ensures |r| == |bs| && forall i :: 0 <= i < |bs| ==> ValidateBranch(bs[i]) == Ok(r[i])
  {
    seq(|bs|, i requires 0 <= i < |bs| => ValidateBranch(bs[i]).value)
  }

  function MethodProblems(methods: seq<string>): seq<Problem>
  {
    if methods == [] then [NoMethods]
    else match ValidateMethods(methods)
      case Err(m) => [BadMethod(m)]
      case Ok(_) => []
  }

  /**
   * Every problem of a create request, in field order. The strategy checks compare against
   * the already validated `strategy` and run only on supplied fields.
   */
  function CreateProblems(c: CreateInput): seq<Problem>
  {
    (if !(1 <= |c.name| <= 255) then [NameLength] else [])
    + (if !(1 <= |c.path| <= 1000) then [PathLength] else [])
    + MethodProblems(c.methods)
    + (if c.strategy.OtherStrategy? then [UnknownStrategy] else [])
    + (if c.proxyUrl != Missing && c.strategy == Proxy && !Filled(c.proxyUrl) then [MissingProxyUrl] else [])
    + (if c.proxyDelay < 0.0 then [NegativeProxyDelay] else [])
    + (if c.staticResponse != Missing && c.strategy == Static && !Filled(c.staticResponse) then [MissingStaticResponse] else [])
    + (if !StatusInRange(c.staticStatusCode) then [StaticStatusOutOfRange] else [])
    + (if c.staticDelay < 0.0 then [NegativeStaticDelay] else [])
    + (if c.conditionCode != Missing && c.strategy == Conditional && !Filled(c.conditionCode) then [MissingConditionCode] else [])
    + (if c.conditionalResponses.Some? then BranchesProblems(c.conditionalResponses.value) else [])
    + (if c.conditionalDelay < 0.0 then [NegativeConditionalDelay] else [])
    + (if !StatusInRange(c.conditionalStatusCode) then [ConditionalStatusOutOfRange] else [])
  }

  /** The create rules, stated on their own. */
  predicate CreateAcceptable(c: CreateInput)
  {
    1 <= |c.name| <= 255 && 1 <= |c.path| <= 1000
    && |c.methods| >= 1 && (forall i :: 0 <= i < |c.methods| ==> Upper(c.methods[i]) in AllowedMethods)
    && !c.strategy.OtherStrategy?
    && (c.strategy == Proxy && c.proxyUrl != Missing ==> Filled(c.proxyUrl))
    && (c.strategy == Static && c.staticResponse != Missing ==> Filled(c.staticResponse))
    && (c.strategy == Conditional && c.conditionCode != Missing ==> Filled(c.conditionCode))
    && c.proxyDelay >= 0.0 && c.staticDelay >= 0.0 && c.conditionalDelay >= 0.0
    && StatusInRange(c.staticStatusCode) && StatusInRange(c.conditionalStatusCode)
    && (c.conditionalResponses.Some? ==>
          forall i :: 0 <= i < |c.conditionalResponses.value| ==> BranchAcceptable(c.conditionalResponses.value[i]))
  }

  /** `MockServiceCreate(**body)`: the validated data, or every problem found. */
  function ValidateCreate(c: CreateInput): (r: Result<CreateData, seq<Problem>>)
    ensures r.Err? ==> r.error != []
    ensures r.Ok? ==> r.value.path == NormalizePath(c.path) && ValidateMethods(c.methods) == Ok(r.value.methods)
    ensures r.Ok? ==> (r.value.name == c.name && r.value.strategy == c.strategy
      && r.value.serviceType == c.serviceType && r.value.isActive == c.isActive
      && r.value.proxyUrl == c.proxyUrl.ToOption() && r.value.proxyDelay == c.proxyDelay
      && r.value.staticResponse == c.staticResponse.ToOption() && r.value.staticStatusCode == c.staticStatusCode
      && r.value.staticHeaders == c.staticHeaders && r.value.staticDelay == c.staticDelay
      && r.value.conditionCode == c.conditionCode.ToOption() && r.value.conditionalDelay == c.conditionalDelay
      && r.value.conditionalStatusCode == c.conditionalStatusCode && r.value.conditionalHeaders == c.conditionalHeaders)
    ensures r.Ok? ==> (r.value.conditionalResponses.Some? <==> c.conditionalResponses.Some?)
    ensures r.Ok? && c.conditionalResponses.Some? ==>
      |r.value.conditionalResponses.value| == |c.conditionalResponses.value|
      && forall i :: 0 <= i < |c.conditionalResponses.value| ==>
           ValidateBranch(c.conditionalResponses.value[i]) == Ok(r.value.conditionalResponses.value[i])
  {
    var problems := CreateProblems(c);
    if problems != [] then Err(problems)
    else
      assert MethodProblems(c.methods) == [];
      assert c.conditionalResponses.Some? ==> BranchesProblems(c.conditionalResponses.value) == [];
      Ok(CreateData(
        c.name, NormalizePath(c.path), ValidateMethods(c.methods).value, c.strategy, c.serviceType, c.isActive,
        c.proxyUrl.ToOption(), c.proxyDelay,
        c.staticResponse.ToOption(), c.staticStatusCode, c.staticHeaders, c.staticDelay,
        c.conditionCode.ToOption(),
        if c.conditionalResponses.Some? then Some(ConvertBranches(c.conditionalResponses.value)) else None,
        c.conditionalDelay, c.conditionalStatusCode, c.conditionalHeaders))
  }

  lemma {:induction false} CreateProblemsExact(c: CreateInput)
    ensures CreateProblems(c) == [] <==> CreateAcceptable(c)
  {
    if c.methods != [] {
      if ValidateMethods(c.methods).Err? {
        assert MethodProblems(c.methods) != [];
      }
    }
  }

  /** A create request is accepted exactly when it meets every rule. */
  lemma CreateAccepted(c: CreateInput)
    ensures ValidateCreate(c).Ok? <==> CreateAcceptable(c)
  {
    CreateProblemsExact(c);
  }

  /** What validation guarantees about the data a create request leaves behind. */
  lemma {:induction false} CreateDataShape(c: CreateInput)
    requires ValidateCreate(c).Ok?
    ensures var d := ValidateCreate(c).value;
      1 <= |d.name| <= 255 && StartsWith(d.path, "/") && (d.path == c.path || d.path == "/" + c.path)
      && (StartsWith(c.path, "/") <==> d.path == c.path)
    ensures var d := ValidateCreate(c).value;
      |d.methods| == |c.methods| >= 1 && (forall i :: 0 <= i < |d.methods| ==> d.methods[i] in AllowedMethods)
      && (forall i :: 0 <= i < |c.methods| ==> d.methods[i] == Upper(c.methods[i]))
    ensures var d := ValidateCreate(c).value;
      StatusInRange(d.staticStatusCode) && StatusInRange(d.conditionalStatusCode)
      && d.proxyDelay >= 0.0 && d.staticDelay >= 0.0 && d.conditionalDelay >= 0.0
  {
    CreateAccepted(c);
    var d := ValidateCreate(c).value;
    forall i | 0 <= i < |d.methods|
      ensures d.methods[i] in AllowedMethods
    {
      assert d.methods[i] == Upper(c.methods[i]);
    }
  }

  /**
   * A proxy service may be created without `proxy_url` when the field is omitted: the
   * check only runs on a supplied value. An explicit `null` or empty URL is refused.
   */
  lemma ProxyUrlCheckedOnlyWhenSupplied(c: CreateInput)
    requires c.strategy == Proxy
    ensures c.proxyUrl == Missing ==> MissingProxyUrl !in CreateProblems(c)
    ensures c.proxyUrl.Null? || c.proxyUrl == Given("") ==> ValidateCreate(c).Err?
  {
    if c.proxyUrl.Null? || c.proxyUrl == Given("") {
      CreateAccepted(c);
    }
  }

  /**
   * The path bound is checked before the normaliser runs, so a 1000-character path
   * without a leading `/` is stored with 1001 characters.
   */
  lemma PathBoundBeforeNormalising(c: CreateInput)
    requires ValidateCreate(c).Ok? && !StartsWith(c.path, "/")
    ensures |ValidateCreate(c).value.path| == |c.path| + 1
  {
  }

  // ---------------------------------------------------------------- update

  /** The body of an update request: every field optional. */
  datatype UpdateInput = UpdateInput(
    name: Supplied<string>,
    path: Supplied<string>,
    methods: Supplied<seq<string>>,
    strategy: Supplied<Strategy>,
    isActive: Supplied<bool>,
    proxyUrl: Supplied<string>,
    proxyDelay: Supplied<real>,
    staticResponse: Supplied<string>,
    staticStatusCode: Supplied<int>,
    staticHeaders: Supplied<Headers>,
    staticDelay: Supplied<real>,
    conditionCode: Supplied<string>,
    conditionalResponses: Supplied<seq<BranchInput>>,
    conditionalDelay: Supplied<real>,
    conditionalStatusCode: Supplied<int>,
    conditionalHeaders: Supplied<Headers>)

  /** The `methods` validator of the update schema: `null` passes through, and an empty list is allowed. */
  function ValidateUpdateMethods(methods: Supplied<seq<string>>): (r: Result<Supplied<seq<string>>, string>)
    ensures methods.Missing? || methods.Null? ==> r == Ok(methods)
    ensures methods.Given? ==> (r.Ok? <==> ValidateMethods(methods.value).Ok?)
    ensures methods.Given? && r.Ok? ==> r.value == Given(ValidateMethods(methods.value).value)
  {
    match methods
    case Given(ms) =>
      (match ValidateMethods(ms)
       case Ok(v) => Ok(Given(v))
       case Err(m) => Err(m))
    case _ => Ok(methods)
  }

  /** The `path` validator of the update schema: `null` passes through. */
  function NormalizeUpdatePath(path: Supplied<string>): (r: Supplied<string>)
    ensures !path.Given? ==> r == path
    ensures path.Given? ==> r.Given? && StartsWith(r.value, "/") && (StartsWith(path.value, "/") ==> r == path)
    ensures path.Given? && !StartsWith(path.value, "/") ==> r == Given("/" + path.value)
  {
    match path
    case Given(p) => Given(NormalizePath(p))
    case _ => path
  }

  function UpdateProblems(u: UpdateInput): seq<Problem>
  {
    (if u.name.Given? && !(1 <= |u.name.value| <= 255) then [NameLength] else [])
    + (if u.path.Given? && !(1 <= |u.path.value| <= 1000) then [PathLength] else [])
    + (match ValidateUpdateMethods(u.methods) case Err(m) => [BadMethod(m)] case Ok(_) => [])
    + (if u.strategy.Given? && u.strategy.value.OtherStrategy? then [UnknownStrategy] else [])
    + (if u.proxyDelay.Given? && u.proxyDelay.value < 0.0 then [NegativeProxyDelay] else [])
    + (if u.staticStatusCode.Given? && !StatusInRange(u.staticStatusCode.value) then [StaticStatusOutOfRange] else [])
    + (if u.staticDelay.Given? && u.staticDelay.value < 0.0 then [NegativeStaticDelay] else [])
    + (if u.conditionalResponses.Given? then BranchesProblems(u.conditionalResponses.value) else [])
    + (if u.conditionalDelay.Given? && u.conditionalDelay.value < 0.0 then [NegativeConditionalDelay] else [])
    + (if u.conditionalStatusCode.Given? && !StatusInRange(u.conditionalStatusCode.value) then [ConditionalStatusOutOfRange] else [])
  }

  /** The update rules, stated on their own: only supplied values are checked, and there are no strategy checks. */
  predicate UpdateAcceptable(u: UpdateInput)
  {
    (u.name.Given? ==> 1 <= |u.name.value| <= 255)
    && (u.path.Given? ==> 1 <= |u.path.value| <= 1000)
    && (u.methods.Given? ==> forall i :: 0 <= i < |u.methods.value| ==> Upper(u.methods.value[i]) in AllowedMethods)
    && (u.strategy.Given? ==> !u.strategy.value.OtherStrategy?)
    && (u.proxyDelay.Given? ==> u.proxyDelay.value >= 0.0)
    && (u.staticStatusCode.Given? ==> StatusInRange(u.staticStatusCode.value))
    && (u.staticDelay.Given? ==> u.staticDelay.value >= 0.0)
    && (u.conditionalResponses.Given? ==>
          forall i :: 0 <= i < |u.conditionalResponses.value| ==> BranchAcceptable(u.conditionalResponses.value[i]))
    && (u.conditionalDelay.Given? ==> u.conditionalDelay.value >= 0.0)
    && (u.conditionalStatusCode.Given? ==> StatusInRange(u.conditionalStatusCode.value))
  }

  lemma UpdateAccepted(u: UpdateInput)
    ensures UpdateProblems(u) == [] <==> UpdateAcceptable(u)
  {
  }

  /** `MockServiceUpdate(**body)`: verbs and path normalised, every other field as supplied. */
  function ValidateUpdate(u: UpdateInput): (r: Result<UpdateInput, seq<Problem>>)
    ensures r.Err? ==> r.error != []
    ensures r.Ok? <==> UpdateAcceptable(u)
    ensures r.Ok? ==> (r.value.path == NormalizeUpdatePath(u.path)
      && r.value.methods == ValidateUpdateMethods(u.methods).value)
    ensures r.Ok? ==> r.value.(methods := u.methods, path := u.path) == u
  {
    UpdateAccepted(u);
    var problems := UpdateProblems(u);
    if problems != [] then Err(problems)
    else
      assert ValidateUpdateMethods(u.methods).Ok?;
      Ok(u.(methods := ValidateUpdateMethods(u.methods).value, path := NormalizeUpdatePath(u.path)))
  }
}
