/**
 * The Swagger/OpenAPI import (`backend/app/services/swagger_service.py`): the structural
 * checks on an uploaded document, endpoint extraction with local `$ref` resolution, and
 * the static mock services generated from the endpoints.
 *
 * Parsing the text (JSON or YAML), the OpenAPI validator, the random sample-data generator
 * and `json.dumps` are parameters of the model.
 */
module Swagger {
  import opened Wrappers
  import opened Text
  import PyDict
  import opened JsonValue
  import Models
  import Schemas

  // ---------------------------------------------------------------- results

  /** Why an import result carries an error, in the order the checks run. */
  datatype ImportError =
    | EmptyContent
    | YamlError(detail: string)
    | JsonError(detail: string)
    | NotAnObject(typeName: string)
    | NotOpenApi
    | NoPaths
    | InvalidSpec(detail: string)
    | Unexpected(kind: PyError)
    | OperationFailed(verb: string, path: string, kind: PyError)

  /** The title of a result that failed as a whole. */
  function TitleOf(e: ImportError): string
  {
    match e
    case EmptyContent => "Empty Content"
    case YamlError(_) => "YAML Parse Error"
    case JsonError(_) => "JSON Parse Error"
    case NotAnObject(_) => "Invalid Format"
    case NotOpenApi => "Not OpenAPI/Swagger"
    case NoPaths => "No Paths Found"
    case InvalidSpec(_) => "Invalid Specification"
    case _ => "Unknown Error"
  }

  /** The error text; an exception's own message is not part of the model. */
  function MessageOf(e: ImportError): string
  {
    match e
    case EmptyContent => "Содержимое файла пустое"
    case YamlError(d) =>
      "Ошибка парсинга YAML: " + d + ". Проверьте синтаксис YAML и убедитесь, что файл не поврежден."
    case JsonError(d) =>
      "Ошибка парсинга JSON: " + d + ". Проверьте что файл содержит валидный JSON и не пустой."
    case NotAnObject(t) => "Ожидался объект, получен " + t
    case NotOpenApi => "Файл не содержит спецификацию OpenAPI или Swagger. Ожидается поле 'openapi' или 'swagger'."
    case NoPaths => "Спецификация не содержит раздел 'paths' или он пустой."
    case InvalidSpec(d) => "Ошибка валидации OpenAPI: " + d
    case Unexpected(_) => "Неизвестная ошибка: "
    case OperationFailed(verb, path, _) => "Ошибка парсинга " + verb + " " + path + ": "
  }

  datatype Parameter = Parameter(name: Json, location: Json, required: Json, paramType: Json, description: Json)

  /** One documented response; a missing schema is `JNull`. */
  datatype ResponseDoc = ResponseDoc(description: Json, schema: Json, example: Json)

  datatype RequestBody = RequestBody(description: Json, required: Json, schema: Json)

  datatype Endpoint = Endpoint(
    path: string,
    verb: string,
    summary: Option<string>,
    description: Option<string>,
    parameters: seq<Parameter>,
    responses: PyDict.Dict<string, ResponseDoc>,
    requestBody: Option<RequestBody>)

  datatype ImportResult = ImportResult(
    title: string,
    version: string,
    baseUrl: Option<string>,
    endpoints: seq<Endpoint>,
    errors: seq<ImportError>)

  /** A result that failed as a whole: no endpoints and the one error. */
  function Failed(e: ImportError): ImportResult
  {
    ImportResult(TitleOf(e), "unknown", None, [], [e])
  }

  // ---------------------------------------------------------------- $ref resolution

  /** The keys of a local reference `#/a/b`: the text after `#/`, split at every `/`. */
  function PointerKeys(ref: string): seq<string>
    requires StartsWith(ref, "#/")
  {
    Split(ref[2..], {'/'})
  }

  /** Walks the keys from the document root; a missing key gives `{}`, a non-dict on the way raises. */
  function Walk(spec: Json, keys: seq<string>): Result<Json, PyError>
  {
    if keys == [] then Ok(spec)
    else match Walk(spec, keys[..|keys| - 1])
      case Err(e) => Err(e)
      case Ok(at) =>
        if at.JObj? then Ok(GetOr(at.fields, keys[|keys| - 1], JObj([]))) else Err(AttributeError)
  }

  lemma {:induction false} WalkErrSticks(spec: Json, keys: seq<string>, n: nat)
    requires n <= |keys| && Walk(spec, keys[..n]).Err?
    ensures Walk(spec, keys) == Walk(spec, keys[..n])
    decreases |keys| - n
  {
    if n < |keys| {
      assert keys[..n + 1][..n] == keys[..n];
      WalkErrSticks(spec, keys, n + 1);
    } else {
      assert keys[..n] == keys;
    }
  }

  /** Follows the keys one at a time, as the resolver's loop does. */
  method FollowPointer(spec: Json, keys: seq<string>) returns (r: Result<Json, PyError>)
    ensures r == Walk(spec, keys)
  {
    var resolved := spec;
    var i := 0;
    while i < |keys|
      invariant i <= |keys|
      invariant Walk(spec, keys[..i]) == Ok(resolved)
    {
      assert keys[..i + 1][..i] == keys[..i];
      if !resolved.JObj? {
        WalkErrSticks(spec, keys, i + 1);
        return Err(AttributeError);
      }
      resolved := GetOr(resolved.fields, keys[i], JObj([]));
      i := i + 1;
    }
    assert keys[..i] == keys;
    return Ok(resolved);
  }

  /**
   * `_resolve_schema_refs` with `depth` calls left before Python's recursion limit. A dict
   * with a local `$ref` is replaced by its resolved target; an unresolvable (falsy) target
   * or a non-local reference leaves the dict as it is; any other dict is rebuilt with its
   * dict values, and the dict items of its list values, resolved.
   */
  function Resolve(schema: Json, spec: Json, depth: nat): Result<Json, PyError>
    decreases depth, schema, 2, 0
  {
    if depth == 0 then Err(RecursionError)
    else match schema
      case JObj(fields) =>
        if Has(fields, "$ref") then
          var ref := GetOr(fields, "$ref", JNull);
          if !ref.JStr? then Err(AttributeError)
          else if !StartsWith(ref.s, "#/") then Ok(schema)
          else
            (match Walk(spec, PointerKeys(ref.s))
             case Err(e) => Err(e)
             case Ok(target) => if Truthy(target) then Resolve(target, spec, depth - 1) else Ok(schema))
        else
          (match ResolveFields(schema, |fields|, spec, depth)
           case Err(e) => Err(e)
           case Ok(fs) => Ok(JObj(fs)))
      case _ => Ok(schema)
  }

  /** The first `n` entries of the dict `owner`, resolved in order. */
  function ResolveFields(owner: Json, n: nat, spec: Json, depth: nat): Result<Fields, PyError>
    requires owner.JObj? && n <= |owner.fields| && depth > 0
    decreases depth, owner, 1, n
  {
    if n == 0 then Ok([])
    else match ResolveFields(owner, n - 1, spec, depth)
      case Err(e) => Err(e)
      case Ok(front) =>
        var (key, value) := owner.fields[n - 1];
        var r :=
          if value.JObj? then Resolve(value, spec, depth - 1)
          else if value.JArr? then
            (match ResolveItems(value, |value.items|, spec, depth)
             case Err(e) => Err(e)
             case Ok(items) => Ok(JArr(items)))
          else Ok(value);
        if r.Err? then Err(r.error) else Ok(front + [(key, r.value)])
  }

  /** The first `n` items of the list `owner`: dicts resolved, anything else kept. */
  function ResolveItems(owner: Json, n: nat, spec: Json, depth: nat): Result<seq<Json>, PyError>
    requires owner.JArr? && n <= |owner.items| && depth > 0
    decreases depth, owner, 0, n
  {
    if n == 0 then Ok([])
    else match ResolveItems(owner, n - 1, spec, depth)
      case Err(e) => Err(e)
      case Ok(front) =>
        var item := owner.items[n - 1];
        if !item.JObj? then Ok(front + [item])
        else match Resolve(item, spec, depth - 1)
          case Err(e) => Err(e)
          case Ok(v) => Ok(front + [v])
  }

  /** No dict the resolver visits holds a `$ref` key. */
  predicate RefFree(j: Json)
    decreases j, 2, 0
  {
    match j
    case JObj(fields) => !Has(fields, "$ref") && FieldsRefFree(j, |fields|)
    case _ => true
  }

  predicate FieldsRefFree(owner: Json, n: nat)
    requires owner.JObj? && n <= |owner.fields|
    decreases owner, 1, n
  {
    n > 0 ==>
      FieldsRefFree(owner, n - 1)
      && var value := owner.fields[n - 1].1;
         (value.JObj? ==> RefFree(value)) && (value.JArr? ==> ItemsRefFree(value, |value.items|))
  }

  predicate ItemsRefFree(owner: Json, n: nat)
    requires owner.JArr? && n <= |owner.items|
    decreases owner, 0, n
  {
    n > 0 ==> ItemsRefFree(owner, n - 1) && (owner.items[n - 1].JObj? ==> RefFree(owner.items[n - 1]))
  }

  /** How deeply the resolver nests its calls on `j`: one per dict level it visits. */
  function Nesting(j: Json): nat
    decreases j, 2, 0
  {
    match j
    case JObj(fields) => 1 + FieldsNesting(j, |fields|)
    case _ => 0
  }

  function FieldsNesting(owner: Json, n: nat): nat
    requires owner.JObj? && n <= |owner.fields|
    decreases owner, 1, n
  {
    if n == 0 then 0
    else
      var value := owner.fields[n - 1].1;
      var here := if value.JObj? then Nesting(value) else if value.JArr? then ItemsNesting(value, |value.items|) else 0;
      Max(FieldsNesting(owner, n - 1), here)
  }

  function ItemsNesting(owner: Json, n: nat): nat
    requires owner.JArr? && n <= |owner.items|
    decreases owner, 0, n
  {
    if n == 0 then 0
    else Max(ItemsNesting(owner, n - 1), if owner.items[n - 1].JObj? then Nesting(owner.items[n - 1]) else 0)
  }

  function Max(a: nat, b: nat): nat { if a < b then b else a }

  /** A schema without references comes back unchanged when the recursion limit is not reached. */
  lemma {:induction false} ResolveRefFree(j: Json, spec: Json, depth: nat)
    requires RefFree(j) && depth > Nesting(j)
    ensures Resolve(j, spec, depth) == Ok(j)
    decreases depth, j, 2, 0
  {
    if j.JObj? {
      ResolveFieldsRefFree(j, |j.fields|, spec, depth);
      assert j.fields[..|j.fields|] == j.fields;
    }
  }

  lemma {:induction false} ResolveFieldsRefFree(owner: Json, n: nat, spec: Json, depth: nat)
    requires owner.JObj? && n <= |owner.fields| && depth > 0
    requires FieldsRefFree(owner, n) && depth > 1 + FieldsNesting(owner, n)
    ensures ResolveFields(owner, n, spec, depth) == Ok(owner.fields[..n])
    decreases depth, owner, 1, n
  {
    if n > 0 {
      ResolveFieldsRefFree(owner, n - 1, spec, depth);
      var value := owner.fields[n - 1].1;
      if value.JObj? {
        ResolveRefFree(value, spec, depth - 1);
      } else if value.JArr? {
        ResolveItemsRefFree(value, |value.items|, spec, depth);
        assert value.items[..|value.items|] == value.items;
      }
      assert owner.fields[..n] == owner.fields[..n - 1] + [owner.fields[n - 1]];
    }
  }

  lemma {:induction false} ResolveItemsRefFree(owner: Json, n: nat, spec: Json, depth: nat)
    requires owner.JArr? && n <= |owner.items| && depth > 0
    requires ItemsRefFree(owner, n) && depth > 1 + ItemsNesting(owner, n)
    ensures ResolveItems(owner, n, spec, depth) == Ok(owner.items[..n])
    decreases depth, owner, 0, n
  {
    if n > 0 {
      ResolveItemsRefFree(owner, n - 1, spec, depth);
      if owner.items[n - 1].JObj? {
        ResolveRefFree(owner.items[n - 1], spec, depth - 1);
      }
      assert owner.items[..n] == owner.items[..n - 1] + [owner.items[n - 1]];
    }
  }

  /**
   * A reference that resolves to itself never finishes: whatever the depth left, the
   * resolver ends in a recursion error.
   */
  lemma {:induction false} SelfReferenceDiverges(schema: Json, spec: Json, depth: nat)
    requires schema.JObj? && Has(schema.fields, "$ref")
    requires var ref := GetOr(schema.fields, "$ref", JNull);
             ref.JStr? && StartsWith(ref.s, "#/") && Walk(spec, PointerKeys(ref.s)) == Ok(schema)
    ensures Resolve(schema, spec, depth) == Err(RecursionError)
  {
    if depth > 0 {
      assert Truthy(schema) by {
        assert schema.fields != [];
      }
      SelfReferenceDiverges(schema, spec, depth - 1);
    }
  }

  // ---------------------------------------------------------------- one operation

  /** `_get_param_type`: the schema's `type` (default `string`), else the parameter's `type`, else `string`. */
  function ParamType(param: Fields): (r: Result<Json, PyError>)
    ensures r.Err? <==> Has(param, "schema") && !GetOr(param, "schema", JNull).JObj?
    ensures Has(param, "schema") && r.Ok? ==> r.value == GetOr(GetOr(param, "schema", JNull).fields, "type", JStr("string"))
    ensures !Has(param, "schema") && Has(param, "type") ==> r == Ok(PyDict.Get(param, "type").value)
    ensures !Has(param, "schema") && !Has(param, "type") ==> r == Ok(JStr("string"))
  {
    if Has(param, "schema") then
      var schema := GetOr(param, "schema", JNull);
      if schema.JObj? then Ok(GetOr(schema.fields, "type", JStr("string"))) else Err(AttributeError)
    else if Has(param, "type") then Ok(GetOr(param, "type", JStr("string")))
    else Ok(JStr("string"))
  }

  /** One entry of `parameters`; anything but a dict raises. */
  function ParamOf(p: Json): Result<Parameter, PyError>
  {
    if !p.JObj? then Err(AttributeError)
    else match ParamType(p.fields)
      case Err(e) => Err(e)
      case Ok(t) =>
        Ok(Parameter(GetOr(p.fields, "name", JStr("")), GetOr(p.fields, "in", JStr("")),
                     GetOr(p.fields, "required", JBool(false)), t, GetOr(p.fields, "description", JStr(""))))
  }

  /** The operation's parameter list, when it has one. */
  function ParametersOf(op: Fields): Result<seq<Parameter>, PyError>
  {
    if !Has(op, "parameters") then Ok([])
    else match Iterate(GetOr(op, "parameters", JNull))
      case Err(e) => Err(e)
      case Ok(ps) => Collect(ps, ParamOf)
  }

  /** `_extract_schema_swagger`: a truthy `schema`, resolved; otherwise none. */
  function SchemaOf(response: Fields, spec: Json, depth: nat): Result<Json, PyError>
  {
    var schema := GetOr(response, "schema", JNull);
    if Truthy(schema) then Resolve(schema, spec, depth) else Ok(JNull)
  }

  /** `_generate_data_from_schema` on a dict is the sample generator; on anything else it is `None`. */
  function Sample(schema: Json, sample: Json -> Json): Json
  {
    if schema.JObj? then sample(schema) else JNull
  }

  /** One documented response, under its status key. */
  function ResponseOf(entry: (string, Json), spec: Json, depth: nat, sample: Json -> Json)
    : Result<(string, ResponseDoc), PyError>
  {
    var (status, response) := entry;
    if !response.JObj? then Err(AttributeError)
    else match SchemaOf(response.fields, spec, depth)
      case Err(e) => Err(e)
      case Ok(schema) =>
        var example := if Truthy(schema) then Sample(schema, sample) else JObj([]);
        Ok((status, ResponseDoc(GetOr(response.fields, "description", JStr("")), schema, example)))
  }

  function ResponseStep(spec: Json, depth: nat, sample: Json -> Json): ((string, Json)) -> Result<(string, ResponseDoc), PyError>
  {
    entry => ResponseOf(entry, spec, depth, sample)
  }

  /** The operation's responses, in document order, when it has any. */
  function ResponsesOf(op: Fields, spec: Json, depth: nat, sample: Json -> Json)
    : Result<PyDict.Dict<string, ResponseDoc>, PyError>
  {
    if !Has(op, "responses") then Ok([])
    else
      var listed := GetOr(op, "responses", JNull);
      if !listed.JObj? then Err(AttributeError) else Collect(listed.fields, ResponseStep(spec, depth, sample))
  }

  /** `_extract_request_body_schema`: the first listed media type that is present and has a truthy schema. */
  function ContentSchema(content: Json, types: seq<string>, spec: Json, depth: nat): Result<Json, PyError>
  {
    if types == [] then Ok(JNull)
    else match In(content, types[0])
      case Err(e) => Err(e)
      case Ok(found) =>
        if !found then ContentSchema(content, types[1..], spec, depth)
        else
          (match Subscript(content, types[0])
           case Err(e) => Err(e)
           case Ok(media) =>
             if !media.JObj? then Err(AttributeError)
             else
               var schema := GetOr(media.fields, "schema", JNull);
               if Truthy(schema) then Resolve(schema, spec, depth) else ContentSchema(content, types[1..], spec, depth))
  }

  const MediaTypes: seq<string> := ["application/json", "*/*"]

  /** A Swagger 2.0 `in: body` parameter read as a request body. */
  function BodyFrom(param: Fields): RequestBody
  {
    RequestBody(GetOr(param, "description", JStr("")), GetOr(param, "required", JBool(false)), GetOr(param, "schema", JNull))
  }

  predicate IsBodyParam(p: Json)
  {
    p.JObj? && GetOr(p.fields, "in", JNull) == JStr("body")
  }

  /** The first parameter with `in == "body"`; a non-dict met before it raises. */
  function FirstBodyParam(ps: seq<Json>): Result<Option<RequestBody>, PyError>
  {
    if ps == [] then Ok(None)
    else if !ps[0].JObj? then Err(AttributeError)
    else if IsBodyParam(ps[0]) then Ok(Some(BodyFrom(ps[0].fields)))
    else FirstBodyParam(ps[1..])
  }

  /**
   * The scan stops at the first body parameter, raises at a non-dict met before one, and
   * finds nothing only when every parameter is a dict that is not a body parameter.
   */
  lemma {:induction false} FirstBodyParamSpec(ps: seq<Json>)
    ensures FirstBodyParam(ps) == Ok(None) <==> forall i :: 0 <= i < |ps| ==> ps[i].JObj? && !IsBodyParam(ps[i])
    ensures var r := FirstBodyParam(ps);
            r.Ok? && r.value.Some? ==>
              exists i :: 0 <= i < |ps| && IsBodyParam(ps[i]) && r.value.value == BodyFrom(ps[i].fields)
                && forall j :: 0 <= j < i ==> ps[j].JObj? && !IsBodyParam(ps[j])
    ensures FirstBodyParam(ps).Err? ==>
              exists i :: 0 <= i < |ps| && !ps[i].JObj? && forall j :: 0 <= j < i ==> !IsBodyParam(ps[j])
  {
    if ps != [] && ps[0].JObj? && !IsBodyParam(ps[0]) {
      var rest := ps[1..];
      FirstBodyParamSpec(rest);
      assert forall i :: 1 <= i < |ps| ==> ps[i] == rest[i - 1];
      var r := FirstBodyParam(rest);
      if r.Ok? && r.value.Some? {
        var i :| 0 <= i < |rest| && IsBodyParam(rest[i]) && r.value.value == BodyFrom(rest[i].fields)
                 && forall j :: 0 <= j < i ==> rest[j].JObj? && !IsBodyParam(rest[j]);
        assert IsBodyParam(ps[i + 1]) && forall j :: 0 <= j < i + 1 ==> ps[j].JObj? && !IsBodyParam(ps[j]);
      } else if r.Err? {
        var i :| 0 <= i < |rest| && !rest[i].JObj? && forall j :: 0 <= j < i ==> !IsBodyParam(rest[j]);
        assert !ps[i + 1].JObj? && forall j :: 0 <= j < i + 1 ==> !IsBodyParam(ps[j]);
      }
    }
  }

  /** The request body: OpenAPI's `requestBody` when present, else the first Swagger 2.0 body parameter. */
  function RequestBodyOf(op: Fields, spec: Json, depth: nat): Result<Option<RequestBody>, PyError>
  {
    if Has(op, "requestBody") then
      var rb := GetOr(op, "requestBody", JNull);
      if !rb.JObj? then Err(AttributeError)
      else match ContentSchema(GetOr(rb.fields, "content", JObj([])), MediaTypes, spec, depth)
        case Err(e) => Err(e)
        case Ok(schema) =>
          Ok(Some(RequestBody(GetOr(rb.fields, "description", JStr("")), GetOr(rb.fields, "required", JBool(false)), schema)))
    else match Iterate(GetOr(op, "parameters", JArr([])))
      case Err(e) => Err(e)
      case Ok(ps) => FirstBodyParam(ps)
  }

  /** An `Optional[str]` field of the endpoint record: only `None` or a string is accepted. */
  function OptionalText(j: Json): Result<Option<string>, PyError>
  {
    match j
    case JNull => Ok(None)
    case JStr(s) => Ok(Some(s))
    case _ => Err(ValidationError)
  }

  /** `_parse_operation`: the endpoint record of one operation, or the exception it raises. */
  function Operation(path: string, verb: string, op: Fields, spec: Json, depth: nat, sample: Json -> Json)
    : Result<Endpoint, PyError>
  {
    match ParametersOf(op)
    case Err(e) => Err(e)
    case Ok(parameters) =>
      match ResponsesOf(op, spec, depth, sample)
      case Err(e) => Err(e)
      case Ok(responses) =>
        match RequestBodyOf(op, spec, depth)
        case Err(e) => Err(e)
        case Ok(body) =>
          var summary := OptionalText(GetOr(op, "summary", JStr("")));
          var description := OptionalText(GetOr(op, "description", JStr("")));
          if summary.Err? || description.Err? then Err(ValidationError)
          else Ok(Endpoint(path, verb, summary.value, description.value, parameters, responses, body))
  }

  /** A parsed endpoint is assembled from the parts read separately. */
  lemma OperationParts(path: string, verb: string, op: Fields, spec: Json, depth: nat, sample: Json -> Json)
    requires Operation(path, verb, op, spec, depth, sample).Ok?
    ensures var e := Operation(path, verb, op, spec, depth, sample).value;
            ParametersOf(op) == Ok(e.parameters) && ResponsesOf(op, spec, depth, sample) == Ok(e.responses)
            && RequestBodyOf(op, spec, depth) == Ok(e.requestBody) && e.path == path && e.verb == verb
  {
  }

  /** Every listed parameter becomes one record, in order, typed by `_get_param_type`. */
  lemma ParametersShape(op: Fields)
    requires ParametersOf(op).Ok? && Has(op, "parameters")
    ensures var ps := Iterate(GetOr(op, "parameters", JNull));
            var parameters := ParametersOf(op).value;
            ps.Ok? && |parameters| == |ps.value|
            && forall i :: 0 <= i < |ps.value| ==>
                 ps.value[i].JObj? && ParamType(ps.value[i].fields) == Ok(parameters[i].paramType)
                 && parameters[i].name == GetOr(ps.value[i].fields, "name", JStr(""))
  {
    var ps := Iterate(GetOr(op, "parameters", JNull)).value;
    CollectOk(ps, ParamOf);
  }

  /**
   * Where the request body comes from: with `requestBody` present, from it; otherwise from
   * the first `in: body` parameter, and none when there is no such parameter.
   */
  lemma RequestBodySource(path: string, verb: string, op: Fields, spec: Json, depth: nat, sample: Json -> Json)
    requires Operation(path, verb, op, spec, depth, sample).Ok?
    ensures var body := Operation(path, verb, op, spec, depth, sample).value.requestBody;
            var rb := GetOr(op, "requestBody", JNull);
            var ps := Iterate(GetOr(op, "parameters", JArr([])));
            (Has(op, "requestBody") ==>
               rb.JObj? && body.Some? && body.value.description == GetOr(rb.fields, "description", JStr(""))
               && body.value.required == GetOr(rb.fields, "required", JBool(false)))
            && (!Has(op, "requestBody") ==> ps.Ok? && Ok(body) == FirstBodyParam(ps.value))
  {
  }

  // ---------------------------------------------------------------- the operation's loops

  method ReadParameters(op: Fields) returns (r: Result<seq<Parameter>, PyError>)
    ensures r == ParametersOf(op)
  {
    if !Has(op, "parameters") {
      return Ok([]);
    }
    var listed := Iterate(GetOr(op, "parameters", JNull));
    if listed.Err? {
      return Err(listed.error);
    }
    var ps := listed.value;
    var parameters: seq<Parameter> := [];
    var i := 0;
    while i < |ps|
      invariant i <= |ps|
      invariant Collect(ps[..i], ParamOf) == Ok(parameters)
    {
      CollectSnoc(ps, ParamOf, i);
      var p := ParamOf(ps[i]);
      if p.Err? {
        CollectErrSticks(ps, ParamOf, i + 1);
        return Err(p.error);
      }
      parameters := parameters + [p.value];
      i := i + 1;
    }
    assert ps[..i] == ps;
    return Ok(parameters);
  }

  method ReadResponses(op: Fields, spec: Json, depth: nat, sample: Json -> Json)
    returns (r: Result<PyDict.Dict<string, ResponseDoc>, PyError>)
    ensures r == ResponsesOf(op, spec, depth, sample)
  {
    if !Has(op, "responses") {
      return Ok([]);
    }
    var listed := GetOr(op, "responses", JNull);
    if !listed.JObj? {
      return Err(AttributeError);
    }
    var rs := listed.fields;
    var step := ResponseStep(spec, depth, sample);
    var responses: PyDict.Dict<string, ResponseDoc> := [];
    var i := 0;
    while i < |rs|
      invariant i <= |rs|
      invariant Collect(rs[..i], step) == Ok(responses)
    {
      CollectSnoc(rs, step, i);
      var doc := ResponseOf(rs[i], spec, depth, sample);
      if doc.Err? {
        CollectErrSticks(rs, step, i + 1);
        return Err(doc.error);
      }
      responses := responses + [doc.value];
      i := i + 1;
    }
    assert rs[..i] == rs;
    return Ok(responses);
  }

  method FindRequestBody(op: Fields, spec: Json, depth: nat) returns (r: Result<Option<RequestBody>, PyError>)
    ensures r == RequestBodyOf(op, spec, depth)
  {
    if Has(op, "requestBody") {
      var rb := GetOr(op, "requestBody", JNull);
      if !rb.JObj? {
        return Err(AttributeError);
      }
      var schema := ContentSchema(GetOr(rb.fields, "content", JObj([])), MediaTypes, spec, depth);
      if schema.Err? {
        return Err(schema.error);
      }
      return Ok(Some(RequestBody(GetOr(rb.fields, "description", JStr("")), GetOr(rb.fields, "required", JBool(false)), schema.value)));
    }
    var listed := Iterate(GetOr(op, "parameters", JArr([])));
    if listed.Err? {
      return Err(listed.error);
    }
    var ps := listed.value;
    var i := 0;
    while i < |ps|
      invariant i <= |ps|
      invariant FirstBodyParam(ps[i..]) == FirstBodyParam(ps)
    {
      assert ps[i..][1..] == ps[i + 1..];
      if !ps[i].JObj? {
        return Err(AttributeError);
      }
      if GetOr(ps[i].fields, "in", JNull) == JStr("body") {
        return Ok(Some(BodyFrom(ps[i].fields)));
      }
      i := i + 1;
    }
    return Ok(None);
  }

  /** `_parse_operation`, step by step. */
  method ParseOperation(path: string, verb: string, op: Fields, spec: Json, depth: nat, sample: Json -> Json)
    returns (r: Result<Endpoint, PyError>)
    ensures r == Operation(path, verb, op, spec, depth, sample)
  {
    var summary := GetOr(op, "summary", JStr(""));
    var description := GetOr(op, "description", JStr(""));
    var parameters := ReadParameters(op);
    if parameters.Err? {
      return Err(parameters.error);
    }
    var responses := ReadResponses(op, spec, depth, sample);
    if responses.Err? {
      return Err(responses.error);
    }
    var body := FindRequestBody(op, spec, depth);
    if body.Err? {
      return Err(body.error);
    }
    var s, d := OptionalText(summary), OptionalText(description);
    if s.Err? || d.Err? {
      return Err(ValidationError);
    }
    return Ok(Endpoint(path, verb, s.value, d.value, parameters.value, responses.value, body.value));
  }

  // ---------------------------------------------------------------- endpoint extraction

  /** A path-item key that is not an operation: vendor extensions and the shared path-level keys. */
  predicate Skipped(key: string)
  {
    StartsWith(key, "x-") || key in ["parameters", "summary", "description"]
  }

  /** What the extraction loop collects: the endpoints parsed and the operations that raised. */
  datatype Harvest = Harvest(endpoints: seq<Endpoint>, errors: seq<ImportError>)

  /** The operations of one path item, in order; an operation that raises becomes an error entry. */
  function PathOperations(path: string, item: Fields, spec: Json, depth: nat, sample: Json -> Json): Harvest
  {
    if item == [] then Harvest([], [])
    else Gather(PathOperations(path, item[..|item| - 1], spec, depth, sample), path, item[|item| - 1], spec, depth, sample)
  }

  /** One step of the inner loop: parse an operation entry, keeping the endpoint or recording the error. */
  function Gather(h: Harvest, path: string, entry: (string, Json), spec: Json, depth: nat, sample: Json -> Json): Harvest
  {
    var (key, op) := entry;
    if Skipped(key) || !op.JObj? then h
    else match Operation(path, Upper(key), op.fields, spec, depth, sample)
      case Ok(e) => Harvest(h.endpoints + [e], h.errors)
      case Err(k) => Harvest(h.endpoints, h.errors + [OperationFailed(Upper(key), path, k)])
  }

  /** Every path item that is a dict, in document order. */
  function Harvested(paths: Fields, spec: Json, depth: nat, sample: Json -> Json): Harvest
  {
    if paths == [] then Harvest([], [])
    else
      var h := Harvested(paths[..|paths| - 1], spec, depth, sample);
      var (path, item) := paths[|paths| - 1];
      if !item.JObj? then h
      else
        var more := PathOperations(path, item.fields, spec, depth, sample);
        Harvest(h.endpoints + more.endpoints, h.errors + more.errors)
  }

  /** How many entries of a path item are operations the loop parses. */
  function OperationCount(item: Fields): nat
  {
    if item == [] then 0
    else
      var (key, op) := item[|item| - 1];
      OperationCount(item[..|item| - 1]) + if Skipped(key) || !op.JObj? then 0 else 1
  }

  function PathsOperationCount(paths: Fields): nat
  {
    if paths == [] then 0
    else
      var item := paths[|paths| - 1].1;
      PathsOperationCount(paths[..|paths| - 1]) + if item.JObj? then OperationCount(item.fields) else 0
  }

  /** Each operation gives exactly one endpoint or one error. */
  lemma {:induction false} PathOperationsCount(path: string, item: Fields, spec: Json, depth: nat, sample: Json -> Json)
    ensures var h := PathOperations(path, item, spec, depth, sample);
            |h.endpoints| + |h.errors| == OperationCount(item)
  {
    if item != [] {
      PathOperationsCount(path, item[..|item| - 1], spec, depth, sample);
    }
  }

  lemma {:induction false} HarvestedCount(paths: Fields, spec: Json, depth: nat, sample: Json -> Json)
    ensures var h := Harvested(paths, spec, depth, sample);
            |h.endpoints| + |h.errors| == PathsOperationCount(paths)
  {
    if paths != [] {
      HarvestedCount(paths[..|paths| - 1], spec, depth, sample);
      var item := paths[|paths| - 1].1;
      if item.JObj? {
        PathOperationsCount(paths[|paths| - 1].0, item.fields, spec, depth, sample);
      }
    }
  }

  /** `e` is what `_parse_operation` makes of some operation of the path item, its key upper-cased. */
  predicate ParsedFrom(item: Fields, path: string, e: Endpoint, spec: Json, depth: nat, sample: Json -> Json)
  {
    exists k :: 0 <= k < |item| && !Skipped(item[k].0) && item[k].1.JObj?
      && e.path == path && e.verb == Upper(item[k].0)
      && Operation(path, Upper(item[k].0), item[k].1.fields, spec, depth, sample) == Ok(e)
  }

  lemma {:induction false} PathOperationsSound(path: string, item: Fields, spec: Json, depth: nat, sample: Json -> Json)
    ensures forall e :: e in PathOperations(path, item, spec, depth, sample).endpoints ==> ParsedFrom(item, path, e, spec, depth, sample)
  {
    if item != [] {
      var front := item[..|item| - 1];
      PathOperationsSound(path, front, spec, depth, sample);
      var h := PathOperations(path, item, spec, depth, sample);
      forall e | e in h.endpoints
        ensures ParsedFrom(item, path, e, spec, depth, sample)
      {
        if e in PathOperations(path, front, spec, depth, sample).endpoints {
          assert ParsedFrom(front, path, e, spec, depth, sample);
          var k :| 0 <= k < |front| && !Skipped(front[k].0) && front[k].1.JObj?
                   && e.path == path && e.verb == Upper(front[k].0)
                   && Operation(path, Upper(front[k].0), front[k].1.fields, spec, depth, sample) == Ok(e);
          assert item[k] == front[k];
        } else {
          var k := |item| - 1;
          assert !Skipped(item[k].0) && item[k].1.JObj? && Operation(path, Upper(item[k].0), item[k].1.fields, spec, depth, sample) == Ok(e);
        }
      }
    }
  }

  /** Every endpoint was parsed from an operation of a dict path item, under that path. */
  lemma {:induction false} HarvestedSound(paths: Fields, spec: Json, depth: nat, sample: Json -> Json)
    ensures forall e :: e in Harvested(paths, spec, depth, sample).endpoints ==>
              exists i :: 0 <= i < |paths| && paths[i].1.JObj? && ParsedFrom(paths[i].1.fields, paths[i].0, e, spec, depth, sample)
  {
    if paths != [] {
      var front := paths[..|paths| - 1];
      HarvestedSound(front, spec, depth, sample);
      var (path, item) := paths[|paths| - 1];
      if item.JObj? {
        PathOperationsSound(path, item.fields, spec, depth, sample);
      }
      var h := Harvested(paths, spec, depth, sample);
      forall e | e in h.endpoints
        ensures exists i :: 0 <= i < |paths| && paths[i].1.JObj? && ParsedFrom(paths[i].1.fields, paths[i].0, e, spec, depth, sample)
      {
        if e in Harvested(front, spec, depth, sample).endpoints {
          assert exists i :: 0 <= i < |front| && front[i].1.JObj? && ParsedFrom(front[i].1.fields, front[i].0, e, spec, depth, sample);
          var i :| 0 <= i < |front| && front[i].1.JObj? && ParsedFrom(front[i].1.fields, front[i].0, e, spec, depth, sample);
          assert paths[i] == front[i];
        } else {
          assert paths[|paths| - 1].1.JObj? && ParsedFrom(paths[|paths| - 1].1.fields, paths[|paths| - 1].0, e, spec, depth, sample);
        }
      }
    }
  }

  /** `servers[0].get('url', '')` when `servers` is truthy, `None` otherwise. */
  function BaseUrl(servers: Json): Result<Json, PyError>
  {
    if !Truthy(servers) then Ok(JNull)
    else match servers
      case JArr(items) => if items[0].JObj? then Ok(GetOr(items[0].fields, "url", JStr(""))) else Err(AttributeError)
      case JObj(_) => Err(KeyError)
      case JStr(_) => Err(AttributeError)
      case _ => Err(TypeError)
  }

  /** `_extract_endpoints`: the document's title, version and base URL, and every operation. */
  function Extracted(spec: Fields, depth: nat, sample: Json -> Json): Result<ImportResult, PyError>
  {
    var info := GetOr(spec, "info", JObj([]));
    if !info.JObj? then Err(AttributeError)
    else
      var title := GetOr(info.fields, "title", JStr("Imported API"));
      var version := GetOr(info.fields, "version", JStr("1.0.0"));
      match BaseUrl(GetOr(spec, "servers", JArr([])))
      case Err(e) => Err(e)
      case Ok(url) =>
        var paths := GetOr(spec, "paths", JObj([]));
        if !paths.JObj? then Err(AttributeError)
        else
          var h := Harvested(paths.fields, JObj(spec), depth, sample);
          var base := OptionalText(url);
          if !title.JStr? || !version.JStr? || base.Err? then Err(ValidationError)
          else Ok(ImportResult(title.s, version.s, base.value, h.endpoints, h.errors))
  }

  /** The inner loop of `_extract_endpoints`, over one path item. */
  method HarvestPath(path: string, item: Fields, spec: Json, depth: nat, sample: Json -> Json) returns (h: Harvest)
    ensures h == PathOperations(path, item, spec, depth, sample)
  {
    h := Harvest([], []);
    var i := 0;
    while i < |item|
      invariant i <= |item|
      invariant h == PathOperations(path, item[..i], spec, depth, sample)
    {
      assert item[..i + 1][..i] == item[..i];
      ghost var before := h;
      var (key, op) := item[i];
      if !Skipped(key) && op.JObj? {
        var e := ParseOperation(path, Upper(key), op.fields, spec, depth, sample);
        if e.Ok? {
          h := h.(endpoints := h.endpoints + [e.value]);
        } else {
          h := h.(errors := h.errors + [OperationFailed(Upper(key), path, e.error)]);
        }
      }
      assert h == Gather(before, path, item[i], spec, depth, sample);
      i := i + 1;
    }
    assert item[..i] == item;
  }

  /** `_extract_endpoints`, path item by path item. */
  method ExtractEndpoints(spec: Fields, depth: nat, sample: Json -> Json) returns (r: Result<ImportResult, PyError>)
    ensures r == Extracted(spec, depth, sample)
  {
    var info := GetOr(spec, "info", JObj([]));
    if !info.JObj? {
      return Err(AttributeError);
    }
    var title := GetOr(info.fields, "title", JStr("Imported API"));
    var version := GetOr(info.fields, "version", JStr("1.0.0"));
    var url := BaseUrl(GetOr(spec, "servers", JArr([])));
    if url.Err? {
      return Err(url.error);
    }
    var paths := GetOr(spec, "paths", JObj([]));
    if !paths.JObj? {
      return Err(AttributeError);
    }
    var ps := paths.fields;
    var h := Harvest([], []);
    var i := 0;
    while i < |ps|
      invariant i <= |ps|
      invariant h == Harvested(ps[..i], JObj(spec), depth, sample)
    {
      assert ps[..i + 1][..i] == ps[..i];
      var (path, item) := ps[i];
      if item.JObj? {
        var more := HarvestPath(path, item.fields, JObj(spec), depth, sample);
        h := Harvest(h.endpoints + more.endpoints, h.errors + more.errors);
      }
      i := i + 1;
    }
    assert ps[..i] == ps;
    var base := OptionalText(url.value);
    if !title.JStr? || !version.JStr? || base.Err? {
      return Err(ValidationError);
    }
    return Ok(ImportResult(title.s, version.s, base.value, h.endpoints, h.errors));
  }

  // ---------------------------------------------------------------- the uploaded document

  /** The parsed document, by the declared content type: YAML for `yaml`/`yml` in any case, JSON otherwise. */
  function Loaded(content: string, contentType: string,
                  parseJson: string -> Result<Json, string>, parseYaml: string -> Result<Json, string>)
    : Result<Json, ImportError>
  {
    if Lower(contentType) in ["yaml", "yml"] then
      (match parseYaml(content) case Ok(j) => Ok(j) case Err(m) => Err(YamlError(m)))
    else
      (match parseJson(content) case Ok(j) => Ok(j) case Err(m) => Err(JsonError(m)))
  }

  /** The structural shape the import requires: an object naming `openapi` or `swagger`, with truthy `paths`. */
  predicate WellFormed(spec: Json)
  {
    spec.JObj? && (Has(spec.fields, "openapi") || Has(spec.fields, "swagger"))
    && Has(spec.fields, "paths") && Truthy(GetOr(spec.fields, "paths", JNull))
  }

  /** `parse_swagger_content`: the checks in order, then the extraction. */
  function ParseSwaggerContent(content: string, contentType: string,
                               parseJson: string -> Result<Json, string>, parseYaml: string -> Result<Json, string>,
                               validate: Json -> Option<string>, depth: nat, sample: Json -> Json): (r: ImportResult)
    ensures Strip(content) == "" ==> r == Failed(EmptyContent)
    ensures var doc := Loaded(content, contentType, parseJson, parseYaml);
            !(Strip(content) != "" && doc.Ok? && WellFormed(doc.value)) ==> r.endpoints == [] && |r.errors| == 1
    ensures r.errors == [] ==>
              var doc := Loaded(content, contentType, parseJson, parseYaml);
              Strip(content) != "" && doc.Ok? && WellFormed(doc.value)
              && Extracted(doc.value.fields, depth, sample) == Ok(r)
    ensures var doc := Loaded(content, contentType, parseJson, parseYaml);
            Strip(content) != "" && doc.Err? ==> r == Failed(doc.error)
    ensures var doc := Loaded(content, contentType, parseJson, parseYaml);
            Strip(content) != "" && doc.Ok? ==>
              (!doc.value.JObj? ==> r == Failed(NotAnObject(TypeName(doc.value))))
              && (doc.value.JObj? && !Has(doc.value.fields, "openapi") && !Has(doc.value.fields, "swagger") ==>
                    r == Failed(NotOpenApi))
              && ((doc.value.JObj? && (Has(doc.value.fields, "openapi") || Has(doc.value.fields, "swagger"))
                   && !WellFormed(doc.value)) ==> r == Failed(NoPaths))
    ensures var doc := Loaded(content, contentType, parseJson, parseYaml);
            Strip(content) != "" && doc.Ok? && WellFormed(doc.value) ==>
              (Has(doc.value.fields, "openapi") && validate(doc.value).Some? ==>
                 r == Failed(InvalidSpec(validate(doc.value).value)))
              && (!(Has(doc.value.fields, "openapi") && validate(doc.value).Some?) ==>
                    match Extracted(doc.value.fields, depth, sample)
                    case Err(k) => r == Failed(Unexpected(k))
                    case Ok(result) => r == result)
  {
    if Strip(content) == "" then Failed(EmptyContent)
    else match Loaded(content, contentType, parseJson, parseYaml)
      case Err(e) => Failed(e)
      case Ok(spec) =>
        if !spec.JObj? then Failed(NotAnObject(TypeName(spec)))
        else if !Has(spec.fields, "openapi") && !Has(spec.fields, "swagger") then Failed(NotOpenApi)
        else if !Has(spec.fields, "paths") || !Truthy(GetOr(spec.fields, "paths", JNull)) then Failed(NoPaths)
        else if Has(spec.fields, "openapi") && validate(spec).Some? then Failed(InvalidSpec(validate(spec).value))
        else match Extracted(spec.fields, depth, sample)
          case Err(k) => Failed(Unexpected(k))
          case Ok(result) => result
  }

  // ---------------------------------------------------------------- generated mock services

  const DefaultDocument: Json :=
    JObj([("message", JStr("Успешный ответ")), ("data", JObj([])), ("timestamp", JStr("2024-01-01T00:00:00Z"))])

  const JsonHeaders: Models.Headers := [("Content-Type", "application/json")]

  /** The first documented response whose status starts with `2`. */
  function FirstSuccess(responses: PyDict.Dict<string, ResponseDoc>): (r: Option<ResponseDoc>)
    ensures r.None? <==> forall i :: 0 <= i < |responses| ==> !StartsWith(responses[i].0, "2")
    ensures r.Some? ==>
              exists i :: 0 <= i < |responses| && StartsWith(responses[i].0, "2") && r.value == responses[i].1
                && forall j :: 0 <= j < i ==> !StartsWith(responses[j].0, "2")
  {
    if responses == [] then None
    else if StartsWith(responses[0].0, "2") then Some(responses[0].1)
    else
      var r := FirstSuccess(responses[1..]);
      assert forall i :: 1 <= i < |responses| ==> responses[i] == responses[1..][i - 1];
      if r.Some? then
        ghost var i :| 0 <= i < |responses[1..]| && StartsWith(responses[1..][i].0, "2") && r.value == responses[1..][i].1
                       && forall j :: 0 <= j < i ==> !StartsWith(responses[1..][j].0, "2");
        assert StartsWith(responses[i + 1].0, "2") && forall j :: 0 <= j < i + 1 ==> !StartsWith(responses[j].0, "2");
        r
      else r
  }

  /** `_generate_static_response` before serialisation: the first 2xx example unless it is `None`, else the default. */
  function StaticDocument(e: Endpoint): Json
  {
    match FirstSuccess(e.responses)
    case Some(doc) => if doc.example != JNull then doc.example else DefaultDocument
    case None => DefaultDocument
  }

  /**
   * The static body comes from the first documented 2xx response: its example unless that
   * is `None`, and the default document otherwise or when no 2xx response is documented.
   */
  lemma StaticDocumentSource(e: Endpoint, i: nat)
    requires i < |e.responses| && StartsWith(e.responses[i].0, "2")
    requires forall j :: 0 <= j < i ==> !StartsWith(e.responses[j].0, "2")
    ensures StaticDocument(e) == if e.responses[i].1.example != JNull then e.responses[i].1.example else DefaultDocument
  {
    var r := FirstSuccess(e.responses);
    var k :| 0 <= k < |e.responses| && StartsWith(e.responses[k].0, "2") && r.value == e.responses[k].1
             && forall j :: 0 <= j < k ==> !StartsWith(e.responses[j].0, "2");
    assert k == i;
  }

  lemma NoSuccessDefault(e: Endpoint)
    requires forall i :: 0 <= i < |e.responses| ==> !StartsWith(e.responses[i].0, "2")
    ensures StaticDocument(e) == DefaultDocument
  {
  }

  function ServiceName(e: Endpoint): string
  {
    if e.summary.Some? && e.summary.value != "" then e.summary.value + " (" + e.verb + ")" else e.verb + " " + e.path
  }

  function MockPath(basePath: string, e: Endpoint): string
  {
    RStripSet(basePath, {'/'}) + e.path
  }

  /** The create request `generate_mock_services` builds for one endpoint; `dump` is `json.dumps`. */
  function MockInput(e: Endpoint, basePath: string, dump: Json -> string): Schemas.CreateInput
  {
    Schemas.CreateInput(
      ServiceName(e), MockPath(basePath, e), [e.verb], Models.Static, Models.Rest, true,
      Schemas.Missing, 0.0,
      Schemas.Given(dump(StaticDocument(e))), 200, Some(JsonHeaders), 0.0,
      Schemas.Missing, None, 0.0, 200, None)
  }

  /** What a generated service holds once its create request validates. */
  lemma MockRecord(e: Endpoint, basePath: string, dump: Json -> string)
    requires Schemas.ValidateCreate(MockInput(e, basePath, dump)).Ok?
    ensures var d := Schemas.ValidateCreate(MockInput(e, basePath, dump)).value;
            d.name == ServiceName(e) && d.path == Schemas.NormalizePath(MockPath(basePath, e))
            && d.methods == [Upper(e.verb)] && d.strategy == Models.Static && d.isActive
            && d.staticResponse == Some(dump(StaticDocument(e))) && d.staticHeaders == Some(JsonHeaders)
            && d.staticDelay == 0.0 && d.staticStatusCode == 200
  {
  }

  /** A generated create request validates exactly when the name, path and verb fit and the body is non-empty. */
  lemma MockAccepted(e: Endpoint, basePath: string, dump: Json -> string)
    ensures Schemas.ValidateCreate(MockInput(e, basePath, dump)).Ok? <==>
              |ServiceName(e)| <= 255 && 1 <= |MockPath(basePath, e)| <= 1000
              && Upper(e.verb) in Schemas.AllowedMethods && dump(StaticDocument(e)) != ""
  {
    Schemas.CreateAccepted(MockInput(e, basePath, dump));
  }

  /**
   * `generate_mock_services`: one validated static service per endpoint, in order; the first
   * endpoint whose service does not validate aborts the whole generation.
   */
  method GenerateMockServices(endpoints: seq<Endpoint>, basePath: string, dump: Json -> string)
    returns (r: Result<seq<Schemas.CreateData>, seq<Schemas.Problem>>)
    ensures r.Ok? <==> forall i :: 0 <= i < |endpoints| ==> Schemas.ValidateCreate(MockInput(endpoints[i], basePath, dump)).Ok?
    ensures r.Ok? ==>
              |r.value| == |endpoints|
              && forall i :: 0 <= i < |endpoints| ==> Schemas.ValidateCreate(MockInput(endpoints[i], basePath, dump)) == Ok(r.value[i])
    ensures r.Err? ==>
              exists i :: 0 <= i < |endpoints| && Schemas.ValidateCreate(MockInput(endpoints[i], basePath, dump)) == Err(r.error)
  {
    var services: seq<Schemas.CreateData> := [];
    var i := 0;
    while i < |endpoints|
      invariant i <= |endpoints| && |services| == i
      invariant forall j :: 0 <= j < i ==> Schemas.ValidateCreate(MockInput(endpoints[j], basePath, dump)) == Ok(services[j])
    {
      var v := Schemas.ValidateCreate(MockInput(endpoints[i], basePath, dump));
      if v.Err? {
        return Err(v.error);
      }
      services := services + [v.value];
      i := i + 1;
    }
    return Ok(services);
  }
}
