/**
 * The text-producing half of `backend/app/services/wsdl_service.py`: stripping namespace
 * prefixes from message names, choosing sample values for message elements, writing the
 * sample SOAP request and response envelopes, and turning the parts of a WSDL message into
 * element descriptions.
 *
 * The XML document itself is not modelled: a message is given as its name and its parts'
 * attributes, and the XSD lookup for an element part is a function parameter.
 */
module WsdlService {
  import opened Wrappers
  import opened Text
  import PyDict

  /** One element of an operation's input or output message (the dicts the service builds). */
  datatype Element = Element(name: string, element: string, typeName: string, required: bool)

  /** A parsed operation; `inputElements`/`outputElements` are what `MessageElements` produced. */
  datatype Operation = Operation(
    name: string,
    soapAction: string,
    inputMessage: string,
    outputMessage: string,
    inputElements: seq<Element>,
    outputElements: seq<Element>,
    endpointUrl: string)

  // ---------------------------------------------------------------- names

  /** `_clean_message_name`: the text after the last `:`, or the whole name when it has none. */
  function CleanMessageName(name: string): string
  {
    if ':' in name then Last(Split(name, {':'})) else name
  }

  /**
   * The cleaned name never holds a `:`; with a `:` present it is exactly what follows the
   * last one, and without one the name is unchanged.
   */
  lemma CleanMessageNameShape(name: string)
    ensures ':' !in CleanMessageName(name)
    ensures ':' !in name ==> CleanMessageName(name) == name
    ensures ':' in name ==> EndsWith(name, ":" + CleanMessageName(name))
  {
    if ':' in name {
      var k := LastIndexOf(name, ':');
      var x, y := name[..k], name[k + 1..];
      assert name == x + [':'] + y;
      SplitLastAfter(x, ':', y, {':'});
      assert name[|name| - |":" + y|..] == ":" + y;
    }
  }

  /** Cleaning twice is cleaning once. */
  lemma CleanMessageNameIdempotent(name: string)
    ensures CleanMessageName(CleanMessageName(name)) == CleanMessageName(name)
  {
    CleanMessageNameShape(name);
  }

  // ---------------------------------------------------------------- sample values

  /** What a sample rule produces; two kinds quote the element's own name. */
  datatype Sample = Fixed(text: string) | NamePrefixed(prefix: string) | CodeName

  function Render(s: Sample, name: string): string
  {
    match s
    case Fixed(t) => t
    case NamePrefixed(p) => p + name
    case CodeName => "CODE_" + Upper(name)
  }

  /** One branch of the `if`/`elif` chain: the words it looks for and the value it returns. */
  datatype Rule = Rule(words: seq<string>, sample: Sample)

  /** Rules on the lower-cased element name, tested by substring. */
  const NameRules: seq<Rule> := [
    Rule(["id", "identifier"], Fixed("12345")),
    Rule(["name", "title", "label"], NamePrefixed("Example ")),
    Rule(["email", "mail"], Fixed("example@domain.com")),
    Rule(["phone", "tel"], Fixed("+1234567890")),
    Rule(["url", "link"], Fixed("https://example.com")),
    Rule(["address", "location"], Fixed("123 Main Street, City, Country")),
    Rule(["price", "cost", "amount"], Fixed("99.99")),
    Rule(["count", "quantity", "number"], Fixed("10")),
    Rule(["status", "state"], Fixed("active")),
    Rule(["description", "comment", "note"], NamePrefixed("Description for ")),
    Rule(["code", "key"], CodeName),
    Rule(["version"], Fixed("1.0")),
    Rule(["user", "customer", "client"], Fixed("John Doe"))
  ]

  /** Rules on the lower-cased type, tested by list membership. */
  const TypeRules: seq<Rule> := [
    Rule(["xs:string", "xsd:string", "string"], NamePrefixed("sample_")),
    Rule(["xs:int", "xs:integer", "xsd:int", "xsd:integer", "int", "integer"], Fixed("123")),
    Rule(["xs:long", "xsd:long", "long"], Fixed("1234567890")),
    Rule(["xs:float", "xs:double", "xsd:float", "xsd:double", "float", "double"], Fixed("123.45")),
    Rule(["xs:decimal", "xsd:decimal", "decimal"], Fixed("99.99")),
    Rule(["xs:boolean", "xsd:boolean", "boolean"], Fixed("true")),
    Rule(["xs:date", "xsd:date", "date"], Fixed("2024-01-01")),
    Rule(["xs:datetime", "xsd:datetime", "datetime"], Fixed("2024-01-01T10:30:00Z")),
    Rule(["xs:time", "xsd:time", "time"], Fixed("10:30:00")),
    Rule(["xs:base64binary", "xsd:base64binary", "base64binary"], Fixed("U2FtcGxlIGJhc2U2NCBkYXRh")),
    Rule(["xs:hexbinary", "xsd:hexbinary", "hexbinary"], Fixed("48656C6C6F"))
  ]

  /** Rules on the lower-cased type, tested by substring. */
  const TypeWordRules: seq<Rule> := [
    Rule(["string", "text"], NamePrefixed("sample_")),
    Rule(["int", "number", "numeric"], Fixed("123")),
    Rule(["bool", "boolean"], Fixed("true")),
    Rule(["date", "time"], Fixed("2024-01-01T10:30:00Z")),
    Rule(["money", "currency", "price"], Fixed("99.99")),
    Rule(["percent"], Fixed("85.5"))
  ]

  /** `any(w in text for w in words)`. */
  predicate Mentions(text: string, words: seq<string>)
  {
    exists k :: 0 <= k < |words| && Contains(text, words[k])
  }

  /** Whether a rule's test holds: membership when `exact`, otherwise a substring. */
  predicate Fires(r: Rule, text: string, exact: bool)
  {
    if exact then text in r.words else Mentions(text, r.words)
  }

  /** The first rule at or after `from` whose test holds, as an `if`/`elif` chain picks it. */
  function FirstFiring(rules: seq<Rule>, text: string, exact: bool, from: nat): (r: Option<nat>)
    requires from <= |rules|
    ensures r.Some? ==>
              from <= r.value < |rules| && Fires(rules[r.value], text, exact)
              && forall j :: from <= j < r.value ==> !Fires(rules[j], text, exact)
    ensures r.None? ==> forall j :: from <= j < |rules| ==> !Fires(rules[j], text, exact)
    decreases |rules| - from
  {
    if from == |rules| then None
    else if Fires(rules[from], text, exact) then Some(from)
    else FirstFiring(rules, text, exact, from + 1)
  }

  /** `_generate_sample_value`: name rules, then exact type rules, then type words, then `sample_{name}`. */
  function SampleValue(e: Element): string
  {
    var name := Lower(e.name);
    var t := Lower(e.typeName);
    match FirstFiring(NameRules, name, false, 0)
    case Some(i) => Render(NameRules[i].sample, e.name)
    case None =>
      match FirstFiring(TypeRules, t, true, 0)
      case Some(i) => Render(TypeRules[i].sample, e.name)
      case None =>
        match FirstFiring(TypeWordRules, t, false, 0)
        case Some(i) => Render(TypeWordRules[i].sample, e.name)
        case None => "sample_" + e.name
  }

  /** Once a name rule fires, the type plays no part in the sample. */
  lemma NameRulesPrecede(e: Element, otherType: string)
    requires exists i :: 0 <= i < |NameRules| && Fires(NameRules[i], Lower(e.name), false)
    ensures SampleValue(e) == SampleValue(e.(typeName := otherType))
  {
    var i :| 0 <= i < |NameRules| && Fires(NameRules[i], Lower(e.name), false);
    assert FirstFiring(NameRules, Lower(e.name), false, 0).Some?;
  }

  /** Any name containing `id` (which includes `identifier`) gets the sample `12345`, whatever its type. */
  lemma SampleForIdentifiers(e: Element)
    requires Contains(Lower(e.name), "id")
    ensures SampleValue(e) == "12345"
  {
    assert NameRules[0].words[0] == "id";
    assert Fires(NameRules[0], Lower(e.name), false);
  }

  /** Without a name rule, an XSD string type gives `sample_{name}`, whatever type words follow. */
  lemma SampleForStrings(e: Element)
    requires forall i :: 0 <= i < |NameRules| ==> !Fires(NameRules[i], Lower(e.name), false)
    requires Lower(e.typeName) in ["xs:string", "xsd:string", "string"]
    ensures SampleValue(e) == "sample_" + e.name
  {
    assert FirstFiring(NameRules, Lower(e.name), false, 0).None?;
    assert Fires(TypeRules[0], Lower(e.typeName), true);
  }

  /** A type matched exactly is not looked at again by the looser word rules. */
  lemma ExactTypesPrecedeWords(e: Element, i: nat)
    requires forall k :: 0 <= k < |NameRules| ==> !Fires(NameRules[k], Lower(e.name), false)
    requires i < |TypeRules| && Lower(e.typeName) in TypeRules[i].words
    requires forall k :: 0 <= k < i ==> Lower(e.typeName) !in TypeRules[k].words
    ensures SampleValue(e) == Render(TypeRules[i].sample, e.name)
  {
    assert FirstFiring(NameRules, Lower(e.name), false, 0).None?;
    assert FirstFiring(TypeRules, Lower(e.typeName), true, 0) == Some(i);
  }

  /** When no rule of any of the three lists fires, the sample is `sample_{name}`. */
  lemma SampleFallback(e: Element)
    requires forall i :: 0 <= i < |NameRules| ==> !Fires(NameRules[i], Lower(e.name), false)
    requires forall i :: 0 <= i < |TypeRules| ==> !Fires(TypeRules[i], Lower(e.typeName), true)
    requires forall i :: 0 <= i < |TypeWordRules| ==> !Fires(TypeWordRules[i], Lower(e.typeName), false)
    ensures SampleValue(e) == "sample_" + e.name
  {
    assert FirstFiring(NameRules, Lower(e.name), false, 0).None?;
    assert FirstFiring(TypeRules, Lower(e.typeName), true, 0).None?;
    assert FirstFiring(TypeWordRules, Lower(e.typeName), false, 0).None?;
  }

  // ---------------------------------------------------------------- envelopes

  /** The values a caller supplies for elements, by element name (`str()` of each value). */
  type Data = PyDict.Dict<string, string>

  /** `data.get(name, sample)`: the supplied value, else the generated sample. */
  function ValueOf(e: Element, data: Data): string
  {
    PyDict.GetOr(data, e.name, SampleValue(e))
  }

  function CommentLine(e: Element): string
  {
    "            <!-- " + e.name + ": " + e.typeName + " -->"
  }

  function ValueLine(name: string, value: string): string
  {
    "            <tns:" + name + ">" + value + "</tns:" + name + ">"
  }

  /** `ValueOf` with the data fixed, as the element loop applies it. */
  function Values(data: Data): Element -> string
  {
    e => ValueOf(e, data)
  }

  /** The lines one element contributes: the type comment when there is a type, then the value. */
  function ElementBlock(e: Element, value: Element -> string): seq<string>
  {
    (if e.typeName != "" then [CommentLine(e)] else []) + [ValueLine(e.name, value(e))]
  }

  /** The lines of all elements, in order, each with the value `value` gives it. */
  function ElementLines(es: seq<Element>, value: Element -> string): seq<string>
  {
    if es == [] then [] else ElementLines(es[..|es| - 1], value) + ElementBlock(es[|es| - 1], value)
  }

  /** How many elements carry a type. */
  function TypedCount(es: seq<Element>): nat
  {
    if es == [] then 0 else TypedCount(es[..|es| - 1]) + if es[|es| - 1].typeName != "" then 1 else 0
  }

  const NoInputLine := "            <!-- No input parameters -->"

  function WrapperOpen(wrapper: string): string
  {
    "        <tns:" + wrapper + ">"
  }

  function WrapperClose(wrapper: string): string
  {
    "        </tns:" + wrapper + ">"
  }

  /** The lines before the elements; only the request carries the empty SOAP header. */
  function Opening(ns: string, wrapper: string, withHeader: bool): seq<string>
  {
    ["<?xml version=\"1.0\" encoding=\"UTF-8\"?>",
     "<soap:Envelope xmlns:soap=\"http://schemas.xmlsoap.org/soap/envelope/\"",
     "               xmlns:tns=\"" + ns + "\">"]
    + (if withHeader then ["    <soap:Header/>"] else [])
    + ["    <soap:Body>", WrapperOpen(wrapper)]
  }

  function Closing(wrapper: string): seq<string>
  {
    [WrapperClose(wrapper), "    </soap:Body>", "</soap:Envelope>"]
  }

  /** The body of a response whose operation declares no output elements. */
  function StandardResult(name: string): seq<string>
  {
    ["            <!-- Standard success response -->",
     "            <tns:Result>Operation " + name + " completed successfully</tns:Result>",
     "            <tns:Status>SUCCESS</tns:Status>",
     "            <tns:Timestamp>2024-01-01T10:30:00Z</tns:Timestamp>"]
  }

  /** The response's wrapper element: the operation name followed by `Response`. */
  function ResponseName(op: Operation): string
  {
    op.name + "Response"
  }

  /** The lines of `generate_soap_envelope` for namespace `ns`, element values given by `value`. */
  function EnvelopeLines(op: Operation, value: Element -> string, ns: string): seq<string>
  {
    Opening(ns, op.name, true)
    + (if op.inputElements != [] then ElementLines(op.inputElements, value) else [NoInputLine])
    + Closing(op.name)
  }

  /** The lines of `generate_soap_response` for namespace `ns`, element values given by `value`. */
  function ResponseLines(op: Operation, value: Element -> string, ns: string): seq<string>
  {
    Opening(ns, ResponseName(op), false)
    + (if op.outputElements != [] then ElementLines(op.outputElements, value) else StandardResult(op.name))
    + Closing(ResponseName(op))
  }

  /**
   * The `for element in ...` loop that appends each element's lines; `value` picks each
   * element's value (the envelope writers pass `Values(data)`).
   */
  method AppendElements(lines: seq<string>, es: seq<Element>, value: Element -> string) returns (out: seq<string>)
    ensures out == lines + ElementLines(es, value)
  {
    out := lines;
    var i := 0;
    while i < |es|
      invariant i <= |es|
      invariant out == lines + ElementLines(es[..i], value)
    {
      var e := es[i];
      if e.typeName != "" {
        out := out + [CommentLine(e)];
      }
      out := out + [ValueLine(e.name, value(e))];
      assert es[..i + 1][..i] == es[..i];
      i := i + 1;
    }
    assert es[..i] == es;
  }

  /**
   * `generate_soap_envelope(operation, request_data)`; `ns` is the service's `tns` entry,
   * which holds the document's target namespace, or the empty string when it had none.
   * Each element's value is `request_data.get(name, sample)`.
   */
  method GenerateSoapEnvelope(op: Operation, requestData: Option<Data>, ns: string) returns (xml: string)
    ensures xml == Join(EnvelopeLines(op, Values(requestData.GetOr([])), ns), "\n")
  {
    var data := requestData.GetOr([]);
    var lines := Opening(ns, op.name, true);
    if op.inputElements != [] {
      lines := AppendElements(lines, op.inputElements, Values(data));
    } else {
      lines := lines + [NoInputLine];
    }
    lines := lines + Closing(op.name);
    assert lines == EnvelopeLines(op, Values(data), ns);
    xml := Join(lines, "\n");
  }

  /** `generate_soap_response(operation, response_data)`, with `ns` and the values as for the request. */
  method GenerateSoapResponse(op: Operation, responseData: Option<Data>, ns: string) returns (xml: string)
    ensures xml == Join(ResponseLines(op, Values(responseData.GetOr([])), ns), "\n")
  {
    var data := responseData.GetOr([]);
    var wrapper := ResponseName(op);
    var lines := Opening(ns, wrapper, false);
    if op.outputElements != [] {
      lines := AppendElements(lines, op.outputElements, Values(data));
    } else {
      lines := lines + StandardResult(op.name);
    }
    lines := lines + Closing(wrapper);
    assert lines == ResponseLines(op, Values(data), ns);
    xml := Join(lines, "\n");
  }

  /** Each element contributes one line, plus one more when it has a type. */
  lemma {:induction false} ElementLinesCount(es: seq<Element>, value: Element -> string)
    ensures |ElementLines(es, value)| == |es| + TypedCount(es)
  {
    if es != [] {
      ElementLinesCount(es[..|es| - 1], value);
    }
  }

  /** The lines of the first `n` elements begin the lines of all of them. */
  lemma {:induction false} ElementLinesPrefix(es: seq<Element>, value: Element -> string, n: nat)
    requires n <= |es|
    ensures ElementLines(es[..n], value) <= ElementLines(es, value)
  {
    if n < |es| {
      var front := es[..|es| - 1];
      assert front[..n] == es[..n];
      ElementLinesPrefix(front, value, n);
    } else {
      assert es[..n] == es;
    }
  }

  lemma SliceOfPrefix<T>(whole: seq<T>, a: seq<T>, b: seq<T>)
    requires a + b <= whole
    ensures |a| + |b| <= |whole| && whole[|a|..|a| + |b|] == b
  {
    assert whole[|a|..|a| + |b|] == (a + b)[|a|..];
  }

  /**
   * Element `i`'s block sits right after the blocks of the elements before it, so the
   * blocks appear one after another in element order.
   */
  lemma ElementBlockAt(es: seq<Element>, value: Element -> string, i: nat)
    requires i < |es|
    ensures |ElementLines(es[..i], value)| + |ElementBlock(es[i], value)| <= |ElementLines(es, value)|
    ensures ElementLines(es, value)[|ElementLines(es[..i], value)|..|ElementLines(es[..i], value)| + |ElementBlock(es[i], value)|]
            == ElementBlock(es[i], value)
  {
    ElementLinesPrefix(es, value, i + 1);
    assert es[..i + 1][..i] == es[..i];
    assert ElementLines(es[..i + 1], value) == ElementLines(es[..i], value) + ElementBlock(es[i], value);
    SliceOfPrefix(ElementLines(es, value), ElementLines(es[..i], value), ElementBlock(es[i], value));
  }

  /** Line `s` of `head + es-lines + tail` for an `s` inside the element lines. */
  lemma {:induction false} BlockLine(head: seq<string>, es: seq<Element>, value: Element -> string, tail: seq<string>, i: nat, k: nat)
    requires i < |es| && k < |ElementBlock(es[i], value)|
    ensures |head| + |ElementLines(es[..i], value)| + k < |head + ElementLines(es, value) + tail|
    ensures (head + ElementLines(es, value) + tail)[|head| + |ElementLines(es[..i], value)| + k] == ElementBlock(es[i], value)[k]
  {
    ElementBlockAt(es, value, i);
    var s := |ElementLines(es[..i], value)|;
    assert ElementLines(es, value)[s + k] == ElementBlock(es[i], value)[k];
  }

  /**
   * In the request, input element `i` is written at its place in order: a type comment
   * exactly when its type is non-empty, then `<tns:n>v</tns:n>` with the element's value.
   */
  lemma EnvelopeElementLines(op: Operation, value: Element -> string, ns: string, i: nat)
    requires i < |op.inputElements|
    ensures var s := 6 + |ElementLines(op.inputElements[..i], value)|;
            var e := op.inputElements[i];
            s + 1 < |EnvelopeLines(op, value, ns)|
            && (e.typeName != "" ==>
                  EnvelopeLines(op, value, ns)[s] == CommentLine(e)
                  && EnvelopeLines(op, value, ns)[s + 1] == ValueLine(e.name, value(e)))
            && (e.typeName == "" ==> EnvelopeLines(op, value, ns)[s] == ValueLine(e.name, value(e)))
  {
    var es := op.inputElements;
    var head := Opening(ns, op.name, true);
    assert |head| == 6;
    BlockLine(head, es, value, Closing(op.name), i, 0);
    if es[i].typeName != "" {
      BlockLine(head, es, value, Closing(op.name), i, 1);
    }
  }

  /** In the response, output element `i` is written as in the request, five lines in. */
  lemma ResponseElementLines(op: Operation, value: Element -> string, ns: string, i: nat)
    requires i < |op.outputElements|
    ensures var s := 5 + |ElementLines(op.outputElements[..i], value)|;
            var e := op.outputElements[i];
            s + 1 < |ResponseLines(op, value, ns)|
            && (e.typeName != "" ==>
                  ResponseLines(op, value, ns)[s] == CommentLine(e)
                  && ResponseLines(op, value, ns)[s + 1] == ValueLine(e.name, value(e)))
            && (e.typeName == "" ==> ResponseLines(op, value, ns)[s] == ValueLine(e.name, value(e)))
  {
    var es := op.outputElements;
    var head := Opening(ns, ResponseName(op), false);
    assert |head| == 5;
    BlockLine(head, es, value, Closing(ResponseName(op)), i, 0);
    if es[i].typeName != "" {
      BlockLine(head, es, value, Closing(ResponseName(op)), i, 1);
    }
  }

  /** The request: its line count, its wrapper, and the single placeholder line when there are no inputs. */
  lemma EnvelopeShape(op: Operation, value: Element -> string, ns: string)
    ensures var lines := EnvelopeLines(op, value, ns);
            |lines| == 9 + (if op.inputElements == [] then 1 else |op.inputElements| + TypedCount(op.inputElements))
            && lines[5] == WrapperOpen(op.name) && lines[|lines| - 3] == WrapperClose(op.name)
    ensures op.inputElements == [] ==> EnvelopeLines(op, value, ns)[6] == NoInputLine
  {
    ElementLinesCount(op.inputElements, value);
  }

  /**
   * The response wraps its body in `<tns:{name}Response>`; with no outputs the body is the
   * Result/Status/Timestamp block.
   */
  lemma ResponseShape(op: Operation, value: Element -> string, ns: string)
    ensures var lines := ResponseLines(op, value, ns);
            |lines| == 8 + (if op.outputElements == [] then 4 else |op.outputElements| + TypedCount(op.outputElements))
            && lines[4] == WrapperOpen(ResponseName(op)) && lines[|lines| - 3] == WrapperClose(ResponseName(op))
    ensures op.outputElements == [] ==> ResponseLines(op, value, ns)[5..9] == StandardResult(op.name)
  {
    ElementLinesCount(op.outputElements, value);
    var head := Opening(ns, ResponseName(op), false);
    assert |head| == 5;
    if op.outputElements == [] {
      SliceOfPrefix(ResponseLines(op, value, ns), head, StandardResult(op.name));
    }
  }

  /** `Values` is `request_data.get(name, sample)`: a supplied value wins, otherwise the sample. */
  lemma ValuesChoice(data: Data, e: Element)
    ensures PyDict.Get(data, e.name).Some? ==> Values(data)(e) == PyDict.Get(data, e.name).value
    ensures PyDict.Get(data, e.name).None? ==> Values(data)(e) == SampleValue(e)
  {
  }

  // ---------------------------------------------------------------- message elements

  /** A `<wsdl:part>`'s attributes; an absent attribute is the empty string. */
  datatype Part = Part(name: string, element: string, typeName: string)

  /** A `<wsdl:message>`: its `name` attribute and its parts in document order. */
  datatype Message = Message(name: string, parts: seq<Part>)

  /** Python's `a or b` on strings. */
  function OrElse(a: string, b: string): string
  {
    if a != "" then a else b
  }

  /**
   * The elements one part contributes once `count` have been gathered. `schema` stands for
   * `_extract_schema_elements`: the elements the XSD declares for an element reference.
   */
  function PartElements(p: Part, count: nat, schema: string -> seq<Element>): seq<Element>
  {
    if p.element != "" then
      if schema(p.element) != [] then schema(p.element)
      else
        var clean := CleanMessageName(p.element);
        [Element(OrElse(OrElse(clean, p.name), "parameter"), clean, "string", true)]
    else if p.typeName != "" then
      [Element(OrElse(p.name, "parameter"), "", CleanMessageName(p.typeName), true)]
    else
      [Element(OrElse(p.name, "param_" + NatToString(count + 1)), "", "string", true)]
  }

  /** `elements` after the part loop has run over `parts`, starting from `acc`. */
  function GatherParts(acc: seq<Element>, parts: seq<Part>, schema: string -> seq<Element>): seq<Element>
  {
    if parts == [] then acc
    else
      var front := GatherParts(acc, parts[..|parts| - 1], schema);
      front + PartElements(parts[|parts| - 1], |front|, schema)
  }

  /** `elements` after the message loop has run over `messages`. */
  function GatherMessages(messages: seq<Message>, messageName: string, schema: string -> seq<Element>): seq<Element>
  {
    if messages == [] then []
    else
      var front := GatherMessages(messages[..|messages| - 1], messageName, schema);
      var m := messages[|messages| - 1];
      if m.name == messageName then GatherParts(front, m.parts, schema) else front
  }

  const DefaultElements: seq<Element> := [
    Element("parameter1", "", "string", true),
    Element("parameter2", "", "string", false)
  ]

  /** `_extract_message_elements(root, message_name)`. */
  function MessageElements(messages: seq<Message>, messageName: string, schema: string -> seq<Element>): seq<Element>
  {
    if messageName == "" then []
    else
      var es := GatherMessages(messages, messageName, schema);
      if es == [] then DefaultElements else es
  }

  /** The part loop of `_extract_message_elements`. */
  method AppendParts(acc: seq<Element>, parts: seq<Part>, schema: string -> seq<Element>) returns (elements: seq<Element>)
    ensures elements == GatherParts(acc, parts, schema)
  {
    elements := acc;
    var j := 0;
    while j < |parts|
      invariant j <= |parts|
      invariant elements == GatherParts(acc, parts[..j], schema)
    {
      var p := parts[j];
      if p.element != "" {
        var found := schema(p.element);
        if found != [] {
          elements := elements + found;
        } else {
          var clean := CleanMessageName(p.element);
          elements := elements + [Element(OrElse(OrElse(clean, p.name), "parameter"), clean, "string", true)];
        }
      } else if p.typeName != "" {
        elements := elements + [Element(OrElse(p.name, "parameter"), "", CleanMessageName(p.typeName), true)];
      } else {
        elements := elements + [Element(OrElse(p.name, "param_" + NatToString(|elements| + 1)), "", "string", true)];
      }
      assert parts[..j + 1][..j] == parts[..j];
      j := j + 1;
    }
    assert parts[..j] == parts;
  }

  /** `_extract_message_elements`, loop by loop. */
  method ExtractMessageElements(messages: seq<Message>, messageName: string, schema: string -> seq<Element>)
    returns (elements: seq<Element>)
    ensures elements == MessageElements(messages, messageName, schema)
  {
    if messageName == "" {
      return [];
    }
    elements := [];
    var i := 0;
    while i < |messages|
      invariant i <= |messages|
      invariant elements == GatherMessages(messages[..i], messageName, schema)
    {
      if messages[i].name == messageName {
        elements := AppendParts(elements, messages[i].parts, schema);
      }
      assert messages[..i + 1][..i] == messages[..i];
      i := i + 1;
    }
    assert messages[..i] == messages;
    if elements == [] {
      elements := DefaultElements;
    }
  }

  /** The part loop only appends, and each part adds at least one element. */
  lemma {:induction false} GatherPartsGrows(acc: seq<Element>, parts: seq<Part>, schema: string -> seq<Element>)
    ensures acc <= GatherParts(acc, parts, schema)
    ensures |GatherParts(acc, parts, schema)| >= |acc| + |parts|
  {
    if parts != [] {
      GatherPartsGrows(acc, parts[..|parts| - 1], schema);
    }
  }

  /** Nothing is gathered exactly when no message of that name has a part. */
  lemma {:induction false} GatheredNothing(messages: seq<Message>, messageName: string, schema: string -> seq<Element>)
    ensures GatherMessages(messages, messageName, schema) == [] <==>
            forall i :: 0 <= i < |messages| && messages[i].name == messageName ==> messages[i].parts == []
  {
    if messages != [] {
      var front := messages[..|messages| - 1];
      GatheredNothing(front, messageName, schema);
      GatherPartsGrows(GatherMessages(front, messageName, schema), messages[|messages| - 1].parts, schema);
      assert forall i :: 0 <= i < |front| ==> front[i] == messages[i];
    }
  }

  /**
   * An empty message name gives no elements; otherwise there is always at least one, and
   * the `parameter1`/`parameter2` pair stands in exactly when no message of that name has parts.
   */
  lemma MessageElementsShape(messages: seq<Message>, messageName: string, schema: string -> seq<Element>)
    ensures MessageElements(messages, messageName, schema) == [] <==> messageName == ""
    ensures messageName != "" &&
            (forall i :: 0 <= i < |messages| && messages[i].name == messageName ==> messages[i].parts == [])
            ==> MessageElements(messages, messageName, schema) == DefaultElements
    ensures messageName != "" &&
            (exists i :: 0 <= i < |messages| && messages[i].name == messageName && messages[i].parts != [])
            ==> MessageElements(messages, messageName, schema) == GatherMessages(messages, messageName, schema)
  {
    GatheredNothing(messages, messageName, schema);
  }

  /**
   * A part without element, type or name is named `param_{n}`, where `n` is its 1-based
   * position among all gathered elements.
   */
  lemma UnnamedPartNumbering(acc: seq<Element>, parts: seq<Part>, p: Part, schema: string -> seq<Element>)
    requires p.element == "" && p.typeName == "" && p.name == ""
    ensures var r := GatherParts(acc, parts + [p], schema);
            |r| >= 1 && r[|r| - 1] == Element("param_" + NatToString(|r|), "", "string", true)
  {
    assert (parts + [p])[..|parts|] == parts;
  }

  /** A part that references an element the XSD does not describe gives one required string element named after the reference. */
  lemma ElementPartWithoutSchema(acc: seq<Element>, parts: seq<Part>, p: Part, schema: string -> seq<Element>)
    requires p.element != "" && schema(p.element) == []
    ensures var r := GatherParts(acc, parts + [p], schema);
            var e := r[|r| - 1];
            |r| == |GatherParts(acc, parts, schema)| + 1
            && e.element == CleanMessageName(p.element) && e.typeName == "string" && e.required
            && e.name != "" && (CleanMessageName(p.element) != "" ==> e.name == CleanMessageName(p.element))
  {
    assert (parts + [p])[..|parts|] == parts;
  }

  /** A part with only a type gives one required element named after the part (or `parameter`), with the cleaned type. */
  lemma TypePart(acc: seq<Element>, parts: seq<Part>, p: Part, schema: string -> seq<Element>)
    requires p.element == "" && p.typeName != ""
    ensures var r := GatherParts(acc, parts + [p], schema);
            var e := r[|r| - 1];
            |r| == |GatherParts(acc, parts, schema)| + 1
            && e == Element(if p.name != "" then p.name else "parameter", "", CleanMessageName(p.typeName), true)
  {
    assert (parts + [p])[..|parts|] == parts;
  }
}
