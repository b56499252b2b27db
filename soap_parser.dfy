/**
 * SOAP method detection (`backend/app/utils/soap_parser.py`).
 *
 * The method of a SOAP request is looked for, in order, in the `action` parameter of the
 * `Content-Type` header, in the `soapaction` header, in any other spelling of that header,
 * and finally in the first element of the envelope body. The body extractor parses XML and
 * is an input of the model (`bodyMethod`), not part of it.
 */
module SoapParser {
  import opened Wrappers
  import opened Text
  import PyDict
  import opened Models

  const Quotes: set<char> := {'"', '\''}

  /** `str.strip('"').strip("'")`. */
  function StripQuotes(v: string): string
  {
    StripSet(StripSet(v, {'"'}), {'\''})
  }

  /**
   * `_normalize_method_name`: trims spaces and quotes, drops a query string after the
   * first `?`, then keeps only the text after the last `#`.
   */
  function NormalizeMethodName(m: string): string
  {
    if m == "" then ""
    else
      var n0 := Strip(StripSet(StripSet(Strip(m), {'"'}), {'\''}));
      var n1 := if '?' in n0 then Split(n0, {'?'})[0] else n0;
      if '#' in n1 then Last(Split(n1, {'#'})) else n1
  }

  /** A normalised name carries neither a query string nor a fragment marker. */
  lemma NormalizeClean(m: string)
    ensures '?' !in NormalizeMethodName(m) && '#' !in NormalizeMethodName(m)
  {
    if m != "" {
      var n0 := Strip(StripSet(StripSet(Strip(m), {'"'}), {'\''}));
      SplitPieces(n0, {'?'});
      var n1 := if '?' in n0 then Split(n0, {'?'})[0] else n0;
      assert '?' !in n1;
      SplitPieces(n1, {'#'});
      var parts := Split(n1, {'#'});
      assert Last(parts) == parts[|parts| - 1];
    }
  }

  /** A name made only of ordinary characters is already normalised. */
  lemma NormalizePlain(m: string)
    requires forall c :: c in m ==> c !in Whitespace && c !in Quotes && c != '?' && c != '#'
    ensures NormalizeMethodName(m) == m
  {
    if m != "" {
      StripSetNoChars(m, Whitespace);
      StripSetNoChars(m, {'"'});
      StripSetNoChars(m, {'\''});
    }
  }

  /**
   * `_extract_method_from_action`: the last `#` piece, else the last `/` piece unless it
   * names a `.wsdl` file, else the last `:` piece unless it is `urn`, else the whole value;
   * `None` only for a blank value.
   */
  function ExtractMethodFromAction(v: string): Option<string>
  {
    if v == "" || Strip(v) == "" then None
    else
      var a := Strip(v);
      var afterHash := Strip(Last(Split(a, {'#'})));
      var afterSlash := Strip(Last(Split(a, {'/'})));
      var afterColon := Strip(Last(Split(a, {':'})));
      if '#' in a && afterHash != "" then Some(NormalizeMethodName(afterHash))
      else if '/' in a && afterSlash != "" && !EndsWith(Lower(afterSlash), ".wsdl") then Some(NormalizeMethodName(afterSlash))
      else if ':' in a && afterColon != "" && afterColon != "urn" then Some(NormalizeMethodName(afterColon))
      else Some(NormalizeMethodName(a))
  }

  /** An action yields a name exactly when it is not blank, and that name is normalised. */
  lemma ActionResult(v: string)
    ensures ExtractMethodFromAction(v).None? <==> Strip(v) == ""
    ensures ExtractMethodFromAction(v).Some? ==>
      '?' !in ExtractMethodFromAction(v).value && '#' !in ExtractMethodFromAction(v).value
  {
    if v == "" {
      assert Strip(v) == "";
    }
    var a := Strip(v);
    NormalizeClean(a);
    NormalizeClean(Strip(Last(Split(a, {'#'}))));
    NormalizeClean(Strip(Last(Split(a, {'/'}))));
    NormalizeClean(Strip(Last(Split(a, {':'}))));
  }

  /** A bare operation name, with no separators, quotes or spaces, is returned unchanged. */
  lemma ActionPlainName(v: string)
    requires v != ""
    requires forall c :: c in v ==> c !in Whitespace && c !in Quotes && c !in {'?', '#', '/', ':'}
    ensures ExtractMethodFromAction(v) == Some(v)
  {
    StripSetNoChars(v, Whitespace);
    NormalizePlain(v);
  }

  /** An action such as `urn:#getInfo` or `http://host/service#getInfo` names the text after `#`. */
  lemma ActionAfterHash(prefix: string, name: string)
    requires forall c :: c in prefix ==> c !in Whitespace
    requires name != ""
    requires forall c :: c in name ==> c !in Whitespace && c !in Quotes && c != '?' && c != '#'
    ensures ExtractMethodFromAction(prefix + "#" + name) == Some(name)
  {
    var v := PlainAction(prefix, '#', name);
    SplitLastAfter(prefix, '#', name, {'#'});
    assert '#' in v;
  }

  /** An action such as `/service/getInfo` names its last path segment, unless that is a `.wsdl` file. */
  lemma ActionAfterSlash(prefix: string, name: string)
    requires forall c :: c in prefix ==> c !in Whitespace && c != '#'
    requires name != "" && !EndsWith(Lower(name), ".wsdl")
    requires forall c :: c in name ==> c !in Whitespace && c !in Quotes && c !in {'?', '#', '/'}
    ensures ExtractMethodFromAction(prefix + "/" + name) == Some(name)
  {
    var v := PlainAction(prefix, '/', name);
    SplitLastAfter(prefix, '/', name, {'/'});
    assert '#' !in v && '/' in v;
  }

  /** An action such as `urn:someNamespace:getInfo` names the text after the last `:`. */
  lemma ActionAfterColon(prefix: string, name: string)
    requires forall c :: c in prefix ==> c !in Whitespace && c != '#' && c != '/'
    requires name != "" && name != "urn"
    requires forall c :: c in name ==> c !in Whitespace && c !in Quotes && c !in {'?', '#', '/', ':'}
    ensures ExtractMethodFromAction(prefix + ":" + name) == Some(name)
  {
    var v := PlainAction(prefix, ':', name);
    SplitLastAfter(prefix, ':', name, {':'});
    assert '#' !in v && '/' !in v && ':' in v;
  }

  /** The facts the three lemmas above share: the action is already stripped and the name is normalised. */
  lemma PlainAction(prefix: string, sep: char, name: string) returns (v: string)
    requires sep !in Whitespace
    requires forall c :: c in prefix ==> c !in Whitespace
    requires name != ""
    requires forall c :: c in name ==> c !in Whitespace && c !in Quotes && c != '?' && c != '#'
    ensures v == prefix + [sep] + name && v != "" && Strip(v) == v
    ensures forall c :: c in v <==> c in prefix || c == sep || c in name
    ensures Strip(name) == name && NormalizeMethodName(name) == name
  {
    v := prefix + [sep] + name;
    assert forall c :: c in v <==> c in prefix || c == sep || c in name;
    StripSetNoChars(v, Whitespace);
    StripSetNoChars(name, Whitespace);
    NormalizePlain(name);
  }

  // ---------------------------------------------------------------- Content-Type action

  /** `action=` starts at `i`, compared without regard to ASCII case. */
  predicate ActionAt(ct: string, i: nat)
  {
    i + 7 <= |ct| && Lower(ct[i..i + 7]) == "action="
  }

  /** `re.search(r'action=["\']([^"\']+)["\']', ct, re.IGNORECASE)` from position `i` on. */
  function QuotedActionFrom(ct: string, i: nat): Option<string>
    decreases |ct| - i
  {
    if i + 7 > |ct| then None
    else if ActionAt(ct, i) && i + 8 <= |ct| && ct[i + 7] in Quotes
      && 0 < SpanNot(ct[i + 8..], Quotes) < |ct[i + 8..]| then
      Some(ct[i + 8..][..SpanNot(ct[i + 8..], Quotes)])
    else QuotedActionFrom(ct, i + 1)
  }

  const ValueStops: set<char> := Whitespace + {';'}

  /** `re.search(r'action=([^;\s]+)', ct, re.IGNORECASE)` from position `i` on. */
  function UnquotedActionFrom(ct: string, i: nat): Option<string>
    decreases |ct| - i
  {
    if i + 7 > |ct| then None
    else if ActionAt(ct, i) && i + 7 < |ct| && ct[i + 7] !in ValueStops then
      Some(ct[i + 7..][..SpanNot(ct[i + 7..], ValueStops)])
    else UnquotedActionFrom(ct, i + 1)
  }

  /** The method named by the `action` parameter of the `content-type` header, if any. */
  function ContentTypeAction(headers: Headers): Option<string>
  {
    var ct := PyDict.GetOr(headers, "content-type", "");
    if !Contains(Lower(ct), "action=") then None
    else
      var m := if QuotedActionFrom(ct, 0).Some? then QuotedActionFrom(ct, 0) else UnquotedActionFrom(ct, 0);
      if m.None? then None else ExtractMethodFromAction(Strip(m.value))
  }

  /** The first differently spelled `SOAPAction` header that yields a method. */
  function SoapActionVariant(entries: Headers): Option<string>
  {
    if entries == [] then None
    else
      var name := entries[0].0;
      var action := StripQuotes(entries[0].1);
      if Lower(name) == "soapaction" && name != "soapaction" && action != ""
        && Truthy(ExtractMethodFromAction(action)) then
        ExtractMethodFromAction(action)
      else SoapActionVariant(entries[1..])
  }

  lemma {:induction false} SoapActionVariantClean(entries: Headers)
    ensures Truthy(SoapActionVariant(entries)) || SoapActionVariant(entries).None?
    ensures SoapActionVariant(entries).Some? ==>
      '?' !in SoapActionVariant(entries).value && '#' !in SoapActionVariant(entries).value
  {
    if entries != [] {
      ActionResult(StripQuotes(entries[0].1));
      SoapActionVariantClean(entries[1..]);
    }
  }

  /** `extract_soap_method_from_headers`. */
  function ExtractSoapMethodFromHeaders(headers: Headers): Option<string>
  {
    var fromContentType := ContentTypeAction(headers);
    if Truthy(fromContentType) then fromContentType
    else
      var action := StripQuotes(PyDict.GetOr(headers, "soapaction", ""));
      var fromSoapAction := if action != "" then ExtractMethodFromAction(action) else None;
      if Truthy(fromSoapAction) then fromSoapAction
      else SoapActionVariant(headers)
  }

  /**
   * The header search yields either nothing or a non-empty normalised name, and the
   * `action` parameter of the content type takes precedence over every `SOAPAction` header.
   */
  lemma HeaderMethodShape(headers: Headers)
    ensures var r := ExtractSoapMethodFromHeaders(headers);
      (r.None? || Truthy(r)) && (r.Some? ==> '?' !in r.value && '#' !in r.value)
    ensures Truthy(ContentTypeAction(headers)) ==> ExtractSoapMethodFromHeaders(headers) == ContentTypeAction(headers)
  {
    var ct := PyDict.GetOr(headers, "content-type", "");
    var m := if QuotedActionFrom(ct, 0).Some? then QuotedActionFrom(ct, 0) else UnquotedActionFrom(ct, 0);
    if m.Some? {
      ActionResult(Strip(m.value));
    }
    ActionResult(StripQuotes(PyDict.GetOr(headers, "soapaction", "")));
    SoapActionVariantClean(headers);
  }

  /**
   * `extract_soap_method(headers, body)`: a header name of more than one character wins;
   * otherwise the body's first element (`bodyMethod`, computed only for a non-empty body);
   * otherwise whatever the headers gave.
   */
  function ExtractSoapMethod(headers: Headers, body: string, bodyMethod: Option<string>): Option<string>
  {
    var fromHeaders := ExtractSoapMethodFromHeaders(headers);
    var headerName := if Truthy(fromHeaders) then NormalizeMethodName(fromHeaders.value) else "";
    if Truthy(fromHeaders) && |Strip(fromHeaders.value)| > 1 && headerName != "" && |headerName| > 1 then
      Some(headerName)
    else if body != "" && Truthy(bodyMethod) && NormalizeMethodName(bodyMethod.value) != "" then
      Some(NormalizeMethodName(bodyMethod.value))
    else if Truthy(fromHeaders) && headerName != "" then
      Some(headerName)
    else None
  }

  /** The detected method is always a non-empty normalised name. */
  lemma SoapMethodClean(headers: Headers, body: string, bodyMethod: Option<string>)
    ensures var r := ExtractSoapMethod(headers, body, bodyMethod);
      r.Some? ==> r.value != "" && '?' !in r.value && '#' !in r.value
  {
    var h := ExtractSoapMethodFromHeaders(headers);
    if h.Some? {
      NormalizeClean(h.value);
    }
    if bodyMethod.Some? {
      NormalizeClean(bodyMethod.value);
    }
  }

  /**
   * A header name that is longer than one character both stripped and normalised is used,
   * normalised, whatever the body says.
   */
  lemma HeaderMethodWins(headers: Headers, body: string, bodyMethod: Option<string>, h: string)
    requires ExtractSoapMethodFromHeaders(headers) == Some(h)
    requires |Strip(h)| > 1 && |NormalizeMethodName(h)| > 1
    ensures ExtractSoapMethod(headers, body, bodyMethod) == Some(NormalizeMethodName(h))
  {
  }

  /** A plain header name of at least two characters is used as it is. */
  lemma PlainHeaderMethodWins(headers: Headers, body: string, bodyMethod: Option<string>, h: string)
    requires ExtractSoapMethodFromHeaders(headers) == Some(h) && |h| > 1
    requires forall c :: c in h ==> c !in Whitespace && c !in Quotes && c != '?' && c != '#'
    ensures ExtractSoapMethod(headers, body, bodyMethod) == Some(h)
  {
    StripSetNoChars(h, Whitespace);
    NormalizePlain(h);
    HeaderMethodWins(headers, body, bodyMethod, h);
  }

  /** Without any method in the headers, the body's method decides alone. */
  lemma BodyFallback(headers: Headers, body: string, bodyMethod: Option<string>)
    requires ExtractSoapMethodFromHeaders(headers).None?
    ensures ExtractSoapMethod(headers, body, bodyMethod) ==
      if body != "" && Truthy(bodyMethod) && NormalizeMethodName(bodyMethod.value) != ""
      then Some(NormalizeMethodName(bodyMethod.value)) else None
  {
  }

  // ---------------------------------------------------------------- SOAP detection

  const HeaderIndicators: seq<string> := ["application/soap+xml", "text/xml", "application/xml", "soapaction", "action="]
  const BodyIndicators: seq<string> := ["soap:envelope", "soap:body", "soap12:envelope", "soap12:body", "xmlns:soap", "xmlns:soap12"]

  /** `is_soap_request(headers, body)`. */
  predicate IsSoapRequest(headers: Headers, body: string)
  {
    var ct := Lower(PyDict.GetOr(headers, "content-type", ""));
    var action := Lower(PyDict.GetOr(headers, "soapaction", ""));
    if exists i :: 0 <= i < |HeaderIndicators| && (Contains(ct, HeaderIndicators[i]) || Contains(action, HeaderIndicators[i])) then true
    else body != "" && exists i :: 0 <= i < |BodyIndicators| && Contains(Lower(body), BodyIndicators[i])
  }

  /** A content type that carries an `action` parameter always marks the request as SOAP. */
  lemma ContentTypeActionIsSoap(headers: Headers, body: string)
    requires ContentTypeAction(headers).Some?
    ensures IsSoapRequest(headers, body)
  {
    assert HeaderIndicators[4] == "action=";
  }

  /** Without header indicators, only the listed envelope markers in the body count. */
  lemma PlainHeadersNeedEnvelope(headers: Headers)
    requires PyDict.Get(headers, "content-type").None? && PyDict.Get(headers, "soapaction").None?
    ensures !IsSoapRequest(headers, "")
  {
    forall i | 0 <= i < |HeaderIndicators| ensures !Contains("", HeaderIndicators[i]) {
    }
  }

  /**
   * When neither the content type nor the `soapaction` header holds an indicator, the
   * request is SOAP exactly when the lower-cased body holds one of the envelope markers.
   */
  lemma BodyDecidesWithoutHeaderHint(headers: Headers, body: string)
    requires forall i :: 0 <= i < |HeaderIndicators| ==>
      !Contains(Lower(PyDict.GetOr(headers, "content-type", "")), HeaderIndicators[i])
      && !Contains(Lower(PyDict.GetOr(headers, "soapaction", "")), HeaderIndicators[i])
    ensures IsSoapRequest(headers, body) <==>
      exists i :: 0 <= i < |BodyIndicators| && Contains(Lower(body), BodyIndicators[i])
  {
  }
}
