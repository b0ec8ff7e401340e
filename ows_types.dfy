/** The values the OWS request handlers and operations share: the request
    query (a NameValueCollection), the parsed XML body, the configured
    service operations and the OperationResult handed back to the host. */
module OwsTypes {
  import opened Common
  import opened WpsTypes

  /** A NameValueCollection in insertion order. Several pairs may share a
      name; names are compared ignoring case. */
  type Query = seq<(string, string)>

  /** The values stored under `name` (compared ignoring case), in order. */
  function Values(q: Query, name: string): (vs: seq<string>)
    ensures |vs| <= |q|
    ensures (exists i :: 0 <= i < |q| && EqualsIgnoreCase(q[i].0, name)) <==> vs != []
  {
    if q == [] then []
    else
      var init := Values(q[..|q| - 1], name);
      assert forall i :: 0 <= i < |q| - 1 ==> q[..|q| - 1][i] == q[i];
      if EqualsIgnoreCase(q[|q| - 1].0, name) then init + [q[|q| - 1].1] else init
  }

  /** string.Join(",", values) */
  function JoinComma(vs: seq<string>): string {
    if |vs| == 0 then "" else if |vs| == 1 then vs[0] else vs[0] + "," + JoinComma(vs[1..])
  }

  /** NameValueCollection.Get / the string indexer: null when the name is
      absent, otherwise all its values joined with commas. */
  function Get(q: Query, name: string): (r: Option<string>)
    ensures r.None? <==> forall i :: 0 <= i < |q| ==> !EqualsIgnoreCase(q[i].0, name)
  {
    var vs := Values(q, name);
    if vs == [] then None else Some(JoinComma(vs))
  }

  /** NameValueCollection.Add */
  function Add(q: Query, name: string, value: string): Query {
    q + [(name, value)]
  }

  /** Adding under an absent name makes the indexer return exactly that
      value; every other name keeps its value. */
  lemma GetAfterAdd(q: Query, name: string, value: string, other: string)
    requires Get(q, name).None?
    ensures Get(Add(q, name, value), name) == Some(value)
    ensures !EqualsIgnoreCase(other, name) ==> Get(Add(q, name, value), other) == Get(q, other)
  {
    var q' := Add(q, name, value);
    assert q'[..|q'| - 1] == q;
    assert Values(q, name) == [];
  }

  /** AllKeys: each name once, spelled as it was first added. */
  function AllKeys(q: Query): (ks: seq<string>)
    ensures forall k :: k in ks ==> exists i :: 0 <= i < |q| && q[i].0 == k
  {
    if q == [] then []
    else
      var init := AllKeys(q[..|q| - 1]);
      var name := q[|q| - 1].0;
      assert forall i :: 0 <= i < |q| - 1 ==> q[..|q| - 1][i] == q[i];
      if exists i :: 0 <= i < |q| - 1 && EqualsIgnoreCase(q[i].0, name) then init else init + [name]
  }

  /** The position of the first pair whose name equals k ignoring case, or
      |q| when there is none. */
  function FirstNamed(q: Query, k: string): (r: nat)
    ensures r <= |q|
    ensures r < |q| ==> EqualsIgnoreCase(q[r].0, k)
    ensures forall j :: 0 <= j < r ==> !EqualsIgnoreCase(q[j].0, k)
  {
    if q == [] then 0
    else
      var n := |q| - 1;
      var f := FirstNamed(q[..n], k);
      assert forall j :: 0 <= j < n ==> q[..n][j] == q[j];
      if f < n then f else if EqualsIgnoreCase(q[n].0, k) then n else n + 1
  }

  /** k is how the first pair with that name (ignoring case) spells it. */
  predicate IsFirstSpelling(q: Query, k: string) {
    FirstNamed(q, k) < |q| && q[FirstNamed(q, k)].0 == k
  }

  /** The first spelling of every name of the query is listed by AllKeys. */
  lemma {:induction false} AllKeysComplete(q: Query)
    ensures forall i :: 0 <= i < |q| ==> q[FirstNamed(q, q[i].0)].0 in AllKeys(q)
  {
    if q != [] {
      var n := |q| - 1;
      var init := q[..n];
      AllKeysComplete(init);
      assert forall j :: 0 <= j < n ==> init[j] == q[j];
      forall i | 0 <= i < |q|
        ensures q[FirstNamed(q, q[i].0)].0 in AllKeys(q)
      {
        var f := FirstNamed(init, q[i].0);
        if f < n {
          if i < n {
            assert init[FirstNamed(init, init[i].0)].0 in AllKeys(init);
          } else {
            assert EqualsIgnoreCase(q[f].0, q[n].0);
            assert Lower(init[FirstNamed(init, init[f].0)].0) == Lower(init[f].0);
            assert FirstNamed(init, init[f].0) == f;
            assert init[f].0 in AllKeys(init);
          }
        } else {
          assert i == n;
          assert !exists j :: 0 <= j < n && EqualsIgnoreCase(q[j].0, q[n].0);
        }
      }
    }
  }

  /** Every name AllKeys lists is the first spelling of that name. */
  lemma {:induction false} AllKeysFirst(q: Query)
    ensures forall j :: 0 <= j < |AllKeys(q)| ==> IsFirstSpelling(q, AllKeys(q)[j])
  {
    if q != [] {
      var n := |q| - 1;
      var init := q[..n];
      AllKeysFirst(init);
      assert forall j :: 0 <= j < n ==> init[j] == q[j];
      var ks0 := AllKeys(init);
      assert forall j :: 0 <= j < |ks0| ==> IsFirstSpelling(q, ks0[j]);
      if !exists i :: 0 <= i < n && EqualsIgnoreCase(q[i].0, q[n].0) {
        assert IsFirstSpelling(q, q[n].0);
        assert forall j :: 0 <= j < |ks0| + 1 ==> (ks0 + [q[n].0])[j] == if j < |ks0| then ks0[j] else q[n].0;
      }
    }
  }

  /** No two names AllKeys lists are equal ignoring case. */
  lemma {:induction false} AllKeysDistinct(q: Query)
    ensures forall a, b :: 0 <= a < b < |AllKeys(q)| ==> !EqualsIgnoreCase(AllKeys(q)[a], AllKeys(q)[b])
  {
    if q != [] {
      var n := |q| - 1;
      var init := q[..n];
      var ks0 := AllKeys(init);
      AllKeysDistinct(init);
      if !exists i :: 0 <= i < n && EqualsIgnoreCase(q[i].0, q[n].0) {
        AllKeysFirst(init);
        forall a | 0 <= a < |ks0|
          ensures !EqualsIgnoreCase(ks0[a], q[n].0)
        {
          var f := FirstNamed(init, ks0[a]);
          assert init[f].0 == ks0[a] && q[f] == init[f];
        }
      }
    }
  }

  /** A name is among AllKeys exactly when it is the first spelling of its
      name in the query. */
  lemma KeyIsFirstSpelling(q: Query, k: string)
    ensures k in AllKeys(q) <==> IsFirstSpelling(q, k)
  {
    AllKeysFirst(q);
    if IsFirstSpelling(q, k) {
      AllKeysComplete(q);
      var f := FirstNamed(q, k);
      assert q[FirstNamed(q, q[f].0)].0 in AllKeys(q);
    }
  }

  /** The parsed request body: the root element's local name, its
      attributes, and what ReadInnerXml returns on a fresh reader over the
      body (the handler reads it without advancing the reader). */
  datatype XmlDoc = XmlDoc(rootName: string, attributes: seq<(string, string)>, innerXml: string)

  /** XElement.Attribute(name)?.Value */
  function Attribute(doc: XmlDoc, name: string): Option<string> {
    Find(doc.attributes, name)
  }

  /** The request body: absent (ContentLength not positive), present but not
      well-formed XML, or a document. */
  datatype RequestBody = NoBody | Unparsable | Xml(doc: XmlDoc)

  /** What the handlers read from the HTTP request: its body, its parsed
      query string and its URL as text (GetDisplayUrl in the current handler,
      RequestUri.ToString() in the older one). */
  datatype HttpRequest = HttpRequest(body: RequestBody, query: Query, url: string)

  /** A <add> element of the operation's <defaultValues> collection. */
  type DefaultValue = (string, string)

  /** A <service> element of the ogc configuration section: the service and
      operation it serves, its version (default ""), whether its results are
      cached (default true) and its default parameter values. */
  datatype ServiceOperation = ServiceOperation(
    service: string, operation: string, version: string, cacheEnabled: bool, defaultValues: seq<DefaultValue>)

  /** ServiceConfiguration.Settings: the default service, version and
      request, and the configured operations in order. */
  datatype ServiceSettings = ServiceSettings(
    defaultService: string, defaultVersion: string, defaultRequest: string, services: seq<ServiceOperation>)

  /** ToVersionNumber, an extension method whose body is not part of this
      model; it is applied to possibly null strings. */
  type VersionNumber = Option<string> -> int

  /** ows:DomainType as the operations describe their parameters: a name
      with its allowed values, or any value at all. */
  datatype DomainType = DomainType(name: string, allowedValues: seq<string>, anyValue: bool)

  /** The formats an OperationResult can be rendered in. */
  datatype OutputFormat = TextXml | ApplicationXml

  /** The string value of an output format (its XmlEnum name). */
  function FormatName(f: OutputFormat): string {
    match f
    case TextXml => "text/xml"
    case ApplicationXml => "application/xml"
  }

  /** The object an OperationResult carries: an ExceptionReport, or the
      response an operation built, whose rendering is not modelled. */
  datatype ResultObject = Report(report: ExceptionReport) | Produced(content: string)

  /** OperationResult; a new one renders as application/xml. */
  datatype OperationResult = OperationResult(resultObject: ResultObject, outputFormat: OutputFormat)

  /** The exception code of an OGC exception. */
  function ExceptionCode(e: OgcError): string {
    match e
    case MissingParameterValue(_) => "MissingParameterValue"
    case InvalidParameterValue(_, _) => "InvalidParameterValue"
    case OperationNotSupported(_, _) => "OperationNotSupported"
    case NoApplicableCode(_) => "NoApplicableCode"
    case VersionNegotiation(_) => "VersionNegotiationFailed"
  }

  /** The locator of an OGC exception, when it has one. */
  function Locator(e: OgcError): Option<string> {
    match e
    case MissingParameterValue(l) => Some(l)
    case InvalidParameterValue(l, _) => Some(l)
    case OperationNotSupported(l, _) => Some(l)
    case _ => None
  }

  /** The message an OGC exception is raised with, where the modelled code
      gives one; the others are worded by the exception class itself. */
  function Message(e: OgcError): Option<string> {
    match e
    case OperationNotSupported(_, m) => Some(m)
    case NoApplicableCode(m) => Some(m)
    case VersionNegotiation(m) => Some(m)
    case _ => None
  }

  /** OgcException.ExceptionReport: one exception with the error's code,
      locator and message. */
  function OgcReport(e: OgcError): (r: ExceptionReport)
    ensures |r.exceptions| == 1 && r.exceptions[0].exceptionCode == ExceptionCode(e)
    ensures r.exceptions[0].locator == Locator(e) && r.exceptions[0].exceptionText == Message(e)
  {
    ExceptionReport([ExceptionType(ExceptionCode(e), Locator(e), Message(e))])
  }

  /** The report of NoApplicableCodeException("Application error.", e). */
  const ApplicationError := ExceptionReport([ExceptionType("NoApplicableCode", None, Some("Application error."))])

  /** The catch clauses of ProcessRequest: an OGC exception becomes a result
      carrying its own report, any other exception the application error. */
  function ErrorResult(f: Fault): (r: OperationResult)
    ensures r.outputFormat == ApplicationXml && r.resultObject.Report?
    ensures f.Ogc? ==> r.resultObject.report == OgcReport(f.error)
    ensures !f.Ogc? ==> r.resultObject.report == ApplicationError
  {
    match f
    case Ogc(e) => OperationResult(Report(OgcReport(e)), ApplicationXml)
    case _ => OperationResult(Report(ApplicationError), ApplicationXml)
  }
}
