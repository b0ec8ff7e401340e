/** Handler/OwsHttpRequestHandler.cs and its older variant
    OwsHttpRequestHandler.cs: the entry point of every OWS request. It fills
    in missing service, version and request parameters, resolves the
    configured operation, adds the operation's default parameters, serves the
    result from the cache or from the operation's handler, runs the custom
    "$$" actions and turns every exception into an ExceptionReport result. */
module OwsDispatch {
  import opened Common
  import opened WpsTypes
  import opened OwsTypes

  // ---------------------------------------------------------------------
  // Query parameters compared ignoring case

  /** Names equal ignoring case have the same value in a query. */
  lemma {:induction false} GetIgnoresCase(q: Query, a: string, b: string)
    requires EqualsIgnoreCase(a, b)
    ensures Values(q, a) == Values(q, b)
    ensures Get(q, a) == Get(q, b)
  {
    if q != [] {
      GetIgnoresCase(q[..|q| - 1], a, b);
    }
  }

  /** Adding under an absent name leaves every present name as it was. */
  lemma AddKeeps(q: Query, name: string, value: string, k: string)
    requires Get(q, name).None? && Get(q, k).Some?
    ensures Get(Add(q, name, value), k) == Get(q, k)
  {
    if EqualsIgnoreCase(k, name) {
      GetIgnoresCase(q, k, name);
    } else {
      GetAfterAdd(q, name, value, k);
    }
  }

  // ---------------------------------------------------------------------
  // Document and configured defaults (lines 53-70)

  /** The root attribute `name` of the document, when there is a document and
      the attribute is present with a non-empty value. */
  function DocAttribute(doc: Option<XmlDoc>, name: string): (v: Option<string>)
    ensures v.Some? ==> v.value != "" && doc.Some? && Attribute(doc.value, name) == v
  {
    if doc.Some? && Attribute(doc.value, name).Some? && Attribute(doc.value, name).value != ""
    then Attribute(doc.value, name) else None
  }

  /** The local name of the document's root, when there is a document and
      that name is not empty. */
  function DocRootName(doc: Option<XmlDoc>): Option<string> {
    if doc.Some? && doc.value.rootName != "" then Some(doc.value.rootName) else None
  }

  /** One defaulting step: a parameter already present is left alone, a
      missing one is added from the document when it gives a value, else
      from the configured default. */
  function DefaultParameter(q: Query, name: string, fromDoc: Option<string>, fallback: string): (r: Query)
    ensures Get(q, name).Some? ==> r == q
    ensures Get(q, name).None? ==> Get(r, name) == Some(if fromDoc.Some? then fromDoc.value else fallback)
  {
    if Get(q, name).Some? then q
    else
      var v := if fromDoc.Some? then fromDoc.value else fallback;
      GetAfterAdd(q, name, v, name);
      Add(q, name, v)
  }

  /** A defaulting step never changes a parameter that is present. */
  lemma DefaultParameterKeeps(q: Query, name: string, fromDoc: Option<string>, fallback: string, k: string)
    requires Get(q, k).Some?
    ensures Get(DefaultParameter(q, name, fromDoc, fallback), k) == Get(q, k)
  {
    if Get(q, name).None? {
      AddKeeps(q, name, if fromDoc.Some? then fromDoc.value else fallback, k);
    }
  }

  /** What a missing service, version or request parameter becomes. */
  function Defaulted(q: Query, name: string, fromDoc: Option<string>, fallback: string): Option<string> {
    if Get(q, name).Some? then Get(q, name)
    else Some(if fromDoc.Some? then fromDoc.value else fallback)
  }

  /** The three parameters defaulted in the current handler, which guards
      every use of the document. */
  function ApplyRequestDefaults(q: Query, doc: Option<XmlDoc>, settings: ServiceSettings): Query {
    var q1 := DefaultParameter(q, "service", DocAttribute(doc, "service"), settings.defaultService);
    var q2 := DefaultParameter(q1, "version", DocAttribute(doc, "version"), settings.defaultVersion);
    DefaultParameter(q2, "request", DocRootName(doc), settings.defaultRequest)
  }

  lemma DistinctParameterNames()
    ensures !EqualsIgnoreCase("service", "version") && !EqualsIgnoreCase("service", "request")
    ensures !EqualsIgnoreCase("version", "request")
  {
    assert Lower("service")[0] == 's' && Lower("version")[0] == 'v' && Lower("request")[0] == 'r';
  }

  /** After defaulting, service, version and request are all present: each
      keeps the value the query gave it, or else takes the document's value,
      or else the configured default; no other present parameter changes. */
  lemma {:induction false} RequestDefaultsFill(q: Query, doc: Option<XmlDoc>, settings: ServiceSettings, k: string)
    ensures var r := ApplyRequestDefaults(q, doc, settings);
            Get(r, "service") == Defaulted(q, "service", DocAttribute(doc, "service"), settings.defaultService) &&
            Get(r, "version") == Defaulted(q, "version", DocAttribute(doc, "version"), settings.defaultVersion) &&
            Get(r, "request") == Defaulted(q, "request", DocRootName(doc), settings.defaultRequest)
    ensures Get(q, k).Some? ==> Get(ApplyRequestDefaults(q, doc, settings), k) == Get(q, k)
  {
    DistinctParameterNames();
    var q1 := DefaultParameter(q, "service", DocAttribute(doc, "service"), settings.defaultService);
    var q2 := DefaultParameter(q1, "version", DocAttribute(doc, "version"), settings.defaultVersion);
    var q3 := DefaultParameter(q2, "request", DocRootName(doc), settings.defaultRequest);
    if Get(q, "version").Some? {
      DefaultParameterKeeps(q, "service", DocAttribute(doc, "service"), settings.defaultService, "version");
    } else {
      GetIgnoresCase(q, "version", "version");
      assert Get(q1, "version").None? by {
        if Get(q, "service").None? {
          GetAfterAdd(q, "service", Get(q1, "service").value, "version");
        }
      }
    }
    if Get(q, "request").Some? {
      DefaultParameterKeeps(q, "service", DocAttribute(doc, "service"), settings.defaultService, "request");
      DefaultParameterKeeps(q1, "version", DocAttribute(doc, "version"), settings.defaultVersion, "request");
    } else {
      assert Get(q1, "request").None? by {
        if Get(q, "service").None? {
          GetAfterAdd(q, "service", Get(q1, "service").value, "request");
        }
      }
      assert Get(q2, "request").None? by {
        if Get(q1, "version").None? {
          GetAfterAdd(q1, "version", Get(q2, "version").value, "request");
        }
      }
    }
    DefaultParameterKeeps(q1, "version", DocAttribute(doc, "version"), settings.defaultVersion, "service");
    DefaultParameterKeeps(q2, "request", DocRootName(doc), settings.defaultRequest, "service");
    DefaultParameterKeeps(q2, "request", DocRootName(doc), settings.defaultRequest, "version");
    if Get(q, k).Some? {
      DefaultParameterKeeps(q, "service", DocAttribute(doc, "service"), settings.defaultService, k);
      DefaultParameterKeeps(q1, "version", DocAttribute(doc, "version"), settings.defaultVersion, k);
      DefaultParameterKeeps(q2, "request", DocRootName(doc), settings.defaultRequest, k);
    }
  }

  /** The older handler's defaulting: the document is dereferenced whenever
      a parameter is missing, so a body-less request that lacks one throws a
      NullReferenceException. */
  function LegacyRequestDefaults(q: Query, doc: Option<XmlDoc>, settings: ServiceSettings): (r: Result<Query>)
    ensures r.Err? ==> r.error == NullReference
  {
    if doc.None? && (Get(q, "service").None? ||
                     Get(DefaultParameter(q, "service", None, ""), "version").None? ||
                     Get(DefaultParameter(DefaultParameter(q, "service", None, ""), "version", None, ""), "request").None?)
    then Err(NullReference)
    else Ok(ApplyRequestDefaults(q, doc, settings))
  }

  /** The two handlers default alike when there is a document or nothing is
      missing; without a document, a missing parameter is an error in the
      older handler. */
  lemma LegacyDefaultsAgree(q: Query, doc: Option<XmlDoc>, settings: ServiceSettings)
    ensures doc.Some? ==> LegacyRequestDefaults(q, doc, settings) == Ok(ApplyRequestDefaults(q, doc, settings))
    ensures Get(q, "service").Some? && Get(q, "version").Some? && Get(q, "request").Some? ==>
              LegacyRequestDefaults(q, doc, settings) == Ok(ApplyRequestDefaults(q, doc, settings))
    ensures doc.None? && (Get(q, "service").None? || Get(q, "version").None? || Get(q, "request").None?) ==>
              LegacyRequestDefaults(q, doc, settings) == Err(NullReference)
  {
    DistinctParameterNames();
    var q1 := DefaultParameter(q, "service", None, "");
    var q2 := DefaultParameter(q1, "version", None, "");
    if Get(q, "version").Some? {
      DefaultParameterKeeps(q, "service", None, "", "version");
    } else if Get(q, "service").None? {
      GetAfterAdd(q, "service", "", "version");
    }
    if Get(q, "request").Some? {
      DefaultParameterKeeps(q, "service", None, "", "request");
      DefaultParameterKeeps(q1, "version", None, "", "request");
    } else {
      if Get(q, "service").None? {
        GetAfterAdd(q, "service", "", "request");
      }
      if Get(q1, "version").None? {
        GetAfterAdd(q1, "version", "", "request");
      }
    }
  }

  // ---------------------------------------------------------------------
  // Operation resolution (GetServiceOperation, lines 151-202)

  /** The ordinal order of strings: the order "orderby Version descending"
      sorts by, with culture-specific collation left out. */
  predicate StringLess(a: string, b: string)
    decreases |a|
  {
    |b| > 0 && (|a| == 0 || a[0] < b[0] || (a[0] == b[0] && StringLess(a[1..], b[1..])))
  }

  lemma {:induction false} StringLessIrreflexive(a: string)
    ensures !StringLess(a, a)
    decreases |a|
  {
    if |a| > 0 {
      StringLessIrreflexive(a[1..]);
    }
  }

  lemma {:induction false} StringLessTransitive(a: string, b: string, c: string)
    requires StringLess(a, b) && StringLess(b, c)
    ensures StringLess(a, c)
    decreases |a|
  {
    if |a| > 0 && a[0] == b[0] && b[0] == c[0] {
      StringLessTransitive(a[1..], b[1..], c[1..]);
    }
  }

  lemma {:induction false} StringLessTotal(a: string, b: string)
    ensures a == b || StringLess(a, b) || StringLess(b, a)
    decreases |a|
  {
    if |a| > 0 && |b| > 0 && a[0] == b[0] {
      StringLessTotal(a[1..], b[1..]);
      assert a == [a[0]] + a[1..] && b == [b[0]] + b[1..];
    }
  }

  /** The configured operations for the requested operation and service, in
      configuration order. */
  function Candidates(services: seq<ServiceOperation>, requestName: string, serviceName: string): (c: seq<ServiceOperation>)
    ensures |c| <= |services|
    ensures forall o :: o in c <==> o in services && o.operation == requestName && o.service == serviceName
  {
    if services == [] then []
    else
      var rest := Candidates(services[1..], requestName, serviceName);
      assert services == [services[0]] + services[1..];
      if services[0].operation == requestName && services[0].service == serviceName
      then [services[0]] + rest else rest
  }

  /** The candidates whose version has the requested version number. */
  function ExactMatches(c: seq<ServiceOperation>, requestVersion: Option<string>, versionNumber: VersionNumber): (e: seq<ServiceOperation>)
    ensures |e| <= |c|
    ensures forall o :: o in e <==> o in c && versionNumber(Some(o.version)) == versionNumber(requestVersion)
  {
    if c == [] then []
    else
      var rest := ExactMatches(c[1..], requestVersion, versionNumber);
      assert c == [c[0]] + c[1..];
      if versionNumber(Some(c[0].version)) == versionNumber(requestVersion) then [c[0]] + rest else rest
  }

  /** FirstOrDefault of the candidates sorted by descending version: the
      sort is stable, so among equal versions the earliest wins. */
  function Highest(c: seq<ServiceOperation>): (h: Option<ServiceOperation>)
    ensures h.Some? <==> c != []
    ensures h.Some? ==> h.value in c
  {
    if c == [] then None
    else
      var rest := Highest(c[1..]);
      if rest.Some? && StringLess(c[0].version, rest.value.version) then rest else Some(c[0])
  }

  /** The fallback operation carries the highest version of all candidates,
      and every candidate before it has a strictly lower version. */
  lemma {:induction false} HighestIsFirstMaximal(c: seq<ServiceOperation>)
    requires c != []
    ensures forall o :: o in c ==> !StringLess(Highest(c).value.version, o.version)
    ensures exists i :: 0 <= i < |c| && c[i] == Highest(c).value &&
                        forall j :: 0 <= j < i ==> StringLess(c[j].version, c[i].version)
  {
    var h := Highest(c).value;
    assert c == [c[0]] + c[1..];
    if c[1..] == [] {
      StringLessIrreflexive(c[0].version);
      assert c[0] == h;
    } else {
      HighestIsFirstMaximal(c[1..]);
      var r := Highest(c[1..]).value;
      var i' :| 0 <= i' < |c[1..]| && c[1..][i'] == r &&
                forall j :: 0 <= j < i' ==> StringLess(c[1..][j].version, c[1..][i'].version);
      if StringLess(c[0].version, r.version) {
        assert h == r;
        assert c[i' + 1] == h;
        forall j | 0 <= j < i' + 1
          ensures StringLess(c[j].version, c[i' + 1].version)
        {
          if j > 0 {
            assert c[j] == c[1..][j - 1];
          }
        }
        forall o | o in c
          ensures !StringLess(h.version, o.version)
        {
          if o == c[0] && StringLess(h.version, o.version) {
            StringLessTransitive(h.version, c[0].version, h.version);
            StringLessIrreflexive(h.version);
          }
        }
      } else {
        assert h == c[0];
        forall o | o in c
          ensures !StringLess(h.version, o.version)
        {
          if o != c[0] && StringLess(h.version, o.version) {
            assert o in c[1..];
            StringLessTotal(h.version, r.version);
            if StringLess(r.version, h.version) {
              StringLessTransitive(r.version, h.version, o.version);
            }
          } else if o == c[0] {
            StringLessIrreflexive(h.version);
          }
        }
      }
    }
  }

  /** The version the request asks for: the document root's version
      attribute, whose absence throws, or else the version parameter. */
  function RequestVersion(doc: Option<XmlDoc>, q: Query): (r: Result<Option<string>>)
    ensures r.Err? <==> doc.Some? && Attribute(doc.value, "version").None?
  {
    if doc.Some? then
      (if Attribute(doc.value, "version").Some? then Ok(Attribute(doc.value, "version")) else Err(NullReference))
    else Ok(Get(q, "version"))
  }

  /** The text of the OperationNotSupported exception GetServiceOperation
      raises, naming the operation and the service. */
  function NotSupportedText(request: string, service: string): string {
    "Operation '" + request + "' of '" + service + "' service is not supported."
  }

  /** GetServiceOperation. The request parameter is checked before the
      service parameter. Among the configured operations for that request and
      service, a unique exact version match is chosen, several are a
      configuration error, and with none the highest version is the
      fallback; no candidate at all means the operation is not supported. */
  function GetServiceOperation(doc: Option<XmlDoc>, q: Query, services: seq<ServiceOperation>, versionNumber: VersionNumber)
    : (r: Result<ServiceOperation>)
    ensures IsNullOrEmpty(Get(q, "request")) ==> r == Err(Ogc(MissingParameterValue("request")))
    ensures !IsNullOrEmpty(Get(q, "request")) && IsNullOrEmpty(Get(q, "service")) ==>
              r == Err(Ogc(MissingParameterValue("service")))
    ensures r.Ok? ==> r.value in services && Get(q, "request") == Some(r.value.operation) &&
                      Get(q, "service") == Some(r.value.service)
    ensures !IsNullOrEmpty(Get(q, "request")) && !IsNullOrEmpty(Get(q, "service")) && RequestVersion(doc, q).Ok? ==>
              var c := Candidates(services, Get(q, "request").value, Get(q, "service").value);
              var e := ExactMatches(c, RequestVersion(doc, q).value, versionNumber);
              (|e| > 1 ==> r == Err(ConfigurationErrors)) &&
              (|e| == 1 ==> r == Ok(e[0])) &&
              (|e| == 0 && c != [] ==> r == Ok(Highest(c).value)) &&
              (c == [] ==> r == Err(Ogc(OperationNotSupported(Get(q, "request").value,
                                   NotSupportedText(Get(q, "request").value, Get(q, "service").value)))))
    ensures RequestVersion(doc, q).Err? && !IsNullOrEmpty(Get(q, "request")) && !IsNullOrEmpty(Get(q, "service")) ==>
              r == Err(NullReference)
  {
    var requestName := Get(q, "request");
    var serviceName := Get(q, "service");
    if IsNullOrEmpty(requestName) then Err(Ogc(MissingParameterValue("request")))
    else if IsNullOrEmpty(serviceName) then Err(Ogc(MissingParameterValue("service")))
    else match RequestVersion(doc, q)
      case Err(f) => Err(f)
      case Ok(requestVersion) =>
        var c := Candidates(services, requestName.value, serviceName.value);
        var e := ExactMatches(c, requestVersion, versionNumber);
        if |e| > 1 then Err(ConfigurationErrors)
        else if |e| == 1 then (assert e[0] in e; Ok(e[0]))
        else if c == [] then Err(Ogc(OperationNotSupported(requestName.value, NotSupportedText(requestName.value, serviceName.value))))
        else Ok(Highest(c).value)
  }

  /** An exact version match is never passed over for a fallback: when one
      exists, the result has the requested version number or is an error. */
  lemma ExactMatchPreferred(doc: Option<XmlDoc>, q: Query, services: seq<ServiceOperation>, versionNumber: VersionNumber, o: ServiceOperation)
    requires RequestVersion(doc, q).Ok? && o in services
    requires Get(q, "request") == Some(o.operation) && Get(q, "service") == Some(o.service) && o.operation != "" && o.service != ""
    requires versionNumber(Some(o.version)) == versionNumber(RequestVersion(doc, q).value)
    ensures var r := GetServiceOperation(doc, q, services, versionNumber);
            r == Err(ConfigurationErrors) ||
            (r.Ok? && versionNumber(Some(r.value.version)) == versionNumber(RequestVersion(doc, q).value))
  {
    var c := Candidates(services, o.operation, o.service);
    var e := ExactMatches(c, RequestVersion(doc, q).value, versionNumber);
    assert o in e;
    if |e| == 1 {
      assert e[0] in e;
    }
  }

  // ---------------------------------------------------------------------
  // Operation defaults (lines 75-79)

  /** The query after the operation's default values, applied in order, each
      only when its name is still missing. */
  function WithDefaults(q: Query, defaults: seq<DefaultValue>): Query {
    if defaults == [] then q
    else
      var r := WithDefaults(q, defaults[..|defaults| - 1]);
      var d := defaults[|defaults| - 1];
      if Get(r, d.0).None? then Add(r, d.0, d.1) else r
  }

  /** The foreach over operation.DefaultValues. */
  method AddOperationDefaults(q: Query, defaults: seq<DefaultValue>) returns (r: Query)
    ensures r == WithDefaults(q, defaults)
  {
    r := q;
    for i := 0 to |defaults|
      invariant r == WithDefaults(q, defaults[..i])
    {
      assert defaults[..i + 1][..i] == defaults[..i];
      if Get(r, defaults[i].0).None? {
        r := Add(r, defaults[i].0, defaults[i].1);
      }
    }
    assert defaults[..|defaults|] == defaults;
  }

  /** Operation defaults never overwrite a parameter that is present. */
  lemma {:induction false} WithDefaultsKeeps(q: Query, defaults: seq<DefaultValue>, k: string)
    requires Get(q, k).Some?
    ensures Get(WithDefaults(q, defaults), k) == Get(q, k)
  {
    if defaults != [] {
      var init := defaults[..|defaults| - 1];
      WithDefaultsKeeps(q, init, k);
      var d := defaults[|defaults| - 1];
      if Get(WithDefaults(q, init), d.0).None? {
        AddKeeps(WithDefaults(q, init), d.0, d.1, k);
      }
    }
  }

  /** Defaults whose names differ from `k` leave `k` as it was. */
  lemma {:induction false} WithDefaultsUntouched(q: Query, defaults: seq<DefaultValue>, k: string)
    requires forall i :: 0 <= i < |defaults| ==> !EqualsIgnoreCase(defaults[i].0, k)
    ensures Get(WithDefaults(q, defaults), k) == Get(q, k)
  {
    if defaults != [] {
      var init := defaults[..|defaults| - 1];
      WithDefaultsUntouched(q, init, k);
      var d := defaults[|defaults| - 1];
      if Get(WithDefaults(q, init), d.0).None? {
        GetAfterAdd(WithDefaults(q, init), d.0, d.1, k);
      }
    }
  }

  /** A missing parameter takes the value of the first default that names
      it (ignoring case). */
  lemma {:induction false} FirstDefaultWins(q: Query, defaults: seq<DefaultValue>, j: nat, k: string)
    requires Get(q, k).None? && j < |defaults| && EqualsIgnoreCase(defaults[j].0, k)
    requires forall i :: 0 <= i < j ==> !EqualsIgnoreCase(defaults[i].0, k)
    ensures Get(WithDefaults(q, defaults), k) == Some(defaults[j].1)
  {
    var init := defaults[..|defaults| - 1];
    var d := defaults[|defaults| - 1];
    var r := WithDefaults(q, init);
    if j == |defaults| - 1 {
      WithDefaultsUntouched(q, init, k);
      GetIgnoresCase(r, d.0, k);
      GetAfterAdd(r, d.0, d.1, d.0);
      GetIgnoresCase(Add(r, d.0, d.1), d.0, k);
    } else {
      FirstDefaultWins(q, init, j, k);
      if Get(r, d.0).None? {
        AddKeeps(r, d.0, d.1, k);
      }
    }
  }

  // ---------------------------------------------------------------------
  // The request pipeline

  /** XDocument.Load of the body, when ContentLength is positive. */
  function ParseBody(body: RequestBody): (r: Result<Option<XmlDoc>>)
    ensures r.Err? <==> body.Unparsable?
    ensures body.Xml? ==> r == Ok(Some(body.doc))
    ensures body.NoBody? ==> r == Ok(None)
  {
    match body
    case NoBody => Ok(None)
    case Unparsable => Err(XmlError)
    case Xml(doc) => Ok(Some(doc))
  }

  /** The resolved operation and the query as its handler sees it. */
  datatype Resolved = Resolved(query: Query, operation: ServiceOperation)

  /** Defaulting, resolution and operation defaults, given the defaulted
      query (which the two handlers compute differently). */
  function Resolve(q: Query, doc: Option<XmlDoc>, settings: ServiceSettings, versionNumber: VersionNumber): (r: Result<Resolved>)
    ensures r.Ok? ==> r.value.operation in settings.services
    ensures r.Ok? ==> r.value.query == WithDefaults(q, r.value.operation.defaultValues)
    ensures r.Err? ==> GetServiceOperation(doc, q, settings.services, versionNumber) == Err(r.error)
  {
    match GetServiceOperation(doc, q, settings.services, versionNumber)
    case Err(f) => Err(f)
    case Ok(op) => Ok(Resolved(WithDefaults(q, op.defaultValues), op))
  }

  /** The cache key: with a body, what ReadInnerXml returns on the reader
      over the body as the handler obtains it (the reader is not advanced
      first, so this may be the same text for every body); else the request
      URL. */
  function CacheKey(request: HttpRequest, doc: Option<XmlDoc>): string {
    if doc.Some? then doc.value.innerXml else request.url
  }

  /** Some parameter name starts with "$$" (ignoring case). */
  predicate HasCustomKey(q: Query) {
    exists k :: k in AllKeys(q) && StartsWithIgnoreCase(k, "$$")
  }

  /** HandleCustomAction: "$$validate" among the keys (exact spelling) is not
      implemented; otherwise the result passes through. A key is spelled as
      the first pair with that name spells it, so the request is refused
      exactly when the first parameter named $$validate in any case is
      spelled in lower case. */
  function HandleCustomAction(result: Option<OperationResult>, q: Query): (r: Result<Option<OperationResult>>)
    ensures r.Err? <==> IsFirstSpelling(q, "$$validate")
    ensures r.Err? ==> r.error == NotImplemented
    ensures r.Ok? ==> r.value == result
  {
    KeyIsFirstSpelling(q, "$$validate");
    if "$$validate" in AllKeys(q) then Err(NotImplemented) else Ok(result)
  }

  /** Creating the operation's handler, building and validating its payload
      and running it: a result, null, or the exception any of these throws. */
  type Invoke = (ServiceOperation, Option<XmlDoc>, Query) -> Result<Option<OperationResult>>

  /** The custom-action stage and the catch clauses applied to what the
      cache or the handler produced. */
  function Finish(produced: Result<Option<OperationResult>>, q: Query): (r: Option<OperationResult>)
    ensures produced.Err? ==> r == Some(ErrorResult(produced.error))
    ensures produced.Ok? && !HasCustomKey(q) ==> r == produced.value
  {
    match produced
    case Err(f) => Some(ErrorResult(f))
    case Ok(result) =>
      if !HasCustomKey(q) then result
      else match HandleCustomAction(result, q)
        case Err(f) => Some(ErrorResult(f))
        case Ok(v) => v
  }

  /** The outcome of the current handler: the result it returns and the
      result cache afterwards. */
  datatype Outcome = Outcome(result: Option<OperationResult>, cache: map<string, OperationResult>)

  /** ProcessRequest of the current handler, as a function of the request,
      the configuration and the cache contents. */
  function Handle(request: HttpRequest, settings: ServiceSettings, versionNumber: VersionNumber, invoke: Invoke,
                  cached: map<string, OperationResult>): Outcome
  {
    match ParseBody(request.body)
    case Err(f) => Outcome(Some(ErrorResult(f)), cached)
    case Ok(doc) =>
      match Resolve(ApplyRequestDefaults(request.query, doc, settings), doc, settings, versionNumber)
      case Err(f) => Outcome(Some(ErrorResult(f)), cached)
      case Ok(res) => Serve(res, doc, CacheKey(request, doc), invoke, cached)
  }

  /** The cache stage of Handle for a resolved operation: a cache-enabled
      operation whose key is cached answers from the cache; otherwise the
      handler runs, and its non-null result is cached when the operation
      allows it. */
  function Serve(res: Resolved, doc: Option<XmlDoc>, key: string, invoke: Invoke, cached: map<string, OperationResult>): Outcome {
    var hit := res.operation.cacheEnabled && key in cached;
    var produced := if hit then Ok(Some(cached[key])) else invoke(res.operation, doc, res.query);
    var cache' := if !hit && produced.Ok? && produced.value.Some? && res.operation.cacheEnabled
                  then cached[key := produced.value.value] else cached;
    Outcome(Finish(produced, res.query), cache')
  }

  /** Serve never replaces an entry, and adds at most the handler's non-null
      result under the key of a cache-enabled operation. */
  lemma ServeOnlyGains(res: Resolved, doc: Option<XmlDoc>, key: string, invoke: Invoke, cached: map<string, OperationResult>)
    ensures var after := Serve(res, doc, key, invoke, cached).cache;
            forall k :: k in cached ==> k in after && after[k] == cached[k]
    ensures var after := Serve(res, doc, key, invoke, cached).cache;
            after != cached ==>
              res.operation.cacheEnabled && key !in cached &&
              invoke(res.operation, doc, res.query).Ok? && invoke(res.operation, doc, res.query).value.Some? &&
              after == cached[key := invoke(res.operation, doc, res.query).value.value]
  {
    var after := Serve(res, doc, key, invoke, cached).cache;
    var produced := invoke(res.operation, doc, res.query);
    if res.operation.cacheEnabled && key !in cached && produced.Ok? && produced.value.Some? {
      forall k | k in cached
        ensures k in after && after[k] == cached[k]
      {
        assert k != key;
      }
    }
  }

  /** A request whose operation has a cached result never reaches the
      handler: the outcome is the same whatever the handler would do, and is
      the cached result. */
  lemma CachedResultSkipsHandler(request: HttpRequest, settings: ServiceSettings, versionNumber: VersionNumber,
                                 invoke: Invoke, other: Invoke, cached: map<string, OperationResult>)
    requires !request.body.Unparsable?
    requires var doc := ParseBody(request.body).value;
             var res := Resolve(ApplyRequestDefaults(request.query, doc, settings), doc, settings, versionNumber);
             res.Ok? && res.value.operation.cacheEnabled && CacheKey(request, doc) in cached
    ensures Handle(request, settings, versionNumber, invoke, cached) == Handle(request, settings, versionNumber, other, cached)
    ensures var doc := ParseBody(request.body).value;
            var res := Resolve(ApplyRequestDefaults(request.query, doc, settings), doc, settings, versionNumber).value;
            Handle(request, settings, versionNumber, invoke, cached) ==
              Outcome(Finish(Ok(Some(cached[CacheKey(request, doc)])), res.query), cached)
  {
  }

  /** Conversely, a cache-enabled operation whose key is not cached runs the
      handler, and a non-null result it returns is cached under the key and
      passed on to the custom-action stage. */
  lemma FreshResultCached(request: HttpRequest, settings: ServiceSettings, versionNumber: VersionNumber,
                          invoke: Invoke, cached: map<string, OperationResult>)
    requires !request.body.Unparsable?
    requires var doc := ParseBody(request.body).value;
             var res := Resolve(ApplyRequestDefaults(request.query, doc, settings), doc, settings, versionNumber);
             res.Ok? && res.value.operation.cacheEnabled && CacheKey(request, doc) !in cached &&
             invoke(res.value.operation, doc, res.value.query).Ok? &&
             invoke(res.value.operation, doc, res.value.query).value.Some?
    ensures var doc := ParseBody(request.body).value;
            var res := Resolve(ApplyRequestDefaults(request.query, doc, settings), doc, settings, versionNumber).value;
            var produced := invoke(res.operation, doc, res.query);
            Handle(request, settings, versionNumber, invoke, cached) ==
              Outcome(Finish(produced, res.query), cached[CacheKey(request, doc) := produced.value.value])
  {
  }

  /** The cache only gains entries: an entry is never replaced, and the one
      entry added is the handler's non-null result for a cache-enabled
      operation, under the request's key. */
  lemma {:induction false} CacheOnlyGains(request: HttpRequest, settings: ServiceSettings, versionNumber: VersionNumber,
                                          invoke: Invoke, cached: map<string, OperationResult>)
    ensures var after := Handle(request, settings, versionNumber, invoke, cached).cache;
            forall k :: k in cached ==> k in after && after[k] == cached[k]
    ensures var after := Handle(request, settings, versionNumber, invoke, cached).cache;
            after != cached ==>
              !request.body.Unparsable? &&
              var doc := ParseBody(request.body).value;
              var res := Resolve(ApplyRequestDefaults(request.query, doc, settings), doc, settings, versionNumber);
              res.Ok? && res.value.operation.cacheEnabled &&
              var key := CacheKey(request, doc);
              key !in cached &&
              invoke(res.value.operation, doc, res.value.query).Ok? &&
              invoke(res.value.operation, doc, res.value.query).value.Some? &&
              after == cached[key := invoke(res.value.operation, doc, res.value.query).value.value]
  {
    if !request.body.Unparsable? {
      var doc := ParseBody(request.body).value;
      var res := Resolve(ApplyRequestDefaults(request.query, doc, settings), doc, settings, versionNumber);
      if res.Ok? {
        ServeOnlyGains(res.value, doc, CacheKey(request, doc), invoke, cached);
      }
    }
  }

  /** The result cache the current handler shares with the operations. */
  class ResultCache {
    var entries: map<string, OperationResult>

    constructor ()
      ensures entries == map[]
    {
      entries := map[];
    }

    /** Cache.Set without expiration options. */
    method Set(key: string, value: OperationResult)
      modifies this
      ensures entries == old(entries)[key := value]
    {
      entries := entries[key := value];
    }
  }

  /** Handler/OwsHttpRequestHandler: the request handler with its result
      cache and the service configuration it dispatches on. */
  class OwsHttpRequestHandler {
    const cache: ResultCache
    const settings: ServiceSettings

    constructor (cache: ResultCache, settings: ServiceSettings)
      ensures this.cache == cache && this.settings == settings
    {
      this.cache := cache;
      this.settings := settings;
    }

    /** ProcessRequest: no exception escapes; the result and the new cache
        contents are those of Handle. */
    method ProcessRequest(request: HttpRequest, versionNumber: VersionNumber, invoke: Invoke)
      returns (result: Option<OperationResult>)
      modifies cache
      ensures Outcome(result, cache.entries) == Handle(request, settings, versionNumber, invoke, old(cache.entries))
    {
      var parsed := ParseBody(request.body);
      if parsed.Err? {
        return Some(ErrorResult(parsed.error));
      }
      var doc := parsed.value;
      var query := ApplyRequestDefaults(request.query, doc, settings);
      var operation := GetServiceOperation(doc, query, settings.services, versionNumber);
      if operation.Err? {
        return Some(ErrorResult(operation.error));
      }
      var op := operation.value;
      query := AddOperationDefaults(query, op.defaultValues);
      var key := "";
      var found: Option<OperationResult> := None;
      if op.cacheEnabled {
        key := CacheKey(request, doc);
        if key in cache.entries {
          found := Some(cache.entries[key]);
        }
      }
      var produced: Result<Option<OperationResult>>;
      if found.Some? {
        produced := Ok(found);
      } else {
        produced := invoke(op, doc, query);
        if produced.Ok? && produced.value.Some? && op.cacheEnabled {
          cache.Set(key, produced.value.value);
        }
      }
      result := Finish(produced, query);
    }
  }

  /** ProcessRequest of the older handler: the document is not guarded, and
      the cache is read but never written. */
  function LegacyHandle(request: HttpRequest, settings: ServiceSettings, versionNumber: VersionNumber, invoke: Invoke,
                        cached: map<string, OperationResult>): Option<OperationResult>
  {
    match ParseBody(request.body)
    case Err(f) => Some(ErrorResult(f))
    case Ok(doc) =>
      match LegacyRequestDefaults(request.query, doc, settings)
      case Err(f) => Some(ErrorResult(f))
      case Ok(q) =>
        match Resolve(q, doc, settings, versionNumber)
        case Err(f) => Some(ErrorResult(f))
        case Ok(res) =>
          var key := CacheKey(request, doc);
          var hit := res.operation.cacheEnabled && key in cached;
          Finish(if hit then Ok(Some(cached[key])) else invoke(res.operation, doc, res.query), res.query)
  }

  /** Once the older handler's defaulting succeeds as the current one's
      does, the rest of the two pipelines agree on the result. */
  lemma LegacyAfterDefaults(request: HttpRequest, settings: ServiceSettings, versionNumber: VersionNumber, invoke: Invoke,
                            cached: map<string, OperationResult>)
    requires !request.body.Unparsable?
    requires var doc := ParseBody(request.body).value;
             LegacyRequestDefaults(request.query, doc, settings) == Ok(ApplyRequestDefaults(request.query, doc, settings))
    ensures LegacyHandle(request, settings, versionNumber, invoke, cached) == Handle(request, settings, versionNumber, invoke, cached).result
  {
    var doc := ParseBody(request.body).value;
    var q := ApplyRequestDefaults(request.query, doc, settings);
    var res := Resolve(q, doc, settings, versionNumber);
    if res.Ok? {
      var key := CacheKey(request, doc);
      var hit := res.value.operation.cacheEnabled && key in cached;
      var produced := if hit then Ok(Some(cached[key])) else invoke(res.value.operation, doc, res.value.query);
      assert LegacyHandle(request, settings, versionNumber, invoke, cached) == Finish(produced, res.value.query);
    }
  }

  /** The older handler answers as the current one does whenever there is a
      body or none of service, version and request is missing. */
  lemma LegacyAgrees(request: HttpRequest, settings: ServiceSettings, versionNumber: VersionNumber, invoke: Invoke,
                     cached: map<string, OperationResult>)
    requires !request.body.NoBody? ||
             (Get(request.query, "service").Some? && Get(request.query, "version").Some? && Get(request.query, "request").Some?)
    ensures LegacyHandle(request, settings, versionNumber, invoke, cached) == Handle(request, settings, versionNumber, invoke, cached).result
  {
    if !request.body.Unparsable? {
      LegacyDefaultsAgree(request.query, ParseBody(request.body).value, settings);
      LegacyAfterDefaults(request, settings, versionNumber, invoke, cached);
    }
  }

  /** A body-less request missing service, version or request dereferences
      the null document in the older handler and ends in the
      "Application error." report. */
  lemma LegacyNullDocument(request: HttpRequest, settings: ServiceSettings, versionNumber: VersionNumber, invoke: Invoke,
                           cached: map<string, OperationResult>)
    requires request.body.NoBody?
    requires Get(request.query, "service").None? || Get(request.query, "version").None? || Get(request.query, "request").None?
    ensures LegacyHandle(request, settings, versionNumber, invoke, cached) == Some(OperationResult(Report(ApplicationError), ApplicationXml))
  {
    LegacyDefaultsAgree(request.query, None, settings);
  }

  /** OwsHttpRequestHandler.ProcessRequest (the older, static variant): the
      cache is only read. */
  method LegacyProcessRequest(request: HttpRequest, settings: ServiceSettings, cache: ResultCache,
                              versionNumber: VersionNumber, invoke: Invoke)
    returns (result: Option<OperationResult>)
    ensures result == LegacyHandle(request, settings, versionNumber, invoke, cache.entries)
  {
    var parsed := ParseBody(request.body);
    if parsed.Err? {
      return Some(ErrorResult(parsed.error));
    }
    var doc := parsed.value;
    var defaulted := LegacyRequestDefaults(request.query, doc, settings);
    if defaulted.Err? {
      return Some(ErrorResult(defaulted.error));
    }
    var operation := GetServiceOperation(doc, defaulted.value, settings.services, versionNumber);
    if operation.Err? {
      return Some(ErrorResult(operation.error));
    }
    var op := operation.value;
    var query := AddOperationDefaults(defaulted.value, op.defaultValues);
    var produced: Result<Option<OperationResult>>;
    if op.cacheEnabled && CacheKey(request, doc) in cache.entries {
      produced := Ok(Some(cache.entries[CacheKey(request, doc)]));
    } else {
      produced := invoke(op, doc, query);
    }
    result := Finish(produced, query);
  }
}
