/** Sos/GetCapabilitiesOperation.cs: the GetCapabilities operation of the
    OWS services (section 7.3 of OGC 06-121r3, OWS Common 1.1): output format
    and version negotiation, section selection, and the operations metadata
    built from the service configuration. */
module Capabilities {
  import opened Common
  import opened OwsTypes

  /** _supportedFormats, in order of preference. */
  const SupportedFormats: seq<OutputFormat> := [TextXml, ApplicationXml]

  /** The five sections ProcessRequest can fill, by their exact names. */
  const SectionNames: seq<string> := ["ServiceIdentification", "ServiceProvider", "OperationsMetadata", "Contents", "Filter_Capabilities"]

  /** The request payload: a GetCapabilities request, whose lists may each be
      absent, or a payload of another type. */
  datatype Payload =
    | GetCapabilities(acceptVersions: Option<seq<string>>, acceptFormats: Option<seq<string>>, sections: Option<seq<string>>)
    | OtherPayload

  /** Some accepted format, trimmed, is the string value of `f`. */
  predicate Named(f: OutputFormat, accept: seq<string>) {
    exists af :: af in accept && FormatName(f) == Trim(af)
  }

  /** formats[i] is named by an accepted format and no earlier one is. */
  predicate FirstAt(formats: seq<OutputFormat>, i: int, accept: seq<string>) {
    0 <= i < |formats| && Named(formats[i], accept) && forall j :: 0 <= j < i ==> !Named(formats[j], accept)
  }

  /** A first named format of the tail, behind an unnamed head, is the
      first named format of the whole list. */
  lemma FirstAtShift(formats: seq<OutputFormat>, i: int, accept: seq<string>)
    requires |formats| > 0 && !Named(formats[0], accept) && FirstAt(formats[1..], i, accept)
    ensures FirstAt(formats, i + 1, accept) && formats[i + 1] == formats[1..][i]
  {
    assert forall j :: 1 <= j < |formats| ==> formats[j] == formats[1..][j - 1];
  }

  /** The first of `formats` whose string value equals some trimmed accepted
      format. */
  function FirstAccepted(formats: seq<OutputFormat>, accept: seq<string>): (r: Option<OutputFormat>)
    ensures r.None? <==> forall i :: 0 <= i < |formats| ==> !Named(formats[i], accept)
    ensures r.Some? ==> exists i :: FirstAt(formats, i, accept) && formats[i] == r.value
  {
    if formats == [] then None
    else if Named(formats[0], accept) then
      assert FirstAt(formats, 0, accept);
      Some(formats[0])
    else
      var tail := formats[1..];
      var r := FirstAccepted(tail, accept);
      if r.Some? then
        var i :| FirstAt(tail, i, accept) && tail[i] == r.value;
        FirstAtShift(formats, i, accept);
        r
      else r
  }

  /** The output format of the result: the first supported format named by
      an accepted format, else the default application/xml. */
  function NegotiatedFormat(acceptFormats: Option<seq<string>>): (f: OutputFormat)
    ensures acceptFormats.None? ==> f == ApplicationXml
    ensures (exists af :: acceptFormats.Some? && af in acceptFormats.value && Trim(af) == "text/xml") ==> f == TextXml
    ensures f == TextXml ==> acceptFormats.Some? && exists af :: af in acceptFormats.value && Trim(af) == "text/xml"
  {
    if acceptFormats.None? then ApplicationXml
    else
      var r := FirstAccepted(SupportedFormats, acceptFormats.value);
      assert FormatName(SupportedFormats[0]) == "text/xml";
      if r.Some? then r.value else ApplicationXml
  }

  /** The loop over AcceptFormats that stops at the first entry TryParseEnum
      accepts. */
  method AnyFormatParses(formats: seq<string>, parses: string -> bool) returns (found: bool)
    ensures found <==> exists f :: f in formats && parses(f)
  {
    found := false;
    var i := 0;
    while i < |formats|
      invariant 0 <= i <= |formats|
      invariant forall j :: 0 <= j < i ==> !parses(formats[j])
    {
      if parses(formats[i]) {
        found := true;
        break;
      }
      i := i + 1;
    }
  }

  /** The validation of ProcessRequest, in the order the source checks: the
      payload type, then the accepted versions, then the accepted formats.
      The result is the negotiated output format. */
  function Negotiate(p: Payload, capabilitiesVersion: string, requestType: string, parses: string -> bool): (r: Result<OutputFormat>)
    ensures p.OtherPayload? ==> r.Err? && r.error.Ogc? && r.error.error.NoApplicableCode?
    ensures p.GetCapabilities? && p.acceptVersions.Some? && capabilitiesVersion !in p.acceptVersions.value ==>
              r == Err(Ogc(VersionNegotiation("Only '" + capabilitiesVersion + "' version is supported")))
    ensures r.Ok? <==> p.GetCapabilities? &&
                       (p.acceptVersions.None? || capabilitiesVersion in p.acceptVersions.value) &&
                       (p.acceptFormats.None? || exists f :: f in p.acceptFormats.value && parses(f))
    ensures r.Ok? ==> r.value == NegotiatedFormat(p.acceptFormats)
  {
    if p.OtherPayload? then Err(Ogc(NoApplicableCode("Type '" + requestType + "' is invalid request type.")))
    else if p.acceptVersions.Some? && capabilitiesVersion !in p.acceptVersions.value then
      Err(Ogc(VersionNegotiation("Only '" + capabilitiesVersion + "' version is supported")))
    else if p.acceptFormats.Some? && !(exists f :: f in p.acceptFormats.value && parses(f)) then
      Err(Ogc(InvalidParameterValue("Provided accept formats are not supported", "")))
    else Ok(NegotiatedFormat(p.acceptFormats))
  }

  /** A section is filled when no Sections list is given or the list holds
      its exact name. */
  predicate Wants(sections: Option<seq<string>>, name: string) {
    sections.None? || name in sections.value
  }

  /** "All" is not special-cased: asking only for it fills no section. */
  lemma AllSelectsNothing(name: string)
    requires name in SectionNames
    ensures !Wants(Some(["All"]), name)
  {
  }

  /** An operation entry of ows:OperationsMetadata. */
  datatype Operation = Operation(name: string, dcps: seq<string>, parameters: seq<DomainType>,
                                 constraints: seq<DomainType>, metadata: seq<string>)

  datatype OperationsMetadata = OperationsMetadata(operations: seq<Operation>, parameters: seq<DomainType>)

  /** What the handler instance of a configured operation reports about
      itself; each collection may be null. */
  datatype OperationDescription = OperationDescription(
    dcps: Option<seq<string>>, parameters: Option<seq<DomainType>>,
    constraints: Option<seq<DomainType>>, metadata: Option<seq<string>>)

  /** Creating a configured operation's handler and reading its
      description; creation throws for an unknown handler type. */
  type Describe = ServiceOperation -> Result<OperationDescription>

  /** The capabilities document; Filter_Capabilities is never filled. */
  datatype CapabilitiesDocument = CapabilitiesDocument(
    version: string, serviceProvider: Option<string>, serviceIdentification: Option<string>,
    operationsMetadata: Option<OperationsMetadata>, filterCapabilities: Option<string>, contents: Option<seq<string>>)

  /** The operations configured for the service (exact service name) whose
      version number is not negative: the ones SupportedVersions selects. */
  predicate Versioned(o: ServiceOperation, serviceName: string, versionNumber: VersionNumber) {
    o.service == serviceName && versionNumber(Some(o.version)) > -1
  }

  /** The versions of the Versioned operations, one per operation, in
      configuration order. */
  function ServiceVersions(services: seq<ServiceOperation>, serviceName: string, versionNumber: VersionNumber): (vs: seq<string>)
    ensures forall v :: v in vs <==> exists o :: o in services && o.service == serviceName && o.version == v &&
                                                   versionNumber(Some(v)) > -1
  {
    if services == [] then []
    else
      var n := |services| - 1;
      var init := ServiceVersions(services[..n], serviceName, versionNumber);
      var o := services[n];
      assert services == services[..n] + [o];
      if Versioned(o, serviceName, versionNumber) then init + [o.version] else init
  }

  /** ServiceVersions keeps configuration order: its k-th version is that
      of the configured operation at the k-th Versioned position. */
  lemma {:induction false} ServiceVersionsInOrder(services: seq<ServiceOperation>, serviceName: string, versionNumber: VersionNumber)
    ensures var idx := Positions(services, (o: ServiceOperation) => Versioned(o, serviceName, versionNumber));
            |ServiceVersions(services, serviceName, versionNumber)| == |idx| &&
            forall k :: 0 <= k < |idx| ==> ServiceVersions(services, serviceName, versionNumber)[k] == services[idx[k]].version
  {
    if services != [] {
      var n := |services| - 1;
      var init := services[..n];
      ServiceVersionsInOrder(init, serviceName, versionNumber);
      var p := (o: ServiceOperation) => Versioned(o, serviceName, versionNumber);
      var tail := if p(services[n]) then [n] else [];
      assert Positions(services, p) == Positions(init, p) + tail;
      assert ServiceVersions(services, serviceName, versionNumber) ==
             ServiceVersions(init, serviceName, versionNumber) + (if p(services[n]) then [services[n].version] else []);
      forall k | 0 <= k < |Positions(init, p)|
        ensures ServiceVersions(services, serviceName, versionNumber)[k] == services[Positions(services, p)[k]].version
      {
        assert ServiceVersions(services, serviceName, versionNumber)[k] == ServiceVersions(init, serviceName, versionNumber)[k]
               == init[Positions(init, p)[k]].version;
      }
    }
  }

  /** The configured operations whose service matches the name ignoring
      case, in configuration order. */
  function Matching(services: seq<ServiceOperation>, serviceName: string): (m: seq<ServiceOperation>)
    ensures |m| <= |services|
    ensures forall o :: o in m <==> o in services && EqualsIgnoreCase(o.service, serviceName)
  {
    if services == [] then []
    else
      var n := |services| - 1;
      var init := Matching(services[..n], serviceName);
      var o := services[n];
      assert services == services[..n] + [o];
      if EqualsIgnoreCase(o.service, serviceName) then init + [o] else init
  }

  /** Matching keeps configuration order: its k-th operation is the
      configured operation at the k-th position whose service matches. */
  lemma {:induction false} MatchingInOrder(services: seq<ServiceOperation>, serviceName: string)
    ensures var idx := Positions(services, (o: ServiceOperation) => EqualsIgnoreCase(o.service, serviceName));
            |Matching(services, serviceName)| == |idx| &&
            forall k :: 0 <= k < |idx| ==> Matching(services, serviceName)[k] == services[idx[k]]
  {
    if services != [] {
      var n := |services| - 1;
      var init := services[..n];
      MatchingInOrder(init, serviceName);
      var p := (o: ServiceOperation) => EqualsIgnoreCase(o.service, serviceName);
      var tail := if p(services[n]) then [n] else [];
      assert Positions(services, p) == Positions(init, p) + tail;
      assert Matching(services, serviceName) == Matching(init, serviceName) + (if p(services[n]) then [services[n]] else []);
      forall k | 0 <= k < |Positions(init, p)|
        ensures Matching(services, serviceName)[k] == services[Positions(services, p)[k]]
      {
        assert Matching(services, serviceName)[k] == Matching(init, serviceName)[k] == init[Positions(init, p)[k]];
      }
    }
  }

  /** The operation entry built from a handler description: a null
      collection contributes nothing. */
  function OperationEntry(o: ServiceOperation, d: OperationDescription): Operation {
    Operation(o.operation,
              if d.dcps.Some? then d.dcps.value else [],
              if d.parameters.Some? then d.parameters.value else [],
              if d.constraints.Some? then d.constraints.value else [],
              if d.metadata.Some? then d.metadata.value else [])
  }

  /** The operation entries for the configured operations, or the first
      handler creation that throws. */
  function Operations(services: seq<ServiceOperation>, serviceName: string, describe: Describe): (r: Result<seq<Operation>>)
    ensures r.Ok? <==> forall o :: o in Matching(services, serviceName) ==> describe(o).Ok?
    ensures r.Ok? ==> |r.value| == |Matching(services, serviceName)|
    ensures r.Ok? ==> forall i :: 0 <= i < |r.value| ==>
                        r.value[i] == OperationEntry(Matching(services, serviceName)[i], describe(Matching(services, serviceName)[i]).value)
  {
    if services == [] then Ok([])
    else
      var init := services[..|services| - 1];
      var o := services[|services| - 1];
      assert services == init + [o];
      assert forall x :: x in Matching(services, serviceName) <==> x in Matching(init, serviceName) || (x == o && EqualsIgnoreCase(o.service, serviceName));
      match Operations(init, serviceName, describe)
      case Err(f) => Err(f)
      case Ok(ops) =>
        if !EqualsIgnoreCase(o.service, serviceName) then Ok(ops)
        else match describe(o)
          case Err(f) => Err(f)
          case Ok(d) => Ok(ops + [OperationEntry(o, d)])
  }

  class GetCapabilitiesOperation {
    /** Configuration.Service of this operation. */
    const serviceName: string
    const services: seq<ServiceOperation>
    const versionNumber: VersionNumber
    /** The Version a new Capabilities document carries. */
    const capabilitiesVersion: string
    /** _supportedVersions: null until first computed. */
    var supportedVersions: Option<seq<string>>

    /** The memo holds, once set, the distinct supported versions. */
    predicate Valid()
      reads this
    {
      supportedVersions.Some? ==> supportedVersions.value == Distinct(ServiceVersions(services, serviceName, versionNumber))
    }

    constructor (serviceName: string, services: seq<ServiceOperation>, versionNumber: VersionNumber, capabilitiesVersion: string)
      ensures Valid() && supportedVersions.None?
      ensures this.serviceName == serviceName && this.services == services
      ensures this.versionNumber == versionNumber && this.capabilitiesVersion == capabilitiesVersion
    {
      this.serviceName := serviceName;
      this.services := services;
      this.versionNumber := versionNumber;
      this.capabilitiesVersion := capabilitiesVersion;
      supportedVersions := None;
    }

    /** SupportedVersions: computed on first use and kept. */
    method SupportedVersions() returns (vs: seq<string>)
      requires Valid()
      modifies this`supportedVersions
      ensures Valid() && supportedVersions == Some(vs)
      ensures vs == Distinct(ServiceVersions(services, serviceName, versionNumber))
    {
      if supportedVersions.None? {
        supportedVersions := Some(Distinct(ServiceVersions(services, serviceName, versionNumber)));
      }
      vs := supportedVersions.value;
    }

    /** OperationParameters: updateSequence with any value, AcceptFormats
        with the supported formats, AcceptVersions with the supported
        versions and Sections with the five section names and "All". */
    method OperationParameters() returns (parameters: seq<DomainType>)
      requires Valid()
      modifies this`supportedVersions
      ensures Valid()
      ensures |parameters| == 4
      ensures parameters[0] == DomainType("updateSequence", [], true)
      ensures parameters[1] == DomainType("AcceptFormats", ["text/xml", "application/xml"], false)
      ensures parameters[2] == DomainType("AcceptVersions", Distinct(ServiceVersions(services, serviceName, versionNumber)), false)
      ensures parameters[3] == DomainType("Sections", SectionNames + ["All"], false)
    {
      var formats: seq<string> := [];
      for i := 0 to |SupportedFormats|
        invariant |formats| == i
        invariant forall j :: 0 <= j < i ==> formats[j] == FormatName(SupportedFormats[j])
      {
        formats := formats + [FormatName(SupportedFormats[i])];
      }
      var versions := SupportedVersions();
      var allowed: seq<string> := [];
      for i := 0 to |versions|
        invariant allowed == versions[..i]
      {
        allowed := allowed + [versions[i]];
      }
      assert versions[..|versions|] == versions;
      parameters := [DomainType("updateSequence", [], true),
                     DomainType("AcceptFormats", formats, false),
                     DomainType("AcceptVersions", allowed, false),
                     DomainType("Sections", ["ServiceIdentification", "ServiceProvider", "OperationsMetadata", "Contents",
                                             "Filter_Capabilities", "All"], false)];
    }

    /** GetOperationsMetadata: one entry per configured operation whose
        service matches this service ignoring case, in configuration order,
        then the service and version parameters. */
    method GetOperationsMetadata(describe: Describe) returns (r: Result<OperationsMetadata>)
      requires Valid()
      modifies this`supportedVersions
      ensures Valid()
      ensures Operations(services, serviceName, describe).Err? ==> r == Err(Operations(services, serviceName, describe).error)
      ensures Operations(services, serviceName, describe).Ok? ==>
                r == Ok(OperationsMetadata(Operations(services, serviceName, describe).value,
                                           [DomainType("service", [serviceName], false),
                                            DomainType("version", Distinct(ServiceVersions(services, serviceName, versionNumber)), false)]))
    {
      var ops: seq<Operation> := [];
      for i := 0 to |services|
        invariant Operations(services[..i], serviceName, describe) == Ok(ops)
      {
        assert services[..i + 1][..i] == services[..i];
        var o := services[i];
        if EqualsIgnoreCase(o.service, serviceName) {
          var d := describe(o);
          if d.Err? {
            assert services[..i + 1][i] == o;
            OperationsErrorPersists(services, i + 1, serviceName, describe);
            return Err(d.error);
          }
          ops := ops + [OperationEntry(o, d.value)];
        }
      }
      assert services[..|services|] == services;
      var versions := SupportedVersions();
      r := Ok(OperationsMetadata(ops, [DomainType("service", [serviceName], false), DomainType("version", versions, false)]));
    }

    /** The validation steps of ProcessRequest; the output format is chosen
        before the versions are checked, as in the source. */
    static method Validate(p: Payload, capabilitiesVersion: string, requestType: string, parses: string -> bool)
      returns (r: Result<OutputFormat>)
      ensures r == Negotiate(p, capabilitiesVersion, requestType, parses)
    {
      var format := ApplicationXml;
      if p.OtherPayload? {
        return Err(Ogc(NoApplicableCode("Type '" + requestType + "' is invalid request type.")));
      }
      if p.acceptFormats.Some? {
        var chosen := FirstAccepted(SupportedFormats, p.acceptFormats.value);
        if chosen.Some? {
          format := chosen.value;
        }
      }
      if p.acceptVersions.Some? && capabilitiesVersion !in p.acceptVersions.value {
        return Err(Ogc(VersionNegotiation("Only '" + capabilitiesVersion + "' version is supported")));
      }
      if p.acceptFormats.Some? {
        var found := AnyFormatParses(p.acceptFormats.value, parses);
        if !found {
          return Err(Ogc(InvalidParameterValue("Provided accept formats are not supported", "")));
        }
      }
      r := Ok(format);
    }

    /** ProcessRequest: validation (Negotiate), then the wanted sections;
        GetOperationsMetadata runs only when its section is wanted. */
    method ProcessRequest(p: Payload, requestType: string, parses: string -> bool, provider: string, identification: string,
                          offerings: seq<string>, describe: Describe)
      returns (r: Result<(CapabilitiesDocument, OutputFormat)>)
      requires Valid()
      modifies this`supportedVersions
      ensures Valid()
      ensures Negotiate(p, capabilitiesVersion, requestType, parses).Err? ==>
                r == Err(Negotiate(p, capabilitiesVersion, requestType, parses).error)
      ensures Negotiate(p, capabilitiesVersion, requestType, parses).Ok? ==>
                (r.Err? <==> Wants(p.sections, "OperationsMetadata") && Operations(services, serviceName, describe).Err?)
      ensures r.Ok? ==> Negotiate(p, capabilitiesVersion, requestType, parses) == Ok(r.value.1)
      ensures r.Ok? ==> var doc := r.value.0;
                        doc.version == capabilitiesVersion &&
                        doc.serviceProvider == (if Wants(p.sections, "ServiceProvider") then Some(provider) else None) &&
                        doc.serviceIdentification == (if Wants(p.sections, "ServiceIdentification") then Some(identification) else None) &&
                        (doc.operationsMetadata.Some? <==> Wants(p.sections, "OperationsMetadata")) &&
                        (doc.operationsMetadata.Some? ==> Operations(services, serviceName, describe) == Ok(doc.operationsMetadata.value.operations)) &&
                        doc.contents == (if Wants(p.sections, "Contents") then Some(offerings) else None) &&
                        doc.filterCapabilities.None?
    {
      var format := Validate(p, capabilitiesVersion, requestType, parses);
      if format.Err? {
        return Err(format.error);
      }
      var metadata: Option<OperationsMetadata> := None;
      if Wants(p.sections, "OperationsMetadata") {
        var om := GetOperationsMetadata(describe);
        if om.Err? {
          return Err(om.error);
        }
        metadata := Some(om.value);
      }
      // GetFilterCapabilities returns null, so that section stays empty even when asked for.
      var doc := CapabilitiesDocument(
        capabilitiesVersion,
        if Wants(p.sections, "ServiceProvider") then Some(provider) else None,
        if Wants(p.sections, "ServiceIdentification") then Some(identification) else None,
        metadata,
        None,
        if Wants(p.sections, "Contents") then Some(offerings) else None);
      r := Ok((doc, format.value));
    }
  }

  /** A handler that throws within a prefix of the configuration decides
      the outcome for the whole configuration. */
  lemma {:induction false} OperationsErrorPersists(services: seq<ServiceOperation>, n: nat, serviceName: string, describe: Describe)
    requires n <= |services| && Operations(services[..n], serviceName, describe).Err?
    ensures Operations(services, serviceName, describe) == Operations(services[..n], serviceName, describe)
    decreases |services| - n
  {
    if n < |services| {
      var init := services[..|services| - 1];
      assert init[..n] == services[..n];
      OperationsErrorPersists(init, n, serviceName, describe);
    } else {
      assert services[..n] == services;
    }
  }
}
