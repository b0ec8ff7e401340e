/** Sos/DescribeSensorOperation.cs: the SOS DescribeSensor operation, which
    hands back the stored description of one sensor in the one output
    format it knows, and advertises the sensors it serves. */
module DescribeSensor {
  import opened Common
  import opened OwsTypes
  import opened UrnManagers

  /** The only output formatter key, written with a trailing double quote. */
  const SensorMLFormat := "http://www.opengis.net/sensorML/2.0.0\""

  /** GetSensorML: the SensorML formatter returns the description itself. */
  function GetSensorML(sensorInfo: DescribedObject): (r: DescribedObject)
    ensures r == sensorInfo
  {
    sensorInfo
  }

  /** The payload handed to the operation: a swes:DescribeSensor request
      (procedure and procedureDescriptionFormat, each possibly null) or a
      request of another type, known by its type name. */
  datatype SosPayload =
    | DescribeSensorRequest(procedure: Option<string>, procedureDescriptionFormat: Option<string>)
    | OtherRequest(typeName: string)

  /** ProcessRequest over the sensors the entities factory returns and the
      formatter keys: the payload type is checked, then the procedure, then
      the format. A null payload, procedure or format throws from the call
      made on it. */
  function ProcessRequest(payload: Option<SosPayload>, sensors: seq<(string, DescribedObject)>, formats: seq<string>)
    : (r: Result<DescribedObject>)
    ensures payload.None? ==> r == Err(NullReference)
    ensures payload.Some? && payload.value.OtherRequest? ==>
              r == Err(Ogc(NoApplicableCode("Type '" + payload.value.typeName + "' is not supported by DescribeRequest operation.")))
    ensures r.Ok? ==> payload.Some? && payload.value.DescribeSensorRequest? &&
                      payload.value.procedure.Some? && payload.value.procedureDescriptionFormat.Some? &&
                      payload.value.procedure.value in Keys(sensors) &&
                      payload.value.procedureDescriptionFormat.value in formats &&
                      (payload.value.procedure.value, r.value) in sensors
  {
    match payload
    case None => Err(NullReference)
    case Some(OtherRequest(name)) =>
      Err(Ogc(NoApplicableCode("Type '" + name + "' is not supported by DescribeRequest operation.")))
    case Some(DescribeSensorRequest(procedure, format)) =>
      if procedure.None? then Err(ArgumentNull)
      else
        match Find(sensors, procedure.value)
        case None => Err(Ogc(InvalidParameterValue("procedure", procedure.value)))
        case Some(sensor) =>
          if format.None? then Err(ArgumentNull)
          else if format.value !in formats then Err(Ogc(InvalidParameterValue("outputFormat", format.value)))
          else Ok(GetSensorML(sensor))
  }

  /** With the one SensorML formatter, a DescribeSensor request succeeds
      exactly when its procedure names a sensor and its format is the
      SensorML key; the answer is then that sensor's stored description. */
  lemma DescribeSensorOkIff(sensors: seq<(string, DescribedObject)>, procedure: string, format: string)
    requires UniqueKeys(sensors)
    ensures var r := ProcessRequest(Some(DescribeSensorRequest(Some(procedure), Some(format))), sensors, [SensorMLFormat]);
            (r.Ok? <==> procedure in Keys(sensors) && format == SensorMLFormat) &&
            (r.Ok? ==> Some(r.value) == Find(sensors, procedure))
  {
    var r := ProcessRequest(Some(DescribeSensorRequest(Some(procedure), Some(format))), sensors, [SensorMLFormat]);
    if procedure in Keys(sensors) {
      var i :| 0 <= i < |Keys(sensors)| && Keys(sensors)[i] == procedure;
      FindStored(sensors, i);
    }
  }

  /** The procedure is checked before the format: a null procedure throws
      from ContainsKey whatever format is asked for, an unknown one is
      reported as such, and only for a known one is the format looked at;
      a null format then throws from ContainsKey, and any other format than
      a formatter key is reported on outputFormat. */
  lemma ProcedureCheckedFirst(sensors: seq<(string, DescribedObject)>, formats: seq<string>, procedure: string, format: Option<string>)
    ensures ProcessRequest(Some(DescribeSensorRequest(None, format)), sensors, formats) == Err(ArgumentNull)
    ensures procedure in Keys(sensors) ==>
              ProcessRequest(Some(DescribeSensorRequest(Some(procedure), None)), sensors, formats) == Err(ArgumentNull)
    ensures procedure !in Keys(sensors) ==>
              ProcessRequest(Some(DescribeSensorRequest(Some(procedure), format)), sensors, formats)
                == Err(Ogc(InvalidParameterValue("procedure", procedure)))
    ensures procedure in Keys(sensors) && format.Some? && format.value !in formats ==>
              ProcessRequest(Some(DescribeSensorRequest(Some(procedure), format)), sensors, formats)
                == Err(Ogc(InvalidParameterValue("outputFormat", format.value)))
  {
    if procedure in Keys(sensors) {
      var i :| 0 <= i < |Keys(sensors)| && Keys(sensors)[i] == procedure;
      assert sensors[i].0 == procedure;
    }
  }

  /** The SensorId values advertised for the given sensor names: the text
      of GetSensorUrn of each name. */
  function SensorIdValues(esc: Escape, canon: Canonical, names: seq<string>): (r: seq<string>)
    ensures |r| == |names|
    ensures forall i :: 0 <= i < |names| ==> r[i] == UriString(esc, canon, GetUrnName(esc, "sensor", names[i]))
  {
    if names == [] then []
    else SensorIdValues(esc, canon, names[..|names| - 1]) + [UriString(esc, canon, GetUrnName(esc, "sensor", names[|names| - 1]))]
  }

  /** As long as escaping never shortens a text and the canonical text of
      the sensor's URN decodes the escapes of its name, the SensorId
      advertised for a sensor is never the sensor's own name, which is what
      the procedure check compares against. */
  lemma AdvertisedIdIsNotName(esc: Escape, canon: Canonical, name: string)
    requires forall s :: |esc(s)| >= |s|
    requires canon(GetUrnName(esc, "sensor", name)) == UrnPrefix + "sensor" + UrnVersion + name
    ensures UriString(esc, canon, GetUrnName(esc, "sensor", name)) != name
  {
    var text := canon(GetUrnName(esc, "sensor", name));
    assert |esc(text)| >= |text| > |name|;
  }

  /** So a request naming an advertised SensorId that is not also a sensor
      name is refused on its procedure. */
  lemma AdvertisedIdRefused(esc: Escape, canon: Canonical, sensors: seq<(string, DescribedObject)>, formats: seq<string>, name: string, format: Option<string>)
    requires UriString(esc, canon, GetUrnName(esc, "sensor", name)) !in Keys(sensors)
    ensures var id := UriString(esc, canon, GetUrnName(esc, "sensor", name));
            ProcessRequest(Some(DescribeSensorRequest(Some(id), format)), sensors, formats)
              == Err(Ogc(InvalidParameterValue("procedure", id)))
  {
    ProcedureCheckedFirst(sensors, formats, UriString(esc, canon, GetUrnName(esc, "sensor", name)), format);
  }

  class DescribeSensorOperation {
    const urns: UrnManager
    var outputFormatters: Option<seq<string>>

    constructor (urns: UrnManager)
      ensures this.urns == urns && outputFormatters.None?
    {
      this.urns := urns;
      outputFormatters := None;
    }

    /** OutputFormatters: built on first use, with the SensorML key alone. */
    method OutputFormatters() returns (r: seq<string>)
      requires outputFormatters.Some? ==> outputFormatters.value == [SensorMLFormat]
      modifies this`outputFormatters
      ensures r == [SensorMLFormat]
      ensures outputFormatters == Some(r)
      ensures old(outputFormatters).Some? ==> outputFormatters == old(outputFormatters)
    {
      if outputFormatters.None? {
        outputFormatters := Some([SensorMLFormat]);
      }
      r := outputFormatters.value;
    }

    /** OperationParameters: SensorId with the URN text of each sensor name,
        in order, and outputFormat with the formatter keys. Reading the
        sensor names may build the sensor map, which throws at the first
        sensor whose identifier or identifier value is null. */
    method OperationParameters() returns (r: Result<seq<DomainType>>)
      requires urns.Valid()
      requires outputFormatters.Some? ==> outputFormatters.value == [SensorMLFormat]
      modifies urns`urnSensorNames, urns.cache`sensorNames, this`outputFormatters
      ensures urns.Valid()
      ensures r.Ok? <==> SensorMap(urns.esc, urns.entities).Ok?
      ensures r.Err? ==> exists i :: FailsFirstAt(SensorIdentifiers(urns.entities.sensors), i, r.error)
      ensures r.Ok? ==> r.value == [DomainType("SensorId", SensorIdValues(urns.esc, urns.canon, Keys(urns.entities.sensors)), false),
                                    DomainType("outputFormat", [SensorMLFormat], false)]
    {
      var names := urns.SensorNames();
      if names.Err? {
        return Err(names.error);
      }
      var allowed: seq<string> := [];
      for i := 0 to |names.value|
        invariant allowed == SensorIdValues(urns.esc, urns.canon, names.value[..i])
      {
        assert names.value[..i + 1][..i] == names.value[..i];
        allowed := allowed + [UriString(urns.esc, urns.canon, urns.GetSensorUrn(names.value[i]))];
      }
      assert names.value[..|names.value|] == names.value;
      var formats := OutputFormatters();
      r := Ok([DomainType("SensorId", allowed, false), DomainType("outputFormat", formats, false)]);
    }
  }
}
