/** Sos/DefaultUrnManager.cs and Sos/BaseUrnManager.cs: the URNs the SOS
    operations give to sensors, observed properties and features of
    interest, the memoised name-to-URN maps, and the URN-to-name lookup
    that inverts them. */
module UrnManagers {
  import opened Common

  // ---------------------------------------------------------------------
  // URN construction (DefaultUrnManager)

  /** Uri.EscapeUriString, whose body is not part of this model. */
  type Escape = string -> string

  const UrnPrefix := "urn:terradue:cp:"
  const UrnVersion := ":1.0.0:"

  /** GetUrnName: the text of the URN built for a name and a value. */
  function GetUrnName(esc: Escape, name: string, value: string): (urn: string)
    ensures IsPrefix(UrnPrefix, urn)
    ensures |urn| == |UrnPrefix| + |esc(name)| + |UrnVersion| + |esc(value)|
  {
    UrnPrefix + esc(name) + UrnVersion + esc(value)
  }

  /** Uri.ToString, the canonical text of a URI, in which escapes other
      than those of '#', '?' and '%' are decoded; its body is not part of
      this model. */
  type Canonical = string -> string

  /** UriHelper.ToString: the canonical text of the URN, escaped again. */
  function UriString(esc: Escape, canon: Canonical, urn: string): string {
    esc(canon(urn))
  }

  /** The first position of c in s. */
  function FirstIndex(s: string, c: char): (r: Option<nat>)
    ensures r.None? <==> c !in s
    ensures r.Some? ==> r.value < |s| && s[r.value] == c && c !in s[..r.value]
  {
    if s == [] then None
    else if s[0] == c then Some(0)
    else
      var r := FirstIndex(s[1..], c);
      if r.None? then None
      else
        assert s[..r.value + 1] == [s[0]] + s[1..][..r.value];
        Some(r.value + 1)
  }

  /** Reads a URN text back into its escaped name and value: the name ends at
      the first colon after the prefix, and the version segment follows. */
  function UrnParts(urn: string): (r: Option<(string, string)>)
    ensures r.Some? ==> urn == UrnPrefix + r.value.0 + UrnVersion + r.value.1 && ':' !in r.value.0
  {
    if !IsPrefix(UrnPrefix, urn) then None
    else
      var rest := urn[|UrnPrefix|..];
      match FirstIndex(rest, ':')
      case None => None
      case Some(i) =>
        if !IsPrefix(UrnVersion, rest[i..]) then None
        else
          Reassemble(urn, rest, i);
          Some((rest[..i], rest[i..][|UrnVersion|..]))
  }

  /** A URN cut after its prefix and at position i of the rest, where the
      version segment starts, is the concatenation of its pieces. */
  lemma Reassemble(urn: string, rest: string, i: nat)
    requires IsPrefix(UrnPrefix, urn) && rest == urn[|UrnPrefix|..]
    requires i <= |rest| && IsPrefix(UrnVersion, rest[i..])
    ensures urn == UrnPrefix + rest[..i] + UrnVersion + rest[i..][|UrnVersion|..]
  {
    assert urn == UrnPrefix + rest;
    assert rest == rest[..i] + rest[i..];
    assert rest[i..] == UrnVersion + rest[i..][|UrnVersion|..];
  }

  /** The first colon of a text is the one after a colon-free head. */
  lemma {:induction false} FirstIndexAfter(head: string, c: char, tail: string)
    requires c !in head
    ensures FirstIndex(head + [c] + tail, c) == Some(|head|)
  {
    if head != [] {
      assert (head + [c] + tail)[1..] == head[1..] + [c] + tail;
      FirstIndexAfter(head[1..], c, tail);
    }
  }

  /** The text after the URN prefix is the name, the version segment and
      the value. */
  lemma UrnRest(n: string, v: string)
    ensures (UrnPrefix + n + UrnVersion + v)[|UrnPrefix|..] == n + UrnVersion + v
  {
    assert UrnPrefix + n + UrnVersion + v == UrnPrefix + (n + UrnVersion + v);
  }

  /** In the rest of a URN whose name has no colon, the first colon opens
      the version segment. */
  lemma UrnRestColon(n: string, v: string)
    requires ':' !in n
    ensures FirstIndex(n + UrnVersion + v, ':') == Some(|n|)
  {
    assert UrnVersion == [':'] + UrnVersion[1..];
    assert n + UrnVersion + v == n + [':'] + (UrnVersion[1..] + v);
    FirstIndexAfter(n, ':', UrnVersion[1..] + v);
  }

  /** A URN built from a colon-free name and any value reads back as them. */
  lemma UrnPartsOf(n: string, v: string)
    requires ':' !in n
    ensures UrnParts(UrnPrefix + n + UrnVersion + v) == Some((n, v))
  {
    var urn := UrnPrefix + n + UrnVersion + v;
    var rest := n + UrnVersion + v;
    assert urn[..|UrnPrefix|] == UrnPrefix;
    UrnRest(n, v);
    assert urn[|UrnPrefix|..] == rest;
    UrnRestColon(n, v);
    assert rest == n + (UrnVersion + v);
    assert rest[..|n|] == n;
    assert rest[|n|..] == UrnVersion + v;
    assert IsPrefix(UrnVersion, rest[|n|..]);
    assert rest[|n|..][|UrnVersion|..] == v;
  }

  /** Round trip: a URN whose escaped name has no colon reads back as that
      escaped name and escaped value; the version segment is always 1.0.0. */
  lemma UrnRoundTrip(esc: Escape, name: string, value: string)
    requires ':' !in esc(name)
    ensures UrnParts(GetUrnName(esc, name, value)) == Some((esc(name), esc(value)))
  {
    UrnPartsOf(esc(name), esc(value));
  }

  /** Different escaped names or values give different URNs, as long as the
      escaped names have no colon. */
  lemma UrnNameInjective(esc: Escape, n1: string, v1: string, n2: string, v2: string)
    requires ':' !in esc(n1) && ':' !in esc(n2)
    requires GetUrnName(esc, n1, v1) == GetUrnName(esc, n2, v2)
    ensures esc(n1) == esc(n2) && esc(v1) == esc(v2)
  {
    UrnRoundTrip(esc, n1, v1);
    UrnRoundTrip(esc, n2, v2);
  }

  // ---------------------------------------------------------------------
  // The entities the SOS entities factory supplies

  /** The sensor's identifier (a CodeWithAuthorityType), whose Value may be null. */
  datatype Identifier = Identifier(value: Option<string>)

  /** A sensor description; only its identifier is read here, and it may be null. */
  datatype DescribedObject = DescribedObject(identifier: Option<Identifier>, content: string)

  /** The dictionaries SosEntitiesFactory returns: sensors by name, and the
      remote schema of each observed property and feature of interest. */
  datatype SosEntities = SosEntities(
    sensors: seq<(string, DescribedObject)>,
    properties: seq<(string, Option<string>)>,
    features: seq<(string, Option<string>)>)

  /** Each of them is a dictionary: no name occurs twice. */
  predicate EntitiesValid(e: SosEntities) {
    UniqueKeys(e.sensors) && UniqueKeys(e.properties) && UniqueKeys(e.features)
  }

  /** The text `x.Value.identifier.Value` hands to GetSensorUrn: a null
      identifier is dereferenced, and a null Value reaches
      Uri.EscapeUriString, which refuses it. */
  function IdentifierValue(d: DescribedObject): (r: Result<string>)
    ensures d.identifier.None? ==> r == Err(NullReference)
    ensures d.identifier.Some? && d.identifier.value.value.None? ==> r == Err(ArgumentNull)
    ensures r.Ok? <==> d.identifier.Some? && d.identifier.value.value.Some?
    ensures r.Ok? ==> r.value == d.identifier.value.value.value
  {
    match d.identifier
    case None => Err(NullReference)
    case Some(Identifier(None)) => Err(ArgumentNull)
    case Some(Identifier(Some(v))) => Ok(v)
  }

  /** The identifier value of each sensor, or the exception reading it throws. */
  function SensorIdentifiers(sensors: seq<(string, DescribedObject)>): (r: seq<(string, Result<string>)>)
    ensures |r| == |sensors|
    ensures forall i :: 0 <= i < |sensors| ==> r[i] == (sensors[i].0, IdentifierValue(sensors[i].1))
  {
    if sensors == [] then [] else [(sensors[0].0, IdentifierValue(sensors[0].1))] + SensorIdentifiers(sensors[1..])
  }

  /** The remote schema of each property or feature, a null one reaching
      Uri.EscapeUriString, which refuses it. */
  function Schemas(l: seq<(string, Option<string>)>): (r: seq<(string, Result<string>)>)
    ensures |r| == |l|
    ensures forall i :: 0 <= i < |l| ==> r[i].0 == l[i].0 && (r[i].1.Ok? <==> l[i].1.Some?)
    ensures forall i :: 0 <= i < |l| ==> r[i].1 == if l[i].1.Some? then Ok(l[i].1.value) else Err(ArgumentNull)
  {
    if l == [] then []
    else [(l[0].0, if l[0].1.Some? then Ok(l[0].1.value) else Err(ArgumentNull))] + Schemas(l[1..])
  }

  /** Position i holds the first failing value, and it fails with f. */
  predicate FailsFirstAt(entries: seq<(string, Result<string>)>, i: int, f: Fault) {
    0 <= i < |entries| && entries[i].1 == Err(f) && forall j :: 0 <= j < i ==> entries[j].1.Ok?
  }

  /** ToDictionary(x => x.Key, x => GetUrnName(kind, value)) over a
      dictionary: every name with the URN of its value, in order; the first
      value that cannot be read throws its exception. */
  function UrnMap(esc: Escape, kind: string, entries: seq<(string, Result<string>)>)
    : (r: Result<seq<(string, string)>>)
    ensures r.Ok? <==> forall i :: 0 <= i < |entries| ==> entries[i].1.Ok?
    ensures r.Err? ==> exists i :: FailsFirstAt(entries, i, r.error)
    ensures r.Ok? ==> |r.value| == |entries| &&
                      forall i :: 0 <= i < |entries| ==> r.value[i] == (entries[i].0, GetUrnName(esc, kind, entries[i].1.value))
  {
    if entries == [] then Ok([])
    else if entries[0].1.Err? then
      assert FailsFirstAt(entries, 0, entries[0].1.error);
      Err(entries[0].1.error)
    else
      match UrnMap(esc, kind, entries[1..])
      case Err(f) =>
        var i :| FailsFirstAt(entries[1..], i, f);
        assert FailsFirstAt(entries, i + 1, f);
        Err(f)
      case Ok(rest) => Ok([(entries[0].0, GetUrnName(esc, kind, entries[0].1.value))] + rest)
  }

  /** UrnSensorNames: each sensor name with GetSensorUrn of its identifier. */
  function SensorMap(esc: Escape, e: SosEntities): Result<seq<(string, string)>> {
    UrnMap(esc, "sensor", SensorIdentifiers(e.sensors))
  }

  /** UrnObservedPropertyNames: each property with GetPropertyUrn of its
      remote schema. */
  function PropertyMap(esc: Escape, e: SosEntities): Result<seq<(string, string)>> {
    UrnMap(esc, "property", Schemas(e.properties))
  }

  /** UrnFeatureOfInterestNames: each feature with GetFeatureOfInterestUrn of
      its remote schema. */
  function FeatureMap(esc: Escape, e: SosEntities): Result<seq<(string, string)>> {
    UrnMap(esc, "featureOfInterest", Schemas(e.features))
  }

  /** A URN map has the names of the dictionary it was built from. */
  lemma UrnMapKeys(esc: Escape, kind: string, entries: seq<(string, Result<string>)>)
    requires UrnMap(esc, kind, entries).Ok?
    ensures Keys(UrnMap(esc, kind, entries).value) == Keys(entries)
  {
  }

  // ---------------------------------------------------------------------
  // The URN lookup

  /** ToDictionary(a => a.Value, a => a.Key) */
  function Inverted(l: seq<(string, string)>): (r: seq<(string, string)>)
    ensures |r| == |l|
    ensures forall i :: 0 <= i < |l| ==> r[i] == (l[i].1, l[i].0)
  {
    if l == [] then [] else [(l[0].1, l[0].0)] + Inverted(l[1..])
  }

  /** ToDictionary over pairs: a repeated key throws. */
  function ToDictionary(l: seq<(string, string)>): (r: Result<seq<(string, string)>>)
    ensures r.Ok? <==> UniqueKeys(l)
    ensures r.Ok? ==> r.value == l
    ensures r.Err? ==> r.error == DuplicateKey
  {
    if UniqueKeys(l) then Ok(l) else Err(DuplicateKey)
  }

  /** One step of the lookup's construction: the inverse of a name map,
      united with the lookup so far. */
  function AddInverted(acc: seq<(string, string)>, names: seq<(string, string)>): Result<seq<(string, string)>> {
    match ToDictionary(Inverted(names))
    case Err(f) => Err(f)
    case Ok(inv) => ToDictionary(Distinct(acc + inv))
  }

  /** The set of pairs of an association list. */
  function Pairs(l: seq<(string, string)>): set<(string, string)> {
    set x | x in l
  }

  /** No URN is paired with two different names. */
  predicate Functional(s: set<(string, string)>) {
    forall p, q :: p in s && q in s && p.0 == q.0 ==> p == q
  }

  /** For a list without repeated pairs, distinct keys and a functional set
      of pairs are the same thing. */
  lemma UniqueKeysFunctional(l: seq<(string, string)>)
    requires NoDuplicates(l)
    ensures UniqueKeys(l) <==> Functional(Pairs(l))
  {
    if UniqueKeys(l) {
      forall p, q | p in Pairs(l) && q in Pairs(l) && p.0 == q.0
        ensures p == q
      {
        var i :| 0 <= i < |l| && l[i] == p;
        var j :| 0 <= j < |l| && l[j] == q;
      }
    }
    if Functional(Pairs(l)) {
      forall i, j | 0 <= i < j < |l|
        ensures l[i].0 != l[j].0
      {
        assert l[i] in Pairs(l) && l[j] in Pairs(l);
      }
    }
  }

  /** The inverse of a dictionary has no repeated pair. */
  lemma InvertedDistinct(names: seq<(string, string)>)
    requires UniqueKeys(names)
    ensures NoDuplicates(Inverted(names))
  {
    var inv := Inverted(names);
    forall i, j | 0 <= i < j < |inv|
      ensures inv[i] != inv[j]
    {
      assert names[i].0 != names[j].0;
    }
  }

  /** A step succeeds exactly when the pairs gathered so far, with the
      inverted names, still give each URN one name; the lookup then holds
      exactly those pairs. */
  lemma AddInvertedSpec(acc: seq<(string, string)>, names: seq<(string, string)>)
    requires UniqueKeys(names) && NoDuplicates(acc)
    ensures AddInverted(acc, names).Ok? <==> Functional(Pairs(acc) + Pairs(Inverted(names)))
    ensures AddInverted(acc, names).Ok? ==>
              var l := AddInverted(acc, names).value;
              Pairs(l) == Pairs(acc) + Pairs(Inverted(names)) && UniqueKeys(l) && NoDuplicates(l)
  {
    var inv := Inverted(names);
    InvertedDistinct(names);
    UniqueKeysFunctional(inv);
    var d := Distinct(acc + inv);
    assert Pairs(d) == Pairs(acc) + Pairs(inv) by {
      assert forall x :: x in acc + inv <==> x in acc || x in inv;
    }
    UniqueKeysFunctional(d);
  }

  /** One assignment of _urnLookup: the stage before it and the name map it
      adds, either of which may have thrown. */
  function Stage(acc: Result<seq<(string, string)>>, names: Result<seq<(string, string)>>): Result<seq<(string, string)>> {
    match acc
    case Err(f) => Err(f)
    case Ok(a) =>
      match names
      case Err(f) => Err(f)
      case Ok(n) => AddInverted(a, n)
  }

  /** The lookup after the sensors. */
  function Lookup1(esc: Escape, e: SosEntities): Result<seq<(string, string)>> {
    Stage(Ok([]), SensorMap(esc, e))
  }

  /** The lookup after the observed properties. */
  function Lookup2(esc: Escape, e: SosEntities): Result<seq<(string, string)>> {
    Stage(Lookup1(esc, e), PropertyMap(esc, e))
  }

  /** The lookup as UrnLookup builds it, or the exception it stops with. */
  function LookupResult(esc: Escape, e: SosEntities): Result<seq<(string, string)>> {
    Stage(Lookup2(esc, e), FeatureMap(esc, e))
  }

  /** What _urnLookup holds once UrnLookup has run: the lookup, or, when the
      construction threw, the last table it assigned (the empty dictionary
      if the sensor step failed). */
  function LookupLeftBehind(esc: Escape, e: SosEntities): (r: seq<(string, string)>)
    ensures LookupResult(esc, e).Ok? ==> r == LookupResult(esc, e).value
  {
    if LookupResult(esc, e).Ok? then LookupResult(esc, e).value
    else if Lookup2(esc, e).Ok? then Lookup2(esc, e).value
    else if Lookup1(esc, e).Ok? then Lookup1(esc, e).value
    else []
  }

  /** What is left behind when the sensor step throws: the empty table. */
  lemma LeftBehindSensors(esc: Escape, e: SosEntities)
    requires Lookup1(esc, e).Err?
    ensures LookupResult(esc, e) == Lookup1(esc, e) && LookupLeftBehind(esc, e) == []
  {
  }

  /** What is left behind when the property step throws: the sensor stage. */
  lemma LeftBehindProperties(esc: Escape, e: SosEntities)
    requires Lookup1(esc, e).Ok? && Lookup2(esc, e).Err?
    ensures LookupResult(esc, e) == Lookup2(esc, e) && LookupLeftBehind(esc, e) == Lookup1(esc, e).value
  {
  }

  /** What is left behind when the feature step throws: the property stage. */
  lemma LeftBehindFeatures(esc: Escape, e: SosEntities)
    requires Lookup2(esc, e).Ok? && LookupResult(esc, e).Err?
    ensures LookupLeftBehind(esc, e) == Lookup2(esc, e).value
  {
  }

  /** Every pair of the three name maps, inverted. */
  function AllInverted(s: seq<(string, string)>, p: seq<(string, string)>, fs: seq<(string, string)>): set<(string, string)> {
    Pairs(Inverted(s)) + Pairs(Inverted(p)) + Pairs(Inverted(fs))
  }

  /** A part of a functional set of pairs is functional. */
  lemma FunctionalSubset(a: set<(string, string)>, b: set<(string, string)>)
    requires a <= b && Functional(b)
    ensures Functional(a)
  {
  }

  /** The names of a URN map are the names of its dictionary, so they are
      unique when the dictionary's are. */
  lemma UrnMapUnique(esc: Escape, kind: string, entries: seq<(string, Result<string>)>)
    requires UrnMap(esc, kind, entries).Ok? && UniqueKeys(entries)
    ensures UniqueKeys(UrnMap(esc, kind, entries).value)
  {
    UrnMapKeys(esc, kind, entries);
    UniqueKeysSameKeys(UrnMap(esc, kind, entries).value, entries);
  }

  /** Once all three maps are built, the lookup is built exactly when no URN
      belongs to two different names, and it is then the inverse of their
      union, one entry per URN. */
  lemma LookupIsInverse(esc: Escape, e: SosEntities)
    requires EntitiesValid(e)
    requires SensorMap(esc, e).Ok? && PropertyMap(esc, e).Ok? && FeatureMap(esc, e).Ok?
    ensures var all := AllInverted(SensorMap(esc, e).value, PropertyMap(esc, e).value, FeatureMap(esc, e).value);
            (LookupResult(esc, e).Ok? <==> Functional(all)) &&
            (LookupResult(esc, e).Ok? ==> Pairs(LookupResult(esc, e).value) == all && UniqueKeys(LookupResult(esc, e).value))
  {
    var s, p, fs := SensorMap(esc, e).value, PropertyMap(esc, e).value, FeatureMap(esc, e).value;
    var S, P, F := Pairs(Inverted(s)), Pairs(Inverted(p)), Pairs(Inverted(fs));
    UniqueKeysSameKeys(SensorIdentifiers(e.sensors), e.sensors);
    assert Keys(Schemas(e.properties)) == Keys(e.properties);
    assert Keys(Schemas(e.features)) == Keys(e.features);
    UniqueKeysSameKeys(Schemas(e.properties), e.properties);
    UniqueKeysSameKeys(Schemas(e.features), e.features);
    UrnMapUnique(esc, "sensor", SensorIdentifiers(e.sensors));
    UrnMapUnique(esc, "property", Schemas(e.properties));
    UrnMapUnique(esc, "featureOfInterest", Schemas(e.features));
    var empty: seq<(string, string)> := [];
    assert Pairs(empty) + S == S;
    StageSpec(Ok(empty), s);
    StageSpec(Lookup1(esc, e), p);
    StageSpec(Lookup2(esc, e), fs);
    if Functional(S + P + F) {
      FunctionalSubset(S, S + P + F);
      FunctionalSubset(S + P, S + P + F);
      assert Lookup1(esc, e).Ok? && Pairs(Lookup1(esc, e).value) == S;
      assert Lookup2(esc, e).Ok? && Pairs(Lookup2(esc, e).value) == S + P;
      assert LookupResult(esc, e).Ok?;
    }
    if LookupResult(esc, e).Ok? {
      assert Lookup2(esc, e).Ok? && Lookup1(esc, e).Ok?;
      assert Pairs(Lookup1(esc, e).value) == S;
      assert Pairs(Lookup2(esc, e).value) == S + P;
      assert Pairs(LookupResult(esc, e).value) == S + P + F;
    }
  }

  /** AddInvertedSpec for a stage whose predecessor may have thrown. */
  lemma StageSpec(acc: Result<seq<(string, string)>>, names: seq<(string, string)>)
    requires UniqueKeys(names) && (acc.Ok? ==> NoDuplicates(acc.value))
    ensures Stage(acc, Ok(names)).Ok? <==> acc.Ok? && Functional(Pairs(acc.value) + Pairs(Inverted(names)))
    ensures Stage(acc, Ok(names)).Ok? ==>
              var l := Stage(acc, Ok(names)).value;
              Pairs(l) == Pairs(acc.value) + Pairs(Inverted(names)) && UniqueKeys(l) && NoDuplicates(l)
  {
    if acc.Ok? {
      AddInvertedSpec(acc.value, names);
    }
  }

  /** Two association lists with the same keys agree on having unique keys. */
  lemma UniqueKeysSameKeys<V, W>(a: seq<(string, V)>, b: seq<(string, W)>)
    requires Keys(a) == Keys(b)
    ensures UniqueKeys(a) <==> UniqueKeys(b)
  {
    assert forall i :: 0 <= i < |a| ==> a[i].0 == Keys(a)[i] == Keys(b)[i] == b[i].0;
  }

  /** In a dictionary, a stored pair is what the indexer finds. */
  lemma FindMember(l: seq<(string, string)>, x: (string, string))
    requires UniqueKeys(l) && x in l
    ensures Find(l, x.0) == Some(x.1)
  {
    var i :| 0 <= i < |l| && l[i] == x;
    FindStored(l, i);
  }

  /** Round trip: the lookup gives back the name of every sensor from its
      URN, and every name it gives comes from one of the three maps. */
  lemma SensorUrnRoundTrip(esc: Escape, e: SosEntities, k: string, urn: string)
    requires EntitiesValid(e) && LookupResult(esc, e).Ok?
    requires (k, urn) in SensorMap(esc, e).value
    ensures Find(LookupResult(esc, e).value, urn) == Some(k)
  {
    LookupNeedsMaps(esc, e);
    LookupIsInverse(esc, e);
    var s := SensorMap(esc, e).value;
    var i :| 0 <= i < |s| && s[i] == (k, urn);
    assert Inverted(s)[i] == (urn, k);
    FindMember(LookupResult(esc, e).value, (urn, k));
  }

  /** The lookup is only built once all three maps are. */
  lemma LookupNeedsMaps(esc: Escape, e: SosEntities)
    requires LookupResult(esc, e).Ok?
    ensures SensorMap(esc, e).Ok? && PropertyMap(esc, e).Ok? && FeatureMap(esc, e).Ok?
  {
    assert Lookup2(esc, e).Ok?;
    assert Lookup1(esc, e).Ok?;
  }

  /** Everything the lookup finds is a name whose map gives it that URN. */
  lemma LookupFindsOnlyInverses(esc: Escape, e: SosEntities, urn: string)
    requires EntitiesValid(e) && LookupResult(esc, e).Ok?
    requires Find(LookupResult(esc, e).value, urn).Some?
    ensures var k := Find(LookupResult(esc, e).value, urn).value;
            (k, urn) in SensorMap(esc, e).value || (k, urn) in PropertyMap(esc, e).value ||
            (k, urn) in FeatureMap(esc, e).value
  {
    LookupNeedsMaps(esc, e);
    LookupIsInverse(esc, e);
    var l := LookupResult(esc, e).value;
    var k := Find(l, urn).value;
    InvertedUnionMember(l, SensorMap(esc, e).value, PropertyMap(esc, e).value, FeatureMap(esc, e).value, (urn, k));
  }

  /** A pair of a list holding exactly the inverted pairs of three maps is
      a pair of one of them, turned round. */
  lemma InvertedUnionMember(l: seq<(string, string)>, s: seq<(string, string)>, p: seq<(string, string)>,
                            fs: seq<(string, string)>, x: (string, string))
    requires Pairs(l) == AllInverted(s, p, fs) && x in l
    ensures (x.1, x.0) in s || (x.1, x.0) in p || (x.1, x.0) in fs
  {
    assert x in Pairs(l);
    if x in Pairs(Inverted(s)) {
      InvertedMember(s, x);
    } else if x in Pairs(Inverted(p)) {
      InvertedMember(p, x);
    } else {
      InvertedMember(fs, x);
    }
  }

  /** A pair of an inverted map is a pair of the map, turned round. */
  lemma InvertedMember(l: seq<(string, string)>, x: (string, string))
    requires x in Inverted(l)
    ensures (x.1, x.0) in l
  {
    var i :| 0 <= i < |l| && Inverted(l)[i] == x;
    assert l[i] == (x.1, x.0);
  }

  // ---------------------------------------------------------------------
  // The manager

  /** The slots of the shared memory cache the managers use
      ("__URN_SENSORNAMES" and its siblings); expiry is not modelled. */
  class UrnCache {
    var sensorNames: Option<seq<(string, string)>>
    var propertyNames: Option<seq<(string, string)>>
    var featureNames: Option<seq<(string, string)>>
    var lookup: Option<seq<(string, string)>>

    constructor ()
      ensures sensorNames.None? && propertyNames.None? && featureNames.None? && lookup.None?
    {
      sensorNames, propertyNames, featureNames, lookup := None, None, None, None;
    }
  }

  /** Every table already held in the shared cache is the one a manager over
      these entities computes: what any earlier manager over the same
      entities left there. */
  predicate CacheAgrees(esc: Escape, entities: SosEntities, cache: UrnCache)
    reads cache
  {
    (cache.sensorNames.Some? ==> SensorMap(esc, entities) == Ok(cache.sensorNames.value)) &&
    (cache.propertyNames.Some? ==> PropertyMap(esc, entities) == Ok(cache.propertyNames.value)) &&
    (cache.featureNames.Some? ==> FeatureMap(esc, entities) == Ok(cache.featureNames.value)) &&
    (cache.lookup.Some? ==> LookupResult(esc, entities) == Ok(cache.lookup.value))
  }

  /** DefaultUrnManager over the operation's entities factory. */
  class UrnManager {
    const esc: Escape
    /** What Uri.ToString gives for the URNs this manager builds. */
    const canon: Canonical
    const entities: SosEntities
    const cache: UrnCache
    var urnSensorNames: Option<seq<(string, string)>>
    var urnPropertyNames: Option<seq<(string, string)>>
    var urnFeatureNames: Option<seq<(string, string)>>
    var urnLookup: Option<seq<(string, string)>>

    /** Every memoised table, here or in the shared cache, is what this
        manager would compute from the entities. */
    predicate Valid()
      reads this, cache
    {
      MapsValid() && LookupValid()
    }

    /** The memoised lookup is what UrnLookup leaves behind, and the cached
        one is the lookup itself. */
    predicate LookupValid()
      reads this`urnLookup, cache`lookup
    {
      (urnLookup.Some? ==> urnLookup.value == LookupLeftBehind(esc, entities)) &&
      (cache.lookup.Some? ==> LookupResult(esc, entities) == Ok(cache.lookup.value))
    }

    /** The memoised name maps are the ones computed from the entities. */
    predicate MapsValid()
      reads this`urnSensorNames, this`urnPropertyNames, this`urnFeatureNames
      reads cache`sensorNames, cache`propertyNames, cache`featureNames
    {
      EntitiesValid(entities) &&
      (urnSensorNames.Some? ==> SensorMap(esc, entities) == Ok(urnSensorNames.value)) &&
      (cache.sensorNames.Some? ==> SensorMap(esc, entities) == Ok(cache.sensorNames.value)) &&
      (urnPropertyNames.Some? ==> PropertyMap(esc, entities) == Ok(urnPropertyNames.value)) &&
      (cache.propertyNames.Some? ==> PropertyMap(esc, entities) == Ok(cache.propertyNames.value)) &&
      (urnFeatureNames.Some? ==> FeatureMap(esc, entities) == Ok(urnFeatureNames.value)) &&
      (cache.featureNames.Some? ==> FeatureMap(esc, entities) == Ok(cache.featureNames.value))
    }

    constructor (esc: Escape, canon: Canonical, entities: SosEntities, cache: UrnCache)
      requires EntitiesValid(entities)
      requires CacheAgrees(esc, entities, cache)
      ensures this.esc == esc && this.canon == canon && this.entities == entities && this.cache == cache
      ensures urnSensorNames.None? && urnPropertyNames.None? && urnFeatureNames.None? && urnLookup.None?
      ensures Valid()
    {
      this.esc := esc;
      this.canon := canon;
      this.entities := entities;
      this.cache := cache;
      urnSensorNames, urnPropertyNames, urnFeatureNames, urnLookup := None, None, None, None;
    }

    /** GetSensorUrn */
    function GetSensorUrn(value: string): string {
      GetUrnName(esc, "sensor", value)
    }

    /** GetPropertyUrn */
    function GetPropertyUrn(value: string): string {
      GetUrnName(esc, "property", value)
    }

    /** GetFeatureOfInterestUrn */
    function GetFeatureOfInterestUrn(value: string): string {
      GetUrnName(esc, "featureOfInterest", value)
    }

    /** UrnSensorNames: the field, else the shared cache, else built from the
        factory's sensors and stored in both. */
    method UrnSensorNames() returns (r: Result<seq<(string, string)>>)
      requires MapsValid()
      modifies this`urnSensorNames, cache`sensorNames
      ensures MapsValid()
      ensures r == SensorMap(esc, entities)
      ensures old(urnSensorNames).Some? ==> urnSensorNames == old(urnSensorNames) && cache.sensorNames == old(cache.sensorNames)
      ensures old(urnSensorNames).None? && old(cache.sensorNames).Some? ==>
                urnSensorNames == old(cache.sensorNames) && cache.sensorNames == old(cache.sensorNames)
      ensures old(urnSensorNames).None? && old(cache.sensorNames).None? ==>
                (r.Ok? ==> urnSensorNames == Some(r.value) && cache.sensorNames == Some(r.value)) &&
                (r.Err? ==> urnSensorNames.None? && cache.sensorNames.None?)
    {
      if urnSensorNames.None? {
        urnSensorNames := cache.sensorNames;
        if urnSensorNames.None? {
          var built := UrnMap(esc, "sensor", SensorIdentifiers(entities.sensors));
          if built.Err? {
            return built;
          }
          urnSensorNames := Some(built.value);
          cache.sensorNames := urnSensorNames;
        }
      }
      r := Ok(urnSensorNames.value);
    }

    /** UrnObservedPropertyNames: the same memoisation over the observed
        properties. */
    method UrnObservedPropertyNames() returns (r: Result<seq<(string, string)>>)
      requires MapsValid()
      modifies this`urnPropertyNames, cache`propertyNames
      ensures MapsValid()
      ensures r == PropertyMap(esc, entities)
      ensures old(urnPropertyNames).Some? ==> urnPropertyNames == old(urnPropertyNames) && cache.propertyNames == old(cache.propertyNames)
      ensures old(urnPropertyNames).None? && old(cache.propertyNames).Some? ==>
                urnPropertyNames == old(cache.propertyNames) && cache.propertyNames == old(cache.propertyNames)
      ensures old(urnPropertyNames).None? && old(cache.propertyNames).None? ==>
                (r.Ok? ==> urnPropertyNames == Some(r.value) && cache.propertyNames == Some(r.value)) &&
                (r.Err? ==> urnPropertyNames.None? && cache.propertyNames.None?)
    {
      if urnPropertyNames.None? {
        urnPropertyNames := cache.propertyNames;
        if urnPropertyNames.None? {
          var built := UrnMap(esc, "property", Schemas(entities.properties));
          if built.Err? {
            return built;
          }
          urnPropertyNames := Some(built.value);
          cache.propertyNames := urnPropertyNames;
        }
      }
      r := Ok(urnPropertyNames.value);
    }

    /** UrnFeatureOfInterestNames: the same memoisation over the features of
        interest. */
    method UrnFeatureOfInterestNames() returns (r: Result<seq<(string, string)>>)
      requires MapsValid()
      modifies this`urnFeatureNames, cache`featureNames
      ensures MapsValid()
      ensures r == FeatureMap(esc, entities)
      ensures old(urnFeatureNames).Some? ==> urnFeatureNames == old(urnFeatureNames) && cache.featureNames == old(cache.featureNames)
      ensures old(urnFeatureNames).None? && old(cache.featureNames).Some? ==>
                urnFeatureNames == old(cache.featureNames) && cache.featureNames == old(cache.featureNames)
      ensures old(urnFeatureNames).None? && old(cache.featureNames).None? ==>
                (r.Ok? ==> urnFeatureNames == Some(r.value) && cache.featureNames == Some(r.value)) &&
                (r.Err? ==> urnFeatureNames.None? && cache.featureNames.None?)
    {
      if urnFeatureNames.None? {
        urnFeatureNames := cache.featureNames;
        if urnFeatureNames.None? {
          var built := UrnMap(esc, "featureOfInterest", Schemas(entities.features));
          if built.Err? {
            return built;
          }
          urnFeatureNames := Some(built.value);
          cache.featureNames := urnFeatureNames;
        }
      }
      r := Ok(urnFeatureNames.value);
    }

    /** SensorNames: the keys of UrnSensorNames, which are the names of the
        factory's sensors. */
    method SensorNames() returns (r: Result<seq<string>>)
      requires Valid()
      modifies this`urnSensorNames, cache`sensorNames
      ensures Valid()
      ensures r.Ok? <==> SensorMap(esc, entities).Ok?
      ensures r.Err? ==> r.error == NullReference || r.error == ArgumentNull
      ensures r.Err? ==> exists i :: FailsFirstAt(SensorIdentifiers(entities.sensors), i, r.error)
      ensures r.Ok? ==> r.value == Keys(entities.sensors)
    {
      var names := UrnSensorNames();
      if names.Err? {
        return Err(names.error);
      }
      UrnMapKeys(esc, "sensor", SensorIdentifiers(entities.sensors));
      assert Keys(SensorIdentifiers(entities.sensors)) == Keys(entities.sensors);
      r := Ok(Keys(names.value));
    }

    /** ObservedPropertyNames: the keys of UrnObservedPropertyNames, which
        are the names of the factory's observed properties. */
    method ObservedPropertyNames() returns (r: Result<seq<string>>)
      requires Valid()
      modifies this`urnPropertyNames, cache`propertyNames
      ensures Valid()
      ensures r.Ok? <==> PropertyMap(esc, entities).Ok?
      ensures r.Err? ==> r.error == ArgumentNull
      ensures r.Ok? ==> r.value == Keys(entities.properties)
    {
      var names := UrnObservedPropertyNames();
      if names.Err? {
        return Err(names.error);
      }
      UrnMapKeys(esc, "property", Schemas(entities.properties));
      assert Keys(Schemas(entities.properties)) == Keys(entities.properties);
      r := Ok(Keys(names.value));
    }

    /** FeatureOfInterestNames: the keys of UrnFeatureOfInterestNames, which
        are the names of the factory's features of interest. */
    method FeatureOfInterestNames() returns (r: Result<seq<string>>)
      requires Valid()
      modifies this`urnFeatureNames, cache`featureNames
      ensures Valid()
      ensures r.Ok? <==> FeatureMap(esc, entities).Ok?
      ensures r.Err? ==> r.error == ArgumentNull
      ensures r.Ok? ==> r.value == Keys(entities.features)
    {
      var names := UrnFeatureOfInterestNames();
      if names.Err? {
        return Err(names.error);
      }
      UrnMapKeys(esc, "featureOfInterest", Schemas(entities.features));
      assert Keys(Schemas(entities.features)) == Keys(entities.features);
      r := Ok(Keys(names.value));
    }

    /** UrnLookup: the field, else the shared cache, else built step by step
        from the three maps and stored in the cache. The field is assigned
        at every step, so a construction that throws leaves the tables built
        so far behind, and later calls return them. */
    method UrnLookup() returns (r: Result<seq<(string, string)>>)
      requires Valid()
      modifies this`urnLookup, this`urnSensorNames, this`urnPropertyNames, this`urnFeatureNames, cache
      ensures Valid()
      ensures old(urnLookup).Some? ==> r == Ok(old(urnLookup).value) && urnLookup == old(urnLookup)
      ensures old(urnLookup).None? && old(cache.lookup).Some? ==> r == Ok(old(cache.lookup).value)
      ensures old(urnLookup).None? && old(cache.lookup).None? ==>
                r == LookupResult(esc, entities) && urnLookup == Some(LookupLeftBehind(esc, entities))
      ensures old(urnLookup).None? && old(cache.lookup).None? ==> cache.lookup == (if r.Ok? then Some(r.value) else None)
      ensures old(urnLookup).Some? || old(cache.lookup).Some? ==> cache.lookup == old(cache.lookup)
      ensures r.Ok? ==> urnLookup == Some(r.value)
    {
      if urnLookup.Some? {
        return Ok(urnLookup.value);
      }
      urnLookup := cache.lookup;
      if urnLookup.Some? {
        return Ok(urnLookup.value);
      }
      r := BuildLookup();
      if r.Ok? {
        cache.lookup := urnLookup;
      }
    }

    /** The construction of UrnLookup: each step assigns the field, so a
        step that throws leaves the previous table in it. */
    method BuildLookup() returns (r: Result<seq<(string, string)>>)
      requires MapsValid()
      modifies this`urnLookup, this`urnSensorNames, this`urnPropertyNames, this`urnFeatureNames
      modifies cache`sensorNames, cache`propertyNames, cache`featureNames
      ensures MapsValid()
      ensures r == LookupResult(esc, entities) && urnLookup == Some(LookupLeftBehind(esc, entities))
    {
      urnLookup := Some([]);
      var sensors := UrnSensorNames();
      r := Stage(Ok([]), sensors);
      assert r == Lookup1(esc, entities);
      if r.Ok? {
        urnLookup := Some(r.value);
        var properties := UrnObservedPropertyNames();
        r := Stage(r, properties);
        assert r == Lookup2(esc, entities);
        if r.Ok? {
          urnLookup := Some(r.value);
          var features := UrnFeatureOfInterestNames();
          r := Stage(r, features);
          assert r == LookupResult(esc, entities);
          if r.Ok? {
            urnLookup := Some(r.value);
            assert urnLookup == Some(LookupLeftBehind(esc, entities));
          } else {
            LeftBehindFeatures(esc, entities);
            assert urnLookup == Some(LookupLeftBehind(esc, entities));
          }
        } else {
          LeftBehindProperties(esc, entities);
          assert urnLookup == Some(LookupLeftBehind(esc, entities));
        }
      } else {
        LeftBehindSensors(esc, entities);
        assert urnLookup == Some(LookupLeftBehind(esc, entities));
      }
    }

    /** GetUrnValue: the name the lookup holds for a URN, or null. */
    method GetUrnValue(urn: string) returns (r: Result<Option<string>>)
      requires Valid()
      modifies this`urnLookup, this`urnSensorNames, this`urnPropertyNames, this`urnFeatureNames, cache
      ensures Valid()
      ensures old(urnLookup).Some? ==> r == Ok(Find(LookupLeftBehind(esc, entities), urn))
      ensures LookupResult(esc, entities).Ok? ==> r == Ok(Find(LookupResult(esc, entities).value, urn))
      ensures old(urnLookup).None? && LookupResult(esc, entities).Err? ==> r == Err(LookupResult(esc, entities).error)
      ensures old(urnLookup).None? && old(cache.lookup).None? ==>
                urnLookup == Some(LookupLeftBehind(esc, entities)) &&
                cache.lookup == (if LookupResult(esc, entities).Ok? then Some(LookupResult(esc, entities).value) else None)
      ensures old(urnLookup).Some? || old(cache.lookup).Some? ==> cache.lookup == old(cache.lookup)
      ensures r.Ok? ==> urnLookup.Some?
    {
      var lookup := UrnLookup();
      if lookup.Err? {
        return Err(lookup.error);
      }
      r := Ok(Find(lookup.value, urn));
    }
  }
}
