/** The public IP usage snapshot, version "0.2" of the Public IP Usage Record. */
module IPRecords {
  import opened Values
  import Versioned

  /** The keys of the record's field map; `Name` spells each as the
      serialised key. */
  datatype Field =
    | MeasurementTime | SiteName | CloudComputeService | CloudType | LocalUser
    | LocalGroup | GlobalUserName | FQAN | IPVersion | IPCount

  function Name(f: Field): string {
    match f
    case MeasurementTime => "MeasurementTime"
    case SiteName => "SiteName"
    case CloudComputeService => "CloudComputeService"
    case CloudType => "CloudType"
    case LocalUser => "LocalUser"
    case LocalGroup => "LocalGroup"
    case GlobalUserName => "GlobalUserName"
    case FQAN => "FQAN"
    case IPVersion => "IPVersion"
    case IPCount => "IPCount"
  }

  /** Distinct keys are spelled differently, so the serialised mapping has
      one entry per key. */
  lemma NamesDistinct(f: Field, g: Field)
    ensures Name(f) == Name(g) ==> f == g
  {
  }

  class IPRecord {
    static const Version: string := "0.2"

    static const V02Fields: seq<Field> := [
      MeasurementTime, SiteName, CloudComputeService, CloudType, LocalUser,
      LocalGroup, GlobalUserName, FQAN, IPVersion, IPCount
    ]

    /** The "0.2" field names as a set. */
    static const V02Names: set<Field> := {
      MeasurementTime, SiteName, CloudComputeService, CloudType, LocalUser,
      LocalGroup, GlobalUserName, FQAN, IPVersion, IPCount
    }

    static const VersionFieldMap: map<string, seq<Field>> := map["0.2" := V02Fields]

    var measureTime: Value        // `_measure_time`
    var site: Value
    var cloudType: Value
    var userId: Value
    var groupId: Value
    var userDn: Value
    var fqan: Value
    var computeService: Value
    var ipVersion: Value
    var publicIpCount: Value

    /** What the validating setter guarantees of the stored measurement time. */
    ghost predicate Valid()
      reads this
    {
      AcceptsDateTime(measureTime)
    }

    /** `__init__` with a measurement time its setter accepts: every field is
        stored as given. The compute service defaults to None; the cloud
        type, whose default comes from another module, must be passed. */
    constructor (measureTime: Value, site: Value, userId: Value, groupId: Value, userDn: Value,
                 fqan: Value, ipVersion: Value, publicIpCount: Value, cloudType: Value,
                 computeService: Value := Null)
      requires AcceptsDateTime(measureTime)
      ensures Valid()
      ensures this.measureTime == measureTime && this.site == site && this.userId == userId
      ensures this.groupId == groupId && this.userDn == userDn && this.fqan == fqan
      ensures this.ipVersion == ipVersion && this.publicIpCount == publicIpCount
      ensures this.cloudType == cloudType && this.computeService == computeService
    {
      this.measureTime := measureTime;
      this.site := site;
      this.cloudType := cloudType;
      this.userId := userId;
      this.groupId := groupId;
      this.userDn := userDn;
      this.fqan := fqan;
      this.computeService := computeService;
      this.ipVersion := ipVersion;
      this.publicIpCount := publicIpCount;
    }

    /** `__init__` with any arguments: the `measure_time` setter, the first
        assignment, raises on a truthy non-datetime and nothing is built. */
    static method Create(measureTime: Value, site: Value, userId: Value, groupId: Value,
                         userDn: Value, fqan: Value, ipVersion: Value, publicIpCount: Value,
                         cloudType: Value, computeService: Value := Null)
      returns (res: Result<IPRecord>)
      ensures res.Failure? <==> Truthy(measureTime) && !measureTime.DateTime?
      ensures res.Failure? ==> res.error == ValueError(DateMessage)
      ensures res.Success? ==> var r := res.value;
                && fresh(r) && r.Valid()
                && r.measureTime == measureTime && r.site == site && r.userId == userId
                && r.groupId == groupId && r.userDn == userDn && r.fqan == fqan
                && r.ipVersion == ipVersion && r.publicIpCount == publicIpCount
                && r.cloudType == cloudType && r.computeService == computeService
    {
      if !AcceptsDateTime(measureTime) {
        return Failure(ValueError(DateMessage));
      }
      var r := new IPRecord(measureTime, site, userId, groupId, userDn, fqan, ipVersion,
                            publicIpCount, cloudType, computeService);
      return Success(r);
    }

    /** The `measure_time` setter: a truthy non-datetime raises and stores
        nothing; anything else is stored as it is. */
    method SetMeasureTime(value: Value) returns (outcome: Outcome)
      requires Valid()
      modifies this`measureTime
      ensures Valid()
      ensures outcome.Fail? <==> Truthy(value) && !value.DateTime?
      ensures outcome.Fail? ==> outcome.error == ValueError(DateMessage) && measureTime == old(measureTime)
      ensures outcome.Pass? ==> measureTime == value
    {
      if Truthy(value) && !value.DateTime? {
        return Fail(ValueError(DateMessage));
      }
      measureTime := value;
      return Pass;
    }

    /** The value `map` stores under key `f`; the measurement time is
        emitted as epoch seconds. */
    function Entry(f: Field): Value
      reads this
      requires Valid()
    {
      match f
      case MeasurementTime => EpochSeconds(measureTime)
      case SiteName => site
      case CloudType => cloudType
      case LocalUser => userId
      case LocalGroup => groupId
      case FQAN => fqan
      case GlobalUserName => userDn
      case IPVersion => ipVersion
      case IPCount => publicIpCount
      case CloudComputeService => computeService
    }

    /** `map`: every field of the record under its key. */
    function Map(): (m: map<Field, Value>)
      reads this
      requires Valid()
      ensures m.Keys == Versioned.FieldSet(V02Fields)
      ensures forall f :: f in m ==> m[f] == Entry(f)
    {
      map f | f in V02Fields :: Entry(f)
    }

    /** `as_dict(version)`: the version's fields of `map`, exactly; an unknown
        version raises RecordVersionNotFound. */
    function AsDict(version: Option<string>): (r: Result<map<Field, Value>>)
      reads this
      requires Valid()
      ensures var v := Versioned.Requested(Version, version);
              && (v !in VersionFieldMap ==> r == Failure(VersionNotFound(v)))
              && (v in VersionFieldMap ==> r.Success?)
              && (r.Success? ==> r.value.Keys == Versioned.FieldSet(VersionFieldMap[v]))
              && (r.Success? ==> forall k :: k in r.value ==> r.value[k] == Map()[k])
    {
      Versioned.AsDict(VersionFieldMap, Version, version, Success(Map()))
    }

    /** `as_json(version)`: the JSON text `encode` writes for `as_dict(version)`,
        refused when a field emitted unconverted holds a datetime. */
    function AsJson(version: Option<string>, encode: map<Field, Value> -> string): (r: Result<string>)
      reads this
      requires Valid()
      ensures AsDict(version).Failure? ==> r == Failure(AsDict(version).error)
      ensures AsDict(version).Success? ==>
                (r.Success? <==> Versioned.Serializable(AsDict(version).value))
      ensures AsDict(version).Success? && r.Failure? ==> r.error == Unserializable
      ensures r.Success? ==> r.value == encode(AsDict(version).value)
    {
      Versioned.AsJson(AsDict(version), encode)
    }
  }

  lemma V02FieldNames()
    ensures Versioned.FieldSet(IPRecord.V02Fields) == IPRecord.V02Names
  {
  }

  lemma V02NamesCount()
    ensures |IPRecord.V02Names| == 10
  {
  }

  /** Without a version, `as_dict` formats version "0.2", which holds ten
      fields; every other version is refused, by `as_json` too. */
  lemma OnlyVersion02(r: IPRecord, v: string, encode: map<Field, Value> -> string)
    requires r.Valid()
    ensures r.AsDict(None) == r.AsDict(Some("0.2"))
    ensures r.AsDict(None).Success? && |r.AsDict(None).value| == 10
    ensures r.AsDict(None).value[MeasurementTime] == EpochSeconds(r.measureTime)
    ensures v != "0.2" ==> r.AsDict(Some(v)) == Failure(VersionNotFound(v))
    ensures v != "0.2" ==> r.AsJson(Some(v), encode) == Failure(VersionNotFound(v))
  {
    var d := r.AsDict(None).value;
    assert d.Keys == Versioned.FieldSet(IPRecord.V02Fields);
    V02FieldNames();
    V02NamesCount();
    assert |d| == |d.Keys|;
  }

  /** Some field that `map` emits unconverted holds a datetime. */
  predicate StoresDateTime(r: IPRecord)
    reads r
  {
    || r.site.DateTime? || r.cloudType.DateTime? || r.userId.DateTime?
    || r.groupId.DateTime? || r.userDn.DateTime? || r.fqan.DateTime?
    || r.computeService.DateTime? || r.ipVersion.DateTime? || r.publicIpCount.DateTime?
  }

  /** `as_json` succeeds exactly when no field but the measurement time,
      which `map` converts to epoch seconds, holds a datetime. */
  lemma JsonIffNoStoredDateTime(r: IPRecord, encode: map<Field, Value> -> string)
    requires r.Valid()
    ensures r.AsJson(None, encode).Success? <==> !StoresDateTime(r)
  {
    var d := r.AsDict(None).value;
    assert d.Keys == Versioned.FieldSet(IPRecord.V02Fields);
    if StoresDateTime(r) {
      var f := StoredDateTimeField(r);
      assert d[f] == r.Map()[f] == r.Entry(f);
      assert !Versioned.Serializable(d);
    } else {
      forall f | f in d
        ensures !d[f].DateTime?
      {
        assert d[f] == r.Map()[f] == r.Entry(f);
        EntryNotDateTime(r, f);
      }
    }
  }

  /** A "0.2" key whose entry is a stored datetime. */
  lemma StoredDateTimeField(r: IPRecord) returns (f: Field)
    requires r.Valid() && StoresDateTime(r)
    ensures f in IPRecord.V02Fields && r.Entry(f).DateTime?
  {
    var fields := IPRecord.V02Fields;
    var i :=
      if r.site.DateTime? then 1 else if r.computeService.DateTime? then 2
      else if r.cloudType.DateTime? then 3 else if r.userId.DateTime? then 4
      else if r.groupId.DateTime? then 5 else if r.userDn.DateTime? then 6
      else if r.fqan.DateTime? then 7 else if r.ipVersion.DateTime? then 8 else 9;
    f := fields[i];
  }

  lemma EntryNotDateTime(r: IPRecord, f: Field)
    requires r.Valid() && !StoresDateTime(r)
    ensures !r.Entry(f).DateTime?
  {
  }
}
