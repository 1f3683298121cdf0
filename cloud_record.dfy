/** The compute (virtual machine) usage record, versions "0.2" and "0.4" of
    the Cloud Accounting Record. */
module CloudRecords {
  import opened Values
  import Ascii
  import Versioned

  /** The keys of the record's field map; `Name` spells each as the
      serialised key. */
  datatype Field =
    | VMUUID | SiteName | MachineName | LocalUserId | LocalGroupId
    | GlobalUserName | FQAN | Status | StartTime | EndTime
    | SuspendDuration | WallDuration | CpuDuration | CpuCount
    | NetworkType | NetworkInbound | NetworkOutbound | Memory | Disk
    | StorageRecordId | ImageId | CloudType
    | CloudComputeService | BenchmarkType | Benchmark | PublicIPCount

  function Name(f: Field): string {
    match f
    case VMUUID => "VMUUID"
    case SiteName => "SiteName"
    case MachineName => "MachineName"
    case LocalUserId => "LocalUserId"
    case LocalGroupId => "LocalGroupId"
    case GlobalUserName => "GlobalUserName"
    case FQAN => "FQAN"
    case Status => "Status"
    case StartTime => "StartTime"
    case EndTime => "EndTime"
    case SuspendDuration => "SuspendDuration"
    case WallDuration => "WallDuration"
    case CpuDuration => "CpuDuration"
    case CpuCount => "CpuCount"
    case NetworkType => "NetworkType"
    case NetworkInbound => "NetworkInbound"
    case NetworkOutbound => "NetworkOutbound"
    case Memory => "Memory"
    case Disk => "Disk"
    case StorageRecordId => "StorageRecordId"
    case ImageId => "ImageId"
    case CloudType => "CloudType"
    case CloudComputeService => "CloudComputeService"
    case BenchmarkType => "BenchmarkType"
    case Benchmark => "Benchmark"
    case PublicIPCount => "PublicIPCount"
  }

  /** The derived CPU duration, the wall duration times the CPU count
      converted to an integer, for a wall duration that is not None and a
      truthy count. Numbers multiply; the
      empty string repeated any number of times stays empty; anything else
      raises. */
  function CpuProduct(wall: Value, count: Value): (r: Result<Value>)
    ensures IsNumber(wall) && IsNumber(count) ==> r == Success(Int(AsInt(wall) * AsInt(count)))
    ensures r.Failure? ==> r.error == BadOperands
  {
    if IsNumber(wall) && IsNumber(count) then Success(Int(AsInt(wall) * AsInt(count)))
    else if wall == Str("") && IsNumber(count) then Success(Str(""))
    else Failure(BadOperands)
  }

  /** Distinct keys are spelled differently, so the serialised mapping has
      one entry per key. */
  lemma NamesDistinct(f: Field, g: Field)
    ensures Name(f) == Name(g) ==> f == g
  {
  }

  class CloudRecord {
    static const Version: string := "0.4"

    static const V02Fields: seq<Field> := [
      VMUUID, SiteName, MachineName, LocalUserId, LocalGroupId,
      GlobalUserName, FQAN, Status, StartTime, EndTime,
      SuspendDuration, Field.WallDuration, Field.CpuDuration, CpuCount,
      NetworkType, NetworkInbound, NetworkOutbound, Memory, Disk,
      StorageRecordId, ImageId, CloudType
    ]

    static const V04Fields: seq<Field> := V02Fields + [
      CloudComputeService, BenchmarkType, Benchmark, PublicIPCount
    ]

    /** The "0.2" and "0.4" field names as sets. */
    static const V02Names: set<Field> := {
      VMUUID, SiteName, MachineName, LocalUserId, LocalGroupId,
      GlobalUserName, FQAN, Status, StartTime, EndTime, SuspendDuration,
      Field.WallDuration, Field.CpuDuration, CpuCount, NetworkType, NetworkInbound,
      NetworkOutbound, Memory, Disk, StorageRecordId, ImageId, CloudType
    }
    static const V04Names: set<Field> := V02Names + {CloudComputeService, BenchmarkType, Benchmark, PublicIPCount}

    static const VersionFieldMap: map<string, seq<Field>> := map["0.2" := V02Fields, "0.4" := V04Fields]

    var uuid: Value
    var site: Value
    var name: string              // `_name`, always stored stripped to ASCII
    var userId: Value
    var groupId: Value
    var fqan: Value
    var status: Value
    var startTime: Value          // `_start_time`
    var endTime: Value            // `_end_time`
    var suspendDuration: Value
    var wallDuration: Value       // `_wall_duration`, the explicit value if any
    var cpuDuration: Value        // `_cpu_duration`, the explicit value if any
    var networkType: Value
    var networkIn: Value
    var networkOut: Value
    var cpuCount: Value
    var memory: Value
    var disk: Value
    var imageId: Value
    var cloudType: Value
    var storageRecordId: Value
    var userDn: Value
    var computeService: Value
    var benchmarkValue: Value
    var benchmarkType: Value
    var publicIpCount: Value

    /** What the validating setters guarantee of the stored fields. */
    ghost predicate Valid()
      reads this
    {
      && AcceptsDateTime(startTime) && AcceptsDateTime(endTime)
      && AcceptsNumber(wallDuration) && AcceptsNumber(cpuDuration)
      && Ascii.AllAscii(name)
    }

    /** `__init__` with arguments its setters accept: every field is stored
        as given, except the name, which is stripped to ASCII. The optional
        arguments default to None, as in the source; the cloud type, whose
        default comes from another module, must be passed. */
    constructor (uuid: Value, site: Value, name: string, userId: Value, groupId: Value,
                 fqan: Value, cloudType: Value, computeService: Value := Null,
                 status: Value := Null, startTime: Value := Null, endTime: Value := Null,
                 suspendDuration: Value := Null, wallDuration: Value := Null,
                 cpuDuration: Value := Null, networkType: Value := Null,
                 networkIn: Value := Null, networkOut: Value := Null,
                 publicIpCount: Value := Null, cpuCount: Value := Null, memory: Value := Null,
                 disk: Value := Null, imageId: Value := Null, storageRecordId: Value := Null,
                 userDn: Value := Null, benchmarkValue: Value := Null,
                 benchmarkType: Value := Null)
      requires AcceptsDateTime(startTime) && AcceptsDateTime(endTime)
      requires AcceptsNumber(wallDuration) && AcceptsNumber(cpuDuration)
      ensures Valid()
      ensures this.uuid == uuid && this.site == site && this.name == Ascii.StripNonAscii(name)
      ensures this.userId == userId && this.groupId == groupId && this.fqan == fqan
      ensures this.status == status && this.startTime == startTime && this.endTime == endTime
      ensures this.suspendDuration == suspendDuration && this.wallDuration == wallDuration
      ensures this.cpuDuration == cpuDuration && this.networkType == networkType
      ensures this.networkIn == networkIn && this.networkOut == networkOut
      ensures this.cpuCount == cpuCount && this.memory == memory && this.disk == disk
      ensures this.imageId == imageId && this.cloudType == cloudType
      ensures this.storageRecordId == storageRecordId && this.userDn == userDn
      ensures this.computeService == computeService && this.benchmarkValue == benchmarkValue
      ensures this.benchmarkType == benchmarkType && this.publicIpCount == publicIpCount
    {
      this.uuid := uuid;
      this.site := site;
      this.name := Ascii.StripNonAscii(name);
      this.userId := userId;
      this.groupId := groupId;
      this.fqan := fqan;
      this.status := status;
      this.startTime := startTime;
      this.endTime := endTime;
      this.suspendDuration := suspendDuration;
      this.wallDuration := wallDuration;
      this.cpuDuration := cpuDuration;
      this.networkType := networkType;
      this.networkIn := networkIn;
      this.networkOut := networkOut;
      this.cpuCount := cpuCount;
      this.memory := memory;
      this.disk := disk;
      this.imageId := imageId;
      this.cloudType := cloudType;
      this.storageRecordId := storageRecordId;
      this.userDn := userDn;
      this.computeService := computeService;
      this.benchmarkValue := benchmarkValue;
      this.benchmarkType := benchmarkType;
      this.publicIpCount := publicIpCount;
    }

    /** `__init__` with any arguments: the validating setters run in the
        source's order (start time, end time, wall duration, CPU duration)
        and the first one that raises aborts the construction. */
    static method Create(uuid: Value, site: Value, name: string, userId: Value, groupId: Value,
                         fqan: Value, cloudType: Value, computeService: Value := Null,
                         status: Value := Null, startTime: Value := Null, endTime: Value := Null,
                         suspendDuration: Value := Null, wallDuration: Value := Null,
                         cpuDuration: Value := Null, networkType: Value := Null,
                         networkIn: Value := Null, networkOut: Value := Null,
                         publicIpCount: Value := Null, cpuCount: Value := Null,
                         memory: Value := Null, disk: Value := Null, imageId: Value := Null,
                         storageRecordId: Value := Null, userDn: Value := Null,
                         benchmarkValue: Value := Null, benchmarkType: Value := Null)
      returns (res: Result<CloudRecord>)
      ensures res.Failure? <==>
                !AcceptsDateTime(startTime) || !AcceptsDateTime(endTime) ||
                !AcceptsNumber(wallDuration) || !AcceptsNumber(cpuDuration)
      ensures res.Failure? ==>
                res.error == ValueError(
                  if !AcceptsDateTime(startTime) || !AcceptsDateTime(endTime)
                  then DateMessage else DurationMessage)
      ensures res.Success? ==> var r := res.value;
                && fresh(r) && r.Valid()
                && r.uuid == uuid && r.site == site && r.name == Ascii.StripNonAscii(name)
                && r.userId == userId && r.groupId == groupId && r.fqan == fqan
                && r.status == status && r.startTime == startTime && r.endTime == endTime
                && r.suspendDuration == suspendDuration && r.wallDuration == wallDuration
                && r.cpuDuration == cpuDuration && r.networkType == networkType
                && r.networkIn == networkIn && r.networkOut == networkOut
                && r.cpuCount == cpuCount && r.memory == memory && r.disk == disk
                && r.imageId == imageId && r.cloudType == cloudType
                && r.storageRecordId == storageRecordId && r.userDn == userDn
                && r.computeService == computeService && r.benchmarkValue == benchmarkValue
                && r.benchmarkType == benchmarkType && r.publicIpCount == publicIpCount
    {
      if !AcceptsDateTime(startTime) || !AcceptsDateTime(endTime) {
        return Failure(ValueError(DateMessage));
      }
      if !AcceptsNumber(wallDuration) || !AcceptsNumber(cpuDuration) {
        return Failure(ValueError(DurationMessage));
      }
      var r := new CloudRecord(uuid, site, name, userId, groupId, fqan, cloudType, computeService,
                               status, startTime, endTime, suspendDuration, wallDuration,
                               cpuDuration, networkType, networkIn, networkOut, publicIpCount,
                               cpuCount, memory, disk, imageId, storageRecordId, userDn,
                               benchmarkValue, benchmarkType);
      return Success(r);
    }

    /** The `name` setter: the stored name is the input with every non-ASCII
        character dropped. */
    method SetName(value: string)
      requires Valid()
      modifies this`name
      ensures Valid()
      ensures name == Ascii.StripNonAscii(value)
    {
      name := Ascii.StripNonAscii(value);
    }

    /** The `wall_duration` setter: a truthy non-number raises and stores
        nothing; anything else is stored as it is, after which the getter
        reads it back. */
    method SetWallDuration(value: Value) returns (outcome: Outcome)
      requires Valid()
      modifies this`wallDuration
      ensures Valid()
      ensures outcome.Fail? <==> Truthy(value) && !IsNumber(value)
      ensures outcome.Fail? ==> outcome.error == ValueError(DurationMessage) && wallDuration == old(wallDuration)
      ensures outcome.Pass? ==> wallDuration == value
      ensures outcome.Pass? && value != Null ==> WallDuration() == Success(Truncated(value))
    {
      if Truthy(value) && !IsNumber(value) {
        return Fail(ValueError(DurationMessage));
      }
      wallDuration := value;
      return Pass;
    }

    /** The `cpu_duration` setter, with the same guard. */
    method SetCpuDuration(value: Value) returns (outcome: Outcome)
      requires Valid()
      modifies this`cpuDuration
      ensures Valid()
      ensures outcome.Fail? <==> Truthy(value) && !IsNumber(value)
      ensures outcome.Fail? ==> outcome.error == ValueError(DurationMessage) && cpuDuration == old(cpuDuration)
      ensures outcome.Pass? ==> cpuDuration == value
      ensures outcome.Pass? && value != Null ==> CpuDuration() == Success(Truncated(value))
    {
      if Truthy(value) && !IsNumber(value) {
        return Fail(ValueError(DurationMessage));
      }
      cpuDuration := value;
      return Pass;
    }

    /** The `start_time` setter: a truthy non-datetime raises and stores nothing. */
    method SetStartTime(value: Value) returns (outcome: Outcome)
      requires Valid()
      modifies this`startTime
      ensures Valid()
      ensures outcome.Fail? <==> Truthy(value) && !value.DateTime?
      ensures outcome.Fail? ==> outcome.error == ValueError(DateMessage) && startTime == old(startTime)
      ensures outcome.Pass? ==> startTime == value
    {
      if Truthy(value) && !value.DateTime? {
        return Fail(ValueError(DateMessage));
      }
      startTime := value;
      return Pass;
    }

    /** The `end_time` setter, with the same guard. */
    method SetEndTime(value: Value) returns (outcome: Outcome)
      requires Valid()
      modifies this`endTime
      ensures Valid()
      ensures outcome.Fail? <==> Truthy(value) && !value.DateTime?
      ensures outcome.Fail? ==> outcome.error == ValueError(DateMessage) && endTime == old(endTime)
      ensures outcome.Pass? ==> endTime == value
    {
      if Truthy(value) && !value.DateTime? {
        return Fail(ValueError(DateMessage));
      }
      endTime := value;
      return Pass;
    }

    /** The `wall_duration` getter, recomputed on every read: the explicit
        value if one is stored, else the seconds from start to end, measured
        by subtracting the datetimes themselves, when both are stored,
        else None. Arithmetic on a stored timestamp that is not a datetime
        raises, and so does subtracting a naive datetime from an aware one
        or the reverse. */
    function WallDuration(): (d: Result<Value>)
      reads this
      requires Valid()
      ensures d.Failure? ==> d.error == BadOperands && wallDuration == Null
      ensures d.Success? && Truthy(d.value) ==> d.value.Int?
      ensures d == Success(Null) <==> wallDuration == Null && (startTime == Null || endTime == Null)
    {
      if wallDuration != Null then Success(Truncated(wallDuration))
      else if startTime != Null && endTime != Null then
        if startTime.DateTime? && endTime.DateTime? && startTime.aware == endTime.aware then
          Success(Int(endTime.instant - startTime.instant))
        else Failure(BadOperands)
      else Success(Null)
    }

    /** The `cpu_duration` getter, recomputed on every read: the explicit
        value if one is stored, else the wall duration times a truthy CPU
        count when the wall duration is not None, else None. */
    function CpuDuration(): (d: Result<Value>)
      reads this
      requires Valid()
      ensures d.Failure? ==> d.error == BadOperands && cpuDuration == Null
      ensures d.Success? && Truthy(d.value) ==> d.value.Int?
    {
      if cpuDuration != Null then Success(Truncated(cpuDuration))
      else
        match WallDuration()
        case Failure(e) => Failure(e)
        case Success(w) =>
          if w != Null && Truthy(cpuCount) then CpuProduct(w, cpuCount) else Success(Null)
    }

    /** The value `map` stores under key `f`, given the derived wall and CPU
        durations: the name as stored, the timestamps as epoch seconds and
        every other field as it is. */
    function Entry(f: Field, wall: Value, cpu: Value): Value
      reads this
      requires Valid()
    {
      match f
      case VMUUID => uuid
      case SiteName => site
      case MachineName => Str(name)
      case LocalUserId => userId
      case LocalGroupId => groupId
      case FQAN => fqan
      case Status => status
      case StartTime => EpochSeconds(startTime)
      case EndTime => EpochSeconds(endTime)
      case SuspendDuration => suspendDuration
      case WallDuration => wall
      case CpuDuration => cpu
      case CpuCount => cpuCount
      case NetworkType => networkType
      case NetworkInbound => networkIn
      case NetworkOutbound => networkOut
      case Memory => memory
      case Disk => disk
      case StorageRecordId => storageRecordId
      case ImageId => imageId
      case CloudType => cloudType
      case GlobalUserName => userDn
      case PublicIPCount => publicIpCount
      case Benchmark => benchmarkValue
      case BenchmarkType => benchmarkType
      case CloudComputeService => computeService
    }

    /** `map`: every field under its key, with the wall and CPU durations
        derived by their getters; a getter that raises makes `map` raise. */
    function Map(): (m: Result<map<Field, Value>>)
      reads this
      requires Valid()
      ensures m.Success? <==> WallDuration().Success? && CpuDuration().Success?
      ensures m.Failure? ==> m.error == BadOperands
      ensures m.Success? ==> m.value.Keys == Versioned.FieldSet(V04Fields)
      ensures m.Success? ==> forall f :: f in m.value ==>
                m.value[f] == Entry(f, WallDuration().value, CpuDuration().value)
    {
      var wallResult, cpuResult := WallDuration(), CpuDuration();
      if wallResult.Failure? then Failure(wallResult.error)
      else if cpuResult.Failure? then Failure(cpuResult.error)
      else Success(map f | f in V04Fields :: Entry(f, wallResult.value, cpuResult.value))
    }

    /** `as_dict(version)`: the version's fields of `map`, exactly; an unknown
        version raises RecordVersionNotFound before `map` is looked at. */
    function AsDict(version: Option<string>): (r: Result<map<Field, Value>>)
      reads this
      requires Valid()
      ensures var v := Versioned.Requested(Version, version);
              && (v !in VersionFieldMap ==> r == Failure(VersionNotFound(v)))
              && (v in VersionFieldMap ==> (r.Success? <==> Map().Success?))
              && (r.Success? ==> r.value.Keys == Versioned.FieldSet(VersionFieldMap[v]))
              && (r.Success? ==> forall k :: k in r.value ==> r.value[k] == Map().value[k])
    {
      Versioned.AsDict(VersionFieldMap, Version, version, Map())
    }

    /** `as_json(version)`: the JSON text `encode` writes for `as_dict(version)`,
        refused when a field emitted unconverted holds a datetime. */
    function AsJson(version: Option<string>, encode: map<Field, Value> -> string): (r: Result<string>)
      reads this
      requires Valid()
      ensures AsDict(version).Failure? ==> r == Failure(AsDict(version).error)
      ensures AsDict(version).Success? ==>
                (r.Success? <==> Versioned.Serializable(AsDict(version).value))
      ensures AsDict(version).Success? && r.Failure? ==> r.error == Unserializable
      ensures r.Success? ==> r.value == encode(AsDict(version).value)
    {
      Versioned.AsJson(AsDict(version), encode)
    }
  }

  /** The entries of `map` that are not stored as they are: the stripped
      name, the timestamps as epoch seconds and the derived durations. */
  lemma MapEntries(r: CloudRecord)
    requires r.Valid() && r.Map().Success?
    ensures var m := r.Map().value;
            && m[MachineName] == Str(r.name)
            && m[StartTime] == EpochSeconds(r.startTime)
            && m[EndTime] == EpochSeconds(r.endTime)
            && m[WallDuration] == r.WallDuration().value
            && m[CpuDuration] == r.CpuDuration().value
  {
    DerivedKeysListed();
    EntryOfDerivedKeys(r, r.WallDuration().value, r.CpuDuration().value);
  }

  lemma DerivedKeysListed()
    ensures var keys := Versioned.FieldSet(CloudRecord.V04Fields);
            && MachineName in keys && StartTime in keys && EndTime in keys
            && WallDuration in keys && CpuDuration in keys
  {
    var fields := CloudRecord.V04Fields;
    assert fields[2] == MachineName && fields[8] == StartTime && fields[9] == EndTime;
    assert fields[11] == WallDuration && fields[12] == CpuDuration;
  }

  lemma EntryOfDerivedKeys(r: CloudRecord, wall: Value, cpu: Value)
    requires r.Valid()
    ensures r.Entry(MachineName, wall, cpu) == Str(r.name)
    ensures r.Entry(StartTime, wall, cpu) == EpochSeconds(r.startTime)
    ensures r.Entry(EndTime, wall, cpu) == EpochSeconds(r.endTime)
    ensures r.Entry(WallDuration, wall, cpu) == wall
    ensures r.Entry(CpuDuration, wall, cpu) == cpu
  {
  }

  lemma V04FieldNames()
    ensures Versioned.FieldSet(CloudRecord.V02Fields) == CloudRecord.V02Names
    ensures Versioned.FieldSet(CloudRecord.V04Fields) == CloudRecord.V04Names
  {
  }

  /** The "0.2" fields are 22 distinct keys, the "0.4" fields 26. */
  lemma V04NamesCount()
    ensures |CloudRecord.V02Names| == 22 && |CloudRecord.V04Names| == 26
  {
    V02NamesCount();
    AddedKeysAreNew();
  }

  /** The four keys "0.4" adds. */
  const AddedKeys: set<Field> := {CloudComputeService, BenchmarkType, Benchmark, PublicIPCount}

  lemma AddedKeysAreNew()
    ensures |AddedKeys| == 4 && CloudRecord.V02Names !! AddedKeys
    ensures CloudRecord.V04Names == CloudRecord.V02Names + AddedKeys
  {
    NewFieldsAreNew();
  }

  lemma V02NamesCount()
    ensures |CloudRecord.V02Names| == 22
  {
    KeyGroupsCount();
    KeyGroupsDisjoint();
    assert CloudRecord.V02Names == IdKeys + TimeKeys + UsageKeys;
  }

  /** The "0.2" keys in three groups, to count them a group at a time. */
  const IdKeys: set<Field> :=
    {VMUUID, SiteName, MachineName, LocalUserId, LocalGroupId, GlobalUserName, FQAN}
  const TimeKeys: set<Field> :=
    {Status, StartTime, EndTime, SuspendDuration, WallDuration, CpuDuration, CpuCount}
  const UsageKeys: set<Field> :=
    {NetworkType, NetworkInbound, NetworkOutbound, Memory, Disk, StorageRecordId, ImageId, CloudType}

  lemma KeyGroupsCount()
    ensures |IdKeys| == 7 && |TimeKeys| == 7 && |UsageKeys| == 8
  {
  }

  lemma KeyGroupsDisjoint()
    ensures IdKeys !! TimeKeys && IdKeys !! UsageKeys && TimeKeys !! UsageKeys
  {
  }

  /** Version "0.4" has exactly the "0.2" fields and four more. */
  lemma V04AddsFourFields()
    ensures Versioned.FieldSet(CloudRecord.V02Fields) < Versioned.FieldSet(CloudRecord.V04Fields)
    ensures Versioned.FieldSet(CloudRecord.V04Fields) - Versioned.FieldSet(CloudRecord.V02Fields)
            == {CloudComputeService, BenchmarkType, Benchmark, PublicIPCount}
  {
    V04FieldNames();
    NewFieldsAreNew();
    var added := {CloudComputeService, BenchmarkType, Benchmark, PublicIPCount};
    assert CloudRecord.V04Names == CloudRecord.V02Names + added;
    assert CloudRecord.V02Names !! added;
  }

  lemma NewFieldsAreNew()
    ensures CloudComputeService !in CloudRecord.V02Names && BenchmarkType !in CloudRecord.V02Names
    ensures Benchmark !in CloudRecord.V02Names && PublicIPCount !in CloudRecord.V02Names
  {
  }

  /** Without a version, `as_dict` formats version "0.4". */
  lemma DefaultVersion(r: CloudRecord)
    requires r.Valid()
    ensures r.AsDict(None) == r.AsDict(Some("0.4"))
  {
  }

  /** Every version other than "0.2" and "0.4" is refused, by `as_json` too. */
  lemma UnknownVersion(r: CloudRecord, v: string, encode: map<Field, Value> -> string)
    requires r.Valid()
    requires v != "0.2" && v != "0.4"
    ensures r.AsDict(Some(v)) == Failure(VersionNotFound(v))
    ensures r.AsJson(Some(v), encode) == Failure(VersionNotFound(v))
  {
  }

  /** `as_dict("0.2")` is `as_dict("0.4")` restricted to the "0.2" fields. */
  lemma V02IsRestrictionOfV04(r: CloudRecord)
    requires r.Valid() && r.Map().Success?
    ensures r.AsDict(Some("0.2")).Success? && r.AsDict(Some("0.4")).Success?
    ensures var d02, d04 := r.AsDict(Some("0.2")).value, r.AsDict(Some("0.4")).value;
            && d02.Keys < d04.Keys
            && d04.Keys - d02.Keys == {CloudComputeService, BenchmarkType, Benchmark, PublicIPCount}
            && forall k :: k in d02 ==> d02[k] == d04[k]
  {
    V04AddsFourFields();
    Versioned.OlderIsRestriction(CloudRecord.VersionFieldMap, CloudRecord.Version, "0.2", "0.4", r.Map().value);
  }

  /** An explicit wall duration wins over the timestamps: it is read back
      truncated, whatever the timestamps say. */
  lemma ExplicitWallDurationWins(r: CloudRecord)
    requires r.Valid() && r.wallDuration != Null
    ensures r.WallDuration() == Success(Truncated(r.wallDuration))
  {
  }

  /** An explicit CPU duration wins over the derivation from the wall duration. */
  lemma ExplicitCpuDurationWins(r: CloudRecord)
    requires r.Valid() && r.cpuDuration != Null
    ensures r.CpuDuration() == Success(Truncated(r.cpuDuration))
  {
  }

  /** A stored duration of zero is kept: it is not taken for an unset one,
      since the getters test for None rather than for truth. */
  lemma ZeroDurationsKept(r: CloudRecord)
    requires r.Valid() && r.wallDuration == Int(0) && r.cpuDuration == Int(0)
    requires r.startTime.DateTime? && r.endTime.DateTime?
    ensures r.WallDuration() == Success(Int(0)) && r.CpuDuration() == Success(Int(0))
  {
  }

  /** The wall duration getter raises exactly when it has to subtract two
      stored timestamps that are not both datetimes of the same kind, naive
      or aware. */
  lemma WallDurationRaises(r: CloudRecord)
    requires r.Valid()
    ensures r.WallDuration().Failure? <==>
              && r.wallDuration == Null && r.startTime != Null && r.endTime != Null
              && !(r.startTime.DateTime? && r.endTime.DateTime? &&
                   r.startTime.aware == r.endTime.aware)
  {
  }

  /** Without an explicit value, the wall duration is the seconds from the
      start to the end instant. */
  lemma WallDurationFromTimestamps(r: CloudRecord, t0: int, n: int)
    requires r.Valid() && r.wallDuration == Null
    requires r.startTime.DateTime? && r.endTime.DateTime?
    requires r.startTime.aware == r.endTime.aware
    requires r.startTime.instant == t0 && r.endTime.instant == t0 + n
    ensures r.WallDuration() == Success(Int(n))
  {
  }

  /** When the epoch conversion shifts both timestamps by the same offset
      (a fixed-offset zone such as UTC), the derived wall duration is the
      difference of the emitted EndTime and StartTime. */
  lemma FixedOffsetWallDuration(r: CloudRecord, offset: int)
    requires r.Valid() && r.wallDuration == Null
    requires r.startTime.DateTime? && r.endTime.DateTime?
    requires r.startTime.aware == r.endTime.aware
    requires r.startTime.epoch == r.startTime.instant + offset
    requires r.endTime.epoch == r.endTime.instant + offset
    ensures r.WallDuration().Success?
    ensures EpochSeconds(r.startTime).Int? && EpochSeconds(r.endTime).Int?
    ensures r.WallDuration().value ==
              Int(EpochSeconds(r.endTime).i - EpochSeconds(r.startTime).i)
  {
  }

  /** Across a change of the local UTC offset the two part: a three-hour
      span whose local conversion loses an hour is emitted with timestamps
      two hours apart but a wall duration of three hours. */
  lemma OffsetChangeWallDuration(r: CloudRecord)
    requires r.Valid() && r.wallDuration == Null
    requires r.startTime == DateTime(0, 0, false) && r.endTime == DateTime(10800, 7200, false)
    ensures r.WallDuration() == Success(Int(10800))
    ensures EpochSeconds(r.endTime) == Int(7200) && EpochSeconds(r.startTime) == Int(0)
  {
  }

  /** A naive start and an aware end cannot be subtracted: the wall
      duration raises, and with it `map` and `as_dict`. */
  lemma MixedAwarenessRaises(r: CloudRecord)
    requires r.Valid() && r.wallDuration == Null
    requires r.startTime.DateTime? && !r.startTime.aware
    requires r.endTime.DateTime? && r.endTime.aware
    ensures r.WallDuration() == Failure(BadOperands)
    ensures r.Map() == Failure(BadOperands)
    ensures r.AsDict(None) == Failure(BadOperands)
  {
  }

  /** A datetime stored in a field that `map` emits unconverted, such as the
      status, makes `as_json` refuse the record. */
  lemma DateTimeStatusUnserializable(r: CloudRecord, encode: map<Field, Value> -> string)
    requires r.Valid() && r.Map().Success? && r.status.DateTime?
    ensures r.AsDict(None).Success?
    ensures r.AsJson(None, encode) == Failure(Unserializable)
  {
    var m, d := r.Map().value, r.AsDict(None).value;
    StatusListed();
    StatusEntry(r, r.WallDuration().value, r.CpuDuration().value);
    assert d[Status] == m[Status];
  }

  lemma StatusListed()
    ensures Status in Versioned.FieldSet(CloudRecord.V04Fields)
  {
    assert CloudRecord.V04Fields[7] == Status;
  }

  lemma StatusEntry(r: CloudRecord, wall: Value, cpu: Value)
    requires r.Valid()
    ensures r.Entry(Status, wall, cpu) == r.status
  {
  }

  /** Without an explicit value, the CPU duration is wall duration times CPU count. */
  lemma CpuDurationFromWall(r: CloudRecord, w: int, c: int)
    requires r.Valid() && r.cpuDuration == Null
    requires r.WallDuration() == Success(Int(w)) && r.cpuCount == Int(c) && c != 0
    ensures r.CpuDuration() == Success(Int(w * c))
  {
  }

  /** Without a wall duration, no CPU duration is derived, whatever the count. */
  lemma NoWallDurationNoCpuDuration(r: CloudRecord)
    requires r.Valid() && r.cpuDuration == Null && r.WallDuration() == Success(Null)
    ensures r.CpuDuration() == Success(Null)
  {
  }

  /** A CPU count of 0 or None counts as absent: no CPU duration is derived. */
  lemma FalsyCpuCountDerivesNothing(r: CloudRecord)
    requires r.Valid() && r.cpuDuration == Null && !Truthy(r.cpuCount)
    requires r.WallDuration().Success?
    ensures r.CpuDuration() == Success(Null)
  {
  }
}
