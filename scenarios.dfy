/** The source's unit tests and some worked examples, each built through
    the records' constructors and read back through `as_dict`. */
module Scenarios {
  import opened Values
  import Ascii
  import Versioned
  import CloudRecords
  import IPRecords
  import AcceleratorRecords

  /** The keys the record tests supply a value for. */
  const Supplied: set<CloudRecords.Field> := {
    CloudRecords.VMUUID, CloudRecords.SiteName, CloudRecords.MachineName,
    CloudRecords.LocalUserId, CloudRecords.LocalGroupId, CloudRecords.FQAN,
    CloudRecords.Status, CloudRecords.ImageId, CloudRecords.GlobalUserName,
    CloudRecords.CloudType
  }

  /** `d` holds the test's supplied values, the name stripped to ASCII. */
  predicate HoldsSupplied(d: map<CloudRecords.Field, Value>, uuid: Value, site: Value, machineName: string,
                          userId: Value, groupId: Value, fqan: Value, status: Value,
                          imageId: Value, userDn: Value, cloudType: Value)
  {
    && Supplied <= d.Keys
    && d[CloudRecords.VMUUID] == uuid && d[CloudRecords.SiteName] == site
    && d[CloudRecords.MachineName] == Str(machineName)
    && d[CloudRecords.LocalUserId] == userId && d[CloudRecords.LocalGroupId] == groupId
    && d[CloudRecords.FQAN] == fqan && d[CloudRecords.Status] == status
    && d[CloudRecords.ImageId] == imageId && d[CloudRecords.GlobalUserName] == userDn
    && d[CloudRecords.CloudType] == cloudType
  }

  /** A compute record built from the required arguments and the status,
      image and user DN, everything else at its default of None. */
  method NewCloudRecord(uuid: Value, site: Value, name: string, userId: Value, groupId: Value,
                        fqan: Value, status: Value, imageId: Value, userDn: Value,
                        cloudType: Value)
    returns (r: CloudRecords.CloudRecord)
    ensures fresh(r) && r.Valid()
    ensures r.uuid == uuid && r.site == site && r.name == Ascii.StripNonAscii(name)
    ensures r.userId == userId && r.groupId == groupId && r.fqan == fqan
    ensures r.status == status && r.imageId == imageId && r.userDn == userDn
    ensures r.cloudType == cloudType
    ensures r.computeService == Null && r.startTime == Null && r.endTime == Null
    ensures r.suspendDuration == Null && r.wallDuration == Null && r.cpuDuration == Null
    ensures r.networkType == Null && r.networkIn == Null && r.networkOut == Null
    ensures r.publicIpCount == Null && r.cpuCount == Null && r.memory == Null
    ensures r.disk == Null && r.storageRecordId == Null
    ensures r.benchmarkValue == Null && r.benchmarkType == Null
  {
    r := new CloudRecords.CloudRecord(uuid, site, name, userId, groupId, fqan, cloudType,
                                      status := status, imageId := imageId, userDn := userDn);
  }

  /** Version "0.0" is refused by `as_dict` and by `as_json`. */
  method InvalidVersion(uuid: Value, site: Value, name: string, userId: Value, groupId: Value,
                        fqan: Value, cloudType: Value,
                        encode: map<CloudRecords.Field, Value> -> string)
    returns (dict: Result<map<CloudRecords.Field, Value>>, json: Result<string>)
    ensures dict == Failure(VersionNotFound("0.0"))
    ensures json == Failure(VersionNotFound("0.0"))
  {
    var r := NewCloudRecord(uuid, site, name, userId, groupId, fqan, Null, Null, Null, cloudType);
    dict := r.AsDict(Some("0.0"));
    json := r.AsJson(Some("0.0"), encode);
  }

  /** Both versions of a record built from the required arguments hold the
      supplied values, and None under every other key. */
  method RequiredFields(uuid: Value, site: Value, name: string, userId: Value, groupId: Value,
                        fqan: Value, status: Value, imageId: Value, userDn: Value,
                        cloudType: Value)
    returns (d02: map<CloudRecords.Field, Value>, d04: map<CloudRecords.Field, Value>)
    ensures d02.Keys == Versioned.FieldSet(CloudRecords.CloudRecord.V02Fields)
    ensures d04.Keys == Versioned.FieldSet(CloudRecords.CloudRecord.V04Fields)
    ensures HoldsSupplied(d02, uuid, site, Ascii.StripNonAscii(name), userId, groupId, fqan,
                          status, imageId, userDn, cloudType)
    ensures HoldsSupplied(d04, uuid, site, Ascii.StripNonAscii(name), userId, groupId, fqan,
                          status, imageId, userDn, cloudType)
    ensures forall f :: f in d02 && f !in Supplied ==> d02[f] == Null
    ensures forall f :: f in d04 && f !in Supplied ==> d04[f] == Null
  {
    var r := NewCloudRecord(uuid, site, name, userId, groupId, fqan, status, imageId, userDn,
                            cloudType);
    DefaultsAreNone(r);
    SuppliedInEveryVersion();
    SuppliedEntries(r, Null, Null);
    d02 := r.AsDict(Some("0.2")).value;
    d04 := r.AsDict(Some("0.4")).value;
  }

  /** The test name "BujamyWObłokach" is emitted without its Polish l. */
  method NoNonAsciiCharacters(uuid: Value, site: Value, userId: Value, groupId: Value,
                              fqan: Value, status: Value, imageId: Value, userDn: Value,
                              cloudType: Value)
    returns (machineName: Value)
    ensures machineName == Str("BujamyWObokach")
  {
    var d02, _ := RequiredFields(uuid, site, "BujamyWObłokach", userId, groupId, fqan, status,
                                 imageId, userDn, cloudType);
    Ascii.StripExample();
    machineName := d02[CloudRecords.MachineName];
  }

  /** A one-hour run on two CPUs, its timestamps converted in UTC,
      formatted as version "0.4". */
  method HourOnTwoCpus(cloudType: Value) returns (d: map<CloudRecords.Field, Value>)
    ensures d.Keys == Versioned.FieldSet(CloudRecords.CloudRecord.V04Fields)
    ensures d[CloudRecords.WallDuration] == Int(3600)
    ensures d[CloudRecords.CpuDuration] == Int(7200)
    ensures d[CloudRecords.MachineName] == Str("vm-1")
    ensures d[CloudRecords.StartTime] == Int(1609459200)
  {
    var start, end := DateTime(1609459200, 1609459200, true), DateTime(1609459200 + 3600, 1609459200 + 3600, true);
    var r := new CloudRecords.CloudRecord(Str("vm-1"), Str("SiteA"), "vm-é1", Str("u1"),
                                          Str("g1"), Str("f1"), cloudType, startTime := start,
                                          endTime := end, cpuCount := Int(2));
    CloudRecords.WallDurationFromTimestamps(r, 1609459200, 3600);
    CloudRecords.CpuDurationFromWall(r, 3600, 2);
    CloudRecords.MapEntries(r);
    AccentDropped();
    d := r.AsDict(Some("0.4")).value;
  }

  /** A public IP snapshot without a user DN: all ten keys, None among them. */
  method SnapshotWithoutDn(t: int, cloudType: Value) returns (d: map<IPRecords.Field, Value>)
    ensures d.Keys == Versioned.FieldSet(IPRecords.IPRecord.V02Fields) && |d| == 10
    ensures d[IPRecords.GlobalUserName] == Null
    ensures d[IPRecords.MeasurementTime] == Int(t)
  {
    var r := new IPRecords.IPRecord(DateTime(t, t, true), Str("S"), Str("u"), Str("g"), Null,
                                    Str("f"), Int(4), Int(3), cloudType);
    IPRecords.OnlyVersion02(r, "0.2", m => "");
    assert IPRecords.IPRecord.V02Fields[6] == IPRecords.GlobalUserName;
    d := r.AsDict(None).value;
    assert d[IPRecords.GlobalUserName] == r.Entry(IPRecords.GlobalUserName);
  }

  /** An accelerator built from the required arguments only: it is
      associated with a "cloud" record and, with no active duration
      stored, reports its whole available duration as active. */
  method FullyUsedDevice() returns (active: Value, recordType: Value)
    ensures active == Int(1000)
    ensures recordType == Str("cloud")
  {
    var r := new AcceleratorRecords.AcceleratorRecord(
      Str("vm-2"), Str("f"), Str("S"), Int(2), Int(1000), Str("GPU"), Int(6), Int(2021));
    AcceleratorRecords.ActiveDefaultsToAvailable(r);
    AcceleratorRecords.AssociationEmitted(r);
    var d := r.AsDict(None).value;
    active, recordType := d[AcceleratorRecords.ActiveDuration], d[AcceleratorRecords.AssociatedRecordType];
  }

  /** A worked example: the name "vm-é1" loses its accented e. */
  lemma AccentDropped()
    ensures Ascii.StripNonAscii("vm-é1") == "vm-1"
  {
    var head, tail := "vm-", "1";
    assert Ascii.AllAscii(head) && Ascii.AllAscii(tail);
    Ascii.DropOne(head, 'é', tail);
    assert head + ['é'] + tail == "vm-é1";
    assert head + tail == "vm-1";
  }

  /** The stored fields that the record tests leave at None. */
  ghost predicate OnlySupplied(r: CloudRecords.CloudRecord)
    reads r
  {
    && r.computeService == Null && r.startTime == Null && r.endTime == Null
    && r.suspendDuration == Null && r.wallDuration == Null && r.cpuDuration == Null
    && r.networkType == Null && r.networkIn == Null && r.networkOut == Null
    && r.publicIpCount == Null && r.cpuCount == Null && r.memory == Null
    && r.disk == Null && r.storageRecordId == Null
    && r.benchmarkValue == Null && r.benchmarkType == Null
  }

  /** With only the supplied fields stored, no duration is derived and
      every key but the supplied ones carries None. */
  lemma DefaultsAreNone(r: CloudRecords.CloudRecord)
    requires r.Valid() && OnlySupplied(r)
    ensures r.WallDuration() == Success(Null) && r.CpuDuration() == Success(Null)
    ensures forall f :: f !in Supplied ==> r.Entry(f, Null, Null) == Null
  {
  }

  /** The supplied keys carry the stored fields, the name as stored. */
  lemma SuppliedEntries(r: CloudRecords.CloudRecord, w: Value, c: Value)
    requires r.Valid()
    ensures r.Entry(CloudRecords.VMUUID, w, c) == r.uuid
    ensures r.Entry(CloudRecords.SiteName, w, c) == r.site
    ensures r.Entry(CloudRecords.MachineName, w, c) == Str(r.name)
    ensures r.Entry(CloudRecords.LocalUserId, w, c) == r.userId
    ensures r.Entry(CloudRecords.LocalGroupId, w, c) == r.groupId
    ensures r.Entry(CloudRecords.FQAN, w, c) == r.fqan
    ensures r.Entry(CloudRecords.Status, w, c) == r.status
    ensures r.Entry(CloudRecords.ImageId, w, c) == r.imageId
    ensures r.Entry(CloudRecords.GlobalUserName, w, c) == r.userDn
    ensures r.Entry(CloudRecords.CloudType, w, c) == r.cloudType
  {
  }

  lemma SuppliedInEveryVersion()
    ensures Supplied <= Versioned.FieldSet(CloudRecords.CloudRecord.V02Fields)
    ensures Supplied <= Versioned.FieldSet(CloudRecords.CloudRecord.V04Fields)
  {
    CloudRecords.V04FieldNames();
  }
}
