/** The accelerator (GPU) usage record, version "0.1" of the Accelerator
    Usage Record. */
module AcceleratorRecords {
  import opened Values
  import Versioned

  /** The keys of the record's field map; `Name` spells each as the
      serialised key. */
  datatype Field =
    | MeasurementMonth | MeasurementYear | AssociatedRecordType | AssociatedRecord
    | GlobalUserName | FQAN | SiteName | Count | Cores | ActiveDuration
    | AvailableDuration | BenchmarkType | Benchmark | Type | Model

  function Name(f: Field): string {
    match f
    case MeasurementMonth => "MeasurementMonth"
    case MeasurementYear => "MeasurementYear"
    case AssociatedRecordType => "AssociatedRecordType"
    case AssociatedRecord => "AssociatedRecord"
    case GlobalUserName => "GlobalUserName"
    case FQAN => "FQAN"
    case SiteName => "SiteName"
    case Count => "Count"
    case Cores => "Cores"
    case ActiveDuration => "ActiveDuration"
    case AvailableDuration => "AvailableDuration"
    case BenchmarkType => "BenchmarkType"
    case Benchmark => "Benchmark"
    case Type => "Type"
    case Model => "Model"
  }

  /** Distinct keys are spelled differently, so the serialised mapping has
      one entry per key. */
  lemma NamesDistinct(f: Field, g: Field)
    ensures Name(f) == Name(g) ==> f == g
  {
  }

  class AcceleratorRecord {
    static const Version: string := "0.1"

    static const V01Fields: seq<Field> := [
      MeasurementMonth, MeasurementYear, AssociatedRecordType, AssociatedRecord,
      GlobalUserName, FQAN, SiteName, Count, Cores, Field.ActiveDuration,
      AvailableDuration, BenchmarkType, Benchmark, Type, Model
    ]

    /** The "0.1" field names as a set. */
    static const V01Names: set<Field> := {
      MeasurementMonth, MeasurementYear, AssociatedRecordType, AssociatedRecord,
      GlobalUserName, FQAN, SiteName, Count, Cores, Field.ActiveDuration,
      AvailableDuration, BenchmarkType, Benchmark, Type, Model
    }

    static const VersionFieldMap: map<string, seq<Field>> := map["0.1" := V01Fields]

    /** The default associated record type. */
    static const CloudRecordType: Value := Str("cloud")

    var measurementMonth: Value
    var measurementYear: Value
    var associatedRecordType: Value
    var uuid: Value               // the associated record's identifier
    var fqan: Value
    var site: Value
    var count: Value
    var availableDuration: Value
    var acceleratorType: Value
    var userDn: Value
    var cores: Value
    var activeDuration: Value     // `_active_duration`, the explicit value if any
    var benchmarkType: Value
    var benchmark: Value
    var model: Value

    /** `__init__`: nothing is validated, every field is stored as given. The
        associated record type defaults to "cloud" and the other optional
        arguments to None, as in the source. */
    constructor (uuid: Value, fqan: Value, site: Value, count: Value, availableDuration: Value,
                 acceleratorType: Value, measurementMonth: Value, measurementYear: Value,
                 associatedRecordType: Value := CloudRecordType, userDn: Value := Null,
                 cores: Value := Null, activeDuration: Value := Null,
                 benchmarkType: Value := Null, benchmark: Value := Null, model: Value := Null)
      ensures this.uuid == uuid && this.fqan == fqan && this.site == site && this.count == count
      ensures this.availableDuration == availableDuration && this.acceleratorType == acceleratorType
      ensures this.measurementMonth == measurementMonth && this.measurementYear == measurementYear
      ensures this.associatedRecordType == associatedRecordType && this.userDn == userDn
      ensures this.cores == cores && this.activeDuration == activeDuration
      ensures this.benchmarkType == benchmarkType && this.benchmark == benchmark
      ensures this.model == model
    {
      this.measurementMonth := measurementMonth;
      this.measurementYear := measurementYear;
      this.associatedRecordType := associatedRecordType;
      this.uuid := uuid;
      this.fqan := fqan;
      this.site := site;
      this.count := count;
      this.availableDuration := availableDuration;
      this.acceleratorType := acceleratorType;
      this.userDn := userDn;
      this.cores := cores;
      this.activeDuration := activeDuration;
      this.benchmarkType := benchmarkType;
      this.benchmark := benchmark;
      this.model := model;
    }

    /** The `active_duration` getter: the explicit value while one is stored,
        the available duration otherwise. */
    function ActiveDuration(): (d: Value)
      reads this
      ensures activeDuration == Null ==> d == availableDuration
      ensures activeDuration != Null ==> d == activeDuration
    {
      if activeDuration != Null then activeDuration else availableDuration
    }

    /** The `active_duration` setter: stores anything, unchecked. A value
        other than None is read back as it is; None restores the fallback
        to the available duration. */
    method SetActiveDuration(value: Value)
      modifies this`activeDuration
      ensures activeDuration == value
      ensures value != Null ==> ActiveDuration() == value
      ensures value == Null ==> ActiveDuration() == availableDuration
    {
      activeDuration := value;
    }

    /** The value `map` stores under key `f`: the associated record is the
        uuid and the active duration is the getter's value. */
    function Entry(f: Field): Value
      reads this
    {
      match f
      case MeasurementMonth => measurementMonth
      case MeasurementYear => measurementYear
      case AssociatedRecordType => associatedRecordType
      case AssociatedRecord => uuid
      case GlobalUserName => userDn
      case FQAN => fqan
      case SiteName => site
      case Count => count
      case Cores => cores
      case ActiveDuration => ActiveDuration()
      case AvailableDuration => availableDuration
      case BenchmarkType => benchmarkType
      case Benchmark => benchmark
      case Type => acceleratorType
      case Model => model
    }

    /** `map`: every field of the record under its key. */
    function Map(): (m: map<Field, Value>)
      reads this
      ensures m.Keys == Versioned.FieldSet(V01Fields)
      ensures forall f :: f in m ==> m[f] == Entry(f)
    {
      map f | f in V01Fields :: Entry(f)
    }

    /** `as_dict(version)`: the version's fields of `map`, exactly; an unknown
        version raises RecordVersionNotFound. */
    function AsDict(version: Option<string>): (r: Result<map<Field, Value>>)
      reads this
      ensures var v := Versioned.Requested(Version, version);
              && (v !in VersionFieldMap ==> r == Failure(VersionNotFound(v)))
              && (v in VersionFieldMap ==> r.Success?)
              && (r.Success? ==> r.value.Keys == Versioned.FieldSet(VersionFieldMap[v]))
              && (r.Success? ==> forall k :: k in r.value ==> r.value[k] == Map()[k])
    {
      Versioned.AsDict(VersionFieldMap, Version, version, Success(Map()))
    }

    /** `as_json(version)`: the JSON text `encode` writes for `as_dict(version)`,
        refused when a field emitted unconverted holds a datetime. */
    function AsJson(version: Option<string>, encode: map<Field, Value> -> string): (r: Result<string>)
      reads this
      ensures AsDict(version).Failure? ==> r == Failure(AsDict(version).error)
      ensures AsDict(version).Success? ==>
                (r.Success? <==> Versioned.Serializable(AsDict(version).value))
      ensures AsDict(version).Success? && r.Failure? ==> r.error == Unserializable
      ensures r.Success? ==> r.value == encode(AsDict(version).value)
    {
      Versioned.AsJson(AsDict(version), encode)
    }
  }

  lemma V01FieldNames()
    ensures Versioned.FieldSet(AcceleratorRecord.V01Fields) == AcceleratorRecord.V01Names
  {
  }

  lemma V01NamesCount()
    ensures |AcceleratorRecord.V01Names| == 15
  {
  }

  /** Without a version, `as_dict` formats version "0.1", which holds fifteen
      fields; every other version is refused, by `as_json` too. */
  lemma OnlyVersion01(r: AcceleratorRecord, v: string, encode: map<Field, Value> -> string)
    ensures r.AsDict(None) == r.AsDict(Some("0.1"))
    ensures r.AsDict(None).Success? && |r.AsDict(None).value| == 15
    ensures v != "0.1" ==> r.AsDict(Some(v)) == Failure(VersionNotFound(v))
    ensures v != "0.1" ==> r.AsJson(Some(v), encode) == Failure(VersionNotFound(v))
  {
    var d := r.AsDict(None).value;
    assert d.Keys == Versioned.FieldSet(AcceleratorRecord.V01Fields);
    V01FieldNames();
    V01NamesCount();
    assert |d| == |d.Keys|;
  }

  /** While no active duration is stored, the emitted one is the available
      duration: the device counts as fully used. */
  lemma ActiveDefaultsToAvailable(r: AcceleratorRecord)
    requires r.activeDuration == Null
    ensures r.AsDict(None).Success?
    ensures r.AsDict(None).value[ActiveDuration] == r.availableDuration
    ensures r.AsDict(None).value[AvailableDuration] == r.availableDuration
  {
    var m, d := r.Map(), r.AsDict(None);
    assert d.value.Keys == Versioned.FieldSet(AcceleratorRecord.V01Fields);
    assert AcceleratorRecord.V01Fields[9] == ActiveDuration;
    assert AcceleratorRecord.V01Fields[10] == AvailableDuration;
    assert d.value[ActiveDuration] == m[ActiveDuration] == r.Entry(ActiveDuration);
    assert d.value[AvailableDuration] == m[AvailableDuration] == r.Entry(AvailableDuration);
  }

  /** `as_dict` emits the associated record and its type as stored. */
  lemma AssociationEmitted(r: AcceleratorRecord)
    ensures r.AsDict(None).Success?
    ensures r.AsDict(None).value[AssociatedRecordType] == r.associatedRecordType
    ensures r.AsDict(None).value[AssociatedRecord] == r.uuid
  {
    var m, d := r.Map(), r.AsDict(None);
    assert d.value.Keys == Versioned.FieldSet(AcceleratorRecord.V01Fields);
    assert AcceleratorRecord.V01Fields[2] == AssociatedRecordType;
    assert AcceleratorRecord.V01Fields[3] == AssociatedRecord;
    assert d.value[AssociatedRecordType] == m[AssociatedRecordType] == r.Entry(AssociatedRecordType);
    assert d.value[AssociatedRecord] == m[AssociatedRecord] == r.Entry(AssociatedRecord);
  }
}
