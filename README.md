# cASO accounting records in Dafny

cASO collects usage of an OpenStack cloud and reports it as accounting
records. `caso/record.py` defines the three record types it emits:

- `CloudRecord`, a virtual machine's usage. It follows the Cloud Accounting
  Record, versions "0.2" and "0.4".
- `IPRecord`, a snapshot of the public IPs a project holds. It follows the
  Public IP Usage Record, version "0.2".
- `AcceleratorRecord`, a GPU's usage. It follows the Accelerator Usage
  Record, version "0.1".

Each record stores its fields, has validating setters for some of them, and
derives some values on every read. `map` puts every field under its
canonical key. `as_dict(version)` keeps the keys that the requested schema
version lists, and refuses a version the record does not know.

This project models those three classes and proves properties of them.

- `values.dfy` (module `Values`): the dynamically typed Python values as a
  `Value` datatype. It also holds Python truthiness, the setters' guards, the
  integer conversion the duration getters apply, the timestamp-to-epoch
  conversion, and the errors the records raise.
- `ascii.dfy` (module `Ascii`): the name normalisation, which drops every
  character outside 7-bit ASCII. It proves the normalisation idempotent,
  order preserving, and the identity exactly on ASCII strings.
- `versioned.dfy` (module `Versioned`): the version filtering that all three
  `as_dict` methods share, and `as_json` over an opaque JSON writer.
- `cloud_record.dfy`, `ip_record.dfy` and `accelerator_record.dfy`: one class
  per record. Fields that the source updates are class fields. Setters are
  methods that fail without storing. Getters, `map` and `as_dict` are
  functions over the fields.
- `scenarios.dfy` (module `Scenarios`): the source's unit tests and some
  worked examples, each building a record and reading it back through
  `as_dict`.

Each record's keys are a datatype `Field`, one constructor per key. `Name`
spells each key exactly as the source does, and `NamesDistinct` proves that
distinct keys are spelled differently. A field list is a `seq<Field>`, in
the source's order.

Python behaviour worth knowing, as the code has it:

- A setter checks types only for a truthy value. None, `0`, `False` and `""`
  are stored unchecked by every validating setter.
- The duration getters test the stored value with `is not None`, not for
  truth (record.py:157, 172). So an explicitly stored duration of `0` is
  kept and wins over the timestamps (`ZeroDurationsKept`).
- A datetime is used in two ways. The wall duration subtracts the datetimes
  themselves (record.py:160), while `map` emits each timestamp as its "%s"
  formatting (record.py:214-219), which converts through the local time
  zone. So a datetime carries both numbers, and the emitted EndTime minus
  StartTime equals the wall duration only when the conversion uses one fixed
  offset for both (`FixedOffsetWallDuration`, `OffsetChangeWallDuration`).
- `as_json` can fail where `as_dict` succeeds: the JSON writer refuses a
  datetime stored in a field that `map` passes on unconverted
  (`DateTimeStatusUnserializable`, `JsonIffNoStoredDateTime`).
- A CPU count of `0` or None counts as absent.
- The derived durations can raise, for example when a stored timestamp is
  `""` or `0` and the other is a datetime, or when one timestamp is a naive
  datetime and the other an offset-aware one (`MixedAwarenessRaises`). The model makes `WallDuration`,
  `CpuDuration`, `Map` and `AsDict` return a `Result` and proves when they
  fail.
- `as_dict` refuses an unknown version before it computes `map`. So an
  unknown version gives `VersionNotFound` even when `map` would raise.

## Model

| member | source | states |
|---|---|---|
| Values.Truncated | caso/record.py:161 | a falsy duration comes back unchanged and a truthy one becomes a truthy integer: an int is returned as it is and True becomes 1 |
| Values.EpochSeconds | caso/record.py:214-219 | an unset timestamp is emitted as it is and a datetime as its epoch second; the result is never a datetime |
| Ascii.StripNonAscii | caso/record.py:150-152 | the stored name is all ASCII and no longer than the input |
| Ascii.StripAppend | caso/record.py:152 | stripping distributes over concatenation, so characters are kept in order |
| Ascii.StripFixesExactlyAscii | caso/record.py:152 | stripping leaves a string unchanged if and only if it is all ASCII |
| Ascii.StripIdempotent | caso/record.py:152 | setting a name twice stores the same as setting it once |
| Ascii.StripKeepsAsciiCounts | caso/record.py:152 | every ASCII character occurs as often after stripping as before, and no other character occurs |
| Ascii.DropOne | caso/record.py:152 | one non-ASCII character between two ASCII strings is dropped and the rest is kept |
| Ascii.StripExample | caso/tests/test_record.py:109-128 | "BujamyWObłokach" is stored as "BujamyWObokach" |
| Versioned.Requested | caso/record.py:137-138 | no version means the record's own version |
| Versioned.AsDict | caso/record.py:129-144 | an unknown version fails with VersionNotFound; a known one succeeds exactly when `map` does, with exactly the keys of `map` that the version lists, each with `map`'s value |
| Versioned.AsJson | caso/record.py:240-241 | `as_json` fails exactly when `as_dict` fails, with the same error, or when `as_dict` succeeds but holds a datetime, with Unserializable; otherwise it encodes `as_dict`'s result |
| Versioned.OlderIsRestriction | caso/record.py:143-144 | when an older version's fields are among a newer one's, the older result has exactly its own fields and agrees with the newer result |
| CloudRecords.Name | caso/record.py:206-237 | each compute-record key is spelled as the source's `map` spells it |
| CloudRecords.NamesDistinct | caso/record.py:35-65 | no two compute-record keys are spelled alike |
| CloudRecords.CpuProduct | caso/record.py:173-176 | number times number is their integer product; any failure is BadOperands |
| CloudRecords.CloudRecord.constructor | caso/record.py:72-124 | `__init__` with accepted arguments stores every field as given and the name stripped to ASCII; the record is valid; every optional argument after the cloud type defaults to None |
| CloudRecords.CloudRecord.Create | caso/record.py:99-124 | `__init__` with a string name and any other arguments fails exactly when a timestamp or duration guard fails, with the message of the first setter that raises; otherwise it stores every field as given |
| CloudRecords.CloudRecord.SetName | caso/record.py:150-152 | the stored name is the input stripped to ASCII; nothing else changes |
| CloudRecords.CloudRecord.SetWallDuration | caso/record.py:163-167 | fails exactly on a truthy non-number and then stores nothing; otherwise stores the value verbatim, and the getter reads back its truncation |
| CloudRecords.CloudRecord.SetCpuDuration | caso/record.py:178-182 | the same for the CPU duration |
| CloudRecords.CloudRecord.SetStartTime | caso/record.py:188-192 | fails exactly on a truthy non-datetime and then stores nothing; otherwise stores the value verbatim |
| CloudRecords.CloudRecord.SetEndTime | caso/record.py:198-202 | the same for the end time |
| CloudRecords.CloudRecord.WallDuration | caso/record.py:154-161 | it fails only with BadOperands and only without an explicit value; a truthy result is an integer; it is None exactly when no value is stored and a timestamp is missing |
| CloudRecords.CloudRecord.CpuDuration | caso/record.py:169-176 | it fails only with BadOperands and only without an explicit value; a truthy result is an integer |
| CloudRecords.CloudRecord.Entry | caso/record.py:206-237 | the value `map` puts under each key: the stripped name, both timestamps as epoch seconds, the two derived durations, and every other field as stored |
| CloudRecords.CloudRecord.Map | caso/record.py:204-238 | `map` fails exactly when a derived duration fails; otherwise its keys are exactly the 26 "0.4" fields |
| CloudRecords.CloudRecord.AsDict | caso/record.py:129-144 | an unknown version fails with VersionNotFound; a known one succeeds exactly when `map` does, with exactly that version's keys and `map`'s values |
| CloudRecords.CloudRecord.AsJson | caso/record.py:240-241 | fails exactly when `as_dict` fails, with the same error, or when `as_dict` succeeds but holds a datetime, with Unserializable; otherwise it encodes `as_dict`'s result |
| CloudRecords.MapEntries | caso/record.py:208-222 | `map` holds the stripped name, both timestamps as epoch seconds, and the two getters' durations |
| CloudRecords.V04FieldNames | caso/record.py:35-65 | the "0.2" and "0.4" field lists hold exactly the listed keys |
| CloudRecords.V02NamesCount | caso/record.py:35-58 | the "0.2" fields are 22 distinct keys |
| CloudRecords.V04NamesCount | caso/record.py:35-65 | the "0.4" fields are 26 distinct keys |
| CloudRecords.V04AddsFourFields | caso/record.py:60-65 | "0.4" holds the "0.2" fields and exactly CloudComputeService, BenchmarkType, Benchmark and PublicIPCount besides |
| CloudRecords.NewFieldsAreNew | caso/record.py:60-65 | none of those four keys is a "0.2" field |
| CloudRecords.DefaultVersion | caso/record.py:33 | without a version, `as_dict` formats "0.4" |
| CloudRecords.UnknownVersion | caso/record.py:140-141 | every version other than "0.2" and "0.4" is refused by `as_dict` and `as_json` with VersionNotFound |
| CloudRecords.V02IsRestrictionOfV04 | caso/record.py:35-70 | `as_dict("0.2")` has strictly fewer keys than `as_dict("0.4")`, lacks exactly the four new ones, and agrees with it on the rest |
| CloudRecords.ExplicitWallDurationWins | caso/record.py:156-158 | a stored wall duration is read back truncated, whatever the timestamps |
| CloudRecords.ExplicitCpuDurationWins | caso/record.py:171-173 | a stored CPU duration is read back truncated, whatever the wall duration |
| CloudRecords.ZeroDurationsKept | caso/record.py:154-176 | a stored duration of 0 is read back as 0, even when the timestamps span time |
| CloudRecords.WallDurationRaises | caso/record.py:159-160 | the wall duration raises if and only if no value is stored and the two stored timestamps are not both datetimes of the same kind, naive or aware |
| CloudRecords.MixedAwarenessRaises | caso/record.py:159-160 | a naive start and an aware end make the wall duration, `map` and `as_dict` raise |
| CloudRecords.DateTimeStatusUnserializable | caso/record.py:240-241 | a datetime stored as the status passes `as_dict` but makes `as_json` fail with Unserializable |
| CloudRecords.WallDurationFromTimestamps | caso/record.py:159-161 | without a stored value, the wall duration is the seconds from the start instant to the end instant |
| CloudRecords.FixedOffsetWallDuration | caso/record.py:159-161 | when both timestamps are converted with the same UTC offset, the derived wall duration is the emitted EndTime minus the emitted StartTime |
| CloudRecords.OffsetChangeWallDuration | caso/record.py:159-161 | across a change of UTC offset, three hours of wall duration go with emitted timestamps two hours apart |
| CloudRecords.CpuDurationFromWall | caso/record.py:174-176 | without a stored value, the CPU duration is wall duration times a nonzero CPU count |
| CloudRecords.NoWallDurationNoCpuDuration | caso/record.py:174 | without a wall duration no CPU duration is derived |
| CloudRecords.FalsyCpuCountDerivesNothing | caso/record.py:174 | a CPU count of 0 or None derives no CPU duration |
| IPRecords.Name | caso/record.py:321-334 | each IP-record key is spelled as the source's `map` spells it |
| IPRecords.IPRecord.Entry | caso/record.py:321-334 | the value `map` puts under each key: the measurement time as epoch seconds and every other field as stored |
| IPRecords.NamesDistinct | caso/record.py:253-264 | no two IP-record keys are spelled alike |
| IPRecords.IPRecord.constructor | caso/record.py:270-287 | `__init__` with an accepted measurement time stores every field as given; the compute service defaults to None |
| IPRecords.IPRecord.Create | caso/record.py:270-287 | `__init__` fails exactly on a truthy non-datetime measurement time; otherwise it stores every field as given |
| IPRecords.IPRecord.SetMeasureTime | caso/record.py:313-317 | fails exactly on a truthy non-datetime and then stores nothing; otherwise stores the value verbatim |
| IPRecords.IPRecord.Map | caso/record.py:319-335 | the keys of `map` are exactly the ten "0.2" fields |
| IPRecords.IPRecord.AsDict | caso/record.py:292-307 | an unknown version fails with VersionNotFound; "0.2" gives exactly its keys with `map`'s values |
| IPRecords.IPRecord.AsJson | caso/record.py:337-338 | fails exactly when `as_dict` fails, with the same error, or when `as_dict` succeeds but holds a datetime, with Unserializable; otherwise it encodes `as_dict`'s result |
| IPRecords.V02FieldNames | caso/record.py:253-264 | the field list holds exactly the ten listed keys |
| IPRecords.V02NamesCount | caso/record.py:253-264 | those keys are ten distinct ones |
| IPRecords.JsonIffNoStoredDateTime | caso/record.py:319-338 | `as_json` succeeds if and only if no field other than the measurement time, which `map` converts to epoch seconds, holds a datetime |
| IPRecords.OnlyVersion02 | caso/record.py:300-307 | without a version "0.2" is used; it yields ten entries, with the measurement time as epoch seconds; every other version is refused by `as_dict` and `as_json` |
| AcceleratorRecords.Name | caso/record.py:432-448 | each accelerator-record key is spelled as the source's `map` spells it |
| AcceleratorRecords.AcceleratorRecord.Entry | caso/record.py:432-448 | the value `map` puts under each key: the uuid as associated record, the active duration as its getter gives it, and every other field as stored |
| AcceleratorRecords.NamesDistinct | caso/record.py:350-366 | no two accelerator-record keys are spelled alike |
| AcceleratorRecords.AcceleratorRecord.constructor | caso/record.py:372-398 | `__init__` stores every argument as given, without validation; the associated record type defaults to "cloud" and the other optional arguments to None |
| AcceleratorRecords.AcceleratorRecord.ActiveDuration | caso/record.py:403-407 | the active duration is the stored one unless that is None, and then the available duration |
| AcceleratorRecords.AcceleratorRecord.SetActiveDuration | caso/record.py:409-411 | stores anything; a non-None value is read back, None restores the fallback; no other field changes |
| AcceleratorRecords.AcceleratorRecord.Map | caso/record.py:430-449 | the keys of `map` are exactly the fifteen "0.1" fields |
| AcceleratorRecords.AcceleratorRecord.AsDict | caso/record.py:413-428 | an unknown version fails with VersionNotFound; "0.1" gives exactly its keys with `map`'s values |
| AcceleratorRecords.AcceleratorRecord.AsJson | caso/record.py:451-452 | fails exactly when `as_dict` fails, with the same error, or when `as_dict` succeeds but holds a datetime, with Unserializable; otherwise it encodes `as_dict`'s result |
| AcceleratorRecords.V01FieldNames | caso/record.py:350-366 | the field list holds exactly the fifteen listed keys |
| AcceleratorRecords.V01NamesCount | caso/record.py:350-366 | those keys are fifteen distinct ones |
| AcceleratorRecords.OnlyVersion01 | caso/record.py:421-428 | without a version "0.1" is used; it yields fifteen entries; every other version is refused by `as_dict` and `as_json` |
| AcceleratorRecords.AssociationEmitted | caso/record.py:435-436 | `as_dict` emits the associated record type and the associated record (the uuid) as stored |
| AcceleratorRecords.ActiveDefaultsToAvailable | caso/record.py:436-442 | with no active duration stored, `as_dict` reports the available duration as both active and available |
| Scenarios.NewCloudRecord | caso/record.py:72-98 | a record built from the required arguments plus status, image and user DN holds None in every other field |
| Scenarios.InvalidVersion | caso/tests/test_record.py:28-40 | version "0.0" is refused by `as_dict` and by `as_json` |
| Scenarios.RequiredFields | caso/tests/test_record.py:42-104 | both versions hold the supplied values and None under every other key |
| Scenarios.DefaultsAreNone | caso/tests/test_record.py:66-86 | with only those fields stored, no duration is derived and every other key carries None |
| Scenarios.SuppliedInEveryVersion | caso/tests/test_record.py:53-64 | every supplied key is a "0.2" and a "0.4" field |
| Scenarios.NoNonAsciiCharacters | caso/tests/test_record.py:106-128 | the test's name is emitted as "BujamyWObokach" |
| Scenarios.AccentDropped | caso/record.py:150-152 | "vm-é1" is stored as "vm-1" |
| Scenarios.HourOnTwoCpus | caso/record.py:154-176 | a one-hour run on two CPUs reports 3600 wall seconds, 7200 CPU seconds, the stripped name and the start as epoch seconds |
| Scenarios.SnapshotWithoutDn | caso/record.py:319-335 | an IP snapshot has exactly the ten keys, with None as user DN and the measurement time as epoch seconds |
| Scenarios.FullyUsedDevice | caso/record.py:372-407 | an accelerator built from the required arguments only is associated with a "cloud" record and, with 1000 seconds available and no active duration, reports 1000 active seconds |

## Left out

- `as_json` and `json.dumps`: the JSON writer is the parameter `encode`. The model proves that `as_json` encodes `as_dict`'s result, fails as `as_dict` does, and fails as well when that result holds a datetime, the one value here that the writer refuses. The text it writes and the claim that `json.loads` inverts it belong to the JSON library.
- `__repr__` and `pprint.pformat`: these only format output.
- The "%s" conversion of a datetime and datetime subtraction: a datetime carries both results as two independent numbers, its instant and its epoch second. How the platform and the local time zone compute the epoch second from the instant is not modelled, so no lemma relates the two beyond the fixed-offset case.
- Floats: `Value` has no float, so a float in any field cannot be represented. That covers a float duration, memory, disk, network volume or CPU count. `total_seconds()` and the `int()` truncation of a float are not modelled, including a derived CPU duration such as a wall duration times a count of 1.5 (record.py:175-176). A derived wall duration of zero seconds is `0.0` in Python and `Int(0)` here.
- `caso.user_agent`, the default cloud type of `CloudRecord` and `IPRecord` (record.py:74, 274): it comes from a module that is not part of this model. The cloud type is a required argument; every other default of the three `__init__` methods is a default argument of the constructors and of `Create`.
- The `vo`, `vo_group` and `vo_role` arguments of `CloudRecord.__init__`: the source accepts them and ignores them.
- The record classes' constructors require what their setters accept. `CloudRecord.Create` and `IPRecord.Create` model `__init__` with arbitrary arguments, error paths included.
- The `exception` module is not part of this model. `RecordVersionNotFound` is the error `VersionNotFound(version)`.
- Exception types: a failing derived duration raises `TypeError`, `AttributeError` or `ValueError` in Python (the last from `int()` of a repeated string CPU count). Both are the single error `BadOperands`, and the `TypeError` of the JSON writer is `Unserializable`.
- CloudRecords.CpuProduct: a number times a non-empty string CPU count is modelled as raising. Python repeats the string instead. A non-empty repetition then goes through `int()`, so 1 times "5" gives 5. An empty one, from a wall duration of 0 or less, is returned unconverted, so 0 times "ab" gives "".
- CloudRecords.CloudRecord.SetName: the name is a string. A non-string name, which makes the Python setter raise, is not modelled.
- CloudRecords.CloudRecord.Create: for the same reason, the `AttributeError` that `__init__` raises for a non-string name (record.py:101), before any timestamp or duration check, is not modelled.
- Dictionary order: a Dafny `map` has none, so the order of keys in `as_dict` and `as_json` is not modelled.
- Writes that bypass the setters, such as assigning `_wall_duration` directly from Python, are not modelled. The class invariant `Valid` assumes that every write goes through a setter.
