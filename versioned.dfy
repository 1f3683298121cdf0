/** The version-gated filtering that every record's `as_dict` performs: pick
    the requested schema version (or the record's own), refuse a version the
    record's table does not know, and keep only that version's fields of the
    record's full field map. */
module Versioned {
  import opened Values

  /** The field names of one version, as a set. */
  function FieldSet<K>(fields: seq<K>): set<K> {
    set k | k in fields
  }

  /** The version asked for, or the record's own version when none is given. */
  function Requested(default: string, version: Option<string>): (v: string)
    ensures version.None? ==> v == default
    ensures version.Some? ==> v == version.value
  {
    if version.Some? then version.value else default
  }

  /** `as_dict(version)` over a version table, the record's own version and
      its full map (which record.py builds only once the version is known). */
  function AsDict<K>(table: map<string, seq<K>>, default: string, version: Option<string>,
                     full: Result<map<K, Value>>): (r: Result<map<K, Value>>)
    ensures Requested(default, version) !in table ==>
              r == Failure(VersionNotFound(Requested(default, version)))
    ensures Requested(default, version) in table && full.Failure? ==> r == Failure(full.error)
    ensures r.Success? <==> Requested(default, version) in table && full.Success?
    ensures r.Success? ==>
              r.value.Keys == full.value.Keys * FieldSet(table[Requested(default, version)])
    ensures r.Success? ==> forall k :: k in r.value ==> r.value[k] == full.value[k]
  {
    var v := Requested(default, version);
    if v !in table then Failure(VersionNotFound(v))
    else if full.Failure? then Failure(full.error)
    else Success(map k | k in full.value && k in table[v] :: full.value[k])
  }

  /** The JSON writer accepts every value but a datetime. */
  predicate Serializable<K>(dict: map<K, Value>) {
    forall k :: k in dict ==> !dict[k].DateTime?
  }

  /** `as_json(version)`: an encoding of `as_dict(version)`. The JSON writer
      itself is the parameter `encode`. As with json.dumps, a dictionary
      that holds a datetime is refused. */
  function AsJson<K>(dict: Result<map<K, Value>>, encode: map<K, Value> -> string): (r: Result<string>)
    ensures dict.Failure? ==> r == Failure(dict.error)
    ensures dict.Success? ==> (r.Success? <==> Serializable(dict.value))
    ensures dict.Success? && r.Failure? ==> r.error == Unserializable
    ensures r.Success? ==> r.value == encode(dict.value)
  {
    if dict.Failure? then Failure(dict.error)
    else if !Serializable(dict.value) then Failure(Unserializable)
    else Success(encode(dict.value))
  }

  /** When every field of version `older` is a field of version `newer` and
      the full map defines each of them, `as_dict(older)` is `as_dict(newer)`
      restricted to the older fields. */
  lemma {:induction false} OlderIsRestriction<K>(table: map<string, seq<K>>, default: string,
                                                 older: string, newer: string, full: map<K, Value>)
    requires older in table && newer in table
    requires FieldSet(table[older]) <= FieldSet(table[newer]) <= full.Keys
    ensures AsDict(table, default, Some(older), Success(full)).Success?
    ensures AsDict(table, default, Some(newer), Success(full)).Success?
    ensures var o := AsDict(table, default, Some(older), Success(full)).value;
            var n := AsDict(table, default, Some(newer), Success(full)).value;
            o.Keys == FieldSet(table[older]) && o.Keys <= n.Keys &&
            (forall k :: k in o ==> o[k] == n[k])
  {
    var o := AsDict(table, default, Some(older), Success(full)).value;
    assert o.Keys == full.Keys * FieldSet(table[older]);
  }
}
