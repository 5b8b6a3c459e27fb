/** Translation of a JSON table-entry description into a P4Runtime table entry:
    normalize_match_value and build_entry_from_json, which controller_db.py and
    controller_v2.py define with the same code, and the P4Info helper's
    buildTableEntry as an opaque partial function. */
module Entries {
  import opened Wrappers
  import opened Json

  /** The shapes normalize_match_value can return: None, a tuple, or a value it
      leaves alone (a float or a dict). */
  predicate IsNormal(v: Value) {
    v.Null? || v.Tuple? || v.Float? || v.Dict?
  }

  /** normalize_match_value: lists and tuples become tuples of the same
      elements, a string a 1-tuple, an int `(v, 0)`; a bool is an int in
      Python and takes that branch. */
  function NormalizeMatchValue(raw: Value): (r: Value)
    ensures IsNormal(r)
    ensures IsNormal(raw) ==> r == raw
    ensures raw.List? || raw.Tuple? ==> r == Tuple(raw.items)
    ensures raw.Str? ==> r == Tuple([raw])
    ensures raw.Int? || raw.Bool? ==> r == Tuple([raw, Int(0)])
  {
    match raw
    case Null => Null
    case List(xs) => if |xs| == 1 then Tuple([xs[0]]) else Tuple(xs)
    case Tuple(xs) => if |xs| == 1 then Tuple([xs[0]]) else Tuple(xs)
    case Str(_) => Tuple([raw])
    case Int(_) => Tuple([raw, Int(0)])
    case Bool(_) => Tuple([raw, Int(0)])
    case _ => raw
  }

  /** Normalising twice is normalising once. */
  lemma NormalizeIdempotent(raw: Value)
    ensures NormalizeMatchValue(NormalizeMatchValue(raw)) == NormalizeMatchValue(raw)
  {
  }

  /** The arguments a controller passes to P4InfoHelper.buildTableEntry: the
      table name, the match fields (absent, here empty, for a default-action
      entry), whether the entry sets the table's default action, the action
      name and the action parameters. */
  datatype EntryRecord = EntryRecord(
    table: Value,
    matchFields: map<string, Value>,
    isDefault: bool,
    action: Value,
    params: Value)

  /** A loaded P4Info file: its path, and which entry descriptions its name
      tables can resolve. The lookup and byte encoding themselves are not
      modelled. */
  datatype P4Info = P4Info(path: Value, knows: EntryRecord -> bool)

  /** A device-ready table entry, identified by the schema it was compiled
      against and the description it was compiled from. */
  datatype TableEntry = TableEntry(schema: Value, record: EntryRecord)

  /** buildTableEntry: fails on a name the P4Info does not know. */
  function BuildTableEntry(info: P4Info, rec: EntryRecord): Result<TableEntry> {
    if info.knows(rec) then Ok(TableEntry(info.path, rec)) else Err(UnknownName)
  }

  /** The keys of the entry's 'match' field when it is a dict, otherwise none. */
  function MatchKeys(obj: map<string, Value>): set<string> {
    if "match" in obj && obj["match"].Dict? then obj["match"].fields.Keys else {}
  }

  function NormalizedMatch(obj: map<string, Value>): map<string, Value> {
    if "match" in obj && obj["match"].Dict? then
      var m := obj["match"].fields;
      map k | k in m :: NormalizeMatchValue(m[k])
    else map[]
  }

  /** `entry_obj.get('action_params', {}) or {}` */
  function ActionParams(obj: map<string, Value>): Value {
    var p := Get(obj, "action_params", EmptyDict);
    if Truthy(p) then p else EmptyDict
  }

  /** What build_entry_from_json hands to buildTableEntry for one JSON entry. */
  function IntentOf(obj: Value): (r: Result<EntryRecord>)
    ensures r.Err? <==> !obj.Dict? || "table" !in obj.fields
    ensures r.Err? ==> r.error == if obj.Dict? then MissingTable else NotAnObject
    ensures r.Ok? ==> r.value.table == obj.fields["table"]
    ensures r.Ok? ==> r.value.isDefault == Truthy(Get(obj.fields, "default_action", Bool(false)))
    ensures r.Ok? ==> r.value.action == Get(obj.fields, "action_name", Null)
    ensures r.Ok? ==> Truthy(Get(obj.fields, "action_params", Null)) ==> r.value.params == obj.fields["action_params"]
    ensures r.Ok? ==> !Truthy(Get(obj.fields, "action_params", Null)) ==> r.value.params == EmptyDict
    ensures r.Ok? && r.value.isDefault ==> r.value.matchFields == map[]
    ensures r.Ok? && !r.value.isDefault ==> r.value.matchFields.Keys == MatchKeys(obj.fields)
    ensures r.Ok? && !r.value.isDefault ==>
      forall k :: k in r.value.matchFields ==>
        r.value.matchFields[k] == NormalizeMatchValue(obj.fields["match"].fields[k])
  {
    if !obj.Dict? then Err(NotAnObject)
    else if "table" !in obj.fields then Err(MissingTable)
    else
      var fields := obj.fields;
      var action := Get(fields, "action_name", Null);
      if Truthy(Get(fields, "default_action", Bool(false))) then
        Ok(EntryRecord(fields["table"], map[], true, action, ActionParams(fields)))
      else
        Ok(EntryRecord(fields["table"], NormalizedMatch(fields), false, action, ActionParams(fields)))
  }

  /** build_entry_from_json: the table name and the compiled entry. */
  function BuildEntryFromJson(info: P4Info, obj: Value): (r: Result<(Value, TableEntry)>)
    ensures r.Ok? <==> IntentOf(obj).Ok? && info.knows(IntentOf(obj).value)
    ensures r.Ok? ==> r.value.0 == obj.fields["table"] && r.value.1.record.table == r.value.0
    ensures r.Ok? ==> r.value.1 == TableEntry(info.path, IntentOf(obj).value)
    ensures obj.Dict? && "table" !in obj.fields ==> r == Err(MissingTable)
    ensures IntentOf(obj).Ok? && r.Err? ==> r.error == UnknownName
  {
    match IntentOf(obj)
    case Err(e) => Err(e)
    case Ok(rec) =>
      match BuildTableEntry(info, rec)
      case Err(e) => Err(e)
      case Ok(entry) => Ok((rec.table, entry))
  }

  /** A default-action entry does not depend on its 'match' field. */
  lemma DefaultActionIgnoresMatch(obj: map<string, Value>, other: Value)
    requires "table" in obj && Truthy(Get(obj, "default_action", Bool(false)))
    ensures IntentOf(Dict(obj)) == IntentOf(Dict(obj["match" := other]))
  {
  }

  /** build_entry_from_json as the builder used by the build-then-write loops,
      which keep only the entry of each (table name, entry) pair. */
  function JsonBuilder(info: P4Info): Value -> Result<TableEntry> {
    obj => match BuildEntryFromJson(info, obj)
           case Ok(pair) => Ok(pair.1)
           case Err(e) => Err(e)
  }

  /** The JSON builder compiles exactly the record build_entry_from_json
      derives from its input. */
  lemma JsonBuilderEntry(info: P4Info, obj: Value)
    ensures IntentOf(obj).Ok? ==> JsonBuilder(info)(obj) == BuildTableEntry(info, IntentOf(obj).value)
    ensures IntentOf(obj).Err? ==> JsonBuilder(info)(obj) == Err(IntentOf(obj).error)
  {
  }

  /** buildTableEntry as the builder of the hard-coded rule lists. */
  function RecordBuilder(info: P4Info): EntryRecord -> Result<TableEntry> {
    rec => BuildTableEntry(info, rec)
  }
}
