/**
 The normalized record for one slice of a document
 (src/docextractors/core/models/document_unit.py) and its `to_dict`
 serialisation.
 */
module DocumentUnits {
  import opened Wrappers

  /** The values a serialised record holds (Python's `Any` in this model). */
  datatype Value =
    | Null
    | Bool(b: bool)
    | Int(i: int)
    | Str(s: string)
    | List(items: seq<Value>)
    | Dict(fields: map<string, Value>)

  /** `DocumentUnit`: the datatype constructor stores each of the nine
      arguments of `__init__` in the field of the same name. `tables` follows
      the source's annotation, a list of dictionaries. */
  datatype DocumentUnit = DocumentUnit(
    documentId: string,
    unitType: string,
    unitIndex: int,
    unitName: Option<string>,
    rawText: string,
    tables: seq<map<string, Value>>,
    layout: map<string, Value>,
    parserName: string,
    parserVersion: string)

  /** The keys of a serialised unit. */
  const DictKeys: set<string> := {
    "document_id", "unit_id", "unit_type", "unit_index", "unit_name",
    "raw_text", "tables_json", "layout_json", "parser_name", "parser_version"
  }

  /** The list of tables as a value: each table dictionary unchanged. */
  function TablesValue(tables: seq<map<string, Value>>): (v: Value)
    ensures v.List? && |v.items| == |tables|
    ensures forall i :: 0 <= i < |tables| ==> v.items[i] == Dict(tables[i])
  {
    List(seq(|tables|, i requires 0 <= i < |tables| => Dict(tables[i])))
  }

  function NameValue(name: Option<string>): Value {
    match name
    case None => Null
    case Some(n) => Str(n)
  }

  /** `to_dict()`. */
  function ToDict(u: DocumentUnit): (d: map<string, Value>)
    ensures d.Keys == DictKeys
    ensures d["unit_id"] == Null
    ensures d["document_id"] == Str(u.documentId) && d["unit_type"] == Str(u.unitType)
    ensures d["unit_index"] == Int(u.unitIndex) && d["raw_text"] == Str(u.rawText)
    ensures d["parser_name"] == Str(u.parserName) && d["parser_version"] == Str(u.parserVersion)
    ensures d["tables_json"] == TablesValue(u.tables) && d["layout_json"] == Dict(u.layout)
    ensures u.unitName.None? ==> d["unit_name"] == Null
    ensures u.unitName.Some? ==> d["unit_name"] == Str(u.unitName.value)
  {
    map[
      "document_id" := Str(u.documentId),
      "unit_id" := Null,
      "unit_type" := Str(u.unitType),
      "unit_index" := Int(u.unitIndex),
      "unit_name" := NameValue(u.unitName),
      "raw_text" := Str(u.rawText),
      "tables_json" := TablesValue(u.tables),
      "layout_json" := Dict(u.layout),
      "parser_name" := Str(u.parserName),
      "parser_version" := Str(u.parserVersion)
    ]
  }

  // Reading a serialised unit back: the inverse of ToDict.

  function AsString(v: Value): Option<string> {
    if v.Str? then Some(v.s) else None
  }

  function AsName(v: Value): Option<Option<string>> {
    match v
    case Null => Some(None)
    case Str(n) => Some(Some(n))
    case _ => None
  }

  function AsTables(items: seq<Value>): Option<seq<map<string, Value>>> {
    if items == [] then Some([])
    else if !items[0].Dict? then None
    else match AsTables(items[1..])
      case None => None
      case Some(rest) => Some([items[0].fields] + rest)
  }

  /** Rebuilds a unit from its dictionary, or None when a key is missing or
      holds a value of the wrong shape. */
  function FromDict(d: map<string, Value>): Option<DocumentUnit> {
    if !(DictKeys <= d.Keys) then None
    else
      var docId, unitType, rawText := AsString(d["document_id"]), AsString(d["unit_type"]), AsString(d["raw_text"]);
      var parserName, parserVersion := AsString(d["parser_name"]), AsString(d["parser_version"]);
      var name := AsName(d["unit_name"]);
      var tables := if d["tables_json"].List? then AsTables(d["tables_json"].items) else None;
      if && docId.Some? && unitType.Some? && rawText.Some? && parserName.Some? && parserVersion.Some?
         && name.Some? && tables.Some? && d["unit_index"].Int? && d["layout_json"].Dict?
      then Some(DocumentUnit(docId.value, unitType.value, d["unit_index"].i, name.value, rawText.value,
                             tables.value, d["layout_json"].fields, parserName.value, parserVersion.value))
      else None
  }

  lemma {:induction false} TablesRoundTrip(tables: seq<map<string, Value>>)
    ensures AsTables(TablesValue(tables).items) == Some(tables)
  {
    if tables != [] {
      var items := TablesValue(tables).items;
      assert items[1..] == TablesValue(tables[1..]).items;
      TablesRoundTrip(tables[1..]);
      assert [tables[0]] + tables[1..] == tables;
    }
  }

  /** Every field of a unit can be read back from its dictionary. */
  lemma RoundTrip(u: DocumentUnit)
    ensures FromDict(ToDict(u)) == Some(u)
  {
    TablesRoundTrip(u.tables);
  }

  /** `to_dict` is injective: different units give different dictionaries. */
  lemma ToDictInjective(u1: DocumentUnit, u2: DocumentUnit)
    ensures ToDict(u1) == ToDict(u2) ==> u1 == u2
  {
    RoundTrip(u1);
    RoundTrip(u2);
  }
}
