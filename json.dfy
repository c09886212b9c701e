/**
 * The dictionaries, lists and scalars that the haptic client builds before
 * handing them to `json.dumps`, and that `json.loads` gives back. An object
 * keeps its fields in insertion order, as a Python dict does, so that the
 * exact field layout of a request can be stated.
 */
module JsonValues {

  import opened Wrappers

  datatype Json =
    | JNull
    | JBool(b: bool)
    | JInt(i: int)
    | JReal(r: real)
    | JStr(s: string)
    | JArr(items: seq<Json>)
    | JObj(fields: seq<(string, Json)>)

  /** The field names of an object, in order. */
  function Names(fields: seq<(string, Json)>): (r: seq<string>)
    ensures |r| == |fields|
    ensures forall i :: 0 <= i < |fields| ==> r[i] == fields[i].0
  {
    seq(|fields|, i requires 0 <= i < |fields| => fields[i].0)
  }

  /** The field values of an object, in order. */
  function Values(fields: seq<(string, Json)>): (r: seq<Json>)
    ensures |r| == |fields|
    ensures forall i :: 0 <= i < |fields| ==> r[i] == fields[i].1
  {
    seq(|fields|, i requires 0 <= i < |fields| => fields[i].1)
  }

  /** The object literal `{names[0]: values[0], names[1]: values[1], ...}`. */
  function Object(names: seq<string>, values: seq<Json>): (j: Json)
    requires |names| == |values|
    ensures j.JObj? && Names(j.fields) == names && Values(j.fields) == values
  {
    JObj(seq(|names|, i requires 0 <= i < |names| => (names[i], values[i])))
  }

  /**
   * The values of `j` when `j` is an object whose field names are exactly
   * `names`, in that order; None for any other shape. This is how a reader
   * of the wire format recognises one fixed message layout.
   */
  function Fields(j: Json, names: seq<string>): (r: Option<seq<Json>>)
    ensures r.Some? <==> j.JObj? && Names(j.fields) == names
    ensures r.Some? ==> |r.value| == |names| && j == Object(names, r.value)
  {
    if j.JObj? && Names(j.fields) == names then
      var vs := Values(j.fields);
      assert j.fields == Object(names, vs).fields;
      Some(vs)
    else None
  }

  /** Reading back the fields of an object literal gives its values. */
  lemma FieldsOfObject(names: seq<string>, values: seq<Json>)
    requires |names| == |values|
    ensures Fields(Object(names, values), names) == Some(values)
  {
  }

  /** The value stored last under `name` among `fields` (a repeated name keeps its last value, as `json.loads` does). */
  function LastValue(fields: seq<(string, Json)>, name: string): (r: Option<Json>)
    ensures r.Some? <==> exists i :: 0 <= i < |fields| && fields[i].0 == name
    ensures r.Some? ==> exists i :: 0 <= i < |fields| && fields[i] == (name, r.value)
  {
    if fields == [] then None
    else if fields[|fields| - 1].0 == name then Some(fields[|fields| - 1].1)
    else
      var r := LastValue(fields[..|fields| - 1], name);
      assert forall i :: 0 <= i < |fields| - 1 ==> fields[..|fields| - 1][i] == fields[i];
      r
  }

  /**
   * `j[name]` on a parsed value: the field's value when `j` is an object
   * holding `name`; None where Python raises (KeyError, or TypeError on a
   * value that is not a dict).
   */
  function Get(j: Json, name: string): (r: Option<Json>)
    ensures r.Some? <==> j.JObj? && name in Names(j.fields)
    ensures r.Some? ==> (name, r.value) in j.fields
  {
    if j.JObj? then
      var r := LastValue(j.fields, name);
      assert r.Some? ==> exists i :: 0 <= i < |j.fields| && j.fields[i] == (name, r.value);
      r
    else None
  }
}
