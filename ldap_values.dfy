/** `LDAPValueFormatter` of user_sync/connector/directory_ldap.py: attribute
    lookup in an LDAP record and the rendering of a user field from a
    template whose placeholders name attributes. */
module LdapValues {
  import opened Wrappers
  import opened Template

  /** An attribute value as the directory returns it: one string, or a list
      of them. */
  datatype AttrValue = Single(s: string) | Multi(vals: seq<string>)

  /** The attributes of one directory entry, by name. */
  type Record = map<string, AttrValue>

  /** Python truthiness of an attribute value: an empty string or an empty
      list counts as absent. */
  predicate Truthy(v: AttrValue) {
    match v
    case Single(s) => s != ""
    case Multi(vals) => vals != []
  }

  /** `get_attribute_value`: the value of a present, non-empty attribute; a
      single string as it is; a list whole, or only its first element when
      `firstOnly` is set. */
  function GetAttributeValue(record: Record, name: string, firstOnly: bool): (r: Option<AttrValue>)
    ensures r.None? <==> name !in record || !Truthy(record[name])
    ensures r.Some? && record[name].Single? ==> r.value == record[name]
    ensures r.Some? && record[name].Multi? && !firstOnly ==> r.value == record[name]
    ensures r.Some? && record[name].Multi? && firstOnly ==> r.value == Single(record[name].vals[0])
  {
    if name !in record || !Truthy(record[name]) then None
    else match record[name]
      case Single(_) => Some(record[name])
      case Multi(vals) => if firstOnly then Some(Single(vals[0])) else Some(record[name])
  }

  /** The value `generate_value` substitutes for one placeholder: the single
      string, or the first element of a list. */
  function FirstValue(record: Record, name: string): Option<string> {
    match GetAttributeValue(record, name, true)
    case None => None
    case Some(v) => if v.Single? then Some(v.s) else None
  }

  lemma FirstValueIsFirst(record: Record, name: string)
    ensures FirstValue(record, name).None? <==> name !in record || !Truthy(record[name])
    ensures FirstValue(record, name).Some? && record[name].Multi? ==> FirstValue(record, name).value == record[name].vals[0]
  {
  }

  /** A formatter: the parsed template, if any, and the attribute names its
      placeholders use, in order. */
  datatype ValueFormatter = ValueFormatter(format: Option<seq<Piece>>, attributeNames: seq<string>)

  /** `LDAPValueFormatter.__init__`: no template gives no names; a template
      that does not parse is an error. */
  function NewValueFormatter(format: Option<string>): (r: Result<ValueFormatter, string>)
    ensures format.None? ==> r == Ok(ValueFormatter(None, []))
    ensures format.Some? ==> (r.Ok? <==> Parse(format.value).Ok?)
    ensures format.Some? && r.Ok? ==>
      r.value.format == Some(Parse(format.value).value) &&
      r.value.attributeNames == FieldNames(Parse(format.value).value)
  {
    match format
    case None => Ok(ValueFormatter(None, []))
    case Some(s) =>
      var t :- Parse(s);
      Ok(ValueFormatter(Some(t), FieldNames(t)))
  }

  /** What `generate_value` returns: the value, and the last attribute name
      it looked at. */
  datatype Generated = Generated(value: Option<string>, lastAttribute: Option<string>)

  /** Index of the first name without a value in `record`, or -1. */
  function FirstMissing(names: seq<string>, record: Record): (r: int)
    ensures -1 <= r < |names|
    ensures r >= 0 ==> FirstValue(record, names[r]).None?
    ensures forall j :: 0 <= j < |names| && (r < 0 || j < r) ==> FirstValue(record, names[j]).Some?
  {
    if names == [] then -1
    else if FirstValue(record, names[0]).None? then 0
    else
      var k := FirstMissing(names[1..], record);
      if k < 0 then -1 else k + 1
  }

  /** The keyword values for names that all have one. */
  function ValuesOf(names: seq<string>, record: Record): (r: map<string, string>)
    requires forall j :: 0 <= j < |names| ==> FirstValue(record, names[j]).Some?
    ensures r.Keys == set j | 0 <= j < |names| :: names[j]
    ensures forall j :: 0 <= j < |names| ==> r[names[j]] == FirstValue(record, names[j]).value
  {
    map n | n in (set j | 0 <= j < |names| :: names[j]) :: FirstValue(record, n).value
  }

  /** The outcome of `generate_value`, as a value. */
  function Generate(f: ValueFormatter, record: Record): Result<Generated, string> {
    if f.format.None? then Ok(Generated(None, None))
    else
      var names := f.attributeNames;
      var k := FirstMissing(names, record);
      if k >= 0 then Ok(Generated(None, Some(names[k])))
      else
        var rendered := Render(f.format.value, ValuesOf(names, record));
        if rendered.Err? then Err(rendered.error)
        else Ok(Generated(Some(rendered.value), if names == [] then None else Some(names[|names| - 1])))
  }

  /** `generate_value`. Without a template: nothing, and no attribute name.
      With an attribute that is absent or empty: nothing, and the name of the
      first such attribute. Otherwise the rendered template and the last
      attribute name, or none if the template has no placeholder; a template
      that cannot be rendered from keywords is an error. */
  method GenerateValue(f: ValueFormatter, record: Record) returns (r: Result<Generated, string>)
    ensures r == Generate(f, record)
  {
    if f.format.None? {
      return Ok(Generated(None, None));
    }
    var names := f.attributeNames;
    var values: map<string, string> := map[];
    var attributeName: Option<string> := None;
    var i := 0;
    while i < |names|
      invariant 0 <= i <= |names|
      invariant forall j :: 0 <= j < i ==> FirstValue(record, names[j]).Some?
      invariant values.Keys == set j | 0 <= j < i :: names[j]
      invariant forall j :: 0 <= j < i ==> values[names[j]] == FirstValue(record, names[j]).value
      invariant attributeName == if i == 0 then None else Some(names[i - 1])
    {
      attributeName := Some(names[i]);
      var value := FirstValue(record, names[i]);
      if value.None? {
        FirstMissingAt(names, record, i);
        return Ok(Generated(None, attributeName));
      }
      values := values[names[i] := value.value];
      i := i + 1;
    }
    NoneMissing(names, record);
    assert values == ValuesOf(names, record);
    var rendered := Render(f.format.value, values);
    if rendered.Err? {
      return Err(rendered.error);
    }
    r := Ok(Generated(Some(rendered.value), attributeName));
  }

  /** What `Generate` reports: nothing without a template; nothing, with the
      name of the first attribute lacking a value, exactly when one lacks a
      value; otherwise the rendering from the attribute values, with the
      last attribute name, or the rendering's error. */
  lemma GenerateOutcome(f: ValueFormatter, record: Record)
    ensures f.format.None? ==> Generate(f, record) == Ok(Generated(None, None))
    ensures f.format.Some? ==>
      var r := Generate(f, record);
      var names := f.attributeNames;
      var k := FirstMissing(names, record);
      (r.Ok? && r.value.value.None? <==> k >= 0) &&
      (k >= 0 ==> r.value.lastAttribute == Some(names[k])) &&
      (k < 0 ==>
        (forall j :: 0 <= j < |names| ==> FirstValue(record, names[j]).Some?) &&
        var rendered := Render(f.format.value, ValuesOf(names, record));
        (r.Err? <==> rendered.Err?) &&
        (r.Ok? ==> r.value.value == Some(rendered.value) &&
                   r.value.lastAttribute == if names == [] then None else Some(names[|names| - 1])))
  {
  }

  lemma FirstMissingAt(names: seq<string>, record: Record, i: nat)
    requires i < |names| && FirstValue(record, names[i]).None?
    requires forall j :: 0 <= j < i ==> FirstValue(record, names[j]).Some?
    ensures FirstMissing(names, record) == i
  {
  }

  lemma NoneMissing(names: seq<string>, record: Record)
    requires forall j :: 0 <= j < |names| ==> FirstValue(record, names[j]).Some?
    ensures FirstMissing(names, record) < 0
  {
  }

  /** For a template whose placeholders are bare names, when every named
      attribute has a value, rendering fails only on a positional
      placeholder: one without a name or with a number for a name. */
  lemma GenerateRenders(format: string, record: Record)
    requires NewValueFormatter(Some(format)).Ok? && PlainFields(NewValueFormatter(Some(format)).value.format.value)
    requires FirstMissing(NewValueFormatter(Some(format)).value.attributeNames, record) < 0
    ensures var f := NewValueFormatter(Some(format)).value;
      Render(f.format.value, ValuesOf(f.attributeNames, record)).Ok? <==>
      forall j :: 0 <= j < |f.format.value| && f.format.value[j].Field? ==> !Positional(f.format.value[j].name)
  {
    var f := NewValueFormatter(Some(format)).value;
    var t := f.format.value;
    var values := ValuesOf(f.attributeNames, record);
    RenderSucceedsIff(t, values);
    forall j | 0 <= j < |t| && t[j].Field? && !Positional(t[j].name)
      ensures t[j].name in values
    {
      assert t[j].name != "" by {
        if t[j].name == "" { assert Positional(t[j].name); }
      }
      assert t[j].name in f.attributeNames;
      var k :| 0 <= k < |f.attributeNames| && f.attributeNames[k] == t[j].name;
    }
  }
}
