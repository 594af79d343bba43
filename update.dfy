/**
 * Updating one field of an issue: the field's type is looked up in the
 * issue's edit metadata, and the request body takes one of three shapes
 * depending on that type.
 */
module Update {
  import opened Wrappers
  import opened Json
  import opened Documents
  import opened Transport

  /** The custom-field type whose array values are written as `{ "value": ... }` objects. */
  const Multiselect: string := "com.atlassian.jira.plugin.system.customfieldtypes:multiselect"

  const MissingField: string := "Field metadata is missing"
  const MissingType: string := "Field metadata is missing a type"

  /** What body shaping needs of a field's metadata: its type tag and custom subtype. */
  datatype FieldType = FieldType(typeTag: string, custom: Option<string>)

  /**
   * Finds the type of `fieldName` in an edit-metadata document. A field that is
   * not there, or has no type, is a connector exception without inner message;
   * a document that is not edit metadata, or a field without a schema object,
   * cannot be read.
   */
  function ResolveField(doc: Doc, fieldName: string): (r: Result<FieldType>)
    ensures r.Ok? <==> doc.EditMetaDoc? && fieldName in doc.fields &&
                       doc.fields[fieldName].schema.Some? &&
                       doc.fields[fieldName].schema.value.typeTag.Some?
    ensures r.Ok? ==> r.value.typeTag == doc.fields[fieldName].schema.value.typeTag.value &&
                      r.value.custom == doc.fields[fieldName].schema.value.custom
    ensures r == Err(JiraFailure(MissingField, None)) <==> doc.EditMetaDoc? && fieldName !in doc.fields
    ensures r == Err(JiraFailure(MissingType, None)) <==>
              doc.EditMetaDoc? && fieldName in doc.fields &&
              doc.fields[fieldName].schema.Some? && doc.fields[fieldName].schema.value.typeTag.None?
  {
    if !doc.EditMetaDoc? then Err(Malformed)
    else if fieldName !in doc.fields then Err(JiraFailure(MissingField, None))
    else match doc.fields[fieldName].schema
      case None => Err(Malformed)
      case Some(schema) =>
        match schema.typeTag
        case None => Err(JiraFailure(MissingType, None))
        case Some(t) => Ok(FieldType(t, schema.custom))
  }

  /** The three shapes of an update body. */
  datatype UpdateBody =
    | SetField(field: string, value: string)        // `{ fields: { field: value } }`
    | SetArray(field: string, value: string)        // `{ update: { field: [ { set: [ value ] } ] } }`
    | SetMultiSelect(field: string, value: string)  // `{ update: { field: [ { set: [ { value: value } ] } ] } }`

  /** True when the field holds a list of values. */
  predicate IsArray(t: FieldType)
  {
    t.typeTag == "array"
  }

  /** Picks the body shape for writing `value` into field `fieldName` of type `t`. */
  function ChooseBody(fieldName: string, value: string, t: FieldType): (b: UpdateBody)
    ensures b.field == fieldName && b.value == value
    ensures b.SetField? <==> !IsArray(t)
    ensures b.SetMultiSelect? <==> IsArray(t) && t.custom == Some(Multiselect)
    ensures b.SetArray? <==> IsArray(t) && t.custom != Some(Multiselect)
  {
    if IsArray(t) then
      if t.custom.Some? && t.custom.value == Multiselect then SetMultiSelect(fieldName, value)
      else SetArray(fieldName, value)
    else SetField(fieldName, value)
  }

  /** A list of update operations holding the single operation `set: [element]`. */
  function SetOperation(element: Value): Value
  {
    Arr([Obj([("set", Arr([element]))])])
  }

  /** The JSON form of an update body. */
  function ToJson(b: UpdateBody): (j: Value)
    ensures j.Obj? && |j.members| == 1
    ensures b.SetField? ==> Child(Child(Some(j), "fields"), b.field) == Some(Str(b.value)) && Member(j, "update").None?
    ensures b.SetArray? ==>
              Child(Child(Some(j), "update"), b.field) == Some(SetOperation(Str(b.value))) && Member(j, "fields").None?
    ensures b.SetMultiSelect? ==>
              Child(Child(Some(j), "update"), b.field) == Some(SetOperation(Obj([("value", Str(b.value))]))) &&
              Member(j, "fields").None?
  {
    match b
    case SetField(f, v) => Obj([("fields", Obj([(f, Str(v))]))])
    case SetArray(f, v) => Obj([("update", Obj([(f, SetOperation(Str(v)))]))])
    case SetMultiSelect(f, v) => Obj([("update", Obj([(f, SetOperation(Obj([("value", Str(v))])))]))])
  }

  /** Reads an update body back from its JSON form. */
  function FromJson(j: Value): Option<UpdateBody>
  {
    if !j.Obj? || |j.members| != 1 || !j.members[0].1.Obj? || |j.members[0].1.members| != 1 then None
    else
      var (top, inner) := j.members[0];
      var (f, v) := inner.members[0];
      if top == "fields" && v.Str? then Some(SetField(f, v.s))
      else if top == "update" && v.Arr? && |v.elems| == 1 && v.elems[0].Obj? && |v.elems[0].members| == 1 &&
              v.elems[0].members[0].0 == "set" && v.elems[0].members[0].1.Arr? &&
              |v.elems[0].members[0].1.elems| == 1 then
        match v.elems[0].members[0].1.elems[0]
        case Str(s) => Some(SetArray(f, s))
        case Obj(ms) =>
          if |ms| == 1 && ms[0].0 == "value" && ms[0].1.Str? then Some(SetMultiSelect(f, ms[0].1.s)) else None
        case Arr(_) => None
      else None
  }

  /** The three shapes serialise to distinct documents that carry the field name and the value. */
  lemma {:induction false} FromJsonToJson(b: UpdateBody)
    ensures FromJson(ToJson(b)) == Some(b)
  {
    match b
    case SetField(f, v) =>
    case SetArray(f, v) =>
    case SetMultiSelect(f, v) =>
  }

  /**
   * The decision table: a non-array field is replaced directly; an array field
   * gets a `set` operation of the bare value, or of a `{ value: ... }` object
   * when it is a multiselect custom field.
   */
  lemma UpdatePayload(fieldName: string, value: string, t: FieldType)
    ensures var j := ToJson(ChooseBody(fieldName, value, t));
            (!IsArray(t) ==> Child(Child(Some(j), "fields"), fieldName) == Some(Str(value))) &&
            (IsArray(t) && t.custom == Some(Multiselect) ==>
               Child(Child(Some(j), "update"), fieldName) == Some(SetOperation(Obj([("value", Str(value))])))) &&
            (IsArray(t) && t.custom != Some(Multiselect) ==>
               Child(Child(Some(j), "update"), fieldName) == Some(SetOperation(Str(value))))
  {
  }

  /** The request that writes `body` to issue `issueKey`. */
  function UpdateRequest(issueKey: string, body: UpdateBody): Request
  {
    Request(Put, "issue/{issueIdOrKey}", [("issueIdOrKey", issueKey)], [], Some(ToJson(body)))
  }
}
