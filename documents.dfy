/**
 * The decoded JSON documents the issue tracker returns, and the records the
 * connector builds from them (issues and (id, name) items).
 */
module Documents {
  import opened Wrappers

  /** A nested `{ "name": ... }` object of an issue (project, issue type, ...). */
  datatype NamedRef = NamedRef(name: string)

  /** The `fields` object of an issue document; `null` members are `None`. */
  datatype IssueFields = IssueFields(
    summary: string,
    description: Option<string>,
    project: Option<NamedRef>,
    issuetype: Option<NamedRef>,
    assignee: Option<NamedRef>,
    priority: Option<NamedRef>)

  /** One issue object as the service returns it. */
  datatype IssueDoc = IssueDoc(id: string, key: string, fields: IssueFields)

  /** The connector's issue record. */
  datatype Issue = Issue(
    id: string,
    key: string,
    summary: string,
    description: Option<string>,
    project: string,
    issueType: string,
    assignee: string,
    priority: string)

  /** The `schema` object of one field's edit metadata. */
  datatype Schema = Schema(typeTag: Option<string>, custom: Option<string>)

  /** One field's edit metadata: its `schema` object, if present. */
  datatype FieldMeta = FieldMeta(schema: Option<Schema>)

  /** One entry of the field list. */
  datatype FieldEntry = FieldEntry(id: string, name: string, custom: bool)

  /** A generic (id, name) pair: priorities, projects, custom fields, workflow actions. */
  datatype Item = Item(id: string, name: string)

  /** A page of search results: its issues and the server-reported total. */
  datatype SearchPage = SearchPage(issues: seq<IssueDoc>, total: int)

  /**
   * A response body, decoded by the shape it has. `OtherDoc` is anything else
   * (an empty body, text that is not JSON, a document of an unrelated shape).
   */
  datatype Doc =
    | SearchResult(page: SearchPage)
    | IssueDocument(issue: IssueDoc)
    | EditMetaDoc(fields: map<string, FieldMeta>)
    | FieldListDoc(entries: seq<FieldEntry>)
    | TransitionsDoc(transitions: seq<Item>)
    | OtherDoc

  /** The name of a nested object, or the empty string when the object is missing. */
  function NameOrEmpty(ref: Option<NamedRef>): (r: string)
    ensures ref.None? ==> r == ""
    ensures ref.Some? ==> r == ref.value.name
  {
    match ref
    case None => ""
    case Some(n) => n.name
  }

  /** Builds the issue record from one issue object. */
  function CreateIssue(data: IssueDoc): (r: Issue)
    ensures r.id == data.id && r.key == data.key
    ensures r.summary == data.fields.summary && r.description == data.fields.description
    ensures data.fields.project.None? ==> r.project == ""
    ensures data.fields.project.Some? ==> r.project == data.fields.project.value.name
    ensures data.fields.issuetype.None? ==> r.issueType == ""
    ensures data.fields.issuetype.Some? ==> r.issueType == data.fields.issuetype.value.name
    ensures data.fields.assignee.None? ==> r.assignee == ""
    ensures data.fields.assignee.Some? ==> r.assignee == data.fields.assignee.value.name
    ensures data.fields.priority.None? ==> r.priority == ""
    ensures data.fields.priority.Some? ==> r.priority == data.fields.priority.value.name
  {
    Issue(
      data.id,
      data.key,
      data.fields.summary,
      data.fields.description,
      NameOrEmpty(data.fields.project),
      NameOrEmpty(data.fields.issuetype),
      NameOrEmpty(data.fields.assignee),
      NameOrEmpty(data.fields.priority))
  }

  /** Converts the issue objects of one page, keeping their order. */
  function ConvertToIssues(docs: seq<IssueDoc>): (r: seq<Issue>)
    ensures |r| == |docs|
    ensures forall i | 0 <= i < |docs| :: r[i] == CreateIssue(docs[i])
  {
    seq(|docs|, i requires 0 <= i < |docs| => CreateIssue(docs[i]))
  }

  /** Converting two runs of issue objects one after the other is converting their concatenation. */
  lemma ConvertToIssuesAppend(a: seq<IssueDoc>, b: seq<IssueDoc>)
    ensures ConvertToIssues(a + b) == ConvertToIssues(a) + ConvertToIssues(b)
  {
    assert forall i | 0 <= i < |a + b| :: (a + b)[i] == if i < |a| then a[i] else b[i - |a|];
  }

  function ToItem(e: FieldEntry): Item
  {
    Item(e.id, e.name)
  }

  /** The field list filtered to the custom fields, each as an (id, name) item. */
  function CustomFields(entries: seq<FieldEntry>): (r: seq<Item>)
    ensures |r| <= |entries|
    ensures forall it | it in r :: exists e | e in entries :: e.custom && ToItem(e) == it
    ensures forall e | e in entries && e.custom :: ToItem(e) in r
    ensures (forall e | e in entries :: !e.custom) ==> r == []
  {
    if entries == [] then []
    else if entries[0].custom then [ToItem(entries[0])] + CustomFields(entries[1..])
    else CustomFields(entries[1..])
  }

  /** Filtering keeps the original order: it distributes over concatenation. */
  lemma {:induction false} CustomFieldsAppend(a: seq<FieldEntry>, b: seq<FieldEntry>)
    ensures CustomFields(a + b) == CustomFields(a) + CustomFields(b)
  {
    if a == [] {
      assert a + b == b;
    } else {
      assert (a + b)[0] == a[0];
      assert (a + b)[1..] == a[1..] + b;
      CustomFieldsAppend(a[1..], b);
    }
  }
}
