/**
 * The connector facade: each operation builds its requests, sends them through
 * the transport, classifies every response and decodes the body on success.
 */
module Proxy {
  import opened Wrappers
  import opened Json
  import opened Documents
  import opened Transport
  import opened Pagination
  import opened Update

  /** The lookup of the configured user, used to validate the credential. */
  function UserRequest(username: string): Request
  {
    Request(Get, "user", [], [("username", Text(username))], None)
  }

  function EditMetaRequest(issueKey: string): Request
  {
    Request(Get, "issue/{issueIdOrKey}/editmeta", [("issueIdOrKey", issueKey)], [], None)
  }

  function IssueRequest(issueKey: string): Request
  {
    Request(Get, "issue/{issueIdOrKey}", [("issueIdOrKey", issueKey)], [], None)
  }

  function CommentRequest(issueKey: string, comment: string): Request
  {
    Request(Post, "issue/{issueIdOrKey}/comment", [("issueIdOrKey", issueKey)], [],
            Some(Obj([("body", Str(comment))])))
  }

  /**
   * The body of a workflow transition: always the transition id, and the new
   * assignee's name only when an assignee is given.
   */
  function ProgressWorkflowBody(action: string, assignee: Option<string>): (j: Value)
    ensures Child(Child(Some(j), "transition"), "id") == Some(Str(action))
    ensures Member(j, "fields").Some? <==> assignee.Some?
    ensures assignee.Some? ==>
              Child(Child(Child(Some(j), "fields"), "assignee"), "name") == Some(Str(assignee.value))
    ensures j.Obj? && |j.members| == if assignee.Some? then 2 else 1
  {
    var transition := ("transition", Obj([("id", Str(action))]));
    match assignee
    case None => Obj([transition])
    case Some(name) => Obj([transition, ("fields", Obj([("assignee", Obj([("name", Str(name))]))]))])
  }

  function TransitionRequest(issueKey: string, action: string, assignee: Option<string>): Request
  {
    Request(Post, "issue/{issueIdOrKey}/transitions", [("issueIdOrKey", issueKey)], [],
            Some(ProgressWorkflowBody(action, assignee)))
  }

  function ActionsRequest(issueId: string): Request
  {
    Request(Get, "issue/{issueIdOrKey}/transitions?expand=transitions.fields", [("issueIdOrKey", issueId)], [], None)
  }

  function FieldsRequest(): Request
  {
    Request(Get, "field", [], [], None)
  }

  /** The custom fields of a field-list document; any other document cannot be read. */
  function ReadCustomFields(doc: Doc): (r: Result<seq<Item>>)
    ensures r.Ok? <==> doc.FieldListDoc?
    ensures r.Ok? ==> r.value == CustomFields(doc.entries)
    ensures r.Err? ==> r.error == Malformed
  {
    if doc.FieldListDoc? then Ok(CustomFields(doc.entries)) else Err(Malformed)
  }

  /** The workflow actions of a transitions document; any other document cannot be read. */
  function ReadActions(doc: Doc): (r: Result<seq<Item>>)
    ensures r.Ok? <==> doc.TransitionsDoc?
    ensures r.Ok? ==> r.value == doc.transitions
    ensures r.Err? ==> r.error == Malformed
  {
    if doc.TransitionsDoc? then Ok(doc.transitions) else Err(Malformed)
  }

  /**
   * The issue read as the connector reads it: as a search result, taking the
   * first of its issues.
   */
  function ReadIssueAsWritten(doc: Doc): (r: Result<Issue>)
    ensures r.Ok? <==> doc.SearchResult? && |doc.page.issues| > 0
    ensures r.Ok? ==> r.value == CreateIssue(doc.page.issues[0])
  {
    if doc.SearchResult? && |doc.page.issues| > 0 then Ok(CreateIssue(doc.page.issues[0]))
    else Err(Malformed)
  }

  /** The issue read from the single-issue document that the issue resource returns. */
  function ReadIssue(doc: Doc): (r: Result<Issue>)
    ensures r.Ok? <==> doc.IssueDocument?
    ensures r.Ok? ==> r.value == CreateIssue(doc.issue)
  {
    if doc.IssueDocument? then Ok(CreateIssue(doc.issue)) else Err(Malformed)
  }

  /**
   * The issue resource answers with one issue object, which has no list of
   * issues and no total: read as a search result it cannot be decoded, so the
   * read that follows a successful update always fails.
   */
  lemma IssueDocumentReadAsSearchResult(d: IssueDoc)
    ensures ReadIssueAsWritten(IssueDocument(d)) == Err(Malformed)
    ensures ReadIssue(IssueDocument(d)) == Ok(CreateIssue(d))
  {
  }

  /** The field type of `fieldName` from the response to the edit-metadata request. */
  function ResolveEditMeta(resp: Response, fieldName: string): Result<FieldType>
  {
    match Classify(resp, OK)
    case Err(e) => Err(e)
    case Ok(doc) => ResolveField(doc, fieldName)
  }

  /**
   * The connector: a transport and the user name given at construction, both
   * fixed for the object's lifetime.
   */
  class JiraRestProxy {
    const client: Transport
    const currentUser: string

    constructor (client: Transport, username: string)
      ensures this.client == client && currentUser == username
    {
      this.client := client;
      currentUser := username;
    }

    /** Whether the credential is accepted: the user lookup answers 200; no status raises. */
    method Validate() returns (valid: bool)
      modifies client
      ensures client.sent == old(client.sent) + [UserRequest(currentUser)]
      ensures valid <==> Classify(client.server(UserRequest(currentUser)), OK).Ok?
      ensures client.server(UserRequest(currentUser)).status == Unauthorized ==> !valid
    {
      var response := client.Execute(UserRequest(currentUser));
      valid := response.status == OK.Code();
    }

    /** One page of the search for filter `filterId`, starting at item `startAt`. */
    method GetIssuesFromFilterByPage(issueFilterId: string, startAt: nat) returns (r: Result<Doc>)
      modifies client
      ensures client.sent == old(client.sent) + [SearchRequest(issueFilterId, startAt)]
      ensures r == Classify(client.server(SearchRequest(issueFilterId, startAt)), OK)
    {
      var response := client.Execute(SearchRequest(issueFilterId, startAt));
      r := Classify(response, OK);
    }

    /** The k-th page of the search for filter `filterId`, decoded. */
    method GetPage(issueFilterId: string, k: nat) returns (page: Result<SearchPage>)
      modifies client
      ensures client.sent == old(client.sent) + [PageRequest(issueFilterId, k)]
      ensures page == PageAt(client.server, issueFilterId, k)
    {
      var responseContent := GetIssuesFromFilterByPage(issueFilterId, k * PageSize);
      if responseContent.Err? {
        return Err(responseContent.error);
      }
      page := AsSearchPage(responseContent.value);
    }

    /**
     * All issues of filter `filterId`: the first page, then as many further
     * pages as the first page's total requires, appended in fetch order.
     */
    method GetIssuesFromFilter(issueFilterId: string) returns (r: Result<seq<Issue>>)
      modifies client
      ensures r == Aggregate(client.server, issueFilterId)
      ensures client.sent == old(client.sent) + Sent(client.server, issueFilterId)
    {
      ghost var server := client.server;
      ghost var result := Aggregate(server, issueFilterId);
      ghost var target := client.sent + Sent(server, issueFilterId);
      ghost var sent0 := client.sent;
      AfterFirstPage(server, issueFilterId);
      var firstPage := GetPage(issueFilterId, 0);
      if firstPage.Err? {
        return Err(firstPage.error);
      }
      var jiraIssues := new JiraIssues(firstPage.value);
      if jiraIssues.totalAvailable <= PageSize {
        return Ok(jiraIssues.issues);
      }
      var timesToRepeat := CalculateAdditionalPages(jiraIssues);
      AppendAssoc(sent0, [PageRequest(issueFilterId, 0)], CollectSent(server, issueFilterId, 1, timesToRepeat));
      var i := 1;
      while i <= timesToRepeat
        invariant 1 <= i <= timesToRepeat + 1
        invariant CollectPages(server, issueFilterId, i, timesToRepeat, jiraIssues.issues) == result
        invariant client.sent + CollectSent(server, issueFilterId, i, timesToRepeat) == target
        decreases timesToRepeat + 1 - i
      {
        ghost var before := client.sent;
        CollectStep(server, issueFilterId, i, timesToRepeat, jiraIssues.issues);
        var page := GetPage(issueFilterId, i);
        if page.Err? {
          return Err(page.error);
        }
        jiraIssues.AddIssues(page.value);
        AppendAssoc(before, [PageRequest(issueFilterId, i)], CollectSent(server, issueFilterId, i + 1, timesToRepeat));
        i := i + 1;
      }
      return Ok(jiraIssues.issues);
    }

    /** The edit-metadata document of an issue. */
    method GetEditMetadata(issueIdOrKey: string) returns (r: Result<Doc>)
      modifies client
      ensures client.sent == old(client.sent) + [EditMetaRequest(issueIdOrKey)]
      ensures r == Classify(client.server(EditMetaRequest(issueIdOrKey)), OK)
    {
      var response := client.Execute(EditMetaRequest(issueIdOrKey));
      r := Classify(response, OK);
    }

    /** One issue, read from the issue resource. */
    method GetIssue(issueIdOrKey: string) returns (r: Result<Issue>)
      modifies client
      ensures client.sent == old(client.sent) + [IssueRequest(issueIdOrKey)]
      ensures var c := Classify(client.server(IssueRequest(issueIdOrKey)), OK);
              r == if c.Err? then Err(c.error) else ReadIssue(c.value)
    {
      var response := client.Execute(IssueRequest(issueIdOrKey));
      var content := Classify(response, OK);
      if content.Err? {
        return Err(content.error);
      }
      r := ReadIssue(content.value);
    }

    /**
     * Writes `fieldValue` into field `fieldName` of an issue and returns the
     * issue as it then is. The field's type is looked up first; when it cannot
     * be found no update is sent.
     */
    method UpdateIssue(issueKey: string, fieldName: string, fieldValue: string) returns (r: Result<Issue>)
      modifies client
      ensures var field := ResolveEditMeta(client.server(EditMetaRequest(issueKey)), fieldName);
              field.Err? ==>
                r == Err(field.error) && client.sent == old(client.sent) + [EditMetaRequest(issueKey)]
      ensures var field := ResolveEditMeta(client.server(EditMetaRequest(issueKey)), fieldName);
              field.Ok? ==>
                var put := UpdateRequest(issueKey, ChooseBody(fieldName, fieldValue, field.value));
                var written := Classify(client.server(put), NoContent);
                var read := Classify(client.server(IssueRequest(issueKey)), OK);
                (written.Err? ==>
                   r == Err(written.error) &&
                   client.sent == old(client.sent) + [EditMetaRequest(issueKey), put]) &&
                (written.Ok? ==>
                   r == (if read.Err? then Err(read.error) else ReadIssue(read.value)) &&
                   client.sent == old(client.sent) + [EditMetaRequest(issueKey), put, IssueRequest(issueKey)])
    {
      var editMetadata := GetEditMetadata(issueKey);
      if editMetadata.Err? {
        return Err(editMetadata.error);
      }
      var fieldType := ResolveField(editMetadata.value, fieldName);
      if fieldType.Err? {
        return Err(fieldType.error);
      }
      var body := ChooseBody(fieldName, fieldValue, fieldType.value);
      var response := client.Execute(UpdateRequest(issueKey, body));
      var written := Classify(response, NoContent);
      if written.Err? {
        return Err(written.error);
      }
      r := GetIssue(issueKey);
    }

    /** Adds a comment to an issue; the service answers 201 Created. */
    method AddComment(issueKey: string, comment: string) returns (r: Result<()>)
      modifies client
      ensures client.sent == old(client.sent) + [CommentRequest(issueKey, comment)]
      ensures var c := Classify(client.server(CommentRequest(issueKey, comment)), Created);
              r == if c.Ok? then Ok(()) else Err(c.error)
    {
      var response := client.Execute(CommentRequest(issueKey, comment));
      var created := Classify(response, Created);
      r := if created.Ok? then Ok(()) else Err(created.error);
    }

    /** Moves an issue through a workflow transition, optionally reassigning it. */
    method ProgressWorkflow(issueKey: string, action: string, assignee: Option<string>) returns (r: Result<()>)
      modifies client
      ensures client.sent == old(client.sent) + [TransitionRequest(issueKey, action, assignee)]
      ensures var c := Classify(client.server(TransitionRequest(issueKey, action, assignee)), NoContent);
              r == if c.Ok? then Ok(()) else Err(c.error)
    {
      var response := client.Execute(TransitionRequest(issueKey, action, assignee));
      var done := Classify(response, NoContent);
      r := if done.Ok? then Ok(()) else Err(done.error);
    }

    /** The workflow actions available on an issue. */
    method GetAvailableActions(issueId: string) returns (r: Result<seq<Item>>)
      modifies client
      ensures client.sent == old(client.sent) + [ActionsRequest(issueId)]
      ensures var c := Classify(client.server(ActionsRequest(issueId)), OK);
              r == if c.Err? then Err(c.error) else ReadActions(c.value)
    {
      var response := client.Execute(ActionsRequest(issueId));
      var content := Classify(response, OK);
      if content.Err? {
        return Err(content.error);
      }
      r := ReadActions(content.value);
    }

    /** The custom fields, in the order the field list gives them. */
    method GetCustomFields() returns (r: Result<seq<Item>>)
      modifies client
      ensures client.sent == old(client.sent) + [FieldsRequest()]
      ensures var c := Classify(client.server(FieldsRequest()), OK);
              r == if c.Err? then Err(c.error) else ReadCustomFields(c.value)
    {
      var response := client.Execute(FieldsRequest());
      var content := Classify(response, OK);
      if content.Err? {
        return Err(content.error);
      }
      r := ReadCustomFields(content.value);
    }
  }

  /** Listing the same filter twice against an unchanged service gives the same issues. */
  method ListTwice(proxy: JiraRestProxy, issueFilterId: string) returns (first: Result<seq<Issue>>, second: Result<seq<Issue>>)
    modifies proxy.client
    ensures first == second
  {
    first := proxy.GetIssuesFromFilter(issueFilterId);
    second := proxy.GetIssuesFromFilter(issueFilterId);
  }
}
