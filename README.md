# Jira REST proxy — a Dafny model

This project models the REST connector that the VersionOne–Jira integration uses to talk to a Jira server
(`JiraRestProxy`). The connector:

- lists the issues of a saved filter, ten per page;
- writes one field of an issue, choosing the body from the field's edit metadata, then reads the issue back;
- adds comments and moves issues through workflow transitions;
- lists the available workflow actions and the custom fields;
- checks that the configured user is accepted.

Every call except `Validate` turns the HTTP status into an outcome in the same way (`Validate` only compares the status with 200):

- the expected success status (200 OK, 201 Created or 204 No Content) gives the result;
- 401 gives a login failure;
- any other status gives a Jira failure that carries the status description and the response content.

The model is in seven modules:

- `Wrappers` holds `Option`.
- `Json` holds the small ordered JSON tree used for request bodies, with its lookups.
- `Documents` holds the issue records and the decoded response documents. It also holds the conversion of
  issue documents into `Issue` values and the custom-field filter.
- `Transport` holds requests, responses, the outcome type, status classification and the `Transport` class.
  `Transport` stands for the HTTP client. Its `server` is a fixed function from request to response, and its
  `sent` field logs every request in order, so the number and order of requests are part of what is proved.
- `Pagination` holds the paged search and the `JiraIssues` accumulator class. It also holds the page
  arithmetic and `Aggregate` and `Sent`: these specification functions say what a whole listing returns and
  which requests it sends.
- `Update` holds the field-type lookup, the choice of update body, its JSON form and its inverse.
- `Proxy` holds the `JiraRestProxy` class, its request builders and the document readers.

Errors the connector raises as exceptions become `Err` values of `Transport.Result`:

- `LoginFailure` stands for `JiraLoginException`.
- `JiraFailure(message, inner)` stands for `JiraException`.
- `Malformed` stands for a response document that does not have the shape the connector reads, which throws
  a runtime error in the connector.

In one place the code and its documented intent disagree. The connector reads the single-issue response as
if it were a search result (see Findings). The model keeps that behaviour as written, shows what it does,
and uses the corrected reader everywhere else.

## Model

| member | source | states |
|---|---|---|
| Transport.Classify | VersionOne.JiraConnector/Rest/JiraRestProxy.cs:76-83 | the outcome is Ok exactly when the status is the expected success code, and then carries the response document; it is a login failure exactly when the status is 401; any other status is a Jira failure carrying the status description and the response content |
| Transport.UnauthorizedIsLoginFailure | VersionOne.JiraConnector/Rest/JiraRestProxy.cs:81-82 | a 401 is a login failure whatever success code the call expected |
| Transport.Transport.Execute | VersionOne.JiraConnector/Rest/JiraRestProxy.cs:74 | sending a request appends it to the log and returns the server's answer to it |
| Json.Find | VersionOne.JiraConnector/Rest/JiraRestProxy.cs:166-168 | lookup helper used to state the request-body contracts: it finds a member with that key exactly when the object has one, and what it returns is a member of the object |
| Json.Child | VersionOne.JiraConnector/Rest/JiraRestProxy.cs:254-257 | path helper used to state the request-body contracts (such as transition.id and fields.assignee.name): a step yields a value only when the parent exists and has that member |
| Json.Member | VersionOne.JiraConnector/Rest/JiraRestProxy.cs:166-168 | lookup helper used to state the request-body contracts: an object's member with that key, present exactly when the object has one |
| Documents.NameOrEmpty | VersionOne.JiraConnector/Rest/JiraRestProxy.cs:384-387 | a missing nested object gives the empty string, and a present one gives its name |
| Documents.CreateIssue | VersionOne.JiraConnector/Rest/JiraRestProxy.cs:376-389 | id, key, summary and description are copied; project, issue type, assignee and priority are the nested object's name, or empty when that object is missing |
| Documents.ConvertToIssues | VersionOne.JiraConnector/Rest/JiraRestProxy.cs:371-374 | one issue per issue document, in the same order |
| Documents.ConvertToIssuesAppend | VersionOne.JiraConnector/Rest/JiraRestProxy.cs:363-374 | converting two pages together equals converting each and concatenating |
| Documents.CustomFields | VersionOne.JiraConnector/Rest/JiraRestProxy.cs:305 | every item returned comes from a custom field entry, every custom entry's item is returned, none is returned when no entry is custom, and the list is never longer than the input |
| Documents.CustomFieldsAppend | VersionOne.JiraConnector/Rest/JiraRestProxy.cs:305 | the filter keeps order: filtering two lists together equals filtering each and concatenating |
| Pagination.SearchRequest | VersionOne.JiraConnector/Rest/JiraRestProxy.cs:64-72 | computes the search request: GET on `search` with `jql=filter=<id>`, `maxResults=10` and the given `startAt` |
| Pagination.PageRequest | VersionOne.JiraConnector/Rest/JiraRestProxy.cs:97-98 | computes the request of the k-th fetch: the search starting at item 10k |
| Pagination.PageAt | VersionOne.JiraConnector/Rest/JiraRestProxy.cs:88-89 | computes what the k-th fetch yields: the classified response against 200, read as a search page |
| Pagination.PageIssues | VersionOne.JiraConnector/Rest/JiraRestProxy.cs:98-99 | computes the converted issues of the k-th page, or none when that fetch fails |
| Pagination.AsSearchPage | VersionOne.JiraConnector/Rest/JiraRestProxy.cs:89 | only a search-result document can be read as a page; anything else is malformed |
| Pagination.TruncDiv | VersionOne.JiraConnector/Rest/JiraRestProxy.cs:108 | integer division truncating toward zero, as C# does: for a non-negative dividend the quotient is the largest q with q * b <= a, and for a negative one the least q with a <= q * b |
| Pagination.TruncRem | VersionOne.JiraConnector/Rest/JiraRestProxy.cs:109 | the C# remainder: dividend = quotient * divisor + remainder, and the remainder takes the dividend's sign |
| Pagination.PagesFor | VersionOne.JiraConnector/Rest/JiraRestProxy.cs:105-112 | the least number of ten-item pages that holds n items |
| Pagination.PageCount | VersionOne.JiraConnector/Rest/JiraRestProxy.cs:86-103 | a listing fetches at least one page, and exactly one when the total is at most ten |
| Pagination.JiraIssues.constructor | VersionOne.JiraConnector/Rest/JiraRestProxy.cs:354-358 | the issues are the converted issues of the first page, and the total is the page's reported total |
| Pagination.JiraIssues.AddIssues | VersionOne.JiraConnector/Rest/JiraRestProxy.cs:363-369 | the issues become the old issues followed by the converted issues of the new page; the total is unchanged |
| Pagination.CalculateAdditionalPages | VersionOne.JiraConnector/Rest/JiraRestProxy.cs:105-112 | with a total above ten, the number of further pages is the ceiling of (total - 10) / 10; otherwise it is not positive, so no further page is fetched (32-bit wrap-around near int.MinValue is listed under Left out) |
| Pagination.CollectPages | VersionOne.JiraConnector/Rest/JiraRestProxy.cs:95-100 | computes the outcome of the fetch loop from page i to page last: each page's issues appended in order, and the first failing fetch ends it with that failure |
| Pagination.CollectSent | VersionOne.JiraConnector/Rest/JiraRestProxy.cs:95-100 | computes the requests the fetch loop sends: one per page in order, stopping after the first failing fetch |
| Pagination.Aggregate | VersionOne.JiraConnector/Rest/JiraRestProxy.cs:86-103 | computes the outcome of a whole listing: the first page, then the pages its total calls for; this is the reference definition that GetIssuesFromFilter is proved equal to |
| Pagination.Sent | VersionOne.JiraConnector/Rest/JiraRestProxy.cs:86-103 | computes the requests a whole listing sends; GetIssuesFromFilter's request log is proved equal to it |
| Pagination.Flatten | VersionOne.JiraConnector/Rest/JiraRestProxy.cs:363-369 | computes the concatenation of pages in order |
| Pagination.PlanBetween | VersionOne.JiraConnector/Rest/JiraRestProxy.cs:95-100 | the page requests from page i to page last, one per page, in order |
| Pagination.PagesBetween | VersionOne.JiraConnector/Rest/JiraRestProxy.cs:95-100 | the issues of pages i to last, one entry per page, in order |
| Pagination.Plan | VersionOne.JiraConnector/Rest/JiraRestProxy.cs:86-103 | a listing's requests are one search per page, page k starting at item 10k |
| Pagination.PageCountIsCeiling | VersionOne.JiraConnector/Rest/JiraRestProxy.cs:91-112 | the number of pages fetched is the ceiling of total / 10, and 1 for an empty filter |
| Pagination.PageCountExamples | VersionOne.JiraConnector/Rest/JiraRestProxy.cs:91-112 | totals 0, 10, 11, 20 and 23 need 1, 1, 2, 2 and 3 pages; a total of 23 fetches the pages starting at items 0, 10 and 20 |
| Pagination.AfterFirstPage | VersionOne.JiraConnector/Rest/JiraRestProxy.cs:88-93 | a failed first page ends the listing with that error after one request; a total of at most ten returns the first page's issues after one request; otherwise the listing continues from page 1 |
| Pagination.CollectStep | VersionOne.JiraConnector/Rest/JiraRestProxy.cs:95-100 | one loop step: a failed page stops the listing with its error, and a good page appends its issues and continues |
| Pagination.CollectPagesOk | VersionOne.JiraConnector/Rest/JiraRestProxy.cs:95-100 | if the remaining pages succeed as a whole, each of them succeeds |
| Pagination.CollectPagesSucceeds | VersionOne.JiraConnector/Rest/JiraRestProxy.cs:95-100 | when every remaining page succeeds, the result is the issues so far followed by all the pages' issues in page order, and the requests sent are exactly those pages' requests |
| Pagination.CollectPagesFails | VersionOne.JiraConnector/Rest/JiraRestProxy.cs:95-100 | a failure is the error of the first failing page, and requests stop right after it |
| Pagination.AggregateSucceeds | VersionOne.JiraConnector/Rest/JiraRestProxy.cs:86-103 | a listing succeeds exactly when the first page and every page its total calls for succeed; the result is then all pages' issues in page order, and the requests sent are one per page, in order |
| Pagination.AggregateFails | VersionOne.JiraConnector/Rest/JiraRestProxy.cs:86-103 | a failed listing returns the error of the first page that failed, and sends the requests for the pages up to and including that one and no more |
| Pagination.FlattenFullPages | VersionOne.JiraConnector/Rest/JiraRestProxy.cs:363-369 | pages of ten, with a last page of at most ten, concatenate so that item g is item g mod 10 of page g div 10 |
| Pagination.FilledPages | VersionOne.JiraConnector/Rest/JiraRestProxy.cs:91-112 | pages filled as far as the total allows concatenate to exactly total items |
| Pagination.FullPagesListing | VersionOne.JiraConnector/Rest/JiraRestProxy.cs:86-112 | when the server fills every page as far as the reported total allows, a listing returns exactly total issues, and issue g is issue g mod 10 of page g div 10, so no item is skipped or repeated across page boundaries |
| Update.ResolveField | VersionOne.JiraConnector/Rest/JiraRestProxy.cs:116-124 | a field type is found exactly when the metadata lists the field with a typed schema; a field that is not listed gives "Field metadata is missing"; a listed field without a type gives "Field metadata is missing a type"; both carry no inner error |
| Update.ChooseBody | VersionOne.JiraConnector/Rest/JiraRestProxy.cs:134-169 | a non-array field is set directly; an array field with the multiselect custom type uses a set operation on a value object; any other array field uses a set operation on the bare string |
| Update.ToJson | VersionOne.JiraConnector/Rest/JiraRestProxy.cs:134-170 | the body has one member: "fields" holding the field's value, or "update" holding a one-element list with a set operation on the value or on a value object |
| Update.FromJson | VersionOne.JiraConnector/Rest/JiraRestProxy.cs:134-170 | reads an update body back from its JSON form (partner of ToJson, proved by FromJsonToJson) |
| Update.FromJsonToJson | VersionOne.JiraConnector/Rest/JiraRestProxy.cs:134-170 | every update body is recovered from its JSON form, so different choices give different payloads |
| Update.UpdatePayload | VersionOne.JiraConnector/Rest/JiraRestProxy.cs:135-169 | the decision table from field type to payload: where the value sits in the body for each of the three cases |
| Update.UpdateRequest | VersionOne.JiraConnector/Rest/JiraRestProxy.cs:126-132 | computes the update request: PUT on `issue/{issueIdOrKey}` with the issue key as URL segment and the chosen body |
| Proxy.ProgressWorkflowBody | VersionOne.JiraConnector/Rest/JiraRestProxy.cs:254-257 | the body always carries the transition id; it has a "fields" member exactly when an assignee is given, holding that assignee's name |
| Proxy.UserRequest | VersionOne.JiraConnector/Rest/JiraRestProxy.cs:39-45 | computes the user lookup: GET on `user` with the `username` query parameter |
| Proxy.EditMetaRequest | VersionOne.JiraConnector/Rest/JiraRestProxy.cs:314-320 | computes the edit-metadata request: GET on `issue/{issueIdOrKey}/editmeta` with the issue key as URL segment |
| Proxy.IssueRequest | VersionOne.JiraConnector/Rest/JiraRestProxy.cs:333-339 | computes the issue request: GET on `issue/{issueIdOrKey}` with the issue key as URL segment |
| Proxy.CommentRequest | VersionOne.JiraConnector/Rest/JiraRestProxy.cs:225-233 | computes the comment request: POST on `issue/{issueIdOrKey}/comment` with body `{body: comment}` |
| Proxy.TransitionRequest | VersionOne.JiraConnector/Rest/JiraRestProxy.cs:246-258 | computes the transition request: POST on `issue/{issueIdOrKey}/transitions` carrying the workflow body |
| Proxy.ActionsRequest | VersionOne.JiraConnector/Rest/JiraRestProxy.cs:271-277 | computes the actions request: GET on the transitions resource expanded with the transition fields |
| Proxy.FieldsRequest | VersionOne.JiraConnector/Rest/JiraRestProxy.cs:293-298 | computes the field-list request: GET on `field` |
| Proxy.ResolveEditMeta | VersionOne.JiraConnector/Rest/JiraRestProxy.cs:116-124 | computes the field type from the edit-metadata response: the classified response against 200, then the field lookup of ResolveField |
| Proxy.ReadCustomFields | VersionOne.JiraConnector/Rest/JiraRestProxy.cs:302-306 | a field list gives its custom fields; any other document is malformed |
| Proxy.ReadActions | VersionOne.JiraConnector/Rest/JiraRestProxy.cs:281-285 | a transitions document gives its transitions; any other document is malformed |
| Proxy.ReadIssueAsWritten | VersionOne.JiraConnector/Rest/JiraRestProxy.cs:345 | the issue read back is the first issue of a search result, and reading fails unless the document is a non-empty search result |
| Proxy.ReadIssue | VersionOne.JiraConnector/Rest/JiraRestProxy.cs:331-350 | a single-issue document gives that issue; anything else is malformed |
| Proxy.IssueDocumentReadAsSearchResult | VersionOne.JiraConnector/Rest/JiraRestProxy.cs:345 | the single issue the issue resource returns cannot be read as written, while the corrected reader decodes it |
| Proxy.JiraRestProxy.constructor | VersionOne.JiraConnector/Rest/JiraRestProxy.cs:25-35 | the proxy keeps the given client and user name |
| Proxy.JiraRestProxy.Validate | VersionOne.JiraConnector/Rest/JiraRestProxy.cs:37-50 | sends one user lookup for the current user, and answers true exactly when the status is 200; a 401 gives false, not an error |
| Proxy.JiraRestProxy.GetIssuesFromFilterByPage | VersionOne.JiraConnector/Rest/JiraRestProxy.cs:62-84 | sends one search for the filter with page size 10 from the given start, and classifies the answer against 200 |
| Proxy.JiraRestProxy.GetPage | VersionOne.JiraConnector/Rest/JiraRestProxy.cs:88-89 | fetches and decodes page k: one request, with the result the specification function PageAt gives |
| Proxy.JiraRestProxy.GetIssuesFromFilter | VersionOne.JiraConnector/Rest/JiraRestProxy.cs:86-103 | the result is Aggregate and the requests sent are Sent, whose success, failure and request plan the Aggregate lemmas state |
| Proxy.JiraRestProxy.GetEditMetadata | VersionOne.JiraConnector/Rest/JiraRestProxy.cs:312-329 | sends one edit-metadata request for the issue and classifies the answer against 200 |
| Proxy.JiraRestProxy.GetIssue | VersionOne.JiraConnector/Rest/JiraRestProxy.cs:331-350 | sends one issue request; a 200 gives the decoded issue, and any other status is classified |
| Proxy.JiraRestProxy.UpdateIssue | VersionOne.JiraConnector/Rest/JiraRestProxy.cs:114-179 | when the field type cannot be resolved, only the metadata request is sent and its error is returned; otherwise the PUT carries the chosen body, a non-204 answer returns its classified error, and a 204 is followed by reading the issue back |
| Proxy.JiraRestProxy.AddComment | VersionOne.JiraConnector/Rest/JiraRestProxy.cs:223-242 | sends one comment request whose body holds the comment; 201 succeeds and any other status is classified |
| Proxy.JiraRestProxy.ProgressWorkflow | VersionOne.JiraConnector/Rest/JiraRestProxy.cs:244-267 | sends one transition request with the workflow body; 204 succeeds and any other status is classified |
| Proxy.JiraRestProxy.GetAvailableActions | VersionOne.JiraConnector/Rest/JiraRestProxy.cs:269-289 | sends one transitions request for the issue; 200 gives the transitions, and any other status is classified |
| Proxy.JiraRestProxy.GetCustomFields | VersionOne.JiraConnector/Rest/JiraRestProxy.cs:291-310 | sends one field-list request; 200 gives the custom fields in order, and any other status is classified |
| Proxy.ListTwice | VersionOne.JiraConnector/Rest/JiraRestProxy.cs:86-103 | listing the same filter twice against an unchanged server gives the same result |

## Left out

- Login and Logout: their bodies are empty in the source.
- GetPriorities and GetProjects are not part of this model. They read an id/name list with the same status handling as GetAvailableActions.
- The HTTP client: the base URL, basic authentication and the password are not modelled. The transport is a fixed function from request to response.
- URL segments are not substituted into the resource template. A request carries the template and the segment pairs.
- JSON text parsing: response contents arrive as decoded documents. A document that is not the one the operation reads is `Malformed`. This stands for the runtime errors the connector raises when a member it reads is absent.
- Pagination.PageAt: every page, including the pages after the first, is read as a whole search result. The connector reads only `issues` from a later page (`AddIssues`, lines 363-369). A later page that has issues but no `total` is appended by the connector but is `Malformed` here.
- Pagination.JiraIssues.constructor: a reported total outside the 32-bit range is not modelled. The connector's `(int)` cast at line 357 throws on it. The model's unbounded total instead goes on: a total above 2^31-1 fetches pages, and one below -2^31 returns the first page's issues.
- Pagination.CalculateAdditionalPages: the 32-bit wrap-around of `TotalAvailable - pageSize` at line 107 is not modelled. For a total within 10 of int.MinValue, the unchecked C# subtraction wraps to a large positive number, so the method returns a positive count where the model's result is not positive. `GetIssuesFromFilter` never calls it with such a total, because it returns at line 91 for any total of at most 10.
- Numeric query values are carried as numbers. The connector renders `maxResults` and `startAt` with `ToString()` (lines 71-72), and the number fixes that text.
- A nested project, issue type, assignee or priority object without a `name` is not modelled. A JSON null is treated the same as a missing member.
- Issue ids are kept as text, as the service sends them.
- Pagination.JiraIssues.AddIssues: the source builds a new array, so readers holding the old array keep it. The model reassigns a sequence, which has the same effect.
- Proxy.JiraRestProxy.GetIssuesFromFilter: a total that grows or shrinks between page fetches is not modelled specially. The page count comes from the first page's total, as in the source.
- Concurrency and timeouts of the HTTP client are not modelled.

## Findings

| source | as written | input that shows it | evidently intended | confidence | as-written member | corrected member |
|---|---|---|---|---|---|---|
| VersionOne.JiraConnector/Rest/JiraRestProxy.cs:345 | GetIssue decodes the answer of the issue resource as a search result and takes the first of its `issues` | a 200 answer to the issue request whose content is a single issue object (id, key, fields), with no `issues` list and no `total` | decode that single issue object as the issue | not executed; follows from the shape of the issue resource's answer | Proxy.ReadIssueAsWritten (shown by Proxy.IssueDocumentReadAsSearchResult) | Proxy.ReadIssue (used by Proxy.JiraRestProxy.GetIssue and UpdateIssue) |
