# snowlink in Dafny

A model of the list-driven linker that connects incident-platform (PagerDuty) services to
ITSM (ServiceNow) configuration items (CIs) and assignment groups (AGs), and of the
PagerDuty helper library it uses.

- `snowlink.py` — `pair` handles one CSV row:
  - it resolves the service, taking the first result;
  - it optionally replaces the escalation policy with a named override;
  - it finds an ITSM extension on the service whose `config.target` holds the instance's
    webhook URL, or creates one;
  - it resolves the CI and the AG;
  - it writes the webhook, service and escalation ids into the CI and AG records with at
    most two PUTs.

  The `__main__` loop counts the rows `pair` handled successfully.
- `pd.py` — the `Authorization` scheme chosen from the token's shape, the Events API
  routing URLs, the integration-key and v2-payload checks, the guard, URL and headers of
  `request`, and the paginated `fetch` loop.

Neither platform is modelled. A `Remote` value (module SnowLink) answers every listing,
creation and lookup. A `CallLog` object (module Http) records every request actually sent,
so properties like "no POST is sent" can be stated about the log. Each imperative routine
is a `method` proved against a function:

- `Fetch` against `FetchSpec`/`FetchCalls`;
- `FindExistingExtension` against `SearchSpec`;
- `Pair` and its stage methods against `PairSpec` and the stage functions;
- `CountRows` against `CountOk`.

The properties are lemmas about those functions.

Modules, one per file: `Options` (options.dfy), `Text` (text.dfy: Python string helpers),
`Regex` (regex.dfy: the fixed-width anchored patterns `pd.py` uses, with Python's `$`),
`Http` (http.dfy), `PagerDuty` (pagerduty.dfy), `SnowLink` (snowlink.dfy).

### Behaviour worth knowing
- snowlink.py:253-260 has no `try`/`except` around `pair`, so an exception in one row ends
  the whole batch before the summary line. `CountRows` stops at the first `Error` row and
  then reports `finished == false`.
- `snow_ci_id` is bound only when the CI query has a result (snowlink.py:194-195), and it
  is read at line 222.
  - A row without a CI name never binds `snow_ci_id`. If it gets past the service, policy,
    extension and AG stages, line 222 raises `UnboundLocalError` (`NoCiNameNeverOk`).
  - A row whose CI query finds nothing is skipped at lines 204-207 when it has no AG name.
    With an AG name it goes on: `findAssignmentGroupId` may raise `IndexError` first
    (line 91), and otherwise line 222 raises `UnboundLocalError`.
  - The "not found" skip at lines 225-228 is therefore unreachable; `ItemStepNeverEmptyId`
    proves this.
- `findAssignmentGroupId` indexes `[0]` (line 91), so an AG name that matches nothing
  raises `IndexError`.
- The two updates are not independent: a CI PUT that raises ends `pair` before the AG PUT
  (snowlink.py:222-232). `PropagateSpec` reproduces this.
- A page request in `fetch` that raises after a page with `more` does not end the loop:
  the stale page is read again, its `limit` is added to the offset a second time, and the
  loop goes on (pd.py:126-135; `RaisedRequestKeepsPage`, `RaisedRequestReusesStalePage`).
  A raise escapes only from the first request, where `r` is still unbound
  (`FirstFailureEscapes`).
- An empty reply from any request sets `r` to None (pd.py:108-111). The `TypeError` at
  line 128 is caught, but `"more" in r` at line 132 raises outside the `try`
  (`EmptyReplyCrashes`).

Every exception is modelled as the outcome `Error`.

## Model

| member | source | states |
|---|---|---|
| Text.LastSegmentIsLast | pd.py:124 | the array name is the suffix after the last '/', free of '/', or the whole endpoint when it has no '/' |
| Text.SubstringOfExtension | snowlink.py:26-28 | extra text after a URL does not stop the URL from matching as a substring |
| Http.CallLog.Send | pd.py:105-106 | sending a request appends exactly that request to the log |
| PagerDuty.AuthHeaderScheme | pd.py:18-22 | the `Bearer` scheme is chosen iff the token is 64 lower-case hex digits, optionally followed by one final newline (Python `$`); otherwise `Token token=`; either header gives the token back |
| PagerDuty.SendEventUrlSelects | pd.py:52-58 | `/x-ere/{key}` iff the destination is x-ere, routing or ger; `/integration/{key}/enqueue` iff v1, cet or raw; `/v2/enqueue` iff neither |
| PagerDuty.SendEventAgreesWithRoutingKey | pd.py:24-28 | `url_for_routing_key` gives `/x-ere/{key}` for keys starting with "R" and `/v2/enqueue` otherwise, matching send_event's choice |
| PagerDuty.ClassicKeyShape | pd.py:30-32 | a classic key is exactly 32 hex digits of either case (plus an optional final newline) |
| PagerDuty.RulesKeyShape | pd.py:34-36 | a rules-engine key is exactly "R" or "r" followed by 31 ASCII letters or digits (plus an optional final newline) |
| PagerDuty.ValidIntegrationKeyShape | pd.py:38-39 | a valid integration key is one of the two shapes above, in both directions |
| PagerDuty.LowercaseRulesKeyRoutesToDefault | pd.py:24-39 | every rules key with a lower-case "r" is valid, yet `url_for_routing_key` sends it to `/v2/enqueue`; such keys exist |
| PagerDuty.V2ActionRule | pd.py:41-50 | acknowledge and resolve pass whatever the payload holds; an action outside the three never passes, nor does a payload that is not an object or whose `event_action` is missing or not a string |
| PagerDuty.V2TriggerRule | pd.py:44-47 | a trigger passes iff its inner payload has a known severity and a truthy summary and source; other inner keys do not matter |
| PagerDuty.Request | pd.py:78-84 | no request iff the token or the endpoint is empty; otherwise the URL is `BASE_URL/endpoint` and the verb, params and body are the caller's |
| PagerDuty.RequestHeadersOverride | pd.py:85-95 | the headers are Accept, Authorization and Content-Type, overridden key by key by the extra headers |
| PagerDuty.Attempt | pd.py:126-130 | the `try` block sends one GET with the current params; a page replaces `r` and extends the items, a raised request keeps the stale `r`, and no content sets it to None |
| PagerDuty.Fetch | pd.py:113-136 | the method returns what `FetchSpec` gives and logs exactly the GETs that `FetchCalls` lists |
| PagerDuty.FetchCallsAreGets | pd.py:127 | a fetch sends one GET per request to `BASE_URL/endpoint`, with no body |
| PagerDuty.FetchCallsCarryOffsets | pd.py:114-135 | request k carries the caller's params, with that request's `offset` written in when it has one |
| PagerDuty.FetchParamsCopy | pd.py:114-116 | the first request carries exactly the caller's params; later ones change only `offset` |
| PagerDuty.OffsetsAreRunningSums | pd.py:134-135 | each offset is the running sum of the page limits so far |
| PagerDuty.LoopOverPages | pd.py:125-135 | from any state, a run of pages with `more` that ends in a page without it completes with the pages' arrays appended in order |
| PagerDuty.FetchInPageOrder | pd.py:122-136 | the result is the concatenation, in page order, of each page's array (a missing array adds nothing and does not stop the loop); the first request has no offset and request k carries the sum of the first k limits |
| PagerDuty.RaisedRequestKeepsPage | pd.py:126-135 | from any state with a page with `more` in `r`, a request that raises keeps that page, adds no items, and the next request carries the offset plus its `limit` |
| PagerDuty.LoopPastPages | pd.py:125-135 | pages `i` to `n - 1` with `more` bring the loop to request `n` with the last of them in `r`, the offset advanced by their limits and their arrays appended in order |
| PagerDuty.RaisedRequestReusesStalePage | pd.py:126-135 | when request `n` raises after `n` pages with `more`, request `n` carries the sum of their limits and request `n + 1` that sum plus page `n - 1`'s `limit` again |
| PagerDuty.EmptyReplyCrashes | pd.py:108-133 | from any state, a request with an empty reply makes `fetch` raise, with that request the last one sent |
| PagerDuty.FirstFailureEscapes | pd.py:126-133 | when the first request raises or returns nothing, the exception leaves `fetch` |
| SnowLink.SnowGet | snow.py:4-27 | a GET through `snow.request` is sent only when the instance and the table are non-empty, and it returns the remote's reply |
| SnowLink.SnowPut | snow.py:4-27 | a PUT through `snow.request` is sent under the same guard, and it raises exactly when the remote refuses it |
| SnowLink.FirstMatchIsFirst | snowlink.py:19-30 | nothing is found iff every extension passes; otherwise the first one that does not pass decides: its id when it has `snow_user`, the schema key and a target holding the URL, or a KeyError when it lacks `target` |
| SnowLink.FindExistingExtension | snowlink.py:15-30 | the loop returns the first-match search over the fetched list, and raises when the listing does |
| SnowLink.CreateExtensionBodyShape | snowlink.py:38-58 | the name is `ServiceNow (instance)`; `sync_options` is `sync_all` iff sync is "auto", else `manual_sync`; the target is the instance's webhook URL; the body carries the credentials, the schema and the service |
| SnowLink.CreateSpecPosts | snowlink.py:61-62 | with a token, exactly one POST to `/extensions` carrying the body, and an id iff the reply is a value; without a token, nothing is sent and the create fails |
| SnowLink.CreateExtension | snowlink.py:33-64 | the method posts the body above and returns the id read back |
| SnowLink.CreatedExtensionMatches | snowlink.py:40-45 | the extension a create stores qualifies in a later search for the same instance and schema, also after URL parameters have been appended to its target |
| SnowLink.FindConfigurationItem | snowlink.py:67-77 | the method sends one GET of `cmdb_ci?sysparm_query=name=` with the quoted name, under the guard |
| SnowLink.GroupSpecFailsOnEmptyResult | snowlink.py:86-91 | the AG lookup fails iff the query is not answered with at least one group; otherwise it gives the first group's id; one GET iff the instance is set |
| SnowLink.FindAssignmentGroupId | snowlink.py:80-91 | the method matches the AG lookup specification |
| SnowLink.AgFieldsExtendCiFields | snowlink.py:131-135 | the AG fields are the CI's webhook and service fields plus the escalation policy |
| SnowLink.UpdateCiPuts | snowlink.py:99-119 | one PUT to `cmdb_ci/{id}` with exactly the webhook and service fields iff the id (and the instance) is non-empty, else no call; it raises iff the PUT is refused |
| SnowLink.UpdateAgPuts | snowlink.py:128-149 | the same for `sys_user_group/{id}`, with the webhook, escalation and service fields |
| SnowLink.UpdateConfigurationItem | snowlink.py:94-119 | the method matches the CI update specification |
| SnowLink.UpdateAssignmentGroup | snowlink.py:122-149 | the method matches the AG update specification |
| SnowLink.ResolveService | snowlink.py:156-166 | the first service listed wins; an empty list skips the row; a listing that raises ends it in Error |
| SnowLink.ResolvePolicy | snowlink.py:170-175 | the override is looked up only when it is given and differs; the first policy it lists replaces the service's |
| SnowLink.LinkExtension | snowlink.py:177-187 | the webhook id is a found extension's (when truthy), otherwise a newly created one's; a failed search or create ends the row in Error |
| SnowLink.ResolveItem | snowlink.py:189-207 | the CI stage: an empty `sys_id` skips; no related AG and no AG name skips; an unanswered query raises |
| SnowLink.ResolveGroup | snowlink.py:209-217 | a given AG name is looked up; otherwise the CI's related AG (possibly empty) is used |
| SnowLink.Propagate | snowlink.py:221-233 | an unbound CI id raises; a non-empty one is updated first, then the AG; a refused PUT raises |
| SnowLink.Pair | snowlink.py:152-233 | the method's outcome and its log are those of `PairSpec`, the stage-by-stage specification |
| SnowLink.NoServiceSkips | snowlink.py:160-166 | an empty service list skips the row, and nothing is sent but the service listing's GETs |
| SnowLink.PolicyRequeryRule | snowlink.py:170 | with no override, or one equal to the current summary, there is no lookup and the service's own policy is kept |
| SnowLink.PolicyEmptyRequeryKeeps | snowlink.py:170-175 | an override lookup that lists nothing keeps the service's policy; an override given, differing from the summary and listing a policy takes the first policy's id; the stage sends only GETs of the policy listing |
| SnowLink.ExistingExtensionNoPost | snowlink.py:177-182 | a found extension with a truthy id is reused, and the stage sends only the listing's GETs, no POST |
| SnowLink.RerunFindsCreatedExtension | snowlink.py:177-185 | rerunning a row finds the extension an earlier create stored for the same instance and schema, even with URL parameters appended to its target, and sends no POST |
| SnowLink.ItemStepNeverEmptyId | snowlink.py:194-228 | with a CI name, the CI stage never passes on an empty id (so the skip at 225-228 is unreachable), and it lets a row through only with a related AG or an AG name |
| SnowLink.GroupNamePrecedence | snowlink.py:209-217 | a given AG name makes the CI's related AG irrelevant; with no name, the related AG is used without a request |
| SnowLink.SkipWritesNothing | snowlink.py:160-228 | a skipped row has sent no PUT |
| SnowLink.NoCiNameNeverOk | snowlink.py:189-222 | with no CI name `pair` never returns 0; past the extension stage it raises |
| SnowLink.OkWritesCi | snowlink.py:189-224 | returning 0 needs a CI name found with a non-empty `sys_id`, and that CI was sent a PUT |
| SnowLink.SkipAfterCreate | snowlink.py:177-207 | a row the CI stage skips after a create is reported as skipped, and its log holds the POST |
| SnowLink.CiWithoutGroupSkips | snowlink.py:200-207 | a CI found without a related AG, on a row without an AG name, is skipped with no PUT |
| SnowLink.PropagatePuts | snowlink.py:221-232 | the updates send at most two PUTs: one to `cmdb_ci/{id}` for a non-empty CI id, one to `sys_user_group/{id}` for a non-empty AG id |
| SnowLink.AtMostTwoPuts | snowlink.py:150-233 | a whole run of `pair` sends at most two PUTs, each to the CI record its query found first (non-empty `sys_id`) or to an AG record with a non-empty id |
| SnowLink.CountOkBounds | snowlink.py:252-261 | the success count is at most the number of rows, and equals it iff every row returned 0 |
| SnowLink.CountRows | snowlink.py:252-261 | the loop counts a row as read before `pair` runs and as a success iff `pair` returned 0; the first row that raises ends it; it finishes iff no row raises |

## Left out
- HTTP transport. `requests.Session().send`, `raise_for_status` and JSON decoding are the `Remote` oracle and the `Reply` type. A non-2xx status is `Raised`; an empty body is `NoContent`.
- JSON shapes. Replies are decoded into the fields the code reads. A reply of another shape — a service without `escalation_policy`, an extension without `extension_schema`, a create reply without `extension.id` — is not modelled; the last is read as a failed create.
- `snow.py` itself. Only its guard, its URL, its JSON `Content-Type` header and its Basic credentials are modelled, in `SnowRequest`. The credentials dict is never empty, so the guard depends on instance and table only.
- PUT replies. They are not read. A PUT either succeeds or raises (`Remote.accepts`).
- `urllib.parse.quote`. It is the opaque function parameter `quote`.
- argparse, CSV reading and printing.
- The `DEBUG` flag is taken as off. This changes behaviour: with it on, line 202 reads `snow_ci_id` before it is bound, and lines 116 and 146 read the PUT replies. Each of these can raise earlier than the model does.
- The `extension_type` table. It is not part of this model: a row carries the schema id its sixth column names (`Row.schemaKey`).
- A missing key in that table, or a row with fewer than six columns, raises in the batch loop. The model counts it as a row whose outcome is `Error`.
- CountRows: runs over the sequence of row outcomes rather than calling `pair` on CSV rows. `Pair` gives each row's outcome.
- `add_sub`, `remove_sub`, `get_subs`, `remove_webhook`, and the `fetch_*` wrappers other than those for services, escalation policies and extensions. They are fixed payloads or one-line wrappers.
- `fetch_log_entries`. It depends on the wall clock.
- `send_event` beyond its URL choice (the POST and its reply), and `request`'s `method="GET"` default beyond the verbs the core uses.
- Fetch: the server's replies are a finite script. When the script runs out while `more` still holds, the result is `Unfinished` (the real loop would go on), and `pair` treats it as an error.
- `re.IGNORECASE` is ASCII only. Python's wider Unicode case folding (such as the Kelvin sign matching `k`) is not modelled.
- The `base_url` default `https://events.pagerduty.com` (pd.py:24, pd.py:52) is not fixed: `UrlForRoutingKey` and `SendEventUrl` take the base URL as a parameter, so their lemmas hold for every base, the default included.
- `limit` and `offset` are integers. A float `limit` is not modelled.
- OkWritesCi: states that the CI PUT is in the log, but not the AG PUT that follows it.
- SkipAfterCreate: shows a POST in the log of a skipped row only for a row the CI stage skips after a successful create.
