/** The pairing logic of `snowlink.py`: one input row links an incident-platform service to
    an ITSM configuration item (CI) and assignment group (AG). `pair` resolves the service,
    optionally overrides its escalation policy, finds or creates the ITSM extension on the
    service, resolves the CI and the AG, and writes the ids into the ITSM records with at most
    two PUTs. The batch loop counts the rows `pair` handled successfully.

    The remote is abstract: a `Remote` value answers every listing, creation and lookup, and
    every request sent is appended to a `CallLog`. `urllib.parse.quote` is a parameter. */
module SnowLink {
  import opened Options
  import opened Text
  import opened Http
  import opened PagerDuty

  /** What `pair` ends with: 0, 1, or an exception that escapes it. */
  datatype Outcome = Ok | Skip | Error

  /** The `escalation_policy` reference of a service. */
  datatype PolicyRef = PolicyRef(id: string, summary: string)

  /** One element of the `services` array. */
  datatype Service = Service(id: string, escalationPolicy: PolicyRef)

  /** One element of the `escalation_policies` array. */
  datatype Policy = Policy(id: string)

  /** One element of the `extensions` array: its id, its `config` object, and the id of its
      `extension_schema`. */
  datatype Extension = Extension(id: string, config: map<string, string>, schemaId: string)

  /** One element of a CI query's `result`: its `sys_id`, and the `value` of its
      `assignment_group` when that field is a (truthy) reference rather than empty. */
  datatype ConfigItem = ConfigItem(sysId: string, assignmentGroup: Option<string>)

  /** The command-line settings shared by every row. */
  datatype Settings = Settings(token: string, instance: string, apiUser: string, apiPassword: string,
                               updateUser: string, updatePassword: string)

  /** One CSV row: service name, escalation policy override, CI name, AG name, sync mode, and
      the extension schema id its sixth column names. */
  datatype Row = Row(service: string, policy: string, ciName: string, groupName: string,
                     sync: string, schemaKey: string)

  /** What the two platforms answer. Listings are reply scripts keyed by their query; the
      extension creation answers the new extension's id; the ITSM lookups are keyed by the
      table path they request; a PUT either succeeds or raises. */
  datatype Remote = Remote(services: string -> seq<Reply<Page<Service>>>,
                           policies: string -> seq<Reply<Page<Policy>>>,
                           extensions: string -> seq<Reply<Page<Extension>>>,
                           created: NewExtension -> Reply<string>,
                           items: string -> Reply<seq<ConfigItem>>,
                           groups: string -> Reply<seq<string>>,
                           accepts: Call -> bool)

  /** A value computed by talking to the remote, with the requests that took. */
  datatype Answer<T> = Answer(value: T, calls: seq<Call>)

  // ---------------------------------------------------------------------------------------
  // The ITSM side

  /** The inbound webhook URL of the ITSM instance, which the extension's `target` holds. */
  function SnowTarget(instance: string): string
  {
    "https://" + instance + ".service-now.com/api/x_pd_integration/pagerduty2sn"
  }

  /** The table API URL that `snow.request` builds. */
  function SnowUrl(instance: string, table: string): string
  {
    "https://" + instance + ".service-now.com/api/now/table/" + table
  }

  /** `snow.request` with the update credentials: None when its guard refuses (the
      credentials dict is never empty), otherwise the call it sends. */
  function SnowRequest(cfg: Settings, table: string, verb: Verb, body: Body): Option<Call>
  {
    if cfg.instance == "" || table == "" then None
    else Some(Call(verb, SnowUrl(cfg.instance, table), map["Content-Type" := JSON_TYPE], map[], body,
                   BasicAuth(cfg.updateUser, cfg.updatePassword)))
  }

  /** A GET through `snow.request`: None (here NoContent) without a call when the guard
      refuses, otherwise the remote's reply. */
  function SnowGetSpec<T>(cfg: Settings, table: string, reply: Reply<T>): Answer<Reply<T>>
  {
    match SnowRequest(cfg, table, GET, NoBody)
    case None => Answer(NoContent, [])
    case Some(c) => Answer(reply, [c])
  }

  method SnowGet<T>(log: CallLog, cfg: Settings, table: string, reply: Reply<T>) returns (r: Reply<T>)
    modifies log
    ensures r == SnowGetSpec(cfg, table, reply).value
    ensures log.calls == old(log.calls) + SnowGetSpec(cfg, table, reply).calls
  {
    var call := SnowRequest(cfg, table, GET, NoBody);
    if call.None? {
      return NoContent;
    }
    log.Send(call.value);
    return reply;
  }

  /** A PUT through `snow.request`: whether it raised. Its reply is not read. */
  function SnowPutSpec(cfg: Settings, table: string, fields: map<string, string>, accepts: Call -> bool): Answer<bool>
  {
    match SnowRequest(cfg, table, PUT, FieldsBody(fields))
    case None => Answer(false, [])
    case Some(c) => Answer(!accepts(c), [c])
  }

  method SnowPut(log: CallLog, cfg: Settings, table: string, fields: map<string, string>, accepts: Call -> bool)
    returns (raised: bool)
    modifies log
    ensures raised == SnowPutSpec(cfg, table, fields, accepts).value
    ensures log.calls == old(log.calls) + SnowPutSpec(cfg, table, fields, accepts).calls
  {
    var call := SnowRequest(cfg, table, PUT, FieldsBody(fields));
    if call.None? {
      return false;
    }
    log.Send(call.value);
    return !accepts(call.value);
  }

  // ---------------------------------------------------------------------------------------
  // findExistingExtension

  /** What the loop body does with one extension: skip it, return its id, or raise the
      KeyError of a `config` with `snow_user` but no `target`. */
  datatype Verdict = Passes | Hits | Breaks

  function Check(ext: Extension, target: string, key: string): Verdict
  {
    if "snow_user" !in ext.config then Passes
    else if "target" !in ext.config then Breaks
    else if ext.schemaId == key && IsSubstring(target, ext.config["target"]) then Hits
    else Passes
  }

  /** What `findExistingExtension` ends with. */
  datatype Search = NotFound | Found(id: string) | Raises

  /** The search over `exts[i..]`. */
  function FirstMatchFrom(exts: seq<Extension>, i: nat, target: string, key: string): Search
    decreases |exts| - i
  {
    if i >= |exts| then NotFound
    else
      match Check(exts[i], target, key)
      case Hits => Found(exts[i].id)
      case Breaks => Raises
      case Passes => FirstMatchFrom(exts, i + 1, target, key)
  }

  /** The verdict of the first extension that does not pass, as a search result. */
  function Settle(ext: Extension, target: string, key: string): Search
  {
    if Check(ext, target, key) == Hits then Found(ext.id) else Raises
  }

  /** The search finds nothing exactly when every extension passes; otherwise the first
      extension that does not pass decides it: its id when it qualifies, an exception when
      its config lacks `target`. */
  lemma {:induction false} FirstMatchIsFirst(exts: seq<Extension>, i: nat, target: string, key: string)
    requires i <= |exts|
    ensures FirstMatchFrom(exts, i, target, key) == NotFound
        <==> forall k :: i <= k < |exts| ==> Check(exts[k], target, key) == Passes
    ensures forall j :: i <= j < |exts| && Check(exts[j], target, key) != Passes
                        && (forall k :: i <= k < j ==> Check(exts[k], target, key) == Passes)
               ==> FirstMatchFrom(exts, i, target, key) == Settle(exts[j], target, key)
    decreases |exts| - i
  {
    if i < |exts| {
      FirstMatchIsFirst(exts, i + 1, target, key);
      if Check(exts[i], target, key) == Passes {
        forall j | i <= j < |exts| && Check(exts[j], target, key) != Passes
                   && (forall k :: i <= k < j ==> Check(exts[k], target, key) == Passes)
          ensures FirstMatchFrom(exts, i, target, key) == Settle(exts[j], target, key)
        {
          assert j != i;
        }
      }
    }
  }

  /** `findExistingExtension` on what the extension listing answers. A listing that raises
      makes the search raise. */
  function SearchSpec(token: string, target: string, key: string, replies: seq<Reply<Page<Extension>>>): Search
  {
    var run := FetchSpec(token, "extensions", replies);
    if run.result.Complete? then FirstMatchFrom(run.result.items, 0, target, key) else Raises
  }

  /** The GETs of the extension listing for a service. */
  function ExtensionListCalls(token: string, serviceId: string, replies: seq<Reply<Page<Extension>>>): seq<Call>
  {
    FetchCalls(token, "extensions", map["extension_object_id" := Text(serviceId)], map[],
               FetchSpec(token, "extensions", replies).sent)
  }

  method FindExistingExtension(log: CallLog, token: string, target: string, serviceId: string, key: string,
                               replies: seq<Reply<Page<Extension>>>)
    returns (found: Search)
    modifies log
    ensures found == SearchSpec(token, target, key, replies)
    ensures log.calls == old(log.calls) + ExtensionListCalls(token, serviceId, replies)
  {
    var extensions := Fetch(log, token, "extensions", map["extension_object_id" := Text(serviceId)], map[], replies);
    if !extensions.Complete? {
      return Raises;
    }
    var exts := extensions.items;
    for i := 0 to |exts|
      invariant FirstMatchFrom(exts, 0, target, key) == FirstMatchFrom(exts, i, target, key)
    {
      var ext := exts[i];
      if "snow_user" in ext.config {
        var snowVersion := ext.schemaId;
        if "target" !in ext.config {
          return Raises;
        }
        var snowUrl := ext.config["target"];
        // the URL may carry extra parameters, so it is matched as a substring
        if snowVersion == key && IsSubstring(target, snowUrl) {
          return Found(ext.id);
        }
      }
    }
    return NotFound;
  }

  // ---------------------------------------------------------------------------------------
  // createExtension

  /** The `"extension"` object `createExtension` posts. */
  function CreateExtensionBody(instance: string, apiUser: string, apiPassword: string, sync: string,
                               key: string, serviceId: string): NewExtension
  {
    NewExtension(
      "ServiceNow (" + instance + ")",
      map["snow_user" := apiUser,
          "snow_password" := apiPassword,
          "sync_options" := if sync == "auto" then "sync_all" else "manual_sync",
          "target" := SnowTarget(instance)],
      Ref(key, "extension_schema_reference"),
      [Ref(serviceId, "service_reference")])
  }

  /** The body names the instance, carries the API credentials, selects full sync exactly for
      `"auto"`, targets the instance's webhook, and attaches the schema and the service. */
  lemma CreateExtensionBodyShape(instance: string, apiUser: string, apiPassword: string, sync: string,
                                 key: string, serviceId: string)
    ensures var b := CreateExtensionBody(instance, apiUser, apiPassword, sync, key, serviceId);
            && b.name == "ServiceNow (" + instance + ")"
            && b.config.Keys == {"snow_user", "snow_password", "sync_options", "target"}
            && b.config["snow_user"] == apiUser && b.config["snow_password"] == apiPassword
            && (b.config["sync_options"] == "sync_all" <==> sync == "auto")
            && (sync != "auto" ==> b.config["sync_options"] == "manual_sync")
            && b.config["target"] == SnowTarget(instance)
            && b.schema == Ref(key, "extension_schema_reference")
            && b.objects == [Ref(serviceId, "service_reference")]
  {
  }

  /** The POST of `createExtension` and the id it reads back (None when `request` refused or
      the reply was empty, and when the request raised). */
  function CreateSpec(token: string, body: NewExtension, reply: Reply<string>): Answer<Option<string>>
  {
    match Request(token, "extensions", POST, map[], ExtensionBody(body), map[])
    case None => Answer(None, [])
    case Some(c) => Answer(if reply.Answered? then Some(reply.value) else None, [c])
  }

  /** With a token, creating an extension sends exactly one POST to the extensions endpoint,
      carrying the body; without one it sends nothing and fails. */
  lemma CreateSpecPosts(token: string, body: NewExtension, reply: Reply<string>)
    ensures var a := CreateSpec(token, body, reply);
            && (token != "" <==> |a.calls| == 1)
            && (token == "" ==> a.calls == [] && a.value == None)
            && (token != "" ==> a.calls[0].verb == POST && a.calls[0].url == BASE_URL + "/extensions"
                                && a.calls[0].body == ExtensionBody(body)
                                && (a.value.Some? <==> reply.Answered?))
  {
  }

  method CreateExtension(log: CallLog, token: string, instance: string, apiUser: string, apiPassword: string,
                         sync: string, key: string, serviceId: string, created: NewExtension -> Reply<string>)
    returns (webhookId: Option<string>)
    modifies log
    ensures var body := CreateExtensionBody(instance, apiUser, apiPassword, sync, key, serviceId);
            webhookId == CreateSpec(token, body, created(body)).value
            && log.calls == old(log.calls) + CreateSpec(token, body, created(body)).calls
  {
    var body := CreateExtensionBody(instance, apiUser, apiPassword, sync, key, serviceId);
    var call := Request(token, "extensions", POST, map[], ExtensionBody(body), map[]);
    if call.None? {
      // `None['extension']` raises
      return None;
    }
    log.Send(call.value);
    var response := created(body);
    if !response.Answered? {
      return None;
    }
    return Some(response.value);
  }

  /** The extension a creation stores passes the search of a later run for the same instance
      and schema: its config has `snow_user`, its schema matches, and its target holds the URL
      searched for, also when URL parameters `extra` have been appended to it since. */
  lemma CreatedExtensionMatches(instance: string, apiUser: string, apiPassword: string, sync: string,
                                key: string, serviceId: string, id: string, extra: string)
    ensures var body := CreateExtensionBody(instance, apiUser, apiPassword, sync, key, serviceId);
            var stored := body.config["target" := SnowTarget(instance) + extra];
            Check(Extension(id, stored, body.schema.id), SnowTarget(instance), key) == Hits
  {
    SubstringOfItself(SnowTarget(instance));
    SubstringOfExtension(SnowTarget(instance), SnowTarget(instance), extra);
  }

  // ---------------------------------------------------------------------------------------
  // findConfigurationItem, findAssignmentGroupId

  /** The table path of a CI query by name. */
  function CiQuery(quote: string -> string, name: string): string
  {
    "cmdb_ci?sysparm_query=name=" + quote(name)
  }

  /** The table path of an AG query by name. */
  function GroupQuery(quote: string -> string, name: string): string
  {
    "sys_user_group?sysparm_query=name=" + quote(name)
  }

  method FindConfigurationItem(log: CallLog, cfg: Settings, quote: string -> string, name: string,
                               items: string -> Reply<seq<ConfigItem>>)
    returns (r: Reply<seq<ConfigItem>>)
    modifies log
    ensures r == SnowGetSpec(cfg, CiQuery(quote, name), items(CiQuery(quote, name))).value
    ensures log.calls == old(log.calls) + SnowGetSpec(cfg, CiQuery(quote, name), items(CiQuery(quote, name))).calls
  {
    var table := CiQuery(quote, name);
    r := SnowGet(log, cfg, table, items(table));
  }

  /** `findAssignmentGroupId`: the `sys_id` of the first result; None for the exceptions of
      `res['result'][0]` on an empty reply or an empty result, and of a raised request. */
  function GroupSpec(cfg: Settings, quote: string -> string, name: string, groups: string -> Reply<seq<string>>)
    : Answer<Option<string>>
  {
    var table := GroupQuery(quote, name);
    var a := SnowGetSpec(cfg, table, groups(table));
    Answer(if a.value.Answered? && |a.value.value| > 0 then Some(a.value.value[0]) else None, a.calls)
  }

  /** An AG lookup fails exactly when the query is not answered with at least one group; it
      sends one GET when the instance is set, and none otherwise. */
  lemma GroupSpecFailsOnEmptyResult(cfg: Settings, quote: string -> string, name: string,
                                    groups: string -> Reply<seq<string>>)
    ensures var table := GroupQuery(quote, name);
            var a := GroupSpec(cfg, quote, name, groups);
            && (a.value.None? <==> cfg.instance == "" || !groups(table).Answered? || groups(table).value == [])
            && (a.value.Some? ==> a.value.value == groups(table).value[0])
            && (cfg.instance != "" <==> |a.calls| == 1)
            && (cfg.instance == "" ==> a.calls == [])
            && (cfg.instance != "" ==> a.calls[0].verb == GET && a.calls[0].url == SnowUrl(cfg.instance, table))
  {
  }

  method FindAssignmentGroupId(log: CallLog, cfg: Settings, quote: string -> string, name: string,
                               groups: string -> Reply<seq<string>>)
    returns (id: Option<string>)
    modifies log
    ensures id == GroupSpec(cfg, quote, name, groups).value
    ensures log.calls == old(log.calls) + GroupSpec(cfg, quote, name, groups).calls
  {
    var table := GroupQuery(quote, name);
    var res := SnowGet(log, cfg, table, groups(table));
    if !res.Answered? || |res.value| == 0 {
      return None;
    }
    return Some(res.value[0]);
  }

  // ---------------------------------------------------------------------------------------
  // updateConfigurationItem, updateAssignmentGroup

  /** The fields written into a CI. */
  function CiFields(webhookId: string, serviceId: string): map<string, string>
  {
    map["x_pd_integration_pagerduty_webhook" := webhookId, "x_pd_integration_pagerduty_service" := serviceId]
  }

  /** The fields written into an AG. */
  function AgFields(webhookId: string, serviceId: string, epId: string): map<string, string>
  {
    map["x_pd_integration_pagerduty_webhook" := webhookId,
        "x_pd_integration_pagerduty_escalation" := epId,
        "x_pd_integration_pagerduty_service" := serviceId]
  }

  /** An AG gets the CI's two fields and the escalation policy besides. */
  lemma AgFieldsExtendCiFields(webhookId: string, serviceId: string, epId: string)
    ensures CiFields(webhookId, serviceId).Keys
            == {"x_pd_integration_pagerduty_webhook", "x_pd_integration_pagerduty_service"}
    ensures AgFields(webhookId, serviceId, epId)
            == CiFields(webhookId, serviceId)["x_pd_integration_pagerduty_escalation" := epId]
  {
  }

  /** `updateConfigurationItem`: whether it raised, and its PUT. */
  function UpdateCiSpec(cfg: Settings, accepts: Call -> bool, ciId: string, webhookId: string, serviceId: string)
    : Answer<bool>
  {
    if ciId == "" then Answer(false, [])
    else SnowPutSpec(cfg, "cmdb_ci/" + ciId, CiFields(webhookId, serviceId), accepts)
  }

  /** `updateAssignmentGroup`: whether it raised, and its PUT. */
  function UpdateAgSpec(cfg: Settings, accepts: Call -> bool, agId: string, webhookId: string, serviceId: string,
                        epId: string): Answer<bool>
  {
    if agId == "" then Answer(false, [])
    else SnowPutSpec(cfg, "sys_user_group/" + agId, AgFields(webhookId, serviceId, epId), accepts)
  }

  /** A CI update sends one PUT to `cmdb_ci/{id}` with exactly the webhook and service fields
      when the id (and the instance) is non-empty, and otherwise sends nothing and succeeds;
      it raises exactly when the PUT is refused. */
  lemma UpdateCiPuts(cfg: Settings, accepts: Call -> bool, ciId: string, webhookId: string, serviceId: string)
    ensures var u := UpdateCiSpec(cfg, accepts, ciId, webhookId, serviceId);
            && (ciId != "" && cfg.instance != "" <==> |u.calls| == 1)
            && (|u.calls| != 1 ==> u.calls == [] && !u.value)
            && (|u.calls| == 1 ==>
                  && u.calls[0].verb == PUT && u.calls[0].url == SnowUrl(cfg.instance, "cmdb_ci/" + ciId)
                  && u.calls[0].body == FieldsBody(CiFields(webhookId, serviceId))
                  && u.calls[0].auth == BasicAuth(cfg.updateUser, cfg.updatePassword)
                  && (u.value <==> !accepts(u.calls[0])))
  {
  }

  /** An AG update sends one PUT to `sys_user_group/{id}` with exactly the webhook, escalation
      and service fields when the id (and the instance) is non-empty, and otherwise nothing. */
  lemma UpdateAgPuts(cfg: Settings, accepts: Call -> bool, agId: string, webhookId: string, serviceId: string,
                     epId: string)
    ensures var u := UpdateAgSpec(cfg, accepts, agId, webhookId, serviceId, epId);
            && (agId != "" && cfg.instance != "" <==> |u.calls| == 1)
            && (|u.calls| != 1 ==> u.calls == [] && !u.value)
            && (|u.calls| == 1 ==>
                  && u.calls[0].verb == PUT && u.calls[0].url == SnowUrl(cfg.instance, "sys_user_group/" + agId)
                  && u.calls[0].body == FieldsBody(AgFields(webhookId, serviceId, epId))
                  && u.calls[0].auth == BasicAuth(cfg.updateUser, cfg.updatePassword)
                  && (u.value <==> !accepts(u.calls[0])))
  {
  }

  method UpdateConfigurationItem(log: CallLog, cfg: Settings, accepts: Call -> bool, ciId: string,
                                 webhookId: string, serviceId: string)
    returns (raised: bool)
    modifies log
    ensures raised == UpdateCiSpec(cfg, accepts, ciId, webhookId, serviceId).value
    ensures log.calls == old(log.calls) + UpdateCiSpec(cfg, accepts, ciId, webhookId, serviceId).calls
  {
    if ciId != "" {
      raised := SnowPut(log, cfg, "cmdb_ci/" + ciId, CiFields(webhookId, serviceId), accepts);
    } else {
      // "Unable to update Configuration Item ID"
      raised := false;
    }
  }

  method UpdateAssignmentGroup(log: CallLog, cfg: Settings, accepts: Call -> bool, agId: string,
                               webhookId: string, serviceId: string, epId: string)
    returns (raised: bool)
    modifies log
    ensures raised == UpdateAgSpec(cfg, accepts, agId, webhookId, serviceId, epId).value
    ensures log.calls == old(log.calls) + UpdateAgSpec(cfg, accepts, agId, webhookId, serviceId, epId).calls
  {
    if agId != "" {
      raised := SnowPut(log, cfg, "sys_user_group/" + agId, AgFields(webhookId, serviceId, epId), accepts);
    } else {
      // "Unable to update Assignment Group ID"
      raised := false;
    }
  }

  // ---------------------------------------------------------------------------------------
  // pair, stage by stage

  /** A stage of `pair`: it goes on with a value, or `pair` returns; with its requests. */
  datatype Step<T> = Go(value: T, calls: seq<Call>) | Stop(outcome: Outcome, calls: seq<Call>)

  /** A run of `pair`: its outcome and its requests. */
  datatype Run = Run(outcome: Outcome, calls: seq<Call>)

  /** `run`, preceded by the requests of the stages before it. */
  function Then(calls: seq<Call>, run: Run): Run
  {
    Run(run.outcome, calls + run.calls)
  }

  /** The service lookup: the first service the query lists, or a skip when none is listed. */
  function ServiceStep(cfg: Settings, remote: Remote, row: Row): Step<Service>
  {
    var run := FetchSpec(cfg.token, "services", remote.services(row.service));
    var calls := FetchCalls(cfg.token, "services", map["query" := Text(row.service)], map[], run.sent);
    if !run.result.Complete? then Stop(Error, calls)
    else if |run.result.items| == 0 then Stop(Skip, calls)
    else Go(run.result.items[0], calls)
  }

  /** The escalation policy id: the service's own, unless an override is given that differs
      from the service's policy summary and the re-query lists a policy. */
  function PolicyStep(cfg: Settings, remote: Remote, row: Row, service: Service): Step<string>
  {
    var epId := service.escalationPolicy.id;
    if row.policy != "" && service.escalationPolicy.summary != row.policy then
      var run := FetchSpec(cfg.token, "escalation_policies", remote.policies(row.policy));
      var calls := FetchCalls(cfg.token, "escalation_policies", map["query" := Text(row.policy)], map[], run.sent);
      if !run.result.Complete? then Stop(Error, calls)
      else if |run.result.items| > 0 then Go(run.result.items[0].id, calls)
      else Go(epId, calls)
    else Go(epId, [])
  }

  /** The webhook id: an existing extension's (a falsy id counts as none), or a new one's. */
  function ExtensionStep(cfg: Settings, remote: Remote, row: Row, serviceId: string): Step<string>
  {
    var replies := remote.extensions(serviceId);
    var found := SearchSpec(cfg.token, SnowTarget(cfg.instance), row.schemaKey, replies);
    var listing := ExtensionListCalls(cfg.token, serviceId, replies);
    if found.Raises? then Stop(Error, listing)
    else if found.Found? && found.id != "" then Go(found.id, listing)
    else
      var body := CreateExtensionBody(cfg.instance, cfg.apiUser, cfg.apiPassword, row.sync, row.schemaKey, serviceId);
      var post := CreateSpec(cfg.token, body, remote.created(body));
      if post.value.None? then Stop(Error, listing + post.calls) else Go(post.value.value, listing + post.calls)
  }

  /** The locals the CI block leaves: `snow_ci_id` (None while unbound) and the related AG. */
  datatype ItemLookup = ItemLookup(ciId: Option<string>, related: string)

  /** The CI block, run only for a CI name. A found CI with an empty `sys_id` is skipped; so is
      a row with neither a related AG nor an AG name. */
  function ItemStep(cfg: Settings, quote: string -> string, remote: Remote, row: Row): Step<ItemLookup>
  {
    if row.ciName == "" then Go(ItemLookup(None, ""), [])
    else
      var table := CiQuery(quote, row.ciName);
      var a := SnowGetSpec(cfg, table, remote.items(table));
      if !a.value.Answered? then Stop(Error, a.calls)
      else
        var items := a.value.value;
        if |items| > 0 && items[0].sysId == "" then Stop(Skip, a.calls)
        else
          var ciId := if |items| > 0 then Some(items[0].sysId) else None;
          var related := if |items| > 0 && items[0].assignmentGroup.Some? then items[0].assignmentGroup.value else "";
          if related == "" && row.groupName == "" then Stop(Skip, a.calls)
          else Go(ItemLookup(ciId, related), a.calls)
  }

  /** The AG id: the looked-up group for an AG name, else the CI's related AG (possibly ""). */
  function GroupStep(cfg: Settings, quote: string -> string, remote: Remote, row: Row, related: string): Step<string>
  {
    if row.groupName != "" then
      var a := GroupSpec(cfg, quote, row.groupName, remote.groups);
      if a.value.None? then Stop(Error, a.calls) else Go(a.value.value, a.calls)
    else Go(related, [])
  }

  /** The tail of `pair`: reading an unbound `snow_ci_id` raises; a non-empty one is updated;
      an empty one with a CI name is skipped (no earlier stage lets that case through); then
      the AG is updated. */
  function PropagateSpec(cfg: Settings, accepts: Call -> bool, ciName: string, ciId: Option<string>, agId: string,
                         webhookId: string, serviceId: string, epId: string): Run
  {
    if ciId.None? then Run(Error, [])
    else if ciId.value == "" && ciName != "" then Run(Skip, [])
    else
      var ci := UpdateCiSpec(cfg, accepts, ciId.value, webhookId, serviceId);
      if ci.value then Run(Error, ci.calls)
      else
        var ag := UpdateAgSpec(cfg, accepts, agId, webhookId, serviceId, epId);
        Run(if ag.value then Error else Ok, ci.calls + ag.calls)
  }

  method Propagate(log: CallLog, cfg: Settings, accepts: Call -> bool, ciName: string, ciId: Option<string>,
                   agId: string, webhookId: string, serviceId: string, epId: string)
    returns (outcome: Outcome)
    modifies log
    ensures outcome == PropagateSpec(cfg, accepts, ciName, ciId, agId, webhookId, serviceId, epId).outcome
    ensures log.calls == old(log.calls) + PropagateSpec(cfg, accepts, ciName, ciId, agId, webhookId, serviceId, epId).calls
  {
    if ciId.None? {
      // UnboundLocalError
      return Error;
    }
    if ciId.value != "" {
      var raised := UpdateConfigurationItem(log, cfg, accepts, ciId.value, webhookId, serviceId);
      if raised {
        return Error;
      }
    } else if ciName != "" {
      // "Provided Configuration Item ... not found. Skipping..."
      return Skip;
    }
    ghost var afterCi := log.calls;
    var raised := UpdateAssignmentGroup(log, cfg, accepts, agId, webhookId, serviceId, epId);
    if raised {
      return Error;
    }
    return Ok;
  }

  /** `pair` on one row. */
  function PairSpec(cfg: Settings, quote: string -> string, remote: Remote, row: Row): Run
  {
    match ServiceStep(cfg, remote, row)
    case Stop(o, c) => Run(o, c)
    case Go(service, c) => Then(c, AfterService(cfg, quote, remote, row, service))
  }

  function AfterService(cfg: Settings, quote: string -> string, remote: Remote, row: Row, service: Service): Run
  {
    match PolicyStep(cfg, remote, row, service)
    case Stop(o, c) => Run(o, c)
    case Go(epId, c) => Then(c, AfterPolicy(cfg, quote, remote, row, service.id, epId))
  }

  function AfterPolicy(cfg: Settings, quote: string -> string, remote: Remote, row: Row, serviceId: string,
                       epId: string): Run
  {
    match ExtensionStep(cfg, remote, row, serviceId)
    case Stop(o, c) => Run(o, c)
    case Go(webhookId, c) => Then(c, AfterExtension(cfg, quote, remote, row, serviceId, epId, webhookId))
  }

  function AfterExtension(cfg: Settings, quote: string -> string, remote: Remote, row: Row, serviceId: string,
                          epId: string, webhookId: string): Run
  {
    match ItemStep(cfg, quote, remote, row)
    case Stop(o, c) => Run(o, c)
    case Go(ci, c) => Then(c, AfterItem(cfg, quote, remote, row, serviceId, epId, webhookId, ci))
  }

  function AfterItem(cfg: Settings, quote: string -> string, remote: Remote, row: Row, serviceId: string,
                     epId: string, webhookId: string, ci: ItemLookup): Run
  {
    match GroupStep(cfg, quote, remote, row, ci.related)
    case Stop(o, c) => Run(o, c)
    case Go(agId, c) => Then(c, PropagateSpec(cfg, remote.accepts, row.ciName, ci.ciId, agId, webhookId, serviceId, epId))
  }

  /** When what is left of a run starts with a stage's requests, sending them leaves the
      rest of the stages to go. */
  lemma Advance(done: seq<Call>, whole: seq<Call>, left: Run, c: seq<Call>, rest: Run)
    requires done + left.calls == whole
    requires left == Then(c, rest)
    ensures (done + c) + rest.calls == whole
    ensures rest.outcome == left.outcome
  {
    assert (done + c) + rest.calls == done + (c + rest.calls);
  }

  method Pair(log: CallLog, cfg: Settings, quote: string -> string, remote: Remote, row: Row)
    returns (outcome: Outcome)
    modifies log
    ensures outcome == PairSpec(cfg, quote, remote, row).outcome
    ensures log.calls == old(log.calls) + PairSpec(cfg, quote, remote, row).calls
  {
    ghost var spec := PairSpec(cfg, quote, remote, row);
    ghost var whole := old(log.calls) + spec.calls;

    // the service, first result wins
    ghost var before := log.calls;
    var skipped, service := ResolveService(log, cfg, remote, row);
    if skipped.Some? {
      return skipped.value;
    }
    var serviceId := service.id;
    ghost var left := AfterService(cfg, quote, remote, row, service);
    Advance(before, whole, spec, ServiceStep(cfg, remote, row).calls, left);

    // the escalation policy override
    before := log.calls;
    var policyId := ResolvePolicy(log, cfg, remote, row, service);
    if policyId.None? {
      return Error;
    }
    var epId := policyId.value;
    ghost var next := AfterPolicy(cfg, quote, remote, row, serviceId, epId);
    Advance(before, whole, left, PolicyStep(cfg, remote, row, service).calls, next);
    left := next;

    // the extension, found or created
    before := log.calls;
    var webhookId := LinkExtension(log, cfg, remote, row, serviceId);
    if webhookId.None? {
      return Error;
    }
    next := AfterExtension(cfg, quote, remote, row, serviceId, epId, webhookId.value);
    ExtensionGoesOn(cfg, quote, remote, row, serviceId, epId);
    Advance(before, whole, left, ExtensionStep(cfg, remote, row, serviceId).calls, next);
    left := next;

    // the CI
    before := log.calls;
    var stop, ci := ResolveItem(log, cfg, quote, remote, row);
    if stop.Some? {
      return stop.value;
    }
    next := AfterItem(cfg, quote, remote, row, serviceId, epId, webhookId.value, ci);
    Advance(before, whole, left, ItemStep(cfg, quote, remote, row).calls, next);
    left := next;

    // the AG
    before := log.calls;
    var agId := ResolveGroup(log, cfg, quote, remote, row, ci.related);
    if agId.None? {
      return Error;
    }
    next := PropagateSpec(cfg, remote.accepts, row.ciName, ci.ciId, agId.value, webhookId.value, serviceId, epId);
    Advance(before, whole, left, GroupStep(cfg, quote, remote, row, ci.related).calls, next);

    outcome := Propagate(log, cfg, remote.accepts, row.ciName, ci.ciId, agId.value, webhookId.value, serviceId, epId);
  }

  lemma ExtensionGoesOn(cfg: Settings, quote: string -> string, remote: Remote, row: Row, serviceId: string,
                        epId: string)
    requires ExtensionStep(cfg, remote, row, serviceId).Go?
    ensures var step := ExtensionStep(cfg, remote, row, serviceId);
            AfterPolicy(cfg, quote, remote, row, serviceId, epId)
            == Then(step.calls, AfterExtension(cfg, quote, remote, row, serviceId, epId, step.value))
  {
  }

  /** The extension part of `pair`: an existing extension's id when the search finds one
      with a truthy id, else the id of a newly created one; None when either raises. */
  method LinkExtension(log: CallLog, cfg: Settings, remote: Remote, row: Row, serviceId: string)
    returns (webhookId: Option<string>)
    modifies log
    ensures webhookId.Some? <==> ExtensionStep(cfg, remote, row, serviceId).Go?
    ensures webhookId.Some? ==> webhookId.value == ExtensionStep(cfg, remote, row, serviceId).value
    ensures webhookId.None? ==> ExtensionStep(cfg, remote, row, serviceId).outcome == Error
    ensures log.calls == old(log.calls) + ExtensionStep(cfg, remote, row, serviceId).calls
  {
    var snowUrlTarget := SnowTarget(cfg.instance);
    var found := FindExistingExtension(log, cfg.token, snowUrlTarget, serviceId, row.schemaKey,
                                       remote.extensions(serviceId));
    if found.Raises? {
      return None;
    }
    if found.Found? && found.id != "" {
      return Some(found.id);
    }
    ghost var listed := log.calls;
    webhookId := CreateExtension(log, cfg.token, cfg.instance, cfg.apiUser, cfg.apiPassword, row.sync,
                                 row.schemaKey, serviceId, remote.created);
    ghost var body := CreateExtensionBody(cfg.instance, cfg.apiUser, cfg.apiPassword, row.sync, row.schemaKey, serviceId);
    assert log.calls == old(log.calls) + (ExtensionListCalls(cfg.token, serviceId, remote.extensions(serviceId))
                                          + CreateSpec(cfg.token, body, remote.created(body)).calls);
  }

  /** The CI part of `pair`: the locals it leaves for the rest, or the outcome it returns. */
  method ResolveItem(log: CallLog, cfg: Settings, quote: string -> string, remote: Remote, row: Row)
    returns (stop: Option<Outcome>, ci: ItemLookup)
    modifies log
    ensures stop.Some? <==> ItemStep(cfg, quote, remote, row).Stop?
    ensures stop.Some? ==> stop.value == ItemStep(cfg, quote, remote, row).outcome
    ensures stop.None? ==> ci == ItemStep(cfg, quote, remote, row).value
    ensures log.calls == old(log.calls) + ItemStep(cfg, quote, remote, row).calls
  {
    var relatedGroupId := "";
    var ciId: Option<string> := None;
    ci := ItemLookup(None, "");
    if row.ciName != "" {
      var snowCi := FindConfigurationItem(log, cfg, quote, row.ciName, remote.items);
      if !snowCi.Answered? {
        // `snow_ci['result']` on None, or the request raised
        return Some(Error), ci;
      }
      if |snowCi.value| > 0 {
        ciId := Some(snowCi.value[0].sysId);
        if snowCi.value[0].sysId == "" {
          // "Could not find expected Configuration Item ... Skipping..."
          return Some(Skip), ci;
        }
        if snowCi.value[0].assignmentGroup.Some? {
          relatedGroupId := snowCi.value[0].assignmentGroup.value;
        }
      }
      if relatedGroupId == "" && row.groupName == "" {
        // "Assignment group not provided and the Configuration Item ... Skipping..."
        return Some(Skip), ci;
      }
    }
    return None, ItemLookup(ciId, relatedGroupId);
  }

  /** The service part of `pair`: the first service the query lists; none listed skips the row. */
  method ResolveService(log: CallLog, cfg: Settings, remote: Remote, row: Row)
    returns (stop: Option<Outcome>, service: Service)
    modifies log
    ensures stop.Some? <==> ServiceStep(cfg, remote, row).Stop?
    ensures stop.Some? ==> stop.value == ServiceStep(cfg, remote, row).outcome
    ensures stop.None? ==> service == ServiceStep(cfg, remote, row).value
    ensures log.calls == old(log.calls) + ServiceStep(cfg, remote, row).calls
  {
    service := Service("", PolicyRef("", ""));
    var services := Fetch(log, cfg.token, "services", map["query" := Text(row.service)], map[],
                          remote.services(row.service));
    if !services.Complete? {
      return Some(Error), service;
    }
    if |services.items| == 0 {
      // "PagerDuty Service Not found ... Skipping..."
      return Some(Skip), service;
    }
    return None, services.items[0];
  }

  /** The escalation policy part of `pair`: an override that differs from the service's
      policy summary is looked up, and its first result, if any, replaces the service's. */
  method ResolvePolicy(log: CallLog, cfg: Settings, remote: Remote, row: Row, service: Service)
    returns (epId: Option<string>)
    modifies log
    ensures epId.Some? <==> PolicyStep(cfg, remote, row, service).Go?
    ensures epId.Some? ==> epId.value == PolicyStep(cfg, remote, row, service).value
    ensures log.calls == old(log.calls) + PolicyStep(cfg, remote, row, service).calls
  {
    epId := Some(service.escalationPolicy.id);
    if row.policy != "" && service.escalationPolicy.summary != row.policy {
      var eps := Fetch(log, cfg.token, "escalation_policies", map["query" := Text(row.policy)], map[],
                       remote.policies(row.policy));
      if !eps.Complete? {
        return None;
      }
      if |eps.items| > 0 {
        epId := Some(eps.items[0].id);
      }
    }
  }

  /** The AG part of `pair`: an explicit AG name wins over the CI's related AG. */
  method ResolveGroup(log: CallLog, cfg: Settings, quote: string -> string, remote: Remote, row: Row, related: string)
    returns (agId: Option<string>)
    modifies log
    ensures agId.Some? <==> GroupStep(cfg, quote, remote, row, related).Go?
    ensures agId.Some? ==> agId.value == GroupStep(cfg, quote, remote, row, related).value
    ensures agId.None? ==> GroupStep(cfg, quote, remote, row, related).outcome == Error
    ensures log.calls == old(log.calls) + GroupStep(cfg, quote, remote, row, related).calls
  {
    var snowAgId := "";
    if row.groupName != "" {
      var id := FindAssignmentGroupId(log, cfg, quote, row.groupName, remote.groups);
      if id.None? {
        return None;
      }
      snowAgId := id.value;
    } else if related != "" {
      snowAgId := related;
    }
    return Some(snowAgId);
  }

  // ---------------------------------------------------------------------------------------
  // What pair promises

  /** No request in `calls` is a PUT, so nothing is written into the ITSM records. */
  predicate NoPut(calls: seq<Call>)
  {
    forall c :: c in calls ==> c.verb != PUT
  }

  /** The row gets past the service and the escalation policy stages. */
  predicate PassesPolicy(cfg: Settings, remote: Remote, row: Row)
  {
    ServiceStep(cfg, remote, row).Go? && PolicyStep(cfg, remote, row, ServiceStep(cfg, remote, row).value).Go?
  }

  /** The row gets past the extension stage as well. */
  predicate Linked(cfg: Settings, remote: Remote, row: Row)
  {
    PassesPolicy(cfg, remote, row) && ExtensionStep(cfg, remote, row, ServiceStep(cfg, remote, row).value.id).Go?
  }

  lemma NoPutAppend(a: seq<Call>, b: seq<Call>)
    ensures NoPut(a + b) <==> NoPut(a) && NoPut(b)
  {
    assert forall c :: c in a + b <==> c in a || c in b;
  }

  /** When the service query lists nothing, the row is skipped and nothing is sent but the
      listing's GETs. */
  lemma NoServiceSkips(cfg: Settings, quote: string -> string, remote: Remote, row: Row)
    requires FetchSpec(cfg.token, "services", remote.services(row.service)).result == Complete([])
    ensures var listing := FetchCalls(cfg.token, "services", map["query" := Text(row.service)], map[],
                                      FetchSpec(cfg.token, "services", remote.services(row.service)).sent);
            && PairSpec(cfg, quote, remote, row) == Run(Skip, listing)
            && forall c :: c in PairSpec(cfg, quote, remote, row).calls
                 ==> c.verb == GET && c.url == BASE_URL + "/services"
  {
    FetchCallsAreGets(cfg.token, "services", map["query" := Text(row.service)], map[],
                      FetchSpec(cfg.token, "services", remote.services(row.service)).sent);
  }

  /** The escalation policy is looked up again only for a non-empty override that differs from
      the service's policy summary; without a look-up nothing is sent and the service's own
      policy is kept. */
  lemma PolicyRequeryRule(cfg: Settings, remote: Remote, row: Row, service: Service)
    requires row.policy == "" || service.escalationPolicy.summary == row.policy
    ensures PolicyStep(cfg, remote, row, service) == Go(service.escalationPolicy.id, [])
  {
  }

  /** A look-up that lists nothing keeps the service's own policy; an override that is given,
      differs from the service's policy summary and lists a policy takes the first policy
      listed; every request of the stage is a GET of the policy listing. */
  lemma PolicyEmptyRequeryKeeps(cfg: Settings, remote: Remote, row: Row, service: Service)
    ensures var step := PolicyStep(cfg, remote, row, service);
            FetchSpec(cfg.token, "escalation_policies", remote.policies(row.policy)).result == Complete([])
            ==> step == Go(service.escalationPolicy.id, step.calls)
    ensures var step := PolicyStep(cfg, remote, row, service);
            var found := FetchSpec(cfg.token, "escalation_policies", remote.policies(row.policy)).result;
            row.policy != "" && service.escalationPolicy.summary != row.policy
            && found.Complete? && |found.items| > 0
            ==> step == Go(found.items[0].id, step.calls)
    ensures forall c :: c in PolicyStep(cfg, remote, row, service).calls
              ==> c.verb == GET && c.url == BASE_URL + "/escalation_policies"
  {
    FetchCallsAreGets(cfg.token, "escalation_policies", map["query" := Text(row.policy)], map[],
                      FetchSpec(cfg.token, "escalation_policies", remote.policies(row.policy)).sent);
  }

  /** An extension found with a (truthy) id is reused: the stage sends only the listing's
      GETs and no POST. */
  lemma ExistingExtensionNoPost(cfg: Settings, remote: Remote, row: Row, serviceId: string, id: string)
    requires SearchSpec(cfg.token, SnowTarget(cfg.instance), row.schemaKey, remote.extensions(serviceId)) == Found(id)
    requires id != ""
    ensures ExtensionStep(cfg, remote, row, serviceId)
            == Go(id, ExtensionListCalls(cfg.token, serviceId, remote.extensions(serviceId)))
    ensures forall c :: c in ExtensionStep(cfg, remote, row, serviceId).calls ==> c.verb == GET
  {
    FetchCallsAreGets(cfg.token, "extensions", map["extension_object_id" := Text(serviceId)], map[],
                      FetchSpec(cfg.token, "extensions", remote.extensions(serviceId)).sent);
  }

  /** Re-running a row is idempotent on the extension: an extension that an earlier
      `createExtension` for the same instance and schema stored (whatever its sync mode, and
      whatever URL parameters were appended to its target since) is found again, when no
      extension listed before it qualifies or breaks the search, and no second extension is
      posted. */
  lemma RerunFindsCreatedExtension(cfg: Settings, remote: Remote, row: Row, serviceId: string,
                                   sync: string, exts: seq<Extension>, j: nat, id: string, extra: string)
    requires FetchSpec(cfg.token, "extensions", remote.extensions(serviceId)).result == Complete(exts)
    requires j < |exts| && id != ""
    requires var body := CreateExtensionBody(cfg.instance, cfg.apiUser, cfg.apiPassword, sync, row.schemaKey, serviceId);
             exts[j] == Extension(id, body.config["target" := SnowTarget(cfg.instance) + extra], body.schema.id)
    requires forall k :: 0 <= k < j ==> Check(exts[k], SnowTarget(cfg.instance), row.schemaKey) == Passes
    ensures ExtensionStep(cfg, remote, row, serviceId)
            == Go(id, ExtensionListCalls(cfg.token, serviceId, remote.extensions(serviceId)))
    ensures forall c :: c in ExtensionStep(cfg, remote, row, serviceId).calls ==> c.verb == GET
  {
    CreatedExtensionMatches(cfg.instance, cfg.apiUser, cfg.apiPassword, sync, row.schemaKey, serviceId, id, extra);
    FirstMatchIsFirst(exts, 0, SnowTarget(cfg.instance), row.schemaKey);
    assert FirstMatchFrom(exts, 0, SnowTarget(cfg.instance), row.schemaKey) == Found(id);
    ExistingExtensionNoPost(cfg, remote, row, serviceId, id);
  }

  /** When a CI name is given, every CI id the CI stage passes on is non-empty, so the
      "not found" branch of the update (lines 225-228) is never taken. */
  lemma ItemStepNeverEmptyId(cfg: Settings, quote: string -> string, remote: Remote, row: Row)
    requires ItemStep(cfg, quote, remote, row).Go?
    ensures var ci := ItemStep(cfg, quote, remote, row).value;
            && (row.ciName == "" ==> ci == ItemLookup(None, ""))
            && (ci.ciId.Some? ==> ci.ciId.value != "")
            && (row.ciName != "" ==> ci.related != "" || row.groupName != "")
  {
  }

  /** An explicit AG name wins: the CI's related AG then plays no part. Without a name the
      related AG (possibly empty) is used with no request. */
  lemma GroupNamePrecedence(cfg: Settings, quote: string -> string, remote: Remote, row: Row,
                            related: string, other: string)
    ensures row.groupName != "" ==> GroupStep(cfg, quote, remote, row, related) == GroupStep(cfg, quote, remote, row, other)
    ensures row.groupName == "" ==> GroupStep(cfg, quote, remote, row, related) == Go(related, [])
  {
  }

  /** None of the stages before the updates sends a PUT. */
  lemma ListingsSendNoPut(cfg: Settings, remote: Remote, row: Row, service: Service)
    ensures NoPut(ServiceStep(cfg, remote, row).calls)
    ensures NoPut(PolicyStep(cfg, remote, row, service).calls)
  {
    FetchCallsAreGets(cfg.token, "services", map["query" := Text(row.service)], map[],
                      FetchSpec(cfg.token, "services", remote.services(row.service)).sent);
    FetchCallsAreGets(cfg.token, "escalation_policies", map["query" := Text(row.policy)], map[],
                      FetchSpec(cfg.token, "escalation_policies", remote.policies(row.policy)).sent);
  }

  lemma ExtensionSendsNoPut(cfg: Settings, remote: Remote, row: Row, serviceId: string)
    ensures NoPut(ExtensionStep(cfg, remote, row, serviceId).calls)
  {
    var listing := ExtensionListCalls(cfg.token, serviceId, remote.extensions(serviceId));
    FetchCallsAreGets(cfg.token, "extensions", map["extension_object_id" := Text(serviceId)], map[],
                      FetchSpec(cfg.token, "extensions", remote.extensions(serviceId)).sent);
    assert NoPut(listing);
    var body := CreateExtensionBody(cfg.instance, cfg.apiUser, cfg.apiPassword, row.sync, row.schemaKey, serviceId);
    var post := CreateSpec(cfg.token, body, remote.created(body));
    assert NoPut(post.calls);
    NoPutAppend(listing, post.calls);
  }

  /** A run that stops before the CI stage has not succeeded and has written nothing. */
  lemma EarlyStop(cfg: Settings, quote: string -> string, remote: Remote, row: Row)
    requires !Linked(cfg, remote, row)
    ensures PairSpec(cfg, quote, remote, row).outcome != Ok
    ensures NoPut(PairSpec(cfg, quote, remote, row).calls)
  {
    var s := ServiceStep(cfg, remote, row);
    ListingsSendNoPut(cfg, remote, row, Service("", PolicyRef("", "")));
    if s.Go? {
      var p := PolicyStep(cfg, remote, row, s.value);
      ListingsSendNoPut(cfg, remote, row, s.value);
      if p.Go? {
        var e := ExtensionStep(cfg, remote, row, s.value.id);
        ExtensionSendsNoPut(cfg, remote, row, s.value.id);
        NoPutAppend(p.calls, e.calls);
        NoPutAppend(s.calls, p.calls + e.calls);
      } else {
        NoPutAppend(s.calls, p.calls);
      }
    }
  }

  /** A run that gets past the extension stage is the rest of `pair` after the requests of
      the first three stages. */
  lemma LinkedRun(cfg: Settings, quote: string -> string, remote: Remote, row: Row)
    ensures Linked(cfg, remote, row) ==>
              var s := ServiceStep(cfg, remote, row);
              var p := PolicyStep(cfg, remote, row, s.value);
              var e := ExtensionStep(cfg, remote, row, s.value.id);
              PairSpec(cfg, quote, remote, row)
              == Then(s.calls + p.calls + e.calls, AfterExtension(cfg, quote, remote, row, s.value.id, p.value, e.value))
  {
    if Linked(cfg, remote, row) {
      var s := ServiceStep(cfg, remote, row);
      var p := PolicyStep(cfg, remote, row, s.value);
      var e := ExtensionStep(cfg, remote, row, s.value.id);
      var rest := AfterExtension(cfg, quote, remote, row, s.value.id, p.value, e.value);
      Regroup(s.calls, p.calls, e.calls, rest.calls);
    }
  }

  lemma Regroup(a: seq<Call>, b: seq<Call>, c: seq<Call>, d: seq<Call>)
    ensures a + (b + (c + d)) == a + b + c + d
  {
  }

  /** The requests of the first three stages hold no PUT. */
  lemma LinkedPrefixNoPut(cfg: Settings, remote: Remote, row: Row)
    requires Linked(cfg, remote, row)
    ensures var s := ServiceStep(cfg, remote, row);
            NoPut(s.calls + PolicyStep(cfg, remote, row, s.value).calls + ExtensionStep(cfg, remote, row, s.value.id).calls)
  {
    var s := ServiceStep(cfg, remote, row);
    var p := PolicyStep(cfg, remote, row, s.value);
    var e := ExtensionStep(cfg, remote, row, s.value.id);
    ListingsSendNoPut(cfg, remote, row, s.value);
    ExtensionSendsNoPut(cfg, remote, row, s.value.id);
    NoPutAppend(s.calls, p.calls);
    NoPutAppend(s.calls + p.calls, e.calls);
  }

  /** The CI and AG stages send no PUT. */
  lemma LookupsSendNoPut(cfg: Settings, quote: string -> string, remote: Remote, row: Row, related: string)
    ensures NoPut(ItemStep(cfg, quote, remote, row).calls)
    ensures NoPut(GroupStep(cfg, quote, remote, row, related).calls)
  {
  }

  /** From the CI stage on, a skip has written nothing. */
  lemma LateSkipWritesNothing(cfg: Settings, quote: string -> string, remote: Remote, row: Row, serviceId: string,
                              epId: string, webhookId: string)
    ensures var rest := AfterExtension(cfg, quote, remote, row, serviceId, epId, webhookId);
            rest.outcome == Skip ==> NoPut(rest.calls)
  {
    var i := ItemStep(cfg, quote, remote, row);
    LookupsSendNoPut(cfg, quote, remote, row, "");
    if i.Go? {
      LookupsSendNoPut(cfg, quote, remote, row, i.value.related);
      var g := GroupStep(cfg, quote, remote, row, i.value.related);
      ItemStepNeverEmptyId(cfg, quote, remote, row);
      if g.Go? {
        var rest := PropagateSpec(cfg, remote.accepts, row.ciName, i.value.ciId, g.value, webhookId, serviceId, epId);
        assert rest.outcome == Skip ==> rest.calls == [];
        NoPutAppend(g.calls, rest.calls);
      }
      NoPutAppend(i.calls, AfterItem(cfg, quote, remote, row, serviceId, epId, webhookId, i.value).calls);
    }
  }

  /** A skipped row writes nothing: every skip happens before the first PUT. */
  lemma SkipWritesNothing(cfg: Settings, quote: string -> string, remote: Remote, row: Row)
    ensures PairSpec(cfg, quote, remote, row).outcome == Skip ==> NoPut(PairSpec(cfg, quote, remote, row).calls)
  {
    if !Linked(cfg, remote, row) {
      EarlyStop(cfg, quote, remote, row);
    } else {
      var s := ServiceStep(cfg, remote, row);
      var p := PolicyStep(cfg, remote, row, s.value);
      var e := ExtensionStep(cfg, remote, row, s.value.id);
      LinkedRun(cfg, quote, remote, row);
      LinkedPrefixNoPut(cfg, remote, row);
      LateSkipWritesNothing(cfg, quote, remote, row, s.value.id, p.value, e.value);
      NoPutAppend(s.calls + p.calls + e.calls, AfterExtension(cfg, quote, remote, row, s.value.id, p.value, e.value).calls);
    }
  }

  /** Without a CI name, the stages after the extension end in the UnboundLocalError. */
  lemma LateNoCiNameFails(cfg: Settings, quote: string -> string, remote: Remote, row: Row, serviceId: string,
                          epId: string, webhookId: string)
    requires row.ciName == ""
    ensures AfterExtension(cfg, quote, remote, row, serviceId, epId, webhookId).outcome == Error
  {
  }

  /** Without a CI name `pair` never succeeds: it reads the unbound `snow_ci_id` and raises,
      or stops earlier. */
  lemma NoCiNameNeverOk(cfg: Settings, quote: string -> string, remote: Remote, row: Row)
    requires row.ciName == ""
    ensures PairSpec(cfg, quote, remote, row).outcome != Ok
    ensures Linked(cfg, remote, row) ==> PairSpec(cfg, quote, remote, row).outcome == Error
  {
    if !Linked(cfg, remote, row) {
      EarlyStop(cfg, quote, remote, row);
    } else {
      var s := ServiceStep(cfg, remote, row);
      var p := PolicyStep(cfg, remote, row, s.value);
      var e := ExtensionStep(cfg, remote, row, s.value.id);
      LinkedRun(cfg, quote, remote, row);
      LateNoCiNameFails(cfg, quote, remote, row, s.value.id, p.value, e.value);
    }
  }

  /** From the CI stage on, success needs a CI found with a non-empty `sys_id`, and that CI
      is then written with a PUT. */
  lemma LateOkWritesCi(cfg: Settings, quote: string -> string, remote: Remote, row: Row, serviceId: string,
                       epId: string, webhookId: string)
    requires AfterExtension(cfg, quote, remote, row, serviceId, epId, webhookId).outcome == Ok
    ensures row.ciName != "" && cfg.instance != ""
    ensures var reply := remote.items(CiQuery(quote, row.ciName));
            && reply.Answered? && |reply.value| > 0 && reply.value[0].sysId != ""
            && Call(PUT, SnowUrl(cfg.instance, "cmdb_ci/" + reply.value[0].sysId), map["Content-Type" := JSON_TYPE],
                    map[], FieldsBody(CiFields(webhookId, serviceId)), BasicAuth(cfg.updateUser, cfg.updatePassword))
               in AfterExtension(cfg, quote, remote, row, serviceId, epId, webhookId).calls
  {
    var i := ItemStep(cfg, quote, remote, row);
    var g := GroupStep(cfg, quote, remote, row, i.value.related);
    var sysId := remote.items(CiQuery(quote, row.ciName)).value[0].sysId;
    var rest := PropagateSpec(cfg, remote.accepts, row.ciName, i.value.ciId, g.value, webhookId, serviceId, epId);
    var ci := UpdateCiSpec(cfg, remote.accepts, sysId, webhookId, serviceId);
    assert ci.calls[0] in rest.calls;
    assert AfterExtension(cfg, quote, remote, row, serviceId, epId, webhookId).calls == i.calls + (g.calls + rest.calls);
  }

  /** A row succeeds only when its CI name is found with a non-empty `sys_id`, and the CI is
      then written with a PUT of the webhook and service fields. */
  lemma OkWritesCi(cfg: Settings, quote: string -> string, remote: Remote, row: Row)
    ensures PairSpec(cfg, quote, remote, row).outcome == Ok ==>
              var reply := remote.items(CiQuery(quote, row.ciName));
              && row.ciName != "" && cfg.instance != ""
              && reply.Answered? && |reply.value| > 0 && reply.value[0].sysId != ""
              && exists c :: c in PairSpec(cfg, quote, remote, row).calls && c.verb == PUT
                             && c.url == SnowUrl(cfg.instance, "cmdb_ci/" + reply.value[0].sysId)
  {
    if !Linked(cfg, remote, row) {
      EarlyStop(cfg, quote, remote, row);
      return;
    }
    if PairSpec(cfg, quote, remote, row).outcome != Ok {
      return;
    }
    LinkedRun(cfg, quote, remote, row);
    var s := ServiceStep(cfg, remote, row);
    var p := PolicyStep(cfg, remote, row, s.value);
    var e := ExtensionStep(cfg, remote, row, s.value.id);
    LateOkWritesCi(cfg, quote, remote, row, s.value.id, p.value, e.value);
    var sysId := remote.items(CiQuery(quote, row.ciName)).value[0].sysId;
    var c := Call(PUT, SnowUrl(cfg.instance, "cmdb_ci/" + sysId), map["Content-Type" := JSON_TYPE],
                  map[], FieldsBody(CiFields(e.value, s.value.id)), BasicAuth(cfg.updateUser, cfg.updatePassword));
    var rest := AfterExtension(cfg, quote, remote, row, s.value.id, p.value, e.value);
    assert c in (s.calls + p.calls + e.calls) + rest.calls;
  }

  /** The extension is found or created before the CI is examined, so a row the CI stage skips
      may still have posted a new extension. */
  lemma SkipAfterCreate(cfg: Settings, quote: string -> string, remote: Remote, row: Row)
    ensures PassesPolicy(cfg, remote, row) && cfg.token != ""
            && ItemStep(cfg, quote, remote, row) == Stop(Skip, ItemStep(cfg, quote, remote, row).calls)
            ==>
            var serviceId := ServiceStep(cfg, remote, row).value.id;
            var body := CreateExtensionBody(cfg.instance, cfg.apiUser, cfg.apiPassword, row.sync, row.schemaKey, serviceId);
            SearchSpec(cfg.token, SnowTarget(cfg.instance), row.schemaKey, remote.extensions(serviceId)) == NotFound
            && remote.created(body).Answered?
            ==>
            && PairSpec(cfg, quote, remote, row).outcome == Skip
            && Request(cfg.token, "extensions", POST, map[], ExtensionBody(body), map[]).value
                 in PairSpec(cfg, quote, remote, row).calls
  {
    if !PassesPolicy(cfg, remote, row) || cfg.token == ""
       || ItemStep(cfg, quote, remote, row) != Stop(Skip, ItemStep(cfg, quote, remote, row).calls) {
      return;
    }
    var serviceId := ServiceStep(cfg, remote, row).value.id;
    var body := CreateExtensionBody(cfg.instance, cfg.apiUser, cfg.apiPassword, row.sync, row.schemaKey, serviceId);
    if SearchSpec(cfg.token, SnowTarget(cfg.instance), row.schemaKey, remote.extensions(serviceId)) != NotFound
       || !remote.created(body).Answered? {
      return;
    }
    var s := ServiceStep(cfg, remote, row);
    var p := PolicyStep(cfg, remote, row, s.value);
    var e := ExtensionStep(cfg, remote, row, s.value.id);
    var post := Request(cfg.token, "extensions", POST, map[], ExtensionBody(body), map[]).value;
    var listing := ExtensionListCalls(cfg.token, s.value.id, remote.extensions(s.value.id));
    assert e.calls == listing + [post];
    assert Linked(cfg, remote, row);
    LinkedRun(cfg, quote, remote, row);
    var rest := AfterExtension(cfg, quote, remote, row, s.value.id, p.value, e.value);
    assert post in (s.calls + p.calls + e.calls) + rest.calls;
  }

  /** A CI found with a non-empty `sys_id` but no related AG, on a row without an AG name, is
      skipped before any PUT. */
  lemma CiWithoutGroupSkips(cfg: Settings, quote: string -> string, remote: Remote, row: Row)
    ensures var reply := remote.items(CiQuery(quote, row.ciName));
            && Linked(cfg, remote, row)
            && row.ciName != "" && row.groupName == "" && cfg.instance != ""
            && reply.Answered? && |reply.value| > 0 && reply.value[0].sysId != ""
            && (reply.value[0].assignmentGroup.None? || reply.value[0].assignmentGroup.value == "")
            ==> PairSpec(cfg, quote, remote, row).outcome == Skip && NoPut(PairSpec(cfg, quote, remote, row).calls)
  {
    var reply := remote.items(CiQuery(quote, row.ciName));
    if !(&& Linked(cfg, remote, row)
         && row.ciName != "" && row.groupName == "" && cfg.instance != ""
         && reply.Answered? && |reply.value| > 0 && reply.value[0].sysId != ""
         && (reply.value[0].assignmentGroup.None? || reply.value[0].assignmentGroup.value == "")) {
      return;
    }
    var s := ServiceStep(cfg, remote, row);
    var p := PolicyStep(cfg, remote, row, s.value);
    var e := ExtensionStep(cfg, remote, row, s.value.id);
    LinkedRun(cfg, quote, remote, row);
    LateCiWithoutGroupSkips(cfg, quote, remote, row, s.value.id, p.value, e.value);
    SkipWritesNothing(cfg, quote, remote, row);
  }

  lemma LateCiWithoutGroupSkips(cfg: Settings, quote: string -> string, remote: Remote, row: Row, serviceId: string,
                                epId: string, webhookId: string)
    requires row.ciName != "" && row.groupName == "" && cfg.instance != ""
    requires var reply := remote.items(CiQuery(quote, row.ciName));
             && reply.Answered? && |reply.value| > 0 && reply.value[0].sysId != ""
             && (reply.value[0].assignmentGroup.None? || reply.value[0].assignmentGroup.value == "")
    ensures AfterExtension(cfg, quote, remote, row, serviceId, epId, webhookId).outcome == Skip
  {
  }

  /** How many of `calls` are PUTs. */
  function PutCount(calls: seq<Call>): nat
  {
    if calls == [] then 0 else (if calls[0].verb == PUT then 1 else 0) + PutCount(calls[1..])
  }

  lemma {:induction false} PutCountAppend(a: seq<Call>, b: seq<Call>)
    ensures PutCount(a + b) == PutCount(a) + PutCount(b)
  {
    if a == [] {
      assert a + b == b;
    } else {
      assert (a + b)[1..] == a[1..] + b;
      PutCountAppend(a[1..], b);
    }
  }

  lemma {:induction false} NoPutCount(calls: seq<Call>)
    requires NoPut(calls)
    ensures PutCount(calls) == 0
  {
    if calls != [] {
      assert calls[0] in calls;
      assert forall c :: c in calls[1..] ==> c in calls;
      NoPutCount(calls[1..]);
    }
  }

  /** `url` is the table URL of an AG record with a non-empty id. */
  predicate GroupRecordUrl(instance: string, url: string)
  {
    var prefix := SnowUrl(instance, "sys_user_group/");
    |url| > |prefix| && url[..|prefix|] == prefix
  }

  lemma GroupUrlIsRecordUrl(instance: string, agId: string)
    requires agId != ""
    ensures GroupRecordUrl(instance, SnowUrl(instance, "sys_user_group/" + agId))
  {
    assert SnowUrl(instance, "sys_user_group/" + agId) == SnowUrl(instance, "sys_user_group/") + agId;
  }

  /** Every PUT in `calls` goes to the CI the row's CI query found first (with a non-empty
      `sys_id`) or to an AG record with a non-empty id. */
  predicate PutsOnlyTo(cfg: Settings, quote: string -> string, remote: Remote, row: Row, calls: seq<Call>)
  {
    var reply := remote.items(CiQuery(quote, row.ciName));
    forall c :: c in calls && c.verb == PUT ==>
      || (&& reply.Answered? && |reply.value| > 0 && reply.value[0].sysId != ""
          && c.url == SnowUrl(cfg.instance, "cmdb_ci/" + reply.value[0].sysId))
      || GroupRecordUrl(cfg.instance, c.url)
  }

  lemma PutsOnlyToAppend(cfg: Settings, quote: string -> string, remote: Remote, row: Row, a: seq<Call>, b: seq<Call>)
    requires NoPut(a) && PutsOnlyTo(cfg, quote, remote, row, b)
    ensures PutsOnlyTo(cfg, quote, remote, row, a + b)
  {
    assert forall c :: c in a + b ==> c in a || c in b;
  }

  /** The updates send at most two PUTs: one to the CI id's record, and one to an AG record
      with a non-empty id. */
  lemma PropagatePuts(cfg: Settings, accepts: Call -> bool, ciName: string, ciId: Option<string>, agId: string,
                      webhookId: string, serviceId: string, epId: string)
    ensures var t := PropagateSpec(cfg, accepts, ciName, ciId, agId, webhookId, serviceId, epId);
            && PutCount(t.calls) <= 2
            && forall c :: c in t.calls && c.verb == PUT ==>
                 || (ciId.Some? && ciId.value != "" && c.url == SnowUrl(cfg.instance, "cmdb_ci/" + ciId.value))
                 || GroupRecordUrl(cfg.instance, c.url)
  {
    if ciId.Some? && !(ciId.value == "" && ciName != "") {
      var ci := UpdateCiSpec(cfg, accepts, ciId.value, webhookId, serviceId);
      var ag := UpdateAgSpec(cfg, accepts, agId, webhookId, serviceId, epId);
      UpdateCiPuts(cfg, accepts, ciId.value, webhookId, serviceId);
      UpdateAgPuts(cfg, accepts, agId, webhookId, serviceId, epId);
      PutCountAppend(ci.calls, ag.calls);
      if |ag.calls| == 1 {
        GroupUrlIsRecordUrl(cfg.instance, agId);
      }
    }
  }

  /** From the CI stage on, at most two PUTs are sent, to the CI found and to an AG record. */
  lemma LatePuts(cfg: Settings, quote: string -> string, remote: Remote, row: Row, serviceId: string,
                 epId: string, webhookId: string)
    ensures var rest := AfterExtension(cfg, quote, remote, row, serviceId, epId, webhookId);
            PutCount(rest.calls) <= 2 && PutsOnlyTo(cfg, quote, remote, row, rest.calls)
  {
    var i := ItemStep(cfg, quote, remote, row);
    LookupsSendNoPut(cfg, quote, remote, row, "");
    NoPutCount(i.calls);
    if i.Go? {
      var g := GroupStep(cfg, quote, remote, row, i.value.related);
      LookupsSendNoPut(cfg, quote, remote, row, i.value.related);
      NoPutCount(g.calls);
      var after := AfterItem(cfg, quote, remote, row, serviceId, epId, webhookId, i.value);
      if g.Go? {
        var tail := PropagateSpec(cfg, remote.accepts, row.ciName, i.value.ciId, g.value, webhookId, serviceId, epId);
        PropagatePuts(cfg, remote.accepts, row.ciName, i.value.ciId, g.value, webhookId, serviceId, epId);
        assert PutsOnlyTo(cfg, quote, remote, row, tail.calls);
        PutCountAppend(g.calls, tail.calls);
        PutsOnlyToAppend(cfg, quote, remote, row, g.calls, tail.calls);
      }
      PutCountAppend(i.calls, after.calls);
      PutsOnlyToAppend(cfg, quote, remote, row, i.calls, after.calls);
    }
  }

  /** `pair` sends at most two PUTs, and each goes to the CI its query found first or to the
      record of an AG with a non-empty id. */
  lemma AtMostTwoPuts(cfg: Settings, quote: string -> string, remote: Remote, row: Row)
    ensures PutCount(PairSpec(cfg, quote, remote, row).calls) <= 2
    ensures PutsOnlyTo(cfg, quote, remote, row, PairSpec(cfg, quote, remote, row).calls)
  {
    if !Linked(cfg, remote, row) {
      EarlyStop(cfg, quote, remote, row);
      NoPutCount(PairSpec(cfg, quote, remote, row).calls);
    } else {
      var s := ServiceStep(cfg, remote, row);
      var p := PolicyStep(cfg, remote, row, s.value);
      var e := ExtensionStep(cfg, remote, row, s.value.id);
      var rest := AfterExtension(cfg, quote, remote, row, s.value.id, p.value, e.value);
      LinkedRun(cfg, quote, remote, row);
      LinkedPrefixNoPut(cfg, remote, row);
      LatePuts(cfg, quote, remote, row, s.value.id, p.value, e.value);
      NoPutCount(s.calls + p.calls + e.calls);
      PutCountAppend(s.calls + p.calls + e.calls, rest.calls);
      PutsOnlyToAppend(cfg, quote, remote, row, s.calls + p.calls + e.calls, rest.calls);
    }
  }

  // ---------------------------------------------------------------------------------------
  // The batch loop

  /** The number of rows that `pair` handled successfully. */
  function CountOk(outcomes: seq<Outcome>): nat
  {
    if outcomes == [] then 0
    else CountOk(outcomes[..|outcomes| - 1]) + (if outcomes[|outcomes| - 1] == Ok then 1 else 0)
  }

  /** At most every row succeeds, and every row does exactly when none was skipped or failed. */
  lemma {:induction false} CountOkBounds(outcomes: seq<Outcome>)
    ensures CountOk(outcomes) <= |outcomes|
    ensures CountOk(outcomes) == |outcomes| <==> forall k :: 0 <= k < |outcomes| ==> outcomes[k] == Ok
  {
    if outcomes != [] {
      var init := outcomes[..|outcomes| - 1];
      CountOkBounds(init);
      assert forall k :: 0 <= k < |init| ==> init[k] == outcomes[k];
    }
  }

  /** The `__main__` loop over the outcomes `pair` has for the rows in order: the rows read,
      the rows counted as successes, and whether the loop got to its summary line. Nothing
      catches an exception from `pair`, so the first row that raises ends the batch. */
  method CountRows(outcomes: seq<Outcome>) returns (lineCount: nat, successCount: nat, finished: bool)
    ensures finished <==> Error !in outcomes
    ensures finished ==> lineCount == |outcomes|
    ensures !finished ==> 0 < lineCount <= |outcomes| && outcomes[lineCount - 1] == Error
                          && Error !in outcomes[..lineCount - 1]
    ensures lineCount <= |outcomes|
    ensures successCount == CountOk(outcomes[..lineCount])
    ensures successCount <= lineCount
  {
    lineCount, successCount := 0, 0;
    while lineCount < |outcomes|
      invariant lineCount <= |outcomes|
      invariant Error !in outcomes[..lineCount]
      invariant successCount == CountOk(outcomes[..lineCount])
    {
      assert outcomes[..lineCount + 1][..lineCount] == outcomes[..lineCount];
      lineCount := lineCount + 1;
      if outcomes[lineCount - 1] == Error {
        CountOkBounds(outcomes[..lineCount]);
        return lineCount, successCount, false;
      }
      if outcomes[lineCount - 1] == Ok {
        successCount := successCount + 1;
      }
      assert outcomes[..lineCount] == outcomes[..lineCount - 1] + [outcomes[lineCount - 1]];
    }
    assert outcomes[..lineCount] == outcomes;
    CountOkBounds(outcomes);
    finished := true;
  }
}
