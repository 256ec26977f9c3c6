/**
  The notification dispatch planner of class `Util`: it resolves the
  recipients of a submitted SMS or voice form and plans the requests sent to
  the messaging gateway.

  The request's global state and the host's collaborators are parameters:
  - the submitted form (`$_POST`) is a `Post` map, the request method is a
    string, whether the host service instance exists is a boolean and the
    stored API key is a string;
  - the host's employee store is `find`, from a WHERE string and its bind
    list to the matching employee records, in the store's order;
  - the gateway is `gateway`, the response body of the `i`-th call made with
    a given request body; `reencode` is the JSON re-serialisation applied to
    the response before it is shown.
 */
module Util {
  import opened PhpStrings
  import Filters

  /** A submitted form, or the form fields of an outgoing request. */
  type Post = map<string, string>

  /** An employee record as the store returns it; only its phone number is read. */
  datatype Employee = Employee(mobilePhone: string)

  /** What one call of the planner produces. */
  datatype Outcome =
    /** Nothing at all: the request was not a form submission. */
    | NoOutput
    /** A guard refused the request; the message is shown and no request is sent. */
    | Alert(message: string)
    /** The requests sent to `url` with `headers`, one per body, in order,
        and the message shown: the re-encoded response to the last of them. */
    | Sent(url: string, headers: seq<string>, bodies: seq<Post>, message: string)

  const UnknownError: string := "Unknown error. Please try again!"
  const ApiKeyMissing: string := "API Key is missing!"
  const NoRecipients: string := "No recipient(s) found!"
  const GatewayBase: string := "https://gateway.sms77.io/api/"
  const SentWithHeader: string := "SentWith: IceHrm"
  const ApiKeyHeader: string := "X-Api-Key: "

  /** The employee column holding the phone number. */
  const PhoneColumn: string := "mobile_phone"

  /** The clause that always ends the WHERE string:
      `mobile_phone IS NOT NULL AND mobile_phone<>""`. */
  const MobileClause: string := PhoneColumn + " IS NOT NULL AND " + PhoneColumn + "<>\"\""

  /** The employee column each filter field constrains, in the order the
      clauses are built. */
  const FilterColumns: seq<(string, string)> := [
    ("country", Filters.EmployeeCountries),
    ("employment_status", Filters.EmployeeEmploymentStatuses),
    ("job_title", Filters.EmployeeJobTitles),
    ("status", Filters.EmployeeStatuses)
  ]

  // ---------------------------------------------------------------------
  // Small helpers

  /** `$post[key] ?? ''`: the submitted value, or the empty string when absent. */
  function Field(post: Post, key: string): (value: string)
  {
    if key in post then post[key] else ""
  }

  /** `isPOST`: the request is a form submission. */
  predicate IsPost(requestMethod: string)
  {
    requestMethod == "POST"
  }

  /** PHP's `empty` on a string: true for the empty string and for "0". */
  predicate IsEmptyValue(s: string)
  {
    s == "" || s == "0"
  }

  /** `prependWhere`: the separator to put before the next clause. */
  function PrependWhere(where: string): (separator: string)
  {
    if where == "" then "" else " and "
  }

  /** The clause `<column> in (?)`. */
  function ClauseFor(column: string): (clause: string)
  {
    column + " in (?)"
  }

  // ---------------------------------------------------------------------
  // Recipient resolution: the query

  /** The (column, value) pairs of the filter fields in `fields` that were
      submitted with a non-empty value, in the order of `fields`. */
  function Selected(post: Post, fields: seq<(string, string)>): (sel: seq<(string, string)>)
    decreases |fields|
  {
    if fields == [] then []
    else
      var init := Selected(post, fields[..|fields| - 1]);
      var value := Field(post, fields[|fields| - 1].1);
      if value != "" then init + [(fields[|fields| - 1].0, value)] else init
  }

  function Clauses(sel: seq<(string, string)>): (clauses: seq<string>)
  {
    seq(|sel|, i requires 0 <= i < |sel| => ClauseFor(sel[i].0))
  }

  function Binds(sel: seq<(string, string)>): (values: seq<string>)
  {
    seq(|sel|, i requires 0 <= i < |sel| => sel[i].1)
  }

  /** The WHERE string the employee query uses: the clauses of the selected
      filters and the phone clause, joined by " and ". */
  function Where(post: Post): (where: string)
  {
    Implode(" and ", Clauses(Selected(post, FilterColumns)) + [MobileClause])
  }

  /** The values bound to the WHERE string's placeholders. */
  function Bind(post: Post): (bind: seq<string>)
  {
    Binds(Selected(post, FilterColumns))
  }

  /** `[value]` when `value` is non-empty, `[]` otherwise. */
  function Opt<T>(value: string, x: T): (opt: seq<T>)
  {
    if value != "" then [x] else []
  }

  // ---------------------------------------------------------------------
  // Recipient resolution

  /** The phone numbers of `records`, one per record, in order. */
  function Phones(records: seq<Employee>): (phones: seq<string>)
  {
    seq(|records|, i requires 0 <= i < |records| => records[i].mobilePhone)
  }

  /** The recipients of a submission: the comma-separated pieces of `to` when
      it is non-empty, otherwise the phones of the employees the filters select. */
  function Recipients(post: Post, find: (string, seq<string>) -> seq<Employee>): (recipients: seq<string>)
  {
    var to := Field(post, "to");
    if to != "" then Explode(',', to)
    else Phones(find(Where(post), Bind(post)))
  }

  // ---------------------------------------------------------------------
  // Dispatch planning

  /** The recipient groups, one per gateway call: a single comma-joined group
      when the endpoint takes several recipients at once, else one per recipient. */
  function Groups(recipients: seq<string>, multipleRecipients: bool): (groups: seq<string>)
  {
    if multipleRecipients then [Implode(",", recipients)] else recipients
  }

  /** The body of one gateway call: the stripped form merged with `json` = 1
      and the recipient group as `to`, the merged fields winning over
      submitted ones of the same name. */
  function Body(stripped: Post, to: string): (body: Post)
  {
    stripped + map["json" := "1", "to" := to]
  }

  /** One body per recipient group, in order. */
  function Bodies(stripped: Post, groups: seq<string>): (bodies: seq<Post>)
  {
    seq(|groups|, i requires 0 <= i < |groups| => Body(stripped, groups[i]))
  }

  function Headers(apiKey: string): (headers: seq<string>)
  {
    [SentWithHeader, ApiKeyHeader + apiKey]
  }

  /** What `request` does, as a function of its inputs. */
  function Plan(requestMethod: string, hasInstance: bool, apiKey: string, post: Post,
                endpoint: string, multipleRecipients: bool,
                find: (string, seq<string>) -> seq<Employee>,
                gateway: (nat, Post) -> string, reencode: string -> string): (outcome: Outcome)
  {
    if !IsPost(requestMethod) then NoOutput
    else if !hasInstance then Alert(UnknownError)
    else if IsEmptyValue(apiKey) then Alert(ApiKeyMissing)
    else if Recipients(post, find) == [] then Alert(NoRecipients)
    else
      var bodies := Bodies(post - Filters.Keys(), Groups(Recipients(post, find), multipleRecipients));
      Sent(GatewayBase + endpoint, Headers(apiKey), bodies,
           reencode(gateway(|bodies| - 1, bodies[|bodies| - 1])))
  }

  /** The submitted form after `request`: the filter fields are unset once
      the guards have passed, and the form is untouched otherwise. */
  function PostAfter(outcome: Outcome, post: Post): (postAfter: Post)
  {
    if outcome.Sent? then post - Filters.Keys() else post
  }

  // ---------------------------------------------------------------------
  // The operations

  /** Builds the WHERE string and the bind list from the four filter fields. */
  method BuildQuery(post: Post) returns (where: string, bind: seq<string>)
    ensures where == Where(post)
    ensures bind == Bind(post)
  {
    where, bind := "", [];
    for k := 0 to |FilterColumns|
      invariant where == Implode(" and ", Clauses(Selected(post, FilterColumns[..k])))
      invariant bind == Binds(Selected(post, FilterColumns[..k]))
    {
      var column, key := FilterColumns[k].0, FilterColumns[k].1;
      var param := Field(post, key);
      ghost var sel := Selected(post, FilterColumns[..k]);
      assert FilterColumns[..k + 1][..k] == FilterColumns[..k];
      if param != "" {
        ClausesSnoc(sel, (column, param));
        BindsSnoc(sel, (column, param));
        PrependWhereJoins(Clauses(sel), ClauseFor(column));
        where := where + PrependWhere(where) + ClauseFor(column);
        bind := bind + [param];
      }
    }
    assert FilterColumns[..|FilterColumns|] == FilterColumns;
    PrependWhereJoins(Clauses(Selected(post, FilterColumns)), MobileClause);
    where := where + PrependWhere(where) + MobileClause;
  }

  /** `buildRecipients`: the explicit `to` list, or the phones of the
      employees the filters select. */
  method BuildRecipients(post: Post, find: (string, seq<string>) -> seq<Employee>)
    returns (recipients: seq<string>)
    ensures recipients == Recipients(post, find)
  {
    var to := Field(post, "to");
    if to != "" {
      return Explode(',', to);
    }
    var where, bind := BuildQuery(post);
    var records := find(where, bind);
    recipients := [];
    for i := 0 to |records|
      invariant |recipients| == i
      invariant forall j :: 0 <= j < i ==> recipients[j] == records[j].mobilePhone
    {
      recipients := recipients + [records[i].mobilePhone];
    }
  }

  /** Unsets each filter field of the form, one filter constant at a time. */
  method UnsetFilters(post: Post) returns (stripped: Post)
    ensures stripped.Keys == post.Keys - Filters.Keys()
    ensures forall key :: key in stripped ==> stripped[key] == post[key]
  {
    var constants := Filters.Values();
    stripped := post;
    for i := 0 to |constants|
      invariant stripped.Keys == post.Keys - set j | 0 <= j < i :: constants[j]
      invariant forall key :: key in stripped ==> stripped[key] == post[key]
    {
      stripped := stripped - {constants[i]};
    }
  }

  /** The gateway loop of `request`: one call per recipient group, in order,
      each with the stripped form merged with `json` and that group as `to`;
      `json` is left holding the response to the last call. */
  method SendAll(stripped: Post, groups: seq<string>, gateway: (nat, Post) -> string)
    returns (bodies: seq<Post>, json: string)
    requires |groups| >= 1
    ensures |bodies| == |groups|
    ensures forall j :: 0 <= j < |groups| ==> bodies[j] == Body(stripped, groups[j])
    ensures json == gateway(|bodies| - 1, bodies[|bodies| - 1])
  {
    bodies, json := [], "";
    for i := 0 to |groups|
      invariant |bodies| == i
      invariant forall j :: 0 <= j < i ==> bodies[j] == Body(stripped, groups[j])
      invariant i > 0 ==> json == gateway(i - 1, bodies[i - 1])
    {
      var body := stripped + map["json" := "1", "to" := groups[i]];
      bodies := bodies + [body];
      json := gateway(i, body);
    }
  }

  /** `request`: checks the guards in order, resolves the recipients, unsets
      the filter fields of the form and calls the gateway once per recipient
      group; returns what is shown and the form as it is left. */
  method Request(requestMethod: string, hasInstance: bool, apiKey: string, post: Post,
                 endpoint: string, multipleRecipients: bool,
                 find: (string, seq<string>) -> seq<Employee>,
                 gateway: (nat, Post) -> string, reencode: string -> string)
    returns (outcome: Outcome, postAfter: Post)
    ensures outcome == Plan(requestMethod, hasInstance, apiKey, post, endpoint,
                            multipleRecipients, find, gateway, reencode)
    ensures postAfter == PostAfter(outcome, post)
  {
    postAfter := post;
    if !IsPost(requestMethod) {
      return NoOutput, postAfter;
    }
    if !hasInstance {
      return Alert(UnknownError), postAfter;
    }
    if IsEmptyValue(apiKey) {
      return Alert(ApiKeyMissing), postAfter;
    }
    var recipients := BuildRecipients(post, find);
    if recipients == [] {
      return Alert(NoRecipients), postAfter;
    }
    var groups := if multipleRecipients then [Implode(",", recipients)] else recipients;
    postAfter := UnsetFilters(post);
    assert postAfter == post - Filters.Keys();
    var bodies, json := SendAll(postAfter, groups, gateway);
    outcome := Sent(GatewayBase + endpoint, [SentWithHeader, ApiKeyHeader + apiKey],
                    bodies, reencode(json));
    PlanSent(requestMethod, hasInstance, apiKey, post, endpoint, multipleRecipients,
             find, gateway, reencode, bodies);
  }

  /** `sms`: one gateway call carrying every recipient, comma-joined. */
  method Sms(requestMethod: string, hasInstance: bool, apiKey: string, post: Post,
             find: (string, seq<string>) -> seq<Employee>,
             gateway: (nat, Post) -> string, reencode: string -> string)
    returns (outcome: Outcome, postAfter: Post)
    ensures outcome == Plan(requestMethod, hasInstance, apiKey, post, "sms", true,
                            find, gateway, reencode)
    ensures postAfter == PostAfter(outcome, post)
    ensures outcome.Sent? ==>
              && outcome.url == GatewayBase + "sms"
              && |outcome.bodies| == 1
              && outcome.bodies[0]["to"] == Implode(",", Recipients(post, find))
  {
    outcome, postAfter := Request(requestMethod, hasInstance, apiKey, post, "sms", true,
                                  find, gateway, reencode);
  }

  /** `voice`: one gateway call per recipient, in resolution order. */
  method Voice(requestMethod: string, hasInstance: bool, apiKey: string, post: Post,
               find: (string, seq<string>) -> seq<Employee>,
               gateway: (nat, Post) -> string, reencode: string -> string)
    returns (outcome: Outcome, postAfter: Post)
    ensures outcome == Plan(requestMethod, hasInstance, apiKey, post, "voice", false,
                            find, gateway, reencode)
    ensures postAfter == PostAfter(outcome, post)
    ensures outcome.Sent? ==>
              && outcome.url == GatewayBase + "voice"
              && |outcome.bodies| == |Recipients(post, find)|
              && forall i :: 0 <= i < |outcome.bodies| ==>
                   outcome.bodies[i]["to"] == Recipients(post, find)[i]
  {
    outcome, postAfter := Request(requestMethod, hasInstance, apiKey, post, "voice", false,
                                  find, gateway, reencode);
  }

  // ---------------------------------------------------------------------
  // Lemmas used by the operations

  /** When every guard passes, the plan sends the given bodies, one per group. */
  lemma PlanSent(requestMethod: string, hasInstance: bool, apiKey: string, post: Post,
                 endpoint: string, multipleRecipients: bool,
                 find: (string, seq<string>) -> seq<Employee>,
                 gateway: (nat, Post) -> string, reencode: string -> string,
                 bodies: seq<Post>)
    requires IsPost(requestMethod) && hasInstance && !IsEmptyValue(apiKey)
    requires Recipients(post, find) != []
    requires var groups := Groups(Recipients(post, find), multipleRecipients);
      && |bodies| == |groups|
      && forall j :: 0 <= j < |groups| ==> bodies[j] == Body(post - Filters.Keys(), groups[j])
    ensures Plan(requestMethod, hasInstance, apiKey, post, endpoint, multipleRecipients,
                 find, gateway, reencode)
            == Sent(GatewayBase + endpoint, Headers(apiKey), bodies,
                    reencode(gateway(|bodies| - 1, bodies[|bodies| - 1])))
  {
    BodiesAt(post - Filters.Keys(), Groups(Recipients(post, find), multipleRecipients), bodies);
  }

  lemma BodiesAt(stripped: Post, groups: seq<string>, bodies: seq<Post>)
    requires |bodies| == |groups|
    requires forall j :: 0 <= j < |groups| ==> bodies[j] == Body(stripped, groups[j])
    ensures Bodies(stripped, groups) == bodies
  {
  }

  /** `prependWhere` supplies exactly the separator of a join by " and ":
      appending it and one more clause to the joined clauses joins one more. */
  lemma PrependWhereJoins(parts: seq<string>, x: string)
    requires forall i :: 0 <= i < |parts| ==> parts[i] != ""
    ensures Implode(" and ", parts) + PrependWhere(Implode(" and ", parts)) + x
            == Implode(" and ", parts + [x])
  {
    if |parts| == 0 {
      assert parts + [x] == [x];
    } else {
      ImplodeStartsWithFirst(" and ", parts);
      ImplodeSnoc(" and ", parts, x);
    }
  }

  lemma ClausesSnoc(sel: seq<(string, string)>, p: (string, string))
    ensures Clauses(sel + [p]) == Clauses(sel) + [ClauseFor(p.0)]
  {
  }

  lemma BindsSnoc(sel: seq<(string, string)>, p: (string, string))
    ensures Binds(sel + [p]) == Binds(sel) + [p.1]
  {
  }
}
