/**
  What the dispatch planner of `Util` promises: the order of its guards, the
  recipients it resolves, the shape of the employee query, and the requests
  it plans for the SMS and the voice endpoint.
 */
module UtilProperties {
  import opened PhpStrings
  import Filters
  import opened Util

  // ---------------------------------------------------------------------
  // Guards

  /** The guards fire in a fixed order (form submission, service instance,
      API key, recipients), and a request is planned exactly when all pass. */
  lemma GuardsFireInOrder(requestMethod: string, hasInstance: bool, apiKey: string, post: Post,
                          endpoint: string, multipleRecipients: bool,
                          find: (string, seq<string>) -> seq<Employee>,
                          gateway: (nat, Post) -> string, reencode: string -> string)
    ensures var out := Plan(requestMethod, hasInstance, apiKey, post, endpoint,
                            multipleRecipients, find, gateway, reencode);
      && (requestMethod != "POST" ==> out == NoOutput)
      && (requestMethod == "POST" && !hasInstance ==> out == Alert(UnknownError))
      && (requestMethod == "POST" && hasInstance && (apiKey == "" || apiKey == "0") ==>
            out == Alert(ApiKeyMissing))
      && (requestMethod == "POST" && hasInstance && apiKey != "" && apiKey != "0" &&
          Recipients(post, find) == [] ==>
            out == Alert(NoRecipients))
      && (out.Sent? <==> requestMethod == "POST" && hasInstance && apiKey != "" && apiKey != "0"
                         && Recipients(post, find) != [])
  {
  }

  /** "No recipient(s) found!" is reachable only through the filter path, and
      only when the store returns no employee. */
  lemma NoRecipientsOnlyThroughFilters(
      requestMethod: string, hasInstance: bool, apiKey: string, post: Post,
      endpoint: string, multipleRecipients: bool,
      find: (string, seq<string>) -> seq<Employee>,
      gateway: (nat, Post) -> string, reencode: string -> string)
    requires Plan(requestMethod, hasInstance, apiKey, post, endpoint, multipleRecipients,
                  find, gateway, reencode) == Alert(NoRecipients)
    ensures Field(post, "to") == ""
    ensures find(Where(post), Bind(post)) == []
  {
  }

  // ---------------------------------------------------------------------
  // Recipients

  /** A non-empty `to` gives exactly its comma-separated pieces, untrimmed:
      never an empty list, no piece holding a comma, and joining them with
      commas gives `to` back. */
  lemma ExplicitRecipients(post: Post, find: (string, seq<string>) -> seq<Employee>)
    requires Field(post, "to") != ""
    ensures var r := Recipients(post, find);
      && r == Explode(',', Field(post, "to"))
      && |r| >= 1
      && (forall i :: 0 <= i < |r| ==> ',' !in r[i])
      && Implode(",", r) == Field(post, "to")
  {
    ImplodeExplode(',', Field(post, "to"));
  }

  /** Conversely, a list of comma-free numbers joined with commas and submitted
      as `to` resolves to exactly that list. */
  lemma ExplicitRecipientsRoundTrip(post: Post, find: (string, seq<string>) -> seq<Employee>,
                                    numbers: seq<string>)
    requires |numbers| >= 1
    requires forall i :: 0 <= i < |numbers| ==> ',' !in numbers[i]
    requires Field(post, "to") == Implode(",", numbers)
    requires Field(post, "to") != ""
    ensures Recipients(post, find) == numbers
  {
    ExplodeImplode(',', numbers);
    assert Recipients(post, find) == Explode(',', Field(post, "to"));
  }

  /** Without `to`, the recipients are the phone numbers of the store's
      records, one per record, in the store's order, without deduplication. */
  lemma FilterRecipients(post: Post, find: (string, seq<string>) -> seq<Employee>)
    requires Field(post, "to") == ""
    ensures var records := find(Where(post), Bind(post));
      var r := Recipients(post, find);
      && |r| == |records|
      && forall i :: 0 <= i < |r| ==> r[i] == records[i].mobilePhone
  {
  }

  // ---------------------------------------------------------------------
  // The employee query

  /** The filters selected from a submission, written out: country,
      employment status, job title, status, each only when non-empty. */
  lemma {:induction false} SelectedInOrder(post: Post)
    ensures var c := Field(post, Filters.EmployeeCountries);
      var e := Field(post, Filters.EmployeeEmploymentStatuses);
      var j := Field(post, Filters.EmployeeJobTitles);
      var s := Field(post, Filters.EmployeeStatuses);
      Selected(post, FilterColumns)
      == Opt(c, ("country", c)) + Opt(e, ("employment_status", e))
         + Opt(j, ("job_title", j)) + Opt(s, ("status", s))
  {
    var f := FilterColumns;
    var c := Field(post, Filters.EmployeeCountries);
    var e := Field(post, Filters.EmployeeEmploymentStatuses);
    var j := Field(post, Filters.EmployeeJobTitles);
    var s := Field(post, Filters.EmployeeStatuses);
    var s1 := Opt(c, ("country", c));
    var s2 := s1 + Opt(e, ("employment_status", e));
    var s3 := s2 + Opt(j, ("job_title", j));
    assert Selected(post, f[..1]) == s1 by {
      assert f[..0] == [];
      SelectedStep(post, f, 0, "country", Filters.EmployeeCountries);
    }
    assert Selected(post, f[..2]) == s2 by {
      SelectedStep(post, f, 1, "employment_status", Filters.EmployeeEmploymentStatuses);
    }
    assert Selected(post, f[..3]) == s3 by {
      SelectedStep(post, f, 2, "job_title", Filters.EmployeeJobTitles);
    }
    assert Selected(post, f[..4]) == s3 + Opt(s, ("status", s)) by {
      SelectedStep(post, f, 3, "status", Filters.EmployeeStatuses);
    }
    assert f[..4] == f;
  }

  /** The bind values are the non-empty filter values, in the order country,
      employment status, job title, status. */
  lemma BindInOrder(post: Post)
    ensures var c := Field(post, Filters.EmployeeCountries);
      var e := Field(post, Filters.EmployeeEmploymentStatuses);
      var j := Field(post, Filters.EmployeeJobTitles);
      var s := Field(post, Filters.EmployeeStatuses);
      Bind(post) == Opt(c, c) + Opt(e, e) + Opt(j, j) + Opt(s, s)
  {
    var c := Field(post, Filters.EmployeeCountries);
    var e := Field(post, Filters.EmployeeEmploymentStatuses);
    var j := Field(post, Filters.EmployeeJobTitles);
    var s := Field(post, Filters.EmployeeStatuses);
    SelectedInOrder(post);
    BindsOpt(c, "country");
    BindsOpt(e, "employment_status");
    BindsOpt(j, "job_title");
    BindsOpt(s, "status");
    BindsConcat(Opt(c, ("country", c)) + Opt(e, ("employment_status", e))
                + Opt(j, ("job_title", j)), Opt(s, ("status", s)));
    BindsConcat(Opt(c, ("country", c)) + Opt(e, ("employment_status", e)),
                Opt(j, ("job_title", j)));
    BindsConcat(Opt(c, ("country", c)), Opt(e, ("employment_status", e)));
  }

  /** The WHERE string holds one `<column> in (?)` clause per non-empty
      filter, in the same order, and then the phone clause. */
  lemma WhereInOrder(post: Post)
    ensures var c := Field(post, Filters.EmployeeCountries);
      var e := Field(post, Filters.EmployeeEmploymentStatuses);
      var j := Field(post, Filters.EmployeeJobTitles);
      var s := Field(post, Filters.EmployeeStatuses);
      Where(post)
      == Implode(" and ", Opt(c, ClauseFor("country")) + Opt(e, ClauseFor("employment_status"))
                          + Opt(j, ClauseFor("job_title")) + Opt(s, ClauseFor("status"))
                          + [MobileClause])
  {
    var c := Field(post, Filters.EmployeeCountries);
    var e := Field(post, Filters.EmployeeEmploymentStatuses);
    var j := Field(post, Filters.EmployeeJobTitles);
    var s := Field(post, Filters.EmployeeStatuses);
    var a1, a2, a3, a4 := Opt(c, ("country", c)), Opt(e, ("employment_status", e)),
                          Opt(j, ("job_title", j)), Opt(s, ("status", s));
    SelectedInOrder(post);
    assert Clauses(a1 + a2) == Clauses(a1) + Clauses(a2) by { ClausesConcat(a1, a2); }
    assert Clauses(a1 + a2 + a3) == Clauses(a1 + a2) + Clauses(a3) by { ClausesConcat(a1 + a2, a3); }
    assert Clauses(a1 + a2 + a3 + a4) == Clauses(a1 + a2 + a3) + Clauses(a4) by {
      ClausesConcat(a1 + a2 + a3, a4);
    }
    ClausesOpt(c, "country");
    ClausesOpt(e, "employment_status");
    ClausesOpt(j, "job_title");
    ClausesOpt(s, "status");
  }

  /** With every filter empty the query is exactly the phone clause, with
      nothing to bind: every employee with a phone number is selected. */
  lemma NoFiltersSelectEveryPhone(post: Post)
    requires Field(post, Filters.EmployeeCountries) == ""
    requires Field(post, Filters.EmployeeEmploymentStatuses) == ""
    requires Field(post, Filters.EmployeeJobTitles) == ""
    requires Field(post, Filters.EmployeeStatuses) == ""
    ensures Where(post) == MobileClause
    ensures Bind(post) == []
  {
    SelectedInOrder(post);
  }

  /** The WHERE string has as many `?` placeholders as there are bind values. */
  lemma PlaceholdersMatchBind(post: Post)
    ensures Count('?', Where(post)) == |Bind(post)|
  {
    var sel := Selected(post, FilterColumns);
    FilterColumnsAreWellFormed();
    SelectedColumnsAreWellFormed(post, FilterColumns);
    forall i | 0 <= i < |sel| ensures Count('?', sel[i].0) == 0 {
      CountAbsent('?', sel[i].0);
    }
    MobileClauseIsWellFormed();
    CountAbsent('?', MobileClause);
    CountClauses(sel, MobileClause);
  }

  /** The WHERE string always ends with the phone clause. */
  lemma WhereEndsWithMobileClause(post: Post)
    ensures |MobileClause| <= |Where(post)|
    ensures Where(post)[|Where(post)| - |MobileClause|..] == MobileClause
  {
    var parts := Clauses(Selected(post, FilterColumns)) + [MobileClause];
    ImplodeEndsWithLast(" and ", parts);
  }

  /** The WHERE string never starts with the separator " and ". */
  lemma WhereDoesNotStartWithSeparator(post: Post)
    ensures |Where(post)| > 0 && Where(post)[0] != ' '
    ensures !(" and " <= Where(post))
  {
    var sel := Selected(post, FilterColumns);
    var parts := Clauses(sel) + [MobileClause];
    ImplodeStartsWithFirst(" and ", parts);
    MobileClauseIsWellFormed();
    if |sel| > 0 {
      FilterColumnsAreWellFormed();
      SelectedColumnsAreWellFormed(post, FilterColumns);
      assert parts[0] == sel[0].0 + " in (?)";
    }
    assert parts[0] <= Where(post);
    assert Where(post)[0] == parts[0][0];
  }

  // ---------------------------------------------------------------------
  // Planned requests

  /** Every planned body lacks the four filter fields, has `json` = 1 and
      `to` = its recipient group (overriding any submitted values), and
      carries every other submitted field unchanged. */
  lemma BodyFields(post: Post, to: string)
    ensures var b := Body(post - Filters.Keys(), to);
      && b.Keys == (post.Keys - Filters.Keys()) + {"json", "to"}
      && (forall k :: k in Filters.Values() ==> k !in b)
      && b["json"] == "1"
      && b["to"] == to
      && forall k :: k in post && k !in Filters.Keys() && k != "json" && k != "to"
           ==> b[k] == post[k]
  {
  }

  /** The planned requests: one per recipient group, each body built from
      the form with the filter fields removed; the message shown is the
      re-encoded response to the last call. */
  lemma PlannedRequests(requestMethod: string, hasInstance: bool, apiKey: string, post: Post,
                        endpoint: string, multipleRecipients: bool,
                        find: (string, seq<string>) -> seq<Employee>,
                        gateway: (nat, Post) -> string, reencode: string -> string)
    requires Plan(requestMethod, hasInstance, apiKey, post, endpoint, multipleRecipients,
                  find, gateway, reencode).Sent?
    ensures var out := Plan(requestMethod, hasInstance, apiKey, post, endpoint,
                            multipleRecipients, find, gateway, reencode);
      var groups := Groups(Recipients(post, find), multipleRecipients);
      && out.url == "https://gateway.sms77.io/api/" + endpoint
      && out.headers == ["SentWith: IceHrm", "X-Api-Key: " + apiKey]
      && |out.bodies| == |groups| >= 1
      && (forall i :: 0 <= i < |groups| ==>
            && (forall k :: k in Filters.Values() ==> k !in out.bodies[i])
            && out.bodies[i]["json"] == "1"
            && out.bodies[i]["to"] == groups[i]
            && forall k :: k in post && k !in Filters.Keys() && k != "json" && k != "to"
                 ==> out.bodies[i][k] == post[k])
      && out.message == reencode(gateway(|groups| - 1, out.bodies[|groups| - 1]))
  {
    var groups := Groups(Recipients(post, find), multipleRecipients);
    forall i | 0 <= i < |groups|
      ensures Plan(requestMethod, hasInstance, apiKey, post, endpoint,
                   multipleRecipients, find, gateway, reencode).bodies[i]
              == Body(post - Filters.Keys(), groups[i])
    {
    }
    forall i | 0 <= i < |groups| {
      BodyFields(post, groups[i]);
    }
  }

  /** SMS: exactly one request, addressed to all recipients comma-joined. */
  lemma SmsSendsOneRequest(requestMethod: string, hasInstance: bool, apiKey: string, post: Post,
                           find: (string, seq<string>) -> seq<Employee>,
                           gateway: (nat, Post) -> string, reencode: string -> string)
    requires Plan(requestMethod, hasInstance, apiKey, post, "sms", true,
                  find, gateway, reencode).Sent?
    ensures var out := Plan(requestMethod, hasInstance, apiKey, post, "sms", true,
                            find, gateway, reencode);
      && |out.bodies| == 1
      && out.bodies[0]["to"] == Implode(",", Recipients(post, find))
      && out.bodies[0] == Body(post - Filters.Keys(), Implode(",", Recipients(post, find)))
  {
  }

  /** SMS with an explicit `to`: the one request carries `to` exactly as submitted. */
  lemma SmsExplicitToIsForwarded(requestMethod: string, hasInstance: bool, apiKey: string,
                                 post: Post, find: (string, seq<string>) -> seq<Employee>,
                                 gateway: (nat, Post) -> string, reencode: string -> string)
    requires Field(post, "to") != ""
    requires Plan(requestMethod, hasInstance, apiKey, post, "sms", true,
                  find, gateway, reencode).Sent?
    ensures Plan(requestMethod, hasInstance, apiKey, post, "sms", true,
                 find, gateway, reencode).bodies
            == [Body(post - Filters.Keys(), Field(post, "to"))]
  {
    ExplicitRecipients(post, find);
  }

  /** Voice: one request per recipient, in resolution order. */
  lemma VoiceSendsOneRequestPerRecipient(
      requestMethod: string, hasInstance: bool, apiKey: string, post: Post,
      find: (string, seq<string>) -> seq<Employee>,
      gateway: (nat, Post) -> string, reencode: string -> string)
    requires Plan(requestMethod, hasInstance, apiKey, post, "voice", false,
                  find, gateway, reencode).Sent?
    ensures var out := Plan(requestMethod, hasInstance, apiKey, post, "voice", false,
                            find, gateway, reencode);
      var r := Recipients(post, find);
      && |out.bodies| == |r|
      && forall i :: 0 <= i < |r| ==> out.bodies[i] == Body(post - Filters.Keys(), r[i])
  {
  }

  /** Every field the resolver reads as a filter is among the fields stripped
      from the outgoing bodies, and none of the fields the planner sets is. */
  lemma FilterFieldsAreStripped()
    ensures forall i :: 0 <= i < |FilterColumns| ==> FilterColumns[i].1 in Filters.Keys()
    ensures "json" !in Filters.Keys() && "to" !in Filters.Keys()
  {
  }

  /** `to` = "111,222" with SMS: one request, to "111,222". */
  lemma SmsTwoNumbersExample(post: Post, hasInstance: bool, apiKey: string,
                             find: (string, seq<string>) -> seq<Employee>,
                             gateway: (nat, Post) -> string, reencode: string -> string)
    requires post == map["to" := "111,222", "text" := "hi"]
    requires hasInstance && apiKey != "" && apiKey != "0"
    ensures var out := Plan("POST", hasInstance, apiKey, post, "sms", true,
                            find, gateway, reencode);
      && out.Sent? && |out.bodies| == 1
      && out.bodies[0] == Body(post, "111,222")
  {
    TwoNumbersResolve(post, find);
    SmsSendsOneRequest("POST", hasInstance, apiKey, post, find, gateway, reencode);
  }

  /** `to` = "111,222" with voice: two requests, to "111" and then to "222". */
  lemma VoiceTwoNumbersExample(post: Post, hasInstance: bool, apiKey: string,
                               find: (string, seq<string>) -> seq<Employee>,
                               gateway: (nat, Post) -> string, reencode: string -> string)
    requires post == map["to" := "111,222", "text" := "hi"]
    requires hasInstance && apiKey != "" && apiKey != "0"
    ensures var out := Plan("POST", hasInstance, apiKey, post, "voice", false,
                            find, gateway, reencode);
      && out.Sent? && |out.bodies| == 2
      && out.bodies[0] == Body(post, "111")
      && out.bodies[1] == Body(post, "222")
  {
    TwoNumbersResolve(post, find);
    VoiceSendsOneRequestPerRecipient("POST", hasInstance, apiKey, post, find, gateway, reencode);
  }

  /** The bodies of the two examples: the submitted `text`, `json` = 1 and
      the recipient group as `to`. */
  lemma ExampleBody(post: Post, to: string)
    requires post == map["to" := "111,222", "text" := "hi"]
    ensures Body(post, to) == map["to" := to, "text" := "hi", "json" := "1"]
  {
  }

  lemma TwoNumbersResolve(post: Post, find: (string, seq<string>) -> seq<Employee>)
    requires post == map["to" := "111,222", "text" := "hi"]
    ensures Recipients(post, find) == ["111", "222"]
    ensures Implode(",", ["111", "222"]) == "111,222"
    ensures post - Filters.Keys() == post
  {
    JoinTwoNumbers();
    TwoNumbersHaveNoComma();
    ExplicitRecipientsRoundTrip(post, find, ["111", "222"]);
    ExampleHasNoFilter(post);
  }

  lemma TwoNumbersHaveNoComma()
    ensures forall i :: 0 <= i < |["111", "222"]| ==> ',' !in ["111", "222"][i]
  {
  }

  lemma ExampleHasNoFilter(post: Post)
    requires post == map["to" := "111,222", "text" := "hi"]
    ensures post - Filters.Keys() == post
  {
    assert "to" !in Filters.Keys() && "text" !in Filters.Keys();
  }

  lemma JoinTwoNumbers()
    ensures Implode(",", ["111", "222"]) == "111,222"
  {
  }

  // ---------------------------------------------------------------------
  // Helpers

  /** A column name as the WHERE string uses it: non-empty, not starting
      with a blank, holding no placeholder. */
  ghost predicate WellFormedColumn(column: string)
  {
    |column| > 0 && column[0] != ' ' && '?' !in column
  }

  lemma FilterColumnsAreWellFormed()
    ensures forall i :: 0 <= i < |FilterColumns| ==> WellFormedColumn(FilterColumns[i].0)
  {
  }

  lemma {:induction false} SelectedColumnsAreWellFormed(post: Post, fields: seq<(string, string)>)
    requires forall i :: 0 <= i < |fields| ==> WellFormedColumn(fields[i].0)
    ensures forall i :: 0 <= i < |Selected(post, fields)| ==> WellFormedColumn(Selected(post, fields)[i].0)
    decreases |fields|
  {
    if fields != [] {
      SelectedColumnsAreWellFormed(post, fields[..|fields| - 1]);
    }
  }

  lemma {:induction false} CountClauses(sel: seq<(string, string)>, last: string)
    requires forall i :: 0 <= i < |sel| ==> Count('?', sel[i].0) == 0
    requires Count('?', last) == 0
    ensures Count('?', Implode(" and ", Clauses(sel) + [last])) == |sel|
  {
    if |sel| > 0 {
      var first := ClauseFor(sel[0].0);
      var rest := Clauses(sel[1..]) + [last];
      var parts := Clauses(sel) + [last];
      assert parts == [first] + rest;
      assert parts[1..] == rest;
      CountClauses(sel[1..], last);
      assert Implode(" and ", parts) == first + " and " + Implode(" and ", rest);
      CountConcat('?', first, " and ");
      CountConcat('?', first + " and ", Implode(" and ", rest));
      CountConcat('?', sel[0].0, " in (?)");
      CountAbsent('?', " and ");
      PlaceholderInClause();
    }
  }

  lemma MobileClauseIsWellFormed()
    ensures WellFormedColumn(MobileClause)
  {
    assert '?' !in PhoneColumn && '?' !in " IS NOT NULL AND " && '?' !in "<>\"\"";
    assert MobileClause[0] == PhoneColumn[0];
  }

  lemma PlaceholderInClause()
    ensures Count('?', " in (?)") == 1
  {
    assert " in (?)" == " in (" + "?" + ")";
    CountConcat('?', " in (", "?");
    CountConcat('?', " in (" + "?", ")");
    CountAbsent('?', " in (");
    CountAbsent('?', ")");
  }

  lemma SelectedStep(post: Post, fields: seq<(string, string)>, k: nat, column: string, key: string)
    requires k < |fields| && fields[k] == (column, key)
    ensures Selected(post, fields[..k + 1])
            == Selected(post, fields[..k]) + Opt(Field(post, key), (column, Field(post, key)))
  {
    assert fields[..k + 1][..k] == fields[..k];
  }

  lemma ClausesConcat(a: seq<(string, string)>, b: seq<(string, string)>)
    ensures Clauses(a + b) == Clauses(a) + Clauses(b)
  {
  }

  lemma ClausesOpt(value: string, column: string)
    ensures Clauses(Opt(value, (column, value))) == Opt(value, ClauseFor(column))
  {
  }

  lemma BindsOpt(value: string, column: string)
    ensures Binds(Opt(value, (column, value))) == Opt(value, value)
  {
  }

  lemma BindsConcat(a: seq<(string, string)>, b: seq<(string, string)>)
    ensures Binds(a + b) == Binds(a) + Binds(b)
  {
  }
}
