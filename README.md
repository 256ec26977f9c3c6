# sms77 notifications for IceHrm: the dispatch planner

This project models the core of the sms77 extension for the IceHrm
human-resources application. The core is the planner in class `Util`. It
handles a submitted SMS or voice form in four steps:

1. It checks its guards in a fixed order: form submission, service
   instance, API key, recipients.
2. It resolves the recipients. A non-empty `to` field is split on commas.
   Otherwise the employee store is queried with a WHERE string built from
   four optional filter fields (country, employment status, job title,
   status).
3. It strips the filter fields from the form.
4. It sends one gateway request per recipient group. For SMS that is a
   single group with every recipient comma-joined. For voice it is one
   group per recipient. Only the response to the last request is shown.

Modules:

- `PhpStrings` (`php_strings.dfy`): the PHP built-ins the planner uses,
  written out. `Explode` is `explode`, `Implode` is `implode`, `Count`
  counts one character. The file proves that exploding and imploding are
  inverse to each other.
- `Filters` (`filters.dfy`): class `Filters`, its four constants and
  `values()`.
- `Util` (`util.dfy`): the planner itself. The loops of the source are
  methods with loop invariants:
  - `BuildQuery` and `BuildRecipients` model `buildRecipients`;
  - `UnsetFilters` models the `unset` loop;
  - `SendAll` models the curl loop;
  - `Request`, `Sms` and `Voice` model the methods of the same names.

  `BuildQuery` is proved equal to the functions `Where` and `Bind`,
  `BuildRecipients` to `Recipients`, and `Request`, `Sms` and `Voice` to
  `Plan`. `UnsetFilters` is proved to leave exactly the submitted keys
  minus `Filters.Keys()`, values unchanged. `SendAll` is proved to send
  `Body(stripped, group)` for each group and to keep the last `gateway`
  response.
- `UtilProperties` (`util_properties.dfy`): the properties of those
  specification functions. They cover the guard order, the recipients, the
  shape of the query, the planned request bodies, and the two worked
  examples `to = "111,222"` for SMS and for voice.

The host's collaborators and the request's global state are parameters:

- `$_SERVER['REQUEST_METHOD']` is a string.
- `BaseService::getInstance()` is a boolean: the instance exists or not.
- `getApiKey` is the API key string.
- `$_POST` is a `map<string, string>`.
- `Employee::Find` is a function `find` from the WHERE string and its bind
  list to employee records.
- `curl_exec` is a function `gateway` that gives the response body of the
  i-th call made with a given body.
- `json_encode(json_decode(...))` is an opaque function `reencode`.

The result is an `Outcome`, one of:

- `NoOutput`: nothing is shown.
- `Alert(message)`: a guard fired.
- `Sent(url, headers, bodies, message)`: the requests sent, in order, and
  the message shown.

`Request` also returns the form as it is left once the filter fields have
been unset.

Three details of the code are easy to misread; the model follows the code:

- `empty($apiKey)` is PHP's `empty`, which is also true for the string `"0"`.
  So an API key of `"0"` counts as missing (`IsEmptyValue`).
- The code does not remove `to` from the form before merging.
  `array_merge` puts the recipient group over it, so the body holds the
  same fields either way.
- `json_decode($json, JSON_PRETTY_PRINT)` passes the pretty-print flag as
  the `assoc` argument. The response shown is re-encoded, not
  pretty-printed. The model keeps this as the opaque `reencode`.

## Model

| member | source | states |
|---|---|---|
| `PhpStrings.Explode` | sms77/src/Sms77IceHrm/Util.php:84 | `explode(',', $to)` gives at least one piece, and no piece holds the separator |
| `PhpStrings.ImplodeExplode` | sms77/src/Sms77IceHrm/Util.php:84 | joining the exploded pieces with the separator gives the original string back |
| `PhpStrings.ExplodeImplode` | sms77/src/Sms77IceHrm/Util.php:58 | exploding a comma-join of comma-free pieces gives the pieces back |
| `Filters.Values` | sms77/src/Sms77IceHrm/Util.php:11-19 | the class constants are four distinct field names, and neither `json` nor `to` is among them |
| `Filters.Keys` | sms77/src/Sms77IceHrm/Util.php:11-19 | the set of filter keys unset from the form holds exactly the elements of `values()`: four keys, none of them `json` or `to` |
| `Util.BuildQuery` | sms77/src/Sms77IceHrm/Util.php:86-103 | the loop that appends `prependWhere($where) . "$field in (?)"` and the bind value for each non-empty filter builds exactly `Where`/`Bind` |
| `Util.BuildRecipients` | sms77/src/Sms77IceHrm/Util.php:81-109 | `buildRecipients` equals the function `Util.Recipients`: it returns the `,`-split of a non-empty `to`, else the `mobile_phone` of each record `Find` returns, in order |
| `Util.UnsetFilters` | sms77/src/Sms77IceHrm/Util.php:60 | unsetting each filter constant removes exactly the filter keys and leaves every other field's value unchanged |
| `Util.SendAll` | sms77/src/Sms77IceHrm/Util.php:64-75 | the body of call j is the stripped form merged with `json` = 1 and `to` = group j; `$json` ends as the response to the last call |
| `Util.Request` | sms77/src/Sms77IceHrm/Util.php:38-79 | the guard chain (`isPOST` as `Util.IsPost`, PHP `empty` on the key as `Util.IsEmptyValue`, true for "" and "0"), recipient resolution, stripping and curl loop produce exactly the function `Util.Plan`, the pure form of `request`; the form loses the filter fields only when requests are sent |
| `Util.Sms` | sms77/src/Sms77IceHrm/Util.php:34-36 | SMS goes to `.../api/sms` as one request whose `to` is the comma-join of all recipients |
| `Util.Voice` | sms77/src/Sms77IceHrm/Util.php:136-138 | voice goes to `.../api/voice` as one request per recipient, request i addressed to recipient i |
| `Util.PrependWhereJoins` | sms77/src/Sms77IceHrm/Util.php:132-134 | `prependWhere` (`Util.PrependWhere`) gives `''` for an empty accumulator and `' and '` otherwise, so accumulating with it is joining with `' and '` |
| `UtilProperties.GuardsFireInOrder` | sms77/src/Sms77IceHrm/Util.php:39-57 | non-POST gives no output; then a missing instance, an empty key ("" or "0") and an empty recipient list each give their literal alert. Requests are planned exactly when every guard passes |
| `UtilProperties.NoRecipientsOnlyThroughFilters` | sms77/src/Sms77IceHrm/Util.php:53-57 | "No recipient(s) found!" needs an empty `to` and an empty store result |
| `UtilProperties.ExplicitRecipients` | sms77/src/Sms77IceHrm/Util.php:82-84 | for a non-empty `to` the recipients are its untrimmed comma pieces: never empty, comma-free, and their comma-join is `to` |
| `UtilProperties.ExplicitRecipientsRoundTrip` | sms77/src/Sms77IceHrm/Util.php:82-84 | a comma-join of comma-free numbers submitted as `to` resolves to exactly those numbers |
| `UtilProperties.FilterRecipients` | sms77/src/Sms77IceHrm/Util.php:105-108 | on the filter path there is one recipient per store record, that record's `mobile_phone`, in the store's order, without dedup |
| `UtilProperties.SelectedInOrder` | sms77/src/Sms77IceHrm/Util.php:90-101 | the selected filters are country, employment_status, job_title, status, in that order, each only when its value is non-empty |
| `UtilProperties.BindInOrder` | sms77/src/Sms77IceHrm/Util.php:97-100 | the bind list is the non-empty filter values in the order country, employment status, job title, status |
| `UtilProperties.WhereInOrder` | sms77/src/Sms77IceHrm/Util.php:90-103 | the WHERE string is the `<field> in (?)` clauses of the non-empty filters, in order, then the phone clause, joined by `' and '` |
| `UtilProperties.NoFiltersSelectEveryPhone` | sms77/src/Sms77IceHrm/Util.php:102-103 | with all four filters empty the WHERE string is exactly `mobile_phone IS NOT NULL AND mobile_phone<>""` and the bind list is empty |
| `UtilProperties.PlaceholdersMatchBind` | sms77/src/Sms77IceHrm/Util.php:90-103 | the number of `?` in the WHERE string equals the length of the bind list |
| `UtilProperties.WhereEndsWithMobileClause` | sms77/src/Sms77IceHrm/Util.php:102-103 | the WHERE string always ends with the phone clause |
| `UtilProperties.WhereDoesNotStartWithSeparator` | sms77/src/Sms77IceHrm/Util.php:98-102 | the WHERE string is non-empty, does not start with a blank and so never with `' and '` |
| `UtilProperties.BodyFields` | sms77/src/Sms77IceHrm/Util.php:70-73 | a body's keys are the submitted keys minus the filter keys plus `json` and `to`. `json` is 1 and `to` is the group, overriding submitted values. Every other field passes through unchanged |
| `UtilProperties.PlannedRequests` | sms77/src/Sms77IceHrm/Util.php:58-78 | the plan posts to `https://gateway.sms77.io/api/<endpoint>` with the two headers. It makes one request per group, with the body fields above, and shows the re-encoded last response |
| `UtilProperties.SmsSendsOneRequest` | sms77/src/Sms77IceHrm/Util.php:58 | with `multipleRecipients` there is exactly one body, addressed to the comma-join of all recipients |
| `UtilProperties.SmsExplicitToIsForwarded` | sms77/src/Sms77IceHrm/Util.php:82-84 | for SMS with a non-empty `to`, the single body carries `to` exactly as submitted |
| `UtilProperties.VoiceSendsOneRequestPerRecipient` | sms77/src/Sms77IceHrm/Util.php:69-75 | without `multipleRecipients` body i is addressed to recipient i, one body per recipient |
| `UtilProperties.FilterFieldsAreStripped` | sms77/src/Sms77IceHrm/Util.php:90-96 | every field the resolver reads as a filter is a stripped key, and `json` and `to` are not |
| `UtilProperties.SmsTwoNumbersExample` | sms77/src/Sms77IceHrm/Util.php:34-36 | `to` = "111,222" with SMS gives one request, to "111,222" |
| `UtilProperties.VoiceTwoNumbersExample` | sms77/src/Sms77IceHrm/Util.php:136-138 | `to` = "111,222" with voice gives two requests, to "111" and then to "222" |
| `UtilProperties.ExampleBody` | sms77/src/Sms77IceHrm/Util.php:70-73 | in the examples, each body is the submitted `text` field plus `to` and `json` = 1 |

## Left out

- The curl calls (Util.php:65-76) are not modelled. That covers the
  connection handle, the `curl_setopt` calls, and the network and its
  failures. The gateway is a parameter, and the model records the URL, the
  headers and the bodies it would send.
- The JSON re-serialisation of the shown response (Util.php:78) is a
  library call. It is the parameter `reencode`.
- `renderAlert` and the other HTML renderers (`renderFilters`,
  `renderSubmit`, `renderTo`, `renderTextarea`) only echo markup. The model
  gives the message an alert would show, not the markup.
- `addSetting` and `getApiKey` are calls into the host's settings store.
  The API key is a parameter.
- `BaseService::getInstance()` is a host call. Whether it yields an
  instance is a parameter.
- The filter-option queries `fetchColumns`, `getEmployeeStatuses`,
  `getEmployeeCountries`, `getEmployeeJobTitles` and
  `getEmployeeEmploymentStatuses` are raw database queries used only by
  the filter form.
- `ReflectionClass` is not modelled. `Filters.Values` lists the four
  constants in declaration order, which is the order reflection returns
  them.
- PHP array key order is not modelled. Bodies are maps. Neither is
  `array_merge` renumbering integer-like keys: a form field named with
  digits is assumed not to occur.
- Form values are strings. The merged `json => 1` is the field value
  `"1"`: curl sends an array of post fields as multipart/form-data, every
  value as text.
- Employee records carry only `mobile_phone`, the one attribute the planner
  reads. The filtering itself is left to `find`.
