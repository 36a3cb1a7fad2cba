# VMR alert relay — a Dafny model

The repository is one AWS Lambda function, `lambda_VMR/lambda_VMR.py`. It receives a batch of SNS
records, takes the alert (`Alert_Info`) out of each record's JSON message and wraps it in an
envelope that also carries the whole batch. It resolves the alert's AWS region to a Flows region tag
(US, CA or EMEA) and POSTs the envelope to that tag's Flows API endpoint. Failures are contained per
record. The caller always gets a summary status back.

The model has five modules:

- `Wrappers` (wrappers.dfy): `Option` and `Result`.
- `Json` (json.dfy): JSON values as the handler sees them. It includes `dict.get` with a default,
  hashability, and Python's type names.
- `Routing` (routing.dfy): `identify_region` and its region table.
- `Flows` (flows.dfy): the endpoint table `FLOWS_API_ENDPOINTS`, the request headers, the response
  classification done by `raise_for_status`, and `send_to_flows` as the method `SendToFlows`.
- `Handler` (handler.dfy) and `HandlerProperties` (handler_properties.dfy): `lambda_handler`. The entry
  point is the method `LambdaHandler`. Each record goes through `ProcessRecord`, which calls
  `SendToFlows`. A ghost trace gets one `RecordOutcome` per record: `Skipped(reason)`,
  `Unrouted(tag)` (the forwarder refused, so no POST happened) or `Posted(request, ok)`. The loop
  itself is `HandleRecords` (over a list of records) or `HandleKeys` (over a dict). The
  functions `Route`, `Outcome` and `Dispatch` state what that trace must be. The lemmas relate it to
  the promises of the code.

Two calls into libraries are parameters of the model (the `Runtime` datatype):

- `loads: string -> Option<Value>` stands for `json.loads`. `None` means a JSON decoding error.
- `post: Request -> Response` stands for `requests.post`. It gives `Answered(statusCode)`, or
  `RequestFailed` for a `RequestException` (timeout, DNS, refused connection, TLS).

The subscripts `record["Sns"]["Message"]` and every `.get` are modelled exactly. So is each
exception they can raise.

The model follows the code where the code is narrower or wider than its own description:

- Only status codes 400 to 599 count as a failed send, because that is where `raise_for_status`
  raises. A 1xx, a 3xx, or a code of 600 or more counts as success.
- `Alert_Info` is replaced by `{}` only when the key is absent. If it is present but not a dict
  (null, a string, a list), the next `.get` raises. The record is then skipped, not routed to US.
- An `awsRegion` that is null, a boolean or a number resolves to US. One that is a list or a dict
  cannot be looked up (TypeError), so the record is skipped.
- The only summaries other than "Processing complete" come from these two cases:
  - the event is not a dict (`'<type>' object has no attribute 'get'`);
  - `Records` is null, a boolean or a number (`'<type>' object is not iterable`).

  A string or a dict under `Records` can be iterated. Each of its elements is a string, which
  fails at `record["Sns"]`, so every element is skipped.
- The CA and EMEA entries of the endpoint table hold the placeholder `"https://api-"`. That string
  is not empty, so the guard "no API endpoint found" never fires for a tag the resolver returns
  (`Flows.EveryTagHasAnEndpoint`, `HandlerProperties.RoutedRecordIsPosted`). Alerts from Canada and
  Europe are POSTed to that placeholder URL. Whether the network accepts them is up to `post`.

## Model

| member | source | states |
|---|---|---|
| `Routing.IdentifyRegion` | lambda_VMR/lambda_VMR.py:24-33 | gives no tag exactly when the region value is unhashable (a list or a dict); any tag it gives is US, CA or EMEA; a listed region gets its table entry and every other hashable value gets "US" |
| `Routing.KnownRegions` | lambda_VMR/lambda_VMR.py:26-32 | us-east-1 and us-west-2 map to US, ca-central-1 to CA, eu-west-1 and eu-central-1 to EMEA |
| `Routing.UnknownRegionIsUS` | lambda_VMR/lambda_VMR.py:33 | every string outside the table resolves to "US" |
| `Routing.LookupIsCaseSensitive` | lambda_VMR/lambda_VMR.py:33 | upper-case spellings of known regions and the empty string resolve to the default "US" |
| `Routing.EveryStringResolves` | lambda_VMR/lambda_VMR.py:24-33 | the resolver is total on strings, with a result among the three tags |
| `Routing.TagPreimages` | lambda_VMR/lambda_VMR.py:26-33 | both directions: CA iff ca-central-1; EMEA iff eu-west-1 or eu-central-1; US iff neither |
| `Routing.NonStringScalarIsUS` | lambda_VMR/lambda_VMR.py:33 | a null, boolean or number region equals no table key and resolves to "US" |
| `Flows.Endpoint` | lambda_VMR/lambda_VMR.py:37-41 | a URL is given only for a listed tag with a non-empty entry, and it is that entry; otherwise nothing |
| `Flows.Headers` | lambda_VMR/lambda_VMR.py:43-46 | the headers are exactly Content-Type and the API-key header; the key carries the configured value, and Content-Type is application/json unless the key's name overrides it |
| `Flows.Delivery` | lambda_VMR/lambda_VMR.py:37-49 | a request is made exactly when the table gives a usable URL; it goes to that URL with the payload as body, the headers and a 5-second timeout |
| `Flows.SendToFlows` | lambda_VMR/lambda_VMR.py:35-56 | refuses with False and no POST when the tag has no usable URL; otherwise POSTs once and returns True exactly when the response is a completed exchange outside 400..599 |
| `Flows.EveryTagHasAnEndpoint` | lambda_VMR/lambda_VMR.py:18-22 | every resolver tag has a non-empty URL in the deployed table; CA and EMEA have the placeholder "https://api-" |
| `Flows.UnlistedTagIsRefused` | lambda_VMR/lambda_VMR.py:37-41 | a tag missing from the deployed table gets no request |
| `Flows.ResponseClassification` | lambda_VMR/lambda_VMR.py:48-56 | a status code succeeds iff it is below 400 or at least 600, so every 2xx succeeds; a RequestException is a failure, never an escape |
| `Handler.ParseMessage` | lambda_VMR/lambda_VMR.py:64-68 | a message is obtained iff Sns.Message exists, is a string, and loads to a dict, which is then the message; a missing Sns.Message is reported as such |
| `Handler.Route` | lambda_VMR/lambda_VMR.py:64-74 | a parse failure is skipped with its reason; a parsed record whose Alert_Info (or {}) is not a dict is skipped; otherwise it is routed iff its awsRegion (default us-east-1) resolves, to exactly the tag `IdentifyRegion` gives, and a list or dict region is skipped as unhashable; a routed payload is the envelope of that Alert_Info and the whole batch |
| `Handler.Outcome` | lambda_VMR/lambda_VMR.py:62-82 | a record is skipped iff routing skipped it; a routed record is refused by the forwarder iff the table has no usable URL for its tag; a POST is exactly the forwarder's request for the routed tag and envelope (URL, headers, body, timeout), its body holds the whole batch, and its verdict is the classification of the response |
| `Handler.Dispatch` | lambda_VMR/lambda_VMR.py:61-82 | a batch has one outcome per record, in input order, each that record's own outcome |
| `Handler.BatchOf` | lambda_VMR/lambda_VMR.py:60-61 | an event that is not a dict fails with AttributeError; the loop walks event["Records"] (default []): a list item by item, a string character by character, a dict by its keys; Records of any other type fails as not iterable |
| `Handler.ProcessRecord` | lambda_VMR/lambda_VMR.py:62-82 | one loop iteration, forwarder call included, yields exactly the record's outcome; `success` is True iff the record was POSTed and the send succeeded |
| `Handler.HandleRecords` | lambda_VMR/lambda_VMR.py:61-82 | the loop over a list (or string) of records leaves exactly the batch's outcomes, one per record in input order |
| `Handler.HandleKeys` | lambda_VMR/lambda_VMR.py:61-82 | the loop over a dict of records skips every key, one skip per key, with the reason that Sns.Message is missing |
| `Handler.LambdaHandler` | lambda_VMR/lambda_VMR.py:58-89 | returns {"status": "Error", "message": str(e)} with no sends iff iteration cannot start, and {"status": "Processing complete"} otherwise; the trace is the batch's outcomes in input order; a dict under Records yields one skip per key |
| `HandlerProperties.SentAppend` | lambda_VMR/lambda_VMR.py:61-77 | the requests of two traces in sequence are the requests of the first, then those of the second |
| `HandlerProperties.AtMostOneSendPerRecord` | lambda_VMR/lambda_VMR.py:61-77 | never more POSTs than records |
| `HandlerProperties.DispatchAppend` | lambda_VMR/lambda_VMR.py:61-82 | handling a batch is handling its prefix, then its suffix |
| `HandlerProperties.SkippedRecordSendsNothing` | lambda_VMR/lambda_VMR.py:61-82 | a record that fails anywhere before the send POSTs nothing; the records before and after it are sent exactly as if it were absent |
| `HandlerProperties.SentComesFromPosted` | lambda_VMR/lambda_VMR.py:77 | every request on the wire comes from one record's POST in the trace |
| `HandlerProperties.EveryRequestCarriesTheWholeBatch` | lambda_VMR/lambda_VMR.py:67-70 | every envelope sent for a batch is a dict whose Records is the entire batch, verbatim and the same for every record |
| `HandlerProperties.RoutedRecordIsPosted` | lambda_VMR/lambda_VMR.py:72-77 | with the deployed table no record is refused by the forwarder; a record is POSTed iff it was routed, and it goes to its tag's URL |
| `HandlerProperties.ProductionSendsEveryRoutedRecord` | lambda_VMR/lambda_VMR.py:61-77 | with the deployed table the number of POSTs equals the number of routed records |
| `HandlerProperties.ParsedRecordEnvelope` | lambda_VMR/lambda_VMR.py:66-74 | a parsed record with a dict (or absent) Alert_Info and a hashable region is routed; its envelope holds that Alert_Info, or {} and the tag US when absent |
| `HandlerProperties.MissingRegionRoutesToUS` | lambda_VMR/lambda_VMR.py:73-74 | an alert with no awsRegion is routed as us-east-1, to US |
| `HandlerProperties.NonObjectAlertInfoIsSkipped` | lambda_VMR/lambda_VMR.py:68-82 | an Alert_Info that is present but not a dict makes the record skipped, not routed |
| `HandlerProperties.EmptyBatchSendsNothing` | lambda_VMR/lambda_VMR.py:61-84 | an event with no Records or an empty list iterates nothing and sends nothing |
| `HandlerProperties.EventNotADict` | lambda_VMR/lambda_VMR.py:60-61 | an event that is a list or null fails outside the loop with an AttributeError on get |
| `HandlerProperties.RecordsNotIterable` | lambda_VMR/lambda_VMR.py:61 | Records that is null, a boolean or a number fails outside the loop with "object is not iterable" |
| `HandlerProperties.EuWestWithoutEndpoint` | lambda_VMR/lambda_VMR.py:30-41 | an eu-west-1 alert resolves to EMEA; with no EMEA URL configured the forwarder refuses and nothing is POSTed |
| `HandlerProperties.UsWestAnswered200` | lambda_VMR/lambda_VMR.py:28-52 | a us-west-2 alert is POSTed to the deployed US URL, and the send succeeds when the endpoint answers 200 |

## Left out

- Logging: every `logger` call, including the warning that the SNS message is kept for ticketing. No retention mechanism exists behind that warning, so it has no effect to model.
- Reading the environment at cold start: the API-key header's name (`API_KEY`, default `x-api-key`) and value (`API_KEY_VALUE`, possibly missing) are fields of `Flows.Config`. The log line for a missing key has no other effect.
- The network and JSON decoding are the oracles `post` and `loads`. The same request gets the same response within one invocation. The order of sends and the summary status never depend on responses.
- What `requests` does with a header whose value is `None`, the JSON serialisation of the body, and the actual 5-second wait. The timeout appears only as a field of the request.
- Exceptions from `requests.post` other than `RequestException`. In Python they would escape `send_to_flows`, and the per-record `except` would skip the record.
- JSON numbers are integers, so the type name `float` in error texts is not modelled.
- The unused `context` argument and the Lambda invocation lifecycle.
- Handler.LambdaHandler and Handler.HandleKeys: when Records is a dict, Python visits its keys in insertion order. A Dafny map has no order, so the contract gives only the number of skips (one per key) and their reason, not the keys' order.
