/**
 * The Lambda entry point: walks the SNS records of one invocation in order,
 * builds for each parsed record an envelope holding that record's Alert_Info
 * and the whole batch, routes it by its AWS region and forwards it. A record
 * that fails anywhere is skipped; only a failure outside the loop turns the
 * summary status into an error.
 *
 * `json.loads` is the oracle `loads` (None for a JSON decoding error) and the
 * POST is the oracle `post`; `LambdaHandler` reports every record's fate in a
 * ghost trace of `RecordOutcome`s.
 */
module Handler {
  import opened Wrappers
  import opened Json
  import opened Routing
  import opened Flows

  /** The configuration and the two oracles one invocation runs against. */
  datatype Runtime = Runtime(cfg: Config, loads: string -> Option<Value>, post: Request -> Response)

  /** Why the per-record handler dropped a record (each is an exception the inner `except` catches). */
  datatype SkipReason =
    | MessageMissing      // record["Sns"]["Message"]: KeyError, or TypeError on a non-dict
    | MessageNotText      // json.loads of something other than a string: TypeError
    | MalformedJson       // json.loads: JSONDecodeError
    | MessageNotObject    // sns_message.get on a non-dict: AttributeError
    | AlertInfoNotObject  // Alert_Info present but not a dict, so .get fails: AttributeError
    | RegionUnhashable    // awsRegion is a list or dict: TypeError in the region lookup

  /** What the loop body decides before calling the forwarder. */
  datatype Plan = Skip(reason: SkipReason) | Routed(tag: string, payload: Value)

  /** What became of one record. */
  datatype RecordOutcome =
    | Skipped(reason: SkipReason)
    | Unrouted(tag: string)                 // the forwarder found no usable endpoint: no POST
    | Posted(request: Request, ok: bool)    // one POST; ok is send_to_flows' verdict

  /** The default region of an alert that names none. */
  const DefaultAwsRegion: string := "us-east-1"

  /** The summary the handler returns after the loop. */
  const Complete: Value := Obj(map["status" := Str("Processing complete")])

  /** The summary for a failure outside the loop; `message` is `str(e)`. */
  function ErrorResult(message: string): Value
  {
    Obj(map["status" := Str("Error"), "message" := Str(message)])
  }

  /** The outbound envelope: one record's alert info beside the whole batch. */
  function Envelope(alertInfo: Value, records: Value): Value
  {
    Obj(map["Alert_Info" := alertInfo, "Records" := records])
  }

  /** `record["Sns"]["Message"]`, or nothing when either subscript fails. */
  function SnsMessage(record: Value): Option<Value>
  {
    if record.Obj? && "Sns" in record.fields && record.fields["Sns"].Obj? && "Message" in record.fields["Sns"].fields
    then Some(record.fields["Sns"].fields["Message"])
    else None
  }

  /** `json.loads(record["Sns"]["Message"])`, kept only when it is a dict (the next line calls `.get` on it). */
  function ParseMessage(loads: string -> Option<Value>, record: Value): (r: Result<map<string, Value>, SkipReason>)
    ensures r.Success? ==> SnsMessage(record).Some? && SnsMessage(record).value.Str?
    ensures r.Success? ==> loads(SnsMessage(record).value.s) == Some(Obj(r.value))
    ensures (SnsMessage(record).Some? && SnsMessage(record).value.Str? && loads(SnsMessage(record).value.s).Some?
             && loads(SnsMessage(record).value.s).value.Obj?) ==> r.Success?
    ensures r == Failure(MessageMissing) <==> SnsMessage(record).None?
  {
    match SnsMessage(record)
    case None => Failure(MessageMissing)
    case Some(text) =>
      if !text.Str? then Failure(MessageNotText)
      else match loads(text.s)
        case None => Failure(MalformedJson)
        case Some(message) => if message.Obj? then Success(message.fields) else Failure(MessageNotObject)
  }

  /** `sns_message.get("Alert_Info", {})` */
  function AlertInfo(message: map<string, Value>): Value
  {
    Get(message, "Alert_Info", EmptyObject)
  }

  /** `full_payload["Alert_Info"].get("awsRegion", "us-east-1")` */
  function AwsRegion(alertInfo: map<string, Value>): Value
  {
    Get(alertInfo, "awsRegion", Str(DefaultAwsRegion))
  }

  /**
   * The loop body up to the call of `send_to_flows`: parse, build the envelope
   * over the whole batch `records`, read `awsRegion` (default us-east-1) and
   * resolve it to a tag.
   */
  function Route(loads: string -> Option<Value>, records: Value, record: Value): (p: Plan)
    ensures p.Routed? ==> p.tag in RegionTags
    ensures p.Routed? ==> (ParseMessage(loads, record).Success?
                           && p.payload == Envelope(AlertInfo(ParseMessage(loads, record).value), records))
    ensures ParseMessage(loads, record).Failure? ==> p == Skip(ParseMessage(loads, record).error)
    ensures ParseMessage(loads, record).Success? && !AlertInfo(ParseMessage(loads, record).value).Obj? ==>
              p == Skip(AlertInfoNotObject)
    ensures ParseMessage(loads, record).Success? && AlertInfo(ParseMessage(loads, record).value).Obj? ==>
              (p.Routed? <==> IdentifyRegion(AwsRegion(AlertInfo(ParseMessage(loads, record).value).fields)).Some?)
    ensures p.Routed? ==> Some(p.tag) == IdentifyRegion(AwsRegion(AlertInfo(ParseMessage(loads, record).value).fields))
    ensures ParseMessage(loads, record).Success? && AlertInfo(ParseMessage(loads, record).value).Obj?
            && !Hashable(AwsRegion(AlertInfo(ParseMessage(loads, record).value).fields)) ==>
              p == Skip(RegionUnhashable)
  {
    match ParseMessage(loads, record)
    case Failure(reason) => Skip(reason)
    case Success(message) =>
      var alertInfo := AlertInfo(message);
      if !alertInfo.Obj? then Skip(AlertInfoNotObject)
      else match IdentifyRegion(AwsRegion(alertInfo.fields))
        case None => Skip(RegionUnhashable)
        case Some(tag) => Routed(tag, Envelope(alertInfo, records))
  }

  /** The fate of one record of the batch `records`: the whole loop body, forwarder included. */
  function Outcome(rt: Runtime, records: Value, record: Value): (o: RecordOutcome)
    ensures o.Posted? ==> Route(rt.loads, records, record).Routed? && o.request.body.Obj?
                          && "Records" in o.request.body.fields && o.request.body.fields["Records"] == records
    ensures o.Posted? ==> o.ok == Succeeded(rt.post(o.request))
    ensures o.Skipped? <==> Route(rt.loads, records, record).Skip?
    ensures Route(rt.loads, records, record).Routed? ==>
              (o.Unrouted? <==> Endpoint(rt.cfg.endpoints, Route(rt.loads, records, record).tag).None?)
    ensures o.Unrouted? ==> o.tag == Route(rt.loads, records, record).tag
    ensures o.Posted? ==>
              o.request == Delivery(rt.cfg, Route(rt.loads, records, record).tag, Route(rt.loads, records, record).payload).value
  {
    match Route(rt.loads, records, record)
    case Skip(reason) => Skipped(reason)
    case Routed(tag, payload) =>
      match Delivery(rt.cfg, tag, payload)
      case None => Unrouted(tag)
      case Some(request) => Posted(request, Succeeded(rt.post(request)))
  }

  /** The outcomes of the records `items`, one per record and in their order. */
  function Dispatch(rt: Runtime, records: Value, items: seq<Value>): (trace: seq<RecordOutcome>)
    ensures |trace| == |items|
    ensures forall k :: 0 <= k < |items| ==> trace[k] == Outcome(rt, records, items[k])
  {
    if items == [] then []
    else Dispatch(rt, records, items[..|items| - 1]) + [Outcome(rt, records, items[|items| - 1])]
  }

  /** The requests put on the wire, in order. */
  function Sent(trace: seq<RecordOutcome>): seq<Request>
  {
    if trace == [] then []
    else Sent(trace[..|trace| - 1]) + (if trace[|trace| - 1].Posted? then [trace[|trace| - 1].request] else [])
  }

  /** A failure outside the loop, caught by the outer `except`; `typeName` is the offending value's type. */
  datatype OuterError =
    | NoAttributeGet(typeName: string)  // the event is not a dict: AttributeError
    | NotIterable(typeName: string)     // Records is null, a boolean or a number: TypeError

  /** `str(e)` for the outer failure, as Python words it. */
  function ErrorText(e: OuterError): string
  {
    match e
    case NoAttributeGet(typeName) => "'" + typeName + "' object has no attribute 'get'"
    case NotIterable(typeName) => "'" + typeName + "' object is not iterable"
  }

  /** What the loop iterates over, or why iterating fails before the loop starts. */
  datatype Batch =
    | Items(records: Value, items: seq<Value>)   // a list, or a string iterated character by character
    | Keys(records: Value, keys: set<string>)     // a dict, iterated by its keys
    | Failed(error: OuterError)

  /** `event.get("Records", [])` */
  function RecordsOf(event: map<string, Value>): Value
  {
    Get(event, "Records", Arr([]))
  }

  /** `event.get("Records", [])` and the start of the `for` loop over it. */
  function BatchOf(event: Value): (b: Batch)
    ensures !event.Obj? ==> b == Failed(NoAttributeGet(TypeName(event)))
    ensures event.Obj? && RecordsOf(event.fields).Arr? ==>
              b == Items(RecordsOf(event.fields), RecordsOf(event.fields).items)
    ensures event.Obj? && RecordsOf(event.fields).Str? ==>
              b == Items(RecordsOf(event.fields), Characters(RecordsOf(event.fields).s))
    ensures event.Obj? && RecordsOf(event.fields).Obj? ==>
              b == Keys(RecordsOf(event.fields), RecordsOf(event.fields).fields.Keys)
    ensures event.Obj? && !Iterable(RecordsOf(event.fields)) ==>
              b == Failed(NotIterable(TypeName(RecordsOf(event.fields))))
    ensures event.Obj? && "Records" !in event.fields ==> b == Items(Arr([]), [])
  {
    if !event.Obj? then Failed(NoAttributeGet(TypeName(event)))
    else
      var records := RecordsOf(event.fields);
      match records
      case Arr(items) => Items(records, items)
      case Str(s) => Items(records, Characters(s))
      case Obj(fields) => Keys(records, fields.Keys)
      case _ => Failed(NotIterable(TypeName(records)))
  }

  /**
   * The inner `try` body for one record, with the forwarder as a method call;
   * `success` is what `send_to_flows` returned (False when it was not reached).
   */
  method ProcessRecord(rt: Runtime, records: Value, record: Value) returns (success: bool, ghost outcome: RecordOutcome)
    ensures outcome == Outcome(rt, records, record)
    ensures success <==> Outcome(rt, records, record).Posted? && Outcome(rt, records, record).ok
  {
    match Route(rt.loads, records, record)
    case Skip(reason) =>
      success, outcome := false, Skipped(reason);
    case Routed(tag, payload) =>
      ghost var sent;
      success, sent := SendToFlows(rt.cfg, tag, payload, rt.post);
      outcome := if sent.Some? then Posted(sent.value, success) else Unrouted(tag);
  }

  /** The `for` loop over a list of records, or over a string character by character. */
  method HandleRecords(rt: Runtime, records: Value, items: seq<Value>) returns (ghost trace: seq<RecordOutcome>)
    ensures trace == Dispatch(rt, records, items)
  {
    trace := [];
    var i := 0;
    while i < |items|
      invariant 0 <= i <= |items|
      invariant trace == Dispatch(rt, records, items[..i])
    {
      var success, outcome := ProcessRecord(rt, records, items[i]);
      assert Dispatch(rt, records, items[..i + 1]) == trace + [outcome] by {
        assert items[..i + 1][..i] == items[..i];
        assert items[..i + 1][i] == items[i];
      }
      trace := trace + [outcome];
      i := i + 1;
    }
    assert items[..i] == items;
  }

  /** The `for` loop over a dict of records, which visits its keys; each key is a string and is skipped. */
  method HandleKeys(rt: Runtime, records: Value, keys: set<string>) returns (ghost trace: seq<RecordOutcome>)
    ensures |trace| == |keys|
    ensures forall k :: 0 <= k < |trace| ==> trace[k] == Skipped(MessageMissing)
  {
    trace := [];
    var remaining := keys;
    while remaining != {}
      invariant remaining <= keys
      invariant |trace| + |remaining| == |keys|
      invariant forall k :: 0 <= k < |trace| ==> trace[k] == Skipped(MessageMissing)
      decreases |remaining|
    {
      var key :| key in remaining;
      assert SnsMessage(Str(key)).None?;
      var success, outcome := ProcessRecord(rt, records, Str(key));
      trace := trace + [outcome];
      remaining := remaining - {key};
    }
  }

  /**
   * `lambda_handler(event, context)`: "Processing complete" after stepping
   * through every record in order, whatever became of each; the error summary
   * only when the event or its Records cannot be iterated.
   */
  method LambdaHandler(rt: Runtime, event: Value) returns (result: Value, ghost trace: seq<RecordOutcome>)
    ensures BatchOf(event).Failed? ==> result == ErrorResult(ErrorText(BatchOf(event).error)) && trace == []
    ensures !BatchOf(event).Failed? ==> result == Complete
    ensures BatchOf(event).Items? ==> trace == Dispatch(rt, BatchOf(event).records, BatchOf(event).items)
    ensures BatchOf(event).Keys? ==> |trace| == |BatchOf(event).keys|
                                     && forall k :: 0 <= k < |trace| ==> trace[k] == Skipped(MessageMissing)
  {
    match BatchOf(event) {
      case Failed(error) =>
        return ErrorResult(ErrorText(error)), [];
      case Items(records, items) =>
        trace := HandleRecords(rt, records, items);
      case Keys(records, keys) =>
        trace := HandleKeys(rt, records, keys);
    }
    result := Complete;
  }
}
