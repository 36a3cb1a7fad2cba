/**
 * What the handler promises about a whole batch: records are handled one at a
 * time and in order, a failing record costs only itself, every request carries
 * the whole batch, and with the deployed endpoint table every record that gets
 * as far as routing is POSTed.
 */
module HandlerProperties {
  import opened Wrappers
  import opened Json
  import opened Routing
  import opened Flows
  import opened Handler

  /** Sending distributes over concatenating traces, so requests leave in trace order. */
  lemma {:induction false} SentAppend(a: seq<RecordOutcome>, b: seq<RecordOutcome>)
    ensures Sent(a + b) == Sent(a) + Sent(b)
  {
    if b == [] {
      assert a + b == a;
    } else {
      var last := b[|b| - 1];
      var front := b[..|b| - 1];
      assert (a + b)[..|a + b| - 1] == a + front;
      SentAppend(a, front);
    }
  }

  /** At most one POST per record: the wire never sees more requests than the trace has outcomes. */
  lemma {:induction false} AtMostOneSendPerRecord(trace: seq<RecordOutcome>)
    ensures |Sent(trace)| <= |trace|
  {
    if trace != [] {
      AtMostOneSendPerRecord(trace[..|trace| - 1]);
    }
  }

  /** Handling a batch is handling its parts one after the other. */
  lemma DispatchAppend(rt: Runtime, records: Value, a: seq<Value>, b: seq<Value>)
    ensures Dispatch(rt, records, a + b) == Dispatch(rt, records, a) + Dispatch(rt, records, b)
  {
    var whole := Dispatch(rt, records, a + b);
    var parts := Dispatch(rt, records, a) + Dispatch(rt, records, b);
    assert |whole| == |parts|;
    forall k | 0 <= k < |whole|
      ensures whole[k] == parts[k]
    {
      assert (a + b)[k] == if k < |a| then a[k] else b[k - |a|];
    }
  }

  /**
   * A record that fails to parse, or whose Alert_Info or awsRegion is unusable,
   * sends nothing and leaves the requests of the records before and after it
   * exactly as they would be without it.
   */
  lemma SkippedRecordSendsNothing(rt: Runtime, records: Value, before: seq<Value>, record: Value, after: seq<Value>)
    requires Route(rt.loads, records, record).Skip?
    ensures Sent(Dispatch(rt, records, before + [record] + after))
            == Sent(Dispatch(rt, records, before)) + Sent(Dispatch(rt, records, after))
    ensures Sent(Dispatch(rt, records, before + [record] + after)) == Sent(Dispatch(rt, records, before + after))
  {
    var front := Dispatch(rt, records, before);
    var back := Dispatch(rt, records, after);
    var skipped := Dispatch(rt, records, [record]);
    assert Sent(skipped) == [] by {
      assert skipped[0].Skipped?;
      assert skipped[..0] == [];
    }
    calc {
      Sent(Dispatch(rt, records, before + [record] + after));
      { DispatchAppend(rt, records, before + [record], after); }
      Sent(Dispatch(rt, records, before + [record]) + back);
      { DispatchAppend(rt, records, before, [record]); }
      Sent(front + skipped + back);
      { SentAppend(front + skipped, back); SentAppend(front, skipped); }
      Sent(front) + Sent(back);
    }
    DispatchAppend(rt, records, before, after);
    SentAppend(front, back);
  }

  /** Every request of a trace comes from a Posted outcome of that trace. */
  lemma {:induction false} SentComesFromPosted(trace: seq<RecordOutcome>, request: Request)
    requires request in Sent(trace)
    ensures exists k :: 0 <= k < |trace| && trace[k].Posted? && trace[k].request == request
  {
    var front := trace[..|trace| - 1];
    if request in Sent(front) {
      SentComesFromPosted(front, request);
      var k :| 0 <= k < |front| && front[k].Posted? && front[k].request == request;
      assert trace[k] == front[k];
    } else {
      assert trace[|trace| - 1].Posted? && trace[|trace| - 1].request == request;
    }
  }

  /** Every envelope sent for a batch nests that whole batch, verbatim and the same for every record. */
  lemma EveryRequestCarriesTheWholeBatch(rt: Runtime, records: Value, items: seq<Value>, request: Request)
    requires request in Sent(Dispatch(rt, records, items))
    ensures request.body.Obj? && "Records" in request.body.fields && request.body.fields["Records"] == records
  {
    var trace := Dispatch(rt, records, items);
    SentComesFromPosted(trace, request);
    var k :| 0 <= k < |trace| && trace[k].Posted? && trace[k].request == request;
    assert trace[k] == Outcome(rt, records, items[k]);
  }

  /**
   * With the deployed endpoint table the forwarder never refuses: a record that
   * gets as far as routing is POSTed, to the URL of its tag.
   */
  lemma RoutedRecordIsPosted(rt: Runtime, records: Value, record: Value)
    requires rt.cfg.endpoints == FlowsApiEndpoints
    ensures !Outcome(rt, records, record).Unrouted?
    ensures Route(rt.loads, records, record).Routed? <==> Outcome(rt, records, record).Posted?
    ensures Outcome(rt, records, record).Posted? ==>
              Outcome(rt, records, record).request.url == FlowsApiEndpoints[Route(rt.loads, records, record).tag]
  {
    match Route(rt.loads, records, record)
    case Skip(_) =>
    case Routed(tag, payload) =>
      EveryTagHasAnEndpoint(tag);
  }

  /** How many records of `items` get as far as routing. */
  function RoutedCount(loads: string -> Option<Value>, records: Value, items: seq<Value>): nat
  {
    if items == [] then 0
    else RoutedCount(loads, records, items[..|items| - 1]) + (if Route(loads, records, items[|items| - 1]).Routed? then 1 else 0)
  }

  /** With the deployed table, the handler POSTs exactly once for each routed record and never otherwise. */
  lemma {:induction false} ProductionSendsEveryRoutedRecord(rt: Runtime, records: Value, items: seq<Value>)
    requires rt.cfg.endpoints == FlowsApiEndpoints
    ensures |Sent(Dispatch(rt, records, items))| == RoutedCount(rt.loads, records, items)
  {
    if items != [] {
      var front := items[..|items| - 1];
      var last := items[|items| - 1];
      ProductionSendsEveryRoutedRecord(rt, records, front);
      RoutedRecordIsPosted(rt, records, last);
      assert Dispatch(rt, records, items)[..|items| - 1] == Dispatch(rt, records, front);
    }
  }

  /**
   * A parsed record whose Alert_Info is a dict (or absent) and whose awsRegion is
   * not a list or dict is sent, as the envelope of its Alert_Info (or `{}`) and
   * the whole batch, to the tag of its awsRegion (or of us-east-1).
   */
  lemma ParsedRecordEnvelope(loads: string -> Option<Value>, records: Value, record: Value, message: map<string, Value>)
    requires ParseMessage(loads, record) == Success(message)
    requires "Alert_Info" in message ==> message["Alert_Info"].Obj?
    requires "Alert_Info" in message && "awsRegion" in message["Alert_Info"].fields ==>
               Hashable(message["Alert_Info"].fields["awsRegion"])
    ensures Route(loads, records, record).Routed?
    ensures "Alert_Info" !in message ==> Route(loads, records, record) == Routed("US", Envelope(EmptyObject, records))
    ensures "Alert_Info" in message ==>
              Route(loads, records, record).payload == Envelope(message["Alert_Info"], records)
  {
  }

  /** An alert that names no awsRegion is routed as us-east-1, that is to "US". */
  lemma MissingRegionRoutesToUS(loads: string -> Option<Value>, records: Value, record: Value, message: map<string, Value>)
    requires ParseMessage(loads, record) == Success(message)
    requires AlertInfo(message).Obj? && "awsRegion" !in AlertInfo(message).fields
    ensures Route(loads, records, record) == Routed("US", Envelope(AlertInfo(message), records))
  {
  }

  /** Alert_Info present but not a dict (null, a string, a list, ...) makes the record skipped, not routed. */
  lemma NonObjectAlertInfoIsSkipped(loads: string -> Option<Value>, records: Value, record: Value, message: map<string, Value>)
    requires ParseMessage(loads, record) == Success(message)
    requires "Alert_Info" in message && !message["Alert_Info"].Obj?
    ensures Route(loads, records, record) == Skip(AlertInfoNotObject)
  {
  }

  /** An event without records, or with an empty list of them, is complete with no send. */
  lemma EmptyBatchSendsNothing(rt: Runtime)
    ensures BatchOf(Obj(map[])) == Items(Arr([]), [])
    ensures BatchOf(Obj(map["Records" := Arr([])])) == Items(Arr([]), [])
    ensures Sent(Dispatch(rt, Arr([]), [])) == []
  {
  }

  /** An event that is not a dict fails before the loop, with Python's AttributeError text. */
  lemma EventNotADict()
    ensures BatchOf(Arr([])) == Failed(NoAttributeGet("list"))
    ensures BatchOf(Null) == Failed(NoAttributeGet("NoneType"))
  {
  }

  /** Records that is null, a boolean or a number cannot be iterated: the only other error summary. */
  lemma RecordsNotIterable(records: Value)
    requires records.Null? || records.Bool? || records.Num?
    ensures BatchOf(Obj(map["Records" := records])) == Failed(NotIterable(TypeName(records)))
  {
    var event := Obj(map["Records" := records]);
    assert RecordsOf(event.fields) == records;
  }

  /** The SNS record shape `{"Sns": {"Message": text}}`. */
  function SnsRecord(text: string): Value
  {
    Obj(map["Sns" := Obj(map["Message" := Str(text)])])
  }

  /** An alert from eu-west-1 goes to EMEA; with no EMEA URL configured the forwarder refuses and nothing is POSTed. */
  lemma EuWestWithoutEndpoint(rt: Runtime, records: Value, text: string)
    requires rt.loads(text) == Some(Obj(map["Alert_Info" := Obj(map["awsRegion" := Str("eu-west-1"), "detail" := Str("x")])]))
    requires "EMEA" !in rt.cfg.endpoints || rt.cfg.endpoints["EMEA"] == ""
    ensures Outcome(rt, records, SnsRecord(text)) == Unrouted("EMEA")
  {
    var alertInfo := Obj(map["awsRegion" := Str("eu-west-1"), "detail" := Str("x")]);
    assert SnsMessage(SnsRecord(text)) == Some(Str(text));
    assert ParseMessage(rt.loads, SnsRecord(text)) == Success(map["Alert_Info" := alertInfo]);
    assert Route(rt.loads, records, SnsRecord(text)) == Routed("EMEA", Envelope(alertInfo, records));
  }

  /** An alert from us-west-2 goes to the deployed US URL and succeeds when the endpoint answers 200. */
  lemma UsWestAnswered200(rt: Runtime, records: Value, text: string)
    requires rt.cfg.endpoints == FlowsApiEndpoints
    requires rt.loads(text) == Some(Obj(map["Alert_Info" := Obj(map["awsRegion" := Str("us-west-2")])]))
    requires forall request :: rt.post(request) == Answered(200)
    ensures Outcome(rt, records, SnsRecord(text)).Posted?
    ensures Outcome(rt, records, SnsRecord(text)).ok
    ensures Outcome(rt, records, SnsRecord(text)).request.url == FlowsApiEndpoints["US"]
  {
    var alertInfo := Obj(map["awsRegion" := Str("us-west-2")]);
    assert SnsMessage(SnsRecord(text)) == Some(Str(text));
    assert ParseMessage(rt.loads, SnsRecord(text)) == Success(map["Alert_Info" := alertInfo]);
    assert Route(rt.loads, records, SnsRecord(text)) == Routed("US", Envelope(alertInfo, records));
    EveryTagHasAnEndpoint("US");
  }
}
