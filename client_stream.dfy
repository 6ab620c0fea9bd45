/** Subscriptions (client/client.go, `clientStream`): the request that opens an event stream
    and the decoding of each server-sent chunk into one timestamped event. `json.Unmarshal`,
    `time.Parse` and `time.Now` are not part of this model: they are passed in. */
module ClientStream {
  import opened Wrappers
  import opened Json
  import opened Restconf
  import opened ClientAddress
  import ClientWire

  newtype byte = x: int | 0 <= x < 256

  /** An instant as `time.Parse` or `time.Now` gives it. */
  type Time = int

  datatype StreamRequest = StreamRequest(url: string, query: string, accept: string)

  /** The subscription request: always under the data resource, with the simplified-compliance
      marker (`q.Add(param, "")` encodes as "simplified=") only in simplified mode. The `params`
      argument of `clientStream` is never used. */
  function StreamRequestFor(a: Address, c: ComplianceOptions, p: Path): (r: StreamRequest)
    ensures r.query != "" <==> c == Simplified
    ensures r.query != "" ==> r.query == SimplifiedComplianceParam + "="
    ensures r.accept == TextStreamMimeType
    ensures a.data <= r.url
    ensures r.url == a.data + ClientWire.Target(p)
    ensures !ClientWire.UsesOperations(c, p) ==> r.url == ClientWire.RequestUrl(a, c, p, "")
  {
    StreamRequest(
      a.data + ClientWire.Target(p),
      if c == Simplified then SimplifiedComplianceParam + "=" else "",
      TextStreamMimeType)
  }

  /** Streams never go to the operations resource, whatever the target and compliance. */
  lemma StreamNeverUsesOperations(a: Address, c: ComplianceOptions, p: Path)
    requires DerivedFromBase(a)
    ensures !(a.operations <= StreamRequestFor(a, c, p).url)
  {
    var u := StreamRequestFor(a, c, p).url;
    var n := |a.base|;
    assert u[n] == a.data[n] == 'd';
    assert a.operations[n] == 'o';
  }

  /** What a subscriber receives: decoded data or an error node. */
  datatype EventNode = Data(doc: Value) | ErrorNode(error: Error)

  datatype StreamEvent = StreamEvent(timestamp: Time, node: EventNode)

  /** The envelope this decoder expects: an `ietf-restconf:notification` object holding
      `eventTime` and the event under the literal key `event`. Section 6.4 of RFC 8040 keys the
      event by its module-qualified notification name instead. */
  const NotificationKey := "ietf-restconf:notification"
  const EventKey := "event"
  const EventTimeKey := "eventTime"

  const MissingWrapper := "SSE message missing ietf-restconf:notification wrapper"
  const MissingEvent := "SSE message missing event payload"
  const MissingEventTime := "SSE message missing eventTime"

  function WrongTimeFormat(tstr: string): string
  {
    "eventTime in wrong format '" + tstr + "'"
  }

  /** The notification wrapper object, if the decoded chunk has one. */
  function Wrapper(vals: map<string, Value>): map<string, Value>
    requires HasObject(vals, NotificationKey)
  {
    vals[NotificationKey].fields
  }

  /** The decoded chunk is a complete envelope whose event time parses. */
  predicate IsNotification(vals: map<string, Value>, parseTime: string -> Option<Time>)
  {
    && HasObject(vals, NotificationKey)
    && HasObject(Wrapper(vals), EventKey)
    && HasString(Wrapper(vals), EventTimeKey)
    && parseTime(Wrapper(vals)[EventTimeKey].s).Some?
  }

  /** The event of one chunk. `unmarshal` is `json.Unmarshal` into a map (its error text on
      failure), `now` the receipt time. With the notification wrapper enabled the checks run in
      the order of the source: parse, wrapper, event, eventTime, eventTime format. */
  function DecodeChunk(c: ComplianceOptions, chunk: seq<byte>, now: Time,
                       unmarshal: seq<byte> -> Result<map<string, Value>, string>,
                       parseTime: string -> Option<Time>): (e: StreamEvent)
    ensures unmarshal(chunk).Failure? ==> e == StreamEvent(now, ErrorNode(Malformed(unmarshal(chunk).error)))
    ensures unmarshal(chunk).Success? && c.disableNotificationWrapper ==>
              e == StreamEvent(now, Data(Object(unmarshal(chunk).value)))
    ensures unmarshal(chunk).Success? && !c.disableNotificationWrapper ==>
              (e.node.Data? <==> IsNotification(unmarshal(chunk).value, parseTime))
    ensures unmarshal(chunk).Success? && !c.disableNotificationWrapper
            && IsNotification(unmarshal(chunk).value, parseTime) ==>
              var payload := Wrapper(unmarshal(chunk).value);
              e == StreamEvent(parseTime(payload[EventTimeKey].s).value, Data(payload[EventKey]))
    ensures unmarshal(chunk).Success? && !c.disableNotificationWrapper
            && HasObject(unmarshal(chunk).value, NotificationKey)
            && HasObject(Wrapper(unmarshal(chunk).value), EventKey)
            && HasString(Wrapper(unmarshal(chunk).value), EventTimeKey)
            && parseTime(Wrapper(unmarshal(chunk).value)[EventTimeKey].s).None? ==>
              e == StreamEvent(now, ErrorNode(Malformed(WrongTimeFormat(Wrapper(unmarshal(chunk).value)[EventTimeKey].s))))
    ensures e.node.ErrorNode? ==> e.timestamp == now && e.node.error.Malformed?
  {
    match unmarshal(chunk)
    case Failure(reason) => StreamEvent(now, ErrorNode(Malformed(reason)))
    case Success(vals) =>
      if c.disableNotificationWrapper then StreamEvent(now, Data(Object(vals)))
      else if !HasObject(vals, NotificationKey) then StreamEvent(now, ErrorNode(Malformed(MissingWrapper)))
      else
        var payload := Wrapper(vals);
        if !HasObject(payload, EventKey) then StreamEvent(now, ErrorNode(Malformed(MissingEvent)))
        else if !HasString(payload, EventTimeKey) then StreamEvent(now, ErrorNode(Malformed(MissingEventTime)))
        else
          var tstr := payload[EventTimeKey].s;
          match parseTime(tstr)
          case None => StreamEvent(now, ErrorNode(Malformed(WrongTimeFormat(tstr))))
          case Some(t) => StreamEvent(t, Data(payload[EventKey]))
  }

  /** The envelope a server wraps an event in. */
  function Envelope(eventTime: string, body: map<string, Value>): map<string, Value>
  {
    map[NotificationKey := Object(map[EventTimeKey := String(eventTime), EventKey := Object(body)])]
  }

  /** Round trip: a chunk holding a well-formed envelope decodes to its event body, stamped
      with the envelope's event time rather than the receipt time. */
  lemma EnvelopeRoundTrip(c: ComplianceOptions, chunk: seq<byte>, now: Time,
                          unmarshal: seq<byte> -> Result<map<string, Value>, string>,
                          parseTime: string -> Option<Time>, eventTime: string, t: Time,
                          body: map<string, Value>)
    requires !c.disableNotificationWrapper
    requires unmarshal(chunk) == Success(Envelope(eventTime, body))
    requires parseTime(eventTime) == Some(t)
    ensures DecodeChunk(c, chunk, now, unmarshal, parseTime) == StreamEvent(t, Data(Object(body)))
  {
    var vals := Envelope(eventTime, body);
    assert HasObject(vals, NotificationKey);
    var payload := Wrapper(vals);
    assert payload == map[EventTimeKey := String(eventTime), EventKey := Object(body)];
    assert payload[EventKey] == Object(body);
    assert payload[EventTimeKey] == String(eventTime);
  }

  /** The reason an enveloped chunk is rejected is the first check it fails. */
  lemma DecodeErrorOrder(c: ComplianceOptions, chunk: seq<byte>, now: Time,
                         unmarshal: seq<byte> -> Result<map<string, Value>, string>,
                         parseTime: string -> Option<Time>)
    requires !c.disableNotificationWrapper && unmarshal(chunk).Success?
    ensures var vals := unmarshal(chunk).value;
            var e := DecodeChunk(c, chunk, now, unmarshal, parseTime);
            && (e.node == ErrorNode(Malformed(MissingWrapper)) <==> !HasObject(vals, NotificationKey))
            && (e.node == ErrorNode(Malformed(MissingEvent)) <==>
                  HasObject(vals, NotificationKey) && !HasObject(Wrapper(vals), EventKey))
            && (e.node == ErrorNode(Malformed(MissingEventTime)) <==>
                  HasObject(vals, NotificationKey) && HasObject(Wrapper(vals), EventKey)
                  && !HasString(Wrapper(vals), EventTimeKey))
  {
    var vals := unmarshal(chunk).value;
    if HasObject(vals, NotificationKey) && HasObject(Wrapper(vals), EventKey) && HasString(Wrapper(vals), EventTimeKey) {
      var tstr := Wrapper(vals)[EventTimeKey].s;
      assert WrongTimeFormat(tstr)[0] == 'e';
      assert MissingWrapper[0] == MissingEvent[0] == MissingEventTime[0] == 'S';
    }
  }

  /** The shape of the test the decoder must reject: with the wrapper enabled, a chunk without
      it yields exactly one error event, never nothing. */
  lemma UnexpectedShapeRejected(chunk: seq<byte>, now: Time,
                                unmarshal: seq<byte> -> Result<map<string, Value>, string>,
                                parseTime: string -> Option<Time>)
    requires unmarshal(chunk) == Success(map["unexpected" := String("shape")])
    ensures DecodeChunk(Strict, chunk, now, unmarshal, parseTime)
            == StreamEvent(now, ErrorNode(Malformed(MissingWrapper)))
  {
    assert NotificationKey != "unexpected";
  }

  /** A notification shaped as in section 6.4 of RFC 8040, its event under the module-qualified
      name `qualified` rather than `event`, is rejected as missing its event payload. */
  lemma StandardNotificationRejected(c: ComplianceOptions, chunk: seq<byte>, now: Time,
                                     unmarshal: seq<byte> -> Result<map<string, Value>, string>,
                                     parseTime: string -> Option<Time>, eventTime: string,
                                     qualified: string, body: map<string, Value>)
    requires !c.disableNotificationWrapper
    requires qualified != EventKey
    requires unmarshal(chunk) == Success(map[NotificationKey := Object(map[EventTimeKey := String(eventTime),
                                                                           qualified := Object(body)])])
    ensures DecodeChunk(c, chunk, now, unmarshal, parseTime) == StreamEvent(now, ErrorNode(Malformed(MissingEvent)))
  {
    var vals := unmarshal(chunk).value;
    assert HasObject(vals, NotificationKey);
    assert EventKey !in Wrapper(vals);
  }

  /** One chunk of the server-sent event stream with the time it was received. */
  datatype Chunk = Chunk(data: seq<byte>, receivedAt: Time)

  /** The events a subscriber receives, in order. When the HTTP exchange fails (`connect` is a
      failure, observed at `failedAt`) the only event is an error node; otherwise every chunk
      yields exactly one event, none is dropped and the order is kept. Cancellation, the
      channel and the goroutine are not part of this model. */
  method DeliverEvents(c: ComplianceOptions, connect: Result<seq<Chunk>, Error>, failedAt: Time,
                       unmarshal: seq<byte> -> Result<map<string, Value>, string>,
                       parseTime: string -> Option<Time>) returns (events: seq<StreamEvent>)
    ensures connect.Failure? ==> events == [StreamEvent(failedAt, ErrorNode(connect.error))]
    ensures connect.Success? ==> |events| == |connect.value|
    ensures connect.Success? ==> forall i :: 0 <= i < |events| ==>
              events[i] == DecodeChunk(c, connect.value[i].data, connect.value[i].receivedAt, unmarshal, parseTime)
  {
    if connect.Failure? {
      return [StreamEvent(failedAt, ErrorNode(connect.error))];
    }
    var chunks := connect.value;
    events := [];
    var i := 0;
    while i < |chunks|
      invariant 0 <= i <= |chunks|
      invariant |events| == i
      invariant forall j :: 0 <= j < i ==>
                  events[j] == DecodeChunk(c, chunks[j].data, chunks[j].receivedAt, unmarshal, parseTime)
    {
      var e := DecodeChunk(c, chunks[i].data, chunks[i].receivedAt, unmarshal, parseTime);
      events := events + [e];
      i := i + 1;
    }
  }
}
