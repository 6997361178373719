/**
  Unsent event polling (`getUnsentEvents`): the `xsd:events` element of the reply
  lists `event` elements, each decoded into an `Event` with a nested source.
  The parser merges attributes into their element and keeps an element's text
  under the key `value`.
*/
module GetUnsentEvents {
  import opened Wrappers
  import opened Tree
  import opened Decoders

  /** Where an event was recorded: an optional text and a postcode. */
  datatype Source = Source(value: Option<string>, zip: string)

  datatype Event = Event(
    id: string,
    date: string,
    code: string,
    stateCode: string,
    source: Source,
    barcode: string)

  const NotObject := "expected object"

  /** `hasOwnProperty`: JavaScript's `in` on an object node; an array has neither `value` nor `event`. */
  function HasOwnProperty(obj: Node, prop: string): (r: bool)
    requires !obj.Str?
    ensures r <==> obj.Obj? && prop in obj.fields
  {
    match obj
    case Obj(fields) => prop in fields
    case Arr(_) => false
  }

  /**
    `source.value`: the event source must be an object; its `value` is kept when it
    is text and is undefined otherwise.
  */
  function SourceValueDecoder(n: Node): (r: Result<Option<string>>)
    ensures r.Err? <==> n.Str?
    ensures r.Err? ==> r.msg == NotObject
    ensures forall v :: r == Ok(Some(v)) <==> "value" in Keys(n) && n.fields["value"] == Str(v)
  {
    if n.Str? then Err(NotObject)
    else if HasOwnProperty(n, "value") && n.fields["value"].Str? then Ok(Some(n.fields["value"].text))
    else Ok(None)
  }

  /** The nested `source` record: its value, then `eventSource/zip`, which must be text. */
  function SourceDecoder(n: Node): Result<Source> {
    var value :- Field("eventSource", SourceValueDecoder, n);
    var zip :- At([Key("eventSource"), Key("zip")], AsString, n);
    Ok(Source(value, zip))
  }

  /** `eventDecoder`: the event's fields in declaration order. */
  function EventDecoder(n: Node): Result<Event> {
    var id :- Field("id", AsString, n);
    var date :- Field("eventDate", AsString, n);
    var code :- Field("eventCode", AsString, n);
    var stateCode :- Field("stateCode", AsString, n);
    var source :- SourceDecoder(n);
    var barcode :- Field("packetCode", AsString, n);
    Ok(Event(id, date, code, stateCode, source, barcode))
  }

  /** Key `key` of `n` holds text. */
  predicate TextAt(n: Node, key: string) {
    key in Keys(n) && n.fields[key].Str?
  }

  /** An event element: the five text fields, and an event source object with a text `zip`. */
  predicate IsEvent(n: Node) {
    && TextAt(n, "id") && TextAt(n, "eventDate") && TextAt(n, "eventCode")
    && TextAt(n, "stateCode") && TextAt(n, "packetCode")
    && "eventSource" in Keys(n) && TextAt(n.fields["eventSource"], "zip")
  }

  /** The event an event element describes, each field read from its source key. */
  function EventFrom(n: Node): Event
    requires IsEvent(n)
  {
    var source := n.fields["eventSource"];
    Event(
      n.fields["id"].text, n.fields["eventDate"].text, n.fields["eventCode"].text,
      n.fields["stateCode"].text,
      Source(
        if TextAt(source, "value") then Some(source.fields["value"].text) else None,
        source.fields["zip"].text),
      n.fields["packetCode"].text)
  }

  /** An event decodes exactly when it is an event element, to the event read from its keys. */
  lemma EventDecoded(n: Node)
    ensures EventDecoder(n).Ok? <==> IsEvent(n)
    ensures EventDecoder(n).Ok? ==> EventDecoder(n).value == EventFrom(n)
  {
    if "eventSource" in Keys(n) {
      assert At([Key("eventSource"), Key("zip")], AsString, n) ==
        Field("zip", AsString, n.fields["eventSource"]);
    }
  }

  /** An event whose source has no `zip` is rejected, even though the source's `value` is optional. */
  lemma ZipRequired(n: Node)
    requires "eventSource" in Keys(n) && "zip" !in Keys(n.fields["eventSource"])
    ensures EventDecoder(n).Err?
  {
    EventDecoded(n);
  }

  /**
    The `xsd:events` element: it must be an object; without an `event` key there are
    no events, otherwise `event` is decoded as an array of events.
  */
  function EventsBody(n: Node): Result<seq<Event>> {
    if n.Str? then Err(NotObject)
    else if HasOwnProperty(n, "event") then ArrayOf(EventDecoder, n.fields["event"])
    else Ok([])
  }

  /** `getUnsentEvents` after the transport. */
  function GetUnsentEvents(reply: Reply): (r: Result<seq<Event>>)
    ensures !reply.ok ==> r == Err(reply.statusText)
  {
    if !reply.ok then Err(reply.statusText)
    else Field("xsd:events", EventsBody, reply.body)
  }

  /**
    On a successful status: a missing or text `xsd:events` fails; one without an
    `event` key lists nothing; otherwise the events follow the `event` array one for
    one, in order, each read from its element.
  */
  lemma EventsListed(reply: Reply)
    requires reply.ok
    ensures "xsd:events" !in Keys(reply.body) ==> GetUnsentEvents(reply).Err?
    ensures "xsd:events" in Keys(reply.body) ==>
      var events := reply.body.fields["xsd:events"];
      && (events.Str? ==> GetUnsentEvents(reply) == Err(NotObject))
      && ("event" !in Keys(events) && !events.Str? ==> GetUnsentEvents(reply) == Ok([]))
      && ("event" in Keys(events) ==>
           (GetUnsentEvents(reply).Ok? <==>
              events.fields["event"].Arr? &&
              forall i | 0 <= i < |events.fields["event"].items| :: IsEvent(events.fields["event"].items[i])))
      && ("event" in Keys(events) && GetUnsentEvents(reply).Ok? ==>
           var items := events.fields["event"].items;
           |GetUnsentEvents(reply).value| == |items| &&
           forall i | 0 <= i < |items| :: IsEvent(items[i]) && GetUnsentEvents(reply).value[i] == EventFrom(items[i]))
  {
    if "xsd:events" in Keys(reply.body) {
      var events := reply.body.fields["xsd:events"];
      if "event" in Keys(events) && events.fields["event"].Arr? {
        var items := events.fields["event"].items;
        forall i | 0 <= i < |items| {
          EventDecoded(items[i]);
        }
      }
    }
  }

  /** A single unsent event, which the parser leaves as a bare element rather than an array, is rejected. */
  lemma LoneEventRejected(reply: Reply, events: map<string, Node>, event: map<string, Node>)
    requires reply.ok && reply.body == Obj(map["xsd:events" := Obj(events)])
    requires "event" in events && events["event"] == Obj(event)
    ensures GetUnsentEvents(reply) == Err(NotArray)
  {
  }
}
