/**
  Tracking lookup (`getTracking`): each row of the tracking table becomes a
  `TrackEvent` taken from its first three cells.
*/
module GetTracking {
  import opened Wrappers
  import opened Tree
  import opened Decoders

  datatype TrackEvent = TrackEvent(name: string, date: string, location: string)

  /** The cells of a row: name, date and location from `td[0]`, `td[1]` and `td[2]`. */
  function Cells(n: Node): Result<TrackEvent> {
    var name :- At([Index(0)], AsString, n);
    var date :- At([Index(1)], AsString, n);
    var location :- At([Index(2)], AsString, n);
    Ok(TrackEvent(name, date, location))
  }

  /** The row decoder (named `locationDecoder` in the source): the `td` field's cells. */
  function TrackEventDecoder(n: Node): Result<TrackEvent> {
    Field("td", Cells, n)
  }

  /** A table row whose `td` holds at least three cells, the first three of them text. */
  predicate IsTrackRow(n: Node) {
    && "td" in Keys(n)
    && var td := n.fields["td"];
    && td.Arr? && |td.items| >= 3
    && td.items[0].Str? && td.items[1].Str? && td.items[2].Str?
  }

  /**
    A row decodes exactly when it has a `td` array of at least three text cells;
    the event is then the text of the first three cells.
  */
  lemma TrackEventDecoded(n: Node)
    ensures TrackEventDecoder(n).Ok? <==> IsTrackRow(n)
    ensures TrackEventDecoder(n).Ok? ==>
      var cells := n.fields["td"].items;
      TrackEventDecoder(n).value == TrackEvent(cells[0].text, cells[1].text, cells[2].text)
  {
  }

  /** Cells after the third never change the decoded event. */
  lemma {:induction false} ExtraCellsIgnored(cells: seq<Node>, extra: seq<Node>)
    requires |cells| >= 3
    ensures Cells(Arr(cells + extra)) == Cells(Arr(cells))
  {
    var all := cells + extra;
    assert all[0] == cells[0] && all[1] == cells[1] && all[2] == cells[2];
  }

  /** The path of the table rows in the parsed page. */
  const RowsPath := [Key("table"), Key("tbody"), Key("tr")]

  /**
    `getTracking` after the transport: a failed status is rejected with its text;
    otherwise every row at `table/tbody/tr` is decoded.
  */
  function GetTracking(reply: Reply): (r: Result<seq<TrackEvent>>)
    ensures !reply.ok ==> r == Err(reply.statusText)
  {
    if !reply.ok then Err(reply.statusText)
    else At(RowsPath, n => ArrayOf(TrackEventDecoder, n), reply.body)
  }

  /**
    On a successful status the events follow the rows one for one, in order; the
    first row that is not a track row makes the whole lookup fail with its error.
  */
  lemma EventsFollowRows(reply: Reply)
    requires reply.ok
    ensures GetTracking(reply).Ok? <==>
      Walk(RowsPath, reply.body).Ok? && Walk(RowsPath, reply.body).value.Arr? &&
      forall i | 0 <= i < |Walk(RowsPath, reply.body).value.items| ::
        IsTrackRow(Walk(RowsPath, reply.body).value.items[i])
    ensures GetTracking(reply).Ok? ==>
      var rows := Walk(RowsPath, reply.body).value.items;
      |GetTracking(reply).value| == |rows| &&
      forall i | 0 <= i < |rows| :: TrackEventDecoder(rows[i]) == Ok(GetTracking(reply).value[i])
    ensures GetTracking(reply).Err? && Walk(RowsPath, reply.body).Ok? && Walk(RowsPath, reply.body).value.Arr? ==>
      var rows := Walk(RowsPath, reply.body).value.items;
      exists i | 0 <= i < |rows| ::
        TrackEventDecoder(rows[i]) == Err(GetTracking(reply).msg) && forall j | 0 <= j < i :: IsTrackRow(rows[j])
  {
    match Walk(RowsPath, reply.body)
    case Err(_) =>
    case Ok(table) =>
      if table.Arr? {
        forall i | 0 <= i < |table.items| {
          TrackEventDecoded(table.items[i]);
        }
      }
  }

  /** A page with a single row, which the parser leaves as a bare element, is rejected. */
  lemma LoneRowRejected(reply: Reply, row: map<string, Node>)
    requires reply.ok && Walk(RowsPath, reply.body) == Ok(Obj(row))
    ensures GetTracking(reply) == Err(NotArray)
  {
  }
}
