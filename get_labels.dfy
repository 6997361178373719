/**
  Address-card labels (`getLabels`): a fixed request asking for the cards of one
  barcode as PDF in the response, and the file data read from the reply.
*/
module GetLabels {
  import opened Wrappers
  import opened Tree
  import opened Decoders
  import opened Markup

  const RequestTag := "xsd:addrcardMsgRequest"

  /** The `addrcardMsgRequest` request tree for `username`'s parcel `barcode`. */
  function LabelRequest(username: string, barcode: string): Xml {
    Envelope(RequestTag, Elem(map[], [
      ("partner", Text(username)),
      ("sendAddressCardTo", Text("response")),
      ("barcodes", Elem(map[], [("barcode", Text(barcode))])),
      ("format", Text("pdf"))]))
  }

  /**
    Reads a label request back: the username and barcode of a request tree whose
    body holds only an `addrcardMsgRequest` asking for PDF cards in the response.
  */
  function ReadLabelRequest(t: Xml): Option<(string, string)> {
    var body :- Find(t, ["soapenv:Envelope", "soapenv:Body"]);
    if !body.Elem? || |body.children| != 1 || body.children[0].0 != RequestTag then None
    else
      var request := body.children[0].1;
      var partner :- Find(request, ["partner"]);
      var username :- TextOf(partner);
      var sendTo :- Find(request, ["sendAddressCardTo"]);
      var format :- Find(request, ["format"]);
      var barcode :- Find(request, ["barcodes", "barcode"]);
      var code :- TextOf(barcode);
      if sendTo == Text("response") && format == Text("pdf") then Some((username, code)) else None
  }

  /** The request carries exactly the username and the barcode, and asks for PDF cards in the response. */
  lemma LabelRequestRoundTrip(username: string, barcode: string)
    ensures ReadLabelRequest(LabelRequest(username, barcode)) == Some((username, barcode))
    ensures Find(LabelRequest(username, barcode), ["soapenv:Envelope", "soapenv:Header"]) == Some(Text(""))
  {
    var request := Elem(map[], [
      ("partner", Text(username)),
      ("sendAddressCardTo", Text("response")),
      ("barcodes", Elem(map[], [("barcode", Text(barcode))])),
      ("format", Text("pdf"))]);
    EnvelopeShape(RequestTag, request);
    LookupFirst(request.children, "partner", 0);
    LookupFirst(request.children, "sendAddressCardTo", 1);
    LookupFirst(request.children, "barcodes", 2);
    LookupFirst(request.children, "format", 3);
    assert Find(request, ["partner"]) == Some(Text(username));
    assert Find(request, ["sendAddressCardTo"]) == Some(Text("response"));
    assert Find(request, ["format"]) == Some(Text("pdf"));
    var barcodes := Elem(map[], [("barcode", Text(barcode))]);
    assert Find(barcodes, ["barcode"]) == Some(Text(barcode));
    assert Find(request, ["barcodes", "barcode"]) == Find(barcodes, ["barcode"]);
  }

  /** Where the reply carries the card file. */
  const FileDataPath := KeyPath(["Envelope", "Body", "addrcardMsgResponse",
                                 "successAddressCards", "addressCardData", "fileData"])

  /**
    `getLabels` after the transport: a failed status is rejected with its text,
    whatever the reply holds; otherwise the text at the file data path is the result.
  */
  function GetLabels(reply: Reply): (r: Result<string>)
    ensures !reply.ok ==> r == Err(reply.statusText)
  {
    if !reply.ok then Err(reply.statusText)
    else At(FileDataPath, AsString, reply.body)
  }

  /** On a successful status the file data is the text at its path; a missing segment or a non-text node rejects. */
  lemma FileDataRead(reply: Reply)
    requires reply.ok
    ensures forall f :: GetLabels(reply) == Ok(f) <==> Walk(FileDataPath, reply.body) == Ok(Str(f))
    ensures Walk(FileDataPath, reply.body).Err? ==> GetLabels(reply) == Err(Walk(FileDataPath, reply.body).msg)
    ensures Walk(FileDataPath, reply.body).Ok? && !Walk(FileDataPath, reply.body).value.Str? ==>
      GetLabels(reply) == Err(NotString)
  {
  }
}
