/**
  Shipment creation (`createNewShipment`): the request tree built from a typed
  shipment description, the category-dependent operation tag shared by request
  and response, and the interpretation of the reply into a barcode or an error.
*/
module CreateNewShipping {
  import opened Wrappers
  import opened Tree
  import opened Decoders
  import opened Markup
  import opened Common

  datatype Category = PreSend | B2C | C2C

  /** `getMainTag`: the operation tag of a category. */
  function MainTag(category: Category): string {
    match category
    case PreSend => "preSendMsg"
    case B2C => "businessToClientMsg"
    case C2C => "clientToClientMsg"
  }

  /** The request's body element name. */
  function RequestTag(category: Category): string {
    "xsd:" + MainTag(category) + "Request"
  }

  /** The response's body element name, after the parser strips namespace prefixes. */
  function ResponseTag(category: Category): string {
    MainTag(category) + "Response"
  }

  /** The three categories have three different operation tags, and each is named as in the service. */
  lemma MainTagsDistinct(c1: Category, c2: Category)
    ensures MainTag(c1) == MainTag(c2) <==> c1 == c2
    ensures MainTag(PreSend) == "preSendMsg" && MainTag(B2C) == "businessToClientMsg"
    ensures MainTag(C2C) == "clientToClientMsg"
  {
  }

  /** The category whose request carries the body element `tag`. */
  function CategoryOfRequestTag(tag: string): (r: Option<Category>)
    ensures r.Some? ==> RequestTag(r.value) == tag
  {
    if tag == RequestTag(PreSend) then Some(PreSend)
    else if tag == RequestTag(B2C) then Some(B2C)
    else if tag == RequestTag(C2C) then Some(C2C)
    else None
  }

  /**
    Request and response name the same operation: the request element without
    its `xsd:` prefix and `Request` suffix is the response element without its
    `Response` suffix; and the request tag determines the category.
  */
  lemma SameOperation(category: Category)
    ensures RequestTag(category)[4..|RequestTag(category)| - 7] == ResponseTag(category)[..|ResponseTag(category)| - 8]
    ensures CategoryOfRequestTag(RequestTag(category)) == Some(category)
  {
    var tag := MainTag(category);
    assert RequestTag(category)[4..|RequestTag(category)| - 7] == tag;
    assert ResponseTag(category)[..|ResponseTag(category)| - 8] == tag;
  }

  datatype MainService = QH | QL | PA | PU | PK | PP

  function MainServiceCode(s: MainService): string {
    match s
    case QH => "QH" case QL => "QL" case PA => "PA"
    case PU => "PU" case PK => "PK" case PP => "PP"
  }

  function ParseMainService(code: string): (r: Option<MainService>)
    ensures r.Some? ==> MainServiceCode(r.value) == code
    ensures forall s :: code == MainServiceCode(s) ==> r == Some(s)
  {
    if code == "QH" then Some(QH) else if code == "QL" then Some(QL)
    else if code == "PA" then Some(PA) else if code == "PU" then Some(PU)
    else if code == "PK" then Some(PK) else if code == "PP" then Some(PP)
    else None
  }

  datatype AdditionalService = BP | SE | SS | BC | SF | ST | BI | GN | GM

  function AdditionalServiceCode(s: AdditionalService): string {
    match s
    case BP => "BP" case SE => "SE" case SS => "SS" case BC => "BC" case SF => "SF"
    case ST => "ST" case BI => "BI" case GN => "GN" case GM => "GM"
  }

  function ParseAdditionalService(code: string): (r: Option<AdditionalService>)
    ensures r.Some? ==> AdditionalServiceCode(r.value) == code
    ensures forall s :: code == AdditionalServiceCode(s) ==> r == Some(s)
  {
    if code == "BP" then Some(BP) else if code == "SE" then Some(SE)
    else if code == "SS" then Some(SS) else if code == "BC" then Some(BC)
    else if code == "SF" then Some(SF) else if code == "ST" then Some(ST)
    else if code == "BI" then Some(BI) else if code == "GN" then Some(GN)
    else if code == "GM" then Some(GM)
    else None
  }

  /** Weight and dimensions, each as the decimal text the serializer writes for it. */
  datatype Measures = Measures(weight: string, length: Option<string>, width: Option<string>, height: Option<string>)

  /** A postal address, or a parcel machine / post office given by its postcode. */
  datatype Address =
    | PostAddress(country: CountryCode, postcode: string, deliverypoint: string, street: string)
    | ParcelMachine(country: CountryCode, offloadPostcode: string)

  datatype Contact = Contact(
    personName: string,
    phone: Option<string>,
    mobile: Option<string>,
    email: Option<string>,
    address: Address)

  datatype NewShipmentInfo = NewShipmentInfo(
    fileId: Option<string>,
    category: Category,
    mainService: MainService,
    additionalServices: Option<seq<AdditionalService>>,
    measures: Option<Measures>,
    receiver: Contact,
    sender: Contact)

  /** An attribute that is present only when its value is defined. */
  function OptionalAttr(name: string, value: Option<string>): map<string, string> {
    match value
    case Some(v) => map[name := v]
    case None => map[]
  }

  /** A text child that is present only when its value is defined. */
  function OptionalText(name: string, value: Option<string>): seq<(string, Xml)> {
    match value
    case Some(v) => [(name, Text(v))]
    case None => []
  }

  function AddressAttrs(a: Address): map<string, string> {
    match a
    case PostAddress(country, postcode, deliverypoint, street) =>
      map["country" := CountryText(country), "postcode" := postcode,
          "deliverypoint" := deliverypoint, "street" := street]
    case ParcelMachine(country, offloadPostcode) =>
      map["country" := CountryText(country), "offloadPostcode" := offloadPostcode]
  }

  /** A contact: its fields as child elements, its address as the attributes of `address`. */
  function ContactElem(c: Contact): Xml {
    Elem(map[],
      [("person_name", Text(c.personName))]
      + OptionalText("phone", c.phone) + OptionalText("mobile", c.mobile) + OptionalText("email", c.email)
      + [("address", Elem(AddressAttrs(c.address), []))])
  }

  /** One `option` element per additional service, carrying its code as an attribute. */
  function Options(services: seq<AdditionalService>): (options: seq<Xml>)
    ensures |options| == |services|
    ensures forall i | 0 <= i < |services| ::
      options[i] == Elem(map["code" := AdditionalServiceCode(services[i])], [])
    decreases |services|
  {
    if services == [] then []
    else [Elem(map["code" := AdditionalServiceCode(services[0])], [])] + Options(services[1..])
  }

  /** `add_service`, written only for a defined, non-empty list of additional services. */
  function ServicesGroup(services: Option<seq<AdditionalService>>): seq<(string, Xml)> {
    if services.Some? && |services.value| > 0
    then [("add_service", Elem(map[], [("option", Repeated(Options(services.value)))]))]
    else []
  }

  function MeasureAttrs(m: Measures): map<string, string> {
    map["weight" := m.weight] + OptionalAttr("length", m.length)
      + OptionalAttr("width", m.width) + OptionalAttr("height", m.height)
  }

  /** `measures`, written only when measures are supplied, as attributes alone. */
  function MeasuresGroup(measures: Option<Measures>): seq<(string, Xml)> {
    match measures
    case Some(m) => [("measures", Elem(MeasureAttrs(m), []))]
    case None => []
  }

  function ItemElem(info: NewShipmentInfo): Xml {
    Elem(map["service" := MainServiceCode(info.mainService)],
      ServicesGroup(info.additionalServices) + MeasuresGroup(info.measures)
      + [("receiverAddressee", ContactElem(info.receiver)), ("returnAddressee", ContactElem(info.sender))])
  }

  /** The `xsd:<tag>Request` element: the partner and the interchange holding the one item. */
  function RequestContent(info: NewShipmentInfo, partner: string): Xml {
    Elem(map[], [
      ("partner", Text(partner)),
      ("interchange", Elem(map["msg_type" := "elsinfov1"], [
        ("header", Elem(map["sender_cd" := partner] + OptionalAttr("file_id", info.fileId), [])),
        ("item_list", Elem(map[], [("item", ItemElem(info))]))]))])
  }

  /** `generateXML`: the request tree of a shipment sent by `partner`. */
  function GenerateXml(info: NewShipmentInfo, partner: string): Xml {
    Envelope(RequestTag(info.category), RequestContent(info, partner))
  }

  // Reading a request tree back: the inverse of the builder, for every field the
  // tree keeps.

  datatype ShipmentRequest = ShipmentRequest(info: NewShipmentInfo, partner: string)

  function ReadAddress(t: Xml): Option<Address> {
    if !t.Elem? || t.children != [] then None
    else
      var countryText :- Attr(t, "country");
      var country :- ParseCountry(countryText);
      match Attr(t, "offloadPostcode")
      case Some(offloadPostcode) => Some(ParcelMachine(country, offloadPostcode))
      case None =>
        var postcode :- Attr(t, "postcode");
        var deliverypoint :- Attr(t, "deliverypoint");
        var street :- Attr(t, "street");
        Some(PostAddress(country, postcode, deliverypoint, street))
  }

  /** The text of the child called `name`, if there is one. */
  function ChildText(t: Xml, name: string): Option<string> {
    var child :- Child(t, name);
    TextOf(child)
  }

  function ReadContact(t: Xml): Option<Contact> {
    var personName :- ChildText(t, "person_name");
    var addressElem :- Child(t, "address");
    var address :- ReadAddress(addressElem);
    Some(Contact(personName, ChildText(t, "phone"), ChildText(t, "mobile"), ChildText(t, "email"), address))
  }

  function ReadOptions(options: seq<Xml>): Option<seq<AdditionalService>>
    decreases |options|
  {
    if options == [] then Some([])
    else if !options[0].Elem? || options[0].children != [] then None
    else
      var code :- Attr(options[0], "code");
      var service :- ParseAdditionalService(code);
      var rest :- ReadOptions(options[1..]);
      Some([service] + rest)
  }

  /** The additional services of an item: none when it has no `add_service`. */
  function ReadServices(item: Xml): Option<Option<seq<AdditionalService>>> {
    match Child(item, "add_service")
    case None => Some(None)
    case Some(group) =>
      if group.Elem? && |group.children| == 1 && group.children[0].0 == "option"
         && group.children[0].1.Repeated?
      then
        var services :- ReadOptions(group.children[0].1.items);
        Some(Some(services))
      else None
  }

  /** The measures of an item: none when it has no `measures`, otherwise read from attributes alone. */
  function ReadMeasures(item: Xml): Option<Option<Measures>> {
    match Child(item, "measures")
    case None => Some(None)
    case Some(m) =>
      if !m.Elem? || m.children != [] then None
      else
        var weight :- Attr(m, "weight");
        Some(Some(Measures(weight, Attr(m, "length"), Attr(m, "width"), Attr(m, "height"))))
  }

  /** The item element: the main service, the optional groups and both contacts. */
  function ReadItem(item: Xml, fileId: Option<string>, category: Category): Option<NewShipmentInfo> {
    var serviceCode :- Attr(item, "service");
    var mainService :- ParseMainService(serviceCode);
    var services :- ReadServices(item);
    var measures :- ReadMeasures(item);
    var receiverElem :- Child(item, "receiverAddressee");
    var receiver :- ReadContact(receiverElem);
    var senderElem :- Child(item, "returnAddressee");
    var sender :- ReadContact(senderElem);
    Some(NewShipmentInfo(fileId, category, mainService, services, measures, receiver, sender))
  }

  /** The content of a request element of the given category. */
  function ReadContent(request: Xml, category: Category): Option<ShipmentRequest> {
    var partner :- ChildText(request, "partner");
    var header :- Find(request, ["interchange", "header"]);
    var item :- Find(request, ["interchange", "item_list", "item"]);
    var info :- ReadItem(item, Attr(header, "file_id"), category);
    Some(ShipmentRequest(info, partner))
  }

  /** A whole request tree: an envelope whose body holds one request element of a known category. */
  function ReadShipmentRequest(t: Xml): Option<ShipmentRequest> {
    var body :- Find(t, ["soapenv:Envelope", "soapenv:Body"]);
    if !body.Elem? || |body.children| != 1 then None
    else
      var (tag, request) := body.children[0];
      var category :- CategoryOfRequestTag(tag);
      ReadContent(request, category)
  }

  lemma AddressRoundTrip(a: Address)
    ensures ReadAddress(Elem(AddressAttrs(a), [])) == Some(a)
  {
    ParseCountryText(a.country);
  }

  /**
    A contact's fields other than its address are child elements, present exactly
    when defined; the address is the attributes of a childless `address` element;
    and the contact reads back unchanged.
  */
  lemma ContactRoundTrip(c: Contact)
    ensures ChildText(ContactElem(c), "person_name") == Some(c.personName)
    ensures ChildText(ContactElem(c), "phone") == c.phone
    ensures ChildText(ContactElem(c), "mobile") == c.mobile
    ensures ChildText(ContactElem(c), "email") == c.email
    ensures Child(ContactElem(c), "address") == Some(Elem(AddressAttrs(c.address), []))
    ensures ReadContact(ContactElem(c)) == Some(c)
  {
    var cs := ContactElem(c).children;
    var p, m, e := OptionalText("phone", c.phone), OptionalText("mobile", c.mobile), OptionalText("email", c.email);
    assert cs == [("person_name", Text(c.personName))] + p + m + e + [("address", Elem(AddressAttrs(c.address), []))];
    LookupFirst(cs, "person_name", 0);
    if c.phone.Some? { LookupFirst(cs, "phone", 1); } else { LookupMissing(cs, "phone"); }
    if c.mobile.Some? { LookupFirst(cs, "mobile", 1 + |p|); } else { LookupMissing(cs, "mobile"); }
    if c.email.Some? { LookupFirst(cs, "email", 1 + |p| + |m|); } else { LookupMissing(cs, "email"); }
    LookupFirst(cs, "address", |cs| - 1);
    AddressRoundTrip(c.address);
  }

  lemma {:induction false} OptionsRoundTrip(services: seq<AdditionalService>)
    ensures ReadOptions(Options(services)) == Some(services)
    decreases |services|
  {
    if services != [] {
      var options := Options(services);
      assert options[1..] == Options(services[1..]);
      OptionsRoundTrip(services[1..]);
      assert [services[0]] + services[1..] == services;
    }
  }

  /**
    `add_service` is present exactly when the additional services are defined and
    non-empty; it then holds one `option` per service, in order, with the service
    code as its attribute, and the services read back unchanged.
  */
  lemma ServicesPlacement(info: NewShipmentInfo)
    ensures Child(ItemElem(info), "add_service").Some? <==>
      info.additionalServices.Some? && |info.additionalServices.value| > 0
    ensures Child(ItemElem(info), "add_service").Some? ==>
      var services := info.additionalServices.value;
      Child(ItemElem(info), "add_service") == Some(Elem(map[], [("option", Repeated(Options(services)))]))
    ensures ReadServices(ItemElem(info)) ==
      if info.additionalServices.Some? && |info.additionalServices.value| > 0
      then Some(info.additionalServices) else Some(None)
  {
    var cs := ItemElem(info).children;
    var sg, mg := ServicesGroup(info.additionalServices), MeasuresGroup(info.measures);
    assert cs == sg + mg + [("receiverAddressee", ContactElem(info.receiver)),
                            ("returnAddressee", ContactElem(info.sender))];
    if sg != [] {
      LookupFirst(cs, "add_service", 0);
      OptionsRoundTrip(info.additionalServices.value);
    } else {
      LookupMissing(cs, "add_service");
    }
  }

  /**
    `measures` is present exactly when measures are supplied; it is then an element
    with attributes and no children, and the measures read back unchanged.
  */
  lemma MeasuresPlacement(info: NewShipmentInfo)
    ensures Child(ItemElem(info), "measures").Some? <==> info.measures.Some?
    ensures Child(ItemElem(info), "measures").Some? ==> 
      Child(ItemElem(info), "measures").value.Elem? && Child(ItemElem(info), "measures").value.children == []
    ensures ReadMeasures(ItemElem(info)) == Some(info.measures)
  {
    var cs := ItemElem(info).children;
    var sg, mg := ServicesGroup(info.additionalServices), MeasuresGroup(info.measures);
    assert cs == sg + mg + [("receiverAddressee", ContactElem(info.receiver)),
                            ("returnAddressee", ContactElem(info.sender))];
    if info.measures.Some? {
      LookupFirst(cs, "measures", |sg|);
    } else {
      LookupMissing(cs, "measures");
    }
  }

  /** Both contacts are children of the item, the receiver as `receiverAddressee` and the sender as `returnAddressee`. */
  lemma ContactsPlacement(info: NewShipmentInfo)
    ensures Child(ItemElem(info), "receiverAddressee") == Some(ContactElem(info.receiver))
    ensures Child(ItemElem(info), "returnAddressee") == Some(ContactElem(info.sender))
  {
    var cs := ItemElem(info).children;
    var sg, mg := ServicesGroup(info.additionalServices), MeasuresGroup(info.measures);
    assert cs == sg + mg + [("receiverAddressee", ContactElem(info.receiver)),
                            ("returnAddressee", ContactElem(info.sender))];
    LookupFirst(cs, "receiverAddressee", |sg| + |mg|);
    LookupFirst(cs, "returnAddressee", |sg| + |mg| + 1);
  }

  /** The path from the envelope to the request's content. */
  function RequestPath(category: Category): seq<string> {
    ["soapenv:Envelope", "soapenv:Body", RequestTag(category)]
  }

  /** The request content: the partner element, the header and the item, reached by name. */
  lemma ContentLayout(info: NewShipmentInfo, partner: string)
    ensures ChildText(RequestContent(info, partner), "partner") == Some(partner)
    ensures Find(RequestContent(info, partner), ["interchange", "header"]) ==
      Some(Elem(map["sender_cd" := partner] + OptionalAttr("file_id", info.fileId), []))
    ensures Find(RequestContent(info, partner), ["interchange", "item_list", "item"]) == Some(ItemElem(info))
  {
    var request := RequestContent(info, partner);
    var interchange := request.children[1].1;
    var itemList := interchange.children[1].1;
    LookupFirst(request.children, "partner", 0);
    LookupFirst(request.children, "interchange", 1);
    LookupFirst(interchange.children, "header", 0);
    LookupFirst(interchange.children, "item_list", 1);
    LookupFirst(itemList.children, "item", 0);
    assert Find(request, ["interchange", "header"]) == Find(interchange, ["header"]);
    assert Find(request, ["interchange", "item_list", "item"]) == Find(itemList, ["item"]);
  }

  /**
    Where the builder puts things: the request sits under its category's tag, the
    partner is both the `partner` element and the header's `sender_cd` attribute,
    the file id is the header's `file_id` when defined, and the item is reached
    through `interchange/item_list`.
  */
  lemma RequestLayout(info: NewShipmentInfo, partner: string)
    ensures Find(GenerateXml(info, partner), RequestPath(info.category) + ["partner"]) == Some(Text(partner))
    ensures var header := Find(GenerateXml(info, partner), RequestPath(info.category) + ["interchange", "header"]);
      header.Some? && Attr(header.value, "sender_cd") == Some(partner) && Attr(header.value, "file_id") == info.fileId
    ensures Find(GenerateXml(info, partner), RequestPath(info.category) + ["interchange", "item_list", "item"]) ==
      Some(ItemElem(info))
  {
    var t := GenerateXml(info, partner);
    var request := RequestContent(info, partner);
    EnvelopeShape(RequestTag(info.category), request);
    ContentLayout(info, partner);
    LookupFirst(request.children, "partner", 0);
    FindAppend(t, RequestPath(info.category), ["partner"]);
    FindAppend(t, RequestPath(info.category), ["interchange", "header"]);
    FindAppend(t, RequestPath(info.category), ["interchange", "item_list", "item"]);
  }

  /** The services of a request as the tree keeps them: an empty list is not written, so it reads back as undefined. */
  function Normalized(info: NewShipmentInfo): NewShipmentInfo {
    if info.additionalServices.Some? && |info.additionalServices.value| > 0 then info
    else info.(additionalServices := None)
  }

  lemma ItemRoundTrip(info: NewShipmentInfo)
    ensures ReadItem(ItemElem(info), info.fileId, info.category) == Some(Normalized(info))
  {
    ServicesPlacement(info);
    MeasuresPlacement(info);
    ContactsPlacement(info);
    ContactRoundTrip(info.receiver);
    ContactRoundTrip(info.sender);
  }

  lemma ContentRoundTrip(info: NewShipmentInfo, partner: string)
    ensures ReadContent(RequestContent(info, partner), info.category) == Some(ShipmentRequest(Normalized(info), partner))
  {
    ContentLayout(info, partner);
    var header := Elem(map["sender_cd" := partner] + OptionalAttr("file_id", info.fileId), []);
    assert Attr(header, "file_id") == info.fileId;
    ItemRoundTrip(info);
  }

  /**
    The request tree keeps every field of the shipment and the partner: reading it
    back gives them unchanged, except that an empty service list comes back undefined.
  */
  lemma RequestRoundTrip(info: NewShipmentInfo, partner: string)
    ensures ReadShipmentRequest(GenerateXml(info, partner)) == Some(ShipmentRequest(Normalized(info), partner))
  {
    var request := RequestContent(info, partner);
    EnvelopeShape(RequestTag(info.category), request);
    SameOperation(info.category);
    ContentRoundTrip(info, partner);
  }

  // The reply side.

  /** The path of the response element, shared by the fault, prompt and barcode paths. */
  function MainPath(category: Category): seq<Segment> {
    [Key("Envelope"), Key("Body"), Key(ResponseTag(category))]
  }

  function FaultPath(category: Category): seq<Segment> {
    MainPath(category) + [Key("faultyPacketInfo"), Key("barcodeInfo"), Key("message")]
  }

  function PromptPath(category: Category): seq<Segment> {
    MainPath(category) + [Key("prompt")]
  }

  function BarcodePath(category: Category): seq<Segment> {
    MainPath(category) + [Key("savedPacketInfo"), Key("barcodeInfo"), Key("barcode")]
  }

  /**
    The error of a failed reply: the fault message if it is non-empty text, else the
    prompt if it is non-empty text, else the transport's status text.
  */
  function ErrorMessage(category: Category, reply: Reply): string {
    var message := At(FaultPath(category), AsString, reply.body).GetOr("");
    var prompt := At(PromptPath(category), AsString, reply.body).GetOr("");
    if |message| > 0 then message
    else if |prompt| > 0 then prompt
    else reply.statusText
  }

  /** `createNewShipment` after the transport: the new parcel's barcode, or the error to reject with. */
  function CreateNewShipment(category: Category, reply: Reply): (r: Result<string>)
    ensures !reply.ok ==> r == Err(ErrorMessage(category, reply))
  {
    if !reply.ok then Err(ErrorMessage(category, reply))
    else At(BarcodePath(category), AsString, reply.body)
  }

  /** `n` holds non-empty text at `path`. */
  predicate NonEmptyTextAt(path: seq<Segment>, n: Node) {
    Walk(path, n).Ok? && Walk(path, n).value.Str? && |Walk(path, n).value.text| > 0
  }

  /**
    The error message fallback: the first of the fault message, the prompt and the
    status text that is available wins, in that order; a missing or non-text fault
    message or prompt counts as empty.
  */
  lemma FallbackPriority(category: Category, reply: Reply)
    ensures NonEmptyTextAt(FaultPath(category), reply.body) ==>
      ErrorMessage(category, reply) == Walk(FaultPath(category), reply.body).value.text
    ensures !NonEmptyTextAt(FaultPath(category), reply.body) && NonEmptyTextAt(PromptPath(category), reply.body) ==>
      ErrorMessage(category, reply) == Walk(PromptPath(category), reply.body).value.text
    ensures !NonEmptyTextAt(FaultPath(category), reply.body) && !NonEmptyTextAt(PromptPath(category), reply.body) ==>
      ErrorMessage(category, reply) == reply.statusText
  {
  }

  /**
    On a successful status the result is the text at the barcode path under the
    category's response element; a missing segment or non-text node rejects with
    the decoder's error.
  */
  lemma BarcodeRead(category: Category, reply: Reply)
    requires reply.ok
    ensures forall b :: CreateNewShipment(category, reply) == Ok(b) <==> Walk(BarcodePath(category), reply.body) == Ok(Str(b))
    ensures Walk(BarcodePath(category), reply.body).Err? ==>
      CreateNewShipment(category, reply) == Err(Walk(BarcodePath(category), reply.body).msg)
    ensures Walk(BarcodePath(category), reply.body).Ok? && !Walk(BarcodePath(category), reply.body).value.Str? ==>
      CreateNewShipment(category, reply) == Err(NotString)
  {
  }

  /** The barcode is looked up under the response element named after the request's operation. */
  lemma BarcodeUnderResponse(category: Category, reply: Reply)
    requires reply.ok
    ensures CreateNewShipment(category, reply) ==
      At(MainPath(category), m => At([Key("savedPacketInfo"), Key("barcodeInfo"), Key("barcode")], AsString, m), reply.body)
  {
    AtAppend(MainPath(category), [Key("savedPacketInfo"), Key("barcodeInfo"), Key("barcode")], AsString, reply.body);
  }
}
