# Omniva client: marshalling core

This project models the marshalling core of a client for Omniva's parcel-delivery
web services. The core has two halves:

- **Requests.** The shipment-creation request and the address-card (label) request
  are built as trees for the markup serializer. Attributes go under an element's
  `$` key. Optional groups are left out when they are absent. Lists become
  repeated elements.
- **Replies.** Replies are parsed into a loose tree of text, mappings and arrays.
  Decoding combinators then turn that tree into typed records, or into one error
  message. These records are locations, tracking events, unsent events, a
  barcode and a label file.

Everything is pure, so the model is written as datatypes, functions and lemmas:

- `wrappers.dfy` (`Wrappers`): `Option` and `Result`. `Result` is the
  success-or-message outcome every decoder returns.
- `tree.dfy` (`Tree`): the parsed node `Str | Obj | Arr`. It also holds the reply
  an endpoint sees: status flag, status text and parsed body.
- `decoders.dfy` (`Decoders`): the jsonous combinators the endpoints use.
  - `AsString` accepts only text.
  - `Field` fails on a missing key.
  - `Walk` and `At` follow key and index paths and stop at the first segment they cannot reach.
  - `ArrayOf` and `Elements` require an array and stop at the first bad element.
  - A record built with `succeed({}).assign(...)` is a chain of `:-` steps. The
    fields are decoded in order, and the first failure is the result.
- `markup.dfy` (`Markup`): the tree given to the serializer, and the SOAP
  envelope both request builders share.
- `common.dfy` (`Common`): the `LT`/`LV`/`EE` country vocabulary.
- One module per endpoint file: `CreateNewShipping`, `GetLocations`,
  `GetUnsentEvents`, `GetTracking` and `GetLabels`. Each one models what the
  endpoint does after the transport returns: its status check, the path it
  decodes and its error. Each one also models its request tree, where it has one.

The request builders have partner readers (`ReadShipmentRequest`,
`ReadLabelRequest`). Round-trip lemmas show that the trees keep every field.
Each hand-written decoder is proved equal to an independent description of the
same record, such as a schema or an `Is...` predicate with a `...From` reading.

Two behaviours of the code are worth knowing:

- The code has no decoder that accepts either one bare element or an array. It
  passes the parsed `event`, `location` and `tr` nodes straight to `_.array`,
  and the parser (with `explicitArray: false`) collapses a lone element to a
  bare node. So a reply with exactly one event, location or tracking row fails
  to decode. The lemmas `LoneEventRejected`, `LoneLocationRejected` and
  `LoneRowRejected` state this.
- `getMainTag` sends every category other than `presend` and `b2c` to
  `clientToClientMsg`. The category type admits only `presend`, `b2c` and
  `c2c`, so the model's `Category` has exactly these three values.

## Model

| member | source | states |
|---|---|---|
| `Decoders.AsString` | src/getLocations.ts:102 | `_.string` succeeds exactly on a text node and returns its text |
| `Decoders.Field` | src/getLocations.ts:102-137 | `_.field` runs the inner decoder on the child when the key is present, and fails with a missing-field error otherwise |
| `Decoders.WalkAppend` | src/createNewShipping.ts:236-241 | `Walk` models the path-following part of `_.at`: following `mainPath` and then a suffix is the same as following the concatenated path, and a failure in the prefix is kept unchanged |
| `Decoders.AtAppend` | src/createNewShipping.ts:255-258 | `At` models `_.at` (follow the path with `Walk`, then run the decoder): `at(mainPath + suffix, d)` equals `at(mainPath, at(suffix, d))`, including error messages |
| `Decoders.AtKeysAreNestedFields` | src/getUnsentEvents.ts:51 | `at` over a path of keys is the same as the nested `field` decoders for those keys |
| `Decoders.Elements` | src/getLocations.ts:154 | array elements are decoded in order, one value per element; the result succeeds iff every element does; a failure is the error of the first failing element, and every earlier element succeeded |
| `Decoders.ArrayOf` | src/getTracking.ts:38 | `_.array` rejects anything that is not an array, and otherwise decodes its elements |
| `Common.ParseCountry` | src/common.ts:9 | text maps to a country code exactly for `LT`, `LV` and `EE`, and the code's text is the input |
| `Common.ParseCountryText` | src/common.ts:9 | parsing the text of a country code gives the code back |
| `GetLocations.TypeDecoder` | src/getLocations.ts:104-116 | `'0'` decodes to parcel machine and `'1'` to post office; every other node fails with `expected 1 or 0` |
| `GetLocations.CountryDecoder` | src/getLocations.ts:117-127 | `a0_name` succeeds exactly for `LT`, `LV` and `EE`, returning that same code; everything else fails with `expected LT, LV, or EE` |
| `GetLocations.FirstProblemNone` | src/getLocations.ts:101-137 | a schema has no first failing field exactly when none of its fields fails |
| `GetLocations.LocationDecoderMatchesSchema` | src/getLocations.ts:101-137 | `LocationDecoder` models `locationDecoder`; it gives the record read from the fixed source keys (`id`←`zip`, `county`←`a1_name` … `apartment`←`a8_name`, coordinates unchanged) when all fields are acceptable; otherwise it fails with the error of the first bad field in declaration order |
| `GetLocations.LocationDecoded` | src/getLocations.ts:128-137 | a `Location` is produced exactly when all fourteen field decoders succeed (every field present, text, and within its vocabulary), and it is the record read from the keys |
| `GetLocations.GetLocations` | src/getLocations.ts:142 | a non-ok status is rejected with the status text before any decoding |
| `GetLocations.LocationsListed` | src/getLocations.ts:154-161 | on an ok status the list has the same length and order as the array at `locations/location`, each record read from its element; a missing or non-array node, or any bad element, fails the whole decode |
| `GetLocations.LoneLocationRejected` | src/getLocations.ts:148-154 | a single location, collapsed by the parser to a bare element, is rejected as not an array |
| `GetTracking.TrackEventDecoded` | src/getTracking.ts:13-19 | `TrackEventDecoder` models `locationDecoder` of this file, with `Cells` for its inner record: a row decodes exactly when its `td` is an array of at least three cells whose first three cells are text; name, date and location are `td[0]`, `td[1]` and `td[2]` |
| `GetTracking.ExtraCellsIgnored` | src/getTracking.ts:16-18 | cells after index 2 never change the decoded event |
| `GetTracking.GetTracking` | src/getTracking.ts:26 | a non-ok status is rejected with the status text |
| `GetTracking.EventsFollowRows` | src/getTracking.ts:38-45 | on an ok status the events match the rows at `table/tbody/tr` one for one and in order; a failure is the error of the first bad row |
| `GetTracking.LoneRowRejected` | src/getTracking.ts:32-38 | a single row, collapsed by the parser to a bare element, is rejected as not an array |
| `GetUnsentEvents.HasOwnProperty` | src/getUnsentEvents.ts:25-28 | `hasOwnProperty(obj, p)` holds exactly when `obj` is a mapping with key `p` |
| `GetUnsentEvents.SourceValueDecoder` | src/getUnsentEvents.ts:35-50 | `source.value` fails with `expected object` exactly when `eventSource` is not an object; it is `value`'s text when `value` holds text, and undefined otherwise |
| `GetUnsentEvents.EventDecoded` | src/getUnsentEvents.ts:30-53 | `EventDecoder` models `eventDecoder`, with `SourceDecoder` for its `source` record: an event decodes exactly when `id`, `eventDate`, `eventCode`, `stateCode` and `packetCode` are text and `eventSource` is an object with a text `zip`; the event is read from those keys |
| `GetUnsentEvents.ZipRequired` | src/getUnsentEvents.ts:51 | an event whose source has no `zip` fails, although the source's `value` is optional |
| `GetUnsentEvents.GetUnsentEvents` | src/getUnsentEvents.ts:69 | a non-ok status is rejected with the status text |
| `GetUnsentEvents.EventsListed` | src/getUnsentEvents.ts:81-95 | `EventsBody` models the inline decoder of lines 83-89: a missing `xsd:events` fails; a text one fails with `expected object`; one without `event` gives no events; otherwise the events match the `event` array one for one and in order |
| `GetUnsentEvents.LoneEventRejected` | src/getUnsentEvents.ts:77-87 | a single event, collapsed by the parser to a bare element, is rejected as not an array |
| `Markup.EnvelopeShape` | src/createNewShipping.ts:167-174 | `Envelope` models the `soapenv:Envelope` wrapper shared with src/getLabels.ts:20-26: the envelope has an empty `Header` and a `Body` that holds only the request element, under its tag |
| `GetLabels.LabelRequestRoundTrip` | src/getLabels.ts:19-35 | `LabelRequest` models the request body built here: the label request reads back as exactly the username (`partner`) and the barcode (`barcodes/barcode`), asks for `sendAddressCardTo` = `response` and `format` = `pdf`, and has an empty header |
| `GetLabels.GetLabels` | src/getLabels.ts:51 | a non-ok status is rejected with the status text, whatever the body holds |
| `GetLabels.FileDataRead` | src/getLabels.ts:53-72 | on an ok status the result is the text at `Envelope/Body/addrcardMsgResponse/successAddressCards/addressCardData/fileData`; a missing segment or non-text node rejects with the decoder's error |
| `CreateNewShipping.MainTagsDistinct` | src/createNewShipping.ts:15-20 | `MainTag` models `getMainTag`: `presend`→`preSendMsg`, `b2c`→`businessToClientMsg`, `c2c`→`clientToClientMsg`, and the three tags are distinct |
| `CreateNewShipping.CategoryOfRequestTag` | src/createNewShipping.ts:174 | a body element name determines the category whose request carries it |
| `CreateNewShipping.SameOperation` | src/createNewShipping.ts:236 | the request element of line 174 without `xsd:` and `Request` equals the response element `<tag>Response` without `Response`, so both name the same operation; the request tag gives back the category |
| `CreateNewShipping.ParseMainService` | src/createNewShipping.ts:22 | the main service codes are read back exactly |
| `CreateNewShipping.ParseAdditionalService` | src/createNewShipping.ts:23 | the additional service codes are read back exactly |
| `CreateNewShipping.Options` | src/createNewShipping.ts:186 | one `option` per additional service, in input order, each with the service code as its `code` attribute |
| `CreateNewShipping.OptionsRoundTrip` | src/createNewShipping.ts:186 | the `option` list reads back as the original services |
| `CreateNewShipping.ServicesPlacement` | src/createNewShipping.ts:183-189 | `add_service` is present iff the additional services are defined and non-empty; it then holds exactly the `option` list of those services |
| `CreateNewShipping.MeasuresPlacement` | src/createNewShipping.ts:191 | `measures` is present iff measures were supplied; it is then a childless element whose attributes read back as the measures |
| `CreateNewShipping.AddressRoundTrip` | src/createNewShipping.ts:195 | an address rendered as attributes reads back unchanged, whether postal or parcel-machine |
| `CreateNewShipping.ContactRoundTrip` | src/createNewShipping.ts:193-201 | contact fields other than `address` are child text elements, present exactly when defined; `address` is a childless element carrying the address as attributes; the contact reads back unchanged |
| `CreateNewShipping.ContactsPlacement` | src/createNewShipping.ts:193-201 | the receiver is rendered as `receiverAddressee` and the sender as `returnAddressee` |
| `CreateNewShipping.ContentLayout` | src/createNewShipping.ts:175-180 | the request content holds the partner text, the header with `sender_cd` and optional `file_id`, and the item under `interchange/item_list` |
| `CreateNewShipping.RequestLayout` | src/createNewShipping.ts:174-178 | under `xsd:<tag>Request` the partner is both the `partner` element and the header's `sender_cd` attribute, and `file_id` is present exactly when defined |
| `CreateNewShipping.ItemRoundTrip` | src/createNewShipping.ts:180-202 | the item reads back as the main service, the optional groups and both contacts |
| `CreateNewShipping.ContentRoundTrip` | src/createNewShipping.ts:174-205 | the request content reads back as the shipment and the partner |
| `CreateNewShipping.RequestRoundTrip` | src/createNewShipping.ts:156-208 | `GenerateXml` models `generateXML` and keeps every field: reading the tree back gives the shipment and the partner unchanged, except that an empty service list comes back undefined |
| `CreateNewShipping.CreateNewShipment` | src/createNewShipping.ts:240-253 | a non-ok reply is rejected with the fallback error message |
| `CreateNewShipping.FallbackPriority` | src/createNewShipping.ts:240-252 | `ErrorMessage` models the message chosen in lines 241-250: the error is the fault `message` if it is non-empty text, else `prompt` if it is non-empty text, else the transport status text |
| `CreateNewShipping.BarcodeRead` | src/createNewShipping.ts:255-267 | on an ok reply the result is the text at `…/savedPacketInfo/barcodeInfo/barcode`; a missing segment or non-text node rejects with the decoder's error |
| `CreateNewShipping.BarcodeUnderResponse` | src/createNewShipping.ts:236-258 | the barcode is read inside the response element named after the request's operation |

## Left out

- HTTP transport is not modelled: `fetch`, URLs (`getEventUrl`, `FULL_URL`), headers and timeouts. An endpoint receives the reply as its status flag, status text and parsed tree.
- `getBasicAuth` (src/common.ts:1-7) is not modelled. It is a wrapper over the platform's base64 encoder.
- `console.log` and the `async`/`Promise` plumbing are not modelled. A rejection is modelled as `Err`.
- xml2js parsing and serializing are not modelled, and neither are their options. The decoders take the parsed tree as input, and the builders produce the serializer's input tree. A parse failure is not modelled either. In `createNewShipment` and `getLabels`, the parse happens before the status check, so such a failure would reject first.
- `Decoders.Field`, `Decoders.At` and `Decoders.ArrayOf` assume that jsonous's `field`, `at` and `array` pass an inner decoder's error message through unchanged. jsonous is not part of this model, so that assumption is not checked against its code. Every contract that states an exact message after one of these combinators rests on it: `expected 1 or 0` and `expected LT, LV, or EE` under `field`, `expected object` under `field('xsd:events', ...)`, and the first failing element's error under `array`.
- jsonous's own error wording is not modelled. The texts for a missing field (`MissingField`), a non-string (`NotString`), a non-array (`NotArray`) and a missing index (`MissingIndex`) are this model's own wording. The lemmas that name them (`LoneLocationRejected`, `LoneRowRejected`, `LoneEventRejected`, `FileDataRead`, `BarcodeRead`) state which library check fails, not the library's text. The exact texts the repository itself writes are `expected 1 or 0`, `expected LT, LV, or EE`, `expected object` and the status text.
- `Decoders.Walk` moves only along mapping keys and array indices. JavaScript property access also does other things: it indexes into strings (`'abc'[0]`), reads `length`, and treats numeric keys as array indices. A `td` holding one bare text cell would be indexed character by character in JavaScript. The model rejects it instead.
- `GetUnsentEvents.HasOwnProperty`: arrays are modelled as having no keys. This matches JavaScript's `in` for the names the code asks about, `value` and `event`. It does not match for index names or `length`.
- `CreateNewShipping.ContactElem` writes the optional contact fields in a fixed order: `person_name`, `phone`, `mobile`, `email`, then `address`. The source spreads the caller's object, which keeps the caller's key order. A key that is present with the value `undefined` is treated as absent.
- Attributes are modelled as a map, so attribute order is not kept. It has no meaning in XML. Attributes whose value is undefined, such as `file_id` without a file id or an unset dimension, are left out, as the serializer drops them.
- `CreateNewShipping.Measures` holds numeric weights and dimensions as the decimal text the serializer writes. No arithmetic is done on them.
