/**
  The request tree handed to the markup serializer: text, an element with
  attributes (the `$` key) and named children in order, or a repeated element
  (a JavaScript array). Attributes whose value is undefined are left out, as
  the serializer does.
*/
module Markup {
  import opened Wrappers

  datatype Xml =
    | Text(text: string)
    | Elem(attrs: map<string, string>, children: seq<(string, Xml)>)
    | Repeated(items: seq<Xml>)

  /** The first child called `name`. */
  function Lookup(children: seq<(string, Xml)>, name: string): Option<Xml>
    decreases |children|
  {
    if children == [] then None
    else if children[0].0 == name then Some(children[0].1)
    else Lookup(children[1..], name)
  }

  /** Looking a name up in two runs of children finds it in the first run if it is there. */
  lemma {:induction false} LookupAppend(a: seq<(string, Xml)>, b: seq<(string, Xml)>, name: string)
    ensures Lookup(a + b, name) == if Lookup(a, name).Some? then Lookup(a, name) else Lookup(b, name)
    decreases |a|
  {
    if a == [] {
      assert a + b == b;
    } else {
      assert (a + b)[0] == a[0];
      assert (a + b)[1..] == a[1..] + b;
      LookupAppend(a[1..], b, name);
    }
  }

  /** The child found is the one at the first position that carries the name. */
  lemma {:induction false} LookupFirst(children: seq<(string, Xml)>, name: string, k: nat)
    requires k < |children| && children[k].0 == name
    requires forall j | 0 <= j < k :: children[j].0 != name
    ensures Lookup(children, name) == Some(children[k].1)
    decreases k
  {
    if k > 0 {
      LookupFirst(children[1..], name, k - 1);
    }
  }

  /** A name no child carries is not found. */
  lemma {:induction false} LookupMissing(children: seq<(string, Xml)>, name: string)
    requires forall j | 0 <= j < |children| :: children[j].0 != name
    ensures Lookup(children, name) == None
    decreases |children|
  {
    if children != [] {
      LookupMissing(children[1..], name);
    }
  }

  function Child(t: Xml, name: string): Option<Xml> {
    if t.Elem? then Lookup(t.children, name) else None
  }

  /** The element reached by following child names from `t`. */
  function Find(t: Xml, path: seq<string>): Option<Xml>
    decreases |path|
  {
    if path == [] then Some(t)
    else
      var child :- Child(t, path[0]);
      Find(child, path[1..])
  }

  /** Following a concatenated path is following the first part, then the second. */
  lemma {:induction false} FindAppend(t: Xml, p: seq<string>, q: seq<string>)
    ensures Find(t, p + q) == match Find(t, p) case Some(m) => Find(m, q) case None => None
    decreases |p|
  {
    if p == [] {
      assert p + q == q;
    } else {
      assert (p + q)[0] == p[0];
      assert (p + q)[1..] == p[1..] + q;
      match Child(t, p[0])
      case Some(child) => FindAppend(child, p[1..], q);
      case None =>
    }
  }

  function Attr(t: Xml, name: string): Option<string> {
    if t.Elem? && name in t.attrs then Some(t.attrs[name]) else None
  }

  /** The text of a text node. */
  function TextOf(t: Xml): Option<string> {
    if t.Text? then Some(t.text) else None
  }

  const SoapNamespaces: map<string, string> := map[
    "xmlns:soapenv" := "http://schemas.xmlsoap.org/soap/envelope/",
    "xmlns:xsd" := "http://service.core.epmx.application.eestipost.ee/xsd"]

  /** The SOAP envelope both request builders write: namespaces, an empty header and a body holding one request. */
  function Envelope(requestTag: string, request: Xml): Xml {
    Elem(map[], [("soapenv:Envelope", Elem(SoapNamespaces, [
      ("soapenv:Header", Text("")),
      ("soapenv:Body", Elem(map[], [(requestTag, request)]))]))])
  }

  /** The envelope's header is empty and its body holds only the request, under its tag. */
  lemma EnvelopeShape(requestTag: string, request: Xml)
    ensures Find(Envelope(requestTag, request), ["soapenv:Envelope", "soapenv:Header"]) == Some(Text(""))
    ensures Find(Envelope(requestTag, request), ["soapenv:Envelope", "soapenv:Body"]) ==
      Some(Elem(map[], [(requestTag, request)]))
    ensures Find(Envelope(requestTag, request), ["soapenv:Envelope", "soapenv:Body", requestTag]) == Some(request)
  {
    var env := Envelope(requestTag, request);
    var inner := env.children[0].1;
    LookupFirst(env.children, "soapenv:Envelope", 0);
    LookupFirst(inner.children, "soapenv:Header", 0);
    LookupFirst(inner.children, "soapenv:Body", 1);
    assert Find(env, ["soapenv:Envelope", "soapenv:Header"]) == Find(inner, ["soapenv:Header"]);
    assert Find(env, ["soapenv:Envelope", "soapenv:Body"]) == Find(inner, ["soapenv:Body"]);
    var body := inner.children[1].1;
    LookupFirst(body.children, requestTag, 0);
    assert Find(env, ["soapenv:Envelope", "soapenv:Body", requestTag]) == Find(body, [requestTag]);
  }
}
