/** The untyped tree a markup parser hands to the decoders, and the transport reply around it. */
module Tree {

  /** A parsed markup node: text, a mapping from tag name to child, or a repeated element. */
  datatype Node =
    | Str(text: string)
    | Obj(fields: map<string, Node>)
    | Arr(items: seq<Node>)

  /** What an endpoint sees of an HTTP reply: the status flag, the status text and the parsed body. */
  datatype Reply = Reply(ok: bool, statusText: string, body: Node)
}
