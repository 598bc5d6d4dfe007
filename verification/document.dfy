/**
  The untyped document that the YAML decoder hands to the builder and that the
  exporter hands back to the encoder. The decoder itself is not part of this
  model: a decoded value is a string scalar, a sequence, a mapping with string
  keys, or some other scalar (a number, a boolean, null).
*/
module Document {

  datatype Node =
    | Str(s: string)
    | List(items: seq<Node>)
    | Mapping(entries: map<string, Node>)
    | Scalar(text: string)
}
