/**
  The data a filter exchanges in one cycle: the metadata tree carried by a
  frame, the frame itself (an optional image with its format tag, plus the
  metadata), and the batch of topic -> frame entries handed to `process`.
*/
module Frames {
  import opened Wrappers

  /** A metadata value: a JSON-like tree of scalars, lists and string-keyed maps. */
  datatype Value =
    | Null
    | Int(i: int)
    | Real(r: real)
    | Bool(b: bool)
    | Str(s: string)
    | List(items: seq<Value>)
    | Map(fields: map<string, Value>)

  /** Python truthiness of a metadata value, as `bool(v)` computes it. */
  predicate Truthy(v: Value)
  {
    match v
    case Null => false
    case Int(i) => i != 0
    case Real(r) => r != 0.0
    case Bool(b) => b
    case Str(s) => s != ""
    case List(items) => items != []
    case Map(fields) => fields != map[]
  }

  /** An image is opaque here: only its presence and identity matter. */
  datatype Image = Image(id: nat)

  /** A frame: optional image and its format tag, and the metadata dictionary `data`. */
  datatype Frame = Frame(image: Option<Image>, data: map<string, Value>, format: Option<string>)

  /** A frame built from metadata alone, as `Frame(data=...)` does. */
  function DataFrame(data: map<string, Value>): Frame
  {
    Frame(None, data, None)
  }

  /** One cycle's input: topics in the order the runtime supplies them; a source may have produced nothing. */
  type Batch = seq<(string, Option<Frame>)>

  /** A filter's output: topics in emission order. */
  type Output = seq<(string, Frame)>

  /** The topics of an output, in order. */
  function Topics(out: Output): (ts: seq<string>)
    ensures |ts| == |out|
    ensures forall i :: 0 <= i < |out| ==> ts[i] == out[i].0
  {
    if out == [] then [] else [out[0].0] + Topics(out[1..])
  }
}
