/**
 * The external collaborators the store calls: the image codec, the JSON
 * serialiser and UTF-8 text encoding. Their behaviour is not modelled; each is
 * an arbitrary function, and the only facts assumed about them are the
 * round trips stated by Lawful, which lemmas take as a hypothesis.
 */
module Codec {
  import opened Common

  newtype byte = b: int | 0 <= b < 256

  type Bytes = seq<byte>

  /** A decoded raster, as returned by the image reader. */
  datatype Image = Image(height: nat, width: nat, pixels: seq<byte>)

  /** An annotation: any value the JSON reader can produce. */
  datatype Json =
    | JNull
    | JBool(b: bool)
    | JNumber(n: int)
    | JString(s: string)
    | JArray(items: seq<Json>)
    | JObject(members: seq<(string, Json)>)

  datatype Adapter = Adapter(
    imencode: Image -> Option<Bytes>,  // JPEG encoding; None when it reports failure
    imdecode: Bytes -> Option<Image>,  // colour decoding; None when it fails
    dumps: Json -> string,             // serialisation without ASCII escaping; total on JSON values
    loads: string -> Option<Json>,     // parsing; None when it raises
    utf8: string -> Bytes,             // text to UTF-8 bytes
    unutf8: Bytes -> Option<string>)   // UTF-8 bytes to text; None when it raises

  /** The round trips the store relies on. Image encoding is lossy, so there is none for images. */
  ghost predicate Lawful(c: Adapter) {
    && (forall a :: c.loads(c.dumps(a)) == Some(a))
    && (forall s :: c.unutf8(c.utf8(s)) == Some(s))
    && c.utf8("") == []
  }

  /** Only the empty text encodes to no bytes. */
  lemma Utf8NonEmpty(c: Adapter, s: string)
    requires Lawful(c) && s != ""
    ensures c.utf8(s) != []
  {
    assert c.unutf8(c.utf8("")) == Some("");
  }
}
