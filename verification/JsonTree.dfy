/** Parsed JSON values with the accessors the request rewrites use.  An object
    is a map from keys to values: the parser keeps one value a key and sorts
    the keys, so neither order nor repetition of keys can be observed. */
module JsonTree {
  import opened Wrappers

  datatype Json =
    | Null
    | Bool(value: bool)
    | Number(literal: string)
    | String(text: string)
    | Array(items: seq<Json>)
    | Object(fields: map<string, Json>)
  {
    /** The value under `key`; a value that is not an object has none. */
    function Get(key: string): Option<Json> {
      if Object? && key in fields then Some(fields[key]) else None
    }

    predicate HasArray(key: string) {
      Get(key).Some? && Get(key).value.Array?
    }

    function ItemsOf(key: string): seq<Json>
      requires HasArray(key)
    {
      Get(key).value.items
    }

    function TextOf(key: string): Option<string> {
      match Get(key)
      case Some(String(t)) => Some(t)
      case _ => None
    }

    /** Inserts, replaces or (for `None`) removes a field; anything that is not
        an object is left alone. */
    function SetField(key: string, v: Option<Json>): Json {
      if !Object? then this
      else if v.Some? then Object(fields[key := v.value])
      else Object(fields - {key})
    }

    /** Replaces the array under `key`. */
    function WithItems(key: string, items: seq<Json>): Json
      requires HasArray(key)
    {
      Object(fields[key := Array(items)])
    }
  }

  /** A request body as received: text that does not parse, or a document.
      Printing a document and parsing it again is the identity. */
  datatype Body = Malformed(raw: string) | Document(root: Json)

  // ---- Text blocks ----

  function TextBlock(text: string): Json {
    Json.Object(map["type" := Json.String("text"), "text" := Json.String(text)])
  }

  /** The block reads as this text, and has nothing else in it. */
  predicate ReadsAs(block: Json, text: string) {
    && block.Object? && block.fields.Keys == {"type", "text"}
    && block.TextOf("type") == Some("text") && block.TextOf("text") == Some(text)
  }

  lemma WithSameItems(v: Json, key: string)
    requires v.HasArray(key)
    ensures v.WithItems(key, v.ItemsOf(key)) == v
  {
    assert v.fields[key := Json.Array(v.ItemsOf(key))] == v.fields;
  }

  lemma WithItemsTwice(v: Json, key: string, a: seq<Json>, b: seq<Json>)
    requires v.HasArray(key)
    ensures v.WithItems(key, a).HasArray(key)
    ensures v.WithItems(key, a).ItemsOf(key) == a
    ensures v.WithItems(key, a).WithItems(key, b) == v.WithItems(key, b)
  {
  }
}
