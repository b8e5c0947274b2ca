/** HTTP responses returned by both handlers. Bodies stay structured: the
    JSON text `JSON.stringify` would produce is not modelled. */
module Http {
  import opened Values

  datatype Body =
    | Message(text: string)                 // `{ message: text }`
    | Json(record: Record)                  // one record
    | Items(items: map<Value, Record>)      // every item of a table
    | Blank                                 // the empty string

  datatype Response = Response(status: int, headers: map<string, string>, body: Body)
}
