/** The part of Go's http.ResponseWriter the handlers use: a header
    multimap changed with Set and Add, and a status written once. Header
    keys are taken as given (no canonicalisation). */
module Http {
  import opened Wrappers

  /** The content type of the handlers' error answers. */
  const JsonContentType := "application/json; charset=utf-8"

  const StatusInternalServerError: nat := 500
  const StatusBadGateway: nat := 502

  /** http.Header: each key maps to its values in insertion order. */
  type HeaderMap = map<string, seq<string>>

  /** The values of a key; none when the key is absent. */
  function Values(h: HeaderMap, key: string): seq<string> {
    if key in h then h[key] else []
  }

  /** Header.Add: the value is appended to the key's values. */
  function Added(h: HeaderMap, key: string, value: string): HeaderMap {
    h[key := Values(h, key) + [value]]
  }

  /** Header.Set: the key's values become the single value. */
  function Replaced(h: HeaderMap, key: string, value: string): HeaderMap {
    h[key := [value]]
  }

  class Response {
    /** The headers as they stand now. */
    var header: HeaderMap
    /** The status written by WriteHeader, if any. */
    var status: Option<nat>
    /** The headers as they were when the status was written; later
        changes to header are not sent. */
    var sentHeader: HeaderMap

    constructor ()
      ensures header == map[] && status == None && sentHeader == map[]
    {
      header := map[];
      status := None;
      sentHeader := map[];
    }

    method Set(key: string, value: string)
      modifies this
      ensures header == Replaced(old(header), key, value)
      ensures status == old(status) && sentHeader == old(sentHeader)
    {
      header := Replaced(header, key, value);
    }

    method Add(key: string, value: string)
      modifies this
      ensures header == Added(old(header), key, value)
      ensures status == old(status) && sentHeader == old(sentHeader)
    {
      header := Added(header, key, value);
    }

    /** Writes the status line with the headers as they stand; a second
        call has no effect. */
    method WriteHeader(code: nat)
      modifies this
      ensures header == old(header)
      ensures old(status).None? ==> status == Some(code) && sentHeader == header
      ensures old(status).Some? ==> status == old(status) && sentHeader == old(sentHeader)
    {
      if status.None? {
        status := Some(code);
        sentHeader := header;
      }
    }
  }
}
