/** The abstract remote side shared by both platforms: the requests the program issues, the
    replies it can get, and a call log that records every request actually sent. */
module Http {

  datatype Verb = GET | POST | PUT

  /** A query parameter value: the program sends strings, and integers for `offset`. */
  datatype Param = Text(text: string) | Number(number: int)

  /** HTTP Basic credentials (the ITSM platform) or none (the incident platform authenticates
      through its `Authorization` header). */
  datatype Auth = NoBasicAuth | BasicAuth(user: string, password: string)

  /** A `{"id": ..., "type": ...}` reference inside a request body. */
  datatype Ref = Ref(id: string, kind: string)

  /** The `"extension"` object of an extension-creation request. */
  datatype NewExtension = NewExtension(name: string, config: map<string, string>, schema: Ref, objects: seq<Ref>)

  /** A JSON request body. */
  datatype Body = NoBody | ExtensionBody(extension: NewExtension) | FieldsBody(fields: map<string, string>)

  /** One request as it goes on the wire. */
  datatype Call = Call(verb: Verb, url: string, headers: map<string, string>,
                       params: map<string, Param>, body: Body, auth: Auth)

  /** What a request gives back: a decoded JSON value, nothing (an empty body, or the request
      helper's guard refused to send), or an exception (`raise_for_status` on a non-2xx status). */
  datatype Reply<+T> = Answered(value: T) | NoContent | Raised

  /** Every request sent, in order. */
  class CallLog {
    var calls: seq<Call>

    constructor ()
      ensures calls == []
    {
      calls := [];
    }

    /** Sends `c`: the log grows by exactly that call. */
    method Send(c: Call)
      modifies this
      ensures calls == old(calls) + [c]
    {
      calls := calls + [c];
    }
  }
}
