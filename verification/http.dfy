/**
 What a handler hands back to the HTTP server, reduced to the parts both API
 surfaces promise: an empty success, a `{"relay": state}` body, the overview
 list, or the single canonical "404 Not Found" page.
 */
module Http {
  import opened Registry

  datatype Response =
    | Empty
    | RelayState(relay: bool)
    | Overview(relays: seq<(nat, bool)>)
    | NotFound

  /** A handler's result: its response and the registry after the request. */
  datatype Reply = Reply(response: Response, relays: Relays)

  /** The HTTP status code: every failure is the same 404, everything else is 200. */
  function Status(r: Response): nat {
    if r.NotFound? then 404 else 200
  }

  /** The reply to a rejected request: the 404 page and an untouched registry. */
  function Rejected(s: Relays): Reply {
    Reply(NotFound, s)
  }
}
