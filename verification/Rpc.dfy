/** The messages that cross the multiplexer of api/api.go and the replies its callers read. */
module Rpc {
  datatype Option<+T> = None | Some(value: T)

  /** The four storage items that are read, named instead of spelt as their hashed keys. */
  datatype StorageKey = TimeNow | SystemEvents | NextFeeMultiplier | CurrentEra

  datatype Param = Number(n: nat) | Text(s: string) | Key(key: StorageKey)

  /** What a call asks of the node: the payload of a request without its id. */
  datatype Call = Call(name: string, params: seq<Param>)

  /** JsonRPCSend: the caller's own id, the call, and the channel its reply goes to. */
  datatype Request = Request(id: nat, jsonrpc: string, call: Call, ch: nat)

  /** JsonRPCRequest as it is written to the socket, under a wire id. */
  datatype WireRequest = WireRequest(id: nat, jsonrpc: string, call: Call)

  /** JsonRPCResponse as it is read from the socket. A missing id decodes to 0; the error
      object of a reply is not decoded and leaves the result empty. */
  datatype WireResponse = WireResponse(id: nat, result: string)

  datatype Fault = EncodeFailed | ConnectionClosed | RequestTimedOut

  datatype Response = Response(id: nat, error: Option<Fault>, kind: string, result: string)

  /** One entry of the response map. */
  datatype ResponseStore = ResponseStore(id: nat, kind: string, time: nat, ch: nat)

  /** One send on a caller's channel. */
  datatype Delivery = Delivery(ch: nat, resp: Response)

  function Failed(entry: ResponseStore, fault: Fault): Response {
    Response(entry.id, Some(fault), entry.kind, "")
  }

  function Replied(entry: ResponseStore, result: string): Response {
    Response(entry.id, None, entry.kind, result)
  }

  function Refused(req: Request): Response {
    Response(req.id, Some(EncodeFailed), req.call.name, "")
  }

  function Stored(req: Request, now: nat): ResponseStore {
    ResponseStore(req.id, req.call.name, now, req.ch)
  }

  function OnWire(req: Request, wire: nat): WireRequest {
    WireRequest(wire, if req.jsonrpc == "" then "2.0" else req.jsonrpc, req.call)
  }

  /** Results arrive as raw JSON; the gatherers cut off the first and the last byte. */
  function Unquote(raw: string): string
    requires 2 <= |raw|
  {
    raw[1..|raw| - 1]
  }

  /** Whatever one byte on either side encloses comes out. */
  lemma UnquoteRoundTrip(x: string, first: char, last: char)
    ensures Unquote([first] + x + [last]) == x
  {
  }
}
