/** The part of Go's net/http that the signature-compensation transport
    touches: a header map with canonical keys, a request whose header the
    transport rewrites in place, and a downstream round tripper. */
module Http {
  import opened Wrappers

  /** http.Header: canonical key to the list of its values. */
  type Header = map<string, seq<string>>

  datatype Error = Error(message: string)

  datatype Response = Response(statusCode: int, header: Header)

  /** What a round tripper hands back: a response (nil in Go when absent) and an error. */
  datatype RoundTripResult = RoundTripResult(response: Option<Response>, err: Option<Error>)

  /** The request's context. Only the payload hash that the SDK's signing
      middleware stored in it (v4.GetPayloadHash) is read from it here. */
  datatype Context = Context(id: nat, payloadHash: string)

  /** Header.Get: the first value of key, or "" when the key is absent or has no values. */
  function Get(h: Header, key: string): string
  {
    if key in h && |h[key]| > 0 then h[key][0] else ""
  }

  /** Header.Del: the key is gone and every other entry is untouched. */
  function Del(h: Header, key: string): (r: Header)
    ensures key !in r
    ensures forall k :: k != key ==> (k in r <==> k in h)
    ensures forall k :: k in r ==> r[k] == h[k]
  {
    h - {key}
  }

  /** Header.Set: key now has exactly the one value v; every other entry is untouched. */
  function Set(h: Header, key: string, v: string): (r: Header)
    ensures key in r && r[key] == [v]
    ensures forall k :: k != key ==> (k in r <==> k in h)
    ensures forall k :: k in r && k != key ==> r[k] == h[k]
  {
    h[key := [v]]
  }

  /** An outgoing request; its header map is changed in place by the transports it passes through. */
  class Request {
    var header: Header
    const ctx: Context

    constructor (header: Header, ctx: Context)
      ensures this.header == header && this.ctx == ctx
    {
      this.header := header;
      this.ctx := ctx;
    }
  }

  /** A stand-in for an http.RoundTripper whose behaviour is not visible:
      reply gives its answer for the header it receives, and received is
      the log of every header map it was handed, in order. */
  class RoundTripper {
    const reply: (Header, Context) -> RoundTripResult
    var received: seq<Header>

    constructor (reply: (Header, Context) -> RoundTripResult)
      ensures this.reply == reply && received == []
    {
      this.reply := reply;
      received := [];
    }

    method RoundTrip(req: Request) returns (resp: Option<Response>, err: Option<Error>)
      modifies this
      ensures received == old(received) + [req.header]
      ensures RoundTripResult(resp, err) == reply(req.header, req.ctx)
    {
      received := received + [req.header];
      var result := reply(req.header, req.ctx);
      resp, err := result.response, result.err;
    }
  }
}
