/** The HTTP transport the API client talks to.  The remote registrar is an
    oracle: `serve` says what the transport reports for a request, given every
    request sent before it.  The `sent` log is what lets a contract say that a
    request was, or was not, made. */
module Http {
  import opened Php

  datatype Method = GET | POST | PUT | DELETE

  /** One outgoing request: method, full URL, headers in order, and the
      `json` request option (a body) when the operation attaches one. */
  datatype HttpRequest = HttpRequest(verb: Method, url: string, headers: seq<(string, string)>, json: Option<Value>)

  datatype Response = Response(status: int, body: string)

  /** A `RequestException` of the transport; `response` is absent when no
      HTTP response was received. */
  datatype RequestException = RequestException(response: Option<Response>, message: string)

  /** What one call of the transport ends in: a response body, or one of the
      two exceptions the client catches. */
  datatype Transport =
    | Delivered(body: string)
    | RequestFailed(error: RequestException)
    | JsonFailed(message: string)

  class Network {
    const serve: (seq<HttpRequest>, HttpRequest) -> Transport
    var sent: seq<HttpRequest>

    constructor (serve: (seq<HttpRequest>, HttpRequest) -> Transport)
      ensures this.serve == serve && sent == []
    {
      this.serve := serve;
      sent := [];
    }

    /** Sends one request: it is appended to the log and answered by the oracle. */
    method Send(r: HttpRequest) returns (t: Transport)
      modifies this
      ensures sent == old(sent) + [r]
      ensures t == serve(old(sent), r)
    {
      t := serve(sent, r);
      sent := sent + [r];
    }
  }
}
