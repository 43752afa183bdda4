/**
 * Outbound HTTP as `reqwest` is used by the core: a request is a method (`verb`), a URL and query
 * pairs; the network answers with a status and the body text, or fails in transport.
 * `send()` does not turn a non-success status into an error, so neither does this model.
 */
module Http {
  import opened Wrappers

  datatype Method = Get | Post

  datatype Request = Request(verb: Method, url: string, query: seq<(string, string)>)

  datatype HttpResponse = HttpResponse(status: nat, text: string)

  /** The network, seen from one caller: the response to a request, or a transport error message. */
  type Network = Request -> Result<HttpResponse, string>

  /** A JSON decoder for `T` (`serde`): the value a body text parses to, or the parse error. */
  type Parser<T> = string -> Result<T, string>

  /** What an operation sent, in order, and what it made of the answers. */
  datatype Call<T, E> = Call(sent: seq<Request>, outcome: Result<T, E>)
}
