/**
 * The parts of the mock server's request and response objects that the
 * interceptors read or build. The server itself and its transport are not
 * part of this model.
 */
module Http {

  /** The request methods the server distinguishes. */
  datatype Method = GET | POST | PUT | DELETE | PATCH | OPTIONS | HEAD | TRACE

  type Bytes = seq<bv8>

  /** One response header with its values, carried along but never inspected. */
  datatype Header = Header(name: string, values: seq<string>)

  /**
   * An inbound request: its method (`verb`), its URL exactly as the server reports it
   * (path plus any query string), and the value of its Accept-Encoding
   * header, with an absent header given as "".
   */
  datatype Request = Request(verb: Method, url: string, acceptEncoding: string)

  /**
   * A response produced by the server: status, headers and body, and whether
   * it came back from the proxied backend rather than from a stub.
   */
  datatype Response = Response(status: int, headers: seq<Header>, body: Bytes, fromProxy: bool)

  /** A response definition built by the filter to answer a request directly. */
  datatype ResponseDefinition = ResponseDefinition(body: Bytes, status: int, headers: seq<Header>)

  /** What a request filter tells the server to do with a request. */
  datatype FilterAction =
    | ContinueWith(request: Request)
    | StopWith(definition: ResponseDefinition)
}
