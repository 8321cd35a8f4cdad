/** The HTTP vocabulary the client uses: status codes, headers, and the request and
    response records that stand for what the transport sends and receives. */
module Http {
  import opened Wrappers

  /** An HttpStatusCode, by its numeric value. */
  type StatusCode = int

  const OK: StatusCode := 200
  const Created: StatusCode := 201
  const Unauthorized: StatusCode := 401

  /** A System.Uri, by its AbsoluteUri text. */
  datatype Uri = Uri(absoluteUri: string)

  datatype Verb = POST | DELETE | PATCH | GET

  datatype Header = Header(name: string, value: string)

  /** The value of a header called `name`, or None when no header has that name. Which of
      several such headers answers is left open; the client never adds a name twice. */
  function HeaderValue(headers: seq<Header>, name: string): (r: Option<string>)
    ensures r.Some? ==> Header(name, r.value) in headers
    ensures r.None? <==> forall h :: h in headers ==> h.name != name
  {
    if headers == [] then None
    else if headers[0].name == name then Some(headers[0].value)
    else HeaderValue(headers[1..], name)
  }

  /** One request as the client hands it to the transport. `contentLength` is None when
      the source leaves ContentLength unset; `body` is the text written to the request
      stream, encoded as UTF-8. */
  datatype Request = Request(
    verb: Verb,
    uri: string,
    headers: seq<Header>,
    accept: string,
    contentType: Option<string>,
    contentLength: Option<nat>,
    body: Option<string>)

  /** One response as the transport hands it back: StatusCode, StatusDescription and the
      text of the response stream. */
  datatype Response = Response(status: StatusCode, description: string, body: string)
}

/** What the client takes from code it cannot see, as values the operations are given. */
module Environment {
  import opened Wrappers
  import opened Http

  /** The exceptions the client throws itself, before or after the exchange: a null
      argument, an argument that does not fit the configuration, and a null dereference. */
  datatype Exception = ArgumentNull(paramName: string) | Argument(message: string) | NullReference

  /** A table row as the caller supplies it: its `Id` and the fields that travel with it. */
  datatype Entity = Entity(id: string, fields: map<string, string>)

  /** The foreign functions the client calls: the JSON serializer, the UTF-8 byte count of
      a string, the JSON parser cast to a key/value table (None when the text is not an
      object; an entry is None when its value is JSON null and otherwise the text the
      value renders to), and the text an HttpStatusCode renders to. */
  datatype Platform = Platform(
    serialize: Entity -> string,
    utf8Length: string -> nat,
    parseObject: string -> Option<map<string, Option<string>>>,
    statusName: StatusCode -> string)
}
