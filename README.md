# A verified model of the NetMF Azure Mobile Services client

`MobileServiceClient` is a small REST client for one Azure Mobile Services application.
It offers four operations on a table (Insert, Delete, Update, Query). Each one builds one
HTTP request and reads one response. The request has a target URI, a verb, the two
optional key headers (`X-ZUMO-APPLICATION`, `X-ZUMO-MASTER`) and a JSON body for some
operations. The response's status code becomes the return value.

The model keeps the client's own logic: building the URI, choosing headers, shaping the
body, and interpreting the response. It takes the transport's response as an input
record and the foreign library calls as parameters.

- `wrappers.dfy`: `Option` (a value the source may hold as null) and `Result` (a return value, or
  the exception thrown instead).
- `http.dfy`: module `Http` has status codes, verbs, headers and header lookup, the `Request`
  a call hands to the transport and the `Response` it gets back. Module `Environment` has the
  `Entity`, the client's own exceptions, and `Platform`. `Platform` is a record of the foreign
  functions: JSON serialization, UTF-8 byte count, JSON parsing to a key/value table, and
  status-code text. Every property below holds for every choice of these functions.
- `requests.dfy`: module `Requests` builds target URIs and states what the key headers and
  bodies must be. It also defines the split of a URI at its first `?`, which lets the URI
  be read back.
- `replies.dfy`: module `Replies` turns a response into what Insert and Query return. It also
  defines a tagged outcome (`Reply`) that the returned string renders.
- `client.dfy`: module `MobileServices` defines the class `MobileServiceClient`. Its URI and two
  keys are `const` fields, so no operation can change them. `finalUri` is the one mutable
  field. Every operation overwrites it, as `_finalUri` is overwritten in the source, except
  Update with a null entity, which throws before the assignment.

Points of the code a reader might not expect, which the model keeps as written:

- DELETE and GET requests also set the JSON content type, not only requests with a body.
- An Insert with a null entity leaves ContentLength unset. It is not set to 0.
- The client keeps `finalUri` between calls, so it holds mutable state.
- Update with a null entity throws a null-reference exception. This happens while the URI is
  built, before the noscript check, and `finalUri` is left as it was.
- An Insert answered with 201 whose body has `"id": null` throws a null-reference exception
  when the id is rendered.
- On the noscript error, `finalUri` has already been assigned the URI without the noscript
  term.
- The doc comments promise a string from Delete and Update (MobileServiceClient.cs:140, 187),
  but both return the HttpStatusCode. Insert's comment promises the id (line 54), but Insert
  also returns the hint and the status line. The model follows the return types and bodies.

## Model

| member | source | states |
|---|---|---|
| `MobileServices.MobileServiceClient.constructor` | NetMFAMS43/MobileServiceClient.cs:36-46 | the URI and both keys are stored unchanged; `finalUri` starts null; the three stored fields are `const`, so no operation changes them |
| `MobileServices.MobileServiceClient.Create` | NetMFAMS43/MobileServiceClient.cs:36-46 | construction throws ArgumentNullException exactly when the URI is null, and otherwise gives a fresh client holding the arguments unchanged |
| `MobileServices.MobileServiceClient.BuildHeaders` | NetMFAMS43/MobileServiceClient.cs:69-77 | the header collection carries X-ZUMO-APPLICATION exactly when an application key is configured, X-ZUMO-MASTER exactly when a master key is configured, each with its key, and nothing else |
| `MobileServices.MobileServiceClient.Insert` | NetMFAMS43/MobileServiceClient.cs:55-131 | noscript without a master key throws an argument error and no request exists; otherwise a POST to base + "tables/" + table [+ "?noscript=true"] with the key headers and Accept JSON; a JSON body with ContentLength its UTF-8 byte count exactly when the entity is non-null, nothing set otherwise; the result is the response interpretation; `finalUri` is the URI sent, or on the error the URI without the noscript term; a noscript request always carries the master key |
| `MobileServices.MobileServiceClient.Delete` | NetMFAMS43/MobileServiceClient.cs:141-179 | the same noscript rule; a DELETE to base + "tables/" + table + "/" + id [+ "?noscript=true"], with no body and ContentLength 0; the result is the response's status code, whatever it is |
| `MobileServices.MobileServiceClient.Update` | NetMFAMS43/MobileServiceClient.cs:188-241 | a null entity throws a null-reference exception and leaves `finalUri` as it was; otherwise the same noscript rule, then a PATCH to the entity's item URI that always carries the JSON body, and the result is the response's status code |
| `MobileServices.MobileServiceClient.Query` | NetMFAMS43/MobileServiceClient.cs:250-316 | the same noscript rule, checked after the query is appended; a GET to the target URI with the query, with no body and ContentLength 0; the result is the query interpretation of the response |
| `Requests.TargetUri` | NetMFAMS43/MobileServiceClient.cs:253-271 | the target URI starts with the resource path; with no query and no noscript it is that path; with a query and no noscript it is the path, "?" and the query verbatim; with noscript it is the path, "?", the query and "&" when there is a query, and "noscript=true", so it ends with "&noscript=true" after a query and with "?noscript=true" otherwise |
| `Requests.TargetUriRoundTrip` | NetMFAMS43/MobileServiceClient.cs:253-271 | splitting a target URI at its first '?' gives back the resource path and the query part, when the base, the table name and the id hold no '?' |
| `Requests.SplitQueryUnique` | NetMFAMS43/MobileServiceClient.cs:253-271 | a URI made of a '?'-free prefix, then '?' and a rest, splits at exactly that '?' |
| `Requests.TargetUriQuestionMarks` | NetMFAMS43/MobileServiceClient.cs:264-271 | the target URI holds exactly one '?' when there is a query or a noscript term and none otherwise, so noscript after a query is joined with '&' |
| `Requests.CarriesKeysExactly` | NetMFAMS43/MobileServiceClient.cs:69-77 | headers meeting the key-header rule hold exactly one entry per configured key, holding that key, in some order |
| `Replies.ClassifyInsert` | NetMFAMS43/MobileServiceClient.cs:109-129 | Unauthorized is checked first; Created with an "id" in a body that parses to an object gives that id; a null id throws a null-reference exception; every other case, including Created with no id or a body that is no object, fails with the status and description |
| `Replies.InsertResult` | NetMFAMS43/MobileServiceClient.cs:109-129 | Insert's return value: "Please check your Application Key" on 401; on 201 the "id" of a body that parses to an object, or a null-reference exception when that id is null; status text + " " + description in every other case, including 201 with no id or a body that is no object |
| `Replies.QueryResult` | NetMFAMS43/MobileServiceClient.cs:300-313 | Query's return value: the hint on 401, the raw body on 200, status text + " " + description for every other status |
| `Replies.InsertResultRendersReply` | NetMFAMS43/MobileServiceClient.cs:109-129 | Insert's string return value is its outcome rendered: the hint, the id, or status text + " " + description |
| `Replies.ClassifyQuery` | NetMFAMS43/MobileServiceClient.cs:300-313 | Unauthorized gives the hint outcome, OK gives the raw body, and every other status fails with the status and description |
| `Replies.QueryResultRendersReply` | NetMFAMS43/MobileServiceClient.cs:300-313 | Query's string return value is its outcome rendered |
| `Replies.UnauthorizedGetsHint` | NetMFAMS43/MobileServiceClient.cs:109-112 | a 401 response gives "Please check your Application Key" to both Insert and Query, whatever its description and body |
| `Replies.InsertResultConflates` | NetMFAMS43/MobileServiceClient.cs:109-124 | the string return value cannot always tell outcomes apart: a created id that reads like the hint gives the same string as a 401 |

## Left out

- The HTTP transport: creating the request, writing the request stream, and getting and
  reading the response. The response is an input record (status, description, body text).
  The model assumes every status reaches the client's own checks. Transport failures, and
  a transport that raises instead of returning an error status, are outside the model.
- Releasing the request, response, stream and reader at the end of each `using` block:
  runtime lifecycle with no logic of its own.
- JSON serialization and parsing (Json.NETMF), UTF-8 encoding and how an HttpStatusCode
  renders as text. These are foreign calls, so they are the fields of `Platform`. The cast
  of the parsed value to a Hashtable, and the `ToString()` of its "id" entry, are folded
  into `parseObject`.
- The UserAgent header value, a fixed assignment with no behaviour.
- Null strings that are only concatenated (table name, entity id, `entity.Id`) are modelled
  as the empty string, because .NET concatenation renders null as empty. A null query is
  modelled as the empty query, because the code treats the two the same way.
- Concurrency, including two threads writing `finalUri` at once: the code makes no promise
  about it.
- NetMFAMS43/IMobileServiceClient.cs declares only the four signatures the class
  implements.
- The exception messages are kept as the text the source passes to the exceptions
  (ArgumentNullException takes it as the parameter name).
