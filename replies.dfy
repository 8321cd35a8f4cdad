/** How a response becomes what Insert and Query return. */
module Replies {
  import opened Wrappers
  import opened Http
  import opened Environment

  const AuthHint := "Please check your Application Key"

  /** The generic answer: the status code as HttpStatusCode renders it, a space, and the
      status description. */
  function StatusLine(response: Response, platform: Platform): string
  {
    platform.statusName(response.status) + " " + response.description
  }

  /** The "id" entry of a response body: None when the body is not a JSON object or has
      no "id", Some(None) when the id is JSON null. */
  function IdEntry(response: Response, platform: Platform): Option<Option<string>>
  {
    match platform.parseObject(response.body)
    case None => None
    case Some(table) => if "id" in table then Some(table["id"]) else None
  }

  /** Insert's answer to a response: the hint on Unauthorized, the new id on Created when
      the body carries one, and the status line otherwise. Rendering a null id throws. */
  function InsertResult(response: Response, platform: Platform): (r: Result<string, Exception>)
    ensures response.status == Unauthorized ==> r == Ok(AuthHint)
    ensures response.status == Created && IdEntry(response, platform).Some? && IdEntry(response, platform).value.Some? ==>
      r == Ok(IdEntry(response, platform).value.value)
    ensures response.status == Created && IdEntry(response, platform) == Some(None) ==> r == Err(NullReference)
    ensures response.status != Unauthorized && !(response.status == Created && IdEntry(response, platform).Some?) ==>
      r == Ok(StatusLine(response, platform))
  {
    if response.status == Unauthorized then Ok(AuthHint)
    else if response.status == Created && IdEntry(response, platform).Some? then
      match IdEntry(response, platform).value
      case Some(id) => Ok(id)
      case None => Err(NullReference)
    else Ok(StatusLine(response, platform))
  }

  /** Query's answer to a response: the hint on Unauthorized, the raw body on OK, and the
      status line otherwise. */
  function QueryResult(response: Response, platform: Platform): (r: string)
    ensures response.status == Unauthorized ==> r == AuthHint
    ensures response.status == OK ==> r == response.body
    ensures response.status != Unauthorized && response.status != OK ==> r == StatusLine(response, platform)
  {
    if response.status == Unauthorized then AuthHint
    else if response.status == OK then response.body
    else StatusLine(response, platform)
  }

  /** The outcomes the string answers stand for, told apart. */
  datatype Reply =
    | NotAuthorized
    | Inserted(id: string)
    | Rows(text: string)
    | Failed(status: StatusCode, description: string)

  /** The text each outcome is answered with. */
  function Render(reply: Reply, platform: Platform): string
  {
    match reply
    case NotAuthorized => AuthHint
    case Inserted(id) => id
    case Rows(text) => text
    case Failed(status, description) => platform.statusName(status) + " " + description
  }

  /** What an Insert response means. */
  function ClassifyInsert(response: Response, platform: Platform): (r: Result<Reply, Exception>)
    ensures r.Err? <==> response.status == Created && IdEntry(response, platform) == Some(None)
    ensures r.Err? ==> r.error == NullReference
    ensures r.Ok? ==> !r.value.Rows?
    ensures r.Ok? ==> (r.value.NotAuthorized? <==> response.status == Unauthorized)
    ensures (r.Ok? && r.value.Inserted?) <==>
      response.status == Created && IdEntry(response, platform).Some? && IdEntry(response, platform).value.Some?
    ensures r.Ok? && r.value.Inserted? ==> IdEntry(response, platform) == Some(Some(r.value.id))
    ensures r.Ok? && r.value.Failed? ==>
      r.value == Failed(response.status, response.description) &&
      (response.status == Created ==> IdEntry(response, platform).None?)
  {
    if response.status == Unauthorized then Ok(NotAuthorized)
    else if response.status == Created && IdEntry(response, platform).Some? then
      match IdEntry(response, platform).value
      case Some(id) => Ok(Inserted(id))
      case None => Err(NullReference)
    else Ok(Failed(response.status, response.description))
  }

  /** What a Query response means. */
  function ClassifyQuery(response: Response): (r: Reply)
    ensures !r.Inserted?
    ensures r.NotAuthorized? <==> response.status == Unauthorized
    ensures r.Rows? <==> response.status == OK
    ensures r.Rows? ==> r.text == response.body
    ensures r.Failed? ==> r == Failed(response.status, response.description)
  {
    if response.status == Unauthorized then NotAuthorized
    else if response.status == OK then Rows(response.body)
    else Failed(response.status, response.description)
  }

  /** Insert's string answer is its outcome rendered. */
  lemma InsertResultRendersReply(response: Response, platform: Platform)
    ensures match ClassifyInsert(response, platform)
      case Ok(reply) => InsertResult(response, platform) == Ok(Render(reply, platform))
      case Err(exception) => InsertResult(response, platform) == Err(exception)
  {
  }

  /** Query's string answer is its outcome rendered. */
  lemma QueryResultRendersReply(response: Response, platform: Platform)
    ensures QueryResult(response, platform) == Render(ClassifyQuery(response), platform)
  {
  }

  /** An Unauthorized response gets the hint, whatever its description and body. */
  lemma UnauthorizedGetsHint(response: Response, platform: Platform)
    requires response.status == Unauthorized
    ensures InsertResult(response, platform) == Ok(AuthHint)
    ensures QueryResult(response, platform) == AuthHint
  {
  }

  /** The string answer loses the outcome: an id that reads like the hint cannot be told
      from an Unauthorized response. */
  lemma InsertResultConflates()
    ensures exists r1: Response, r2: Response, platform: Platform ::
      InsertResult(r1, platform) == InsertResult(r2, platform) &&
      ClassifyInsert(r1, platform) != ClassifyInsert(r2, platform)
  {
    var platform := Platform(
      e => "", s => 0,
      s => Some(map["id" := Some(AuthHint)]),
      c => "");
    var created := Response(Created, "Created", "{}");
    var denied := Response(Unauthorized, "Unauthorized", "");
    assert ClassifyInsert(created, platform) == Ok(Inserted(AuthHint));
    assert InsertResult(created, platform) == InsertResult(denied, platform);
  }
}
