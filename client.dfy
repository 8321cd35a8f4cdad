/** The client for the mobile service's REST interface: each operation builds one request
    from the configuration and its arguments and turns the response, taken as given, into
    what it returns. */
module MobileServices {
  import opened Wrappers
  import opened Http
  import opened Environment
  import opened Requests
  import opened Replies

  const UriParamName := "Mobile Service URL parameter cannot be null"
  const MasterKeyRequired := "For noscript you must also supply the Master Key"

  class MobileServiceClient {
    const mobileServicesUri: Uri
    const applicationKey: Option<string>
    const masterKey: Option<string>
    /** The URI of the latest operation, which every operation overwrites. */
    var finalUri: Option<string>

    constructor (mobileServicesUri: Uri, applicationKey: Option<string>, masterKey: Option<string>)
      ensures this.mobileServicesUri == mobileServicesUri
      ensures this.applicationKey == applicationKey && this.masterKey == masterKey
      ensures finalUri == None
    {
      this.mobileServicesUri := mobileServicesUri;
      this.applicationKey := applicationKey;
      this.masterKey := masterKey;
      finalUri := None;
    }

    /** Construction as the source's callers see it: a null URI throws, anything else is
        stored unchanged. */
    static method Create(mobileServicesUri: Option<Uri>, applicationKey: Option<string>, masterKey: Option<string>)
      returns (r: Result<MobileServiceClient, Exception>)
      ensures r.Err? <==> mobileServicesUri.None?
      ensures r.Err? ==> r.error == ArgumentNull(UriParamName)
      ensures r.Ok? ==> fresh(r.value) && r.value.finalUri == None
      ensures r.Ok? ==> r.value.mobileServicesUri == mobileServicesUri.value
      ensures r.Ok? ==> r.value.applicationKey == applicationKey && r.value.masterKey == masterKey
    {
      if mobileServicesUri.None? {
        return Err(ArgumentNull(UriParamName));
      }
      var client := new MobileServiceClient(mobileServicesUri.value, applicationKey, masterKey);
      r := Ok(client);
    }

    /** The base URI's text, to which every target URI is appended. */
    function Base(): string
    {
      mobileServicesUri.absoluteUri
    }

    /** A request sent with `verb` to `uri`, carrying the configured keys and accepting JSON. */
    predicate Addressed(request: Request, verb: Verb, uri: string)
    {
      request.verb == verb && request.uri == uri &&
      CarriesKeys(request.headers, applicationKey, masterKey) &&
      request.accept == JsonMediaType
    }

    /** The header collection every operation sends, built one key at a time. */
    method BuildHeaders() returns (headers: seq<Header>)
      ensures CarriesKeys(headers, applicationKey, masterKey)
    {
      assert ApplicationKeyHeader != MasterKeyHeader by {
        assert |ApplicationKeyHeader| != |MasterKeyHeader|;
      }
      headers := [];
      if applicationKey.Some? {
        headers := headers + [Header(ApplicationKeyHeader, applicationKey.value)];
      }
      if masterKey.Some? {
        headers := headers + [Header(MasterKeyHeader, masterKey.value)];
      }
    }

    /** Inserts `entity` (or nothing, when it is null) into a table and returns the new
        row's id. `sent` is the request handed to the transport, None when the call fails
        before one exists. */
    method Insert(tableName: string, entity: Option<Entity>, noscript: bool, platform: Platform, response: Response)
      returns (sent: Option<Request>, r: Result<string, Exception>)
      modifies this`finalUri
      ensures sent.None? <==> !NoScriptPermitted(noscript, masterKey)
      ensures sent.None? ==>
        r == Err(Argument(MasterKeyRequired)) &&
        finalUri == Some(TargetUri(Base(), tableName, None, "", false))
      ensures sent.Some? ==>
        Addressed(sent.value, POST, TargetUri(Base(), tableName, None, "", noscript)) &&
        finalUri == Some(sent.value.uri) &&
        r == InsertResult(response, platform)
      ensures sent.Some? && entity.Some? ==> CarriesJson(sent.value, platform.serialize(entity.value), platform)
      ensures sent.Some? && entity.None? ==> Unset(sent.value)
      ensures sent.Some? && noscript ==> HeaderValue(sent.value.headers, MasterKeyHeader).Some?
    {
      finalUri := Some(mobileServicesUri.absoluteUri + "tables/" + tableName);
      if noscript {
        if masterKey.None? {
          return None, Err(Argument(MasterKeyRequired));
        }
        finalUri := Some(finalUri.value + "?" + NoScriptTerm);
      }
      var headers := BuildHeaders();
      var request := Request(POST, finalUri.value, headers, JsonMediaType, None, None, None);
      if entity.Some? {
        var serialization := platform.serialize(entity.value);
        request := request.(
          contentLength := Some(platform.utf8Length(serialization)),
          contentType := Some(JsonMediaType),
          body := Some(serialization));
      }
      sent := Some(request);
      r := InsertResult(response, platform);
    }

    /** Deletes the row `entityId` from a table and returns the response's status code,
        whatever it is. */
    method Delete(tableName: string, entityId: string, noscript: bool, response: Response)
      returns (sent: Option<Request>, r: Result<StatusCode, Exception>)
      modifies this`finalUri
      ensures sent.None? <==> !NoScriptPermitted(noscript, masterKey)
      ensures sent.None? ==>
        r == Err(Argument(MasterKeyRequired)) &&
        finalUri == Some(TargetUri(Base(), tableName, Some(entityId), "", false))
      ensures sent.Some? ==>
        Addressed(sent.value, DELETE, TargetUri(Base(), tableName, Some(entityId), "", noscript)) &&
        Bodiless(sent.value) &&
        finalUri == Some(sent.value.uri) &&
        r == Ok(response.status)
      ensures sent.Some? && noscript ==> HeaderValue(sent.value.headers, MasterKeyHeader).Some?
    {
      finalUri := Some(mobileServicesUri.absoluteUri + "tables/" + tableName + "/" + entityId);
      assert finalUri.value == ResourcePath(Base(), tableName, Some(entityId));
      if noscript {
        if masterKey.None? {
          return None, Err(Argument(MasterKeyRequired));
        }
        finalUri := Some(finalUri.value + "?" + NoScriptTerm);
      }
      var headers := BuildHeaders();
      var request := Request(DELETE, finalUri.value, headers, JsonMediaType, Some(JsonMediaType), Some(0), None);
      sent := Some(request);
      r := Ok(response.status);
    }

    /** Replaces the row `entity.id` of a table with `entity` and returns the response's
        status code, whatever it is. A null entity is dereferenced before anything else
        happens. */
    method Update(tableName: string, entity: Option<Entity>, noscript: bool, platform: Platform, response: Response)
      returns (sent: Option<Request>, r: Result<StatusCode, Exception>)
      modifies this`finalUri
      ensures entity.None? ==> sent.None? && r == Err(NullReference) && finalUri == old(finalUri)
      ensures entity.Some? ==> (sent.None? <==> !NoScriptPermitted(noscript, masterKey))
      ensures entity.Some? && sent.None? ==>
        r == Err(Argument(MasterKeyRequired)) &&
        finalUri == Some(TargetUri(Base(), tableName, Some(entity.value.id), "", false))
      ensures sent.Some? ==>
        entity.Some? &&
        Addressed(sent.value, PATCH, TargetUri(Base(), tableName, Some(entity.value.id), "", noscript)) &&
        CarriesJson(sent.value, platform.serialize(entity.value), platform) &&
        finalUri == Some(sent.value.uri) &&
        r == Ok(response.status)
      ensures sent.Some? && noscript ==> HeaderValue(sent.value.headers, MasterKeyHeader).Some?
    {
      if entity.None? {
        return None, Err(NullReference);
      }
      finalUri := Some(mobileServicesUri.absoluteUri + "tables/" + tableName + "/" + entity.value.id);
      assert finalUri.value == ResourcePath(Base(), tableName, Some(entity.value.id));
      if noscript {
        if masterKey.None? {
          return None, Err(Argument(MasterKeyRequired));
        }
        finalUri := Some(finalUri.value + "?" + NoScriptTerm);
      }
      var headers := BuildHeaders();
      var serialization := platform.serialize(entity.value);
      var request := Request(
        PATCH, finalUri.value, headers, JsonMediaType,
        Some(JsonMediaType), Some(platform.utf8Length(serialization)), Some(serialization));
      sent := Some(request);
      r := Ok(response.status);
    }

    /** Queries a table, with `query` (empty for a null or empty query string) appended
        verbatim, and returns the raw response body on success. */
    method Query(tableName: string, query: string, noscript: bool, platform: Platform, response: Response)
      returns (sent: Option<Request>, r: Result<string, Exception>)
      modifies this`finalUri
      ensures sent.None? <==> !NoScriptPermitted(noscript, masterKey)
      ensures sent.None? ==>
        r == Err(Argument(MasterKeyRequired)) &&
        finalUri == Some(TargetUri(Base(), tableName, None, query, false))
      ensures sent.Some? ==>
        Addressed(sent.value, GET, TargetUri(Base(), tableName, None, query, noscript)) &&
        Bodiless(sent.value) &&
        finalUri == Some(sent.value.uri) &&
        r == Ok(QueryResult(response, platform))
      ensures sent.Some? && noscript ==> HeaderValue(sent.value.headers, MasterKeyHeader).Some?
    {
      finalUri := Some(mobileServicesUri.absoluteUri + "tables/" + tableName);
      assert finalUri.value == ResourcePath(Base(), tableName, None);
      if query != [] {
        finalUri := Some(finalUri.value + "?" + query);
      }
      assert finalUri == Some(TargetUri(Base(), tableName, None, query, false));
      if noscript {
        if masterKey.None? {
          return None, Err(Argument(MasterKeyRequired));
        }
        if query != [] {
          finalUri := Some(finalUri.value + "&" + NoScriptTerm);
        } else {
          finalUri := Some(finalUri.value + "?" + NoScriptTerm);
        }
      }
      var headers := BuildHeaders();
      var request := Request(GET, finalUri.value, headers, JsonMediaType, Some(JsonMediaType), Some(0), None);
      sent := Some(request);
      r := Ok(QueryResult(response, platform));
    }
  }
}
