/** The Sunshine Conversations client of src/conversations/index.ts, reduced to
    the decisions it takes: URL building, external ids, request headers, the
    error/`ignoredCodes` rule of `sunshineRequest`, and the status checks and
    create-then-update fallback of the wrappers built on it. The HTTP exchange
    itself is an oracle: each call is handed the reply the server gave. */
module Conversations {
  import opened Common

  const ExternalIdPrefix: string := "discord-"
  const AppIdPlaceholder: string := "{appId}"
  const ConflictCode: string := "conflict"
  const DefaultErrorMessage: string := "Unexpected error"

  // ---------------------------------------------------------------------------
  // Endpoint and URL building

  /** The endpoint as the module leaves it at load: one trailing `/` removed. */
  function NormalizeEndpoint(endpoint: string): (r: string)
    ensures endpoint == r + "/" || (r == endpoint && (endpoint == [] || endpoint[|endpoint| - 1] != '/'))
  {
    if endpoint != [] && endpoint[|endpoint| - 1] == '/' then endpoint[..|endpoint| - 1] else endpoint
  }

  /** Only the last slash goes, however many there are. */
  lemma NormalizeStripsOneSlash(endpoint: string)
    ensures NormalizeEndpoint(endpoint + "/") == endpoint
  {
    assert (endpoint + "/")[..|endpoint|] == endpoint;
  }

  /** `segments` joined with `separator` between each two. */
  function Join(segments: seq<string>, separator: string): string
    requires |segments| > 0
  {
    if |segments| == 1 then segments[0] else segments[0] + separator + Join(segments[1..], separator)
  }

  predicate FreeOfBrace(s: string)
  {
    '{' !in s
  }

  datatype Config = Config(endpoint: string, appId: string)

  /** The configuration after the module's load-time fix-up of the endpoint. */
  function LoadConfig(rawEndpoint: string, appId: string): (c: Config)
    ensures c.appId == appId
    ensures rawEndpoint == c.endpoint || rawEndpoint == c.endpoint + "/"
  {
    Config(NormalizeEndpoint(rawEndpoint), appId)
  }

  /** `buildUrl`: endpoint and path, with every `{appId}` replaced. */
  function BuildUrl(config: Config, path: string): string
  {
    ReplaceAll(config.endpoint + path, AppIdPlaceholder, config.appId, false)
  }

  /** For an endpoint and a path template whose literal parts hold no `{`,
      every `{appId}` of the template becomes the app id. */
  lemma {:induction false} BuildUrlFillsTemplate(config: Config, segments: seq<string>)
    requires |segments| > 0
    requires FreeOfBrace(config.endpoint)
    requires forall i :: 0 <= i < |segments| ==> FreeOfBrace(segments[i])
    ensures BuildUrl(config, Join(segments, AppIdPlaceholder)) == config.endpoint + Join(segments, config.appId)
  {
    ReplaceAllSkipsPlain(config.endpoint, Join(segments, AppIdPlaceholder), AppIdPlaceholder, config.appId, false);
    FillTemplate(segments, config.appId);
  }

  lemma {:induction false} FillTemplate(segments: seq<string>, appId: string)
    requires |segments| > 0
    requires forall i :: 0 <= i < |segments| ==> FreeOfBrace(segments[i])
    ensures ReplaceAll(Join(segments, AppIdPlaceholder), AppIdPlaceholder, appId, false) == Join(segments, appId)
  {
    if |segments| == 1 {
      ReplaceAllSkipsPlain(segments[0], [], AppIdPlaceholder, appId, false);
      assert segments[0] + [] == segments[0];
    } else {
      var rest := Join(segments[1..], AppIdPlaceholder);
      assert Join(segments, AppIdPlaceholder) == segments[0] + (AppIdPlaceholder + rest);
      ReplaceAllSkipsPlain(segments[0], AppIdPlaceholder + rest, AppIdPlaceholder, appId, false);
      ReplaceAllAtMatch(AppIdPlaceholder, rest, AppIdPlaceholder, appId, false);
      FillTemplate(segments[1..], appId);
    }
  }

  // ---------------------------------------------------------------------------
  // Conversations

  /** The fields of a Sunshine conversation that the bridge reads. */
  datatype Conversation = Conversation(id: string, isDefault: bool, metadata: Option<Metadata>)

  /** The room a conversation is bound to, when `metadata.discordChannel` is a string. */
  function BoundChannel(c: Conversation): Option<string>
  {
    AsString(Lookup(c.metadata, "discordChannel"))
  }

  /** The listing filter of the request guards: not the default conversation,
      and a truthy `metadata.discordChannel`. */
  predicate IsOpenRequest(c: Conversation)
  {
    !c.isDefault && Truthy(Lookup(c.metadata, "discordChannel"))
  }

  // ---------------------------------------------------------------------------
  // External ids

  /** `buildExternalId` accepts a user id or a Discord user object. */
  datatype UserRef = UserId(id: string) | DiscordUser(id: string, displayName: string)

  function BuildExternalId(user: UserRef): (r: string)
    ensures StartsWith(r, ExternalIdPrefix)
    ensures r[|ExternalIdPrefix|..] == user.id
  {
    ExternalIdPrefix + user.id
  }

  /** The two forms of a user give the same external id, and distinct ids stay distinct. */
  lemma ExternalIdDeterminesUser(a: UserRef, b: UserRef)
    ensures BuildExternalId(a) == BuildExternalId(b) <==> a.id == b.id
  {
    if BuildExternalId(a) == BuildExternalId(b) {
      assert a.id == BuildExternalId(a)[|ExternalIdPrefix|..];
    }
  }

  // ---------------------------------------------------------------------------
  // Requests and their errors

  datatype HttpMethod = GET | HEAD | POST | PUT | PATCH | DELETE

  /** No body, a `FormData` upload, or a plain object sent as JSON. */
  datatype Body = NoBody | FormBody | JsonBody

  /** The `Content-Type` header `sunshineRequest` sets itself. */
  function ContentType(verb: HttpMethod, body: Body): (r: Option<string>)
    ensures r.Some? <==> !(verb == GET || verb == HEAD) && body == JsonBody
    ensures r.Some? ==> r.value == "application/json"
  {
    if verb != GET && verb != HEAD && body == JsonBody then Some("application/json") else None
  }

  /** One entry of the `errors` array of a failed Sunshine response. */
  datatype ApiError = ApiError(code: string, title: Option<string>)

  /** The `errors` member: an array, or anything else (missing, an object, ...). */
  datatype ErrorsField = ErrorsArray(items: seq<ApiError>) | ErrorsNotArray

  /** What `res.json()` gives: a JSON value other than `null` (represented by
      its `errors` member), `null`, or a rejection because the body is not JSON. */
  datatype ResponseBody = Parsed(errors: ErrorsField) | ParsedNull | NotJson

  datatype Response = Response(status: int, body: ResponseBody)

  /** What `fetch` settles with: a response, or a rejection (network failure). */
  datatype Reply = Delivered(response: Response) | Unreachable(reason: string)

  predicate IsOk(res: Response)
  {
    200 <= res.status <= 299
  }

  /** A reply whose body `res.json()` can read. */
  predicate Readable(reply: Reply)
  {
    reply.Delivered? && !reply.response.body.NotJson?
  }

  /** A reply a request without `ignoredCodes` returns normally. */
  predicate Accepted(reply: Reply)
  {
    Readable(reply) && IsOk(reply.response)
  }

  /** The message of the `SyntaxError` `res.json()` rejects with. */
  const UnreadableBodyError: string := "SyntaxError: response body is not JSON"
  /** The message of the `TypeError` reading `errors` of `null` throws. */
  const NullBodyError: string := "TypeError: cannot read properties of null"

  datatype SunshineError = SunshineError(message: string, cause: string, status: int, codes: seq<string>)

  /** Anything a wrapper can throw: a `SunshineError` or another `Error`. */
  datatype Failure = Sunshine(error: SunshineError) | Plain(message: string)

  /** The `SunshineError` constructor: `codes` defaults to the empty list. */
  function NewSunshineError(message: string, cause: string, status: int, codes: Option<seq<string>>): (e: SunshineError)
    ensures e.message == message && e.cause == cause && e.status == status
    ensures codes.None? ==> e.codes == []
    ensures codes.Some? ==> e.codes == codes.value
  {
    SunshineError(message, cause, status, match codes case Some(c) => c case None => [])
  }

  /** One line of the cause: the title, or the code when there is no title. */
  function CauseLine(e: ApiError): string
  {
    (match e.title case Some(t) => t case None => e.code) + "\n"
  }

  /** The cause built from a list of errors, one line per error in order. */
  function CauseOf(errors: seq<ApiError>): string
  {
    if errors == [] then "" else CauseOf(errors[..|errors| - 1]) + CauseLine(errors[|errors| - 1])
  }

  lemma {:induction false} CauseOfAppend(a: seq<ApiError>, b: seq<ApiError>)
    ensures CauseOf(a + b) == CauseOf(a) + CauseOf(b)
    decreases |b|
  {
    if b == [] {
      assert a + b == a;
    } else {
      var init, last := b[..|b| - 1], b[|b| - 1];
      assert (a + b)[..|a + b| - 1] == a + init;
      assert (a + b)[|a + b| - 1] == last;
      assert CauseOf(a + b) == CauseOf(a + init) + CauseLine(last);
      CauseOfAppend(a, init);
      assert CauseOf(b) == CauseOf(init) + CauseLine(last);
    }
  }

  /** A cause starts with the line of the first error. */
  lemma CauseStartsWithFirstError(errors: seq<ApiError>)
    requires errors != []
    ensures StartsWith(CauseOf(errors), CauseLine(errors[0]))
  {
    CauseOfAppend([errors[0]], errors[1..]);
    assert [errors[0]] + errors[1..] == errors;
    assert CauseOf([errors[0]]) == CauseOf([]) + CauseLine(errors[0]);
  }

  /** The loop of `sunshineRequest` that walks the `errors` array. */
  method CollectErrors(errors: ErrorsField) returns (codes: seq<string>, cause: string)
    ensures errors.ErrorsNotArray? ==> codes == [] && cause == ""
    ensures errors.ErrorsArray? ==> |codes| == |errors.items|
    ensures errors.ErrorsArray? ==> forall i :: 0 <= i < |codes| ==> codes[i] == errors.items[i].code
    ensures errors.ErrorsArray? ==> cause == CauseOf(errors.items)
  {
    codes, cause := [], "";
    if errors.ErrorsArray? {
      var items := errors.items;
      var i := 0;
      while i < |items|
        invariant 0 <= i <= |items|
        invariant |codes| == i
        invariant forall k :: 0 <= k < i ==> codes[k] == items[k].code
        invariant cause == CauseOf(items[..i])
      {
        assert items[..i + 1][..i] == items[..i];
        cause := cause + CauseLine(items[i]);
        codes := codes + [items[i].code];
        i := i + 1;
      }
      assert items[..i] == items;
    }
  }

  /** Whether a response makes `sunshineRequest` throw: only a non-ok one, and
      then unless `ignoredCodes` is an array sharing a code with the response. */
  predicate Throws(res: Response, codes: seq<string>, ignoredCodes: Option<seq<string>>)
  {
    !IsOk(res) && (ignoredCodes.None? || forall c :: c in ignoredCodes.value ==> c !in codes)
  }

  /** An empty `ignoredCodes` array suppresses nothing. */
  lemma EmptyIgnoredCodesStillThrow(res: Response, codes: seq<string>)
    ensures Throws(res, codes, Some([])) <==> !IsOk(res)
  {
  }

  /** Ignoring more codes never makes a request throw that did not. */
  lemma IgnoringMoreNeverAddsThrows(res: Response, codes: seq<string>, fewer: seq<string>, more: seq<string>)
    requires forall c :: c in fewer ==> c in more
    ensures Throws(res, codes, Some(more)) ==> Throws(res, codes, Some(fewer))
  {
  }

  datatype Request = Request(verb: HttpMethod, body: Body, errorMessage: Option<string>, ignoredCodes: Option<seq<string>>)

  function ErrorMessage(req: Request): string
  {
    match req.errorMessage case Some(m) => m case None => DefaultErrorMessage
  }

  /** The cause `sunshineRequest` builds from the `errors` member. */
  function CauseOfField(errors: ErrorsField): string
  {
    match errors
    case ErrorsArray(items) => CauseOf(items)
    case ErrorsNotArray => ""
  }

  /** What `sunshineRequest` settles with, given what `fetch` settled with. */
  function RequestResult(req: Request, reply: Reply): Result<Response, Failure>
  {
    match reply
    case Unreachable(reason) => Err(Plain(reason))
    case Delivered(res) =>
      if res.body.NotJson? then Err(Plain(UnreadableBodyError))
      else if IsOk(res) then Ok(res)
      else if res.body.ParsedNull? then Err(Plain(NullBodyError))
      else
        var codes := ErrorCodes(res.body.errors);
        if Throws(res, codes, req.ignoredCodes)
        then Err(Sunshine(NewSunshineError(ErrorMessage(req), CauseOfField(res.body.errors), res.status, Some(codes))))
        else Ok(res)
  }

  /** `sunshineRequest`, given what `fetch` settled with: the request goes out
      with the `Content-Type` it declares, the body is read first, and only a
      non-ok response is inspected for errors. */
  method SunshineRequest(req: Request, reply: Reply) returns (contentType: Option<string>, r: Result<Response, Failure>)
    ensures contentType == ContentType(req.verb, req.body)
    ensures r == RequestResult(req, reply)
    ensures reply.Unreachable? ==> r == Err(Plain(reply.reason))
    ensures reply.Delivered? && reply.response.body.NotJson? ==> r == Err(Plain(UnreadableBodyError))
    ensures Accepted(reply) ==> r == Ok(reply.response)
    ensures Readable(reply) && !IsOk(reply.response) && reply.response.body.ParsedNull? ==> r == Err(Plain(NullBodyError))
    ensures r.Ok? ==> Readable(reply) && r.value == reply.response
    ensures reply.Delivered? && reply.response.body.Parsed? ==>
      var res := reply.response;
      && (r.Err? <==> Throws(res, ErrorCodes(res.body.errors), req.ignoredCodes))
      && (r.Err? ==>
            && r.error.Sunshine?
            && r.error.error.status == res.status
            && r.error.error.message == ErrorMessage(req)
            && r.error.error.codes == ErrorCodes(res.body.errors)
            && r.error.error.cause == CauseOfField(res.body.errors))
  {
    contentType := ContentType(req.verb, req.body);
    if reply.Unreachable? {
      r := Err(Plain(reply.reason));
      return;
    }
    var res := reply.response;
    if res.body.NotJson? {
      r := Err(Plain(UnreadableBodyError));
      return;
    }
    if !IsOk(res) {
      if res.body.ParsedNull? {
        r := Err(Plain(NullBodyError));
        return;
      }
      var codes, cause := CollectErrors(res.body.errors);
      assert codes == ErrorCodes(res.body.errors);
      assert cause == CauseOfField(res.body.errors);
      var ignoredEveryMissing := req.ignoredCodes.Some? && forall c :: c in req.ignoredCodes.value ==> c !in codes;
      if req.ignoredCodes.None? || ignoredEveryMissing {
        r := Err(Sunshine(NewSunshineError(ErrorMessage(req), cause, res.status, Some(codes))));
        return;
      }
    }
    r := Ok(res);
  }

  /** The codes `sunshineRequest` collects, in array order. */
  function ErrorCodes(errors: ErrorsField): (codes: seq<string>)
    ensures errors.ErrorsNotArray? ==> codes == []
    ensures errors.ErrorsArray? ==>
      (|codes| == |errors.items| && forall i :: 0 <= i < |codes| ==> codes[i] == errors.items[i].code)
  {
    match errors
    case ErrorsNotArray => []
    case ErrorsArray(items) => seq(|items|, i requires 0 <= i < |items| => items[i].code)
  }

  // ---------------------------------------------------------------------------
  // Wrappers

  /** The remote calls a wrapper made, in order. */
  datatype ApiCall = CreateUserCall | UpdateUserCall | CreateDefaultConversationCall

  function JsonPost(errorMessage: string): Request
  {
    Request(POST, JsonBody, Some(errorMessage), None)
  }

  predicate IsConflict(f: Failure)
  {
    f.Sunshine? && ConflictCode in f.error.codes
  }

  /** A reply that makes a request without `ignoredCodes` throw a conflict. */
  predicate ConflictReply(reply: Reply)
  {
    && reply.Delivered? && !IsOk(reply.response) && reply.response.body.Parsed?
    && ConflictCode in ErrorCodes(reply.response.body.errors)
  }

  /** Without `ignoredCodes`, a request throws a conflict exactly on a conflict reply. */
  lemma ConflictExactlyOnConflictReply(errorMessage: string, reply: Reply)
    ensures var r := RequestResult(JsonPost(errorMessage), reply);
      r.Err? && IsConflict(r.error) <==> ConflictReply(reply)
  {
  }

  const CreateUserRequest := JsonPost("Failed to create user")
  const CreateConversationRequest := JsonPost("Failed to create conversation")
  const UpdateUserRequest := Request(PATCH, JsonBody, Some("Failed to update user"), None)
  const PostMessageRequest := JsonPost("Failed to create message")
  const ListConversationsRequest := Request(GET, NoBody, Some("Couldn't fetch conversations for user"), None)
  const DeleteConversationRequest := Request(DELETE, NoBody, Some("Failed to delete conversation"), None)
  const UploadAttachmentRequest := Request(POST, FormBody, Some("Couldn't upload attachment to Sunshine"), None)

  /** The wrappers that send an object declare it as JSON; the listing and the
      deletion send no body and no type; an upload leaves its multipart type
      to `fetch`. */
  lemma RequestContentTypes()
    ensures ContentType(CreateUserRequest.verb, CreateUserRequest.body) == Some("application/json")
    ensures ContentType(CreateConversationRequest.verb, CreateConversationRequest.body) == Some("application/json")
    ensures ContentType(UpdateUserRequest.verb, UpdateUserRequest.body) == Some("application/json")
    ensures ContentType(PostMessageRequest.verb, PostMessageRequest.body) == Some("application/json")
    ensures ContentType(ListConversationsRequest.verb, ListConversationsRequest.body) == None
    ensures ContentType(DeleteConversationRequest.verb, DeleteConversationRequest.body) == None
    ensures ContentType(UploadAttachmentRequest.verb, UploadAttachmentRequest.body) == None
  {
  }

  /** A reply to `sunshineCreateConversation` it can take `json.conversation`
      of: accepted, and not the JSON value `null`. */
  predicate ConversationReturned(reply: Reply)
  {
    Accepted(reply) && !reply.response.body.ParsedNull?
  }

  /** What `sunshineCreateUser` settles with. */
  function CreateUserResult(userReply: Reply, conversationReply: Reply): Result<Response, Failure>
  {
    var created := RequestResult(CreateUserRequest, userReply);
    if created.Ok? && created.value.status == 201 then
      match RequestResult(CreateConversationRequest, conversationReply)
      case Err(e) => Err(e)
      case Ok(res) => if res.body.ParsedNull? then Err(Plain(NullBodyError)) else created
    else created
  }

  /** `sunshineCreateUser`: create the user; on status 201 also create the
      user's default conversation (whose failure propagates, including the
      `TypeError` of reading `conversation` from a `null` body). */
  method CreateUser(userReply: Reply, conversationReply: Reply) returns (r: Result<Response, Failure>, calls: seq<ApiCall>)
    ensures r == CreateUserResult(userReply, conversationReply)
    ensures calls == [CreateUserCall] || calls == [CreateUserCall, CreateDefaultConversationCall]
    ensures |calls| == 2 <==> Accepted(userReply) && userReply.response.status == 201
    ensures r.Ok? ==> Accepted(userReply) && r.value == userReply.response
    ensures Accepted(userReply) && userReply.response.status != 201 ==> r == Ok(userReply.response)
    ensures Accepted(userReply) && userReply.response.status == 201 ==> (r.Ok? <==> ConversationReturned(conversationReply))
    ensures Accepted(userReply) && userReply.response.status == 201 && Accepted(conversationReply) ==>
      (conversationReply.response.body.ParsedNull? ==> r == Err(Plain(NullBodyError)))
    ensures !Accepted(userReply) ==> r.Err?
    ensures r.Err? && IsConflict(r.error) <==>
      ConflictReply(userReply) || (Accepted(userReply) && userReply.response.status == 201 && ConflictReply(conversationReply))
  {
    ConflictExactlyOnConflictReply("Failed to create user", userReply);
    ConflictExactlyOnConflictReply("Failed to create conversation", conversationReply);
    var userType, created := SunshineRequest(CreateUserRequest, userReply);
    calls := [CreateUserCall];
    if created.Err? {
      return created, calls;
    }
    if created.value.status == 201 {
      calls := calls + [CreateDefaultConversationCall];
      var conversationType, conversation := SunshineRequest(CreateConversationRequest, conversationReply);
      if conversation.Err? {
        return Err(conversation.error), calls;
      }
      if conversation.value.body.ParsedNull? {
        return Err(Plain(NullBodyError)), calls;
      }
    }
    return created, calls;
  }

  /** A failed creation that is not a conflict is not retried as an update. */
  lemma FailedCreationIsNoConflict(userReply: Reply, conversationReply: Reply)
    requires !Accepted(userReply) && !ConflictReply(userReply)
    ensures CreateUserResult(userReply, conversationReply).Err?
    ensures !IsConflict(CreateUserResult(userReply, conversationReply).error)
  {
    ConflictExactlyOnConflictReply("Failed to create user", userReply);
  }

  /** `sunshineUpsertUser`: create, and update instead only when creating threw
      a `SunshineError` carrying the `conflict` code; any other error is rethrown. */
  method UpsertUser(userReply: Reply, conversationReply: Reply, updateReply: Reply)
    returns (r: Result<Response, Failure>, calls: seq<ApiCall>)
    ensures |calls| >= 1 && calls[0] == CreateUserCall
    ensures UpdateUserCall in calls <==> calls[|calls| - 1] == UpdateUserCall
    ensures CreateDefaultConversationCall in calls <==> Accepted(userReply) && userReply.response.status == 201
    ensures var created := CreateUserResult(userReply, conversationReply);
      UpdateUserCall in calls <==> created.Err? && IsConflict(created.error)
    ensures UpdateUserCall !in calls ==> r == CreateUserResult(userReply, conversationReply)
    ensures UpdateUserCall in calls ==> r == RequestResult(UpdateUserRequest, updateReply)
    ensures UpdateUserCall in calls ==> (r.Ok? <==> Accepted(updateReply))
    ensures UpdateUserCall in calls <==>
      ConflictReply(userReply) || (Accepted(userReply) && userReply.response.status == 201 && ConflictReply(conversationReply))
    ensures !Accepted(userReply) && !ConflictReply(userReply) ==> UpdateUserCall !in calls && r.Err?
  {
    var created;
    created, calls := CreateUser(userReply, conversationReply);
    if !Accepted(userReply) && !ConflictReply(userReply) {
      FailedCreationIsNoConflict(userReply, conversationReply);
    }
    if created.Err? && IsConflict(created.error) {
      calls := calls + [UpdateUserCall];
      var updateType;
      updateType, r := SunshineRequest(UpdateUserRequest, updateReply);
    } else {
      r := created;
    }
  }

  /** `sunshinePostMessage`: anything but status 201 is a failure. */
  method PostMessage(reply: Reply) returns (r: Result<Response, Failure>)
    ensures r.Ok? <==> Accepted(reply) && reply.response.status == 201
    ensures r.Ok? ==> r.value == reply.response
  {
    var postType;
    postType, r := SunshineRequest(PostMessageRequest, reply);
    if r.Ok? && r.value.status != 201 {
      r := Err(Plain("Couldn't create message"));
    }
  }

  /** `sunshineDeleteConversation`: resolves to `res.ok`, i.e. true, or throws. */
  method DeleteConversation(reply: Reply) returns (r: Result<bool, Failure>)
    ensures r.Ok? <==> Accepted(reply)
    ensures r.Ok? ==> r.value
  {
    var deleteType, res := SunshineRequest(DeleteConversationRequest, reply);
    if res.Err? {
      return Err(res.error);
    }
    return Ok(IsOk(res.value));
  }
}
