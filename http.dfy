/** The API client of api.py: the requests it sends, the replies it reads,
    and the one header dictionary that every API object shares.

    The network is an oracle: a Server maps each request to its reply. */
module Http {
  import opened Wrappers
  import opened Errors
  import opened Routes

  type Headers = map<string, string>

  const UserAgent: string := "Mozilla/5.0 (Windows NT 10.0; Win64; x64; rv:127.0) Gecko/20100101 Firefox/127.0"
  const AuthorizationKey: string := "Authorization"
  const ContentTypeKey: string := "Content-Type"
  const OctetStream: string := "application/octet-stream"

  /** The class-level API.headers as the class defines it; login sends a fresh copy of the same two entries. */
  const DefaultHeaders: Headers := map["User-Agent" := UserAgent, ContentTypeKey := "application/json"]

  /** A JSON string or null, as a reply field or a file content may be. */
  datatype JsonText = Str(text: string) | Null

  /** How an f-string renders the value: null renders as "None". */
  function Render(v: JsonText): string {
    match v
    case Str(s) => s
    case Null => "None"
  }

  /** The fields of a course that the client reads. */
  datatype Course = Course(id: int, name: string)

  /** An element of the activity list: only its id is read. */
  datatype ActivityRef = ActivityRef(id: int)

  /** The fields of an activity-detail reply that save_activity reads. */
  datatype ActivityDetail = ActivityDetail(
    name: string,
    categoryName: string,
    categoryDescription: JsonText,
    description: JsonText,
    language: string,
    unitTests: JsonText,
    fileId: int)

  /** The JSON body of a reply, in the shapes the code indexes; any other shape is Unexpected. */
  datatype Payload =
    | Object(fields: map<string, JsonText>)
    | CourseList(courses: seq<Course>)
    | ActivityList(activities: seq<ActivityRef>)
    | ActivityDoc(detail: ActivityDetail)
    | Unexpected

  datatype Verb = Get | Post

  datatype Body =
    | NoBody
    | JsonBody(json: map<string, string>)
    | Form(fileName: string, mimeType: string, description: string)

  datatype Request = Request(verb: Verb, url: string, headers: Headers, body: Body)

  datatype Reply = Reply(status: int, payload: Payload)

  type Server = Request -> Reply

  /** requests.get(url, headers=h) for a route. */
  function GetRequest(r: Route, h: Headers): Request {
    Request(Get, Url(r), h, NoBody)
  }

  /** The request api.login sends: fresh headers without the standing Authorization, and
      exactly the two credential fields as its JSON body. */
  function LoginRequest(user: string, password: string): (req: Request)
    ensures req.verb == Post && req.url == BaseUrl + "/api/auth/login"
    ensures AuthorizationKey !in req.headers
    ensures req.body.JsonBody? && req.body.json.Keys == {"username_or_email", "password"}
    ensures req.body.json["username_or_email"] == user && req.body.json["password"] == password
  {
    Request(Post, Url(Route.Login), DefaultHeaders,
            JsonBody(map["username_or_email" := user, "password" := password]))
  }

  /** raise_for_status raises for 4xx and 5xx statuses. */
  predicate IsErrorStatus(status: int) {
    400 <= status < 600
  }

  /** What api.login does with the server's reply: the shared headers afterwards and the result. */
  function LoginStep(h: Headers, reply: Reply): (out: (Headers, Result<map<string, JsonText>, Error>))
    ensures out.1.Err? ==> out.0 == h
    ensures out.1.Ok? <==>
      !IsErrorStatus(reply.status) && reply.payload.Object?
      && "access_token" in reply.payload.fields && "token_type" in reply.payload.fields
    ensures out.1.Ok? ==>
      var m := reply.payload.fields;
      out.1.value == m && out.0 == h[AuthorizationKey := Render(m["token_type"]) + " " + Render(m["access_token"])]
    ensures !IsErrorStatus(reply.status) && reply.payload.Object? && "access_token" !in reply.payload.fields
            ==> out.1 == Err(NoAccessToken)
  {
    if IsErrorStatus(reply.status) then (h, Err(HttpStatus(reply.status)))
    else
      match reply.payload
      case Object(m) =>
        if "access_token" !in m then (h, Err(NoAccessToken))
        else if "token_type" !in m then (h, Err(MissingKey("token_type")))
        else (h[AuthorizationKey := Render(m["token_type"]) + " " + Render(m["access_token"])], Ok(m))
      case Unexpected => (h, Err(UnexpectedReply(Url(Route.Login))))
      // a JSON list, or an object without the key: 'access_token' in login_data is false
      case _ => (h, Err(NoAccessToken))
  }

  /** Logging in twice with the same reply leaves the headers as logging in once does. */
  lemma LoginStepIdempotent(h: Headers, reply: Reply)
    ensures LoginStep(LoginStep(h, reply).0, reply) == LoginStep(h, reply)
  {
    var once := LoginStep(h, reply);
    if once.1.Ok? {
      var m := reply.payload.fields;
      var header := Render(m["token_type"]) + " " + Render(m["access_token"]);
      assert once.0[AuthorizationKey := header] == once.0;
    }
  }

  /** The MIME type submit sends: the guess, or application/octet-stream when there is none. */
  function MimeType(guess: Option<string>): (m: string)
    ensures guess.Some? ==> m == guess.value
    ensures guess.None? ==> m == OctetStream
  {
    guess.GetOr(OctetStream)
  }

  /** The headers submit sends: a copy of the standing headers with only Content-Type replaced. */
  function SubmitHeaders(h: Headers, formContentType: string): (r: Headers)
    ensures r.Keys == h.Keys + {ContentTypeKey}
    ensures r[ContentTypeKey] == formContentType
    ensures forall k :: k in h && k != ContentTypeKey ==> r[k] == h[k]
  {
    h[ContentTypeKey := formContentType]
  }

  /** The request submit posts. */
  function SubmitRequest(h: Headers, guessType: string -> Option<string>, courseId: int, activityId: int,
                         submissionFile: string, description: string, formContentType: string): Request
  {
    Request(Post, Url(Submissions(courseId, activityId)), SubmitHeaders(h, formContentType),
            Form(submissionFile, MimeType(guessType(submissionFile)), description))
  }

  /** The class-level API.headers dictionary: one cell, shared by every API object. */
  class HeaderCell {
    var entries: Headers

    constructor ()
      ensures entries == DefaultHeaders
    {
      entries := DefaultHeaders;
    }
  }

  class Api {
    const headers: HeaderCell
    /** Every request this object has sent, oldest first. */
    ghost var trace: seq<Request>

    /** API(bearer_token): sets the shared Authorization header when a token is given. */
    constructor (shared: HeaderCell, bearerToken: Option<string>)
      modifies shared
      ensures headers == shared && trace == []
      ensures shared.entries == if bearerToken.Some? then old(shared.entries)[AuthorizationKey := "Bearer " + bearerToken.value]
                                else old(shared.entries)
    {
      headers := shared;
      trace := [];
      new;
      if bearerToken.Some? {
        shared.entries := shared.entries[AuthorizationKey := "Bearer " + bearerToken.value];
      }
    }

    method Login(server: Server, user: string, password: string) returns (r: Result<map<string, JsonText>, Error>)
      modifies this, headers
      ensures trace == old(trace) + [LoginRequest(user, password)]
      ensures (headers.entries, r) == LoginStep(old(headers.entries), server(LoginRequest(user, password)))
    {
      var request := LoginRequest(user, password);
      trace := trace + [request];
      var response := server(request);
      if IsErrorStatus(response.status) {
        return Err(HttpStatus(response.status));
      }
      if response.payload.Unexpected? {
        return Err(UnexpectedReply(request.url));
      }
      if !response.payload.Object? || "access_token" !in response.payload.fields {
        return Err(NoAccessToken);
      }
      var loginData := response.payload.fields;
      if "token_type" !in loginData {
        return Err(MissingKey("token_type"));
      }
      headers.entries := headers.entries[AuthorizationKey := Render(loginData["token_type"]) + " " + Render(loginData["access_token"])];
      r := Ok(loginData);
    }

    /** requests.get with the shared headers; the body is returned as it came. */
    method Fetch(server: Server, route: Route) returns (p: Payload)
      modifies this
      ensures trace == old(trace) + [GetRequest(route, headers.entries)]
      ensures p == server(GetRequest(route, headers.entries)).payload
    {
      var request := GetRequest(route, headers.entries);
      trace := trace + [request];
      p := server(request).payload;
    }

    method FetchCourses(server: Server) returns (p: Payload)
      modifies this
      ensures trace == old(trace) + [GetRequest(Route.Courses, headers.entries)]
      ensures p == server(GetRequest(Route.Courses, headers.entries)).payload
    {
      p := Fetch(server, Route.Courses);
    }

    method FetchActivities(server: Server, courseId: int) returns (p: Payload)
      modifies this
      ensures trace == old(trace) + [GetRequest(Activities(courseId), headers.entries)]
      ensures p == server(GetRequest(Activities(courseId), headers.entries)).payload
    {
      p := Fetch(server, Activities(courseId));
    }

    method FetchActivityInfo(server: Server, courseId: int, activityId: int) returns (p: Payload)
      modifies this
      ensures trace == old(trace) + [GetRequest(ActivityInfo(courseId, activityId), headers.entries)]
      ensures p == server(GetRequest(ActivityInfo(courseId, activityId), headers.entries)).payload
    {
      p := Fetch(server, ActivityInfo(courseId, activityId));
    }

    method FetchInitialCode(server: Server, fileId: int) returns (p: Payload)
      modifies this
      ensures trace == old(trace) + [GetRequest(InitialCode(fileId), headers.entries)]
      ensures p == server(GetRequest(InitialCode(fileId), headers.entries)).payload
    {
      p := Fetch(server, InitialCode(fileId));
    }

    method FetchSubmissions(server: Server, courseId: int, activityId: int) returns (p: Payload)
      modifies this
      ensures trace == old(trace) + [GetRequest(Submissions(courseId, activityId), headers.entries)]
      ensures p == server(GetRequest(Submissions(courseId, activityId), headers.entries)).payload
    {
      p := Fetch(server, Submissions(courseId, activityId));
    }

    method FetchFinalSubmission(server: Server, courseId: int, activityId: int) returns (p: Payload)
      modifies this
      ensures trace == old(trace) + [GetRequest(FinalSubmission(courseId, activityId), headers.entries)]
      ensures p == server(GetRequest(FinalSubmission(courseId, activityId), headers.entries)).payload
    {
      p := Fetch(server, FinalSubmission(courseId, activityId));
    }

    method FetchSubmissionResult(server: Server, submissionId: int) returns (p: Payload)
      modifies this
      ensures trace == old(trace) + [GetRequest(SubmissionResult(submissionId), headers.entries)]
      ensures p == server(GetRequest(SubmissionResult(submissionId), headers.entries)).payload
    {
      p := Fetch(server, SubmissionResult(submissionId));
    }

    /** submit: posts the form with the guessed MIME type (octet-stream when unknown) and a copy of the
        shared headers whose Content-Type is the form's; the shared headers stay as they were.
        guessType stands for mimetypes.guess_type, formContentType for the encoder's content type. */
    method Submit(server: Server, guessType: string -> Option<string>, courseId: int, activityId: int,
                  submissionFile: string, description: string, formContentType: string) returns (p: Payload)
      modifies this
      ensures headers.entries == old(headers.entries)
      ensures var sent := SubmitRequest(headers.entries, guessType, courseId, activityId,
                                        submissionFile, description, formContentType);
              trace == old(trace) + [sent] && p == server(sent).payload
      ensures trace[|trace| - 1].body.mimeType
           == if guessType(submissionFile).None? then OctetStream else guessType(submissionFile).value
      ensures trace[|trace| - 1].headers == headers.entries[ContentTypeKey := formContentType]
    {
      var mimeType := guessType(submissionFile);
      if mimeType.None? {
        mimeType := Some(OctetStream);
      }
      var requestHeaders := headers.entries;
      requestHeaders := requestHeaders[ContentTypeKey := formContentType];
      var request := Request(Post, Url(Submissions(courseId, activityId)), requestHeaders,
                             Form(submissionFile, mimeType.value, description));
      trace := trace + [request];
      p := server(request).payload;
    }
  }
}
