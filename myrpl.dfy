/** The MyRPL object: its in-memory API token, the keyring entries it reads and
    writes, the token fallback chain, and the download of a course into the
    file system. The keyring, the file system and the server are explicit
    state or oracles; what the user types at the prompts is a parameter. */
module MyRpl {
  import opened Wrappers
  import opened Errors
  import opened Text
  import opened Routes
  import opened Http
  import opened Disk
  import opened Materialize

  const UsernameKey: string := "username"
  const PasswordKey: string := "password"
  const TokenKey: string := "token"

  /** keyring.get_password: None when nothing is stored under the key. */
  function Lookup(secrets: map<string, string>, key: string): Option<string> {
    if key in secrets then Some(secrets[key]) else None
  }

  /** keyring.set_password: storing None removes the entry. */
  function Assign(secrets: map<string, string>, key: string, value: Option<string>): (r: map<string, string>)
    ensures Lookup(r, key) == value
    ensures forall k :: k != key ==> Lookup(r, k) == Lookup(secrets, k)
  {
    if value.Some? then secrets[key := value.value] else secrets - {key}
  }

  /** The value a JSON field stores in the keyring. */
  function AsSecret(v: JsonText): Option<string> {
    if v.Str? then Some(v.text) else None
  }

  /** Python truthiness of an optional string: present and non-empty. */
  predicate Truthy(s: Option<string>) {
    s.Some? && s.value != ""
  }

  /** The keyring entries of the service. */
  class CredentialStore {
    var secrets: map<string, string>

    constructor (initial: map<string, string>)
      ensures secrets == initial
    {
      secrets := initial;
    }

    method GetStoredCredentials() returns (username: Option<string>, password: Option<string>)
      ensures username == Lookup(secrets, UsernameKey) && password == Lookup(secrets, PasswordKey)
    {
      username := if UsernameKey in secrets then Some(secrets[UsernameKey]) else None;
      password := if PasswordKey in secrets then Some(secrets[PasswordKey]) else None;
    }

    method StoreCredentials(username: string, password: string)
      modifies this
      ensures secrets == old(secrets)[UsernameKey := username][PasswordKey := password]
    {
      secrets := secrets[UsernameKey := username];
      secrets := secrets[PasswordKey := password];
    }

    method GetStoredToken() returns (token: Option<string>)
      ensures token == Lookup(secrets, TokenKey)
    {
      token := if TokenKey in secrets then Some(secrets[TokenKey]) else None;
    }

    method StoreToken(token: Option<string>)
      modifies this
      ensures secrets == Assign(old(secrets), TokenKey, token)
    {
      if token.Some? {
        secrets := secrets[TokenKey := token.value];
      } else {
        secrets := secrets - {TokenKey};
      }
    }
  }

  /** The tqdm bar of fetch_course: its total and how far it has counted. */
  class Progress {
    const total: nat
    var count: nat

    constructor (total: nat)
      ensures this.total == total && count == 0
    {
      this.total := total;
      count := 0;
    }

    method Update(n: nat)
      modifies this
      ensures count == old(count) + n
    {
      count := count + n;
    }
  }

  /** Which step of get_api_token supplies the token. */
  datatype TokenSource =
    | InMemory(token: string)
    | Stored(token: string)
    | StoredCredentials(username: string, password: string)
    | Prompt

  /** The fallback chain: the in-memory token, else the stored token, else the stored credentials
      when both are non-empty, else the prompt. */
  function TokenChain(apiToken: Option<string>, secrets: map<string, string>): (s: TokenSource)
    ensures s.InMemory? <==> apiToken.Some?
    ensures s.Stored? <==> apiToken.None? && TokenKey in secrets
    ensures s.Prompt? <==> apiToken.None? && TokenKey !in secrets
                           && !(Truthy(Lookup(secrets, UsernameKey)) && Truthy(Lookup(secrets, PasswordKey)))
  {
    if apiToken.Some? then InMemory(apiToken.value)
    else if TokenKey in secrets then Stored(secrets[TokenKey])
    else
      var username := Lookup(secrets, UsernameKey);
      var password := Lookup(secrets, PasswordKey);
      if Truthy(username) && Truthy(password) then StoredCredentials(username.value, password.value)
      else Prompt
  }

  /** The access token of a login result; a null access token means every method failed. */
  function TokenOf(r: Result<map<string, JsonText>, Error>): (t: Result<string, Error>)
    ensures t.Ok? <==> r.Ok? && "access_token" in r.value && r.value["access_token"].Str?
    ensures t.Ok? ==> t.value == r.value["access_token"].text
  {
    match r
    case Err(e) => Err(e)
    case Ok(m) =>
      if "access_token" !in m then Err(MissingKey("access_token"))
      else if m["access_token"].Null? then Err(AllAuthFailed)
      else Ok(m["access_token"].text)
  }

  /** The keyring after the interactive login: credentials and token stored only when the login
      succeeds. */
  function AfterInteractiveLogin(secrets: map<string, string>, username: string, password: string,
                                 r: Result<map<string, JsonText>, Error>): (out: map<string, string>)
    ensures r.Ok? && "access_token" in r.value ==>
      && Lookup(out, UsernameKey) == Some(username) && Lookup(out, PasswordKey) == Some(password)
      && Lookup(out, TokenKey) == AsSecret(r.value["access_token"])
    ensures !(r.Ok? && "access_token" in r.value) ==> out == secrets
    ensures forall k :: k != UsernameKey && k != PasswordKey && k != TokenKey ==> Lookup(out, k) == Lookup(secrets, k)
  {
    if r.Ok? && "access_token" in r.value then
      Assign(secrets[UsernameKey := username][PasswordKey := password], TokenKey, AsSecret(r.value["access_token"]))
    else secrets
  }

  /** The outcome of get_api_token: the token or the error, the requests sent, the shared headers
      and the keyring afterwards, and whether the user was prompted. */
  datatype Auth = Auth(result: Result<string, Error>, requests: seq<Request>, headers: Headers,
                       secrets: map<string, string>, prompted: bool)

  /** The prompted branch of get_api_token: login() logs in with what was typed and stores the
      outcome, then get_api_token logs in once more with the same credentials. `first` and `second`
      are the server's replies to the two logins. */
  function PromptedLogin(h: Headers, secrets: map<string, string>, username: string, password: string,
                         first: Reply, second: Reply): (a: Auth)
    ensures a.prompted && a.requests == [LoginRequest(username, password), LoginRequest(username, password)]
    ensures var (h1, r1) := LoginStep(h, first);
      && a.secrets == AfterInteractiveLogin(secrets, username, password, r1)
      && (a.headers, a.result) == (LoginStep(h1, second).0, TokenOf(LoginStep(h1, second).1))
  {
    var request := LoginRequest(username, password);
    var (h1, r1) := LoginStep(h, first);
    var (h2, r2) := LoginStep(h1, second);
    Auth(TokenOf(r2), [request, request], h2, AfterInteractiveLogin(secrets, username, password, r1), true)
  }

  /** When both prompted logins succeed, the keyring keeps the first reply's access token while the
      returned token comes from the second; the two agree exactly when the replies carry the same
      access token. */
  lemma PromptedTokens(h: Headers, secrets: map<string, string>, username: string, password: string,
                       first: Reply, second: Reply)
    requires LoginStep(h, first).1.Ok? && LoginStep(LoginStep(h, first).0, second).1.Ok?
    ensures var a := PromptedLogin(h, secrets, username, password, first, second);
      && Lookup(a.secrets, TokenKey) == AsSecret(first.payload.fields["access_token"])
      && (a.result.Ok? <==> second.payload.fields["access_token"].Str?)
      && (a.result.Ok? ==>
            && a.result.value == second.payload.fields["access_token"].text
            && (Lookup(a.secrets, TokenKey) == Some(a.result.value)
                <==> first.payload.fields["access_token"] == second.payload.fields["access_token"]))
  {
  }

  /** get_api_token as written: after a prompt it logs in once inside login() and once more itself.
      Only a login can change the headers, and only the prompt can change the keyring. */
  function GetApiTokenSpec(server: Server, h: Headers, apiToken: Option<string>, secrets: map<string, string>,
                           typedUsername: string, typedPassword: string): (a: Auth)
    ensures var chain := TokenChain(apiToken, secrets);
      && (a.prompted <==> chain.Prompt?)
      && |a.requests| == (if chain.InMemory? || chain.Stored? then 0 else if chain.StoredCredentials? then 1 else 2)
      && (forall i :: 0 <= i < |a.requests| ==> a.requests[i].verb == Post && a.requests[i].url == BaseUrl + "/api/auth/login")
      && (!a.prompted ==> a.secrets == secrets)
      && (a.requests == [] ==> a.headers == h && a.result.Ok?)
  {
    match TokenChain(apiToken, secrets)
    case InMemory(t) => Auth(Ok(t), [], h, secrets, false)
    case Stored(t) => Auth(Ok(t), [], h, secrets, false)
    case StoredCredentials(u, p) =>
      var request := LoginRequest(u, p);
      var (h1, r1) := LoginStep(h, server(request));
      Auth(TokenOf(r1), [request], h1, secrets, false)
    case Prompt =>
      var request := LoginRequest(typedUsername, typedPassword);
      PromptedLogin(h, secrets, typedUsername, typedPassword, server(request), server(request))
  }

  /** A token in memory or in the keyring is returned as it is, with no request and no change. */
  lemma TokenWithoutLogin(server: Server, h: Headers, apiToken: Option<string>, secrets: map<string, string>,
                          typedUsername: string, typedPassword: string)
    requires apiToken.Some? || TokenKey in secrets
    ensures GetApiTokenSpec(server, h, apiToken, secrets, typedUsername, typedPassword)
         == Auth(Ok(if apiToken.Some? then apiToken.value else secrets[TokenKey]), [], h, secrets, false)
  {
  }

  /** Without a token, non-empty stored credentials are used for one login and nothing is prompted. */
  lemma StoredCredentialsLogin(server: Server, h: Headers, secrets: map<string, string>,
                               typedUsername: string, typedPassword: string)
    requires TokenKey !in secrets && Truthy(Lookup(secrets, UsernameKey)) && Truthy(Lookup(secrets, PasswordKey))
    ensures var a := GetApiTokenSpec(server, h, None, secrets, typedUsername, typedPassword);
      var request := LoginRequest(secrets[UsernameKey], secrets[PasswordKey]);
      && !a.prompted && a.requests == [request] && a.secrets == secrets
      && (a.headers, TokenOf(LoginStep(h, server(request)).1)) == (LoginStep(h, server(request)).0, a.result)
  {
  }

  /** The user is prompted exactly when there is no token and the stored username or password is
      missing or empty. The server model answers the two identical logins alike, so the second one
      leaves the headers and the result as one login does; only a successful first login stores
      anything. */
  lemma PromptedLoginActsOnce(server: Server, h: Headers, apiToken: Option<string>, secrets: map<string, string>,
                              typedUsername: string, typedPassword: string)
    ensures var a := GetApiTokenSpec(server, h, apiToken, secrets, typedUsername, typedPassword);
      a.prompted <==> apiToken.None? && TokenKey !in secrets
                      && !(Truthy(Lookup(secrets, UsernameKey)) && Truthy(Lookup(secrets, PasswordKey)))
    ensures var a := GetApiTokenSpec(server, h, apiToken, secrets, typedUsername, typedPassword);
      var request := LoginRequest(typedUsername, typedPassword);
      var (h1, r1) := LoginStep(h, server(request));
      a.prompted ==>
        && a.requests == [request, request]
        && a.headers == h1 && a.result == TokenOf(r1)
        && (r1.Ok? ==> Lookup(a.secrets, UsernameKey) == Some(typedUsername) && Lookup(a.secrets, PasswordKey) == Some(typedPassword)
                       && Lookup(a.secrets, TokenKey) == AsSecret(r1.value["access_token"]))
        && (r1.Err? ==> a.secrets == secrets)
  {
    var request := LoginRequest(typedUsername, typedPassword);
    LoginStepIdempotent(h, server(request));
  }

  /** After invalidate_token, the next get_api_token has to log in. */
  lemma InvalidatedTokenNeedsLogin(secrets: map<string, string>)
    ensures var s := TokenChain(None, Assign(secrets, TokenKey, None));
      s.StoredCredentials? || s.Prompt?
  {
  }

  class MyRpl {
    const api: Api
    const store: CredentialStore
    /** The process's file system, which the os calls act on. */
    const fs: FileSystem
    var apiToken: Option<string>
    /** How many times the user has been asked for credentials. */
    ghost var prompts: nat

    /** MyRPL(): a fresh API without a bearer token, so the shared headers are left alone. */
    constructor (shared: HeaderCell, store: CredentialStore, fs: FileSystem)
      modifies shared
      ensures api.headers == shared && api.trace == [] && shared.entries == old(shared.entries)
      ensures this.store == store && this.fs == fs
      ensures apiToken == None && prompts == 0
    {
      api := new Api(shared, None);
      this.store := store;
      this.fs := fs;
      apiToken := None;
      prompts := 0;
    }

    /** login(): prompts, logs in, and on success stores the credentials and the token; a failed
        login is reported and swallowed. Returns what was typed. */
    method Login(server: Server, typedUsername: string, typedPassword: string) returns (username: string, password: string)
      modifies this, api, api.headers, store
      ensures username == typedUsername && password == typedPassword
      ensures apiToken == old(apiToken) && prompts == old(prompts) + 1
      ensures api.trace == old(api.trace) + [LoginRequest(typedUsername, typedPassword)]
      ensures var (h, r) := LoginStep(old(api.headers.entries), server(LoginRequest(typedUsername, typedPassword)));
        api.headers.entries == h && store.secrets == AfterInteractiveLogin(old(store.secrets), typedUsername, typedPassword, r)
    {
      prompts := prompts + 1;
      username, password := typedUsername, typedPassword;
      var loginResult := api.Login(server, username, password);
      if loginResult.Ok? {
        store.StoreCredentials(username, password);
        store.StoreToken(AsSecret(loginResult.value["access_token"]));
      }
    }

    /** get_api_token: the first source of the chain that has a token. */
    method GetApiToken(server: Server, typedUsername: string, typedPassword: string) returns (r: Result<string, Error>)
      modifies this, api, api.headers, store
      ensures apiToken == old(apiToken)
      ensures var a := GetApiTokenSpec(server, old(api.headers.entries), old(apiToken), old(store.secrets),
                                       typedUsername, typedPassword);
        && r == a.result && api.trace == old(api.trace) + a.requests
        && api.headers.entries == a.headers && store.secrets == a.secrets
        && prompts == old(prompts) + (if a.prompted then 1 else 0)
    {
      if apiToken.Some? {
        return Ok(apiToken.value);
      }
      var storedToken := store.GetStoredToken();
      if storedToken.Some? {
        return Ok(storedToken.value);
      }
      var username, password := store.GetStoredCredentials();
      var user, pass;
      if !Truthy(username) || !Truthy(password) {
        user, pass := Login(server, typedUsername, typedPassword);
      } else {
        user, pass := username.value, password.value;
      }
      var loginResult := api.Login(server, user, pass);
      if loginResult.Err? {
        return Err(loginResult.error);
      }
      var token := loginResult.value["access_token"];
      if token.Str? {
        return Ok(token.text);
      }
      r := Err(AllAuthFailed);
    }

    /** auth_api_call: fetches a token through the chain when none is in memory, and keeps it. */
    method AuthApiCall(server: Server, typedUsername: string, typedPassword: string) returns (err: Option<Error>)
      modifies this, api, api.headers, store
      ensures old(apiToken).Some? ==>
        apiToken == old(apiToken) && err.None? && api.trace == old(api.trace) && prompts == old(prompts)
        && api.headers.entries == old(api.headers.entries) && store.secrets == old(store.secrets)
      ensures var a := GetApiTokenSpec(server, old(api.headers.entries), old(apiToken), old(store.secrets),
                                       typedUsername, typedPassword);
        old(apiToken).None? ==>
          && api.trace == old(api.trace) + a.requests && store.secrets == a.secrets
          && api.headers.entries == a.headers && prompts == old(prompts) + (if a.prompted then 1 else 0)
          && (if a.result.Ok? then apiToken == Some(a.result.value) && err.None?
              else apiToken == None && err == Some(a.result.error))
    {
      err := None;
      if apiToken.None? {
        var r := GetApiToken(server, typedUsername, typedPassword);
        if r.Err? {
          return Some(r.error);
        }
        apiToken := Some(r.value);
      }
    }

    /** invalidate_token: forgets the token in memory and in the keyring. */
    method InvalidateToken()
      modifies this, store
      ensures apiToken == None && Lookup(store.secrets, TokenKey) == None
      ensures store.secrets == Assign(old(store.secrets), TokenKey, None)
    {
      apiToken := None;
      store.StoreToken(None);
    }

    /** save_activity: fetch the detail and the initial code, save the files, then count the activity. */
    method SaveActivity(api: Api, server: Server, course: Course, activity: ActivityRef, bar: Progress, force: bool,
                        ghost h: Headers, ghost d: State)
      returns (err: Option<Error>)
      requires api.headers.entries == h && fs.Snapshot() == d
      modifies api, fs, bar
      ensures var s := SaveActivitySpec(server, h, d, course, activity, force);
        api.trace == old(api.trace) + s.requests && fs.Snapshot() == s.disk && err == s.error
      ensures bar.count == old(bar.count) + (if err.None? then 1 else 0)
    {
      var infoPayload := api.FetchActivityInfo(server, course.id, activity.id);
      if !infoPayload.ActivityDoc? {
        return Some(UnexpectedReply(Url(ActivityInfo(course.id, activity.id))));
      }
      var info := infoPayload.detail;
      var codePayload := api.FetchInitialCode(server, info.fileId);
      var initialCode := CodeOf(codePayload);
      if initialCode.None? {
        return Some(UnexpectedReply(Url(InitialCode(info.fileId))));
      }
      err := SaveFiles(course.name, info, initialCode.value, force);
      if err.None? {
        bar.Update(1);
      }
    }

    /** The disk part of save_activity: create the activity directory, then write each of the four
        files that force or its absence selects, stopping at the first failure. */
    method SaveFiles(course: string, info: ActivityDetail, code: map<string, JsonText>, force: bool)
      returns (err: Option<Error>)
      modifies fs
      ensures (fs.Snapshot(), err) == SaveOnDisk(old(fs.Snapshot()), course, info, code, force)
    {
      var mainPyContent := MainCode(code);
      var basePath := BasePath(course, info.categoryName, info.name);
      err := fs.MakeDirs(basePath);
      if err.Some? {
        return;
      }
      ghost var afterDirs := fs.Snapshot();
      ghost var ws := PlannedWrites(course, info, code);
      var categoryDescriptionPath := CategoryDescriptionPath(course, info.categoryName);
      err := WriteSelected(ws, 0, FileWrite(categoryDescriptionPath, info.categoryDescription), force);
      if err.Some? {
        return;
      }
      var filesToSave := [("description.md", info.description), ("main.py", mainPyContent), ("unit_test.py", info.unitTests)];
      var i := 0;
      while i < |filesToSave|
        invariant 0 <= i <= |filesToSave|
        invariant err.None?
        invariant ApplyWrites(afterDirs, ws, force) == ApplyWrites(fs.Snapshot(), ws[i + 1..], force)
        modifies fs
      {
        var (filename, content) := filesToSave[i];
        var filePath := JoinFile(basePath, filename);
        err := WriteSelected(ws, i + 1, FileWrite(filePath, content), force);
        if err.Some? {
          return;
        }
        i := i + 1;
      }
    }

    /** `if force or not os.path.exists(path)`, then open and write: one step of the planned writes ws. */
    method WriteSelected(ghost ws: seq<FileWrite>, ghost i: nat, w: FileWrite, force: bool) returns (err: Option<Error>)
      requires i < |ws| && ws[i] == w
      modifies fs
      ensures err.None? ==> ApplyWrites(old(fs.Snapshot()), ws[i..], force) == ApplyWrites(fs.Snapshot(), ws[i + 1..], force)
      ensures err.Some? ==> ApplyWrites(old(fs.Snapshot()), ws[i..], force) == (fs.Snapshot(), err)
    {
      assert ws[i..][1..] == ws[i + 1..];
      var present := fs.PathExists(w.path);
      err := None;
      if force || !present {
        err := fs.Write(w);
      }
    }

    /** fetch_course: keeps a truthy token, finds the course, then saves its activities in order,
        counting each on a fresh progress bar; the bar is null when the activity list never came. */
    method FetchCourse(api: Api, server: Server, courseId: int, token: Option<string>, force: bool)
      returns (err: Option<Error>, bar: Progress?)
      modifies this, api, fs
      ensures apiToken == if Truthy(token) then token else old(apiToken)
      ensures var run := FetchCourseSpec(server, api.headers.entries, old(fs.Snapshot()), courseId, force);
        && api.trace == old(api.trace) + run.requests && fs.Snapshot() == run.disk && err == run.error
        && (bar == null <==> run.listed.None?)
        && (bar != null ==> fresh(bar) && bar.total == run.listed.value && bar.count == run.saved)
    {
      if Truthy(token) {
        apiToken := token;
      }
      var coursesPayload := api.FetchCourses(server);
      if coursesPayload.ActivityList? {
        if ListsId(coursesPayload.activities, courseId) {
          return Some(MissingKey("name")), null;
        }
        return Some(CourseNotFound(courseId)), null;
      }
      var courses := CoursesOf(coursesPayload);
      if courses.None? {
        return Some(UnexpectedReply(Url(Route.Courses))), null;
      }
      var found := FindCourse(courses.value, courseId);
      if found.None? {
        return Some(CourseNotFound(courseId)), null;
      }
      var course := courses.value[found.value];
      var activitiesPayload := api.FetchActivities(server, courseId);
      var activities := ActivitiesOf(activitiesPayload);
      if activities.None? {
        return Some(UnexpectedReply(Url(Activities(courseId)))), null;
      }
      bar := new Progress(|activities.value|);
      ghost var sent := api.trace;
      assert sent == old(api.trace) + [GetRequest(Route.Courses, api.headers.entries), GetRequest(Activities(courseId), api.headers.entries)];
      err := SaveActivities(api, server, course, activities.value, bar, force);
      ghost var b := SaveAll(server, api.headers.entries, old(fs.Snapshot()), course, activities.value, force);
      ConcatAssoc(old(api.trace), [GetRequest(Route.Courses, api.headers.entries), GetRequest(Activities(courseId), api.headers.entries)], b.requests);
    }

    /** The loop of fetch_course: save_activity on each activity in list order, until one raises. */
    method SaveActivities(api: Api, server: Server, course: Course, activities: seq<ActivityRef>, bar: Progress, force: bool)
      returns (err: Option<Error>)
      modifies api, fs, bar
      ensures var b := SaveAll(server, api.headers.entries, old(fs.Snapshot()), course, activities, force);
        && api.trace == old(api.trace) + b.requests && fs.Snapshot() == b.disk && err == b.error
        && bar.count == old(bar.count) + b.saved
    {
      ghost var h := api.headers.entries;
      ghost var total := SaveAll(server, h, fs.Snapshot(), course, activities, force);
      ghost var t0 := api.trace;
      ghost var c0 := bar.count;
      ghost var done: seq<Request> := [];
      err := None;
      var i := 0;
      while i < |activities|
        invariant 0 <= i <= |activities|
        invariant err.None? && api.headers.entries == h
        invariant api.trace == t0 + done
        invariant var rest := SaveAll(server, h, fs.Snapshot(), course, activities[i..], force);
          && total.requests == done + rest.requests
          && total.disk == rest.disk && c0 + total.saved == bar.count + rest.saved && total.error == rest.error
        modifies api, fs, bar
      {
        ghost var d := fs.Snapshot();
        ghost var s := SaveActivitySpec(server, h, d, course, activities[i], force);
        ghost var rest := SaveAll(server, h, s.disk, course, activities[i + 1..], force);
        SaveAllAt(server, h, d, course, activities, i, force);
        err := SaveActivity(api, server, course, activities[i], bar, force, h, d);
        ConcatAssoc(t0, done, s.requests);
        if err.Some? {
          return;
        }
        ConcatAssoc(done, s.requests, rest.requests);
        done := done + s.requests;
        i := i + 1;
      }
    }
  }
}
