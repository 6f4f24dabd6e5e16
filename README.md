# myrpl-cli in Dafny

myrpl-cli is a command-line client for the MyRPL programming-course service. This project models two parts of it:

- **How a course is downloaded.** `fetch_course` finds a course by id in the course list. It then walks the course's activities in order. For each one, `save_activity` fetches the activity detail and its initial code, and creates `./courses/{course}/{category}/{activity}`. Into it go `description.md`, `main.py` and `unit_test.py`, plus the category's `description.txt`. A file is written only when `force` is set or the file does not exist yet.
- **How the client authenticates.**
  - The API token comes from a fallback chain: the token in memory, then the token in the keyring, then the stored credentials plus a login, then an interactive prompt plus a login.
  - The API class keeps one header dictionary at class level, so every API object shares it. The constructor and `login` update it in place. A successful login sets it to `"{token_type} {access_token}"`.
  - `submit` copies those headers with only `Content-Type` replaced.
  - Each fetch builds its URL from `https://myrpl.ar` and a fixed path with the ids put in order.

The model has eight modules:

| module | what it holds |
|---|---|
| `Wrappers` | `Option` and `Result`. |
| `Errors` | Every way an operation can fail. |
| `Text` | Decimal rendering of ids and its inverse. Splitting a path into segments and its inverse. |
| `Routes` | The endpoints and their URLs. A URL parser, and the proof that each URL gives back its endpoint and ids. |
| `Http` | Requests and replies. The shared `HeaderCell`. The `Api` class, whose ghost `trace` records every request sent. |
| `Disk` | The file system: a map from path to content plus a set of directories. Pure functions for `makedirs`, `open(..., 'w').write` and a run of conditional writes, with their lemmas. The `FileSystem` class the methods update. |
| `Materialize` | `fetch_course` and `save_activity` as functions of the server, the headers and the disk before the call: the requests sent, the disk after, the count saved and the stopping error. The lemmas on them. |
| `MyRpl` | The keyring (`CredentialStore`), the progress bar (`Progress`) and the `MyRpl` class. The class holds `apiToken` and the imperative `FetchCourse`/`SaveActivity` loops, each proved equal to its specification function. It also holds the token chain (`GetApiToken`, `AuthApiCall`, `InvalidateToken`). |

The server is a function from request to reply. Asking twice with the same request gives the same reply. Each method's contract ties its new state to a specification function of the old state; the lemmas state what the source promises about those functions.

Behaviour of the code as written that the model keeps:

- **Prompted login runs twice.** After a prompt, `get_api_token` logs in once inside `login()` and then once more itself, so the same login request goes out twice. `login()` stores the token from the first reply; the headers and the returned token come from the second (`PromptedLogin`, `PromptedTokens`). These agree iff the two replies carry the same access token. The server model answers identical requests alike, so in the model they always agree (`PromptedLoginActsOnce`).
- **Null file contents.** A null field (for example a category description) truncates its target file and then raises, which ends the whole download.
- **Reply shapes.** The code reads only the keys it indexes, so some replies serve in more than one place:
  - An empty JSON object given where the course or activity list is expected is iterated as an empty list.
  - A list of courses given as the activity list serves as activities, since only each element's `id` is read.
  - A list of id-only records given as the course list finds the course by id. It then fails on the missing `name`.
  - A detail object given as the initial code is a dict without `main.py`, so `main.py` is written empty.
  - Any other shape raises.
- **The tests exercise a newer client** than the code in `myrpl_cli/`. `tests/api_test.py` expects a request `timeout` of 10 (line 94) and a renew-and-retry after a 401 reply (the tests from line 661 on). `myrpl_cli/` implements neither, and this model follows `myrpl_cli/`.

## Model

| member | source | states |
|---|---|---|
| Text.ParseIntToString | myrpl_cli/api.py:52 | Parsing the decimal rendering of an id gives the id back, so distinct ids give distinct URL segments. |
| Routes.UrlIsJoinedSegments | myrpl_cli/api.py:45-93 | Every URL is `BASE_URL` followed by `/`-joined segments: fixed words with the ids in call order. |
| Routes.ParseUrlOfUrl | myrpl_cli/api.py:45-93 | Parsing a built URL gives back its endpoint and every id. |
| Routes.UrlInjective | myrpl_cli/api.py:45-93 | Two calls with different endpoints or ids never build the same URL. |
| Routes.InitialCodeUrlOfThree | tests/api_test.py:334 | The initial-code URL for file 3 ends in `/api/getFileForStudent/3`. |
| Http.LoginRequest | myrpl_cli/api.py:21-33 | The login request is a POST to `/api/auth/login` with fresh headers that carry no Authorization. Its JSON body has exactly the keys `username_or_email` and `password`, holding the given values. |
| Http.LoginStep | myrpl_cli/api.py:34-42 | Login succeeds iff the status is not 4xx/5xx and the reply is an object holding `access_token` and `token_type`. It then returns the reply map unchanged and sets Authorization to `token_type + " " + access_token`. Every failure leaves the headers exactly as they were. No `access_token` gives the no-token error. |
| Http.LoginStepIdempotent | myrpl_cli/api.py:38-40 | Logging in again with the same reply changes neither the headers nor the result. |
| Http.SubmitHeaders | myrpl_cli/api.py:108-109 | The submit headers are the shared ones with only Content-Type replaced by the form's content type. Every other entry is kept. |
| Http.HeaderCell.constructor | myrpl_cli/api.py:11-14 | The class-level headers start as User-Agent and `Content-Type: application/json`. |
| Http.Api.constructor | myrpl_cli/api.py:16-18 | With a bearer token, the shared Authorization becomes `"Bearer " + token`. With none, the shared headers are untouched. |
| Http.Api.Login | myrpl_cli/api.py:20-42 | Sends exactly the login request. The shared headers and the result are what `LoginStep` gives for the server's reply. |
| Http.Api.FetchCourses | myrpl_cli/api.py:44-49 | One GET of the courses URL with the shared headers; returns the reply body. |
| Http.Api.FetchActivities | myrpl_cli/api.py:51-56 | One GET of the activity-list URL of the course; returns the reply body. |
| Http.Api.FetchActivityInfo | myrpl_cli/api.py:58-63 | One GET of the activity URL (course id, then activity id); returns the reply body. |
| Http.Api.FetchInitialCode | myrpl_cli/api.py:65-70 | One GET of `/api/getFileForStudent/{file_id}`; returns the reply body. |
| Http.Api.FetchSubmissions | myrpl_cli/api.py:72-77 | One GET of the activity's submissions URL; returns the reply body. |
| Http.Api.FetchFinalSubmission | myrpl_cli/api.py:79-84 | One GET of the activity's final-submission URL; returns the reply body. |
| Http.Api.FetchSubmissionResult | myrpl_cli/api.py:86-90 | One GET of the submission's result URL; returns the reply body. |
| Http.MimeType | myrpl_cli/api.py:96-98 | The guessed MIME type when there is one, else `application/octet-stream`. |
| Http.Api.Submit | myrpl_cli/api.py:92-113 | Posts to the submissions URL with the guessed MIME type, or `application/octet-stream` when there is no guess. The headers sent are a copy with only Content-Type replaced. The shared headers stay unchanged. |
| Disk.MakeDirsStep | myrpl_cli/myrpl.py:71 | `makedirs(exist_ok=True)` succeeds iff no directory it needs is a file. It then adds the path and its ancestors. On failure nothing changes. |
| Disk.WriteFile | myrpl_cli/myrpl.py:75-76 | Opening a directory fails and changes nothing. For text content, the file holds exactly that text and there is no error. For null content, the file is truncated to `""` and the error is the null-content error for that path. Directories never change. |
| Disk.ApplyWrites | myrpl_cli/myrpl.py:84-88 | A run of conditional writes never changes the directories and never removes a file. |
| Disk.ApplyWritesFrame | myrpl_cli/myrpl.py:84-88 | A run of conditional writes changes no path it does not target. It removes no file and changes no directory. |
| Disk.ApplyWritesSucceeds | myrpl_cli/myrpl.py:84-88 | With distinct targets, the run succeeds iff every selected write meets no directory and has text. |
| Disk.ApplyWritesContents | myrpl_cli/myrpl.py:84-88 | After a successful run, each selected path holds its content and each unselected file keeps its old content. |
| Disk.FileSystem.PathExists | myrpl_cli/myrpl.py:74 | `os.path.exists`: a file or a directory is at the path. |
| Disk.FileSystem.MakeDirs | myrpl_cli/myrpl.py:71 | The file system and the error become what `MakeDirsStep` gives. |
| Disk.FileSystem.Write | myrpl_cli/myrpl.py:75-76 | The file system and the error become what `WriteFile` gives. |
| Materialize.JoinFile | myrpl_cli/myrpl.py:85 | `os.path.join` keeps the base as a prefix and the file name as a suffix. |
| Materialize.PlannedWrites | myrpl_cli/myrpl.py:73-88 | `save_activity` plans exactly four writes, to four distinct paths, all under `./courses/{course}/{category}/`. |
| Materialize.SaveCreatesBaseDir | myrpl_cli/myrpl.py:70-71 | Once `makedirs` finds nothing in the way, `./courses/{course}/{category}/{activity}` exists afterwards, whether or not it existed before. Directories are only added. |
| Materialize.SaveSucceeds | myrpl_cli/myrpl.py:71-88 | The disk part succeeds iff `makedirs` meets no file and every selected write meets no directory and has text. |
| Materialize.SaveForced | myrpl_cli/myrpl.py:73-88 | With `force`, a successful save leaves all four files holding the fetched content. That is: the category description, the description, `main.py` from the initial code (or `""` when absent), and the unit tests. |
| Materialize.SaveKeepsExisting | myrpl_cli/myrpl.py:74 | Without `force`, every file that already existed keeps its old content, even when the save fails. |
| Materialize.ApplyWritesUnforcedKeeps | myrpl_cli/myrpl.py:86-88 | Without `force`, no conditional write replaces an existing file. |
| Materialize.SaveCreatesMissing | myrpl_cli/myrpl.py:73-88 | Without `force`, a successful save creates each of the four files that was missing, with its fetched content. |
| Materialize.SaveFrame | myrpl_cli/myrpl.py:67-88 | No file other than the four targets is created, removed or changed. |
| Materialize.SaveActivitySpec | myrpl_cli/myrpl.py:52-68 | The first request fetches this activity's detail. At most one more follows, and it is always sent when the save succeeds. |
| Materialize.SaveActivityOutcome | myrpl_cli/myrpl.py:52-88 | A detail reply of any other shape stops after that one request, with the unexpected-reply error and the disk untouched. Otherwise the second request is the initial code of the detail's `file_id`. When that reply is a JSON object, the disk and the error are exactly `SaveOnDisk`'s on the detail and the code. This makes `SaveForced`, `SaveKeepsExisting` and `SaveCreatesMissing` about `save_activity` itself. |
| Materialize.SaveOnDisk | myrpl_cli/myrpl.py:70-88 | The disk part never removes a file. It changes the directories only by the ancestors `makedirs` creates for the activity path. |
| Materialize.MainCode | myrpl_cli/myrpl.py:68 | `main.py` content is the code's `main.py` entry when there is one, else the empty string. |
| Materialize.CodeOf | myrpl_cli/myrpl.py:67-68 | Any JSON object can be read as initial code. A detail-shaped object yields no `main.py`. A list cannot, since it has no `.get`. |
| Materialize.SaveAll | myrpl_cli/myrpl.py:46-48 | The loop saves every activity unless one fails; it stops at the first failure. Each saved activity costs exactly two requests, and the failing one at most two. |
| Materialize.SaveAllInOrder | myrpl_cli/myrpl.py:47-48 | Activities are saved in list order: the `i`-th saved activity's detail request is the `2i`-th request. |
| Materialize.SaveActivityStaysInCourse | myrpl_cli/myrpl.py:70-88 | `save_activity` changes no file outside `./courses/{course}/`. |
| Materialize.SaveAllStaysInCourse | myrpl_cli/myrpl.py:46-48 | The whole loop changes no file outside `./courses/{course}/`. |
| Materialize.CoursesOf | myrpl_cli/myrpl.py:37-38 | The reply is read as a course list iff it is a list of courses or an empty object (an empty list). |
| Materialize.ActivitiesOf | myrpl_cli/myrpl.py:43-47 | The reply is read as an activity list iff it is a list of activities, a list of courses (same ids, in order) or an empty object (an empty list). |
| Materialize.FetchCourseSpec | myrpl_cli/myrpl.py:32-50 | The first request is always the course list. With no activity list there is no bar: the run fails, the disk is untouched and at most two requests go out. With one, the second request is the course's activity list, and the count reaches the list's length iff nothing fails. |
| Materialize.FindCourse | myrpl_cli/myrpl.py:38 | Finds the first course whose id matches, or none iff no course matches. |
| Materialize.FetchCourseNotFound | myrpl_cli/myrpl.py:37-40 | A missing course id stops the run after the one course-list request: no activity is fetched and the file system is untouched. |
| Materialize.FetchCourseSavesInOrder | myrpl_cli/myrpl.py:37-48 | The activity list of the first matching course is fetched and saved in order. The bar's total is its length, and the count reaches that length iff nothing fails. Only files under that course change. |
| MyRpl.Assign | myrpl_cli/credential_manager.py:25-26 | Setting a keyring key makes reading it give that value (None removes it). All other keys read as before. |
| MyRpl.TokenChain | myrpl_cli/myrpl.py:98-109 | The in-memory token comes first, then the stored token. The prompt is used iff neither exists and the stored username or password is missing or empty. |
| MyRpl.TokenOf | myrpl_cli/myrpl.py:111-116 | A login yields a token iff it succeeded with a non-null `access_token`. A null token is the all-methods-failed error. |
| MyRpl.TokenWithoutLogin | myrpl_cli/myrpl.py:99-105 | A token in memory or in the keyring is returned with no request and no change of headers or keyring. |
| MyRpl.StoredCredentialsLogin | myrpl_cli/myrpl.py:107-114 | With no token and non-empty stored credentials, exactly one login with those credentials is sent. There is no prompt and no keyring change. |
| MyRpl.PromptedLogin | myrpl_cli/myrpl.py:107-114 | The prompted branch sends the typed login twice. The keyring is updated from the first reply; the headers and the returned token come from the second. |
| MyRpl.PromptedTokens | myrpl_cli/myrpl.py:22-25 | When both prompted logins succeed, the keyring keeps the first reply's access token. The returned token is the second's. They agree iff the two replies carry the same access token. |
| MyRpl.PromptedLoginActsOnce | myrpl_cli/myrpl.py:107-114 | The user is prompted iff there is no token and stored credentials are missing or empty. The server model answers both identical logins alike, so in the model they act as one on the headers and the result. Credentials and token are stored only after a successful first login. |
| MyRpl.AfterInteractiveLogin | myrpl_cli/myrpl.py:22-28 | A successful login stores the typed username and password and the access token (a null token removes the entry). A failed login leaves the keyring as it was. No other entry changes. |
| MyRpl.GetApiTokenSpec | myrpl_cli/myrpl.py:98-116 | The user is prompted iff the chain reaches the prompt. A token in memory or in the keyring costs no request and leaves the headers alone; stored credentials cost one login, the prompt two. Every request is a login POST. Only the prompt can change the keyring. |
| MyRpl.InvalidatedTokenNeedsLogin | myrpl_cli/myrpl.py:118-120 | After invalidation the chain can only use stored credentials or the prompt. |
| MyRpl.CredentialStore.GetStoredCredentials | myrpl_cli/credential_manager.py:12-15 | Reads the `username` and `password` entries, None when missing. |
| MyRpl.CredentialStore.StoreCredentials | myrpl_cli/credential_manager.py:17-19 | Sets the `username` and `password` entries. |
| MyRpl.CredentialStore.GetStoredToken | myrpl_cli/credential_manager.py:21-23 | Reads the `token` entry, None when missing. |
| MyRpl.CredentialStore.StoreToken | myrpl_cli/credential_manager.py:25-26 | Sets the `token` entry through `Assign`. |
| MyRpl.Progress.constructor | myrpl_cli/myrpl.py:46 | The bar starts at 0 with the number of activities as its total. |
| MyRpl.Progress.Update | myrpl_cli/myrpl.py:90 | `update(n)` adds `n` to the count. |
| MyRpl.MyRpl.constructor | myrpl_cli/myrpl.py:13-16 | A fresh API without a bearer token and no token in memory. The shared headers are untouched. |
| MyRpl.MyRpl.Login | myrpl_cli/myrpl.py:18-30 | Prompts once and logs in with what was typed. On success it stores the credentials and the token; a failure is swallowed. Returns what was typed. |
| MyRpl.MyRpl.GetApiToken | myrpl_cli/myrpl.py:98-116 | Result, requests, headers, keyring and prompt count are exactly those of the fallback chain as written. The in-memory token is unchanged. |
| MyRpl.MyRpl.AuthApiCall | myrpl_cli/myrpl.py:93-95 | With a token in memory nothing happens. Otherwise requests, headers, keyring and prompt count are those of the chain. The chain's token is then kept, or its error is returned and the in-memory token stays None. |
| MyRpl.MyRpl.InvalidateToken | myrpl_cli/myrpl.py:118-120 | Both the in-memory and the stored token become None. |
| MyRpl.MyRpl.SaveActivity | myrpl_cli/myrpl.py:52-91 | Requests, file system and error are exactly those of `SaveActivitySpec`. The bar advances by one iff the activity was saved. |
| MyRpl.MyRpl.SaveFiles | myrpl_cli/myrpl.py:70-88 | The `makedirs` and the write loop leave the file system and the error exactly as `SaveOnDisk` gives them. |
| MyRpl.MyRpl.WriteSelected | myrpl_cli/myrpl.py:86-88 | One `if force or not exists: write` step performs the next write of the planned run. |
| MyRpl.MyRpl.SaveActivities | myrpl_cli/myrpl.py:46-48 | The activity loop sends `SaveAll`'s requests and leaves its file system and error. The bar counts the activities saved. |
| MyRpl.MyRpl.FetchCourse | myrpl_cli/myrpl.py:32-50 | `api_token` becomes `token` iff `token` is truthy. Requests, file system, error and progress bar are those of `FetchCourseSpec`. No bar exists unless the activity list was obtained. |

## Left out

- The network: the server is a function from request to reply. `requests.get` and `requests.post` can raise connection errors and timeouts, and nothing in the source catches them; the model cannot express them.
- The server answers identical requests alike. A server that issues a fresh token on every login is therefore not modelled as such. `PromptedTokens` states what the code does with two different login replies.
- JSON decoding: a reply is one of the shapes the code indexes: an object, a course list, an activity list, an activity detail, or something else. A `KeyError` or `TypeError` from any other shape becomes an unexpected-reply error. An object reply to the activity-detail request counts as unexpected even when it happens to have every field read. The same holds wherever a reply shape other than the ones listed under the reply shapes above happens to carry the keys the code reads.
- Only `login` checks the HTTP status. The fetch methods return the body whatever the status, as the source does.
- Numbers in JSON fields that are written to files (which would raise `TypeError`) are not modelled: contents are strings or null.
- The keyring library: it is a map from key to string. `set_password` with None is modelled as deleting the entry, because what `CryptFileKeyring` does with None lies outside the source.
- Terminal I/O: `input` and `getpass` become parameters holding what the user types. `print` output, the tqdm description text, and the login-failure message are left out; the prompt remains as a ghost counter.
- `mimetypes.guess_type` and `MultipartEncoder`: the guess is a function parameter, and the encoder's content type is a string parameter. The submitted file's bytes are not read. The file is also closed before the POST.
- Paths are compared as strings. `.` and `..` segments, symbolic links, permissions, and the need for an existing parent directory when `open` creates a file are not modelled.
- Disk.MakeDirsStep: when a file blocks `makedirs` part-way, the model leaves every directory as it was. The real call keeps the ancestors it created before the failure.
- The activity `language` field is read and not used; the model does not model reading it.
- `myrpl_cli/main.py`, `myrpl_cli/decompiler.py`, `myrpl_cli/myrpl_api.py`, `myrpl_cli/models.py` and `myrpl_cli/errors.py` are not part of this model: they hold argument dispatch, a foreign decompiler, an older copy of the URL builders, and field and exception declarations with no behaviour. `main.py` also calls `fetch_course` with the wrong number of arguments.
- The behaviour that only `tests/api_test.py` exercises is not modelled: the 401 renew-and-retry, `renew_token`, the credential-manager constructor argument, and the model projections. `myrpl_cli/` does not implement it.
