/** The endpoints of the remote service and the URL each API call builds:
    BASE_URL followed by a fixed path into which the ids are interpolated in
    order. A parser for these URLs shows that a URL determines its endpoint
    and its ids. */
module Routes {
  import opened Wrappers
  import opened Text

  const BaseUrl: string := "https://myrpl.ar"

  /** One value per URL shape the client builds (api.py: login and the fetch_* methods; submit
      posts to the Submissions path). */
  datatype Route =
    | Login
    | Courses
    | Activities(courseId: int)
    | ActivityInfo(courseId: int, activityId: int)
    | InitialCode(fileId: int)
    | Submissions(courseId: int, activityId: int)
    | FinalSubmission(courseId: int, activityId: int)
    | SubmissionResult(submissionId: int)

  /** The path segments of a route: fixed words with the ids rendered in decimal. */
  function Segments(r: Route): (segs: seq<string>)
    ensures forall i :: 0 <= i < |segs| ==> NoSlash(segs[i])
  {
    match r
    case Login => ["api", "auth", "login"]
    case Courses => ["api", "courses"]
    case Activities(c) => ["api", "courses", IntToString(c), "activities"]
    case ActivityInfo(c, a) => ["api", "courses", IntToString(c), "activities", IntToString(a)]
    case InitialCode(f) => ["api", "getFileForStudent", IntToString(f)]
    case Submissions(c, a) => ["api", "courses", IntToString(c), "activities", IntToString(a), "submissions"]
    case FinalSubmission(c, a) => ["api", "courses", IntToString(c), "activities", IntToString(a), "finalSubmission"]
    case SubmissionResult(s) => ["api", "submissions", IntToString(s), "result"]
  }

  /** The URL a call builds, spelled as the f-strings of api.py spell it. */
  function Url(r: Route): string {
    match r
    case Login => BaseUrl + "/api/auth/login"
    case Courses => BaseUrl + "/api/courses"
    case Activities(c) => BaseUrl + "/api/courses/" + IntToString(c) + "/activities"
    case ActivityInfo(c, a) => BaseUrl + "/api/courses/" + IntToString(c) + "/activities/" + IntToString(a)
    case InitialCode(f) => BaseUrl + "/api/getFileForStudent/" + IntToString(f)
    case Submissions(c, a) =>
      BaseUrl + "/api/courses/" + IntToString(c) + "/activities/" + IntToString(a) + "/submissions"
    case FinalSubmission(c, a) =>
      BaseUrl + "/api/courses/" + IntToString(c) + "/activities/" + IntToString(a) + "/finalSubmission"
    case SubmissionResult(s) => BaseUrl + "/api/submissions/" + IntToString(s) + "/result"
  }

  function IdAt(segs: seq<string>, i: nat): Option<int>
    requires i < |segs|
  {
    ParseInt(segs[i])
  }

  /** The route whose segments these are, if any. */
  function RouteOf(segs: seq<string>): Option<Route> {
    if segs == ["api", "auth", "login"] then Some(Login)
    else if segs == ["api", "courses"] then Some(Courses)
    else if |segs| == 3 && segs[0] == "api" && segs[1] == "getFileForStudent" && IdAt(segs, 2).Some? then
      Some(InitialCode(IdAt(segs, 2).value))
    else if |segs| == 4 && segs[0] == "api" && segs[1] == "submissions" && segs[3] == "result" && IdAt(segs, 2).Some? then
      Some(SubmissionResult(IdAt(segs, 2).value))
    else if |segs| >= 4 && segs[0] == "api" && segs[1] == "courses" && segs[3] == "activities" && IdAt(segs, 2).Some? then
      var c := IdAt(segs, 2).value;
      if |segs| == 4 then Some(Activities(c))
      else if IdAt(segs, 4).None? then None
      else if |segs| == 5 then Some(ActivityInfo(c, IdAt(segs, 4).value))
      else if |segs| == 6 && segs[5] == "submissions" then Some(Submissions(c, IdAt(segs, 4).value))
      else if |segs| == 6 && segs[5] == "finalSubmission" then Some(FinalSubmission(c, IdAt(segs, 4).value))
      else None
    else None
  }

  /** The route a URL of this service addresses, if any. */
  function ParseUrl(u: string): Option<Route> {
    if |u| >= |BaseUrl| && u[..|BaseUrl|] == BaseUrl then
      match SplitPath(u[|BaseUrl|..])
      case None => None
      case Some(segs) => RouteOf(segs)
    else None
  }

  lemma JoinPathCons(head: string, rest: seq<string>)
    ensures JoinPath([head] + rest) == "/" + head + JoinPath(rest)
  {
    assert ([head] + rest)[1..] == rest;
  }

  lemma JoinPath2(a: string, b: string)
    ensures JoinPath([a, b]) == "/" + a + "/" + b
  {
    JoinPathCons(b, []);
    assert [a, b] == [a] + [b];
    JoinPathCons(a, [b]);
  }

  lemma JoinPath3(a: string, b: string, c: string)
    ensures JoinPath([a, b, c]) == "/" + a + "/" + b + "/" + c
  {
    JoinPath2(b, c);
    assert [a, b, c] == [a] + [b, c];
    JoinPathCons(a, [b, c]);
  }

  lemma JoinPath4(a: string, b: string, c: string, d: string)
    ensures JoinPath([a, b, c, d]) == "/" + a + "/" + b + "/" + c + "/" + d
  {
    JoinPath3(b, c, d);
    assert [a, b, c, d] == [a] + [b, c, d];
    JoinPathCons(a, [b, c, d]);
  }

  lemma JoinedActivities(c: int)
    ensures Url(Activities(c)) == BaseUrl + JoinPath(Segments(Activities(c)))
  {
    var cs := IntToString(c);
    JoinPath4("api", "courses", cs, "activities");
    assert "/" + "api" + "/" + "courses" + "/" + cs + "/" + "activities" == "/api/courses/" + cs + "/activities";
  }

  /** Appending one segment appends "/" and the segment. */
  lemma {:induction false} JoinPathSnoc(init: seq<string>, last: string)
    ensures JoinPath(init + [last]) == JoinPath(init) + "/" + last
  {
    if init == [] {
      JoinPathCons(last, []);
    } else {
      assert (init + [last])[1..] == init[1..] + [last];
      JoinPathSnoc(init[1..], last);
    }
  }

  lemma JoinedActivityInfo(c: int, a: int)
    ensures Url(ActivityInfo(c, a)) == BaseUrl + JoinPath(Segments(ActivityInfo(c, a)))
  {
    var x, ids := BaseUrl + "/api/courses/" + IntToString(c), IntToString(a);
    JoinedActivities(c);
    assert Segments(ActivityInfo(c, a)) == Segments(Activities(c)) + [ids];
    JoinPathSnoc(Segments(Activities(c)), ids);
    assert "/activities/" == "/activities" + "/";
    assert x + "/activities/" + ids == x + "/activities" + "/" + ids;
  }

  lemma JoinedInitialCode(f: int)
    ensures Url(InitialCode(f)) == BaseUrl + JoinPath(Segments(InitialCode(f)))
  {
    var fs := IntToString(f);
    JoinPath3("api", "getFileForStudent", fs);
    var p := "/" + "api" + "/" + "getFileForStudent" + "/";
    assert p == "/api/getFileForStudent/";
    ConcatAssoc(BaseUrl, p, fs);
  }

  lemma JoinedSubmissions(c: int, a: int)
    ensures Url(Submissions(c, a)) == BaseUrl + JoinPath(Segments(Submissions(c, a)))
  {
    JoinedActivityInfo(c, a);
    assert Segments(Submissions(c, a)) == Segments(ActivityInfo(c, a)) + ["submissions"];
    JoinPathSnoc(Segments(ActivityInfo(c, a)), "submissions");
  }

  lemma JoinedFinalSubmission(c: int, a: int)
    ensures Url(FinalSubmission(c, a)) == BaseUrl + JoinPath(Segments(FinalSubmission(c, a)))
  {
    JoinedActivityInfo(c, a);
    assert Segments(FinalSubmission(c, a)) == Segments(ActivityInfo(c, a)) + ["finalSubmission"];
    JoinPathSnoc(Segments(ActivityInfo(c, a)), "finalSubmission");
  }

  lemma JoinedSubmissionResult(n: int)
    ensures Url(SubmissionResult(n)) == BaseUrl + JoinPath(Segments(SubmissionResult(n)))
  {
    var ns := IntToString(n);
    JoinPath4("api", "submissions", ns, "result");
    var p := "/" + "api" + "/" + "submissions" + "/";
    assert p == "/api/submissions/";
    assert "/" + "result" == "/result";
    ConcatAssoc(p + ns, "/", "result");
    ConcatAssoc(BaseUrl, p + ns, "/result");
    ConcatAssoc(BaseUrl, p, ns);
  }

  /** Each URL is BASE_URL followed by the route's segments, each after a '/'. */
  lemma UrlIsJoinedSegments(r: Route)
    ensures Url(r) == BaseUrl + JoinPath(Segments(r))
  {
    match r
    case Login => JoinPath3("api", "auth", "login");
    case Courses => JoinPath2("api", "courses");
    case Activities(c) => JoinedActivities(c);
    case ActivityInfo(c, a) => JoinedActivityInfo(c, a);
    case InitialCode(f) => JoinedInitialCode(f);
    case Submissions(c, a) => JoinedSubmissions(c, a);
    case FinalSubmission(c, a) => JoinedFinalSubmission(c, a);
    case SubmissionResult(n) => JoinedSubmissionResult(n);
  }

  lemma RouteOfOneId(r: Route, i: int)
    requires r == Activities(i) || r == InitialCode(i) || r == SubmissionResult(i)
    ensures RouteOf(Segments(r)) == Some(r)
  {
    ParseIntToString(i);
    assert IdAt(Segments(r), 2) == Some(i);
  }

  lemma RouteOfTwoIds(r: Route, c: int, a: int)
    requires r == ActivityInfo(c, a) || r == Submissions(c, a) || r == FinalSubmission(c, a)
    ensures RouteOf(Segments(r)) == Some(r)
  {
    ParseIntToString(c);
    ParseIntToString(a);
    assert IdAt(Segments(r), 2) == Some(c) && IdAt(Segments(r), 4) == Some(a);
  }

  /** The route is recovered from its segments. */
  lemma RouteOfSegments(r: Route)
    ensures RouteOf(Segments(r)) == Some(r)
  {
    match r
    case Login =>
    case Courses =>
    case Activities(c) => RouteOfOneId(r, c);
    case ActivityInfo(c, a) => RouteOfTwoIds(r, c, a);
    case InitialCode(f) => RouteOfOneId(r, f);
    case Submissions(c, a) => RouteOfTwoIds(r, c, a);
    case FinalSubmission(c, a) => RouteOfTwoIds(r, c, a);
    case SubmissionResult(n) => RouteOfOneId(r, n);
  }

  /** Every URL the client builds parses back to its endpoint and its ids, in order. */
  lemma ParseUrlOfUrl(r: Route)
    ensures ParseUrl(Url(r)) == Some(r)
  {
    UrlIsJoinedSegments(r);
    var u := Url(r);
    assert u[..|BaseUrl|] == BaseUrl;
    assert u[|BaseUrl|..] == JoinPath(Segments(r));
    SplitJoinPath(Segments(r));
    RouteOfSegments(r);
  }

  /** Two calls address the same URL only when they are the same endpoint with the same ids. */
  lemma UrlInjective(r1: Route, r2: Route)
    requires Url(r1) == Url(r2)
    ensures r1 == r2
  {
    ParseUrlOfUrl(r1);
    ParseUrlOfUrl(r2);
  }

  /** The file URL the tests expect for file id 3. */
  lemma InitialCodeUrlOfThree()
    ensures Url(InitialCode(3)) == "https://myrpl.ar/api/getFileForStudent/3"
  {
    assert DigitChar(3) == '3';
  }
}
