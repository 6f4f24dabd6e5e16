/** What fetch_course and save_activity do, as functions of the server, the
    shared headers and the file system before the call: the requests sent,
    the file system after, how many activities were saved and the error that
    stopped the run, if any. The imperative methods in module MyRpl are
    proved to agree with these functions; the lemmas here say what the
    functions mean. */
module Materialize {
  import opened Wrappers
  import opened Errors
  import opened Routes
  import opened Http
  import opened Disk

  predicate StartsWith(p: string, prefix: string) {
    |prefix| <= |p| && p[..|prefix|] == prefix
  }

  predicate EndsWith(p: string, suffix: string) {
    |suffix| <= |p| && p[|p| - |suffix|..] == suffix
  }

  /** The directory of all the files of one course. */
  function CourseDir(course: string): string {
    "./courses/" + course
  }

  /** './courses/{course}/{category}'. */
  function CategoryDir(course: string, category: string): string {
    CourseDir(course) + "/" + category
  }

  /** './courses/{course}/{category}/{activity}'. */
  function BasePath(course: string, category: string, activity: string): string {
    CategoryDir(course, category) + "/" + activity
  }

  /** './courses/{course}/{category}/description.txt'. */
  function CategoryDescriptionPath(course: string, category: string): string {
    CategoryDir(course, category) + "/description.txt"
  }

  /** os.path.join(base, name) for a relative name: a '/' goes between them unless base is empty
      or already ends with one. */
  function JoinFile(base: string, name: string): (p: string)
    ensures StartsWith(p, base) && EndsWith(p, name)
  {
    if base == [] || base[|base| - 1] == '/' then base + name else base + "/" + name
  }

  /** initial_code.get('main.py', ''). */
  function MainCode(code: map<string, JsonText>): (c: JsonText)
    ensures "main.py" in code ==> c == code["main.py"]
    ensures "main.py" !in code ==> c == Str("")
  {
    if "main.py" in code then code["main.py"] else Str("")
  }

  /** The initial-code reply as the dict that `.get('main.py', '')` reads: any JSON object. An
      object shaped like an activity detail has no 'main.py' key; a list has no `.get`. */
  function CodeOf(p: Payload): (c: Option<map<string, JsonText>>)
    ensures c.Some? <==> p.Object? || p.ActivityDoc?
    ensures p.Object? ==> c == Some(p.fields)
    ensures p.ActivityDoc? ==> c == Some(map[]) && MainCode(c.value) == Str("")
  {
    match p
    case Object(m) => Some(m)
    case ActivityDoc(_) => Some(map[])
    case _ => None
  }

  /** The four writes save_activity makes, in order: the category description, then the
      entries of files_to_save in insertion order. */
  function PlannedWrites(course: string, info: ActivityDetail, code: map<string, JsonText>): (ws: seq<FileWrite>)
    ensures |ws| == 4 && DistinctPaths(ws)
    ensures forall i :: 0 <= i < |ws| ==> StartsWith(ws[i].path, CategoryDir(course, info.categoryName) + "/")
  {
    var base := BasePath(course, info.categoryName, info.name);
    var ws := [FileWrite(CategoryDescriptionPath(course, info.categoryName), info.categoryDescription),
               FileWrite(JoinFile(base, "description.md"), info.description),
               FileWrite(JoinFile(base, "main.py"), MainCode(code)),
               FileWrite(JoinFile(base, "unit_test.py"), info.unitTests)];
    PlannedPathsDistinct(ws[0].path, ws[1].path, ws[2].path, ws[3].path);
    PrefixOfBase(CategoryDir(course, info.categoryName) + "/", base, ws[1].path);
    PrefixOfBase(CategoryDir(course, info.categoryName) + "/", base, ws[2].path);
    PrefixOfBase(CategoryDir(course, info.categoryName) + "/", base, ws[3].path);
    ws
  }

  lemma PrefixOfBase(prefix: string, base: string, p: string)
    requires StartsWith(base, prefix) && StartsWith(p, base)
    ensures StartsWith(p, prefix)
  {
    assert p[..|prefix|] == p[..|base|][..|prefix|];
  }

  /** Two paths with different endings, neither ending a suffix of the other, differ. */
  lemma DifferentEndings(p: string, q: string, s: string, t: string)
    requires EndsWith(p, s) && EndsWith(q, t) && |s| <= |t|
    requires t[|t| - |s|..] != s
    ensures p != q
  {
  }

  lemma PlannedPathsDistinct(p0: string, p1: string, p2: string, p3: string)
    requires EndsWith(p0, "/description.txt") && EndsWith(p1, "description.md")
    requires EndsWith(p2, "main.py") && EndsWith(p3, "unit_test.py")
    ensures p0 != p1 && p0 != p2 && p0 != p3 && p1 != p2 && p1 != p3 && p2 != p3
  {
    CategoryFileDistinct(p0, p1, p2, p3);
    ActivityFilesDistinct(p1, p2, p3);
  }

  lemma CategoryFileDistinct(p0: string, p1: string, p2: string, p3: string)
    requires EndsWith(p0, "/description.txt") && EndsWith(p1, "description.md")
    requires EndsWith(p2, "main.py") && EndsWith(p3, "unit_test.py")
    ensures p0 != p1 && p0 != p2 && p0 != p3
  {
    DifferentEndings(p1, p0, "description.md", "/description.txt");
    DifferentEndings(p2, p0, "main.py", "/description.txt");
    DifferentEndings(p3, p0, "unit_test.py", "/description.txt");
  }

  lemma ActivityFilesDistinct(p1: string, p2: string, p3: string)
    requires EndsWith(p1, "description.md") && EndsWith(p2, "main.py") && EndsWith(p3, "unit_test.py")
    ensures p1 != p2 && p1 != p3 && p2 != p3
  {
    DifferentEndings(p2, p1, "main.py", "description.md");
    DifferentEndings(p3, p1, "unit_test.py", "description.md");
    DifferentEndings(p2, p3, "main.py", "unit_test.py");
  }

  /** The disk part of save_activity: makedirs on the base path, then the planned writes. */
  function SaveOnDisk(d: State, course: string, info: ActivityDetail, code: map<string, JsonText>, force: bool): (out: (State, Option<Error>))
    ensures d.files.Keys <= out.0.files.Keys
    ensures out.0.dirs == d.dirs || out.0.dirs == d.dirs + Ancestors(BasePath(course, info.categoryName, info.name))
  {
    var (d1, e1) := MakeDirsStep(d, BasePath(course, info.categoryName, info.name));
    if e1.Some? then (d1, e1) else ApplyWrites(d1, PlannedWrites(course, info, code), force)
  }

  /** The file at p exists and holds the text v. */
  predicate Holds(d: State, p: string, v: JsonText) {
    v.Str? && p in d.files && d.files[p] == v.text
  }

  /** After makedirs succeeds the base directory exists, whatever the writes then do;
      directories are only ever added. */
  lemma SaveCreatesBaseDir(d: State, course: string, info: ActivityDetail, code: map<string, JsonText>, force: bool)
    ensures var base := BasePath(course, info.categoryName, info.name);
      var d' := SaveOnDisk(d, course, info, code, force).0;
      && d.dirs <= d'.dirs
      && ((forall a :: a in Ancestors(base) ==> a !in d.files) ==> base in d'.dirs)
  {
    var base := BasePath(course, info.categoryName, info.name);
    var (d1, e1) := MakeDirsStep(d, base);
    ApplyWritesFrame(d1, PlannedWrites(course, info, code), force);
  }

  /** The disk part succeeds exactly when makedirs finds no file in the way and every write
      it makes meets no directory and has text to write. */
  lemma SaveSucceeds(d: State, course: string, info: ActivityDetail, code: map<string, JsonText>, force: bool)
    ensures var base := BasePath(course, info.categoryName, info.name);
      var d1 := State(d.files, d.dirs + Ancestors(base));
      var ws := PlannedWrites(course, info, code);
      SaveOnDisk(d, course, info, code, force).1.None? <==>
        && (forall a :: a in Ancestors(base) ==> a !in d.files)
        && (forall i :: 0 <= i < 4 && Selected(d1, ws[i], force) ==> ws[i].path !in d1.dirs && ws[i].content.Str?)
  {
    var base := BasePath(course, info.categoryName, info.name);
    var (d1, e1) := MakeDirsStep(d, base);
    ApplyWritesSucceeds(d1, PlannedWrites(course, info, code), force);
  }

  /** With force, a successful save leaves all four files holding the fetched contents. */
  lemma SaveForced(d: State, course: string, info: ActivityDetail, code: map<string, JsonText>)
    requires SaveOnDisk(d, course, info, code, true).1.None?
    ensures var base := BasePath(course, info.categoryName, info.name);
      var d' := SaveOnDisk(d, course, info, code, true).0;
      && Holds(d', CategoryDescriptionPath(course, info.categoryName), info.categoryDescription)
      && Holds(d', JoinFile(base, "description.md"), info.description)
      && Holds(d', JoinFile(base, "main.py"), if "main.py" in code then code["main.py"] else Str(""))
      && Holds(d', JoinFile(base, "unit_test.py"), info.unitTests)
  {
    var base := BasePath(course, info.categoryName, info.name);
    var (d1, e1) := MakeDirsStep(d, base);
    var ws := PlannedWrites(course, info, code);
    ApplyWritesSucceeds(d1, ws, true);
    ApplyWritesContents(d1, ws, true);
    assert Selected(d1, ws[0], true) && Selected(d1, ws[1], true) && Selected(d1, ws[2], true) && Selected(d1, ws[3], true);
  }

  /** Without force, a file that already existed keeps its content, whether or not the save succeeds. */
  lemma SaveKeepsExisting(d: State, course: string, info: ActivityDetail, code: map<string, JsonText>)
    ensures var d' := SaveOnDisk(d, course, info, code, false).0;
      forall p :: p in d.files ==> p in d'.files && d'.files[p] == d.files[p]
  {
    var base := BasePath(course, info.categoryName, info.name);
    var (d1, e1) := MakeDirsStep(d, base);
    ApplyWritesUnforcedKeeps(d1, PlannedWrites(course, info, code));
  }

  /** Not forced, no write replaces a file that exists. */
  lemma {:induction false} ApplyWritesUnforcedKeeps(d: State, ws: seq<FileWrite>)
    ensures var d' := ApplyWrites(d, ws, false).0;
      forall p :: p in d.files ==> p in d'.files && d'.files[p] == d.files[p]
    decreases |ws|
  {
    if ws != [] {
      if !Selected(d, ws[0], false) {
        ApplyWritesUnforcedKeeps(d, ws[1..]);
      } else {
        var (d1, e1) := WriteFile(d, ws[0]);
        assert ws[0].path !in d.files;
        if e1.None? {
          ApplyWritesUnforcedKeeps(d1, ws[1..]);
          assert ApplyWrites(d, ws, false) == ApplyWrites(d1, ws[1..], false);
        }
      }
    }
  }

  /** The file at p, missing before and not a directory after, now holds the text v. */
  predicate CreatedIfMissing(d: State, d': State, p: string, v: JsonText) {
    p !in d.files && p !in d'.dirs ==> Holds(d', p, v)
  }

  /** Without force, a successful save creates each of the four files that was missing, with the
      fetched content. */
  lemma SaveCreatesMissing(d: State, course: string, info: ActivityDetail, code: map<string, JsonText>)
    requires SaveOnDisk(d, course, info, code, false).1.None?
    ensures var base := BasePath(course, info.categoryName, info.name);
      var d' := SaveOnDisk(d, course, info, code, false).0;
      && CreatedIfMissing(d, d', CategoryDescriptionPath(course, info.categoryName), info.categoryDescription)
      && CreatedIfMissing(d, d', JoinFile(base, "description.md"), info.description)
      && CreatedIfMissing(d, d', JoinFile(base, "main.py"), if "main.py" in code then code["main.py"] else Str(""))
      && CreatedIfMissing(d, d', JoinFile(base, "unit_test.py"), info.unitTests)
  {
    var d' := SaveOnDisk(d, course, info, code, false).0;
    var ws := PlannedWrites(course, info, code);
    PlannedCreatedIfMissing(d, course, info, code);
    assert CreatedIfMissing(d, d', ws[0].path, ws[0].content);
    assert CreatedIfMissing(d, d', ws[1].path, ws[1].content);
    assert CreatedIfMissing(d, d', ws[2].path, ws[2].content);
    assert CreatedIfMissing(d, d', ws[3].path, ws[3].content);
  }

  lemma PlannedCreatedIfMissing(d: State, course: string, info: ActivityDetail, code: map<string, JsonText>)
    requires SaveOnDisk(d, course, info, code, false).1.None?
    ensures var d' := SaveOnDisk(d, course, info, code, false).0;
      var ws := PlannedWrites(course, info, code);
      forall i :: 0 <= i < 4 ==> CreatedIfMissing(d, d', ws[i].path, ws[i].content)
  {
    var base := BasePath(course, info.categoryName, info.name);
    var (d1, e1) := MakeDirsStep(d, base);
    var ws := PlannedWrites(course, info, code);
    ApplyWritesSucceeds(d1, ws, false);
    ApplyWritesContents(d1, ws, false);
    ApplyWritesFrame(d1, ws, false);
  }

  /** One of the four paths save_activity writes. */
  predicate IsTarget(p: string, course: string, info: ActivityDetail) {
    var base := BasePath(course, info.categoryName, info.name);
    || p == CategoryDescriptionPath(course, info.categoryName)
    || p == JoinFile(base, "description.md") || p == JoinFile(base, "main.py") || p == JoinFile(base, "unit_test.py")
  }

  /** A file outside the four target paths is neither created, removed nor changed. */
  lemma SaveFrame(d: State, course: string, info: ActivityDetail, code: map<string, JsonText>, force: bool, p: string)
    requires !IsTarget(p, course, info)
    ensures var d' := SaveOnDisk(d, course, info, code, force).0;
      (p in d'.files <==> p in d.files) && (p in d.files ==> d'.files[p] == d.files[p])
  {
    var base := BasePath(course, info.categoryName, info.name);
    var (d1, e1) := MakeDirsStep(d, base);
    var ws := PlannedWrites(course, info, code);
    assert !Targets(ws, p);
    ApplyWritesFrame(d1, ws, force);
  }

  /** The outcome of one call, or of a run of calls: requests sent, file system after, error. */
  datatype Step = Step(requests: seq<Request>, disk: State, error: Option<Error>)

  /** save_activity: fetch the activity detail, then its initial code, then save on disk. */
  function SaveActivitySpec(server: Server, h: Headers, d: State, course: Course, activity: ActivityRef, force: bool): (s: Step)
    ensures 1 <= |s.requests| <= 2
    ensures s.requests[0] == GetRequest(ActivityInfo(course.id, activity.id), h)
    ensures s.error.None? ==> |s.requests| == 2
  {
    var infoRequest := GetRequest(ActivityInfo(course.id, activity.id), h);
    match server(infoRequest).payload
    case ActivityDoc(info) =>
      var codeRequest := GetRequest(InitialCode(info.fileId), h);
      (match CodeOf(server(codeRequest).payload)
       case Some(code) =>
         var (d', e) := SaveOnDisk(d, course.name, info, code, force);
         Step([infoRequest, codeRequest], d', e)
       case None => Step([infoRequest, codeRequest], d, Some(UnexpectedReply(codeRequest.url))))
    case _ => Step([infoRequest], d, Some(UnexpectedReply(infoRequest.url)))
  }

  /** save_activity in full: a detail reply of any other shape stops it after one request; otherwise
      the second request is the initial code of the detail's file id, and when that reply is a JSON
      object the disk and the error are those of the disk part on the detail and the code. */
  lemma SaveActivityOutcome(server: Server, h: Headers, d: State, course: Course, activity: ActivityRef, force: bool)
    ensures var s := SaveActivitySpec(server, h, d, course, activity, force);
      var infoRequest := GetRequest(ActivityInfo(course.id, activity.id), h);
      var reply := server(infoRequest).payload;
      && (!reply.ActivityDoc? ==> s == Step([infoRequest], d, Some(UnexpectedReply(Url(ActivityInfo(course.id, activity.id))))))
      && (reply.ActivityDoc? ==>
            var codeRequest := GetRequest(InitialCode(reply.detail.fileId), h);
            && s.requests == [infoRequest, codeRequest]
            && match CodeOf(server(codeRequest).payload)
               case Some(code) => (s.disk, s.error) == SaveOnDisk(d, course.name, reply.detail, code, force)
               case None => s.disk == d && s.error == Some(UnexpectedReply(Url(InitialCode(reply.detail.fileId)))))
  {
  }

  /** The outcome of the activities loop. */
  datatype Batch = Batch(requests: seq<Request>, disk: State, saved: nat, error: Option<Error>)

  /** The activities loop: save_activity on each activity in order until one raises. It saves every
      activity unless one fails, stops at the one that fails, and sends two requests for each
      activity saved and at most two for the one that failed. */
  function SaveAll(server: Server, h: Headers, d: State, course: Course, activities: seq<ActivityRef>, force: bool): (r: Batch)
    ensures r.saved <= |activities|
    ensures r.error.None? <==> r.saved == |activities|
    ensures 2 * r.saved <= |r.requests| <= 2 * r.saved + 2
    ensures r.error.None? ==> |r.requests| == 2 * |activities|
    decreases |activities|
  {
    if activities == [] then Batch([], d, 0, None)
    else
      var s := SaveActivitySpec(server, h, d, course, activities[0], force);
      if s.error.Some? then Batch(s.requests, s.disk, 0, s.error)
      else
        var r := SaveAll(server, h, s.disk, course, activities[1..], force);
        Batch(s.requests + r.requests, r.disk, 1 + r.saved, r.error)
  }

  /** One turn of the loop, at activity i. */
  lemma SaveAllAt(server: Server, h: Headers, d: State, course: Course, activities: seq<ActivityRef>, i: nat, force: bool)
    requires i < |activities|
    ensures var s := SaveActivitySpec(server, h, d, course, activities[i], force);
      var rest := SaveAll(server, h, s.disk, course, activities[i + 1..], force);
      SaveAll(server, h, d, course, activities[i..], force)
        == if s.error.Some? then Batch(s.requests, s.disk, 0, s.error)
           else Batch(s.requests + rest.requests, rest.disk, 1 + rest.saved, rest.error)
  {
    assert activities[i..][0] == activities[i] && activities[i..][1..] == activities[i + 1..];
  }

  lemma PairedIndex<T>(first: seq<T>, rest: seq<T>, i: nat)
    requires |first| == 2 && 0 < i && 2 * i < |first| + |rest|
    ensures 2 * (i - 1) < |rest| && (first + rest)[2 * i] == rest[2 * (i - 1)]
  {
  }

  /** The loop saves activities in list order: the request for the i-th saved activity's detail
      comes at index 2 * i. */
  lemma {:induction false} SaveAllInOrder(server: Server, h: Headers, d: State, course: Course, activities: seq<ActivityRef>, force: bool)
    ensures var r := SaveAll(server, h, d, course, activities, force);
      r.saved <= |activities| && forall i :: 0 <= i < r.saved ==> 2 * i < |r.requests| && r.requests[2 * i] == GetRequest(ActivityInfo(course.id, activities[i].id), h)
    decreases |activities|
  {
    if activities != [] {
      var s := SaveActivitySpec(server, h, d, course, activities[0], force);
      if s.error.None? {
        SaveAllInOrder(server, h, s.disk, course, activities[1..], force);
        var r := SaveAll(server, h, s.disk, course, activities[1..], force);
        var all := SaveAll(server, h, d, course, activities, force);
        assert all.requests == s.requests + r.requests;
        forall i | 0 <= i < all.saved
          ensures 2 * i < |all.requests| && all.requests[2 * i] == GetRequest(ActivityInfo(course.id, activities[i].id), h)
        {
          if i > 0 {
            PairedIndex(s.requests, r.requests, i);
            assert activities[1..][i - 1] == activities[i];
          }
        }
      }
    }
  }

  /** Files outside the course directory stay as they were. */
  ghost predicate SameOutside(d: State, d': State, prefix: string) {
    forall p :: !StartsWith(p, prefix) ==> (p in d'.files <==> p in d.files) && (p in d.files ==> d'.files[p] == d.files[p])
  }

  /** A path outside './courses/{course}/' is none of the four targets. */
  lemma OutsideCourseNotTarget(course: string, info: ActivityDetail, code: map<string, JsonText>, p: string)
    requires !StartsWith(p, CourseDir(course) + "/")
    ensures !IsTarget(p, course, info)
  {
    var ws := PlannedWrites(course, info, code);
    forall i | 0 <= i < 4 ensures ws[i].path != p {
      PrefixOfBase(CourseDir(course) + "/", CategoryDir(course, info.categoryName) + "/", ws[i].path);
    }
  }

  lemma SaveActivityStaysInCourse(server: Server, h: Headers, d: State, course: Course, activity: ActivityRef, force: bool)
    ensures SameOutside(d, SaveActivitySpec(server, h, d, course, activity, force).disk, CourseDir(course.name) + "/")
  {
    var prefix := CourseDir(course.name) + "/";
    var infoRequest := GetRequest(ActivityInfo(course.id, activity.id), h);
    var payload := server(infoRequest).payload;
    if payload.ActivityDoc? {
      var info := payload.detail;
      var codeRequest := GetRequest(InitialCode(info.fileId), h);
      var code := CodeOf(server(codeRequest).payload);
      if code.Some? {
        forall p | !StartsWith(p, prefix)
          ensures var d' := SaveOnDisk(d, course.name, info, code.value, force).0;
            (p in d'.files <==> p in d.files) && (p in d.files ==> d'.files[p] == d.files[p])
        {
          OutsideCourseNotTarget(course.name, info, code.value, p);
          SaveFrame(d, course.name, info, code.value, force, p);
        }
      }
    }
  }

  /** The activities loop writes only under './courses/{course}/'. */
  lemma {:induction false} SaveAllStaysInCourse(server: Server, h: Headers, d: State, course: Course, activities: seq<ActivityRef>, force: bool)
    ensures SameOutside(d, SaveAll(server, h, d, course, activities, force).disk, CourseDir(course.name) + "/")
    decreases |activities|
  {
    if activities != [] {
      var s := SaveActivitySpec(server, h, d, course, activities[0], force);
      SaveActivityStaysInCourse(server, h, d, course, activities[0], force);
      if s.error.None? {
        SaveAllStaysInCourse(server, h, s.disk, course, activities[1..], force);
      }
    }
  }

  /** The course list a reply holds: a JSON list of courses, or an empty object, whose iteration
      yields nothing. Any other shape makes the code raise. */
  function CoursesOf(p: Payload): (r: Option<seq<Course>>)
    ensures r.Some? <==> p.CourseList? || p == Object(map[])
    ensures p.CourseList? ==> r == Some(p.courses)
    ensures p == Object(map[]) ==> r == Some([])
  {
    match p
    case CourseList(cs) => Some(cs)
    case Object(m) => if m == map[] then Some([]) else None
    case _ => None
  }

  /** The activity list a reply holds: only each element's id is read, so a list of courses
      serves as well; an empty object is an empty list. */
  function ActivitiesOf(p: Payload): (r: Option<seq<ActivityRef>>)
    ensures r.Some? <==> p.ActivityList? || p.CourseList? || p == Object(map[])
    ensures p.ActivityList? ==> r == Some(p.activities)
    ensures p.CourseList? ==> r.Some? && |r.value| == |p.courses|
                              && forall i :: 0 <= i < |p.courses| ==> r.value[i].id == p.courses[i].id
    ensures p == Object(map[]) ==> r == Some([])
  {
    match p
    case ActivityList(acts) => Some(acts)
    case CourseList(cs) => Some(seq(|cs|, i requires 0 <= i < |cs| => ActivityRef(cs[i].id)))
    case Object(m) => if m == map[] then Some([]) else None
    case _ => None
  }

  /** next(course for course in courses if course['id'] == course_id), as an index. */
  function FindCourse(courses: seq<Course>, courseId: int): (r: Option<nat>)
    ensures r.Some? ==> r.value < |courses| && courses[r.value].id == courseId
                        && forall j :: 0 <= j < r.value ==> courses[j].id != courseId
    ensures r.None? <==> forall j :: 0 <= j < |courses| ==> courses[j].id != courseId
    decreases |courses|
  {
    if courses == [] then None
    else if courses[0].id == courseId then Some(0)
    else
      match FindCourse(courses[1..], courseId)
      case None => None
      case Some(k) => Some(k + 1)
  }

  /** The outcome of fetch_course: `listed` is the length of the activity list when it was fetched
      (the progress bar's total), `saved` the activities saved. */
  datatype Run = Run(requests: seq<Request>, disk: State, listed: Option<nat>, saved: nat, error: Option<Error>)

  /** Some element of a list of id-only records has this id. */
  predicate ListsId(refs: seq<ActivityRef>, id: int) {
    exists j :: 0 <= j < |refs| && refs[j].id == id
  }

  /** fetch_course up to the end of its loop. A reply to the course request whose elements carry
      only ids finds the course by id and then fails on its missing 'name'. */
  function FetchCourseSpec(server: Server, h: Headers, d: State, courseId: int, force: bool): (r: Run)
    ensures 1 <= |r.requests| && r.requests[0] == GetRequest(Route.Courses, h)
    ensures r.listed.None? ==> r.error.Some? && r.disk == d && r.saved == 0 && |r.requests| <= 2
    ensures r.listed.Some? ==>
      && 2 <= |r.requests| && r.requests[1] == GetRequest(Activities(courseId), h)
      && r.saved <= r.listed.value && (r.error.None? <==> r.saved == r.listed.value)
  {
    var coursesRequest := GetRequest(Route.Courses, h);
    var coursesPayload := server(coursesRequest).payload;
    if coursesPayload.ActivityList? then
      if ListsId(coursesPayload.activities, courseId) then Run([coursesRequest], d, None, 0, Some(MissingKey("name")))
      else Run([coursesRequest], d, None, 0, Some(CourseNotFound(courseId)))
    else
    match CoursesOf(coursesPayload)
    case None => Run([coursesRequest], d, None, 0, Some(UnexpectedReply(coursesRequest.url)))
    case Some(courses) =>
      match FindCourse(courses, courseId)
      case None => Run([coursesRequest], d, None, 0, Some(CourseNotFound(courseId)))
      case Some(k) =>
        var activitiesRequest := GetRequest(Activities(courseId), h);
        match ActivitiesOf(server(activitiesRequest).payload)
        case None => Run([coursesRequest, activitiesRequest], d, None, 0, Some(UnexpectedReply(activitiesRequest.url)))
        case Some(activities) =>
          var b := SaveAll(server, h, d, courses[k], activities, force);
          Run([coursesRequest, activitiesRequest] + b.requests, b.disk, Some(|activities|), b.saved, b.error)
  }

  /** An id missing from the course list stops the run after the one request for the list:
      no activity is fetched and the file system is untouched. */
  lemma FetchCourseNotFound(server: Server, h: Headers, d: State, courseId: int, force: bool)
    requires var courses := CoursesOf(server(GetRequest(Route.Courses, h)).payload);
      courses.Some? && forall j :: 0 <= j < |courses.value| ==> courses.value[j].id != courseId
    ensures FetchCourseSpec(server, h, d, courseId, force)
         == Run([GetRequest(Route.Courses, h)], d, None, 0, Some(CourseNotFound(courseId)))
  {
  }

  /** When the course is found, the run saves the activities of the first course with that id,
      in list order, counting up to the length of the list when nothing fails, and touches only
      files under that course's directory. */
  lemma FetchCourseSavesInOrder(server: Server, h: Headers, d: State, courseId: int, force: bool)
    requires var courses := CoursesOf(server(GetRequest(Route.Courses, h)).payload);
      courses.Some? && FindCourse(courses.value, courseId).Some?
    requires ActivitiesOf(server(GetRequest(Activities(courseId), h)).payload).Some?
    ensures var courses := CoursesOf(server(GetRequest(Route.Courses, h)).payload).value;
      var course := courses[FindCourse(courses, courseId).value];
      var activities := ActivitiesOf(server(GetRequest(Activities(courseId), h)).payload).value;
      var r := FetchCourseSpec(server, h, d, courseId, force);
      && course.id == courseId
      && r.requests[..2] == [GetRequest(Route.Courses, h), GetRequest(Activities(courseId), h)]
      && r.listed == Some(|activities|)
      && (r.error.None? <==> r.saved == |activities|)
      && r.saved <= |activities| && 2 + 2 * r.saved <= |r.requests|
      && (forall i :: 0 <= i < r.saved ==> r.requests[2 + 2 * i] == GetRequest(ActivityInfo(courseId, activities[i].id), h))
      && SameOutside(d, r.disk, CourseDir(course.name) + "/")
  {
    var courses := CoursesOf(server(GetRequest(Route.Courses, h)).payload).value;
    var course := courses[FindCourse(courses, courseId).value];
    var activities := ActivitiesOf(server(GetRequest(Activities(courseId), h)).payload).value;
    SaveAllInOrder(server, h, d, course, activities, force);
    SaveAllStaysInCourse(server, h, d, course, activities, force);
  }
}
