/** The local file system as save_activity sees it: regular files with their
    contents and a set of directories, under os.path.exists, os.makedirs
    (exist_ok=True) and open(path, 'w').write(content). Paths are compared
    as strings. */
module Disk {
  import opened Wrappers
  import opened Errors
  import opened Http

  datatype State = State(files: map<string, string>, dirs: set<string>)

  /** os.path.exists: a regular file or a directory is there. */
  predicate Exists(d: State, path: string) {
    path in d.files || path in d.dirs
  }

  /** The directories os.makedirs(path) creates: every prefix ending just before a '/'
      (except "." itself, at index 1 of a "./..." path), and the path itself. */
  function Ancestors(path: string): (a: set<string>)
    ensures path in a
  {
    (set i | 1 < i < |path| && path[i] == '/' :: path[..i]) + {path}
  }

  /** os.makedirs(path, exist_ok=True): fails when a file stands where a directory must be. */
  function MakeDirsStep(d: State, path: string): (out: (State, Option<Error>))
    ensures out.1.None? <==> forall a :: a in Ancestors(path) ==> a !in d.files
    ensures out.1.None? ==> out.0 == State(d.files, d.dirs + Ancestors(path))
    ensures out.1.Some? ==> out.0 == d
  {
    if exists a :: a in Ancestors(path) && a in d.files then (d, Some(PathIsFile(path)))
    else (State(d.files, d.dirs + Ancestors(path)), None)
  }

  datatype FileWrite = FileWrite(path: string, content: JsonText)

  /** open(path, 'w').write(content): a directory cannot be opened; opening truncates, and
      writing None then fails after the truncation. */
  function WriteFile(d: State, w: FileWrite): (out: (State, Option<Error>))
    ensures out.0.dirs == d.dirs
    ensures w.path in d.dirs ==> out == (d, Some(PathIsDirectory(w.path)))
    ensures w.path !in d.dirs && w.content.Str? ==> out == (State(d.files[w.path := w.content.text], d.dirs), None)
    ensures w.path !in d.dirs && w.content.Null? ==> out == (State(d.files[w.path := ""], d.dirs), Some(NullContent(w.path)))
  {
    if w.path in d.dirs then (d, Some(PathIsDirectory(w.path)))
    else
      match w.content
      case Str(s) => (State(d.files[w.path := s], d.dirs), None)
      case Null => (State(d.files[w.path := ""], d.dirs), Some(NullContent(w.path)))
  }

  /** Whether `force or not os.path.exists(path)` selects the write. */
  predicate Selected(d: State, w: FileWrite, force: bool) {
    force || !Exists(d, w.path)
  }

  /** The writes in order, each made only when selected, stopping at the first failure. Directories
      never change and no file disappears. */
  function ApplyWrites(d: State, ws: seq<FileWrite>, force: bool): (r: (State, Option<Error>))
    ensures r.0.dirs == d.dirs && d.files.Keys <= r.0.files.Keys
    decreases |ws|
  {
    if ws == [] then (d, None)
    else if !Selected(d, ws[0], force) then ApplyWrites(d, ws[1..], force)
    else
      var (d1, e1) := WriteFile(d, ws[0]);
      if e1.Some? then (d1, e1) else ApplyWrites(d1, ws[1..], force)
  }

  predicate Targets(ws: seq<FileWrite>, path: string) {
    exists i :: 0 <= i < |ws| && ws[i].path == path
  }

  predicate DistinctPaths(ws: seq<FileWrite>) {
    forall i, j :: 0 <= i < j < |ws| ==> ws[i].path != ws[j].path
  }

  /** A path that is not a target keeps what it had; no file disappears; directories stay as they were. */
  lemma {:induction false} ApplyWritesFrame(d: State, ws: seq<FileWrite>, force: bool)
    ensures var (d', _) := ApplyWrites(d, ws, force);
      && d'.dirs == d.dirs
      && d.files.Keys <= d'.files.Keys
      && forall p :: !Targets(ws, p) ==> (p in d'.files <==> p in d.files) && (p in d.files ==> d'.files[p] == d.files[p])
    decreases |ws|
  {
    if ws != [] {
      forall p | Targets(ws[1..], p) ensures Targets(ws, p) {
        var i :| 0 <= i < |ws[1..]| && ws[1..][i].path == p;
        assert ws[i + 1].path == p;
      }
      if !Selected(d, ws[0], force) {
        ApplyWritesFrame(d, ws[1..], force);
      } else {
        var (d1, e1) := WriteFile(d, ws[0]);
        if e1.None? {
          ApplyWritesFrame(d1, ws[1..], force);
        }
      }
    }
  }

  /** With distinct target paths, the writes all succeed exactly when no selected write
      meets a directory or null content. */
  lemma {:induction false} ApplyWritesSucceeds(d: State, ws: seq<FileWrite>, force: bool)
    requires DistinctPaths(ws)
    ensures ApplyWrites(d, ws, force).1.None? <==>
      forall i :: 0 <= i < |ws| && Selected(d, ws[i], force) ==> ws[i].path !in d.dirs && ws[i].content.Str?
    decreases |ws|
  {
    if ws != [] {
      var rest := ws[1..];
      assert DistinctPaths(rest);
      if !Selected(d, ws[0], force) {
        ApplyWritesSucceeds(d, rest, force);
        ShiftSelected(d, d, ws, force);
      } else {
        var (d1, e1) := WriteFile(d, ws[0]);
        if e1.None? {
          ApplyWritesSucceeds(d1, rest, force);
          ShiftSelected(d, d1, ws, force);
        }
      }
    }
  }

  /** Writing ws[0] does not change whether a later write (at another path) is selected, nor the directories. */
  lemma ShiftSelected(d: State, d1: State, ws: seq<FileWrite>, force: bool)
    requires |ws| > 0 && DistinctPaths(ws)
    requires d1.dirs == d.dirs
    requires forall p :: p != ws[0].path ==> (p in d1.files <==> p in d.files)
    ensures forall i :: 1 <= i < |ws| ==> (Selected(d1, ws[i], force) <==> Selected(d, ws[i], force))
    ensures forall i :: 0 <= i < |ws[1..]| ==> ws[1..][i] == ws[i + 1]
  {
  }

  /** With distinct target paths and no failure, each selected path holds its new content and
      each unselected file keeps its old content. */
  lemma {:induction false} ApplyWritesContents(d: State, ws: seq<FileWrite>, force: bool)
    requires DistinctPaths(ws)
    requires ApplyWrites(d, ws, force).1.None?
    ensures var d' := ApplyWrites(d, ws, force).0;
      forall i :: 0 <= i < |ws| ==>
        if Selected(d, ws[i], force) then ws[i].path in d'.files && d'.files[ws[i].path] == Render(ws[i].content)
        else ws[i].path in d.files ==> ws[i].path in d'.files && d'.files[ws[i].path] == d.files[ws[i].path]
    decreases |ws|
  {
    if ws != [] {
      var rest := ws[1..];
      assert DistinctPaths(rest);
      var d1 := if Selected(d, ws[0], force) then WriteFile(d, ws[0]).0 else d;
      ApplyWritesContents(d1, rest, force);
      ApplyWritesFrame(d1, rest, force);
      ShiftSelected(d, d1, ws, force);
      var d' := ApplyWrites(d, ws, force).0;
      assert d' == ApplyWrites(d1, rest, force).0;
      assert !Targets(rest, ws[0].path);
      forall i | 1 <= i < |ws|
        ensures if Selected(d, ws[i], force) then ws[i].path in d'.files && d'.files[ws[i].path] == Render(ws[i].content)
                else ws[i].path in d.files ==> ws[i].path in d'.files && d'.files[ws[i].path] == d.files[ws[i].path]
      {
        assert rest[i - 1] == ws[i];
      }
    }
  }

  /** The file system that os calls act on. */
  class FileSystem {
    var files: map<string, string>
    var dirs: set<string>

    function Snapshot(): State
      reads this
    {
      State(files, dirs)
    }

    method PathExists(path: string) returns (b: bool)
      ensures b == Exists(Snapshot(), path)
    {
      b := path in files || path in dirs;
    }

    method MakeDirs(path: string) returns (err: Option<Error>)
      modifies this
      ensures (Snapshot(), err) == MakeDirsStep(old(Snapshot()), path)
    {
      if exists a :: a in Ancestors(path) && a in files {
        return Some(PathIsFile(path));
      }
      dirs := dirs + Ancestors(path);
      err := None;
    }

    method Write(w: FileWrite) returns (err: Option<Error>)
      modifies this
      ensures (Snapshot(), err) == WriteFile(old(Snapshot()), w)
    {
      if w.path in dirs {
        return Some(PathIsDirectory(w.path));
      }
      match w.content
      case Str(s) =>
        files := files[w.path := s];
        err := None;
      case Null =>
        files := files[w.path := ""];
        err := Some(NullContent(w.path));
    }
  }
}
