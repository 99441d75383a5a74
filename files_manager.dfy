/** The store of query files: sanitised names under the storage directory, write or
    `\n\n`-separated append, opening with create-if-missing, and the directory walk
    that creates every ancestor of a path. The file system is a map from path to
    content plus a set of directories; paths are not normalised, and a directory is
    recorded without its trailing separator. */
module Files {
  import opened Wrappers
  import opened Strings
  import opened NodeCommon

  /** `FileModel`: `WRITE` overwrites, anything else appends. */
  datatype FileMode = Write | Append

  /** The characters `record` strips from a file name. */
  const Forbidden: set<char> := {':', '*', '?', '"', '<', '>'}

  /** The global replace of the character class `[:*?"<>]` by nothing. */
  function Sanitise(name: string): (r: string)
    ensures |r| <= |name|
    ensures forall i :: 0 <= i < |r| ==> r[i] !in Forbidden
  {
    RemoveChars(name, Forbidden)
  }

  /** Sanitising twice is sanitising once. */
  lemma {:induction false} SanitiseIdempotent(name: string)
    ensures Sanitise(Sanitise(name)) == Sanitise(name)
  {
    RemoveCharsClean(Sanitise(name), Forbidden);
  }

  /** Exactly the names' allowed characters survive, and in order: sanitising
      distributes over concatenation, and a clean name is kept as it is. */
  lemma {:induction false} SanitiseKeeps(a: string, b: string, c: char)
    ensures c in Sanitise(a) <==> c in a && c !in Forbidden
    ensures Sanitise(a + b) == Sanitise(a) + Sanitise(b)
    ensures (forall i :: 0 <= i < |a| ==> a[i] !in Forbidden) ==> Sanitise(a) == a
  {
    RemoveCharsMembers(a, Forbidden, c);
    RemoveCharsConcat(a, b, Forbidden);
    if forall i :: 0 <= i < |a| ==> a[i] !in Forbidden {
      RemoveCharsClean(a, Forbidden);
    }
  }

  /** The content a file has after `record`, given what it held before (`None` for a
      missing file). */
  function Recorded(existing: Option<string>, content: string, mode: Option<FileMode>): (r: string)
  {
    if mode == Some(Write) then content
    else if existing.Some? && existing.value != "" then existing.value + "\n\n" + content
    else content
  }

  /** Write mode gives exactly the content; appending to a non-empty file keeps the
      old content in front, then a blank line, then the new content; appending to
      a missing or empty file gives the content alone. */
  lemma {:induction false} RecordedCases(existing: Option<string>, content: string, mode: Option<FileMode>)
    ensures mode == Some(Write) ==> Recorded(existing, content, mode) == content
    ensures mode != Some(Write) && existing.Some? && existing.value != "" ==>
      var r := Recorded(existing, content, mode);
      |r| == |existing.value| + 2 + |content| &&
      r[..|existing.value|] == existing.value &&
      r[|existing.value|..|existing.value| + 2] == "\n\n" &&
      r[|existing.value| + 2..] == content
    ensures mode != Some(Write) && (existing.None? || existing.value == "") ==>
      Recorded(existing, content, mode) == content
  {
    if mode != Some(Write) && existing.Some? && existing.value != "" {
      var r := Recorded(existing, content, mode);
      assert r == existing.value + ("\n\n" + content);
      assert r[|existing.value|..] == "\n\n" + content;
    }
  }

  /** The position of the last `/` of a path that has one. */
  function LastSlash(p: string): (r: nat)
    requires '/' in p
    ensures r < |p| && p[r] == '/'
    ensures forall j :: r < j < |p| ==> p[j] != '/'
  {
    if p[|p| - 1] == '/' then |p| - 1
    else
      assert '/' in p[..|p| - 1] by {
        var k :| 0 <= k < |p| && p[k] == '/';
        assert p[..|p| - 1][k] == '/';
      }
      LastSlash(p[..|p| - 1])
  }

  /** `path.resolve(p, '..')` without normalisation: everything before the last `/`. */
  function ParentDir(p: string): (r: string)
    requires '/' in p
    ensures |r| < |p| && p == r + p[|r|..] && p[|r|] == '/'
    ensures '/' !in p[|r| + 1..]
  {
    var r := p[..LastSlash(p)];
    assert p == r + p[|r|..];
    r
  }

  /** How a directory path is recorded: without a trailing separator (the root stays `/`). */
  function Norm(p: string): string {
    if |p| > 1 && p[|p| - 1] == '/' then p[..|p| - 1] else p
  }

  /** The paths `recursiseCreate` visits for a folder: for each piece of the split
      path, the pieces up to it rejoined, with a trailing separator. */
  function CumulativePaths(folderPath: string): (r: seq<string>)
    ensures |r| == |Split(folderPath, '/')|
  {
    var pieces := Split(folderPath, '/');
    seq(|pieces|, i requires 0 <= i < |pieces| => Join(pieces[..i + 1], '/') + "/")
  }

  /** Adding one piece at the end of a join. */
  lemma {:induction false} JoinSnoc(ps: seq<string>, x: string, c: char)
    ensures Join(ps + [x], c) == if ps == [] then x else Join(ps, c) + [c] + x
  {
    if |ps| == 0 {
      assert ps + [x] == [x];
    } else if |ps| == 1 {
      assert ps + [x] == [ps[0], x];
      assert [ps[0], x][1..] == [x];
    } else {
      assert (ps + [x])[1..] == ps[1..] + [x];
      JoinSnoc(ps[1..], x, c);
    }
  }

  /** A join of a non-empty front part is a prefix of the join of the whole. */
  lemma {:induction false} JoinPrefix(ps: seq<string>, k: nat, c: char)
    requires 1 <= k <= |ps|
    ensures k < |ps| ==> Join(ps, c) == Join(ps[..k], c) + [c] + Join(ps[k..], c)
    ensures k == |ps| ==> Join(ps[..k], c) == Join(ps, c)
  {
    assert ps[..|ps|] == ps;
    if k < |ps| {
      if k == 1 {
        assert ps[..1] == [ps[0]];
        assert ps[1..] == ps[k..];
      } else {
        JoinPrefix(ps[1..], k - 1, c);
        assert ps[1..][..k - 1] == ps[..k][1..];
        assert ps[1..][k - 1..] == ps[k..];
      }
    }
  }

  /** The directories a walk records: each visited path without its trailing separator. */
  function Norms(vs: seq<string>): set<string> {
    set v | v in vs :: Norm(v)
  }

  /** One step of the walk: the previous path, the next piece and a separator form
      the next cumulative path. */
  lemma {:induction false} CumulativeStep(folderPath: string, i: nat, prevPath: string)
    requires i < |Split(folderPath, '/')|
    requires prevPath == if i == 0 then "" else CumulativePaths(folderPath)[i - 1]
    ensures prevPath + Split(folderPath, '/')[i] + "/" == CumulativePaths(folderPath)[i]
  {
    var pieces := Split(folderPath, '/');
    assert pieces[..i + 1] == pieces[..i] + [pieces[i]];
    JoinSnoc(pieces[..i], pieces[i], '/');
  }

  /** The recorded directories of a walk extended by one path. */
  lemma {:induction false} NormsSnoc(vs: seq<string>, x: string)
    ensures Norms(vs + [x]) == Norms(vs) + {Norm(x)}
  {
    assert forall v :: v in vs + [x] <==> v in vs || v == x;
  }

  /** The `i`th visited path is a prefix of the folder path followed by a separator. */
  lemma {:induction false} CumulativePathIsPrefix(folderPath: string, i: nat)
    requires i < |CumulativePaths(folderPath)|
    ensures var v := CumulativePaths(folderPath)[i];
      |v| <= |folderPath| + 1 && v == (folderPath + "/")[..|v|]
  {
    var pieces := Split(folderPath, '/');
    JoinSplit(folderPath, '/');
    JoinPrefix(pieces, i + 1, '/');
    var front := Join(pieces[..i + 1], '/');
    if i + 1 < |pieces| {
      assert folderPath + "/" == (front + "/") + (Join(pieces[i + 1..], '/') + "/");
    } else {
      assert front == folderPath;
    }
  }

  /** Each visited path is longer than the one before. */
  lemma {:induction false} CumulativePathGrows(folderPath: string, i: nat)
    requires i + 1 < |CumulativePaths(folderPath)|
    ensures |CumulativePaths(folderPath)[i]| < |CumulativePaths(folderPath)[i + 1]|
  {
    var pieces := Split(folderPath, '/');
    assert pieces[..i + 2] == pieces[..i + 1] + [pieces[i + 1]];
    JoinSnoc(pieces[..i + 1], pieces[i + 1], '/');
  }

  /** Every visited path is a prefix of the folder path followed by a separator, in
      growing order, and the last one is exactly that. */
  lemma {:induction false} CumulativePathsArePrefixes(folderPath: string)
    ensures var r := CumulativePaths(folderPath);
      (forall i :: 0 <= i < |r| ==> |r[i]| <= |folderPath| + 1 && r[i] == (folderPath + "/")[..|r[i]|]) &&
      (forall i :: 0 <= i < |r| - 1 ==> |r[i]| < |r[i + 1]|) &&
      r[|r| - 1] == folderPath + "/"
  {
    var r := CumulativePaths(folderPath);
    forall i | 0 <= i < |r|
      ensures |r[i]| <= |folderPath| + 1 && r[i] == (folderPath + "/")[..|r[i]|]
    {
      CumulativePathIsPrefix(folderPath, i);
    }
    forall i | 0 <= i < |r| - 1 ensures |r[i]| < |r[i + 1]| {
      CumulativePathGrows(folderPath, i);
    }
    CumulativePathLast(folderPath);
  }

  /** The last visited path is the whole folder path with a separator. */
  lemma {:induction false} CumulativePathLast(folderPath: string)
    ensures CumulativePaths(folderPath)[|CumulativePaths(folderPath)| - 1] == folderPath + "/"
  {
    var pieces := Split(folderPath, '/');
    var n := |pieces|;
    var r := CumulativePaths(folderPath);
    assert r[n - 1] == Join(pieces[..n], '/') + "/";
    JoinPrefix(pieces, n, '/');
    JoinSplit(folderPath, '/');
  }

  /** `fs.existsSync`: a file or a directory is at the path. */
  predicate Exists(files: map<string, string>, dirs: set<string>, p: string) {
    p in files || Norm(p) in dirs
  }

  /** The messages of the errors the file system throws in the model. */
  function MkdirOverFile(p: string): string {
    "EEXIST: file already exists, mkdir '" + p + "'"
  }

  function WriteToDirectory(p: string): string {
    "EISDIR: illegal operation on a directory, open '" + p + "'"
  }

  function WriteUnderFile(p: string): string {
    "ENOTDIR: not a directory, open '" + p + "'"
  }

  /** The directories a walk has made, and the error it stopped with. */
  datatype Walked = Walked(dirs: set<string>, error: Option<string>)

  /** One step of `recursiseCreate`: `mkdirSync` of a visited path unless it exists;
      a file named like the directory makes it throw. */
  function WalkStep(files: map<string, string>, dirs: set<string>, v: string): (r: Walked)
    ensures dirs <= r.dirs
  {
    if Exists(files, dirs, v) then Walked(dirs, None)
    else if Norm(v) in files then Walked(dirs, Some(MkdirOverFile(v)))
    else Walked(dirs + {Norm(v)}, None)
  }

  /** The walk over the visited paths `vs`, in order, stopping at the first error;
      the directories made before the error stay. */
  function Walk(files: map<string, string>, dirs: set<string>, vs: seq<string>): (r: Walked)
    ensures dirs <= r.dirs
    decreases |vs|
  {
    if vs == [] then Walked(dirs, None)
    else
      var w := Walk(files, dirs, vs[..|vs| - 1]);
      if w.error.Some? then w else WalkStep(files, w.dirs, vs[|vs| - 1])
  }

  /** When no visited path names a file, the walk makes every visited directory and
      does not fail. */
  lemma {:induction false} WalkClear(files: map<string, string>, dirs: set<string>, vs: seq<string>)
    requires forall i :: 0 <= i < |vs| ==> vs[i] !in files && Norm(vs[i]) !in files
    ensures Walk(files, dirs, vs) == Walked(dirs + Norms(vs), None)
  {
    if vs != [] {
      var front := vs[..|vs| - 1];
      assert forall i :: 0 <= i < |front| ==> front[i] == vs[i];
      WalkClear(files, dirs, front);
      assert front + [vs[|vs| - 1]] == vs;
      NormsSnoc(front, vs[|vs| - 1]);
    }
  }

  /** A walk fails only at a visited path whose directory name is taken by a file, and
      then with the error `mkdirSync` throws there. */
  lemma {:induction false} WalkFailsAtFile(files: map<string, string>, dirs: set<string>, vs: seq<string>)
    ensures Walk(files, dirs, vs).error.Some? ==>
      exists i :: 0 <= i < |vs| && Norm(vs[i]) in files &&
        Walk(files, dirs, vs).error == Some(MkdirOverFile(vs[i]))
  {
    if vs != [] {
      var front := vs[..|vs| - 1];
      var w := Walk(files, dirs, front);
      WalkFailsAtFile(files, dirs, front);
      if w.error.Some? {
        var i :| 0 <= i < |front| && Norm(front[i]) in files && w.error == Some(MkdirOverFile(front[i]));
        assert vs[i] == front[i];
      } else if WalkStep(files, w.dirs, vs[|vs| - 1]).error.Some? {
        assert Norm(vs[|vs| - 1]) in files;
      }
    }
  }

  /** Once a walk has failed, the rest of the visited paths change nothing. */
  lemma {:induction false} WalkStops(files: map<string, string>, dirs: set<string>, vs: seq<string>, k: nat)
    requires k <= |vs| && Walk(files, dirs, vs[..k]).error.Some?
    ensures Walk(files, dirs, vs) == Walk(files, dirs, vs[..k])
    decreases |vs| - k
  {
    if k < |vs| {
      assert vs[..k + 1][..k] == vs[..k];
      WalkStops(files, dirs, vs, k + 1);
    } else {
      assert vs[..k] == vs;
    }
  }

  /** `check(p)`: nothing when something is at `p`, otherwise the walk over `p`. */
  function Checked(files: map<string, string>, dirs: set<string>, p: string): (r: Walked)
    ensures dirs <= r.dirs
  {
    if Exists(files, dirs, p) then Walked(dirs, None)
    else Walk(files, dirs, CumulativePaths(p))
  }

  /** After a `check(p)` that did not throw, something is at `p`. */
  lemma {:induction false} CheckedCreates(files: map<string, string>, dirs: set<string>, p: string)
    requires p != "" && p[|p| - 1] != '/' && p + "/" !in files
    ensures Checked(files, dirs, p).error.None? ==> Exists(files, Checked(files, dirs, p).dirs, p)
  {
    if !Exists(files, dirs, p) {
      var vs := CumulativePaths(p);
      CumulativePathLast(p);
      var w := Walk(files, dirs, vs[..|vs| - 1]);
      assert Norm(p + "/") == p by { assert (p + "/")[..|p|] == p; }
      if w.error.None? && WalkStep(files, w.dirs, p + "/").error.None? {
        assert p in WalkStep(files, w.dirs, p + "/").dirs;
      }
    }
  }

  /** When no file is in the way, `check(p)` leaves the directory `p` and every
      directory the walk visits, and throws nothing. */
  lemma {:induction false} CheckedClear(files: map<string, string>, dirs: set<string>, p: string)
    requires p != "" && p[|p| - 1] != '/' && !Exists(files, dirs, p)
    requires forall v :: v in CumulativePaths(p) ==> v !in files && Norm(v) !in files
    ensures Checked(files, dirs, p) == Walked(dirs + Norms(CumulativePaths(p)), None)
    ensures Norm(p) in Checked(files, dirs, p).dirs
  {
    var vs := CumulativePaths(p);
    assert forall i :: 0 <= i < |vs| ==> vs[i] in vs;
    WalkClear(files, dirs, vs);
    CumulativePathLast(p);
    assert vs[|vs| - 1] in vs;
    assert Norm(p + "/") == p by { assert (p + "/")[..|p|] == p; }
  }

  /** `mkdirSync(storagePath, { recursive: true })` of a missing directory. */
  function Made(dirs: set<string>, p: string): set<string> {
    dirs + {Norm(p)}
  }

  /** What `writeFileSync` or `appendFileSync` of an existing directory's parent throws:
      a directory at the path, or a file where its directory should be. */
  function WriteError(files: map<string, string>, dirs: set<string>, p: string): (r: Option<string>)
    requires '/' in p
    ensures Norm(p) in dirs ==> r == Some(WriteToDirectory(p))
    ensures Norm(p) !in dirs && ParentDir(p) in files ==> r == Some(WriteUnderFile(p))
    ensures Norm(p) !in dirs && ParentDir(p) !in files ==> r.None?
  {
    if Norm(p) in dirs then Some(WriteToDirectory(p))
    else if ParentDir(p) in files then Some(WriteUnderFile(p))
    else None
  }

  /** `withSchema` is asked of `getUid` for SQL Server and PostgreSQL only. */
  function WithSchema(t: DatabaseType): bool {
    t == SqlServer || t == PostgreSQL
  }

  /** What a path held before a write: its content, or `None` when there is no file. */
  function Existing(files: map<string, string>, p: string): Option<string> {
    if p in files then Some(files[p]) else None
  }

  /** What an operation of the manager returns (a path, or the message of the error it
      throws or rejects with) and the file system it leaves. */
  datatype Outcome = Outcome(result: Result<string>, files: map<string, string>, dirs: set<string>)

  class FileManager {
    /** The global storage path the manager is initialised with. */
    const storagePath: string
    var files: map<string, string>
    var dirs: set<string>

    constructor (storagePath: string, files: map<string, string>, dirs: set<string>)
      ensures this.storagePath == storagePath && this.files == files && this.dirs == dirs
    {
      this.storagePath := storagePath;
      this.files := files;
      this.dirs := dirs;
    }

    /** `getPath`: the name under the storage path; a name without a separator sits
        directly in the storage directory. */
    function GetPath(fileName: string): (r: string)
      ensures '/' in r
      ensures '/' !in fileName ==> ParentDir(r) == storagePath
    {
      var r := storagePath + "/" + fileName;
      assert r[|storagePath|] == '/';
      if '/' !in fileName then
        var q := ParentDir(r);
        assert q == r[..|q|] == storagePath;
        r
      else r
    }

    /** The path `record` writes for a file name. */
    function RecordPath(fileName: string): (r: string)
      ensures '/' in r
      ensures r == GetPath(Sanitise(fileName))
    {
      var r := storagePath + "/" + Sanitise(fileName);
      assert r[|storagePath|] == '/';
      r
    }

    /** The path `show` opens: an absolute name as it is, a relative one under the
        storage path. */
    function ShowPath(fileName: string): (r: string)
      requires fileName != ""
      ensures '/' in r
      ensures fileName[0] == '/' ==> r == fileName
      ensures fileName[0] != '/' ==> r == GetPath(fileName)
    {
      if fileName[0] == '/' then fileName
      else
        var r := storagePath + "/" + fileName;
        assert r[|storagePath|] == '/';
        r
    }

    /** `record` of a non-empty name: the check of the file's directory, the storage
        directory made when nothing is there, then the write or append. An error
        rejects the returned promise and leaves the file system as it was when
        the error was thrown. */
    function RecordOutcome(files: map<string, string>, dirs: set<string>, fileName: string,
                           content: string, mode: Option<FileMode>): (r: Outcome)
      requires fileName != ""
    {
      var p := RecordPath(fileName);
      var w := Checked(files, dirs, ParentDir(p));
      if w.error.Some? then Outcome(Err(w.error.value), files, w.dirs)
      else
        var d := if Exists(files, w.dirs, storagePath) then w.dirs else Made(w.dirs, storagePath);
        match WriteError(files, d, p)
        case Some(m) => Outcome(Err(m), files, d)
        case None => Outcome(Ok(p), files[p := Recorded(Existing(files, p), content, mode)], d)
    }

    /** A record either writes the sanitised path and nothing else, or changes no file;
        no directory disappears, and a successful record leaves the recorded content
        at the path. */
    lemma {:induction false} RecordOutcomeFacts(files: map<string, string>, dirs: set<string>,
                                                fileName: string, content: string, mode: Option<FileMode>)
      requires fileName != ""
      ensures var r := RecordOutcome(files, dirs, fileName, content, mode);
        var p := RecordPath(fileName);
        dirs <= r.dirs &&
        (r.result.Err? ==> r.files == files) &&
        (r.result.Ok? ==>
           r.result.value == p && r.files.Keys == files.Keys + {p} &&
           r.files[p] == Recorded(Existing(files, p), content, mode) &&
           Norm(p) !in r.dirs && ParentDir(p) !in files) &&
        (forall q :: q in files && q != p ==> q in r.files && r.files[q] == files[q])
    {
    }

    /** Under an existing directory and the storage directory, a record succeeds
        exactly when no directory is at the path. */
    lemma {:induction false} RecordSucceeds(files: map<string, string>, dirs: set<string>,
                                            fileName: string, content: string, mode: Option<FileMode>)
      requires fileName != ""
      requires Norm(ParentDir(RecordPath(fileName))) in dirs && Norm(storagePath) in dirs
      ensures var r := RecordOutcome(files, dirs, fileName, content, mode);
        var p := RecordPath(fileName);
        r.dirs == dirs &&
        (Norm(p) in dirs ==> r.result == Err(WriteToDirectory(p))) &&
        (Norm(p) !in dirs && ParentDir(p) !in files ==> r.result == Ok(p))
    {
      var p := RecordPath(fileName);
      assert Exists(files, dirs, ParentDir(p));
      assert Exists(files, dirs, storagePath);
    }

    /** `show` of a non-empty name: the check of the file's directory, then a missing
        file is created empty. */
    function ShowOutcome(files: map<string, string>, dirs: set<string>, fileName: string): (r: Outcome)
      requires fileName != ""
    {
      var p := ShowPath(fileName);
      var w := Checked(files, dirs, ParentDir(p));
      if w.error.Some? then Outcome(Err(w.error.value), files, w.dirs)
      else if Exists(files, w.dirs, p) then Outcome(Ok(p), files, w.dirs)
      else match WriteError(files, w.dirs, p)
        case Some(m) => Outcome(Err(m), files, w.dirs)
        case None => Outcome(Ok(p), files[p := ""], w.dirs)
    }

    /** A show that succeeds leaves something at the path: an existing file or
        directory as it was, or a new empty file; a failure changes no file. */
    lemma {:induction false} ShowOutcomeFacts(files: map<string, string>, dirs: set<string>, fileName: string)
      requires fileName != ""
      ensures var r := ShowOutcome(files, dirs, fileName);
        var p := ShowPath(fileName);
        dirs <= r.dirs &&
        (r.result.Ok? ==> r.result.value == p && Exists(r.files, r.dirs, p)) &&
        (r.result.Err? || Exists(files, r.dirs, p) ==> r.files == files) &&
        (r.result.Ok? && !Exists(files, r.dirs, p) ==> r.files == files[p := ""])
    {
    }

    /** `recursiseCreate`: walks the path's pieces, creating each visited path that
        does not exist yet; `mkdirSync` over a file throws and ends the walk. */
    method RecursiveCreate(folderPath: string) returns (error: Option<string>)
      modifies this`dirs
      ensures Walked(dirs, error) == Walk(files, old(dirs), CumulativePaths(folderPath))
    {
      var pieces := Split(folderPath, '/');
      var prevPath := "";
      ghost var all := CumulativePaths(folderPath);
      for i := 0 to |pieces|
        invariant prevPath == if i == 0 then "" else all[i - 1]
        invariant Walk(files, old(dirs), all[..i]) == Walked(dirs, None)
      {
        var currentPath := prevPath + pieces[i] + "/";
        CumulativeStep(folderPath, i, prevPath);
        assert all[..i + 1][..i] == all[..i];
        if !Exists(files, dirs, currentPath) {
          if Norm(currentPath) in files {
            WalkStops(files, old(dirs), all, i + 1);
            return Some(MkdirOverFile(currentPath));
          }
          dirs := dirs + {Norm(currentPath)};
        }
        prevPath := currentPath;
      }
      assert all[..|pieces|] == all;
      error := None;
    }

    /** `check`: the walk runs only when nothing is at the path. */
    method Check(checkPath: string) returns (error: Option<string>)
      modifies this`dirs
      ensures Walked(dirs, error) == Checked(files, old(dirs), checkPath)
    {
      error := None;
      if !Exists(files, dirs, checkPath) {
        error := RecursiveCreate(checkPath);
      }
    }

    /** `record`: an empty name returns nothing and writes nothing; otherwise the
        outcome above. */
    method Record(fileName: string, content: string, mode: Option<FileMode>) returns (r: Option<Result<string>>)
      modifies this`files, this`dirs
      ensures fileName == "" ==> r.None? && files == old(files) && dirs == old(dirs)
      ensures fileName != "" ==>
        var o := RecordOutcome(old(files), old(dirs), fileName, content, mode);
        r == Some(o.result) && files == o.files && dirs == o.dirs
    {
      if fileName == "" {
        return None;
      }
      var recordPath := RecordPath(fileName);
      var error := Check(ParentDir(recordPath));
      if error.Some? {
        return Some(Err(error.value));
      }
      if !Exists(files, dirs, storagePath) {
        dirs := Made(dirs, storagePath);
      }
      if Norm(recordPath) in dirs {
        return Some(Err(WriteToDirectory(recordPath)));
      }
      if ParentDir(recordPath) in files {
        return Some(Err(WriteUnderFile(recordPath)));
      }
      WriteOrAppend(recordPath, content, mode);
      r := Some(Ok(recordPath));
    }

    /** `writeFileSync` in write mode, otherwise `appendFileSync` of the content, with
        a blank line in front when the file is non-empty. */
    method WriteOrAppend(path: string, content: string, mode: Option<FileMode>)
      modifies this`files
      ensures files == old(files)[path := Recorded(Existing(old(files), path), content, mode)]
    {
      if mode == Some(Write) {
        files := files[path := content];
      } else {
        var text := content;
        if path in files && files[path] != "" {
          text := "\n\n" + content;
        }
        var previous := if path in files then files[path] else "";
        assert previous + text == Recorded(Existing(files, path), content, mode);
        files := files[path := previous + text];
      }
    }

    /** `show`: an empty name opens nothing; otherwise the outcome above. */
    method Show(fileName: string) returns (r: Option<Result<string>>)
      modifies this`files, this`dirs
      ensures fileName == "" ==> r.None? && files == old(files) && dirs == old(dirs)
      ensures fileName != "" ==>
        var o := ShowOutcome(old(files), old(dirs), fileName);
        r == Some(o.result) && files == o.files && dirs == o.dirs
    {
      if fileName == "" {
        return None;
      }
      var recordPath := ShowPath(fileName);
      var error := Check(ParentDir(recordPath));
      if error.Some? {
        return Some(Err(error.value));
      }
      if !Exists(files, dirs, recordPath) {
        if ParentDir(recordPath) in files {
          return Some(Err(WriteUnderFile(recordPath)));
        }
        files := files[recordPath := ""];
      }
      r := Some(Ok(recordPath));
    }

    /** The name `showSQLTextDocument` records under: what `getUid` (the parameter
        `uidFor`) gives for `withSchema` of the node's type, then the template, by
        default `template.sql`. */
    function SqlDocumentName(t: DatabaseType, uidFor: bool -> string, template: Option<string>): (r: string)
      ensures '/' in r && r != ""
    {
      var r := uidFor(WithSchema(t)) + "/" + template.GetOr("template.sql");
      assert r[|uidFor(WithSchema(t))|] == '/';
      r
    }

    /** The uid carries the schema exactly for SQL Server and PostgreSQL nodes, and the
        document lies in the uid's directory under the storage path. */
    lemma {:induction false} SqlDocumentPlace(t: DatabaseType, uidFor: bool -> string, template: Option<string>)
      ensures var uid := uidFor(WithSchema(t));
        SqlDocumentName(t, uidFor, template) == uid + "/" + template.GetOr("template.sql") &&
        (t == SqlServer || t == PostgreSQL ==> uid == uidFor(true)) &&
        (t != SqlServer && t != PostgreSQL ==> uid == uidFor(false))
    {
    }

    /** `showSQLTextDocument`: records the text under the document name, in write mode
        unless told otherwise. */
    method ShowSqlTextDocument(t: DatabaseType, uidFor: bool -> string, sql: string,
                               template: Option<string>, mode: Option<FileMode>)
      returns (r: Result<string>)
      modifies this`files, this`dirs
      ensures var o := RecordOutcome(old(files), old(dirs), SqlDocumentName(t, uidFor, template),
                                     sql, Some(mode.GetOr(Write)));
        r == o.result && files == o.files && dirs == o.dirs
    {
      var recorded := Record(SqlDocumentName(t, uidFor, template), sql, Some(mode.GetOr(Write)));
      r := recorded.value;
    }
  }
}
