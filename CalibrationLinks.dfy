/**
 * The link bookkeeping of create_calibration_links.py: reading the source
 * settings, listing the `.py` files and sub-folders to link, the outcome of
 * one `create_symlink` call against an abstract filesystem, and `main`'s
 * counters, list of created entries, .gitignore rewrite and exit code.
 */
module CalibrationLinks {
  import opened Wrappers
  import opened PyStrings
  import opened Gitignore
  import opened PurePaths

  // ---------------------------------------------------------------------
  // The filesystem, as far as the script observes it
  // ---------------------------------------------------------------------

  datatype Kind = File | Directory | OtherKind

  /** One entry `iterdir()` yields: its name and what `is_file()` / `is_dir()` say of it. */
  datatype Entry = Entry(name: string, kind: Kind)

  /**
   * The filesystem: the listing of every existing folder (by path), the
   * paths that currently exist, the paths whose removal would raise, the
   * link paths whose creation would raise (no privilege, say), and the
   * .gitignore content (None when the file does not exist).
   */
  datatype Os = Os(
    folders: map<PurePath, seq<Entry>>,
    present: set<PurePath>,
    removeFails: set<PurePath>,
    createFails: set<PurePath>,
    gitignore: Option<string>)

  /** `path.exists()`. */
  predicate Exists(os: Os, path: PurePath)
  {
    path in os.present
  }

  /** `path.iterdir()` raises `NotADirectoryError`: the path exists but is not a folder. */
  predicate Unlistable(os: Os, path: PurePath)
  {
    Exists(os, path) && path !in os.folders
  }

  /**
   * `base / rel` for a string `rel`: `rel` is parsed, and an absolute one
   * replaces the base; a relative one extends the base by its parts.
   */
  function JoinPath(base: PurePath, rel: string): (p: PurePath)
    ensures Valid(base) ==> Valid(p)
    ensures !(|rel| > 0 && rel[0] == '/') ==>
      p.absolute == base.absolute && |p.parts| >= |base.parts| && p.parts[..|base.parts|] == base.parts
  {
    Join(base, Parse(rel))
  }

  /** `Path(base) / ""` is the base itself. */
  lemma JoinPathEmptyRel(base: PurePath)
    ensures JoinPath(base, "") == base
  {
    JoinEmpty(base);
  }

  /** `Path("") / rel` is `Path(rel)`: the empty base is the current folder. */
  lemma JoinPathCurrent(rel: string)
    ensures JoinPath(Parse(""), rel) == Parse(rel)
  {
    EmptyIsCurrent();
    assert [] + Parse(rel).parts == Parse(rel).parts;
  }

  /** A trailing slash on `rel` changes nothing. */
  lemma JoinPathTrailingSlash(base: PurePath, rel: string)
    requires |rel| > 0
    ensures JoinPath(base, rel + "/") == JoinPath(base, rel)
  {
    TrailingSlash(rel);
  }

  /** An absolute `rel` replaces the base. */
  lemma JoinPathAbsolute(base: PurePath, rel: string)
    requires |rel| > 0 && rel[0] == '/'
    ensures JoinPath(base, rel) == Parse(rel)
  {
  }

  /** Joining a parsed path is joining the strings with a slash, for a relative `rel`. */
  lemma JoinPathText(base: string, rel: string)
    requires |base| > 0 && !(|rel| > 0 && rel[0] == '/')
    ensures JoinPath(Parse(base), rel) == Parse(base + "/" + rel)
  {
    ParseSlash(base, rel);
  }

  // ---------------------------------------------------------------------
  // get_py_files and get_subfolders
  // ---------------------------------------------------------------------

  /** Position of the last '.' in `name`, or -1 when there is none. */
  function LastDot(name: string): (i: int)
    ensures -1 <= i < |name|
    ensures i >= 0 ==> name[i] == '.'
    ensures forall j :: i < j < |name| ==> name[j] != '.'
  {
    if |name| == 0 then -1
    else if name[|name| - 1] == '.' then |name| - 1
    else LastDot(name[..|name| - 1])
  }

  /** `PurePath.suffix`: from the last dot on, unless that dot leads or ends the name. */
  function Suffix(name: string): string
  {
    var i := LastDot(name);
    if 0 < i < |name| - 1 then name[i..] else ""
  }

  predicate EndsInPy(name: string)
  {
    |name| >= 4 && name[|name| - 3..] == ".py"
  }

  /** Names starting with "__", such as `__pycache__`. */
  predicate Dunder(name: string)
  {
    |name| >= 2 && name[..2] == "__"
  }

  /** A name has the suffix ".py" exactly when it is longer than ".py" and ends in ".py". */
  lemma PySuffix(name: string)
    ensures Suffix(name) == ".py" <==> EndsInPy(name)
  {
    var i := LastDot(name);
    if |name| >= 4 && name[|name| - 3..] == ".py" {
      assert name[|name| - 3] == '.' && name[|name| - 2] == 'p' && name[|name| - 1] == 'y';
      assert i == |name| - 3;
    }
    if Suffix(name) == ".py" {
      assert 0 < i < |name| - 1 && |name[i..]| == 3;
    }
  }

  predicate IsPyFile(e: Entry)
  {
    e.kind == File && Suffix(e.name) == ".py"
  }

  /** Directories named with a leading "__" (`__pycache__`, say) are not linked. */
  predicate IsLinkedFolder(e: Entry)
  {
    e.kind == Directory && !Dunder(e.name)
  }

  function PyNames(entries: seq<Entry>): (r: seq<string>)
    ensures forall x :: x in r <==> exists k :: 0 <= k < |entries| && entries[k].name == x && IsPyFile(entries[k])
    ensures forall k :: 0 <= k < |r| ==> Suffix(r[k]) == ".py"
  {
    if |entries| == 0 then []
    else
      var rest := PyNames(entries[1..]);
      assert forall k :: 0 < k < |entries| ==> entries[k] == entries[1..][k - 1];
      if IsPyFile(entries[0]) then [entries[0].name] + rest else rest
  }

  function FolderNames(entries: seq<Entry>): (r: seq<string>)
    ensures forall x :: x in r <==> exists k :: 0 <= k < |entries| && entries[k].name == x && IsLinkedFolder(entries[k])
    ensures forall k :: 0 <= k < |r| ==> !Dunder(r[k])
  {
    if |entries| == 0 then []
    else
      var rest := FolderNames(entries[1..]);
      assert forall k :: 0 < k < |entries| ==> entries[k] == entries[1..][k - 1];
      if IsLinkedFolder(entries[0]) then [entries[0].name] + rest else rest
  }

  /** The sorted names of exactly the `.py` regular files among a folder's entries. */
  function SortedPyNames(entries: seq<Entry>): (r: seq<string>)
    ensures Sorted(r) && forall k :: 0 <= k < |r| ==> EndsInPy(r[k])
    ensures forall x :: x in r <==> exists k :: 0 <= k < |entries| && entries[k] == Entry(x, File) && EndsInPy(x)
  {
    var names := PyNames(entries);
    var r := SortStrings(names);
    forall x ensures x in r <==> x in names {
      assert x in r <==> x in multiset(r);
    }
    forall k | 0 <= k < |r| ensures EndsInPy(r[k]) {
      assert r[k] in names;
      var j :| 0 <= j < |names| && names[j] == r[k];
      PySuffix(r[k]);
    }
    forall x ensures x in r <==> exists k :: 0 <= k < |entries| && entries[k] == Entry(x, File) && EndsInPy(x) {
      PyNameEntry(entries, x);
    }
    r
  }

  /** A name is listed as a `.py` file exactly when it is a regular file's name ending in ".py". */
  lemma PyNameEntry(entries: seq<Entry>, x: string)
    ensures (exists k :: 0 <= k < |entries| && entries[k].name == x && IsPyFile(entries[k]))
      <==> (exists k :: 0 <= k < |entries| && entries[k] == Entry(x, File) && EndsInPy(x))
  {
    PySuffix(x);
  }

  /** The sorted names of exactly the directories among a folder's entries that do not start with "__". */
  function SortedFolderNames(entries: seq<Entry>): (r: seq<string>)
    ensures Sorted(r) && forall k :: 0 <= k < |r| ==> !Dunder(r[k])
    ensures forall x :: x in r <==> exists k :: 0 <= k < |entries| && entries[k] == Entry(x, Directory) && !Dunder(x)
  {
    var names := FolderNames(entries);
    var r := SortStrings(names);
    forall x ensures x in r <==> x in names {
      assert x in r <==> x in multiset(r);
    }
    forall k | 0 <= k < |r| ensures !Dunder(r[k]) {
      assert r[k] in names;
      var j :| 0 <= j < |names| && names[j] == r[k];
    }
    r
  }

  /**
   * `get_py_files`: the names of the regular files ending in ".py" in the
   * folder, sorted, and none for a missing path. A path that exists but is
   * not a folder makes `iterdir()` raise, and the failure names that path.
   */
  function GetPyFiles(os: Os, folder: PurePath): (r: Result<seq<string>, PurePath>)
    ensures r.Failure? <==> Unlistable(os, folder)
    ensures r.Failure? ==> r.error == folder
    ensures !Exists(os, folder) ==> r == Success([])
    ensures Exists(os, folder) && folder in os.folders ==> r == Success(SortedPyNames(os.folders[folder]))
  {
    if !Exists(os, folder) then Success([])
    else if folder !in os.folders then Failure(folder)
    else Success(SortedPyNames(os.folders[folder]))
  }

  /**
   * `get_subfolders`: the names of the directories in the folder that do not
   * start with "__", sorted, and none for a missing path. A path that exists
   * but is not a folder makes `iterdir()` raise, and the failure names it.
   */
  function GetSubfolders(os: Os, folder: PurePath): (r: Result<seq<string>, PurePath>)
    ensures r.Failure? <==> Unlistable(os, folder)
    ensures r.Failure? ==> r.error == folder
    ensures !Exists(os, folder) ==> r == Success([])
    ensures Exists(os, folder) && folder in os.folders ==> r == Success(SortedFolderNames(os.folders[folder]))
  {
    if !Exists(os, folder) then Success([])
    else if folder !in os.folders then Failure(folder)
    else Success(SortedFolderNames(os.folders[folder]))
  }

  /** The names a listing gives, and none when it raised. */
  function Names(listing: Result<seq<string>, PurePath>): (r: seq<string>)
    ensures listing.Success? ==> r == listing.value
    ensures listing.Failure? ==> r == []
  {
    if listing.Success? then listing.value else []
  }

  /** `iterdir()` names are single path parts: never empty, ".", or holding a '/'. */
  predicate NamesAreParts(folders: map<PurePath, seq<Entry>>, folder: PurePath)
  {
    folder in folders ==> forall k :: 0 <= k < |folders[folder]| ==> ValidPart(folders[folder][k].name)
  }

  /** The joined path of a listed name is the folder's child of that name. */
  lemma ChildPath(folder: PurePath, name: string)
    requires ValidPart(name)
    ensures JoinPath(folder, name) == Join(folder, PurePath(false, [name]))
  {
    ParsePart(name);
  }

  /**
   * The Paths `get_py_files` returns, `folder / name`, are in the order
   * `sorted()` gives POSIX Paths: sorting the names sorts the Paths.
   */
  lemma GetPyFilesPathOrder(os: Os, folder: PurePath, i: nat, j: nat)
    requires Valid(folder) && NamesAreParts(os.folders, folder)
    requires i < j < |Names(GetPyFiles(os, folder))|
    ensures var r := Names(GetPyFiles(os, folder)); PathLe(JoinPath(folder, r[i]), JoinPath(folder, r[j]))
  {
    var r := GetPyFiles(os, folder).value;
    var folders := os.folders;
    assert r[i] in r && r[j] in r;
    var ki :| 0 <= ki < |folders[folder]| && folders[folder][ki] == Entry(r[i], File) && EndsInPy(r[i]);
    var kj :| 0 <= kj < |folders[folder]| && folders[folder][kj] == Entry(r[j], File) && EndsInPy(r[j]);
    ChildPath(folder, r[i]);
    ChildPath(folder, r[j]);
    ChildOrder(folder, r[i], r[j]);
  }

  /** The same for the sub-folder Paths `get_subfolders` returns. */
  lemma GetSubfoldersPathOrder(os: Os, folder: PurePath, i: nat, j: nat)
    requires Valid(folder) && NamesAreParts(os.folders, folder)
    requires i < j < |Names(GetSubfolders(os, folder))|
    ensures var r := Names(GetSubfolders(os, folder)); PathLe(JoinPath(folder, r[i]), JoinPath(folder, r[j]))
  {
    var r := GetSubfolders(os, folder).value;
    var folders := os.folders;
    assert r[i] in r && r[j] in r;
    var ki :| 0 <= ki < |folders[folder]| && folders[folder][ki] == Entry(r[i], Directory) && !Dunder(r[i]);
    var kj :| 0 <= kj < |folders[folder]| && folders[folder][kj] == Entry(r[j], Directory) && !Dunder(r[j]);
    ChildPath(folder, r[i]);
    ChildPath(folder, r[j]);
    ChildOrder(folder, r[i], r[j]);
  }

  // ---------------------------------------------------------------------
  // The settings
  // ---------------------------------------------------------------------

  /** A source setting as the TOML file gives it: absent, one string, or a list of strings. */
  datatype Setting = Missing | One(s: string) | Many(xs: seq<string>)

  /** `get(key, [])` followed by the string-to-list conversion. */
  function SourceList(setting: Setting): (r: seq<string>)
    ensures setting.Missing? ==> r == []
    ensures setting.One? ==> (r == [] <==> setting.s == "") && (setting.s != "" ==> r == [setting.s])
    ensures setting.Many? ==> r == setting.xs
  {
    match setting
    case Missing => []
    case One(s) => if s != "" then [s] else []
    case Many(xs) => xs
  }

  /** The settings the script reads: source_base and the two source lists. */
  datatype Config = Config(sourceBase: Option<string>, calibrationsSource: Setting, utilsSource: Setting)

  /**
   * The `source_base` guard as written: the setting is wrapped in a `Path`
   * first, and a `Path` is always truthy, so the guard never fires, even
   * when the setting is missing (Path("") is the current folder).
   */
  function BaseGuardAsWritten(sourceBase: Option<string>): (abort: bool)
  {
    var path := if sourceBase.Some? then sourceBase.value else "";
    !PathTruthy(Parse(path))
  }

  /** Every `Path` object is truthy, whatever its text. */
  predicate PathTruthy(path: PurePath)
  {
    true
  }

  /**
   * The as-written guard lets a configuration without source_base, or with
   * an empty one, through, where the intended guard aborts.
   */
  lemma BaseGuardAsWrittenMissesMissing()
    ensures !BaseGuardAsWritten(None) && BaseGuard(None)
    ensures !BaseGuardAsWritten(Some("")) && BaseGuard(Some(""))
  {
  }

  /** The guard as intended: abort when source_base is missing or empty. */
  function BaseGuard(sourceBase: Option<string>): (abort: bool)
    ensures abort <==> sourceBase.None? || sourceBase.value == ""
  {
    sourceBase.None? || sourceBase.value == ""
  }

  // ---------------------------------------------------------------------
  // create_symlink
  // ---------------------------------------------------------------------

  /**
   * `create_symlink(link, target)`: False when the target does not exist
   * (nothing is touched), False when an existing link cannot be removed
   * (nothing is touched), False when creating the link raises (the old one
   * is gone), and True with the link in place otherwise.
   */
  function CreateSymlink(os: Os, link: PurePath, target: PurePath): (res: (bool, Os))
    ensures res.1.folders == os.folders && res.1.gitignore == os.gitignore
    ensures res.1.removeFails == os.removeFails && res.1.createFails == os.createFails
    ensures target !in os.present ==> res == (false, os)
    ensures link in os.present && link in os.removeFails ==> res == (false, os)
    ensures res.0 <==> target in os.present && !(link in os.present && link in os.removeFails) && link !in os.createFails
    ensures res.0 ==> res.1.present == os.present + {link}
    ensures !res.0 ==> res.1.present - {link} == os.present - {link} && link !in res.1.present - os.present
  {
    if target !in os.present then (false, os)
    else if link in os.present && link in os.removeFails then (false, os)
    else
      var removed := os.(present := os.present - {link});
      if link in os.createFails then (false, removed)
      else (true, removed.(present := removed.present + {link}))
  }

  // ---------------------------------------------------------------------
  // The attempts main makes, and what they add up to
  // ---------------------------------------------------------------------

  /** One link `main` tries to create: where, to what, and the .gitignore entry a success adds. */
  datatype Link = Link(path: PurePath, target: PurePath, entry: string)

  /** The running totals of `main`: the filesystem, success_count, fail_count, created_symlinks. */
  datatype Tally = Tally(os: Os, success: nat, fail: nat, created: seq<string>)

  /** `"calibrations"` parsed as a relative path (ParsedLinkFolders). */
  const CalibrationsRel: PurePath := PurePath(false, ["calibrations"])

  /** `"calibration_utils"` parsed as a relative path (ParsedLinkFolders). */
  const UtilsRel: PurePath := PurePath(false, ["calibration_utils"])

  /** The two link folders are single relative parts. */
  lemma ParsedLinkFolders()
    ensures Parse("calibrations") == CalibrationsRel
    ensures Parse("calibration_utils") == UtilsRel
  {
    ParsePart("calibrations");
    ParsePart("calibration_utils");
  }

  /** `script_dir / "calibrations" / name` to `folder / name`, recorded as "calibrations/<name>". */
  function FileLink(scriptDir: PurePath, folder: PurePath, name: string): Link
  {
    Link(JoinPath(Join(scriptDir, CalibrationsRel), name), JoinPath(folder, name), "calibrations/" + name)
  }

  /** `script_dir / "calibration_utils" / name` to `folder / name`, recorded as "calibration_utils/<name>/". */
  function FolderLink(scriptDir: PurePath, folder: PurePath, name: string): Link
  {
    Link(JoinPath(Join(scriptDir, UtilsRel), name), JoinPath(folder, name), "calibration_utils/" + name + "/")
  }

  /** The file links for the given sources, source by source, each in sorted order. */
  function FileLinks(scriptDir: PurePath, base: PurePath, sources: seq<string>, os: Os): seq<Link>
  {
    if |sources| == 0 then []
    else
      var folder := JoinPath(base, sources[|sources| - 1]);
      FileLinks(scriptDir, base, sources[..|sources| - 1], os) + FileBatch(scriptDir, folder, Names(GetPyFiles(os, folder)))
  }

  /** The file links of one calibrations source, one per `.py` name, in the given order. */
  function FileBatch(scriptDir: PurePath, folder: PurePath, names: seq<string>): (r: seq<Link>)
    ensures |r| == |names|
    ensures forall k :: 0 <= k < |names| ==> r[k] == FileLink(scriptDir, folder, names[k])
  {
    seq(|names|, k requires 0 <= k < |names| => FileLink(scriptDir, folder, names[k]))
  }

  /** Adding one more source appends that source's batch. */
  lemma FileLinksSnoc(scriptDir: PurePath, base: PurePath, sources: seq<string>, i: nat, os: Os)
    requires i < |sources|
    ensures FileLinks(scriptDir, base, sources[..i + 1], os)
      == FileLinks(scriptDir, base, sources[..i], os)
         + FileBatch(scriptDir, JoinPath(base, sources[i]), Names(GetPyFiles(os, JoinPath(base, sources[i]))))
  {
    assert sources[..i + 1][..i] == sources[..i];
  }

  /** Playing the file links of one more source is playing that source's batch after the others. */
  lemma FileLinksStep(scriptDir: PurePath, base: PurePath, sources: seq<string>, i: nat, os: Os, t: Tally)
    requires i < |sources|
    ensures var folder := JoinPath(base, sources[i]);
      Play(t, FileLinks(scriptDir, base, sources[..i + 1], os))
      == Play(Play(t, FileLinks(scriptDir, base, sources[..i], os)), FileBatch(scriptDir, folder, Names(GetPyFiles(os, folder))))
  {
    var folder := JoinPath(base, sources[i]);
    FileLinksSnoc(scriptDir, base, sources, i, os);
    PlayAppend(t, FileLinks(scriptDir, base, sources[..i], os), FileBatch(scriptDir, folder, Names(GetPyFiles(os, folder))));
  }

  /** The folder links for the given sources, source by source, each in sorted order. */
  function FolderLinks(scriptDir: PurePath, base: PurePath, sources: seq<string>, os: Os): seq<Link>
  {
    if |sources| == 0 then []
    else
      var folder := JoinPath(base, sources[|sources| - 1]);
      FolderLinks(scriptDir, base, sources[..|sources| - 1], os) + FolderBatch(scriptDir, folder, Names(GetSubfolders(os, folder)))
  }

  /** The folder links of one calibration_utils source, one per sub-folder name, in the given order. */
  function FolderBatch(scriptDir: PurePath, folder: PurePath, names: seq<string>): (r: seq<Link>)
    ensures |r| == |names|
    ensures forall k :: 0 <= k < |names| ==> r[k] == FolderLink(scriptDir, folder, names[k])
  {
    seq(|names|, k requires 0 <= k < |names| => FolderLink(scriptDir, folder, names[k]))
  }

  /** Adding one more source appends that source's batch. */
  lemma FolderLinksSnoc(scriptDir: PurePath, base: PurePath, sources: seq<string>, i: nat, os: Os)
    requires i < |sources|
    ensures FolderLinks(scriptDir, base, sources[..i + 1], os)
      == FolderLinks(scriptDir, base, sources[..i], os)
         + FolderBatch(scriptDir, JoinPath(base, sources[i]), Names(GetSubfolders(os, JoinPath(base, sources[i]))))
  {
    assert sources[..i + 1][..i] == sources[..i];
  }

  /** Playing the folder links of one more source is playing that source's batch after the others. */
  lemma FolderLinksStep(scriptDir: PurePath, base: PurePath, sources: seq<string>, i: nat, os: Os, t: Tally)
    requires i < |sources|
    ensures var folder := JoinPath(base, sources[i]);
      Play(t, FolderLinks(scriptDir, base, sources[..i + 1], os))
      == Play(Play(t, FolderLinks(scriptDir, base, sources[..i], os)), FolderBatch(scriptDir, folder, Names(GetSubfolders(os, folder))))
  {
    var folder := JoinPath(base, sources[i]);
    FolderLinksSnoc(scriptDir, base, sources, i, os);
    PlayAppend(t, FolderLinks(scriptDir, base, sources[..i], os), FolderBatch(scriptDir, folder, Names(GetSubfolders(os, folder))));
  }

  /**
   * The position of the first source whose path exists but cannot be
   * listed, or the number of sources when every one can be.
   */
  function FirstUnlistable(os: Os, base: PurePath, sources: seq<string>): (n: nat)
    ensures n <= |sources|
    ensures forall k :: 0 <= k < n ==> !Unlistable(os, JoinPath(base, sources[k]))
    ensures n < |sources| ==> Unlistable(os, JoinPath(base, sources[n]))
  {
    if |sources| == 0 then 0
    else if Unlistable(os, JoinPath(base, sources[0])) then 0
    else
      var n := FirstUnlistable(os, base, sources[1..]);
      assert forall k :: 0 < k <= n ==> sources[k] == sources[1..][k - 1];
      1 + n
  }

  /** Within the sources that can be listed, the next one stops the loop exactly when it cannot be listed. */
  lemma UnlistableStep(os: Os, base: PurePath, sources: seq<string>, i: nat)
    requires i < |sources| && i <= FirstUnlistable(os, base, sources)
    ensures Unlistable(os, JoinPath(base, sources[i])) <==> FirstUnlistable(os, base, sources) == i
  {
  }

  /**
   * Every link `main` attempts, in order: the calibration files, then the
   * utility folders, up to the first source whose listing raises.
   */
  function Planned(scriptDir: PurePath, base: PurePath, config: Config, os: Os): seq<Link>
  {
    var files := SourceList(config.calibrationsSource);
    var utils := SourceList(config.utilsSource);
    var n := FirstUnlistable(os, base, files);
    if n < |files| then FileLinks(scriptDir, base, files[..n], os)
    else FileLinks(scriptDir, base, files, os) + FolderLinks(scriptDir, base, utils[..FirstUnlistable(os, base, utils)], os)
  }

  /** The source path whose listing stops `main` with `NotADirectoryError`, if any. */
  function Stop(base: PurePath, config: Config, os: Os): (r: Option<PurePath>)
    ensures r.Some? ==> Unlistable(os, r.value)
    ensures r.None? <==>
      (forall k :: 0 <= k < |SourceList(config.calibrationsSource)| ==>
        !Unlistable(os, JoinPath(base, SourceList(config.calibrationsSource)[k])))
      && (forall k :: 0 <= k < |SourceList(config.utilsSource)| ==>
        !Unlistable(os, JoinPath(base, SourceList(config.utilsSource)[k])))
  {
    var files := SourceList(config.calibrationsSource);
    var utils := SourceList(config.utilsSource);
    var n := FirstUnlistable(os, base, files);
    var m := FirstUnlistable(os, base, utils);
    if n < |files| then Some(JoinPath(base, files[n]))
    else if m < |utils| then Some(JoinPath(base, utils[m]))
    else None
  }

  /** main stops in the calibrations loop: only the sources before the failing one are linked. */
  lemma StopInFiles(scriptDir: PurePath, base: PurePath, config: Config, os: Os)
    requires FirstUnlistable(os, base, SourceList(config.calibrationsSource)) < |SourceList(config.calibrationsSource)|
    ensures var files := SourceList(config.calibrationsSource);
      var n := FirstUnlistable(os, base, files);
      && Planned(scriptDir, base, config, os) == FileLinks(scriptDir, base, files[..n], os)
      && Stop(base, config, os) == Some(JoinPath(base, files[n]))
  {
  }

  /** main gets past the calibrations loop: all file links, then the folder links up to any failing source. */
  lemma PastFiles(scriptDir: PurePath, base: PurePath, config: Config, os: Os)
    requires FirstUnlistable(os, base, SourceList(config.calibrationsSource)) == |SourceList(config.calibrationsSource)|
    ensures var utils := SourceList(config.utilsSource);
      var m := FirstUnlistable(os, base, utils);
      && Planned(scriptDir, base, config, os)
         == FileLinks(scriptDir, base, SourceList(config.calibrationsSource), os) + FolderLinks(scriptDir, base, utils[..m], os)
      && Stop(base, config, os) == (if m < |utils| then Some(JoinPath(base, utils[m])) else None)
  {
  }

  /**
   * A first calibrations source naming a regular file stops main before any
   * link is attempted: the filesystem is left exactly as it was.
   */
  lemma RegularFileSourceStops(scriptDir: PurePath, base: PurePath, config: Config, os: Os)
    requires |SourceList(config.calibrationsSource)| > 0
    requires Unlistable(os, JoinPath(base, SourceList(config.calibrationsSource)[0]))
    ensures Stop(base, config, os) == Some(JoinPath(base, SourceList(config.calibrationsSource)[0]))
    ensures Planned(scriptDir, base, config, os) == []
    ensures Totals(scriptDir, base, config, os).os == os
  {
  }

  /** When every source can be listed, main attempts the links of all of them. */
  lemma ListableRunsAll(scriptDir: PurePath, base: PurePath, config: Config, os: Os)
    requires Stop(base, config, os).None?
    ensures Planned(scriptDir, base, config, os)
      == FileLinks(scriptDir, base, SourceList(config.calibrationsSource), os)
         + FolderLinks(scriptDir, base, SourceList(config.utilsSource), os)
  {
    var utils := SourceList(config.utilsSource);
    assert utils[..|utils|] == utils;
  }

  ghost predicate IsFileEntry(e: string)
  {
    exists n: string :: e == "calibrations/" + n && EndsInPy(n)
  }

  ghost predicate IsFolderEntry(e: string)
  {
    exists n: string :: e == "calibration_utils/" + n + "/" && !Dunder(n)
  }

  /** Every file link is recorded as "calibrations/<name>" for a listed `.py` file name. */
  lemma {:induction false} FileLinksEntries(scriptDir: PurePath, base: PurePath, sources: seq<string>, os: Os)
    ensures forall k :: 0 <= k < |FileLinks(scriptDir, base, sources, os)| ==>
      IsFileEntry(FileLinks(scriptDir, base, sources, os)[k].entry)
  {
    if |sources| > 0 {
      FileLinksEntries(scriptDir, base, sources[..|sources| - 1], os);
      var init := FileLinks(scriptDir, base, sources[..|sources| - 1], os);
      var folder := JoinPath(base, sources[|sources| - 1]);
      var names := Names(GetPyFiles(os, folder));
      var links := FileLinks(scriptDir, base, sources, os);
      forall k | 0 <= k < |links|
        ensures IsFileEntry(links[k].entry)
      {
        if k < |init| {
          assert links[k] == init[k];
        } else {
          var n := names[k - |init|];
          assert EndsInPy(n);
          assert links[k].entry == "calibrations/" + n;
        }
      }
    }
  }

  /** Every folder link is recorded as "calibration_utils/<name>/" for a listed name not starting with "__". */
  lemma {:induction false} FolderLinksEntries(scriptDir: PurePath, base: PurePath, sources: seq<string>, os: Os)
    ensures forall k :: 0 <= k < |FolderLinks(scriptDir, base, sources, os)| ==>
      IsFolderEntry(FolderLinks(scriptDir, base, sources, os)[k].entry)
  {
    if |sources| > 0 {
      FolderLinksEntries(scriptDir, base, sources[..|sources| - 1], os);
      var init := FolderLinks(scriptDir, base, sources[..|sources| - 1], os);
      var folder := JoinPath(base, sources[|sources| - 1]);
      var names := Names(GetSubfolders(os, folder));
      var links := FolderLinks(scriptDir, base, sources, os);
      forall k | 0 <= k < |links|
        ensures IsFolderEntry(links[k].entry)
      {
        if k < |init| {
          assert links[k] == init[k];
        } else {
          var n := names[k - |init|];
          assert !Dunder(n);
          assert links[k].entry == "calibration_utils/" + n + "/";
        }
      }
    }
  }

  /** One attempt: exactly one counter goes up, and a success records its entry. */
  function Step(t: Tally, l: Link): (r: Tally)
    ensures r.success + r.fail == t.success + t.fail + 1
    ensures r.success == t.success + 1 ==> r.created == t.created + [l.entry]
    ensures r.fail == t.fail + 1 ==> r.created == t.created && r.success == t.success
    ensures r.os.folders == t.os.folders && r.os.gitignore == t.os.gitignore
  {
    var (ok, os) := CreateSymlink(t.os, l.path, l.target);
    if ok then Tally(os, t.success + 1, t.fail, t.created + [l.entry])
    else Tally(os, t.success, t.fail + 1, t.created)
  }

  /**
   * The totals after the attempts, made in order from `t`: every attempt
   * raises exactly one of the two counts, every success adds exactly one
   * entry, and the folder listings stay as they were.
   */
  function Play(t: Tally, links: seq<Link>): (r: Tally)
    ensures r.success + r.fail == t.success + t.fail + |links|
    ensures r.success >= t.success && r.fail >= t.fail
    ensures |r.created| == |t.created| + (r.success - t.success)
    ensures r.os.folders == t.os.folders && r.os.gitignore == t.os.gitignore
  {
    if |links| == 0 then t else Step(Play(t, links[..|links| - 1]), links[|links| - 1])
  }

  /** The entries already recorded stay, and every new entry is the entry of an attempted link. */
  lemma {:induction false} PlayEntries(t: Tally, links: seq<Link>)
    ensures Play(t, links).created[..|t.created|] == t.created
    ensures forall k :: |t.created| <= k < |Play(t, links).created| ==>
      exists j :: 0 <= j < |links| && links[j].entry == Play(t, links).created[k]
  {
    if |links| > 0 {
      var init := links[..|links| - 1];
      PlayEntries(t, init);
      var p := Play(t, init);
      var r := Play(t, links);
      assert r == Step(p, links[|links| - 1]);
      if r.success == p.success + 1 {
        assert r.created == p.created + [links[|links| - 1].entry];
        assert r.created[..|t.created|] == p.created[..|t.created|];
        forall k | |t.created| <= k < |r.created| ensures exists j :: 0 <= j < |links| && links[j].entry == r.created[k] {
          if k < |p.created| {
            var j :| 0 <= j < |init| && init[j].entry == p.created[k];
            assert links[j] == init[j];
          } else {
            assert r.created[k] == links[|links| - 1].entry;
          }
        }
      } else {
        forall k | |t.created| <= k < |r.created| ensures exists j :: 0 <= j < |links| && links[j].entry == r.created[k] {
          var j :| 0 <= j < |init| && init[j].entry == p.created[k];
          assert links[j] == init[j];
        }
      }
    }
  }

  /** With no failure, the recorded entries are every attempted link's entry, in order. */
  lemma {:induction false} PlayAllSucceed(t: Tally, links: seq<Link>)
    requires Play(t, links).fail == t.fail
    ensures Play(t, links).created == t.created + Entries(links)
  {
    if |links| > 0 {
      var init := links[..|links| - 1];
      PlayAllSucceed(t, init);
      assert Entries(links) == Entries(init) + [links[|links| - 1].entry];
    }
  }

  /** Playing two runs of attempts one after the other is playing them together. */
  lemma {:induction false} PlayAppend(t: Tally, a: seq<Link>, b: seq<Link>)
    ensures Play(t, a + b) == Play(Play(t, a), b)
  {
    if |b| == 0 {
      assert a + b == a;
    } else {
      assert (a + b)[..|a + b| - 1] == a + b[..|b| - 1];
      assert (a + b)[|a + b| - 1] == b[|b| - 1];
      PlayAppend(t, a, b[..|b| - 1]);
    }
  }

  // ---------------------------------------------------------------------
  // main
  // ---------------------------------------------------------------------

  /**
   * How main stops early: the abort when source_base is not configured, or
   * the `NotADirectoryError` of listing a source path that is not a folder,
   * with the filesystem the traceback leaves behind.
   */
  datatype LinkError = NoSourceBase | NotADirectory(path: PurePath, os: Os)

  /** What main leaves behind: the counts, the created entries, the filesystem and the exit code. */
  datatype Report = Report(success: nat, fail: nat, created: seq<string>, os: Os, exitCode: int)

  /** The end of main for the final totals: the .gitignore rewritten, and exit code 0 exactly without failures. */
  function Finish(t: Tally): (r: Report)
    ensures r.exitCode == 0 <==> t.fail == 0
    ensures r.exitCode == 0 || r.exitCode == 1
    ensures r.os.gitignore == Some(JoinTerminated(NewLines(if t.os.gitignore.Some? then t.os.gitignore.value else "", t.created)))
    ensures r.os.folders == t.os.folders && r.os.present == t.os.present
    ensures (r.success, r.fail, r.created) == (t.success, t.fail, t.created)
  {
    var existing := if t.os.gitignore.Some? then t.os.gitignore.value else "";
    Report(t.success, t.fail, t.created,
           t.os.(gitignore := Some(JoinTerminated(NewLines(existing, t.created)))),
           if t.fail == 0 then 0 else 1)
  }

  /** The totals main reaches for a configuration with the given source_base. */
  function Totals(scriptDir: PurePath, base: PurePath, config: Config, os0: Os): Tally
  {
    Play(Tally(os0, 0, 0, []), Planned(scriptDir, base, config, os0))
  }

  /** main counts every attempted link once, records one entry per success, and exits with 0 exactly when nothing failed. */
  lemma MainCounts(scriptDir: PurePath, base: PurePath, config: Config, os0: Os)
    ensures var t := Totals(scriptDir, base, config, os0);
      && t.success + t.fail == |Planned(scriptDir, base, config, os0)|
      && |t.created| == t.success
      && (Finish(t).exitCode == 0 <==> t.fail == 0)
  {
  }

  /** Every entry main records is "calibrations/<name>.py" or "calibration_utils/<name>/". */
  lemma MainEntryKinds(scriptDir: PurePath, base: PurePath, config: Config, os0: Os)
    ensures var t := Totals(scriptDir, base, config, os0);
      forall k :: 0 <= k < |t.created| ==> IsFileEntry(t.created[k]) || IsFolderEntry(t.created[k])
  {
    var links := Planned(scriptDir, base, config, os0);
    var start := Tally(os0, 0, 0, []);
    var t := Play(start, links);
    PlayEntries(start, links);
    PlannedEntries(scriptDir, base, config, os0);
    forall k | 0 <= k < |t.created| ensures IsFileEntry(t.created[k]) || IsFolderEntry(t.created[k]) {
      var j :| 0 <= j < |links| && links[j].entry == t.created[k];
    }
  }

  /** When no link fails, main records every planned entry, in order. */
  lemma MainAllSucceed(scriptDir: PurePath, base: PurePath, config: Config, os0: Os)
    requires Totals(scriptDir, base, config, os0).fail == 0
    ensures Totals(scriptDir, base, config, os0).created == Entries(Planned(scriptDir, base, config, os0))
  {
    PlayAllSucceed(Tally(os0, 0, 0, []), Planned(scriptDir, base, config, os0));
  }

  /** Every planned link records a file entry or a folder entry. */
  lemma PlannedEntries(scriptDir: PurePath, base: PurePath, config: Config, os: Os)
    ensures forall j :: 0 <= j < |Planned(scriptDir, base, config, os)| ==>
      IsFileEntry(Planned(scriptDir, base, config, os)[j].entry)
      || IsFolderEntry(Planned(scriptDir, base, config, os)[j].entry)
  {
    var fileSources := SourceList(config.calibrationsSource);
    var utilSources := SourceList(config.utilsSource);
    var n := FirstUnlistable(os, base, fileSources);
    if n < |fileSources| {
      FileLinksEntries(scriptDir, base, fileSources[..n], os);
    } else {
      var utils := utilSources[..FirstUnlistable(os, base, utilSources)];
      var files := FileLinks(scriptDir, base, fileSources, os);
      var dirs := FolderLinks(scriptDir, base, utils, os);
      FileLinksEntries(scriptDir, base, fileSources, os);
      FolderLinksEntries(scriptDir, base, utils, os);
      assert forall j :: 0 <= j < |files| ==> (files + dirs)[j] == files[j];
      assert forall j :: |files| <= j < |files + dirs| ==> (files + dirs)[j] == dirs[j - |files|];
    }
  }

  /** The recorded entries of the given links, in order. */
  function Entries(links: seq<Link>): (r: seq<string>)
    ensures |r| == |links| && forall k :: 0 <= k < |links| ==> r[k] == links[k].entry
  {
    seq(|links|, j requires 0 <= j < |links| => links[j].entry)
  }

  /**
   * `main` from the loaded configuration on: the source lists are
   * normalised, every listed file and folder is linked in order with the
   * counters and the created list kept up to date, the .gitignore is
   * rewritten with the created entries, and the exit code reports failures.
   * It aborts when source_base is not configured (the intended guard), and
   * stops at the first source path that exists but is not a folder, with the
   * links made so far in place and the .gitignore untouched.
   */
  method CreateLinks(scriptDir: PurePath, config: Config, os0: Os) returns (r: Result<Report, LinkError>)
    ensures r.Failure? <==> BaseGuard(config.sourceBase) || Stop(Parse(config.sourceBase.value), config, os0).Some?
    ensures BaseGuard(config.sourceBase) ==> r == Failure(NoSourceBase)
    ensures !BaseGuard(config.sourceBase) ==>
      var base := Parse(config.sourceBase.value);
      var t := Totals(scriptDir, base, config, os0);
      && (Stop(base, config, os0).Some? ==> r == Failure(NotADirectory(Stop(base, config, os0).value, t.os)))
      && (Stop(base, config, os0).None? ==> r == Success(Finish(t)))
    ensures r.Failure? && r.error.NotADirectory? ==>
      r.error.os.gitignore == os0.gitignore && r.error.os.folders == os0.folders
  {
    if BaseGuard(config.sourceBase) {
      return Failure(NoSourceBase);
    }
    var sourceBase := Parse(config.sourceBase.value);
    var calibrationsSource := SourceList(config.calibrationsSource);
    var utilsSource := SourceList(config.utilsSource);
    ghost var start := Tally(os0, 0, 0, []);

    var os := os0;
    var successCount: nat := 0;
    var failCount: nat := 0;
    var createdSymlinks: seq<string> := [];
    var stopped: Option<PurePath> := None;
    if |calibrationsSource| > 0 {
      os, successCount, failCount, createdSymlinks, stopped :=
        LinkCalibrations(scriptDir, sourceBase, calibrationsSource, os0, os, successCount, failCount, createdSymlinks);
      if stopped.Some? {
        StopInFiles(scriptDir, sourceBase, config, os0);
        return Failure(NotADirectory(stopped.value, os));
      }
    }
    assert calibrationsSource[..|calibrationsSource|] == calibrationsSource;
    PastFiles(scriptDir, sourceBase, config, os0);
    ghost var files := FileLinks(scriptDir, sourceBase, calibrationsSource, os0);
    ghost var afterFiles := Tally(os, successCount, failCount, createdSymlinks);
    assert afterFiles == Play(start, files);
    if |utilsSource| > 0 {
      os, successCount, failCount, createdSymlinks, stopped :=
        LinkCalibrationUtils(scriptDir, sourceBase, utilsSource, os0, os, successCount, failCount, createdSymlinks);
    }
    ghost var m := FirstUnlistable(os0, sourceBase, utilsSource);
    ghost var dirs := FolderLinks(scriptDir, sourceBase, utilsSource[..m], os0);
    assert Tally(os, successCount, failCount, createdSymlinks) == Play(afterFiles, dirs);
    PlayAppend(start, files, dirs);
    assert Tally(os, successCount, failCount, createdSymlinks) == Totals(scriptDir, sourceBase, config, os0);
    if stopped.Some? {
      return Failure(NotADirectory(stopped.value, os));
    }

    var content := UpdateGitignore(os.gitignore, createdSymlinks);
    os := os.(gitignore := Some(content));
    r := Success(Report(successCount, failCount, createdSymlinks, os, if failCount == 0 then 0 else 1));
  }

  /**
   * The calibrations loop of main: for each source folder, its `.py` files in
   * sorted order, up to the first source path that cannot be listed, which is
   * returned. Existence checks and listings read `initial`, the filesystem as
   * main found it.
   */
  method LinkCalibrations(scriptDir: PurePath, sourceBase: PurePath, sources: seq<string>, initial: Os,
                          os0: Os, success0: nat, fail0: nat, created0: seq<string>)
    returns (os: Os, successCount: nat, failCount: nat, createdSymlinks: seq<string>, stopped: Option<PurePath>)
    ensures os.folders == os0.folders
    ensures var n := FirstUnlistable(initial, sourceBase, sources);
      && stopped == (if n < |sources| then Some(JoinPath(sourceBase, sources[n])) else None)
      && Tally(os, successCount, failCount, createdSymlinks)
         == Play(Tally(os0, success0, fail0, created0), FileLinks(scriptDir, sourceBase, sources[..n], initial))
  {
    os, successCount, failCount, createdSymlinks := os0, success0, fail0, created0;
    stopped := None;
    ghost var start := Tally(os0, success0, fail0, created0);
    for i := 0 to |sources|
      invariant i <= FirstUnlistable(initial, sourceBase, sources)
      invariant Tally(os, successCount, failCount, createdSymlinks)
        == Play(start, FileLinks(scriptDir, sourceBase, sources[..i], initial))
      invariant os.folders == os0.folders
    {
      var folder := JoinPath(sourceBase, sources[i]);
      UnlistableStep(initial, sourceBase, sources, i);
      FileLinksStep(scriptDir, sourceBase, sources, i, initial, start);
      var listing := GetPyFiles(initial, folder);
      ghost var batch := FileBatch(scriptDir, folder, Names(listing));
      if !Exists(initial, folder) {
        assert batch == [];
        continue;
      }
      if listing.Failure? {
        stopped := Some(listing.error);
        return;
      }
      var pyFiles := listing.value;
      if |pyFiles| == 0 {
        assert batch == [];
        continue;
      }
      os, successCount, failCount, createdSymlinks :=
        LinkPyFiles(scriptDir, folder, pyFiles, os, successCount, failCount, createdSymlinks);
    }
    assert sources[..|sources|] == sources;
  }

  /**
   * The calibration_utils loop of main: for each source folder, its
   * sub-folders in sorted order, up to the first source path that cannot be
   * listed, which is returned. Existence checks and listings read `initial`.
   */
  method LinkCalibrationUtils(scriptDir: PurePath, sourceBase: PurePath, sources: seq<string>, initial: Os,
                              os0: Os, success0: nat, fail0: nat, created0: seq<string>)
    returns (os: Os, successCount: nat, failCount: nat, createdSymlinks: seq<string>, stopped: Option<PurePath>)
    ensures os.folders == os0.folders
    ensures var n := FirstUnlistable(initial, sourceBase, sources);
      && stopped == (if n < |sources| then Some(JoinPath(sourceBase, sources[n])) else None)
      && Tally(os, successCount, failCount, createdSymlinks)
         == Play(Tally(os0, success0, fail0, created0), FolderLinks(scriptDir, sourceBase, sources[..n], initial))
  {
    os, successCount, failCount, createdSymlinks := os0, success0, fail0, created0;
    stopped := None;
    ghost var start := Tally(os0, success0, fail0, created0);
    for i := 0 to |sources|
      invariant i <= FirstUnlistable(initial, sourceBase, sources)
      invariant Tally(os, successCount, failCount, createdSymlinks)
        == Play(start, FolderLinks(scriptDir, sourceBase, sources[..i], initial))
      invariant os.folders == os0.folders
    {
      var folder := JoinPath(sourceBase, sources[i]);
      UnlistableStep(initial, sourceBase, sources, i);
      FolderLinksStep(scriptDir, sourceBase, sources, i, initial, start);
      var listing := GetSubfolders(initial, folder);
      ghost var batch := FolderBatch(scriptDir, folder, Names(listing));
      if !Exists(initial, folder) {
        assert batch == [];
        continue;
      }
      if listing.Failure? {
        stopped := Some(listing.error);
        return;
      }
      var subfolders := listing.value;
      if |subfolders| == 0 {
        assert batch == [];
        continue;
      }
      os, successCount, failCount, createdSymlinks :=
        LinkSubfolders(scriptDir, folder, subfolders, os, successCount, failCount, createdSymlinks);
    }
    assert sources[..|sources|] == sources;
  }

  /** The inner loop over one calibrations source: one attempt per file, in order. */
  method LinkPyFiles(scriptDir: PurePath, folder: PurePath, pyFiles: seq<string>,
                     os0: Os, success0: nat, fail0: nat, created0: seq<string>)
    returns (os: Os, successCount: nat, failCount: nat, createdSymlinks: seq<string>)
    ensures os.folders == os0.folders
    ensures Tally(os, successCount, failCount, createdSymlinks)
      == Play(Tally(os0, success0, fail0, created0),
              FileBatch(scriptDir, folder, pyFiles))
  {
    os, successCount, failCount, createdSymlinks := os0, success0, fail0, created0;
    ghost var links := FileBatch(scriptDir, folder, pyFiles);
    for j := 0 to |pyFiles|
      invariant Tally(os, successCount, failCount, createdSymlinks) == Play(Tally(os0, success0, fail0, created0), links[..j])
      invariant os.folders == os0.folders
    {
      var linkName := pyFiles[j];
      var link := FileLink(scriptDir, folder, linkName);
      ghost var before := Tally(os, successCount, failCount, createdSymlinks);
      var (ok, os') := CreateSymlink(os, link.path, link.target);
      os := os';
      if ok {
        successCount := successCount + 1;
        createdSymlinks := createdSymlinks + ["calibrations/" + linkName];
      } else {
        failCount := failCount + 1;
      }
      assert Tally(os, successCount, failCount, createdSymlinks) == Step(before, link);
      assert links[..j + 1][..j] == links[..j] && links[j] == link;
    }
    assert links[..|pyFiles|] == links;
  }

  /** The inner loop over one calibration_utils source: one attempt per sub-folder, in order. */
  method LinkSubfolders(scriptDir: PurePath, folder: PurePath, subfolders: seq<string>,
                        os0: Os, success0: nat, fail0: nat, created0: seq<string>)
    returns (os: Os, successCount: nat, failCount: nat, createdSymlinks: seq<string>)
    ensures os.folders == os0.folders
    ensures Tally(os, successCount, failCount, createdSymlinks)
      == Play(Tally(os0, success0, fail0, created0),
              FolderBatch(scriptDir, folder, subfolders))
  {
    os, successCount, failCount, createdSymlinks := os0, success0, fail0, created0;
    ghost var links := FolderBatch(scriptDir, folder, subfolders);
    for j := 0 to |subfolders|
      invariant Tally(os, successCount, failCount, createdSymlinks) == Play(Tally(os0, success0, fail0, created0), links[..j])
      invariant os.folders == os0.folders
    {
      var linkName := subfolders[j];
      var link := FolderLink(scriptDir, folder, linkName);
      var entry := "calibration_utils/" + linkName + "/";
      assert entry == link.entry;
      ghost var before := Tally(os, successCount, failCount, createdSymlinks);
      var (ok, os') := CreateSymlink(os, link.path, link.target);
      os := os';
      if ok {
        successCount := successCount + 1;
        createdSymlinks := createdSymlinks + [entry];
      } else {
        failCount := failCount + 1;
      }
      assert Tally(os, successCount, failCount, createdSymlinks) == Step(before, link);
      assert links[..j + 1][..j] == links[..j] && links[j] == link;
    }
    assert links[..|subfolders|] == links;
  }
}
