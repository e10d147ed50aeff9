/**
 * The directory scanner of src/scanner.ts over an abstract filesystem.
 *
 * The filesystem is a snapshot with three independent views, one per call the
 * scanner makes: which paths `existsSync` reports, which paths `statSync` can
 * stat (and what it reports), and which paths `readdirSync` can list (and the
 * child names it returns, in listing order). A path missing from a view is a
 * call that fails or reports false; no consistency between the views is
 * assumed, since the scanner tolerates every failure separately.
 */
module Scanner {
  import opened Base
  import Sorting

  type Path = string

  /** What `statSync` reports about a path. */
  datatype Stat = Stat(isDirectory: bool, mtimeMs: int)

  datatype FileSystem = FileSystem(
    present: set<Path>,                // existsSync(p) is true
    stats: map<Path, Stat>,            // statSync(p) succeeds
    listings: map<Path, seq<string>>)  // readdirSync(p) succeeds with these names

  /** `path.join(dir, item)`, without normalisation. */
  function Join(dir: Path, item: string): Path {
    dir + "/" + item
  }

  predicate IsDirectory(fs: FileSystem, p: Path) {
    p in fs.stats && fs.stats[p].isDirectory
  }

  /** The marker names, in the priority order in which they are tried. */
  const PROJECT_INDICATORS: seq<string> := [
    "package.json", "pom.xml", "Cargo.toml", "go.mod", "requirements.txt",
    "Gemfile", "composer.json", ".git", "Makefile", "CMakeLists.txt",
    "build.gradle", "pyproject.toml", "deno.json", "bun.lock"
  ]

  /** The result of `isProjectDirectory`: `{ isProject, type? }`. */
  datatype Detection = Detection(isProject: bool, projectType: Option<string>)

  /** `ProjectInfo`: one scanned directory. */
  datatype ProjectInfo = ProjectInfo(
    name: string,
    path: Path,
    isProject: bool,
    hasSubdirs: bool,
    lastModified: int,
    projectType: Option<string>,
    parentDir: Option<string>,
    isSubdirectory: bool)

  function NameOf(p: ProjectInfo): string {
    p.name
  }

  // ---------------------------------------------------------------------------
  // isProjectDirectory

  /** The indicator at index `k` is present and no earlier one is. */
  ghost predicate IsFirstPresent(indicators: seq<string>, files: seq<string>, k: int) {
    && 0 <= k < |indicators|
    && indicators[k] in files
    && forall j :: 0 <= j < k ==> indicators[j] !in files
  }

  /** The first of `indicators` that occurs among `files`, if any. */
  function FirstIndicator(indicators: seq<string>, files: seq<string>): (r: Option<string>)
    ensures r.None? <==> forall k :: 0 <= k < |indicators| ==> indicators[k] !in files
    ensures r.Some? ==> exists k :: IsFirstPresent(indicators, files, k) && r.value == indicators[k]
  {
    if indicators == [] then None
    else if indicators[0] in files then
      assert IsFirstPresent(indicators, files, 0);
      Some(indicators[0])
    else
      var r := FirstIndicator(indicators[1..], files);
      FirstPresentShift(indicators, files);
      r
  }

  lemma FirstPresentShift(indicators: seq<string>, files: seq<string>)
    requires indicators != [] && indicators[0] !in files
    ensures forall k :: IsFirstPresent(indicators[1..], files, k) ==> IsFirstPresent(indicators, files, k + 1)
    ensures forall k :: 0 < k < |indicators| ==> indicators[k] == indicators[1..][k - 1]
  {
  }

  /**
   * What `isProjectDirectory(dirPath)` returns: the first marker, in
   * `PROJECT_INDICATORS` order, among the directory's children; nothing for a
   * directory that cannot be listed.
   */
  function Detect(fs: FileSystem, dirPath: Path): (d: Detection)
    ensures d.isProject <==> d.projectType.Some?
    ensures d.isProject <==>
      dirPath in fs.listings &&
      exists k :: 0 <= k < |PROJECT_INDICATORS| && PROJECT_INDICATORS[k] in fs.listings[dirPath]
    ensures d.isProject ==>
      exists k :: IsFirstPresent(PROJECT_INDICATORS, fs.listings[dirPath], k) &&
                  d.projectType == Some(PROJECT_INDICATORS[k])
  {
    if dirPath !in fs.listings then Detection(false, None)
    else match FirstIndicator(PROJECT_INDICATORS, fs.listings[dirPath])
      case Some(t) => Detection(true, Some(t))
      case None => Detection(false, None)
  }

  /** `isProjectDirectory`: the early-return loop over the indicators. */
  method IsProjectDirectory(fs: FileSystem, dirPath: Path) returns (r: Detection)
    ensures r == Detect(fs, dirPath)
  {
    if dirPath !in fs.listings {
      // readdirSync throws; the error is swallowed
      return Detection(false, None);
    }
    var files := fs.listings[dirPath];
    for i := 0 to |PROJECT_INDICATORS|
      invariant FirstIndicator(PROJECT_INDICATORS, files) == FirstIndicator(PROJECT_INDICATORS[i..], files)
    {
      var indicator := PROJECT_INDICATORS[i];
      assert PROJECT_INDICATORS[i..][1..] == PROJECT_INDICATORS[i + 1..];
      if indicator in files {
        return Detection(true, Some(indicator));
      }
    }
    return Detection(false, None);
  }

  // ---------------------------------------------------------------------------
  // hasSubdirectories

  /** A child that can be stat'ed, is a directory, and whose name does not start with a dot. */
  predicate IsVisibleSubdir(fs: FileSystem, dirPath: Path, item: string) {
    IsDirectory(fs, Join(dirPath, item)) && !StartsWith(item, ".")
  }

  /** `items.some(...)` in `hasSubdirectories`. */
  function AnyVisibleSubdir(fs: FileSystem, dirPath: Path, items: seq<string>): (b: bool)
    ensures b <==> exists i :: 0 <= i < |items| && IsVisibleSubdir(fs, dirPath, items[i])
  {
    if items == [] then false
    else
      var rest := AnyVisibleSubdir(fs, dirPath, items[1..]);
      assert forall i :: 0 < i < |items| ==> items[i] == items[1..][i - 1];
      IsVisibleSubdir(fs, dirPath, items[0]) || rest
  }

  /** `hasSubdirectories`: false for a directory that cannot be listed. */
  function HasSubdirectories(fs: FileSystem, dirPath: Path): (b: bool)
    ensures b <==>
      dirPath in fs.listings &&
      exists item :: item in fs.listings[dirPath] && IsVisibleSubdir(fs, dirPath, item)
  {
    dirPath in fs.listings && AnyVisibleSubdir(fs, dirPath, fs.listings[dirPath])
  }

  // ---------------------------------------------------------------------------
  // scanSubdirectoriesForGit

  /** A child of the parent that the git probe reports. */
  predicate GitEligible(fs: FileSystem, parentPath: Path, item: string) {
    var p := Join(parentPath, item);
    !StartsWith(item, ".") && IsDirectory(fs, p) && Join(p, ".git") in fs.present
  }

  /** The entry the git probe pushes for an eligible child. */
  function GitEntry(fs: FileSystem, parentPath: Path, parentName: string, item: string): ProjectInfo
    requires IsDirectory(fs, Join(parentPath, item))
  {
    var p := Join(parentPath, item);
    ProjectInfo(item, p, true, HasSubdirectories(fs, p), fs.stats[p].mtimeMs,
                Some(Detect(fs, p).projectType.GetOr(".git")), Some(parentName), true)
  }

  /** The entries the probe's loop has pushed after visiting `items`. */
  function GitEntries(fs: FileSystem, parentPath: Path, parentName: string, items: seq<string>): (r: seq<ProjectInfo>)
    ensures |r| <= |items|
    ensures forall i :: 0 <= i < |r| ==> r[i].isProject && r[i].isSubdirectory && r[i].parentDir == Some(parentName)
  {
    if items == [] then []
    else
      var last := items[|items| - 1];
      GitEntries(fs, parentPath, parentName, items[..|items| - 1]) +
      (if GitEligible(fs, parentPath, last) then [GitEntry(fs, parentPath, parentName, last)] else [])
  }

  /** What `scanSubdirectoriesForGit(parentPath, parentName)` returns. */
  function GitScan(fs: FileSystem, parentPath: Path, parentName: string): (r: seq<ProjectInfo>)
    ensures parentPath !in fs.listings ==> r == []
    ensures parentPath in fs.listings ==> |r| <= |fs.listings[parentPath]|
    ensures forall i :: 0 <= i < |r| ==> r[i].isProject && r[i].isSubdirectory && r[i].parentDir == Some(parentName)
  {
    if parentPath in fs.listings then GitEntries(fs, parentPath, parentName, fs.listings[parentPath]) else []
  }

  /** A second-level entry, field by field, as the git probe builds it. */
  ghost predicate IsGitEntry(fs: FileSystem, parentPath: Path, parentName: string, e: ProjectInfo) {
    && GitEligible(fs, parentPath, e.name)
    && e.path == Join(parentPath, e.name)
    && e.isProject
    && e.isSubdirectory
    && e.parentDir == Some(parentName)
    && e.projectType == Some(Detect(fs, e.path).projectType.GetOr(".git"))
    && e.hasSubdirs == HasSubdirectories(fs, e.path)
    && e.lastModified == fs.stats[e.path].mtimeMs
  }

  method ScanSubdirectoriesForGit(fs: FileSystem, parentPath: Path, parentName: string)
    returns (gitProjects: seq<ProjectInfo>)
    ensures gitProjects == GitScan(fs, parentPath, parentName)
  {
    gitProjects := [];
    if parentPath !in fs.listings {
      return;
    }
    var items := fs.listings[parentPath];
    for i := 0 to |items|
      invariant gitProjects == GitEntries(fs, parentPath, parentName, items[..i])
    {
      var item := items[i];
      assert items[..i + 1][..i] == items[..i];
      if StartsWith(item, ".") {
        continue;
      }
      var itemPath := Join(parentPath, item);
      if itemPath !in fs.stats {
        // statSync throws: skip this child
        continue;
      }
      var stat := fs.stats[itemPath];
      if stat.isDirectory {
        var gitPath := Join(itemPath, ".git");
        if gitPath in fs.present {
          var detection := IsProjectDirectory(fs, itemPath);
          var hasSubdirs := HasSubdirectories(fs, itemPath);
          gitProjects := gitProjects + [ProjectInfo(item, itemPath, true, hasSubdirs, stat.mtimeMs,
                                                    Some(detection.projectType.GetOr(".git")),
                                                    Some(parentName), true)];
        }
      }
    }
    assert items[..|items|] == items;
  }

  lemma {:induction false} GitEntriesMembers(fs: FileSystem, parentPath: Path, parentName: string, items: seq<string>)
    ensures forall e :: e in GitEntries(fs, parentPath, parentName, items) <==>
                        e.name in items && IsGitEntry(fs, parentPath, parentName, e)
  {
    if items != [] {
      var init, last := items[..|items| - 1], items[|items| - 1];
      assert items == init + [last];
      GitEntriesMembers(fs, parentPath, parentName, init);
      forall e ensures e in GitEntries(fs, parentPath, parentName, items) <==>
                       e.name in items && IsGitEntry(fs, parentPath, parentName, e) {
        if e.name == last && IsGitEntry(fs, parentPath, parentName, e) {
          assert e == GitEntry(fs, parentPath, parentName, last);
        }
      }
    }
  }

  /**
   * The git probe reports exactly the non-hidden child directories of the
   * parent that contain `.git`, each marked as a subdirectory project of the
   * parent, with the detected marker or `.git`.
   */
  lemma GitScanMembers(fs: FileSystem, parentPath: Path, parentName: string)
    ensures forall e :: e in GitScan(fs, parentPath, parentName) <==>
      parentPath in fs.listings && e.name in fs.listings[parentPath] &&
      IsGitEntry(fs, parentPath, parentName, e)
  {
    if parentPath in fs.listings {
      GitEntriesMembers(fs, parentPath, parentName, fs.listings[parentPath]);
    }
  }

  // ---------------------------------------------------------------------------
  // scanDirectory

  /** A child of the root that becomes a first-level entry. */
  predicate TopEligible(fs: FileSystem, root: Path, includeHidden: bool, item: string) {
    (includeHidden || !StartsWith(item, ".")) && IsDirectory(fs, Join(root, item))
  }

  function TopEntry(fs: FileSystem, root: Path, item: string): ProjectInfo
    requires IsDirectory(fs, Join(root, item))
  {
    var p := Join(root, item);
    var d := Detect(fs, p);
    ProjectInfo(item, p, d.isProject, HasSubdirectories(fs, p), fs.stats[p].mtimeMs,
                d.projectType, None, false)
  }

  /** What one iteration of the scan loop pushes for `item`. */
  function ItemEntries(fs: FileSystem, root: Path, includeHidden: bool, item: string): seq<ProjectInfo> {
    if !TopEligible(fs, root, includeHidden, item) then []
    else
      var e := TopEntry(fs, root, item);
      [e] + (if e.hasSubdirs then GitScan(fs, e.path, item) else [])
  }

  /** The unsorted `directories` array after the loop has visited `items`. */
  function Collected(fs: FileSystem, root: Path, includeHidden: bool, items: seq<string>): seq<ProjectInfo> {
    if items == [] then []
    else
      Collected(fs, root, includeHidden, items[..|items| - 1]) +
      ItemEntries(fs, root, includeHidden, items[|items| - 1])
  }

  /** What `scanDirectory(root, includeHidden)` returns, with `collate` standing for `localeCompare(a, b) <= 0`. */
  function ScanResult(fs: FileSystem, collate: (string, string) -> bool, root: Path, includeHidden: bool): (r: seq<ProjectInfo>)
    ensures root !in fs.present || root !in fs.listings ==> r == []
    ensures root in fs.present && root in fs.listings ==>
      multiset(r) == multiset(Collected(fs, root, includeHidden, fs.listings[root]))
  {
    if root !in fs.present || root !in fs.listings then []
    else Sorting.SortBy(Collected(fs, root, includeHidden, fs.listings[root]), NameOf, collate)
  }

  /** A first-level entry, field by field: a listed, stat'able child directory of the root. */
  ghost predicate IsTopEntry(fs: FileSystem, root: Path, includeHidden: bool, items: seq<string>, e: ProjectInfo) {
    && e.name in items
    && (includeHidden || !StartsWith(e.name, "."))
    && e.path == Join(root, e.name)
    && IsDirectory(fs, e.path)
    && !e.isSubdirectory
    && e.parentDir.None?
    && e.isProject == Detect(fs, e.path).isProject
    && e.projectType == Detect(fs, e.path).projectType
    && e.hasSubdirs == HasSubdirectories(fs, e.path)
    && e.lastModified == fs.stats[e.path].mtimeMs
  }

  /**
   * A second-level entry: found by the git probe of a first-level entry that
   * has visible subdirectories, and named after that entry.
   */
  ghost predicate IsNestedEntry(fs: FileSystem, root: Path, includeHidden: bool, items: seq<string>, e: ProjectInfo) {
    && e.parentDir.Some?
    && var parentName := e.parentDir.value;
    && var parentPath := Join(root, parentName);
    && parentName in items
    && TopEligible(fs, root, includeHidden, parentName)
    && HasSubdirectories(fs, parentPath)
    && e.name in fs.listings[parentPath]
    && IsGitEntry(fs, parentPath, parentName, e)
  }

  lemma {:induction false} CollectedMembers(fs: FileSystem, root: Path, includeHidden: bool, items: seq<string>)
    ensures forall e :: e in Collected(fs, root, includeHidden, items) <==>
      IsTopEntry(fs, root, includeHidden, items, e) || IsNestedEntry(fs, root, includeHidden, items, e)
  {
    if items != [] {
      var init, last := items[..|items| - 1], items[|items| - 1];
      assert items == init + [last];
      CollectedMembers(fs, root, includeHidden, init);
      var lastPath := Join(root, last);
      GitScanMembers(fs, lastPath, last);
      forall e ensures e in Collected(fs, root, includeHidden, items) <==>
        IsTopEntry(fs, root, includeHidden, items, e) || IsNestedEntry(fs, root, includeHidden, items, e)
      {
        if IsTopEntry(fs, root, includeHidden, items, e) && e.name == last {
          assert e == TopEntry(fs, root, last);
        }
      }
    }
  }

  /**
   * The scan reports exactly the first-level and second-level entries
   * described above: each one's fields are determined by the filesystem, every
   * eligible directory is reported, and nothing else is.
   */
  lemma ScanResultMembers(fs: FileSystem, collate: (string, string) -> bool, root: Path, includeHidden: bool)
    ensures forall e :: e in ScanResult(fs, collate, root, includeHidden) <==>
      root in fs.present && root in fs.listings &&
      (IsTopEntry(fs, root, includeHidden, fs.listings[root], e) ||
       IsNestedEntry(fs, root, includeHidden, fs.listings[root], e))
  {
    if root in fs.present && root in fs.listings {
      var items := fs.listings[root];
      CollectedMembers(fs, root, includeHidden, items);
      Sorting.SortByMembers(Collected(fs, root, includeHidden, items), NameOf, collate);
    }
  }

  /** The body of the scan loop for one child `item` of `dirPath`: the entries it pushes. */
  method ScanItem(fs: FileSystem, dirPath: Path, includeHidden: bool, item: string)
    returns (pushed: seq<ProjectInfo>)
    ensures pushed == ItemEntries(fs, dirPath, includeHidden, item)
  {
    pushed := [];
    if !includeHidden && StartsWith(item, ".") {
      return;
    }
    var itemPath := Join(dirPath, item);
    if itemPath !in fs.stats {
      // statSync throws: skip this entry only
      return;
    }
    var stat := fs.stats[itemPath];
    if stat.isDirectory {
      var detection := IsProjectDirectory(fs, itemPath);
      var hasSubdirs := HasSubdirectories(fs, itemPath);
      pushed := [ProjectInfo(item, itemPath, detection.isProject, hasSubdirs,
                             stat.mtimeMs, detection.projectType, None, false)];
      if hasSubdirs {
        var subdirs := ScanSubdirectoriesForGit(fs, itemPath, item);
        pushed := pushed + subdirs;
      }
    }
  }

  /** `scanDirectory`: the loop over the root's children, then the sort by name. */
  method ScanDirectory(fs: FileSystem, collate: (string, string) -> bool, dirPath: Path, includeHidden: bool)
    returns (directories: seq<ProjectInfo>)
    ensures directories == ScanResult(fs, collate, dirPath, includeHidden)
  {
    if dirPath !in fs.present {
      return [];
    }
    if dirPath !in fs.listings {
      // readdirSync throws: the error is logged and nothing is returned
      return [];
    }
    var items := fs.listings[dirPath];
    directories := [];
    for i := 0 to |items|
      invariant directories == Collected(fs, dirPath, includeHidden, items[..i])
    {
      assert items[..i + 1][..i] == items[..i];
      var pushed := ScanItem(fs, dirPath, includeHidden, items[i]);
      directories := directories + pushed;
    }
    assert items[..|items|] == items;
    directories := Sorting.SortBy(directories, NameOf, collate);
  }

  /**
   * A missing or unreadable root yields the empty list; otherwise the result
   * is a permutation of the collected entries, ordered by name.
   */
  lemma ScanResultSortedPermutation(fs: FileSystem, collate: (string, string) -> bool, root: Path, includeHidden: bool)
    requires Sorting.TotalPreorder(collate)
    ensures root !in fs.present || root !in fs.listings ==> ScanResult(fs, collate, root, includeHidden) == []
    ensures root in fs.present && root in fs.listings ==>
      multiset(ScanResult(fs, collate, root, includeHidden)) ==
      multiset(Collected(fs, root, includeHidden, fs.listings[root]))
    ensures Sorting.SortedBy(ScanResult(fs, collate, root, includeHidden), NameOf, collate)
  {
    if root in fs.present && root in fs.listings {
      Sorting.SortBySorted(Collected(fs, root, includeHidden, fs.listings[root]), NameOf, collate);
    }
  }

  /** Entries whose names collate as equal keep the order in which the loop collected them. */
  lemma ScanResultTiesKeepOrder(fs: FileSystem, collate: (string, string) -> bool, root: Path, includeHidden: bool, name: string)
    requires Sorting.TotalPreorder(collate)
    requires root in fs.present && root in fs.listings
    ensures Filter(ScanResult(fs, collate, root, includeHidden), Sorting.Equivalent(NameOf, collate, name))
         == Filter(Collected(fs, root, includeHidden, fs.listings[root]), Sorting.Equivalent(NameOf, collate, name))
  {
    Sorting.SortByStable(Collected(fs, root, includeHidden, fs.listings[root]), NameOf, collate, name);
  }

  // ---------------------------------------------------------------------------
  // getAllProjects

  /** The entries `scan(path, depth)` appends to `allProjects`. */
  function AllFrom(fs: FileSystem, collate: (string, string) -> bool, maxDepth: int, path: Path, depth: int): seq<ProjectInfo>
    decreases maxDepth - depth + 1, 1, 0
  {
    if depth > maxDepth then []
    else Descend(fs, collate, maxDepth, ScanResult(fs, collate, path, false), depth)
  }

  /** The entries the loop of `scan` at `depth` appends while visiting `projects`. */
  function Descend(fs: FileSystem, collate: (string, string) -> bool, maxDepth: int, projects: seq<ProjectInfo>, depth: int): seq<ProjectInfo>
    requires depth <= maxDepth
    decreases maxDepth - depth + 1, 0, |projects|
  {
    if projects == [] then []
    else
      var p := projects[|projects| - 1];
      Descend(fs, collate, maxDepth, projects[..|projects| - 1], depth) + [p] +
      (if !p.isProject && p.hasSubdirs then AllFrom(fs, collate, maxDepth, p.path, depth + 1) else [])
  }

  /** The `(path, depth)` pairs `scan` is called with, in call order. */
  ghost function Scans(fs: FileSystem, collate: (string, string) -> bool, maxDepth: int, path: Path, depth: int): seq<(Path, int)>
    decreases maxDepth - depth + 1, 1, 0
  {
    if depth > maxDepth then []
    else [(path, depth)] + DescendScans(fs, collate, maxDepth, ScanResult(fs, collate, path, false), depth)
  }

  ghost function DescendScans(fs: FileSystem, collate: (string, string) -> bool, maxDepth: int, projects: seq<ProjectInfo>, depth: int): seq<(Path, int)>
    requires depth <= maxDepth
    decreases maxDepth - depth + 1, 0, |projects|
  {
    if projects == [] then []
    else
      var p := projects[|projects| - 1];
      DescendScans(fs, collate, maxDepth, projects[..|projects| - 1], depth) +
      (if !p.isProject && p.hasSubdirs then Scans(fs, collate, maxDepth, p.path, depth + 1) else [])
  }

  /** The nested `scan(path, depth)` closure, appending to `allProjects`. */
  method ScanInto(fs: FileSystem, collate: (string, string) -> bool, maxDepth: int, path: Path, depth: int,
                  allProjects: seq<ProjectInfo>)
    returns (result: seq<ProjectInfo>)
    ensures result == allProjects + AllFrom(fs, collate, maxDepth, path, depth)
    decreases maxDepth - depth + 1, 1
  {
    if depth > maxDepth {
      return allProjects;
    }
    var projects := ScanDirectory(fs, collate, path, false);
    result := AppendProjects(fs, collate, maxDepth, projects, depth, allProjects);
  }

  /** The loop of `scan` over the entries of one directory, descending into folders. */
  method AppendProjects(fs: FileSystem, collate: (string, string) -> bool, maxDepth: int,
                        projects: seq<ProjectInfo>, depth: int, allProjects: seq<ProjectInfo>)
    returns (result: seq<ProjectInfo>)
    requires depth <= maxDepth
    ensures result == allProjects + Descend(fs, collate, maxDepth, projects, depth)
    decreases maxDepth - depth + 1, 0
  {
    result := allProjects;
    for i := 0 to |projects|
      invariant result == allProjects + Descend(fs, collate, maxDepth, projects[..i], depth)
    {
      var project := projects[i];
      ghost var deeper := if !project.isProject && project.hasSubdirs
        then AllFrom(fs, collate, maxDepth, project.path, depth + 1) else [];
      var next := result + [project];
      if !project.isProject && project.hasSubdirs {
        next := ScanInto(fs, collate, maxDepth, project.path, depth + 1, next);
      }
      DescendStep(fs, collate, maxDepth, projects, i, depth);
      AppendAssoc(allProjects, Descend(fs, collate, maxDepth, projects[..i], depth), [project], deeper);
      result := next;
    }
    assert projects[..|projects|] == projects;
  }

  lemma AppendAssoc<T>(a: seq<T>, b: seq<T>, c: seq<T>, d: seq<T>)
    ensures a + b + c + d == a + (b + c + d)
  {
  }

  lemma DescendStep(fs: FileSystem, collate: (string, string) -> bool, maxDepth: int, projects: seq<ProjectInfo>, i: int, depth: int)
    requires depth <= maxDepth && 0 <= i < |projects|
    ensures Descend(fs, collate, maxDepth, projects[..i + 1], depth) ==
      Descend(fs, collate, maxDepth, projects[..i], depth) + [projects[i]] +
      (if !projects[i].isProject && projects[i].hasSubdirs
       then AllFrom(fs, collate, maxDepth, projects[i].path, depth + 1) else [])
  {
    assert projects[..i + 1][..i] == projects[..i];
  }

  /** `getAllProjects(rootPath, maxDepth)`. */
  method GetAllProjects(fs: FileSystem, collate: (string, string) -> bool, rootPath: Path, maxDepth: int)
    returns (allProjects: seq<ProjectInfo>)
    ensures allProjects == AllFrom(fs, collate, maxDepth, rootPath, 0)
    ensures maxDepth < 0 ==> allProjects == []
    ensures maxDepth == 0 ==> allProjects == ScanResult(fs, collate, rootPath, false)
  {
    allProjects := ScanInto(fs, collate, maxDepth, rootPath, 0, []);
    if maxDepth == 0 {
      AtMaxDepth(fs, collate, maxDepth, rootPath, ScanResult(fs, collate, rootPath, false));
    }
  }

  lemma {:induction false} AtMaxDepth(fs: FileSystem, collate: (string, string) -> bool, maxDepth: int, path: Path, projects: seq<ProjectInfo>)
    ensures Descend(fs, collate, maxDepth, projects, maxDepth) == projects
  {
    if projects != [] {
      var init := projects[..|projects| - 1];
      AtMaxDepth(fs, collate, maxDepth, path, init);
      assert projects == init + [projects[|projects| - 1]];
    }
  }

  // Properties of the walk of getAllProjects. Each is proved for `scan` and
  // for its loop together, by induction on the remaining depth and the length
  // of the directory's entry list.

  /** `scan` is called only at depths from the starting depth up to `maxDepth`. */
  lemma {:induction false} ScansWithinDepth(fs: FileSystem, collate: (string, string) -> bool, maxDepth: int, path: Path, depth: int)
    ensures forall v :: v in Scans(fs, collate, maxDepth, path, depth) ==> depth <= v.1 <= maxDepth
    decreases maxDepth - depth + 1, 1, 0
  {
    if depth <= maxDepth {
      DescendScansWithinDepth(fs, collate, maxDepth, ScanResult(fs, collate, path, false), depth);
    }
  }

  lemma {:induction false} DescendScansWithinDepth(fs: FileSystem, collate: (string, string) -> bool, maxDepth: int, projects: seq<ProjectInfo>, depth: int)
    requires depth <= maxDepth
    ensures forall v :: v in DescendScans(fs, collate, maxDepth, projects, depth) ==> depth < v.1 <= maxDepth
    decreases maxDepth - depth + 1, 0, |projects|
  {
    if projects != [] {
      var p := projects[|projects| - 1];
      DescendScansWithinDepth(fs, collate, maxDepth, projects[..|projects| - 1], depth);
      if !p.isProject && p.hasSubdirs {
        ScansWithinDepth(fs, collate, maxDepth, p.path, depth + 1);
      }
    }
  }

  /**
   * Apart from the first call, `scan` is called only on the path of an entry
   * the walk has reported that is not a project and has subdirectories.
   */
  lemma {:induction false} ScansOnlyFolders(fs: FileSystem, collate: (string, string) -> bool, maxDepth: int, path: Path, depth: int)
    ensures forall v :: v in Scans(fs, collate, maxDepth, path, depth) ==>
      v == (path, depth) ||
      exists e :: e in AllFrom(fs, collate, maxDepth, path, depth) && e.path == v.0 && !e.isProject && e.hasSubdirs
    decreases maxDepth - depth + 1, 1, 0
  {
    if depth <= maxDepth {
      DescendScansOnlyFolders(fs, collate, maxDepth, ScanResult(fs, collate, path, false), depth);
    }
  }

  lemma {:induction false} DescendScansOnlyFolders(fs: FileSystem, collate: (string, string) -> bool, maxDepth: int, projects: seq<ProjectInfo>, depth: int)
    requires depth <= maxDepth
    ensures forall v :: v in DescendScans(fs, collate, maxDepth, projects, depth) ==>
      exists e :: e in Descend(fs, collate, maxDepth, projects, depth) && e.path == v.0 && !e.isProject && e.hasSubdirs
    decreases maxDepth - depth + 1, 0, |projects|
  {
    if projects != [] {
      var init, p := projects[..|projects| - 1], projects[|projects| - 1];
      DescendScansOnlyFolders(fs, collate, maxDepth, init, depth);
      var all := Descend(fs, collate, maxDepth, projects, depth);
      var before := Descend(fs, collate, maxDepth, init, depth);
      assert forall e :: e in before ==> e in all;
      assert p in all;
      if !p.isProject && p.hasSubdirs {
        ScansOnlyFolders(fs, collate, maxDepth, p.path, depth + 1);
        var deeper := AllFrom(fs, collate, maxDepth, p.path, depth + 1);
        assert forall e :: e in deeper ==> e in all;
      }
    }
  }

  /** Every entry of the walk is an entry of the scan of some directory `scan` was called on. */
  lemma {:induction false} AllFromScanned(fs: FileSystem, collate: (string, string) -> bool, maxDepth: int, path: Path, depth: int)
    ensures forall e :: e in AllFrom(fs, collate, maxDepth, path, depth) ==>
      exists v :: v in Scans(fs, collate, maxDepth, path, depth) && e in ScanResult(fs, collate, v.0, false)
    decreases maxDepth - depth + 1, 1, 0
  {
    if depth <= maxDepth {
      var projects := ScanResult(fs, collate, path, false);
      DescendScanned(fs, collate, maxDepth, projects, depth);
      assert (path, depth) in Scans(fs, collate, maxDepth, path, depth);
    }
  }

  lemma {:induction false} DescendScanned(fs: FileSystem, collate: (string, string) -> bool, maxDepth: int, projects: seq<ProjectInfo>, depth: int)
    requires depth <= maxDepth
    ensures forall e :: e in Descend(fs, collate, maxDepth, projects, depth) ==>
      e in projects ||
      exists v :: v in DescendScans(fs, collate, maxDepth, projects, depth) && e in ScanResult(fs, collate, v.0, false)
    decreases maxDepth - depth + 1, 0, |projects|
  {
    if projects != [] {
      var init, p := projects[..|projects| - 1], projects[|projects| - 1];
      DescendScanned(fs, collate, maxDepth, init, depth);
      var scans := DescendScans(fs, collate, maxDepth, projects, depth);
      assert forall v :: v in DescendScans(fs, collate, maxDepth, init, depth) ==> v in scans;
      assert forall e :: e in init ==> e in projects;
      if !p.isProject && p.hasSubdirs {
        AllFromScanned(fs, collate, maxDepth, p.path, depth + 1);
        assert forall v :: v in Scans(fs, collate, maxDepth, p.path, depth + 1) ==> v in scans;
      }
    }
  }

  /** Below `maxDepth`, `scan` descends into every entry that is not a project and has subdirectories. */
  lemma {:induction false} ScansEveryFolder(fs: FileSystem, collate: (string, string) -> bool, maxDepth: int, path: Path, depth: int)
    requires depth < maxDepth
    ensures forall e :: e in ScanResult(fs, collate, path, false) && !e.isProject && e.hasSubdirs ==>
      (e.path, depth + 1) in Scans(fs, collate, maxDepth, path, depth)
  {
    DescendScansEveryFolder(fs, collate, maxDepth, ScanResult(fs, collate, path, false), depth);
  }

  lemma {:induction false} DescendScansEveryFolder(fs: FileSystem, collate: (string, string) -> bool, maxDepth: int, projects: seq<ProjectInfo>, depth: int)
    requires depth < maxDepth
    ensures forall e :: e in projects && !e.isProject && e.hasSubdirs ==>
      (e.path, depth + 1) in DescendScans(fs, collate, maxDepth, projects, depth)
  {
    if projects != [] {
      var init, p := projects[..|projects| - 1], projects[|projects| - 1];
      DescendScansEveryFolder(fs, collate, maxDepth, init, depth);
      assert projects == init + [p];
      if !p.isProject && p.hasSubdirs {
        assert (p.path, depth + 1) in Scans(fs, collate, maxDepth, p.path, depth + 1);
      }
    }
  }
}
