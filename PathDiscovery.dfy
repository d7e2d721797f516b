/**
  `find_paths_and_packages` and `get_python_version_string` of
  setup_vscode.py: the Python import roots handed to Pylance and the local
  package names handed to Ruff.

  The filesystem is abstracted to what the function asks of it: which paths
  are directories (`Host.isDir`), the names listed under `install/`
  (`Host.installEntries`, in `iterdir` order) and the value of the
  `PYTHONPATH` environment variable (`""` when unset).  The three ROS
  candidate paths are taken as given strings (`RosCandidates`).
*/
module PathDiscovery {
  import opened Sequences
  import opened StringOrder
  import opened Text

  datatype Version = Version(major: nat, minor: nat)

  /** What the filesystem and the process environment answer. */
  datatype Host = Host(isDir: string -> bool, installEntries: seq<string>, pythonPath: string)

  /** The three system paths probed under `/opt/ros/<distro>`, in probing order. */
  datatype RosCandidates = RosCandidates(basePath: string, distPackages: string, systemSitePackages: string)

  /** `get_python_version_string`: `"python<major>.<minor>"`. */
  function PythonVersion(v: Version): (s: string)
    ensures |s| == 7 + |Decimal(v.major)| + |Decimal(v.minor)| && s[..6] == "python"
    ensures var dot := 6 + |Decimal(v.major)|;
      dot < |s| && s[dot] == '.' &&
      (forall k :: 6 <= k < |s| && k != dot ==> IsDigit(s[k])) &&
      ParseDecimal(s[6..dot]) == v.major && ParseDecimal(s[dot + 1..]) == v.minor
  {
    var major, minor := Decimal(v.major), Decimal(v.minor);
    var s := "python" + major + "." + minor;
    assert s[6..6 + |major|] == major && s[6 + |major| + 1..] == minor;
    ParseDecimalOfDecimal(v.major);
    ParseDecimalOfDecimal(v.minor);
    s
  }

  /** In `a + "." + b` with `a` all digits, the first dot stands right after `a`. */
  lemma FirstDotAfterDigits(a: string, b: string)
    requires forall k :: 0 <= k < |a| ==> IsDigit(a[k])
    ensures (a + "." + b)[|a|] == '.'
    ensures forall k :: 0 <= k < |a| ==> (a + "." + b)[k] != '.'
  {
  }

  lemma DigitsAroundDot(a1: string, b1: string, a2: string, b2: string)
    requires forall k :: 0 <= k < |a1| ==> IsDigit(a1[k])
    requires forall k :: 0 <= k < |a2| ==> IsDigit(a2[k])
    requires a1 + "." + b1 == a2 + "." + b2
    ensures a1 == a2 && b1 == b2
  {
    var t := a1 + "." + b1;
    FirstDotAfterDigits(a1, b1);
    FirstDotAfterDigits(a2, b2);
    assert |a1| == |a2|;
    assert a1 == t[..|a1|] == a2;
    assert b1 == t[|a1| + 1..] == b2;
  }

  /** Different interpreter versions give different version strings. */
  lemma PythonVersionInjective(v: Version, w: Version)
    requires PythonVersion(v) == PythonVersion(w)
    ensures v == w
  {
    var s := PythonVersion(v);
    assert s[6..] == Decimal(v.major) + "." + Decimal(v.minor);
    assert s[6..] == Decimal(w.major) + "." + Decimal(w.minor);
    DigitsAroundDot(Decimal(v.major), Decimal(v.minor), Decimal(w.major), Decimal(w.minor));
    ParseDecimalOfDecimal(v.major);
    ParseDecimalOfDecimal(v.minor);
    ParseDecimalOfDecimal(w.major);
    ParseDecimalOfDecimal(w.minor);
  }

  /**
    The whitespace a backslash line continuation leaves inside the f-string
    of the second per-package candidate: the twelve spaces that indent the
    continued line.
  */
  const ContinuationIndent: string := "            "

  /** The three candidate import roots probed inside one installed package, in order. */
  function PackageCandidates(packageDir: string, v: Version): (c: seq<string>)
    ensures |c| == 3 && NoDuplicates(c)
    ensures forall k :: 0 <= k < |c| ==> |c[k]| >= |packageDir| + 4 && c[k][..|packageDir| + 4] == packageDir + "/lib"
  {
    var major := Decimal(v.major);
    var intendedTail := "/" + PythonVersion(v) + "/site-packages";
    var continuedTail := "/python" + ContinuationIndent + major + "." + Decimal(v.minor) + "/site-packages";
    var intended := Join(packageDir, "lib" + intendedTail);
    var continued := Join(packageDir, "lib" + continuedTail);
    UnderLib(packageDir, intendedTail);
    UnderLib(packageDir, continuedTail);
    UnderLib(packageDir, "");
    assert intendedTail[7] == major[0] && continuedTail[7] == ' ';
    assert intended[|packageDir| + 11] != continued[|packageDir| + 11];
    [intended, continued, Join(packageDir, "lib")]
  }

  lemma UnderLib(packageDir: string, tail: string)
    ensures |Join(packageDir, "lib" + tail)| == |packageDir| + 4 + |tail|
    ensures Join(packageDir, "lib" + tail)[..|packageDir| + 4] == packageDir + "/lib"
    ensures Join(packageDir, "lib" + tail)[|packageDir| + 4..] == tail
  {
    assert Join(packageDir, "lib" + tail) == (packageDir + "/lib") + tail;
  }

  function InstallDir(root: string): string {
    Join(root, "install")
  }

  /** Stage 1: the ROS candidates that are directories, when a distribution is named. */
  function RosPaths(rosDistro: string, ros: RosCandidates, isDir: string -> bool): seq<string> {
    if rosDistro == "" then []
    else IfDir(ros.basePath, isDir) + IfDir(ros.distPackages, isDir) + IfDir(ros.systemSitePackages, isDir)
  }

  function IfDir(p: string, isDir: string -> bool): seq<string> {
    if isDir(p) then [p] else []
  }

  /** The names of the `install/` entries that are directories, in listing order. */
  function PackageNames(installDir: string, entries: seq<string>, isDir: string -> bool): seq<string> {
    if entries == [] then []
    else
      var r := PackageNames(installDir, entries[..|entries| - 1], isDir);
      var last := entries[|entries| - 1];
      if isDir(Join(installDir, last)) then r + [last] else r
  }

  /** A name is collected exactly when its `install/` entry is a directory. */
  lemma {:induction false} PackageNamesMembers(installDir: string, entries: seq<string>, isDir: string -> bool)
    ensures forall n :: n in PackageNames(installDir, entries, isDir) <==>
              n in entries && isDir(Join(installDir, n))
  {
    if entries != [] {
      var init := entries[..|entries| - 1];
      PackageNamesMembers(installDir, init, isDir);
      assert entries == init + [entries[|entries| - 1]];
    }
  }

  /** Stage 2: for each installed package, its candidate roots that are directories. */
  function PackagePaths(installDir: string, entries: seq<string>, isDir: string -> bool, v: Version): seq<string> {
    if entries == [] then []
    else
      var init := entries[..|entries| - 1];
      var packageDir := Join(installDir, entries[|entries| - 1]);
      PackagePaths(installDir, init, isDir, v)
        + (if isDir(packageDir) then Filter(PackageCandidates(packageDir, v), isDir) else [])
  }

  /** Every stage-2 root is a directory. */
  lemma {:induction false} PackagePathsAreDirectories(installDir: string, entries: seq<string>, isDir: string -> bool, v: Version)
    ensures forall p :: p in PackagePaths(installDir, entries, isDir, v) ==> isDir(p)
  {
    if entries != [] {
      var packageDir := Join(installDir, entries[|entries| - 1]);
      PackagePathsAreDirectories(installDir, entries[..|entries| - 1], isDir, v);
      FilterMembers(PackageCandidates(packageDir, v), isDir);
    }
  }

  /**
    A stage-2 root is exactly a directory among the candidates of an
    `install/` entry that is itself a directory.
  */
  lemma {:induction false} PackagePathsMembers(installDir: string, entries: seq<string>, isDir: string -> bool, v: Version)
    ensures forall p :: p in PackagePaths(installDir, entries, isDir, v) <==>
              isDir(p) && exists n :: n in entries && isDir(Join(installDir, n)) && p in PackageCandidates(Join(installDir, n), v)
  {
    if entries != [] {
      var init, last := entries[..|entries| - 1], entries[|entries| - 1];
      var packageDir := Join(installDir, last);
      var candidates := PackageCandidates(packageDir, v);
      PackagePathsMembers(installDir, init, isDir, v);
      FilterMembers(candidates, isDir);
      assert entries == init + [last];
      forall p
        ensures p in PackagePaths(installDir, entries, isDir, v) <==>
                isDir(p) && exists n :: n in entries && isDir(Join(installDir, n)) && p in PackageCandidates(Join(installDir, n), v)
      {
        if isDir(packageDir) && p in Filter(candidates, isDir) {
          assert last in entries;
        }
        if isDir(p) && isDir(packageDir) && p in candidates {
          var k :| 0 <= k < |candidates| && candidates[k] == p;
          assert p in Filter(candidates, isDir);
        }
      }
    }
  }

  /** The `PYTHONPATH` segments that are non-empty and are directories, in order. */
  function ExistingSegments(segments: seq<string>, isDir: string -> bool): seq<string> {
    if segments == [] then []
    else
      var r := ExistingSegments(segments[..|segments| - 1], isDir);
      var last := segments[|segments| - 1];
      if last != "" && isDir(last) then r + [last] else r
  }

  lemma {:induction false} ExistingSegmentsMembers(segments: seq<string>, isDir: string -> bool)
    ensures forall p :: p in ExistingSegments(segments, isDir) <==> p in segments && p != "" && isDir(p)
  {
    if segments != [] {
      var init := segments[..|segments| - 1];
      ExistingSegmentsMembers(init, isDir);
      assert segments == init + [segments[|segments| - 1]];
    }
  }

  /** Stage 3: the usable segments of `PYTHONPATH`, split on ':'. */
  function EnvPaths(pythonPath: string, isDir: string -> bool): seq<string> {
    if pythonPath == "" then [] else ExistingSegments(Split(pythonPath, ':'), isDir)
  }

  /**
    A `PYTHONPATH` segment is taken exactly when the variable is set, the
    segment is non-empty and it is a directory; no taken segment holds ':'.
  */
  lemma EnvPathsMembers(pythonPath: string, isDir: string -> bool)
    ensures forall p :: p in EnvPaths(pythonPath, isDir) <==>
              pythonPath != "" && p in Split(pythonPath, ':') && p != "" && isDir(p)
    ensures forall p :: p in EnvPaths(pythonPath, isDir) ==> ':' !in p
  {
    if pythonPath != "" {
      ExistingSegmentsMembers(Split(pythonPath, ':'), isDir);
    }
  }

  /** A ROS root is taken exactly when a distribution is named and the candidate is a directory. */
  lemma RosPathsMembers(rosDistro: string, ros: RosCandidates, isDir: string -> bool)
    ensures forall p :: p in RosPaths(rosDistro, ros, isDir) <==>
              rosDistro != "" && isDir(p) &&
              (p == ros.basePath || p == ros.distPackages || p == ros.systemSitePackages)
  {
  }

  /** `python_paths` just before de-duplication: the three stages, in order. */
  function CollectedPaths(root: string, v: Version, rosDistro: string, ros: RosCandidates, host: Host): seq<string> {
    RosPaths(rosDistro, ros, host.isDir)
      + PackagePaths(InstallDir(root), host.installEntries, host.isDir, v)
      + EnvPaths(host.pythonPath, host.isDir)
  }

  /** The first result of `find_paths_and_packages`. */
  function FoundPaths(root: string, v: Version, rosDistro: string, ros: RosCandidates, host: Host): seq<string> {
    if !host.isDir(InstallDir(root)) then []
    else Dedup(CollectedPaths(root, v, rosDistro, ros, host))
  }

  /** The second result of `find_paths_and_packages`. */
  function FoundPackages(root: string, host: Host): seq<string> {
    if !host.isDir(InstallDir(root)) then []
    else SortedUnique(PackageNames(InstallDir(root), host.installEntries, host.isDir))
  }

  /** Lines 55-85: probe the three ROS candidates when a distribution is named. */
  method CollectRosPaths(rosDistro: string, ros: RosCandidates, isDir: string -> bool)
    returns (found: seq<string>)
    ensures found == RosPaths(rosDistro, ros, isDir)
  {
    found := [];
    if rosDistro != "" {
      if isDir(ros.basePath) {
        found := found + [ros.basePath];
      }
      if isDir(ros.distPackages) {
        found := found + [ros.distPackages];
      }
      if isDir(ros.systemSitePackages) {
        found := found + [ros.systemSitePackages];
      }
    }
  }

  /**
    Lines 94-113: walk the `install/` entries; each one that is a directory
    contributes its name and those of its three candidate roots that are
    directories.
  */
  method CollectPackages(installDir: string, entries: seq<string>, isDir: string -> bool, v: Version)
    returns (names: seq<string>, roots: seq<string>)
    ensures names == PackageNames(installDir, entries, isDir)
    ensures roots == PackagePaths(installDir, entries, isDir, v)
  {
    names, roots := [], [];
    for i := 0 to |entries|
      invariant roots == PackagePaths(installDir, entries[..i], isDir, v)
      invariant names == PackageNames(installDir, entries[..i], isDir)
    {
      var packageDir := Join(installDir, entries[i]);
      assert entries[..i + 1][..i] == entries[..i];
      if isDir(packageDir) {
        names := names + [entries[i]];
        var possiblePaths := PackageCandidates(packageDir, v);
        ghost var before := roots;
        for j := 0 to |possiblePaths|
          invariant roots == before + Filter(possiblePaths[..j], isDir)
        {
          assert possiblePaths[..j + 1][..j] == possiblePaths[..j];
          if isDir(possiblePaths[j]) {
            roots := roots + [possiblePaths[j]];
          }
        }
        assert possiblePaths[..|possiblePaths|] == possiblePaths;
      }
    }
    assert entries[..|entries|] == entries;
  }

  /** Lines 115-121: the usable segments of `PYTHONPATH`. */
  method CollectEnvPaths(pythonPath: string, isDir: string -> bool) returns (found: seq<string>)
    ensures found == EnvPaths(pythonPath, isDir)
  {
    found := [];
    if pythonPath != "" {
      var segments := Split(pythonPath, ':');
      for k := 0 to |segments|
        invariant found == ExistingSegments(segments[..k], isDir)
      {
        assert segments[..k + 1][..k] == segments[..k];
        var path := segments[k];
        if path != "" && isDir(path) {
          found := found + [path];
        }
      }
      assert segments[..|segments|] == segments;
    }
  }

  /**
    `find_paths_and_packages`: collects candidate roots in three stages, then
    de-duplicates them keeping first occurrences, and returns the package
    names as a sorted set.  Without an `install/` directory both results are
    empty, whatever the ROS stage found.
  */
  method FindPathsAndPackages(root: string, v: Version, rosDistro: string, ros: RosCandidates, host: Host)
    returns (paths: seq<string>, packages: seq<string>)
    ensures paths == FoundPaths(root, v, rosDistro, ros, host)
    ensures packages == FoundPackages(root, host)
    ensures !host.isDir(InstallDir(root)) ==> paths == [] && packages == []
    ensures NoDuplicates(paths)
    ensures StrictlyAscending(packages)
  {
    var pythonPaths := CollectRosPaths(rosDistro, ros, host.isDir);

    var installDir := InstallDir(root);
    if !host.isDir(installDir) {
      return [], [];
    }

    var localPackages, packageRoots := CollectPackages(installDir, host.installEntries, host.isDir, v);
    pythonPaths := pythonPaths + packageRoots;

    var envPaths := CollectEnvPaths(host.pythonPath, host.isDir);
    pythonPaths := pythonPaths + envPaths;

    paths := DedupInOrder(pythonPaths);
    packages := SortedUnique(localPackages);
  }

  /**
    The usable `PYTHONPATH` segments come after every ROS and local-package
    root: the result starts with the de-duplicated roots of the first two
    stages, and every later entry is a usable `PYTHONPATH` segment that is
    not one of those roots.
  */
  lemma EnvPathsComeLast(root: string, v: Version, rosDistro: string, ros: RosCandidates, host: Host)
    requires host.isDir(InstallDir(root))
    ensures var early := RosPaths(rosDistro, ros, host.isDir)
                         + PackagePaths(InstallDir(root), host.installEntries, host.isDir, v);
            var found := FoundPaths(root, v, rosDistro, ros, host);
            && |Dedup(early)| <= |found|
            && found[..|Dedup(early)|] == Dedup(early)
            && forall k :: |Dedup(early)| <= k < |found| ==>
                 found[k] in EnvPaths(host.pythonPath, host.isDir) && found[k] !in early
  {
    var early := RosPaths(rosDistro, ros, host.isDir)
                 + PackagePaths(InstallDir(root), host.installEntries, host.isDir, v);
    DedupAppend(early, EnvPaths(host.pythonPath, host.isDir));
  }

  /** Every root handed to Pylance is an existing directory. */
  lemma FoundPathsAreDirectories(root: string, v: Version, rosDistro: string, ros: RosCandidates, host: Host)
    ensures forall p :: p in FoundPaths(root, v, rosDistro, ros, host) ==> host.isDir(p)
  {
    if host.isDir(InstallDir(root)) {
      RosPathsMembers(rosDistro, ros, host.isDir);
      PackagePathsAreDirectories(InstallDir(root), host.installEntries, host.isDir, v);
      EnvPathsMembers(host.pythonPath, host.isDir);
      var collected := CollectedPaths(root, v, rosDistro, ros, host);
      assert forall p :: p in FoundPaths(root, v, rosDistro, ros, host) ==> p in Elems(collected);
    }
  }

  /**
    The names handed to Ruff are strictly ascending and are exactly the
    entries of `install/` that are directories (none without `install/`).
  */
  lemma FoundPackagesAreInstalledDirectories(root: string, host: Host)
    ensures StrictlyAscending(FoundPackages(root, host))
    ensures forall n :: n in FoundPackages(root, host) <==>
              host.isDir(InstallDir(root)) && n in host.installEntries &&
              host.isDir(Join(InstallDir(root), n))
  {
    PackageNamesMembers(InstallDir(root), host.installEntries, host.isDir);
    assert forall n :: n in FoundPackages(root, host) <==> n in Elems(FoundPackages(root, host));
  }
}
