/**
 * Project discovery and file lookup in a project directory:
 * `find_yml_files`, `get_readme_file` and `get_logo_file`.
 */
module FindFiles {
  import opened Wrappers
  import opened Faults
  import opened Fs

  const ComposeYml := "docker-compose.yml"
  const ComposeYaml := "docker-compose.yaml"
  const ReadmeName := "readme.md"
  const LogoName := "logo.png"

  /** A directory whose own listing holds a compose file under one of the two exact names. */
  predicate IsComposeDir(fs: Fs, p: string)
  {
    IsDir(fs, p) && (ComposeYml in fs[p].children || ComposeYaml in fs[p].children)
  }

  /** The projects among the first entries of a listing: folder's last segment to the joined folder path. */
  function Projects(fs: Fs, path: string, items: seq<string>): map<string, string>
  {
    if items == [] then map[]
    else
      var m := Projects(fs, path, items[..|items| - 1]);
      var folder := Join(path, items[|items| - 1]);
      if IsComposeDir(fs, folder) then m[LastSegment(folder) := folder] else m
  }

  /** What `find_yml_files(path)` returns or raises. */
  function ProjectsIn(fs: Fs, path: string): Result<map<string, string>, Fault>
  {
    match ListDir(fs, path)
    case Err(e) => Err(e)
    case Ok(items) => Ok(Projects(fs, path, items))
  }

  /** Scans one directory level and keeps every subdirectory that directly holds a compose file. */
  method FindYmlFiles(fs: Fs, path: string) returns (r: Result<map<string, string>, Fault>)
    ensures r == ProjectsIn(fs, path)
  {
    var listing := ListDir(fs, path);
    if listing.Err? {
      return Err(listing.error);
    }
    var items := listing.value;
    var matches: map<string, string> := map[];
    var i := 0;
    while i < |items|
      invariant 0 <= i <= |items|
      invariant matches == Projects(fs, path, items[..i])
    {
      var folder := Join(path, items[i]);
      if IsDir(fs, folder) {
        var files := fs[folder].children;
        if ComposeYml in files || ComposeYaml in files {
          matches := matches[LastSegment(folder) := folder];
        }
      }
      assert items[..i + 1][..i] == items[..i];
      i := i + 1;
    }
    assert items[..i] == items;
    return Ok(matches);
  }

  /** Every value is a compose directory joined from some entry, keyed by its last segment. */
  lemma {:induction false} ProjectsAreComposeDirs(fs: Fs, path: string, items: seq<string>, k: string)
    requires k in Projects(fs, path, items)
    ensures IsComposeDir(fs, Projects(fs, path, items)[k])
    ensures LastSegment(Projects(fs, path, items)[k]) == k
    ensures exists i :: 0 <= i < |items| && Projects(fs, path, items)[k] == Join(path, items[i])
  {
    var init := items[..|items| - 1];
    var last := items[|items| - 1];
    var folder := Join(path, last);
    if IsComposeDir(fs, folder) && k == LastSegment(folder) {
      assert Projects(fs, path, items)[k] == Join(path, items[|items| - 1]);
    } else {
      ProjectsAreComposeDirs(fs, path, init, k);
      var i :| 0 <= i < |init| && Projects(fs, path, init)[k] == Join(path, init[i]);
      assert Projects(fs, path, items)[k] == Join(path, items[i]);
    }
  }

  /**
   * With plain entry names, a name is a key exactly when it is listed and
   * its folder is a compose directory, and it maps to the joined path.
   */
  lemma {:induction false} ProjectsExactly(fs: Fs, path: string, items: seq<string>, k: string)
    requires PlainNames(items)
    ensures k in Projects(fs, path, items) <==> k in items && IsComposeDir(fs, Join(path, k))
    ensures k in Projects(fs, path, items) ==> Projects(fs, path, items)[k] == Join(path, k)
  {
    if items != [] {
      var init := items[..|items| - 1];
      var last := items[|items| - 1];
      assert items == init + [last];
      assert PlainNames(init) by {
        forall i | 0 <= i < |init| ensures '/' !in init[i] {
          assert init[i] == items[i];
        }
      }
      ProjectsExactly(fs, path, init, k);
      ProjectsStep(fs, path, init, last);
    }
  }

  /** One more listed entry adds its folder, under its own name, exactly when the folder is a compose directory. */
  lemma ProjectsStep(fs: Fs, path: string, init: seq<string>, last: string)
    requires '/' !in last
    ensures Projects(fs, path, init + [last])
      == if IsComposeDir(fs, Join(path, last)) then Projects(fs, path, init)[last := Join(path, last)]
         else Projects(fs, path, init)
  {
    var items := init + [last];
    assert items[..|items| - 1] == init && items[|items| - 1] == last;
    LastSegmentOfJoin(path, last);
  }

  /** The result of a scan, characterised without reference to the scan order. */
  lemma ProjectsInExactly(fs: Fs, path: string, k: string)
    requires IsDir(fs, path) && PlainNames(fs[path].children)
    ensures ProjectsIn(fs, path).Ok?
    ensures k in ProjectsIn(fs, path).value
      <==> k in fs[path].children && IsComposeDir(fs, Join(path, k))
    ensures k in ProjectsIn(fs, path).value ==> ProjectsIn(fs, path).value[k] == Join(path, k)
  {
    ProjectsExactly(fs, path, fs[path].children, k);
  }

  /** A listed entry that is not a directory is never a project. */
  lemma NonDirectoryNeverListed(fs: Fs, path: string, item: string)
    requires IsDir(fs, path) && PlainNames(fs[path].children)
    requires !IsDir(fs, Join(path, item))
    ensures item !in ProjectsIn(fs, path).value
  {
    ProjectsExactly(fs, path, fs[path].children, item);
  }

  /** The keys are entry names of the scanned directory, so an empty directory has no projects. */
  lemma ProjectKeysAreEntries(fs: Fs, path: string)
    requires IsDir(fs, path) && PlainNames(fs[path].children)
    ensures ProjectsIn(fs, path).Ok?
    ensures forall k :: k in ProjectsIn(fs, path).value ==> k in fs[path].children
    ensures fs[path].children == [] ==> ProjectsIn(fs, path).value == map[]
  {
    forall k | k in ProjectsIn(fs, path).value ensures k in fs[path].children {
      ProjectsExactly(fs, path, fs[path].children, k);
    }
  }

  /** A path that does not exist, or is a file, cannot be listed: the scan raises. */
  lemma ScanOfNonDirectoryRaises(fs: Fs, path: string)
    requires !IsDir(fs, path)
    ensures ProjectsIn(fs, path) == Err(OsError(if path in fs then ENOTDIR else ENOENT, path))
  {
  }

  // ---- get_readme_file / get_logo_file ----

  /** An entry whose lower-cased name is `target` and that is a regular file. */
  predicate IsNamedFile(fs: Fs, path: string, name: string, target: string)
  {
    Lower(name) == target && IsFile(fs, Join(path, name))
  }

  /** The contents of the first entry, in listing order, that is a regular file named `target` ignoring case. */
  function FirstNamed(fs: Fs, path: string, names: seq<string>, target: string): Option<seq<byte>>
  {
    if names == [] then None
    else if IsNamedFile(fs, path, names[0], target) then Some(fs[Join(path, names[0])].contents)
    else FirstNamed(fs, path, names[1..], target)
  }

  /** What the lookup of `target` in directory `path` returns or raises. */
  function NamedFileIn(fs: Fs, path: string, target: string): Result<Option<seq<byte>>, Fault>
  {
    match ListDir(fs, path)
    case Err(e) => Err(e)
    case Ok(names) => Ok(FirstNamed(fs, path, names, target))
  }

  /** Walks the listing and stops at the first regular file whose lower-cased name is `target`. */
  method FindNamedFile(fs: Fs, path: string, target: string) returns (r: Result<Option<seq<byte>>, Fault>)
    ensures r == NamedFileIn(fs, path, target)
  {
    var listing := ListDir(fs, path);
    if listing.Err? {
      return Err(listing.error);
    }
    var names := listing.value;
    var found: Option<seq<byte>> := None;
    var i := 0;
    while i < |names|
      invariant 0 <= i <= |names|
      invariant found == None
      invariant FirstNamed(fs, path, names[i..], target) == FirstNamed(fs, path, names, target)
    {
      var file := names[i];
      if Lower(file) == target && IsFile(fs, Join(path, file)) {
        found := Some(fs[Join(path, file)].contents);
        assert names[i..][0] == file;
        break;
      }
      assert names[i..][1..] == names[i + 1..];
      i := i + 1;
    }
    return Ok(found);
  }

  /** `get_readme_file(path)`: the text of the first `readme.md` in any letter case, or None. */
  method GetReadmeFile(fs: Fs, path: string) returns (r: Result<Option<seq<byte>>, Fault>)
    ensures r == NamedFileIn(fs, path, ReadmeName)
  {
    r := FindNamedFile(fs, path, ReadmeName);
  }

  /** `get_logo_file(path)`: the bytes of the first `logo.png` in any letter case, or None. */
  method GetLogoFile(fs: Fs, path: string) returns (r: Result<Option<seq<byte>>, Fault>)
    ensures r == NamedFileIn(fs, path, LogoName)
  {
    r := FindNamedFile(fs, path, LogoName);
  }

  /** The entry at `i` is found when it qualifies and no earlier entry does. */
  lemma {:induction false} FirstNamedIsFirstMatch(fs: Fs, path: string, names: seq<string>, target: string, i: int)
    requires 0 <= i < |names| && IsNamedFile(fs, path, names[i], target)
    requires forall j :: 0 <= j < i ==> !IsNamedFile(fs, path, names[j], target)
    ensures FirstNamed(fs, path, names, target) == Some(fs[Join(path, names[i])].contents)
  {
    if i > 0 {
      assert !IsNamedFile(fs, path, names[0], target);
      forall j | 0 <= j < i - 1 ensures !IsNamedFile(fs, path, names[1..][j], target) {
        assert names[1..][j] == names[j + 1];
      }
      FirstNamedIsFirstMatch(fs, path, names[1..], target, i - 1);
    }
  }

  /** A found result comes from a qualifying entry with none before it. */
  lemma {:induction false} FirstNamedFound(fs: Fs, path: string, names: seq<string>, target: string)
    requires FirstNamed(fs, path, names, target).Some?
    ensures exists i ::
              && 0 <= i < |names|
              && IsNamedFile(fs, path, names[i], target)
              && FirstNamed(fs, path, names, target) == Some(fs[Join(path, names[i])].contents)
              && (forall j :: 0 <= j < i ==> !IsNamedFile(fs, path, names[j], target))
  {
    if !IsNamedFile(fs, path, names[0], target) {
      FirstNamedFound(fs, path, names[1..], target);
      var i :| 0 <= i < |names[1..]| && IsNamedFile(fs, path, names[1..][i], target)
        && FirstNamed(fs, path, names[1..], target) == Some(fs[Join(path, names[1..][i])].contents)
        && (forall j :: 0 <= j < i ==> !IsNamedFile(fs, path, names[1..][j], target));
      assert names[1..][i] == names[i + 1];
      forall j | 0 <= j < i + 1 ensures !IsNamedFile(fs, path, names[j], target) {
        if j > 0 {
          assert names[1..][j - 1] == names[j];
        }
      }
      assert IsNamedFile(fs, path, names[i + 1], target);
    } else {
      assert IsNamedFile(fs, path, names[0], target);
    }
  }

  /** The result is None exactly when no entry qualifies. */
  lemma {:induction false} FirstNamedNone(fs: Fs, path: string, names: seq<string>, target: string)
    ensures FirstNamed(fs, path, names, target) == None
      <==> forall i :: 0 <= i < |names| ==> !IsNamedFile(fs, path, names[i], target)
  {
    if FirstNamed(fs, path, names, target).Some? {
      FirstNamedFound(fs, path, names, target);
    } else if names != [] {
      FirstNamedNone(fs, path, names[1..], target);
      forall i | 0 <= i < |names| ensures !IsNamedFile(fs, path, names[i], target) {
        if i > 0 {
          assert names[1..][i - 1] == names[i];
        }
      }
    }
  }

  /** A directory whose name matches is passed over and the scan goes on. */
  lemma DirectoryWithMatchingNameSkipped(fs: Fs, path: string, names: seq<string>, target: string)
    requires names != [] && Lower(names[0]) == target && IsDir(fs, Join(path, names[0]))
    ensures FirstNamed(fs, path, names, target) == FirstNamed(fs, path, names[1..], target)
  {
  }

  /**
   * A worked listing: a directory called `README.md` comes first and is
   * skipped, `Readme.MD` is the first regular file matching in any case and
   * wins over a later `readme.md`; there is no logo.
   */
  lemma ReadmeExample()
    ensures var fs := map[
        "p" := Dir(["README.md", "Readme.MD", "readme.md"]),
        "p/README.md" := Dir([]),
        "p/Readme.MD" := File([1]),
        "p/readme.md" := File([2])];
      NamedFileIn(fs, "p", ReadmeName) == Ok(Some([1])) && NamedFileIn(fs, "p", LogoName) == Ok(None)
  {
    var fs := map[
        "p" := Dir(["README.md", "Readme.MD", "readme.md"]),
        "p/README.md" := Dir([]),
        "p/Readme.MD" := File([1]),
        "p/readme.md" := File([2])];
    var names := ["README.md", "Readme.MD", "readme.md"];
    assert Join("p", "README.md") == "p/README.md";
    assert Join("p", "Readme.MD") == "p/Readme.MD";
    assert Join("p", "readme.md") == "p/readme.md";
    assert Lower("Readme.MD") == ReadmeName;
    assert !IsNamedFile(fs, "p", names[0], ReadmeName);
    FirstNamedIsFirstMatch(fs, "p", names, ReadmeName, 1);
    assert Lower(names[0]) != LogoName && Lower(names[1]) != LogoName && Lower(names[2]) != LogoName by {
      assert Lower(names[0])[0] == 'r' && Lower(names[1])[0] == 'r' && Lower(names[2])[0] == 'r';
    }
    FirstNamedNone(fs, "p", names, LogoName);
  }
}
