/** `get_full_path_simulate`: resolves a folder category and a file name to a
    path under the category's search directories, reporting whether a regular
    file is already there. The filesystem is a fixed set of regular-file paths;
    the host's folder configuration is a map; `map_legacy` is a parameter. */
module Resolver {
  import opened Errors
  import opened Paths

  /** One entry of the host's folder table: the search directories in
      priority order and the accepted file extensions. */
  datatype FolderEntry = FolderEntry(dirs: seq<string>, extensions: set<string>)

  type FolderConfig = map<string, FolderEntry>

  /** The smallest index at or after `from` whose candidate is a regular file. */
  function FirstMatch(dirs: seq<string>, name: string, files: set<string>, from: nat): (r: Option<nat>)
    ensures r.Some? ==> from <= r.value < |dirs| && Join(dirs[r.value], name) in files
    ensures r.Some? ==> forall k :: from <= k < r.value ==> Join(dirs[k], name) !in files
    ensures r.None? ==> forall k :: from <= k < |dirs| ==> Join(dirs[k], name) !in files
    decreases |dirs| - from
  {
    if from >= |dirs| then None
    else if Join(dirs[from], name) in files then Some(from)
    else FirstMatch(dirs, name, files, from + 1)
  }

  /** The resolution as a pure first-match search, with the outcome of every
      branch of the source, including the RuntimeError one. */
  function Resolve(config: FolderConfig, mapLegacy: string -> string, files: set<string>,
                   folderName: string, filename: string): (r: Result<(string, bool)>)
  {
    match EnsurePathSafety(folderName)
    case Err(e) => Err(e)
    case Ok(folder) =>
      match EnsurePathSafety(filename)
      case Err(e) => Err(e)
      case Ok(file) =>
        var category := mapLegacy(folder);
        if category !in config then Err(CategoryNotFound(category))
        else
          var dirs := config[category].dirs;
          var name := RelativeToRoot(file);
          match FirstMatch(dirs, name, files, 0)
          case Some(i) => Ok((Join(dirs[i], name), true))
          case None =>
            if |dirs| == 0 then Err(IndexOutOfRange(category))
            else if Join(dirs[0], name) !in files then Ok((Join(dirs[0], name), false))
            else Err(ShouldNotHappen(Join(dirs[0], name)))
  }

  /** The loop of the source: probe the directories in order, return the first
      regular file, otherwise fall back to the first directory. */
  method GetFullPathSimulate(config: FolderConfig, mapLegacy: string -> string, files: set<string>,
                             folderName: string, filename: string)
    returns (r: Result<(string, bool)>)
    ensures r == Resolve(config, mapLegacy, files, folderName, filename)
  {
    var folder := EnsurePathSafety(folderName);
    if folder.Err? {
      return Err(folder.error);
    }
    var file := EnsurePathSafety(filename);
    if file.Err? {
      return Err(file.error);
    }
    var category := mapLegacy(folder.value);
    if category !in config {
      return Err(CategoryNotFound(category));
    }
    var dirs := config[category].dirs;
    var name := RelativeToRoot(file.value);
    for i := 0 to |dirs|
      invariant forall k :: 0 <= k < i ==> Join(dirs[k], name) !in files
    {
      var fullPath := Join(dirs[i], name);
      if fullPath in files {
        return Ok((fullPath, true));
      }
      // a dangling link is only logged: it is not a regular file, so the scan goes on
    }
    if |dirs| == 0 {
      return Err(IndexOutOfRange(category));
    }
    var fullPath := Join(dirs[0], name);
    if fullPath !in files {
      return Ok((fullPath, false));
    }
    return Err(ShouldNotHappen(fullPath));
  }

  // ---------------------------------------------------------------------
  // Properties of the resolution

  /** Both names pass the filter and the mapped category is configured, so the scan runs. */
  predicate Reaches(config: FolderConfig, mapLegacy: string -> string, folderName: string, filename: string)
  {
    IsSafe(folderName) && IsSafe(filename) && mapLegacy(folderName) in config
  }

  /** `i` is the first search directory whose candidate is a regular file. */
  predicate IsFirstMatch(dirs: seq<string>, name: string, files: set<string>, i: int)
  {
    0 <= i < |dirs| && Join(dirs[i], name) in files &&
    forall k :: 0 <= k < i ==> Join(dirs[k], name) !in files
  }

  /** No search directory holds the file. */
  predicate NoMatch(dirs: seq<string>, name: string, files: set<string>)
  {
    forall k :: 0 <= k < |dirs| ==> Join(dirs[k], name) !in files
  }

  /** Both arguments go through the filter, the folder name first. */
  lemma ResolveRejectsUnsafe(config: FolderConfig, mapLegacy: string -> string, files: set<string>,
                             folderName: string, filename: string)
    ensures !IsSafe(folderName) ==> Resolve(config, mapLegacy, files, folderName, filename) == Err(InvalidPath(folderName))
    ensures IsSafe(folderName) && !IsSafe(filename) ==>
              Resolve(config, mapLegacy, files, folderName, filename) == Err(InvalidPath(filename))
    ensures IsSafe(folderName) && IsSafe(filename) ==>
              !Resolve(config, mapLegacy, files, folderName, filename).Err? ||
              !Resolve(config, mapLegacy, files, folderName, filename).error.InvalidPath?
  {
  }

  /** An unknown category fails whatever the filesystem holds, so no
      directory is consulted; and that is the only way to get this error. */
  lemma ResolveCategoryNotFound(config: FolderConfig, mapLegacy: string -> string, files: set<string>,
                                folderName: string, filename: string, category: string)
    ensures Resolve(config, mapLegacy, files, folderName, filename) == Err(CategoryNotFound(category)) <==>
              IsSafe(folderName) && IsSafe(filename) && category == mapLegacy(folderName) && category !in config
  {
  }

  /** First match wins: a found path is the candidate of the first search
      directory holding a regular file, and every such first match is found. */
  lemma ResolveFirstMatchWins(config: FolderConfig, mapLegacy: string -> string, files: set<string>,
                              folderName: string, filename: string, p: string)
    requires Reaches(config, mapLegacy, folderName, filename)
    ensures var dirs := config[mapLegacy(folderName)].dirs;
            var name := RelativeToRoot(filename);
            Resolve(config, mapLegacy, files, folderName, filename) == Ok((p, true)) <==>
              exists i :: IsFirstMatch(dirs, name, files, i) && p == Join(dirs[i], name)
  {
  }

  /** Nothing found: the path is the candidate under the first directory,
      and this happens exactly when no directory holds the file. */
  lemma ResolveFallsBackToFirst(config: FolderConfig, mapLegacy: string -> string, files: set<string>,
                                folderName: string, filename: string, p: string)
    requires Reaches(config, mapLegacy, folderName, filename)
    ensures var dirs := config[mapLegacy(folderName)].dirs;
            var name := RelativeToRoot(filename);
            Resolve(config, mapLegacy, files, folderName, filename) == Ok((p, false)) <==>
              |dirs| > 0 && NoMatch(dirs, name, files) && p == Join(dirs[0], name)
  {
  }

  /** An empty directory list leaves no first directory: the scan finds
      nothing and indexing the list fails. */
  lemma ResolveEmptyDirectoryList(config: FolderConfig, mapLegacy: string -> string, files: set<string>,
                                  folderName: string, filename: string)
    requires Reaches(config, mapLegacy, folderName, filename)
    requires config[mapLegacy(folderName)].dirs == []
    ensures Resolve(config, mapLegacy, files, folderName, filename) == Err(IndexOutOfRange(mapLegacy(folderName)))
  {
  }

  /** With a fixed filesystem the RuntimeError branch is dead: the scan has
      already probed the first directory's candidate. */
  lemma ResolveNeverShouldNotHappen(config: FolderConfig, mapLegacy: string -> string, files: set<string>,
                                    folderName: string, filename: string)
    ensures var r := Resolve(config, mapLegacy, files, folderName, filename);
            !(r.Err? && r.error.ShouldNotHappen?)
  {
  }

  /** The flag is truthful, and the path is a search directory joined with
      the re-rooted name, which never starts with '/'. */
  lemma ResolveResultShape(config: FolderConfig, mapLegacy: string -> string, files: set<string>,
                           folderName: string, filename: string, p: string, exists_: bool)
    requires Resolve(config, mapLegacy, files, folderName, filename) == Ok((p, exists_))
    ensures exists_ <==> p in files
    ensures Reaches(config, mapLegacy, folderName, filename)
    ensures var dirs := config[mapLegacy(folderName)].dirs;
            exists i :: 0 <= i < |dirs| && p == Join(dirs[i], RelativeToRoot(filename))
    ensures RelativeToRoot(filename) != "" && RelativeToRoot(filename)[0] != '/'
  {
    HasParentTokenIff(folderName);
    HasParentTokenIff(filename);
    RelativeToRootIsRelative(filename);
    var dirs := config[mapLegacy(folderName)].dirs;
    var name := RelativeToRoot(filename);
    var m := FirstMatch(dirs, name, files, 0);
    if m.Some? {
      assert p == Join(dirs[m.value], name);
    } else {
      assert p == Join(dirs[0], name);
    }
  }

  /** Once the fallback path has been filled, resolving again finds it there. */
  lemma ResolveAfterFetch(config: FolderConfig, mapLegacy: string -> string, files: set<string>,
                          folderName: string, filename: string, p: string)
    requires Resolve(config, mapLegacy, files, folderName, filename) == Ok((p, false))
    ensures Resolve(config, mapLegacy, files + {p}, folderName, filename) == Ok((p, true))
  {
  }
}
