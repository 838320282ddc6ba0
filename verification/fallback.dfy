/** `get_full_path_or_raise`: resolve locally, and only when nothing is found
    download the object from the store into the fallback path. */
module Fallback {
  import opened Errors
  import opened Resolver
  import Paths

  /** One download request: which object, and where it is written. */
  datatype FetchDescriptor = FetchDescriptor(bucket: string, key: string, destination: string)

  /** The host process as this plugin sees it: the folder table, the
      legacy-name mapping, the regular files on disk, and the downloads made. */
  class Environment {
    const config: FolderConfig
    const mapLegacy: string -> string
    var files: set<string>
    /** Every download attempted, in order. */
    ghost var fetches: seq<FetchDescriptor>

    constructor (config: FolderConfig, mapLegacy: string -> string, files: set<string>)
      ensures this.config == config && this.mapLegacy == mapLegacy
      ensures this.files == files && fetches == []
    {
      this.config := config;
      this.mapLegacy := mapLegacy;
      this.files := files;
      fetches := [];
    }

    /** `get_lora_from_s3`: one download attempt. Whether the store delivers is
        outside the model; a delivered object becomes a regular file at the
        destination, a failed one leaves the disk as it was. */
    method Fetch(bucket: string, key: string, destination: string) returns (ok: bool)
      modifies this
      ensures fetches == old(fetches) + [FetchDescriptor(bucket, key, destination)]
      ensures files == if ok then old(files) + {destination} else old(files)
    {
      ok := *;
      fetches := fetches + [FetchDescriptor(bucket, key, destination)];
      if ok {
        files := files + {destination};
      }
    }

    /** Local file found: its path, with no download. Not found: exactly one
        download into the fallback path, which is returned when it succeeds. */
    method GetFullPathOrRaise(folderName: string, filename: string, bucket: string, key: string)
      returns (r: Result<string>)
      modifies this
      ensures FallbackStep(Resolve(config, mapLegacy, old(files), folderName, filename), bucket, key,
                           old(files), old(fetches), files, fetches, r)
    {
      var resolved := GetFullPathSimulate(config, mapLegacy, files, folderName, filename);
      if resolved.Err? {
        return Err(resolved.error);
      }
      var (fullPath, exists_) := resolved.value;
      if !exists_ {
        var ok := Fetch(bucket, key, fullPath);
        if !ok {
          return Err(FetchFailed(bucket, key));
        }
        return Ok(fullPath);
      }
      return Ok(fullPath);
    }
  }

  /** The effect of one orchestrated call, given the local resolution:
      errors propagate and found files are returned with no download; a
      missing file costs exactly one download to the fallback path, whose
      outcome decides between that path and FetchFailed. */
  ghost predicate FallbackStep(resolved: Result<(string, bool)>, bucket: string, key: string,
                               files0: set<string>, fetches0: seq<FetchDescriptor>,
                               files1: set<string>, fetches1: seq<FetchDescriptor>,
                               r: Result<string>)
  {
    match resolved
    case Err(e) => r == Err(e) && files1 == files0 && fetches1 == fetches0
    case Ok((p, true)) => r == Ok(p) && files1 == files0 && fetches1 == fetches0
    case Ok((p, false)) =>
      fetches1 == fetches0 + [FetchDescriptor(bucket, key, p)] &&
      ((r == Ok(p) && files1 == files0 + {p}) ||
       (r == Err(FetchFailed(bucket, key)) && files1 == files0))
  }

  /** At most one download per call, appended to the log. */
  lemma FallbackFetchesAtMostOnce(resolved: Result<(string, bool)>, bucket: string, key: string,
                                  files0: set<string>, fetches0: seq<FetchDescriptor>,
                                  files1: set<string>, fetches1: seq<FetchDescriptor>, r: Result<string>)
    requires FallbackStep(resolved, bucket, key, files0, fetches0, files1, fetches1, r)
    ensures fetches0 <= fetches1 && |fetches1| <= |fetches0| + 1
    ensures files0 <= files1
  {
  }

  /** A returned path is a regular file afterwards; a download happened only
      when no search directory held the file, and it targeted the first
      directory's candidate. */
  lemma FallbackReturnsRegularFile(config: FolderConfig, mapLegacy: string -> string,
                                   folderName: string, filename: string, bucket: string, key: string,
                                   files0: set<string>, fetches0: seq<FetchDescriptor>,
                                   files1: set<string>, fetches1: seq<FetchDescriptor>, r: Result<string>)
    requires FallbackStep(Resolve(config, mapLegacy, files0, folderName, filename), bucket, key,
                          files0, fetches0, files1, fetches1, r)
    ensures r.Ok? ==> r.value in files1
    ensures fetches1 != fetches0 ==>
              Reaches(config, mapLegacy, folderName, filename) &&
              var dirs := config[mapLegacy(folderName)].dirs;
              var name := Paths.RelativeToRoot(filename);
              |dirs| > 0 && NoMatch(dirs, name, files0) &&
              fetches1 == fetches0 + [FetchDescriptor(bucket, key, Paths.Join(dirs[0], name))]
  {
  }

  /** After a successful call, repeating it with the same names returns the
      same path with no further download. */
  lemma FallbackRepeatIsLocal(config: FolderConfig, mapLegacy: string -> string,
                              folderName: string, filename: string, bucket: string, key: string,
                              files0: set<string>, fetches0: seq<FetchDescriptor>,
                              files1: set<string>, fetches1: seq<FetchDescriptor>, p: string,
                              files2: set<string>, fetches2: seq<FetchDescriptor>, r2: Result<string>)
    requires FallbackStep(Resolve(config, mapLegacy, files0, folderName, filename), bucket, key,
                          files0, fetches0, files1, fetches1, Ok(p))
    requires FallbackStep(Resolve(config, mapLegacy, files1, folderName, filename), bucket, key,
                          files1, fetches1, files2, fetches2, r2)
    ensures r2 == Ok(p) && files2 == files1 && fetches2 == fetches1
  {
  }

  // ---------------------------------------------------------------------
  // The module as shipped: the client imported from the manager is rebound
  // to None by the annotated assignment that follows the import, so every
  // call on it raises and `get_lora_from_s3` returns False.

  /** `get_full_path_or_raise` with the shipped client: every download
      attempt fails, so only a local hit is ever returned. */
  function FallbackAsShipped(resolved: Result<(string, bool)>, bucket: string, key: string): (r: Result<string>)
  {
    match resolved
    case Err(e) => Err(e)
    case Ok((p, true)) => Ok(p)
    case Ok((p, false)) => Err(FetchFailed(bucket, key))
  }

  /** The shipped behaviour is the failing branch of every fallback step: a
      missing file is never obtained, although the step allows a download. */
  lemma ShippedFallbackIsFailingStep(config: FolderConfig, mapLegacy: string -> string, files: set<string>,
                                    folderName: string, filename: string, bucket: string, key: string,
                                    fetches: seq<FetchDescriptor>)
    ensures var resolved := Resolve(config, mapLegacy, files, folderName, filename);
            var r := FallbackAsShipped(resolved, bucket, key);
            FallbackStep(resolved, bucket, key, files, fetches, files,
                         if resolved.Ok? && !resolved.value.1
                         then fetches + [FetchDescriptor(bucket, key, resolved.value.0)] else fetches, r) &&
            (r.Ok? ==> r.value in files)
  {
  }

  /** As shipped, the call returns `p` exactly when both names are safe, the
      category is configured and `p` is the first search directory's
      candidate that is a regular file: only a local hit ever succeeds. */
  lemma ShippedSucceedsOnlyOnLocalHit(config: FolderConfig, mapLegacy: string -> string, files: set<string>,
                                      folderName: string, filename: string, bucket: string, key: string,
                                      p: string)
    ensures FallbackAsShipped(Resolve(config, mapLegacy, files, folderName, filename), bucket, key) == Ok(p) <==>
              Reaches(config, mapLegacy, folderName, filename) &&
              var dirs := config[mapLegacy(folderName)].dirs;
              var name := Paths.RelativeToRoot(filename);
              exists i :: IsFirstMatch(dirs, name, files, i) && p == Paths.Join(dirs[i], name)
  {
    if Reaches(config, mapLegacy, folderName, filename) {
      ResolveFirstMatchWins(config, mapLegacy, files, folderName, filename, p);
    }
  }

  /** Every file missing from the disk exposes the difference: as shipped
      the call fails with FileNotFoundError, while with a working client the
      step that downloads the file and returns its path is allowed. */
  lemma ShippedMissFails(config: FolderConfig, mapLegacy: string -> string, files: set<string>,
                         folderName: string, filename: string, bucket: string, key: string)
    requires Reaches(config, mapLegacy, folderName, filename)
    requires var dirs := config[mapLegacy(folderName)].dirs;
             |dirs| > 0 && NoMatch(dirs, Paths.RelativeToRoot(filename), files)
    ensures var resolved := Resolve(config, mapLegacy, files, folderName, filename);
            resolved.Ok? && !resolved.value.1 &&
            FallbackAsShipped(resolved, bucket, key) == Err(FetchFailed(bucket, key)) &&
            FallbackStep(resolved, bucket, key, files, [], files + {resolved.value.0},
                         [FetchDescriptor(bucket, key, resolved.value.0)], Ok(resolved.value.0))
  {
    ResolveFallsBackToFirst(config, mapLegacy, files, folderName, filename,
                            Paths.Join(config[mapLegacy(folderName)].dirs[0], Paths.RelativeToRoot(filename)));
  }
}
