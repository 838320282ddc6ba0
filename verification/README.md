# LoRA loading with an object-store fallback, in Dafny

This project models the logic of `s3_utils.py` from the ComfyUI-S3-Utils
plugin. The plugin adds two graph nodes that load a LoRA weight file. A LoRA
file is a small set of extra weights applied on top of a diffusion model and
its CLIP text encoder. The nodes look for the file in the host's configured
search directories. When it is missing, they try to download it from an S3
bucket. As the module is shipped that attempt always fails, because the client
is rebound to `None` (see Findings).
The plugin has four parts:

- **Path safety filter** (`ensure_path_safety`): rejects a path holding `..`
  or `~` and otherwise returns it unchanged (`Paths.EnsurePathSafety`).
- **Local path resolver** (`get_full_path_simulate`): filters both names,
  maps the folder name through the host's legacy-name table and looks up its
  ordered search directories. It re-roots the file name so that it never
  starts with `/`, then returns the first candidate that is a regular file,
  or the candidate under the first directory with the flag `false`. It is
  modelled twice: `Resolver.Resolve` is a pure first-match search, and
  `Resolver.GetFullPathSimulate` is the loop of the source, proved equal to it.
- **Fallback orchestrator** (`get_full_path_or_raise`): returns a local hit
  with no download. Otherwise it makes exactly one download into the fallback
  path and returns that path, or fails with `FetchFailed`
  (`Fallback.Environment`).
- **Single-slot weight cache** (`LoraLoaderFallbackS3.load_lora`): the node
  object keeps the last decoded file and its path. It reuses them for the
  same path. For a different path it empties the slot before decoding the new
  file (`LoraCache.LoraLoader`).

The filesystem is a set of regular-file paths, held in
`Fallback.Environment.files`. It changes only when a download succeeds. The
host's folder table is a map from category to a `FolderEntry`, whose `dirs`
field is the ordered directory list. `map_legacy` is a function parameter.
Decoding a file (`comfy.utils.load_torch_file`) and applying weights
(`comfy.sd.load_lora_for_models`) are function parameters of the loader. The
models and the weights are opaque types. The outcome of a download is
nondeterministic. Python exceptions become `Errors.Error` values:
`InvalidPath` (ValueError), `CategoryNotFound` and `FetchFailed`
(FileNotFoundError), `IndexOutOfRange` (IndexError on an empty directory
list) and `ShouldNotHappen` (RuntimeError).

Notes on the code as modelled:
- The candidate for a directory is `os.path.join(dir, name)`. With POSIX
  path semantics this inserts a `/` unless the directory is empty or already
  ends with one (`Paths.Join`).
- The folder name passes through `map_legacy` before the lookup, and the
  FileNotFoundError names the mapped category.
- An empty directory list raises IndexError at `folders[0][0]`, modelled as
  `IndexOutOfRange`. Python's error names no category; the category it
  carries in the model is there for the reader.
- The RuntimeError branch is dead under a fixed filesystem snapshot
  (`Resolver.ResolveNeverShouldNotHappen`).

## Model

| member | source | states |
|---|---|---|
| `Paths.EnsurePathSafety` | s3_utils.py:90-94 | Returns the path unchanged exactly when no two adjacent characters are `..` and no `~` occurs. Otherwise it fails with `InvalidPath` naming that path. |
| `Paths.HasParentTokenIff` | s3_utils.py:92 | The recursive scan for `..` agrees with the definition "two adjacent dots at some index". |
| `Paths.RelativeToRootIsRelative` | s3_utils.py:66 | The re-rooted file name is never empty and never starts with `/`. |
| `Paths.AbsoluteIsReRooted` | s3_utils.py:66 | An absolute name is re-rooted, not rejected: a leading `/` does not change the result. |
| `Paths.PlainNameUnchanged` | s3_utils.py:66 | A plain name (non-empty, not `.`, no `/`) comes out of re-rooting unchanged. |
| `Paths.RelativeToRootIdempotent` | s3_utils.py:66 | Re-rooting an already re-rooted name changes nothing. |
| `Paths.JoinUnderDirectory` | s3_utils.py:68 | For a name not starting with `/`, the joined candidate begins with the directory and ends with the name. |
| `Resolver.FirstMatch` | s3_utils.py:67-70 | Returns the smallest index at or after `from` whose candidate is a regular file, with every earlier candidate not one. Returns `None` only when no candidate from `from` on is a regular file. |
| `Resolver.GetFullPathSimulate` | s3_utils.py:54-77 | The loop that probes the directories in order with an early return computes exactly the pure resolution `Resolve`, on every input and every branch. |
| `Resolver.ResolveRejectsUnsafe` | s3_utils.py:60-61 | An unsafe folder name fails with `InvalidPath` naming it. Otherwise an unsafe file name fails the same way. When both are safe, the result is never `InvalidPath`. |
| `Resolver.ResolveCategoryNotFound` | s3_utils.py:62-64 | The result is `CategoryNotFound(c)` exactly when both names are safe, `c` is the legacy-mapped folder name and `c` is not configured. This holds for every filesystem, so no directory is probed. |
| `Resolver.ResolveFirstMatchWins` | s3_utils.py:67-70 | The result is `(p, true)` exactly when `p` is the candidate of some directory `i` holding a regular file while no earlier directory does. |
| `Resolver.ResolveFallsBackToFirst` | s3_utils.py:73-76 | The result is `(p, false)` exactly when the directory list is non-empty, no candidate is a regular file, and `p` is the first directory's candidate. |
| `Resolver.ResolveEmptyDirectoryList` | s3_utils.py:74 | An empty directory list fails with `IndexOutOfRange` (the IndexError of `folders[0][0]`). |
| `Resolver.ResolveNeverShouldNotHappen` | s3_utils.py:67-77 | With a fixed filesystem, no input leads to the RuntimeError of the last line. |
| `Resolver.ResolveResultShape` | s3_utils.py:66-76 | A successful result's flag is true exactly when its path is a regular file. The path is some search directory joined with the re-rooted name, and that name does not start with `/`. |
| `Resolver.ResolveAfterFetch` | s3_utils.py:73-88 | Once the fallback path of a not-found result holds a regular file, resolving again returns that path with the flag `true`. |
| `Fallback.Environment.Fetch` | s3_utils.py:34-52 | One download attempt is appended to the log. On success the destination becomes a regular file. On failure the disk is unchanged. |
| `Fallback.Environment.GetFullPathOrRaise` | s3_utils.py:79-88 | Resolution errors propagate and a found file is returned, both with no download. A missing file costs exactly one download to the fallback path. Success returns that path; failure returns `FetchFailed(bucket, key)`. |
| `Fallback.FallbackFetchesAtMostOnce` | s3_utils.py:83-88 | One call extends the download log by at most one entry and never removes a regular file. |
| `Fallback.FallbackReturnsRegularFile` | s3_utils.py:79-88 | A returned path is a regular file after the call. A download happens only when no search directory held the file, and its destination is the first directory's candidate. |
| `Fallback.ShippedSucceedsOnlyOnLocalHit` | s3_utils.py:79-88 | With the shipped client (rebound to `None` at s3_utils.py:15) the call returns `p` exactly when both names are safe, the category is configured and `p` is the first search directory's candidate that is a regular file: a file missing locally is never obtained. |
| `Fallback.ShippedFallbackIsFailingStep` | s3_utils.py:79-88 | The shipped behaviour is one of the steps `FallbackStep` allows (its failing branch), and it never returns a path that was not already a regular file. |
| `Fallback.ShippedMissFails` | s3_utils.py:73-88 | For any safe names in a configured category with a non-empty directory list and no regular file in any search directory, the shipped call fails with `FetchFailed`, while the step that downloads and returns the fallback path is allowed with a working client. |
| `Fallback.FallbackRepeatIsLocal` | s3_utils.py:79-88 | After a successful call, repeating it with the same names returns the same path with no download and no change to the disk. |
| `LoraCache.RunMatchesReplay` | s3_utils.py:125-141 | Any run of successful requests, each step as `LoadLora` promises, decodes exactly the files that the replay of its requests predicts, and ends with the last requested path cached. |
| `LoraCache.ReplayLoadsAppend` | s3_utils.py:125-141 | Decodes compose: those of a split request sequence are the first part's followed by the rest's, started from the first part's slot. |
| `LoraCache.RepeatedRequestsLoadOnce` | s3_utils.py:131-133 | Requesting one path any number of times decodes it once, or never when it is already cached. |
| `LoraCache.AlternatingRequestsAlwaysLoad` | s3_utils.py:134-141 | When each request differs from the previous one (and the first from the cached path), every request decodes, because the slot keeps one entry only. |
| `LoraCache.ReplayLoadsCoverRequests` | s3_utils.py:129-141 | Only requested paths are decoded. Every requested path other than the one initially cached is decoded at least once. There are never more decodes than requests. |
| `LoraCache.RunTwiceLoadsOnce` | s3_utils.py:131-141 | A fresh loader asked for path A twice decodes A exactly once. |
| `LoraCache.RunAlternatingLoadsThrice` | s3_utils.py:131-141 | A fresh loader asked for A, then B, then A decodes A, B, A: three decodes. |
| `LoraCache.LoraLoader.constructor` | s3_utils.py:101-102 | A new loader has an empty slot and has decoded nothing. |
| `LoraCache.LoraLoader.LoadTorchFile` | s3_utils.py:135-140 | Decoding is allowed only with an empty slot, so two decoded files are never held at once. The returned weights are the decoding of the path, and the path is logged. |
| `LoraCache.LoraLoader.LoadLora` | s3_utils.py:125-144 | Both strengths zero: the models come back untouched, with no resolution, no download and no cache change. Otherwise the fallback step runs on category `loras`. An error propagates and leaves the cache alone. A resolved path ends up as the slot's sole entry, decoded only on a miss, and the weights applied are that path's decoding. The slot always holds the decoding of the path it names. |
| `LoraCache.LoraLoader.LoadLoraModelOnly` | s3_utils.py:159-160 | Behaves as `load_lora` with no CLIP model and a zero CLIP strength, returning only the model. A zero model strength therefore short-circuits. |

## Findings

| source | as written | input that shows it | evidently intended | confidence | as-written member | corrected member |
|---|---|---|---|---|---|---|
| s3_utils.py:12-15 | `s3_client` is imported from the manager module, then rebound to `None` by the annotated assignment on line 15; `head_object` on `None` raises AttributeError, which lines 50-52 turn into `False` | any safe LoRA name in the `loras` category that no search directory holds, with the object present in the bucket: the call raises FileNotFoundError | line 15 is a type annotation only; the imported client is used and a delivered object is returned as the fallback path | high, not executed | `Fallback.FallbackAsShipped`, with `Fallback.ShippedSucceedsOnlyOnLocalHit` and `Fallback.ShippedMissFails` | `Fallback.Environment.Fetch`, with `Fallback.FallbackReturnsRegularFile` and `Fallback.ShippedMissFails` |

## Left out

- `ProgressPercentage` (s3_utils.py:17-32): percentages, speed, wall-clock time and console output are display only.
- The body of `get_lora_from_s3` (s3_utils.py:34-52): the boto3 `head_object` and `download_file` calls, the transfer configuration and the logging are not modelled. `Fallback.Environment.Fetch` keeps only the success flag, and that flag is nondeterministic.
- Fallback.Environment.Fetch: the nondeterministic success flag over-approximates the module as shipped. There s3_utils.py:15 rebinds `s3_client` to `None` after the import at s3_utils.py:12, so `head_object` (s3_utils.py:38) raises, s3_utils.py:50-52 return False, and every download attempt fails. `Fetch` models the evidently intended client; `Fallback.FallbackAsShipped` models the shipped one (see Findings).
- Fallback.Environment.Fetch: a successful download is assumed to leave a regular file at the destination. A download that reports success but leaves something else there is not modelled.
- `s3_manager.py`: reading credentials from the environment, building the client and the connectivity test at import time are configuration and I/O.
- Node registration (`node_wrapper`, `validate`, `get_node_names_mappings`), `INPUT_TYPES`, the class attributes and `nodes.py` are host plugin plumbing.
- LoraCache.LoraLoader.LoadLora: decoding is a total function of the path. A file that fails to decode is not modelled, and neither is a file whose contents change under a cached path.
- Strengths are `real`. Only the test "both are zero" and passing them on are modelled; floating-point rounding is not.
- The warning logged for a dangling symbolic link (s3_utils.py:71-72) is not modelled. Such an entry is simply not a regular file.
- Paths.Join: POSIX path semantics only (`posixpath.join`). On Windows `ntpath` joins with `\` and handles drive letters; neither is modelled, so the candidate strings there differ.
- Paths.RelativeToRoot: POSIX path semantics only. On Windows `relpath` yields `\`-separated names and knows drives; neither is modelled.
- `Paths.RelativeToRoot` drops empty and `.` components but does not resolve `..`. It is only reached after the safety filter, which excludes `..`. Symlink resolution is not modelled.
- `FolderEntry.extensions` is carried but unused, as in the code.
- Changes to the filesystem from outside the process are not modelled. They are the only way the RuntimeError could be raised.
- Concurrent loader instances racing on one destination are not modelled, and the explicit `del` of the old entry is modelled only as emptying the slot before the next decode.
