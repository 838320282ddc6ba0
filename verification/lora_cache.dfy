/** `LoraLoaderFallbackS3.load_lora`: a node object that keeps the most
    recently decoded LoRA file in a single slot, keyed by its resolved path,
    and `load_lora_model_only`, which delegates to it. Decoding a file and
    applying weights to the models belong to the host's model library and
    are parameters of the loader. */
module LoraCache {
  import opened Errors
  import opened Fallback
  import Resolver

  /** The diffusion model, the CLIP model and decoded LoRA weights: opaque values. */
  type Model
  type Clip
  type Weights

  /** The slot's content: the path a file was decoded from and its weights. */
  datatype CachedWeight = CachedWeight(path: string, payload: Weights)

  /** The folder category LoRA files are resolved in. */
  const LorasCategory: string := "loras"

  /** The path held by the slot, if any. */
  function CachedPath(slot: Option<CachedWeight>): (c: Option<string>)
  {
    match slot
    case None => None
    case Some(entry) => Some(entry.path)
  }

  /** The files decoded by one request: none when the slot already holds the
      requested path, the requested path otherwise. */
  function LoadsFor(cached: Option<string>, path: string): (loads: seq<string>)
  {
    if cached == Some(path) then [] else [path]
  }

  /** The cache's reaction to one request whose path resolution gave `resolved`.
      A failed resolution leaves the slot and the decode log alone. A resolved
      path is served from the slot or decoded, and either way the slot ends up
      holding exactly that path with its weights. */
  ghost predicate CacheStep(decode: string -> Weights, resolved: Result<string>,
                            slot0: Option<CachedWeight>, loads0: seq<string>,
                            slot1: Option<CachedWeight>, loads1: seq<string>)
  {
    match resolved
    case Err(_) => slot1 == slot0 && loads1 == loads0
    case Ok(p) => slot1 == Some(CachedWeight(p, decode(p))) && loads1 == loads0 + LoadsFor(CachedPath(slot0), p)
  }

  /** The files decoded when `paths` are requested in turn, starting with
      `cached` in the slot. */
  function ReplayLoads(cached: Option<string>, paths: seq<string>): (loads: seq<string>)
    decreases |paths|
  {
    if paths == [] then [] else LoadsFor(cached, paths[0]) + ReplayLoads(Some(paths[0]), paths[1..])
  }

  /** The cached path after `paths` have been requested in turn. */
  function LastCached(cached: Option<string>, paths: seq<string>): (last: Option<string>)
  {
    if paths == [] then cached else Some(paths[|paths| - 1])
  }

  /** `slots` and `loadss` are the successive states of a loader serving the
      successful requests `ps` in turn, each step as `LoadLora` promises. */
  ghost predicate IsRun(decode: string -> Weights, ps: seq<string>,
                        slots: seq<Option<CachedWeight>>, loadss: seq<seq<string>>)
  {
    |slots| == |ps| + 1 && |loadss| == |ps| + 1 &&
    forall i :: 0 <= i < |ps| ==> CacheStep(decode, Ok(ps[i]), slots[i], loadss[i], slots[i + 1], loadss[i + 1])
  }

  /** Any run of the loader decodes exactly what the replay of its requests
      predicts, and ends caching the last path requested. */
  lemma {:induction false} RunMatchesReplay(decode: string -> Weights, ps: seq<string>,
                                            slots: seq<Option<CachedWeight>>, loadss: seq<seq<string>>)
    requires IsRun(decode, ps, slots, loadss)
    ensures loadss[|ps|] == loadss[0] + ReplayLoads(CachedPath(slots[0]), ps)
    ensures CachedPath(slots[|ps|]) == LastCached(CachedPath(slots[0]), ps)
    decreases |ps|
  {
    if ps != [] {
      assert CacheStep(decode, Ok(ps[0]), slots[0], loadss[0], slots[1], loadss[1]);
      assert IsRun(decode, ps[1..], slots[1..], loadss[1..]) by {
        forall i | 0 <= i < |ps[1..]|
          ensures CacheStep(decode, Ok(ps[1..][i]), slots[1..][i], loadss[1..][i], slots[1..][i + 1], loadss[1..][i + 1])
        {
          assert CacheStep(decode, Ok(ps[i + 1]), slots[i + 1], loadss[i + 1], slots[i + 2], loadss[i + 2]);
        }
      }
      RunMatchesReplay(decode, ps[1..], slots[1..], loadss[1..]);
      assert LastCached(Some(ps[0]), ps[1..]) == LastCached(CachedPath(slots[0]), ps);
    }
  }

  /** Requests split anywhere: the decodes of the whole are those of the
      first part followed by those of the rest, started from the first part's slot. */
  lemma {:induction false} ReplayLoadsAppend(cached: Option<string>, ps: seq<string>, qs: seq<string>)
    ensures ReplayLoads(cached, ps + qs) == ReplayLoads(cached, ps) + ReplayLoads(LastCached(cached, ps), qs)
    decreases |ps|
  {
    if ps == [] {
      assert ps + qs == qs;
    } else {
      assert (ps + qs)[0] == ps[0] && (ps + qs)[1..] == ps[1..] + qs;
      ReplayLoadsAppend(Some(ps[0]), ps[1..], qs);
      assert LastCached(Some(ps[0]), ps[1..]) == LastCached(cached, ps);
    }
  }

  /** Requesting one path any number of times decodes it at most once:
      never when it is already cached, once otherwise. */
  lemma {:induction false} RepeatedRequestsLoadOnce(cached: Option<string>, p: string, paths: seq<string>)
    requires forall i :: 0 <= i < |paths| ==> paths[i] == p
    ensures ReplayLoads(cached, paths) == if paths == [] || cached == Some(p) then [] else [p]
    decreases |paths|
  {
    if paths != [] {
      RepeatedRequestsLoadOnce(Some(p), p, paths[1..]);
    }
  }

  /** When every request differs from the one before (and the first from the
      cached path), every request decodes: one slot retains nothing else. */
  lemma {:induction false} AlternatingRequestsAlwaysLoad(cached: Option<string>, paths: seq<string>)
    requires paths != [] ==> cached != Some(paths[0])
    requires forall i :: 0 < i < |paths| ==> paths[i] != paths[i - 1]
    ensures ReplayLoads(cached, paths) == paths
    decreases |paths|
  {
    if paths != [] {
      var rest := paths[1..];
      forall i | 0 < i < |rest| ensures rest[i] != rest[i - 1] {
        assert rest[i] == paths[i + 1] && rest[i - 1] == paths[i];
      }
      AlternatingRequestsAlwaysLoad(Some(paths[0]), rest);
      assert paths == [paths[0]] + rest;
    }
  }

  /** Only requested paths are decoded, and every requested path other than
      the one initially cached is decoded at least once. */
  lemma {:induction false} ReplayLoadsCoverRequests(cached: Option<string>, paths: seq<string>)
    ensures forall p :: p in ReplayLoads(cached, paths) ==> p in paths
    ensures forall p :: p in paths && cached != Some(p) ==> p in ReplayLoads(cached, paths)
    ensures |ReplayLoads(cached, paths)| <= |paths|
    decreases |paths|
  {
    if paths != [] {
      ReplayLoadsCoverRequests(Some(paths[0]), paths[1..]);
      assert paths == [paths[0]] + paths[1..];
    }
  }

  /** A fresh loader asked for path A twice decodes A once. */
  lemma RunTwiceLoadsOnce(decode: string -> Weights, a: string,
                          slots: seq<Option<CachedWeight>>, loadss: seq<seq<string>>)
    requires IsRun(decode, [a, a], slots, loadss)
    requires slots[0] == None && loadss[0] == []
    ensures loadss[2] == [a]
  {
    RunMatchesReplay(decode, [a, a], slots, loadss);
    RepeatedRequestsLoadOnce(None, a, [a, a]);
  }

  /** A fresh loader asked for A, then B, then A again decodes three times:
      the single slot no longer holds A when it is asked for the second time. */
  lemma RunAlternatingLoadsThrice(decode: string -> Weights, a: string, b: string,
                                  slots: seq<Option<CachedWeight>>, loadss: seq<seq<string>>)
    requires a != b
    requires IsRun(decode, [a, b, a], slots, loadss)
    requires slots[0] == None && loadss[0] == []
    ensures loadss[3] == [a, b, a]
  {
    RunMatchesReplay(decode, [a, b, a], slots, loadss);
    AlternatingRequestsAlwaysLoad(None, [a, b, a]);
  }

  /** One LoRA loader node. `loadedLora` is the single slot; `loads` records
      every path handed to the decoder, in order. */
  class LoraLoader {
    /** Reads and decodes a LoRA file (the host's `load_torch_file`). */
    const decode: string -> Weights
    /** Applies weights at the two strengths (the host's `load_lora_for_models`). */
    const applyLora: (Model, Option<Clip>, Weights, real, real) -> (Model, Option<Clip>)
    var loadedLora: Option<CachedWeight>
    ghost var loads: seq<string>

    /** The slot holds the weights of the path it names, and that path was
        the most recent one decoded. */
    ghost predicate Valid()
      reads this
    {
      loadedLora.Some? ==>
        loadedLora.value.payload == decode(loadedLora.value.path) &&
        loads != [] && loads[|loads| - 1] == loadedLora.value.path
    }

    constructor (decode: string -> Weights, applyLora: (Model, Option<Clip>, Weights, real, real) -> (Model, Option<Clip>))
      ensures Valid()
      ensures this.decode == decode && this.applyLora == applyLora
      ensures loadedLora == None && loads == []
    {
      this.decode := decode;
      this.applyLora := applyLora;
      loadedLora := None;
      loads := [];
    }

    /** Decoding happens only with an empty slot, so two decoded files are
        never held at once. */
    method LoadTorchFile(path: string) returns (w: Weights)
      requires loadedLora == None
      modifies this`loads
      ensures w == decode(path)
      ensures loads == old(loads) + [path]
    {
      w := decode(path);
      loads := loads + [path];
    }

    /** `load_lora`: both strengths zero returns the models untouched with no
        resolution; otherwise the LoRA path is resolved (downloading if
        needed), served from the slot or decoded into it, and applied. */
    method LoadLora(env: Environment, model: Model, clip: Option<Clip>, loraName: string,
                    strengthModel: real, strengthClip: real, bucket: string, key: string)
      returns (r: Result<(Model, Option<Clip>)>)
      requires Valid()
      modifies this, env
      ensures Valid()
      ensures strengthModel == 0.0 && strengthClip == 0.0 ==>
                r == Ok((model, clip)) && loadedLora == old(loadedLora) && loads == old(loads) &&
                env.files == old(env.files) && env.fetches == old(env.fetches)
      ensures !(strengthModel == 0.0 && strengthClip == 0.0) ==>
                exists resolved: Result<string> ::
                  FallbackStep(Resolver.Resolve(env.config, env.mapLegacy, old(env.files), LorasCategory, loraName),
                               bucket, key, old(env.files), old(env.fetches), env.files, env.fetches, resolved) &&
                  CacheStep(decode, resolved, old(loadedLora), old(loads), loadedLora, loads) &&
                  r == match resolved
                       case Err(e) => Err(e)
                       case Ok(p) => Ok(applyLora(model, clip, decode(p), strengthModel, strengthClip))
    {
      if strengthModel == 0.0 && strengthClip == 0.0 {
        return Ok((model, clip));
      }
      var resolved := env.GetFullPathOrRaise(LorasCategory, loraName, bucket, key);
      if resolved.Err? {
        return Err(resolved.error);
      }
      var loraPath := resolved.value;
      var lora: Option<Weights> := None;
      if loadedLora.Some? {
        if loadedLora.value.path == loraPath {
          lora := Some(loadedLora.value.payload);
        } else {
          // the old entry is released before the new file is decoded
          loadedLora := None;
        }
      }
      if lora.None? {
        var w := LoadTorchFile(loraPath);
        lora := Some(w);
        loadedLora := Some(CachedWeight(loraPath, w));
      }
      return Ok(applyLora(model, clip, lora.value, strengthModel, strengthClip));
    }

    /** `load_lora_model_only`: `load_lora` with no CLIP model and a zero CLIP
        strength, keeping only the model. */
    method LoadLoraModelOnly(env: Environment, model: Model, loraName: string,
                             strengthModel: real, bucket: string, key: string)
      returns (r: Result<Model>)
      requires Valid()
      modifies this, env
      ensures Valid()
      ensures strengthModel == 0.0 ==>
                r == Ok(model) && loadedLora == old(loadedLora) && loads == old(loads) &&
                env.files == old(env.files) && env.fetches == old(env.fetches)
      ensures strengthModel != 0.0 ==>
                exists resolved: Result<string> ::
                  FallbackStep(Resolver.Resolve(env.config, env.mapLegacy, old(env.files), LorasCategory, loraName),
                               bucket, key, old(env.files), old(env.fetches), env.files, env.fetches, resolved) &&
                  CacheStep(decode, resolved, old(loadedLora), old(loads), loadedLora, loads) &&
                  r == match resolved
                       case Err(e) => Err(e)
                       case Ok(p) => Ok(applyLora(model, None, decode(p), strengthModel, 0.0).0)
    {
      var both := LoadLora(env, model, None, loraName, strengthModel, 0.0, bucket, key);
      if both.Err? {
        return Err(both.error);
      }
      return Ok(both.value.0);
    }
  }
}
