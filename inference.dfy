/**
 * The inference subsystem: a pool of model instances that moves instances
 * between an available list and a busy list, a model manager that keeps
 * the loaded models by name, and the inference engine with its response
 * cache (entries that expire after a time to live) and its counters.
 *
 * The clock (`now`, in seconds), identifiers, elapsed times and the hash
 * that builds cache keys are parameters. The simulated inference itself
 * is modelled: it echoes the input and charges a quarter of its byte
 * length in tokens.
 */
module Inference {
  import opened Wrappers
  import opened Text

  const U32Modulus: nat := 0x1_0000_0000

  datatype InstanceStatus = Initializing | Available | Busy | InstanceError(message: string) | Destroying

  datatype ModelInstance = ModelInstance(
    id: string, modelId: string, createdAt: nat, lastUsed: nat, usageCount: nat, status: InstanceStatus)

  datatype ModelPoolConfig = ModelPoolConfig(maxInstances: nat, minInstances: nat, idleTimeout: nat, healthCheckInterval: nat)

  /** The first available instance of the model, if any. */
  function FindModel(instances: seq<ModelInstance>, modelId: string): (r: Option<nat>)
    ensures r.None? <==> forall i :: 0 <= i < |instances| ==> instances[i].modelId != modelId
    ensures r.Some? ==>
      (r.value < |instances| && instances[r.value].modelId == modelId
       && forall i :: 0 <= i < r.value ==> instances[i].modelId != modelId)
  {
    if instances == [] then None
    else if instances[0].modelId == modelId then Some(0)
    else match FindModel(instances[1..], modelId) {
      case None => None
      case Some(p) => Some(p + 1)
    }
  }

  /** The first instance with the given id, if any. */
  function FindId(instances: seq<ModelInstance>, id: string): (r: Option<nat>)
    ensures r.None? <==> forall i :: 0 <= i < |instances| ==> instances[i].id != id
    ensures r.Some? ==>
      (r.value < |instances| && instances[r.value].id == id
       && forall i :: 0 <= i < r.value ==> instances[i].id != id)
  {
    if instances == [] then None
    else if instances[0].id == id then Some(0)
    else match FindId(instances[1..], id) {
      case None => None
      case Some(p) => Some(p + 1)
    }
  }

  function Without(s: seq<ModelInstance>, p: nat): (r: seq<ModelInstance>)
    requires p < |s|
    ensures |r| == |s| - 1
    ensures multiset(r) + multiset{s[p]} == multiset(s)
  {
    assert s == s[..p] + [s[p]] + s[p + 1..];
    s[..p] + s[p + 1..]
  }

  predicate AllHaveStatus(instances: seq<ModelInstance>, st: InstanceStatus) {
    forall i :: 0 <= i < |instances| ==> instances[i].status == st
  }

  /** `create_instance`: a new instance is initialising and has not been used. */
  function CreateInstance(modelId: string, id: string, now: nat): (r: ModelInstance)
    ensures r.status == Initializing && r.usageCount == 0 && r.modelId == modelId && r.id == id
  {
    ModelInstance(id, modelId, now, now, 0, Initializing)
  }

  class ModelPool {
    var config: ModelPoolConfig
    var available: seq<ModelInstance>
    var busy: seq<ModelInstance>

    /** Instances in the available list are Available, those in the busy list Busy. */
    predicate Valid()
      reads this
    {
      AllHaveStatus(available, Available) && AllHaveStatus(busy, Busy)
    }

    constructor(config: ModelPoolConfig)
      ensures Valid() && this.config == config && available == [] && busy == []
    {
      this.config := config;
      available := [];
      busy := [];
    }

    /**
     * `get_instance`: the first available instance of the model moves to
     * the end of the busy list, marked Busy, with its use counted; without
     * one nothing changes.
     */
    method GetInstance(modelId: string, now: nat) returns (r: Option<ModelInstance>)
      requires Valid()
      modifies this
      ensures Valid()
      ensures r.None? <==> FindModel(old(available), modelId).None?
      ensures r.None? ==> available == old(available) && busy == old(busy)
      ensures r.Some? ==>
        var p := FindModel(old(available), modelId).value;
        r.value == old(available)[p].(status := Busy, lastUsed := now, usageCount := old(available)[p].usageCount + 1)
        && available == Without(old(available), p)
        && busy == old(busy) + [r.value]
      ensures |available| + |busy| == |old(available)| + |old(busy)|
      ensures config == old(config)
    {
      var pos := 0;
      while pos < |available| && available[pos].modelId != modelId
        invariant pos <= |available|
        invariant forall i :: 0 <= i < pos ==> available[i].modelId != modelId
      {
        pos := pos + 1;
      }
      if pos == |available| {
        return None;
      }
      var instance := available[pos];
      available := Without(available, pos);
      instance := instance.(status := Busy, lastUsed := now, usageCount := instance.usageCount + 1);
      busy := busy + [instance];
      return Some(instance);
    }

    /**
     * `release_instance`: the busy instance with the same id leaves the
     * busy list and joins the end of the available list, marked Available;
     * an id that is not busy changes nothing.
     */
    method ReleaseInstance(instance: ModelInstance)
      requires Valid()
      modifies this
      ensures Valid()
      ensures FindId(old(busy), instance.id).None? ==> available == old(available) && busy == old(busy)
      ensures FindId(old(busy), instance.id).Some? ==>
        busy == Without(old(busy), FindId(old(busy), instance.id).value)
        && available == old(available) + [instance.(status := Available)]
      ensures |available| + |busy| == |old(available)| + |old(busy)|
      ensures config == old(config)
    {
      var pos := 0;
      while pos < |busy| && busy[pos].id != instance.id
        invariant pos <= |busy|
        invariant forall i :: 0 <= i < pos ==> busy[i].id != instance.id
      {
        pos := pos + 1;
      }
      if pos < |busy| {
        busy := Without(busy, pos);
        available := available + [instance.(status := Available)];
      }
    }
  }

  /**
   * Taking an instance and giving it back: when no busy instance shares its
   * id, the release finds it at the end of the busy list, the busy list is
   * as before the take, and the instance rejoins the available ones.
   */
  lemma GetThenReleaseReturns(avail: seq<ModelInstance>, busy: seq<ModelInstance>, modelId: string, now: nat)
    requires FindModel(avail, modelId).Some?
    requires FindId(busy, avail[FindModel(avail, modelId).value].id).None?
    ensures var p := FindModel(avail, modelId).value;
      var taken := avail[p].(status := Busy, lastUsed := now, usageCount := avail[p].usageCount + 1);
      FindId(busy + [taken], taken.id) == Some(|busy|)
      && Without(busy + [taken], |busy|) == busy
  {
    var p := FindModel(avail, modelId).value;
    var taken := avail[p].(status := Busy, lastUsed := now, usageCount := avail[p].usageCount + 1);
    FoundAtEnd(busy, taken);
    WithoutLast(busy, taken);
  }

  /** An instance appended after others with different ids is found at the end. */
  lemma FoundAtEnd(s: seq<ModelInstance>, x: ModelInstance)
    requires FindId(s, x.id).None?
    ensures FindId(s + [x], x.id) == Some(|s|)
  {
    var ext := s + [x];
    assert ext[|s|].id == x.id;
    assert forall i :: 0 <= i < |s| ==> ext[i] == s[i];
  }

  lemma WithoutLast(s: seq<ModelInstance>, x: ModelInstance)
    ensures Without(s + [x], |s|) == s
  {
    assert (s + [x])[..|s|] == s;
  }

  datatype ModelType = LanguageModel | CodeModel | MultiModal | Embedding | Classification | CustomModel(name: string)

  datatype ModelStatus = Loading | Ready | ModelBusy | ModelError(message: string) | Unloading

  /** A model configuration; parameters, resource requirements and warm-up are not modelled. */
  datatype ModelConfig = ModelConfig(name: string, path: string, modelType: ModelType)

  datatype LoadedModel = LoadedModel(id: string, name: string, version: string, modelType: ModelType, loadedAt: nat, status: ModelStatus)

  class ModelManager {
    var loadedModels: map<string, LoadedModel>
    var modelConfigs: map<string, ModelConfig>

    /** Every loaded model has its configuration. */
    predicate Valid()
      reads this
    {
      loadedModels.Keys == modelConfigs.Keys
    }

    constructor()
      ensures Valid() && loadedModels == map[] && modelConfigs == map[]
    {
      loadedModels := map[];
      modelConfigs := map[];
    }

    /** `load_model`: the model is Ready under its name, version "1.0.0", replacing any earlier one. */
    method LoadModel(config: ModelConfig, id: string, now: nat)
      requires Valid()
      modifies this
      ensures Valid()
      ensures loadedModels == old(loadedModels)[config.name := LoadedModel(id, config.name, "1.0.0", config.modelType, now, Ready)]
      ensures modelConfigs == old(modelConfigs)[config.name := config]
    {
      loadedModels := loadedModels[config.name := LoadedModel(id, config.name, "1.0.0", config.modelType, now, Ready)];
      modelConfigs := modelConfigs[config.name := config];
    }

    /** `unload_model`: forgets the model and its configuration; an unknown name changes nothing. */
    method UnloadModel(name: string)
      requires Valid()
      modifies this
      ensures Valid()
      ensures loadedModels == old(loadedModels) - {name} && modelConfigs == old(modelConfigs) - {name}
      ensures name !in loadedModels
    {
      loadedModels := loadedModels - {name};
      modelConfigs := modelConfigs - {name};
    }

    /** `list_models`: the loaded models (in no particular order). */
    function ListModels(): (r: set<LoadedModel>)
      reads this
      ensures forall m :: m in r <==> exists k :: k in loadedModels && loadedModels[k] == m
    {
      set k | k in loadedModels :: loadedModels[k]
    }

    /**
     * The manager's `get_instance`: a new instance of the model, available
     * and unused (it does not consult the pool).
     */
    static function GetInstance(modelName: string, id: string, now: nat): (r: ModelInstance)
      ensures r.modelId == modelName && r.status == Available && r.usageCount == 0
    {
      ModelInstance(id, modelName, now, now, 0, Available)
    }
  }

  datatype InferenceConfig = InferenceConfig(
    defaultModel: string,
    maxConcurrentInferences: nat,
    inferenceTimeout: nat,
    enableCaching: bool,
    cacheTtl: nat,
    enableBatching: bool,
    batchSize: nat,
    batchWaitTime: nat)

  /** A request; `paramsText` is its parameters as serialised for the cache key. */
  datatype InferenceRequest = InferenceRequest(id: string, model: string, input: string, paramsText: string)

  datatype FinishReason = Completed | MaxLength | StopSequence | Timeout | FinishError(message: string)

  datatype ModelInfo = ModelInfo(name: string, version: string, instanceId: string)

  datatype InferenceResponse = InferenceResponse(
    requestId: string, output: string, tokensUsed: nat, inferenceTimeMs: nat, modelInfo: ModelInfo, finishReason: FinishReason)

  datatype CacheEntry = CacheEntry(response: InferenceResponse, createdAt: nat, expiresAt: nat, accessCount: nat, lastAccessed: nat)

  datatype CacheStats = CacheStats(totalRequests: nat, cacheHits: nat, cacheMisses: nat, cacheEntries: nat, cacheSizeBytes: nat)

  /** The counters of `InferenceMetrics`; its averages, percentiles and rates are not modelled. */
  datatype InferenceMetrics = InferenceMetrics(
    totalInferences: nat, successfulInferences: nat, failedInferences: nat,
    totalTokensProcessed: nat, activeInferences: nat, queuedInferences: nat)

  const EmptyStats := CacheStats(0, 0, 0, 0, 0)
  const EmptyMetrics := InferenceMetrics(0, 0, 0, 0, 0, 0)

  /** `generate_cache_key`: the model, then the digests of the input and of the parameters. */
  function CacheKey(request: InferenceRequest, digest: string -> string): (k: string)
    ensures StartsWith(k, request.model + ":")
  {
    request.model + ":" + digest(request.input) + ":" + digest(request.paramsText)
  }

  /** A cached entry is served while the clock is before its expiry. */
  predicate Fresh(cache: map<string, CacheEntry>, key: string, now: nat) {
    key in cache && now < cache[key].expiresAt
  }

  /**
   * The simulated `execute_inference`: the output echoes the input, and
   * the tokens are the input's byte length, cast to 32 bits, divided by 4.
   */
  function Execute(request: InferenceRequest, instance: ModelInstance, elapsedMs: nat): (r: InferenceResponse)
    ensures r.requestId == request.id && r.output == "Generated response for: " + request.input
    ensures r.tokensUsed < U32Modulus && (Utf8Len(request.input) < U32Modulus ==> r.tokensUsed * 4 <= Utf8Len(request.input))
    ensures r.modelInfo == ModelInfo(request.model, "1.0.0", instance.id) && r.finishReason == Completed
  {
    InferenceResponse(
      request.id,
      "Generated response for: " + request.input,
      (Utf8Len(request.input) % U32Modulus) / 4,
      elapsedMs,
      ModelInfo(request.model, "1.0.0", instance.id),
      Completed)
  }

  /**
   * The counters after one `infer` as written: a cache hit returns early,
   * after the request was counted as active but before it is counted out.
   */
  function InferMetricsAsWritten(m: InferenceMetrics, hit: bool, tokens: nat): (r: InferenceMetrics)
    ensures r.activeInferences == m.activeInferences + (if hit then 1 else 0)
    ensures r.totalInferences == m.totalInferences + 1
    ensures r.successfulInferences == m.successfulInferences + (if hit then 0 else 1)
  {
    if hit then m.(totalInferences := m.totalInferences + 1, activeInferences := m.activeInferences + 1)
    else m.(totalInferences := m.totalInferences + 1, successfulInferences := m.successfulInferences + 1,
            totalTokensProcessed := m.totalTokensProcessed + tokens)
  }

  /** The counters after one `infer` as intended: a request served from the cache is no longer active either. */
  function InferMetrics(m: InferenceMetrics, hit: bool, tokens: nat): (r: InferenceMetrics)
    ensures r.activeInferences == m.activeInferences
    ensures r.totalInferences == m.totalInferences + 1
    ensures r.successfulInferences == m.successfulInferences + (if hit then 0 else 1)
    ensures r.totalTokensProcessed == m.totalTokensProcessed + (if hit then 0 else tokens)
  {
    if hit then m.(totalInferences := m.totalInferences + 1)
    else m.(totalInferences := m.totalInferences + 1, successfulInferences := m.successfulInferences + 1,
            totalTokensProcessed := m.totalTokensProcessed + tokens)
  }

  /** As written, one request answered from the cache leaves a request counted as active for good. */
  lemma CacheHitLeavesActiveAsWritten()
    ensures InferMetricsAsWritten(EmptyMetrics, true, 0).activeInferences == 1
    ensures InferMetrics(EmptyMetrics, true, 0).activeInferences == 0
  {
  }

  /** The two agree whenever the request is not served from the cache. */
  lemma MetricsAgreeOnMiss(m: InferenceMetrics, tokens: nat)
    ensures InferMetricsAsWritten(m, false, tokens) == InferMetrics(m, false, tokens)
  {
  }

  /** What one `infer` changes: the response cache, its statistics and the inference counters. */
  datatype EngineState = EngineState(cache: map<string, CacheEntry>, stats: CacheStats, metrics: InferenceMetrics)

  /** The entry counter counts the cache's entries. */
  predicate Counted(s: EngineState) {
    s.stats.cacheEntries == |s.cache.Keys|
  }

  /**
   * One `infer` (with the active counter balanced on a cache hit) on the
   * state it starts from: the new state and the response.
   */
  function InferStep(s: EngineState, config: InferenceConfig, request: InferenceRequest, now: nat,
                     instanceId: string, elapsedMs: nat, digest: string -> string): (EngineState, InferenceResponse)
  {
    var key := CacheKey(request, digest);
    if config.enableCaching && Fresh(s.cache, key, now) then HitStep(s, key, now)
    else
      var r := Execute(request, ModelManager.GetInstance(request.model, instanceId, now), elapsedMs);
      (MissStep(s, config, key, r, now), r)
  }

  /** A cache hit: the stored response, one more use of its entry and one more hit. */
  function HitStep(s: EngineState, key: string, now: nat): (EngineState, InferenceResponse)
    requires key in s.cache
  {
    var e := s.cache[key];
    (EngineState(s.cache[key := e.(accessCount := e.accessCount + 1, lastAccessed := now)],
                 s.stats.(cacheHits := s.stats.cacheHits + 1),
                 InferMetrics(s.metrics, true, 0)),
     e.response)
  }

  /** An executed request with response `r`: with caching on, a miss is counted and `r` is stored under the key. */
  function MissStep(s: EngineState, config: InferenceConfig, key: string, r: InferenceResponse, now: nat): EngineState {
    var stats := if !config.enableCaching then s.stats
      else s.stats.(cacheMisses := s.stats.cacheMisses + 1,
                    cacheEntries := if key in s.cache then s.stats.cacheEntries else s.stats.cacheEntries + 1);
    var cache := if config.enableCaching then s.cache[key := CacheEntry(r, now, now + config.cacheTtl, 0, now)] else s.cache;
    EngineState(cache, stats, InferMetrics(s.metrics, false, r.tokensUsed))
  }

  /**
   * A fresh cached response is served as stored: one more hit, one more use
   * of that entry, and no other entry changes.
   */
  lemma InferHit(s: EngineState, config: InferenceConfig, request: InferenceRequest, now: nat,
                 instanceId: string, elapsedMs: nat, digest: string -> string)
    requires config.enableCaching && Fresh(s.cache, CacheKey(request, digest), now)
    ensures var key := CacheKey(request, digest);
      var (t, r) := InferStep(s, config, request, now, instanceId, elapsedMs, digest);
      r == s.cache[key].response
      && t.stats.cacheHits == s.stats.cacheHits + 1 && t.stats.cacheMisses == s.stats.cacheMisses
      && t.cache.Keys == s.cache.Keys
      && t.cache[key].accessCount == s.cache[key].accessCount + 1 && t.cache[key].lastAccessed == now
      && t.cache[key].expiresAt == s.cache[key].expiresAt
      && (forall k :: k in s.cache && k != key ==> t.cache[k] == s.cache[k])
      && t.metrics.successfulInferences == s.metrics.successfulInferences
  {
  }

  /**
   * Otherwise the request is executed; with caching on, a miss is counted and
   * the response replaces whatever (expired) entry the key had, fresh until
   * now plus the time to live, and no other entry changes.
   */
  lemma InferMiss(s: EngineState, config: InferenceConfig, request: InferenceRequest, now: nat,
                  instanceId: string, elapsedMs: nat, digest: string -> string)
    requires !(config.enableCaching && Fresh(s.cache, CacheKey(request, digest), now))
    ensures var key := CacheKey(request, digest);
      var (t, r) := InferStep(s, config, request, now, instanceId, elapsedMs, digest);
      r == Execute(request, ModelManager.GetInstance(request.model, instanceId, now), elapsedMs)
      && t.metrics.successfulInferences == s.metrics.successfulInferences + 1
      && (config.enableCaching ==>
            t.stats.cacheMisses == s.stats.cacheMisses + 1 && t.stats.cacheHits == s.stats.cacheHits
            && t.cache.Keys == s.cache.Keys + {key}
            && t.cache[key] == CacheEntry(r, now, now + config.cacheTtl, 0, now)
            && Fresh(t.cache, key, now) == (0 < config.cacheTtl)
            && (forall k :: k in s.cache && k != key ==> t.cache[k] == s.cache[k]))
      && (!config.enableCaching ==> t.cache == s.cache && t.stats == s.stats)
  {
  }

  /** Every `infer` keeps the entry counter equal to the number of entries. */
  lemma InferKeepsCount(s: EngineState, config: InferenceConfig, request: InferenceRequest, now: nat,
                        instanceId: string, elapsedMs: nat, digest: string -> string)
    requires Counted(s)
    ensures Counted(InferStep(s, config, request, now, instanceId, elapsedMs, digest).0)
  {
    var key := CacheKey(request, digest);
    var t := InferStep(s, config, request, now, instanceId, elapsedMs, digest).0;
    if config.enableCaching && key !in s.cache {
      assert t.cache.Keys == s.cache.Keys + {key};
    } else if config.enableCaching {
      assert t.cache.Keys == s.cache.Keys;
    }
  }

  /** `batch_infer` with batching off: `infer` on each request in turn, from the state the previous one left. */
  function BatchStep(s: EngineState, config: InferenceConfig, requests: seq<InferenceRequest>, now: nat,
                     instanceIds: seq<string>, elapsedMs: nat, digest: string -> string): (EngineState, seq<InferenceResponse>)
    requires |instanceIds| == |requests|
    decreases |requests|
  {
    if requests == [] then (s, [])
    else
      var n := |requests| - 1;
      var (mid, rs) := BatchStep(s, config, requests[..n], now, instanceIds[..n], elapsedMs, digest);
      var (t, r) := InferStep(mid, config, requests[n], now, instanceIds[n], elapsedMs, digest);
      (t, rs + [r])
  }

  lemma PrefixOfPrefix<T>(a: seq<T>, n: nat, i: nat)
    requires i <= n <= |a|
    ensures a[..n][..i] == a[..i]
  {
  }

  /**
   * The i-th response is the one `infer` gives for the i-th request in the
   * state the first i requests left.
   */
  lemma {:induction false} BatchResponses(s: EngineState, config: InferenceConfig, requests: seq<InferenceRequest>, now: nat,
                                          instanceIds: seq<string>, elapsedMs: nat, digest: string -> string)
    requires |instanceIds| == |requests|
    ensures var rs := BatchStep(s, config, requests, now, instanceIds, elapsedMs, digest).1;
      |rs| == |requests|
      && forall i :: 0 <= i < |requests| ==>
        rs[i] == InferStep(BatchStep(s, config, requests[..i], now, instanceIds[..i], elapsedMs, digest).0,
                           config, requests[i], now, instanceIds[i], elapsedMs, digest).1
    decreases |requests|
  {
    if requests != [] {
      var n := |requests| - 1;
      var (mid, rs0) := BatchStep(s, config, requests[..n], now, instanceIds[..n], elapsedMs, digest);
      var rs := BatchStep(s, config, requests, now, instanceIds, elapsedMs, digest).1;
      assert rs == rs0 + [InferStep(mid, config, requests[n], now, instanceIds[n], elapsedMs, digest).1];
      BatchResponses(s, config, requests[..n], now, instanceIds[..n], elapsedMs, digest);
      forall i | 0 <= i < |requests|
        ensures rs[i] == InferStep(BatchStep(s, config, requests[..i], now, instanceIds[..i], elapsedMs, digest).0,
                                   config, requests[i], now, instanceIds[i], elapsedMs, digest).1
      {
        if i < n {
          PrefixOfPrefix(requests, n, i);
          PrefixOfPrefix(instanceIds, n, i);
          assert rs[i] == rs0[i];
        }
      }
    }
  }

  /**
   * Over a batch, every request is counted once and none stays active, each
   * request is either a success or a cache hit, and the entry counter stays
   * equal to the number of entries.
   */
  lemma {:induction false} BatchCounters(s: EngineState, config: InferenceConfig, requests: seq<InferenceRequest>, now: nat,
                                         instanceIds: seq<string>, elapsedMs: nat, digest: string -> string)
    requires |instanceIds| == |requests|
    ensures var t := BatchStep(s, config, requests, now, instanceIds, elapsedMs, digest).0;
      t.metrics.totalInferences == s.metrics.totalInferences + |requests|
      && t.metrics.activeInferences == s.metrics.activeInferences
      && t.metrics.successfulInferences + t.stats.cacheHits == s.metrics.successfulInferences + s.stats.cacheHits + |requests|
      && (!config.enableCaching ==> t.cache == s.cache && t.stats == s.stats)
      && (Counted(s) ==> Counted(t))
    decreases |requests|
  {
    if requests != [] {
      var n := |requests| - 1;
      BatchCounters(s, config, requests[..n], now, instanceIds[..n], elapsedMs, digest);
      var mid := BatchStep(s, config, requests[..n], now, instanceIds[..n], elapsedMs, digest).0;
      if Counted(s) {
        InferKeepsCount(mid, config, requests[n], now, instanceIds[n], elapsedMs, digest);
      }
    }
  }

  class InferenceEngine {
    var config: InferenceConfig
    var cache: map<string, CacheEntry>
    var stats: CacheStats
    var metrics: InferenceMetrics

    function Snapshot(): EngineState
      reads this
    {
      EngineState(cache, stats, metrics)
    }

    /** The entry counter counts the cache's entries. */
    predicate Valid()
      reads this
    {
      Counted(Snapshot())
    }

    constructor(config: InferenceConfig)
      ensures Valid() && this.config == config && cache == map[] && stats == EmptyStats && metrics == EmptyMetrics
    {
      this.config := config;
      cache := map[];
      stats := EmptyStats;
      metrics := EmptyMetrics;
    }

    /** `clear_cache`: no entries, and every cache counter back to zero. */
    method ClearCache()
      modifies this
      ensures Valid() && cache == map[] && stats == EmptyStats
      ensures metrics == old(metrics) && config == old(config)
    {
      cache := map[];
      stats := EmptyStats;
    }

    /**
     * `get_from_cache`: a fresh entry is served and its use counted; an
     * expired one is removed; anything but a hit counts as a miss.
     */
    method GetFromCache(key: string, now: nat) returns (r: Option<InferenceResponse>)
      requires Valid()
      modifies this
      ensures Valid()
      ensures r.Some? <==> Fresh(old(cache), key, now)
      ensures r.Some? ==>
        r.value == old(cache)[key].response
        && cache == old(cache)[key := old(cache)[key].(accessCount := old(cache)[key].accessCount + 1, lastAccessed := now)]
        && stats == old(stats).(cacheHits := old(stats).cacheHits + 1)
      ensures r.None? && key in old(cache) ==>
        cache == old(cache) - {key}
        && stats == old(stats).(cacheEntries := old(stats).cacheEntries - 1, cacheMisses := old(stats).cacheMisses + 1)
      ensures key !in old(cache) ==> cache == old(cache) && stats == old(stats).(cacheMisses := old(stats).cacheMisses + 1)
      ensures metrics == old(metrics) && config == old(config)
    {
      if key in cache {
        var entry := cache[key];
        if now < entry.expiresAt {
          cache := cache[key := entry.(accessCount := entry.accessCount + 1, lastAccessed := now)];
          stats := stats.(cacheHits := stats.cacheHits + 1);
          return Some(entry.response);
        }
        cache := cache - {key};
        assert |cache.Keys| == |old(cache).Keys| - 1 by {
          assert old(cache).Keys == cache.Keys + {key};
        }
        stats := stats.(cacheEntries := stats.cacheEntries - 1);
      }
      stats := stats.(cacheMisses := stats.cacheMisses + 1);
      return None;
    }

    /** `cache_response`: stores the response until `now` plus the time to live, and counts one more entry. */
    method CacheResponse(key: string, response: InferenceResponse, now: nat)
      modifies this
      ensures cache == old(cache)[key := CacheEntry(response, now, now + config.cacheTtl, 0, now)]
      ensures stats == old(stats).(cacheEntries := old(stats).cacheEntries + 1)
      ensures old(Valid()) && key !in old(cache) ==> Valid()
      ensures metrics == old(metrics) && config == old(config)
    {
      cache := cache[key := CacheEntry(response, now, now + config.cacheTtl, 0, now)];
      stats := stats.(cacheEntries := stats.cacheEntries + 1);
    }

    /**
     * The part of `infer` after a cache miss: a new instance runs the
     * request, the response is cached when caching is on, and the request
     * is counted as a success and no longer active.
     */
    method RunRequest(request: InferenceRequest, key: string, now: nat, instanceId: string, elapsedMs: nat)
      returns (r: InferenceResponse)
      requires Valid() && metrics.activeInferences > 0
      requires config.enableCaching ==> key !in cache
      modifies this
      ensures Valid()
      ensures r == Execute(request, ModelManager.GetInstance(request.model, instanceId, now), elapsedMs)
      ensures config.enableCaching ==>
        cache == old(cache)[key := CacheEntry(r, now, now + config.cacheTtl, 0, now)]
        && stats == old(stats).(cacheEntries := old(stats).cacheEntries + 1)
      ensures !config.enableCaching ==> cache == old(cache) && stats == old(stats)
      ensures metrics == old(metrics).(successfulInferences := old(metrics).successfulInferences + 1,
        activeInferences := old(metrics).activeInferences - 1,
        totalTokensProcessed := old(metrics).totalTokensProcessed + r.tokensUsed)
      ensures config == old(config)
    {
      var instance := ModelManager.GetInstance(request.model, instanceId, now);
      r := Execute(request, instance, elapsedMs);
      if config.enableCaching {
        CacheResponse(key, r, now);
      }
      metrics := metrics.(successfulInferences := metrics.successfulInferences + 1,
                          activeInferences := metrics.activeInferences - 1,
                          totalTokensProcessed := metrics.totalTokensProcessed + r.tokensUsed);
    }

    /**
     * `infer` (with the active counter balanced on a cache hit): with
     * caching on, a fresh cached response is returned as it was stored;
     * otherwise a new instance runs the request and, with caching on, the
     * response is cached until `now` plus the time to live.
     */
    method Infer(request: InferenceRequest, now: nat, instanceId: string, elapsedMs: nat, digest: string -> string)
      returns (r: InferenceResponse)
      requires Valid()
      modifies this
      ensures Valid()
      ensures config.enableCaching && Fresh(old(cache), CacheKey(request, digest), now) ==>
        r == old(cache)[CacheKey(request, digest)].response && metrics == InferMetrics(old(metrics), true, r.tokensUsed)
      ensures !(config.enableCaching && Fresh(old(cache), CacheKey(request, digest), now)) ==>
        r == Execute(request, ModelManager.GetInstance(request.model, instanceId, now), elapsedMs)
        && metrics == InferMetrics(old(metrics), false, r.tokensUsed)
      ensures config.enableCaching ==>
        CacheKey(request, digest) in cache && cache[CacheKey(request, digest)].response == r
      ensures !config.enableCaching ==> cache == old(cache) && stats == old(stats)
      ensures (Snapshot(), r) == InferStep(old(Snapshot()), config, request, now, instanceId, elapsedMs, digest)
      ensures config == old(config)
    {
      r := InferCore(request, now, instanceId, elapsedMs, digest);
    }

    /** The steps of `infer`, proved against InferStep. */
    method InferCore(request: InferenceRequest, now: nat, instanceId: string, elapsedMs: nat, digest: string -> string)
      returns (r: InferenceResponse)
      requires Valid()
      modifies this
      ensures Valid()
      ensures (Snapshot(), r) == InferStep(old(Snapshot()), config, request, now, instanceId, elapsedMs, digest)
      ensures config == old(config)
    {
      ghost var s0 := Snapshot();
      metrics := metrics.(totalInferences := metrics.totalInferences + 1, activeInferences := metrics.activeInferences + 1);
      var key := CacheKey(request, digest);
      if config.enableCaching {
        r := LookUpOrRun(request, key, now, instanceId, elapsedMs, s0);
      } else {
        r := RunRequest(request, key, now, instanceId, elapsedMs);
        assert Snapshot() == MissStep(s0, config, key, r, now);
      }
    }

    /**
     * With caching on, the rest of `infer` once the request is counted:
     * a fresh entry is served, otherwise the request is run and cached.
     */
    method LookUpOrRun(request: InferenceRequest, key: string, now: nat, instanceId: string, elapsedMs: nat, ghost s0: EngineState)
      returns (r: InferenceResponse)
      requires Valid() && config.enableCaching
      requires cache == s0.cache && stats == s0.stats
      requires metrics == s0.metrics.(totalInferences := s0.metrics.totalInferences + 1, activeInferences := s0.metrics.activeInferences + 1)
      modifies this
      ensures Valid() && config == old(config)
      ensures Fresh(s0.cache, key, now) ==> (Snapshot(), r) == HitStep(s0, key, now)
      ensures !Fresh(s0.cache, key, now) ==>
        r == Execute(request, ModelManager.GetInstance(request.model, instanceId, now), elapsedMs)
        && Snapshot() == MissStep(s0, config, key, r, now)
    {
      var cached := GetFromCache(key, now);
      if cached.Some? {
        metrics := metrics.(activeInferences := metrics.activeInferences - 1);
        return cached.value;
      }
      ghost var st1 := stats;
      assert st1 == s0.stats.(cacheMisses := s0.stats.cacheMisses + 1,
        cacheEntries := if key in s0.cache then s0.stats.cacheEntries - 1 else s0.stats.cacheEntries);
      ghost var c1 := cache;
      r := RunRequest(request, key, now, instanceId, elapsedMs);
      assert c1[key := cache[key]] == s0.cache[key := cache[key]];
    }

    /**
     * `batch_infer` with batching off: the requests are run one after the
     * other, and there is one response per request, in order.
     */
    method BatchInferSequential(requests: seq<InferenceRequest>, now: nat, instanceIds: seq<string>, elapsedMs: nat, digest: string -> string)
      returns (responses: seq<InferenceResponse>)
      requires Valid() && |instanceIds| == |requests|
      modifies this
      ensures Valid()
      ensures (Snapshot(), responses) == BatchStep(old(Snapshot()), config, requests, now, instanceIds, elapsedMs, digest)
      ensures |responses| == |requests|
      ensures metrics.totalInferences == old(metrics).totalInferences + |requests|
      ensures metrics.activeInferences == old(metrics).activeInferences
      ensures metrics.successfulInferences + stats.cacheHits == old(metrics).successfulInferences + old(stats).cacheHits + |requests|
      ensures config == old(config)
    {
      responses := [];
      var i := 0;
      while i < |requests|
        invariant 0 <= i <= |requests| && config == old(config)
        invariant (Snapshot(), responses) == BatchStep(old(Snapshot()), config, requests[..i], now, instanceIds[..i], elapsedMs, digest)
      {
        assert requests[..i + 1][..i] == requests[..i] && instanceIds[..i + 1][..i] == instanceIds[..i];
        BatchCounters(old(Snapshot()), config, requests[..i], now, instanceIds[..i], elapsedMs, digest);
        var r := Infer(requests[i], now, instanceIds[i], elapsedMs, digest);
        responses := responses + [r];
        i := i + 1;
      }
      assert requests[..i] == requests && instanceIds[..i] == instanceIds;
      BatchResponses(old(Snapshot()), config, requests, now, instanceIds, elapsedMs, digest);
      BatchCounters(old(Snapshot()), config, requests, now, instanceIds, elapsedMs, digest);
    }
  }
}
