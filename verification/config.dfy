/** Configuration of the router: endpoints, registered models, per-tier
    timeouts and the prompt complexity classifier. */
module Config {
  import opened Wrappers
  import opened Text

  /** An OpenAI-compatible endpoint. */
  datatype Endpoint = Endpoint(url: string, apiKey: string, name: string)

  /** A model registered on an endpoint under a tier ("fast", "power", "deep" by convention). */
  datatype ModelEntry = ModelEntry(modelId: string, tier: string, endpoint: Endpoint, expectedLatency: real)

  /** A (connect, read) timeout pair in seconds. */
  datatype Timeout = Timeout(connect: real, read: real)

  datatype SwarmConfig = SwarmConfig(
    primary: Endpoint,
    secondary: Option<Endpoint>,
    knowledgeUrl: Option<string>,
    timeoutFast: Timeout,
    timeoutPower: Timeout,
    timeoutDeep: Timeout,
    models: seq<ModelEntry>,
    t1MaxWords: int,
    t2MaxWords: int,
    deepKeywords: set<string>)

  /** The SWARM_* environment variables the configuration reads. A timeout
      override is the float value of a non-empty variable, None when the
      variable is unset or empty. */
  datatype Env = Env(
    primaryUrl: Option<string>,
    primaryKey: Option<string>,
    secondaryUrl: Option<string>,
    secondaryKey: Option<string>,
    knowledgeUrl: Option<string>,
    timeoutFast: Option<real>,
    timeoutPower: Option<real>,
    timeoutDeep: Option<real>)

  const DefaultPrimaryUrl: string := "http://localhost:4000"
  const DefaultPrimaryKey: string := "sk-default"
  const ConnectTimeout: real := 5.0

  const DefaultDeepKeywords: set<string> := {
    "compare", "analyze", "tradeoffs", "architecture", "design", "research",
    "explain in detail", "step by step", "why", "how does", "evaluate",
    "pros and cons", "difference between"
  }

  /** The dataclass field defaults, before `__post_init__`. */
  function Defaults(env: Env): SwarmConfig {
    SwarmConfig(
      Endpoint(env.primaryUrl.GetOr(DefaultPrimaryUrl), env.primaryKey.GetOr(DefaultPrimaryKey), "primary"),
      None, None,
      Timeout(ConnectTimeout, 30.0), Timeout(ConnectTimeout, 60.0), Timeout(ConnectTimeout, 120.0),
      [], 20, 60, DefaultDeepKeywords)
  }

  /** The timeout after an optional read-timeout override. */
  function Override(t: Timeout, v: Option<real>): Timeout {
    match v
    case Some(read) => Timeout(ConnectTimeout, read)
    case None => t
  }

  /** `__post_init__`: secondary endpoint and knowledge URL from the
      environment when not given, then the timeout overrides. */
  function PostInit(c: SwarmConfig, env: Env): (r: SwarmConfig)
    ensures r.models == c.models && r.primary == c.primary
    ensures r.t1MaxWords == c.t1MaxWords && r.t2MaxWords == c.t2MaxWords && r.deepKeywords == c.deepKeywords
    ensures r.secondary.Some? <==>
              c.secondary.Some? || (env.secondaryUrl.Some? && env.secondaryUrl.value != ""
                                     && env.secondaryKey.Some? && env.secondaryKey.value != "")
    ensures c.knowledgeUrl.Some? ==> r.knowledgeUrl == c.knowledgeUrl
    ensures c.knowledgeUrl.None? ==> r.knowledgeUrl == env.knowledgeUrl
    ensures env.timeoutFast.None? ==> r.timeoutFast == c.timeoutFast
    ensures env.timeoutFast.Some? ==> r.timeoutFast == Timeout(5.0, env.timeoutFast.value)
    ensures env.timeoutPower.None? ==> r.timeoutPower == c.timeoutPower
    ensures env.timeoutPower.Some? ==> r.timeoutPower == Timeout(5.0, env.timeoutPower.value)
    ensures env.timeoutDeep.None? ==> r.timeoutDeep == c.timeoutDeep
    ensures env.timeoutDeep.Some? ==> r.timeoutDeep == Timeout(5.0, env.timeoutDeep.value)
  {
    var secondary :=
      if env.secondaryUrl.Some? && env.secondaryUrl.value != "" && env.secondaryKey.Some?
         && env.secondaryKey.value != "" && c.secondary.None?
      then Some(Endpoint(env.secondaryUrl.value, env.secondaryKey.value, "secondary"))
      else c.secondary;
    var knowledge := if c.knowledgeUrl.None? then env.knowledgeUrl else c.knowledgeUrl;
    c.(secondary := secondary, knowledgeUrl := knowledge,
       timeoutFast := Override(c.timeoutFast, env.timeoutFast),
       timeoutPower := Override(c.timeoutPower, env.timeoutPower),
       timeoutDeep := Override(c.timeoutDeep, env.timeoutDeep))
  }

  /** `SwarmConfig()` with every field defaulted. */
  function NewConfig(env: Env): SwarmConfig {
    PostInit(Defaults(env), env)
  }

  /** `add_model`: append one entry; the endpoint defaults to the primary one. */
  function AddModel(c: SwarmConfig, modelId: string, tier: string, endpoint: Option<Endpoint>, latency: real): (r: SwarmConfig)
    ensures |r.models| == |c.models| + 1
    ensures r.models[..|c.models|] == c.models
    ensures r.models[|c.models|].modelId == modelId && r.models[|c.models|].tier == tier
    ensures r.models[|c.models|].expectedLatency == latency
    ensures endpoint.Some? ==> r.models[|c.models|].endpoint == endpoint.value
    ensures endpoint.None? ==> r.models[|c.models|].endpoint == c.primary
    ensures r.(models := c.models) == c
  {
    c.(models := c.models + [ModelEntry(modelId, tier, endpoint.GetOr(c.primary), latency)])
  }

  /** `get_tier_models`: the registered entries of one tier, in registration order. */
  function GetTierModels(c: SwarmConfig, tier: string): seq<ModelEntry> {
    FilterTier(c.models, tier)
  }

  function FilterTier(ms: seq<ModelEntry>, tier: string): (r: seq<ModelEntry>)
    ensures |r| <= |ms|
    ensures forall k :: 0 <= k < |r| ==> r[k].tier == tier
  {
    if ms == [] then []
    else
      var rest := FilterTier(ms[1..], tier);
      if ms[0].tier == tier then [ms[0]] + rest else rest
  }

  /** Strictly increasing indices. */
  predicate Increasing(idx: seq<nat>) {
    forall a, b :: 0 <= a < b < |idx| ==> idx[a] < idx[b]
  }

  /** `idx` picks exactly the tier's entries out of `ms`, in order. */
  predicate SelectsTier(ms: seq<ModelEntry>, tier: string, idx: seq<nat>) {
    PicksInOrder(ms, tier, idx) && CoversTier(ms, tier, idx)
  }

  /** The k-th entry of the tier's list is the registry entry at `idx[k]`, and `idx` increases. */
  predicate PicksInOrder(ms: seq<ModelEntry>, tier: string, idx: seq<nat>) {
    && |idx| == |FilterTier(ms, tier)|
    && Increasing(idx)
    && (forall k :: 0 <= k < |idx| ==> idx[k] < |ms| && FilterTier(ms, tier)[k] == ms[idx[k]])
  }

  /** `idx` holds exactly the registry positions whose entry has the tier. */
  predicate CoversTier(ms: seq<ModelEntry>, tier: string, idx: seq<nat>) {
    forall i :: 0 <= i < |ms| ==> (ms[i].tier == tier <==> i in idx)
  }

  /** The tier's entries are exactly the subsequence of the registry picked
      out by the indices whose entry has that tier. */
  lemma {:induction false} FilterTierIndices(ms: seq<ModelEntry>, tier: string) returns (idx: seq<nat>)
    ensures SelectsTier(ms, tier, idx)
  {
    if ms == [] {
      idx := [];
    } else {
      var rest := FilterTierIndices(ms[1..], tier);
      idx := ExtendIndices(ms, tier, rest);
    }
  }

  lemma ExtendIndices(ms: seq<ModelEntry>, tier: string, rest: seq<nat>) returns (idx: seq<nat>)
    requires ms != [] && SelectsTier(ms[1..], tier, rest)
    ensures SelectsTier(ms, tier, idx)
  {
    var shifted := Shift(rest);
    if ms[0].tier == tier {
      idx := [0] + shifted;
      ExtendOrder(ms, tier, rest);
    } else {
      idx := shifted;
      SkipOrder(ms, tier, rest);
    }
    ExtendMembers(ms, tier, rest, idx);
  }

  lemma ExtendOrder(ms: seq<ModelEntry>, tier: string, rest: seq<nat>)
    requires ms != [] && ms[0].tier == tier && PicksInOrder(ms[1..], tier, rest)
    ensures PicksInOrder(ms, tier, [0] + Shift(rest))
  {
    var shifted := Shift(rest);
    var idx := [0] + shifted;
    var r := FilterTier(ms[1..], tier);
    assert FilterTier(ms, tier) == [ms[0]] + r;
    ConsIncreasing(shifted);
    forall k | 0 <= k < |idx| ensures idx[k] < |ms| && FilterTier(ms, tier)[k] == ms[idx[k]] {
      if k > 0 {
        assert idx[k] == shifted[k - 1] == rest[k - 1] + 1;
        assert FilterTier(ms, tier)[k] == r[k - 1] == ms[1..][rest[k - 1]];
      }
    }
  }

  lemma ConsIncreasing(idx: seq<nat>)
    requires Increasing(idx) && forall k :: 0 <= k < |idx| ==> idx[k] > 0
    ensures Increasing([0] + idx)
  {
    var r := [0] + idx;
    forall a, b | 0 <= a < b < |r| ensures r[a] < r[b] {
      assert r[b] == idx[b - 1];
      if a > 0 {
        assert r[a] == idx[a - 1];
      }
    }
  }

  lemma SkipOrder(ms: seq<ModelEntry>, tier: string, rest: seq<nat>)
    requires ms != [] && ms[0].tier != tier && PicksInOrder(ms[1..], tier, rest)
    ensures PicksInOrder(ms, tier, Shift(rest))
  {
    var shifted := Shift(rest);
    assert FilterTier(ms, tier) == FilterTier(ms[1..], tier);
    forall k | 0 <= k < |shifted| ensures shifted[k] < |ms| && FilterTier(ms, tier)[k] == ms[shifted[k]] {
      assert ms[shifted[k]] == ms[1..][rest[k]];
    }
  }

  lemma ExtendMembers(ms: seq<ModelEntry>, tier: string, rest: seq<nat>, idx: seq<nat>)
    requires ms != [] && CoversTier(ms[1..], tier, rest)
    requires idx == if ms[0].tier == tier then [0] + Shift(rest) else Shift(rest)
    ensures CoversTier(ms, tier, idx)
  {
    var tail := ms[1..];
    var shifted := Shift(rest);
    forall i | 0 <= i < |ms| ensures ms[i].tier == tier <==> i in idx {
      if i > 0 {
        assert ms[i] == tail[i - 1];
        ShiftMember(rest, i);
        assert i in idx <==> i in shifted;
      } else {
        assert 0 !in shifted;
      }
    }
  }

  lemma ShiftMember(idx: seq<nat>, i: nat)
    requires i > 0
    ensures i - 1 in idx <==> i in Shift(idx)
  {
    var r := Shift(idx);
    if i - 1 in idx {
      var k :| 0 <= k < |idx| && idx[k] == i - 1;
      assert r[k] == i;
    }
    if i in r {
      var k :| 0 <= k < |r| && r[k] == i;
      assert idx[k] == i - 1;
    }
  }

  /** Every index moved one to the right. */
  function Shift(idx: seq<nat>): (r: seq<nat>)
    ensures |r| == |idx|
    ensures forall k :: 0 <= k < |r| ==> r[k] == idx[k] + 1
    ensures Increasing(idx) ==> Increasing(r)
    ensures forall k :: 0 <= k < |r| ==> r[k] > 0
  {
    if idx == [] then [] else [idx[0] + 1] + Shift(idx[1..])
  }

  /** Registering a model extends its tier's list by that model and leaves every other tier alone. */
  lemma {:induction false} TierModelsAfterAdd(c: SwarmConfig, modelId: string, tier: string, endpoint: Option<Endpoint>, latency: real, t: string)
    ensures var r := AddModel(c, modelId, tier, endpoint, latency);
            GetTierModels(r, t) == GetTierModels(c, t) + (if tier == t then [r.models[|c.models|]] else [])
  {
    var r := AddModel(c, modelId, tier, endpoint, latency);
    FilterTierSnoc(c.models, r.models[|c.models|], t);
    assert r.models == c.models + [r.models[|c.models|]];
  }

  lemma {:induction false} FilterTierSnoc(ms: seq<ModelEntry>, m: ModelEntry, t: string)
    ensures FilterTier(ms + [m], t) == FilterTier(ms, t) + (if m.tier == t then [m] else [])
  {
    if ms == [] {
      assert [m][1..] == [];
    } else {
      assert (ms + [m])[1..] == ms[1..] + [m];
      FilterTierSnoc(ms[1..], m, t);
    }
  }

  /** `get_tier_timeout`: tier or complexity name to its timeout pair;
      unknown names get the power pair. */
  function GetTierTimeout(c: SwarmConfig, tier: string): Timeout {
    if tier == "T1" || tier == "fast" then c.timeoutFast
    else if tier == "T3" || tier == "deep" then c.timeoutDeep
    else c.timeoutPower
  }

  /** Every tier timeout of a configuration built from the environment
      connects in 5 seconds and reads for the override or the default. */
  lemma TimeoutsFromEnv(env: Env, tier: string)
    ensures var t := GetTierTimeout(NewConfig(env), tier);
            && t.connect == 5.0
            && (tier == "T1" || tier == "fast" ==> t.read == env.timeoutFast.GetOr(30.0))
            && (tier == "T3" || tier == "deep" ==> t.read == env.timeoutDeep.GetOr(120.0))
            && (tier !in {"T1", "fast", "T3", "deep"} ==> t.read == env.timeoutPower.GetOr(60.0))
  {
  }

  /** Some deep keyword occurs in the ASCII-lowercased prompt. */
  predicate HasDeepKeyword(c: SwarmConfig, prompt: string) {
    exists kw :: kw in c.deepKeywords && Contains(Lower(prompt), kw)
  }

  /** `classify_complexity`: "T3" for a deep keyword or more than
      `t2MaxWords` words, else "T2" for more than `t1MaxWords`, else "T1". */
  function ClassifyComplexity(c: SwarmConfig, prompt: string): (r: string)
    ensures r in {"T1", "T2", "T3"}
    ensures r == "T3" <==> HasDeepKeyword(c, prompt) || WordStarts(prompt, true) > c.t2MaxWords
    ensures r == "T2" <==> !HasDeepKeyword(c, prompt) && c.t1MaxWords < WordStarts(prompt, true) <= c.t2MaxWords
  {
    var words := |Words(prompt)|;
    WordCountIsWordStarts(prompt);
    if HasDeepKeyword(c, prompt) || words > c.t2MaxWords then "T3"
    else if words > c.t1MaxWords then "T2"
    else "T1"
  }

  /** `default_config`: a fresh configuration from the environment, plus one
      "fast" model named "default" on the primary endpoint exactly when the
      registry is empty and the primary key is not the placeholder. */
  function DefaultConfig(env: Env): (r: SwarmConfig)
    ensures r.primary.apiKey == env.primaryKey.GetOr(DefaultPrimaryKey)
    ensures |r.models| == (if r.primary.apiKey != "sk-default" then 1 else 0)
    ensures |r.models| == 1 ==> r.models[0] == ModelEntry("default", "fast", r.primary, 5.0)
  {
    var c := NewConfig(env);
    if c.models == [] && c.primary.apiKey != DefaultPrimaryKey then AddModel(c, "default", "fast", None, 5.0)
    else c
  }

  /** Order of the complexity tiers. */
  function ComplexityRank(t: string): nat {
    if t == "T3" then 3 else if t == "T2" then 2 else 1
  }

  /** Appending text to a prompt never lowers its complexity tier: words and
      deep keywords already present stay present. */
  lemma ClassifyMonotone(c: SwarmConfig, p: string, q: string)
    ensures ComplexityRank(ClassifyComplexity(c, p)) <= ComplexityRank(ClassifyComplexity(c, p + q))
  {
    WordStartsExtend(p, q, true);
    DeepKeywordExtend(c, p, q);
  }

  lemma DeepKeywordExtend(c: SwarmConfig, p: string, q: string)
    ensures HasDeepKeyword(c, p) ==> HasDeepKeyword(c, p + q)
  {
    if HasDeepKeyword(c, p) {
      var kw :| kw in c.deepKeywords && Contains(Lower(p), kw);
      var i :| 0 <= i <= |Lower(p)| - |kw| && OccursAt(Lower(p), kw, i);
      LowerAppend(p, q);
      assert Lower(p + q)[i..i + |kw|] == Lower(p)[i..i + |kw|];
      assert OccursAt(Lower(p + q), kw, i);
    }
  }

  lemma LowerAppend(p: string, q: string)
    ensures Lower(p + q) == Lower(p) + Lower(q)
  {
  }

  /** Word beginnings inside `p` are unaffected by what follows. */
  lemma {:induction false} WordStartsExtend(p: string, q: string, afterSpace: bool)
    ensures WordStarts(p + q, afterSpace) >= WordStarts(p, afterSpace)
  {
    if p != [] {
      assert (p + q)[1..] == p[1..] + q;
      WordStartsExtend(p[1..], q, IsSpace(p[0]));
    }
  }

  /** The single word "why" is a deep keyword, so it is T3 despite its length. */
  lemma ClassifyWhy(env: Env)
    ensures ClassifyComplexity(NewConfig(env), "why") == "T3"
  {
    assert Lower("why") == "why";
    assert OccursAt(Lower("why"), "why", 0);
  }

  /** With the default keywords (none shorter than three characters) and
      positive word thresholds, a one- or two-character word is T1, e.g. "Hi". */
  lemma ClassifyShortWord(c: SwarmConfig, prompt: string)
    requires c.deepKeywords == DefaultDeepKeywords && c.t1MaxWords >= 1 && c.t2MaxWords >= 1
    requires 0 < |prompt| < 3 && NoSpace(prompt)
    ensures ClassifyComplexity(c, prompt) == "T1"
  {
    assert !HasDeepKeyword(c, prompt) by {
      forall kw | kw in c.deepKeywords ensures !Contains(Lower(prompt), kw) {
        assert |kw| >= 3;
      }
    }
    assert WordStarts(prompt, true) == 1 by {
      assert !IsSpace(prompt[0]);
      if |prompt| == 1 {
        assert prompt[1..] == [];
      } else {
        var t := prompt[1..];
        assert !IsSpace(t[0]) && t[1..] == [];
        assert WordStarts(t, false) == 0;
      }
    }
  }
}
