/**
 * The class GetTweetsInPhp: configuration checks and defaults, the
 * projection onto the API options, the cached retrieval of the user
 * timeline, and the public entry point get_tweets.
 */
module GetTweetsInPhp {
  import opened Wrappers
  import opened PhpValues
  import opened Tweets
  import opened Transients
  import opened TwitterApi

  /** The `$configs` array. */
  type Config = map<string, Value>

  /** The exceptions get_tweets throws. */
  datatype Error = ConfigsRequired | FieldRequired(key: string)

  function Message(e: Error): string
  {
    match e
    case ConfigsRequired => "The $configs parameter is required."
    case FieldRequired(key) => "The field " + key + " is required"
  }

  /** `CACHE_TRANSIENT`, the namespace of the cache entries. */
  const CacheTransient: string := "GETTWEETSINPHP_1_0"

  const UserTimelineUrl: string := "https://api.twitter.com/1.1/statuses/user_timeline.json"

  /** The keys get_tweets passes on to the API. */
  const ApiOptionKeys: seq<string> := ["screen_name", "count", "include_rts"]

  /** The optional keys and the value each gets when it is not set. */
  const OptionalDefaults: map<string, Value> := map[
    "count" := Int(20),
    "include_rts" := Bool(true),
    "show_retweeted_by" := Bool(true),
    "cache_enabled" := Bool(true),
    "cache_expiration" := Int(60)]

  /** check_required: fails, naming the key, unless the key is set. */
  function CheckRequired(configs: Config, key: string): (r: Outcome<Error>)
    ensures r.Pass? <==> IsSet(configs, key)
    ensures r.Fail? ==> r.error == FieldRequired(key) && Message(r.error) == "The field " + key + " is required"
  {
    if !IsSet(configs, key) then Fail(FieldRequired(key)) else Pass
  }

  /** The checks get_tweets makes before anything else, in the order it makes them. */
  function CheckConfigs(configs: Option<Config>): (r: Outcome<Error>)
    ensures configs.None? ==> r == Fail(ConfigsRequired) && Message(r.error) == "The $configs parameter is required."
    ensures configs.Some? ==>
      (r.Pass? <==> IsSet(configs.value, "consumer_key") && IsSet(configs.value, "consumer_secret") && IsSet(configs.value, "screen_name"))
    ensures configs.Some? && !IsSet(configs.value, "consumer_key") ==>
      r == Fail(FieldRequired("consumer_key"))
    ensures configs.Some? && IsSet(configs.value, "consumer_key") && !IsSet(configs.value, "consumer_secret") ==>
      r == Fail(FieldRequired("consumer_secret"))
    ensures configs.Some? && IsSet(configs.value, "consumer_key") && IsSet(configs.value, "consumer_secret") ==>
      (!IsSet(configs.value, "screen_name") ==> r == Fail(FieldRequired("screen_name")))
  {
    if configs.None? then Fail(ConfigsRequired)
    else if CheckRequired(configs.value, "consumer_key").Fail? then CheckRequired(configs.value, "consumer_key")
    else if CheckRequired(configs.value, "consumer_secret").Fail? then CheckRequired(configs.value, "consumer_secret")
    else CheckRequired(configs.value, "screen_name")
  }

  /** set_default: a key that is set keeps its value; a key that is not gets the default; nothing else changes. */
  function SetDefault(configs: Config, key: string, defaultValue: Value): (r: Config)
    ensures key in r && r[key] == (if IsSet(configs, key) then configs[key] else defaultValue)
    ensures r - {key} == configs - {key}
  {
    if !IsSet(configs, key) then configs[key := defaultValue] else configs
  }

  /** A key other than the one defaulted reads the same before and after set_default. */
  lemma SetDefaultKeeps(before: Config, key: string, defaultValue: Value, k: string)
    requires k != key
    ensures var after := SetDefault(before, key, defaultValue);
      (k in after <==> k in before) && (k in before ==> after[k] == before[k])
  {
    var after := SetDefault(before, key, defaultValue);
    assert k in after <==> k in after - {key};
    assert k in before <==> k in before - {key};
    if k in before {
      assert after[k] == (after - {key})[k];
      assert before[k] == (before - {key})[k];
    }
  }

  /** The five calls of the defaulting block, one after the other, leave every optional key defaulted and the rest alone. */
  lemma DefaultsChain(c0: Config, c1: Config, c2: Config, c3: Config, c4: Config, c5: Config)
    requires c1 == SetDefault(c0, "count", Int(20))
    requires c2 == SetDefault(c1, "include_rts", Bool(true))
    requires c3 == SetDefault(c2, "show_retweeted_by", Bool(true))
    requires c4 == SetDefault(c3, "cache_enabled", Bool(true))
    requires c5 == SetDefault(c4, "cache_expiration", Int(60))
    ensures forall k :: k in OptionalDefaults ==>
      k in c5 && c5[k] == (if IsSet(c0, k) then c0[k] else OptionalDefaults[k])
    ensures c5 - OptionalDefaults.Keys == c0 - OptionalDefaults.Keys
  {
    var keys := OptionalDefaults.Keys;
    assert keys == {"count", "include_rts", "show_retweeted_by", "cache_enabled", "cache_expiration"};
    forall k | k in keys
      ensures k in c5 && c5[k] == (if IsSet(c0, k) then c0[k] else OptionalDefaults[k])
    {
      if k != "count" { SetDefaultKeeps(c0, "count", Int(20), k); }
      if k != "include_rts" { SetDefaultKeeps(c1, "include_rts", Bool(true), k); }
      if k != "show_retweeted_by" { SetDefaultKeeps(c2, "show_retweeted_by", Bool(true), k); }
      if k != "cache_enabled" { SetDefaultKeeps(c3, "cache_enabled", Bool(true), k); }
      if k != "cache_expiration" { SetDefaultKeeps(c4, "cache_expiration", Int(60), k); }
    }
    forall k | k !in keys
      ensures (k in c5 <==> k in c0) && (k in c0 ==> c5[k] == c0[k])
    {
      SetDefaultKeeps(c0, "count", Int(20), k);
      SetDefaultKeeps(c1, "include_rts", Bool(true), k);
      SetDefaultKeeps(c2, "show_retweeted_by", Bool(true), k);
      SetDefaultKeeps(c3, "cache_enabled", Bool(true), k);
      SetDefaultKeeps(c4, "cache_expiration", Int(60), k);
    }
    assert (c5 - keys).Keys == (c0 - keys).Keys;
  }

  /** The defaulting block of get_tweets. */
  function ApplyDefaults(configs: Config): (r: Config)
    ensures forall k :: k in OptionalDefaults ==>
      k in r && r[k] == (if IsSet(configs, k) then configs[k] else OptionalDefaults[k])
    ensures r - OptionalDefaults.Keys == configs - OptionalDefaults.Keys
  {
    var c1 := SetDefault(configs, "count", Int(20));
    var c2 := SetDefault(c1, "include_rts", Bool(true));
    var c3 := SetDefault(c2, "show_retweeted_by", Bool(true));
    var c4 := SetDefault(c3, "cache_enabled", Bool(true));
    var c5 := SetDefault(c4, "cache_expiration", Int(60));
    DefaultsChain(configs, c1, c2, c3, c4, c5);
    c5
  }

  /** A key that has no default reads the same before and after the defaulting block. */
  lemma ApplyDefaultsKeeps(configs: Config, k: string)
    requires k !in OptionalDefaults
    ensures var r := ApplyDefaults(configs);
      (k in r <==> k in configs) && (k in configs ==> r[k] == configs[k])
  {
    var r := ApplyDefaults(configs);
    var keys := OptionalDefaults.Keys;
    assert k in r <==> k in r - keys;
    assert k in configs <==> k in configs - keys;
    if k in configs {
      assert r[k] == (r - keys)[k];
      assert configs[k] == (configs - keys)[k];
    }
  }

  lemma SetDefaultIdempotent(configs: Config, key: string, defaultValue: Value)
    ensures SetDefault(SetDefault(configs, key, defaultValue), key, defaultValue) == SetDefault(configs, key, defaultValue)
  {
  }

  /** Defaulting, as `ApplyDefaults` promises it, is the same the second time round. */
  lemma DefaultedTwice(c0: Config, c1: Config, c2: Config)
    requires forall k :: k in OptionalDefaults ==>
      k in c1 && c1[k] == (if IsSet(c0, k) then c0[k] else OptionalDefaults[k])
    requires c1 - OptionalDefaults.Keys == c0 - OptionalDefaults.Keys
    requires forall k :: k in OptionalDefaults ==>
      k in c2 && c2[k] == (if IsSet(c1, k) then c1[k] else OptionalDefaults[k])
    requires c2 - OptionalDefaults.Keys == c1 - OptionalDefaults.Keys
    ensures c2 == c1
  {
    var keys := OptionalDefaults.Keys;
    forall k | k !in keys
      ensures (k in c2 <==> k in c1) && (k in c1 ==> c2[k] == c1[k])
    {
      assert k in c2 <==> k in c2 - keys;
      assert k in c1 <==> k in c1 - keys;
      if k in c1 {
        assert c2[k] == (c2 - keys)[k];
        assert c1[k] == (c1 - keys)[k];
      }
    }
    assert c2.Keys == c1.Keys;
  }

  /** Applying the defaults a second time changes nothing. */
  lemma ApplyDefaultsIdempotent(configs: Config)
    ensures ApplyDefaults(ApplyDefaults(configs)) == ApplyDefaults(configs)
  {
    DefaultedTwice(configs, ApplyDefaults(configs), ApplyDefaults(ApplyDefaults(configs)));
  }

  /** The projection that get_only builds. */
  function Only(configs: Config, keys: seq<string>): Config
  {
    map k | k in keys && IsSet(configs, k) :: configs[k]
  }

  /** get_only: exactly the requested keys that are set, with their values. */
  method GetOnly(configs: Config, keys: seq<string>) returns (res: Config)
    ensures forall k :: k in res <==> k in keys && IsSet(configs, k)
    ensures forall k :: k in res ==> k in configs && res[k] == configs[k]
  {
    res := map[];
    for i := 0 to |keys|
      invariant forall k :: k in res <==> k in keys[..i] && IsSet(configs, k)
      invariant forall k :: k in res ==> k in configs && res[k] == configs[k]
    {
      assert keys[..i + 1] == keys[..i] + [keys[i]];
      if IsSet(configs, keys[i]) {
        res := res[keys[i] := configs[keys[i]]];
      }
    }
    assert keys[..|keys|] == keys;
  }

  /** The projection onto the API option keys of a config where all three are set. */
  lemma OnlyApiOptions(c: Config)
    requires IsSet(c, "screen_name") && IsSet(c, "count") && IsSet(c, "include_rts")
    ensures Only(c, ApiOptionKeys).Keys == {"screen_name", "count", "include_rts"}
  {
    var keys := Only(c, ApiOptionKeys).Keys;
    forall k | k in keys ensures k == "screen_name" || k == "count" || k == "include_rts" {
    }
  }

  /** Once the checks pass, the API options are exactly screen_name, count and include_rts. */
  lemma ApiOptionsOfCheckedConfigs(configs: Config)
    requires CheckConfigs(Some(configs)).Pass?
    ensures var c := ApplyDefaults(configs);
      Only(c, ApiOptionKeys).Keys == {"screen_name", "count", "include_rts"}
      && Only(c, ApiOptionKeys)["screen_name"] == configs["screen_name"]
  {
    var c := ApplyDefaults(configs);
    ApplyDefaultsKeeps(configs, "screen_name");
    assert IsSet(c, "count") && IsSet(c, "include_rts");
    OnlyApiOptions(c);
  }

  /** The name of the cache entry of a screen name: the namespace, "__", then the screen name as a string. */
  function TransientName(screenName: Value): (r: string)
    ensures |r| == |CacheTransient| + 2 + |ToPhpString(screenName)|
    ensures r[..|CacheTransient| + 2] == "GETTWEETSINPHP_1_0__"
    ensures r[|CacheTransient| + 2..] == ToPhpString(screenName)
  {
    CacheTransient + "__" + ToPhpString(screenName)
  }

  /** Two screen names share a cache entry only when they are the same string. */
  lemma TransientNameInjective(a: string, b: string)
    ensures TransientName(Str(a)) == TransientName(Str(b)) ==> a == b
  {
    var n := |CacheTransient + "__"|;
    if TransientName(Str(a)) == TransientName(Str(b)) {
      assert a == TransientName(Str(a))[n..];
      assert b == TransientName(Str(b))[n..];
    }
  }

  /** The request retrive_user_timeline sends: consumer credentials with empty access tokens. */
  function UserTimelineRequest(consumerKey: Value, consumerSecret: Value, apiOpts: Config): (r: Request)
    ensures r.url == "https://api.twitter.com/1.1/statuses/user_timeline.json" && r.requestMethod == "GET"
    ensures r.getfield == apiOpts
    ensures r.settings.Keys == {"consumer_key", "consumer_secret", "oauth_access_token", "oauth_access_token_secret"}
    ensures r.settings["consumer_key"] == consumerKey && r.settings["consumer_secret"] == consumerSecret
    ensures r.settings["oauth_access_token"] == Str("") && r.settings["oauth_access_token_secret"] == Str("")
  {
    Request(
      map[
        "consumer_key" := consumerKey,
        "consumer_secret" := consumerSecret,
        "oauth_access_token" := Str(""),
        "oauth_access_token_secret" := Str("")],
      UserTimelineUrl,
      "GET",
      apiOpts)
  }

  /**
   * retrive_user_timeline: with the cache enabled and an entry present, that
   * entry and no request; otherwise exactly one request, whose answer is then
   * stored (cache enabled) or whose entry is deleted (cache disabled).
   */
  method RetriveUserTimeline(
    store: TransientStore, api: Upstream,
    consumerKey: Value, consumerSecret: Value, apiOpts: Config,
    cacheEnabled: Value, cacheExpiration: int)
    returns (userTimeline: Timeline)
    modifies store, api
    ensures var name := TransientName(Lookup(apiOpts, "screen_name"));
      Truthy(cacheEnabled) && name in old(store.entries) ==>
        && userTimeline == old(store.entries)[name].value
        && store.entries == old(store.entries)
        && api.requests == old(api.requests)
    ensures var name := TransientName(Lookup(apiOpts, "screen_name"));
      var request := UserTimelineRequest(consumerKey, consumerSecret, apiOpts);
      !(Truthy(cacheEnabled) && name in old(store.entries)) ==>
        && api.requests == old(api.requests) + [request]
        && userTimeline == api.respond(|old(api.requests)|, request)
        && store.entries == if Truthy(cacheEnabled)
                            then old(store.entries)[name := Transient(userTimeline, cacheExpiration)]
                            else old(store.entries) - {name}
  {
    var transientName := TransientName(Lookup(apiOpts, "screen_name"));

    if Truthy(cacheEnabled) {
      var cached := store.GetTransient(transientName);
      if cached.Some? {
        return cached.value;
      }
    }

    userTimeline := api.PerformRequest(UserTimelineRequest(consumerKey, consumerSecret, apiOpts));

    if Truthy(cacheEnabled) {
      store.SetTransient(transientName, userTimeline, cacheExpiration);
    } else {
      store.DeleteTransient(transientName);
    }
  }

  /** The cache entry get_tweets consults for checked configs. */
  function ConfigsTransientName(configs: Config): string
    requires CheckConfigs(Some(configs)).Pass?
  {
    TransientName(configs["screen_name"])
  }

  /** Whether get_tweets answers from the cache, given the store before the call. */
  predicate CacheHit(configs: Config, entries: map<string, Transient>)
    requires CheckConfigs(Some(configs)).Pass?
  {
    Truthy(ApplyDefaults(configs)["cache_enabled"]) && ConfigsTransientName(configs) in entries
  }

  /** The request get_tweets sends for checked configs on a miss. */
  function ConfigsRequest(configs: Config): Request
    requires CheckConfigs(Some(configs)).Pass?
  {
    UserTimelineRequest(configs["consumer_key"], configs["consumer_secret"], Only(ApplyDefaults(configs), ApiOptionKeys))
  }

  /** The cache entry and the request retrive_user_timeline works with, for the arguments get_tweets passes it. */
  lemma RetrievalArguments(configs: Config)
    requires CheckConfigs(Some(configs)).Pass?
    ensures var c := ApplyDefaults(configs);
      var apiOpts := Only(c, ApiOptionKeys);
      && "consumer_key" in c && "consumer_secret" in c
      && TransientName(Lookup(apiOpts, "screen_name")) == ConfigsTransientName(configs)
      && UserTimelineRequest(c["consumer_key"], c["consumer_secret"], apiOpts) == ConfigsRequest(configs)
  {
    ApiOptionsOfCheckedConfigs(configs);
    ApplyDefaultsKeeps(configs, "consumer_key");
    ApplyDefaultsKeeps(configs, "consumer_secret");
  }

  /**
   * get_tweets. A failed check throws before the store or the API is touched.
   * Otherwise the timeline comes from the cache or from one request, the
   * store is updated as retrive_user_timeline does, and every tweet of the
   * timeline, cached or fresh, is enriched in order.
   */
  method GetTweets(configs: Option<Config>, store: TransientStore, api: Upstream, format: Formatter)
    returns (r: Result<seq<EnrichedTweet>, Error>)
    modifies store, api
    ensures CheckConfigs(configs).Fail? ==>
      && r == Failure(CheckConfigs(configs).error)
      && store.entries == old(store.entries)
      && api.requests == old(api.requests)
    ensures CheckConfigs(configs).Pass? ==>
      var c := ApplyDefaults(configs.value);
      var hit := CacheHit(configs.value, old(store.entries));
      var request := ConfigsRequest(configs.value);
      var userTimeline := if hit then old(store.entries)[ConfigsTransientName(configs.value)].value
                          else api.respond(|old(api.requests)|, request);
      && r.Success?
      && |r.value| == |userTimeline|
      && (forall i :: 0 <= i < |userTimeline| ==> IsEnriched(userTimeline[i], c["show_retweeted_by"], format, r.value[i]))
      && (hit ==> store.entries == old(store.entries) && api.requests == old(api.requests))
      && (!hit ==> api.requests == old(api.requests) + [request])
      && (!hit && Truthy(c["cache_enabled"]) ==>
            store.entries == old(store.entries)[ConfigsTransientName(configs.value) :=
                                                Transient(userTimeline, IntVal(c["cache_expiration"]))])
      && (!hit && !Truthy(c["cache_enabled"]) ==>
            store.entries == old(store.entries) - {ConfigsTransientName(configs.value)})
  {
    if configs.None? {
      return Failure(ConfigsRequired);
    }
    var c := configs.value;
    var check := CheckRequired(c, "consumer_key");
    if check.Fail? {
      return Failure(check.error);
    }
    check := CheckRequired(c, "consumer_secret");
    if check.Fail? {
      return Failure(check.error);
    }
    check := CheckRequired(c, "screen_name");
    if check.Fail? {
      return Failure(check.error);
    }

    c := ApplyDefaults(c);

    var apiOpts := GetOnly(c, ApiOptionKeys);
    assert apiOpts == Only(c, ApiOptionKeys);
    RetrievalArguments(configs.value);

    var showRetweetedBy := c["show_retweeted_by"];

    var userTimeline := RetriveUserTimeline(
      store, api,
      c["consumer_key"],
      c["consumer_secret"],
      apiOpts,
      c["cache_enabled"],
      IntVal(c["cache_expiration"]));

    var tweets := EnrichTimeline(userTimeline, showRetweetedBy, format);
    return Success(tweets);
  }

  /** Enriching the same timeline twice gives the same tweets. */
  lemma EnrichedTimelinesEqual(userTimeline: Timeline, showRetweetedBy: Value, format: Formatter,
                               a: seq<EnrichedTweet>, b: seq<EnrichedTweet>)
    requires |a| == |userTimeline| && |b| == |userTimeline|
    requires forall i :: 0 <= i < |userTimeline| ==> IsEnriched(userTimeline[i], showRetweetedBy, format, a[i])
    requires forall i :: 0 <= i < |userTimeline| ==> IsEnriched(userTimeline[i], showRetweetedBy, format, b[i])
    ensures a == b
  {
    forall i | 0 <= i < |userTimeline| ensures a[i] == b[i] {
      EnrichmentDeterministic(userTimeline[i], showRetweetedBy, format, a[i], b[i]);
    }
  }

  /**
   * Two calls with the same configs and the cache enabled, provided the
   * entry has not expired between the two calls (the store does not model
   * expiry): at most one request, the second call is answered from the
   * cache, and both return the same tweets (the cached raw timeline is
   * enriched again the same way).
   */
  method RepeatedCallUsesCache(configs: Config, store: TransientStore, api: Upstream, format: Formatter)
    returns (first: Result<seq<EnrichedTweet>, Error>, second: Result<seq<EnrichedTweet>, Error>)
    requires CheckConfigs(Some(configs)).Pass?
    requires Truthy(ApplyDefaults(configs)["cache_enabled"])
    modifies store, api
    ensures first.Success? && second == first
    ensures |old(api.requests)| <= |api.requests| <= |old(api.requests)| + 1
    ensures ConfigsTransientName(configs) in store.entries
  {
    first := GetTweets(Some(configs), store, api, format);
    ghost var stored := store.entries[ConfigsTransientName(configs)].value;
    second := GetTweets(Some(configs), store, api, format);
    EnrichedTimelinesEqual(stored, ApplyDefaults(configs)["show_retweeted_by"], format, first.value, second.value);
  }

  /** Setting cache_enabled keeps the checks passing and the cache entry name, and defaulting keeps the flag. */
  lemma WithCacheEnabled(configs: Config, enabled: bool)
    requires CheckConfigs(Some(configs)).Pass?
    ensures var d := configs["cache_enabled" := Bool(enabled)];
      && CheckConfigs(Some(d)).Pass?
      && ConfigsTransientName(d) == ConfigsTransientName(configs)
      && ApplyDefaults(d)["cache_enabled"] == Bool(enabled)
  {
    var d := configs["cache_enabled" := Bool(enabled)];
    assert IsSet(d, "consumer_key") && IsSet(d, "consumer_secret") && IsSet(d, "screen_name");
    assert "cache_enabled" in OptionalDefaults && IsSet(d, "cache_enabled");
  }

  /**
   * A call with the cache disabled always sends a request and removes the
   * entry, so a following call with the cache enabled sends a request too
   * instead of returning an entry stored before.
   */
  method DisabledCacheThenEnabled(configs: Config, store: TransientStore, api: Upstream, format: Formatter)
    returns (first: Result<seq<EnrichedTweet>, Error>, second: Result<seq<EnrichedTweet>, Error>)
    requires CheckConfigs(Some(configs)).Pass?
    modifies store, api
    ensures first.Success? && second.Success?
    ensures |api.requests| == |old(api.requests)| + 2
    ensures ConfigsTransientName(configs) in store.entries
  {
    var disabled := configs["cache_enabled" := Bool(false)];
    var enabled := configs["cache_enabled" := Bool(true)];
    WithCacheEnabled(configs, false);
    WithCacheEnabled(configs, true);
    first := GetTweets(Some(disabled), store, api, format);
    assert ConfigsTransientName(configs) !in store.entries;
    second := GetTweets(Some(enabled), store, api, format);
  }
}
