# Get Tweets in PHP — a Dafny model of `GetTweetsInPhp`

This project models the `Netgloo\GetTweetsInPhp` class of the *Get Tweets in PHP*
WordPress plugin. Its public entry point, `get_tweets($configs)`, does four things:

- it checks the configuration array;
- it fills in the optional settings;
- it gets the user timeline, from a WordPress transient or from the Twitter
  `statuses/user_timeline` endpoint;
- it adds derived properties to every tweet (`n_html_text`, `n_is_retweeted`,
  `n_media_photo_urls`, `n_has_media_photo`, `n_media_photo_url`).

Modules, one per part of the class or its collaborators:

- `Wrappers` (`wrappers.dfy`): `Option`, `Result` and `Outcome`. They stand in for PHP's `null` and thrown exceptions.
- `PhpValues` (`php_values.dfy`): the scalars of a PHP array, and the language rules the class relies on:
  - `isset`;
  - truthiness in `if`;
  - string conversion in a `.` concatenation;
  - `intval`.
- `Tweets` (`tweets.dfy`): decoded tweets, and the enrichment loop of `get_tweets` as a method with its loop invariants. The photo filter is a specification function with lemmas about it.
- `Transients` (`transients.dfy`): the host's transient store as a class whose only field is a `map` from name to stored timeline and expiration.
- `TwitterApi` (`twitter_api.dfy`): the upstream endpoint as a class.
  - `respond` gives the decoded answer to the n-th request.
  - A log records every request sent, so the contracts can say whether a fetch happened.
- `GetTweetsInPhp` (`get_tweets_in_php.dfy`): the class itself.
  - `check_required`, `set_default`, `get_only`, `retrive_user_timeline` and `get_tweets`.
  - The constant `CACHE_TRANSIENT`.
  - Two client methods that chain two calls.

The cache holds the raw decoded timeline (`Netgloo/GetTweetsInPhp.php:220-224`), and `get_tweets`
runs its enrichment loop on whatever comes back, cached or fresh. `GetTweets` therefore enriches the
cached timeline on a hit, and `RepeatedCallUsesCache` shows that this gives the same tweets as the
call that filled the cache.

The cache entry name depends only on the screen name (`Netgloo/GetTweetsInPhp.php:193`). So while an
entry is live, a call with a different `count` or `include_rts` gets the timeline stored by the
earlier call. The model keeps this behaviour.

## Model

| member | source | states |
|---|---|---|
| `GetTweetsInPhp.CheckRequired` | Netgloo/GetTweetsInPhp.php:160-165 | passes exactly when the key is set (present and not null), and otherwise fails naming that key |
| `GetTweetsInPhp.CheckConfigs` | Netgloo/GetTweetsInPhp.php:64-69 | fails on missing configs; otherwise passes iff consumer_key, consumer_secret and screen_name are all set, and a failure names the first unset key in that order |
| `GetTweetsInPhp.SetDefault` | Netgloo/GetTweetsInPhp.php:240-245 | afterwards the key holds its old value if it was set and the default otherwise; every other key is unchanged |
| `GetTweetsInPhp.SetDefaultKeeps` | Netgloo/GetTweetsInPhp.php:240-245 | a key other than the defaulted one is present and reads the same before and after |
| `GetTweetsInPhp.SetDefaultIdempotent` | Netgloo/GetTweetsInPhp.php:240-245 | applying set_default twice equals applying it once |
| `GetTweetsInPhp.DefaultsChain` | Netgloo/GetTweetsInPhp.php:72-76 | after the five calls every optional key holds the user's value if it was set and its documented default (count 20, include_rts true, show_retweeted_by true, cache_enabled true, cache_expiration 60) otherwise; other keys are unchanged |
| `GetTweetsInPhp.ApplyDefaults` | Netgloo/GetTweetsInPhp.php:72-76 | the defaulting block: optional keys defaulted when unset, user values preserved, all other keys unchanged |
| `GetTweetsInPhp.ApplyDefaultsKeeps` | Netgloo/GetTweetsInPhp.php:72-76 | a key without a default, such as consumer_key or screen_name, is present and reads the same before and after the defaulting block |
| `GetTweetsInPhp.ApplyDefaultsIdempotent` | Netgloo/GetTweetsInPhp.php:72-76 | running the defaulting block on its own result changes nothing |
| `GetTweetsInPhp.GetOnly` | Netgloo/GetTweetsInPhp.php:252-260 | the loop's result holds exactly the requested keys that are set in the input, each with the input's value |
| `GetTweetsInPhp.ApiOptionsOfCheckedConfigs` | Netgloo/GetTweetsInPhp.php:79-83 | once the checks pass, the API options have exactly the keys screen_name, count and include_rts, and screen_name is the user's |
| `GetTweetsInPhp.TransientName` | Netgloo/GetTweetsInPhp.php:148-193 | the cache entry name is `GETTWEETSINPHP_1_0__` followed by the screen name converted to a string, and nothing else |
| `GetTweetsInPhp.UserTimelineRequest` | Netgloo/GetTweetsInPhp.php:182-217 | the request goes to the user_timeline URL with method GET and the API options as its query; its settings hold exactly the consumer key and secret and two empty access-token fields |
| `GetTweetsInPhp.TransientNameInjective` | Netgloo/GetTweetsInPhp.php:193 | the cache entry name `CACHE_TRANSIENT . '__' . screen_name` differs for different screen-name strings |
| `GetTweetsInPhp.RetrievalArguments` | Netgloo/GetTweetsInPhp.php:79-95 | for checked configs, the consumer key and secret and the API options get_tweets passes on give the cache entry of the user's screen name and the request built from the user's own key, secret and options |
| `GetTweetsInPhp.RetriveUserTimeline` | Netgloo/GetTweetsInPhp.php:173-233 | cache enabled and entry present: returns the entry, store and request log unchanged; otherwise exactly one request is sent, its answer returned, and the entry is then set to that answer with the given expiration (cache enabled) or deleted (cache disabled), every other entry unchanged |
| `GetTweetsInPhp.GetTweets` | Netgloo/GetTweetsInPhp.php:61-138 | a failed check throws that error with the store and the request log untouched; otherwise the timeline comes from the cache or one request, the store changes as above with expiration `intval(cache_expiration)`, and the result is one enriched tweet per timeline tweet in order, whether cached or fresh |
| `GetTweetsInPhp.EnrichedTimelinesEqual` | Netgloo/GetTweetsInPhp.php:97-137 | enriching the same timeline twice with the same options gives the same tweets |
| `GetTweetsInPhp.RepeatedCallUsesCache` | Netgloo/GetTweetsInPhp.php:199-205 | with the cache enabled, and provided the entry has not expired between the two calls, two identical calls send at most one request, leave the entry in place and return the same tweets |
| `GetTweetsInPhp.DisabledCacheThenEnabled` | Netgloo/GetTweetsInPhp.php:222-230 | a call with the cache disabled deletes the entry, so the next call with the cache enabled sends its own request (two requests in all) |
| `Tweets.CollectPhotoUrls` | Netgloo/GetTweetsInPhp.php:112-121 | the loop collects the `media_url` of every `entities.media` entry whose type is 'photo', in order; none when media is not set |
| `Tweets.EnrichTimeline` | Netgloo/GetTweetsInPhp.php:97-137 | one output per input tweet, same order; each keeps the raw tweet and has html text from the formatter, is_retweeted iff retweeted_status is set, the photo URLs, has_media_photo iff there is one, and the first URL or null |
| `Tweets.PhotoUrlsAppend` | Netgloo/GetTweetsInPhp.php:115-120 | the photo URLs of two media lists one after the other are those of the first followed by those of the second |
| `Tweets.PhotoUrlsMembership` | Netgloo/GetTweetsInPhp.php:115-120 | a URL is collected iff some photo entry carries it |
| `Tweets.PhotoUrlsFirst` | Netgloo/GetTweetsInPhp.php:124-126 | the first collected URL is that of the first photo entry |
| `Tweets.PhotoUrlsEmpty` | Netgloo/GetTweetsInPhp.php:124-131 | nothing is collected iff no entry is a photo |
| `Tweets.EnrichmentDeterministic` | Netgloo/GetTweetsInPhp.php:99-133 | the derived properties are determined by the tweet and show_retweeted_by |
| `Tweets.MixedMediaExample` | Netgloo/GetTweetsInPhp.php:113-131 | media [photo A, video B, photo C] gives photo URLs [A, C], has_media_photo true and main photo A |
| `Tweets.NoMediaExample` | Netgloo/GetTweetsInPhp.php:113-131 | a tweet without media entities gets no photo URLs, has_media_photo false and a null main photo |
| `Transients.TransientStore.GetTransient` | Netgloo/GetTweetsInPhp.php:201-205 | returns the stored timeline exactly when an entry exists under the name (PHP's `false` otherwise) |
| `Transients.TransientStore.SetTransient` | Netgloo/GetTweetsInPhp.php:224 | the name maps to the timeline and expiration; every other entry is unchanged |
| `Transients.TransientStore.DeleteTransient` | Netgloo/GetTweetsInPhp.php:229 | the name has no entry; every other entry is unchanged |
| `TwitterApi.Upstream.PerformRequest` | Netgloo/GetTweetsInPhp.php:215-220 | appends the request to the log and returns the answer to the n-th request |
| `PhpValues.StringToIntOfDigits` | Netgloo/GetTweetsInPhp.php:94 | `intval` of a digit string, after no sign, a `-` or a `+`, is the number it writes, saturated to the 64-bit range |
| `PhpValues.IntVal` | Netgloo/GetTweetsInPhp.php:94 | an integer expiration is kept as it is; any other value becomes a 64-bit integer, with null, false and the empty string giving 0 |
| `PhpValues.IntValOfIntString` | Netgloo/GetTweetsInPhp.php:94 | `intval` reads back every 64-bit integer from the string PHP writes for it, so `'60'` and `60` give the same expiration |

## Left out

- HTTP, OAuth1 signing and `TwitterAPIExchange`: the upstream is a class with an abstract `respond` function and a log of the requests sent. `TwitterAPIExchange.php` is not part of this model. Transport failures and error responses are not modelled, because the class neither catches nor classifies them.
- `http_build_query`: the request carries the API options as a map, not as a query string. The key order of the PHP array is not kept, since a `map` has none.
- `json_decode`: the upstream answers with a decoded timeline. A body that is not a JSON list of tweets is not modelled. The class has no handling for it.
- `TwitterTextFormatter::format_text` (`TwitterTextFormatter.php` is not part of this model): a function parameter of type `(Tweet, Value) -> string`, left uninterpreted.
- Expiry of transients: done by the host store. An expired entry is simply absent from the map. Only the expiration value passed to `set_transient` is recorded.
- `GetTweetsInPhp.RepeatedCallUsesCache`: assumes the entry does not expire between the two calls, since the store has no clock. The host treats a negative `cache_expiration` as already expired, so with `'cache_expiration' => -1` the second call sends a request too.
- Mutation of the decoded tweet objects: the model returns new `EnrichedTweet` values holding the raw tweet and the five derived fields.
- `get-tweets-in-php.php`: the plugin header, a `define` and a `require_once`, with no logic.
- `PhpValues.IntVal`: does not model exponent strings such as `'1e3'` (PHP reads them as 1000), and has no float values. Configuration values are null, booleans, integers or strings.
- `PhpValues.IntVal`: a string with a fractional part is read by its integer digits. PHP reads such a string through a double, so the result can differ. For example, `'1.9999999999999999999'` gives 2 in PHP and 1 here, and `'18014398509481985.5'` gives 18014398509481984 in PHP (above 2^53 the double also rounds the integer part) and 18014398509481985 here. The same holds for the expiration `GetTweets` passes on.
- `Tweets.Tweet`: its pass-through `fields` hold scalar properties only. Nested objects other than `retweeted_status` and `entities.media` (`user`, `extended_entities`, the other entities) are not represented. No proved property depends on them, since the formatter is uninterpreted.
- `Tweets.Media`: the entry type is a string. A missing `type` or `media_url` property is not modelled.
- A `$configs` argument that is not an array is not modelled; only a missing (`null`) one is.
