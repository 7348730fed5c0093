/**
 * Tweets as the user_timeline API returns them, and the enrichment that
 * get_tweets applies to each of them: the retweet flag, the photo URLs of
 * the media entities, the first photo URL and the formatted HTML text.
 */
module Tweets {
  import opened Wrappers
  import opened PhpValues

  /** An entry of `entities.media`. */
  datatype Media = Media(mediaType: string, mediaUrl: string)

  /** The `entities` object; `media` is absent when the tweet has no attached media. */
  datatype Entities = Entities(media: Option<seq<Media>>)

  /**
   * A decoded tweet. `retweetedStatus` is the retweeted original, absent (or
   * null) for an ordinary tweet; `fields` holds the remaining scalar
   * properties, which enrichment passes through untouched. Nested objects
   * other than these two (`user`, `extended_entities`, the other entities)
   * are not represented.
   */
  datatype Tweet = Tweet(retweetedStatus: Option<Tweet>, entities: Option<Entities>, fields: map<string, Value>)

  type Timeline = seq<Tweet>

  /** A tweet with the five derived properties `n_html_text`, `n_is_retweeted`,
      `n_media_photo_urls`, `n_has_media_photo` and `n_media_photo_url`. */
  datatype EnrichedTweet = EnrichedTweet(
    tweet: Tweet,
    htmlText: string,
    isRetweeted: bool,
    mediaPhotoUrls: seq<string>,
    hasMediaPhoto: bool,
    mediaPhotoUrl: Option<string>)

  /** The external formatter `TwitterTextFormatter::format_text(tweet, show_retweeted_by)`. */
  type Formatter = (Tweet, Value) -> string

  /** `entities->media` when it is set, and no entries otherwise. */
  function MediaEntries(t: Tweet): seq<Media>
  {
    if t.entities.Some? && t.entities.value.media.Some? then t.entities.value.media.value else []
  }

  predicate IsPhoto(m: Media)
  {
    m.mediaType == "photo"
  }

  /** The `media_url` of every photo entry, in order. */
  function PhotoUrls(media: seq<Media>): seq<string>
  {
    if media == [] then []
    else (if IsPhoto(media[0]) then [media[0].mediaUrl] else []) + PhotoUrls(media[1..])
  }

  /** What the loop body of get_tweets makes of one tweet. */
  predicate IsEnriched(raw: Tweet, showRetweetedBy: Value, format: Formatter, e: EnrichedTweet)
  {
    && e.tweet == raw
    && e.htmlText == format(raw, showRetweetedBy)
    && (e.isRetweeted <==> raw.retweetedStatus.Some?)
    && e.mediaPhotoUrls == PhotoUrls(MediaEntries(raw))
    && (e.hasMediaPhoto <==> e.mediaPhotoUrls != [])
    && e.mediaPhotoUrl == (if e.mediaPhotoUrls != [] then Some(e.mediaPhotoUrls[0]) else None)
  }

  lemma {:induction false} PhotoUrlsAppend(a: seq<Media>, b: seq<Media>)
    ensures PhotoUrls(a + b) == PhotoUrls(a) + PhotoUrls(b)
  {
    if a == [] {
      assert a + b == b;
    } else {
      assert (a + b)[0] == a[0];
      assert (a + b)[1..] == a[1..] + b;
      PhotoUrlsAppend(a[1..], b);
    }
  }

  /** A URL is collected exactly when some photo entry carries it. */
  lemma {:induction false} PhotoUrlsMembership(media: seq<Media>, url: string)
    ensures url in PhotoUrls(media) <==>
      exists j :: 0 <= j < |media| && IsPhoto(media[j]) && media[j].mediaUrl == url
  {
    if media != [] {
      PhotoUrlsMembership(media[1..], url);
      if url in PhotoUrls(media[1..]) {
        var j :| 0 <= j < |media[1..]| && IsPhoto(media[1..][j]) && media[1..][j].mediaUrl == url;
        assert IsPhoto(media[j + 1]) && media[j + 1].mediaUrl == url;
      }
      if exists j :: 0 <= j < |media| && IsPhoto(media[j]) && media[j].mediaUrl == url {
        var j :| 0 <= j < |media| && IsPhoto(media[j]) && media[j].mediaUrl == url;
        if j > 0 {
          assert IsPhoto(media[1..][j - 1]) && media[1..][j - 1].mediaUrl == url;
        }
      }
    }
  }

  /** The first URL collected is that of the first photo entry. */
  lemma {:induction false} PhotoUrlsFirst(media: seq<Media>, j: nat)
    requires j < |media| && IsPhoto(media[j])
    requires forall k :: 0 <= k < j ==> !IsPhoto(media[k])
    ensures PhotoUrls(media) != [] && PhotoUrls(media)[0] == media[j].mediaUrl
  {
    if j > 0 {
      PhotoUrlsFirst(media[1..], j - 1);
    }
  }

  /** Nothing is collected exactly when no entry is a photo. */
  lemma {:induction false} PhotoUrlsEmpty(media: seq<Media>)
    ensures PhotoUrls(media) == [] <==> forall k :: 0 <= k < |media| ==> !IsPhoto(media[k])
  {
    if media != [] {
      PhotoUrlsEmpty(media[1..]);
      assert forall k :: 1 <= k < |media| ==> media[k] == media[1..][k - 1];
    }
  }

  /** The collecting loop of get_tweets: the `media_url` of each photo entry, in order. */
  method CollectPhotoUrls(tweet: Tweet) returns (urls: seq<string>)
    ensures urls == PhotoUrls(MediaEntries(tweet))
  {
    urls := [];
    if tweet.entities.Some? && tweet.entities.value.media.Some? {
      var media := tweet.entities.value.media.value;
      for i := 0 to |media|
        invariant urls == PhotoUrls(media[..i])
      {
        assert media[..i + 1] == media[..i] + [media[i]];
        PhotoUrlsAppend(media[..i], [media[i]]);
        if media[i].mediaType != "photo" {
          continue;
        }
        urls := urls + [media[i].mediaUrl];
      }
      assert media[..|media|] == media;
    }
  }

  /** The enrichment loop of get_tweets: one enriched tweet per tweet, in the same order. */
  method EnrichTimeline(userTimeline: Timeline, showRetweetedBy: Value, format: Formatter)
    returns (tweets: seq<EnrichedTweet>)
    ensures |tweets| == |userTimeline|
    ensures forall i :: 0 <= i < |userTimeline| ==> IsEnriched(userTimeline[i], showRetweetedBy, format, tweets[i])
  {
    tweets := [];
    for i := 0 to |userTimeline|
      invariant |tweets| == i
      invariant forall k :: 0 <= k < i ==> IsEnriched(userTimeline[k], showRetweetedBy, format, tweets[k])
    {
      var userTweet := userTimeline[i];
      var htmlText := format(userTweet, showRetweetedBy);
      var isRetweeted := userTweet.retweetedStatus.Some?;
      var mediaPhotoUrls := CollectPhotoUrls(userTweet);
      var hasMediaPhoto, mediaPhotoUrl;
      if mediaPhotoUrls != [] {
        hasMediaPhoto, mediaPhotoUrl := true, Some(mediaPhotoUrls[0]);
      } else {
        hasMediaPhoto, mediaPhotoUrl := false, None;
      }
      tweets := tweets + [EnrichedTweet(userTweet, htmlText, isRetweeted, mediaPhotoUrls, hasMediaPhoto, mediaPhotoUrl)];
    }
  }

  /** The derived properties are a function of the tweet: enriching it twice gives the same record. */
  lemma EnrichmentDeterministic(raw: Tweet, showRetweetedBy: Value, format: Formatter, e1: EnrichedTweet, e2: EnrichedTweet)
    requires IsEnriched(raw, showRetweetedBy, format, e1)
    requires IsEnriched(raw, showRetweetedBy, format, e2)
    ensures e1 == e2
  {
  }

  /** A photo, a video and a photo give the two photo URLs, the first one as the main photo. */
  lemma MixedMediaExample(raw: Tweet, showRetweetedBy: Value, format: Formatter, e: EnrichedTweet)
    requires raw.entities == Some(Entities(Some([Media("photo", "A"), Media("video", "B"), Media("photo", "C")])))
    requires IsEnriched(raw, showRetweetedBy, format, e)
    ensures e.mediaPhotoUrls == ["A", "C"] && e.hasMediaPhoto && e.mediaPhotoUrl == Some("A")
  {
    var media := [Media("photo", "A"), Media("video", "B"), Media("photo", "C")];
    assert media[1..] == [Media("video", "B"), Media("photo", "C")];
    assert media[1..][1..] == [Media("photo", "C")];
    assert media[1..][1..][1..] == [];
  }

  /** A tweet without media entities has no photo. */
  lemma NoMediaExample(raw: Tweet, showRetweetedBy: Value, format: Formatter, e: EnrichedTweet)
    requires raw.entities.None? || raw.entities.value.media.None?
    requires IsEnriched(raw, showRetweetedBy, format, e)
    ensures e.mediaPhotoUrls == [] && !e.hasMediaPhoto && e.mediaPhotoUrl.None?
  {
  }
}
