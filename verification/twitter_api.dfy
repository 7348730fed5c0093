/**
 * The upstream side of `TwitterAPIExchange`: a signed GET request for the
 * user timeline and the decoded answer. Signing, HTTP and JSON decoding are
 * outside the model; the answer to the n-th request is given by `respond`.
 */
module TwitterApi {
  import opened PhpValues
  import opened Tweets

  /** What `new TwitterAPIExchange($settings)`, `setGetfield`, `buildOauth($url, $requestMethod)` describe. */
  datatype Request = Request(
    settings: map<string, Value>,
    url: string,
    requestMethod: string,
    getfield: map<string, Value>)

  class Upstream {
    /** The decoded answer to the n-th request. */
    const respond: (nat, Request) -> Timeline
    /** Every request performed so far, oldest first. */
    var requests: seq<Request>

    constructor (respond: (nat, Request) -> Timeline)
      ensures this.respond == respond && requests == []
    {
      this.respond := respond;
      requests := [];
    }

    /** `performRequest()` followed by `json_decode`. */
    method PerformRequest(request: Request) returns (userTimeline: Timeline)
      modifies this
      ensures requests == old(requests) + [request]
      ensures userTimeline == respond(|old(requests)|, request)
    {
      userTimeline := respond(|requests|, request);
      requests := requests + [request];
    }
  }
}
