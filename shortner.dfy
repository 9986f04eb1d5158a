/** shortner.py: a POST to a URL-shortening service that falls back to the long
    URL on any failure and never raises. */
module Shortener {
  import opened Wrappers
  import opened Json

  const Endpoint := "https://api.urlshortener.com/shorten"

  datatype PostRequest = PostRequest(url: string, json: map<string, string>, headers: map<string, string>)

  /** The request: the long URL travels unencoded in the JSON body under
      "longUrl"; the key (None when the variable is unset) is a Bearer token. */
  function Request(longUrl: string, apiKey: Option<string>): (r: PostRequest)
    ensures r.url == Endpoint
    ensures r.json.Keys == {"longUrl"} && r.json["longUrl"] == longUrl
    ensures r.headers.Keys == {"Authorization"}
    ensures apiKey.Some? ==> r.headers["Authorization"] == "Bearer " + apiKey.value
    ensures apiKey.None? ==> r.headers["Authorization"] == "Bearer None"
  {
    var key := match apiKey case Some(k) => k case None => "None";
    PostRequest(Endpoint, map["longUrl" := longUrl], map["Authorization" := "Bearer " + key])
  }

  /** The server's "shortUrl" value, present only for exactly status 200 and a
      JSON object body that has the key. */
  predicate ServerAnswered(response: HttpOutcome) {
    response.Response? && response.status == 200 && response.body.Parsed?
    && response.body.value.JObject? && "shortUrl" in response.body.value.fields
  }

  /** shorten_url: the result is the server's "shortUrl" value verbatim (even an
      empty string or a non-string) when the server answered, and the long URL in
      every other case: another status (2xx included), a body that is not JSON or
      not an object (the exception is swallowed), a transport error. */
  function ShortenUrl(longUrl: string, response: HttpOutcome): (r: JsonValue)
    ensures ServerAnswered(response) ==> r == response.body.value.fields["shortUrl"]
    ensures !ServerAnswered(response) ==> r == JString(longUrl)
  {
    match response
    case TransportError => JString(longUrl)
    case Response(status, body) =>
      if status == 200 then
        match body
        case Malformed => JString(longUrl)
        case Parsed(v) =>
          match v
          case JObject(fields) => GetOr(fields, "shortUrl", JString(longUrl))
          case _ => JString(longUrl)
      else JString(longUrl)
  }

  /** The result is always the long URL or a value the server supplied. */
  lemma ResultIsInputOrServerValue(longUrl: string, response: HttpOutcome)
    ensures var r := ShortenUrl(longUrl, response);
      r == JString(longUrl) ||
      (response.Response? && response.body.Parsed? && response.body.value.JObject?
       && r in response.body.value.fields.Values)
  {
  }

  /** An empty "shortUrl" is returned as it is, not replaced by the long URL. */
  lemma EmptyShortUrlReturned(longUrl: string)
    requires longUrl != ""
    ensures ShortenUrl(longUrl, Response(200, Parsed(JObject(map["shortUrl" := JString("")])))) == JString("")
  {
  }

  /** Only 200 counts: 201 with a valid body still falls back. */
  lemma OtherSuccessStatusFallsBack(longUrl: string, short: string)
    ensures ShortenUrl(longUrl, Response(201, Parsed(JObject(map["shortUrl" := JString(short)])))) == JString(longUrl)
  {
  }
}
