/** The value-level parts of handlers.py: the publicearn shortener client, the
    Drive share link and the channel deep link. */
module HandlerLinks {
  import opened Wrappers
  import opened Json
  import Utf8
  import PercentEncoding
  import Base64

  const ShortenerApiPrefix := "https://publicearn.com/api?api="

  /** The GET request URL built by shorten_url. */
  function ShortenerApiUrl(apiToken: string, longUrl: string): string {
    ShortenerApiPrefix + apiToken + "&url=" + PercentEncoding.Quote(longUrl)
  }

  /** The "url" parameter is the last one in the request and carries the long
      URL losslessly: it percent-decodes to the URL's UTF-8 bytes, and it contains
      no "&" or "#" that could end it early. */
  lemma ShortenerApiUrlCarriesUrl(apiToken: string, longUrl: string)
    ensures var u := ShortenerApiUrl(apiToken, longUrl);
      var n := |ShortenerApiPrefix + apiToken + "&url="|;
      n <= |u| && u[..n] == ShortenerApiPrefix + apiToken + "&url="
      && PercentEncoding.PercentDecode(u[n..]) == Some(Utf8.Encode(longUrl))
      && forall i :: n <= i < |u| ==> u[i] != '&' && u[i] != '#'
  {
    var head := ShortenerApiPrefix + apiToken + "&url=";
    var q := PercentEncoding.Quote(longUrl);
    var u := head + q;
    assert u[..|head|] == head && u[|head|..] == q;
    PercentEncoding.QuoteRoundTrip(longUrl);
    PercentEncoding.QuoteHasNoDelimiters(longUrl);
    forall i | |head| <= i < |u| ensures u[i] != '&' && u[i] != '#' {
      assert u[i] == q[i - |head|];
    }
  }

  /** A call into code that may raise an exception the caller does not catch. */
  datatype Call<+T> = Returns(value: T) | Raises

  /** The server accepted the request: no transport error, no 4xx/5xx status, a
      JSON object whose "status" is "success" and whose "shortenedUrl" is truthy. */
  predicate ShortenSucceeded(response: HttpOutcome) {
    && response.Response? && !RaisesForStatus(response.status)
    && response.body.Parsed? && response.body.value.JObject?
    && GetOr(response.body.value.fields, "status", JNull) == JString("success")
    && Truthy(GetOr(response.body.value.fields, "shortenedUrl", JString("")))
  }

  /** shorten_url of handlers.py. A parsed body that is not an object makes
      `.get` raise AttributeError, which `except RequestException` does not
      catch; an unparsable body raises requests' JSONDecodeError, which it does. */
  function ShortenUrl(longUrl: string, response: HttpOutcome): (r: Call<JsonValue>)
    ensures r.Raises? <==>
      response.Response? && !RaisesForStatus(response.status)
      && response.body.Parsed? && !response.body.value.JObject?
    ensures ShortenSucceeded(response) ==> r == Returns(response.body.value.fields["shortenedUrl"])
    ensures r.Returns? && !ShortenSucceeded(response) ==> r.value == JString(longUrl)
  {
    match response
    case TransportError => Returns(JString(longUrl))
    case Response(status, body) =>
      if RaisesForStatus(status) then Returns(JString(longUrl))
      else match body
        case Malformed => Returns(JString(longUrl))
        case Parsed(v) =>
          match v
          case JObject(fields) =>
            if GetOr(fields, "status", JNull) == JString("success") then
              var short := GetOr(fields, "shortenedUrl", JString(""));
              if Truthy(short) then Returns(short) else Returns(JString(longUrl))
            else Returns(JString(longUrl))
          case _ => Raises
  }

  const DriveLinkPrefix := "https://drive.google.com/file/d/"
  const DriveLinkSuffix := "/view?usp=sharing"

  /** How Python formats the file id into the link: a missing id prints as "None". */
  function IdText(fileId: Option<string>): string {
    match fileId case Some(id) => id case None => "None"
  }

  function DriveShareLink(fileId: Option<string>): string {
    DriveLinkPrefix + IdText(fileId) + DriveLinkSuffix
  }

  /** The file id inside a share link, if the text has the share-link shape. */
  function DriveFileId(link: string): Option<string> {
    if |link| >= |DriveLinkPrefix| + |DriveLinkSuffix|
       && link[..|DriveLinkPrefix|] == DriveLinkPrefix
       && link[|link| - |DriveLinkSuffix|..] == DriveLinkSuffix
    then Some(link[|DriveLinkPrefix|..|link| - |DriveLinkSuffix|])
    else None
  }

  /** The share link determines the id it was built from, and it is never empty. */
  lemma DriveLinkRoundTrip(fileId: Option<string>)
    ensures DriveFileId(DriveShareLink(fileId)) == Some(IdText(fileId))
    ensures DriveShareLink(fileId) != ""
  {
    var link := DriveShareLink(fileId);
    assert link[..|DriveLinkPrefix|] == DriveLinkPrefix;
    assert link[|link| - |DriveLinkSuffix|..] == DriveLinkSuffix;
    assert link[|DriveLinkPrefix|..|link| - |DriveLinkSuffix|] == IdText(fileId);
  }

  /** What the Drive files().create call did: create a file (whose response may
      lack an id) or fail with any exception. */
  datatype DriveOutcome = DriveError | DriveCreated(fileId: Option<string>)

  /** upload_to_drive: the share link on success, None on any exception. */
  function UploadToDrive(outcome: DriveOutcome): (r: Option<string>)
    ensures r.Some? <==> outcome.DriveCreated?
    ensures r.Some? ==> DriveFileId(r.value) == Some(IdText(outcome.fileId)) && r.value != ""
  {
    match outcome
    case DriveError => None
    case DriveCreated(fileId) =>
      DriveLinkRoundTrip(fileId);
      Some(DriveShareLink(fileId))
  }

  /** upload_to_drive as the file stands: GOOGLE_DRIVE_FOLDER_ID is neither
      defined in handlers.py nor imported from app.py, so building the metadata
      raises NameError before Drive is called, and the except clause turns it
      into None whatever Drive would have done. */
  function UploadToDriveAsWritten(outcome: DriveOutcome): (r: Option<string>)
    ensures r.None? && r == UploadToDrive(DriveError)
  {
    None
  }

  const DeepLinkPrefix := "https://t.me/"
  const StartParameter := "?start="

  /** The channel message of post_to_channel: a deep link to the file-opener bot
      whose start parameter is the Base64 of the URL's UTF-8 bytes. */
  function ChannelMessage(botUsername: string, fileOpenerUrl: string): string {
    DeepLinkPrefix + botUsername + StartParameter + Base64.Encode(Utf8.Encode(fileOpenerUrl))
  }

  /** A message made of a fixed head and a payload splits back into the two. */
  lemma SplitHead(head: string, payload: string)
    ensures |head| <= |head + payload|
    ensures (head + payload)[..|head|] == head && (head + payload)[|head|..] == payload
  {
  }

  /** The start parameter has length 4 * ceil(n / 3) for n bytes, uses the Base64
      alphabet with "=" padding only at its end, and decodes back to the URL. */
  lemma ChannelMessagePayload(botUsername: string, fileOpenerUrl: string)
    ensures var m := ChannelMessage(botUsername, fileOpenerUrl);
      var n := |DeepLinkPrefix + botUsername + StartParameter|;
      var bytes := Utf8.Encode(fileOpenerUrl);
      n <= |m| && m[..n] == DeepLinkPrefix + botUsername + StartParameter
      && |m| - n == 4 * ((|bytes| + 2) / 3)
      && Base64.PaddedAlphabet(m[n..], Base64.Padding(|bytes|))
      && Base64.Decode(m[n..]) == Some(bytes)
      && Utf8.Decode(Base64.Decode(m[n..]).value) == Some(fileOpenerUrl)
  {
    var head := DeepLinkPrefix + botUsername + StartParameter;
    var bytes := Utf8.Encode(fileOpenerUrl);
    var payload := Base64.Encode(bytes);
    var m := ChannelMessage(botUsername, fileOpenerUrl);
    assert m == head + payload;
    SplitHead(head, payload);
    assert m[|head|..] == payload;
    Base64.EncodeLength(bytes);
    Base64.EncodeAlphabet(bytes);
    assert Base64.PaddedAlphabet(m[|head|..], Base64.Padding(|bytes|));
    Base64.DecodeEncode(bytes);
    Utf8.DecodeEncode(fileOpenerUrl);
  }

  /** post_to_channel: the message that reached the channel, if any. A target
      that is not a string fails at .encode(), a failed send is swallowed too;
      either way nothing is raised to the caller. */
  function PostToChannel(target: JsonValue, botUsername: string, delivered: bool): (sent: Option<string>)
    ensures sent.Some? <==> target.JString? && delivered
    ensures sent.Some? ==> sent.value == ChannelMessage(botUsername, target.s)
  {
    match target
    case JString(url) => if delivered then Some(ChannelMessage(botUsername, url)) else None
    case _ => None
  }

  /** post_to_channel as the file stands: `bot` is neither defined in
      handlers.py nor imported, so the send raises NameError, which the except
      clause swallows; no message ever reaches the channel. */
  function PostToChannelAsWritten(target: JsonValue, botUsername: string): (sent: Option<string>)
    ensures sent.None? && sent == PostToChannel(target, botUsername, false)
  {
    None
  }
}
