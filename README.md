# Payee bot: a verified model of its conversation, link builders and document search

Payee is a Telegram bot. A user uploads a document; the bot copies it to
Google Drive, replies with the share link and asks two yes/no questions:
whether to shorten the link (through the publicearn shortener) and whether to
post it to a channel, where it appears as a deep link to a file-opener bot
carrying the link in Base64. A second script searches Google and Bing for a
file name, takes the first result link that looks like a document and saves
it under `downloads`.

This project models three parts of that code in Dafny and proves properties
about them:

- **The upload-confirmation conversation** (`handlers.py`), in
  `conversation.dfy`. The three states `ASK_SHORTEN_CONFIRMATION`,
  `ASK_POST_CONFIRMATION` and `END` are modelled twice:
  - as a pure step function over a session (state plus `context.user_data`),
    with lemmas about single steps and whole runs;
  - as a class `ConversationHandler` whose methods update the state and
    `user_data` fields in place, mirroring the handler functions statement by
    statement. Each method is proved equal to the pure step, and the class
    keeps the session invariant.

  The results of the outside calls (document download, Drive upload,
  shortener HTTP exchange, channel send) are parameters. Every Telegram
  `reply_text` is taken to succeed; "## Left out" says what a failing reply
  would change. The replies, the shortener requests and the channel posts are
  recorded in order as effects.
- **The link and message builders they use** (`links.dfy`, `shortner.dfy`).
  These are:
  - the publicearn request URL and the interpretation of its answer;
  - the alternative shortener client of `shortner.py`;
  - the Drive share link;
  - the channel deep link.

  They rest on three encoders:
  - UTF-8 (RFC 3629), in `utf8.dfy`;
  - percent-encoding as `urllib.parse.quote` does it with `safe="/"`
    (section 2.1 of RFC 3986), in `percent.dfy`;
  - Base64 with the standard alphabet and padding (section 4 of RFC 4648),
    in `base64.dfy`.

  Each encoder has a strict decoder and a proved round trip.
- **Document search and save-path naming** (`search_download.py`), in
  `search.dfy` and `posixpath.dfy`. `search_and_download` is a method with
  both loops of the original and their `break`s. The two HTTP exchanges are
  function parameters. The method's contract states:
  - which search URLs are requested, in order;
  - which link is chosen;
  - that nothing is downloaded when no link is found;
  - the path the file is saved to.

  `os.path.splitext` and `os.path.join` are modelled with POSIX semantics.

Decoded JSON values (`json.dfy`) carry Python truthiness and `dict.get`. That
is needed because both shortener clients can hand back whatever value the
server put in the body. For the same reason `user_data` maps keys to JSON
values rather than to strings.

`handlers.py` has no state that asks for a file name, and its channel
message carries no name line. After "yes" at the post question it posts at
once, and the message is the deep link alone.

## Model

| member | source | states |
|---|---|---|
| Utf8.EncodeChar | handlers.py:138 | a character encodes to 1 to 4 bytes according to its code point; ASCII is a single byte equal to the code; the other bytes are continuation bytes 0x80..0xBF |
| Utf8.DecodeEncode | handlers.py:138 | strict UTF-8 decoding of `str.encode()` output gives back exactly the string |
| Utf8.EncodeAscii | handlers.py:17 | an ASCII string encodes byte for byte to its code values |
| PercentEncoding.DecodeQuoteBytes | handlers.py:17 | percent-decoding the quoted bytes gives back exactly those bytes |
| PercentEncoding.QuoteRoundTrip | handlers.py:17 | percent-decoding `quote(s)` gives the UTF-8 bytes of s, and those decode back to s |
| PercentEncoding.QuoteBytesAlphabet | handlers.py:17 | the quoted text holds only unreserved characters, "/" and "%", and every "%" is followed by two upper-case hex digits |
| PercentEncoding.QuoteExamples | handlers.py:17 | a space quotes to "%20" and "é" to "%C3%A9" |
| PercentEncoding.QuoteHasNoDelimiters | handlers.py:17-18 | the quoted text never contains "&", "#", "=", "?", space or "+", so it can stand as a query value |
| PercentEncoding.QuoteBytesLength | handlers.py:17 | the quoted length is one character per kept byte plus three per escaped byte |
| PercentEncoding.QuoteSafeIdentity | search_download.py:9-10 | a name made only of letters, digits, `_.-~` and "/" is left unchanged |
| Base64.CharValue | handlers.py:138 | it is defined exactly on the 64-letter alphabet and inverts the alphabet's numbering |
| Base64.DecodeEncode | handlers.py:138 | decoding `b64encode` output gives back exactly the bytes |
| Base64.EncodeLength | handlers.py:138 | the encoding of n bytes has length 4·⌈n/3⌉ |
| Base64.EncodeAlphabet | handlers.py:138 | the encoding holds alphabet characters, then `(3 - n mod 3) mod 3` "=" signs at the very end |
| Shortener.Request | shortner.py:10-14 | the POST goes to the fixed endpoint; the body is `{"longUrl": long_url}` unencoded; the header is `Bearer <key>` ("Bearer None" for an unset key) |
| Shortener.ShortenUrl | shortner.py:8-20 | the result is the server's `shortUrl` value when the status is exactly 200 and the body is a JSON object with that key; it is the long URL in every other case, and no case raises |
| Shortener.ResultIsInputOrServerValue | shortner.py:15-20 | the result is always the long URL or a value taken from the server's body |
| Shortener.EmptyShortUrlReturned | shortner.py:16 | an empty `shortUrl` is returned as it is |
| Shortener.OtherSuccessStatusFallsBack | shortner.py:15-18 | status 201 with a valid body still gives the long URL |
| HandlerLinks.ShortenerApiUrlCarriesUrl | handlers.py:16-18 | the request URL is the API prefix, the token and `&url=`, followed by text that percent-decodes to the long URL's UTF-8 bytes and holds no "&" or "#" |
| HandlerLinks.ShortenUrl | handlers.py:15-33 | `shortenedUrl` is returned exactly when the request and status succeed, `status` is "success" and the value is truthy; a JSON value that is not an object raises; every other case gives the long URL |
| HandlerLinks.DriveLinkRoundTrip | handlers.py:49-50 | the share link is non-empty, and the file id (or "None") is recovered from between the fixed prefix and suffix |
| HandlerLinks.UploadToDrive | handlers.py:35-56 | a link is returned exactly when Drive created the file, and the link carries its id; any failure gives None |
| HandlerLinks.UploadToDriveAsWritten | handlers.py:37-40 | with the undefined folder-id name, every upload gives None, the same as a Drive failure |
| HandlerLinks.ChannelMessagePayload | handlers.py:138-139 | the message is `https://t.me/<bot>?start=` followed by a payload of length 4·⌈n/3⌉ in the Base64 alphabet with end padding, which decodes to the URL's bytes and then to the URL |
| HandlerLinks.PostToChannel | handlers.py:136-143 | a message reaches the channel exactly when the target is a string and the send succeeds, and it is the deep link for that target; nothing is raised |
| HandlerLinks.PostToChannelAsWritten | handlers.py:140-143 | with the undefined `bot` name, nothing is ever sent |
| Conversation.Lower | handlers.py:96 | lower-casing keeps the length and lower-cases each ASCII letter in place |
| Conversation.IsYesExactly | handlers.py:96-98 | a reply counts as "yes" exactly when it is three characters y/Y, e/E, s/S |
| Conversation.IsNoExactly | handlers.py:108 | a reply counts as "no" exactly when it is two characters n/N, o/O |
| Conversation.DocumentStoresLinkOnlyOnUpload | handlers.py:61-93 | a document moves to the shorten question exactly when the upload succeeded, storing the share link under `drive_link`; otherwise the session stays at END unchanged |
| Conversation.ShortenYes | handlers.py:96-106 | "yes" makes one shortener request for the Drive link, stores the result under `short_link`, replies it, asks the post question and moves on; an escaping exception keeps the state |
| Conversation.ShortenNo | handlers.py:108-115 | "no" copies `drive_link` into `short_link` unchanged, makes no shortener request and moves to the post question |
| Conversation.OtherTextReprompts | handlers.py:117-134 | any other reply in either question state gives one re-prompt and changes neither the state nor `user_data` |
| Conversation.NearMissesReprompt | handlers.py:96-119 | " yes" and "yes." re-prompt |
| Conversation.PostYes | handlers.py:124-128 | "yes" posts `short_link` exactly once, replies success last (even when the send failed) and ends |
| Conversation.PostNo | handlers.py:129-131 | "no" ends without posting |
| Conversation.PostOnlyOnYes | handlers.py:121-134 | a step posts to the channel if and only if it answers "yes" to the post question |
| Conversation.ShortenerOnlyOnYes | handlers.py:95-119 | a step calls the shortener if and only if it answers "yes" to the shorten question |
| Conversation.StepCounts | handlers.py:121-134 | a step posts once exactly when it answers "yes" to the post question, and asks the shorten question once exactly when a document opens a conversation |
| Conversation.DocumentEstablishesInv | handlers.py:76-93 | the document handler returns END or the shorten state, and in the latter the stored Drive link is a non-empty string |
| Conversation.ShortenKeepsInv | handlers.py:95-119 | the shorten handler keeps the Drive link, and whenever it moves to the post question `short_link` is truthy |
| Conversation.StepMovesForward | handlers.py:146-153 | the state only stays or moves END → shorten → post → END |
| Conversation.StepPreservesInv | handlers.py:78-106 | in every question state the stored Drive link is a non-empty string, and in the post state `short_link` is truthy; every step keeps this |
| Conversation.RunPreservesInv | handlers.py:146-153 | the invariant holds after any sequence of updates |
| Conversation.StepFramesUserData | handlers.py:84-114 | a step writes no `user_data` key other than `drive_link` and `short_link` |
| Conversation.RunFramesUserData | handlers.py:146-153 | over any run the other `user_data` keys are untouched |
| Conversation.PostsNeedUploads | handlers.py:146-153 | in any run, channel posts plus an open conversation at the end never exceed accepted uploads plus one open at the start, so while the replies succeed there is no double posting |
| Conversation.AsWrittenNeverLeavesEnd | handlers.py:35-93 | with the upload as written, a user at END stays there for any run: nothing stored, no question asked, no post |
| Conversation.UploadShortenPostScenario | handlers.py:61-134 | upload, "yes", "Yes" ends at END with both links in `user_data` and exactly one channel post of the shortened link |
| Conversation.ConversationHandler.constructor | handlers.py:146-153 | a new handler is at END with empty `user_data` and satisfies the invariant |
| Conversation.ConversationHandler.HandleDocument | handlers.py:61-93 | the document handler updates `user_data`, logs replies and returns the state as the pure document reaction says |
| Conversation.ConversationHandler.ConfirmShorten | handlers.py:95-119 | the shorten handler's in-place updates, replies and returned state are those of the pure shorten reaction |
| Conversation.ConversationHandler.ConfirmPost | handlers.py:121-134 | the post handler's replies, post and returned state are those of the pure post reaction |
| Conversation.ConversationHandler.HandleUpdate | handlers.py:146-153 | routing by state and storing the returned state (kept on an exception) equals the pure step and keeps the invariant |
| PosixPath.RFind | search_download.py:48 | the result is -1 or the index of the last occurrence |
| PosixPath.SplitExt | search_download.py:48 | root + ext is the path; ext is empty or a dot followed by text with no dot or "/", and some non-dot character of the last segment precedes it; ext is empty only when the last segment has no dot preceded by a non-dot |
| PosixPath.JoinRelative | search_download.py:49 | joining a relative name to "downloads" puts one "/" between them |
| PosixPath.JoinAbsolute | search_download.py:49 | joining a name that starts with "/" discards the folder |
| SearchDownload.QueryCarriesName | search_download.py:9-10 | a query URL is the engine prefix followed by text that percent-decodes to the file name's UTF-8 bytes and holds no "&" or "#" |
| SearchDownload.SearchEnginesCarryName | search_download.py:8-12 | Google is tried first, then Bing, each query carrying the file name |
| SearchDownload.ContainsAt | search_download.py:34 | the substring test holds exactly when the text occurs at some position |
| SearchDownload.DocumentLinkExamples | search_download.py:34 | `.pdf` and `.xlsx` links pass; a relative `/url?q=` link, an empty href and a missing href fail |
| SearchDownload.FirstDocumentLink | search_download.py:32-36 | the selected position is the first accepted href; all earlier hrefs are rejected |
| SearchDownload.LinkFrom | search_download.py:21-42 | an engine yields a link exactly when its request and status succeed and some href passes the test; the link is the first such href |
| SearchDownload.SavePathPlacement | search_download.py:48-49 | a relative file name is saved as `downloads/<name><ext>`; a name starting with "/" escapes the folder; ext is empty or ".xyz" with no further dot or "/" |
| SearchDownload.SearchAndDownload | search_download.py:7-56 | engines are asked in order, and a later one only when every earlier one yielded nothing; NotFound exactly when no engine yields a link, with no download; otherwise the link comes from the last engine asked and passes the test, a failed download is reported, and a successful one is saved at `SavePath` |

## Left out

- app.py, bot.py, `bot (1).py`, vc__handler__python.py and post_command.py are not part of this model. They are configuration, webhook plumbing, or code that cannot run.
- Network and storage calls are outcome parameters: the document download, `files().create`, the shortener GET and POST, `bot.send_message`, the search and download GETs.
- The HTML parsing of BeautifulSoup is an input too: the page's anchors as optional href strings, in document order.
- The write of the downloaded file is not modelled. An OSError from `open`, for a missing `downloads` folder for instance, escapes `search_and_download` uncaught; the model stops at the path and content to write.
- Logging and `print` output are not modelled. That includes the exception texts in the error messages of `search_and_download`.
- Concurrency is not modelled. Each user's updates are taken one at a time, and a user's `user_data` is the only state.
- The model assumes one chat per user. The ConversationHandler of handlers.py:146-153 keeps a state per chat and user, but `user_data` is one dictionary per user. With conversations open in two chats, an upload in one overwrites the `drive_link` that a "yes" in the other then shortens and posts.
- Config: the values handlers.py imports from app.py are fixed parameters. `CHANNEL_ID` does not appear at all, since the send's outcome is a parameter.
- Json.JsonValue: only integral numbers are represented. Floating-point values in a JSON body are not modelled. A string holds Unicode scalar values only, so a lone surrogate such as `"\ud800"`, which Python's json accepts, cannot be represented. In `shortenedUrl` it would make `.encode()` at handlers.py:138 raise UnicodeEncodeError, which line 142 swallows, so nothing would be sent.
- Conversation.Lower: lower-cases ASCII letters only, not the full Unicode `str.lower()`. Other Unicode lower-casing produces ASCII letters in only two cases. The Kelvin sign lowers to "k", and U+0130 (capital I with dot above) lowers to "i" plus a combining dot. Neither "yes" nor "no" contains those letters.
- Conversation.ReplyWithLink: the replies that format a `user_data` value keep the JSON value itself, not Python's `str()` of it.
- HandlerLinks.ShortenUrl: the model assumes a body that does not parse raises requests' JSONDecodeError. That exception is a RequestException from requests 2.27 on, so it is caught.
- HandlerLinks.ChannelMessage: Telegram's limits on start parameters (length, and the characters "+", "/", "=") are not modelled.
- Conversation.PostsNeedUploads: every Telegram `reply_text` is assumed to succeed, so the bound holds only for runs in which no reply raises. In the source a reply can raise, for a network error or a timeout, and the exception escapes the handler, so the ConversationHandler keeps the state. The success reply at handlers.py:127 comes after `post_to_channel` at line 126. If it fails, the conversation stays at the post question and a second "yes" posts again.
- Conversation.DocumentStoresLinkOnlyOnUpload: assumes the replies succeed too. If the reply at handlers.py:79 or 82 fails after a successful upload, the except at lines 90-93 ends the conversation without storing `drive_link`. If the error reply at line 92 also fails, the exception escapes `handle_document`.
- Conversation.ShortenYes: assumes the replies succeed too. A failed reply at handlers.py:101 or 104 escapes before line 105 stores `short_link`, so the state stays at the shorten question, and the next "yes" calls the shortener again. After "no", a failed reply at line 110 or 113 likewise keeps the state without storing anything.
- The timing of the Telegram replies relative to the outside calls is not modelled beyond the order of the recorded effects.

## Findings

| source | as written | input that shows it | evidently intended | confidence | as-written member | corrected member |
|---|---|---|---|---|---|---|
| handlers.py:39 | `GOOGLE_DRIVE_FOLDER_ID` is neither defined in handlers.py nor imported from app.py, so `upload_to_drive` raises NameError. The handler at line 54 catches it and returns None for every upload. `Conversation.AsWrittenNeverLeavesEnd` shows a user then never gets past END. | any uploaded document | the folder id that app.py:21 reads is imported, and the upload reaches Drive | high; not executed | HandlerLinks.UploadToDriveAsWritten | HandlerLinks.UploadToDrive |
| handlers.py:140 | `bot` is neither defined in handlers.py nor imported, so `send_message` raises NameError. Line 142 swallows it, so nothing ever reaches the channel, while line 127 still replies that the post succeeded. | "yes" to the post question | the bot of app.py:44 sends the message | high; not executed | HandlerLinks.PostToChannelAsWritten | HandlerLinks.PostToChannel |
