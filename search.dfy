/** search_download.py: query a list of search engines for a file name, take the
    first result link that looks like a document, download it and save it under
    "downloads". Each HTTP exchange is a parameter: the answer a search engine
    gives to a URL and the answer the download gives to a URL. */
module SearchDownload {
  import opened Wrappers
  import opened Json
  import opened Utf8
  import PercentEncoding
  import PosixPath

  datatype Engine = Engine(name: string, url: string)

  const GoogleSearch := "https://www.google.com/search?q="
  const BingSearch := "https://www.bing.com/search?q="
  const DownloadDir := "downloads"

  /** The engines in the order they are tried, the file name percent-encoded
      into each query. */
  function SearchEngines(fileName: string): seq<Engine> {
    [ Engine("Google", GoogleSearch + PercentEncoding.Quote(fileName)),
      Engine("Bing", BingSearch + PercentEncoding.Quote(fileName)) ]
  }

  /** A query URL carries the file name losslessly: after the engine's prefix comes
      text that percent-decodes to the name's UTF-8 bytes and holds no "&" or "#". */
  predicate CarriesQuery(url: string, prefix: string, fileName: string) {
    && |prefix| <= |url| && url[..|prefix|] == prefix
    && PercentEncoding.PercentDecode(url[|prefix|..]) == Some(Encode(fileName))
    && forall i :: |prefix| <= i < |url| ==> url[i] != '&' && url[i] != '#'
  }

  lemma QueryCarriesName(prefix: string, fileName: string)
    ensures CarriesQuery(prefix + PercentEncoding.Quote(fileName), prefix, fileName)
  {
    var q := PercentEncoding.Quote(fileName);
    var u := prefix + q;
    assert u[..|prefix|] == prefix && u[|prefix|..] == q;
    PercentEncoding.QuoteRoundTrip(fileName);
    PercentEncoding.QuoteHasNoDelimiters(fileName);
    forall i | |prefix| <= i < |u| ensures u[i] != '&' && u[i] != '#' {
      assert u[i] == q[i - |prefix|];
    }
  }

  /** Google first, then Bing, each query carrying the file name. */
  lemma SearchEnginesCarryName(fileName: string)
    ensures var es := SearchEngines(fileName);
      && |es| == 2 && es[0].name == "Google" && es[1].name == "Bing"
      && CarriesQuery(es[0].url, GoogleSearch, fileName)
      && CarriesQuery(es[1].url, BingSearch, fileName)
  {
    QueryCarriesName(GoogleSearch, fileName);
    QueryCarriesName(BingSearch, fileName);
  }

  /** str.startswith. */
  predicate StartsWith(s: string, prefix: string) {
    |prefix| <= |s| && s[..|prefix|] == prefix
  }

  /** The substring test `sub in s`. */
  predicate Contains(s: string, sub: string)
    decreases |s|
  {
    StartsWith(s, sub) || (s != [] && Contains(s[1..], sub))
  }

  /** sub occurs in s starting at position i. */
  predicate OccursAt(s: string, sub: string, i: int) {
    0 <= i && i + |sub| <= |s| && s[i..i + |sub|] == sub
  }

  /** `sub in s` holds exactly when sub occurs at some position of s. */
  lemma {:induction false} ContainsAt(s: string, sub: string)
    ensures Contains(s, sub) <==> exists i :: OccursAt(s, sub, i)
    decreases |s|
  {
    if StartsWith(s, sub) {
      assert OccursAt(s, sub, 0);
    } else if s == [] {
      assert forall i :: !OccursAt(s, sub, i);
    } else {
      ContainsAt(s[1..], sub);
      if Contains(s[1..], sub) {
        var i :| OccursAt(s[1..], sub, i);
        assert s[i + 1..i + 1 + |sub|] == s[1..][i..i + |sub|];
        assert OccursAt(s, sub, i + 1);
      }
      if exists i :: OccursAt(s, sub, i) {
        var i :| OccursAt(s, sub, i);
        assert i > 0;
        assert s[1..][i - 1..i - 1 + |sub|] == s[i..i + |sub|];
        assert OccursAt(s[1..], sub, i - 1);
      }
    }
  }

  /** The test a result link must pass: present and non-empty, starting with
      "http", and containing ".pdf", ".doc" or ".xls" anywhere. */
  predicate IsDocumentLink(href: Option<string>) {
    && href.Some? && href.value != "" && StartsWith(href.value, "http")
    && (Contains(href.value, ".pdf") || Contains(href.value, ".doc") || Contains(href.value, ".xls"))
  }

  /** The test in action: an absolute link to a PDF passes, and so does a
      ".xlsx" link, since ".xls" is a substring; a result in the relative
      "/url?q=" form fails the "http" prefix test whatever it points to. */
  lemma DocumentLinkExamples()
    ensures IsDocumentLink(Some("https://example.org/a.pdf"))
    ensures IsDocumentLink(Some("http://example.org/b.xlsx"))
    ensures !IsDocumentLink(Some("/url?q=https://example.org/a.pdf"))
    ensures !IsDocumentLink(Some("")) && !IsDocumentLink(None)
  {
    var pdf, xlsx := "https://example.org/a.pdf", "http://example.org/b.xlsx";
    assert OccursAt(pdf, ".pdf", 21);
    ContainsAt(pdf, ".pdf");
    assert OccursAt(xlsx, ".xls", 20);
    ContainsAt(xlsx, ".xls");
    var relative := "/url?q=https://example.org/a.pdf";
    assert relative[..4] != "http" by { assert relative[0] == '/'; }
  }

  /** The position of the first anchor whose href passes the test, or the
      number of anchors when none does. */
  function FirstDocumentLink(hrefs: seq<Option<string>>): (k: nat)
    ensures k <= |hrefs|
    ensures forall j :: 0 <= j < k ==> !IsDocumentLink(hrefs[j])
    ensures k < |hrefs| ==> IsDocumentLink(hrefs[k])
  {
    if hrefs == [] then 0
    else if IsDocumentLink(hrefs[0]) then 0
    else 1 + FirstDocumentLink(hrefs[1..])
  }

  /** What one search request did: raised a RequestException before any status
      was seen, or answered with a status and the href attributes of the page's
      anchors in document order (None for an anchor without one). */
  datatype SearchResponse = SearchFailed | SearchAnswered(status: int, hrefs: seq<Option<string>>)

  /** The download link one search yields: none when the request raised, the
      status made raise_for_status raise, or no anchor passes the test. */
  function LinkFrom(response: SearchResponse): (link: Option<string>)
    ensures link.Some? <==>
      response.SearchAnswered? && !RaisesForStatus(response.status)
      && exists k :: 0 <= k < |response.hrefs| && IsDocumentLink(response.hrefs[k])
    ensures link.Some? ==>
      && IsDocumentLink(link)
      && exists k :: 0 <= k < |response.hrefs| && response.hrefs[k] == link
           && forall j :: 0 <= j < k ==> !IsDocumentLink(response.hrefs[j])
  {
    match response
    case SearchFailed => None
    case SearchAnswered(status, hrefs) =>
      if RaisesForStatus(status) then None
      else
        var k := FirstDocumentLink(hrefs);
        if k < |hrefs| then hrefs[k] else None
  }

  /** Where the file is written: the file name plus the link's extension
      (os.path.splitext, so a query string after the dot stays in it), joined
      to "downloads" by os.path.join. */
  function SavePath(fileName: string, url: string): string {
    PosixPath.Join(DownloadDir, fileName + PosixPath.SplitExt(url).1)
  }

  /** A relative file name lands inside "downloads"; a name starting with "/"
      makes os.path.join discard the folder, so the file is written at that
      absolute path instead. The suffix is empty or a dot and dot-free text. */
  lemma SavePathPlacement(fileName: string, url: string)
    ensures var ext := PosixPath.SplitExt(url).1;
      && (fileName == "" || fileName[0] != '/' ==> SavePath(fileName, url) == DownloadDir + "/" + fileName + ext)
      && (fileName != "" && fileName[0] == '/' ==> SavePath(fileName, url) == fileName + ext)
      && (ext == "" || (ext[0] == '.' && forall k :: 0 < k < |ext| ==> ext[k] != '.' && ext[k] != '/'))
  {
    var ext := PosixPath.SplitExt(url).1;
    if fileName == "" || fileName[0] != '/' {
      if fileName == "" {
        assert ext == "" || ext[0] == '.';
      } else {
        assert (fileName + ext)[0] == fileName[0];
      }
      PosixPath.JoinRelative(DownloadDir, fileName + ext);
    } else {
      assert (fileName + ext)[0] == '/';
      PosixPath.JoinAbsolute(DownloadDir, fileName + ext);
    }
  }

  /** What the download request did: raised a RequestException, or answered with
      some body. The status is not checked: an error page is saved as the file. */
  datatype DownloadResponse = DownloadFailed | Downloaded(content: seq<byte>)

  /** How search_and_download ended: nothing found, the download raised, or the
      content was written to the path. */
  datatype SearchOutcome =
    | NotFound
    | DownloadError(url: string)
    | Saved(url: string, path: string, content: seq<byte>)

  /** search_and_download. It also returns the search URLs it requested, in order. */
  method SearchAndDownload(fileName: string, search: string -> SearchResponse, download: string -> DownloadResponse)
    returns (outcome: SearchOutcome, searched: seq<string>)
    ensures var engines := SearchEngines(fileName);
      && 1 <= |searched| <= |engines|
      && (forall j :: 0 <= j < |searched| ==> searched[j] == engines[j].url)
      // a later engine is asked only when every earlier one yielded nothing
      && (forall j :: 0 <= j < |searched| - 1 ==> LinkFrom(search(searched[j])).None?)
      && (outcome.NotFound? <==> forall i :: 0 <= i < |engines| ==> LinkFrom(search(engines[i].url)).None?)
      && (outcome.NotFound? ==> |searched| == |engines|)
      // otherwise the link comes from the last engine asked and passes the test
      && (!outcome.NotFound? ==> LinkFrom(search(searched[|searched| - 1])) == Some(outcome.url)
                                  && IsDocumentLink(Some(outcome.url)))
      && (outcome.DownloadError? ==> download(outcome.url) == DownloadFailed)
      && (outcome.Saved? ==> download(outcome.url) == Downloaded(outcome.content)
                             && outcome.path == SavePath(fileName, outcome.url))
  {
    var engines := SearchEngines(fileName);
    var downloadUrl: Option<string> := None;
    searched := [];
    var i := 0;
    while i < |engines|
      invariant 0 <= i <= |engines|
      invariant downloadUrl.None?
      invariant |searched| == i
      invariant forall j :: 0 <= j < i ==> searched[j] == engines[j].url
      invariant forall j :: 0 <= j < i ==> LinkFrom(search(engines[j].url)).None?
    {
      var engine := engines[i];
      searched := searched + [engine.url];
      var response := search(engine.url);
      match response {
        case SearchFailed =>
        case SearchAnswered(status, hrefs) =>
          if !RaisesForStatus(status) {
            var k := 0;
            while k < |hrefs|
              invariant 0 <= k <= |hrefs|
              invariant downloadUrl.None?
              invariant forall j :: 0 <= j < k ==> !IsDocumentLink(hrefs[j])
            {
              var href := hrefs[k];
              if href.Some? && href.value != "" && StartsWith(href.value, "http")
                 && (Contains(href.value, ".pdf") || Contains(href.value, ".doc") || Contains(href.value, ".xls"))
              {
                downloadUrl := href;
                break;
              }
              k := k + 1;
            }
          }
      }
      if downloadUrl.Some? {
        break;
      }
      i := i + 1;
    }
    if downloadUrl.None? {
      outcome := NotFound;
      return;
    }
    var url := downloadUrl.value;
    match download(url) {
      case DownloadFailed =>
        outcome := DownloadError(url);
      case Downloaded(content) =>
        var extension := PosixPath.SplitExt(url).1;
        var path := PosixPath.Join(DownloadDir, fileName + extension);
        outcome := Saved(url, path, content);
    }
  }
}
