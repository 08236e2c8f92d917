/** Video download and playback, shared by the user dashboard and the
    admin's video table: the file name taken from a `Content-Disposition`
    header, the object URLs the browser hands out for a downloaded blob,
    and the single-slot viewer that owns at most one of them. */
module Media {
  import opened Common

  datatype Video = Video(id: Id, title: string, description: string, category: string,
                         uploadedBy: string, uploadDate: string)

  /** The body of `GET /videos/download/:id`: the blob itself is opaque; only
      its `Content-Disposition` header is read. */
  datatype DownloadBody = DownloadBody(contentDisposition: Option<string>)

  /** The streamed-binary request behind both View and Download. */
  function DownloadRequest(video: Video): (r: Request)
    ensures r.verb == Get && r.body == NoBody
    ensures r.path == "/videos/download/" + IdText(video.id)
  {
    Request(Get, "/videos/download/" + IdText(video.id), NoBody)
  }

  /** Two download requests are equal only for videos with the same id. */
  lemma DownloadRequestNamesVideo(v: Video, w: Video)
    ensures DownloadRequest(v) == DownloadRequest(w) ==> v.id == w.id
  {
    if DownloadRequest(v) == DownloadRequest(w) {
      assert "/videos/download/" + IdText(v.id) + "" == "/videos/download/" + IdText(w.id) + "";
      IdInPathInjective("/videos/download/", "", v.id, w.id);
    }
  }

  // ---------------------------------------------------------------------
  // File name: `disposition.match(/filename="?(.+)"?/)`, with JavaScript's
  // `.` (any character but a line terminator) and leftmost-match search.
  // ---------------------------------------------------------------------

  const FilenameParam := "filename="
  const DefaultExtension := ".mp4"

  predicate IsLineTerminator(c: char)
  {
    c == '\n' || c == '\r' || c == '\U{2028}' || c == '\U{2029}'
  }

  predicate NoLineTerminator(s: string)
  {
    forall k :: 0 <= k < |s| ==> !IsLineTerminator(s[k])
  }

  /** The longest prefix of `s` that `.+` can run over. */
  function LinePrefix(s: string): (r: string)
    ensures |r| <= |s| && r == s[..|r|]
    ensures NoLineTerminator(r)
    ensures |r| < |s| ==> IsLineTerminator(s[|r|])
    decreases |s|
  {
    if s == [] || IsLineTerminator(s[0]) then [] else [s[0]] + LinePrefix(s[1..])
  }

  /** What `"?(.+)"?` captures when matched right after `filename=`: an
      optional opening quote is skipped only if at least one character
      follows it; the greedy `.+` then takes the rest of the line, so a
      closing quote stays in the capture. */
  function CaptureAt(rest: string): (r: Option<string>)
    ensures r.Some? ==> r.value != "" && NoLineTerminator(r.value)
    ensures r.None? <==> LinePrefix(rest) == []
    ensures r.Some? ==> LinePrefix(rest) == r.value || LinePrefix(rest) == "\"" + r.value
    ensures r.Some? ==>
              (LinePrefix(rest) == "\"" + r.value <==> |LinePrefix(rest)| >= 2 && rest[0] == '"')
  {
    var line := LinePrefix(rest);
    if |line| >= 2 && line[0] == '"' then Some(line[1..])
    else if |line| >= 1 then Some(line)
    else None
  }

  predicate ParamAt(h: string, i: nat)
  {
    i + |FilenameParam| <= |h| && h[i..i + |FilenameParam|] == FilenameParam
  }

  /** The pattern matches at position `i`: `filename=` starts there and
      at least one character of its line follows. */
  predicate MatchesAt(h: string, i: nat)
  {
    ParamAt(h, i) && CaptureAt(h[i + |FilenameParam|..]).Some?
  }

  /** The capture of the leftmost match that starts at position `i` or
      later; there is none exactly when the pattern matches nowhere from
      `i` on. */
  function MatchFrom(h: string, i: nat): (r: Option<string>)
    ensures r.Some? ==> r.value != "" && NoLineTerminator(r.value)
    ensures r.None? <==> forall j: nat :: i <= j ==> !MatchesAt(h, j)
    decreases |h| - i
  {
    if i + |FilenameParam| > |h| then None
    else if MatchesAt(h, i) then CaptureAt(h[i + |FilenameParam|..])
    else MatchFrom(h, i + 1)
  }

  /** The search returns the capture at the first position where the
      pattern matches. */
  lemma {:induction false} LeftmostMatch(h: string, from: nat, i: nat)
    requires from <= i && MatchesAt(h, i)
    requires forall j: nat :: from <= j < i ==> !MatchesAt(h, j)
    ensures MatchFrom(h, from) == CaptureAt(h[i + |FilenameParam|..])
    decreases i - from
  {
    if from < i {
      LeftmostMatch(h, from + 1, i);
    }
  }

  /** `s.includes(t)`, searching from position `i`. */
  predicate IncludesFrom(s: string, t: string, i: nat)
    decreases |s| - i
  {
    i + |t| <= |s| && (s[i..i + |t|] == t || IncludesFrom(s, t, i + 1))
  }

  predicate Includes(s: string, t: string)
  {
    IncludesFrom(s, t, 0)
  }

  /** An occurrence at `j` is found by a search starting at or before `j`. */
  lemma {:induction false} OccurrenceIsIncluded(s: string, t: string, i: nat, j: nat)
    requires i <= j && j + |t| <= |s| && s[j..j + |t|] == t
    ensures IncludesFrom(s, t, i)
    decreases j - i
  {
    if i < j {
      OccurrenceIsIncluded(s, t, i + 1, j);
    }
  }

  /** The name the download is saved under: the capture when the header is
      present and matches, else `<title>.mp4`. */
  function DownloadName(title: string, disposition: Option<string>): (name: string)
    ensures name != ""
    ensures disposition.None? || !Includes(disposition.value, FilenameParam) ==>
              name == title + DefaultExtension
    ensures disposition.Some? && (forall j: nat :: !MatchesAt(disposition.value, j)) ==>
              name == title + DefaultExtension
  {
    var fallback := title + DefaultExtension;
    if disposition.Some? && disposition.value != "" && Includes(disposition.value, FilenameParam) then
      match MatchFrom(disposition.value, 0)
      case Some(n) => n
      case None => fallback
    else fallback
  }

  /** A match starting at `i` or later implies the header includes
      `filename=` from `i` on. */
  lemma {:induction false} MatchImpliesIncludes(h: string, i: nat)
    ensures MatchFrom(h, i).Some? ==> IncludesFrom(h, FilenameParam, i)
    decreases |h| - i
  {
    if i + |FilenameParam| <= |h| && !ParamAt(h, i) {
      MatchImpliesIncludes(h, i + 1);
    }
  }

  /** The `includes('filename=')` test never changes the outcome: the name
      is the leftmost capture, or the default when nothing matches. */
  lemma IncludesCheckRedundant(title: string, h: string)
    ensures DownloadName(title, Some(h)) ==
              match MatchFrom(h, 0) case Some(n) => n case None => title + DefaultExtension
  {
    MatchImpliesIncludes(h, 0);
  }

  /** The file is saved under the capture at the first position where the
      pattern matches, whatever comes before or after it. */
  lemma DownloadNameIsLeftmostCapture(title: string, h: string, i: nat)
    requires MatchesAt(h, i)
    requires forall j: nat :: j < i ==> !MatchesAt(h, j)
    ensures DownloadName(title, Some(h)) == CaptureAt(h[i + |FilenameParam|..]).value
  {
    LeftmostMatch(h, 0, i);
    IncludesCheckRedundant(title, h);
  }

  /** The line `.` can run over ends where the text does, or at the first
      line terminator. */
  lemma LinePrefixOfLine(s: string, tail: string)
    requires NoLineTerminator(s)
    requires tail == [] || IsLineTerminator(tail[0])
    ensures LinePrefix(s + tail) == s
  {
    if s != [] {
      assert (s + tail)[1..] == s[1..] + tail;
    }
  }

  /** `filename=` cannot begin before an occurrence at `p` and overlap it:
      its last character would be the `=` of the first and an earlier
      letter of the second. */
  lemma NoStraddlingParam(h: string, p: nat, j: nat)
    requires p + |FilenameParam| <= |h| && h[p..p + |FilenameParam|] == FilenameParam
    requires j < p < j + |FilenameParam|
    ensures !ParamAt(h, j)
  {
    var k := j + |FilenameParam| - 1;
    assert h[k] == h[p..p + |FilenameParam|][k - p] == FilenameParam[k - p];
    assert k - p < |FilenameParam| - 1;
    assert FilenameParam[k - p] != '=';
    assert h[j..j + |FilenameParam|][|FilenameParam| - 1] == h[k];
  }

  /** When `prefix` does not itself contain `filename=`, the first
      occurrence in `prefix + "filename=" + rest` is the one after `prefix`:
      none lies inside `prefix`, and none can straddle its end, because
      `=` occurs in `filename=` only as the last character. */
  lemma FirstParamAfter(prefix: string, rest: string)
    requires !Includes(prefix, FilenameParam)
    ensures forall j: nat :: j < |prefix| ==> !ParamAt(prefix + FilenameParam + rest, j)
  {
    var h := prefix + FilenameParam + rest;
    forall j: nat | j < |prefix|
      ensures !ParamAt(h, j)
    {
      if j + |FilenameParam| <= |prefix| {
        if ParamAt(h, j) {
          assert prefix[j..j + |FilenameParam|] == h[j..j + |FilenameParam|];
          OccurrenceIsIncluded(prefix, FilenameParam, 0, j);
          assert false;
        }
      } else {
        assert h[|prefix|..|prefix| + |FilenameParam|] == FilenameParam;
        NoStraddlingParam(h, |prefix|, j);
      }
    }
  }

  /** After a prefix that does not contain `filename=`, the match is the
      capture right after the `filename=` that follows it. */
  lemma MatchAfterPrefix(prefix: string, rest: string)
    requires !Includes(prefix, FilenameParam)
    requires LinePrefix(rest) != []
    ensures MatchFrom(prefix + FilenameParam + rest, 0) == CaptureAt(rest)
  {
    var h := prefix + FilenameParam + rest;
    FirstParamAfter(prefix, rest);
    assert h[|prefix|..|prefix| + |FilenameParam|] == FilenameParam;
    assert h[|prefix| + |FilenameParam|..] == rest;
    LeftmostMatch(h, 0, |prefix|);
  }

  /** An unquoted `filename=<name>` round-trips: the saved name is `name`,
      whether the header ends after it or a new line begins. */
  lemma UnquotedNameRoundTrip(title: string, prefix: string, name: string, tail: string)
    requires !Includes(prefix, FilenameParam)
    requires name != "" && name[0] != '"' && NoLineTerminator(name)
    requires tail == [] || IsLineTerminator(tail[0])
    ensures DownloadName(title, Some(prefix + FilenameParam + name + tail)) == name
  {
    LinePrefixOfLine(name, tail);
    MatchAfterPrefix(prefix, name + tail);
    assert prefix + FilenameParam + name + tail == prefix + FilenameParam + (name + tail);
    IncludesCheckRedundant(title, prefix + FilenameParam + (name + tail));
  }

  /** After an opening quote, the capture is the rest of the line. */
  lemma QuotedCapture(name: string, tail: string)
    requires name != "" && NoLineTerminator(name)
    requires tail == [] || IsLineTerminator(tail[0])
    ensures CaptureAt("\"" + name + tail) == Some(name)
  {
    var line := "\"" + name;
    assert NoLineTerminator(line) by {
      forall k | 0 < k < |line|
        ensures !IsLineTerminator(line[k])
      {
        assert line[k] == name[k - 1];
      }
    }
    LinePrefixOfLine(line, tail);
    assert line[1..] == name;
  }

  /** A quoted `filename="<rest of line>` loses exactly its opening quote:
      everything after it up to the end of the line is the saved name, so
      a closing quote and any parameters after it stay in the name. */
  lemma QuotedNameRoundTrip(title: string, prefix: string, name: string, tail: string)
    requires !Includes(prefix, FilenameParam)
    requires name != "" && NoLineTerminator(name)
    requires tail == [] || IsLineTerminator(tail[0])
    ensures DownloadName(title, Some(prefix + FilenameParam + "\"" + name + tail)) == name
  {
    var rest := "\"" + name + tail;
    var h := prefix + FilenameParam + rest;
    assert h == prefix + FilenameParam + "\"" + name + tail;
    QuotedCapture(name, tail);
    MatchAfterPrefix(prefix, rest);
    assert MatchFrom(h, 0) == Some(name);
    IncludesCheckRedundant(title, h);
  }

  const AttachmentPrefix := "attachment; "

  lemma AttachmentPrefixLacksParam()
    ensures !Includes(AttachmentPrefix, FilenameParam)
  {
    var p := AttachmentPrefix;
    assert p[0..9][0] == 'a';
    assert p[1..10][0] == 't';
    assert p[2..11][0] == 't';
    assert p[3..12][0] == 'a';
  }

  /** A header whose quoted name is followed by another parameter. */
  const SampleHeader := "attachment; filename=\"v.mp4\"; size=1"
  const SampleTail := "v.mp4\"; size=1"

  lemma SampleHeaderShape()
    ensures SampleHeader == AttachmentPrefix + FilenameParam + "\"" + SampleTail + []
    ensures SampleTail != "" && NoLineTerminator(SampleTail)
  {
  }

  /** Parameters after a quoted name stay in it: the header
      `attachment; filename="v.mp4"; size=1` saves `v.mp4"; size=1`. */
  lemma TrailingParametersStayInName(title: string)
    ensures DownloadName(title, Some(SampleHeader)) == "v.mp4\"; size=1"
  {
    AttachmentPrefixLacksParam();
    SampleHeaderShape();
    QuotedNameRoundTrip(title, AttachmentPrefix, SampleTail, []);
  }

  /** A quoted `filename="<name>"` loses its opening quote but keeps the
      closing one: the greedy `.+` runs to the end of the line before the
      optional `"?` is tried. */
  lemma QuotedNameKeepsClosingQuote(title: string, prefix: string, name: string)
    requires !Includes(prefix, FilenameParam)
    requires NoLineTerminator(name)
    ensures DownloadName(title, Some(prefix + FilenameParam + "\"" + name + "\"")) == name + "\""
  {
    QuotedNameRoundTrip(title, prefix, name + "\"", []);
    assert prefix + FilenameParam + "\"" + (name + "\"") + [] ==
           prefix + FilenameParam + "\"" + name + "\"";
  }

  // ---------------------------------------------------------------------
  // Object URLs
  // ---------------------------------------------------------------------

  /** An object URL, as a fresh number. */
  type Url = nat

  datatype UrlEvent = Created(url: Url) | Revoked(url: Url)

  function RevokeOf(u: Option<Url>): seq<UrlEvent>
  {
    if u.Some? then [Revoked(u.value)] else []
  }

  /** The object URLs one component has created (`URL.createObjectURL`)
      and not yet released (`URL.revokeObjectURL`). `log` records every
      creation and revocation in order. */
  class ObjectUrls {
    var live: set<Url>
    var next: Url
    ghost var log: seq<UrlEvent>

    ghost predicate Valid()
      reads this
    {
      && (forall u :: u in live ==> u < next)
      && (forall k :: 0 <= k < |log| && log[k].Created? ==> log[k].url < next)
    }

    constructor ()
      ensures Valid() && live == {} && log == []
    {
      live, next, log := {}, 0, [];
    }

    /** A URL never handed out before becomes live. */
    method Create() returns (u: Url)
      requires Valid()
      modifies this
      ensures Valid()
      ensures u !in old(live) && forall k :: 0 <= k < |old(log)| && old(log)[k].Created? ==> old(log)[k].url != u
      ensures live == old(live) + {u} && log == old(log) + [Created(u)]
    {
      u := next;
      next := next + 1;
      live := live + {u};
      log := log + [Created(u)];
    }

    method Revoke(u: Url)
      requires Valid()
      modifies this
      ensures Valid()
      ensures live == old(live) - {u} && log == old(log) + [Revoked(u)] && next == old(next)
    {
      live := live - {u};
      log := log + [Revoked(u)];
    }
  }

  /** `handleDownload`: on success the file is saved under DownloadName
      and its object URL is created and revoked within the call, so the
      set of live URLs is what it was; on failure nothing is created. */
  method Download(urls: ObjectUrls, video: Video, resp: Response<DownloadBody>)
    returns (req: Request, savedAs: Option<string>)
    requires urls.Valid()
    modifies urls
    ensures urls.Valid() && urls.live == old(urls.live)
    ensures req == DownloadRequest(video)
    ensures resp.Failure? ==> savedAs.None? && unchanged(urls)
    ensures resp.Success? ==> savedAs == Some(DownloadName(video.title, resp.data.contentDisposition))
    ensures resp.Success? ==>
              |urls.log| == |old(urls.log)| + 2 &&
              urls.log == old(urls.log) + [Created(urls.log[|old(urls.log)|].url), Revoked(urls.log[|old(urls.log)|].url)]
  {
    req := DownloadRequest(video);
    match resp
    case Failure(_) =>
      savedAs := None;
    case Success(body) =>
      var filename := DownloadName(video.title, body.contentDisposition);
      var url := urls.Create();
      savedAs := Some(filename);
      urls.Revoke(url);
  }

  /** The video viewer's state: the blob URL being played and its title.
      At most one URL is live, and it is the one being played. */
  class VideoViewer {
    var url: Option<Url>
    var title: Option<string>
    const urls: ObjectUrls

    ghost predicate Valid()
      reads this, urls
    {
      && urls.Valid()
      && (url.Some? <==> title.Some?)
      && urls.live == (if url.Some? then {url.value} else {})
    }

    constructor ()
      ensures Valid() && fresh(urls)
      ensures url.None? && title.None? && urls.log == []
    {
      url, title := None, None;
      urls := new ObjectUrls();
    }

    /** `handleView`: any URL being played is revoked before the request;
        on success a fresh URL and the title are set together, on failure
        the viewer stays empty. */
    method View(video: Video, resp: Response<DownloadBody>) returns (req: Request)
      requires Valid()
      modifies this, urls
      ensures Valid()
      ensures req == DownloadRequest(video)
      ensures resp.Success? ==> url.Some? && title == Some(video.title)
      ensures resp.Success? ==> forall k :: 0 <= k < |old(urls.log)| && old(urls.log)[k].Created? ==> old(urls.log)[k].url != url.value
      ensures resp.Failure? ==> url.None? && title.None?
      ensures urls.log == old(urls.log) + RevokeOf(old(url)) + (if resp.Success? then [Created(url.value)] else [])
    {
      if url.Some? {
        urls.Revoke(url.value);
        url, title := None, None;
      }
      req := DownloadRequest(video);
      if resp.Success? {
        ghost var before := urls.log;
        assert before[..|old(urls.log)|] == old(urls.log);
        var blobUrl := urls.Create();
        url, title := Some(blobUrl), Some(video.title);
      }
    }

    /** `closeViewer`: the URL is revoked and both URL and title are
        cleared; with no viewer open nothing happens. */
    method Close()
      requires Valid()
      modifies this, urls
      ensures Valid()
      ensures url.None? && title.None? && urls.live == {}
      ensures urls.log == old(urls.log) + RevokeOf(old(url))
      ensures old(url).None? ==> unchanged(this, urls)
    {
      if url.Some? {
        urls.Revoke(url.value);
        url, title := None, None;
      }
    }
  }

  /** A valid viewer never holds more than one live URL. */
  lemma AtMostOneLiveUrl(viewer: VideoViewer)
    requires viewer.Valid()
    ensures |viewer.urls.live| <= 1
    ensures viewer.url.None? ==> viewer.urls.live == {}
  {
  }
}
