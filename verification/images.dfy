/** Image acquisition for the evidence grid: the rewrite of Google Drive
    "view" links to their direct-download form, the rule that decides whether
    a fetched response is a usable image, and the per-build cache keyed by
    record id that is consulted before any fetch and that keeps successes only.
    The network is an oracle `fetch` from the requested URL to its response. */
module Images {
  import opened Common
  import opened Text

  const DriveHost := "drive." + "google.com"
  const FileMarker := "/file/d/"
  /** The direct-download form of a Drive link, before the file id. */
  const DirectPrefix := "https://" + DriveHost + "/uc?export=" + "download&id="
  /** The usual Drive share link, before the file id. */
  const ShareLinkPrefix := "https://" + DriveHost + FileMarker

  /** The Drive file id of a link holding FileMarker: the text after its first
      occurrence up to the next '/' (`url.split("/file/d/")[1].split("/")[0]`). */
  function FileId(url: string): Option<string>
  {
    match SecondPiece(url, FileMarker)
    case None => None
    case Some(piece) => Some(FirstPiece(piece, "/"))
  }

  /** The URL actually requested for a record's image link (report.py:285-290):
      a Drive link with a file id becomes the direct-download link of that id; a
      Drive link without one, and every other link, is requested unchanged. */
  function DriveDirect(url: string): string
  {
    if !Contains(url, DriveHost) then url
    else match FileId(url)
      case None => url
      case Some(fid) => DirectPrefix + fid
  }

  /** The file id is the text right after the first "/file/d/" up to the next '/'
      or the end of the link; it holds no '/'. */
  lemma FileIdShape(url: string)
    requires Contains(url, FileMarker)
    ensures var i := IndexFrom(url, FileMarker, 0).value; var fid := FileId(url).value;
      && '/' !in fid
      && i + 8 + |fid| <= |url|
      && url[i + 8..i + 8 + |fid|] == fid
      && (i + 8 + |fid| == |url| || url[i + 8 + |fid|] == '/')
  {
    var i := IndexFrom(url, FileMarker, 0).value;
    var piece := SecondPiece(url, FileMarker).value;
    PieceUpToSlash(url, i + 8, piece);
  }

  /** The first '/'-piece of a piece of url that runs to the end or to a "/file/d/". */
  lemma PieceUpToSlash(url: string, start: nat, piece: string)
    requires start + |piece| <= |url| && piece == url[start..start + |piece|]
    requires start + |piece| == |url| || OccursAt(url, FileMarker, start + |piece|)
    ensures var fid := FirstPiece(piece, "/");
      && '/' !in fid
      && start + |fid| <= |url|
      && url[start..start + |fid|] == fid
      && (start + |fid| == |url| || url[start + |fid|] == '/')
  {
    var e := start + |piece|;
    var fid := FirstPiece(piece, "/");
    FirstPieceAtChar(piece, '/');
    assert url[start..start + |fid|] == fid;
    if |fid| < |piece| {
      assert url[start + |fid|] == piece[|fid|];
    } else if e < |url| {
      // The piece stops where "/file/d/" occurs again, which starts with '/'.
      assert url[e..e + 8][0] == url[e];
    }
  }

  /** A link without "drive.google.com", or a Drive link without "/file/d/", is requested unchanged. */
  lemma DriveDirectUnchanged(url: string)
    requires !Contains(url, DriveHost) || !Contains(url, FileMarker)
    ensures DriveDirect(url) == url
  {
  }

  /** A Drive link with "/file/d/<fid>" is requested as the direct-download link of fid. */
  lemma DriveDirectRewrites(url: string)
    requires Contains(url, DriveHost) && Contains(url, FileMarker)
    ensures DriveDirect(url) == DirectPrefix + FileId(url).value
  {
  }

  lemma NoLetterF()
    ensures 'f' !in "https://" && 'f' !in DriveHost && 'f' !in "/uc?export=download&id="
    ensures 'f' !in DirectPrefix
  {
  }

  /** An occurrence of "/file/d/" has 'f' right after its start and '/' at its end. */
  lemma MarkerChars(s: string, k: nat)
    requires OccursAt(s, FileMarker, k)
    ensures s[k + 1] == 'f' && s[k + 7] == '/'
  {
    assert s[k..k + 8][1] == s[k + 1];
    assert s[k..k + 8][7] == s[k + 7];
  }

  /** In a share link the host is present and the first "/file/d/" starts at index 24. */
  lemma ShareLinkMarker(rest: string)
    ensures var url := ShareLinkPrefix + rest;
      Contains(url, DriveHost) && IndexFrom(url, FileMarker, 0) == Some(24)
  {
    var url := ShareLinkPrefix + rest;
    NoLetterF();
    assert url[8..24] == DriveHost;
    assert OccursAt(url, DriveHost, 8);
    assert url[24..32] == FileMarker;
    assert OccursAt(url, FileMarker, 24);
    assert url[..25] == "https://" + DriveHost + "/";
    forall k: nat | k < 24
      ensures !OccursAt(url, FileMarker, k)
    {
      if OccursAt(url, FileMarker, k) {
        MarkerChars(url, k);
        assert false;
      }
    }
  }

  /** Every share link of a file id, with or without a trailing "/view..." part, is
      requested as that id's direct-download link. */
  lemma ShareLinkRoundTrip(fid: string, tail: string)
    requires '/' !in fid
    requires tail == [] || tail[0] == '/'
    ensures DriveDirect(ShareLinkPrefix + fid + tail) == DirectPrefix + fid
  {
    var w := fid + tail;
    var url := ShareLinkPrefix + w;
    assert ShareLinkPrefix + fid + tail == url;
    ShareLinkMarker(w);
    assert FileId(url) == Some(fid) by {
      FileIdShape(url);
      var f := FileId(url).value;
      assert url[32..32 + |f|] == w[..|f|];
      UpToSlash(w, f, fid, tail);
    }
  }

  /** The text before the first '/' of fid + tail, when fid has none and tail is empty or starts with one, is fid. */
  lemma UpToSlash(w: string, f: string, fid: string, tail: string)
    requires w == fid + tail && '/' !in fid && (tail == [] || tail[0] == '/')
    requires |f| <= |w| && f == w[..|f|] && '/' !in f && (|f| == |w| || w[|f|] == '/')
    ensures f == fid
  {
    assert f == w[..|fid|];
  }

  /** A direct-download link is requested as it is: the rewrite is idempotent. */
  lemma DriveDirectIdempotent(fid: string)
    requires '/' !in fid
    ensures DriveDirect(DirectPrefix + fid) == DirectPrefix + fid
  {
    var url := DirectPrefix + fid;
    NoLetterF();
    forall k: nat
      ensures !OccursAt(url, FileMarker, k)
    {
      if OccursAt(url, FileMarker, k) {
        MarkerChars(url, k);
        assert false;
      }
    }
    assert !Contains(url, FileMarker);
  }

  // ---------------------------------------------------------------------------
  // Responses.

  /** What the network gives back for one request: a transport failure (timeout,
      refused connection), or a reply with its HTTP status, its Content-Type
      header if any, and the image its body decodes to, if it decodes. */
  datatype Response =
    | TransportError
    | Reply(status: int, contentType: Option<string>, decoded: Option<Image>)

  /** `raise_for_status`: 4xx client and 5xx server errors. */
  predicate IsHttpError(status: int)
  {
    400 <= status < 600
  }

  /** A reply is accepted when it is not an HTTP error, its Content-Type (empty
      when absent) does not contain "text/html", and its body decodes
      (report.py:292-300). */
  predicate Accepted(response: Response)
  {
    && response.Reply?
    && !IsHttpError(response.status)
    && !Contains(response.contentType.GetOr(""), "text/html")
    && response.decoded.Some?
  }

  /** Each failure class on its own is enough to reject a response. */
  lemma RejectionRules(response: Response)
    ensures response.TransportError? ==> !Accepted(response)
    ensures response.Reply? && IsHttpError(response.status) ==> !Accepted(response)
    ensures response.Reply? && response.contentType.Some? && Contains(response.contentType.value, "text/html")
      ==> !Accepted(response)
    ensures response.Reply? && response.decoded.None? ==> !Accepted(response)
    ensures response.Reply? && 200 <= response.status < 300 && response.contentType.None? && response.decoded.Some?
      ==> Accepted(response)
  {
    if response.Reply? && response.contentType.None? {
      assert IndexFrom("", "text/html", 0) == None;
    }
  }

  // ---------------------------------------------------------------------------
  // The cache.

  /** One request the build sends: which record it is for and the URL requested. */
  datatype Request = Request(id: string, url: string)

  /** The outcome of looking up one record's image: the image to draw (None for
      the placeholder), the cache afterwards, and the requests sent (none or one). */
  datatype Lookup = Lookup(image: Option<Image>, cache: map<string, Image>, requests: seq<Request>)

  /** The image handling of one evidence slot (report.py:283-310): a cached id
      is used without any request; otherwise the rewritten link is requested and
      an accepted image is stored under the id; the slot shows whatever the
      cache then holds for the id. */
  function AcquireOne(cache: map<string, Image>, fetch: string -> Response, id: string, url: string): (l: Lookup)
    ensures id in cache ==> l.requests == [] && l.cache == cache && l.image == Some(cache[id])
    ensures id !in cache ==> l.requests == [Request(id, DriveDirect(url))]
    ensures id !in cache && Accepted(fetch(DriveDirect(url))) ==>
      l.cache == cache[id := fetch(DriveDirect(url)).decoded.value] && l.image == Some(l.cache[id])
    ensures id !in cache && !Accepted(fetch(DriveDirect(url))) ==> l.cache == cache && l.image == None
  {
    if id in cache then Lookup(Some(cache[id]), cache, [])
    else
      var target := DriveDirect(url);
      var response := fetch(target);
      var cache' := if Accepted(response) then cache[id := response.decoded.value] else cache;
      Lookup(if id in cache' then Some(cache'[id]) else None, cache', [Request(id, target)])
  }

  /** The lookups of a run of records, one after another, threading the cache. */
  datatype Lookups = Lookups(images: seq<Option<Image>>, cache: map<string, Image>, requests: seq<Request>)

  function AcquireAll(cache: map<string, Image>, fetch: string -> Response, rs: seq<Record>): (a: Lookups)
    ensures |a.images| == |rs|
  {
    if rs == [] then Lookups([], cache, [])
    else
      var prev := AcquireAll(cache, fetch, rs[..|rs| - 1]);
      var r := rs[|rs| - 1];
      var l := AcquireOne(prev.cache, fetch, r.id, r.imageUrl);
      Lookups(prev.images + [l.image], l.cache, prev.requests + l.requests)
  }

  /** Looking up a prefix of the records gives a prefix of the images. */
  lemma {:induction false} AcquireAllPrefix(cache: map<string, Image>, fetch: string -> Response, rs: seq<Record>, i: nat)
    requires i <= |rs|
    ensures AcquireAll(cache, fetch, rs[..i]).images == AcquireAll(cache, fetch, rs).images[..i]
    decreases |rs|
  {
    if i < |rs| {
      var p := rs[..|rs| - 1];
      assert rs[..i] == p[..i];
      AcquireAllPrefix(cache, fetch, p, i);
    } else {
      assert rs[..i] == rs;
    }
  }

  // What a build's image cache guarantees, one property per lemma.

  /** No request of the run is for an id held by the cache it started from. */
  predicate RequestsMiss(a: Lookups, cache: map<string, Image>)
  {
    forall k :: 0 <= k < |a.requests| ==> a.requests[k].id !in cache
  }

  /** The id of every accepted request is cached at the end of the run. */
  predicate SuccessesCached(a: Lookups, fetch: string -> Response)
  {
    forall k :: 0 <= k < |a.requests| && Accepted(fetch(a.requests[k].url)) ==> a.requests[k].id in a.cache
  }

  /** A request that was accepted is never followed by another for the same id. */
  predicate NoRepeatedSuccess(a: Lookups, fetch: string -> Response)
  {
    forall k, m :: 0 <= k < m < |a.requests| && a.requests[k].id == a.requests[m].id
      ==> !Accepted(fetch(a.requests[k].url))
  }

  /** Every entry not in the starting cache holds the image of an accepted request for its id. */
  predicate EntriesExplained(a: Lookups, cache: map<string, Image>, fetch: string -> Response)
  {
    forall id :: id in a.cache && id !in cache ==>
      exists k :: 0 <= k < |a.requests| && a.requests[k].id == id && Accepted(fetch(a.requests[k].url))
                  && a.cache[id] == fetch(a.requests[k].url).decoded.value
  }

  /** Entries already cached are kept, unchanged, through any run of lookups:
      an image is never replaced or dropped. */
  lemma {:induction false} CacheKeeps(cache: map<string, Image>, fetch: string -> Response, rs: seq<Record>, id: string)
    requires id in cache
    ensures id in AcquireAll(cache, fetch, rs).cache
    ensures AcquireAll(cache, fetch, rs).cache[id] == cache[id]
    decreases |rs|
  {
    if rs != [] {
      CacheKeeps(cache, fetch, rs[..|rs| - 1], id);
    }
  }

  /** A run of lookups sends at most one request per record. */
  lemma {:induction false} RequestCount(cache: map<string, Image>, fetch: string -> Response, rs: seq<Record>)
    ensures |AcquireAll(cache, fetch, rs).requests| <= |rs|
    decreases |rs|
  {
    if rs != [] {
      RequestCount(cache, fetch, rs[..|rs| - 1]);
    }
  }

  /** No request is ever sent for an id the cache held when the run began. */
  lemma {:induction false} RequestsAreMisses(cache: map<string, Image>, fetch: string -> Response, rs: seq<Record>)
    ensures RequestsMiss(AcquireAll(cache, fetch, rs), cache)
    decreases |rs|
  {
    if rs != [] {
      var p := rs[..|rs| - 1];
      var r := rs[|rs| - 1];
      RequestsAreMisses(cache, fetch, p);
      var prev := AcquireAll(cache, fetch, p);
      var l := AcquireOne(prev.cache, fetch, r.id, r.imageUrl);
      var a := AcquireAll(cache, fetch, rs);
      assert a.requests == prev.requests + l.requests;
      if r.id in cache {
        CacheKeeps(cache, fetch, p, r.id);
        assert l.requests == [];
      }
      forall k | 0 <= k < |a.requests|
        ensures a.requests[k].id !in cache
      {
        if k < |prev.requests| {
          assert a.requests[k] == prev.requests[k];
        } else {
          assert a.requests[k] == l.requests[0];
        }
      }
    }
  }

  /** Every accepted response has its image cached under the requested id. */
  lemma {:induction false} AcceptedIsCached(cache: map<string, Image>, fetch: string -> Response, rs: seq<Record>)
    ensures SuccessesCached(AcquireAll(cache, fetch, rs), fetch)
    decreases |rs|
  {
    if rs != [] {
      var p := rs[..|rs| - 1];
      AcceptedIsCached(cache, fetch, p);
      var r := rs[|rs| - 1];
      var prev := AcquireAll(cache, fetch, p);
      var l := AcquireOne(prev.cache, fetch, r.id, r.imageUrl);
      var a := AcquireAll(cache, fetch, rs);
      assert a.requests == prev.requests + l.requests && a.cache == l.cache;
      forall k | 0 <= k < |a.requests| && Accepted(fetch(a.requests[k].url))
        ensures a.requests[k].id in a.cache
      {
        if k < |prev.requests| {
          assert a.requests[k] == prev.requests[k];
          assert prev.requests[k].id in prev.cache;
        } else {
          assert a.requests[k] == l.requests[0];
        }
      }
    }
  }

  /** An id is requested again only when its earlier request was not accepted:
      a successful fetch is never repeated within a build. */
  lemma {:induction false} NoRepeatAfterSuccess(cache: map<string, Image>, fetch: string -> Response, rs: seq<Record>)
    ensures NoRepeatedSuccess(AcquireAll(cache, fetch, rs), fetch)
    decreases |rs|
  {
    if rs != [] {
      var p := rs[..|rs| - 1];
      var r := rs[|rs| - 1];
      NoRepeatAfterSuccess(cache, fetch, p);
      AcceptedIsCached(cache, fetch, p);
      var prev := AcquireAll(cache, fetch, p);
      var l := AcquireOne(prev.cache, fetch, r.id, r.imageUrl);
      var a := AcquireAll(cache, fetch, rs);
      var n := |prev.requests|;
      assert a.requests == prev.requests + l.requests;
      forall k, m | 0 <= k < m < |a.requests| && a.requests[k].id == a.requests[m].id
        ensures !Accepted(fetch(a.requests[k].url))
      {
        assert a.requests[k] == prev.requests[k];
        if m >= n {
          // The last request is for an id the cache did not hold, so no earlier
          // request for it was accepted.
          assert a.requests[m] == l.requests[0] && r.id !in prev.cache;
        } else {
          assert a.requests[m] == prev.requests[m];
        }
      }
    }
  }

  /** Every entry added during a run holds the image of an accepted response to a
      request for that id. */
  lemma {:induction false} EntriesFromRequests(cache: map<string, Image>, fetch: string -> Response, rs: seq<Record>)
    ensures EntriesExplained(AcquireAll(cache, fetch, rs), cache, fetch)
    decreases |rs|
  {
    if rs != [] {
      var p := rs[..|rs| - 1];
      var r := rs[|rs| - 1];
      EntriesFromRequests(cache, fetch, p);
      var prev := AcquireAll(cache, fetch, p);
      var a := AcquireAll(cache, fetch, rs);
      var n := |prev.requests|;
      forall id | id in a.cache && id !in cache
        ensures exists k :: 0 <= k < |a.requests| && a.requests[k].id == id && Accepted(fetch(a.requests[k].url))
                            && a.cache[id] == fetch(a.requests[k].url).decoded.value
      {
        if id in prev.cache {
          var k :| 0 <= k < |prev.requests| && prev.requests[k].id == id && Accepted(fetch(prev.requests[k].url))
                   && prev.cache[id] == fetch(prev.requests[k].url).decoded.value;
          assert a.requests[k] == prev.requests[k];
        } else {
          assert a.requests[n].id == id;
        }
      }
    }
  }

  /** The image drawn for record i is the one cached under its id right after its lookup. */
  lemma {:induction false} ImageIsCached(cache: map<string, Image>, fetch: string -> Response, rs: seq<Record>, i: nat)
    requires i < |rs|
    ensures var a := AcquireAll(cache, fetch, rs[..i + 1]);
      a.images[i].Some? <==> rs[i].id in a.cache
    ensures var a := AcquireAll(cache, fetch, rs[..i + 1]);
      a.images[i].Some? ==> a.images[i].value == a.cache[rs[i].id]
  {
    assert rs[..i + 1][..i] == rs[..i];
  }

  /** The lookup of record j starts from the cache left by the records before it. */
  lemma LastLookup(cache: map<string, Image>, fetch: string -> Response, rs: seq<Record>, j: nat)
    requires j < |rs|
    ensures var before := AcquireAll(cache, fetch, rs[..j]);
      AcquireAll(cache, fetch, rs).images[j] == AcquireOne(before.cache, fetch, rs[j].id, rs[j].imageUrl).image
  {
    AcquireAllPrefix(cache, fetch, rs, j + 1);
    assert rs[..j + 1][..j] == rs[..j];
  }

  /** Records sharing an id reuse the first image cached for it, whatever their
      own link: once record i is drawn with an image, every later record with the
      same id is drawn with that same image and sends no request. */
  lemma SharedIdReusesImage(cache: map<string, Image>, fetch: string -> Response, rs: seq<Record>, i: nat, j: nat)
    requires i < j < |rs| && rs[i].id == rs[j].id
    requires AcquireAll(cache, fetch, rs).images[i].Some?
    ensures AcquireAll(cache, fetch, rs).images[j] == AcquireAll(cache, fetch, rs).images[i]
    ensures var before := AcquireAll(cache, fetch, rs[..j]);
      AcquireOne(before.cache, fetch, rs[j].id, rs[j].imageUrl).requests == []
  {
    var id := rs[i].id;
    var ai := AcquireAll(cache, fetch, rs[..i + 1]);
    AcquireAllPrefix(cache, fetch, rs, i + 1);
    ImageIsCached(cache, fetch, rs, i);
    // The entry cached for the id after record i survives up to record j.
    var mid := rs[i + 1..j];
    assert rs[..j] == rs[..i + 1] + mid;
    AcquireAllAppend(cache, fetch, rs[..i + 1], mid);
    CacheKeeps(ai.cache, fetch, mid, id);
    LastLookup(cache, fetch, rs, j);
  }

  /** The lookups of run a followed by those of run b, started from a's cache. */
  function Then(a: Lookups, b: Lookups): Lookups
  {
    Lookups(a.images + b.images, b.cache, a.requests + b.requests)
  }

  /** Looking up one more record looks it up in the cache the others left. */
  lemma AcquireAllSnoc(cache: map<string, Image>, fetch: string -> Response, rs: seq<Record>, r: Record)
    ensures var prev := AcquireAll(cache, fetch, rs);
      var l := AcquireOne(prev.cache, fetch, r.id, r.imageUrl);
      AcquireAll(cache, fetch, rs + [r]) == Lookups(prev.images + [l.image], l.cache, prev.requests + l.requests)
  {
    assert (rs + [r])[..|rs|] == rs;
  }

  /** Looking up two runs one after the other threads the cache through. */
  lemma {:induction false} AcquireAllAppend(cache: map<string, Image>, fetch: string -> Response, xs: seq<Record>, ys: seq<Record>)
    ensures AcquireAll(cache, fetch, xs + ys) == Then(AcquireAll(cache, fetch, xs), AcquireAll(AcquireAll(cache, fetch, xs).cache, fetch, ys))
    decreases |ys|
  {
    var a := AcquireAll(cache, fetch, xs);
    if ys == [] {
      assert xs + ys == xs;
      assert a.images + [] == a.images && a.requests + [] == a.requests;
    } else {
      var ys' := ys[..|ys| - 1];
      var y := ys[|ys| - 1];
      assert ys == ys' + [y] && xs + ys == (xs + ys') + [y];
      AcquireAllAppend(cache, fetch, xs, ys');
      var b' := AcquireAll(a.cache, fetch, ys');
      var l := AcquireOne(b'.cache, fetch, y.id, y.imageUrl);
      AcquireAllSnoc(a.cache, fetch, ys', y);
      AcquireAllSnoc(cache, fetch, xs + ys', y);
      AppendAssoc(a.images, b'.images, [l.image]);
      AppendAssoc(a.requests, b'.requests, l.requests);
    }
  }
}
