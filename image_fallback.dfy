/**
 * `ImageWithFallback` of components/home/ImageWithFallback.tsx: an image that,
 * on its first load error, retries once with the Appwrite `/download` URL
 * built from its source, and that starts over whenever its source changes.
 * URL parsing (`new URL`) is an input: `None` when it throws, otherwise the
 * origin, the path and the `project` query parameter.
 */
module ImageFallback {
  import opened JsStrings
  import opened JsValues

  /** What `new URL(input)` exposes to the rewrite. */
  datatype UrlParts = UrlParts(origin: string, pathname: string, project: Option<string>)

  /** `parts[idx + 1]` in a template string: the segment, or "undefined" past the end. */
  function SegmentAfter(parts: seq<string>, idx: int): (s: string)
    requires -1 <= idx
    ensures 0 <= idx + 1 < |parts| ==> s == parts[idx + 1]
    ensures idx + 1 >= |parts| ==> s == "undefined"
  {
    if idx + 1 < |parts| then parts[idx + 1] else "undefined"
  }

  /** The download URL for a bucket, file and project. */
  function DownloadUrl(origin: string, bucketId: string, fileId: string, project: string): string {
    origin + "/v1/storage/buckets/" + bucketId + "/files/" + fileId + "/download?project=" + project
  }

  /**
   * `toDownloadUrl(input)`: the segments after the first `buckets` and the
   * first `files` in the path become the bucket and file ids; an unparseable
   * input is returned as it is.
   */
  function ToDownloadUrl(input: string, parsed: Option<UrlParts>): (out: string)
    ensures parsed.None? ==> out == input
    ensures parsed.Some? ==> StartsWith(out, parsed.value.origin + "/v1/storage/buckets/")
  {
    match parsed
    case None => input
    case Some(u) =>
      var parts := NonEmpty(Split(u.pathname, '/'));
      var bucketId := SegmentAfter(parts, IndexOf(parts, "buckets"));
      var fileId := SegmentAfter(parts, IndexOf(parts, "files"));
      var project := if u.project.Some? then u.project.value else "";
      DownloadUrl(u.origin, bucketId, fileId, project)
  }

  // ---------------------------------------------------------------------------
  // Path segments
  // ---------------------------------------------------------------------------

  lemma JoinCons(p: string, rest: seq<string>, sep: string)
    requires |rest| >= 1
    ensures Join([p] + rest, sep) == p + sep + Join(rest, sep)
  {
    assert ([p] + rest)[1..] == rest;
  }

  lemma {:induction false} NonEmptyKeeps(parts: seq<string>)
    requires forall i :: 0 <= i < |parts| ==> parts[i] != []
    ensures NonEmpty(parts) == parts
  {
    if parts != [] {
      NonEmptyKeeps(parts[1..]);
      assert [parts[0]] + parts[1..] == parts;
    }
  }

  lemma FirstIndex(parts: seq<string>, x: string, k: nat)
    requires k < |parts| && parts[k] == x && forall j :: 0 <= j < k ==> parts[j] != x
    ensures IndexOf(parts, x) == k
  {
    var r := IndexOf(parts, x);
    assert r != -1 by {
      assert x in parts;
    }
  }

  /** The segments of an Appwrite storage file path: `/v1/storage/buckets/<bucket>/files/<file>/<action>`. */
  function StorageSegments(bucketId: string, fileId: string, action: string): seq<string> {
    ["v1", "storage", "buckets", bucketId, "files", fileId, action]
  }

  /** The path of a storage URL splits back into its seven segments. */
  lemma StoragePathSegments(bucketId: string, fileId: string, action: string)
    requires bucketId != "" && fileId != "" && action != ""
    requires NoChar(bucketId, '/') && NoChar(fileId, '/') && NoChar(action, '/')
    ensures NonEmpty(Split("/" + Join(StorageSegments(bucketId, fileId, action), "/"), '/')) ==
            StorageSegments(bucketId, fileId, action)
  {
    var segs := StorageSegments(bucketId, fileId, action);
    var all := [""] + segs;
    JoinCons("", segs, "/");
    assert "" + "/" + Join(segs, "/") == "/" + Join(segs, "/");
    forall i | 0 <= i < |all|
      ensures NoChar(all[i], '/')
    {
      if i >= 4 && i != 5 {
        assert all[i] == bucketId || all[i] == fileId || all[i] == action;
      }
    }
    SplitJoin(all, '/');
    assert all[1..] == segs;
    NonEmptyKeeps(segs);
  }

  /** In a storage path the first `buckets` is the third segment and the first `files` the fifth. */
  lemma StorageIndices(bucketId: string, fileId: string, action: string)
    requires bucketId != "files"
    ensures var parts := StorageSegments(bucketId, fileId, action);
            IndexOf(parts, "buckets") == 2 && IndexOf(parts, "files") == 4
  {
    var parts := StorageSegments(bucketId, fileId, action);
    FirstIndex(parts, "buckets", 2);
    FirstIndex(parts, "files", 4);
  }

  // ---------------------------------------------------------------------------
  // Properties
  // ---------------------------------------------------------------------------

  /**
   * A storage URL ending in `/view` (or any other action) is rewritten to
   * the `/download` URL of the same bucket, file and project.
   */
  lemma ViewBecomesDownload(input: string, origin: string, bucketId: string, fileId: string, action: string, project: string)
    requires bucketId != "" && fileId != "" && action != "" && bucketId != "files"
    requires NoChar(bucketId, '/') && NoChar(fileId, '/') && NoChar(action, '/')
    ensures var path := "/" + Join(StorageSegments(bucketId, fileId, action), "/");
            ToDownloadUrl(input, Some(UrlParts(origin, path, Some(project)))) ==
            DownloadUrl(origin, bucketId, fileId, project)
  {
    StoragePathSegments(bucketId, fileId, action);
    StorageIndices(bucketId, fileId, action);
  }

  /** A URL without a `project` parameter gets an empty one. */
  lemma MissingProjectIsEmpty(input: string, origin: string, pathname: string)
    ensures StartsWith(ToDownloadUrl(input, Some(UrlParts(origin, pathname, None))), origin + "/v1/storage/buckets/")
    ensures var out := ToDownloadUrl(input, Some(UrlParts(origin, pathname, None)));
            var tail := "/download?project=";
            |out| >= |tail| && out[|out| - |tail|..] == tail
  {
    var parts := NonEmpty(Split(pathname, '/'));
    var bucketId := SegmentAfter(parts, IndexOf(parts, "buckets"));
    var fileId := SegmentAfter(parts, IndexOf(parts, "files"));
    var out := ToDownloadUrl(input, Some(UrlParts(origin, pathname, None)));
    assert out == (origin + "/v1/storage/buckets/") + (bucketId + "/files/" + fileId) + "/download?project=";
  }

  /**
   * Without a "buckets" segment the index is -1, so the bucket id is the
   * first segment of the path.
   */
  lemma MissingBucketsUsesFirstSegment(input: string, origin: string, pathname: string, project: Option<string>)
    requires var parts := NonEmpty(Split(pathname, '/')); parts != [] && "buckets" !in parts
    ensures var parts := NonEmpty(Split(pathname, '/'));
            StartsWith(ToDownloadUrl(input, Some(UrlParts(origin, pathname, project))),
                       origin + "/v1/storage/buckets/" + parts[0] + "/files/")
  {
    var parts := NonEmpty(Split(pathname, '/'));
    var fileId := SegmentAfter(parts, IndexOf(parts, "files"));
    var p := if project.Some? then project.value else "";
    assert SegmentAfter(parts, IndexOf(parts, "buckets")) == parts[0];
    assert ToDownloadUrl(input, Some(UrlParts(origin, pathname, project))) == DownloadUrl(origin, parts[0], fileId, p);
    DownloadUrlPrefix(origin, parts[0], fileId, p);
  }

  lemma DownloadUrlPrefix(origin: string, bucketId: string, fileId: string, project: string)
    ensures StartsWith(DownloadUrl(origin, bucketId, fileId, project), origin + "/v1/storage/buckets/" + bucketId + "/files/")
  {
    var pre := origin + "/v1/storage/buckets/" + bucketId + "/files/";
    assert DownloadUrl(origin, bucketId, fileId, project) == pre + (fileId + "/download?project=" + project);
  }

  /** A bare origin has no segments: both ids come out as "undefined". */
  lemma RootPathGivesUndefined(input: string, origin: string, project: string)
    ensures ToDownloadUrl(input, Some(UrlParts(origin, "/", Some(project)))) ==
            DownloadUrl(origin, "undefined", "undefined", project)
  {
    assert Split("/", '/') == ["", ""] by {
      assert "/"[1..] == "";
    }
    assert NonEmpty(["", ""]) == [] by {
      assert ["", ""][1..] == [""];
      assert [""][1..] == [];
    }
  }

  // ---------------------------------------------------------------------------
  // The component's state
  // ---------------------------------------------------------------------------

  /** The `src` prop and the `uri` and `triedDownload` state. */
  datatype ImageState = ImageState(src: string, uri: string, triedDownload: bool)

  /** The first render: the image shows `src` and has not retried yet. */
  function Mount(src: string): (st: ImageState)
    ensures st.src == src && st.uri == src && !st.triedDownload
  {
    ImageState(src, src, false)
  }

  /** A render with `src`: the reset effect runs only when `src` changed. */
  function SrcStep(st: ImageState, src: string): (r: ImageState)
    ensures r.src == src
    ensures src != st.src ==> r == Mount(src)
    ensures src == st.src ==> r == st
  {
    if src != st.src then ImageState(src, src, false) else st
  }

  /** `onError`: the first failure switches to the download URL, later ones do nothing. */
  function ErrorStep(st: ImageState, parsed: Option<UrlParts>): (r: ImageState)
    ensures r.src == st.src && r.triedDownload
    ensures !st.triedDownload ==> r.uri == ToDownloadUrl(st.src, parsed)
    ensures st.triedDownload ==> r == st
  {
    if !st.triedDownload then ImageState(st.src, ToDownloadUrl(st.src, parsed), true) else st
  }

  /** At most one retry per source: a second error changes nothing. */
  lemma RetriesOnce(st: ImageState, parsed: Option<UrlParts>, again: Option<UrlParts>)
    ensures ErrorStep(ErrorStep(st, parsed), again) == ErrorStep(st, parsed)
  {
  }

  /** The shown URI is always the source or the download URL built from it. */
  predicate ShowsSourceOrDownload(st: ImageState, parsed: Option<UrlParts>) {
    st.uri == st.src || (st.triedDownload && st.uri == ToDownloadUrl(st.src, parsed))
  }

  lemma StepsKeepUri(st: ImageState, parsed: Option<UrlParts>, src: string, newParsed: Option<UrlParts>)
    requires ShowsSourceOrDownload(st, parsed)
    ensures ShowsSourceOrDownload(ErrorStep(st, parsed), parsed)
    ensures ShowsSourceOrDownload(SrcStep(st, src), if src == st.src then parsed else newParsed)
  {
  }

  /** A new source re-arms the retry: its first error retries with its own download URL. */
  lemma NewSourceRearms(st: ImageState, src: string, parsed: Option<UrlParts>)
    requires src != st.src
    ensures ErrorStep(SrcStep(st, src), parsed).uri == ToDownloadUrl(src, parsed)
  {
  }

  /**
   * The component. `parseUrl` stands for `new URL`; the error retry always
   * rewrites the current `src`.
   */
  class FallbackImage {
    const parseUrl: string -> Option<UrlParts>
    var src: string
    var uri: string
    var triedDownload: bool

    function State(): ImageState
      reads this
    {
      ImageState(src, uri, triedDownload)
    }

    constructor (initial: string, parseUrl: string -> Option<UrlParts>)
      ensures State() == Mount(initial) && this.parseUrl == parseUrl
    {
      this.parseUrl := parseUrl;
      src, uri, triedDownload := initial, initial, false;
    }

    /** A re-render with the given `src`. */
    method SetSrc(next: string)
      modifies this
      ensures State() == SrcStep(old(State()), next)
    {
      if next != src {
        src, uri, triedDownload := next, next, false;
      }
    }

    /** The image failed to load. */
    method OnError()
      modifies this
      ensures State() == ErrorStep(old(State()), parseUrl(old(src)))
    {
      if !triedDownload {
        triedDownload := true;
        uri := ToDownloadUrl(src, parseUrl(src));
      }
    }
  }
}
