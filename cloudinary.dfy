/**
 * The image store service: validation of an upload, and the public id of
 * a stored image recovered from its delivery URL for deletion.
 *
 * The uploader and destroy calls are external; their replies are
 * parameters. The allowed content types and the default size limit are
 * configuration values and are parameters too.
 */
module Cloudinary {
  import opened Wrappers
  import opened Strings
  import opened Seqs

  const BytesPerMb: nat := 1024 * 1024

  /** The configuration the upload check reads. */
  datatype UploadConfig = UploadConfig(allowedTypes: seq<string>, defaultMaxMb: int)

  /** An uploaded file: its declared content type and its length in bytes. */
  datatype ImageFile = ImageFile(contentType: string, size: nat)

  datatype UploadCheck = Accepted | WrongType | TooLarge

  /** `max_size_mb or MAX_IMAGE_SIZE_MB`: an absent or zero limit falls back to the default. */
  function SizeLimitMb(maxSizeMb: Option<int>, config: UploadConfig): (mb: int)
    ensures maxSizeMb.Some? && maxSizeMb.value != 0 ==> mb == maxSizeMb.value
    ensures maxSizeMb.None? || maxSizeMb.value == 0 ==> mb == config.defaultMaxMb
  {
    if maxSizeMb.Some? && maxSizeMb.value != 0 then maxSizeMb.value else config.defaultMaxMb
  }

  /**
   * upload_image's two checks, in order: the content type, then the size in
   * megabytes (`len / (1024 * 1024) > max_size`, a true division).
   */
  function CheckUpload(file: ImageFile, maxSizeMb: Option<int>, config: UploadConfig): (r: UploadCheck)
    ensures r.WrongType? <==> file.contentType !in config.allowedTypes
    ensures r.TooLarge? <==> file.contentType in config.allowedTypes &&
                             file.size > SizeLimitMb(maxSizeMb, config) * BytesPerMb
    ensures r.Accepted? <==> file.contentType in config.allowedTypes &&
                             file.size <= SizeLimitMb(maxSizeMb, config) * BytesPerMb
  {
    if file.contentType !in config.allowedTypes then WrongType
    else if file.size as real / BytesPerMb as real > SizeLimitMb(maxSizeMb, config) as real then TooLarge
    else Accepted
  }

  /**
   * upload_image: both rejections are 400; a failing uploader (None) is
   * 500; otherwise the secure URL it returned.
   */
  function UploadImage(file: ImageFile, maxSizeMb: Option<int>, config: UploadConfig, uploaded: Option<string>): (r: Result<string>)
    ensures r.Ok? <==> CheckUpload(file, maxSizeMb, config).Accepted? && uploaded.Some?
    ensures r.Ok? ==> r.value == uploaded.value
    ensures !CheckUpload(file, maxSizeMb, config).Accepted? ==> r == Fail(Http(400))
    ensures CheckUpload(file, maxSizeMb, config).Accepted? && uploaded.None? ==> r == Fail(Http(500))
  {
    match CheckUpload(file, maxSizeMb, config)
    case WrongType => Fail(Http(400))
    case TooLarge => Fail(Http(400))
    case Accepted => if uploaded.Some? then Ok(uploaded.value) else Fail(Http(500))
  }

  /** A larger file is never accepted where a smaller one of the same type is refused. */
  lemma {:induction false} UploadSizeMonotone(file: ImageFile, size: nat, maxSizeMb: Option<int>, config: UploadConfig)
    requires size <= file.size
    requires CheckUpload(file, maxSizeMb, config).Accepted?
    ensures CheckUpload(ImageFile(file.contentType, size), maxSizeMb, config).Accepted?
  {
  }

  // ---------- the public id of a delivery URL ----------

  /** The index of the last occurrence of c. */
  function LastIndex(s: string, c: char): (r: Option<nat>)
    ensures r.None? <==> c !in s
    ensures r.Some? ==> r.value < |s| && s[r.value] == c && c !in s[r.value + 1..]
  {
    if s == [] then None
    else if s[|s| - 1] == c then
      assert s[|s|..] == [];
      Some(|s| - 1)
    else
      var r := LastIndex(s[..|s| - 1], c);
      assert s == s[..|s| - 1] + [s[|s| - 1]];
      if r.Some? then
        assert s[r.value + 1..] == s[..|s| - 1][r.value + 1..] + [s[|s| - 1]];
        r
      else r
  }

  /** `s.rsplit(c, 1)[0]`: everything before the last c, or all of s when there is none. */
  function BeforeLast(s: string, c: char): string
  {
    match LastIndex(s, c)
    case None => s
    case Some(i) => s[..i]
  }

  lemma BeforeLastOfSuffix(x: string, c: char, ext: string)
    requires c !in ext
    ensures BeforeLast(x + ([c] + ext), c) == x
  {
    var s := x + ([c] + ext);
    var i := LastIndex(s, c).value;
    assert forall j :: i < j < |s| ==> s[j] == s[i + 1..][j - i - 1];
    assert forall k :: |x| < k < |s| ==> s[k] == ext[k - |x| - 1];
    assert s[|x|] == c;
    assert s[..|x|] == x;
  }

  /** parts[n:] with Python's slice semantics (empty past the end). */
  function DropFirst(parts: seq<string>, n: nat): seq<string>
  {
    if n >= |parts| then [] else parts[n..]
  }

  function IsUpload(): string -> bool
  {
    (p: string) => p == "upload"
  }

  /**
   * delete_image's public id: the path segments after "upload" and the
   * version segment, joined by "/", with the last ".ext" removed; None when
   * no segment is "upload".
   */
  function PublicId(url: string): (r: Option<string>)
    ensures r.None? <==> "upload" !in Split(url, '/')
  {
    var parts := Split(url, '/');
    match FirstFrom(parts, IsUpload(), 0)
    case None =>
      assert forall k :: 0 <= k < |parts| ==> parts[k] != "upload";
      None
    case Some(i) => Some(BeforeLast(Join(DropFirst(parts, i + 2), '/'), '.'))
  }

  /**
   * delete_image: destroy is called exactly when a public id is found, and
   * the deletion succeeds when its reply's "result" is "ok". `reply` is that
   * field, None when the call raised or the field is missing.
   */
  function DeleteImage(url: string, reply: Option<string>): (r: (Option<string>, bool))
    ensures r.0 == PublicId(url)
    ensures r.1 <==> PublicId(url).Some? && reply == Some("ok")
  {
    match PublicId(url)
    case None => (None, false)
    case Some(id) => (Some(id), reply == Some("ok"))
  }

  /** Joining with the last segment extended is joining and then extending. */
  lemma {:induction false} JoinExtendLast(init: seq<string>, last: string, c: char, tail: string)
    ensures Join(init + [last + tail], c) == Join(init + [last], c) + tail
  {
    if init != [] {
      JoinExtendLast(init[1..], last, c, tail);
      assert (init + [last + tail])[1..] == init[1..] + [last + tail];
      assert (init + [last])[1..] == init[1..] + [last];
    }
  }

  /** A segment without the separator. */
  predicate Segment(s: string)
  {
    '/' !in s
  }

  /** The delivery URL of an image: host path, "upload", version, public id segments, extension. */
  function DeliveryUrl(host: seq<string>, version: string, id: seq<string>, ext: string): string
  {
    Join(host + ["upload", version] + id, '/') + Dotted(ext)
  }

  /** ".ext" */
  function Dotted(ext: string): string
  {
    ['.'] + ext
  }

  /** The path segments of a delivery URL, the extension riding on the last one. */
  function DeliverySegments(host: seq<string>, version: string, id: seq<string>, ext: string): seq<string>
    requires |id| >= 1
  {
    host + ["upload"] + ([version] + IdWithExtension(id, ext))
  }

  /** The public id segments, the last one carrying the extension. */
  function IdWithExtension(id: seq<string>, ext: string): seq<string>
    requires |id| >= 1
  {
    id[..|id| - 1] + [id[|id| - 1] + Dotted(ext)]
  }

  lemma SplitDeliveryUrl(host: seq<string>, version: string, id: seq<string>, ext: string)
    requires |id| >= 1
    requires forall k :: 0 <= k < |host| ==> Segment(host[k])
    requires forall k :: 0 <= k < |id| ==> Segment(id[k])
    requires Segment(version) && Segment(ext)
    ensures Split(DeliveryUrl(host, version, id, ext), '/') == DeliverySegments(host, version, id, ext)
  {
    var n := |id|;
    var init := host + ["upload", version] + id[..n - 1];
    assert init + [id[n - 1]] == host + ["upload", version] + id;
    JoinExtendLast(init, id[n - 1], '/', Dotted(ext));
    var parts := DeliverySegments(host, version, id, ext);
    assert parts == init + [id[n - 1] + Dotted(ext)] by {
      assert IdWithExtension(id, ext) == id[..n - 1] + [id[n - 1] + Dotted(ext)];
    }
    assert DeliveryUrl(host, version, id, ext) == Join(parts, '/');
    forall k | 0 <= k < |parts| ensures '/' !in parts[k] {
      if k < |host| { assert parts[k] == host[k]; }
      else if |host| + 2 <= k < |parts| - 1 { assert parts[k] == id[k - |host| - 2]; }
    }
    SplitJoin(parts, '/');
  }

  /** The first "upload" segment is the one after the host segments when none of those reads "upload". */
  lemma FirstUploadAfterHost(host: seq<string>, rest: seq<string>)
    requires "upload" !in host
    ensures FirstFrom(host + ["upload"] + rest, IsUpload(), 0) == Some(|host|)
  {
    var parts := host + ["upload"] + rest;
    var found := FirstFrom(parts, IsUpload(), 0);
    assert IsUpload()(parts[|host|]);
    assert forall k :: 0 <= k < |host| ==> parts[k] == host[k];
  }

  /** Joining the id segments with the extension on the last is the joined id plus the extension. */
  lemma JoinIdWithExtension(id: seq<string>, ext: string)
    requires |id| >= 1
    ensures Join(IdWithExtension(id, ext), '/') == Join(id, '/') + Dotted(ext)
  {
    var n := |id|;
    var init, last, tail := id[..n - 1], id[n - 1], Dotted(ext);
    calc {
      Join(IdWithExtension(id, ext), '/');
      Join(init + [last + tail], '/');
      { JoinExtendLast(init, last, '/', tail); }
      Join(init + [last], '/') + tail;
      { assert init + [last] == id; }
      Join(id, '/') + tail;
    }
  }

  lemma PublicIdOfSegments(url: string, parts: seq<string>, i: nat)
    requires Split(url, '/') == parts
    requires FirstFrom(parts, IsUpload(), 0) == Some(i)
    ensures PublicId(url) == Some(BeforeLast(Join(DropFirst(parts, i + 2), '/'), '.'))
  {
  }

  /**
   * The public id of an image's delivery URL is the id it was stored
   * under, as long as no host segment reads "upload", no segment holds a
   * slash and the extension holds no dot.
   */
  lemma PublicIdOfDeliveryUrl(host: seq<string>, version: string, id: seq<string>, ext: string)
    requires |id| >= 1
    requires "upload" !in host
    requires forall k :: 0 <= k < |host| ==> Segment(host[k])
    requires forall k :: 0 <= k < |id| ==> Segment(id[k])
    requires Segment(version) && Segment(ext) && '.' !in ext
    ensures PublicId(DeliveryUrl(host, version, id, ext)) == Some(Join(id, '/'))
  {
    var parts := DeliverySegments(host, version, id, ext);
    var tail := IdWithExtension(id, ext);
    var url := DeliveryUrl(host, version, id, ext);
    SplitDeliveryUrl(host, version, id, ext);
    FirstUploadAfterHost(host, [version] + tail);
    PublicIdOfSegments(url, parts, |host|);
    DropThroughVersion(host, version, tail);
    calc {
      PublicId(url);
      Some(BeforeLast(Join(tail, '/'), '.'));
      { JoinIdWithExtension(id, ext); }
      Some(BeforeLast(Join(id, '/') + (['.'] + ext), '.'));
      { BeforeLastOfSuffix(Join(id, '/'), '.', ext); }
      Some(Join(id, '/'));
    }
  }

  /** Past the host segments, "upload" and the version come the id segments. */
  lemma DropThroughVersion(host: seq<string>, version: string, tail: seq<string>)
    requires tail != []
    ensures DropFirst(host + ["upload"] + ([version] + tail), |host| + 2) == tail
  {
    var parts := host + ["upload"] + ([version] + tail);
    assert parts == (host + ["upload", version]) + tail;
  }
}
