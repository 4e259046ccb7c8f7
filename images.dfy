/**
 * The image path of event_sync/images.py: the cached Google Drive download, the search for a
 * JPEG re-encoding that fits Wix Media's size limit, and the upload control flow with its cache.
 * The Drive and Wix requests are given as outcomes, and Pillow's decode and JPEG encoder as an
 * abstract function from (scale percent, quality) to bytes.
 */
module Images {
  import opened Wrappers
  import opened Text
  import opened Constants
  import opened Utils
  import opened WixApi
  import opened Runtime

  // ----- download_from_google_drive -----

  /**
   * `download_from_google_drive`: a cached file is returned with a hit counted and no request;
   * otherwise a miss is counted, and the fetched payload is cached and returned, or on any failure
   * (None, None, None) is returned and nothing is cached.
   */
  method DownloadFromGoogleDrive(fileId: string, rt: SyncRuntime, fetched: Result<DrivePayload, string>)
    returns (payload: DrivePayload)
    modifies rt`driveCache, rt`stats
    ensures fileId in old(rt.driveCache) ==>
      && payload == old(rt.driveCache)[fileId]
      && rt.stats == old(rt.stats).(driveHits := old(rt.stats).driveHits + 1)
      && rt.driveCache == old(rt.driveCache)
    ensures fileId !in old(rt.driveCache) ==>
      && rt.stats == old(rt.stats).(driveMisses := old(rt.stats).driveMisses + 1)
      && (fetched.Ok? ==> payload == fetched.value && rt.driveCache == old(rt.driveCache)[fileId := fetched.value])
      && (fetched.Err? ==> payload == DrivePayload(None, None, None) && rt.driveCache == old(rt.driveCache))
    ensures payload == Downloaded(fileId, old(rt.driveCache), fetched)
    ensures rt.driveCache == DriveCacheAfter(fileId, old(rt.driveCache), fetched)
    ensures rt.stats == DriveStatsAfter(fileId, old(rt.driveCache), old(rt.stats))
  {
    var cached := rt.GetCachedDriveFile(fileId);
    if cached.Some? {
      rt.RecordDriveHit();
      return cached.value;
    }
    rt.RecordDriveMiss();
    if fetched.Err? {
      return DrivePayload(None, None, None);
    }
    rt.CacheDriveFile(fileId, fetched.value);
    return fetched.value;
  }

  /** What `download_from_google_drive` returns for an id, given the cache and the Drive outcome. */
  function Downloaded(fileId: string, cache: map<string, DrivePayload>, fetched: Result<DrivePayload, string>)
    : DrivePayload
  {
    if fileId in cache then cache[fileId]
    else if fetched.Ok? then fetched.value
    else DrivePayload(None, None, None)
  }

  /** The Drive cache after `download_from_google_drive`: a miss that fetches adds the payload. */
  function DriveCacheAfter(fileId: string, cache: map<string, DrivePayload>, fetched: Result<DrivePayload, string>)
    : map<string, DrivePayload>
  {
    if fileId !in cache && fetched.Ok? then cache[fileId := fetched.value] else cache
  }

  /** The counters after `download_from_google_drive`: one hit or one miss. */
  function DriveStatsAfter(fileId: string, cache: map<string, DrivePayload>, stats: CacheStats): CacheStats {
    if fileId in cache then stats.(driveHits := stats.driveHits + 1)
    else stats.(driveMisses := stats.driveMisses + 1)
  }

  // ----- os.path.splitext -----

  /** Python `s.rfind(c)`: the last index of `c`, or -1. */
  function RFind(s: string, c: char): (k: int)
    ensures -1 <= k < |s|
    ensures k >= 0 ==> s[k] == c
    ensures forall i :: k < i < |s| ==> s[i] != c
  {
    if s == [] then -1
    else if s[|s| - 1] == c then |s| - 1
    else RFind(s[..|s| - 1], c)
  }

  /**
   * `os.path.splitext` (POSIX): the extension starts at the last dot of the last path component,
   * unless that component has only dots before it.
   */
  function Splitext(p: string): (r: (string, string))
    ensures r.0 + r.1 == p
    ensures r.1 == [] || (r.1[0] == '.' && '/' !in r.1)
  {
    var sep := RFind(p, '/');
    var dot := RFind(p, '.');
    if dot > sep && exists i :: sep + 1 <= i < dot && p[i] != '.' then
      assert p[..dot] + p[dot..] == p;
      (p[..dot], p[dot..])
    else
      assert p + [] == p;
      (p, [])
  }

  /**
   * The extension is the last dot of the last component and what follows it: exactly one dot,
   * no separator, and a root whose last component has a character other than a dot.
   */
  lemma SplitextLastDot(p: string)
    ensures var r := Splitext(p);
      r.1 != [] ==> '.' !in r.1[1..] && exists i :: |r.0| - |LastComponent(r.0)| <= i < |r.0| && r.0[i] != '.'
  {
    var r := Splitext(p);
    if r.1 != [] {
      var sep := RFind(p, '/');
      var dot := RFind(p, '.');
      assert r.0 == p[..dot];
      var i :| sep + 1 <= i < dot && p[i] != '.';
      assert RFind(r.0, '/') == sep by { RFindPrefix(p, '/', dot); }
      assert r.0[i] != '.';
    }
  }

  /** The part of a path after its last '/'. */
  function LastComponent(p: string): (c: string)
    ensures '/' !in c && |c| <= |p| && c == p[|p| - |c|..]
  {
    p[RFind(p, '/') + 1..]
  }

  /** The last `c` of a prefix that ends after the last `c` of the whole is that same one. */
  lemma {:induction false} RFindPrefix(s: string, c: char, n: nat)
    requires RFind(s, c) < n <= |s|
    ensures RFind(s[..n], c) == RFind(s, c)
    decreases |s|
  {
    if n < |s| {
      assert s[..|s| - 1][..n] == s[..n];
      RFindPrefix(s[..|s| - 1], c, n);
    } else {
      assert s[..n] == s;
    }
  }

  /** A name without a dot, or whose only dots lead its last component, has no extension. */
  lemma SplitextNoExtension(p: string)
    requires forall i :: RFind(p, '/') < i < |p| && p[i] == '.' ==> forall j :: RFind(p, '/') < j <= i ==> p[j] == '.'
    ensures Splitext(p) == (p, "")
  {
  }

  /** The name a re-encoded image is uploaded under: the original stem, or event_image, plus ".jpg". */
  function JpegName(filename: Option<string>): (name: string)
    ensures |name| > 4 && name[|name| - 4..] == ".jpg"
  {
    var base := if filename.Some? && filename.value != "" then filename.value else "event_image";
    var root := Splitext(base).0;
    var stem := if root != "" then root else "event_image";
    stem + ".jpg"
  }

  // ----- prepare_image_for_wix -----

  /** The scales tried, in percent, largest first. */
  const Scales: seq<nat> := [100, 90, 80, 70, 60, 50, 40, 30]
  /** The JPEG qualities tried at each scale, highest first. */
  const Qualities: seq<nat> := [90, 85, 80, 75, 70, 65, 60]

  /** What `prepare_image_for_wix` returns: bytes (None to skip the image), name, mime type, resized. */
  datatype Prepared = Prepared(data: Option<Bytes>, filename: Option<string>, mimeType: Option<string>, resized: bool)

  predicate Fits(data: Bytes) {
    |data| <= MaxWixImageBytes
  }

  /** Candidate (si, qi) comes before candidate (sj, qj) in the scale-major search. */
  predicate Before(si: nat, qi: nat, sj: nat, qj: nat) {
    si < sj || (si == sj && qi < qj)
  }

  /** A candidate is a (scale index, quality index) pair. */
  predicate IsCandidate(c: (nat, nat)) {
    c.0 < |Scales| && c.1 < |Qualities|
  }

  /** The bytes candidate `c` encodes to. */
  function Encoded(encode: (nat, nat) -> Bytes, c: (nat, nat)): Bytes
    requires IsCandidate(c)
  {
    encode(Scales[c.0], Qualities[c.1])
  }

  /** The first candidate from (si, qi) on, scale-major, whose encoding fits. */
  function FirstFit(encode: (nat, nat) -> Bytes, si: nat, qi: nat): (r: Option<(nat, nat)>)
    ensures r.Some? ==> IsCandidate(r.value) && Fits(Encoded(encode, r.value)) && !Before(r.value.0, r.value.1, si, qi)
    decreases |Scales| - si, |Qualities| - qi
  {
    if si >= |Scales| then None
    else if qi >= |Qualities| then FirstFit(encode, si + 1, 0)
    else if Fits(Encoded(encode, (si, qi))) then Some((si, qi))
    else FirstFit(encode, si, qi + 1)
  }

  /** No candidate from (si, qi) on and before (sj, qj) fits. */
  ghost predicate NoneFitBetween(encode: (nat, nat) -> Bytes, si: nat, qi: nat, sj: nat, qj: nat) {
    forall sk: nat, qk: nat :: IsCandidate((sk, qk)) && !Before(sk, qk, si, qi) && Before(sk, qk, sj, qj) ==>
      !Fits(Encoded(encode, (sk, qk)))
  }

  /**
   * The search is first-fit: no candidate it passed over fits, and when it finds none, no
   * candidate from (si, qi) on fits.
   */
  lemma {:induction false} FirstFitIsFirst(encode: (nat, nat) -> Bytes, si: nat, qi: nat)
    ensures FirstFit(encode, si, qi).Some? ==>
      NoneFitBetween(encode, si, qi, FirstFit(encode, si, qi).value.0, FirstFit(encode, si, qi).value.1)
    ensures FirstFit(encode, si, qi).None? ==> NoneFitBetween(encode, si, qi, |Scales|, 0)
    decreases |Scales| - si, |Qualities| - qi
  {
    if si >= |Scales| {
    } else if qi >= |Qualities| {
      FirstFitIsFirst(encode, si + 1, 0);
    } else if !Fits(Encoded(encode, (si, qi))) {
      FirstFitIsFirst(encode, si, qi + 1);
    }
  }

  /** The encoding the search settles on, if any. */
  function SearchFrom(encode: (nat, nat) -> Bytes, si: nat, qi: nat): (r: Option<Bytes>)
    ensures r.Some? ==> Fits(r.value)
    ensures r.Some? <==> FirstFit(encode, si, qi).Some?
  {
    match FirstFit(encode, si, qi)
    case Some(c) => Some(Encoded(encode, c))
    case None => None
  }

  /**
   * What `prepare_image_for_wix` returns, given its encoder and whether Pillow is importable and
   * opens the image (`decodable`): a missing Pillow and an unreadable image return the same result.
   */
  function PrepareSpec(data: Option<Bytes>, filename: Option<string>, mimeType: Option<string>,
                       decodable: bool, encode: (nat, nat) -> Bytes): Prepared
  {
    if data.None? || data.value == [] then Prepared(None, filename, mimeType, false)
    else if Fits(data.value) then Prepared(data, filename, mimeType, false)
    else if !decodable then Prepared(None, filename, mimeType, false)
    else match SearchFrom(encode, 0, 0)
      case Some(compressed) => Prepared(Some(compressed), Some(JpegName(filename)), Some("image/jpeg"), true)
      case None => Prepared(None, filename, mimeType, false)
  }

  /**
   * `prepare_image_for_wix`: nothing for empty data, the input itself when it already fits, and
   * otherwise the first candidate re-encoding, scale-major, that fits, as a JPEG.
   */
  method PrepareImageForWix(data: Option<Bytes>, filename: Option<string>, mimeType: Option<string>,
                            decodable: bool, encode: (nat, nat) -> Bytes) returns (out: Prepared)
    ensures out == PrepareSpec(data, filename, mimeType, decodable, encode)
  {
    if data.None? || data.value == [] {
      return Prepared(None, filename, mimeType, false);
    }
    if |data.value| <= MaxWixImageBytes {
      return Prepared(data, filename, mimeType, false);
    }
    if !decodable {
      return Prepared(None, filename, mimeType, false);
    }
    var compressed := SearchCandidates(encode);
    if compressed.Some? {
      return Prepared(compressed, Some(JpegName(filename)), Some("image/jpeg"), true);
    }
    return Prepared(None, filename, mimeType, false);
  }

  /**
   * The nested scale and quality loops of `prepare_image_for_wix`: the first re-encoding,
   * scale-major, that fits, or None when none does.
   */
  method SearchCandidates(encode: (nat, nat) -> Bytes) returns (found: Option<Bytes>)
    ensures found == SearchFrom(encode, 0, 0)
  {
    var si := 0;
    while si < |Scales|
      invariant si <= |Scales|
      invariant FirstFit(encode, 0, 0) == FirstFit(encode, si, 0)
    {
      var qi := 0;
      while qi < |Qualities|
        invariant qi <= |Qualities|
        invariant FirstFit(encode, 0, 0) == FirstFit(encode, si, qi)
      {
        var compressed := encode(Scales[si], Qualities[qi]);
        assert compressed == Encoded(encode, (si, qi));
        if |compressed| <= MaxWixImageBytes {
          assert FirstFit(encode, si, qi) == Some((si, qi));
          return Some(compressed);
        }
        qi := qi + 1;
      }
      assert FirstFit(encode, si, qi) == FirstFit(encode, si + 1, 0);
      si := si + 1;
    }
    assert FirstFit(encode, si, 0) == None;
    return None;
  }

  /** A resized result fits the limit, is a JPEG, and is named after the original stem. */
  lemma ResizedFits(data: Option<Bytes>, filename: Option<string>, mimeType: Option<string>,
                    decodable: bool, encode: (nat, nat) -> Bytes)
    ensures var out := PrepareSpec(data, filename, mimeType, decodable, encode);
      out.resized ==> out.data.Some? && Fits(out.data.value) && out.mimeType == Some("image/jpeg")
                      && out.filename == Some(JpegName(filename))
  {
  }

  /** Data within the limit passes through unchanged, and empty data yields no image. */
  lemma SmallImageUnchanged(data: Option<Bytes>, filename: Option<string>, mimeType: Option<string>,
                            decodable: bool, encode: (nat, nat) -> Bytes)
    ensures data.Some? && data.value != [] && Fits(data.value) ==>
      PrepareSpec(data, filename, mimeType, decodable, encode) == Prepared(data, filename, mimeType, false)
    ensures data.None? || data.value == [] ==>
      PrepareSpec(data, filename, mimeType, decodable, encode) == Prepared(None, filename, mimeType, false)
  {
  }

  /** Whatever bytes are returned fit the limit. */
  lemma PreparedFits(data: Option<Bytes>, filename: Option<string>, mimeType: Option<string>,
                     decodable: bool, encode: (nat, nat) -> Bytes)
    ensures var out := PrepareSpec(data, filename, mimeType, decodable, encode);
      out.data.Some? ==> Fits(out.data.value) && (out.data.value == data.value || out.resized)
  {
  }

  // ----- upload_image_to_wix -----

  /** The given request outcomes one upload may see: the Drive fetch and the Wix upload. */
  datatype UploadWorld = UploadWorld(
    drive: Result<DrivePayload, string>,
    decodable: bool,
    encode: (nat, nat) -> Bytes,
    upload: Result<MediaDescriptor, string>)

  /** Python `mime.startswith("image/")` on an optional mime type. */
  predicate IsImageMime(m: Option<string>) {
    m.Some? && StartsWith(m.value, "image/")
  }

  /** A download worth uploading: non-empty bytes, an image mime type, and a prepared form that fits. */
  predicate UploadReady(payload: DrivePayload, world: UploadWorld) {
    && payload.data.Some? && payload.data.value != []
    && IsImageMime(payload.mimeType)
    && PrepareSpec(payload.data, payload.name, payload.mimeType, world.decodable, world.encode).data.Some?
  }

  /**
   * Whether `upload_image_to_wix` gets as far as `get_wix_client`: the URL names a Drive file with
   * no cached descriptor, and the download is an image that can be prepared to fit.
   */
  predicate ReachesClient(imageUrl: string, wixCache: map<string, MediaDescriptor>,
                          driveCache: map<string, DrivePayload>, world: UploadWorld)
  {
    var id := ExtractGoogleDriveFileId(imageUrl);
    imageUrl != "" && id.Some? && id.value !in wixCache && UploadReady(Downloaded(id.value, driveCache, world.drive), world)
  }

  /**
   * The descriptor `upload_image_to_wix` returns, given the caches before the call, the request
   * outcomes and whether a Wix client is available.
   */
  function UploadOutcome(imageUrl: string, wixCache: map<string, MediaDescriptor>,
                         driveCache: map<string, DrivePayload>, world: UploadWorld, clientAvailable: bool)
    : Option<MediaDescriptor>
  {
    var id := ExtractGoogleDriveFileId(imageUrl);
    if imageUrl == "" || id.None? then None
    else if id.value in wixCache then Some(wixCache[id.value])
    else if UploadReady(Downloaded(id.value, driveCache, world.drive), world) && clientAvailable && world.upload.Ok?
    then Some(world.upload.value)
    else None
  }

  /**
   * `upload_image_to_wix`: None for an empty URL, an unrecognised Drive id, a failed download, a
   * non-image mime type, an image that cannot be made to fit, a client that cannot be built, or a
   * failed upload. A cached descriptor is reused with a hit counted and nothing downloaded; a new
   * non-empty descriptor is cached with an upload counted.
   */
  method UploadImageToWix(imageUrl: string, rt: SyncRuntime, world: UploadWorld)
    returns (descriptor: Option<MediaDescriptor>)
    modifies rt`driveCache, rt`wixCache, rt`stats, rt`wixClient
    ensures imageUrl == "" || ExtractGoogleDriveFileId(imageUrl).None? ==>
      && descriptor.None? && rt.stats == old(rt.stats)
      && rt.driveCache == old(rt.driveCache) && rt.wixCache == old(rt.wixCache) && rt.wixClient == old(rt.wixClient)
    ensures var id := ExtractGoogleDriveFileId(imageUrl);
      imageUrl != "" && id.Some? && id.value in old(rt.wixCache) ==>
        && descriptor == Some(old(rt.wixCache)[id.value])
        && rt.stats == old(rt.stats).(wixHits := old(rt.stats).wixHits + 1)
        && rt.driveCache == old(rt.driveCache) && rt.wixCache == old(rt.wixCache) && rt.wixClient == old(rt.wixClient)
    ensures var id := ExtractGoogleDriveFileId(imageUrl);
      imageUrl != "" && id.Some? && id.value !in old(rt.wixCache) ==>
        var payload := Downloaded(id.value, old(rt.driveCache), world.drive);
        && (descriptor.Some? <==> UploadReady(payload, world) && rt.wixClient.Some? && world.upload.Ok?)
        && (descriptor.Some? ==> descriptor.value == world.upload.value)
    ensures var id := ExtractGoogleDriveFileId(imageUrl);
      imageUrl != "" && id.Some? && id.value !in old(rt.wixCache) ==>
        var downloaded := DriveStatsAfter(id.value, old(rt.driveCache), old(rt.stats));
        var uploaded := descriptor.Some? && DescriptorGiven(descriptor.value);
        && rt.driveCache == DriveCacheAfter(id.value, old(rt.driveCache), world.drive)
        && rt.wixCache == (if uploaded then old(rt.wixCache)[id.value := descriptor.value] else old(rt.wixCache))
        && rt.stats == (if uploaded then downloaded.(wixUploads := downloaded.wixUploads + 1) else downloaded)
    ensures old(rt.wixClient).Some? ==> rt.wixClient == old(rt.wixClient)
    ensures !ReachesClient(imageUrl, old(rt.wixCache), old(rt.driveCache), world) ==> rt.wixClient == old(rt.wixClient)
    ensures ReachesClient(imageUrl, old(rt.wixCache), old(rt.driveCache), world) ==>
      (rt.wixClient.Some? <==> old(rt.ClientAvailable()))
    ensures rt.ClientAvailable() == old(rt.ClientAvailable())
    ensures descriptor == UploadOutcome(imageUrl, old(rt.wixCache), old(rt.driveCache), world, old(rt.ClientAvailable()))
  {
    if imageUrl == "" {
      return None;
    }
    var fileId := ExtractGoogleDriveFileId(imageUrl);
    if fileId.None? {
      return None;
    }
    var cachedMedia := rt.GetCachedWixMedia(fileId.value);
    if cachedMedia.Some? {
      rt.RecordWixHit();
      return cachedMedia;
    }
    var payload := DownloadFromGoogleDrive(fileId.value, rt, world.drive);
    if payload.data.None? || payload.data.value == [] {
      return None;
    }
    if !IsImageMime(payload.mimeType) {
      return None;
    }
    var prepared := PrepareImageForWix(payload.data, payload.name, payload.mimeType, world.decodable, world.encode);
    if prepared.data.None? {
      return None;
    }
    var client := rt.GetWixClient();
    if client.Err? {
      return None;
    }
    if world.upload.Err? {
      return None;
    }
    descriptor := Some(world.upload.value);
    if DescriptorGiven(world.upload.value) {
      rt.RecordWixUpload();
      rt.CacheWixMedia(fileId.value, world.upload.value);
    }
  }
}
