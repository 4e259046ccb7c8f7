/**
 * `SyncRuntime` of event_sync/runtime.py: the state one sync run shares — the memoised Wix client
 * and credentials, the Drive download cache, the Wix media cache and the four cache counters.
 * Building the Google Sheets and Drive services is not modelled.
 */
module Runtime {
  import opened Wrappers
  import opened Config
  import opened WixApi

  type Bytes = seq<bv8>

  /** A Drive download as cached: the file's bytes, name and mime type, any of which may be missing. */
  datatype DrivePayload = DrivePayload(data: Option<Bytes>, name: Option<string>, mimeType: Option<string>)

  /** `media.image.image` of an uploaded file's descriptor. */
  datatype ImageInfo = ImageInfo(width: Option<int>, height: Option<int>)

  /**
   * The file descriptor Wix Media returns for an upload: its `id`, its image size when it has one,
   * and the names of its other members.
   */
  datatype MediaDescriptor = MediaDescriptor(id: Option<string>, image: Option<ImageInfo>, otherKeys: set<string>)

  /** Python truthiness of a descriptor: it has some member. */
  predicate DescriptorGiven(d: MediaDescriptor) {
    d.id.Some? || d.image.Some? || d.otherKeys != {}
  }

  /** `cache_stats`. */
  datatype CacheStats = CacheStats(driveHits: nat, driveMisses: nat, wixHits: nat, wixUploads: nat)

  const CredentialsUnavailable := "GOOGLE_CREDENTIALS is missing or invalid"

  class SyncRuntime {
    const config: AppConfig
    /** The process environment the Wix client reads its fallbacks from. */
    const env: map<string, string>
    var wixClient: Option<WixClient>
    var credentialsInfo: Option<JsonDoc>
    var driveCache: map<string, DrivePayload>
    var wixCache: map<string, MediaDescriptor>
    var stats: CacheStats

    /** The configuration's cache is consistent, and the loaded credentials are its parse. */
    predicate Valid()
      reads this, config
    {
      && config.Valid()
      && (credentialsInfo.Some? ==>
            credentialsInfo == ParsedCredentials(config.googleCredentialsRaw, config.parse))
    }

    /** `__init__`: no clients, empty caches, all counters at 0. */
    constructor (config: AppConfig, env: map<string, string>)
      requires config.Valid()
      ensures this.config == config && this.env == env
      ensures wixClient.None? && credentialsInfo.None?
      ensures driveCache == map[] && wixCache == map[]
      ensures stats == CacheStats(0, 0, 0, 0)
      ensures Valid()
    {
      this.config := config;
      this.env := env;
      wixClient := None;
      credentialsInfo := None;
      driveCache := map[];
      wixCache := map[];
      stats := CacheStats(0, 0, 0, 0);
    }

    /**
     * `_load_credentials_info`: the first call reads the configuration's credentials and raises
     * ConfigError when they are missing or invalid; a successful read is kept.
     */
    method LoadCredentialsInfo() returns (r: Result<JsonDoc, string>)
      requires Valid()
      modifies this, config
      ensures Valid()
      ensures r.Ok? <==> ParsedCredentials(config.googleCredentialsRaw, config.parse).Some?
      ensures r.Ok? ==> Some(r.value) == ParsedCredentials(config.googleCredentialsRaw, config.parse)
      ensures r.Err? ==> r.error == CredentialsUnavailable
      ensures credentialsInfo == if r.Ok? then Some(r.value) else old(credentialsInfo)
      ensures unchanged(this`wixClient, this`driveCache, this`wixCache, this`stats)
    {
      if credentialsInfo.Some? {
        return Ok(credentialsInfo.value);
      }
      var creds := config.GoogleCredentials();
      if creds.None? {
        return Err(CredentialsUnavailable);
      }
      credentialsInfo := creds;
      return Ok(creds.value);
    }

    /** Whether a new client can be built: the configuration and environment resolve a key and a site. */
    predicate ClientBuildable() {
      var s := ResolveSettings(config.wixApiKey, config.wixSiteId, config.wixAccountId, None, env);
      Present(s.apiKey) && Present(s.siteId)
    }

    /** Whether `get_wix_client` returns a client: one is kept, or one can be built. */
    predicate ClientAvailable()
      reads this
    {
      wixClient.Some? || ClientBuildable()
    }

    /**
     * `get_wix_client`: the client is built from the configuration on the first successful call
     * and the same instance is returned on every later one; a constructor error is raised and
     * nothing is kept.
     */
    method GetWixClient() returns (r: Result<WixClient, string>)
      modifies this`wixClient
      ensures old(wixClient).Some? ==> r == Ok(old(wixClient).value) && wixClient == old(wixClient)
      ensures old(wixClient).None? ==>
        var s := ResolveSettings(config.wixApiKey, config.wixSiteId, config.wixAccountId, None, env);
        && (r.Ok? <==> Present(s.apiKey) && Present(s.siteId))
        && (r.Ok? ==> fresh(r.value) && r.value.apiKey == s.apiKey.value && r.value.siteId == s.siteId.value)
        && (r.Err? ==> r.error == MissingCredentials)
      ensures r.Ok? ==> wixClient == Some(r.value)
      ensures r.Err? ==> wixClient.None?
      ensures r.Ok? <==> old(ClientAvailable())
      ensures ClientAvailable() == old(ClientAvailable())
    {
      if wixClient.Some? {
        return Ok(wixClient.value);
      }
      r := NewClient(config.wixApiKey, config.wixSiteId, config.wixAccountId, None, env);
      if r.Ok? {
        wixClient := Some(r.value);
      }
    }

    /** `get_cached_drive_file`: the cached download for a file id, or None. */
    function GetCachedDriveFile(fileId: string): (r: Option<DrivePayload>)
      reads this
      ensures r.Some? <==> fileId in driveCache
      ensures r.Some? ==> r.value == driveCache[fileId]
    {
      if fileId in driveCache then Some(driveCache[fileId]) else None
    }

    /** `cache_drive_file`: stores or overwrites one download; the media cache is untouched. */
    method CacheDriveFile(fileId: string, payload: DrivePayload)
      modifies this`driveCache
      ensures driveCache == old(driveCache)[fileId := payload]
      ensures GetCachedDriveFile(fileId) == Some(payload)
      ensures forall other :: other != fileId ==> GetCachedDriveFile(other) == old(GetCachedDriveFile(other))
    {
      driveCache := driveCache[fileId := payload];
    }

    /** `get_cached_wix_media`: the cached descriptor for a Drive file id, or None. */
    function GetCachedWixMedia(fileId: string): (r: Option<MediaDescriptor>)
      reads this
      ensures r.Some? <==> fileId in wixCache
      ensures r.Some? ==> r.value == wixCache[fileId]
    {
      if fileId in wixCache then Some(wixCache[fileId]) else None
    }

    /** `cache_wix_media`: stores or overwrites one descriptor; the download cache is untouched. */
    method CacheWixMedia(fileId: string, descriptor: MediaDescriptor)
      modifies this`wixCache
      ensures wixCache == old(wixCache)[fileId := descriptor]
      ensures GetCachedWixMedia(fileId) == Some(descriptor)
      ensures forall other :: other != fileId ==> GetCachedWixMedia(other) == old(GetCachedWixMedia(other))
    {
      wixCache := wixCache[fileId := descriptor];
    }

    /** `record_drive_hit`: one more Drive cache hit, no other counter moves. */
    method RecordDriveHit()
      modifies this`stats
      ensures stats == old(stats).(driveHits := old(stats).driveHits + 1)
    {
      stats := stats.(driveHits := stats.driveHits + 1);
    }

    /** `record_drive_miss`: one more Drive cache miss, no other counter moves. */
    method RecordDriveMiss()
      modifies this`stats
      ensures stats == old(stats).(driveMisses := old(stats).driveMisses + 1)
    {
      stats := stats.(driveMisses := stats.driveMisses + 1);
    }

    /** `record_wix_hit`: one more Wix media cache hit, no other counter moves. */
    method RecordWixHit()
      modifies this`stats
      ensures stats == old(stats).(wixHits := old(stats).wixHits + 1)
    {
      stats := stats.(wixHits := stats.wixHits + 1);
    }

    /** `record_wix_upload`: one more Wix upload, no other counter moves. */
    method RecordWixUpload()
      modifies this`stats
      ensures stats == old(stats).(wixUploads := old(stats).wixUploads + 1)
    {
      stats := stats.(wixUploads := stats.wixUploads + 1);
    }
  }

  /** Storing a download and reading it back gives the download; the media cache sees no change. */
  method DriveCacheRoundTrip(rt: SyncRuntime, fileId: string, payload: DrivePayload) returns (read: Option<DrivePayload>)
    modifies rt`driveCache
    ensures read == Some(payload)
    ensures rt.wixCache == old(rt.wixCache)
  {
    rt.CacheDriveFile(fileId, payload);
    read := rt.GetCachedDriveFile(fileId);
  }

  /** Asking for the Wix client twice yields one instance. */
  method ClientMemoised(rt: SyncRuntime) returns (first: Result<WixClient, string>, second: Result<WixClient, string>)
    modifies rt`wixClient
    ensures first.Ok? ==> second == first
  {
    first := rt.GetWixClient();
    second := rt.GetWixClient();
  }
}
