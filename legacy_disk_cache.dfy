/**
 * The older revision's DiskCache: one archived cached response per request,
 * stored under a key made from the hexadecimal rendering of the URL string's
 * UTF-8 bytes, with the same manifest and eviction loop as the current
 * revision but no oversize check and no split records.
 *
 * The environment is the cap and whether the cache directory resolves. The
 * archived length of each response and whether its write succeeds are inputs.
 */
module LegacyDiskCache {
  import opened Wrappers
  import opened Encoding
  import opened Requests
  import opened Lists
  import opened CacheStorage

  /** Manifest key of the recorded size in this revision. */
  const CacheSizeKey := "cacheSize"

  /** The cap and whether the cache directory resolves, fixed for the cache's lifetime. */
  datatype Config = Config(cacheSize: int, hasDirectory: bool)

  // ---------------------------------------------------------------- keys

  /**
   * hashForURLString: the description of the UTF-8 bytes (`<68656c6c 6f>`)
   * with spaces and angle brackets removed, which is the plain lowercase hex
   * rendering of those bytes.
   */
  function HashForURLString(s: string): (r: string)
    ensures r == Hex(Utf8(s))
  {
    StripDescriptionIsHex(Utf8(s));
    StripFormatting(Description(Utf8(s)))
  }

  /** Distinct URL strings get distinct keys, so their files never collide. */
  lemma HashForURLStringInjective(s: string, t: string)
    requires s != t
    ensures HashForURLString(s) != HashForURLString(t)
  {
    Utf8Injective(s, t);
    HexInjective(Utf8(s), Utf8(t));
  }

  /** The key of a request: the key of its URL's absolute string (the URL must be present). */
  function HashForRequest(request: Request): (r: string)
    requires request.url.Some?
    ensures r == Hex(Utf8(request.url.value.absoluteString))
  {
    HashForURLString(request.url.value.absoluteString)
  }

  // ---------------------------------------------------------------- store and retrieve

  /**
   * storeCachedResponse: when the directory resolves, the length is added,
   * the key moves to the newest end, the cache is trimmed, the manifest is
   * persisted and the file is written; the result is the write's success.
   * Whatever its size, the response is written after trimming.
   */
  function Stored(cfg: Config, d: Disk, cached: CachedResponse, request: Request, out: SaveOutcome): (r: (Disk, bool))
    requires request.url.Some?
    ensures !cfg.hasDirectory ==> r == (d, false)
    ensures r.1 <==> cfg.hasDirectory && out.writeOk
    ensures cfg.hasDirectory ==>
      && (r.0.currentSize <= cfg.cacheSize || r.0.requestCaches == [])
      && r.0.plist == Plist(DictionaryForCache(CacheSizeKey, r.0.currentSize, r.0.requestCaches))
    ensures r.1 ==>
      && HashForRequest(request) in r.0.files
      && r.0.files[HashForRequest(request)] == FileEntry(ArchivedCachedResponse(cached), out.length)
  {
    if cfg.hasDirectory then
      var hash := HashForRequest(request);
      var trimmed := Evict(Admitted(d, hash, out.length), cfg.cacheSize, true);
      Written(Persisted(CacheSizeKey, trimmed, true), hash, FileEntry(ArchivedCachedResponse(cached), out.length), out.writeOk)
    else (d, false)
  }

  /** cachedResponseForRequest: the archived response under the request's key, when there is one. */
  function CachedResponseFor(cfg: Config, d: Disk, request: Request): (r: Option<CachedResponse>)
    requires request.url.Some?
    ensures r.Some? ==> cfg.hasDirectory && HashForRequest(request) in d.files
  {
    var hash := HashForRequest(request);
    if cfg.hasDirectory && hash in d.files && d.files[hash].contents.ArchivedCachedResponse?
    then Some(d.files[hash].contents.cached)
    else None
  }

  // ---------------------------------------------------------------- the cache object

  class DiskCache {
    const config: Config
    var currentSize: int
    var requestCaches: seq<string>
    var files: map<string, FileEntry>
    var plist: PlistFile

    /** The cache's state as a value. */
    function State(): Disk
      reads this
    {
      CacheStorage.Disk(currentSize, requestCaches, files, plist)
    }

    /** init: starts empty over the given directory contents and loads the manifest. */
    constructor(config: Config, files: map<string, FileEntry>, plist: PlistFile)
      ensures this.config == config
      ensures State() == LoadedProperties(CacheSizeKey, CacheStorage.Disk(0, [], files, plist), config.hasDirectory)
    {
      this.config := config;
      currentSize := 0;
      requestCaches := [];
      this.files := files;
      this.plist := plist;
      new;
      LoadPropertiesFromDisk();
    }

    /** loadPropertiesFromDisk. */
    method LoadPropertiesFromDisk()
      modifies this
      ensures State() == LoadedProperties(CacheSizeKey, old(State()), config.hasDirectory)
    {
      if config.hasDirectory {
        match plist
        case NoPlist =>
          PersistPropertiesToDisk();
        case UnreadablePlist =>
        case Plist(dict) =>
          if CacheSizeKey in dict && dict[CacheSizeKey].PlistInteger? {
            currentSize := dict[CacheSizeKey].n;
          }
          if RequestsFilenameArrayKey in dict && dict[RequestsFilenameArrayKey].PlistStringArray? {
            requestCaches := dict[RequestsFilenameArrayKey].items;
          }
      }
    }

    /** persistPropertiesToDisk. */
    method PersistPropertiesToDisk()
      modifies this
      ensures State() == Persisted(CacheSizeKey, old(State()), config.hasDirectory)
    {
      if config.hasDirectory {
        plist := Plist(DictionaryForCache(CacheSizeKey, currentSize, requestCaches));
      }
    }

    /** trimCacheIfNeeded: pops the oldest key while the recorded size exceeds the cap. */
    method TrimCacheIfNeeded()
      modifies this
      ensures State() == Evict(old(State()), config.cacheSize, config.hasDirectory)
    {
      while currentSize > config.cacheSize && requestCaches != []
        invariant Evict(State(), config.cacheSize, config.hasDirectory)
               == Evict(old(State()), config.cacheSize, config.hasDirectory)
        decreases |requestCaches|
      {
        EvictPopsOldest(State(), config.cacheSize, config.hasDirectory);
        RemoveOldestKey();
      }
    }

    /**
     * One pass of the trimming loop: the oldest key leaves the list and, when
     * the directory resolves, its file's size (if the file exists) is
     * subtracted and the file is removed.
     */
    method RemoveOldestKey()
      requires requestCaches != []
      modifies this
      ensures State() == PopOldest(old(State()), config.hasDirectory)
    {
      var fileName := requestCaches[0];
      requestCaches := requestCaches[1..];
      if config.hasDirectory {
        if fileName in files {
          currentSize := currentSize - files[fileName].size;
        }
        files := files - {fileName};
      }
    }

    /** The admission part of storeCachedResponse: the length is added and the key found, removed and appended. */
    method AdmitKey(hash: string, length: nat)
      modifies this
      ensures State() == Admitted(old(State()), hash, length)
    {
      currentSize := currentSize + length;
      var index := -1;
      for i := 0 to |requestCaches|
        invariant index == -1 && hash !in requestCaches[..i]
      {
        if requestCaches[i] == hash {
          index := i;
          break;
        }
        assert requestCaches[..i + 1] == requestCaches[..i] + [requestCaches[i]];
      }
      assert index == -1 ==> requestCaches[..|requestCaches|] == requestCaches;
      assert index == IndexOf(requestCaches, hash);
      if index != -1 {
        requestCaches := RemoveAt(requestCaches, index);
      }
      requestCaches := requestCaches + [hash];
    }

    /** storeCachedResponse. */
    method StoreCachedResponse(cached: CachedResponse, request: Request, out: SaveOutcome) returns (success: bool)
      requires request.url.Some?
      modifies this
      ensures (State(), success) == Stored(config, old(State()), cached, request, out)
    {
      success := false;
      if config.hasDirectory {
        var hash := HashForURLString(request.url.value.absoluteString);
        AdmitKey(hash, out.length);
        TrimCacheIfNeeded();
        PersistPropertiesToDisk();
        success := WriteFile(hash, FileEntry(ArchivedCachedResponse(cached), out.length), out.writeOk);
      }
    }

    /** The archive write that ends a store; `writeOk` is whether writing the file succeeds. */
    method WriteFile(hash: string, entry: FileEntry, writeOk: bool) returns (success: bool)
      modifies this
      ensures (State(), success) == Written(old(State()), hash, entry, writeOk)
    {
      success := false;
      if writeOk {
        files := files[hash := entry];
        success := true;
      }
    }

    /** cachedResponseForRequest. */
    method CachedResponseForRequest(request: Request) returns (response: Option<CachedResponse>)
      requires request.url.Some?
      ensures response == CachedResponseFor(config, State(), request)
    {
      response := None;
      if config.hasDirectory {
        var hash := HashForURLString(request.url.value.absoluteString);
        if hash in files && files[hash].contents.ArchivedCachedResponse? {
          response := Some(files[hash].contents.cached);
        }
      }
    }
  }

  // ---------------------------------------------------------------- properties

  /** A written store is read back unchanged, whatever its size: the file is written after trimming. */
  lemma StoreThenRetrieve(cfg: Config, d: Disk, cached: CachedResponse, request: Request, out: SaveOutcome)
    requires request.url.Some? && cfg.hasDirectory && out.writeOk
    ensures Stored(cfg, d, cached, request, out).1
    ensures CachedResponseFor(cfg, Stored(cfg, d, cached, request, out).0, request) == Some(cached)
  {
  }

  /** A store that needs no eviction leaves the response of every other URL as it was. */
  lemma StoreKeepsOtherRequest(cfg: Config, d: Disk, cached: CachedResponse, request: Request, out: SaveOutcome, other: Request)
    requires request.url.Some? && other.url.Some?
    requires request.url.value.absoluteString != other.url.value.absoluteString
    requires d.currentSize + out.length <= cfg.cacheSize
    ensures CachedResponseFor(cfg, Stored(cfg, d, cached, request, out).0, other) == CachedResponseFor(cfg, d, other)
  {
    HashForURLStringInjective(request.url.value.absoluteString, other.url.value.absoluteString);
    if cfg.hasDirectory {
      var a := Admitted(d, HashForRequest(request), out.length);
      assert Evict(a, cfg.cacheSize, true) == a;
    }
  }

  /**
   * A store that needs no eviction adds exactly its length and lists its key
   * last, once, after the other keys in their old order.
   */
  lemma StoreListsKeyLast(cfg: Config, d: Disk, cached: CachedResponse, request: Request, out: SaveOutcome)
    requires request.url.Some? && cfg.hasDirectory
    requires d.currentSize + out.length <= cfg.cacheSize
    requires NoDuplicates(d.requestCaches)
    ensures var r := Stored(cfg, d, cached, request, out).0;
      var hash := HashForRequest(request);
      && r.currentSize == d.currentSize + out.length
      && r.requestCaches[|r.requestCaches| - 1] == hash
      && Without(r.requestCaches, hash) == Without(d.requestCaches, hash)
      && NoDuplicates(r.requestCaches)
  {
    var hash := HashForRequest(request);
    var a := Admitted(d, hash, out.length);
    AdmissionMovesKeyToEnd(d, hash, out.length);
    assert Evict(a, cfg.cacheSize, true) == a;
  }

  /**
   * With no oversize check, a response larger than the cap on an empty cache
   * is written and readable, yet its key is evicted from the manifest at
   * once and the recorded size stays above the cap.
   */
  lemma OversizeStoreIsWrittenButUnlisted(cfg: Config, cached: CachedResponse, request: Request, out: SaveOutcome)
    requires request.url.Some? && cfg.hasDirectory && out.writeOk
    requires cfg.cacheSize < out.length
    ensures var r := Stored(cfg, CacheStorage.Disk(0, [], map[], NoPlist), cached, request, out).0;
      && r.requestCaches == []
      && r.currentSize == out.length
      && CachedResponseFor(cfg, r, request) == Some(cached)
  {
    var hash := HashForRequest(request);
    var d := CacheStorage.Disk(0, [], map[], NoPlist);
    var a := Admitted(d, hash, out.length);
    assert a.requestCaches == [hash];
    assert Evict(a, cfg.cacheSize, true) == PopOldest(a, true);
  }

  /** Re-storing a request adds its length again: the earlier copy's length is not subtracted. */
  lemma RestoreCountsTwice(cfg: Config, d: Disk, first: CachedResponse, second: CachedResponse,
                           request: Request, out1: SaveOutcome, out2: SaveOutcome)
    requires request.url.Some? && cfg.hasDirectory
    requires d.currentSize + out1.length + out2.length <= cfg.cacheSize
    requires NoDuplicates(d.requestCaches)
    ensures var d1 := Stored(cfg, d, first, request, out1).0;
      var d2 := Stored(cfg, d1, second, request, out2).0;
      d2.currentSize == d.currentSize + out1.length + out2.length
      && d2.requestCaches == d1.requestCaches
  {
    var hash := HashForRequest(request);
    var a1 := Admitted(d, hash, out1.length);
    assert Evict(a1, cfg.cacheSize, true) == a1;
    var d1 := Stored(cfg, d, first, request, out1).0;
    var a2 := Admitted(d1, hash, out2.length);
    assert Evict(a2, cfg.cacheSize, true) == a2;
    ReadmissionCountsTwice(d, hash, out1.length, out2.length);
  }

  /** Persisting the manifest under "cacheSize" and loading it into a fresh cache restores both fields. */
  lemma ManifestRoundTrip(d: Disk, files: map<string, FileEntry>)
    ensures var restarted := CacheStorage.Disk(0, [], files, Persisted(CacheSizeKey, d, true).plist);
      var loaded := LoadedProperties(CacheSizeKey, restarted, true);
      loaded.currentSize == d.currentSize && loaded.requestCaches == d.requestCaches
  {
    PersistThenLoad(CacheSizeKey, d, CacheStorage.Disk(0, [], files, Persisted(CacheSizeKey, d, true).plist));
  }
}
