/**
 * The current revision's DiskCache: a size-bounded store of archived cached
 * responses, one file per key, with a manifest recording the size and the
 * keys from oldest to newest.
 *
 * The environment is a `Config`: the size cap, whether the cache directory
 * resolves, the two operating-system probes and the MD5 digest. The archived
 * length of each item and whether its write succeeds are inputs.
 */
module DiskCache {
  import opened Wrappers
  import opened Encoding
  import opened Requests
  import opened Lists
  import opened CacheStorage

  /** Manifest key of the recorded size (it holds the current size, not the cap). */
  const MaxCacheSizeKey := "maxCacheSize"

  /** What the cache learns from its environment, fixed for its lifetime. */
  datatype Config = Config(
    maxCacheSize: int,
    hasDirectory: bool,
    isAtLeastiOS8: bool,
    osMajorVersion: int,
    md5: seq<byte> -> seq<byte>)

  /** The environment's answers for each item a store may archive. */
  datatype StoreOutcomes = StoreOutcomes(
    whole: SaveOutcome,
    response: SaveOutcome,
    data: SaveOutcome,
    userInfo: SaveOutcome)

  // ---------------------------------------------------------------- keys

  /** Letters and digits (the ASCII part of NSCharacterSet.alphanumericCharacterSet). */
  predicate IsAlphanumeric(c: char) {
    ('a' <= c <= 'z') || ('A' <= c <= 'Z') || ('0' <= c <= '9')
  }

  predicate AllAlphanumeric(s: string) {
    forall i :: 0 <= i < |s| ==> IsAlphanumeric(s[i])
  }

  /** The fallback key: the string with every non-alphanumeric character dropped. */
  function Alphanumerics(s: string): (r: string)
    ensures AllAlphanumeric(r)
    ensures |r| <= |s|
  {
    if s == [] then [] else (if IsAlphanumeric(s[0]) then [s[0]] else []) + Alphanumerics(s[1..])
  }

  /** A string made only of letters and digits is its own fallback key. */
  lemma {:induction false} AlphanumericsKeepsAlphanumeric(s: string)
    requires AllAlphanumeric(s)
    ensures Alphanumerics(s) == s
  {
    if s != [] {
      AlphanumericsKeepsAlphanumeric(s[1..]);
    }
  }

  /** The fallback key of a fallback key is itself. */
  lemma AlphanumericsIdempotent(s: string)
    ensures Alphanumerics(Alphanumerics(s)) == Alphanumerics(s)
  {
    AlphanumericsKeepsAlphanumeric(Alphanumerics(s));
  }

  /** Distinct URL strings can share a fallback key: punctuation is simply dropped. */
  lemma FallbackKeysCollide()
    ensures Alphanumerics("a/b") == Alphanumerics("a.b")
    ensures "a/b" != "a.b"
  {
    assert "a/b"[1..] == "/b" && "a.b"[1..] == ".b" && "/b"[1..] == "b" && ".b"[1..] == "b";
    assert Alphanumerics("b") == "b" by {
      assert "b"[1..] == [];
    }
    assert Alphanumerics("/b") == "b";
    assert Alphanumerics(".b") == "b";
  }

  /**
   * hashForURLString: the MD5 digest of the UTF-8 bytes as lowercase hex from
   * major version 9 on, the alphanumeric fallback before it. Either way the
   * key is made of letters and digits only.
   */
  function HashForURLString(cfg: Config, s: string): (r: Option<string>)
    ensures r.Some? && AllAlphanumeric(r.value)
  {
    if cfg.osMajorVersion >= 9 then Some(Hex(cfg.md5(Utf8(s)))) else Some(Alphanumerics(s))
  }

  /** Before version 9, hashing a key again gives the same key. */
  lemma FallbackHashIdempotent(cfg: Config, s: string)
    requires cfg.osMajorVersion < 9
    ensures HashForURLString(cfg, HashForURLString(cfg, s).value) == HashForURLString(cfg, s)
  {
    AlphanumericsIdempotent(s);
  }

  /** hashForRequest: a key exactly when the request has a URL. */
  function HashForRequest(cfg: Config, request: Request): (r: Option<string>)
    ensures r.Some? <==> request.url.Some?
    ensures r.Some? ==> r == HashForURLString(cfg, request.url.value.absoluteString)
  {
    if request.url.Some? then HashForURLString(cfg, request.url.value.absoluteString) else None
  }

  /** File names of the three pieces of a split record (before iOS 8). */
  function HashForResponseFromHash(hash: string): (r: string)
    ensures |r| > |hash| && r[..|hash|] == hash && r[|hash|] == '_'
  {
    hash + "_response"
  }

  function HashForDataFromHash(hash: string): (r: string)
    ensures |r| > |hash| && r[..|hash|] == hash && r[|hash|] == '_'
  {
    hash + "_data"
  }

  function HashForUserInfoFromHash(hash: string): (r: string)
    ensures |r| > |hash| && r[..|hash|] == hash && r[|hash|] == '_'
  {
    hash + "_userInfo"
  }

  /** The two probes read the same system version: iOS 8 or later exactly when its major version is 8 or more. */
  predicate ValidConfig(cfg: Config) {
    cfg.isAtLeastiOS8 <==> cfg.osMajorVersion >= 8
  }

  /** The three piece names of one key are pairwise distinct. */
  lemma PieceNamesDistinct(hash: string)
    ensures HashForResponseFromHash(hash) != HashForDataFromHash(hash)
    ensures HashForResponseFromHash(hash) != HashForUserInfoFromHash(hash)
    ensures HashForDataFromHash(hash) != HashForUserInfoFromHash(hash)
  {
    assert HashForResponseFromHash(hash)[|hash| + 1] == 'r';
    assert HashForDataFromHash(hash)[|hash| + 1] == 'd';
    assert HashForUserInfoFromHash(hash)[|hash| + 1] == 'u';
  }

  /** No piece name is a key: keys are alphanumeric and piece names contain `_`. */
  lemma PieceNamesAreNotKeys(hash: string)
    ensures !AllAlphanumeric(HashForResponseFromHash(hash))
    ensures !AllAlphanumeric(HashForDataFromHash(hash))
    ensures !AllAlphanumeric(HashForUserInfoFromHash(hash))
  {
    assert !IsAlphanumeric(HashForResponseFromHash(hash)[|hash|]);
    assert !IsAlphanumeric(HashForDataFromHash(hash)[|hash|]);
    assert !IsAlphanumeric(HashForUserInfoFromHash(hash)[|hash|]);
  }

  /** In a key followed by a suffix starting with `_`, the first `_` sits right after the key. */
  lemma SeparatorAt(h: string, x: string)
    requires AllAlphanumeric(h) && |x| > 0 && x[0] == '_'
    ensures IndexOf(h + x, '_') == |h|
  {
    assert (h + x)[..|h|] == h;
    assert (h + x)[|h|] == '_';
  }

  /** An alphanumeric key followed by a suffix starting with `_` can be split back uniquely. */
  lemma SplitAtSeparator(h1: string, x: string, h2: string, y: string)
    requires AllAlphanumeric(h1) && AllAlphanumeric(h2)
    requires |x| > 0 && x[0] == '_' && |y| > 0 && y[0] == '_'
    requires h1 + x == h2 + y
    ensures h1 == h2 && x == y
  {
    SeparatorAt(h1, x);
    SeparatorAt(h2, y);
    assert h1 == (h1 + x)[..|h1|] && h2 == (h2 + y)[..|h2|];
    assert x == (h1 + x)[|h1|..] && y == (h2 + y)[|h2|..];
  }

  /** Piece names of different keys never coincide, whatever the pieces. */
  lemma PieceNamesInjective(h1: string, h2: string)
    requires AllAlphanumeric(h1) && AllAlphanumeric(h2) && h1 != h2
    ensures forall s1, s2 :: s1 in {"_response", "_data", "_userInfo"} && s2 in {"_response", "_data", "_userInfo"} ==> h1 + s1 != h2 + s2
  {
    forall s1, s2 | s1 in {"_response", "_data", "_userInfo"} && s2 in {"_response", "_data", "_userInfo"}
      ensures h1 + s1 != h2 + s2
    {
      if h1 + s1 == h2 + s2 {
        SplitAtSeparator(h1, s1, h2, s2);
      }
    }
  }

  // ---------------------------------------------------------------- store

  /**
   * saveObject: an item is admitted only when the directory resolves and its
   * archived length is strictly below the cap. Admission adds the length,
   * moves the key to the newest end, trims, persists the manifest and then
   * writes the file; the result is the write's success.
   */
  function SavedObject(cfg: Config, d: Disk, item: Archived, hash: string, out: SaveOutcome): (r: (Disk, bool))
    ensures !(cfg.hasDirectory && out.length < cfg.maxCacheSize) ==> r == (d, false)
    ensures r.1 <==> cfg.hasDirectory && out.length < cfg.maxCacheSize && out.writeOk
    ensures cfg.hasDirectory && out.length < cfg.maxCacheSize ==>
      && (r.0.currentSize <= cfg.maxCacheSize || r.0.requestCaches == [])
      && r.0.plist == Plist(DictionaryForCache(MaxCacheSizeKey, r.0.currentSize, r.0.requestCaches))
    ensures r.1 ==> hash in r.0.files && r.0.files[hash] == FileEntry(item, out.length)
  {
    if cfg.hasDirectory && out.length < cfg.maxCacheSize then
      var trimmed := Evict(Admitted(d, hash, out.length), cfg.maxCacheSize, true);
      Written(Persisted(MaxCacheSizeKey, trimmed, true), hash, FileEntry(item, out.length), out.writeOk)
    else (d, false)
  }

  /** Without eviction, an admitted save records exactly its length and lists its key last. */
  lemma SaveWithoutEviction(cfg: Config, d: Disk, item: Archived, hash: string, out: SaveOutcome)
    requires cfg.hasDirectory && out.length < cfg.maxCacheSize
    requires d.currentSize + out.length <= cfg.maxCacheSize
    ensures SavedObject(cfg, d, item, hash, out).0.currentSize == d.currentSize + out.length
    ensures SavedObject(cfg, d, item, hash, out).0.requestCaches == MoveToEnd(d.requestCaches, hash)
  {
  }

  /** Without eviction, a save changes the files only by writing its own, and only when the write succeeds. */
  lemma SaveFilesWithoutEviction(cfg: Config, d: Disk, item: Archived, hash: string, out: SaveOutcome)
    requires cfg.hasDirectory && out.length < cfg.maxCacheSize
    requires d.currentSize + out.length <= cfg.maxCacheSize
    ensures SavedObject(cfg, d, item, hash, out).0.files
         == if out.writeOk then d.files[hash := FileEntry(item, out.length)] else d.files
  {
    var a := Admitted(d, hash, out.length);
    assert Evict(a, cfg.maxCacheSize, true) == a;
  }

  /** Without eviction, a save leaves every other file as it was. */
  lemma SaveKeepsOtherFile(cfg: Config, d: Disk, item: Archived, hash: string, out: SaveOutcome, name: string)
    requires cfg.hasDirectory && out.length < cfg.maxCacheSize
    requires d.currentSize + out.length <= cfg.maxCacheSize
    requires name != hash && name in d.files
    ensures name in SavedObject(cfg, d, item, hash, out).0.files
    ensures SavedObject(cfg, d, item, hash, out).0.files[name] == d.files[name]
  {
    var a := Admitted(d, hash, out.length);
    assert Evict(a, cfg.maxCacheSize, true) == a;
  }

  /**
   * storeCachedResponsePieces: the response, then the data, then (only when
   * present and non-empty) the user info, each saved under its piece name;
   * a failed save stops the remaining ones.
   */
  function StoredPieces(cfg: Config, d: Disk, cached: CachedResponse, hash: string, outs: StoreOutcomes): (r: (Disk, bool))
    ensures !cfg.hasDirectory ==> r == (d, false)
    ensures r.1 ==> outs.response.writeOk && outs.data.writeOk
  {
    var s1 := SavedObject(cfg, d, ArchivedResponse(cached.response), HashForResponseFromHash(hash), outs.response);
    if !s1.1 then s1
    else
      var s2 := SavedObject(cfg, s1.0, ArchivedData(cached.data), HashForDataFromHash(hash), outs.data);
      if !s2.1 then s2
      else if cached.userInfo.Some? && cached.userInfo.value != map[] then
        SavedObject(cfg, s2.0, ArchivedUserInfo(cached.userInfo.value), HashForUserInfoFromHash(hash), outs.userInfo)
      else s2
  }

  /** storeCachedResponse: no key, no change; otherwise one whole record from iOS 8 on, pieces before. */
  function Stored(cfg: Config, d: Disk, cached: CachedResponse, request: Request, outs: StoreOutcomes): (r: (Disk, bool))
    ensures request.url.None? ==> r == (d, false)
    ensures !cfg.hasDirectory ==> r == (d, false)
  {
    match HashForRequest(cfg, request)
    case None => (d, false)
    case Some(hash) =>
      if cfg.isAtLeastiOS8 then SavedObject(cfg, d, ArchivedCachedResponse(cached), hash, outs.whole)
      else StoredPieces(cfg, d, cached, hash, outs)
  }

  // ---------------------------------------------------------------- queries

  /** The user info unarchived from the key's user-info piece, if that file exists and holds one. */
  function UserInfoPiece(d: Disk, hash: string): (r: Option<map<string, string>>)
    ensures r.Some? ==> HashForUserInfoFromHash(hash) in d.files
  {
    var userInfoName := HashForUserInfoFromHash(hash);
    if userInfoName in d.files && d.files[userInfoName].contents.ArchivedUserInfo?
    then Some(d.files[userInfoName].contents.userInfo) else None
  }

  /**
   * cachedResponseFromPiecesForRequest: the response and the data are
   * required; the user info is whatever the key's user-info file holds, if any.
   */
  function CachedResponseFromPieces(d: Disk, hash: string): (r: Option<CachedResponse>)
    ensures r.Some? ==> HashForResponseFromHash(hash) in d.files && HashForDataFromHash(hash) in d.files
    ensures r.Some? ==> r.value.userInfo == UserInfoPiece(d, hash)
  {
    var responseName, dataName := HashForResponseFromHash(hash), HashForDataFromHash(hash);
    if responseName in d.files && d.files[responseName].contents.ArchivedResponse?
      && dataName in d.files && d.files[dataName].contents.ArchivedData?
    then Some(CachedResponse(d.files[responseName].contents.response, d.files[dataName].contents.data, UserInfoPiece(d, hash)))
    else None
  }

  /** cachedResponseForRequest: reads the record, or reassembles it from pieces before iOS 8. */
  function CachedResponseFor(cfg: Config, d: Disk, request: Request): (r: Option<CachedResponse>)
    ensures request.url.None? || !cfg.hasDirectory ==> r.None?
  {
    match HashForRequest(cfg, request)
    case None => None
    case Some(hash) =>
      if !cfg.hasDirectory then None
      else if cfg.isAtLeastiOS8 then
        if hash in d.files && d.files[hash].contents.ArchivedCachedResponse?
        then Some(d.files[hash].contents.cached) else None
      else CachedResponseFromPieces(d, hash)
  }

  /** hasCachedResponseForRequest: whether a file exists under the request's key. */
  function HasCachedResponseFor(cfg: Config, d: Disk, request: Request): (b: bool)
    ensures b ==> cfg.hasDirectory && request.url.Some?
    ensures cfg.isAtLeastiOS8 && CachedResponseFor(cfg, d, request).Some? ==> b
  {
    match HashForRequest(cfg, request)
    case None => false
    case Some(hash) => cfg.hasDirectory && hash in d.files
  }

  /** hasCacheForRequest's meaning: the request has a key and the manifest lists it. */
  function HasCacheFor(cfg: Config, d: Disk, request: Request): (b: bool)
    ensures b <==> request.url.Some? && HashForURLString(cfg, request.url.value.absoluteString).value in d.requestCaches
  {
    match HashForRequest(cfg, request)
    case None => false
    case Some(hash) => hash in d.requestCaches
  }

  /**
   * clearCache: the directory it removes is the one named by `path`, but the
   * cache's files and its manifest resolve beside that directory (its URL has
   * no trailing `/`), so removing it deletes none of them. A successful clear
   * only empties the in-memory key list; the files, the manifest and the
   * recorded size stay as they were.
   */
  function Cleared(d: Disk, dirOk: bool, removeOk: bool): (r: Disk)
    ensures r.currentSize == d.currentSize && r.files == d.files && r.plist == d.plist
    ensures dirOk && removeOk ==> r.requestCaches == []
    ensures !(dirOk && removeOk) ==> r == d
  {
    if dirOk && removeOk then d.(requestCaches := []) else d
  }

  // ---------------------------------------------------------------- the cache item

  class DiskCache {
    const config: Config
    var currentSize: int
    var requestCaches: seq<string>
    var files: map<string, FileEntry>
    var plist: PlistFile

    /** The cache's state as a value. */
    function State(): Disk
      reads this
    {
      CacheStorage.Disk(currentSize, requestCaches, files, plist)
    }

    /** init: starts empty over the given directory contents and loads the manifest. */
    constructor(config: Config, files: map<string, FileEntry>, plist: PlistFile)
      ensures this.config == config
      ensures State() == LoadedProperties(MaxCacheSizeKey, CacheStorage.Disk(0, [], files, plist), config.hasDirectory)
    {
      this.config := config;
      currentSize := 0;
      requestCaches := [];
      this.files := files;
      this.plist := plist;
      new;
      LoadPropertiesFromDisk();
    }

    /** loadPropertiesFromDisk. */
    method LoadPropertiesFromDisk()
      modifies this
      ensures State() == LoadedProperties(MaxCacheSizeKey, old(State()), config.hasDirectory)
    {
      if config.hasDirectory {
        match plist
        case NoPlist =>
          PersistPropertiesToDisk();
        case UnreadablePlist =>
        case Plist(dict) =>
          if MaxCacheSizeKey in dict && dict[MaxCacheSizeKey].PlistInteger? {
            currentSize := dict[MaxCacheSizeKey].n;
          }
          if RequestsFilenameArrayKey in dict && dict[RequestsFilenameArrayKey].PlistStringArray? {
            requestCaches := dict[RequestsFilenameArrayKey].items;
          }
      }
    }

    /** persistPropertiesToDisk. */
    method PersistPropertiesToDisk()
      modifies this
      ensures State() == Persisted(MaxCacheSizeKey, old(State()), config.hasDirectory)
    {
      if config.hasDirectory {
        plist := Plist(DictionaryForCache(MaxCacheSizeKey, currentSize, requestCaches));
      }
    }

    /** clearCache; `removeOk` is whether removing the directory succeeds. */
    method ClearCache(removeOk: bool)
      modifies this
      ensures State() == Cleared(old(State()), config.hasDirectory, removeOk)
    {
      if config.hasDirectory {
        if removeOk {
          requestCaches := [];
        }
      }
    }

    /** trimCacheIfNeeded: pops the oldest key while the recorded size exceeds the cap. */
    method TrimCacheIfNeeded()
      modifies this
      ensures State() == Evict(old(State()), config.maxCacheSize, config.hasDirectory)
    {
      while currentSize > config.maxCacheSize && requestCaches != []
        invariant Evict(State(), config.maxCacheSize, config.hasDirectory)
               == Evict(old(State()), config.maxCacheSize, config.hasDirectory)
        decreases |requestCaches|
      {
        EvictPopsOldest(State(), config.maxCacheSize, config.hasDirectory);
        RemoveOldestKey();
      }
    }

    /**
     * One pass of the trimming loop: the oldest key leaves the list and, when
     * the directory resolves, its file's size (if the file exists) is
     * subtracted and the file is removed.
     */
    method RemoveOldestKey()
      requires requestCaches != []
      modifies this
      ensures State() == PopOldest(old(State()), config.hasDirectory)
    {
      var fileName := requestCaches[0];
      requestCaches := requestCaches[1..];
      if config.hasDirectory {
        if fileName in files {
          currentSize := currentSize - files[fileName].size;
        }
        files := files - {fileName};
      }
    }

    /**
     * The admission step of saveObject: the length is added and the key is
     * searched for, removed where found and appended.
     */
    method AdmitKey(hash: string, length: nat)
      modifies this
      ensures State() == Admitted(old(State()), hash, length)
    {
      currentSize := currentSize + length;
      var index := FindIndex(requestCaches, hash);
      if index != -1 {
        requestCaches := RemoveAt(requestCaches, index);
      }
      requestCaches := requestCaches + [hash];
    }

    /** saveObject. */
    method SaveObject(item: Archived, hash: string, out: SaveOutcome) returns (success: bool)
      modifies this
      ensures (State(), success) == SavedObject(config, old(State()), item, hash, out)
    {
      success := false;
      if config.hasDirectory {
        if out.length < config.maxCacheSize {
          AdmitKey(hash, out.length);
          TrimCacheIfNeeded();
          PersistPropertiesToDisk();
          success := WriteFile(hash, FileEntry(item, out.length), out.writeOk);
        }
      }
    }

    /** The archive write that ends a save; `writeOk` is whether writing the file succeeds. */
    method WriteFile(hash: string, entry: FileEntry, writeOk: bool) returns (success: bool)
      modifies this
      ensures (State(), success) == Written(old(State()), hash, entry, writeOk)
    {
      success := false;
      if writeOk {
        files := files[hash := entry];
        success := true;
      }
    }

    /** storeCachedResponsePieces. */
    method StoreCachedResponsePieces(cached: CachedResponse, hash: string, outs: StoreOutcomes) returns (success: bool)
      modifies this
      ensures (State(), success) == StoredPieces(config, old(State()), cached, hash, outs)
    {
      success := true;
      success := SaveObject(ArchivedResponse(cached.response), HashForResponseFromHash(hash), outs.response);
      if success {
        success := SaveObject(ArchivedData(cached.data), HashForDataFromHash(hash), outs.data);
      }
      if cached.userInfo.Some? && cached.userInfo.value != map[] {
        if success {
          success := SaveObject(ArchivedUserInfo(cached.userInfo.value), HashForUserInfoFromHash(hash), outs.userInfo);
        }
      }
    }

    /** storeCachedResponse. */
    method StoreCachedResponse(cached: CachedResponse, request: Request, outs: StoreOutcomes) returns (success: bool)
      modifies this
      ensures (State(), success) == Stored(config, old(State()), cached, request, outs)
    {
      success := false;
      var hash := HashForRequest(config, request);
      if hash.Some? {
        if config.isAtLeastiOS8 {
          success := SaveObject(ArchivedCachedResponse(cached), hash.value, outs.whole);
        } else {
          success := StoreCachedResponsePieces(cached, hash.value, outs);
        }
      }
    }

    /** hasCacheForRequest: a search of the manifest for the request's key. */
    method HasCacheForRequest(request: Request) returns (b: bool)
      ensures b == HasCacheFor(config, State(), request)
    {
      var hash := HashForRequest(config, request);
      if hash.Some? {
        for i := 0 to |requestCaches|
          invariant hash.value !in requestCaches[..i]
        {
          if hash.value == requestCaches[i] {
            return true;
          }
          assert requestCaches[..i + 1] == requestCaches[..i] + [requestCaches[i]];
        }
        assert requestCaches[..|requestCaches|] == requestCaches;
      }
      return false;
    }
  }

  // ---------------------------------------------------------------- properties

  /** From iOS 8 on, a store that is admitted and written is read back unchanged. */
  lemma StoreThenRetrieve(cfg: Config, d: Disk, cached: CachedResponse, request: Request, outs: StoreOutcomes)
    requires cfg.isAtLeastiOS8 && cfg.hasDirectory && request.url.Some?
    requires outs.whole.length < cfg.maxCacheSize && outs.whole.writeOk
    ensures Stored(cfg, d, cached, request, outs).1
    ensures CachedResponseFor(cfg, Stored(cfg, d, cached, request, outs).0, request) == Some(cached)
    ensures HasCachedResponseFor(cfg, Stored(cfg, d, cached, request, outs).0, request)
  {
  }

  /** Before iOS 8 a store of a request with a URL is the pieces store under the request's key. */
  lemma StoredIsPieces(cfg: Config, d: Disk, cached: CachedResponse, request: Request, outs: StoreOutcomes)
    requires !cfg.isAtLeastiOS8 && request.url.Some?
    ensures Stored(cfg, d, cached, request, outs) == StoredPieces(cfg, d, cached, HashForRequest(cfg, request).value, outs)
  {
  }

  /**
   * Before iOS 8, a store whose pieces all fit without eviction is reassembled
   * unchanged (user info present and non-empty, so its piece is written).
   */
  lemma PiecesStoreThenRetrieve(cfg: Config, d: Disk, cached: CachedResponse, hash: string, outs: StoreOutcomes)
    requires cfg.hasDirectory
    requires cached.userInfo.Some? && cached.userInfo.value != map[]
    requires outs.response.writeOk && outs.data.writeOk && outs.userInfo.writeOk
    requires outs.response.length < cfg.maxCacheSize && outs.data.length < cfg.maxCacheSize
    requires outs.userInfo.length < cfg.maxCacheSize
    requires d.currentSize + outs.response.length + outs.data.length + outs.userInfo.length <= cfg.maxCacheSize
    ensures StoredPieces(cfg, d, cached, hash, outs).1
    ensures CachedResponseFromPieces(StoredPieces(cfg, d, cached, hash, outs).0, hash) == Some(cached)
  {
    var rName, dName, uName := HashForResponseFromHash(hash), HashForDataFromHash(hash), HashForUserInfoFromHash(hash);
    PieceNamesDistinct(hash);
    var rItem, dItem, uItem := ArchivedResponse(cached.response), ArchivedData(cached.data), ArchivedUserInfo(cached.userInfo.value);
    var s1 := SavedObject(cfg, d, rItem, rName, outs.response);
    SaveWithoutEviction(cfg, d, rItem, rName, outs.response);
    var s2 := SavedObject(cfg, s1.0, dItem, dName, outs.data);
    SaveWithoutEviction(cfg, s1.0, dItem, dName, outs.data);
    var s3 := SavedObject(cfg, s2.0, uItem, uName, outs.userInfo);
    SaveWithoutEviction(cfg, s2.0, uItem, uName, outs.userInfo);
    assert StoredPieces(cfg, d, cached, hash, outs) == s3;
    SaveKeepsOtherFile(cfg, s1.0, dItem, dName, outs.data, rName);
    SaveKeepsOtherFile(cfg, s2.0, uItem, uName, outs.userInfo, rName);
    SaveKeepsOtherFile(cfg, s2.0, uItem, uName, outs.userInfo, dName);
    PiecesReadBack(s3.0, hash, cached);
  }

  /**
   * Before iOS 8, a pieces store with no user info to write (absent or empty)
   * whose pieces fit without eviction reads back its response and data, with
   * whatever user info the key's user-info file held before the store.
   */
  lemma PiecesStoreWithoutUserInfo(cfg: Config, d: Disk, cached: CachedResponse, hash: string, outs: StoreOutcomes)
    requires cfg.hasDirectory
    requires cached.userInfo.None? || cached.userInfo == Some(map[])
    requires outs.response.writeOk && outs.data.writeOk
    requires outs.response.length < cfg.maxCacheSize && outs.data.length < cfg.maxCacheSize
    requires d.currentSize + outs.response.length + outs.data.length <= cfg.maxCacheSize
    ensures StoredPieces(cfg, d, cached, hash, outs).1
    ensures CachedResponseFromPieces(StoredPieces(cfg, d, cached, hash, outs).0, hash)
         == Some(CachedResponse(cached.response, cached.data, UserInfoPiece(d, hash)))
  {
    var rName, dName := HashForResponseFromHash(hash), HashForDataFromHash(hash);
    PieceNamesDistinct(hash);
    var rItem, dItem := ArchivedResponse(cached.response), ArchivedData(cached.data);
    var s1 := SavedObject(cfg, d, rItem, rName, outs.response);
    SaveWithoutEviction(cfg, d, rItem, rName, outs.response);
    SaveFilesWithoutEviction(cfg, d, rItem, rName, outs.response);
    var s2 := SavedObject(cfg, s1.0, dItem, dName, outs.data);
    SaveFilesWithoutEviction(cfg, s1.0, dItem, dName, outs.data);
    assert StoredPieces(cfg, d, cached, hash, outs) == s2;
    assert s2.0.files == d.files[rName := FileEntry(rItem, outs.response.length)][dName := FileEntry(dItem, outs.data.length)];
    assert UserInfoPiece(s2.0, hash) == UserInfoPiece(d, hash);
  }

  /** A pieces store without user info, over a key with no user-info file, reads back no user info. */
  lemma PiecesStoreWithoutUserInfoReadsNone(cfg: Config, d: Disk, cached: CachedResponse, hash: string, outs: StoreOutcomes)
    requires cfg.hasDirectory
    requires cached.userInfo.None? || cached.userInfo == Some(map[])
    requires HashForUserInfoFromHash(hash) !in d.files
    requires outs.response.writeOk && outs.data.writeOk
    requires outs.response.length < cfg.maxCacheSize && outs.data.length < cfg.maxCacheSize
    requires d.currentSize + outs.response.length + outs.data.length <= cfg.maxCacheSize
    ensures CachedResponseFromPieces(StoredPieces(cfg, d, cached, hash, outs).0, hash)
         == Some(CachedResponse(cached.response, cached.data, None))
  {
    PiecesStoreWithoutUserInfo(cfg, d, cached, hash, outs);
  }

  /**
   * A pieces store without user info over a key whose user-info file survives
   * from an earlier store reads back that stale user info.
   */
  lemma PiecesStoreKeepsStaleUserInfo(cfg: Config, d: Disk, cached: CachedResponse, hash: string, outs: StoreOutcomes,
                                      stale: map<string, string>)
    requires cfg.hasDirectory
    requires cached.userInfo.None?
    requires HashForUserInfoFromHash(hash) in d.files
    requires d.files[HashForUserInfoFromHash(hash)].contents == ArchivedUserInfo(stale)
    requires outs.response.writeOk && outs.data.writeOk
    requires outs.response.length < cfg.maxCacheSize && outs.data.length < cfg.maxCacheSize
    requires d.currentSize + outs.response.length + outs.data.length <= cfg.maxCacheSize
    ensures CachedResponseFromPieces(StoredPieces(cfg, d, cached, hash, outs).0, hash)
         == Some(CachedResponse(cached.response, cached.data, Some(stale)))
  {
    PiecesStoreWithoutUserInfo(cfg, d, cached, hash, outs);
  }

  /** The three pieces of a cached response, each under its name, reassemble into it. */
  lemma PiecesReadBack(d: Disk, hash: string, cached: CachedResponse)
    requires cached.userInfo.Some?
    requires HashForResponseFromHash(hash) in d.files
    requires d.files[HashForResponseFromHash(hash)].contents == ArchivedResponse(cached.response)
    requires HashForDataFromHash(hash) in d.files
    requires d.files[HashForDataFromHash(hash)].contents == ArchivedData(cached.data)
    requires HashForUserInfoFromHash(hash) in d.files
    requires d.files[HashForUserInfoFromHash(hash)].contents == ArchivedUserInfo(cached.userInfo.value)
    ensures CachedResponseFromPieces(d, hash) == Some(cached)
  {
  }

  /** A save into a cache with no keys that fits lists only its key and records only its length. */
  lemma SaveIntoEmpty(cfg: Config, d: Disk, item: Archived, hash: string, out: SaveOutcome)
    requires cfg.hasDirectory && out.length < cfg.maxCacheSize && out.writeOk
    requires d.currentSize == 0 && d.requestCaches == []
    ensures var r := SavedObject(cfg, d, item, hash, out).0;
      r.requestCaches == [hash] && r.currentSize == out.length && hash in r.files && r.files[hash].size == out.length
  {
    SaveWithoutEviction(cfg, d, item, hash, out);
  }

  /**
   * A save that pushes a cache holding a single key over the cap evicts that
   * key's file, even when the key belongs to the same record.
   */
  lemma SaveEvictsSoleEntry(cfg: Config, d: Disk, item: Archived, hash: string, out: SaveOutcome, name: string)
    requires cfg.hasDirectory && out.length < cfg.maxCacheSize
    requires d.requestCaches == [name] && name != hash && name in d.files
    requires d.files[name].size == d.currentSize && d.currentSize + out.length > cfg.maxCacheSize
    ensures name !in SavedObject(cfg, d, item, hash, out).0.files
  {
    var admitted := Admitted(d, hash, out.length);
    assert admitted.requestCaches == [name, hash] by {
      assert IndexOf([name], hash) == -1;
    }
    var popped := PopOldest(admitted, true);
    assert popped.currentSize == out.length;
    EvictSinglePop(admitted, cfg.maxCacheSize, true);
    assert name !in popped.files;
  }

  /**
   * Before iOS 8 a store can report success although its own response piece
   * was evicted while the data piece was admitted, so nothing can be read back.
   */
  lemma PiecesStoreCanEvictItsOwnResponse()
    ensures var cfg := Config(10, true, false, 7, b => b);
      ValidConfig(cfg) &&
      var request := RequestWithURL(Url("http", "a"));
      var cached := CachedResponse(Response(None, Some(200)), [], None);
      var outs := StoreOutcomes(SaveOutcome(0, true), SaveOutcome(6, true), SaveOutcome(6, true), SaveOutcome(0, true));
      var r := Stored(cfg, CacheStorage.Disk(0, [], map[], NoPlist), cached, request, outs);
      r.1 && CachedResponseFor(cfg, r.0, request).None?
  {
    var cfg := Config(10, true, false, 7, b => b);
    var request := RequestWithURL(Url("http", "a"));
    var cached := CachedResponse(Response(None, Some(200)), [], None);
    var outs := StoreOutcomes(SaveOutcome(0, true), SaveOutcome(6, true), SaveOutcome(6, true), SaveOutcome(0, true));
    var d0 := CacheStorage.Disk(0, [], map[], NoPlist);
    assert Alphanumerics("a") == "a";
    assert HashForRequest(cfg, request) == Some("a");
    PieceNamesDistinct("a");
    var rName, dName := HashForResponseFromHash("a"), HashForDataFromHash("a");
    var d1 := SavedObject(cfg, d0, ArchivedResponse(cached.response), rName, outs.response).0;
    SaveIntoEmpty(cfg, d0, ArchivedResponse(cached.response), rName, outs.response);
    SaveEvictsSoleEntry(cfg, d1, ArchivedData(cached.data), dName, outs.data, rName);
  }

  /** Re-storing a listed key adds its length again: the earlier copy's length is not subtracted. */
  lemma RestoreCountsTwice(cfg: Config, d: Disk, first: CachedResponse, second: CachedResponse,
                           request: Request, outs1: StoreOutcomes, outs2: StoreOutcomes)
    requires cfg.isAtLeastiOS8 && cfg.hasDirectory && request.url.Some?
    requires outs1.whole.length < cfg.maxCacheSize && outs2.whole.length < cfg.maxCacheSize
    requires d.currentSize + outs1.whole.length + outs2.whole.length <= cfg.maxCacheSize
    requires NoDuplicates(d.requestCaches)
    ensures var d1 := Stored(cfg, d, first, request, outs1).0;
      var d2 := Stored(cfg, d1, second, request, outs2).0;
      d2.currentSize == d.currentSize + outs1.whole.length + outs2.whole.length
      && d2.requestCaches == d1.requestCaches
  {
    var hash := HashForRequest(cfg, request).value;
    SaveWithoutEviction(cfg, d, ArchivedCachedResponse(first), hash, outs1.whole);
    var d1 := Stored(cfg, d, first, request, outs1).0;
    SaveWithoutEviction(cfg, d1, ArchivedCachedResponse(second), hash, outs2.whole);
    ReadmissionCountsTwice(d, hash, outs1.whole.length, outs2.whole.length);
  }

  /**
   * The two membership tests disagree after a failed write: the key is listed
   * (hasCacheForRequest) but no file exists under it (hasCachedResponseForRequest).
   */
  lemma FailedWriteIsListedWithoutFile(cfg: Config, d: Disk, cached: CachedResponse, request: Request, outs: StoreOutcomes)
    requires cfg.isAtLeastiOS8 && cfg.hasDirectory && request.url.Some?
    requires outs.whole.length < cfg.maxCacheSize && !outs.whole.writeOk
    requires d.currentSize + outs.whole.length <= cfg.maxCacheSize
    requires HashForRequest(cfg, request).value !in d.files
    ensures !Stored(cfg, d, cached, request, outs).1
    ensures HasCacheFor(cfg, Stored(cfg, d, cached, request, outs).0, request)
    ensures !HasCachedResponseFor(cfg, Stored(cfg, d, cached, request, outs).0, request)
  {
    var hash := HashForRequest(cfg, request).value;
    var a := Admitted(d, hash, outs.whole.length);
    assert Evict(a, cfg.maxCacheSize, true) == a;
    assert hash !in a.files;
  }

  /** Any key an admitted save lists was listed before or is the saved key. */
  lemma SavedListsOnly(cfg: Config, d: Disk, item: Archived, hash: string, out: SaveOutcome, x: string)
    requires x in SavedObject(cfg, d, item, hash, out).0.requestCaches
    ensures x in d.requestCaches || x == hash
  {
    if cfg.hasDirectory && out.length < cfg.maxCacheSize {
      var a := Admitted(d, hash, out.length);
      EvictListsOnly(a, cfg.maxCacheSize, true, x);
      MoveToEndMembers(d.requestCaches, hash, x);
    }
  }

  /**
   * Before iOS 8 a store lists only piece names, never the request's own key,
   * so hasCacheForRequest stays false and an untagged response is never refreshed.
   */
  lemma PiecesStoreIsNotListed(cfg: Config, d: Disk, cached: CachedResponse, request: Request, outs: StoreOutcomes)
    requires !cfg.isAtLeastiOS8 && request.url.Some?
    requires !HasCacheFor(cfg, d, request)
    ensures !HasCacheFor(cfg, Stored(cfg, d, cached, request, outs).0, request)
  {
    var hash := HashForRequest(cfg, request).value;
    PieceNamesDistinct(hash);
    var rName, dName, uName := HashForResponseFromHash(hash), HashForDataFromHash(hash), HashForUserInfoFromHash(hash);
    var d1 := SavedObject(cfg, d, ArchivedResponse(cached.response), rName, outs.response).0;
    if hash in d1.requestCaches {
      SavedListsOnly(cfg, d, ArchivedResponse(cached.response), rName, outs.response, hash);
    }
    var d2 := SavedObject(cfg, d1, ArchivedData(cached.data), dName, outs.data).0;
    if hash in d2.requestCaches {
      SavedListsOnly(cfg, d1, ArchivedData(cached.data), dName, outs.data, hash);
    }
    if cached.userInfo.Some? && cached.userInfo.value != map[] {
      var d3 := SavedObject(cfg, d2, ArchivedUserInfo(cached.userInfo.value), uName, outs.userInfo).0;
      if hash in d3.requestCaches {
        SavedListsOnly(cfg, d2, ArchivedUserInfo(cached.userInfo.value), uName, outs.userInfo, hash);
      }
    }
  }

  /**
   * A clear does not survive a restart: when the manifest on disk is the
   * persisted state (as after every admitted save), restarting after a
   * successful clear reloads the key list and the size from before the clear.
   */
  lemma ClearThenRestart(d: Disk)
    requires d.plist == Plist(DictionaryForCache(MaxCacheSizeKey, d.currentSize, d.requestCaches))
    ensures var c := Cleared(d, true, true);
      var restarted := LoadedProperties(MaxCacheSizeKey, CacheStorage.Disk(0, [], c.files, c.plist), true);
      && c.requestCaches == []
      && restarted.requestCaches == d.requestCaches && restarted.currentSize == d.currentSize
  {
    var c := Cleared(d, true, true);
    PersistThenLoad(MaxCacheSizeKey, d, CacheStorage.Disk(0, [], c.files, c.plist));
  }

  /**
   * Clearing after an admitted save and restarting brings the saved key list
   * and size back.
   */
  lemma SaveClearRestart(cfg: Config, d: Disk, item: Archived, hash: string, out: SaveOutcome)
    requires cfg.hasDirectory && out.length < cfg.maxCacheSize
    ensures var r := SavedObject(cfg, d, item, hash, out).0;
      var c := Cleared(r, true, true);
      var restarted := LoadedProperties(MaxCacheSizeKey, CacheStorage.Disk(0, [], c.files, c.plist), true);
      restarted.requestCaches == r.requestCaches && restarted.currentSize == r.currentSize
  {
    ClearThenRestart(SavedObject(cfg, d, item, hash, out).0);
  }

  /** After an admitted save, restarting the cache over its directory restores the size and the key list. */
  lemma SaveThenRestart(cfg: Config, d: Disk, item: Archived, hash: string, out: SaveOutcome)
    requires cfg.hasDirectory && out.length < cfg.maxCacheSize
    ensures var r := SavedObject(cfg, d, item, hash, out).0;
      var restarted := LoadedProperties(MaxCacheSizeKey, CacheStorage.Disk(0, [], r.files, r.plist), true);
      restarted.currentSize == r.currentSize && restarted.requestCaches == r.requestCaches
  {
    var r := SavedObject(cfg, d, item, hash, out).0;
    PersistThenLoad(MaxCacheSizeKey, r, CacheStorage.Disk(0, [], r.files, r.plist));
  }
}
