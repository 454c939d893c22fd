/**
 * The on-disk side of a disk cache, shared by both revisions: the directory of
 * archived files, the property-list manifest, and the eviction rule that
 * pops the oldest keys until the recorded size fits.
 *
 * Archiving is not modelled byte by byte: a file holds the archived object
 * itself together with its archived length, and that length is an input.
 */
module CacheStorage {
  import opened Wrappers
  import opened Encoding
  import opened Requests
  import opened Lists

  /** The root object of an archive: a whole cached response, or one of its three pieces. */
  datatype Archived =
    | ArchivedCachedResponse(cached: CachedResponse)
    | ArchivedResponse(response: Response)
    | ArchivedData(data: seq<byte>)
    | ArchivedUserInfo(userInfo: map<string, string>)

  /** A file in the cache directory: its archived object and its size in bytes. */
  datatype FileEntry = FileEntry(contents: Archived, size: nat)

  /** What the environment answers when an object is archived and written: its length, and whether the write succeeds. */
  datatype SaveOutcome = SaveOutcome(length: nat, writeOk: bool)

  /** A property-list value as read back by `valueForKey`: an integer, an array of strings, or anything else. */
  datatype PlistValue = PlistInteger(n: int) | PlistStringArray(items: seq<string>) | PlistOther

  /** The manifest file: absent, present but not a readable dictionary, or a dictionary. */
  datatype PlistFile = NoPlist | UnreadablePlist | Plist(dict: map<string, PlistValue>)

  /**
   * A disk cache's state: the recorded size, the ordered key list (oldest
   * first), the files of its directory and its manifest.
   */
  datatype Disk = Disk(
    currentSize: int,
    requestCaches: seq<string>,
    files: map<string, FileEntry>,
    plist: PlistFile)

  /** Manifest key of the key list, the same in both revisions. */
  const RequestsFilenameArrayKey := "requestsFilenameArray"

  /** The manifest dictionary: the recorded size under `sizeKey` and the key list. */
  function DictionaryForCache(sizeKey: string, currentSize: int, requestCaches: seq<string>): (r: map<string, PlistValue>)
    requires sizeKey != RequestsFilenameArrayKey
    ensures r.Keys == {sizeKey, RequestsFilenameArrayKey}
    ensures r[sizeKey] == PlistInteger(currentSize)
    ensures r[RequestsFilenameArrayKey] == PlistStringArray(requestCaches)
  {
    map[sizeKey := PlistInteger(currentSize), RequestsFilenameArrayKey := PlistStringArray(requestCaches)]
  }

  /** Writes the manifest, when the cache directory resolves. */
  function Persisted(sizeKey: string, d: Disk, dirOk: bool): (r: Disk)
    requires sizeKey != RequestsFilenameArrayKey
    ensures r.currentSize == d.currentSize && r.requestCaches == d.requestCaches && r.files == d.files
    ensures dirOk ==> (
      && r.plist.Plist? && r.plist.dict.Keys == {sizeKey, RequestsFilenameArrayKey}
      && r.plist.dict[sizeKey] == PlistInteger(d.currentSize)
      && r.plist.dict[RequestsFilenameArrayKey] == PlistStringArray(d.requestCaches))
    ensures !dirOk ==> r == d
  {
    if dirOk then d.(plist := Plist(DictionaryForCache(sizeKey, d.currentSize, d.requestCaches))) else d
  }

  /**
   * Loading the manifest into a cache whose fields hold `d.currentSize` and
   * `d.requestCaches`: an absent manifest is written out from those fields;
   * a readable one overwrites each field whose entry has the right type.
   */
  function LoadedProperties(sizeKey: string, d: Disk, dirOk: bool): (r: Disk)
    requires sizeKey != RequestsFilenameArrayKey
    ensures r.files == d.files
    ensures !dirOk || !d.plist.Plist? ==> r.currentSize == d.currentSize && r.requestCaches == d.requestCaches
    ensures dirOk && d.plist.NoPlist? ==> r.plist == Plist(DictionaryForCache(sizeKey, d.currentSize, d.requestCaches))
  {
    if !dirOk then d
    else match d.plist
      case NoPlist => Persisted(sizeKey, d, dirOk)
      case UnreadablePlist => d
      case Plist(dict) =>
        var size := if sizeKey in dict && dict[sizeKey].PlistInteger? then dict[sizeKey].n else d.currentSize;
        var list :=
          if RequestsFilenameArrayKey in dict && dict[RequestsFilenameArrayKey].PlistStringArray?
          then dict[RequestsFilenameArrayKey].items
          else d.requestCaches;
        d.(currentSize := size, requestCaches := list)
  }

  /** Persisting the manifest and then loading it into a fresh cache restores the size and the key list. */
  lemma PersistThenLoad(sizeKey: string, d: Disk, restarted: Disk)
    requires sizeKey != RequestsFilenameArrayKey
    requires restarted.plist == Persisted(sizeKey, d, true).plist
    ensures LoadedProperties(sizeKey, restarted, true).currentSize == d.currentSize
    ensures LoadedProperties(sizeKey, restarted, true).requestCaches == d.requestCaches
  {
  }

  /**
   * One pass of the eviction loop: pops the oldest key and, when the directory
   * resolves, subtracts the size of its file if the file exists and removes it.
   */
  function PopOldest(d: Disk, dirOk: bool): (r: Disk)
    requires d.requestCaches != []
    ensures r.requestCaches == d.requestCaches[1..]
    ensures r.plist == d.plist
    ensures r.currentSize <= d.currentSize
  {
    var name := d.requestCaches[0];
    var rest := d.(requestCaches := d.requestCaches[1..]);
    if !dirOk then rest
    else if name in d.files then rest.(currentSize := d.currentSize - d.files[name].size, files := d.files - {name})
    else rest.(files := d.files - {name})
  }

  /** A key whose file is missing still leaves the list, and the recorded size stays as it was. */
  lemma PopMissingFile(d: Disk, dirOk: bool)
    requires d.requestCaches != [] && d.requestCaches[0] !in d.files
    ensures PopOldest(d, dirOk).currentSize == d.currentSize
    ensures PopOldest(d, dirOk).files == d.files
  {
  }

  /** Pops the oldest keys while the recorded size exceeds `maxSize` and keys remain. */
  function Evict(d: Disk, maxSize: int, dirOk: bool): (r: Disk)
    ensures r.currentSize <= maxSize || r.requestCaches == []
    ensures |r.requestCaches| <= |d.requestCaches|
    ensures r.plist == d.plist
    ensures d.currentSize <= maxSize ==> r == d
    decreases |d.requestCaches|
  {
    if d.currentSize > maxSize && d.requestCaches != [] then Evict(PopOldest(d, dirOk), maxSize, dirOk) else d
  }

  /**
   * Eviction removes keys only from the front, so the keys it keeps are a
   * suffix of the old list, and it never increases the recorded size.
   */
  lemma {:induction false} EvictKeepsSuffix(d: Disk, maxSize: int, dirOk: bool)
    ensures var r := Evict(d, maxSize, dirOk);
      r.requestCaches == d.requestCaches[|d.requestCaches| - |r.requestCaches|..]
    ensures Evict(d, maxSize, dirOk).currentSize <= d.currentSize
    decreases |d.requestCaches|
  {
    if d.currentSize > maxSize && d.requestCaches != [] {
      var p := PopOldest(d, dirOk);
      EvictKeepsSuffix(p, maxSize, dirOk);
      var r := Evict(p, maxSize, dirOk);
      assert d.requestCaches[1..][|d.requestCaches| - 1 - |r.requestCaches|..]
          == d.requestCaches[|d.requestCaches| - |r.requestCaches|..];
    }
  }

  /** When one pop brings the size under the cap, eviction is that one pop. */
  lemma EvictSinglePop(d: Disk, maxSize: int, dirOk: bool)
    requires d.currentSize > maxSize && d.requestCaches != []
    requires PopOldest(d, dirOk).currentSize <= maxSize
    ensures Evict(d, maxSize, dirOk) == PopOldest(d, dirOk)
  {
  }

  /** Eviction only drops keys: every key it keeps was listed before. */
  lemma EvictListsOnly(d: Disk, maxSize: int, dirOk: bool, x: string)
    requires x in Evict(d, maxSize, dirOk).requestCaches
    ensures x in d.requestCaches
  {
    EvictKeepsSuffix(d, maxSize, dirOk);
    var e := Evict(d, maxSize, dirOk).requestCaches;
    var k :| 0 <= k < |e| && e[k] == x;
    assert d.requestCaches[|d.requestCaches| - |e| + k] == x;
  }

  /** Popping one key of an oversized cache is the first step of eviction. */
  lemma EvictPopsOldest(d: Disk, maxSize: int, dirOk: bool)
    requires d.currentSize > maxSize && d.requestCaches != []
    ensures Evict(PopOldest(d, dirOk), maxSize, dirOk) == Evict(d, maxSize, dirOk)
  {
  }

  /**
   * Eviction removes exactly the files of the popped keys (when the directory
   * resolves) and leaves every other file as it was.
   */
  lemma {:induction false} EvictRemovesPoppedFiles(d: Disk, maxSize: int, dirOk: bool)
    ensures var r := Evict(d, maxSize, dirOk);
      var popped := d.requestCaches[..|d.requestCaches| - |r.requestCaches|];
      forall name :: name in r.files <==> name in d.files && !(dirOk && name in popped)
    ensures var r := Evict(d, maxSize, dirOk);
      forall name :: name in r.files ==> r.files[name] == d.files[name]
    decreases |d.requestCaches|
  {
    if d.currentSize > maxSize && d.requestCaches != [] {
      var p := PopOldest(d, dirOk);
      EvictRemovesPoppedFiles(p, maxSize, dirOk);
      var r := Evict(d, maxSize, dirOk);
      assert r == Evict(p, maxSize, dirOk);
      var n := |d.requestCaches| - |r.requestCaches|;
      assert d.requestCaches[..n] == [d.requestCaches[0]] + p.requestCaches[..n - 1];
    }
  }

  /**
   * When none of the listed keys has a file, eviction leaves the recorded size
   * unchanged, so an oversized cache drops its whole key list.
   */
  lemma {:induction false} EvictWithoutFiles(d: Disk, maxSize: int, dirOk: bool)
    requires forall name :: name in d.requestCaches ==> name !in d.files
    ensures Evict(d, maxSize, dirOk).currentSize == d.currentSize
    ensures d.currentSize > maxSize ==> Evict(d, maxSize, dirOk).requestCaches == []
    decreases |d.requestCaches|
  {
    if d.currentSize > maxSize && d.requestCaches != [] {
      var p := PopOldest(d, dirOk);
      assert p.currentSize == d.currentSize;
      forall name | name in p.requestCaches ensures name !in p.files {
        assert name in d.requestCaches;
      }
      EvictWithoutFiles(p, maxSize, dirOk);
    }
  }

  /** Admission: the length is added to the recorded size and the key moves to the newest end. */
  function Admitted(d: Disk, hash: string, length: nat): (r: Disk)
    ensures r.currentSize == d.currentSize + length
    ensures |r.requestCaches| > 0 && r.requestCaches[|r.requestCaches| - 1] == hash
    ensures r.files == d.files && r.plist == d.plist
  {
    d.(currentSize := d.currentSize + length, requestCaches := MoveToEnd(d.requestCaches, hash))
  }

  /**
   * After admission, and before any trimming, the size has grown by exactly the
   * length, the key is the newest entry and occurs once (if it occurred at most
   * once before), and the other keys keep their relative order.
   */
  lemma AdmissionMovesKeyToEnd(d: Disk, hash: string, length: nat)
    ensures var r := Admitted(d, hash, length);
      && r.currentSize == d.currentSize + length
      && |r.requestCaches| > 0 && r.requestCaches[|r.requestCaches| - 1] == hash
      && Without(r.requestCaches, hash) == Without(d.requestCaches, hash)
      && (multiset(d.requestCaches)[hash] <= 1 ==> multiset(r.requestCaches)[hash] == 1)
      && (NoDuplicates(d.requestCaches) ==> NoDuplicates(r.requestCaches))
      && r.files == d.files && r.plist == d.plist
  {
    MoveToEndKeepsOrder(d.requestCaches, hash);
    MoveToEndCounts(d.requestCaches, hash);
    MoveToEndKeepsNoDuplicates(d.requestCaches, hash);
  }

  /** The final write of a store: the file is replaced when the write succeeds, and the result is that success. */
  function Written(d: Disk, hash: string, entry: FileEntry, writeOk: bool): (r: (Disk, bool))
    ensures r.1 == writeOk
    ensures r.0.currentSize == d.currentSize && r.0.requestCaches == d.requestCaches && r.0.plist == d.plist
    ensures writeOk ==> r.0.files == d.files[hash := entry]
    ensures !writeOk ==> r.0.files == d.files
  {
    if writeOk then (d.(files := d.files[hash := entry]), true) else (d, false)
  }

  /** Re-admitting a key that is already listed adds its length again: the earlier length is not subtracted. */
  lemma ReadmissionCountsTwice(d: Disk, hash: string, first: nat, second: nat)
    ensures Admitted(Admitted(d, hash, first), hash, second).currentSize == d.currentSize + first + second
    ensures multiset(d.requestCaches)[hash] <= 1 ==>
      Admitted(Admitted(d, hash, first), hash, second).requestCaches == Admitted(d, hash, first).requestCaches
  {
    if multiset(d.requestCaches)[hash] <= 1 {
      MoveToEndIdempotent(d.requestCaches, hash);
    }
  }
}
