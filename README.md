# Mattress, modelled in Dafny

Mattress is an offline HTTP response cache for iOS web views. A `WebViewCacher` loads a page in an off-screen
web view and tags every request the page makes. `URLProtocol` takes those requests, and `URLCache` (an
`NSURLCache` subclass) sends their responses to a size-bounded `DiskCache`. Later, when the app is offline or
asks for it, the protocol serves requests from that disk cache.

Two revisions of the four components are modelled, each as its own set of modules:

| component | current revision (`Source/`) | older revision (`Mattress/Mattress/`) |
|---|---|---|
| disk cache | `DiskCache` | `LegacyDiskCache` |
| URL cache | `URLCache` | `LegacyURLCache` |
| protocol | `URLProtocol` | `LegacyURLProtocol` |
| page crawler | `WebViewCacher` | `LegacyWebViewCacher` |

Shared modules:

- `Wrappers`: the optional type.
- `Lists`: first-occurrence search, `removeAtIndex`, and the "move the key to the newest end" update of the
  manifest list.
- `Encoding`: UTF-8, lowercase hex, and the printed form of an `NSData` value.
- `Requests`: requests, responses, request property keys and the tag predicates.
- `CacheStorage`: the cache directory and the manifest, plus the eviction rule both revisions share.

Objects whose fields the source updates are Dafny classes. Each class offers `State()` as a value, and each
state-changing method is proved to produce `F(old(State()), inputs)` for a function `F`. The properties are
then proved about `F`.

What the environment decides becomes an input:

- the archived length of each item and whether its write succeeds (`SaveOutcome`, `StoreOutcomes`);
- whether the cache directory resolves, the operating-system probes and the MD5 digest (`DiskCache.Config`);
- whether removing the directory succeeds;
- what a loaded handler answers, the code of a load error, and what the offline handler answers;
- what the underlying `NSURLCache` would return.

What a URL cache hands to the underlying `NSURLCache` is recorded in its `fallbackStores` log. Handlers are
modelled by their presence. The current `URLCache` keeps, for each cacher it made, whether the
`completeHandler` and the `failureHandler` captured by that cacher's closures are still set. The protocol's
module-level cache list and registration state are the fields of a `Registry` object. `URLCache.init` adds
itself to that registry, which is modelled as `Registry.InitURLCache`.

## Model

| member | source | states |
|---|---|---|
| Lists.FindIndex | Source/DiskCache.swift:247-253 | The hand-written search loop returns the index of the first occurrence of the key, or -1 when the list does not hold it. |
| Lists.IndexOf | Source/URLProtocol.swift:110-119 | The first-occurrence index used by `indexOf`/`find`: -1 exactly when the element is absent, otherwise a position holding it with no earlier occurrence. |
| Lists.MoveToEndKeepsOrder | Source/DiskCache.swift:254-257 | After removing the key and appending it, the other keys are in the same relative order as before. |
| Lists.MoveToEndIdempotent | Source/DiskCache.swift:247-257 | Storing the same key twice in a row leaves the key list as one store does. |
| Lists.MoveToEndKeepsNoDuplicates | Source/DiskCache.swift:247-257 | The store update keeps a duplicate-free key list duplicate-free. |
| Lists.RemoveFirstFromNoDuplicates | Source/URLCache.swift:193-197 | Removing a cacher from a duplicate-free list removes every copy of it, keeps every other cacher and keeps the list duplicate-free. |
| Encoding.Utf8RoundTrip | Mattress/Mattress/DiskCache.swift:187 | UTF-8 decoding gives back the code points of the encoded string, so the encoding loses nothing. |
| Encoding.Utf8Injective | Mattress/Mattress/DiskCache.swift:187 | Distinct strings have distinct UTF-8 encodings. |
| Encoding.HexRoundTrip | Source/Extensions/String+Crypto.swift:13 | Reading the lowercase hex rendering back gives the original bytes. |
| Encoding.HexInjective | Source/Extensions/String+Crypto.swift:13 | Distinct byte sequences have distinct hex renderings. |
| Encoding.StripDescriptionIsHex | Mattress/Mattress/DiskCache.swift:188-191 | Removing spaces, `<` and `>` from the printed form of `NSData` leaves exactly the lowercase hex rendering of the bytes. |
| Requests.SetProperty | Source/WebViewCacher.swift:72-76 | Setting a property makes it read back as the given Boolean and leaves every other key, the URL, the main document URL and the cache policy as they were. |
| Requests.HasTrueProperty | Source/URLProtocol.swift:55-58 | True exactly when the request carries the Boolean `true` under the key; a `false` or a value of another type does not count. |
| Requests.RequestShouldBeStoredInMattress | Source/URLCache.swift:60-65 | True exactly when the request carries the Boolean `true` under the Mattress tag key. |
| Requests.RequestShouldBeStoredOffline | Mattress/Mattress/URLCache.swift:51-56 | True exactly when the request carries the Boolean `true` under the offline tag key. |
| Requests.IsHandled | Source/URLProtocol.swift:38-40 | True exactly when the request carries any value under the handled key. |
| Requests.TagReadsBack | Source/URLCache.swift:60-65 | The tag predicate reads back exactly the Boolean stored under its key, and storing under the other revision's key does not change it. |
| CacheStorage.DictionaryForCache | Source/DiskCache.swift:164-169 | The manifest dictionary has exactly two keys: the size key, holding the current size, and "requestsFilenameArray", holding the key list. |
| CacheStorage.Persisted | Source/DiskCache.swift:102-110 | The fields and files are unchanged. When the directory resolves, the manifest holds exactly the size and the key list; otherwise nothing changes. |
| CacheStorage.LoadedProperties | Source/DiskCache.swift:79-96 | Loading the manifest never touches the files. Without a directory, or when the manifest is unreadable, the fields stay as they were. An absent manifest is written from the current fields. |
| CacheStorage.PersistThenLoad | Source/DiskCache.swift:79-110 | Persisting the manifest and loading it into a fresh cache restores the current size and the key list. |
| CacheStorage.PopOldest | Source/DiskCache.swift:130-154 | One eviction pass removes exactly the oldest key, never increases the size and leaves the manifest alone. |
| CacheStorage.PopMissingFile | Source/DiskCache.swift:132-147 | A popped key whose file is missing still leaves the list, and the current size is not decremented. |
| CacheStorage.Evict | Source/DiskCache.swift:129-156 | The eviction loop ends with the size at most the cap or the list empty. It never lengthens the list, and it changes nothing when the size already fits. |
| CacheStorage.EvictKeepsSuffix | Source/DiskCache.swift:129-131 | Eviction removes keys only from the front, so the surviving keys are a suffix of the old list, and the size never grows. |
| CacheStorage.EvictRemovesPoppedFiles | Source/DiskCache.swift:149-153 | Eviction deletes exactly the files of the popped keys (when the directory resolves) and leaves every other file unchanged. |
| CacheStorage.EvictWithoutFiles | Source/DiskCache.swift:141-147 | When no listed key has a file, eviction cannot lower the size, so an oversized cache loses its whole key list. |
| CacheStorage.AdmissionMovesKeyToEnd | Source/DiskCache.swift:246-257 | Admission adds exactly the archived length. The key becomes the newest entry and occurs once, the other keys keep their order, and the files are untouched. |
| CacheStorage.Admitted | Source/DiskCache.swift:246-257 | The size grows by exactly the length, the key is the newest entry, and the files and the manifest are untouched. |
| CacheStorage.Written | Source/DiskCache.swift:260-266 | The final write replaces the key's file exactly when the write succeeds, and the result is that success. |
| CacheStorage.ReadmissionCountsTwice | Source/DiskCache.swift:246 | Re-admitting a listed key adds its length again without subtracting the earlier one, and leaves the key list as the first admission did. |
| DiskCache.Alphanumerics | Source/DiskCache.swift:527-528 | The fallback key contains only letters and digits and is never longer than the URL string. |
| DiskCache.AlphanumericsIdempotent | Source/DiskCache.swift:527-528 | Applying the fallback key derivation to a fallback key changes nothing. |
| DiskCache.FallbackKeysCollide | Source/DiskCache.swift:527-528 | Distinct URL strings can share a fallback key: "a/b" and "a.b" both give "ab". |
| DiskCache.HashForURLString | Source/DiskCache.swift:516-530 | There is always a key, made only of letters and digits: lowercase hex of the MD5 digest from version 9 on, and the alphanumeric fallback before it. |
| DiskCache.FallbackHashIdempotent | Source/DiskCache.swift:527-528 | Before version 9, hashing a key again gives the same key. |
| DiskCache.HashForRequest | Source/DiskCache.swift:464-469 | There is a key exactly when the request has a URL, and it is the key of the URL's absolute string. |
| DiskCache.HashForResponseFromHash | Source/DiskCache.swift:478-480 | The response piece's name is the key followed by `_` and more characters. |
| DiskCache.HashForDataFromHash | Source/DiskCache.swift:491-493 | The data piece's name is the key followed by `_` and more characters. |
| DiskCache.HashForUserInfoFromHash | Source/DiskCache.swift:504-506 | The user-info piece's name is the key followed by `_` and more characters. |
| DiskCache.PieceNamesDistinct | Source/DiskCache.swift:478-506 | The `_response`, `_data` and `_userInfo` names of one key are pairwise distinct. |
| DiskCache.PieceNamesAreNotKeys | Source/DiskCache.swift:478-506 | No piece name is itself a key, since piece names contain `_`. |
| DiskCache.PieceNamesInjective | Source/DiskCache.swift:478-506 | Piece names of different keys never coincide. |
| DiskCache.SavedObject | Source/DiskCache.swift:239-272 | Without a directory, or when the length is not strictly below the cap, nothing changes and the result is false. Otherwise the cache ends trimmed, the manifest records the final size and list, and success means the file holds the item at its length. |
| DiskCache.SaveWithoutEviction | Source/DiskCache.swift:245-257 | An admitted save needing no eviction adds exactly its length and moves the key to the newest end, even for a key already present. |
| DiskCache.SaveKeepsOtherFile | Source/DiskCache.swift:239-272 | An admitted save needing no eviction leaves every other file unchanged. |
| DiskCache.SaveFilesWithoutEviction | Source/DiskCache.swift:239-272 | An admitted save needing no eviction changes the files only by writing its own file, and only when the write succeeds. |
| DiskCache.StoredPieces | Source/DiskCache.swift:211-226 | Without a directory nothing is stored. A successful pieces store wrote both the response piece and the data piece. |
| DiskCache.Stored | Source/DiskCache.swift:181-195 | A request without a URL, or a cache without a directory, gives no change and false. |
| DiskCache.CachedResponseFromPieces | Source/DiskCache.swift:321-348 | A reassembled response requires both the response piece and the data piece to exist, and its user info is whatever the key's user-info file holds. |
| DiskCache.UserInfoPiece | Source/DiskCache.swift:335-336 | There is user info only when the key's user-info file exists. |
| DiskCache.CachedResponseFor | Source/DiskCache.swift:283-298 | There is no response for a request without a URL or for a cache without a directory. |
| DiskCache.HasCachedResponseFor | Source/DiskCache.swift:304-310 | A file exists only for a request with a URL in a cache whose directory resolves; from iOS 8 on, every response that can be read back has one. |
| DiskCache.HasCacheFor | Source/DiskCache.swift:360-369 | True exactly when the request has a URL and its key is in the key list. |
| DiskCache.Cleared | Source/DiskCache.swift:112-123 | A successful clear empties only the in-memory key list. The files, the manifest and the current size stay, because they resolve beside the removed `path` directory (lines 380, 396, 416 and 440). A failed clear changes nothing. |
| DiskCache.DiskCache.constructor | Source/DiskCache.swift:68-73 | A new cache starts empty over the given directory contents and loads the manifest. |
| DiskCache.DiskCache.LoadPropertiesFromDisk | Source/DiskCache.swift:79-96 | The new state is the loaded manifest applied to the old state, with the size under "maxCacheSize". |
| DiskCache.DiskCache.PersistPropertiesToDisk | Source/DiskCache.swift:102-110 | The manifest now records the current size and key list, when the directory resolves. |
| DiskCache.DiskCache.ClearCache | Source/DiskCache.swift:112-123 | The new state is the cleared old state: the key list is emptied, and the files, the manifest and the size survive. |
| DiskCache.DiskCache.TrimCacheIfNeeded | Source/DiskCache.swift:129-156 | The loop's final state is the eviction of the old state; it terminates because the list shrinks each pass. |
| DiskCache.DiskCache.RemoveOldestKey | Source/DiskCache.swift:131-153 | One loop pass is one pop of the oldest key. |
| DiskCache.DiskCache.AdmitKey | Source/DiskCache.swift:246-257 | The size grows by the length and the key list is the old one with the key moved to the newest end. |
| DiskCache.DiskCache.SaveObject | Source/DiskCache.swift:239-272 | State and result are exactly `SavedObject` of the old state. |
| DiskCache.DiskCache.WriteFile | Source/DiskCache.swift:261-266 | State and result are exactly the final write of the old state. |
| DiskCache.DiskCache.StoreCachedResponsePieces | Source/DiskCache.swift:211-226 | State and result are exactly `StoredPieces` of the old state; a failed save skips the remaining ones. |
| DiskCache.DiskCache.StoreCachedResponse | Source/DiskCache.swift:181-195 | State and result are exactly `Stored` of the old state. |
| DiskCache.DiskCache.HasCacheForRequest | Source/DiskCache.swift:360-369 | True exactly when the request has a key and the manifest lists that key. |
| DiskCache.StoreThenRetrieve | Source/DiskCache.swift:181-195 | From iOS 8 on, an admitted and written store succeeds and is read back unchanged, and a file exists for the request. |
| DiskCache.StoredIsPieces | Source/DiskCache.swift:186-190 | Before iOS 8, a store of a request with a URL is the pieces store under the request's key. |
| DiskCache.PiecesStoreThenRetrieve | Source/DiskCache.swift:211-226 | Before iOS 8, a pieces store with non-empty user info whose three pieces fit without eviction is reassembled unchanged. |
| DiskCache.PiecesStoreWithoutUserInfo | Source/DiskCache.swift:211-226 | Before iOS 8, a store with absent or empty user info whose two pieces fit reads back its response and data with whatever user info the key's file held before the store (lines 335-336). |
| DiskCache.PiecesStoreWithoutUserInfoReadsNone | Source/DiskCache.swift:218-222 | With no earlier user-info file, such a store reads back no user info, so an empty user-info dictionary comes back absent. |
| DiskCache.PiecesStoreKeepsStaleUserInfo | Source/DiskCache.swift:218-222 | When an earlier user-info file exists, a store without user info reads back that stale user info. |
| DiskCache.PiecesReadBack | Source/DiskCache.swift:321-348 | The three pieces of a response, each under its own name, reassemble into that response. |
| DiskCache.SaveIntoEmpty | Source/DiskCache.swift:239-272 | A fitting save into a cache with no keys lists only its key and records only its length. |
| DiskCache.SaveEvictsSoleEntry | Source/DiskCache.swift:129-156 | A save that pushes a single-key cache over the cap evicts that key's file. |
| DiskCache.PiecesStoreCanEvictItsOwnResponse | Source/DiskCache.swift:211-226 | Before iOS 8 a store can report success even though saving its data piece evicted its own response piece, so nothing can be read back. |
| DiskCache.RestoreCountsTwice | Source/DiskCache.swift:246 | Re-storing a request adds its length again, and the key list is the same as after the first store. |
| DiskCache.FailedWriteIsListedWithoutFile | Source/DiskCache.swift:304-310 | After a failed write, `hasCacheForRequest` (lines 360-369) is true while `hasCachedResponseForRequest` is false. |
| DiskCache.SavedListsOnly | Source/DiskCache.swift:247-258 | Every key listed after a save was listed before or is the saved key. |
| DiskCache.PiecesStoreIsNotListed | Source/DiskCache.swift:211-226 | Before iOS 8 only piece names are listed, so `hasCacheForRequest` stays false for the request. |
| DiskCache.SaveThenRestart | Source/DiskCache.swift:258-259 | After an admitted save, a cache restarted over the same directory restores the size and the key list. |
| DiskCache.ClearThenRestart | Source/DiskCache.swift:79-123 | When the manifest on disk is the persisted state, a restart after a successful clear reloads the key list and the size from before the clear. |
| DiskCache.SaveClearRestart | Source/DiskCache.swift:79-123 | Clearing after an admitted save and restarting brings back the saved key list and size. |
| LegacyDiskCache.HashForURLString | Mattress/Mattress/DiskCache.swift:185-193 | The key is exactly the lowercase hex rendering of the URL string's UTF-8 bytes. |
| LegacyDiskCache.HashForRequest | Mattress/Mattress/DiskCache.swift:147-152 | The key of a request is the hex rendering of the UTF-8 bytes of its URL's absolute string. |
| LegacyDiskCache.HashForURLStringInjective | Mattress/Mattress/DiskCache.swift:185-193 | Distinct URL strings give distinct keys. |
| LegacyDiskCache.Stored | Mattress/Mattress/DiskCache.swift:82-106 | Without a directory, no change and false. The result is true exactly when the directory resolves and the write succeeds, with no size check. The cache ends trimmed with the manifest recording it, and success means the file holds the response. |
| LegacyDiskCache.CachedResponseFor | Mattress/Mattress/DiskCache.swift:108-115 | A response exists only when the directory resolves and a file exists under the request's key. |
| LegacyDiskCache.DiskCache.constructor | Mattress/Mattress/DiskCache.swift:29-34 | A new cache starts empty over the given directory contents and loads the manifest. |
| LegacyDiskCache.DiskCache.LoadPropertiesFromDisk | Mattress/Mattress/DiskCache.swift:36-51 | The new state is the loaded manifest applied to the old state, with the size under "cacheSize". |
| LegacyDiskCache.DiskCache.PersistPropertiesToDisk | Mattress/Mattress/DiskCache.swift:53-58 | The manifest now records the current size and key list, when the directory resolves. |
| LegacyDiskCache.DiskCache.TrimCacheIfNeeded | Mattress/Mattress/DiskCache.swift:60-73 | The loop's final state is the eviction of the old state. |
| LegacyDiskCache.DiskCache.RemoveOldestKey | Mattress/Mattress/DiskCache.swift:62-71 | One loop pass is one pop of the oldest key; a file whose size cannot be read still leaves without changing the size. |
| LegacyDiskCache.DiskCache.AdmitKey | Mattress/Mattress/DiskCache.swift:87-100 | The size grows by the length; the `for` search finds the key's first occurrence, which is removed before the key is appended. |
| LegacyDiskCache.DiskCache.StoreCachedResponse | Mattress/Mattress/DiskCache.swift:82-106 | State and result are exactly `Stored` of the old state. |
| LegacyDiskCache.DiskCache.WriteFile | Mattress/Mattress/DiskCache.swift:103 | State and result are exactly the final write of the old state. |
| LegacyDiskCache.DiskCache.CachedResponseForRequest | Mattress/Mattress/DiskCache.swift:108-115 | The result is the archived response under the request's key. |
| LegacyDiskCache.StoreThenRetrieve | Mattress/Mattress/DiskCache.swift:82-115 | A written store succeeds and is read back unchanged, whatever its size. |
| LegacyDiskCache.StoreKeepsOtherRequest | Mattress/Mattress/DiskCache.swift:82-106 | A store needing no eviction leaves the response of every other URL as it was. |
| LegacyDiskCache.StoreListsKeyLast | Mattress/Mattress/DiskCache.swift:87-100 | A store needing no eviction adds exactly its length. Its key is listed last and once, and the other keys keep their order. |
| LegacyDiskCache.OversizeStoreIsWrittenButUnlisted | Mattress/Mattress/DiskCache.swift:82-106 | With no oversize check, a response larger than the cap is written and readable, yet its key is evicted at once and the size stays above the cap. |
| LegacyDiskCache.RestoreCountsTwice | Mattress/Mattress/DiskCache.swift:87 | Re-storing a request adds its length again, and the key list is the same as after the first store. |
| LegacyDiskCache.ManifestRoundTrip | Mattress/Mattress/DiskCache.swift:75-80 | Persisting under "cacheSize"/"requestsFilenameArray" and loading into a fresh cache restores both fields. |
| WebViewCacher.MutableRequestForRequest | Source/WebViewCacher.swift:72-76 | The copy is tagged for the Mattress disk cache, and its URL, main document URL, policy and other properties are unchanged. |
| WebViewCacher.DidOriginate | Source/WebViewCacher.swift:52-59 | Nothing is claimed without a main document URL. With one, a request is claimed exactly when its main document URL or its URL equals it. |
| WebViewCacher.WebViewCacher.DidOriginateRequest | Source/WebViewCacher.swift:52-59 | The cacher claims a request exactly when `DidOriginate` holds for its current main document URL. |
| WebViewCacher.CacheURL | Source/WebViewCacher.swift:93-101 | All three handlers and a web view are installed, and exactly one request is loaded: the page URL, tagged. |
| WebViewCacher.Finished | Source/WebViewCacher.swift:122-138 | Completion fires exactly when a completion handler is set and there is no loaded handler or it answers true. A rejected finish changes nothing; a complete one drops the web view and clears the completion handler. |
| WebViewCacher.Failed | Source/WebViewCacher.swift:140-157 | A nil error or code -999 changes nothing. Any other error fires the failure handler if it is set and clears it. |
| WebViewCacher.StartedLoad | Source/WebViewCacher.swift:159-167 | The main document URL is overwritten, even with nil. An untagged navigation is refused and re-issued tagged, a tagged one is allowed, and the handlers are untouched. |
| WebViewCacher.WebViewCacher.constructor | Source/WebViewCacher.swift:26-34 | Every handler, the document URL and the web view start out nil. |
| WebViewCacher.WebViewCacher.MattressCacheURL | Source/WebViewCacher.swift:93-101 | The new state is `CacheURL` of the old state. |
| WebViewCacher.WebViewCacher.LoadURLInWebView | Source/WebViewCacher.swift:110-118 | A web view is set and the tagged request for the URL is appended to its loads. |
| WebViewCacher.WebViewCacher.WebViewDidFinishLoad | Source/WebViewCacher.swift:122-138 | State and result are exactly `Finished` of the old state. |
| WebViewCacher.WebViewCacher.DidFailLoadWithError | Source/WebViewCacher.swift:140-157 | State and result are exactly `Failed` of the old state. |
| WebViewCacher.WebViewCacher.ShouldStartLoadWithRequest | Source/WebViewCacher.swift:159-167 | State and result are exactly `StartedLoad` of the old state. |
| WebViewCacher.RetaggingChangesNothing | Source/WebViewCacher.swift:72-76 | Tagging an already tagged request gives the same request. |
| WebViewCacher.ClaimsTheLastNavigatedDocument | Source/WebViewCacher.swift:52-59 | A fresh cacher claims nothing. After a navigation it claims a request exactly when the request's main document URL or URL equals that navigation's main document URL, and nothing when that URL is nil. |
| WebViewCacher.Step | Source/WebViewCacher.swift:122-167 | No callback installs a handler, and a handler that fires is cleared by that callback. |
| WebViewCacher.HandlersFireAtMostOnce | Source/WebViewCacher.swift:128-155 | Over any sequence of callbacks, completion and failure each fire at most once, and never when not installed. |
| WebViewCacher.FailureCanFollowCompletion | Source/WebViewCacher.swift:147-155 | A failure after completion still fires the failure handler, since the two handlers are cleared independently. |
| WebViewCacher.RejectedFinishChangesNothing | Source/WebViewCacher.swift:123-128 | A finish that the loaded handler rejects changes nothing and fires nothing. |
| LegacyWebViewCacher.MutableRequestForRequest | Mattress/Mattress/WebViewCacher.swift:40-44 | The copy is tagged for the offline cache, and everything else is unchanged. |
| LegacyWebViewCacher.DidOriginate | Mattress/Mattress/WebViewCacher.swift:26-33 | Nothing is claimed without a main document URL. With one, a request is claimed exactly when its main document URL equals it; its own URL is not compared. |
| LegacyWebViewCacher.WebViewCacher.DidOriginateRequest | Mattress/Mattress/WebViewCacher.swift:26-33 | The cacher claims a request exactly when `DidOriginate` holds for its current main document URL. |
| LegacyWebViewCacher.CacheURL | Mattress/Mattress/WebViewCacher.swift:46-50 | Both handlers are stored before the tagged page request is loaded in a new web view. |
| LegacyWebViewCacher.Finished | Mattress/Mattress/WebViewCacher.swift:66-76 | The state never changes. Completion fires exactly when a completion handler is set and there is no loaded handler or it answers true. |
| LegacyWebViewCacher.StartedLoad | Mattress/Mattress/WebViewCacher.swift:78-87 | The main document URL is overwritten. Untagged requests are refused and re-issued tagged, tagged ones are allowed, and the handlers are untouched. |
| LegacyWebViewCacher.WebViewCacher.constructor | Mattress/Mattress/WebViewCacher.swift:21-24 | Both handlers, the document URL and the web view start out nil. |
| LegacyWebViewCacher.WebViewCacher.OfflineCacheURL | Mattress/Mattress/WebViewCacher.swift:46-50 | The new state is `CacheURL` of the old state. |
| LegacyWebViewCacher.WebViewCacher.LoadURLInWebView | Mattress/Mattress/WebViewCacher.swift:54-61 | A web view is set and the tagged request for the URL is appended to its loads. |
| LegacyWebViewCacher.WebViewCacher.WebViewDidFinishLoad | Mattress/Mattress/WebViewCacher.swift:66-76 | State and result are exactly `Finished` of the old state. |
| LegacyWebViewCacher.WebViewCacher.ShouldStartLoadWithRequest | Mattress/Mattress/WebViewCacher.swift:78-87 | State and result are exactly `StartedLoad` of the old state. |
| LegacyWebViewCacher.Step | Mattress/Mattress/WebViewCacher.swift:66-87 | No callback installs or clears a handler. |
| LegacyWebViewCacher.CompletionFiresOnEveryAcceptedFinish | Mattress/Mattress/WebViewCacher.swift:71-75 | The completion handler is never cleared, so it fires on every accepted finish. |
| LegacyWebViewCacher.NothingFiresWithoutHandler | Mattress/Mattress/WebViewCacher.swift:71-75 | Without a completion handler nothing ever fires. |
| LegacyWebViewCacher.PageRequestIsNotClaimed | Mattress/Mattress/WebViewCacher.swift:26-33 | A plain request for a page, whose main document URL is unset, is never claimed, since only the main document URL is compared. |
| URLCache.MainsOf | Source/URLCache.swift:120-127 | The main document URLs of the cachers, position by position. |
| URLCache.OriginatingIndex | Source/URLCache.swift:120-127 | The index of the first cacher that claims the request, or -1 when none does. |
| URLCache.OriginatingIndexIsFirst | Source/URLCache.swift:120-127 | A claiming position with no earlier claimer, or -1 when no position claims, is the first-match index. |
| URLCache.Retrieved | Source/URLCache.swift:152-158 | The disk cache's response when it has one, otherwise exactly the underlying cache's answer. |
| URLCache.Routed | Source/URLCache.swift:135-150 | A response goes to the underlying cache exactly when its request is untagged. An untagged response whose key is not listed leaves the disk cache unchanged. |
| URLCache.URLCache.constructor | Source/URLCache.swift:85-92 | A new cache has a fresh disk cache that has loaded its manifest, and no cachers. |
| URLCache.URLCache.WebViewCacherOriginatingRequest | Source/URLCache.swift:120-127 | The search loop returns the first cacher in list order that claims the request, or none. |
| URLCache.URLCache.ClearDiskCache | Source/URLCache.swift:131-133 | The disk cache is cleared: its key list is emptied, and its files, manifest and size are kept. |
| URLCache.URLCache.StoreCachedResponse | Source/URLCache.swift:135-150 | Disk cache and fallback log are exactly as routed: tagged responses go only to the disk cache; untagged ones are logged and refresh a listed disk entry when the status is below 400. |
| URLCache.URLCache.CachedResponseForRequest | Source/URLCache.swift:152-158 | The result is `Retrieved`: a disk hit first, otherwise the underlying answer. |
| URLCache.URLCache.HasMattressCachedResponseForRequest | Source/URLCache.swift:160-162 | True exactly when a file exists under the request's key. |
| URLCache.URLCache.DiskCacheURL | Source/URLCache.swift:180-206 | Exactly one fresh cacher is appended and starts loading the page, and its closures capture the given handlers. |
| URLCache.URLCache.WebViewDidFinishLoad | Source/URLCache.swift:193-201 | A completing finish removes the cacher and runs the completeHandler at most once, since it is then cleared. A rejected finish changes nothing. |
| URLCache.URLCache.Completed | Source/URLCache.swift:193-201 | The closure removes the cacher from the list and runs the captured completeHandler only if it is still set, then clears it. |
| URLCache.URLCache.DidFailLoadWithError | Source/URLCache.swift:202-205 | A reported failure runs the failureHandler at most once and leaves the cacher in the list. |
| URLCache.TaggedStoreThenRetrieve | Source/URLCache.swift:136-137 | A tagged response is not handed to the underlying cache, and once written it is what retrieval returns, whatever the underlying cache answers. |
| URLCache.UntaggedStoreOnlyRefreshes | Source/URLCache.swift:138-148 | An untagged response always goes to the underlying cache. It touches the disk cache only when storable and already listed, and (from iOS 8 on) adds no key. |
| URLCache.FailureResponseNeverReachesMattress | Source/URLCache.swift:141-143 | An untagged response with status 400 or above leaves the disk cache unchanged. |
| LegacyURLCache.MainsOf | Mattress/Mattress/URLCache.swift:77-84 | The main document URLs of the cachers, position by position. |
| LegacyURLCache.OriginatingIndex | Mattress/Mattress/URLCache.swift:77-84 | The index of the first cacher that claims the request, or -1. |
| LegacyURLCache.OriginatingIndexIsFirst | Mattress/Mattress/URLCache.swift:77-84 | A claiming position with no earlier claimer, or -1 when none claims, is the first-match index. |
| LegacyURLCache.Retrieved | Mattress/Mattress/URLCache.swift:96-103 | The offline cache's response when it has one, otherwise exactly the underlying cache's answer. |
| LegacyURLCache.Routed | Mattress/Mattress/URLCache.swift:88-94 | A response goes to the underlying cache exactly when its request is untagged, and then the offline cache is unchanged. |
| LegacyURLCache.URLCache.constructor | Mattress/Mattress/URLCache.swift:25-26 | A new cache has a fresh 100 MB offline cache that has loaded its manifest, and no cachers. |
| LegacyURLCache.URLCache.WebViewCacherOriginatingRequest | Mattress/Mattress/URLCache.swift:77-84 | The search loop returns the first cacher in list order that claims the request, or none. |
| LegacyURLCache.URLCache.StoreCachedResponse | Mattress/Mattress/URLCache.swift:88-94 | Tagged responses go to the offline cache only, and all other responses only to the underlying cache. |
| LegacyURLCache.URLCache.CachedResponseForRequest | Mattress/Mattress/URLCache.swift:96-103 | The result is `Retrieved`: an offline hit first, otherwise the underlying answer. |
| LegacyURLCache.URLCache.OfflineCacheURL | Mattress/Mattress/URLCache.swift:105-113 | Exactly one fresh cacher is appended and starts loading the page. |
| LegacyURLCache.URLCache.WebViewDidFinishLoad | Mattress/Mattress/URLCache.swift:108-112 | Each time completion fires the cacher is removed; a finish that does not fire changes nothing. |
| LegacyURLCache.URLCache.Completed | Mattress/Mattress/URLCache.swift:108-112 | The closure removes the cacher, so it is no longer listed. |
| LegacyURLCache.TaggedStoreThenRetrieve | Mattress/Mattress/URLCache.swift:88-103 | A tagged response is not handed to the underlying cache, and once written it is what retrieval returns. |
| LegacyURLCache.UntaggedStoreSkipsOfflineCache | Mattress/Mattress/URLCache.swift:92-93 | An untagged response leaves the offline cache unchanged and goes to the underlying cache. |
| URLProtocol.CanInit | Source/URLProtocol.swift:37-40 | A request already marked as handled is never intercepted. |
| URLProtocol.IsWebScheme | Source/URLProtocol.swift:64-65 | A request without a URL is never web; one with a URL is web exactly when its scheme is "http" or "https". |
| URLProtocol.OptsOut | Source/URLProtocol.swift:55-58 | True exactly when the request carries the Boolean `true` under the avoid-retrieval key. |
| URLProtocol.CanInitCharacterized | Source/URLProtocol.swift:37-77 | Intercepted exactly when not handled and one of: claimed; offline; or online, not opted out, http(s), default retrieval on and a Mattress file present. |
| URLProtocol.MutableCanonicalRequest | Source/URLProtocol.swift:166-175 | The rewrite is always marked handled and keeps URL and main document URL. It is tagged for Mattress exactly when claimed; otherwise it gets return-cache-data-else-load and keeps its other properties. |
| URLProtocol.Claim | Source/URLProtocol.swift:143-156 | The index of the first claiming cacher of one cache, or -1. |
| URLProtocol.StartedLoading | Source/URLProtocol.swift:187-199 | Served from the cache exactly when a cached response with an HTTP status below 400 exists; otherwise a connection for the canonical request. |
| URLProtocol.Registry.constructor | Source/URLProtocol.swift:12 | No caches, not registered, default retrieval off. |
| URLProtocol.Registry.AddCache | Source/URLProtocol.swift:91-98 | The cache is appended. The protocol is registered, and this call registered it exactly when the list was empty. |
| URLProtocol.Registry.RemoveCache | Source/URLProtocol.swift:110-119 | The first occurrence is removed. This call unregistered the protocol exactly when the cache was present and the list is now empty; removing an absent cache changes nothing. |
| URLProtocol.Registry.RegisterProtocol | Source/URLProtocol.swift:127-133 | The registration flag becomes the argument; nothing else changes. |
| URLProtocol.Registry.AddToProtocol | Source/URLCache.swift:103-109 | Adds or removes the cache as asked, keeping "registered exactly while some cache is listed". |
| URLProtocol.Registry.InitURLCache | Source/URLCache.swift:85-92 | A fresh cache with no cachers is created and appended to the registry, which is then registered. |
| URLProtocol.Registry.WebViewCacherForRequest | Source/URLProtocol.swift:143-156 | Caches are scanned newest first. The answer is the first claimer of the newest cache that has one, or none when no cache claims. |
| URLProtocol.Registry.Cachers | Source/URLProtocol.swift:143-156 | Every cacher of every listed cache is in the set. |
| URLProtocol.Registry.CanInitWithRequest | Source/URLProtocol.swift:37-77 | The decision equals `CanInit` over the claim, the shared cache's offline answer, the static default-retrieval flag and whether the shared disk cache holds a file. |
| URLProtocol.Registry.SharedResponse | Source/URLProtocol.swift:189-191 | Without a shared URLCache there is no cached response. |
| URLProtocol.Registry.SharedCachedResponseForRequest | Source/URLProtocol.swift:189-191 | The answer is the shared URLCache's retrieval, or none. |
| URLProtocol.Registry.MutableCanonicalRequestForRequest | Source/URLProtocol.swift:166-175 | The result is `MutableCanonicalRequest` with the registry's claim. |
| URLProtocol.URLProtocol.constructor | Source/URLProtocol.swift:31 | No connection and nothing served. |
| URLProtocol.URLProtocol.StartLoading | Source/URLProtocol.swift:187-199 | A cache hit below 400 is served with no connection opened; otherwise a connection is opened for the canonical request. |
| URLProtocol.URLProtocol.StopLoading | Source/URLProtocol.swift:201-204 | The connection is dropped (so a second stop changes nothing) and what was served is kept. |
| URLProtocol.CanonicalIsNotReintercepted | Source/URLProtocol.swift:37-40 | A rewritten request is never intercepted again, in any situation. |
| URLProtocol.ClaimedResponseGoesToMattress | Source/URLProtocol.swift:166-175 | The response to a claimed request's rewrite goes to the disk cache only. |
| URLProtocol.FailureIsNeverServed | Source/URLProtocol.swift:189-198 | A cached response that is not HTTP or has status 400 or above is never served; a connection is opened instead. |
| LegacyURLProtocol.CanInit | Mattress/Mattress/URLProtocol.swift:29-46 | Intercepted exactly when not handled and either claimed or the shared cache is a URLCache whose offline handler answers true. |
| LegacyURLProtocol.MutableCanonicalRequest | Mattress/Mattress/URLProtocol.swift:115-123 | The rewrite is always marked handled. It is tagged for the offline cache exactly when claimed; otherwise it gets return-cache-data-else-load. |
| LegacyURLProtocol.Claim | Mattress/Mattress/URLProtocol.swift:99-113 | The index of the first claiming cacher of one cache, or -1. |
| LegacyURLProtocol.StartedLoading | Mattress/Mattress/URLProtocol.swift:135-145 | Any cached response is served, whatever its status; otherwise a connection for the canonical request. |
| LegacyURLProtocol.Registry.constructor | Mattress/Mattress/URLProtocol.swift:11 | No caches and not registered. |
| LegacyURLProtocol.Registry.AddCache | Mattress/Mattress/URLProtocol.swift:58-65 | The cache is appended, and this call registered the protocol exactly when the list was empty. |
| LegacyURLProtocol.Registry.RemoveCache | Mattress/Mattress/URLProtocol.swift:75-85 | The first occurrence is removed, and this call unregistered the protocol exactly when the list became empty. |
| LegacyURLProtocol.Registry.RegisterProtocol | Mattress/Mattress/URLProtocol.swift:87-93 | The registration flag becomes the argument. |
| LegacyURLProtocol.Registry.AddToProtocol | Mattress/Mattress/URLCache.swift:69-75 | Adds or removes the cache as asked, keeping "registered exactly while some cache is listed". |
| LegacyURLProtocol.Registry.InitURLCache | Mattress/Mattress/URLCache.swift:60-63 | A fresh cache with a 100 MB offline cache is created and appended to the registry, which is then registered. |
| LegacyURLProtocol.Registry.WebViewCacherForRequest | Mattress/Mattress/URLProtocol.swift:99-113 | Caches are scanned in reverse index order, and the first claim found is the answer. |
| LegacyURLProtocol.Registry.Cachers | Mattress/Mattress/URLProtocol.swift:99-113 | Every cacher of every listed cache is in the set. |
| LegacyURLProtocol.Registry.CanInitWithRequest | Mattress/Mattress/URLProtocol.swift:29-46 | The decision equals `CanInit` over the claim, whether a shared URLCache exists and its offline handler. |
| LegacyURLProtocol.Registry.SharedResponse | Mattress/Mattress/URLProtocol.swift:137-139 | Without a shared URLCache there is no cached response. |
| LegacyURLProtocol.Registry.SharedCachedResponseForRequest | Mattress/Mattress/URLProtocol.swift:137-139 | The answer is the shared URLCache's retrieval, or none. |
| LegacyURLProtocol.Registry.MutableCanonicalRequestForRequest | Mattress/Mattress/URLProtocol.swift:115-123 | The result is `MutableCanonicalRequest` with the registry's claim. |
| LegacyURLProtocol.URLProtocol.constructor | Mattress/Mattress/URLProtocol.swift:25 | No connection and nothing served. |
| LegacyURLProtocol.URLProtocol.StartLoading | Mattress/Mattress/URLProtocol.swift:135-145 | Any cache hit is served with no connection opened; otherwise a connection is opened for the canonical request. |
| LegacyURLProtocol.URLProtocol.StopLoading | Mattress/Mattress/URLProtocol.swift:147-150 | The connection is dropped and what was served is kept. |
| LegacyURLProtocol.CanonicalIsNotReintercepted | Mattress/Mattress/URLProtocol.swift:29-32 | A rewritten request is never intercepted again. |
| LegacyURLProtocol.OnlyClaimedWithoutHandler | Mattress/Mattress/URLProtocol.swift:39-45 | Without an offline handler only claimed requests are intercepted. |
| LegacyURLProtocol.FailureIsServed | Mattress/Mattress/URLProtocol.swift:135-145 | A cached 404 is served as it is: this revision checks no status. |
| LegacyURLProtocol.ClaimedResponseGoesOffline | Mattress/Mattress/URLProtocol.swift:115-123 | The response to a claimed request's rewrite goes to the offline cache only. |

## Left out

- Archiving, unarchiving and file I/O (`NSKeyedArchiver`, `NSFileManager`, `writeToFile`): a file is the archived object with its length. The length and the write's success are inputs, and the directory's existence is a configuration flag.
- The `path` and `searchPathDirectory` arguments and the directory-creation step of `diskPath`: the model keeps only whether the directory resolves.
- File placement in the current `DiskCache`: `diskPath` builds the `path` URL without a trailing `/` (Source/DiskCache.swift:440), so every cache file and the manifest resolve beside the `path` directory rather than inside it (lines 380, 396, 416). The model's `files` and manifest are the entries of that parent directory, which is why `clearCache` removing the `path` directory deletes none of them. Two caches with different `path` values would share those files; the model has one cache per directory and does not capture that sharing. The older revision appends the `/` (Mattress/Mattress/DiskCache.swift:171).
- MD5 (`String+Crypto.swift`, a wrapper over CommonCrypto): an uninterpreted function on bytes, rendered as lowercase hex. The SHA-1 helper is not used by the core.
- The operating-system probes (`isAtLeastiOS8`, the major version check in `hashForURLString`): fields of the configuration.
- DiskCache.IsAlphanumeric: letters and digits of ASCII only; `alphanumericCharacterSet` also keeps the other Unicode letters and digits.
- Locking (`synchronized`, `cacheLockObject`): every operation is sequential.
- Integer width: Swift's `Int` for `currentSize`, the caps and the archived lengths becomes Dafny's unbounded `int`, so overflow of a 64-bit size is not modelled.
- DiskCache.Config: the two probes `isAtLeastiOS8` and the major version read the same system version, which `ValidConfig` states. The general lemmas do not require it: they hold for every configuration, and so for the realizable ones.
- `NSURLConnection` delegate forwarding in both protocols, and `canonicalRequestForRequest`/`requestIsCacheEquivalent`: pass-throughs to the URL loading system.
- `UIWebView` creation, rendering and `webView.stopLoading()`: a web view is whether the cacher holds one, plus the requests handed to it.
- The underlying `NSURLCache` storage and the capacity overrides of the current `URLCache`: what it is handed is logged, what it returns is an input.
- The global `shouldRetrieveFromMattressCacheByDefault` in Source/URLProtocol.swift:18: `canInitWithRequest` reads the static member of the same name (line 33), which is the registry's flag.
- `deinit` of both URL caches: removing a cache is modelled (`AddToProtocol` with false), but not when deallocation happens.
- Handler bodies: handlers are modelled by presence. What a loaded handler answers is an input, and what the complete and failure handlers do is not modelled.
- `NSLog` messages on failed clears, reads and writes.
- LegacyURLProtocol.CanInit: the older `URLCache` declares no `isOfflineHandler` although this protocol asks for one, so the handler is an input (absent, or present with its answer).
- LegacyDiskCache.HashForRequest: the older source unwraps the request's URL without a check and would stop on a missing URL; the model requires a URL wherever that unwrap happens.
- The example app and the test mocks.
