# lmvc-modules: asset cache locator and dot-notation session store

This project models two components of the lmvc-modules PHP library in Dafny and proves
properties of the models.

**FileLocator** is the asset pipeline's cache locator. It derives a cache file name from an
option list and an asset list. It resolves each requested asset to a file: first in the asset
directory, then by a depth-first search of an ordered list of fallback directories. It decides
whether the cached concatenation is still fresh by comparing modification times. It can
rebuild the cache file by concatenating the sources in order. The model keeps the PHP
object's fields in the class `AssetPipeline.FileLocator`. The filesystem is a `Disk` object
with two parts: a map from pathname to (content, mtime), and, for each directory, the
fixed sequence of (leaf name, pathname) that its recursive traversal yields. Every method is
proved against the pure functions of `AssetCacheSpec`, and the lemmas there state what the
source promises.

**Session** is a facade over PHP's `$_SESSION`. The session runtime is removed. What is left
is a nested string-keyed value tree and a `started` flag, both fields of the class
`SessionStore.Session`. It offers a dot-notation lookup that folds over the `.`-separated
segments, an update that creates the intermediate arrays, and the wrappers `get`, `set`,
`has`, `backup`, `backupNumber` and `flush`. `SessionSpec` holds the lookup (`Resolve`) and
the update (`Assign`) as functions on values, with the round-trip, frame and flush lemmas.

Files:
- `wrappers.dfy`: the `Option` type. It stands for PHP's `null` fields and `false` returns.
- `strings.dfy`: `Join` and `Split`, which are PHP's `implode` and `explode`. Each one undoes the other.
- `asset_helper.dfy`: stand-ins for `AssetPipelineHelper::path` and `stripExtensions`.
- `asset_cache_spec.dfy`, `file_locator.dfy`: the FileLocator.
- `session_spec.dfy`, `session.dfy`: the Session.

Faithful quirks:
- `initializeCache` never clears `_requestedFiles`. Handles from earlier calls stay, and so do
  the handles appended before a `false` return (`InitializeCache`, `ResolveAllSpec`).
- The constructor does not set `_cachedFilePath`. Only the two setters compute it
  (`FileLocator.constructor`, `SetCacheDirectory`, `SetAssetDirectory`). Where the source
  uses that null field as a string, the model uses `""`, as PHP does (`Str`).
- The fallback search's result is tested for PHP truthiness. A fallback pathname of `""` or
  `"0"` therefore counts as not found (`Truthy`).
- `isCached` treats equal mtimes as fresh. With no requested files it returns true, even
  when the cache file does not exist. If a requested file has vanished, `getMTime` throws; the
  model returns `None` for that case.
- `concat` reads a missing file as `""`: `file_get_contents` returns false, and false
  concatenates as the empty string.
- The lookup returns as soon as the segment just taken equals the last segment. So
  `"a.a"` yields `$_SESSION["a"]` (`LookupStopsEarly`).
- `setByDotNotation` with a null or `""` path does not return early. It assigns the root and
  then also stores the value under the key `""`. So `flush` leaves `["" => []]`, and
  `has("")` is true afterwards (`FlushResult`, `FlushedKeepsEmptyKey`).

Behaviour a caller may not expect, which the model keeps:
- A failed resolution leaves the partial handles in place. It reports only `false`, with no
  asset name.
- An empty request list counts as cached even without a cache file.
- `cache` writes to the current `_cachedFilePath`. `isCached` and `fromCache`
  use the path fixed at `initializeCache`. Calling a setter in between separates the two.

## Model

| member | source | states |
|---|---|---|
| `AssetHelper.StripExtension` | lib/Scandio/lmvc/modules/assetpipeline/util/FileLocator.php:36 | the stem is a prefix of the name. What it drops is empty or a single trailing `.ext` with no further dot |
| `AssetHelper.StripExtensions` | lib/Scandio/lmvc/modules/assetpipeline/util/FileLocator.php:36-37 | same length as the input. Every name loses its extension except the last one, which is kept whole when `keepLast` |
| `Strings.JoinSplit` | lib/Scandio/lmvc/modules/session/Session.php:191 | joining the pieces of `explode` with the delimiter gives back the original key |
| `Strings.SplitJoin` | lib/Scandio/lmvc/modules/session/Session.php:222 | exploding a join of delimiter-free parts gives back exactly those parts |
| `AssetCacheSpec.CachedFileNameShape` | lib/Scandio/lmvc/modules/assetpipeline/util/FileLocator.php:30-40 | the name starts with options joined by "." plus a trailing "." (nothing without options). It ends with the last asset name, extension included. When no asset name contains "+", the rest after the prefix splits on "+" into exactly the names, each stripped of its extension except the last |
| `AssetCacheSpec.CachedFileNameExamples` | lib/Scandio/lmvc/modules/assetpipeline/util/FileLocator.php:33-37 | no options with `["a.js","b.js"]` gives "a+b.js"; option "min" gives "min.a+b.js" |
| `AssetCacheSpec.CachedFileNameCollision` | lib/Scandio/lmvc/modules/assetpipeline/util/FileLocator.php:34-37 | delimiters are not escaped, so two different requests can give the same cache name |
| `AssetCacheSpec.FirstMatchIsFirst` | lib/Scandio/lmvc/modules/assetpipeline/util/FileLocator.php:48-53 | one traversal gives no result exactly when no leaf has the asset's name. Otherwise it gives the pathname of the earliest leaf that does |
| `AssetCacheSpec.SearchFailsIffNoMatch` | lib/Scandio/lmvc/modules/assetpipeline/util/FileLocator.php:42-57 | the search yields false exactly when no fallback directory contains a leaf of that name |
| `AssetCacheSpec.EarliestFallbackWins` | lib/Scandio/lmvc/modules/assetpipeline/util/FileLocator.php:45-54 | the first directory in list order that has a match decides the result, whatever later directories hold |
| `AssetCacheSpec.PrimaryWins` | lib/Scandio/lmvc/modules/assetpipeline/util/FileLocator.php:65-69 | a file at assetDirectory/asset is chosen over any fallback copy |
| `AssetCacheSpec.ResolveOneFallback` | lib/Scandio/lmvc/modules/assetpipeline/util/FileLocator.php:65-75 | without a primary file, an asset goes unresolved exactly when no fallback matches or the match is a falsy pathname |
| `AssetCacheSpec.ResolveAllSpec` | lib/Scandio/lmvc/modules/assetpipeline/util/FileLocator.php:63-78 | handles come in request order, one per asset, up to the first unresolvable asset. The result is true exactly when every asset produced a handle |
| `AssetCacheSpec.ResolveAllOkIffEach` | lib/Scandio/lmvc/modules/assetpipeline/util/FileLocator.php:63-78 | `initializeCache` succeeds exactly when every asset resolves on its own |
| `AssetCacheSpec.ResolveAllAppend` | lib/Scandio/lmvc/modules/assetpipeline/util/FileLocator.php:63-76 | the assets after a failing one are never looked at |
| `AssetCacheSpec.ResolveAllStep` | lib/Scandio/lmvc/modules/assetpipeline/util/FileLocator.php:67-72 | a resolvable asset after a fully resolved prefix appends exactly its handle |
| `AssetCacheSpec.ResolveAllStop` | lib/Scandio/lmvc/modules/assetpipeline/util/FileLocator.php:73-75 | at the first unresolvable asset the result is false, and the earlier handles are kept |
| `AssetCacheSpec.FreshIffNoneNewer` | lib/Scandio/lmvc/modules/assetpipeline/util/FileLocator.php:81-89 | `isCached` is true exactly in two cases: nothing was requested, or the cache file exists and every requested file exists with an mtime no greater than the cache file's. Ties count as fresh |
| `AssetCacheSpec.MissingCacheIsStale` | lib/Scandio/lmvc/modules/assetpipeline/util/FileLocator.php:82-84 | with at least one requested file, a missing cache file means not cached |
| `AssetCacheSpec.NewerInputIsStale` | lib/Scandio/lmvc/modules/assetpipeline/util/FileLocator.php:83-84 | one input strictly newer than the cache file makes it stale (all inputs existing) |
| `AssetCacheSpec.FreshErrorMeansMissingInput` | lib/Scandio/lmvc/modules/assetpipeline/util/FileLocator.php:83 | the check can only fail by exception when the cache file exists and some requested file has vanished |
| `AssetCacheSpec.ConcatenationAppend` | lib/Scandio/lmvc/modules/assetpipeline/util/FileLocator.php:98-100 | the content of two file lists is the content of the first followed by that of the second |
| `AssetCacheSpec.ConcatenationAt` | lib/Scandio/lmvc/modules/assetpipeline/util/FileLocator.php:96-100 | each file's content appears unaltered right after the contents of the files before it, with no separator |
| `AssetCacheSpec.ConcatenationExample` | lib/Scandio/lmvc/modules/assetpipeline/util/FileLocator.php:95-102 | "AAA" then "BBB" concatenate to exactly "AAABBB" |
| `AssetCacheSpec.RebuiltIsFresh` | lib/Scandio/lmvc/modules/assetpipeline/util/FileLocator.php:107-113 | after the cache file is rewritten with a time no earlier than every input's mtime, it counts as cached |
| `AssetPipeline.FileLocator.constructor` | lib/Scandio/lmvc/modules/assetpipeline/util/FileLocator.php:19-24 | sets the two directories only. Cache path, name, info and fallbacks stay unset, and no handles exist |
| `AssetPipeline.FileLocator.SetCachedFilePath` | lib/Scandio/lmvc/modules/assetpipeline/util/FileLocator.php:26-28 | the cache path becomes path([assetDirectory, cacheDirectory]) |
| `AssetPipeline.FileLocator.SetCacheDirectory` | lib/Scandio/lmvc/modules/assetpipeline/util/FileLocator.php:115-119 | replaces the cache directory and recomputes the cache path from both directories |
| `AssetPipeline.FileLocator.SetAssetDirectory` | lib/Scandio/lmvc/modules/assetpipeline/util/FileLocator.php:121-126 | replaces the asset directory and the fallback list, and recomputes the cache path |
| `AssetPipeline.FileLocator.RecursiveSearch` | lib/Scandio/lmvc/modules/assetpipeline/util/FileLocator.php:42-57 | the nested loops (left by `break 2`) return exactly the first match in fallback order |
| `AssetPipeline.FileLocator.Locate` | lib/Scandio/lmvc/modules/assetpipeline/util/FileLocator.php:65-75 | one loop pass picks the primary file first, then a truthy fallback match |
| `AssetPipeline.FileLocator.InitializeCache` | lib/Scandio/lmvc/modules/assetpipeline/util/FileLocator.php:59-79 | sets the cache name and info, then appends to the earlier handles exactly the resolution's handles. It returns whether every asset resolved |
| `AssetPipeline.FileLocator.IsCached` | lib/Scandio/lmvc/modules/assetpipeline/util/FileLocator.php:81-89 | the loop with early return computes exactly the freshness function |
| `AssetPipeline.FileLocator.FromCache` | lib/Scandio/lmvc/modules/assetpipeline/util/FileLocator.php:91-93 | returns the content of the file the cache info names, or false when it does not exist. Before `initializeCache` the info is null and the call throws |
| `AssetPipeline.FileLocator.Cache` | lib/Scandio/lmvc/modules/assetpipeline/util/FileLocator.php:107-113 | afterwards the cache file holds exactly the argument (truncating write). No other file changes, and the argument is returned |
| `AssetPipeline.FileLocator.Concat` | lib/Scandio/lmvc/modules/assetpipeline/util/FileLocator.php:95-105 | the cache file holds exactly the in-order concatenation of the requested files. It returns cache path + separator + cache name |
| `AssetPipeline.ConcatReturnsCacheLocation` | lib/Scandio/lmvc/modules/assetpipeline/util/FileLocator.php:104-108 | for the stand-in `Path`, the path `concat` returns is the path `cache` wrote to |
| `SessionSpec.Segments` | lib/Scandio/lmvc/modules/session/Session.php:191 | exploding a key always gives at least one segment, so `end()` has a last segment |
| `SessionSpec.Lookup` | lib/Scandio/lmvc/modules/session/Session.php:186-188 | every lookup is null while the session is not started |
| `SessionSpec.ResolveIsAt` | lib/Scandio/lmvc/modules/session/Session.php:191-209 | when no earlier segment equals the last, the lookup is plain navigation. It is null at the first segment that is absent or holds null |
| `SessionSpec.LookupStopsEarly` | lib/Scandio/lmvc/modules/session/Session.php:206-208 | `"a.a"` stops after the first segment and yields `$_SESSION["a"]` |
| `SessionSpec.AssignSucceedsIffClear` | lib/Scandio/lmvc/modules/session/Session.php:227-231 | the reference walk fails exactly when a node on the path is a scalar other than null or false |
| `SessionSpec.AssignStores` | lib/Scandio/lmvc/modules/session/Session.php:227-233 | after the walk the path leads to the stored value, and every node above its end is an array: missing or null intermediate entries were created as arrays, whatever the value stored |
| `SessionSpec.AssignFrame` | lib/Scandio/lmvc/modules/session/Session.php:222-233 | every path that leaves the updated path reads as before |
| `SessionSpec.SetGetRoundTrip` | lib/Scandio/lmvc/modules/session/Session.php:186-233 | with the session started, a set that completes and has no early stop on its key is found by the next lookup of that key |
| `SessionSpec.SetPreservesOtherKeys` | lib/Scandio/lmvc/modules/session/Session.php:218-233 | a set leaves every lookup of a diverging key (without early stop) unchanged |
| `SessionSpec.FlushResult` | lib/Scandio/lmvc/modules/session/Session.php:151-154 | whatever the session held, flush leaves exactly `["" => []]` |
| `SessionSpec.FlushedHasNoNamedKey` | lib/Scandio/lmvc/modules/session/Session.php:151-153 | after a flush, no key whose first segment is non-empty has a value |
| `SessionSpec.FlushedKeepsEmptyKey` | lib/Scandio/lmvc/modules/session/Session.php:220-233 | after a flush the key "" still yields the empty array |
| `SessionStore.Session.constructor` | lib/Scandio/lmvc/modules/session/Session.php:14-15 | the flag and the session array are given |
| `SessionStore.Session.ResolveByDotNotation` | lib/Scandio/lmvc/modules/session/Session.php:186-210 | the loop over the exploded key computes exactly the lookup function |
| `SessionStore.Session.SetByDotNotation` | lib/Scandio/lmvc/modules/session/Session.php:218-234 | the descent and rebuild leave exactly the root the update function gives, or report the throw |
| `SessionStore.Session.Set` | lib/Scandio/lmvc/modules/session/Session.php:53-60 | stores the value at the key and returns its argument (serialize=false). It returns None where PHP throws |
| `SessionStore.Session.Get` | lib/Scandio/lmvc/modules/session/Session.php:71-80 | returns the default exactly when the lookup is null, and otherwise the stored value |
| `SessionStore.Session.Has` | lib/Scandio/lmvc/modules/session/Session.php:143-146 | true exactly when the lookup is non-null |
| `SessionStore.Session.Backup` | lib/Scandio/lmvc/modules/session/Session.php:94-97 | an `empty()` value reads back the stored value or the default and changes nothing. Any other value is stored and returned |
| `SessionStore.Session.BackupNumber` | lib/Scandio/lmvc/modules/session/Session.php:113-116 | as Backup, but only null reads back, so 0 is stored |
| `SessionStore.Session.Flush` | lib/Scandio/lmvc/modules/session/Session.php:151-154 | the session array becomes `["" => []]` |

## Left out

- `AssetPipelineHelper`: its file is not part of this model. `Path` joins segments with "/".
  `StripExtension` cuts at the last dot. These are stand-ins with the contract at
  FileLocator.php:36; the real helper may normalise separators differently. The helper is
  assumed to treat a null segment as "".
- Real filesystem I/O: `SplFileObject`/`SplFileInfo` handles become pathnames, and
  `file_exists`, `file_get_contents`, `getMTime`, `isFile` and `fwrite` become reads and
  writes of the `Disk` map. Also left out: the stat cache, directories counting
  as existing for `file_exists`, and the exception `SplFileObject` throws on a directory or
  on an unwritable cache path.
- `RecursiveDirectoryIterator` ordering: each fallback's traversal is a given sequence
  (dot entries included or not, as that sequence says). A directory missing from it traverses
  as empty, where PHP's iterator would throw. The traversals do not change when `cache` writes
  a file inside a fallback directory.
- The clock that stamps the rewritten cache file is the parameter `now` of `Cache` and `Concat`.
- PHP's loose `==` is modelled as exact string equality. It compares two numeric strings
  numerically (FileLocator.php:49, Session.php:206).
- Session values are null, booleans, integers, strings and string-keyed arrays. Floats,
  objects, array key order and integer-key casting are left out. A lookup through
  a string does not read string offsets: it yields null.
- On the update path, null and false become arrays (false with PHP 8.1's deprecation). Every
  other scalar, strings included, makes the walk throw (`Assign` returns None). This follows PHP 8.
- `Session::start`, `stop`, `regenerate`: thin calls into the PHP session runtime. `started`
  is a plain field that the constructor sets.
- `Session::replace` and `merge`: they are `array_replace_recursive` and
  `array_merge_recursive`, which are library functions.
- The `serialize`/`unserialize` paths of `get`, `set`, `backup` and `backupNumber`: foreign
  calls. Only serialize=false is modelled.
- The `$scalar` parameter of `resolveByDotNotation`: every caller passes false.
- lib/Scandio/lmvc/modules/security/controllers/Security.php: HTTP controller glue.
- Concurrent rebuilds of the same cache file and partially written artifacts.
