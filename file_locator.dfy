/**
 * The asset pipeline's FileLocator as an object over an abstract filesystem. Its fields are
 * the PHP object's; each method is proved against the functions of AssetCacheSpec.
 */
module AssetPipeline {
  import opened Wrappers
  import opened AssetHelper
  import opened AssetCacheSpec
  import Strings

  /** The filesystem the locator reads and writes: regular files and the fallback traversals. */
  class Disk {
    var files: Files
    var trees: Trees

    constructor(files: Files, trees: Trees)
      ensures this.files == files && this.trees == trees
    {
      this.files := files;
      this.trees := trees;
    }
  }

  /**
   * What `fromCache` yields: the cache file's content, PHP's `false` when the file does not
   * exist, or the Error PHP throws when `getPathname` is called on the null cache info.
   */
  datatype CacheRead = Content(text: string) | Missing | Thrown

  class FileLocator {
    var cacheDirectory: string
    var assetDirectory: string
    /** Null until `setAssetDirectory`; iterating over null visits nothing, as the empty list does. */
    var fallbacks: seq<string>
    var cachedFileName: Option<string>
    var cachedFilePath: Option<string>
    /** The pathname the SplFileInfo of the cache file was made for. */
    var cachedFileInfo: Option<string>
    /** The pathnames of the opened SplFileObject handles, in the order they were appended. */
    var requestedFiles: seq<string>

    /** A handle is only ever appended after the cache file info was set. */
    ghost predicate Valid()
      reads this
    {
      requestedFiles != [] ==> cachedFileInfo.Some?
    }

    /** The constructor sets the two directories and nothing else; in particular not the cache path. */
    constructor(cacheDirectory: string := "", assetDirectory: string := "")
      ensures Valid()
      ensures this.cacheDirectory == cacheDirectory && this.assetDirectory == assetDirectory
      ensures fallbacks == [] && requestedFiles == []
      ensures cachedFileName == None && cachedFilePath == None && cachedFileInfo == None
    {
      this.cacheDirectory := cacheDirectory;
      this.assetDirectory := assetDirectory;
      fallbacks := [];
      cachedFileName := None;
      cachedFilePath := None;
      cachedFileInfo := None;
      requestedFiles := [];
    }

    /** Where `cache` writes: the cache path joined with the cache file name. */
    function CacheLocation(): string
      reads this
    {
      Path([Str(cachedFilePath), Str(cachedFileName)])
    }

    /** What resolution looks at, given the filesystem. */
    function SourcesOn(disk: Disk): Sources
      reads this, disk
    {
      Sources(disk.files, disk.trees, assetDirectory, fallbacks)
    }

    /** `_setCachedFilePath`: the cache path is the cache directory inside the asset directory. */
    method SetCachedFilePath()
      modifies this`cachedFilePath
      ensures cachedFilePath == Some(Path([assetDirectory, cacheDirectory]))
    {
      cachedFilePath := Some(Path([assetDirectory, cacheDirectory]));
    }

    /** `setCacheDirectory`: replaces the cache directory and recomputes the cache path. */
    method SetCacheDirectory(cacheDirectory: string)
      requires Valid()
      modifies this`cacheDirectory, this`cachedFilePath
      ensures Valid()
      ensures this.cacheDirectory == cacheDirectory
      ensures cachedFilePath == Some(Path([assetDirectory, cacheDirectory]))
    {
      this.cacheDirectory := cacheDirectory;
      SetCachedFilePath();
    }

    /** `setAssetDirectory`: replaces the asset directory and the fallbacks, and recomputes the cache path. */
    method SetAssetDirectory(assetDirectory: string, fallbacks: seq<string> := [])
      requires Valid()
      modifies this`assetDirectory, this`fallbacks, this`cachedFilePath
      ensures Valid()
      ensures this.assetDirectory == assetDirectory && this.fallbacks == fallbacks
      ensures cachedFilePath == Some(Path([assetDirectory, cacheDirectory]))
    {
      this.assetDirectory := assetDirectory;
      this.fallbacks := fallbacks;
      SetCachedFilePath();
    }

    /**
     * `_recursiveSearch`: walks the fallback directories in order and each traversal in order,
     * and leaves both loops at the first leaf named `asset`.
     */
    method RecursiveSearch(disk: Disk, asset: string) returns (location: Option<string>)
      ensures location == SearchFallbacks(disk.trees, fallbacks, asset)
    {
      location := None;
      var d := 0;
      while d < |fallbacks|
        invariant 0 <= d <= |fallbacks|
        invariant location == None
        invariant SearchFallbacks(disk.trees, fallbacks, asset) == SearchFallbacks(disk.trees, fallbacks[d..], asset)
      {
        var entries := Tree(disk.trees, fallbacks[d]);
        var k := 0;
        while k < |entries|
          invariant 0 <= k <= |entries|
          invariant location == None
          invariant FirstMatch(entries, asset) == FirstMatch(entries[k..], asset)
        {
          if asset == entries[k].leaf {
            location := Some(entries[k].pathname);
            break break;
          }
          k := k + 1;
        }
        assert fallbacks[d..][1..] == fallbacks[d + 1..];
        d := d + 1;
      }
    }

    /**
     * One pass of the loop in `initializeCache`: the file in the asset directory if it exists,
     * else the fallback search's result if that is truthy.
     */
    method Locate(disk: Disk, asset: string) returns (resolved: Option<string>)
      ensures resolved == ResolveOne(SourcesOn(disk), asset)
    {
      var assetFilePath := Path([assetDirectory, asset]);
      if assetFilePath in disk.files {
        resolved := Some(assetFilePath);
      } else {
        var found := RecursiveSearch(disk, asset);
        resolved := if found.Some? && Truthy(found.value) then found else None;
      }
    }

    /**
     * `initializeCache`: fixes the cache file name and info, then appends one handle per asset,
     * in order, returning false at the first asset found neither in the asset directory nor in a
     * fallback. Handles appended before that stay, as do those of earlier calls.
     */
    method InitializeCache(disk: Disk, assets: seq<string>, options: seq<string> := []) returns (ok: bool)
      requires Valid()
      modifies this`cachedFileName, this`cachedFileInfo, this`requestedFiles
      ensures Valid()
      ensures cachedFileName == Some(CachedFileName(assets, options))
      ensures cachedFileInfo == Some(Path([Str(cachedFilePath), CachedFileName(assets, options)]))
      ensures var r := ResolveAll(SourcesOn(disk), assets);
              requestedFiles == old(requestedFiles) + r.handles && ok == r.ok
    {
      var src := SourcesOn(disk);
      cachedFileName := Some(CachedFileName(assets, options));
      cachedFileInfo := Some(Path([Str(cachedFilePath), cachedFileName.value]));

      for i := 0 to |assets|
        invariant src == SourcesOn(disk)
        invariant cachedFileName == Some(CachedFileName(assets, options))
        invariant cachedFileInfo == Some(Path([Str(cachedFilePath), CachedFileName(assets, options)]))
        invariant ResolveAll(src, assets[..i]).ok
        invariant requestedFiles == old(requestedFiles) + ResolveAll(src, assets[..i]).handles
      {
        var resolved := Locate(disk, assets[i]);
        if resolved.None? {
          ResolveAllStop(src, assets, i);
          return false;
        }
        ResolveAllStep(src, assets, i);
        requestedFiles := requestedFiles + [resolved.value];
      }
      assert assets[..|assets|] == assets;
      return true;
    }

    /**
     * `isCached`: false once the cache file is missing or a requested file is strictly newer,
     * None when a requested file has vanished (getMTime throws), true otherwise.
     */
    method IsCached(disk: Disk) returns (cached: Option<bool>)
      requires Valid()
      ensures cached == if requestedFiles == [] then Some(true)
                        else IsFresh(disk.files, requestedFiles, cachedFileInfo.value)
    {
      var i := 0;
      while i < |requestedFiles|
        invariant 0 <= i <= |requestedFiles|
        invariant requestedFiles != [] ==>
                    IsFresh(disk.files, requestedFiles, cachedFileInfo.value)
                    == IsFresh(disk.files, requestedFiles[i..], cachedFileInfo.value)
      {
        var info := cachedFileInfo.value;
        var requested := requestedFiles[i];
        if info !in disk.files {
          return Some(false);
        }
        if requested !in disk.files {
          return None;
        }
        if disk.files[requested].mtime > disk.files[info].mtime {
          return Some(false);
        }
        assert requestedFiles[i..][1..] == requestedFiles[i + 1..];
        i := i + 1;
      }
      return Some(true);
    }

    /** `fromCache`: the content of the file the cache info names; throws before `initializeCache`. */
    method FromCache(disk: Disk) returns (read: CacheRead)
      ensures cachedFileInfo.None? ==> read == Thrown
      ensures cachedFileInfo.Some? && cachedFileInfo.value in disk.files ==>
                read == Content(disk.files[cachedFileInfo.value].content)
      ensures cachedFileInfo.Some? && cachedFileInfo.value !in disk.files ==> read == Missing
    {
      if cachedFileInfo.None? {
        return Thrown;
      }
      var info := cachedFileInfo.value;
      if info in disk.files {
        read := Content(disk.files[info].content);
      } else {
        read := Missing;
      }
    }

    /** `cache`: truncates the cache file and writes `fileContent`, stamped `now`; no other file changes. */
    method Cache(disk: Disk, fileContent: string, now: int) returns (written: string)
      modifies disk`files
      ensures disk.files == old(disk.files)[CacheLocation() := FileEntry(fileContent, now)]
      ensures written == fileContent
    {
      disk.files := disk.files[CacheLocation() := FileEntry(fileContent, now)];
      written := fileContent;
    }

    /**
     * `concat`: the requested files' contents in order, written to the cache file; returns the
     * cache path, a directory separator and the cache file name.
     */
    method Concat(disk: Disk, now: int) returns (location: string)
      modifies disk`files
      ensures disk.files == old(disk.files)[CacheLocation() := FileEntry(Concatenation(old(disk.files), requestedFiles), now)]
      ensures location == Str(cachedFilePath) + Separator + Str(cachedFileName)
    {
      var fileContent := "";
      for i := 0 to |requestedFiles|
        invariant fileContent == Concatenation(disk.files, requestedFiles[..i])
      {
        var requested := requestedFiles[i];
        assert requestedFiles[..i + 1][..i] == requestedFiles[..i];
        fileContent := fileContent + ContentOf(disk.files, requested);
      }
      assert requestedFiles[..|requestedFiles|] == requestedFiles;
      var _ := Cache(disk, fileContent, now);
      location := Str(cachedFilePath) + Separator + Str(cachedFileName);
    }
  }

  /** With `Path` joining on "/", the path `concat` returns is the location it wrote to. */
  lemma ConcatReturnsCacheLocation(cachedFilePath: Option<string>, cachedFileName: Option<string>)
    ensures Str(cachedFilePath) + Separator + Str(cachedFileName) == Path([Str(cachedFilePath), Str(cachedFileName)])
  {
    assert [Str(cachedFilePath), Str(cachedFileName)][1..] == [Str(cachedFileName)];
    assert Path([Str(cachedFilePath), Str(cachedFileName)])
        == Str(cachedFilePath) + Separator + Strings.Join([Str(cachedFileName)], Separator);
  }
}
