/**
 * Stand-ins for the two helpers of AssetPipelineHelper that FileLocator calls: `path` joins
 * segments with the directory separator, and `stripExtensions` removes the trailing extension
 * of every name except, when asked, the last one.
 */
module AssetHelper {
  import opened Strings

  /** PHP's DIRECTORY_SEPARATOR on the platforms assumed here. */
  const Separator: string := "/"

  /** `path(segments)`: the segments joined by the directory separator. */
  function Path(segments: seq<string>): string
  {
    Join(segments, Separator)
  }

  /** The name without its trailing `.ext`; a name without a dot is returned as it is. */
  function StripExtension(name: string): (stem: string)
    ensures stem <= name
    ensures '.' in name ==> |stem| < |name| && name[|stem|] == '.' && '.' !in name[|stem| + 1..]
    ensures '.' !in name ==> stem == name
  {
    if '.' in name then name[..LastIndexOf(name, '.')] else name
  }

  /** `stripExtensions(names, keepLast)`: every name stripped, except the last when `keepLast`. */
  function StripExtensions(names: seq<string>, keepLast: bool): (stems: seq<string>)
    ensures |stems| == |names|
    ensures forall i :: 0 <= i < |names| ==>
              stems[i] == if keepLast && i == |names| - 1 then names[i] else StripExtension(names[i])
  {
    seq(|names|, i requires 0 <= i < |names| =>
      if keepLast && i == |names| - 1 then names[i] else StripExtension(names[i]))
  }
}
