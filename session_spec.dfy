/**
 * The session store as a value: a PHP value tree, the dot-notation lookup and update the
 * Session helper performs on it, and what those two operations guarantee.
 */
module SessionSpec {
  import opened Wrappers
  import opened Strings

  /** The PHP values a session holds; arrays are string-keyed maps of values. */
  datatype Value = Null | Bool(b: bool) | Int(i: int) | Str(s: string) | Arr(entries: map<string, Value>)

  /** `$v[$key]` as read: the entry of an array, null for a missing key or a non-array. */
  function Child(v: Value, key: string): Value
  {
    if v.Arr? && key in v.entries then v.entries[key] else Null
  }

  /** Plain navigation along a path of keys. */
  function At(v: Value, path: seq<string>): Value
    decreases |path|
  {
    if path == [] then v else At(Child(v, path[0]), path[1..])
  }

  /** `explode(".", $dot)`. */
  function Segments(dot: string): (segs: seq<string>)
    ensures |segs| >= 1
  {
    Split(dot, '.')
  }

  /** The last segment of a dot path, the one `end($exploded)` gives. */
  function LastSegment(dot: string): string
  {
    Segments(dot)[|Segments(dot)| - 1]
  }

  // ---------------------------------------------------------------- lookup

  /**
   * The loop of `resolveByDotNotation`: descend while the entry is set (not null) and return
   * as soon as the segment just taken equals the last segment.
   */
  function Resolve(p: Value, segs: seq<string>, last: string): Value
    decreases |segs|
  {
    if segs == [] then Null
    else
      var c := Child(p, segs[0]);
      if c.Null? then Null
      else if segs[0] == last then c
      else Resolve(c, segs[1..], last)
  }

  /** `resolveByDotNotation($dot)`: null while the session is not started. */
  function Lookup(started: bool, root: Value, dot: string): (found: Value)
    ensures !started ==> found == Null
  {
    if !started then Null else Resolve(root, Segments(dot), LastSegment(dot))
  }

  /** No segment before the last one equals the last one, so the lookup walks the whole path. */
  predicate NoEarlyStop(segs: seq<string>)
  {
    forall i :: 0 <= i < |segs| - 1 ==> segs[i] != segs[|segs| - 1]
  }

  /** Navigation from null stays null, however long the path. */
  lemma AtNull(path: seq<string>)
    ensures At(Null, path) == Null
  {
  }

  /** Without an early stop, the lookup finds exactly what plain navigation finds. */
  lemma {:induction false} ResolveIsAt(v: Value, segs: seq<string>)
    requires segs != [] && NoEarlyStop(segs)
    ensures Resolve(v, segs, segs[|segs| - 1]) == At(v, segs)
    decreases |segs|
  {
    var c := Child(v, segs[0]);
    if c.Null? {
      AtNull(segs[1..]);
    } else if |segs| > 1 {
      var rest := segs[1..];
      assert rest[|rest| - 1] == segs[|segs| - 1];
      assert forall i :: 0 <= i < |rest| - 1 ==> rest[i] == segs[i + 1];
      ResolveIsAt(c, rest);
    }
  }

  /** The early return: on "a.a" the lookup stops after the first "a". */
  lemma LookupStopsEarly(root: Value)
    ensures Lookup(true, root, "a.a") == Child(root, "a")
  {
    assert IndexOf("a.a", '.') == 1;
    assert "a.a"[..1] == "a" && "a.a"[2..] == "a";
    assert Split("a", '.') == ["a"];
    assert Segments("a.a") == ["a", "a"];
  }

  // ---------------------------------------------------------------- update

  /** Values that `&$v[$key]` silently turns into an array: null, and false. */
  predicate Vivifiable(v: Value)
  {
    v.Null? || v == Bool(false)
  }

  /**
   * The reference walk of `setByDotNotation`: every node on the path becomes an array (a new
   * one if it was null or false) and the slot at the end holds `x`. None when a node on the
   * path is any other scalar, where PHP throws "Cannot use a scalar value as an array".
   */
  function Assign(v: Value, segs: seq<string>, x: Value): Option<Value>
    decreases |segs|
  {
    if segs == [] then Some(x)
    else if !(v.Arr? || Vivifiable(v)) then None
    else
      var m := if v.Arr? then v.entries else map[];
      match Assign(Child(v, segs[0]), segs[1..], x)
        case None => None
        case Some(w) => Some(Arr(m[segs[0] := w]))
  }

  /** The session root after `setByDotNotation`, and whether it completed without throwing. */
  datatype Stored = Stored(root: Value, ok: bool)

  /** `setByDotNotation($dot, $value)`: an empty (or null) path first replaces the whole root. */
  function SetAt(root: Value, dot: string, x: Value): Stored
  {
    var start := if dot == "" then x else root;
    match Assign(start, Segments(dot), x)
      case Some(w) => Stored(w, true)
      case None => Stored(start, false)
  }

  /** Every node strictly above the end of the path is an array or can become one. */
  predicate PathClear(v: Value, segs: seq<string>)
    decreases |segs|
  {
    segs == [] || ((v.Arr? || Vivifiable(v)) && PathClear(Child(v, segs[0]), segs[1..]))
  }

  /** The update throws exactly when a node on the path is a scalar that cannot become an array. */
  lemma {:induction false} AssignSucceedsIffClear(v: Value, segs: seq<string>, x: Value)
    ensures Assign(v, segs, x).Some? <==> PathClear(v, segs)
    decreases |segs|
  {
    if segs != [] && (v.Arr? || Vivifiable(v)) {
      AssignSucceedsIffClear(Child(v, segs[0]), segs[1..], x);
    }
  }

  /** After the update, the path leads to the stored value, through arrays at every node above it. */
  lemma {:induction false} AssignStores(v: Value, segs: seq<string>, x: Value)
    requires Assign(v, segs, x).Some?
    ensures At(Assign(v, segs, x).value, segs) == x
    ensures forall j :: 0 <= j < |segs| ==> At(Assign(v, segs, x).value, segs[..j]).Arr?
    decreases |segs|
  {
    if segs != [] {
      var w := Assign(v, segs, x).value;
      var below := Assign(Child(v, segs[0]), segs[1..], x);
      AssignStores(Child(v, segs[0]), segs[1..], x);
      assert Child(w, segs[0]) == below.value;
      forall j | 0 <= j < |segs|
        ensures At(w, segs[..j]).Arr?
      {
        if j > 0 {
          assert segs[..j][1..] == segs[1..][..j - 1];
        }
      }
    }
  }

  /** `q` leaves the path `segs` at some position both have. */
  predicate Diverges(q: seq<string>, segs: seq<string>)
    decreases |q|
  {
    q != [] && segs != [] && (q[0] != segs[0] || Diverges(q[1..], segs[1..]))
  }

  /** Frame: whatever lies off the updated path reads as before. */
  lemma {:induction false} AssignFrame(v: Value, segs: seq<string>, x: Value, q: seq<string>)
    requires Assign(v, segs, x).Some? && Diverges(q, segs)
    ensures At(Assign(v, segs, x).value, q) == At(v, q)
    decreases |segs|
  {
    var w := Assign(v, segs, x).value;
    if q[0] != segs[0] {
      assert Child(w, q[0]) == Child(v, q[0]);
    } else {
      AssignFrame(Child(v, segs[0]), segs[1..], x, q[1..]);
    }
  }

  /** Set then get: a value stored without an early stop on its path is what the lookup finds. */
  lemma SetGetRoundTrip(root: Value, dot: string, x: Value)
    requires SetAt(root, dot, x).ok && NoEarlyStop(Segments(dot))
    ensures Lookup(true, SetAt(root, dot, x).root, dot) == x
  {
    var start := if dot == "" then x else root;
    AssignStores(start, Segments(dot), x);
    ResolveIsAt(SetAt(root, dot, x).root, Segments(dot));
  }

  /** Set leaves every key whose path leaves the updated one reading as before. */
  lemma SetPreservesOtherKeys(started: bool, root: Value, dot: string, x: Value, other: string)
    requires dot != "" && SetAt(root, dot, x).ok
    requires Diverges(Segments(other), Segments(dot)) && NoEarlyStop(Segments(other))
    ensures Lookup(started, SetAt(root, dot, x).root, other) == Lookup(started, root, other)
  {
    if started {
      AssignFrame(root, Segments(dot), x, Segments(other));
      ResolveIsAt(root, Segments(other));
      ResolveIsAt(SetAt(root, dot, x).root, Segments(other));
    }
  }

  // ---------------------------------------------------------------- flush

  /** What `flush` leaves: the empty array stored at the root and again under the key "". */
  const Flushed: Value := Arr(map["" := Arr(map[])])

  /** `setByDotNotation(null, [])` leaves exactly the flushed root, whatever was there. */
  lemma FlushResult(root: Value)
    ensures SetAt(root, "", Arr(map[])) == Stored(Flushed, true)
  {
  }

  /** After a flush no key whose first segment is non-empty has a value. */
  lemma FlushedHasNoNamedKey(dot: string)
    requires Segments(dot)[0] != ""
    ensures Lookup(true, Flushed, dot) == Null
  {
  }

  /** After a flush the key "" still finds the empty array stored under it. */
  lemma FlushedKeepsEmptyKey()
    ensures Lookup(true, Flushed, "") == Arr(map[])
  {
  }

  // ---------------------------------------------------------------- backup

  /** PHP's `empty()`: null, false, 0, "", "0" and the empty array. */
  predicate Empty(v: Value)
  {
    v == Null || v == Bool(false) || v == Int(0) || v == Str("") || v == Str("0") || v == Arr(map[])
  }

  /** PHP's `!isset()` on a value: only null. */
  predicate Unset(v: Value)
  {
    v.Null?
  }
}
