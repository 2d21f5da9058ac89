/**
 * The Session helper: the static `$started` flag and the `$_SESSION` array become the two
 * fields of one object, and each static method becomes a method on it.
 */
module SessionStore {
  import opened Wrappers
  import opened SessionSpec

  /** The frames a reference walk passes through, rebuilt around the value at the end. */
  function Plug(frames: seq<map<string, Value>>, keys: seq<string>, inner: Value): Value
    requires |frames| == |keys|
    decreases |frames|
  {
    if frames == [] then inner else Arr(frames[0][keys[0] := Plug(frames[1..], keys[1..], inner)])
  }

  /** Plugging into one more frame at the bottom is plugging an updated frame into the others. */
  lemma {:induction false} PlugSnoc(frames: seq<map<string, Value>>, keys: seq<string>,
                                    m: map<string, Value>, k: string, inner: Value)
    requires |frames| == |keys|
    ensures Plug(frames + [m], keys + [k], inner) == Plug(frames, keys, Arr(m[k := inner]))
    decreases |frames|
  {
    if frames != [] {
      assert (frames + [m])[1..] == frames[1..] + [m];
      assert (keys + [k])[1..] == keys[1..] + [k];
      PlugSnoc(frames[1..], keys[1..], m, k, inner);
    } else {
      assert Plug([m], [k], inner) == Arr(m[k := Plug([], [], inner)]);
    }
  }

  /** The update found below the walked frames, lifted through them. */
  function Lift(frames: seq<map<string, Value>>, keys: seq<string>, below: Option<Value>): Option<Value>
    requires |frames| == |keys|
  {
    match below
      case None => None
      case Some(w) => Some(Plug(frames, keys, w))
  }

  class Session {
    /** Whether `session_start` succeeded (the static `$started`). */
    var started: bool
    /** The `$_SESSION` superglobal. */
    var data: Value

    constructor(started: bool, data: Value)
      ensures this.started == started && this.data == data
    {
      this.started := started;
      this.data := data;
    }

    /**
     * `resolveByDotNotation`: null unless started; otherwise walks the segments while each
     * entry is set, and returns once the segment taken equals the last segment.
     */
    method ResolveByDotNotation(dot: string) returns (found: Value)
      ensures found == Lookup(started, data, dot)
    {
      if !started {
        return Null;
      }
      var exploded := Segments(dot);
      var last := exploded[|exploded| - 1];
      var arrPointer := data;
      var i := 0;
      while i < |exploded|
        invariant 0 <= i <= |exploded|
        invariant Resolve(data, exploded, last) == Resolve(arrPointer, exploded[i..], last)
      {
        var explode := exploded[i];
        if arrPointer.Arr? && explode in arrPointer.entries && !arrPointer.entries[explode].Null? {
          arrPointer := arrPointer.entries[explode];
        } else {
          return Null;
        }
        if last == explode {
          return arrPointer;
        }
        assert exploded[i..][1..] == exploded[i + 1..];
        i := i + 1;
      }
      return Null;
    }

    /**
     * `setByDotNotation`: an empty path replaces the whole root first; then a reference walk
     * turns each node into an array and stores `value` at the end. `ok` is false when the walk
     * meets a scalar, where PHP throws.
     */
    method SetByDotNotation(dot: string, value: Value) returns (ok: bool)
      modifies this`data
      ensures Stored(data, ok) == SetAt(old(data), dot, value)
    {
      if dot == "" {
        data := value;
      }
      ghost var start := data;
      var exploded := Segments(dot);
      var frames: seq<map<string, Value>> := [];
      var valuePointer := data;
      var i := 0;
      while i < |exploded|
        invariant 0 <= i <= |exploded| && |frames| == i && data == start
        invariant Assign(data, exploded, value) == Lift(frames, exploded[..i], Assign(valuePointer, exploded[i..], value))
      {
        var key := exploded[i];
        var frame: map<string, Value>;
        if valuePointer.Arr? {
          frame := valuePointer.entries;
        } else if Vivifiable(valuePointer) {
          frame := map[];
        } else {
          assert exploded[i..] != [] && Assign(valuePointer, exploded[i..], value) == None;
          return false;
        }
        var next := if key in frame then frame[key] else Null;
        assert exploded[i..][1..] == exploded[i + 1..];
        assert exploded[..i + 1] == exploded[..i] + [key];
        match Assign(next, exploded[i + 1..], value) {
          case None =>
          case Some(w) => PlugSnoc(frames, exploded[..i], frame, key, w);
        }
        frames := frames + [frame];
        valuePointer := next;
        i := i + 1;
      }
      assert exploded[..i] == exploded && frames[..i] == frames;
      var acc := value;
      var j := i;
      while j > 0
        invariant 0 <= j <= |exploded| && data == start
        invariant Plug(frames, exploded, value) == Plug(frames[..j], exploded[..j], acc)
      {
        j := j - 1;
        assert frames[..j + 1] == frames[..j] + [frames[j]];
        assert exploded[..j + 1] == exploded[..j] + [exploded[j]];
        PlugSnoc(frames[..j], exploded[..j], frames[j], exploded[j], acc);
        acc := Arr(frames[j][exploded[j] := acc]);
      }
      data := acc;
      ok := true;
    }

    /** `set($attr, $value)` without serialisation: stores and returns the value; None when PHP throws. */
    method Set(attr: string, value: Value) returns (result: Option<Value>)
      modifies this`data
      ensures data == SetAt(old(data), attr, value).root
      ensures result == if SetAt(old(data), attr, value).ok then Some(value) else None
    {
      var ok := SetByDotNotation(attr, value);
      result := if ok then Some(value) else None;
    }

    /** `get($attr, $default)` without serialisation: the default exactly when the lookup is null. */
    method Get(attr: string, default: Value := Null) returns (result: Value)
      ensures Lookup(started, data, attr).Null? ==> result == default
      ensures !Lookup(started, data, attr).Null? ==> result == Lookup(started, data, attr)
    {
      var ordinary := ResolveByDotNotation(attr);
      if ordinary.Null? {
        result := default;
      } else {
        result := ordinary;
      }
    }

    /** `has($key)`: whether the lookup is non-null. */
    method Has(key: string) returns (present: bool)
      ensures present <==> !Lookup(started, data, key).Null?
    {
      var found := ResolveByDotNotation(key);
      present := !found.Null?;
    }

    /** `backup`: an empty value reads the stored one (or the default), any other is stored and returned. */
    method Backup(attr: string, value: Value, default: Value := Null) returns (result: Option<Value>)
      modifies this`data
      ensures Empty(value) ==> data == old(data)
                               && result == Some(if Lookup(started, data, attr).Null? then default
                                                 else Lookup(started, data, attr))
      ensures !Empty(value) ==> data == SetAt(old(data), attr, value).root
                                && result == if SetAt(old(data), attr, value).ok then Some(value) else None
    {
      if Empty(value) {
        var got := Get(attr, default);
        result := Some(got);
      } else {
        result := Set(attr, value);
      }
    }

    /** `backupNumber`: as `backup`, but only null reads the stored value, so 0 is stored. */
    method BackupNumber(attr: string, value: Value, default: Value := Null) returns (result: Option<Value>)
      modifies this`data
      ensures Unset(value) ==> data == old(data)
                               && result == Some(if Lookup(started, data, attr).Null? then default
                                                 else Lookup(started, data, attr))
      ensures !Unset(value) ==> data == SetAt(old(data), attr, value).root
                                && result == if SetAt(old(data), attr, value).ok then Some(value) else None
    {
      if Unset(value) {
        var got := Get(attr, default);
        result := Some(got);
      } else {
        result := Set(attr, value);
      }
    }

    /** `flush`: `setByDotNotation(null, [])`, which leaves the empty array also under the key "". */
    method Flush()
      modifies this`data
      ensures data == Flushed
    {
      FlushResult(data);
      var _ := SetByDotNotation("", Arr(map[]));
    }
  }
}
