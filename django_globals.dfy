/**
 * The global template context (django/provider.go): SetGlobals writes a value under a dotted
 * path, GetGlobals returns the map it writes into.
 */
module DjangoGlobals {
  import opened Wrappers
  import Strings
  import opened DjangoContext

  /**
   * The walk SetGlobals performs, as written. An intermediate segment holding a context is
   * descended into; a missing or non-context one is replaced by an empty context but the walk
   * stays at the current level, so later segments are written there.
   */
  function SetAsWritten(o: Context, keys: seq<string>, value: Value): (r: Context)
    requires |keys| >= 1
    ensures |keys| == 1 ==> r == o[keys[0] := value]
    ensures keys[0] in r && r.Keys >= o.Keys
    decreases |keys|
  {
    if |keys| == 1 then o[keys[0] := value]
    else if keys[0] in o && o[keys[0]].Nested? then
      o[keys[0] := Nested(SetAsWritten(o[keys[0]].ctx, keys[1..], value))]
    else
      SetAsWritten(o[keys[0] := Nested(map[])], keys[1..], value)
  }

  /** The value at a dotted path, descending through nested contexts. */
  function GetPath(o: Context, keys: seq<string>): Option<Value>
    requires |keys| >= 1
    decreases |keys|
  {
    if keys[0] !in o then None
    else if |keys| == 1 then Some(o[keys[0]])
    else if o[keys[0]].Nested? then GetPath(o[keys[0]].ctx, keys[1..])
    else None
  }

  /** The evidently intended walk: a missing or non-context segment is replaced by an empty context AND descended into. */
  function SetPath(o: Context, keys: seq<string>, value: Value): (r: Context)
    requires |keys| >= 1
    ensures r.Keys == o.Keys + {keys[0]}
    ensures forall k :: k in o && k != keys[0] ==> r[k] == o[k]
    decreases |keys|
  {
    if |keys| == 1 then o[keys[0] := value]
    else o[keys[0] := Nested(SetPath(NestedAt(o, keys[0]), keys[1..], value))]
  }

  /** With the intended walk, the value set under a path is read back under that path. */
  lemma {:induction false} GetSetPath(o: Context, keys: seq<string>, value: Value)
    requires |keys| >= 1
    ensures GetPath(SetPath(o, keys, value), keys) == Some(value)
    decreases |keys|
  {
    if |keys| > 1 {
      GetSetPath(NestedAt(o, keys[0]), keys[1..], value);
    }
  }

  /** Every intermediate segment of the path already holds a context in o. */
  predicate Descends(o: Context, keys: seq<string>)
    requires |keys| >= 1
    decreases |keys|
  {
    |keys| == 1 || (keys[0] in o && o[keys[0]].Nested? && Descends(o[keys[0]].ctx, keys[1..]))
  }

  /** Where every intermediate context exists, the code as written does what was intended. */
  lemma {:induction false} AsWrittenAgreesWhenDescending(o: Context, keys: seq<string>, value: Value)
    requires |keys| >= 1 && Descends(o, keys)
    ensures SetAsWritten(o, keys, value) == SetPath(o, keys, value)
    decreases |keys|
  {
    if |keys| > 1 {
      AsWrittenAgreesWhenDescending(o[keys[0]].ctx, keys[1..], value);
    }
  }

  /** "a.b" on an empty map: as written it sets root["b"] and leaves root["a"] an empty context. */
  lemma NonDescendingCounterexample(value: Value)
    ensures Strings.Split("a.b", '.') == ["a", "b"]
    ensures SetAsWritten(map[], ["a", "b"], value) == map["a" := Nested(map[]), "b" := value]
    ensures GetPath(SetAsWritten(map[], ["a", "b"], value), ["a", "b"]) == None
    ensures GetPath(SetPath(map[], ["a", "b"], value), ["a", "b"]) == Some(value)
  {
    Strings.SplitJoin(["a", "b"], '.');
    assert Strings.Join(["a", "b"], '.') == "a.b" by { assert ["a", "b"][1..] == ["b"]; }
    assert ["a", "b"][1..] == ["b"];
    GetSetPath(map[], ["a", "b"], value);
  }

  /** The "invalid path" panic is unreachable: splitting always yields at least one segment. */
  lemma SplitNeverEmpty(path: string)
    ensures |Strings.Split(path, '.')| >= 1
  {
  }

  /** The package-level globalsCtxProviders map. */
  class Globals {
    var root: Context

    /** The map starts empty. */
    constructor ()
      ensures root == map[]
    {
      root := map[];
    }

    /** GetGlobals: the very map SetGlobals writes into. */
    function GetGlobals(): Context
      reads this
    {
      root
    }

    /**
     * SetGlobals(path, value), as written: split the path on ".", walk down the map, then store
     * the value under the last segment at the level the walk reached.
     */
    method SetGlobals(path: string, value: Value)
      modifies this
      ensures GetGlobals() == SetAsWritten(old(GetGlobals()), Strings.Split(path, '.'), value)
    {
      var keys := Strings.Split(path, '.');
      ghost var target := SetAsWritten(root, keys, value);
      // the maps the walk descended from, each with the key it descended at
      var frames: seq<(Context, string)> := [];
      var o := root;
      var i := 0;
      while i < |keys| - 1
        invariant 0 <= i <= |keys| - 1
        invariant Rebuild(frames, SetAsWritten(o, keys[i..], value)) == target
        decreases |keys| - i
      {
        var v := keys[i];
        assert keys[i..][1..] == keys[i + 1..];
        if v in o && o[v].Nested? {
          RebuildPush(frames, o, v, SetAsWritten(o[v].ctx, keys[i + 1..], value));
          frames := frames + [(o, v)];
          o := o[v].ctx;
        } else {
          o := o[v := Nested(map[])];
        }
        i := i + 1;
      }
      assert keys[i..] == [keys[i]];
      o := o[keys[i] := value];
      assert frames[..|frames|] == frames;
      var j := |frames|;
      while j > 0
        invariant 0 <= j <= |frames|
        invariant Rebuild(frames[..j], o) == target
        decreases j
      {
        assert frames[..j][..j - 1] == frames[..j - 1];
        o := frames[j - 1].0[frames[j - 1].1 := Nested(o)];
        j := j - 1;
      }
      assert frames[..0] == [];
      root := o;
    }
  }

  /** The root map obtained by writing inner back into each frame, innermost first. */
  function Rebuild(frames: seq<(Context, string)>, inner: Context): Context
    decreases |frames|
  {
    if |frames| == 0 then inner
    else
      var (parent, k) := frames[|frames| - 1];
      Rebuild(frames[..|frames| - 1], parent[k := Nested(inner)])
  }

  lemma RebuildPush(frames: seq<(Context, string)>, parent: Context, k: string, inner: Context)
    ensures Rebuild(frames + [(parent, k)], inner) == Rebuild(frames, parent[k := Nested(inner)])
  {
    assert (frames + [(parent, k)])[..|frames|] == frames;
  }
}
