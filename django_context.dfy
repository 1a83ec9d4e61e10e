/**
 * Template contexts (pongo2.Context): string-keyed maps whose values are either plain values or
 * nested contexts, and the recursive merge used to combine them (django/utils.go).
 */
module DjangoContext {

  /** A context value: a nested context, or any other value, identified by its rendering. */
  datatype Value = Leaf(repr: string) | Nested(ctx: map<string, Value>)

  type Context = map<string, Value>

  /** The context dst[k] holds, if it holds one; an empty context otherwise. */
  function NestedAt(dst: Context, k: string): Context
  {
    if k in dst && dst[k].Nested? then dst[k].ctx else map[]
  }

  /** What CopyPongoContextRecursive leaves at a key of src. */
  function MergedEntry(dst: Context, src: Context, k: string): Value
    requires k in src
    decreases Nested(src), 0
  {
    if src[k].Nested? then Nested(Merge(NestedAt(dst, k), src[k].ctx)) else src[k]
  }

  /**
   * dst after CopyPongoContextRecursive(dst, src): every key of src is written, plain values
   * overwriting, contexts merged into the context already there (or into a fresh one); every
   * other key of dst is kept.
   */
  function Merge(dst: Context, src: Context): (r: Context)
    ensures r.Keys == dst.Keys + src.Keys
    ensures forall k :: k in src && src[k].Leaf? ==> r[k] == src[k]
    ensures forall k :: k in src && src[k].Nested? ==> r[k].Nested?
    ensures forall k :: k in dst && k !in src ==> r[k] == dst[k]
    decreases Nested(src), 1
  {
    map k | k in dst.Keys + src.Keys :: if k in src then MergedEntry(dst, src, k) else dst[k]
  }

  /** dst with the keys of src in done already merged: the state of the copy loop. */
  ghost function PartialMerge(dst: Context, src: Context, done: set<string>): Context
    requires done <= src.Keys
  {
    map k | k in dst.Keys + done :: if k in done then MergedEntry(dst, src, k) else dst[k]
  }

  /** Merging one more key of src updates that key alone, and dst[k] is still as it was. */
  lemma PartialMergeStep(dst: Context, src: Context, done: set<string>, k: string)
    requires done <= src.Keys && k in src && k !in done
    ensures PartialMerge(dst, src, done + {k}) == PartialMerge(dst, src, done)[k := MergedEntry(dst, src, k)]
    ensures NestedAt(PartialMerge(dst, src, done), k) == NestedAt(dst, k)
  {
  }

  /** With every key of src merged, the loop's state is Merge. */
  lemma PartialMergeDone(dst: Context, src: Context)
    ensures PartialMerge(dst, src, src.Keys) == Merge(dst, src)
  {
  }

  /**
   * CopyPongoContextRecursive(dst, src): walks the keys of src, overwriting plain values and
   * recursing into nested contexts. Returns dst as it stands afterwards.
   */
  method CopyPongoContextRecursive(dst: Context, src: Context) returns (r: Context)
    ensures r == Merge(dst, src)
    decreases Nested(src)
  {
    r := dst;
    var todo := src.Keys;
    assert r == PartialMerge(dst, src, {});
    while todo != {}
      invariant todo <= src.Keys
      invariant r == PartialMerge(dst, src, src.Keys - todo)
      decreases todo
    {
      var k :| k in todo;
      var v := src[k];
      PartialMergeStep(dst, src, src.Keys - todo, k);
      assert src.Keys - (todo - {k}) == (src.Keys - todo) + {k};
      if v.Nested? {
        // dst[k] is replaced by a fresh context unless it already holds one
        var target := if k in r && r[k].Nested? then r[k].ctx else map[];
        var merged := CopyPongoContextRecursive(target, v.ctx);
        r := r[k := Nested(merged)];
      } else {
        r := r[k := v];
      }
      todo := todo - {k};
    }
    PartialMergeDone(dst, src);
  }

  /**
   * A key dst already holds is still written from src: the copy follows the loop, which assigns
   * every plain value of src, and not the doc comment's "if dst does not have the key".
   */
  lemma LeafOverwritten()
    ensures Merge(map["a" := Leaf("1")], map["a" := Leaf("2")]) == map["a" := Leaf("2")]
  {
    var r := Merge(map["a" := Leaf("1")], map["a" := Leaf("2")]);
    assert r.Keys == {"a"};
  }

  /** Merging two contexts keeps the nested keys of dst[k] that src[k] does not mention. */
  lemma NestedKeysSurvive(dst: Context, src: Context, k: string, j: string)
    requires k in dst && dst[k].Nested? && k in src && src[k].Nested?
    requires j in dst[k].ctx && j !in src[k].ctx
    ensures j in Merge(dst, src)[k].ctx && Merge(dst, src)[k].ctx[j] == dst[k].ctx[j]
  {
  }

  /** Copying into an empty context reproduces src: the merge is a deep copy. */
  lemma {:induction false} MergeIntoEmpty(src: Context)
    ensures Merge(map[], src) == src
    decreases Nested(src)
  {
    forall k | k in src
      ensures Merge(map[], src)[k] == src[k]
    {
      if src[k].Nested? {
        MergeIntoEmpty(src[k].ctx);
      }
    }
  }

  /** Copying the same context twice changes nothing the first copy did not. */
  lemma {:induction false} MergeIdempotent(dst: Context, src: Context)
    ensures Merge(Merge(dst, src), src) == Merge(dst, src)
    decreases Nested(src)
  {
    var once := Merge(dst, src);
    forall k | k in src
      ensures Merge(once, src)[k] == once[k]
    {
      if src[k].Nested? {
        assert NestedAt(once, k) == Merge(NestedAt(dst, k), src[k].ctx);
        MergeIdempotent(NestedAt(dst, k), src[k].ctx);
      }
    }
  }

  /** The left fold MergeContext computes: an empty context, then each argument copied in turn. */
  function MergeAll(contexts: seq<Context>): Context
  {
    if |contexts| == 0 then map[] else Merge(MergeAll(contexts[..|contexts| - 1]), contexts[|contexts| - 1])
  }

  /** MergeContext(contexts...): copies each context in order into a new, empty one. */
  method MergeContext(contexts: seq<Context>) returns (ctx: Context)
    ensures ctx == MergeAll(contexts)
    ensures |contexts| == 0 ==> ctx == map[]
    ensures |contexts| > 0 ==>
      forall k :: k in contexts[|contexts| - 1] && contexts[|contexts| - 1][k].Leaf? ==>
        k in ctx && ctx[k] == contexts[|contexts| - 1][k]
  {
    ctx := map[];
    for i := 0 to |contexts|
      invariant ctx == MergeAll(contexts[..i])
    {
      assert contexts[..i + 1][..i] == contexts[..i];
      ctx := CopyPongoContextRecursive(ctx, contexts[i]);
    }
    assert contexts[..|contexts|] == contexts;
  }

  /** MergeContext of a single context is a copy of it. */
  lemma MergeContextSingle(c: Context)
    ensures MergeAll([c]) == c
  {
    assert [c][..0] == [];
    MergeIntoEmpty(c);
  }
}
