/**
 * The bind-slot resolver as values: which stage of a pass feeds each row of
 * a per-stage binding map, what a rebuild writes into the rows, and the
 * single-entry cache that skips the rebuild for the pass already resolved.
 */
module BindSlots {
  import opened MaterialTypes
  import opened Collaborators

  /** Which of a stage's two name tables a binding map is filled from. */
  datatype MappingKind = ResourceMapping | SamplerMapping

  function Mapping(sh: Shader, kind: MappingKind): map<string, int>
  {
    match kind
    case ResourceMapping => sh.resourceSlots
    case SamplerMapping => sh.samplerSlots
  }

  /** A stage the rebuild writes row `k` from: non-null, texture-capable and of that stage kind. */
  predicate FeedsRow(sh: Shader, k: nat)
  {
    sh.CanBindTextures() && sh.stage.ToIndex() == k
  }

  /**
   * The stage whose lookups end up in row `k` after a rebuild over `shaders`:
   * the rebuild visits stages in order, so a later stage of the same kind
   * overwrites an earlier one. None when no stage feeds row `k`.
   */
  function RowSource(shaders: seq<Shader>, k: nat): (r: Option<Shader>)
    ensures r.Some? ==> r.value in shaders && FeedsRow(r.value, k)
    ensures r.None? ==> forall q :: 0 <= q < |shaders| ==> !FeedsRow(shaders[q], k)
  {
    if |shaders| == 0 then None
    else if FeedsRow(shaders[|shaders| - 1], k) then Some(shaders[|shaders| - 1])
    else RowSource(shaders[..|shaders| - 1], k)
  }

  /** One entry after a rebuild: the feeding stage's lookup, or the entry as it was. */
  function ResolvedIndex(source: Option<Shader>, kind: MappingKind, name: string, before: int): int
  {
    match source
    case None => before
    case Some(sh) => TryGetBindSlot(Mapping(sh, kind), name)
  }

  /** A binding map after a rebuild over `shaders`, one column per semantic slot name. */
  function ResolveRows(before: seq<seq<int>>, shaders: seq<Shader>, names: seq<string>, kind: MappingKind): (after: seq<seq<int>>)
    requires forall k :: 0 <= k < |before| ==> |before[k]| == |names|
    ensures |after| == |before|
    ensures forall k :: 0 <= k < |after| ==> |after[k]| == |names|
  {
    seq(|before|, k requires 0 <= k < |before| =>
      seq(|names|, j requires 0 <= j < |names| =>
        ResolvedIndex(RowSource(shaders, k), kind, names[j], before[k][j])))
  }

  /** The single-entry cache: rebuild only when the pass differs from the one last resolved. */
  function CachedRows(cached: Option<PassId>, pass: ShaderPass, before: seq<seq<int>>, names: seq<string>, kind: MappingKind): seq<seq<int>>
    requires forall k :: 0 <= k < |before| ==> |before[k]| == |names|
  {
    if cached == Some(pass.id) then before else ResolveRows(before, pass.shaders, names, kind)
  }

  /** Number of stages of `shaders` the engine binds textures on. */
  function EligibleCount(shaders: seq<Shader>): nat
  {
    if |shaders| == 0 then 0
    else EligibleCount(shaders[..|shaders| - 1]) + (if shaders[|shaders| - 1].CanBindTextures() then 1 else 0)
  }

  /** Stage kinds have distinct rows. */
  lemma ToIndexInjective(a: ShaderStage, b: ShaderStage)
    requires a.ToIndex() == b.ToIndex()
    ensures a == b
  {
    match a
    case Vertex =>
    case Hull =>
    case Domain =>
    case Geometry =>
    case Pixel =>
    case Compute =>
  }

  /** RowSource picks the LAST stage that feeds row `k`. */
  lemma {:induction false} RowSourceIsLast(shaders: seq<Shader>, k: nat)
    ensures RowSource(shaders, k).Some? ==>
      exists p :: 0 <= p < |shaders| && shaders[p] == RowSource(shaders, k).value
        && forall q :: p < q < |shaders| ==> !FeedsRow(shaders[q], k)
  {
    if |shaders| > 0 && !FeedsRow(shaders[|shaders| - 1], k) {
      var prefix := shaders[..|shaders| - 1];
      RowSourceIsLast(prefix, k);
      if RowSource(prefix, k).Some? {
        var p :| 0 <= p < |prefix| && prefix[p] == RowSource(prefix, k).value
          && forall q :: p < q < |prefix| ==> !FeedsRow(prefix[q], k);
        assert shaders[p] == RowSource(shaders, k).value;
        assert forall q :: p < q < |shaders| ==> !FeedsRow(shaders[q], k) by {
          forall q | p < q < |shaders|
            ensures !FeedsRow(shaders[q], k)
          {
            if q < |prefix| {
              assert prefix[q] == shaders[q];
            }
          }
        }
      }
    }
  }

  /** A stage that feeds row `k` with no later stage feeding it is the row's source. */
  lemma {:induction false} LastFeederIsRowSource(shaders: seq<Shader>, k: nat, p: nat)
    requires p < |shaders| && FeedsRow(shaders[p], k)
    requires forall q :: p < q < |shaders| ==> !FeedsRow(shaders[q], k)
    ensures RowSource(shaders, k) == Some(shaders[p])
    decreases |shaders|
  {
    if p < |shaders| - 1 {
      var prefix := shaders[..|shaders| - 1];
      assert prefix[p] == shaders[p];
      forall q | p < q < |prefix|
        ensures !FeedsRow(prefix[q], k)
      {
        assert prefix[q] == shaders[q];
      }
      LastFeederIsRowSource(prefix, k, p);
    }
  }

  /**
   * In a pass with at most one texture-capable stage per kind, every such
   * stage is the source of its own row.
   */
  lemma RowSourceOfDistinctStages(shaders: seq<Shader>, p: nat)
    requires forall i, j :: (0 <= i < j < |shaders| && shaders[i].CanBindTextures() && shaders[j].CanBindTextures()
      ==> shaders[i].stage != shaders[j].stage)
    requires p < |shaders| && shaders[p].CanBindTextures()
    ensures RowSource(shaders, shaders[p].stage.ToIndex()) == Some(shaders[p])
  {
    var k := shaders[p].stage.ToIndex();
    forall q | p < q < |shaders|
      ensures !FeedsRow(shaders[q], k)
    {
      if FeedsRow(shaders[q], k) {
        ToIndexInjective(shaders[q].stage, shaders[p].stage);
      }
    }
    LastFeederIsRowSource(shaders, k, p);
  }

  /** A rebuild leaves the row of every stage kind the pass does not feed as it was. */
  lemma ResolveKeepsUnfedRows(before: seq<seq<int>>, shaders: seq<Shader>, names: seq<string>, kind: MappingKind, k: nat)
    requires forall r :: 0 <= r < |before| ==> |before[r]| == |names|
    requires k < |before|
    requires forall q :: 0 <= q < |shaders| ==> !FeedsRow(shaders[q], k)
    ensures ResolveRows(before, shaders, names, kind)[k] == before[k]
  {
    var after := ResolveRows(before, shaders, names, kind);
    assert RowSource(shaders, k) == None;
    assert forall j :: 0 <= j < |names| ==> after[k][j] == before[k][j];
  }

  /**
   * A rebuild writes the row of a fed stage kind from the last stage of that
   * kind: entry `j` is that stage's lookup of name `j`, sentinel on a miss,
   * whatever the row held before.
   */
  lemma ResolveRowFromLastFeeder(before: seq<seq<int>>, shaders: seq<Shader>, names: seq<string>, kind: MappingKind, p: nat, j: nat)
    requires forall r :: 0 <= r < |before| ==> |before[r]| == |names|
    requires p < |shaders| && shaders[p].CanBindTextures() && shaders[p].stage.ToIndex() < |before|
    requires forall q :: p < q < |shaders| ==> !FeedsRow(shaders[q], shaders[p].stage.ToIndex())
    requires j < |names|
    ensures ResolveRows(before, shaders, names, kind)[shaders[p].stage.ToIndex()][j]
      == (if names[j] in Mapping(shaders[p], kind) then Mapping(shaders[p], kind)[names[j]] else Sentinel)
  {
    LastFeederIsRowSource(shaders, shaders[p].stage.ToIndex(), p);
  }

  /**
   * What the cache holds after resolving a pass does not depend on what it
   * held before, for every row the pass feeds: switching back and forth
   * between passes always leaves the current pass's indices in place.
   */
  lemma ResolvedRowForgetsHistory(before1: seq<seq<int>>, before2: seq<seq<int>>, shaders: seq<Shader>, names: seq<string>, kind: MappingKind, k: nat)
    requires |before1| == |before2|
    requires forall r :: 0 <= r < |before1| ==> |before1[r]| == |names| && |before2[r]| == |names|
    requires k < |before1|
    requires exists q :: 0 <= q < |shaders| && FeedsRow(shaders[q], k)
    ensures ResolveRows(before1, shaders, names, kind)[k] == ResolveRows(before2, shaders, names, kind)[k]
  {
    var q :| 0 <= q < |shaders| && FeedsRow(shaders[q], k);
    assert RowSource(shaders, k).Some?;
  }
}
