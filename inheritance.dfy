/**
 * Configuration inheritance along the superclass chain of a controller
 * class. A hierarchy is a sequence of levels: `chain[k]` is the receiver,
 * `chain[k + 1]` its superclass and so on up to the root; past the end of
 * the sequence the superclass is nil. Each level says whether the class
 * responds to the scaffold class methods, and holds its own
 * `@active_scaffold_config` and `@active_scaffold_config_block`.
 */
module Inheritance {
  import opened Wrappers

  datatype Level<C, B> = Level(respondsToScaffold: bool, config: Option<C>, block: Option<B>)

  /**
   * The end of the run of ancestors of `chain[k]` that respond to the
   * scaffold class methods: those are `chain[k + 1 .. r]`.
   */
  function Reach<C, B>(chain: seq<Level<C, B>>, k: nat): (r: nat)
    requires k < |chain|
    ensures k < r <= |chain|
    ensures forall j :: k < j < r ==> chain[j].respondsToScaffold
    ensures r < |chain| ==> !chain[r].respondsToScaffold
    decreases |chain| - k
  {
    if k + 1 < |chain| && chain[k + 1].respondsToScaffold then Reach(chain, k + 1) else k + 1
  }

  /**
   * `active_scaffold_config` of `chain[k]`: its own config when set,
   * otherwise that of the superclass when the superclass responds, otherwise
   * nil. The result is the config of the nearest class, the receiver
   * included, among the responding ones.
   */
  function ActiveScaffoldConfig<C, B>(chain: seq<Level<C, B>>, k: nat): (r: Option<C>)
    requires k < |chain|
    ensures chain[k].config.Some? ==> r == chain[k].config
    ensures r.Some? <==> exists j :: k <= j < Reach(chain, k) && chain[j].config.Some?
    ensures r.Some? ==> exists j :: k <= j < Reach(chain, k) && chain[j].config == r &&
                                    forall i :: k <= i < j ==> chain[i].config.None?
    decreases |chain| - k
  {
    if chain[k].config.Some? then chain[k].config
    else if k + 1 < |chain| && chain[k + 1].respondsToScaffold then ActiveScaffoldConfig(chain, k + 1)
    else None
  }

  /** `uses_active_scaffold?`: some class from the receiver up the responding run has a config. */
  function UsesActiveScaffold<C, B>(chain: seq<Level<C, B>>, k: nat): (r: bool)
    requires k < |chain|
    ensures r <==> exists j :: k <= j < Reach(chain, k) && chain[j].config.Some?
  {
    ActiveScaffoldConfig(chain, k).Some?
  }

  /**
   * The indices in `[lo, hi)` whose level carries a config block, from the
   * highest to the lowest.
   */
  function Origins<C, B>(chain: seq<Level<C, B>>, lo: nat, hi: nat): (r: seq<nat>)
    requires lo <= hi <= |chain|
    ensures forall i :: 0 <= i < |r| ==> lo <= r[i] < hi
    decreases hi - lo
  {
    if hi == lo then []
    else (if chain[hi - 1].block.Some? then [hi - 1] else []) + Origins(chain, lo, hi - 1)
  }

  /** Every level `Origins` lists has a block. */
  lemma {:induction false} OriginsHaveBlocks<C, B>(chain: seq<Level<C, B>>, lo: nat, hi: nat)
    requires lo <= hi <= |chain|
    ensures forall i :: 0 <= i < |Origins(chain, lo, hi)| ==> chain[Origins(chain, lo, hi)[i]].block.Some?
    decreases hi - lo
  {
    if hi > lo {
      OriginsHaveBlocks(chain, lo, hi - 1);
    }
  }

  /** `Origins` runs from the highest index down, so no level is listed twice. */
  lemma {:induction false} OriginsDescend<C, B>(chain: seq<Level<C, B>>, lo: nat, hi: nat)
    requires lo <= hi <= |chain|
    ensures forall i, j :: 0 <= i < j < |Origins(chain, lo, hi)| ==> Origins(chain, lo, hi)[i] > Origins(chain, lo, hi)[j]
    decreases hi - lo
  {
    if hi > lo {
      OriginsDescend(chain, lo, hi - 1);
    }
  }

  /** Every level in `[lo, hi)` that has a block is listed by `Origins`. */
  lemma {:induction false} OriginsComplete<C, B>(chain: seq<Level<C, B>>, lo: nat, hi: nat)
    requires lo <= hi <= |chain|
    ensures forall m :: lo <= m < hi && chain[m].block.Some? ==> m in Origins(chain, lo, hi)
    decreases hi - lo
  {
    if hi > lo {
      OriginsComplete(chain, lo, hi - 1);
    }
  }

  /** Ruby's `compact`: the values of `s` with the nils dropped, in order. */
  function Compact<T>(s: seq<Option<T>>): (r: seq<T>)
    ensures |r| <= |s|
    decreases |s|
  {
    if s == [] then []
    else Compact(s[..|s| - 1]) + (if s[|s| - 1].Some? then [s[|s| - 1].value] else [])
  }

  /** `compact` keeps exactly the values of the non-nil entries. */
  lemma {:induction false} CompactKeepsValues<T>(s: seq<Option<T>>)
    ensures forall i :: 0 <= i < |Compact(s)| ==> Some(Compact(s)[i]) in s
    ensures forall i :: 0 <= i < |s| && s[i].Some? ==> s[i].value in Compact(s)
    decreases |s|
  {
    if s != [] {
      var init := s[..|s| - 1];
      CompactKeepsValues(init);
      assert forall x :: x in init ==> x in s;
      forall i | 0 <= i < |s| - 1 && s[i].Some? ensures s[i].value in Compact(s) {
        assert init[i] == s[i];
      }
    }
  }

  /** Ruby's `reverse`. */
  function Reversed<T>(s: seq<T>): (r: seq<T>)
    ensures |r| == |s|
    ensures forall i :: 0 <= i < |s| ==> r[i] == s[|s| - 1 - i]
    decreases |s|
  {
    if s == [] then [] else [s[|s| - 1]] + Reversed(s[..|s| - 1])
  }

  /**
   * Compacting and reversing the blocks of `chain[lo .. hi]`, collected
   * nearest first, gives the blocks of `Origins(chain, lo, hi)`.
   */
  lemma {:induction false} CompactReversedIsOrigins<C, B>(chain: seq<Level<C, B>>, lo: nat, hi: nat, raw: seq<Option<B>>)
    requires lo <= hi <= |chain| && |raw| == hi - lo
    requires forall i :: 0 <= i < |raw| ==> raw[i] == chain[lo + i].block
    ensures |Reversed(Compact(raw))| == |Origins(chain, lo, hi)|
    ensures forall i :: 0 <= i < |Reversed(Compact(raw))| ==>
              chain[Origins(chain, lo, hi)[i]].block == Some(Reversed(Compact(raw))[i])
    decreases hi - lo
  {
    if hi > lo {
      var init := raw[..|raw| - 1];
      CompactReversedIsOrigins(chain, lo, hi - 1, init);
      var c := Compact(init);
      var o := Origins(chain, lo, hi - 1);
      var r := Reversed(Compact(raw));
      if chain[hi - 1].block.Some? {
        assert Compact(raw) == c + [chain[hi - 1].block.value];
        assert Origins(chain, lo, hi) == [hi - 1] + o;
        forall i | 0 <= i < |r| ensures chain[([hi - 1] + o)[i]].block == Some(r[i]) {
          if i > 0 {
            assert r[i] == Reversed(c)[i - 1];
          }
        }
      } else {
        assert Compact(raw) == c;
        assert Origins(chain, lo, hi) == o;
      }
    }
  }

  /**
   * `active_scaffold_superclasses_blocks` of `chain[k]`: walk up from the
   * superclass while the class responds, collecting each config block, then
   * drop the nils and reverse. The result holds exactly the blocks of the
   * responding strict ancestors, farthest ancestor first; the receiver's own
   * block is never among them.
   */
  method SuperclassesBlocks<C, B>(chain: seq<Level<C, B>>, k: nat) returns (blocks: seq<B>)
    requires k < |chain|
    ensures |blocks| == |Origins(chain, k + 1, Reach(chain, k))|
    ensures forall i :: 0 <= i < |blocks| ==> chain[Origins(chain, k + 1, Reach(chain, k))[i]].block == Some(blocks[i])
  {
    var raw: seq<Option<B>> := [];
    var klass := k + 1;
    while klass < |chain| && chain[klass].respondsToScaffold
      invariant k + 1 <= klass <= Reach(chain, k)
      invariant |raw| == klass - (k + 1)
      invariant forall i :: 0 <= i < |raw| ==> raw[i] == chain[k + 1 + i].block
      decreases |chain| - klass
    {
      raw := raw + [chain[klass].block];
      klass := klass + 1;
    }
    CompactReversedIsOrigins(chain, k + 1, klass, raw);
    blocks := Reversed(Compact(raw));
  }
}
