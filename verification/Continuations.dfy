/** The continuation arena (src/cont.rs, src/arena.rs, src/cekh.rs): frames are
    heap slots, taken destructively, that refine immutable frame lists. */
module Continuations {
  import opened Values
  import opened Boundary
  import opened ArenaObject
  import opened FrameLists

  // ---------- Reading the arena ----------

  ghost function FrameAt(data: seq<Kont>, id: ContId): Frame {
    if id < |data| && data[id].Link? then data[id].frame else ReturnExprK
  }

  ghost function FramesAt(data: seq<Kont>, ids: seq<ContId>): seq<Frame> {
    seq(|ids|, i requires 0 <= i < |ids| => FrameAt(data, ids[i]))
  }

  ghost predicate Linked(data: seq<Kont>, ids: seq<ContId>) {
    && (forall i :: 0 <= i < |ids| ==> ids[i] < |data|)
    && (forall i :: 0 <= i < |ids| - 1 ==> data[ids[i]].Link? && data[ids[i]].k == ids[i + 1])
  }

  /** The slots of a live continuation, out to its Halt slot. */
  ghost predicate IsChain(data: seq<Kont>, p: seq<ContId>) {
    && p != [] && Linked(data, p) && data[p[|p| - 1]].Halt?
    && (forall i, j :: 0 <= i < j < |p| ==> p[i] != p[j])
  }

  /** The slots of a captured continuation, out to its first handler. */
  ghost predicate IsCut(data: seq<Kont>, q: seq<ContId>) {
    && q != [] && Linked(data, q) && data[q[|q| - 1]].Link?
    && (forall i :: 0 <= i < |q| ==> (FrameAt(data, q[i]).HandlerK? <==> i == |q| - 1))
  }

  ghost predicate ChainsApart(paths: seq<seq<ContId>>) {
    forall i, j, x :: 0 <= i < j < |paths| && x in paths[i] ==> x !in paths[j]
  }

  ghost predicate CutsApart(paths: seq<seq<ContId>>, cuts: seq<Option<seq<ContId>>>) {
    forall i, n, x :: 0 <= i < |paths| && 0 <= n < |cuts| && cuts[n].Some? && x in paths[i] ==> x !in cuts[n].value
  }

  /** A slot some live chain or captured prefix depends on. */
  ghost predicate Owned(paths: seq<seq<ContId>>, cuts: seq<Option<seq<ContId>>>, x: ContId) {
    || (exists i :: 0 <= i < |paths| && x in paths[i])
    || (exists n :: 0 <= n < |cuts| && cuts[n].Some? && x in cuts[n].value)
  }

  /** Live chains are apart from each other, from every captured prefix and
      from the free list. */
  ghost predicate Sound(a: Slab<Kont>, paths: seq<seq<ContId>>, cuts: seq<Option<seq<ContId>>>) {
    && Clean(a)
    && (forall i :: 0 <= i < |paths| ==> IsChain(a.data, paths[i]))
    && (forall n :: 0 <= n < |cuts| && cuts[n].Some? ==> IsCut(a.data, cuts[n].value))
    && ChainsApart(paths) && CutsApart(paths, cuts)
    && (forall x: nat :: Owned(paths, cuts, x) ==> x < |a.data| && x !in a.free)
  }

  /** The frame lists the arena stands for. */
  ghost function View(data: seq<Kont>, paths: seq<seq<ContId>>, current: nat, cuts: seq<Option<seq<ContId>>>): Lists {
    Lists(
      seq(|paths|, i requires 0 <= i < |paths| =>
        FramesAt(data, if paths[i] == [] then [] else paths[i][..|paths[i]| - 1])),
      current,
      seq(|cuts|, n requires 0 <= n < |cuts| =>
        if cuts[n].Some? then Some(FramesAt(data, cuts[n].value)) else None))
  }

  // ---------- Lemmas, one for each kind of change ----------

  lemma FramesAgree(data: seq<Kont>, data': seq<Kont>, ids: seq<ContId>)
    requires forall i :: 0 <= i < |ids| ==> ids[i] < |data| && ids[i] < |data'| && data'[ids[i]] == data[ids[i]]
    ensures FramesAt(data', ids) == FramesAt(data, ids)
  {
  }

  /** Changing or freeing slots nothing depends on changes nothing. */
  lemma Agree(a: Slab<Kont>, b: Slab<Kont>, paths: seq<seq<ContId>>, current: nat, cuts: seq<Option<seq<ContId>>>)
    requires Sound(a, paths, cuts) && Clean(b) && |a.data| <= |b.data|
    requires forall x: nat :: Owned(paths, cuts, x) ==> b.data[x] == a.data[x] && x !in b.free
    ensures Sound(b, paths, cuts) && View(b.data, paths, current, cuts) == View(a.data, paths, current, cuts)
  {
    hide ChainsApart, CutsApart, FramesAt, Clean;
    forall i | 0 <= i < |paths|
      ensures IsChain(b.data, paths[i])
      ensures FramesAt(b.data, paths[i][..|paths[i]| - 1]) == FramesAt(a.data, paths[i][..|paths[i]| - 1])
    {
      forall k | 0 <= k < |paths[i]| ensures b.data[paths[i][k]] == a.data[paths[i][k]] {
        assert paths[i][k] in paths[i];
        assert Owned(paths, cuts, paths[i][k]);
      }
      FramesAgree(a.data, b.data, paths[i][..|paths[i]| - 1]);
    }
    forall n | 0 <= n < |cuts| && cuts[n].Some?
      ensures IsCut(b.data, cuts[n].value)
      ensures FramesAt(b.data, cuts[n].value) == FramesAt(a.data, cuts[n].value)
    {
      forall k | 0 <= k < |cuts[n].value| ensures b.data[cuts[n].value[k]] == a.data[cuts[n].value[k]] {
        assert cuts[n].value[k] in cuts[n].value;
        assert Owned(paths, cuts, cuts[n].value[k]);
      }
      FramesAgree(a.data, b.data, cuts[n].value);
    }
  }

  /** Moving a fiber's register out by `m` frames. */
  lemma Shorten(a: Slab<Kont>, paths: seq<seq<ContId>>, current: nat, cuts: seq<Option<seq<ContId>>>, m: nat)
    requires Sound(a, paths, cuts) && current < |paths| && m < |paths[current]|
    ensures var paths' := paths[current := paths[current][m..]];
      && Sound(a, paths', cuts)
      && (forall x: nat :: Owned(paths', cuts, x) ==> Owned(paths, cuts, x))
      && View(a.data, paths', current, cuts)
         == var l := View(a.data, paths, current, cuts); l.WithTop(l.Top()[m..])
  {
    hide Clean, IsCut, FramesAt;
    var p := paths[current];
    var paths' := paths[current := p[m..]];
    TailIsChain(a.data, p, m);
    forall i, x | 0 <= i < |paths'| && x in paths'[i] ensures x in paths[i] {}
    assert ChainsApart(paths');
    assert CutsApart(paths', cuts);
    forall x: nat | Owned(paths', cuts, x) ensures Owned(paths, cuts, x) {}
  }

  lemma TailIsChain(data: seq<Kont>, p: seq<ContId>, m: nat)
    requires IsChain(data, p) && m < |p|
    ensures IsChain(data, p[m..])
    ensures FramesAt(data, p[m..][..|p[m..]| - 1]) == FramesAt(data, p[..|p| - 1])[m..]
  {
  }

  /** The slots a taken or skipped frame leaves behind belong to no one. */
  lemma ShortenedNotOwned(a: Slab<Kont>, paths: seq<seq<ContId>>, current: nat, cuts: seq<Option<seq<ContId>>>, m: nat)
    requires Sound(a, paths, cuts) && current < |paths| && m < |paths[current]|
    ensures forall k :: 0 <= k < m ==> !Owned(paths[current := paths[current][m..]], cuts, paths[current][k])
  {
    hide Clean, IsCut, CutsApart;
    var p := paths[current];
    var paths' := paths[current := p[m..]];
    assert IsChain(a.data, p);
    forall k | 0 <= k < m ensures !Owned(paths', cuts, p[k]) {
      assert p[k] in paths[current];
      assert p[k] !in p[m..];
      ApartFromOthers(paths, cuts, current, p[k]);
      forall i | 0 <= i < |paths'| ensures p[k] !in paths'[i] {}
    }
  }

  /** A slot of one chain is in no other chain and no captured prefix. */
  lemma ApartFromOthers(paths: seq<seq<ContId>>, cuts: seq<Option<seq<ContId>>>, current: nat, x: ContId)
    requires ChainsApart(paths) && CutsApart(paths, cuts) && current < |paths| && x in paths[current]
    ensures forall i :: 0 <= i < |paths| && i != current ==> x !in paths[i]
    ensures forall n :: 0 <= n < |cuts| && cuts[n].Some? ==> x !in cuts[n].value
  {
  }

  /** Linking a slot no one owns in front of a chain. */
  lemma Extend(a: Slab<Kont>, paths: seq<seq<ContId>>, current: nat, cuts: seq<Option<seq<ContId>>>, id: ContId)
    requires Sound(a, paths, cuts) && current < |paths| && id < |a.data| && id !in a.free && !Owned(paths, cuts, id)
    requires a.data[id].Link? && a.data[id].k == paths[current][0]
    ensures var paths' := paths[current := [id] + paths[current]];
      && Sound(a, paths', cuts)
      && View(a.data, paths', current, cuts)
         == var l := View(a.data, paths, current, cuts); l.WithTop([a.data[id].frame] + l.Top())
  {
    hide Clean, IsCut;
    var p := paths[current];
    var paths' := paths[current := [id] + p];
    assert IsChain(a.data, [id] + p) by {
      forall i | 0 <= i < |p| ensures p[i] != id { assert p[i] in paths[current]; }
    }
    forall i, x | 0 <= i < |paths'| && x in paths'[i] ensures x in paths[i] || (i == current && x == id) {}
    NotInAny(paths, cuts, id);
    assert ChainsApart(paths');
    assert CutsApart(paths', cuts);
    forall x: nat | Owned(paths', cuts, x) ensures Owned(paths, cuts, x) || x == id {}
    assert FramesAt(a.data, ([id] + p)[..|p|]) == [a.data[id].frame] + FramesAt(a.data, p[..|p| - 1]) by {
      assert ([id] + p)[..|p|] == [id] + p[..|p| - 1];
    }
  }

  lemma NotInAny(paths: seq<seq<ContId>>, cuts: seq<Option<seq<ContId>>>, x: ContId)
    requires !Owned(paths, cuts, x)
    ensures forall i :: 0 <= i < |paths| ==> x !in paths[i]
    ensures forall n :: 0 <= n < |cuts| && cuts[n].Some? ==> x !in cuts[n].value
  {
  }

  /** A new fiber's chain is one fresh Halt slot. */
  lemma Begin(a: Slab<Kont>, paths: seq<seq<ContId>>, current: nat, cuts: seq<Option<seq<ContId>>>, id: ContId)
    requires Sound(a, paths, cuts) && id < |a.data| && id !in a.free && !Owned(paths, cuts, id) && a.data[id].Halt?
    ensures Sound(a, paths + [[id]], cuts)
    ensures var l := View(a.data, paths, current, cuts);
      View(a.data, paths + [[id]], current, cuts) == l.(chains := l.chains + [[]])
  {
    hide Clean, IsCut;
    var paths' := paths + [[id]];
    assert IsChain(a.data, [id]);
    forall i, x | 0 <= i < |paths'| && x in paths'[i]
      ensures (i < |paths| && x in paths[i]) || (i == |paths| && x == id)
    {}
    NotInAny(paths, cuts, id);
    assert ChainsApart(paths');
    assert CutsApart(paths', cuts);
    forall x: nat | Owned(paths', cuts, x) ensures Owned(paths, cuts, x) || x == id {}
    assert FramesAt(a.data, [id][..0]) == [];
  }

  /** A capture gives the frames up to the first handler to the continuation
      value, and the fiber keeps only what is beyond the matching one. */
  lemma Cut(a: Slab<Kont>, paths: seq<seq<ContId>>, current: nat, cuts: seq<Option<seq<ContId>>>, cut: nat, m: nat)
    requires Sound(a, paths, cuts) && current < |paths| && cut < m < |paths[current]|
    requires forall i :: 0 <= i <= cut ==> (FrameAt(a.data, paths[current][i]).HandlerK? <==> i == cut)
    ensures var paths' := paths[current := paths[current][m..]];
      var cuts' := cuts + [Some(paths[current][..cut + 1])];
      && Sound(a, paths', cuts')
      && View(a.data, paths', current, cuts')
         == var l := View(a.data, paths, current, cuts);
            l.WithTop(l.Top()[m..]).(captured := l.captured + [Some(l.Top()[..cut + 1])])
  {
    hide Clean, ChainsApart, IsChain;
    var p := paths[current];
    var q := p[..cut + 1];
    var paths' := paths[current := p[m..]];
    Shorten(a, paths, current, cuts, m);
    ShortenedNotOwned(a, paths, current, cuts, m);
    CutIsCut(a.data, p, cut);
    forall k | 0 <= k < |q| ensures !Owned(paths', cuts, q[k]) { assert q[k] == p[k]; }
    forall i, x | 0 <= i < |paths'| && x in paths'[i] ensures x !in q { assert Owned(paths', cuts, x); }
    assert CutsApart(paths', cuts + [Some(q)]);
    forall x: nat | Owned(paths', cuts + [Some(q)], x) ensures Owned(paths, cuts, x) {
      if x in q { assert x in paths[current]; }
    }
  }

  lemma CutIsCut(data: seq<Kont>, p: seq<ContId>, cut: nat)
    requires IsChain(data, p) && cut + 1 < |p|
    requires forall i :: 0 <= i <= cut ==> (FrameAt(data, p[i]).HandlerK? <==> i == cut)
    ensures IsCut(data, p[..cut + 1])
    ensures FramesAt(data, p[..cut + 1]) == FramesAt(data, p[..|p| - 1])[..cut + 1]
  {
  }

  ghost function KeptCuts(cuts: seq<Option<seq<ContId>>>, keep: set<nat>): seq<Option<seq<ContId>>> {
    seq(|cuts|, n requires 0 <= n < |cuts| => if n in keep then cuts[n] else None)
  }

  lemma Forget(a: Slab<Kont>, paths: seq<seq<ContId>>, current: nat, cuts: seq<Option<seq<ContId>>>, keep: set<nat>)
    requires Sound(a, paths, cuts)
    ensures Sound(a, paths, KeptCuts(cuts, keep))
    ensures var l := View(a.data, paths, current, cuts);
      View(a.data, paths, current, KeptCuts(cuts, keep)) == l.(captured := Kept(l.captured, keep))
  {
    hide Clean, IsCut, IsChain, ChainsApart, FramesAt;
    var kept := KeptCuts(cuts, keep);
    forall n | 0 <= n < |kept| && kept[n].Some? ensures cuts[n] == kept[n] {}
    forall i, n, x | 0 <= i < |paths| && 0 <= n < |kept| && kept[n].Some? && x in paths[i] ensures x !in kept[n].value {
      assert cuts[n] == kept[n];
    }
    forall x: nat | Owned(paths, kept, x) ensures Owned(paths, cuts, x) {
      if !(exists i :: 0 <= i < |paths| && x in paths[i]) {
        var n :| 0 <= n < |kept| && kept[n].Some? && x in kept[n].value;
        assert cuts[n] == kept[n];
      }
    }
  }
}
