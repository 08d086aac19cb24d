/** The machine's operations on the continuation arena, each proved to act as
    the operation on immutable frame lists. */
module ContMachine {
  import opened Values
  import opened Boundary
  import opened ArenaObject
  import opened FrameLists
  import opened Continuations

  class Machine {
    const arena: Arena<Kont>
    const clauses: seq<Str>
    var cont: ContId
    var saved: seq<ContId>
    var current: nat
    /** The continuation values handed to the program, in order. */
    var resumes: seq<ContId>
    ghost var paths: seq<seq<ContId>>
    ghost var cuts: seq<Option<seq<ContId>>>

    /** Slot 0 is the halt continuation. */
    constructor (clauses: seq<Str>)
      ensures Valid() && View() == Lists([[]], 0, []) && fresh(arena) && this.clauses == clauses
    {
      this.clauses := clauses;
      arena := new Arena(Slab([Halt], [], 1));
      cont, saved, current, resumes := 0, [0], 0, [];
      paths, cuts := [[0]], [];
      new;
      assert IsChain(arena.data, [0]);
      assert FramesAt(arena.data, [0][..0]) == [];
    }

    ghost predicate Valid()
      reads this, arena
    {
      && arena.Valid() && arena.AllClear() && Sound(arena.Abs(), paths, cuts)
      && current < |paths| == |saved| && |cuts| == |resumes|
      && paths[current] != [] && paths[current][0] == cont
      && (forall i :: 0 <= i < |paths| && i != current ==> paths[i] != [] && paths[i][0] == saved[i])
      && (forall n :: 0 <= n < |cuts| && cuts[n].Some? ==> cuts[n].value != [] && cuts[n].value[0] == resumes[n])
    }

    ghost function View(): (l: Lists)
      reads this, arena
      ensures l.current == current && |l.chains| == |paths| && |l.captured| == |cuts|
      ensures Valid() ==> l.Valid()
    {
      Continuations.View(arena.data, paths, current, cuts)
    }

    /** Allocate a frame in front of the current continuation. */
    method Push(f: Frame)
      requires Valid()
      modifies this`cont, this`paths, arena
      ensures Valid() && View() == Apply(clauses, old(View()), Op.Push(f))
    {
      hide Sound, Continuations.View, Clean;
      ghost var a, p := arena.Abs(), paths;
      SoundIsClean(a, paths, cuts);
      AllocGrows(a, Link(f, cont));
      var id := arena.Allocate(Link(f, cont));
      AllocatedAgrees(a, Link(f, cont), paths, current, cuts);
      Extend(arena.Abs(), paths, current, cuts, id);
      cont, paths := id, paths[current := [id] + paths[current]];
    }

    /** Take the current frame: its slot becomes Halt for good. */
    method Pop() returns (r: Option<Frame>)
      requires Valid()
      modifies this`cont, this`paths, arena`data
      ensures Valid() && View() == Apply(clauses, old(View()), Op.Pop)
      ensures r == if old(View()).Top() == [] then None else Some(old(View()).Top()[0])
    {
      hide Sound, Clean;
      ChainOf(arena.Abs(), paths, current, cuts);
      ghost var a, was, whole := arena.Abs(), cont, paths;
      var kont := arena.Take(cont, Halt);
      match kont.value {
        case Halt =>
          r := None;
          assert arena.data == a.data;
        case Link(f, outer) =>
          r := Some(f);
          Shorten(a, paths, current, cuts, 1);
          ShortenedNotOwned(a, paths, current, cuts, 1);
          cont, paths := outer, paths[current := paths[current][1..]];
          assert was == whole[current][0];
          TakenAgrees(a, arena.Abs(), was, paths, current, cuts);
      }
    }

    /** The walk outwards shared by return, break, continue and perform. */
    method Seek(stop: Stop) returns (found: Option<Frame>, outer: ContId, ghost n: nat)
      requires Valid()
      ensures n == First(clauses, stop, View().Top())
      ensures found == if n < |View().Top()| then Some(View().Top()[n]) else None
      ensures found.Some? ==> n + 1 < |paths[current]| && outer == paths[current][n + 1]
    {
      ghost var p := paths[current];
      ChainOf(arena.Abs(), paths, current, cuts);
      var k: ContId := cont;
      n := 0;
      while true
        invariant n < |p| && k == p[n]
        invariant forall i :: 0 <= i < n ==> !Stops(clauses, stop, View().Top()[i])
        decreases |p| - n
      {
        match arena.data[k] {
          case Halt =>
            FirstIs(clauses, stop, View().Top(), n);
            return None, k, n;
          case Link(f, o) =>
            assert View().Top()[n] == f;
            if Stops(clauses, stop, f) {
              FirstIs(clauses, stop, View().Top(), n);
              return Some(f), o, n;
            }
            k, n := o, n + 1;
        }
      }
    }

    /** handle_return: drop frames through the innermost ReturnK. */
    method Return() returns (r: Option<Frame>)
      requires Valid()
      modifies this`cont, this`paths
      ensures Valid() && View() == Apply(clauses, old(View()), Op.Return)
      ensures var n := First(clauses, AtReturn, old(View()).Top());
        r == if n < |old(View()).Top()| then Some(old(View()).Top()[n]) else None
    {
      r := Unwind(AtReturn);
    }

    /** handle_break: drop frames through the innermost loop. */
    method Break() returns (r: Option<Frame>)
      requires Valid()
      modifies this`cont, this`paths
      ensures Valid() && View() == Apply(clauses, old(View()), Op.Break)
      ensures var n := First(clauses, AtLoop, old(View()).Top());
        r == if n < |old(View()).Top()| then Some(old(View()).Top()[n]) else None
    {
      r := Unwind(AtLoop);
    }

    method Unwind(stop: Stop) returns (r: Option<Frame>)
      requires Valid()
      modifies this`cont, this`paths
      ensures Valid() && View() == old(View()).WithTop(Unwound(clauses, stop, old(View()).Top()))
      ensures var n := First(clauses, stop, old(View()).Top());
        r == if n < |old(View()).Top()| then Some(old(View()).Top()[n]) else None
    {
      hide Sound, Clean, First;
      ghost var n;
      var outer;
      r, outer, n := Seek(stop);
      if r.Some? {
        Shorten(arena.Abs(), paths, current, cuts, n + 1);
        cont, paths := outer, paths[current := paths[current][n + 1..]];
      }
    }

    /** handle_continue: back to the head of the innermost loop. */
    method Continue() returns (r: Option<Frame>)
      requires Valid()
      modifies this`cont, this`paths, arena
      ensures Valid() && View() == Apply(clauses, old(View()), Op.Continue)
      ensures var n := First(clauses, AtLoop, old(View()).Top());
        r == if n < |old(View()).Top()| then Some(old(View()).Top()[n]) else None
    {
      hide Sound, Clean, First, Continuations.View;
      ghost var l := View();
      r := Unwind(AtLoop);
      if r.Some? {
        WithTopTwice(l, View().Top(), Looped(clauses, l.Top()));
        Push(LoopHead(r.value));
      }
    }

    /** do_perform: hand the current continuation to the matching clause, which
        runs outside its handler; None suspends, nothing having changed. */
    method Perform(effect: Str) returns (r: Option<Frame>)
      requires Valid()
      modifies this`cont, this`paths, this`cuts, this`resumes
      ensures Valid() && View() == Apply(clauses, old(View()), Op.Perform(effect))
      ensures var n := First(clauses, AtClause(effect), old(View()).Top());
        r == if n < |old(View()).Top()| then Some(old(View()).Top()[n]) else None
    {
      hide Sound, Clean, First, Continuations.View;
      ghost var m;
      var outer;
      r, outer, m := Seek(AtClause(effect));
      if r.Some? {
        ghost var cut := CaptureAt(arena.Abs(), paths, current, cuts, clauses, effect);
        resumes, cuts := resumes + [cont], cuts + [Some(paths[current][..cut + 1])];
        cont, paths := outer, paths[current := paths[current][m + 1..]];
      }
    }

    /** Collect the frames of a captured continuation out to its handler. */
    method CollectFrames(n: nat) returns (stack: seq<Frame>)
      requires Valid() && n < |cuts| && cuts[n].Some?
      ensures stack == FramesAt(arena.data, cuts[n].value)
    {
      ghost var q := cuts[n].value;
      assert IsCut(arena.data, q);
      stack := [];
      var k := resumes[n];
      while true
        invariant |stack| < |q| && k == q[|stack|]
        invariant stack == FramesAt(arena.data, q[..|stack|])
        decreases |q| - |stack|
      {
        ghost var i := |stack|;
        var f := arena.data[k].frame;
        assert q[..i + 1] == q[..i] + [q[i]];
        stack := stack + [f];
        if f.HandlerK? {
          assert q[..|stack|] == q;
          return;
        }
        k := arena.data[k].k;
      }
    }

    /** rebase_continuation: copy the captured frames in front of the call
        site, from the handler inwards; the originals stay as they were. */
    method Resume(n: nat)
      requires Valid() && n < |cuts| && cuts[n].Some?
      modifies this`cont, this`paths, arena
      ensures Valid() && View() == Apply(clauses, old(View()), Op.Resume(n))
    {
      hide Sound, Clean, Continuations.View;
      ghost var l := View();
      CapturedFrames(arena.data, paths, current, cuts, n);
      var stack := CollectFrames(n);
      var i := |stack|;
      assert stack[i..] + l.Top() == l.Top();
      WithTopTwice(l, l.Top(), l.Top());
      while i > 0
        invariant Valid() && i <= |stack| && cuts == old(cuts)
        invariant View() == l.WithTop(stack[i..] + l.Top())
      {
        i := i - 1;
        WithTopTwice(l, stack[i + 1..] + l.Top(), stack[i..] + l.Top());
        Push(stack[i]);
        assert [stack[i]] + (stack[i + 1..] + l.Top()) == stack[i..] + l.Top();
      }
      assert stack[0..] == stack;
    }

    /** A forked fiber starts on a Halt slot of its own. */
    method Fork()
      requires Valid()
      modifies this`saved, this`paths, arena
      ensures Valid() && View() == Apply(clauses, old(View()), Op.Fork)
    {
      hide Sound, Continuations.View, Clean;
      ghost var a := arena.Abs();
      SoundIsClean(a, paths, cuts);
      AllocGrows(a, Halt);
      var id := arena.Allocate(Halt);
      AllocatedAgrees(a, Halt, paths, current, cuts);
      Begin(arena.Abs(), paths, current, cuts, id);
      saved, paths := saved + [id], paths + [[id]];
    }

    /** Save the running fiber's register and load another's. */
    method Switch(fiber: nat)
      requires Valid() && fiber < |paths|
      modifies this`cont, this`saved, this`current
      ensures Valid() && View() == Apply(clauses, old(View()), Op.Switch(fiber))
    {
      hide Sound;
      saved := saved[current := cont];
      current := fiber;
      cont := saved[fiber];
    }

    /** trace_cont from one root: mark outwards until a marked slot or Halt. */
    method MarkFrom(id: ContId)
      requires arena.Valid() && MarksClosed(arena.data, arena.marks)
      modifies arena`marks
      ensures arena.Valid() && MarksClosed(arena.data, arena.marks)
      ensures forall i :: 0 <= i < |old(arena.marks)| && old(arena.marks)[i] ==> arena.marks[i]
      ensures id < |arena.marks| ==> arena.marks[id]
    {
      var k: ContId := id;
      while k < |arena.marks| && !arena.marks[k]
        invariant arena.Valid()
        invariant forall i :: 0 <= i < |old(arena.marks)| && old(arena.marks)[i] ==> arena.marks[i]
        invariant id < |arena.marks| ==> arena.marks[id] || k == id
        invariant forall i :: 0 <= i < |arena.marks| && arena.marks[i] && arena.data[i].Link? ==>
          arena.data[i].k < |arena.marks| ==> arena.marks[arena.data[i].k] || arena.data[i].k == k
        decreases Unset(arena.marks)
      {
        ghost var before := arena.marks;
        arena.Mark(k);
        assert k in Unset(before) && k !in Unset(arena.marks);
        assert Unset(arena.marks) < Unset(before);
        if arena.data[k].Halt? {
          return;
        }
        k := arena.data[k].k;
      }
    }

    method MarkRoots(keep: set<nat>)
      requires arena.Valid() && arena.AllClear()
      modifies arena`marks
      ensures arena.Valid() && MarksClosed(arena.data, arena.marks)
      ensures cont < |arena.marks| ==> arena.marks[cont]
      ensures forall j :: 0 <= j < |saved| ==> saved[j] < |arena.marks| ==> arena.marks[saved[j]]
      ensures forall j :: 0 <= j < |resumes| && j in keep ==> resumes[j] < |arena.marks| ==> arena.marks[resumes[j]]
    {
      MarkFrom(cont);
      for i := 0 to |saved|
        invariant arena.Valid() && MarksClosed(arena.data, arena.marks)
        invariant cont < |arena.marks| ==> arena.marks[cont]
        invariant forall j :: 0 <= j < i ==> saved[j] < |arena.marks| ==> arena.marks[saved[j]]
      {
        MarkFrom(saved[i]);
      }
      for n := 0 to |resumes|
        invariant arena.Valid() && MarksClosed(arena.data, arena.marks)
        invariant cont < |arena.marks| ==> arena.marks[cont]
        invariant forall j :: 0 <= j < |saved| ==> saved[j] < |arena.marks| ==> arena.marks[saved[j]]
        invariant forall j :: 0 <= j < n && j in keep ==> resumes[j] < |arena.marks| ==> arena.marks[resumes[j]]
      {
        if n in keep {
          MarkFrom(resumes[n]);
        }
      }
    }

    /** A collection that still reaches every fiber and the continuation values
        in `keep` frees no slot they depend on. */
    method Collect(keep: set<nat>)
      requires Valid()
      modifies this`cuts, arena
      ensures Valid() && View() == Apply(clauses, old(View()), Op.Collect(keep))
    {
      hide Sound, Clean, Continuations.View;
      ghost var a := arena.Abs();
      MarkRoots(keep);
      Forget(a, paths, current, cuts, keep);
      cuts := KeptCuts(cuts, keep);
      OwnedAreMarked(a, arena.marks, paths, cuts);
      UnmarkedIsComplement(arena.marks, |arena.marks|);
      arena.Sweep();
      SweptClean(arena.Abs());
      Agree(a, arena.Abs(), paths, current, cuts);
    }

    method Do(op: Op)
      requires Valid() && Legal(View(), op)
      modifies this, arena
      ensures Valid() && View() == Apply(clauses, old(View()), op)
    {
      hide Sound, Continuations.View;
      match op {
        case Push(f) => Push(f);
        case Pop => var _ := Pop();
        case Return => var _ := Return();
        case Break => var _ := Break();
        case Continue => var _ := Continue();
        case Perform(effect) => var _ := Perform(effect);
        case Resume(n) =>
          CapturedFrames(arena.data, paths, current, cuts, n);
          Resume(n);
        case Fork => Fork();
        case Switch(i) => Switch(i);
        case Collect(keep) => Collect(keep);
      }
    }

    /** Every run of the arena is the run of the frame lists. */
    method Run(ops: seq<Op>)
      requires Valid() && LegalRun(clauses, View(), ops)
      modifies this, arena
      ensures Valid() && View() == ApplyAll(clauses, old(View()), ops)
    {
      hide Sound, Continuations.View, Apply;
      for i := 0 to |ops|
        invariant Valid() && LegalRun(clauses, View(), ops[i..])
        invariant ApplyAll(clauses, View(), ops[i..]) == ApplyAll(clauses, old(View()), ops)
      {
        assert ops[i..][1..] == ops[i + 1..];
        Do(ops[i]);
      }
    }
  }

  // ---------- Lemmas about one step ----------

  ghost function Unset(marks: seq<bool>): set<nat> {
    set i: nat | i < |marks| && !marks[i]
  }

  ghost predicate MarksClosed(data: seq<Kont>, marks: seq<bool>) {
    forall i :: 0 <= i < |marks| && marks[i] && i < |data| && data[i].Link? ==> data[i].k < |marks| ==> marks[data[i].k]
  }

  lemma {:induction false} LinkedAreMarked(data: seq<Kont>, marks: seq<bool>, ids: seq<ContId>, i: nat)
    requires Linked(data, ids) && |marks| == |data| && MarksClosed(data, marks)
    requires i < |ids| && marks[ids[0]]
    ensures marks[ids[i]]
  {
    if i > 0 {
      LinkedAreMarked(data, marks, ids, i - 1);
    }
  }

  /** Marks closed outwards from every root cover what the roots depend on. */
  lemma OwnedAreMarked(a: Slab<Kont>, marks: seq<bool>, paths: seq<seq<ContId>>, cuts: seq<Option<seq<ContId>>>)
    requires Sound(a, paths, cuts) && |marks| == |a.data| && MarksClosed(a.data, marks)
    requires forall i :: 0 <= i < |paths| ==> paths[i] != [] && paths[i][0] < |marks| ==> marks[paths[i][0]]
    requires forall n :: 0 <= n < |cuts| && cuts[n].Some? && cuts[n].value != [] && cuts[n].value[0] < |marks| ==>
      marks[cuts[n].value[0]]
    ensures forall x: nat :: Owned(paths, cuts, x) ==> x < |marks| && marks[x]
  {
    forall x: nat | Owned(paths, cuts, x) ensures x < |marks| && marks[x] {
      if i :| 0 <= i < |paths| && x in paths[i] {
        var j :| 0 <= j < |paths[i]| && paths[i][j] == x;
        LinkedAreMarked(a.data, marks, paths[i], j);
      } else {
        var n :| 0 <= n < |cuts| && cuts[n].Some? && x in cuts[n].value;
        var j :| 0 <= j < |cuts[n].value| && cuts[n].value[j] == x;
        LinkedAreMarked(a.data, marks, cuts[n].value, j);
      }
    }
  }

  lemma SweptClean(a: Slab<Kont>)
    requires forall x: nat :: x in a.free ==> x < |a.data|
    requires forall i, j :: 0 <= i < j < |a.free| ==> a.free[i] < a.free[j]
    ensures Clean(a)
  {
    forall i | 0 <= i < |a.free| ensures a.free[i] < |a.data| { assert a.free[i] in a.free; }
  }

  lemma SoundIsClean(a: Slab<Kont>, paths: seq<seq<ContId>>, cuts: seq<Option<seq<ContId>>>)
    requires Sound(a, paths, cuts)
    ensures Clean(a)
  {
  }

  lemma ChainOf(a: Slab<Kont>, paths: seq<seq<ContId>>, i: nat, cuts: seq<Option<seq<ContId>>>)
    requires Sound(a, paths, cuts) && i < |paths|
    ensures IsChain(a.data, paths[i]) && Clean(a)
  {
  }

  lemma FirstIs(clauses: seq<Str>, stop: Stop, fs: seq<Frame>, n: nat)
    requires n <= |fs| && (n < |fs| ==> Stops(clauses, stop, fs[n]))
    requires forall i :: 0 <= i < n ==> !Stops(clauses, stop, fs[i])
    ensures n == First(clauses, stop, fs)
  {
  }

  /** The slot an allocation hands out belonged to no one. */
  lemma AllocatedAgrees(
      a: Slab<Kont>, k: Kont, paths: seq<seq<ContId>>, current: nat, cuts: seq<Option<seq<ContId>>>)
    requires Sound(a, paths, cuts)
    ensures var (b, id) := Alloc(a, k);
      && Sound(b, paths, cuts)
      && id < |b.data| && b.data[id] == k && id !in b.free && !Owned(paths, cuts, id)
      && Continuations.View(b.data, paths, current, cuts) == Continuations.View(a.data, paths, current, cuts)
  {
    hide IsChain, IsCut, ChainsApart, CutsApart, Continuations.View, Owned;
    AllocGrows(a, k);
    var (b, id) := Alloc(a, k);
    assert id in FreeSet(a) ==> id in a.free;
    assert forall x: nat :: x in b.free ==> x in FreeSet(b);
    assert forall x: nat :: x in a.free ==> x in FreeSet(a);
    Agree(a, b, paths, current, cuts);
  }

  lemma CapturedFrames(data: seq<Kont>, paths: seq<seq<ContId>>, current: nat, cuts: seq<Option<seq<ContId>>>, n: nat)
    requires n < |cuts|
    ensures var l := Continuations.View(data, paths, current, cuts);
      n < |l.captured| && l.captured[n] == if cuts[n].Some? then Some(FramesAt(data, cuts[n].value)) else None
  {
  }

  /** Where a matching perform cuts, and what the lists become. */
  lemma CaptureAt(
      a: Slab<Kont>, paths: seq<seq<ContId>>, current: nat, cuts: seq<Option<seq<ContId>>>, clauses: seq<Str>,
      effect: Str)
    returns (cut: nat)
    requires Sound(a, paths, cuts) && current < |paths|
    requires var top := Continuations.View(a.data, paths, current, cuts).Top();
      First(clauses, AtClause(effect), top) < |top|
    ensures var l := Continuations.View(a.data, paths, current, cuts);
      var m := First(clauses, AtClause(effect), l.Top());
      && cut <= m && m + 1 < |paths[current]|
      && Sound(a, paths[current := paths[current][m + 1..]], cuts + [Some(paths[current][..cut + 1])])
      && Continuations.View(a.data, paths[current := paths[current][m + 1..]], current,
                            cuts + [Some(paths[current][..cut + 1])])
         == Apply(clauses, l, Op.Perform(effect))
  {
    hide Sound, First, FramesAt, FrameAt, Continuations.View, IsChain, Handles;
    TopIs(a, paths, current, cuts);
    var l := Continuations.View(a.data, paths, current, cuts);
    cut := First(clauses, AtHandler, l.Top());
    ClauseIsHandler(clauses, effect, l.Top());
    assert forall i :: 0 <= i < cut ==> !Stops(clauses, AtHandler, l.Top()[i]);
    Cut(a, paths, current, cuts, cut, First(clauses, AtClause(effect), l.Top()) + 1);
  }

  lemma TopIs(a: Slab<Kont>, paths: seq<seq<ContId>>, current: nat, cuts: seq<Option<seq<ContId>>>)
    requires Sound(a, paths, cuts) && current < |paths|
    ensures var l := Continuations.View(a.data, paths, current, cuts);
      && l.Valid() && l.current == current && |paths[current]| == |l.Top()| + 1
      && forall i :: 0 <= i < |l.Top()| ==> FrameAt(a.data, paths[current][i]) == l.Top()[i]
  {
    ChainOf(a, paths, current, cuts);
  }

  lemma TakenAgrees(
      a: Slab<Kont>, b: Slab<Kont>, id: ContId, paths: seq<seq<ContId>>, current: nat, cuts: seq<Option<seq<ContId>>>)
    requires Sound(a, paths, cuts) && id < |a.data| && !Owned(paths, cuts, id)
    requires b == a.(data := a.data[id := Halt])
    ensures Sound(b, paths, cuts)
    ensures Continuations.View(b.data, paths, current, cuts) == Continuations.View(a.data, paths, current, cuts)
  {
    hide IsChain, IsCut, ChainsApart, CutsApart, Continuations.View, Owned;
    Agree(a, b, paths, current, cuts);
  }
}
