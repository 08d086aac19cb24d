/** Environment frames and the chain walk (src/env.rs): two bindings are kept
    inline before a map is made, and lookup and assignment follow parents. */
module Environments {
  import opened Values
  import opened Boundary
  import opened ArenaObject
  import opened Reachability
  import opened Reuse

  const SMALL_ENV_CAPACITY: nat := 2

  ghost predicate DistinctNames(entries: seq<(Str, JSValue)>) {
    forall i, j :: 0 <= i < j < |entries| ==> entries[i].0 != entries[j].0
  }

  function AsMap(entries: seq<(Str, JSValue)>): map<Str, JSValue> {
    if entries == [] then map[]
    else var last := entries[|entries| - 1]; AsMap(entries[..|entries| - 1])[last.0 := last.1]
  }

  lemma {:induction false} AsMapHas(entries: seq<(Str, JSValue)>)
    requires DistinctNames(entries)
    ensures forall name :: name in AsMap(entries) <==> exists i :: 0 <= i < |entries| && entries[i].0 == name
    ensures forall i :: 0 <= i < |entries| ==> AsMap(entries)[entries[i].0] == entries[i].1
  {
    if entries != [] {
      var front := entries[..|entries| - 1];
      AsMapHas(front);
      forall i | 0 <= i < |front| ensures front[i] == entries[i] {}
      forall name | name in AsMap(entries) ensures exists i :: 0 <= i < |entries| && entries[i].0 == name {
        if name in AsMap(front) {
          var i :| 0 <= i < |front| && front[i].0 == name;
          assert entries[i].0 == name;
        } else {
          assert entries[|entries| - 1].0 == name;
        }
      }
      forall i | 0 <= i < |entries|
        ensures entries[i].0 in AsMap(entries) && AsMap(entries)[entries[i].0] == entries[i].1
      {
        if i < |front| { assert front[i].0 in AsMap(front); }
      }
    }
  }

  lemma {:induction false} ReplaceIsUpdate(entries: seq<(Str, JSValue)>, i: nat, value: JSValue)
    requires DistinctNames(entries) && i < |entries|
    ensures DistinctNames(entries[i := (entries[i].0, value)])
    ensures AsMap(entries[i := (entries[i].0, value)]) == AsMap(entries)[entries[i].0 := value]
  {
    var after, last := entries[i := (entries[i].0, value)], |entries| - 1;
    if i == last {
      assert after[..last] == entries[..last];
    } else {
      assert after[..last] == entries[..last][i := (entries[i].0, value)];
      ReplaceIsUpdate(entries[..last], i, value);
    }
  }

  /** One frame's bindings: inline while small, a map once it overflows. */
  class Bindings {
    var large: bool
    var entries: seq<(Str, JSValue)>
    var table: map<Str, JSValue>

    constructor ()
      ensures Valid() && Abs() == map[]
    {
      large, entries, table := false, [], map[];
    }

    ghost predicate Valid()
      reads this
    {
      !large ==> |entries| <= SMALL_ENV_CAPACITY && DistinctNames(entries)
    }

    ghost function Abs(): map<Str, JSValue>
      reads this
    {
      if large then table else AsMap(entries)
    }

    method Get(name: Str) returns (r: Option<JSValue>)
      requires Valid()
      ensures r == if name in Abs() then Some(Abs()[name]) else None
    {
      if large {
        return if name in table then Some(table[name]) else None;
      }
      AsMapHas(entries);
      for i := 0 to |entries|
        invariant forall j :: 0 <= j < i ==> entries[j].0 != name
      {
        if entries[i].0 == name {
          return Some(entries[i].1);
        }
      }
      return None;
    }

    /** The inline slots fill first; a third name moves them all to a map. */
    method Insert(name: Str, value: JSValue)
      requires Valid()
      modifies this
      ensures Valid() && Abs() == old(Abs())[name := value]
    {
      if large {
        table := table[name := value];
        return;
      }
      for i := 0 to |entries|
        invariant Valid() && !large && entries == old(entries)
        invariant forall j :: 0 <= j < i ==> entries[j].0 != name
      {
        if entries[i].0 == name {
          ReplaceIsUpdate(entries, i, value);
          entries := entries[i := (name, value)];
          return;
        }
      }
      if |entries| < SMALL_ENV_CAPACITY {
        assert (entries + [(name, value)])[..|entries|] == entries;
        entries := entries + [(name, value)];
      } else {
        var grown: map<Str, JSValue> := map[];
        for i := 0 to SMALL_ENV_CAPACITY
          invariant Valid() && !large && entries == old(entries) && |entries| == SMALL_ENV_CAPACITY
          invariant grown == AsMap(entries[..i])
        {
          assert entries[..i + 1][..i] == entries[..i];
          grown := grown[entries[i].0 := entries[i].1];
        }
        assert entries[..SMALL_ENV_CAPACITY] == entries;
        large, table := true, grown[name := value];
      }
    }
  }

  // ---------- Chains ----------

  /** Parents rank strictly below their children. */
  ghost predicate Ranked(envs: seq<Env>, ranks: map<EnvId, nat>) {
    forall e: nat :: e in ranks ==>
      && e < |envs|
      && (envs[e].parent.Some? ==> envs[e].parent.value in ranks && ranks[envs[e].parent.value] < ranks[e])
  }

  /** The environments a program can name are ranked, in every history. */
  lemma LiveAreRanked(h: Heap, live: set<Node>, ranks: map<EnvId, nat>)
    requires LiveSet(h, live, ranks)
    ensures Ranked(h.envs.data, map e | e in ranks && EnvNode(e) in live :: ranks[e])
    ensures forall e: nat :: EnvNode(e) in live ==> e in ranks
  {
    forall e: nat | EnvNode(e) in live && h.envs.data[e].parent.Some?
      ensures EnvNode(h.envs.data[e].parent.value) in live && h.envs.data[e].parent.value in ranks
    {
      ParentLive(h, live, e);
    }
  }

  /** The nearest environment from `e` outwards that binds `name`. */
  ghost function Binder(envs: seq<Env>, e: EnvId, name: Str, ranks: map<EnvId, nat>): (r: Option<EnvId>)
    requires Ranked(envs, ranks) && e in ranks
    ensures r.Some? ==> r.value in ranks && name in envs[r.value].bindings
    decreases ranks[e]
  {
    if name in envs[e].bindings then Some(e)
    else if envs[e].parent.Some? then Binder(envs, envs[e].parent.value, name, ranks)
    else None
  }

  /** What a lookup of `name` from `e` finds. */
  ghost function Meaning(envs: seq<Env>, e: EnvId, name: Str, ranks: map<EnvId, nat>): Option<JSValue>
    requires Ranked(envs, ranks) && e in ranks
  {
    match Binder(envs, e, name, ranks)
    case Some(b) => Some(envs[b].bindings[name])
    case None => None
  }

  class EnvArena {
    const arena: Arena<Env>

    constructor (a: Slab<Env>)
      requires Clean(a)
      ensures arena.Valid() && arena.Abs() == a && fresh(arena)
    {
      arena := new Arena(a);
    }

    method Extend(parent: EnvId) returns (id: EnvId)
      requires arena.Valid()
      modifies arena
      ensures arena.Valid() && (arena.Abs(), id) == Alloc(old(arena.Abs()), Env(map[], Some(parent)))
    {
      id := arena.Allocate(Env(map[], Some(parent)));
    }

    method Lookup(e: EnvId, name: Str, ghost ranks: map<EnvId, nat>) returns (r: Option<JSValue>)
      requires Ranked(arena.data, ranks) && e in ranks
      ensures r == Meaning(arena.data, e, name, ranks)
    {
      var current := Some(e);
      while current.Some?
        invariant current.Some? ==> current.value in ranks
        invariant current.Some? ==> Binder(arena.data, e, name, ranks) == Binder(arena.data, current.value, name, ranks)
        invariant current.None? ==> Binder(arena.data, e, name, ranks) == None
        decreases if current.Some? then 1 + ranks[current.value] else 0
      {
        var env := arena.data[current.value];
        if name in env.bindings {
          return Some(env.bindings[name]);
        }
        current := env.parent;
      }
      return None;
    }

    /** Overwrite the nearest binding; false, and nothing changes, if none. */
    method Assign(e: EnvId, name: Str, value: JSValue, ghost ranks: map<EnvId, nat>) returns (found: bool)
      requires arena.Valid() && Ranked(arena.data, ranks) && e in ranks
      modifies arena`data
      ensures arena.Valid() && found == Binder(old(arena.data), e, name, ranks).Some?
      ensures !found ==> arena.data == old(arena.data)
      ensures found ==> arena.data == Bound(old(arena.data), Binder(old(arena.data), e, name, ranks).value, name, value)
    {
      var current := Some(e);
      while current.Some?
        invariant arena.data == old(arena.data) && (current.Some? ==> current.value in ranks)
        invariant current.Some? ==> Binder(arena.data, e, name, ranks) == Binder(arena.data, current.value, name, ranks)
        invariant current.None? ==> Binder(arena.data, e, name, ranks) == None
        decreases if current.Some? then 1 + ranks[current.value] else 0
      {
        var env := arena.data[current.value];
        if name in env.bindings {
          arena.data := arena.data[current.value := env.(bindings := env.bindings[name := value])];
          return true;
        }
        current := env.parent;
      }
      return false;
    }

    method Define(e: EnvId, name: Str, value: JSValue)
      requires arena.Valid()
      modifies arena`data
      ensures arena.Valid()
      ensures arena.data == if e < |old(arena.data)| then Bound(old(arena.data), e, name, value) else old(arena.data)
    {
      if e < |arena.data| {
        var env := arena.data[e];
        arena.data := arena.data[e := env.(bindings := env.bindings[name := value])];
      }
    }
  }

  ghost function Bound(envs: seq<Env>, b: EnvId, name: Str, value: JSValue): seq<Env>
    requires b < |envs|
  {
    envs[b := envs[b].(bindings := envs[b].bindings[name := value])]
  }

  /** After an assignment that found its binding, exactly the environments that
      share that binding see the new value; every other name and every shadowed
      or unrelated binding means what it did. */
  lemma {:induction false} AssignMeans(
      envs: seq<Env>, ranks: map<EnvId, nat>, b: EnvId, name: Str, value: JSValue, from: EnvId, other: Str)
    requires Ranked(envs, ranks) && b in ranks && name in envs[b].bindings && from in ranks
    ensures Ranked(Bound(envs, b, name, value), ranks)
    ensures Binder(Bound(envs, b, name, value), from, other, ranks) == Binder(envs, from, other, ranks)
    ensures Meaning(Bound(envs, b, name, value), from, other, ranks)
         == if other == name && Binder(envs, from, name, ranks) == Some(b) then Some(value)
            else Meaning(envs, from, other, ranks)
    decreases ranks[from]
  {
    var after := Bound(envs, b, name, value);
    assert forall e: nat :: e < |envs| ==> after[e].parent == envs[e].parent;
    assert Ranked(after, ranks);
    if other !in envs[from].bindings && envs[from].parent.Some? {
      AssignMeans(envs, ranks, b, name, value, envs[from].parent.value, other);
    }
  }

  // ---------- On every environment a program can name ----------

  /** `name` is bound `n` parents up from `e`, and no nearer. */
  ghost predicate Nearest(envs: seq<Env>, e: EnvId, name: Str, n: nat) {
    && BoundAt(envs, e, name, n)
    && forall m: nat :: m < n ==> !BoundAt(envs, e, name, m)
  }

  ghost predicate BoundAt(envs: seq<Env>, e: EnvId, name: Str, n: nat) {
    match Ancestor(envs, e, n)
    case Some(a) => a < |envs| && name in envs[a].bindings
    case None => false
  }

  /** The ranks only show that the walk ends: what it finds is the nearest
      binding, or nothing when no ancestor binds the name. */
  lemma {:induction false} BinderIsNearest(envs: seq<Env>, e: EnvId, name: Str, ranks: map<EnvId, nat>)
    requires Ranked(envs, ranks) && e in ranks
    ensures match Binder(envs, e, name, ranks)
            case Some(b) => exists n: nat :: Nearest(envs, e, name, n) && Ancestor(envs, e, n) == Some(b)
            case None => forall n: nat :: !BoundAt(envs, e, name, n)
    decreases ranks[e]
  {
    if name in envs[e].bindings {
      assert BoundAt(envs, e, name, 0) && Nearest(envs, e, name, 0);
    } else if envs[e].parent.Some? {
      var up := envs[e].parent.value;
      BinderIsNearest(envs, up, name, ranks);
      forall n: nat ensures BoundAt(envs, e, name, n) <==> n > 0 && BoundAt(envs, up, name, n - 1) {}
      if n: nat :| Nearest(envs, up, name, n) && Ancestor(envs, up, n) == Binder(envs, up, name, ranks) {
        assert Nearest(envs, e, name, n + 1);
        assert Ancestor(envs, e, n + 1) == Binder(envs, e, name, ranks);
      }
    }
  }

  /** In every history of the heap, an environment the program can name has a
      chain that ends: looking a name up finds its nearest binding, or none when
      no ancestor binds it. */
  method LookupLive(
      envs: EnvArena, e: EnvId, name: Str, ghost trace: seq<Snap>, ghost changes: seq<Change>)
    returns (r: Option<JSValue>)
    requires History(trace, changes) && trace[0] == Snap(EMPTY_HEAP, {})
    requires envs.arena.data == trace[|trace| - 1].heap.envs.data && EnvNode(e) in trace[|trace| - 1].live
    ensures match r
            case Some(v) => exists n: nat :: Nearest(envs.arena.data, e, name, n)
                                        && v == envs.arena.data[Ancestor(envs.arena.data, e, n).value].bindings[name]
            case None => forall n: nat :: !BoundAt(envs.arena.data, e, name, n)
  {
    hide LiveSet, History;
    ghost var ranks := LiveRanks(trace, changes);
    BinderIsNearest(envs.arena.data, e, name, ranks);
    r := envs.Lookup(e, name, ranks);
  }

  /** Likewise an assignment: it changes the nearest binding, or nothing. */
  method AssignLive(
      envs: EnvArena, e: EnvId, name: Str, value: JSValue, ghost trace: seq<Snap>, ghost changes: seq<Change>)
    returns (found: bool)
    requires History(trace, changes) && trace[0] == Snap(EMPTY_HEAP, {}) && envs.arena.Valid()
    requires envs.arena.data == trace[|trace| - 1].heap.envs.data && EnvNode(e) in trace[|trace| - 1].live
    modifies envs.arena`data
    ensures envs.arena.Valid()
    ensures if found
            then exists n: nat :: Nearest(old(envs.arena.data), e, name, n)
                             && envs.arena.data == Bound(old(envs.arena.data),
                                                         Ancestor(old(envs.arena.data), e, n).value, name, value)
            else envs.arena.data == old(envs.arena.data) && forall n: nat :: !BoundAt(envs.arena.data, e, name, n)
  {
    hide LiveSet, History;
    ghost var ranks := LiveRanks(trace, changes);
    BinderIsNearest(envs.arena.data, e, name, ranks);
    found := envs.Assign(e, name, value, ranks);
  }

  lemma LiveRanks(trace: seq<Snap>, changes: seq<Change>) returns (ranks: map<EnvId, nat>)
    requires History(trace, changes) && trace[0] == Snap(EMPTY_HEAP, {})
    ensures Ranked(trace[|trace| - 1].heap.envs.data, ranks)
    ensures forall e: nat :: EnvNode(e) in trace[|trace| - 1].live ==> e in ranks
  {
    var all := HistoriesKeepLive(trace, changes);
    var last := trace[|trace| - 1];
    LiveAreRanked(last.heap, last.live, all);
    ranks := map e | e in all && EnvNode(e) in last.live :: all[e];
  }
}
