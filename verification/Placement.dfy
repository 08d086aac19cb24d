/** Where each fiber is. An unfinished fiber is in exactly one place: current,
    the ready queue (once), one waiter list of an unfinished fiber (once), or
    blocked on the host. */
module Placement {
  import opened Values
  import opened Fibers

  type Table = map<FiberId, Fiber>
  type Waiters = map<FiberId, seq<FiberId>>

  ghost predicate Distinct(ids: seq<FiberId>) {
    forall i, j :: 0 <= i < j < |ids| ==> ids[i] != ids[j]
  }

  ghost predicate Waits(w: Waiters, id: FiberId, target: FiberId) {
    target in w && id in w[target]
  }

  ghost predicate Waiting(w: Waiters, id: FiberId) {
    exists target :: Waits(w, id, target)
  }

  ghost predicate Unfinished(f: Fiber) {
    f.status.Ready? || f.status.Running? || f.status.BlockedOnHost?
  }

  /** A control the scheduler may resume: one that can step. A root whose
      effect faulted may be re-entered still suspended, its arguments taken. */
  ghost predicate Poised(id: FiberId, c: Control) {
    Runnable(c) || (id == 0 && c.Suspend? && c.args == [])
  }

  ghost predicate Selectable(f: Fiber) {
    f.status.Ready? && Poised(f.id, f.regs.control)
  }

  ghost predicate CurrentPlaced(t: Table, current: Option<FiberId>, ready: seq<FiberId>, w: Waiters) {
    current.Some? ==>
      && current.value in t && (t[current.value].status.Ready? || t[current.value].status.Running?)
      && current.value !in ready && !Waiting(w, current.value)
  }

  ghost predicate ReadyPlaced(t: Table, ready: seq<FiberId>) {
    && Distinct(ready)
    && forall id :: id in ready ==> id in t && Selectable(t[id])
  }

  ghost predicate WaitersPlaced(t: Table, ready: seq<FiberId>, w: Waiters) {
    && (forall target :: target in w ==> target in t && Unfinished(t[target]) && Distinct(w[target]))
    && (forall target, id :: Waits(w, id, target) ==> id in t && t[id].status.Ready? && id !in ready)
    && (forall a, b, id :: Waits(w, id, a) && Waits(w, id, b) ==> a == b)
  }

  /** No fiber is lost: a ready one is current, queued or waiting. */
  ghost predicate NoneLost(t: Table, current: Option<FiberId>, ready: seq<FiberId>, w: Waiters) {
    forall id :: id in t ==>
      && t[id].id == id
      && (t[id].status.Ready? ==> current == Some(id) || id in ready || Waiting(w, id))
      && (t[id].status.Running? ==> current == Some(id))
  }

  ghost predicate Placed(t: Table, current: Option<FiberId>, ready: seq<FiberId>, w: Waiters) {
    && CurrentPlaced(t, current, ready, w)
    && ReadyPlaced(t, ready)
    && WaitersPlaced(t, ready, w)
    && NoneLost(t, current, ready, w)
  }

  lemma SelectPlaced(t: Table, ready: seq<FiberId>, w: Waiters)
    requires Placed(t, None, ready, w) && ready != []
    ensures Placed(t[ready[0] := t[ready[0]].(status := Running)], Some(ready[0]), ready[1..], w)
  {
    assert ready == [ready[0]] + ready[1..];
  }

  /** The current fiber, saved as ready, goes to the back or the front. */
  lemma RequeuePlaced(t: Table, c: FiberId, ready: seq<FiberId>, w: Waiters, f: Fiber)
    requires Placed(t, Some(c), ready, w) && f.id == c && Selectable(f)
    ensures Placed(t[c := f], None, ready + [c], w) && Placed(t[c := f], None, [c] + ready, w)
  {
  }

  /** The current fiber's own record may change while it stays current. */
  lemma TouchPlaced(t: Table, c: FiberId, ready: seq<FiberId>, w: Waiters, f: Fiber)
    requires Placed(t, Some(c), ready, w) && f.id == c && (f.status.Ready? || f.status.Running?)
    ensures Placed(t[c := f], Some(c), ready, w)
  {
  }

  lemma HostBlockPlaced(t: Table, c: FiberId, ready: seq<FiberId>, w: Waiters, f: Fiber)
    requires Placed(t, Some(c), ready, w) && f.id == c && f.status.BlockedOnHost?
    ensures Placed(t[c := f], None, ready, w)
  {
  }

  lemma AddWaiterMembers(w: Waiters, target: FiberId, c: FiberId)
    ensures forall a, id :: Waits(AddWaiter(w, target, c), id, a) <==> Waits(w, id, a) || (a == target && id == c)
    ensures forall id :: Waiting(AddWaiter(w, target, c), id) <==> Waiting(w, id) || id == c
  {
    var w' := AddWaiter(w, target, c);
    forall a, id ensures Waits(w', id, a) <==> Waits(w, id, a) || (a == target && id == c) {
    }
    forall id ensures Waiting(w', id) <==> Waiting(w, id) || id == c {
      if Waiting(w, id) {
        var a :| Waits(w, id, a);
        assert Waits(w', id, a);
      }
      assert Waits(w', c, target);
    }
  }

  lemma JoinWaitersPlaced(t: Table, c: FiberId, ready: seq<FiberId>, w: Waiters, target: FiberId, f: Fiber)
    requires Placed(t, Some(c), ready, w) && f.id == c && f.status.Ready?
    requires target in t && Unfinished(t[target])
    ensures WaitersPlaced(t[c := f], ready, AddWaiter(w, target, c))
  {
    var w' := AddWaiter(w, target, c);
    AddWaiterMembers(w, target, c);
    forall a | a in w' ensures a in t[c := f] && Unfinished(t[c := f][a]) && Distinct(w'[a]) {
      if a == target && target in w {
        assert Waits(w, c, target) ==> Waiting(w, c);
      }
    }
    forall a, id | Waits(w', id, a) ensures id in t[c := f] && t[c := f][id].status.Ready? && id !in ready {
      if id != c { assert Waits(w, id, a); }
    }
    forall a, b, id | Waits(w', id, a) && Waits(w', id, b) ensures a == b {
      assert id == c ==> !Waits(w, id, a) && !Waits(w, id, b);
    }
  }

  lemma JoinBlockPlaced(t: Table, c: FiberId, ready: seq<FiberId>, w: Waiters, target: FiberId, f: Fiber)
    requires Placed(t, Some(c), ready, w) && f.id == c && f.status.Ready?
    requires target in t && Unfinished(t[target])
    ensures Placed(t[c := f], None, ready, AddWaiter(w, target, c))
  {
    AddWaiterMembers(w, target, c);
    JoinWaitersPlaced(t, c, ready, w, target, f);
    assert NoneLost(t[c := f], None, ready, AddWaiter(w, target, c));
  }

  lemma SpawnPlaced(t: Table, current: Option<FiberId>, ready: seq<FiberId>, w: Waiters, f: Fiber)
    requires Placed(t, current, ready, w) && f.id !in t && Selectable(f)
    ensures Placed(t[f.id := f], current, ready + [f.id], w)
  {
  }

  lemma AnswerPlaced(t: Table, current: Option<FiberId>, ready: seq<FiberId>, w: Waiters, f: Fiber)
    requires Placed(t, current, ready, w) && f.id in t && t[f.id].status.BlockedOnHost? && Selectable(f)
    ensures Placed(t[f.id := f], current, ready + [f.id], w)
  {
  }

  /** The current fiber ends with nobody waiting for it. */
  lemma EndPlaced(t: Table, c: FiberId, ready: seq<FiberId>, w: Waiters, f: Fiber)
    requires Placed(t, Some(c), ready, w) && c !in w && f.id == c && !Unfinished(f)
    ensures Placed(t[c := f], None, ready, w)
  {
  }

  /** A finished fiber is consumed. */
  lemma ConsumePlaced(t: Table, current: Option<FiberId>, ready: seq<FiberId>, w: Waiters, id: FiberId)
    requires Placed(t, current, ready, w) && id in t && !Unfinished(t[id])
    ensures Placed(t - {id}, current, ready, w)
  {
  }

  /** Removing `c`'s own list frees exactly its joiners. */
  lemma DropWaiters(w: Waiters, c: FiberId)
    requires c in w
    requires forall a, b, id :: Waits(w, id, a) && Waits(w, id, b) ==> a == b
    ensures forall id, a :: Waits(w - {c}, id, a) <==> Waits(w, id, a) && a != c
    ensures forall id :: Waiting(w - {c}, id) <==> Waiting(w, id) && id !in w[c]
  {
    var w' := w - {c};
    forall id ensures Waiting(w', id) <==> Waiting(w, id) && id !in w[c] {
      if Waiting(w, id) && id !in w[c] {
        var a :| Waits(w, id, a);
        assert Waits(w', id, a);
      }
      if Waiting(w', id) {
        var a :| Waits(w', id, a);
        assert Waits(w, id, a) && (id in w[c] ==> Waits(w, id, c));
      }
    }
  }

  lemma DeliverQueuePlaced(t: Table, c: FiberId, ready: seq<FiberId>, w: Waiters, t': Table)
    requires Placed(t, Some(c), ready, w) && c in w && t'.Keys == t.Keys
    requires forall id :: id in t && id != c ==>
      if id in w[c] then t'[id].id == id && Selectable(t'[id]) else t'[id] == t[id]
    ensures ReadyPlaced(t' - {c}, ready + w[c])
  {
    assert c !in w[c] by { assert Waits(w, c, c) ==> Waiting(w, c); }
    forall id | id in ready ensures id in t' - {c} && Selectable((t' - {c})[id]) {
      assert id in w[c] ==> Waits(w, id, c);
    }
    forall id | id in w[c] ensures id in t' - {c} && Selectable((t' - {c})[id]) && id !in ready {
      assert Waits(w, id, c);
    }
    var q := ready + w[c];
    forall i, j | 0 <= i < j < |q| ensures q[i] != q[j] {
      if i < |ready| <= j { assert q[j] in w[c]; }
    }
  }

  /** The current fiber ends, its joiners wake in order, and it is consumed. */
  lemma DeliverPlaced(t: Table, c: FiberId, ready: seq<FiberId>, w: Waiters, t': Table)
    requires Placed(t, Some(c), ready, w) && c in w && t'.Keys == t.Keys
    requires forall id :: id in t && id != c ==>
      if id in w[c] then t'[id].id == id && Selectable(t'[id]) else t'[id] == t[id]
    ensures Placed(t' - {c}, None, ready + w[c], w - {c})
  {
    var w', r' := w - {c}, ready + w[c];
    DropWaiters(w, c);
    DeliverQueuePlaced(t, c, ready, w, t');
    forall a, id | Waits(w', id, a) ensures id in t' - {c} && (t' - {c})[id].status.Ready? && id !in r' {
      assert Waits(w, id, a) && Waiting(w, id) && Waiting(w', id);
    }
    assert WaitersPlaced(t' - {c}, r', w');
    assert NoneLost(t' - {c}, None, r', w');
  }
}
