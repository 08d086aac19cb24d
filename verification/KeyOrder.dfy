/** Byte-wise key order and the sort that makes host objects byte-stable. */
module KeyOrder {
  import opened Values

  predicate Less(a: Str, b: Str) {
    |b| > 0 && (|a| == 0 || a[0] < b[0] || (a[0] == b[0] && Less(a[1..], b[1..])))
  }

  lemma {:induction false} LessTotal(a: Str, b: Str)
    ensures Less(a, b) || a == b || Less(b, a)
    ensures !(Less(a, b) && Less(b, a)) && (a == b ==> !Less(a, b))
  {
    if |a| > 0 && |b| > 0 && a[0] == b[0] {
      LessTotal(a[1..], b[1..]);
      assert a == [a[0]] + a[1..] && b == [b[0]] + b[1..];
    }
  }

  lemma {:induction false} LessTransitive(a: Str, b: Str, c: Str)
    requires Less(a, b) && Less(b, c)
    ensures Less(a, c)
  {
    if |a| > 0 && a[0] == b[0] == c[0] {
      LessTransitive(a[1..], b[1..], c[1..]);
    }
  }

  /** Byte by byte: a proper prefix comes first, and otherwise the first difference
      decides. */
  lemma {:induction false} LessIsLexicographic(a: Str, b: Str)
    ensures Less(a, b) <==>
      exists k: nat :: k <= |a| && k < |b| && a[..k] == b[..k] && (k == |a| || a[k] < b[k])
  {
    if |a| > 0 && |b| > 0 && a[0] == b[0] {
      LessIsLexicographic(a[1..], b[1..]);
      if k: nat :| k < |a| && k < |b| - 1 && a[1..][..k] == b[1..][..k] && (k == |a| - 1 || a[1..][k] < b[1..][k]) {
        assert a[..k + 1] == [a[0]] + a[1..][..k] && b[..k + 1] == [b[0]] + b[1..][..k];
      }
      if k: nat :| k <= |a| && k < |b| && a[..k] == b[..k] && (k == |a| || a[k] < b[k]) {
        assert k > 0;
        assert a[1..][..k - 1] == a[..k][1..] && b[1..][..k - 1] == b[..k][1..];
      }
    } else if Less(a, b) {
      assert a[..0] == b[..0];
    } else if k: nat :| k <= |a| && k < |b| && a[..k] == b[..k] && (k == |a| || a[k] < b[k]) {
      if k > 0 { assert a[..k][0] == b[..k][0]; }
    }
  }

  ghost predicate Sorted<T>(pairs: seq<(Str, T)>) {
    forall i, j :: 0 <= i < j < |pairs| ==> Less(pairs[i].0, pairs[j].0)
  }

  ghost function Keys<T>(pairs: seq<(Str, T)>): set<Str> {
    set i | 0 <= i < |pairs| :: pairs[i].0
  }

  lemma SortedTail<T>(a: seq<(Str, T)>, p: (Str, T))
    requires Sorted(a) && a != []
    ensures p in a[1..] <==> p in a && p != a[0]
  {
    assert a == [a[0]] + a[1..];
    if p in a[1..] {
      var i :| 0 < i < |a| && a[i] == p;
      LessTotal(a[0].0, a[i].0);
    }
  }

  /** Sorted pairs are determined by what they map each key to. */
  lemma {:induction false} SortedUnique<T>(a: seq<(Str, T)>, b: seq<(Str, T)>)
    requires Sorted(a) && Sorted(b)
    requires forall p :: p in a <==> p in b
    ensures a == b
  {
    assert b == [] || b[0] in b;
    if a != [] {
      assert a[0] in b;
      assert b != [] && b[0] in a;
      LessTotal(a[0].0, b[0].0);
      assert a[0] == b[0];
      forall p ensures p in a[1..] <==> p in b[1..] {
        SortedTail(a, p);
        SortedTail(b, p);
      }
      SortedUnique(a[1..], b[1..]);
    }
  }

  function Insert<T>(pairs: seq<(Str, T)>, p: (Str, T)): (r: seq<(Str, T)>)
    ensures multiset(r) == multiset(pairs) + multiset{p}
  {
    if pairs == [] then [p]
    else if Less(p.0, pairs[0].0) then
      [p] + pairs
    else
      assert pairs == [pairs[0]] + pairs[1..];
      [pairs[0]] + Insert(pairs[1..], p)
  }

  lemma {:induction false} InsertSorted<T>(pairs: seq<(Str, T)>, p: (Str, T))
    requires Sorted(pairs) && p.0 !in Keys(pairs)
    ensures Sorted(Insert(pairs, p))
  {
    if pairs != [] {
      assert pairs[0].0 in Keys(pairs);
      if Less(p.0, pairs[0].0) {
        forall j | 0 <= j < |pairs| ensures Less(p.0, pairs[j].0) {
          if j > 0 { LessTransitive(p.0, pairs[0].0, pairs[j].0); }
        }
      } else {
        LessTotal(p.0, pairs[0].0);
        var rest := pairs[1..];
        forall i | 0 <= i < |rest| ensures rest[i].0 != p.0 {
          assert pairs[i + 1].0 in Keys(pairs);
        }
        InsertSorted(rest, p);
        var r := Insert(rest, p);
        forall j | 0 <= j < |r| ensures Less(pairs[0].0, r[j].0) {
          assert r[j] in multiset(r);
          if r[j] != p {
            assert r[j] in rest;
          }
        }
      }
    }
  }

  /** The pairs in key order, whatever order they were collected in. */
  function Sort<T>(pairs: seq<(Str, T)>): (r: seq<(Str, T)>)
    ensures multiset(r) == multiset(pairs)
  {
    if pairs == [] then []
    else
      var n := |pairs| - 1;
      assert pairs == pairs[..n] + [pairs[n]];
      Insert(Sort(pairs[..n]), pairs[n])
  }

  ghost predicate DistinctKeys<T>(pairs: seq<(Str, T)>) {
    forall i, j :: 0 <= i < j < |pairs| ==> pairs[i].0 != pairs[j].0
  }

  lemma SortKeepsPairs<T>(pairs: seq<(Str, T)>, p: (Str, T))
    ensures p in Sort(pairs) <==> p in pairs
  {
    assert p in Sort(pairs) <==> p in multiset(Sort(pairs));
  }

  lemma {:induction false} SortSorts<T>(pairs: seq<(Str, T)>)
    requires DistinctKeys(pairs)
    ensures Sorted(Sort(pairs))
  {
    if pairs != [] {
      var n := |pairs| - 1;
      var sorted := Sort(pairs[..n]);
      SortSorts(pairs[..n]);
      forall i | 0 <= i < |sorted| ensures sorted[i].0 != pairs[n].0 {
        SortKeepsPairs(pairs[..n], sorted[i]);
      }
      InsertSorted(sorted, pairs[n]);
    }
  }

  lemma KeysAppend<T>(pairs: seq<(Str, T)>, k: Str, x: T)
    requires k !in Keys(pairs) && DistinctKeys(pairs)
    ensures Keys(pairs + [(k, x)]) == Keys(pairs) + {k} && DistinctKeys(pairs + [(k, x)])
  {
    var out := pairs + [(k, x)];
    forall i | 0 <= i < |pairs| ensures out[i].0 in Keys(pairs) {
      assert out[i] == pairs[i];
    }
    forall q | q in Keys(pairs) ensures q in Keys(out) {
      var i :| 0 <= i < |pairs| && pairs[i].0 == q;
      assert out[i].0 == q;
    }
    assert out[|pairs|].0 == k;
  }

  lemma KeysSurviveSort<T>(pairs: seq<(Str, T)>)
    ensures Keys(Sort(pairs)) == Keys(pairs)
  {
    forall i | 0 <= i < |pairs| ensures pairs[i].0 in Keys(Sort(pairs)) {
      SortKeepsPairs(pairs, pairs[i]);
      var j :| 0 <= j < |Sort(pairs)| && Sort(pairs)[j] == pairs[i];
    }
    forall i | 0 <= i < |Sort(pairs)| ensures Sort(pairs)[i].0 in Keys(pairs) {
      SortKeepsPairs(pairs, Sort(pairs)[i]);
      var j :| 0 <= j < |pairs| && pairs[j] == Sort(pairs)[i];
    }
  }
}
