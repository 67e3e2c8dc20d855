/**
 * The array operations the player and the pages apply to lists of tracks
 * (`findIndex`, `some`, `filter`, `slice`, `splice`, `map(t => t.id).join()`), stated as
 * functions on sequences, with the properties the callers rely on.
 */
module TrackLists {
  import opened Types

  /** `q.findIndex(t => t.id === id)`: the first position holding that id, or -1. */
  function IndexOfId(q: seq<Track>, id: string): (i: int)
    ensures -1 <= i < |q|
    ensures 0 <= i ==> q[i].id == id
  {
    if |q| == 0 then -1
    else if q[0].id == id then 0
    else
      var k := IndexOfId(q[1..], id);
      if k == -1 then -1 else k + 1
  }

  /** `q.some(t => t.id === id)`. */
  predicate HasId(q: seq<Track>, id: string)
  {
    exists j :: 0 <= j < |q| && q[j].id == id
  }

  /** No track before the found position (no track at all, when -1) has the id. */
  lemma {:induction false} IndexOfIdFirst(q: seq<Track>, id: string)
    ensures var i := IndexOfId(q, id);
            forall j :: 0 <= j < |q| && (i == -1 || j < i) ==> q[j].id != id
  {
    if |q| > 0 && q[0].id != id {
      IndexOfIdFirst(q[1..], id);
      var i := IndexOfId(q, id);
      forall j | 0 <= j < |q| && (i == -1 || j < i)
        ensures q[j].id != id
      {
        if j > 0 {
          assert q[j] == q[1..][j - 1];
        }
      }
    }
  }

  /** `findIndex` finds something exactly when `some` holds. */
  lemma IndexOfIdFound(q: seq<Track>, id: string)
    ensures HasId(q, id) <==> IndexOfId(q, id) != -1
  {
    IndexOfIdFirst(q, id);
  }

  /** `q.map(t => t.id)`. */
  function Ids(q: seq<Track>): (r: seq<string>)
  {
    seq(|q|, i requires 0 <= i < |q| => q[i].id)
  }

  /** `xs.join()`: the elements separated by commas (JavaScript's default separator). */
  function Join(xs: seq<string>): string
  {
    if |xs| == 0 then ""
    else if |xs| == 1 then xs[0]
    else xs[0] + "," + Join(xs[1..])
  }

  /** Ids that `Join` cannot confuse: none is empty and none contains a comma. */
  predicate Separable(xs: seq<string>)
  {
    forall i :: 0 <= i < |xs| ==> xs[i] != "" && ',' !in xs[i]
  }

  /** The joined string starts with the first element, followed by a comma when more follow. */
  lemma {:induction false} JoinHead(xs: seq<string>)
    requires |xs| >= 1
    ensures |Join(xs)| >= |xs[0]|
    ensures Join(xs)[..|xs[0]|] == xs[0]
    ensures |xs| >= 2 ==> |Join(xs)| > |xs[0]| && Join(xs)[|xs[0]|] == ','
                          && Join(xs)[|xs[0]| + 1..] == Join(xs[1..])
  {
    if |xs| >= 2 {
      assert Join(xs) == xs[0] + "," + Join(xs[1..]);
    }
  }

  /** With separable ids, equal joined strings mean equal id sequences. */
  lemma {:induction false} JoinInjective(a: seq<string>, b: seq<string>)
    requires Separable(a) && Separable(b)
    requires Join(a) == Join(b)
    ensures a == b
  {
    if |a| == 0 || |b| == 0 {
      if |a| != 0 {
        JoinHead(a);
      } else if |b| != 0 {
        JoinHead(b);
      }
    } else {
      JoinHead(a);
      JoinHead(b);
      assert a[0] == b[0];
      if |a| >= 2 && |b| >= 2 {
        JoinInjective(a[1..], b[1..]);
        assert a == [a[0]] + a[1..];
        assert b == [b[0]] + b[1..];
      }
    }
  }

  /** Without the separability condition the comparison by joined ids confuses different lists. */
  lemma JoinConfuses()
    ensures Join(["a,b"]) == Join(["a", "b"])
    ensures Join([]) == Join([""])
  {
  }

  /** `q.filter(t => t.id !== id)`. */
  function WithoutId(q: seq<Track>, id: string): (r: seq<Track>)
    ensures forall i :: 0 <= i < |r| ==> r[i].id != id
  {
    if |q| == 0 then []
    else if q[0].id != id then [q[0]] + WithoutId(q[1..], id)
    else WithoutId(q[1..], id)
  }

  /** The filter keeps the remaining tracks in their original order. */
  lemma {:induction false} WithoutIdSubsequence(q: seq<Track>, id: string)
    ensures IsSubsequence(WithoutId(q, id), q)
  {
    if |q| > 0 {
      WithoutIdSubsequence(q[1..], id);
      var rest := WithoutId(q[1..], id);
      if q[0].id != id {
        assert WithoutId(q, id)[1..] == rest;
      } else {
        assert |rest| > 0 ==> rest[0] != q[0];
      }
    }
  }

  /** The filter drops every occurrence of a track with that id and keeps every other track as often as it occurs. */
  lemma {:induction false} WithoutIdCount(q: seq<Track>, id: string, x: Track)
    ensures multiset(WithoutId(q, id))[x] == if x.id == id then 0 else multiset(q)[x]
  {
    if |q| > 0 {
      WithoutIdCount(q[1..], id, x);
      assert q == [q[0]] + q[1..];
    }
  }

  /** `a` is `b` with some elements left out, the rest in their original order. */
  predicate IsSubsequence<T(==)>(a: seq<T>, b: seq<T>)
    decreases |b|
  {
    if |a| == 0 then true
    else if |b| == 0 then false
    else if a[0] == b[0] then IsSubsequence(a[1..], b[1..])
    else IsSubsequence(a, b[1..])
  }

  /** Dropping one more element at the end keeps a subsequence a subsequence. */
  lemma {:induction false} SubsequenceExtend<T>(a: seq<T>, b: seq<T>, x: T)
    requires IsSubsequence(a, b)
    ensures IsSubsequence(a, b + [x])
    decreases |b|
  {
    if |a| > 0 {
      assert (b + [x])[1..] == b[1..] + [x];
      if a[0] == b[0] {
        SubsequenceExtend(a[1..], b[1..], x);
      } else {
        SubsequenceExtend(a, b[1..], x);
      }
    }
  }

  /** Keeping one more element at the end of both lists keeps a subsequence a subsequence. */
  lemma {:induction false} SubsequenceSnoc<T>(a: seq<T>, b: seq<T>, x: T)
    requires IsSubsequence(a, b)
    ensures IsSubsequence(a + [x], b + [x])
    decreases |b|
  {
    if |a| == 0 {
      if |b| > 0 && b[0] != x {
        assert (b + [x])[1..] == b[1..] + [x];
        SubsequenceSnoc(a, b[1..], x);
        assert a + [x] == [x];
      }
    } else {
      assert (b + [x])[1..] == b[1..] + [x];
      assert (a + [x])[1..] == a[1..] + [x];
      if a[0] == b[0] {
        SubsequenceSnoc(a[1..], b[1..], x);
      } else {
        SubsequenceSnoc(a, b[1..], x);
      }
    }
  }

  /** `q.splice(i, 0, t)` on a copy: `t` at position `i`, everything else shifted by one. */
  function InsertAt(q: seq<Track>, i: nat, t: Track): (r: seq<Track>)
    requires i <= |q|
    ensures |r| == |q| + 1 && r[i] == t
    ensures forall j :: 0 <= j < i ==> r[j] == q[j]
    ensures forall j :: i <= j < |q| ==> r[j + 1] == q[j]
  {
    q[..i] + [t] + q[i..]
  }

  /** The insertion adds exactly one occurrence of `t` and loses nothing. */
  lemma InsertAtMultiset(q: seq<Track>, i: nat, t: Track)
    requires i <= |q|
    ensures multiset(InsertAt(q, i, t)) == multiset(q) + multiset{t}
  {
    assert q == q[..i] + q[i..];
  }

  /** `s.slice(-n)`: the last `n` elements, or all of them when there are fewer. */
  function LastN<T>(s: seq<T>, n: nat): (r: seq<T>)
    ensures |r| == if |s| < n then |s| else n
    ensures forall j :: 0 <= j < |r| ==> r[j] == s[|s| - |r| + j]
  {
    if |s| <= n then s else s[|s| - n..]
  }

  /** Reordering a list reorders its ids the same way. */
  lemma {:induction false} IdsOfPermutation(a: seq<Track>, b: seq<Track>)
    requires multiset(a) == multiset(b)
    ensures multiset(Ids(a)) == multiset(Ids(b))
    decreases |a|
  {
    if |a| == 0 {
      assert |b| == |multiset(b)| == 0;
    } else {
      var k := IndexIn(b, a[0]);
      var b' := b[..k] + b[k + 1..];
      RemoveFirst(a, b, k);
      IdsOfPermutation(a[1..], b');
      IdsOfRemoveAt(b, k);
      IdsOfTail(a);
    }
  }

  /** A position of `x` in `b`, given that `x` occurs there. */
  lemma IndexIn(b: seq<Track>, x: Track) returns (k: nat)
    requires x in multiset(b)
    ensures k < |b| && b[k] == x
  {
    k :| 0 <= k < |b| && b[k] == x;
  }

  /** Taking the same element out of two permutations of each other leaves permutations. */
  lemma RemoveFirst(a: seq<Track>, b: seq<Track>, k: nat)
    requires multiset(a) == multiset(b) && |a| > 0 && k < |b| && b[k] == a[0]
    ensures multiset(a[1..]) == multiset(b[..k] + b[k + 1..])
  {
    RemoveAt(b, k);
    assert a == [a[0]] + a[1..];
  }

  lemma RemoveAt(b: seq<Track>, k: nat)
    requires k < |b|
    ensures multiset(b[..k] + b[k + 1..]) == multiset(b) - multiset{b[k]}
  {
    assert b == b[..k] + [b[k]] + b[k + 1..];
  }

  lemma IdsOfTail(a: seq<Track>)
    requires |a| > 0
    ensures multiset(Ids(a)) == multiset(Ids(a[1..])) + multiset{a[0].id}
  {
    IdsOfConcat([a[0]], a[1..]);
    assert a == [a[0]] + a[1..];
  }

  lemma IdsOfRemoveAt(b: seq<Track>, k: nat)
    requires k < |b|
    ensures multiset(Ids(b)) == multiset(Ids(b[..k] + b[k + 1..])) + multiset{b[k].id}
  {
    assert b == b[..k] + ([b[k]] + b[k + 1..]);
    IdsOfConcat(b[..k], [b[k]] + b[k + 1..]);
    IdsOfConcat([b[k]], b[k + 1..]);
    IdsOfConcat(b[..k], b[k + 1..]);
  }

  lemma IdsOfConcat(a: seq<Track>, b: seq<Track>)
    ensures Ids(a + b) == Ids(a) + Ids(b)
  {
  }
}
