/** String-keyed records as association lists. A JavaScript object keeps its
    own keys in insertion order and holds each key once; `ms[k] = v` replaces
    the value of an existing key in its place and appends a new key at the
    end. The lists here model exactly that. */
module Assoc {
  import opened Wrappers

  /** The keys of `ms`, in order. */
  function Keys<V>(ms: seq<(string, V)>): (ks: seq<string>)
    ensures |ks| == |ms|
    ensures forall i :: 0 <= i < |ms| ==> ks[i] == ms[i].0
  {
    seq(|ms|, i requires 0 <= i < |ms| => ms[i].0)
  }

  /** Every key occurs once: the invariant of a JavaScript object's own keys. */
  predicate DistinctKeys<V>(ms: seq<(string, V)>)
  {
    forall i, j :: 0 <= i < j < |ms| ==> ms[i].0 != ms[j].0
  }

  /** The position of the first entry whose key is `k`. */
  function IndexOf<V>(ms: seq<(string, V)>, k: string): (i: nat)
    requires k in Keys(ms)
    ensures i < |ms| && ms[i].0 == k
    ensures forall j :: 0 <= j < i ==> ms[j].0 != k
    decreases |ms|
  {
    if ms[0].0 == k then 0
    else
      KeyInTail(ms, k);
      var i := IndexOf(ms[1..], k);
      assert ms[1 + i] == ms[1..][i];
      1 + i
  }

  lemma KeyInTail<V>(ms: seq<(string, V)>, k: string)
    requires k in Keys(ms) && ms[0].0 != k
    ensures k in Keys(ms[1..])
  {
    assert Keys(ms) == [ms[0].0] + Keys(ms[1..]);
  }

  /** `ms[k]`, with `None` for a key the record does not hold (`undefined`). */
  function Lookup<V>(ms: seq<(string, V)>, k: string): (r: Option<V>)
    ensures r.Some? <==> k in Keys(ms)
  {
    if k in Keys(ms) then Some(ms[IndexOf(ms, k)].1) else None
  }

  /** In a record with distinct keys, looking up the key of an entry finds that entry. */
  lemma LookupEntry<V>(ms: seq<(string, V)>, i: nat)
    requires DistinctKeys(ms) && i < |ms|
    ensures Lookup(ms, ms[i].0) == Some(ms[i].1)
  {
    assert Keys(ms)[i] == ms[i].0;
  }

  /** In a record with distinct keys, the key of an entry is not among the keys before it. */
  lemma KeyNotBefore<V>(ms: seq<(string, V)>, j: nat)
    requires DistinctKeys(ms) && j < |ms|
    ensures ms[j].0 !in Keys(ms[..j])
  {
    var ks := Keys(ms[..j]);
    forall m | 0 <= m < j ensures ks[m] != ms[j].0 {
      assert ks[m] == ms[m].0;
    }
  }

  /** Looking up in a concatenation: the front wins. */
  lemma LookupAppend<V>(xs: seq<(string, V)>, ys: seq<(string, V)>, k: string)
    ensures Lookup(xs + ys, k) == if Lookup(xs, k).Some? then Lookup(xs, k) else Lookup(ys, k)
  {
    var zs := xs + ys;
    assert Keys(zs) == Keys(xs) + Keys(ys);
    if k in Keys(xs) {
      var i := IndexOf(xs, k);
      assert zs[i] == xs[i];
      assert IndexOf(zs, k) == i;
    } else if k in Keys(ys) {
      var i := IndexOf(ys, k);
      assert zs[|xs| + i] == ys[i];
      assert IndexOf(zs, k) == |xs| + i;
    }
  }

  /** Looking up in a record's first i entries, where each key occurs once. */
  lemma LookupSnoc<V>(ms: seq<(string, V)>, i: nat, k: string)
    requires DistinctKeys(ms) && 0 < i <= |ms|
    ensures Lookup(ms[..i], k) == if k == ms[i - 1].0 then Some(ms[i - 1].1) else Lookup(ms[..i - 1], k)
    ensures k == ms[i - 1].0 ==> Lookup(ms[..i - 1], k) == None
  {
    assert ms[..i] == ms[..i - 1] + [ms[i - 1]];
    LookupAppend(ms[..i - 1], [ms[i - 1]], k);
    if k == ms[i - 1].0 {
      KeyNotBefore(ms, i - 1);
      LookupEntry([ms[i - 1]], 0);
    } else {
      assert k !in Keys([ms[i - 1]]);
    }
  }

  /** `ms[k] = v`: an existing key keeps its place and takes the new value, a new
      key is appended. */
  function Put<V>(ms: seq<(string, V)>, k: string, v: V): (r: seq<(string, V)>)
    ensures Keys(r) == if k in Keys(ms) then Keys(ms) else Keys(ms) + [k]
    ensures Lookup(r, k) == Some(v)
    ensures forall k' :: k' != k ==> Lookup(r, k') == Lookup(ms, k')
    ensures k !in Keys(ms) ==> r == ms + [(k, v)]
  {
    if k in Keys(ms) then
      var i := IndexOf(ms, k);
      var r := ms[i := (k, v)];
      assert Keys(r) == Keys(ms);
      assert IndexOf(r, k) == i;
      forall k' | k' != k ensures Lookup(r, k') == Lookup(ms, k') {
        if k' in Keys(ms) {
          var j := IndexOf(ms, k');
          assert r[j] == ms[j];
          assert IndexOf(r, k') == j;
        }
      }
      r
    else
      var r := ms + [(k, v)];
      assert Keys(r) == Keys(ms) + [k];
      forall k' | k' != k ensures Lookup(r, k') == Lookup(ms, k') {
        LookupAppend(ms, [(k, v)], k');
      }
      LookupAppend(ms, [(k, v)], k);
      r
  }

  /** Assignment keeps the keys of a record distinct. */
  lemma PutDistinct<V>(ms: seq<(string, V)>, k: string, v: V)
    requires DistinctKeys(ms)
    ensures DistinctKeys(Put(ms, k, v))
  {
    var r := Put(ms, k, v);
    forall i, j | 0 <= i < j < |r| ensures r[i].0 != r[j].0 {
      assert Keys(r)[i] == r[i].0 && Keys(r)[j] == r[j].0;
      if k in Keys(ms) {
        assert Keys(ms)[i] == ms[i].0 && Keys(ms)[j] == ms[j].0;
      } else if j == |ms| {
        assert Keys(ms)[i] == ms[i].0;
      } else {
        assert Keys(ms)[i] == ms[i].0 && Keys(ms)[j] == ms[j].0;
      }
    }
  }

  /** `Object.assign(acc, xs)` when `xs` holds the entries of an object: each of
      them is put into `acc` in order. */
  function PutAll<V>(acc: seq<(string, V)>, xs: seq<(string, V)>): seq<(string, V)>
    decreases |xs|
  {
    if xs == [] then acc else PutAll(Put(acc, xs[0].0, xs[0].1), xs[1..])
  }

  /** Assignment keeps the keys of a record distinct. */
  lemma {:induction false} PutAllDistinct<V>(acc: seq<(string, V)>, xs: seq<(string, V)>)
    requires DistinctKeys(acc)
    ensures DistinctKeys(PutAll(acc, xs))
    decreases |xs|
  {
    if xs != [] {
      PutDistinct(acc, xs[0].0, xs[0].1);
      PutAllDistinct(Put(acc, xs[0].0, xs[0].1), xs[1..]);
    }
  }

  /** Assigning entries whose keys are new and distinct appends them in order. */
  lemma {:induction false} PutAllFresh<V>(acc: seq<(string, V)>, xs: seq<(string, V)>)
    requires DistinctKeys(xs)
    requires forall i :: 0 <= i < |xs| ==> xs[i].0 !in Keys(acc)
    ensures PutAll(acc, xs) == acc + xs
    decreases |xs|
  {
    if xs != [] {
      var acc' := FreshStep(acc, xs);
      PutAllFresh(acc', xs[1..]);
    }
  }

  /** The step of `PutAllFresh`: the first entry is appended, and the rest are
      still distinct and new. */
  lemma FreshStep<V>(acc: seq<(string, V)>, xs: seq<(string, V)>) returns (acc': seq<(string, V)>)
    requires xs != [] && DistinctKeys(xs)
    requires forall i :: 0 <= i < |xs| ==> xs[i].0 !in Keys(acc)
    ensures acc' + xs[1..] == acc + xs
    ensures PutAll(acc, xs) == PutAll(acc', xs[1..])
    ensures DistinctKeys(xs[1..])
    ensures forall i :: 0 <= i < |xs| - 1 ==> xs[1..][i].0 !in Keys(acc')
  {
    acc' := acc + [xs[0]];
    assert xs[0].0 !in Keys(acc);
    assert acc' + xs[1..] == acc + xs;
    var rest := xs[1..];
    assert Keys(acc') == Keys(acc) + [xs[0].0];
    forall i | 0 <= i < |rest| ensures rest[i].0 !in Keys(acc') {
      assert rest[i] == xs[i + 1];
    }
    forall i, j | 0 <= i < j < |rest| ensures rest[i].0 != rest[j].0 {
      assert rest[i] == xs[i + 1] && rest[j] == xs[j + 1];
    }
  }

  /** `if (!r[k]) r[k] = []; r[k].push(...items)`: append to the list kept under `k`. */
  function AppendTo<V>(groups: seq<(string, seq<V>)>, k: string, items: seq<V>): seq<(string, seq<V>)>
  {
    Put(groups, k, if Lookup(groups, k).Some? then Lookup(groups, k).value + items else items)
  }

  /** Appending the lists of several groups, one group after the other. */
  function AppendAll<V>(groups: seq<(string, seq<V>)>, more: seq<(string, seq<V>)>): seq<(string, seq<V>)>
    decreases |more|
  {
    if more == [] then groups
    else AppendTo(AppendAll(groups, more[..|more| - 1]), more[|more| - 1].0, more[|more| - 1].1)
  }

  /** Appending keeps the keys of a record distinct. */
  lemma {:induction false} AppendAllDistinct<V>(groups: seq<(string, seq<V>)>, more: seq<(string, seq<V>)>)
    requires DistinctKeys(groups)
    ensures DistinctKeys(AppendAll(groups, more))
    decreases |more|
  {
    if more != [] {
      var last := more[|more| - 1];
      var front := AppendAll(groups, more[..|more| - 1]);
      AppendAllDistinct(groups, more[..|more| - 1]);
      PutDistinct(front, last.0, if Lookup(front, last.0).Some? then Lookup(front, last.0).value + last.1 else last.1);
    }
  }

  /** The lists two groupings hold under one key, the first one's before the second one's. */
  function JoinLists<V>(a: Option<seq<V>>, b: Option<seq<V>>): Option<seq<V>>
  {
    match (a, b)
    case (None, _) => b
    case (Some(x), None) => a
    case (Some(x), Some(y)) => Some(x + y)
  }

  /** Appending to one group leaves the others as they were. */
  lemma AppendToLookup<V>(groups: seq<(string, seq<V>)>, k: string, items: seq<V>, k': string)
    ensures Lookup(AppendTo(groups, k, items), k') == if k' == k then JoinLists(Lookup(groups, k), Some(items)) else Lookup(groups, k')
  {
  }

  /** After appending the groups of `more`, each key holds its list in
      `groups` followed by its list in `more`. */
  lemma {:induction false} AppendAllLookup<V>(groups: seq<(string, seq<V>)>, more: seq<(string, seq<V>)>, k: string)
    requires DistinctKeys(more)
    ensures Lookup(AppendAll(groups, more), k) == JoinLists(Lookup(groups, k), Lookup(more, k))
    decreases |more|
  {
    if more != [] {
      var n := |more|;
      var front := more[..n - 1];
      assert DistinctKeys(front) by {
        forall i, j | 0 <= i < j < |front| ensures front[i].0 != front[j].0 {
          assert front[i] == more[i] && front[j] == more[j];
        }
      }
      AppendAllLookup(groups, front, k);
      AppendToLookup(AppendAll(groups, front), more[n - 1].0, more[n - 1].1, k);
      assert more[..n] == more;
      LookupSnoc(more, n, k);
    }
  }
}
