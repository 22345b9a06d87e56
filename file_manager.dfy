/** The additive deep merge and the duplicate walk of
    packages/core/src/file-manager.ts, over documents that have already been
    read (reading and writing token files is I/O and is not part of this model). */
module FileManager {
  import opened Wrappers
  import opened Strings
  import opened Assoc
  import opened Json

  // ---------------------------------------------------------------------
  // deepMerge
  // ---------------------------------------------------------------------

  /** `deepMerge(target, source)`: start from `{ ...target }` and visit the keys
      of `source` in order. Where both sides hold a non-array object the merge
      recurses; where the key is already present anything else is left alone;
      a new key takes the source value. */
  function Merge(target: Json, source: Json): Json
    requires source.JObj?
    decreases source, 1, 0
  {
    JObj(MergeUpTo(Spread(target), source, |source.members|))
  }

  /** The record after the first `i` keys of `source` have been visited. */
  function MergeUpTo(acc: seq<Member>, source: Json, i: nat): seq<Member>
    requires source.JObj? && i <= |source.members|
    decreases source, 0, i
  {
    if i == 0 then acc
    else
      assert source.members[i - 1] in source.members;
      MergeStep(MergeUpTo(acc, source, i - 1), source.members[i - 1].0, source.members[i - 1].1)
  }

  /** One turn of the loop, for `key` and its source value. */
  function MergeStep(result: seq<Member>, key: string, sourceVal: Json): seq<Member>
    decreases sourceVal, 2
  {
    match Lookup(result, key)
    case Some(targetVal) =>
      if targetVal.JObj? && sourceVal.JObj? then Put(result, key, Merge(targetVal, sourceVal)) else result
    case None => Put(result, key, sourceVal)
  }

  lemma MergeStepLookup(result: seq<Member>, key: string, sourceVal: Json, k: string)
    ensures Lookup(MergeStep(result, key, sourceVal), k)
         == if k == key then Combine(Lookup(result, k), Some(sourceVal)) else Lookup(result, k)
  {
  }

  lemma MergeStepKeys(result: seq<Member>, key: string, sourceVal: Json)
    ensures Keys(MergeStep(result, key, sourceVal)) == if key in Keys(result) then Keys(result) else Keys(result) + [key]
    ensures DistinctKeys(result) ==> DistinctKeys(MergeStep(result, key, sourceVal))
  {
    if DistinctKeys(result) {
      match Lookup(result, key)
      case Some(targetVal) =>
        if targetVal.JObj? && sourceVal.JObj? {
          PutDistinct(result, key, Merge(targetVal, sourceVal));
        }
      case None =>
        PutDistinct(result, key, sourceVal);
    }
  }

  /** The value the merge leaves under one key, from the target's and the
      source's values under it. */
  function Combine(targetVal: Option<Json>, sourceVal: Option<Json>): Option<Json>
  {
    match (targetVal, sourceVal)
    case (Some(t), Some(s)) => if t.JObj? && s.JObj? then Some(Merge(t, s)) else Some(t)
    case (Some(t), None) => Some(t)
    case (None, s) => s
  }

  /** The recursive merge with its loop over the source keys. */
  method DeepMerge(target: Json, source: Json) returns (r: Json)
    requires source.JObj?
    ensures r == Merge(target, source)
    decreases source
  {
    var result := Spread(target);
    for i := 0 to |source.members|
      invariant result == MergeUpTo(Spread(target), source, i)
    {
      var key := source.members[i].0;
      var sourceVal := source.members[i].1;
      assert source.members[i] in source.members;
      var targetVal := Lookup(result, key);
      if targetVal.Some? && targetVal.value.JObj? && sourceVal.JObj? {
        var merged := DeepMerge(targetVal.value, sourceVal);
        result := Put(result, key, merged);
      } else if key !in Keys(result) {
        result := Put(result, key, sourceVal);
      }
    }
    r := JObj(result);
  }

  lemma {:induction false} MergeUpToLookup(acc: seq<Member>, source: Json, i: nat, k: string)
    requires source.JObj? && i <= |source.members| && DistinctKeys(source.members)
    ensures Lookup(MergeUpTo(acc, source, i), k) == Combine(Lookup(acc, k), Lookup(source.members[..i], k))
    decreases i
  {
    if i > 0 {
      MergeUpToLookup(acc, source, i - 1, k);
      var ms := source.members;
      MergeStepLookup(MergeUpTo(acc, source, i - 1), ms[i - 1].0, ms[i - 1].1, k);
      LookupSnoc(ms, i, k);
    }
  }

  /** Under every key the merge holds what `Combine` says: the target's value
      where the target has one and the two sides are not both objects, the
      source's value where only the source has one, and the merge of the two
      where both are objects. */
  lemma MergeLookup(target: Json, source: Json, k: string)
    requires source.JObj? && DistinctKeys(source.members)
    ensures Lookup(Merge(target, source).members, k) == Combine(Lookup(Spread(target), k), Lookup(source.members, k))
  {
    assert source.members[..|source.members|] == source.members;
    MergeUpToLookup(Spread(target), source, |source.members|, k);
  }

  /** A key the target holds with a value that is not an object, or whose
      source value is not an object, keeps the target's value: the merge never
      overwrites. */
  lemma MergeKeepsExisting(target: Json, source: Json, k: string)
    requires source.JObj? && DistinctKeys(source.members)
    requires Lookup(Spread(target), k).Some?
    requires !Lookup(Spread(target), k).value.JObj? || !(Lookup(source.members, k).Some? && Lookup(source.members, k).value.JObj?)
    ensures Lookup(Merge(target, source).members, k) == Lookup(Spread(target), k)
  {
    MergeLookup(target, source, k);
  }

  /** A key only the source holds is copied with its value as it is. */
  lemma MergeCopiesNew(target: Json, source: Json, k: string)
    requires source.JObj? && DistinctKeys(source.members)
    requires Lookup(Spread(target), k).None?
    ensures Lookup(Merge(target, source).members, k) == Lookup(source.members, k)
  {
    MergeLookup(target, source, k);
  }

  /** The merge keeps the keys of the record it starts from, in their order,
      at its front. */
  lemma {:induction false} MergeUpToFront(acc: seq<Member>, source: Json, i: nat)
    requires source.JObj? && i <= |source.members|
    ensures |acc| <= |MergeUpTo(acc, source, i)| && Keys(MergeUpTo(acc, source, i))[..|acc|] == Keys(acc)
    decreases i
  {
    if i > 0 {
      var ms := source.members;
      MergeUpToFront(acc, source, i - 1);
      MergeStepFront(acc, MergeUpTo(acc, source, i - 1), ms[i - 1].0, ms[i - 1].1);
    }
  }

  /** One turn keeps the front of the keys. */
  lemma MergeStepFront(acc: seq<Member>, result: seq<Member>, key: string, sourceVal: Json)
    requires |acc| <= |result| && Keys(result)[..|acc|] == Keys(acc)
    ensures var next := MergeStep(result, key, sourceVal);
      |acc| <= |next| && Keys(next)[..|acc|] == Keys(acc)
  {
    MergeStepKeys(result, key, sourceVal);
    KeysGrow(acc, result, MergeStep(result, key, sourceVal), key);
  }

  /** The keys of the merge so far are those of the record it starts from and
      those of the source members merged. */
  lemma {:induction false} MergeUpToKeys(acc: seq<Member>, source: Json, i: nat)
    requires source.JObj? && i <= |source.members|
    ensures forall k :: k in Keys(MergeUpTo(acc, source, i)) <==> k in Keys(acc) || k in Keys(source.members[..i])
    decreases i
  {
    if i > 0 {
      var ms := source.members;
      MergeUpToKeys(acc, source, i - 1);
      KeysSnoc(ms, i);
      MergeStepKeySet(MergeUpTo(acc, source, i - 1), ms[i - 1].0, ms[i - 1].1);
    }
  }

  /** One turn adds its key to the key set and no other. */
  lemma MergeStepKeySet(result: seq<Member>, key: string, sourceVal: Json)
    ensures forall k :: k in Keys(MergeStep(result, key, sourceVal)) <==> k in Keys(result) || k == key
  {
    MergeStepKeys(result, key, sourceVal);
  }

  /** The keys of a record's first i entries: those of the first i - 1 and the i-th. */
  lemma KeysSnoc(ms: seq<Member>, i: nat)
    requires 0 < i <= |ms|
    ensures forall k :: k in Keys(ms[..i]) <==> k in Keys(ms[..i - 1]) || k == ms[i - 1].0
  {
    assert Keys(ms[..i]) == Keys(ms[..i - 1]) + [ms[i - 1].0];
  }

  /** The merge keeps the keys of a record distinct. */
  lemma {:induction false} MergeUpToDistinct(acc: seq<Member>, source: Json, i: nat)
    requires source.JObj? && i <= |source.members| && DistinctKeys(acc)
    ensures DistinctKeys(MergeUpTo(acc, source, i))
    decreases i
  {
    if i > 0 {
      var ms := source.members;
      MergeUpToDistinct(acc, source, i - 1);
      MergeStepKeys(MergeUpTo(acc, source, i - 1), ms[i - 1].0, ms[i - 1].1);
    }
  }

  /** The key bookkeeping of one turn: a record that gains at most one key, at
      its end, keeps its front and its distinct keys. */
  lemma KeysGrow(acc: seq<Member>, prev: seq<Member>, next: seq<Member>, key: string)
    requires |acc| <= |prev| && Keys(prev)[..|acc|] == Keys(acc)
    requires Keys(next) == if key in Keys(prev) then Keys(prev) else Keys(prev) + [key]
    ensures |acc| <= |next| && Keys(next)[..|acc|] == Keys(acc)
    ensures forall k :: k in Keys(next) <==> k in Keys(prev) || k == key
  {
    assert Keys(next)[..|prev|] == Keys(prev);
    assert Keys(next)[..|acc|] == Keys(prev)[..|acc|];
  }

  /** The keys of the merge are the target's keys, in their order, followed by
      the new keys of the source: exactly the union of the two key sets. */
  lemma MergeKeys(target: Json, source: Json)
    requires source.JObj?
    ensures Keys(Spread(target)) <= Keys(Merge(target, source).members)
    ensures forall k :: k in Keys(Merge(target, source).members) <==> k in Keys(Spread(target)) || k in Keys(source.members)
  {
    assert source.members[..|source.members|] == source.members;
    MergeUpToFront(Spread(target), source, |source.members|);
    MergeUpToKeys(Spread(target), source, |source.members|);
  }

  /** Merging an empty source gives the target's own record back. */
  lemma MergeEmpty(target: Json)
    requires target.JObj?
    ensures Merge(target, JObj([])) == target
  {
  }

  /** The value under a key of a record, where the record holds each key once. */
  lemma LookupWellFormed(ms: seq<Member>, k: string)
    requires k in Keys(ms) && forall i :: 0 <= i < |ms| ==> WellFormed(ms[i].1)
    ensures WellFormed(Lookup(ms, k).value)
    ensures Lookup(ms, k).value < JObj(ms)
  {
    var i := IndexOf(ms, k);
    assert ms[i] in ms;
  }

  /** Merging two well-formed objects gives a well-formed object. */
  lemma MergeWellFormed(target: Json, source: Json)
    requires target.JObj? && source.JObj? && WellFormed(target) && WellFormed(source)
    ensures WellFormed(Merge(target, source))
    decreases source
  {
    var r := Merge(target, source).members;
    assert source.members[..|source.members|] == source.members;
    MergeUpToDistinct(target.members, source, |source.members|);
    forall i | 0 <= i < |r| ensures WellFormed(r[i].1) {
      var k := r[i].0;
      LookupEntry(r, i);
      MergeLookup(target, source, k);
      var tv := Lookup(target.members, k);
      var sv := Lookup(source.members, k);
      if tv.Some? {
        LookupWellFormed(target.members, k);
      }
      if sv.Some? {
        LookupWellFormed(source.members, k);
      }
      if tv.Some? && sv.Some? && tv.value.JObj? && sv.value.JObj? {
        MergeWellFormed(tv.value, sv.value);
      }
    }
  }

  /** A path that reaches a value in the target still reaches a value in the
      merge, and where the target holds a non-object there, the merge holds the
      very same value. */
  lemma {:induction false} MergeKeepsPaths(target: Json, source: Json, p: seq<string>)
    requires target.JObj? && source.JObj? && WellFormed(source) && |p| >= 1
    requires Get(target, p).Some?
    ensures Get(Merge(target, source), p).Some?
    ensures !Get(target, p).value.JObj? ==> Get(Merge(target, source), p) == Get(target, p)
    decreases |p|
  {
    var k := p[0];
    MergeLookup(target, source, k);
    var tv := Lookup(target.members, k).value;
    var sv := Lookup(source.members, k);
    if |p| > 1 && sv.Some? && tv.JObj? && sv.value.JObj? {
      LookupWellFormed(source.members, k);
      MergeKeepsPaths(tv, sv.value, p[1..]);
    }
  }

  /** The target holds no non-object at any proper prefix of `p`. */
  predicate Compatible(target: Json, p: seq<string>)
  {
    forall m :: 1 <= m < |p| ==> Get(target, p[..m]).None? || Get(target, p[..m]).value.JObj?
  }

  /** A path the source reaches is reached in the merge too, unless the target
      blocks it with a non-object on the way; where the target reaches nothing,
      the merge holds the source's value there. */
  lemma {:induction false} MergeAddsPaths(target: Json, source: Json, p: seq<string>)
    requires target.JObj? && source.JObj? && WellFormed(source) && |p| >= 1
    requires Get(source, p).Some? && Compatible(target, p)
    ensures Get(Merge(target, source), p).Some?
    ensures Get(target, p).None? ==> Get(Merge(target, source), p) == Get(source, p)
    decreases |p|
  {
    var k := p[0];
    MergeLookup(target, source, k);
    var tv := Lookup(target.members, k);
    var sv := Lookup(source.members, k).value;
    if tv.Some? && |p| > 1 {
      assert p[..1] == [k] && [k][1..] == [];
      assert Get(target, p[..1]) == Some(tv.value);
      LookupWellFormed(source.members, k);
      var rest := p[1..];
      forall m | 1 <= m < |rest| ensures Get(tv.value, rest[..m]).None? || Get(tv.value, rest[..m]).value.JObj? {
        assert p[..m + 1][0] == k && p[..m + 1][1..] == rest[..m];
        assert Get(target, p[..m + 1]) == Get(tv.value, rest[..m]);
      }
      MergeAddsPaths(tv.value, sv, rest);
      assert tv.value.JObj? && sv.JObj?;
      var merged := Merge(target, source);
      assert Lookup(merged.members, k) == Some(Merge(tv.value, sv));
      assert Get(merged, p) == Get(Merge(tv.value, sv), rest);
      assert Get(target, p) == Get(tv.value, rest) && Get(source, p) == Get(sv, rest);
    } else if tv.None? {
      var merged := Merge(target, source);
      assert Lookup(merged.members, k) == Some(sv);
      assert Get(merged, p) == Get(sv, p[1..]) == Get(source, p);
    } else {
      assert p[1..] == [];
      assert Get(target, p) == Get(tv.value, []) == Some(tv.value);
      assert Lookup(Merge(target, source).members, k).Some?;
    }
  }

  // ---------------------------------------------------------------------
  // checkDuplicates
  // ---------------------------------------------------------------------

  /** The walk of `checkDuplicates` over the already-read Language document:
      true iff every part of `domain.split(".") ++ [name]` is found, in turn,
      in a non-null object (or array) value; the last value may be anything. */
  method CheckDuplicates(doc: Json, domain: string, name: string) returns (exists_: bool)
    ensures exists_ == At(doc, Split(domain, '.') + [name]).Some?
  {
    var parts := Split(domain, '.') + [name];
    var current := doc;
    for i := 0 to |parts|
      invariant At(doc, parts[..i]) == Some(current)
    {
      var next := Property(current, parts[i]);
      AtAppend(doc, parts[..i], [parts[i]]);
      assert parts[..i] + [parts[i]] == parts[..i + 1];
      if next.None? {
        AtAppend(doc, parts[..i + 1], parts[i + 1..]);
        assert parts[..i + 1] + parts[i + 1..] == parts;
        return false;
      }
      current := next.value;
    }
    assert parts[..|parts|] == parts;
    return true;
  }
}
