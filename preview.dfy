/** The `preview` handler (apps/api/content/preview.ts): it builds the
    thirteen layer trees of an entry, flattens each one with `extractTokens`
    into a record from dotted token paths to token values, and reports the
    records with their sizes. It takes no token store: it reads and writes no
    document. A flattened record is an association list with distinct keys. */
module Preview {
  import opened Wrappers
  import opened Strings
  import opened Assoc
  import opened Json
  import opened Paths
  import opened Constants
  import opened Types
  import opened TokenBuilder

  /** `Record<string, string>`: path to value, keys distinct, in insertion order. */
  type Record = seq<(string, string)>

  // ---------------------------------------------------------------------
  // extractTokens
  // ---------------------------------------------------------------------

  lemma EntryBelow(v: Json, i: nat)
    requires IsObjectLike(v) && i < |Entries(v)|
    ensures Entries(v)[i].1 < v
  {
    if v.JObj? {
      assert v.members[i] in v.members;
    } else {
      assert v.items[i] in v.items;
    }
  }

  /** `extractTokens(v, prefix)`: nothing for a value that is not an object
      or an array; otherwise the record built from its entries in order. */
  function Extract(v: Json, prefix: string): (r: Record)
    ensures !IsObjectLike(v) ==> r == []
    decreases v, 1
  {
    if IsObjectLike(v) then ExtractUpTo(v, prefix, |Entries(v)|) else []
  }

  /** The record after the first `i` entries of `v`. */
  function ExtractUpTo(v: Json, prefix: string, i: nat): Record
    requires IsObjectLike(v) && i <= |Entries(v)|
    decreases v, 0, i
  {
    if i == 0 then []
    else
      EntryBelow(v, i - 1);
      ExtractStep(ExtractUpTo(v, prefix, i - 1), ChildPath(prefix, Entries(v)[i - 1].0), Entries(v)[i - 1].1)
  }

  /** One turn of the loop: a token is recorded under its path with the
      string of its `$value`, and is not entered; any other object or array is
      flattened below its path and its record assigned in; anything else is
      skipped. */
  function ExtractStep(acc: Record, path: string, val: Json): Record
    decreases val, 2
  {
    if !IsObjectLike(val) then acc
    else if !IsToken(val) then PutAll(acc, Extract(val, path))
    else Put(acc, path, TokenValueString(val))
  }

  /** The record is a JavaScript object: each path occurs once. */
  lemma {:induction false} ExtractDistinct(v: Json, prefix: string)
    ensures DistinctKeys(Extract(v, prefix))
    decreases v, 1
  {
    if IsObjectLike(v) {
      ExtractUpToDistinct(v, prefix, |Entries(v)|);
    }
  }

  lemma {:induction false} ExtractUpToDistinct(v: Json, prefix: string, i: nat)
    requires IsObjectLike(v) && i <= |Entries(v)|
    ensures DistinctKeys(ExtractUpTo(v, prefix, i))
    decreases v, 0, i
  {
    if i > 0 {
      EntryBelow(v, i - 1);
      ExtractUpToDistinct(v, prefix, i - 1);
      ExtractStepDistinct(ExtractUpTo(v, prefix, i - 1), ChildPath(prefix, Entries(v)[i - 1].0), Entries(v)[i - 1].1);
    }
  }

  lemma {:induction false} ExtractStepDistinct(acc: Record, path: string, val: Json)
    requires DistinctKeys(acc)
    ensures DistinctKeys(ExtractStep(acc, path, val))
    decreases val, 2
  {
    if IsObjectLike(val) && IsToken(val) {
      PutDistinct(acc, path, TokenValueString(val));
    } else if IsObjectLike(val) {
      PutAllDistinct(acc, Extract(val, path));
    }
  }

  lemma ExtractUpToStep(v: Json, prefix: string, i: nat)
    requires IsObjectLike(v) && 0 < i <= |Entries(v)|
    ensures ExtractUpTo(v, prefix, i)
         == ExtractStep(ExtractUpTo(v, prefix, i - 1), ChildPath(prefix, Entries(v)[i - 1].0), Entries(v)[i - 1].1)
  {
  }

  lemma ExtractStepToken(acc: Record, path: string, val: Json)
    requires IsToken(val)
    ensures ExtractStep(acc, path, val) == Put(acc, path, TokenValueString(val))
  {
  }

  lemma ExtractStepObject(acc: Record, path: string, val: Json)
    requires val.JObj? && !IsToken(val)
    ensures ExtractStep(acc, path, val) == PutAll(acc, Extract(val, path))
  {
  }

  /** `extractTokens` as the source writes it: a loop over the entries that
      assigns into `result`, recursing into nested objects. */
  method ExtractTokens(obj: Json, prefix: string) returns (result: Record)
    ensures result == Extract(obj, prefix)
    decreases obj
  {
    result := [];
    if !IsObjectLike(obj) {
      return;
    }
    var entries := Entries(obj);
    for i := 0 to |entries|
      invariant result == ExtractUpTo(obj, prefix, i)
    {
      var key, val := entries[i].0, entries[i].1;
      var path := if prefix != "" then prefix + "." + key else key;
      EntryBelow(obj, i);
      if IsObjectLike(val) && IsToken(val) {
        result := Put(result, path, TokenValueString(val));
      } else if IsObjectLike(val) {
        var nested := ExtractTokens(val, path);
        result := PutAll(result, nested);
      }
    }
  }

  // ---------------------------------------------------------------------
  // flattening groups of tokens
  // ---------------------------------------------------------------------

  /** The record of one group of tokens below `prefix`: one entry per token, in order. */
  function Flat(prefix: string, ms: seq<Member>): (r: Record)
    ensures |r| == |ms|
    ensures forall k :: 0 <= k < |ms| ==> r[k] == (ChildPath(prefix, ms[k].0), TokenValueString(ms[k].1))
  {
    seq(|ms|, k requires 0 <= k < |ms| => (ChildPath(prefix, ms[k].0), TokenValueString(ms[k].1)))
  }

  lemma FlatSnoc(prefix: string, ms: seq<Member>, i: nat)
    requires 0 < i <= |ms|
    ensures Flat(prefix, ms[..i]) == Flat(prefix, ms[..i - 1]) + [(ChildPath(prefix, ms[i - 1].0), TokenValueString(ms[i - 1].1))]
  {
    var a, b := Flat(prefix, ms[..i]), Flat(prefix, ms[..i - 1]) + [(ChildPath(prefix, ms[i - 1].0), TokenValueString(ms[i - 1].1))];
    assert |a| == |b|;
    forall k | 0 <= k < |a| ensures a[k] == b[k] {
      assert ms[..i][k] == ms[k];
    }
  }

  /** The key of the i-th member. */
  function KeyAt<V>(ms: seq<(string, V)>, i: nat): string
    requires i < |ms|
  {
    ms[i].0
  }

  /** `DistinctKeys`, stated over `KeyAt` so that it is only used where a
      proof names the keys it compares. */
  predicate UniqueKeys(ms: seq<Member>)
  {
    forall i, j :: 0 <= i < j < |ms| ==> KeyAt(ms, i) != KeyAt(ms, j)
  }

  lemma UniqueKeysOf(ms: seq<Member>)
    requires DistinctKeys(ms)
    ensures UniqueKeys(ms)
  {
  }

  lemma DistinctKeysOf(ms: seq<Member>)
    requires UniqueKeys(ms)
    ensures DistinctKeys(ms)
  {
    forall i, j | 0 <= i < j < |ms| ensures ms[i].0 != ms[j].0 {
      assert KeyAt(ms, i) != KeyAt(ms, j);
    }
  }

  /** The value of the i-th member. */
  function ValueAt(ms: seq<Member>, i: nat): Json
    requires i < |ms|
  {
    ms[i].1
  }

  /** An object's members that are all tokens, under distinct keys. */
  predicate TokenGroup(ms: seq<Member>)
  {
    UniqueKeys(ms) && forall k :: 0 <= k < |ms| ==> IsToken(ValueAt(ms, k))
  }

  /** An object's members that are all groups of tokens, under distinct,
      non-empty, dot-free keys. */
  predicate TokenGroups(ms: seq<Member>)
  {
    && UniqueKeys(ms)
    && forall i :: 0 <= i < |ms| ==>
         && ms[i].0 != "" && '.' !in ms[i].0
         && ms[i].1.JObj? && !IsToken(ms[i].1) && TokenGroup(ms[i].1.members)
  }

  /** The records of several groups, group after group. */
  function Groups(prefix: string, ms: seq<Member>): (r: Record)
    requires forall i :: 0 <= i < |ms| ==> ms[i].1.JObj?
    decreases |ms|
  {
    if ms == [] then []
    else Groups(prefix, ms[..|ms| - 1]) + Flat(ChildPath(prefix, ms[|ms| - 1].0), ms[|ms| - 1].1.members)
  }

  /** The path of a token of a group is not the path of an earlier one. */
  lemma FlatFresh(prefix: string, ms: seq<Member>, i: nat)
    requires TokenGroup(ms) && 0 < i <= |ms|
    ensures ChildPath(prefix, ms[i - 1].0) !in Keys(Flat(prefix, ms[..i - 1]))
  {
    var acc := Flat(prefix, ms[..i - 1]);
    var path := ChildPath(prefix, ms[i - 1].0);
    forall k | 0 <= k < i - 1 ensures Keys(acc)[k] != path {
      assert ms[..i - 1][k] == ms[k];
      assert KeyAt(ms, k) != KeyAt(ms, i - 1);
      if acc[k].0 == path {
        ChildPathInjective(prefix, ms[k].0, ms[i - 1].0);
      }
    }
  }

  /** One more entry of an object. */
  lemma ExtractUpToMember(ms: seq<Member>, prefix: string, i: nat)
    requires 0 < i <= |ms|
    ensures ExtractUpTo(JObj(ms), prefix, i)
         == ExtractStep(ExtractUpTo(JObj(ms), prefix, i - 1), ChildPath(prefix, ms[i - 1].0), ms[i - 1].1)
  {
    assert Entries(JObj(ms)) == ms;
    ExtractUpToStep(JObj(ms), prefix, i);
  }

  /** Recording one more token of a group, under a new path, extends its record. */
  lemma FlatStep(ms: seq<Member>, prefix: string, i: nat)
    requires 0 < i <= |ms| && IsToken(ms[i - 1].1)
    requires ChildPath(prefix, ms[i - 1].0) !in Keys(Flat(prefix, ms[..i - 1]))
    ensures ExtractStep(Flat(prefix, ms[..i - 1]), ChildPath(prefix, ms[i - 1].0), ms[i - 1].1) == Flat(prefix, ms[..i])
  {
    var acc := Flat(prefix, ms[..i - 1]);
    var path := ChildPath(prefix, ms[i - 1].0);
    ExtractStepToken(acc, path, ms[i - 1].1);
    FlatSnoc(prefix, ms, i);
  }

  lemma {:induction false} ExtractUpToFlat(ms: seq<Member>, prefix: string, i: nat)
    requires TokenGroup(ms) && i <= |ms|
    ensures ExtractUpTo(JObj(ms), prefix, i) == Flat(prefix, ms[..i])
    decreases i
  {
    if i > 0 {
      ExtractUpToFlat(ms, prefix, i - 1);
      assert IsToken(ValueAt(ms, i - 1));
      ExtractUpToMember(ms, prefix, i);
      FlatFresh(prefix, ms, i);
      FlatStep(ms, prefix, i);
    }
  }

  /** A group of tokens flattens to one entry per token, each under its key
      below the prefix and holding the string of its `$value`. */
  lemma ExtractFlat(ms: seq<Member>, prefix: string)
    requires TokenGroup(ms)
    ensures Extract(JObj(ms), prefix) == Flat(prefix, ms)
  {
    ExtractUpToFlat(ms, prefix, |ms|);
    assert ms[..|ms|] == ms;
  }

  /** Every entry of `r` lies under one of the keys of `ms`. */
  predicate UnderKeys(prefix: string, r: Record, ms: seq<Member>)
  {
    forall k :: 0 <= k < |r| ==> TopKey(prefix, KeyAt(r, k)) in Keys(ms)
  }

  lemma UnderKeysAppend(prefix: string, a: Record, b: Record, ms: seq<Member>)
    requires UnderKeys(prefix, a, ms) && UnderKeys(prefix, b, ms)
    ensures UnderKeys(prefix, a + b, ms)
  {
    forall k | 0 <= k < |a + b| ensures TopKey(prefix, KeyAt(a + b, k)) in Keys(ms) {
      if k < |a| {
        assert KeyAt(a + b, k) == KeyAt(a, k);
      } else {
        assert KeyAt(a + b, k) == KeyAt(b, k - |a|);
      }
    }
  }

  /** Adding a member keeps the earlier records under the keys. */
  lemma UnderKeysWiden(prefix: string, r: Record, ms: seq<Member>)
    requires ms != [] && UnderKeys(prefix, r, ms[..|ms| - 1])
    ensures UnderKeys(prefix, r, ms)
  {
    forall k | 0 <= k < |r| ensures TopKey(prefix, KeyAt(r, k)) in Keys(ms) {
      var m :| 0 <= m < |ms| - 1 && Keys(ms[..|ms| - 1])[m] == TopKey(prefix, KeyAt(r, k));
      assert Keys(ms)[m] == ms[m].0;
    }
  }

  /** The record of the last group lies under its key. */
  lemma UnderKeysLast(prefix: string, ms: seq<Member>)
    requires ms != [] && ms[|ms| - 1].0 != "" && '.' !in ms[|ms| - 1].0 && ms[|ms| - 1].1.JObj?
    ensures UnderKeys(prefix, Flat(ChildPath(prefix, ms[|ms| - 1].0), ms[|ms| - 1].1.members), ms)
  {
    var n := |ms| - 1;
    var g := ms[n].1.members;
    var last := Flat(ChildPath(prefix, ms[n].0), g);
    assert Keys(ms)[n] == ms[n].0;
    forall k | 0 <= k < |last| ensures TopKey(prefix, KeyAt(last, k)) in Keys(ms) {
      TopKeyOf(prefix, ms[n].0, g[k].0);
    }
  }

  /** Every entry of the records of several groups lies under the key of one
      of the groups. */
  lemma {:induction false} GroupsTop(prefix: string, ms: seq<Member>)
    requires forall i :: 0 <= i < |ms| ==> ms[i].0 != "" && '.' !in ms[i].0 && ms[i].1.JObj?
    ensures UnderKeys(prefix, Groups(prefix, ms), ms)
    decreases |ms|
  {
    if ms != [] {
      var n := |ms| - 1;
      var front: Record := Groups(prefix, ms[..n]);
      var last: Record := Flat(ChildPath(prefix, ms[n].0), ms[n].1.members);
      GroupsTop(prefix, ms[..n]);
      UnderKeysWiden(prefix, front, ms);
      UnderKeysLast(prefix, ms);
      UnderKeysAppend(prefix, front, last, ms);
    }
  }

  /** The entries of the next group lie under a key no earlier group has. */
  lemma GroupsFresh(prefix: string, ms: seq<Member>, i: nat)
    requires TokenGroups(ms) && 0 < i <= |ms|
    ensures var flat := Flat(ChildPath(prefix, ms[i - 1].0), ms[i - 1].1.members);
      forall k :: 0 <= k < |flat| ==> flat[k].0 !in Keys(Groups(prefix, ms[..i - 1]))
  {
    var f, g := ms[i - 1].0, ms[i - 1].1.members;
    var flat := Flat(ChildPath(prefix, f), g);
    var acc := Groups(prefix, ms[..i - 1]);
    GroupsTop(prefix, ms[..i - 1]);
    DistinctKeysOf(ms);
    KeyNotBefore(ms, i - 1);
    forall k | 0 <= k < |flat| ensures flat[k].0 !in Keys(acc) {
      TopKeyOf(prefix, f, g[k].0);
      forall m | 0 <= m < |acc| ensures Keys(acc)[m] != flat[k].0 {
        assert TopKey(prefix, KeyAt(acc, m)) in Keys(ms[..i - 1]);
      }
    }
  }

  /** Recording one more group, whose paths are new, extends the records. */
  lemma GroupStep(ms: seq<Member>, prefix: string, i: nat)
    requires TokenGroups(ms) && 0 < i <= |ms|
    ensures ExtractStep(Groups(prefix, ms[..i - 1]), ChildPath(prefix, ms[i - 1].0), ms[i - 1].1) == Groups(prefix, ms[..i])
  {
    var acc := Groups(prefix, ms[..i - 1]);
    var f, v := ms[i - 1].0, ms[i - 1].1;
    var path := ChildPath(prefix, f);
    var flat := Flat(path, v.members);
    calc {
      ExtractStep(acc, path, v);
    == { ExtractStepObject(acc, path, v); }
      PutAll(acc, Extract(v, path));
    == { ExtractFlat(v.members, path); }
      PutAll(acc, flat);
    == { GroupsFresh(prefix, ms, i);
         ExtractFlat(v.members, path);
         ExtractDistinct(v, path);
         PutAllFresh(acc, flat); }
      acc + flat;
    == { GroupsSnoc(prefix, ms, i); }
      Groups(prefix, ms[..i]);
    }
  }

  lemma {:induction false} ExtractUpToGroups(ms: seq<Member>, prefix: string, i: nat)
    requires TokenGroups(ms) && i <= |ms|
    ensures ExtractUpTo(JObj(ms), prefix, i) == Groups(prefix, ms[..i])
    decreases i
  {
    if i > 0 {
      ExtractUpToGroups(ms, prefix, i - 1);
      ExtractUpToMember(ms, prefix, i);
      GroupStep(ms, prefix, i);
    }
  }

  /** An object of groups of tokens flattens to the records of its groups,
      group after group. */
  lemma ExtractGroups(ms: seq<Member>, prefix: string)
    requires TokenGroups(ms)
    ensures Extract(JObj(ms), prefix) == Groups(prefix, ms)
  {
    ExtractUpToGroups(ms, prefix, |ms|);
    assert ms[..|ms|] == ms;
  }

  /** No key of the wrapper chain below its first is `"$type"`, so no object
      of the chain is taken for a token. */
  predicate PlainNest(parts: seq<string>)
  {
    forall k :: 1 <= k < |parts| ==> parts[k] != "$type"
  }

  /** Flattening a tree wrapped by `setNested` flattens the inner object
      below the path of the wrapper chain. */
  lemma {:induction false} ExtractNested(parts: seq<string>, v: Json, prefix: string)
    requires v.JObj? && !IsToken(v) && PlainNest(parts)
    ensures Extract(Nested(parts, v), prefix) == Extract(v, FoldPath(prefix, parts))
    decreases |parts|
  {
    if parts != [] {
      var w := Nested(parts[1..], v);
      var path := ChildPath(prefix, parts[0]);
      if parts[1..] != [] {
        assert Keys(w.members) == [parts[1]];
      }
      var n := Nested(parts, v);
      assert Entries(n) == [(parts[0], w)];
      assert w.JObj? && !IsToken(w);
      ExtractUpToStep(n, prefix, 1);
      ExtractStepObject([], path, w);
      ExtractDistinct(w, path);
      PutAllFresh([], Extract(w, path));
      ExtractNested(parts[1..], v, path);
      calc {
        Extract(n, prefix);
        ExtractUpTo(n, prefix, 1);
        ExtractStep([], path, w);
        PutAll([], Extract(w, path));
        Extract(w, path);
        Extract(v, FoldPath(prefix, parts));
      }
    }
  }

  // ---------------------------------------------------------------------
  // the records of the built trees
  // ---------------------------------------------------------------------

  lemma TokenJsonRead(t: TokenValue)
    ensures IsToken(TokenJson(t)) && TokenValueString(TokenJson(t)) == t.value
  {
    TokenJsonFields(t);
    assert Keys(TokenJson(t).members)[0] == "$type";
  }

  lemma LangKeyNotType(tone: Definition, ty: Definition, name: string)
    ensures LangKey(tone, ty, name) != "$type"
  {
    assert LangKey(tone, ty, name)[0] == 'l';
  }

  lemma ToneGroupIsTokens(domain: string, name: string, c: ContentMatrix, i: nat)
    requires i < |TONES|
    ensures TokenGroup(ToneGroup(domain, name, c, i))
    ensures "$type" !in Keys(ToneGroup(domain, name, c, i))
  {
    var g := ToneGroup(domain, name, c, i);
    ToneGroupDistinct(domain, name, c, i);
    UniqueKeysOf(g);
    forall j | 0 <= j < |g| ensures IsToken(g[j].1) && Keys(g)[j] != "$type" {
      TokenJsonRead(LangToken(domain, name, c, i, j));
      LangKeyNotType(TONES[i], TYPES[j], name);
    }
  }

  /** A tone's full name is a plain key: not empty, without dots, not `$type`. */
  lemma ToneNameIsKey(i: nat)
    requires i < |TONES|
    ensures TONES[i].full != "" && '.' !in TONES[i].full && TONES[i].full != "$type"
  {
    NoDotInRegistries(i, 0);
    assert |TONES[i].full| > 0 && TONES[i].full[0] != '$';
  }

  /** An object of tokens without a `$type` key, under a plain key, is a group. */
  lemma GroupOfTokens(f: string, g: seq<Member>)
    requires f != "" && '.' !in f && f != "$type"
    requires TokenGroup(g) && "$type" !in Keys(g)
    ensures var e := (f, JObj(g));
      && e.0 != "" && '.' !in e.0 && e.0 != "$type"
      && e.1.JObj? && !IsToken(e.1) && TokenGroup(e.1.members)
  {
  }

  lemma NameGroupEntry(domain: string, name: string, c: ContentMatrix, i: nat)
    requires i < |TONES|
    ensures var e := NameGroup(domain, name, c)[i];
      && e.0 != "" && '.' !in e.0 && e.0 != "$type"
      && e.1.JObj? && !IsToken(e.1) && TokenGroup(e.1.members)
  {
    var g := ToneGroup(domain, name, c, i);
    assert NameGroup(domain, name, c)[i] == (TONES[i].full, JObj(g));
    ToneGroupIsTokens(domain, name, c, i);
    ToneNameIsKey(i);
    GroupOfTokens(TONES[i].full, g);
  }

  lemma NameGroupIsGroups(domain: string, name: string, c: ContentMatrix)
    ensures TokenGroups(NameGroup(domain, name, c))
    ensures "$type" !in Keys(NameGroup(domain, name, c))
  {
    var ng := NameGroup(domain, name, c);
    NameGroupDistinct(domain, name, c);
    UniqueKeysOf(ng);
    forall i | 0 <= i < |ng|
      ensures ng[i].0 != "" && '.' !in ng[i].0 && ng[i].1.JObj? && !IsToken(ng[i].1) && TokenGroup(ng[i].1.members)
      ensures Keys(ng)[i] != "$type"
    {
      NameGroupEntry(domain, name, c, i);
    }
  }

  /** The path, below the flattened entry path `p`, of the Language token of
      tone i and type j, and its cell. */
  function LangEntry(p: string, name: string, c: ContentMatrix, i: nat, j: nat): (string, string)
    requires i < |TONES| && j < |TYPES|
  {
    (ChildPath(ChildPath(p, TONES[i].full), LangKey(TONES[i], TYPES[j], name)), FieldAt(ToneAt(c, i), j))
  }

  lemma GroupsSnoc(prefix: string, ms: seq<Member>, m: nat)
    requires forall i :: 0 <= i < |ms| ==> ms[i].1.JObj?
    requires 0 < m <= |ms|
    ensures Groups(prefix, ms[..m]) == Groups(prefix, ms[..m - 1]) + Flat(ChildPath(prefix, ms[m - 1].0), ms[m - 1].1.members)
  {
    assert ms[..m][..m - 1] == ms[..m - 1];
  }

  /** The record of the group of tone i: its six Language entries. */
  lemma ToneFlat(domain: string, name: string, c: ContentMatrix, p: string, i: nat)
    requires i < |TONES|
    ensures var last := Flat(ChildPath(p, TONES[i].full), ToneGroup(domain, name, c, i));
      |last| == 6 && forall j :: 0 <= j < |TYPES| ==> last[j] == LangEntry(p, name, c, i, j)
  {
    var last := Flat(ChildPath(p, TONES[i].full), ToneGroup(domain, name, c, i));
    forall j | 0 <= j < |TYPES| ensures last[j] == LangEntry(p, name, c, i, j) {
      TokenJsonRead(LangToken(domain, name, c, i, j));
      CellOfRegistries(c, i, j);
    }
  }

  /** The record of groups of six members each holds member j of group i at
      position 6i + j. */
  lemma {:induction false} GroupsOfSix(prefix: string, ms: seq<Member>)
    requires forall i :: 0 <= i < |ms| ==> ms[i].1.JObj? && |ms[i].1.members| == 6
    ensures |Groups(prefix, ms)| == 6 * |ms|
    ensures forall i, j :: 0 <= i < |ms| && 0 <= j < 6 ==>
      Groups(prefix, ms)[6 * i + j] == Flat(ChildPath(prefix, ms[i].0), ms[i].1.members)[j]
    decreases |ms|
  {
    if ms != [] {
      var n := |ms|;
      var init := ms[..n - 1];
      GroupsOfSix(prefix, init);
      var front, last := Groups(prefix, init), Flat(ChildPath(prefix, ms[n - 1].0), ms[n - 1].1.members);
      assert Groups(prefix, ms) == front + last;
      forall i, j | 0 <= i < n && 0 <= j < 6
        ensures Groups(prefix, ms)[6 * i + j] == Flat(ChildPath(prefix, ms[i].0), ms[i].1.members)[j]
      {
        if i < n - 1 {
          assert 6 * i + j < 6 * (n - 1);
          assert init[i] == ms[i];
          assert Groups(prefix, ms)[6 * i + j] == front[6 * i + j];
        } else {
          assert 6 * i + j == 6 * (n - 1) + j;
          assert Groups(prefix, ms)[6 * i + j] == last[j];
        }
      }
    }
  }

  /** The record of the tone groups, in tone order: six Language entries per tone. */
  lemma LanguageGroups(domain: string, name: string, c: ContentMatrix, p: string)
    ensures |Groups(p, NameGroup(domain, name, c))| == 36
    ensures forall i, j :: 0 <= i < |TONES| && 0 <= j < |TYPES| ==>
      Groups(p, NameGroup(domain, name, c))[6 * i + j] == LangEntry(p, name, c, i, j)
  {
    var ng := NameGroup(domain, name, c);
    forall i | 0 <= i < |ng| ensures ng[i].1.JObj? && |ng[i].1.members| == 6 {
      assert ng[i] == (TONES[i].full, JObj(ToneGroup(domain, name, c, i)));
    }
    GroupsOfSix(p, ng);
    forall i, j | 0 <= i < |TONES| && 0 <= j < |TYPES|
      ensures Groups(p, ng)[6 * i + j] == LangEntry(p, name, c, i, j)
    {
      assert ng[i] == (TONES[i].full, JObj(ToneGroup(domain, name, c, i)));
      ToneFlat(domain, name, c, p, i);
    }
  }

  /** The flattened Language tree: 36 entries, tone after tone and within a
      tone type after type, each the path of its token and its matrix cell.
      `p` is the path the wrapper chain flattens to. */
  lemma LanguageRecord(domain: string, name: string, c: ContentMatrix)
    requires PlainNest(NestPath(domain, name))
    ensures var r := Extract(LanguageTree(domain, name, c), "");
      var p := FoldPath("", NestPath(domain, name));
      && |r| == 36
      && forall i, j :: 0 <= i < |TONES| && 0 <= j < |TYPES| ==> r[6 * i + j] == LangEntry(p, name, c, i, j)
  {
    var ng := NameGroup(domain, name, c);
    var p := FoldPath("", NestPath(domain, name));
    NameGroupIsGroups(domain, name, c);
    ExtractNested(NestPath(domain, name), JObj(ng), "");
    ExtractGroups(ng, p);
    LanguageGroups(domain, name, c, p);
  }

  lemma TypeGroupIsTokens(domain: string, name: string, j: nat, refKey: nat -> string)
    requires j < |TYPES|
    ensures TokenGroup(TypeGroup(domain, name, j, refKey))
    ensures "$type" !in Keys(TypeGroup(domain, name, j, refKey))
  {
    var g := TypeGroup(domain, name, j, refKey);
    TypeGroupDistinct(domain, name, j, refKey);
    UniqueKeysOf(g);
    forall i | 0 <= i < |g| ensures IsToken(g[i].1) && Keys(g)[i] != "$type" {
      TokenJsonRead(TypeToken(domain, name, j, i, refKey(i)));
      assert TypeKey(TONES[i].abbr, name)[0] == 't';
    }
  }

  /** The flattened Type tree of type j: 6 entries, one per tone in order,
      each the path of its Type token and the alias of the Language token of
      that tone and type; the drawn reference keys do not appear. */
  lemma TypeRecord(domain: string, name: string, j: nat, refKey: nat -> string)
    requires j < |TYPES| && PlainNest(NestPath(domain, name))
    ensures var r := Extract(TypeTree(domain, name, j, refKey), "");
      var p := FoldPath("", NestPath(domain, name));
      && |r| == 6
      && forall i :: 0 <= i < |TONES| ==>
           r[i] == (ChildPath(p, TypeKey(TONES[i].abbr, name)), Reference(LangPath(domain, name, TONES[i], TYPES[j])))
  {
    var g := TypeGroup(domain, name, j, refKey);
    var p := FoldPath("", NestPath(domain, name));
    TypeGroupIsTokens(domain, name, j, refKey);
    ExtractNested(NestPath(domain, name), JObj(g), "");
    ExtractFlat(g, p);
    forall i | 0 <= i < |TONES| ensures TokenValueString(g[i].1) == Reference(LangPath(domain, name, TONES[i], TYPES[j])) {
      TokenJsonRead(TypeToken(domain, name, j, i, refKey(i)));
    }
  }

  /** The flattened Tone tree: its one token, at its path, holding the alias
      of the Type token of the given abbreviation. */
  lemma ToneRecord(domain: string, name: string, toneAbbr: string, key: string)
    requires PlainNest(NestPath(domain, name))
    ensures Extract(BuildToneTokens(domain, name, toneAbbr, key), "")
         == [(ChildPath(FoldPath("", NestPath(domain, name)), ToneKey(name)), Reference(TypePath(domain, name, toneAbbr)))]
  {
    var g := [(ToneKey(name), TokenJson(ToneToken(domain, name, toneAbbr, key)))];
    var p := FoldPath("", NestPath(domain, name));
    TokenJsonRead(ToneToken(domain, name, toneAbbr, key));
    assert ToneKey(name)[0] == 't';
    assert Keys(g) == [ToneKey(name)];
    ExtractNested(NestPath(domain, name), JObj(g), "");
    ExtractFlat(g, p);
  }

  /** When the domain's first segment is not empty, the wrapper chain flattens
      to `domain.name`, the prefix of every path the builder writes. */
  lemma EntryPath(domain: string, name: string)
    requires Split(domain, '.')[0] != ""
    ensures FoldPath("", NestPath(domain, name)) == domain + "." + name
  {
    var ds := Split(domain, '.');
    FoldPathJoin(NestPath(domain, name));
    JoinAppend(ds, [name], ".");
    JoinSplit(domain, '.');
  }

  // ---------------------------------------------------------------------
  // the handler
  // ---------------------------------------------------------------------

  datatype Layer = LanguageLayer | TypeLayer | ToneLayer

  datatype PreviewParams = PreviewParams(domain: string, name: string, content: ContentMatrix)

  datatype PreviewFile = PreviewFile(file: string, layer: Layer, tokenCount: nat, tokens: Record)

  datatype PreviewResponse = PreviewResponse(files: seq<PreviewFile>, totalTokens: nat)

  function LayerAt(k: nat): Layer
  {
    if k == 0 then LanguageLayer else if k <= |TYPES| then TypeLayer else ToneLayer
  }

  /** The report of one file: its tree flattened, and the number of keys in the record. */
  function FileReport(s: Step, layer: Layer): PreviewFile
  {
    var tokens := Extract(s.tree, "");
    PreviewFile(s.file, layer, |tokens|, tokens)
  }

  /** `files.reduce((sum, f) => sum + f.tokenCount, 0)`. */
  function TotalCount(files: seq<PreviewFile>): nat
    decreases |files|
  {
    if files == [] then 0 else TotalCount(files[..|files| - 1]) + files[|files| - 1].tokenCount
  }

  /** The report of the k-th layer file. */
  function ReportAt(params: PreviewParams, typeKeys: nat -> nat -> string, toneKeys: nat -> string, k: nat): PreviewFile
    requires k < 1 + |TYPES| + |TONES|
  {
    FileReport(StepAt(params.domain, params.name, params.content, typeKeys, toneKeys, k), LayerAt(k))
  }

  /** The reports of the first n layer files, in order. */
  function Reports(params: PreviewParams, typeKeys: nat -> nat -> string, toneKeys: nat -> string, n: nat): (files: seq<PreviewFile>)
    requires n <= 1 + |TYPES| + |TONES|
    ensures |files| == n
  {
    if n == 0 then [] else Reports(params, typeKeys, toneKeys, n - 1) + [ReportAt(params, typeKeys, toneKeys, n - 1)]
  }

  /** A table built row by row, each row extending the previous one by the
      next entry, holds entry k at position k. */
  lemma {:induction false} SnocTableAt<T>(rows: nat -> seq<T>, entry: nat -> T, n: nat)
    requires rows(0) == []
    requires forall m :: 0 < m <= n ==> rows(m) == rows(m - 1) + [entry(m - 1)]
    ensures |rows(n)| == n && forall k :: 0 <= k < n ==> rows(n)[k] == entry(k)
  {
    if n > 0 {
      SnocTableAt(rows, entry, n - 1);
      assert rows(n) == rows(n - 1) + [entry(n - 1)];
    }
  }

  lemma ReportsAt(params: PreviewParams, typeKeys: nat -> nat -> string, toneKeys: nat -> string, n: nat)
    requires n <= 1 + |TYPES| + |TONES|
    ensures forall k :: 0 <= k < n ==> Reports(params, typeKeys, toneKeys, n)[k] == ReportAt(params, typeKeys, toneKeys, k)
  {
    var rows := (m: nat) => if m <= 1 + |TYPES| + |TONES| then Reports(params, typeKeys, toneKeys, m) else [];
    var entry := (m: nat) => if m < 1 + |TYPES| + |TONES| then ReportAt(params, typeKeys, toneKeys, m) else ReportAt(params, typeKeys, toneKeys, 0);
    SnocTableAt(rows, entry, n);
  }

  /** What `preview` returns: the report of each of the thirteen layer files,
      in the order Language, Type, Tone, and the sum of the counts. */
  function PreviewOf(params: PreviewParams, typeKeys: nat -> nat -> string, toneKeys: nat -> string): PreviewResponse
  {
    var files := Reports(params, typeKeys, toneKeys, 1 + |TYPES| + |TONES|);
    PreviewResponse(files, TotalCount(files))
  }

  /** The report of the Language file. */
  method LanguageReport(params: PreviewParams, typeKeys: nat -> nat -> string, toneKeys: nat -> string) returns (f: PreviewFile)
    ensures f == ReportAt(params, typeKeys, toneKeys, 0)
  {
    var langTokens := BuildLanguageTokens(params.domain, params.name, params.content);
    var langExtracted := ExtractTokens(langTokens, "");
    f := PreviewFile(LANGUAGE_FILE, LanguageLayer, |langExtracted|, langExtracted);
  }

  /** The report of the Type file of type j. The tree is built with the
      abbreviation of the catalogue, so `buildTypeTokens` does not fail. */
  method TypeReport(params: PreviewParams, typeKeys: nat -> nat -> string, toneKeys: nat -> string, j: nat) returns (f: PreviewFile)
    requires j < |TYPES|
    ensures f == ReportAt(params, typeKeys, toneKeys, 1 + j)
  {
    var ty := TYPES[j];
    FindTypeAt(j);
    assert ty.abbr in Abbrs(TYPES) by {
      assert Abbrs(TYPES)[j] == ty.abbr;
    }
    var typeTokens := BuildTypeTokens(params.domain, params.name, ty.abbr, typeKeys(j));
    var typeExtracted := ExtractTokens(typeTokens.value, "");
    f := PreviewFile(ty.file, TypeLayer, |typeExtracted|, typeExtracted);
  }

  /** The report of the Tone file of tone i. */
  method ToneReport(params: PreviewParams, typeKeys: nat -> nat -> string, toneKeys: nat -> string, i: nat) returns (f: PreviewFile)
    requires i < |TONES|
    ensures f == ReportAt(params, typeKeys, toneKeys, 1 + |TYPES| + i)
  {
    var tone := TONES[i];
    var toneTokens := BuildToneTokens(params.domain, params.name, tone.abbr, toneKeys(i));
    var toneExtracted := ExtractTokens(toneTokens, "");
    f := PreviewFile(tone.file, ToneLayer, |toneExtracted|, toneExtracted);
  }

  /** `files.reduce((sum, f) => sum + f.tokenCount, 0)`. */
  method SumCounts(files: seq<PreviewFile>) returns (total: nat)
    ensures total == TotalCount(files)
  {
    total := 0;
    for k := 0 to |files|
      invariant total == TotalCount(files[..k])
    {
      assert files[..k + 1][..k] == files[..k];
      total := total + files[k].tokenCount;
    }
    assert files[..|files|] == files;
  }

  /** The reports of the Type files, appended in catalogue order. */
  method AddTypeReports(params: PreviewParams, typeKeys: nat -> nat -> string, toneKeys: nat -> string, start: seq<PreviewFile>)
    returns (files: seq<PreviewFile>)
    requires start == Reports(params, typeKeys, toneKeys, 1)
    ensures files == Reports(params, typeKeys, toneKeys, 1 + |TYPES|)
  {
    files := start;
    for j := 0 to |TYPES|
      invariant files == Reports(params, typeKeys, toneKeys, 1 + j)
    {
      var f := TypeReport(params, typeKeys, toneKeys, j);
      files := files + [f];
    }
  }

  /** The reports of the Tone files, appended in catalogue order. */
  method AddToneReports(params: PreviewParams, typeKeys: nat -> nat -> string, toneKeys: nat -> string, start: seq<PreviewFile>)
    returns (files: seq<PreviewFile>)
    requires start == Reports(params, typeKeys, toneKeys, 1 + |TYPES|)
    ensures files == Reports(params, typeKeys, toneKeys, 1 + |TYPES| + |TONES|)
  {
    files := start;
    for i := 0 to |TONES|
      invariant files == Reports(params, typeKeys, toneKeys, 1 + |TYPES| + i)
    {
      var f := ToneReport(params, typeKeys, toneKeys, i);
      files := files + [f];
    }
  }

  /** The handler body: the Language file, the Type files in catalogue order,
      the Tone files in catalogue order, then the total. */
  method Preview(params: PreviewParams, typeKeys: nat -> nat -> string, toneKeys: nat -> string) returns (r: PreviewResponse)
    ensures r == PreviewOf(params, typeKeys, toneKeys)
  {
    var first := LanguageReport(params, typeKeys, toneKeys);
    var files := AddTypeReports(params, typeKeys, toneKeys, [first]);
    files := AddToneReports(params, typeKeys, toneKeys, files);
    var total := SumCounts(files);
    r := PreviewResponse(files, total);
  }

  // ---------------------------------------------------------------------
  // what preview promises
  // ---------------------------------------------------------------------

  /** Thirteen files, in the order of the layer files, tagged with their layer. */
  lemma PreviewLayout(params: PreviewParams, typeKeys: nat -> nat -> string, toneKeys: nat -> string)
    ensures var files := PreviewOf(params, typeKeys, toneKeys).files;
      && |files| == 13
      && (forall k :: 0 <= k < 13 ==> files[k].file == LayerFiles()[k])
      && files[0].layer == LanguageLayer
      && (forall j :: 1 <= j < 7 ==> files[j].layer == TypeLayer)
      && (forall i :: 7 <= i < 13 ==> files[i].layer == ToneLayer)
  {
    ReportsAt(params, typeKeys, toneKeys, 1 + |TYPES| + |TONES|);
  }

  lemma {:induction false} TotalCountAppend(a: seq<PreviewFile>, b: seq<PreviewFile>)
    ensures TotalCount(a + b) == TotalCount(a) + TotalCount(b)
    decreases |b|
  {
    if b == [] {
      assert a + b == a;
    } else {
      var b' := b[..|b| - 1];
      assert (a + b)[..|a + b| - 1] == a + b';
      assert (a + b)[|a + b| - 1] == b[|b| - 1];
      TotalCountAppend(a, b');
      calc {
        TotalCount(a + b);
        TotalCount(a + b') + b[|b| - 1].tokenCount;
        TotalCount(a) + TotalCount(b') + b[|b| - 1].tokenCount;
        TotalCount(a) + TotalCount(b);
      }
    }
  }

  lemma {:induction false} TotalCountConstant(files: seq<PreviewFile>, c: nat)
    requires forall k :: 0 <= k < |files| ==> files[k].tokenCount == c
    ensures TotalCount(files) == c * |files|
    decreases |files|
  {
    if files != [] {
      TotalCountConstant(files[..|files| - 1], c);
    }
  }

  /** The Language report: its tree flattened to the 36 cells of the matrix. */
  lemma LanguageReportTokens(params: PreviewParams, typeKeys: nat -> nat -> string, toneKeys: nat -> string)
    requires PlainNest(NestPath(params.domain, params.name))
    ensures var f := ReportAt(params, typeKeys, toneKeys, 0);
      var p := FoldPath("", NestPath(params.domain, params.name));
      && f.tokenCount == |f.tokens| == 36
      && forall i, j :: 0 <= i < |TONES| && 0 <= j < |TYPES| ==> f.tokens[6 * i + j] == LangEntry(p, params.name, params.content, i, j)
  {
    LanguageRecord(params.domain, params.name, params.content);
  }

  /** The report of the Type file of type j: one alias per tone. */
  lemma TypeReportTokens(params: PreviewParams, typeKeys: nat -> nat -> string, toneKeys: nat -> string, j: nat)
    requires j < |TYPES| && PlainNest(NestPath(params.domain, params.name))
    ensures var f := ReportAt(params, typeKeys, toneKeys, 1 + j);
      var p := FoldPath("", NestPath(params.domain, params.name));
      && f.tokenCount == |f.tokens| == 6
      && forall i :: 0 <= i < |TONES| ==>
           f.tokens[i] == (ChildPath(p, TypeKey(TONES[i].abbr, params.name)), Reference(LangPath(params.domain, params.name, TONES[i], TYPES[j])))
  {
    TypeRecord(params.domain, params.name, j, typeKeys(j));
  }

  /** The report of the Tone file of tone i: its one alias. */
  lemma ToneReportTokens(params: PreviewParams, typeKeys: nat -> nat -> string, toneKeys: nat -> string, i: nat)
    requires i < |TONES| && PlainNest(NestPath(params.domain, params.name))
    ensures var f := ReportAt(params, typeKeys, toneKeys, 1 + |TYPES| + i);
      var p := FoldPath("", NestPath(params.domain, params.name));
      && f.tokenCount == |f.tokens| == 1
      && f.tokens == [(ChildPath(p, ToneKey(params.name)), Reference(TypePath(params.domain, params.name, TONES[i].abbr)))]
  {
    ToneRecord(params.domain, params.name, TONES[i].abbr, toneKeys(i));
  }

  /** Thirteen files counting 36, six times 6 and six times 1 total 78. */
  lemma LayerCountsTotal(files: seq<PreviewFile>)
    requires |files| == 13 && files[0].tokenCount == 36
    requires forall j :: 1 <= j < 7 ==> files[j].tokenCount == 6
    requires forall i :: 7 <= i < 13 ==> files[i].tokenCount == 1
    ensures TotalCount(files) == 78
  {
    var a, b, c := files[..1], files[1..7], files[7..];
    assert files == a + b + c;
    TotalCountAppend(a + b, c);
    TotalCountAppend(a, b);
    TotalCountConstant(b, 6);
    TotalCountConstant(c, 1);
    assert TotalCount(a) == TotalCount([]) + a[0].tokenCount;
  }

  /** The number of tokens in the k-th layer file. */
  lemma ReportCount(params: PreviewParams, typeKeys: nat -> nat -> string, toneKeys: nat -> string, k: nat)
    requires k < 1 + |TYPES| + |TONES| && PlainNest(NestPath(params.domain, params.name))
    ensures ReportAt(params, typeKeys, toneKeys, k).tokenCount == if k == 0 then 36 else if k <= |TYPES| then 6 else 1
  {
    if k == 0 {
      LanguageReportTokens(params, typeKeys, toneKeys);
    } else if k <= |TYPES| {
      TypeReportCount(params, typeKeys, toneKeys, k);
    } else {
      ToneReportCount(params, typeKeys, toneKeys, k);
    }
  }

  lemma TypeReportCount(params: PreviewParams, typeKeys: nat -> nat -> string, toneKeys: nat -> string, k: nat)
    requires 1 <= k <= |TYPES| && PlainNest(NestPath(params.domain, params.name))
    ensures ReportAt(params, typeKeys, toneKeys, k).tokenCount == 6
  {
    TypeReportTokens(params, typeKeys, toneKeys, k - 1);
  }

  lemma ToneReportCount(params: PreviewParams, typeKeys: nat -> nat -> string, toneKeys: nat -> string, k: nat)
    requires |TYPES| < k < 1 + |TYPES| + |TONES| && PlainNest(NestPath(params.domain, params.name))
    ensures ReportAt(params, typeKeys, toneKeys, k).tokenCount == 1
  {
    ToneReportTokens(params, typeKeys, toneKeys, k - 1 - |TYPES|);
  }

  /** The counts the preview reports: 36 Language tokens, six per Type file,
      one per Tone file, 78 in all. */
  lemma PreviewCounts(params: PreviewParams, typeKeys: nat -> nat -> string, toneKeys: nat -> string)
    requires PlainNest(NestPath(params.domain, params.name))
    ensures var r := PreviewOf(params, typeKeys, toneKeys);
      && r.files[0].tokenCount == 36
      && (forall j :: 1 <= j < 7 ==> r.files[j].tokenCount == 6)
      && (forall i :: 7 <= i < 13 ==> r.files[i].tokenCount == 1)
      && r.totalTokens == 78
  {
    var files := PreviewOf(params, typeKeys, toneKeys).files;
    ReportsAt(params, typeKeys, toneKeys, 1 + |TYPES| + |TONES|);
    forall k | 0 <= k < 13 ensures files[k].tokenCount == if k == 0 then 36 else if k <= |TYPES| then 6 else 1 {
      ReportCount(params, typeKeys, toneKeys, k);
    }
    LayerCountsTotal(files);
  }

  /** When the domain's first segment is not empty, every path the preview
      lists is the path the builder gives that token (and records in its code
      syntax), and every value is the cell or the alias the builder writes. */
  lemma PreviewPathsMatchBuilder(params: PreviewParams, typeKeys: nat -> nat -> string, toneKeys: nat -> string)
    requires PlainNest(NestPath(params.domain, params.name)) && Split(params.domain, '.')[0] != ""
    ensures var d, n, c := params.domain, params.name, params.content;
      var files := PreviewOf(params, typeKeys, toneKeys).files;
      && |files[0].tokens| == 36
      && (forall i, j :: 0 <= i < |TONES| && 0 <= j < |TYPES| ==>
            files[0].tokens[6 * i + j] == (LangPath(d, n, TONES[i], TYPES[j]), FieldAt(ToneAt(c, i), j)))
      && (forall k :: 1 <= k < 7 ==> |files[k].tokens| == 6)
      && (forall k, i :: 1 <= k < 7 && 0 <= i < |TONES| ==>
            files[k].tokens[i] == (TypePath(d, n, TONES[i].abbr), Reference(LangPath(d, n, TONES[i], TYPES[k - 1]))))
      && (forall k :: 7 <= k < 13 ==> files[k].tokens == [(TonePath(d, n), Reference(TypePath(d, n, TONES[k - 7].abbr)))])
  {
    var d, n, c := params.domain, params.name, params.content;
    var files := PreviewOf(params, typeKeys, toneKeys).files;
    ReportsAt(params, typeKeys, toneKeys, 1 + |TYPES| + |TONES|);
    assert files[0] == ReportAt(params, typeKeys, toneKeys, 0);
    LanguageFilePaths(params, typeKeys, toneKeys);
    forall k | 1 <= k < 7
      ensures |files[k].tokens| == 6
      ensures forall i :: 0 <= i < |TONES| ==>
        files[k].tokens[i] == (TypePath(d, n, TONES[i].abbr), Reference(LangPath(d, n, TONES[i], TYPES[k - 1])))
    {
      assert files[k] == ReportAt(params, typeKeys, toneKeys, k);
      TypeFilePaths(params, typeKeys, toneKeys, k);
    }
    forall k | 7 <= k < 13 ensures files[k].tokens == [(TonePath(d, n), Reference(TypePath(d, n, TONES[k - 7].abbr)))] {
      assert files[k] == ReportAt(params, typeKeys, toneKeys, k);
      ToneFilePaths(params, typeKeys, toneKeys, k);
    }
  }

  /** The Language file's report, with its paths written out. */
  lemma LanguageFilePaths(params: PreviewParams, typeKeys: nat -> nat -> string, toneKeys: nat -> string)
    requires PlainNest(NestPath(params.domain, params.name)) && Split(params.domain, '.')[0] != ""
    ensures var d, n, c := params.domain, params.name, params.content;
      var f := ReportAt(params, typeKeys, toneKeys, 0);
      && |f.tokens| == 36
      && forall i, j :: 0 <= i < |TONES| && 0 <= j < |TYPES| ==>
           f.tokens[6 * i + j] == (LangPath(d, n, TONES[i], TYPES[j]), FieldAt(ToneAt(c, i), j))
  {
    var d, n, c := params.domain, params.name, params.content;
    assert ReportAt(params, typeKeys, toneKeys, 0).tokens == Extract(LanguageTree(d, n, c), "");
    LanguagePaths(d, n, c);
  }

  /** The report of the k-th file, a Type file, with its paths written out. */
  lemma TypeFilePaths(params: PreviewParams, typeKeys: nat -> nat -> string, toneKeys: nat -> string, k: nat)
    requires PlainNest(NestPath(params.domain, params.name)) && Split(params.domain, '.')[0] != ""
    requires 1 <= k < 7
    ensures var d, n := params.domain, params.name;
      var f := ReportAt(params, typeKeys, toneKeys, k);
      && |f.tokens| == 6
      && forall i :: 0 <= i < |TONES| ==>
           f.tokens[i] == (TypePath(d, n, TONES[i].abbr), Reference(LangPath(d, n, TONES[i], TYPES[k - 1])))
  {
    var d, n := params.domain, params.name;
    TypeReportTokens(params, typeKeys, toneKeys, k - 1);
    EntryPath(d, n);
    forall i | 0 <= i < |TONES| ensures ChildPath(FoldPath("", NestPath(d, n)), TypeKey(TONES[i].abbr, n)) == TypePath(d, n, TONES[i].abbr) {
      EntryChild(d, n, TypeKey(TONES[i].abbr, n));
    }
  }

  /** The report of the k-th file, a Tone file, with its path written out. */
  lemma ToneFilePaths(params: PreviewParams, typeKeys: nat -> nat -> string, toneKeys: nat -> string, k: nat)
    requires PlainNest(NestPath(params.domain, params.name)) && Split(params.domain, '.')[0] != ""
    requires 7 <= k < 13
    ensures var d, n := params.domain, params.name;
      ReportAt(params, typeKeys, toneKeys, k).tokens == [(TonePath(d, n), Reference(TypePath(d, n, TONES[k - 7].abbr)))]
  {
    var d, n := params.domain, params.name;
    ToneReportTokens(params, typeKeys, toneKeys, k - 7);
    EntryPath(d, n);
    EntryChild(d, n, ToneKey(n));
    assert ChildPath(FoldPath("", NestPath(d, n)), ToneKey(n)) == TonePath(d, n);
  }

  /** A key below the entry path `domain.name`. */
  lemma EntryChild(domain: string, name: string, key: string)
    ensures ChildPath(domain + "." + name, key) == domain + "." + name + "." + key
  {
  }

  /** The Language record with the entry path written out as `domain.name`. */
  lemma LanguagePaths(d: string, n: string, c: ContentMatrix)
    requires PlainNest(NestPath(d, n)) && Split(d, '.')[0] != ""
    ensures var r := Extract(LanguageTree(d, n, c), "");
      && |r| == 36
      && forall i, j :: 0 <= i < |TONES| && 0 <= j < |TYPES| ==>
           r[6 * i + j] == (LangPath(d, n, TONES[i], TYPES[j]), FieldAt(ToneAt(c, i), j))
  {
    var r := Extract(LanguageTree(d, n, c), "");
    var p := d + "." + n;
    EntryPath(d, n);
    LanguageRecord(d, n, c);
    forall i, j | 0 <= i < |TONES| && 0 <= j < |TYPES|
      ensures r[6 * i + j] == (LangPath(d, n, TONES[i], TYPES[j]), FieldAt(ToneAt(c, i), j))
    {
      assert r[6 * i + j] == LangEntry(p, n, c, i, j);
      assert ChildPath(ChildPath(p, TONES[i].full), LangKey(TONES[i], TYPES[j], n)) == LangPath(d, n, TONES[i], TYPES[j]);
    }
  }

  lemma ReportIgnoresKeys(params: PreviewParams, typeKeys: nat -> nat -> string, toneKeys: nat -> string,
                          typeKeys': nat -> nat -> string, toneKeys': nat -> string, k: nat)
    requires k < 1 + |TYPES| + |TONES| && PlainNest(NestPath(params.domain, params.name))
    ensures ReportAt(params, typeKeys, toneKeys, k) == ReportAt(params, typeKeys', toneKeys', k)
  {
    if 1 <= k <= |TYPES| {
      TypeTokensIgnoreKeys(params, typeKeys, toneKeys, typeKeys', toneKeys', k);
    } else if k > |TYPES| {
      ToneReportTokens(params, typeKeys, toneKeys, k - 1 - |TYPES|);
      ToneReportTokens(params, typeKeys', toneKeys', k - 1 - |TYPES|);
    }
  }

  lemma TypeTokensIgnoreKeys(params: PreviewParams, typeKeys: nat -> nat -> string, toneKeys: nat -> string,
                             typeKeys': nat -> nat -> string, toneKeys': nat -> string, k: nat)
    requires 1 <= k <= |TYPES| && PlainNest(NestPath(params.domain, params.name))
    ensures ReportAt(params, typeKeys, toneKeys, k).tokens == ReportAt(params, typeKeys', toneKeys', k).tokens
  {
    var f, g := ReportAt(params, typeKeys, toneKeys, k), ReportAt(params, typeKeys', toneKeys', k);
    TypeReportTokens(params, typeKeys, toneKeys, k - 1);
    TypeReportTokens(params, typeKeys', toneKeys', k - 1);
    assert f.tokens == g.tokens;
  }

  /** The preview does not depend on the reference keys drawn for the Type
      and Tone tokens: they appear in no path and no value it lists. */
  lemma PreviewIgnoresKeys(params: PreviewParams, typeKeys: nat -> nat -> string, toneKeys: nat -> string,
                           typeKeys': nat -> nat -> string, toneKeys': nat -> string)
    requires PlainNest(NestPath(params.domain, params.name))
    ensures PreviewOf(params, typeKeys, toneKeys) == PreviewOf(params, typeKeys', toneKeys')
  {
    var a, b := PreviewOf(params, typeKeys, toneKeys).files, PreviewOf(params, typeKeys', toneKeys').files;
    ReportsAt(params, typeKeys, toneKeys, 1 + |TYPES| + |TONES|);
    ReportsAt(params, typeKeys', toneKeys', 1 + |TYPES| + |TONES|);
    forall k | 0 <= k < |a| ensures a[k] == b[k] {
      ReportIgnoresKeys(params, typeKeys, toneKeys, typeKeys', toneKeys', k);
    }
    assert a == b;
  }
}
