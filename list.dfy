/** The `list` handler (apps/api/tokens/list.ts): it walks the Language
    document down to the requested domain, then collects every token whose
    key has the Language form `lang--<tone>--<type>--<name>`, optionally
    filtered by tone and type, into lists grouped by the token path without
    its last two segments. The document is a parameter: reading the file is
    not modelled. The grouped result is an association list with distinct
    keys, in insertion order. */
module TokenList {
  import opened Wrappers
  import opened Strings
  import opened Assoc
  import opened Json
  import opened Paths

  /** `ListParams`: an absent query parameter is `None`. */
  datatype ListParams = ListParams(domain: Option<string>, tone: Option<string>, ty: Option<string>)

  /** `TokenInfo`. */
  datatype TokenInfo = TokenInfo(path: string, value: string, tone: string, ty: string)

  /** `Record<string, TokenInfo[]>`. */
  type Groups = seq<(string, seq<TokenInfo>)>

  datatype ListResponse = ListResponse(entries: Groups)

  // ---------------------------------------------------------------------
  // the key pattern ^lang--(\w+)--(\w+)--(.+)$
  // ---------------------------------------------------------------------

  /** `\w`: an ASCII letter, a digit or the underscore. */
  predicate IsWordChar(c: char)
  {
    ('a' <= c <= 'z') || ('A' <= c <= 'Z') || ('0' <= c <= '9') || c == '_'
  }

  /** The characters `.` does not match without the `s` flag. */
  predicate IsLineTerminator(c: char)
  {
    c == '\n' || c == '\r' || c == '\U{2028}' || c == '\U{2029}'
  }

  /** What `\w+` matches: one or more word characters. */
  predicate IsWord(s: string)
  {
    s != [] && forall k :: 0 <= k < |s| ==> IsWordChar(s[k])
  }

  /** What `.+` matches up to the end of the key: one or more characters, none
      of them a line terminator. */
  predicate IsLine(s: string)
  {
    s != [] && forall k :: 0 <= k < |s| ==> !IsLineTerminator(s[k])
  }

  /** The three captures of a match. */
  datatype KeyMatch = KeyMatch(tone: string, ty: string, name: string)

  /** The pattern matches `key` with these captures. */
  predicate MatchesWith(key: string, m: KeyMatch)
  {
    IsWord(m.tone) && IsWord(m.ty) && IsLine(m.name) && key == "lang--" + m.tone + "--" + m.ty + "--" + m.name
  }

  /** The length of the run of word characters at the start of `s`. */
  function WordRun(s: string): (n: nat)
    ensures n <= |s|
    ensures forall k :: 0 <= k < n ==> IsWordChar(s[k])
    ensures n < |s| ==> !IsWordChar(s[n])
    decreases |s|
  {
    if s != [] && IsWordChar(s[0]) then 1 + WordRun(s[1..]) else 0
  }

  /** `(\w+)--` at the start of `s`: the word, and what follows the two dashes.
      Since `-` is not a word character, the word is the whole run. */
  function WordThenDashes(s: string): Option<(string, string)>
  {
    var n := WordRun(s);
    if n > 0 && n + 2 <= |s| && s[n] == '-' && s[n + 1] == '-' then Some((s[..n], s[n + 2..])) else None
  }

  /** `key.match(/^lang--(\w+)--(\w+)--(.+)$/)`, with its captures. */
  function MatchLangKey(key: string): Option<KeyMatch>
  {
    if |key| < 6 || key[..6] != "lang--" then None
    else
      match WordThenDashes(key[6..])
      case None => None
      case Some((tone, rest)) =>
        match WordThenDashes(rest)
        case None => None
        case Some((ty, name)) => if IsLine(name) then Some(KeyMatch(tone, ty, name)) else None
  }

  lemma WordThenDashesSound(s: string)
    requires WordThenDashes(s).Some?
    ensures var (w, rest) := WordThenDashes(s).value;
      IsWord(w) && s == w + "--" + rest
  {
    var n := WordRun(s);
    assert s == s[..n] + "--" + s[n + 2..];
  }

  /** The match the function finds is a match of the pattern. */
  lemma MatchSound(key: string)
    requires MatchLangKey(key).Some?
    ensures MatchesWith(key, MatchLangKey(key).value)
  {
    var m := MatchLangKey(key).value;
    WordThenDashesSound(key[6..]);
    var rest := WordThenDashes(key[6..]).value.1;
    WordThenDashesSound(rest);
    assert key == key[..6] + key[6..];
    Assemble(key, m, rest);
  }

  lemma Assemble(key: string, m: KeyMatch, rest: string)
    requires |key| >= 6 && key[..6] == "lang--" && key[6..] == m.tone + "--" + rest && rest == m.ty + "--" + m.name
    ensures key == "lang--" + m.tone + "--" + m.ty + "--" + m.name
  {
    assert key == key[..6] + key[6..];
  }

  /** A word run stops at the first character that is not a word character. */
  lemma {:induction false} WordRunOf(w: string, s: string)
    requires forall k :: 0 <= k < |w| ==> IsWordChar(w[k])
    requires s != [] && !IsWordChar(s[0])
    ensures WordRun(w + s) == |w|
    decreases |w|
  {
    if w != [] {
      assert (w + s)[1..] == w[1..] + s;
      WordRunOf(w[1..], s);
    } else {
      assert w + s == s;
    }
  }

  lemma WordThenDashesOf(w: string, rest: string)
    requires IsWord(w)
    ensures WordThenDashes(w + "--" + rest) == Some((w, rest))
  {
    var s := w + "--" + rest;
    assert s == w + ("--" + rest);
    WordRunOf(w, "--" + rest);
    assert s[..|w|] == w;
    assert s[|w| + 2..] == rest;
  }

  /** Every match of the pattern is the one the function finds: the pattern
      has no other way to split a key. */
  lemma MatchComplete(key: string, m: KeyMatch)
    requires MatchesWith(key, m)
    ensures MatchLangKey(key) == Some(m)
  {
    var rest := m.ty + "--" + m.name;
    assert key == "lang--" + (m.tone + "--" + rest);
    assert key[..6] == "lang--";
    assert key[6..] == m.tone + "--" + rest;
    WordThenDashesOf(m.tone, rest);
    WordThenDashesOf(m.ty, m.name);
  }

  /** The pattern matches a key in at most one way. */
  lemma MatchUnique(key: string, m: KeyMatch, m': KeyMatch)
    requires MatchesWith(key, m) && MatchesWith(key, m')
    ensures m == m'
  {
    MatchComplete(key, m);
    MatchComplete(key, m');
  }

  // ---------------------------------------------------------------------
  // filters and groups
  // ---------------------------------------------------------------------

  /** A query parameter that is set: present and not empty. */
  predicate Active(filter: Option<string>)
  {
    filter.Some? && filter.value != ""
  }

  /** `if (filters.tone && tone !== filters.tone) continue;` and the same for the type. */
  predicate Passes(params: ListParams, tone: string, ty: string)
  {
    && (!Active(params.tone) || tone == params.tone.value)
    && (!Active(params.ty) || ty == params.ty.value)
  }

  /** `path.split(".").slice(0, -2).join(".")`. */
  function GroupKey(path: string): string
  {
    var parts := Split(path, '.');
    if |parts| < 2 then "" else Join(parts[..|parts| - 2], ".")
  }

  // ---------------------------------------------------------------------
  // extractEntries
  // ---------------------------------------------------------------------

  lemma EntryBelow(v: Json, i: nat)
    requires IsObjectLike(v) && i < |Entries(v)|
    ensures Entries(v)[i].1 < v
  {
    if v.JObj? {
      assert v.members[i] in v.members;
    } else {
      assert v.items[i] in v.items;
    }
  }

  /** `extractEntries(v, prefix, filters)`: nothing for a value that is not an
      object or an array; otherwise the groups built from its entries in order. */
  function ExtractEntries(v: Json, prefix: string, params: ListParams): Groups
    decreases v, 1
  {
    if IsObjectLike(v) then EntriesUpTo(v, prefix, params, |Entries(v)|) else []
  }

  /** The groups after the first `i` entries of `v`. */
  function EntriesUpTo(v: Json, prefix: string, params: ListParams, i: nat): Groups
    requires IsObjectLike(v) && i <= |Entries(v)|
    decreases v, 0, i
  {
    if i == 0 then []
    else
      EntryBelow(v, i - 1);
      var (key, val) := Entries(v)[i - 1];
      EntryStep(EntriesUpTo(v, prefix, params, i - 1), ChildPath(prefix, key), key, val, params)
  }

  /** One turn of the loop, for the entry `key: val` at `path`. */
  function EntryStep(acc: Groups, path: string, key: string, val: Json, params: ListParams): Groups
    decreases val, 2
  {
    if IsToken(val) then
      match MatchLangKey(key)
      case None => acc
      case Some(m) =>
        if Passes(params, m.tone, m.ty) then AppendTo(acc, GroupKey(path), [TokenInfo(path, TokenValueString(val), m.tone, m.ty)])
        else acc
    else if IsObjectLike(val) then AppendAll(acc, ExtractEntries(val, path, params))
    else acc
  }

  /** `extractEntries` as the source writes it: a loop over the entries of
      an object or an array. */
  method ExtractEntriesLoop(obj: Json, prefix: string, params: ListParams) returns (result: Groups)
    ensures result == ExtractEntries(obj, prefix, params)
    decreases obj, 1
  {
    result := [];
    if !IsObjectLike(obj) {
      return;
    }
    var entries := Entries(obj);
    for i := 0 to |entries|
      invariant result == EntriesUpTo(obj, prefix, params, i)
    {
      var key, val := entries[i].0, entries[i].1;
      var path := if prefix != "" then prefix + "." + key else key;
      EntryBelow(obj, i);
      result := VisitEntry(result, path, key, val, params);
    }
  }

  /** The body of that loop: a matching token is pushed onto the list of its
      group; a nested object or array is walked and its groups appended. */
  method VisitEntry(acc: Groups, path: string, key: string, val: Json, params: ListParams) returns (result: Groups)
    ensures result == EntryStep(acc, path, key, val, params)
    decreases val, 2
  {
    result := acc;
    if IsToken(val) {
      var match_ := MatchLangKey(key);
      if match_.Some? && Passes(params, match_.value.tone, match_.value.ty) {
        var m := match_.value;
        var groupKey := GroupKey(path);
        result := AppendTo(result, groupKey, [TokenInfo(path, TokenValueString(val), m.tone, m.ty)]);
      }
    } else if IsObjectLike(val) {
      var nested := ExtractEntriesLoop(val, path, params);
      result := MergeNested(acc, nested);
    }
  }

  /** `for (const [k, v] of Object.entries(nested)) (result[k] ??= []).push(...v)`. */
  method MergeNested(acc: Groups, nested: Groups) returns (result: Groups)
    ensures result == AppendAll(acc, nested)
  {
    result := acc;
    for n := 0 to |nested|
      invariant result == AppendAll(acc, nested[..n])
    {
      assert nested[..n + 1][..n] == nested[..n];
      result := AppendTo(result, nested[n].0, nested[n].1);
    }
    assert nested[..|nested|] == nested;
  }

  // ---------------------------------------------------------------------
  // what every group holds
  // ---------------------------------------------------------------------

  /** A listed token: its tone and type are the captures of a match, they
      pass the filters, and its path lies in the group `group`. */
  predicate GoodInfo(group: string, e: TokenInfo, params: ListParams)
  {
    IsWord(e.tone) && IsWord(e.ty) && Passes(params, e.tone, e.ty) && GroupKey(e.path) == group
  }

  /** A group is never empty, and it holds only tokens of its own group. */
  predicate GoodList(group: string, infos: seq<TokenInfo>, params: ListParams)
  {
    infos != [] && forall e :: e in infos ==> GoodInfo(group, e, params)
  }

  /** Every group of `g`, found by its key, is good. */
  ghost predicate GoodLookups(g: Groups, params: ListParams)
  {
    forall k :: Lookup(g, k).Some? ==> GoodList(k, Lookup(g, k).value, params)
  }

  /** Every entry of `g` is a good group. */
  predicate GoodEntries(g: Groups, params: ListParams)
  {
    forall i :: 0 <= i < |g| ==> GoodList(g[i].0, g[i].1, params)
  }

  lemma LookupsToEntries(g: Groups, params: ListParams)
    requires DistinctKeys(g) && GoodLookups(g, params)
    ensures GoodEntries(g, params)
  {
    forall i | 0 <= i < |g| ensures GoodList(g[i].0, g[i].1, params) {
      LookupEntry(g, i);
    }
  }

  lemma AppendToGood(g: Groups, k: string, items: seq<TokenInfo>, params: ListParams)
    requires GoodLookups(g, params) && GoodList(k, items, params)
    ensures GoodLookups(AppendTo(g, k, items), params)
  {
    var r := AppendTo(g, k, items);
    forall k' | Lookup(r, k').Some? ensures GoodList(k', Lookup(r, k').value, params) {
      if k' != k {
        assert Lookup(r, k') == Lookup(g, k');
      } else if Lookup(g, k).Some? {
        var old_ := Lookup(g, k).value;
        assert Lookup(r, k).value == old_ + items;
        assert GoodList(k, old_, params);
        forall e | e in old_ + items ensures GoodInfo(k, e, params) {
          if e in old_ {} else {}
        }
      }
    }
  }

  lemma {:induction false} AppendAllGood(g: Groups, more: Groups, params: ListParams)
    requires GoodLookups(g, params) && GoodEntries(more, params)
    ensures GoodLookups(AppendAll(g, more), params)
    decreases |more|
  {
    if more != [] {
      var front := more[..|more| - 1];
      assert GoodEntries(front, params) by {
        forall i | 0 <= i < |front| ensures GoodList(front[i].0, front[i].1, params) {
          assert front[i] == more[i];
        }
      }
      AppendAllGood(g, front, params);
      AppendToGood(AppendAll(g, front), more[|more| - 1].0, more[|more| - 1].1, params);
    }
  }

  /** Before the loop there are no groups. */
  lemma EntriesUpToZero(v: Json, prefix: string, params: ListParams)
    requires IsObjectLike(v)
    ensures EntriesUpTo(v, prefix, params, 0) == []
  {
  }

  /** The groups of `extractEntries` have distinct keys. */
  lemma {:induction false} ExtractDistinct(v: Json, prefix: string, params: ListParams)
    ensures DistinctKeys(ExtractEntries(v, prefix, params))
    decreases v, 1
  {
    if IsObjectLike(v) {
      EntriesUpToDistinct(v, prefix, params, |Entries(v)|);
    }
  }

  lemma {:induction false} EntriesUpToDistinct(v: Json, prefix: string, params: ListParams, i: nat)
    requires IsObjectLike(v) && i <= |Entries(v)|
    ensures DistinctKeys(EntriesUpTo(v, prefix, params, i))
    decreases v, 0, i
  {
    if i == 0 {
      EntriesUpToZero(v, prefix, params);
    } else {
      EntryBelow(v, i - 1);
      var (key, val) := Entries(v)[i - 1];
      EntriesUpToDistinct(v, prefix, params, i - 1);
      EntryStepDistinct(EntriesUpTo(v, prefix, params, i - 1), ChildPath(prefix, key), key, val, params);
    }
  }

  lemma {:induction false} EntryStepDistinct(acc: Groups, path: string, key: string, val: Json, params: ListParams)
    requires DistinctKeys(acc)
    ensures DistinctKeys(EntryStep(acc, path, key, val, params))
    decreases val, 2
  {
    if IsToken(val) {
      var m := MatchLangKey(key);
      if m.Some? && Passes(params, m.value.tone, m.value.ty) {
        var items := [TokenInfo(path, TokenValueString(val), m.value.tone, m.value.ty)];
        var g := GroupKey(path);
        PutDistinct(acc, g, if Lookup(acc, g).Some? then Lookup(acc, g).value + items else items);
      }
    } else if IsObjectLike(val) {
      AppendAllDistinct(acc, ExtractEntries(val, path, params));
    }
  }

  /** Every group of `extractEntries` is non-empty and holds only tokens whose
      key matched the Language pattern, whose tone and type pass the filters,
      and whose path lies in that group. */
  lemma {:induction false} ExtractGood(v: Json, prefix: string, params: ListParams)
    ensures GoodLookups(ExtractEntries(v, prefix, params), params)
    decreases v, 1
  {
    if IsObjectLike(v) {
      EntriesUpToGood(v, prefix, params, |Entries(v)|);
    }
  }

  lemma {:induction false} EntriesUpToGood(v: Json, prefix: string, params: ListParams, i: nat)
    requires IsObjectLike(v) && i <= |Entries(v)|
    ensures GoodLookups(EntriesUpTo(v, prefix, params, i), params)
    decreases v, 0, i
  {
    if i == 0 {
      EntriesUpToZero(v, prefix, params);
    } else {
      EntryBelow(v, i - 1);
      var (key, val) := Entries(v)[i - 1];
      EntriesUpToGood(v, prefix, params, i - 1);
      EntryStepGood(EntriesUpTo(v, prefix, params, i - 1), ChildPath(prefix, key), key, val, params);
    }
  }

  lemma {:induction false} EntryStepGood(acc: Groups, path: string, key: string, val: Json, params: ListParams)
    requires GoodLookups(acc, params)
    ensures GoodLookups(EntryStep(acc, path, key, val, params), params)
    decreases val, 2
  {
    if IsToken(val) {
      var m := MatchLangKey(key);
      if m.Some? && Passes(params, m.value.tone, m.value.ty) {
        MatchSound(key);
        var e := TokenInfo(path, TokenValueString(val), m.value.tone, m.value.ty);
        assert GoodInfo(GroupKey(path), e, params);
        AppendToGood(acc, GroupKey(path), [e], params);
      }
    } else if IsObjectLike(val) {
      var nested := ExtractEntries(val, path, params);
      ExtractGood(val, path, params);
      ExtractDistinct(val, path, params);
      LookupsToEntries(nested, params);
      AppendAllGood(acc, nested, params);
    }
  }

  /** The groups of `extractEntries`, entry by entry. */
  lemma ExtractEntriesGood(v: Json, prefix: string, params: ListParams)
    ensures GoodEntries(ExtractEntries(v, prefix, params), params)
  {
    ExtractGood(v, prefix, params);
    ExtractDistinct(v, prefix, params);
    LookupsToEntries(ExtractEntries(v, prefix, params), params);
  }

  // ---------------------------------------------------------------------
  // what the lists hold: the tokens of the walk, grouped
  // ---------------------------------------------------------------------

  /** A value the walk comes to: its path, the key it sits under, and the value. */
  datatype Hit = Hit(path: string, key: string, val: Json)

  /** The walk of `extractEntries` from `v` below `prefix`, taking at each
      level the entry at position `idx[0]` of `Object.entries`. It enters
      objects and arrays, but not tokens. */
  function Reach(v: Json, prefix: string, idx: seq<nat>): Option<Hit>
    decreases |idx|
  {
    if idx == [] || !IsObjectLike(v) || idx[0] >= |Entries(v)| then None
    else
      var key, val := Entries(v)[idx[0]].0, Entries(v)[idx[0]].1;
      var path := ChildPath(prefix, key);
      if |idx| == 1 then Some(Hit(path, key, val))
      else if IsToken(val) then None
      else Reach(val, path, idx[1..])
  }

  /** A token the handler lists: its key has the Language form and its
      captures pass the filters. */
  predicate Listed(h: Hit, params: ListParams)
  {
    IsToken(h.val) && MatchLangKey(h.key).Some?
      && Passes(params, MatchLangKey(h.key).value.tone, MatchLangKey(h.key).value.ty)
  }

  /** The `TokenInfo` of a listed token: its full path, `String($value)`, and
      the tone and type captures of its key. */
  function InfoOf(h: Hit): TokenInfo
    requires MatchLangKey(h.key).Some?
  {
    TokenInfo(h.path, TokenValueString(h.val), MatchLangKey(h.key).value.tone, MatchLangKey(h.key).value.ty)
  }

  /** The listed tokens of the walk from `v`, in the order it meets them,
      before any grouping. */
  function Tokens(v: Json, prefix: string, params: ListParams): seq<TokenInfo>
    decreases v, 1
  {
    if IsObjectLike(v) then TokensUpTo(v, prefix, params, |Entries(v)|) else []
  }

  function TokensUpTo(v: Json, prefix: string, params: ListParams, i: nat): seq<TokenInfo>
    requires IsObjectLike(v) && i <= |Entries(v)|
    decreases v, 0, i
  {
    if i == 0 then []
    else
      EntryBelow(v, i - 1);
      var key, val := Entries(v)[i - 1].0, Entries(v)[i - 1].1;
      TokensUpTo(v, prefix, params, i - 1) + EntryTokens(ChildPath(prefix, key), key, val, params)
  }

  /** The listed tokens of one entry. */
  function EntryTokens(path: string, key: string, val: Json, params: ListParams): seq<TokenInfo>
    decreases val, 2
  {
    if IsToken(val) then
      if Listed(Hit(path, key, val), params) then [InfoOf(Hit(path, key, val))] else []
    else if IsObjectLike(val) then Tokens(val, path, params)
    else []
  }

  /** The elements of `xs` whose key is `g`, in order. */
  function Select<T>(xs: seq<T>, key: T -> string, g: string): seq<T>
    decreases |xs|
  {
    if xs == [] then []
    else Select(xs[..|xs| - 1], key, g) + (if key(xs[|xs| - 1]) == g then [xs[|xs| - 1]] else [])
  }

  /** The group of a listed token. */
  function PathGroup(e: TokenInfo): string
  {
    GroupKey(e.path)
  }

  /** The tokens of a flat list whose path lies in group `g`, in order. */
  function InGroup(infos: seq<TokenInfo>, g: string): seq<TokenInfo>
  {
    Select(infos, PathGroup, g)
  }

  /** The list of group `g`, if it has any token. */
  function GroupList(infos: seq<TokenInfo>, g: string): Option<seq<TokenInfo>>
  {
    if InGroup(infos, g) == [] then None else Some(InGroup(infos, g))
  }

  /** `groups` is `infos` grouped: each group key holds exactly the tokens of
      `infos` in that group, in their order, and a key without tokens is absent. */
  ghost predicate Grouping(groups: Groups, infos: seq<TokenInfo>)
  {
    forall g :: Lookup(groups, g) == GroupList(infos, g)
  }

  lemma {:induction false} SelectAppend<T>(a: seq<T>, b: seq<T>, key: T -> string, g: string)
    ensures Select(a + b, key, g) == Select(a, key, g) + Select(b, key, g)
    decreases |b|
  {
    if b == [] {
      assert a + b == a;
    } else {
      var n := |b|;
      assert (a + b)[..|a + b| - 1] == a + b[..n - 1];
      SelectAppend(a, b[..n - 1], key, g);
    }
  }

  lemma GroupListAppend(a: seq<TokenInfo>, b: seq<TokenInfo>, g: string)
    ensures GroupList(a + b, g) == JoinLists(GroupList(a, g), GroupList(b, g))
  {
    SelectAppend(a, b, PathGroup, g);
    var x, y := InGroup(a, g), InGroup(b, g);
    if x == [] {
      assert x + y == y;
    } else if y == [] {
      assert x + y == x;
    } else {
      assert |x + y| > 0;
    }
  }

  /** Pushing a token onto the list of its group groups one more token. */
  lemma GroupingPush(acc: Groups, infos: seq<TokenInfo>, e: TokenInfo, g: string)
    requires Lookup(acc, g) == GroupList(infos, g)
    ensures Lookup(AppendTo(acc, GroupKey(e.path), [e]), g) == GroupList(infos + [e], g)
  {
    AppendToLookup(acc, GroupKey(e.path), [e], g);
    GroupListAppend(infos, [e], g);
    assert [e][..0] == [];
    assert InGroup([e], g) == if PathGroup(e) == g then [e] else [];
  }

  /** Appending the groups of a nested walk groups the two lists one after the other. */
  lemma GroupingAppend(acc: Groups, infos: seq<TokenInfo>, nested: Groups, more: seq<TokenInfo>, g: string)
    requires Lookup(acc, g) == GroupList(infos, g) && Lookup(nested, g) == GroupList(more, g) && DistinctKeys(nested)
    ensures Lookup(AppendAll(acc, nested), g) == GroupList(infos + more, g)
  {
    AppendAllLookup(acc, nested, g);
    GroupListAppend(infos, more, g);
  }

  /** The groups `extractEntries` returns are its walk's listed tokens, grouped. */
  lemma ExtractGroups(v: Json, prefix: string, params: ListParams)
    ensures Grouping(ExtractEntries(v, prefix, params), Tokens(v, prefix, params))
  {
    forall g ensures Lookup(ExtractEntries(v, prefix, params), g) == GroupList(Tokens(v, prefix, params), g) {
      ExtractGrouping(v, prefix, params, g);
    }
  }

  /** The list `extractEntries` holds under `g` is the walk's listed tokens in group `g`. */
  lemma {:induction false} ExtractGrouping(v: Json, prefix: string, params: ListParams, g: string)
    ensures Lookup(ExtractEntries(v, prefix, params), g) == GroupList(Tokens(v, prefix, params), g)
    decreases v, 2
  {
    if IsObjectLike(v) {
      EntriesUpToGrouping(v, prefix, params, |Entries(v)|, g);
    }
  }

  /** The loop invariant: after `i` entries, the group `g` holds the tokens of those entries in group `g`. */
  ghost predicate GroupedUpTo(v: Json, prefix: string, params: ListParams, i: nat, g: string)
    requires IsObjectLike(v) && i <= |Entries(v)|
  {
    Lookup(EntriesUpTo(v, prefix, params, i), g) == GroupList(TokensUpTo(v, prefix, params, i), g)
  }

  lemma {:induction false} EntriesUpToGrouping(v: Json, prefix: string, params: ListParams, i: nat, g: string)
    requires IsObjectLike(v) && i <= |Entries(v)|
    ensures GroupedUpTo(v, prefix, params, i, g)
    decreases v, 1, i
  {
    if i == 0 {
      GroupingZero(v, prefix, params, g);
    } else {
      EntriesUpToGrouping(v, prefix, params, i - 1, g);
      GroupingStep(v, prefix, params, i, g);
    }
  }

  /** Before the loop there are no groups and no tokens. */
  lemma GroupingZero(v: Json, prefix: string, params: ListParams, g: string)
    requires IsObjectLike(v)
    ensures GroupedUpTo(v, prefix, params, 0, g)
  {
  }

  /** The grouping survives one more entry of the loop. */
  lemma {:induction false} GroupingStep(v: Json, prefix: string, params: ListParams, m: nat, g: string)
    requires IsObjectLike(v) && 0 < m <= |Entries(v)|
    requires GroupedUpTo(v, prefix, params, m - 1, g)
    ensures GroupedUpTo(v, prefix, params, m, g)
    decreases v, 0
  {
    EntryBelow(v, m - 1);
    var key, val := Entries(v)[m - 1].0, Entries(v)[m - 1].1;
    TokensUpToStep(v, prefix, params, m);
    EntryStepGrouping(EntriesUpTo(v, prefix, params, m - 1), TokensUpTo(v, prefix, params, m - 1), ChildPath(prefix, key), key, val, params, g);
  }

  lemma {:induction false} EntryStepGrouping(acc: Groups, infos: seq<TokenInfo>, path: string, key: string, val: Json, params: ListParams, g: string)
    requires Lookup(acc, g) == GroupList(infos, g)
    ensures Lookup(EntryStep(acc, path, key, val, params), g) == GroupList(infos + EntryTokens(path, key, val, params), g)
    decreases val, 3
  {
    if IsToken(val) {
      if Listed(Hit(path, key, val), params) {
        GroupingPush(acc, infos, InfoOf(Hit(path, key, val)), g);
      } else {
        assert infos + [] == infos;
      }
    } else if IsObjectLike(val) {
      ExtractGrouping(val, path, params, g);
      ExtractDistinct(val, path, params);
      GroupingAppend(acc, infos, ExtractEntries(val, path, params), Tokens(val, path, params), g);
    } else {
      assert infos + [] == infos;
    }
  }

  /** One level of the walk: the entry at position `j`. */
  lemma ReachOne(v: Json, prefix: string, j: nat)
    requires IsObjectLike(v) && j < |Entries(v)|
    ensures Reach(v, prefix, [j]) == Some(Hit(ChildPath(prefix, Entries(v)[j].0), Entries(v)[j].0, Entries(v)[j].1))
  {
  }

  /** The walk through the entry at position `j`, which is not a token, goes on below it. */
  lemma ReachBelow(v: Json, prefix: string, j: nat, rest: seq<nat>)
    requires IsObjectLike(v) && j < |Entries(v)| && rest != [] && !IsToken(Entries(v)[j].1)
    ensures Reach(v, prefix, [j] + rest) == Reach(Entries(v)[j].1, ChildPath(prefix, Entries(v)[j].0), rest)
  {
    assert ([j] + rest)[1..] == rest;
  }

  /** A token entry lists at most its own `TokenInfo`. */
  lemma EntryTokensOfToken(path: string, key: string, val: Json, params: ListParams, e: TokenInfo)
    requires IsToken(val) && e in EntryTokens(path, key, val, params)
    ensures Listed(Hit(path, key, val), params) && e == InfoOf(Hit(path, key, val))
  {
  }

  /** Every token listed is one the walk reaches, with the path, value and
      captures of that token. */
  lemma {:induction false} TokensSound(v: Json, prefix: string, params: ListParams, e: TokenInfo)
    requires e in Tokens(v, prefix, params)
    ensures exists idx :: (Reach(v, prefix, idx).Some? && Listed(Reach(v, prefix, idx).value, params)
      && e == InfoOf(Reach(v, prefix, idx).value))
    decreases v, 1
  {
    assert IsObjectLike(v);
    var n := |Entries(v)|;
    var rows := (m: nat) => if IsObjectLike(v) && m <= |Entries(v)| then TokensUpTo(v, prefix, params, m) else [];
    var entry := (m: nat) => if IsObjectLike(v) && m < |Entries(v)| then EntryTokens(ChildPath(prefix, Entries(v)[m].0), Entries(v)[m].0, Entries(v)[m].1, params) else [];
    TokensUpToSteps(v, prefix, params);
    var j := SnocFind(rows, entry, n, e);
    var idx := EntrySound(v, prefix, params, j, e);
  }

  /** A token listed by the entry at position `j` is one the walk reaches. */
  lemma {:induction false} EntrySound(v: Json, prefix: string, params: ListParams, j: nat, e: TokenInfo)
    returns (idx: seq<nat>)
    requires IsObjectLike(v) && j < |Entries(v)|
    requires e in EntryTokens(ChildPath(prefix, Entries(v)[j].0), Entries(v)[j].0, Entries(v)[j].1, params)
    ensures Reach(v, prefix, idx).Some? && Listed(Reach(v, prefix, idx).value, params)
      && e == InfoOf(Reach(v, prefix, idx).value)
    decreases v, 0, 1
  {
    var key, val := Entries(v)[j].0, Entries(v)[j].1;
    if IsToken(val) {
      EntryTokensOfToken(ChildPath(prefix, key), key, val, params, e);
      idx := [j];
      ReachOne(v, prefix, j);
    } else {
      idx := BelowSound(v, prefix, params, j, e);
    }
  }

  /** A token listed below a nested entry is reached through that entry. */
  lemma {:induction false} BelowSound(v: Json, prefix: string, params: ListParams, j: nat, e: TokenInfo)
    returns (idx: seq<nat>)
    requires IsObjectLike(v) && j < |Entries(v)| && !IsToken(Entries(v)[j].1)
    requires e in EntryTokens(ChildPath(prefix, Entries(v)[j].0), Entries(v)[j].0, Entries(v)[j].1, params)
    ensures Reach(v, prefix, idx).Some? && Listed(Reach(v, prefix, idx).value, params)
      && e == InfoOf(Reach(v, prefix, idx).value)
    decreases v, 0, 0
  {
    EntryBelow(v, j);
    var key, val := Entries(v)[j].0, Entries(v)[j].1;
    var path := ChildPath(prefix, key);
    assert IsObjectLike(val) && e in Tokens(val, path, params);
    TokensSound(val, path, params, e);
    var rest :| Reach(val, path, rest).Some? && Listed(Reach(val, path, rest).value, params)
      && e == InfoOf(Reach(val, path, rest).value);
    ReachBelow(v, prefix, j, rest);
    idx := [j] + rest;
  }

  /** Every token the walk reaches whose key matches and passes the filters is listed. */
  lemma {:induction false} TokensComplete(v: Json, prefix: string, params: ListParams, idx: seq<nat>)
    requires Reach(v, prefix, idx).Some? && Listed(Reach(v, prefix, idx).value, params)
    ensures InfoOf(Reach(v, prefix, idx).value) in Tokens(v, prefix, params)
    decreases v, 1
  {
    var j := idx[0];
    EntryBelow(v, j);
    var key, val := Entries(v)[j].0, Entries(v)[j].1;
    var path := ChildPath(prefix, key);
    var h := Reach(v, prefix, idx).value;
    if |idx| > 1 {
      assert [j] + idx[1..] == idx;
      ReachBelow(v, prefix, j, idx[1..]);
      TokensComplete(val, path, params, idx[1..]);
      assert IsObjectLike(val) && !IsToken(val);
      assert EntryTokens(path, key, val, params) == Tokens(val, path, params);
    } else {
      assert idx == [j];
      ReachOne(v, prefix, j);
      assert h == Hit(path, key, val);
      assert EntryTokens(path, key, val, params) == [InfoOf(h)];
    }
    EntryListed(v, prefix, params, j, InfoOf(h));
  }

  /** What an entry lists is listed for the whole value. */
  lemma EntryListed(v: Json, prefix: string, params: ListParams, j: nat, e: TokenInfo)
    requires IsObjectLike(v) && j < |Entries(v)|
    requires e in EntryTokens(ChildPath(prefix, Entries(v)[j].0), Entries(v)[j].0, Entries(v)[j].1, params)
    ensures e in Tokens(v, prefix, params)
  {
    var rows := (m: nat) => if IsObjectLike(v) && m <= |Entries(v)| then TokensUpTo(v, prefix, params, m) else [];
    var entry := (m: nat) => if IsObjectLike(v) && m < |Entries(v)| then EntryTokens(ChildPath(prefix, Entries(v)[m].0), Entries(v)[m].0, Entries(v)[m].1, params) else [];
    TokensUpToSteps(v, prefix, params);
    SnocHas(rows, entry, j, |Entries(v)|, e);
  }

  /** Each entry appends its own tokens to those of the entries before it. */
  lemma TokensUpToSteps(v: Json, prefix: string, params: ListParams)
    requires IsObjectLike(v)
    ensures forall m :: 0 < m <= |Entries(v)| ==> (TokensUpTo(v, prefix, params, m) == TokensUpTo(v, prefix, params, m - 1)
      + EntryTokens(ChildPath(prefix, Entries(v)[m - 1].0), Entries(v)[m - 1].0, Entries(v)[m - 1].1, params))
  {
    forall m | 0 < m <= |Entries(v)|
      ensures TokensUpTo(v, prefix, params, m) == TokensUpTo(v, prefix, params, m - 1)
        + EntryTokens(ChildPath(prefix, Entries(v)[m - 1].0), Entries(v)[m - 1].0, Entries(v)[m - 1].1, params)
    {
      TokensUpToStep(v, prefix, params, m);
    }
  }

  lemma TokensUpToStep(v: Json, prefix: string, params: ListParams, m: nat)
    requires IsObjectLike(v) && 0 < m <= |Entries(v)|
    ensures TokensUpTo(v, prefix, params, m) == TokensUpTo(v, prefix, params, m - 1)
      + EntryTokens(ChildPath(prefix, Entries(v)[m - 1].0), Entries(v)[m - 1].0, Entries(v)[m - 1].1, params)
  {
  }

  /** An element of the last of a table of rows built by appending came from
      one of the appended pieces. */
  lemma {:induction false} SnocFind<T>(rows: nat -> seq<T>, entry: nat -> seq<T>, n: nat, x: T) returns (j: nat)
    requires rows(0) == []
    requires forall m :: 0 < m <= n ==> rows(m) == rows(m - 1) + entry(m - 1)
    requires x in rows(n)
    ensures j < n && x in entry(j)
  {
    if n == 0 {
      assert false;
    } else if x in rows(n - 1) {
      j := SnocFind(rows, entry, n - 1, x);
    } else {
      InEither(rows(n - 1), entry(n - 1), x);
      j := n - 1;
    }
  }

  /** Every element of an appended piece is in the last row. */
  lemma {:induction false} SnocHas<T>(rows: nat -> seq<T>, entry: nat -> seq<T>, j: nat, n: nat, x: T)
    requires j < n && x in entry(j)
    requires forall m :: 0 < m <= n ==> rows(m) == rows(m - 1) + entry(m - 1)
    ensures x in rows(n)
  {
    if j == n - 1 {
      InAppend(rows(n - 1), entry(n - 1), x);
    } else {
      SnocHas(rows, entry, j, n - 1, x);
      var k :| 0 <= k < |rows(n - 1)| && rows(n - 1)[k] == x;
      assert rows(n)[k] == x;
    }
  }

  lemma InAppend<T>(a: seq<T>, b: seq<T>, x: T)
    requires x in b
    ensures x in a + b
  {
    var k :| 0 <= k < |b| && b[k] == x;
    assert (a + b)[|a| + k] == x;
  }

  lemma InEither<T>(a: seq<T>, b: seq<T>, x: T)
    requires x in a + b && x !in a
    ensures x in b
  {
    var k :| 0 <= k < |a + b| && (a + b)[k] == x;
    if k < |a| {
      assert a[k] == x;
    } else {
      assert b[k - |a|] == x;
    }
  }

  /** A token two levels below `p`, under keys without dots, is grouped
      under `p`: the group is the domain and the name. */
  lemma GroupKeyOf(p: string, f: string, key: string)
    requires '.' !in f && '.' !in key
    ensures GroupKey(ChildPath(ChildPath(p, f), key)) == p
  {
    SplitWithoutSeparator(f, '.');
    SplitWithoutSeparator(key, '.');
    if p == "" && f == "" {
      assert ChildPath(ChildPath(p, f), key) == key;
    } else if p == "" {
      assert ChildPath(ChildPath(p, f), key) == f + ['.'] + key;
      SplitAppend(f, key, '.');
    } else {
      var path := ChildPath(ChildPath(p, f), key);
      assert path == (p + ['.'] + f) + ['.'] + key;
      SplitAppend(p + ['.'] + f, key, '.');
      SplitAppend(p, f, '.');
      var parts := Split(path, '.');
      assert parts == Split(p, '.') + [f] + [key];
      assert parts[..|parts| - 2] == Split(p, '.');
      JoinSplit(p, '.');
    }
  }

  // ---------------------------------------------------------------------
  // the handler
  // ---------------------------------------------------------------------

  /** What `list` returns for the Language document `data`. */
  function ListOf(data: Json, params: ListParams): ListResponse
  {
    var prefix := if params.domain.Some? then params.domain.value else "";
    if !Active(params.domain) then ListResponse(ExtractEntries(data, prefix, params))
    else
      match At(data, Split(params.domain.value, '.'))
      case None => ListResponse([])
      case Some(root) => ListResponse(ExtractEntries(root, prefix, params))
  }

  /** A walk that meets a value that is not an object or an array before the
      end of its path finds nothing. */
  lemma AtThroughScalar(v: Json, path: seq<string>)
    requires path != [] && !IsObjectLike(v)
    ensures At(v, path) == None
  {
  }

  /** One more step of the domain walk. */
  lemma AtStep(data: Json, parts: seq<string>, i: nat)
    requires i < |parts| && At(data, parts[..i]).Some? && IsObjectLike(At(data, parts[..i]).value)
    ensures At(data, parts[..i + 1]) == Property(At(data, parts[..i]).value, parts[i])
  {
    assert parts[..i + 1] == parts[..i] + [parts[i]];
    AtAppend(data, parts[..i], [parts[i]]);
  }

  /** The domain walk stops: the rest of the path cannot be walked from here. */
  lemma AtStops(data: Json, parts: seq<string>, i: nat)
    requires i < |parts|
    requires At(data, parts[..i]).None? || !IsObjectLike(At(data, parts[..i]).value)
    ensures At(data, parts) == None
  {
    assert parts == parts[..i] + parts[i..];
    AtAppend(data, parts[..i], parts[i..]);
    if At(data, parts[..i]).Some? {
      AtThroughScalar(At(data, parts[..i]).value, parts[i..]);
    }
  }

  /** The handler body; `data` is what `readTokenFile` returns for the
      Language file. `searchRoot` is `None` once it is `undefined`. */
  method List(data: Json, params: ListParams) returns (r: ListResponse)
    ensures r == ListOf(data, params)
  {
    var searchRoot: Option<Json> := Some(data);
    if Active(params.domain) {
      var parts := Split(params.domain.value, '.');
      for i := 0 to |parts|
        invariant searchRoot == At(data, parts[..i])
      {
        if searchRoot.Some? && IsObjectLike(searchRoot.value) {
          AtStep(data, parts, i);
          searchRoot := Property(searchRoot.value, parts[i]);
        } else {
          AtStops(data, parts, i);
          return ListResponse([]);
        }
      }
      assert parts[..|parts|] == parts;
    }
    var prefix := if params.domain.Some? then params.domain.value else "";
    var entries: Groups := [];
    if searchRoot.Some? {
      entries := ExtractEntriesLoop(searchRoot.value, prefix, params);
    }
    return ListResponse(entries);
  }
}

/** What the `list` handler finds among the Language tokens the builder writes. */
module TokenListBuilt {
  import opened Wrappers
  import opened Strings
  import opened Paths
  import opened Constants
  import opened Assoc
  import opened Json
  import opened Types
  import opened TokenBuilder
  import opened TokenList
  import Preview

  lemma ToneAbbrIsWord(i: nat)
    requires i < |TONES|
    ensures IsWord(TONES[i].abbr)
  {
  }

  lemma TypeAbbrIsWord(j: nat)
    requires j < |TYPES|
    ensures IsWord(TYPES[j].abbr)
  {
  }

  lemma ToneFullHasNoDot(i: nat)
    requires i < |TONES|
    ensures '.' !in TONES[i].full
  {
  }

  /** The key of a Language token matches, with the tone and type
      abbreviations as captures. */
  lemma LangKeyMatches(i: nat, j: nat, name: string)
    requires i < |TONES| && j < |TYPES| && IsLine(name)
    ensures MatchLangKey(LangKey(TONES[i], TYPES[j], name)) == Some(KeyMatch(TONES[i].abbr, TYPES[j].abbr, name))
  {
    ToneAbbrIsWord(i);
    TypeAbbrIsWord(j);
    MatchComplete(LangKey(TONES[i], TYPES[j], name), KeyMatch(TONES[i].abbr, TYPES[j].abbr, name));
  }

  /** The path of a Language token, for a name without dots, is grouped under
      `domain.name`. */
  lemma LangPathGroup(domain: string, name: string, i: nat, j: nat)
    requires i < |TONES| && j < |TYPES| && '.' !in name
    ensures GroupKey(LangPath(domain, name, TONES[i], TYPES[j])) == domain + "." + name
  {
    var key := LangKey(TONES[i], TYPES[j], name);
    ToneAbbrIsWord(i);
    TypeAbbrIsWord(j);
    WordHasNoDot(TONES[i].abbr);
    WordHasNoDot(TYPES[j].abbr);
    KeyHasNoDot(TONES[i].abbr, TYPES[j].abbr, name);
    ToneFullHasNoDot(i);
    var p := domain + "." + name;
    TwoBelow(p, TONES[i].full, key);
    GroupKeyOf(p, TONES[i].full, key);
  }

  lemma WordHasNoDot(s: string)
    requires IsWord(s)
    ensures '.' !in s
  {
    assert forall k :: 0 <= k < |s| ==> s[k] != '.';
  }

  lemma KeyHasNoDot(a: string, b: string, name: string)
    requires '.' !in a && '.' !in b && '.' !in name
    ensures '.' !in "lang--" + a + "--" + b + "--" + name
  {
  }

  lemma TwoBelow(p: string, f: string, key: string)
    requires p != ""
    ensures p + "." + f + "." + key == ChildPath(ChildPath(p, f), key)
  {
  }

  // ---------------------------------------------------------------------
  // listing the Language tree, without filters
  // ---------------------------------------------------------------------

  /** The list parameters of a request without `domain`, `tone` or `type`. */
  const NoFilters := ListParams(None, None, None)

  /** What the list reports for the Language token of tone i and type j. */
  function LangInfo(d: string, n: string, c: ContentMatrix, i: nat, j: nat): TokenInfo
    requires i < |TONES| && j < |TYPES|
  {
    TokenInfo(LangPath(d, n, TONES[i], TYPES[j]), FieldAt(ToneAt(c, i), j), TONES[i].abbr, TYPES[j].abbr)
  }

  /** The same, for the token two levels below the path `p` of the name group. */
  function InfoBelow(p: string, n: string, c: ContentMatrix, i: nat, j: nat): TokenInfo
    requires i < |TONES| && j < |TYPES|
  {
    TokenInfo(ChildPath(ChildPath(p, TONES[i].full), LangKey(TONES[i], TYPES[j], n)), FieldAt(ToneAt(c, i), j),
              TONES[i].abbr, TYPES[j].abbr)
  }

  /** The infos of the first `m` types of tone i, in type order. */
  function ToneInfosUpTo(p: string, n: string, c: ContentMatrix, i: nat, m: nat): seq<TokenInfo>
    requires i < |TONES| && m <= |TYPES|
  {
    if m == 0 then [] else ToneInfosUpTo(p, n, c, i, m - 1) + [InfoBelow(p, n, c, i, m - 1)]
  }

  /** The infos of the first `m` tones, tone after tone, six per tone. */
  function InfosUpTo(p: string, n: string, c: ContentMatrix, m: nat): seq<TokenInfo>
    requires m <= |TONES|
  {
    if m == 0 then [] else InfosUpTo(p, n, c, m - 1) + ToneInfosUpTo(p, n, c, m - 1, |TYPES|)
  }

  lemma ToneInfosAt(p: string, n: string, c: ContentMatrix, i: nat)
    requires i < |TONES|
    ensures var r := ToneInfosUpTo(p, n, c, i, |TYPES|);
      |r| == 6 && forall j :: 0 <= j < 6 ==> r[j] == InfoBelow(p, n, c, i, j)
  {
    var rows := (m: nat) => if m <= |TYPES| then ToneInfosUpTo(p, n, c, i, m) else [];
    var entry := (m: nat) => if m < |TYPES| then InfoBelow(p, n, c, i, m) else InfoBelow(p, n, c, i, 0);
    Preview.SnocTableAt(rows, entry, |TYPES|);
  }

  /** Info j of tone i sits at position 6i + j. */
  lemma {:induction false} InfosAt(p: string, n: string, c: ContentMatrix, m: nat)
    requires m <= |TONES|
    ensures |InfosUpTo(p, n, c, m)| == 6 * m
    ensures forall i, j :: 0 <= i < m && 0 <= j < 6 ==> InfosUpTo(p, n, c, m)[6 * i + j] == InfoBelow(p, n, c, i, j)
  {
    if m > 0 {
      InfosAt(p, n, c, m - 1);
      ToneInfosAt(p, n, c, m - 1);
      var front, last := InfosUpTo(p, n, c, m - 1), ToneInfosUpTo(p, n, c, m - 1, |TYPES|);
      assert InfosUpTo(p, n, c, m) == front + last;
      forall i, j | 0 <= i < m && 0 <= j < 6 ensures InfosUpTo(p, n, c, m)[6 * i + j] == InfoBelow(p, n, c, i, j) {
        if i < m - 1 {
          assert 6 * i + j < 6 * (m - 1);
          assert InfosUpTo(p, n, c, m)[6 * i + j] == front[6 * i + j];
        } else {
          assert 6 * i + j == 6 * (m - 1) + j;
          assert InfosUpTo(p, n, c, m)[6 * i + j] == last[j];
        }
      }
    }
  }

  /** The walk through the wrapper chain of `setNested` lists the tokens of the
      inner object below the path of the chain. */
  lemma {:induction false} TokensNested(parts: seq<string>, v: Json, prefix: string, params: ListParams)
    requires v.JObj? && !IsToken(v) && Preview.PlainNest(parts)
    ensures Tokens(Nested(parts, v), prefix, params) == Tokens(v, FoldPath(prefix, parts), params)
    decreases |parts|
  {
    if parts != [] {
      var w := Nested(parts[1..], v);
      var path := ChildPath(prefix, parts[0]);
      if parts[1..] != [] {
        assert Keys(w.members) == [parts[1]];
      }
      var top := Nested(parts, v);
      assert Entries(top) == [(parts[0], w)];
      assert w.JObj? && !IsToken(w);
      TokensUpToStep(top, prefix, params, 1);
      assert Tokens(top, prefix, params) == [] + Tokens(w, path, params);
      TokensNested(parts[1..], v, path, params);
    }
  }

  /** A Language token is listed with its path, its cell and its captures. */
  lemma LangEntryTokens(d: string, n: string, c: ContentMatrix, p: string, i: nat, j: nat)
    requires i < |TONES| && j < |TYPES| && IsLine(n)
    ensures var key := LangKey(TONES[i], TYPES[j], n);
      EntryTokens(ChildPath(ChildPath(p, TONES[i].full), key), key, TokenJson(LangToken(d, n, c, i, j)), NoFilters)
        == [InfoBelow(p, n, c, i, j)]
  {
    var key := LangKey(TONES[i], TYPES[j], n);
    Preview.TokenJsonRead(LangToken(d, n, c, i, j));
    CellOfRegistries(c, i, j);
    LangKeyMatches(i, j, n);
  }

  /** One step of the walk, given the entry it meets and that entry's tokens. */
  lemma TokensUpToWith(v: Json, prefix: string, params: ListParams, m: nat, key: string, val: Json, rest: seq<TokenInfo>)
    requires IsObjectLike(v) && 0 < m <= |Entries(v)| && Entries(v)[m - 1] == (key, val)
    requires EntryTokens(ChildPath(prefix, key), key, val, params) == rest
    ensures TokensUpTo(v, prefix, params, m) == TokensUpTo(v, prefix, params, m - 1) + rest
  {
    TokensUpToStep(v, prefix, params, m);
  }

  /** The walk through the first `m` types of tone i lists them in type order. */
  ghost predicate ToneListed(d: string, n: string, c: ContentMatrix, p: string, i: nat, m: nat)
    requires i < |TONES| && m <= |TYPES|
  {
    TokensUpTo(JObj(ToneGroup(d, n, c, i)), ChildPath(p, TONES[i].full), NoFilters, m) == ToneInfosUpTo(p, n, c, i, m)
  }

  /** The walk through the first `m` tones lists them tone after tone. */
  ghost predicate NameListed(d: string, n: string, c: ContentMatrix, p: string, m: nat)
    requires m <= |TONES|
  {
    TokensUpTo(JObj(NameGroup(d, n, c)), p, NoFilters, m) == InfosUpTo(p, n, c, m)
  }

  /** The walk through tone i's group meets its six types in order. */
  lemma ToneTokensUpTo(d: string, n: string, c: ContentMatrix, p: string, i: nat)
    requires i < |TONES| && IsLine(n)
    ensures ToneListed(d, n, c, p, i, |TYPES|)
  {
    ToneTokensZero(d, n, c, p, i);
    ToneTokensStep(d, n, c, p, i, 1);
    ToneTokensStep(d, n, c, p, i, 2);
    ToneTokensStep(d, n, c, p, i, 3);
    ToneTokensStep(d, n, c, p, i, 4);
    ToneTokensStep(d, n, c, p, i, 5);
    ToneTokensStep(d, n, c, p, i, 6);
  }

  lemma ToneTokensZero(d: string, n: string, c: ContentMatrix, p: string, i: nat)
    requires i < |TONES|
    ensures ToneListed(d, n, c, p, i, 0)
  {
  }

  lemma ToneTokensStep(d: string, n: string, c: ContentMatrix, p: string, i: nat, m: nat)
    requires i < |TONES| && 0 < m <= |TYPES| && IsLine(n)
    requires ToneListed(d, n, c, p, i, m - 1)
    ensures ToneListed(d, n, c, p, i, m)
  {
    var v, path := JObj(ToneGroup(d, n, c, i)), ChildPath(p, TONES[i].full);
    var key := LangKey(TONES[i], TYPES[m - 1], n);
    LangEntryTokens(d, n, c, p, i, m - 1);
    TokensUpToWith(v, path, NoFilters, m, key, TokenJson(LangToken(d, n, c, i, m - 1)), [InfoBelow(p, n, c, i, m - 1)]);
  }

  /** The walk through the name group meets its six tones in order. */
  lemma NameTokensUpTo(d: string, n: string, c: ContentMatrix, p: string)
    requires IsLine(n)
    ensures NameListed(d, n, c, p, |TONES|)
  {
    NameTokensZero(d, n, c, p);
    NameTokensStep(d, n, c, p, 1);
    NameTokensStep(d, n, c, p, 2);
    NameTokensStep(d, n, c, p, 3);
    NameTokensStep(d, n, c, p, 4);
    NameTokensStep(d, n, c, p, 5);
    NameTokensStep(d, n, c, p, 6);
  }

  lemma NameTokensZero(d: string, n: string, c: ContentMatrix, p: string)
    ensures NameListed(d, n, c, p, 0)
  {
  }

  lemma NameTokensStep(d: string, n: string, c: ContentMatrix, p: string, m: nat)
    requires 0 < m <= |TONES| && IsLine(n)
    requires NameListed(d, n, c, p, m - 1)
    ensures NameListed(d, n, c, p, m)
  {
    var v := JObj(NameGroup(d, n, c));
    ToneGroupTokens(d, n, c, p, m - 1);
    TokensUpToWith(v, p, NoFilters, m, TONES[m - 1].full, JObj(ToneGroup(d, n, c, m - 1)), ToneInfosUpTo(p, n, c, m - 1, |TYPES|));
  }

  /** The group of tone i lists its six tokens in type order. */
  lemma ToneGroupTokens(d: string, n: string, c: ContentMatrix, p: string, i: nat)
    requires i < |TONES| && IsLine(n)
    ensures EntryTokens(ChildPath(p, TONES[i].full), TONES[i].full, JObj(ToneGroup(d, n, c, i)), NoFilters)
      == ToneInfosUpTo(p, n, c, i, |TYPES|)
  {
    var tg := JObj(ToneGroup(d, n, c, i));
    Preview.ToneGroupIsTokens(d, n, c, i);
    assert !IsToken(tg) && IsObjectLike(tg);
    ToneTokensUpTo(d, n, c, p, i);
  }

  /** Every token of the Language tree lies in the group `p`. */
  lemma InfoInGroup(p: string, n: string, c: ContentMatrix, i: nat, j: nat)
    requires '.' !in n && i < |TONES| && j < |TYPES|
    ensures PathGroup(InfoBelow(p, n, c, i, j)) == p
  {
    ToneAbbrIsWord(i);
    TypeAbbrIsWord(j);
    WordHasNoDot(TONES[i].abbr);
    WordHasNoDot(TYPES[j].abbr);
    KeyHasNoDot(TONES[i].abbr, TYPES[j].abbr, n);
    ToneFullHasNoDot(i);
    GroupKeyOf(p, TONES[i].full, LangKey(TONES[i], TYPES[j], n));
  }

  lemma InfosInGroup(p: string, n: string, c: ContentMatrix)
    requires '.' !in n
    ensures forall k :: 0 <= k < |InfosUpTo(p, n, c, |TONES|)| ==> PathGroup(InfosUpTo(p, n, c, |TONES|)[k]) == p
  {
    var infos := InfosUpTo(p, n, c, |TONES|);
    InfosAt(p, n, c, |TONES|);
    forall k | 0 <= k < |infos| ensures PathGroup(infos[k]) == p {
      var i, j := k / 6, k % 6;
      assert k == 6 * i + j;
      InfoInGroup(p, n, c, i, j);
    }
  }

  /** The walk lists the Language tree's tokens, tone after tone, below `domain.name`. */
  lemma BuiltTokens(d: string, n: string, c: ContentMatrix)
    requires Preview.PlainNest(NestPath(d, n)) && Split(d, '.')[0] != "" && IsLine(n)
    ensures Tokens(LanguageTree(d, n, c), "", NoFilters) == InfosUpTo(d + "." + n, n, c, |TONES|)
  {
    var ng := NameGroup(d, n, c);
    Preview.EntryPath(d, n);
    Preview.NameGroupIsGroups(d, n, c);
    assert "$type" !in Keys(ng);
    TokensNested(NestPath(d, n), JObj(ng), "", NoFilters);
    NameTokensUpTo(d, n, c, d + "." + n);
  }

  /** A list whose walk's tokens all lie in one group has that one group, holding them all. */
  lemma ListOneGroup(data: Json, infos: seq<TokenInfo>, p: string)
    requires Tokens(data, "", NoFilters) == infos && infos != []
    requires forall k :: 0 <= k < |infos| ==> PathGroup(infos[k]) == p
    ensures Lookup(ListOf(data, NoFilters).entries, p) == Some(infos)
    ensures forall g :: g != p ==> Lookup(ListOf(data, NoFilters).entries, g).None?
  {
    var entries := ListOf(data, NoFilters).entries;
    assert entries == ExtractEntries(data, "", NoFilters);
    ExtractGroups(data, "", NoFilters);
    SelectAll(infos, PathGroup, p);
    assert Lookup(entries, p) == GroupList(infos, p);
    forall g | g != p ensures Lookup(entries, g).None? {
      SelectNone(infos, PathGroup, g);
      assert Lookup(entries, g) == GroupList(infos, g);
    }
  }

  /** Selecting by a key every element has keeps them all. */
  lemma {:induction false} SelectAll<T>(xs: seq<T>, key: T -> string, g: string)
    requires forall k :: 0 <= k < |xs| ==> key(xs[k]) == g
    ensures Select(xs, key, g) == xs
    decreases |xs|
  {
    if xs != [] {
      SelectAll(xs[..|xs| - 1], key, g);
    }
  }

  /** Selecting by a key no element has keeps none. */
  lemma {:induction false} SelectNone<T>(xs: seq<T>, key: T -> string, g: string)
    requires forall k :: 0 <= k < |xs| ==> key(xs[k]) != g
    ensures Select(xs, key, g) == []
    decreases |xs|
  {
    if xs != [] {
      SelectNone(xs[..|xs| - 1], key, g);
    }
  }

  /** Listing the Language file right after the builder wrote it, without
      filters: the list has the one group `domain.name`, and it holds the 36
      Language tokens, tone after tone and within a tone type after type, each
      with its path, its cell and the tone and type abbreviations. */
  lemma ListBuiltLanguage(d: string, n: string, c: ContentMatrix)
    requires Preview.PlainNest(NestPath(d, n)) && Split(d, '.')[0] != "" && '.' !in n && IsLine(n)
    ensures var entries := ListOf(LanguageTree(d, n, c), NoFilters).entries;
      && Lookup(entries, d + "." + n).Some?
      && |Lookup(entries, d + "." + n).value| == 36
      && (forall i, j :: 0 <= i < |TONES| && 0 <= j < |TYPES| ==>
            Lookup(entries, d + "." + n).value[6 * i + j] == LangInfo(d, n, c, i, j))
      && (forall g :: g != d + "." + n ==> Lookup(entries, g).None?)
  {
    var p := d + "." + n;
    var infos := InfosUpTo(p, n, c, |TONES|);
    BuiltTokens(d, n, c);
    InfosInGroup(p, n, c);
    InfosAt(p, n, c, |TONES|);
    ListOneGroup(LanguageTree(d, n, c), infos, p);
    BuiltInfos(d, n, c);
  }

  /** The 36 listed entries, in tone-major order, are the builder's tokens. */
  lemma BuiltInfos(d: string, n: string, c: ContentMatrix)
    ensures var infos := InfosUpTo(d + "." + n, n, c, |TONES|);
      && |infos| == 36
      && forall i, j :: 0 <= i < |TONES| && 0 <= j < |TYPES| ==> infos[6 * i + j] == LangInfo(d, n, c, i, j)
  {
    var infos := InfosUpTo(d + "." + n, n, c, |TONES|);
    InfosAt(d + "." + n, n, c, |TONES|);
    forall i, j | 0 <= i < |TONES| && 0 <= j < |TYPES| ensures infos[6 * i + j] == LangInfo(d, n, c, i, j) {
      InfoBelowIsLang(d, n, c, i, j);
    }
  }

  /** Below `domain.name`, the path of the walk is the builder's token path. */
  lemma InfoBelowIsLang(d: string, n: string, c: ContentMatrix, i: nat, j: nat)
    requires i < |TONES| && j < |TYPES|
    ensures InfoBelow(d + "." + n, n, c, i, j) == LangInfo(d, n, c, i, j)
  {
    var p, f, k := d + "." + n, TONES[i].full, LangKey(TONES[i], TYPES[j], n);
    assert p != "";
    assert ChildPath(p, f) == p + "." + f;
    assert ChildPath(p, f) != "";
    assert ChildPath(ChildPath(p, f), k) == LangPath(d, n, TONES[i], TYPES[j]);
  }
}
