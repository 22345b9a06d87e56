/** The token-matrix builder (packages/core/src/token-builder.ts). For one
    content entry (domain, name, 6 x 6 matrix) it builds three kinds of trees:
    the Language tree with 36 text tokens, one per (tone, type); a Type tree per
    type with 6 tokens that reference Language tokens; and a Tone tree per tone
    with 1 token referencing Type tokens. Each tree is wrapped under the path
    `domain.split(".") ++ [name]`. The random reference keys are parameters. */
module TokenBuilder {
  import opened Wrappers
  import opened Strings
  import opened Assoc
  import opened Json
  import opened CodeSyntax
  import opened Constants
  import opened Types

  // ---------------------------------------------------------------------
  // keys, paths and references
  // ---------------------------------------------------------------------

  /** `lang--${tone.abbr}--${type.abbr}--${name}` */
  function LangKey(tone: Definition, ty: Definition, name: string): string
  {
    "lang--" + tone.abbr + "--" + ty.abbr + "--" + name
  }

  /** `${domain}.${name}.${tone.full}.${tokenName}`: the path of a Language token. */
  function LangPath(domain: string, name: string, tone: Definition, ty: Definition): string
  {
    domain + "." + name + "." + tone.full + "." + LangKey(tone, ty, name)
  }

  /** `type--${toneAbbr}--${name}` */
  function TypeKey(toneAbbr: string, name: string): string
  {
    "type--" + toneAbbr + "--" + name
  }

  /** `${domain}.${name}.${tokenName}`: the path of a Type token. */
  function TypePath(domain: string, name: string, toneAbbr: string): string
  {
    domain + "." + name + "." + TypeKey(toneAbbr, name)
  }

  /** `tone--${name}` */
  function ToneKey(name: string): string
  {
    "tone--" + name
  }

  function TonePath(domain: string, name: string): string
  {
    domain + "." + name + "." + ToneKey(name)
  }

  /** A Figma alias: the referenced path in braces. */
  function Reference(path: string): string
  {
    "{" + path + "}"
  }

  /** The path inside an alias, if the string is one. */
  function Dereference(s: string): (r: Option<string>)
    ensures r.Some? ==> s == Reference(r.value)
  {
    if |s| >= 2 && s[0] == '{' && s[|s| - 1] == '}' then
      assert s == "{" + s[1..|s| - 1] + "}";
      Some(s[1..|s| - 1])
    else None
  }

  lemma DereferenceReference(path: string)
    ensures Dereference(Reference(path)) == Some(path)
  {
    var s := Reference(path);
    assert s[1..|s| - 1] == path;
  }

  /** The object path `setNested` wraps a tree in. */
  function NestPath(domain: string, name: string): (p: seq<string>)
    ensures |p| >= 2
  {
    Split(domain, '.') + [name]
  }

  /** Joining the nest path and one more key with dots gives the dotted path. */
  lemma NestJoin1(domain: string, name: string, k: string)
    ensures Join(NestPath(domain, name) + [k], ".") == domain + "." + name + "." + k
  {
    var ds := Split(domain, '.');
    assert NestPath(domain, name) + [k] == ds + [name, k];
    JoinAppend(ds, [name, k], ".");
    JoinSplit(domain, '.');
    assert Join([name, k], ".") == name + "." + k;
  }

  /** Joining the nest path and two more keys with dots gives the dotted path. */
  lemma NestJoin2(domain: string, name: string, f: string, k: string)
    ensures Join(NestPath(domain, name) + [f, k], ".") == domain + "." + name + "." + f + "." + k
  {
    var ds := Split(domain, '.');
    assert NestPath(domain, name) + [f, k] == ds + [name, f, k];
    JoinAppend(ds, [name, f, k], ".");
    JoinSplit(domain, '.');
    assert [name, f, k][1..] == [f, k];
    assert Join([f, k], ".") == f + "." + k;
    assert Join([name, f, k], ".") == name + "." + (f + "." + k);
  }

  /** Splitting a dotted path whose last piece holds no dot. */
  lemma SplitLast(prefix: string, k: string)
    requires '.' !in k
    ensures Split(prefix + "." + k, '.') == Split(prefix, '.') + [k]
  {
    assert prefix + "." + k == prefix + ['.'] + k;
    SplitAppend(prefix, k, '.');
    SplitWithoutSeparator(k, '.');
  }

  /** Splitting the path of a token one level below the entry. */
  lemma SplitNest1(domain: string, name: string, k: string)
    requires '.' !in name && '.' !in k
    ensures Split(domain + "." + name + "." + k, '.') == NestPath(domain, name) + [k]
  {
    SplitLast(domain, name);
    SplitLast(domain + "." + name, k);
  }

  /** Splitting the path of a token two levels below the entry. */
  lemma SplitNest2(domain: string, name: string, f: string, k: string)
    requires '.' !in name && '.' !in f && '.' !in k
    ensures Split(domain + "." + name + "." + f + "." + k, '.') == NestPath(domain, name) + [f, k]
  {
    SplitNest1(domain, name, f);
    SplitLast(domain + "." + name + "." + f, k);
    assert NestPath(domain, name) + [f] + [k] == NestPath(domain, name) + [f, k];
  }

  // ---------------------------------------------------------------------
  // setNested
  // ---------------------------------------------------------------------

  /** `value` under the chain of single-key objects named by `parts`. */
  function Nested(parts: seq<string>, value: Json): (r: Json)
    ensures parts != [] ==> r.JObj? && |r.members| == 1
    decreases |parts|
  {
    if parts == [] then value else JObj([(parts[0], Nested(parts[1..], value))])
  }

  /** `setNested(domain, name, value)`. The source walks a pointer down through
      fresh objects; the objects are values here, so the chain is built from the
      innermost object outwards, which yields the same tree. */
  method SetNested(domain: string, name: string, value: Json) returns (r: Json)
    ensures r == Nested(NestPath(domain, name), value)
  {
    var parts := Split(domain, '.') + [name];
    r := value;
    var i := |parts|;
    while i > 0
      invariant 0 <= i <= |parts|
      invariant r == Nested(parts[i..], value)
    {
      i := i - 1;
      assert parts[i..][1..] == parts[i + 1..];
      r := JObj([(parts[i], r)]);
    }
  }

  /** Walking `parts` from the root reaches `value`. */
  lemma {:induction false} NestedReaches(parts: seq<string>, value: Json)
    ensures Get(Nested(parts, value), parts) == Some(value)
    decreases |parts|
  {
    if parts != [] {
      NestedReaches(parts[1..], value);
      LookupEntry([(parts[0], Nested(parts[1..], value))], 0);
    }
  }

  /** Every object on the way, the root included, has exactly one key: the next part. */
  lemma {:induction false} NestedSingleKeys(parts: seq<string>, value: Json, k: nat)
    requires k < |parts|
    ensures Get(Nested(parts, value), parts[..k]) == Some(Nested(parts[k..], value))
    ensures Nested(parts[k..], value) == JObj([(parts[k], Nested(parts[k + 1..], value))])
    decreases k
  {
    if k == 0 {
      assert parts[..0] == [] && parts[0..] == parts;
    } else {
      NestedSingleKeys(parts[1..], value, k - 1);
      LookupEntry([(parts[0], Nested(parts[1..], value))], 0);
      assert parts[..k][0] == parts[0] && parts[..k][1..] == parts[1..][..k - 1];
      assert parts[1..][k - 1..] == parts[k..] && parts[1..][k..] == parts[k + 1..];
    }
  }

  /** Walking past the chain continues inside the wrapped value. */
  lemma NestedThen(parts: seq<string>, value: Json, rest: seq<string>)
    ensures Get(Nested(parts, value), parts + rest) == Get(value, rest)
  {
    NestedReaches(parts, value);
    GetAppend(Nested(parts, value), parts, rest);
  }

  lemma {:induction false} NestedWellFormed(parts: seq<string>, value: Json)
    requires WellFormed(value)
    ensures WellFormed(Nested(parts, value))
    decreases |parts|
  {
    if parts != [] {
      NestedWellFormed(parts[1..], value);
    }
  }

  // ---------------------------------------------------------------------
  // the Language tree
  // ---------------------------------------------------------------------

  /** The Language token for tone i and type j. */
  function LangToken(domain: string, name: string, c: ContentMatrix, i: nat, j: nat): TokenValue
    requires i < |TONES| && j < |TYPES|
  {
    CellOfRegistries(c, i, j);
    TokenValue(CellValue(c, TONES[i].full, TYPES[j].full).value, [],
               CodeSyntaxOf(LangPath(domain, name, TONES[i], TYPES[j])), true, None)
  }

  /** `toneTokens` for tone i: one token per type, in `TYPES` order. */
  function ToneGroup(domain: string, name: string, c: ContentMatrix, i: nat): (r: seq<Member>)
    requires i < |TONES|
    ensures |r| == |TYPES|
    ensures forall j :: 0 <= j < |TYPES| ==> r[j] == (LangKey(TONES[i], TYPES[j], name), TokenJson(LangToken(domain, name, c, i, j)))
  {
    seq(|TYPES|, j requires 0 <= j < |TYPES| => (LangKey(TONES[i], TYPES[j], name), TokenJson(LangToken(domain, name, c, i, j))))
  }

  /** `nameGroup`: one group per tone, under its full name, in `TONES` order. */
  function NameGroup(domain: string, name: string, c: ContentMatrix): (r: seq<Member>)
    ensures |r| == |TONES|
    ensures forall i :: 0 <= i < |TONES| ==> r[i] == (TONES[i].full, JObj(ToneGroup(domain, name, c, i)))
  {
    seq(|TONES|, i requires 0 <= i < |TONES| => (TONES[i].full, JObj(ToneGroup(domain, name, c, i))))
  }

  function LanguageTree(domain: string, name: string, c: ContentMatrix): Json
  {
    Nested(NestPath(domain, name), JObj(NameGroup(domain, name, c)))
  }

  /** Cancelling a common prefix and suffix. */
  lemma CancelAround(p: string, x: string, y: string, q: string)
    requires p + x + q == p + y + q
    ensures x == y
  {
    var s := p + x + q;
    assert |x| == |y|;
    assert x == s[|p|..|p| + |x|];
    assert y == (p + y + q)[|p|..|p| + |y|];
  }

  /** Different type abbreviations give different Language keys. */
  lemma LangKeysDistinct(tone: Definition, name: string, a: nat, b: nat)
    requires a < b < |TYPES|
    ensures LangKey(tone, TYPES[a], name) != LangKey(tone, TYPES[b], name)
  {
    TypeNamesDistinct();
    assert Abbrs(TYPES)[a] != Abbrs(TYPES)[b];
    if LangKey(tone, TYPES[a], name) == LangKey(tone, TYPES[b], name) {
      var p := "lang--" + tone.abbr + "--";
      var q := "--" + name;
      assert LangKey(tone, TYPES[a], name) == p + TYPES[a].abbr + q;
      assert LangKey(tone, TYPES[b], name) == p + TYPES[b].abbr + q;
      CancelAround(p, TYPES[a].abbr, TYPES[b].abbr, q);
    }
  }

  lemma ToneGroupDistinct(domain: string, name: string, c: ContentMatrix, i: nat)
    requires i < |TONES|
    ensures DistinctKeys(ToneGroup(domain, name, c, i))
  {
    var g := ToneGroup(domain, name, c, i);
    forall a, b | 0 <= a < b < |g| ensures g[a].0 != g[b].0 {
      LangKeysDistinct(TONES[i], name, a, b);
    }
  }

  lemma NameGroupDistinct(domain: string, name: string, c: ContentMatrix)
    ensures DistinctKeys(NameGroup(domain, name, c))
  {
    var g := NameGroup(domain, name, c);
    ToneNamesDistinct();
    forall a, b | 0 <= a < b < |g| ensures g[a].0 != g[b].0 {
      assert Fulls(TONES)[a] != Fulls(TONES)[b];
    }
  }

  /** Appending the next entry of a list with distinct keys is an assignment of a new key. */
  lemma PutNext(entries: seq<Member>, k: nat)
    requires DistinctKeys(entries) && k < |entries|
    ensures Put(entries[..k], entries[k].0, entries[k].1) == entries[..k + 1]
  {
    forall m | 0 <= m < k ensures Keys(entries[..k])[m] != entries[k].0 {
    }
    assert entries[..k] + [entries[k]] == entries[..k + 1];
  }

  /** `buildLanguageTokens(domain, name, content)`. */
  method BuildLanguageTokens(domain: string, name: string, c: ContentMatrix) returns (r: Json)
    ensures r == LanguageTree(domain, name, c)
  {
    var nameGroup: seq<Member> := [];
    NameGroupDistinct(domain, name, c);
    for ti := 0 to |TONES|
      invariant nameGroup == NameGroup(domain, name, c)[..ti]
    {
      var tone := TONES[ti];
      var toneTokens: seq<Member> := [];
      ToneGroupDistinct(domain, name, c, ti);
      for yi := 0 to |TYPES|
        invariant toneTokens == ToneGroup(domain, name, c, ti)[..yi]
      {
        var ty := TYPES[yi];
        var tokenName := LangKey(tone, ty, name);
        var path := LangPath(domain, name, tone, ty);
        CellOfRegistries(c, ti, yi);
        var value := CellValue(c, tone.full, ty.full).value;
        PutNext(ToneGroup(domain, name, c, ti), yi);
        toneTokens := Put(toneTokens, tokenName, TokenJson(TokenValue(value, [], CodeSyntaxOf(path), true, None)));
      }
      assert toneTokens == ToneGroup(domain, name, c, ti);
      PutNext(NameGroup(domain, name, c), ti);
      nameGroup := Put(nameGroup, tone.full, JObj(toneTokens));
    }
    assert nameGroup == NameGroup(domain, name, c);
    r := SetNested(domain, name, JObj(nameGroup));
  }

  /** The Language tree holds its 36 tokens at
      `domain.split(".") ++ [name, tone.full, lang--t--y--name]`: each one says
      "text", holds the matrix cell of its tone and type, has no scopes, is
      hidden from publishing, has no reference key, and carries the code syntax
      of its own path. */
  lemma LanguageLeaf(domain: string, name: string, c: ContentMatrix, i: nat, j: nat)
    requires i < |TONES| && j < |TYPES|
    ensures Get(LanguageTree(domain, name, c), NestPath(domain, name) + [TONES[i].full, LangKey(TONES[i], TYPES[j], name)])
         == Some(TokenJson(LangToken(domain, name, c, i, j)))
    ensures DecodeToken(TokenJson(LangToken(domain, name, c, i, j)))
         == Some(TokenValue(FieldAt(ToneAt(c, i), j), [], CodeSyntaxOf(LangPath(domain, name, TONES[i], TYPES[j])), true, None))
    ensures Join(NestPath(domain, name) + [TONES[i].full, LangKey(TONES[i], TYPES[j], name)], ".")
         == LangPath(domain, name, TONES[i], TYPES[j])
  {
    LanguageLeafAt(domain, name, c, i, j);
    CellOfRegistries(c, i, j);
    DecodeTokenJson(LangToken(domain, name, c, i, j));
    NestJoin2(domain, name, TONES[i].full, LangKey(TONES[i], TYPES[j], name));
  }

  /** The Language token of tone i and type j sits under its tone and key. */
  lemma LanguageLeafAt(domain: string, name: string, c: ContentMatrix, i: nat, j: nat)
    requires i < |TONES| && j < |TYPES|
    ensures Get(LanguageTree(domain, name, c), NestPath(domain, name) + [TONES[i].full, LangKey(TONES[i], TYPES[j], name)])
         == Some(TokenJson(LangToken(domain, name, c, i, j)))
  {
    NestedThen(NestPath(domain, name), JObj(NameGroup(domain, name, c)), [TONES[i].full, LangKey(TONES[i], TYPES[j], name)]);
    NameGroupLeaf(domain, name, c, i, j);
  }

  /** Inside the name group, the token sits under its tone and key. */
  lemma NameGroupLeaf(domain: string, name: string, c: ContentMatrix, i: nat, j: nat)
    requires i < |TONES| && j < |TYPES|
    ensures Get(JObj(NameGroup(domain, name, c)), [TONES[i].full, LangKey(TONES[i], TYPES[j], name)])
         == Some(TokenJson(LangToken(domain, name, c, i, j)))
  {
    var ng := NameGroup(domain, name, c);
    var tg := ToneGroup(domain, name, c, i);
    NameGroupDistinct(domain, name, c);
    LookupEntry(ng, i);
    assert [TONES[i].full, LangKey(TONES[i], TYPES[j], name)][1..] == [LangKey(TONES[i], TYPES[j], name)];
    ToneGroupLeaf(domain, name, c, i, j);
  }

  lemma ToneGroupLeaf(domain: string, name: string, c: ContentMatrix, i: nat, j: nat)
    requires i < |TONES| && j < |TYPES|
    ensures Get(JObj(ToneGroup(domain, name, c, i)), [LangKey(TONES[i], TYPES[j], name)])
         == Some(TokenJson(LangToken(domain, name, c, i, j)))
  {
    var tg := ToneGroup(domain, name, c, i);
    ToneGroupDistinct(domain, name, c, i);
    LookupEntry(tg, j);
  }

  lemma LanguageTreeWellFormed(domain: string, name: string, c: ContentMatrix)
    ensures WellFormed(LanguageTree(domain, name, c))
  {
    var ng := NameGroup(domain, name, c);
    NameGroupDistinct(domain, name, c);
    forall i | 0 <= i < |ng| ensures WellFormed(ng[i].1) {
      var tg := ToneGroup(domain, name, c, i);
      ToneGroupDistinct(domain, name, c, i);
      forall j | 0 <= j < |tg| ensures WellFormed(tg[j].1) {
        TokenJsonWellFormed(LangToken(domain, name, c, i, j));
      }
    }
    NestedWellFormed(NestPath(domain, name), JObj(ng));
  }

  // ---------------------------------------------------------------------
  // the Type trees
  // ---------------------------------------------------------------------

  /** `TYPES.find((t) => t.abbr === typeAbbr)`, as the position of the entry found. */
  function FindType(typeAbbr: string): (r: Option<nat>)
    ensures r.Some? <==> typeAbbr in Abbrs(TYPES)
    ensures r.Some? ==> r.value < |TYPES| && TYPES[r.value].abbr == typeAbbr
    ensures r.Some? ==> forall j :: 0 <= j < r.value ==> TYPES[j].abbr != typeAbbr
  {
    FindFrom(typeAbbr, 0)
  }

  function FindFrom(typeAbbr: string, j: nat): (r: Option<nat>)
    requires j <= |TYPES|
    requires forall m :: 0 <= m < j ==> TYPES[m].abbr != typeAbbr
    ensures r.Some? <==> typeAbbr in Abbrs(TYPES)
    ensures r.Some? ==> j <= r.value < |TYPES| && TYPES[r.value].abbr == typeAbbr
    ensures r.Some? ==> forall m :: 0 <= m < r.value ==> TYPES[m].abbr != typeAbbr
    decreases |TYPES| - j
  {
    if j == |TYPES| then
      assert forall m :: 0 <= m < |TYPES| ==> Abbrs(TYPES)[m] != typeAbbr;
      None
    else if TYPES[j].abbr == typeAbbr then
      assert Abbrs(TYPES)[j] == typeAbbr;
      Some(j)
    else FindFrom(typeAbbr, j + 1)
  }

  /** Each type's own abbreviation finds that type. */
  lemma FindTypeAt(j: nat)
    requires j < |TYPES|
    ensures FindType(TYPES[j].abbr) == Some(j)
  {
    assert Abbrs(TYPES)[j] == TYPES[j].abbr;
    var r := FindType(TYPES[j].abbr).value;
    TypeNamesDistinct();
    assert Abbrs(TYPES)[r] == TYPES[r].abbr;
  }

  /** The Type token of tone i in the file of type j, with its drawn reference key. */
  function TypeToken(domain: string, name: string, j: nat, i: nat, key: string): TokenValue
    requires i < |TONES| && j < |TYPES|
  {
    TokenValue(Reference(LangPath(domain, name, TONES[i], TYPES[j])), [],
               CodeSyntaxOf(TypePath(domain, name, TONES[i].abbr)), true, Some(key))
  }

  /** `tokens` of the Type file of type j: one token per tone, in `TONES` order;
      `refKey(i)` is the reference key drawn for the i-th tone. */
  function TypeGroup(domain: string, name: string, j: nat, refKey: nat -> string): (r: seq<Member>)
    requires j < |TYPES|
    ensures |r| == |TONES|
    ensures forall i :: 0 <= i < |TONES| ==> r[i] == (TypeKey(TONES[i].abbr, name), TokenJson(TypeToken(domain, name, j, i, refKey(i))))
  {
    seq(|TONES|, i requires 0 <= i < |TONES| => (TypeKey(TONES[i].abbr, name), TokenJson(TypeToken(domain, name, j, i, refKey(i)))))
  }

  function TypeTree(domain: string, name: string, j: nat, refKey: nat -> string): Json
    requires j < |TYPES|
  {
    Nested(NestPath(domain, name), JObj(TypeGroup(domain, name, j, refKey)))
  }

  lemma TypeKeysDistinct(name: string, a: nat, b: nat)
    requires a < b < |TONES|
    ensures TypeKey(TONES[a].abbr, name) != TypeKey(TONES[b].abbr, name)
  {
    ToneNamesDistinct();
    assert Abbrs(TONES)[a] != Abbrs(TONES)[b];
    if TypeKey(TONES[a].abbr, name) == TypeKey(TONES[b].abbr, name) {
      var p := "type--";
      var q := "--" + name;
      assert TypeKey(TONES[a].abbr, name) == p + TONES[a].abbr + q;
      assert TypeKey(TONES[b].abbr, name) == p + TONES[b].abbr + q;
      CancelAround(p, TONES[a].abbr, TONES[b].abbr, q);
    }
  }

  lemma TypeGroupDistinct(domain: string, name: string, j: nat, refKey: nat -> string)
    requires j < |TYPES|
    ensures DistinctKeys(TypeGroup(domain, name, j, refKey))
  {
    var g := TypeGroup(domain, name, j, refKey);
    forall a, b | 0 <= a < b < |g| ensures g[a].0 != g[b].0 {
      TypeKeysDistinct(name, a, b);
    }
  }

  /** `buildTypeTokens(domain, name, typeAbbr)`: an error naming the
      abbreviation when it is not one of the six types, the Type tree of the
      type it names otherwise. */
  method BuildTypeTokens(domain: string, name: string, typeAbbr: string, refKey: nat -> string)
    returns (r: Result<Json, string>)
    ensures r.Err? <==> typeAbbr !in Abbrs(TYPES)
    ensures r.Err? ==> r.error == "Unknown type abbreviation: " + typeAbbr
    ensures r.Ok? ==> r.value == TypeTree(domain, name, FindType(typeAbbr).value, refKey)
  {
    var tokens: seq<Member> := [];
    var found := FindType(typeAbbr);
    if found.None? {
      return Err("Unknown type abbreviation: " + typeAbbr);
    }
    var j := found.value;
    TypeGroupDistinct(domain, name, j, refKey);
    for i := 0 to |TONES|
      invariant tokens == TypeGroup(domain, name, j, refKey)[..i]
    {
      var tone := TONES[i];
      var tokenName := TypeKey(tone.abbr, name);
      var path := TypePath(domain, name, tone.abbr);
      var langRef := Reference(LangPath(domain, name, tone, TYPES[j]));
      PutNext(TypeGroup(domain, name, j, refKey), i);
      tokens := Put(tokens, tokenName, TokenJson(TokenValue(langRef, [], CodeSyntaxOf(path), true, Some(refKey(i)))));
    }
    assert tokens == TypeGroup(domain, name, j, refKey);
    var tree := SetNested(domain, name, JObj(tokens));
    r := Ok(tree);
  }

  /** The Type tree of type j holds 6 tokens at `domain.split(".") ++ [name,
      type--t--name]`: each references the Language token of its tone and of
      type j, has no scopes, is hidden, carries the drawn reference key and the
      code syntax of its own path. */
  lemma TypeLeaf(domain: string, name: string, j: nat, i: nat, refKey: nat -> string)
    requires i < |TONES| && j < |TYPES|
    ensures Get(TypeTree(domain, name, j, refKey), NestPath(domain, name) + [TypeKey(TONES[i].abbr, name)])
         == Some(TokenJson(TypeToken(domain, name, j, i, refKey(i))))
    ensures DecodeToken(TokenJson(TypeToken(domain, name, j, i, refKey(i))))
         == Some(TokenValue(Reference(LangPath(domain, name, TONES[i], TYPES[j])), [],
                            CodeSyntaxOf(TypePath(domain, name, TONES[i].abbr)), true, Some(refKey(i))))
    ensures Join(NestPath(domain, name) + [TypeKey(TONES[i].abbr, name)], ".") == TypePath(domain, name, TONES[i].abbr)
  {
    TypeLeafAt(domain, name, j, i, refKey);
    DecodeTokenJson(TypeToken(domain, name, j, i, refKey(i)));
    NestJoin1(domain, name, TypeKey(TONES[i].abbr, name));
  }

  /** The Type token of tone i sits under its key. */
  lemma TypeLeafAt(domain: string, name: string, j: nat, i: nat, refKey: nat -> string)
    requires i < |TONES| && j < |TYPES|
    ensures Get(TypeTree(domain, name, j, refKey), NestPath(domain, name) + [TypeKey(TONES[i].abbr, name)])
         == Some(TokenJson(TypeToken(domain, name, j, i, refKey(i))))
  {
    var g := TypeGroup(domain, name, j, refKey);
    NestedThen(NestPath(domain, name), JObj(g), [TypeKey(TONES[i].abbr, name)]);
    TypeGroupDistinct(domain, name, j, refKey);
    LookupEntry(g, i);
  }

  lemma TypeTreeWellFormed(domain: string, name: string, j: nat, refKey: nat -> string)
    requires j < |TYPES|
    ensures WellFormed(TypeTree(domain, name, j, refKey))
  {
    var g := TypeGroup(domain, name, j, refKey);
    TypeGroupDistinct(domain, name, j, refKey);
    forall i | 0 <= i < |g| ensures WellFormed(g[i].1) {
      TokenJsonWellFormed(TypeToken(domain, name, j, i, refKey(i)));
    }
    NestedWellFormed(NestPath(domain, name), JObj(g));
  }

  // ---------------------------------------------------------------------
  // the Tone trees
  // ---------------------------------------------------------------------

  /** The one token of a Tone file; the abbreviation is taken as given. */
  function ToneToken(domain: string, name: string, toneAbbr: string, key: string): TokenValue
  {
    TokenValue(Reference(TypePath(domain, name, toneAbbr)), ["TEXT_CONTENT"],
               CodeSyntaxOf(TonePath(domain, name)), false, Some(key))
  }

  /** `buildToneTokens(domain, name, toneAbbr)`, with its drawn reference key. */
  function BuildToneTokens(domain: string, name: string, toneAbbr: string, key: string): Json
  {
    Nested(NestPath(domain, name), JObj([(ToneKey(name), TokenJson(ToneToken(domain, name, toneAbbr, key)))]))
  }

  /** The Tone tree holds exactly one token, at `domain.split(".") ++ [name,
      tone--name]`: it references the Type token of the given abbreviation, is
      scoped to text content, is published, carries the drawn reference key and
      the code syntax of its own path. */
  lemma ToneLeaf(domain: string, name: string, toneAbbr: string, key: string)
    ensures Get(BuildToneTokens(domain, name, toneAbbr, key), NestPath(domain, name))
         == Some(JObj([(ToneKey(name), TokenJson(ToneToken(domain, name, toneAbbr, key)))]))
    ensures Get(BuildToneTokens(domain, name, toneAbbr, key), NestPath(domain, name) + [ToneKey(name)])
         == Some(TokenJson(ToneToken(domain, name, toneAbbr, key)))
    ensures DecodeToken(TokenJson(ToneToken(domain, name, toneAbbr, key)))
         == Some(TokenValue(Reference(TypePath(domain, name, toneAbbr)), ["TEXT_CONTENT"],
                            CodeSyntaxOf(TonePath(domain, name)), false, Some(key)))
    ensures Join(NestPath(domain, name) + [ToneKey(name)], ".") == TonePath(domain, name)
  {
    ToneLeafAt(domain, name, toneAbbr, key);
    DecodeTokenJson(ToneToken(domain, name, toneAbbr, key));
    NestJoin1(domain, name, ToneKey(name));
  }

  /** The Tone token sits under its key, in the one-entry group at the entry path. */
  lemma ToneLeafAt(domain: string, name: string, toneAbbr: string, key: string)
    ensures Get(BuildToneTokens(domain, name, toneAbbr, key), NestPath(domain, name))
         == Some(JObj([(ToneKey(name), TokenJson(ToneToken(domain, name, toneAbbr, key)))]))
    ensures Get(BuildToneTokens(domain, name, toneAbbr, key), NestPath(domain, name) + [ToneKey(name)])
         == Some(TokenJson(ToneToken(domain, name, toneAbbr, key)))
  {
    var g := [(ToneKey(name), TokenJson(ToneToken(domain, name, toneAbbr, key)))];
    NestedReaches(NestPath(domain, name), JObj(g));
    NestedThen(NestPath(domain, name), JObj(g), [ToneKey(name)]);
    LookupEntry(g, 0);
  }

  lemma ToneTreeWellFormed(domain: string, name: string, toneAbbr: string, key: string)
    ensures WellFormed(BuildToneTokens(domain, name, toneAbbr, key))
  {
    TokenJsonWellFormed(ToneToken(domain, name, toneAbbr, key));
    NestedWellFormed(NestPath(domain, name), JObj([(ToneKey(name), TokenJson(ToneToken(domain, name, toneAbbr, key)))]));
  }

  // ---------------------------------------------------------------------
  // the thirteen layer trees
  // ---------------------------------------------------------------------

  /** A layer file and the tree built for it. */
  datatype Step = Step(file: string, tree: Json)

  /** The k-th of the thirteen layer files with its tree, in the order the
      handlers visit them: the Language file, the six Type files, the six Tone
      files. */
  function StepAt(d: string, n: string, c: ContentMatrix, typeKeys: nat -> nat -> string, toneKeys: nat -> string, k: nat): (s: Step)
    requires k < 1 + |TYPES| + |TONES|
    ensures s.file == LayerFiles()[k] && s.tree.JObj?
  {
    if k == 0 then Step(LANGUAGE_FILE, LanguageTree(d, n, c))
    else if k <= |TYPES| then Step(TYPES[k - 1].file, TypeTree(d, n, k - 1, typeKeys(k - 1)))
    else Step(TONES[k - 1 - |TYPES|].file, BuildToneTokens(d, n, TONES[k - 1 - |TYPES|].abbr, toneKeys(k - 1 - |TYPES|)))
  }

  function Plan(d: string, n: string, c: ContentMatrix, typeKeys: nat -> nat -> string, toneKeys: nat -> string): (plan: seq<Step>)
    ensures |plan| == 1 + |TYPES| + |TONES|
    ensures forall k :: 0 <= k < |plan| ==> plan[k] == StepAt(d, n, c, typeKeys, toneKeys, k)
  {
    seq(1 + |TYPES| + |TONES|, k requires 0 <= k < 1 + |TYPES| + |TONES| => StepAt(d, n, c, typeKeys, toneKeys, k))
  }

  // ---------------------------------------------------------------------
  // cross-reference integrity
  // ---------------------------------------------------------------------

  /** Follow an alias into a tree: strip the braces, split the path on dots,
      walk the tree and read the token found there. */
  function Resolve(tree: Json, alias: string): (r: Option<TokenValue>)
    ensures r.Some? ==> Dereference(alias).Some? && Get(tree, Split(Dereference(alias).value, '.')).Some?
  {
    match Dereference(alias)
    case None => None
    case Some(path) =>
      match Get(tree, Split(path, '.'))
      case None => None
      case Some(t) => DecodeToken(t)
  }

  /** With a name that holds no dot, the alias in each Type token resolves in
      the Language tree to the Language token of the same tone and type, whose
      value is the matrix cell. */
  lemma TypeReferenceResolves(domain: string, name: string, c: ContentMatrix, j: nat, i: nat, key: string)
    requires i < |TONES| && j < |TYPES| && '.' !in name
    ensures Resolve(LanguageTree(domain, name, c), TypeToken(domain, name, j, i, key).value)
         == Some(TokenValue(FieldAt(ToneAt(c, i), j), [], CodeSyntaxOf(LangPath(domain, name, TONES[i], TYPES[j])), true, None))
  {
    var path := LangPath(domain, name, TONES[i], TYPES[j]);
    DereferenceReference(path);
    NoDotInRegistries(i, j);
    assert '.' !in LangKey(TONES[i], TYPES[j], name);
    SplitNest2(domain, name, TONES[i].full, LangKey(TONES[i], TYPES[j], name));
    LanguageLeaf(domain, name, c, i, j);
  }

  /** With a name that holds no dot, the alias in the Tone token of a tone
      resolves, in the file of every type, to the Type token of that tone. */
  lemma ToneReferenceResolves(domain: string, name: string, j: nat, i: nat, key: string, refKey: nat -> string)
    requires i < |TONES| && j < |TYPES| && '.' !in name
    ensures Resolve(TypeTree(domain, name, j, refKey), ToneToken(domain, name, TONES[i].abbr, key).value)
         == Some(TypeToken(domain, name, j, i, refKey(i)))
  {
    var path := TypePath(domain, name, TONES[i].abbr);
    DereferenceReference(path);
    NoDotInRegistries(i, j);
    assert '.' !in TypeKey(TONES[i].abbr, name);
    SplitNest1(domain, name, TypeKey(TONES[i].abbr, name));
    TypeLeaf(domain, name, j, i, refKey);
  }

  /** Following the two aliases from the Tone token of a tone ends at the
      matrix cell of that tone and the chosen type. */
  lemma ReferenceChain(domain: string, name: string, c: ContentMatrix, j: nat, i: nat, key: string, refKey: nat -> string)
    requires i < |TONES| && j < |TYPES| && '.' !in name
    ensures
      var typeToken := Resolve(TypeTree(domain, name, j, refKey), ToneToken(domain, name, TONES[i].abbr, key).value);
      typeToken.Some? &&
      var langToken := Resolve(LanguageTree(domain, name, c), typeToken.value.value);
      langToken.Some? && langToken.value.value == FieldAt(ToneAt(c, i), j)
  {
    ToneReferenceResolves(domain, name, j, i, key, refKey);
    TypeReferenceResolves(domain, name, c, j, i, refKey(i));
  }

  /** No registry name or abbreviation holds a dot. */
  lemma NoDotInRegistries(i: nat, j: nat)
    requires i < |TONES| && j < |TYPES|
    ensures '.' !in TONES[i].full && '.' !in TONES[i].abbr && '.' !in TYPES[j].abbr
  {
  }
}
