/** The records the core passes around (packages/core/src/types.ts): the 6 x 6
    content matrix, a design token with its Figma extensions, and the request
    and result of an apply. The matrix is indexed in the source by the full
    tone and type names; `ToneEntry`, `EntryField` and `ContentKey` are those
    lookups. */
module Types {
  import opened Wrappers
  import opened Assoc
  import opened Json
  import opened CodeSyntax
  import opened Constants

  datatype ContentEntry = ContentEntry(
    title: string, subtitle: string, description: string,
    caption: string, abbreviation: string, emoji: string)

  datatype ContentMatrix = ContentMatrix(
    neutral: ContentEntry, formal: ContentEntry, playful: ContentEntry,
    minimal: ContentEntry, witty: ContentEntry, quirky: ContentEntry)

  /** `content[tone]`: the entry under a key of `ContentMatrix`, `None` for any other string. */
  function ToneEntry(c: ContentMatrix, tone: string): Option<ContentEntry>
  {
    if tone == "neutral" then Some(c.neutral)
    else if tone == "formal" then Some(c.formal)
    else if tone == "playful" then Some(c.playful)
    else if tone == "minimal" then Some(c.minimal)
    else if tone == "witty" then Some(c.witty)
    else if tone == "quirky" then Some(c.quirky)
    else None
  }

  /** `entry[field]`: a field of `ContentEntry`, `None` for any other string. */
  function EntryField(e: ContentEntry, field: string): Option<string>
  {
    if field == "title" then Some(e.title)
    else if field == "subtitle" then Some(e.subtitle)
    else if field == "description" then Some(e.description)
    else if field == "caption" then Some(e.caption)
    else if field == "abbreviation" then Some(e.abbreviation)
    else if field == "emoji" then Some(e.emoji)
    else None
  }

  /** The six members of the record literal inside `contentKey`. */
  const CONTENT_KEYS: seq<(string, string)> := [
    ("title", "title"), ("subtitle", "subtitle"), ("description", "description"),
    ("caption", "caption"), ("abbreviation", "abbreviation"), ("emoji", "emoji")
  ]

  /** `contentKey(toneFull, typeFull)`: the type's own name when it is one of
      the six fields, `undefined` otherwise; the tone is not consulted. */
  function ContentKey(toneFull: string, typeFull: string): (r: Option<string>)
    ensures r.Some? <==> typeFull in Fulls(TYPES)
    ensures r.Some? ==> r.value == typeFull
  {
    assert Keys(CONTENT_KEYS) == Fulls(TYPES);
    if typeFull in Keys(CONTENT_KEYS) then
      var k := IndexOf(CONTENT_KEYS, typeFull);
      assert CONTENT_KEYS[k].1 == CONTENT_KEYS[k].0;
      Lookup(CONTENT_KEYS, typeFull)
    else
      Lookup(CONTENT_KEYS, typeFull)
  }

  /** `content[tone.full][contentKey(tone.full, type.full)]`. */
  function CellValue(c: ContentMatrix, toneFull: string, typeFull: string): Option<string>
  {
    match ToneEntry(c, toneFull)
    case None => None
    case Some(e) =>
      match ContentKey(toneFull, typeFull)
      case None => None
      case Some(k) => EntryField(e, k)
  }

  /** The entry of the i-th tone, by position. */
  function ToneAt(c: ContentMatrix, i: nat): ContentEntry
    requires i < 6
  {
    [c.neutral, c.formal, c.playful, c.minimal, c.witty, c.quirky][i]
  }

  /** The j-th field of an entry, by position. */
  function FieldAt(e: ContentEntry, j: nat): string
    requires j < 6
  {
    [e.title, e.subtitle, e.description, e.caption, e.abbreviation, e.emoji][j]
  }

  /** The full names of the catalogues are exactly the keys of `ContentMatrix`
      and the fields of `ContentEntry`, in declaration order: every lookup the
      builder makes finds the cell at the same position. */
  lemma CellOfRegistries(c: ContentMatrix, i: nat, j: nat)
    requires i < |TONES| && j < |TYPES|
    ensures ToneEntry(c, TONES[i].full) == Some(ToneAt(c, i))
    ensures EntryField(ToneAt(c, i), TYPES[j].full) == Some(FieldAt(ToneAt(c, i), j))
    ensures CellValue(c, TONES[i].full, TYPES[j].full) == Some(FieldAt(ToneAt(c, i), j))
  {
    assert TYPES[j].full == Fulls(TYPES)[j];
  }

  // ---------------------------------------------------------------------
  // tokens
  // ---------------------------------------------------------------------

  /** A design token as the builder emits it (`TokenValue` with its Figma extensions). */
  datatype TokenValue = TokenValue(
    value: string, scopes: seq<string>, codeSyntax: Syntax,
    hiddenFromPublishing: bool, referenceKey: Option<string>)

  function StringsJson(xs: seq<string>): (r: Json)
    ensures r.JArr? && |r.items| == |xs|
    ensures forall i :: 0 <= i < |xs| ==> r.items[i] == JStr(xs[i])
  {
    JArr(seq(|xs|, i requires 0 <= i < |xs| => JStr(xs[i])))
  }

  function SyntaxJson(s: Syntax): Json
  {
    JObj([("WEB", JStr(s.web)), ("ANDROID", JStr(s.android)), ("iOS", JStr(s.ios))])
  }

  function FigmaJson(t: TokenValue): Json
  {
    JObj([("scopes", StringsJson(t.scopes)),
          ("codeSyntax", SyntaxJson(t.codeSyntax)),
          ("hiddenFromPublishing", JBool(t.hiddenFromPublishing))]
         + (match t.referenceKey
            case None => []
            case Some(k) => [("referenceKey", JStr(k))]))
  }

  /** The JSON object of a token, with its keys in the order of the object literal. */
  function TokenJson(t: TokenValue): Json
  {
    JObj([("$type", JStr("text")),
          ("$value", JStr(t.value)),
          ("$extensions", JObj([("figma", FigmaJson(t))]))])
  }

  /** The string items of an array. */
  function DecodeStrings(items: seq<Json>): (r: Option<seq<string>>)
    ensures r.Some? ==> |r.value| == |items|
    decreases |items|
  {
    if items == [] then Some([])
    else if !items[0].JStr? then None
    else
      match DecodeStrings(items[1..])
      case None => None
      case Some(rest) => Some([items[0].s] + rest)
  }

  function GetString(v: Json, path: seq<string>): Option<string>
  {
    match Get(v, path)
    case Some(JStr(s)) => Some(s)
    case _ => None
  }

  function DecodeSyntax(v: Json): Option<Syntax>
  {
    match (GetString(v, ["WEB"]), GetString(v, ["ANDROID"]), GetString(v, ["iOS"]))
    case (Some(web), Some(android), Some(ios)) => Some(Syntax(web, android, ios))
    case _ => None
  }

  function DecodeFigma(value: string, v: Json): Option<TokenValue>
  {
    match (Get(v, ["scopes"]), Get(v, ["codeSyntax"]), Get(v, ["hiddenFromPublishing"]), Get(v, ["referenceKey"]))
    case (Some(JArr(items)), Some(cs), Some(JBool(hidden)), key) =>
      (match (DecodeStrings(items), DecodeSyntax(cs), key)
       case (Some(scopes), Some(syntax), None) => Some(TokenValue(value, scopes, syntax, hidden, None))
       case (Some(scopes), Some(syntax), Some(JStr(k))) => Some(TokenValue(value, scopes, syntax, hidden, Some(k)))
       case _ => None)
    case _ => None
  }

  /** Reads a token back from its JSON object: the inverse of `TokenJson`. */
  function DecodeToken(v: Json): Option<TokenValue>
  {
    match (GetString(v, ["$type"]), GetString(v, ["$value"]), Get(v, ["$extensions", "figma"]))
    case (Some(ty), Some(value), Some(figma)) =>
      if ty == "text" then DecodeFigma(value, figma) else None
    case _ => None
  }

  lemma {:induction false} DecodeStringsJson(xs: seq<string>)
    ensures DecodeStrings(StringsJson(xs).items) == Some(xs)
    decreases |xs|
  {
    if xs != [] {
      DecodeStringsJson(xs[1..]);
      assert StringsJson(xs).items[1..] == StringsJson(xs[1..]).items;
      assert [xs[0]] + xs[1..] == xs;
    }
  }

  /** A one-key path reads one member of an object. */
  lemma GetKey(v: Json, k: string)
    ensures Get(v, [k]) == if v.JObj? then Lookup(v.members, k) else None
  {
    if v.JObj? && Lookup(v.members, k).Some? {
      assert [k][1..] == [];
    }
  }

  lemma SyntaxJsonFields(s: Syntax)
    ensures Get(SyntaxJson(s), ["WEB"]) == Some(JStr(s.web))
    ensures Get(SyntaxJson(s), ["ANDROID"]) == Some(JStr(s.android))
    ensures Get(SyntaxJson(s), ["iOS"]) == Some(JStr(s.ios))
  {
    var sm := SyntaxJson(s).members;
    assert Keys(sm) == ["WEB", "ANDROID", "iOS"];
    LookupEntry(sm, 0);
    LookupEntry(sm, 1);
    LookupEntry(sm, 2);
    GetKey(SyntaxJson(s), "WEB");
    GetKey(SyntaxJson(s), "ANDROID");
    GetKey(SyntaxJson(s), "iOS");
  }

  lemma FigmaJsonFields(t: TokenValue)
    ensures Get(FigmaJson(t), ["scopes"]) == Some(StringsJson(t.scopes))
    ensures Get(FigmaJson(t), ["codeSyntax"]) == Some(SyntaxJson(t.codeSyntax))
    ensures Get(FigmaJson(t), ["hiddenFromPublishing"]) == Some(JBool(t.hiddenFromPublishing))
    ensures Get(FigmaJson(t), ["referenceKey"]) == if t.referenceKey.Some? then Some(JStr(t.referenceKey.value)) else None
  {
    var fm := FigmaJson(t).members;
    if t.referenceKey.Some? {
      assert Keys(fm) == ["scopes", "codeSyntax", "hiddenFromPublishing", "referenceKey"];
      LookupEntry(fm, 3);
    } else {
      assert Keys(fm) == ["scopes", "codeSyntax", "hiddenFromPublishing"];
    }
    LookupEntry(fm, 0);
    LookupEntry(fm, 1);
    LookupEntry(fm, 2);
    GetKey(FigmaJson(t), "scopes");
    GetKey(FigmaJson(t), "codeSyntax");
    GetKey(FigmaJson(t), "hiddenFromPublishing");
    GetKey(FigmaJson(t), "referenceKey");
  }

  /** Where each field of a token sits in its JSON object. */
  lemma TokenJsonFields(t: TokenValue)
    ensures Get(TokenJson(t), ["$type"]) == Some(JStr("text"))
    ensures Get(TokenJson(t), ["$value"]) == Some(JStr(t.value))
    ensures Get(TokenJson(t), ["$extensions", "figma"]) == Some(FigmaJson(t))
  {
    var v := TokenJson(t);
    var tj := v.members;
    assert Keys(tj) == ["$type", "$value", "$extensions"];
    LookupEntry(tj, 0);
    LookupEntry(tj, 1);
    LookupEntry(tj, 2);
    GetKey(v, "$type");
    GetKey(v, "$value");
    GetKey(v, "$extensions");
    var ext := JObj([("figma", FigmaJson(t))]);
    LookupEntry(ext.members, 0);
    GetKey(ext, "figma");
    GetAppend(v, ["$extensions"], ["figma"]);
    assert ["$extensions"] + ["figma"] == ["$extensions", "figma"];
  }

  lemma DecodeSyntaxJson(s: Syntax)
    ensures DecodeSyntax(SyntaxJson(s)) == Some(s)
  {
    SyntaxJsonFields(s);
  }

  lemma DecodeFigmaJson(t: TokenValue)
    ensures DecodeFigma(t.value, FigmaJson(t)) == Some(t)
  {
    FigmaJsonFields(t);
    DecodeStringsJson(t.scopes);
    DecodeSyntaxJson(t.codeSyntax);
  }

  /** A token read back from its JSON object is the token. */
  lemma DecodeTokenJson(t: TokenValue)
    ensures DecodeToken(TokenJson(t)) == Some(t)
  {
    TokenJsonFields(t);
    DecodeFigmaJson(t);
  }

  /** Every token object is well formed and is recognised as a token. */
  lemma TokenJsonWellFormed(t: TokenValue)
    ensures WellFormed(TokenJson(t)) && IsToken(TokenJson(t))
  {
    var tj := TokenJson(t).members;
    assert Keys(tj) == ["$type", "$value", "$extensions"];
    FigmaJsonWellFormed(t);
    assert WellFormed(JObj([("figma", FigmaJson(t))]));
  }

  lemma FigmaJsonWellFormed(t: TokenValue)
    ensures WellFormed(FigmaJson(t))
  {
    var fm := FigmaJson(t).members;
    assert Keys(fm) == if t.referenceKey.Some? then ["scopes", "codeSyntax", "hiddenFromPublishing", "referenceKey"]
                       else ["scopes", "codeSyntax", "hiddenFromPublishing"];
    assert WellFormed(StringsJson(t.scopes));
    assert WellFormed(SyntaxJson(t.codeSyntax));
  }

  // ---------------------------------------------------------------------
  // apply request and result
  // ---------------------------------------------------------------------

  /** `ApplyRequest`; an absent `dryRun` is `false`. */
  datatype ApplyRequest = ApplyRequest(domain: string, name: string, content: ContentMatrix, dryRun: bool)

  /** One entry of `filesModified`. */
  datatype FileChange = FileChange(file: string, tokensAdded: nat)

  datatype ApplyResult = ApplyResult(filesModified: seq<FileChange>, totalTokens: nat)
}
