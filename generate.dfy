/** The `generate` handler (apps/api/content/generate.ts): it asks a language
    model for the 36 texts of an entry, accepts the first reply that parses to
    a complete content matrix, tries at most twice, and fails otherwise. The
    model call itself is not modelled: what the call returns on each attempt
    is a parameter. */
module Generate {
  import opened Wrappers
  import opened Strings
  import opened Assoc
  import opened Json
  import opened Constants
  import opened Types

  /** `GenerateParams`; an absent `context` is `None`. */
  datatype GenerateParams = GenerateParams(domain: string, name: string, neutralTitle: string, context: Option<string>)

  /** `GenerateResponse`. */
  datatype GenerateResponse = GenerateResponse(domain: string, name: string, content: ContentMatrix)

  // ---------------------------------------------------------------------
  // buildUserPrompt
  // ---------------------------------------------------------------------

  function TitleLine(p: GenerateParams): string
  {
    "Generate content for: \"" + p.neutralTitle + "\""
  }

  function DomainLine(p: GenerateParams): string
  {
    "Domain: " + p.domain
  }

  function NameLine(p: GenerateParams): string
  {
    "Entry name: " + p.name
  }

  function ContextLine(context: string): string
  {
    "Additional context: " + context
  }

  /** `if (params.context)`: present and not empty. */
  predicate HasContext(p: GenerateParams)
  {
    p.context.Some? && p.context.value != ""
  }

  /** The lines of the user prompt: title, domain and name, then the context
      line when there is a context. */
  function PromptLines(p: GenerateParams): (lines: seq<string>)
  {
    [TitleLine(p), DomainLine(p), NameLine(p)] + if HasContext(p) then [ContextLine(p.context.value)] else []
  }

  /** `buildUserPrompt`: the template, then `\nAdditional context: ...`
      appended when there is a context. */
  method BuildUserPrompt(p: GenerateParams) returns (prompt: string)
    ensures prompt == Join(PromptLines(p), "\n")
  {
    prompt := TitleLine(p) + "\n" + DomainLine(p) + "\n" + NameLine(p);
    JoinThree(TitleLine(p), DomainLine(p), NameLine(p));
    if HasContext(p) {
      prompt := prompt + "\n" + ContextLine(p.context.value);
      JoinFour(TitleLine(p), DomainLine(p), NameLine(p), ContextLine(p.context.value));
      assert PromptLines(p) == [TitleLine(p), DomainLine(p), NameLine(p)] + [ContextLine(p.context.value)];
    } else {
      assert PromptLines(p) == [TitleLine(p), DomainLine(p), NameLine(p)];
    }
  }

  lemma JoinThree(a: string, b: string, c: string)
    ensures Join([a, b, c], "\n") == a + "\n" + b + "\n" + c
  {
    assert [a, b, c][1..] == [b, c];
    assert [b, c][1..] == [c];
    assert Join([b, c], "\n") == b + "\n" + c;
    assert a + "\n" + (b + "\n" + c) == a + "\n" + b + "\n" + c;
  }

  lemma JoinFour(a: string, b: string, c: string, d: string)
    ensures Join([a, b, c] + [d], "\n") == a + "\n" + b + "\n" + c + "\n" + d
  {
    assert ([a, b, c] + [d])[1..] == [b, c, d];
    assert [b, c, d][1..] == [c, d];
    assert [c, d][1..] == [d];
    assert Join([c, d], "\n") == c + "\n" + d;
    assert Join([b, c, d], "\n") == b + "\n" + (c + "\n" + d);
    assert a + "\n" + (b + "\n" + (c + "\n" + d)) == a + "\n" + b + "\n" + c + "\n" + d;
  }

  /** The prompt has a context line exactly when a non-empty context is
      given, and that line is the last one. */
  lemma PromptContext(p: GenerateParams)
    ensures |PromptLines(p)| == 4 <==> HasContext(p)
    ensures |PromptLines(p)| == 3 <==> !HasContext(p)
    ensures HasContext(p) ==> PromptLines(p)[3] == ContextLine(p.context.value)
  {
  }

  predicate OneLine(s: string)
  {
    '\n' !in s
  }

  /** When no field holds a newline, the prompt reads back line by line: it
      says which title, domain, name and context it was built from. */
  lemma PromptReadsBack(p: GenerateParams)
    requires OneLine(p.neutralTitle) && OneLine(p.domain) && OneLine(p.name)
    requires p.context.Some? ==> OneLine(p.context.value)
    ensures Split(Join(PromptLines(p), "\n"), '\n') == PromptLines(p)
  {
    var lines := PromptLines(p);
    forall i | 0 <= i < |lines| ensures '\n' !in lines[i] {
      if i == 0 {
        assert lines[0] == "Generate content for: \"" + p.neutralTitle + "\"";
      }
    }
    SplitJoin(lines, '\n');
  }

  // ---------------------------------------------------------------------
  // validateContentMatrix
  // ---------------------------------------------------------------------

  /** The two string lists of the validator. */
  const VALID_TONES: seq<string> := ["neutral", "formal", "playful", "minimal", "witty", "quirky"]
  const VALID_TYPES: seq<string> := ["title", "subtitle", "description", "caption", "abbreviation", "emoji"]

  /** They are the full names of the catalogues, in the same order. */
  lemma ValidatorCatalogues()
    ensures VALID_TONES == Fulls(TONES) && VALID_TYPES == Fulls(TYPES)
  {
    TonesInOrder();
    TypesInOrder();
  }

  /** `typeof val === "string" && val.length !== 0`. */
  predicate NonEmptyString(v: Option<Json>)
  {
    v.Some? && v.value.JStr? && v.value.s != ""
  }

  /** A tone object: an object whose six type fields are non-empty strings. */
  predicate ValidTone(t: Option<Json>)
  {
    t.Some? && IsObjectLike(t.value) && forall j :: 0 <= j < |VALID_TYPES| ==> NonEmptyString(Property(t.value, VALID_TYPES[j]))
  }

  /** What the validator accepts: an object whose six tone members are tone
      objects. */
  predicate IsContentMatrix(data: Json)
  {
    IsObjectLike(data) && forall i :: 0 <= i < |VALID_TONES| ==> ValidTone(Property(data, VALID_TONES[i]))
  }

  /** `validateContentMatrix`: the loop over the tones, with its early returns. */
  method ValidateContentMatrix(data: Json) returns (ok: bool)
    ensures ok <==> IsContentMatrix(data)
  {
    if !IsObjectLike(data) {
      return false;
    }
    for i := 0 to |VALID_TONES|
      invariant forall i' :: 0 <= i' < i ==> ValidTone(Property(data, VALID_TONES[i']))
    {
      var toneOk := ValidateTone(Property(data, VALID_TONES[i]));
      if !toneOk {
        return false;
      }
    }
    return true;
  }

  /** Its inner loop, over the types of one tone object. */
  method ValidateTone(toneObj: Option<Json>) returns (ok: bool)
    ensures ok <==> ValidTone(toneObj)
  {
    if !(toneObj.Some? && IsObjectLike(toneObj.value)) {
      return false;
    }
    for j := 0 to |VALID_TYPES|
      invariant forall j' :: 0 <= j' < j ==> NonEmptyString(Property(toneObj.value, VALID_TYPES[j']))
    {
      var val := Property(toneObj.value, VALID_TYPES[j]);
      if !(val.Some? && val.value.JStr? && val.value.s != "") {
        return false;
      }
    }
    return true;
  }

  /** A member under a key the validator does not read changes nothing. */
  lemma ExtraToneIgnored(ms: seq<Member>, k: string, v: Json)
    requires k !in VALID_TONES
    ensures IsContentMatrix(JObj(Put(ms, k, v))) == IsContentMatrix(JObj(ms))
  {
    forall i | 0 <= i < |VALID_TONES|
      ensures Property(JObj(Put(ms, k, v)), VALID_TONES[i]) == Property(JObj(ms), VALID_TONES[i])
    {
      assert VALID_TONES[i] != k;
    }
  }

  /** The same inside a tone object. */
  lemma ExtraTypeIgnored(ms: seq<Member>, k: string, v: Json)
    requires k !in VALID_TYPES
    ensures ValidTone(Some(JObj(Put(ms, k, v)))) == ValidTone(Some(JObj(ms)))
  {
    forall j | 0 <= j < |VALID_TYPES|
      ensures Property(JObj(Put(ms, k, v)), VALID_TYPES[j]) == Property(JObj(ms), VALID_TYPES[j])
    {
      assert VALID_TYPES[j] != k;
    }
  }

  /** The tone object of the i-th tone of an accepted reply. */
  function ToneObject(data: Json, i: nat): (t: Json)
    requires IsContentMatrix(data) && i < 6
    ensures ValidTone(Some(t)) && Property(data, VALID_TONES[i]) == Some(t)
  {
    assert ValidTone(Property(data, VALID_TONES[i]));
    Property(data, VALID_TONES[i]).value
  }

  /** The text of the j-th type in a tone object. */
  function TypeText(t: Json, j: nat): (s: string)
    requires ValidTone(Some(t)) && j < 6
    ensures s != "" && Property(t, VALID_TYPES[j]) == Some(JStr(s))
  {
    assert NonEmptyString(Property(t, VALID_TYPES[j]));
    Property(t, VALID_TYPES[j]).value.s
  }

  /** The text of cell (i, j) of an accepted reply. */
  function CellString(data: Json, i: nat, j: nat): (s: string)
    requires IsContentMatrix(data) && i < 6 && j < 6
  {
    TypeText(ToneObject(data, i), j)
  }

  /** The entry with these six fields, in the order of the types. */
  function EntryFrom(fs: seq<string>): ContentEntry
    requires |fs| == 6
  {
    ContentEntry(fs[0], fs[1], fs[2], fs[3], fs[4], fs[5])
  }

  /** The matrix with these six entries, in the order of the tones. */
  function MatrixFrom(es: seq<ContentEntry>): ContentMatrix
    requires |es| == 6
  {
    ContentMatrix(es[0], es[1], es[2], es[3], es[4], es[5])
  }

  lemma FieldAtFrom(fs: seq<string>, j: nat)
    requires |fs| == 6 && j < 6
    ensures FieldAt(EntryFrom(fs), j) == fs[j]
  {
  }

  lemma ToneAtFrom(es: seq<ContentEntry>, i: nat)
    requires |es| == 6 && i < 6
    ensures ToneAt(MatrixFrom(es), i) == es[i]
  {
  }

  function EntryOf(t: Json): ContentEntry
    requires ValidTone(Some(t))
  {
    EntryFrom(seq(6, j requires 0 <= j < 6 => TypeText(t, j)))
  }

  /** `parsed as ContentMatrix`: the matrix an accepted reply stands for. */
  function MatrixOf(data: Json): ContentMatrix
    requires IsContentMatrix(data)
  {
    MatrixFrom(seq(6, i requires 0 <= i < 6 => EntryOf(ToneObject(data, i))))
  }

  /** Every cell of that matrix is the string the reply holds at its tone and
      type, and it is not empty. */
  lemma MatrixOfCells(data: Json, i: nat, j: nat)
    requires IsContentMatrix(data) && i < 6 && j < 6
    ensures Property(Property(data, VALID_TONES[i]).value, VALID_TYPES[j]) == Some(JStr(FieldAt(ToneAt(MatrixOf(data), i), j)))
    ensures FieldAt(ToneAt(MatrixOf(data), i), j) != ""
  {
    MatrixOfTone(data, i);
    EntryOfField(ToneObject(data, i), j);
  }

  /** The content the builder reads at a tone and a type, by their full
      names, is the reply's string there. */
  lemma MatrixOfCellValue(data: Json, i: nat, j: nat)
    requires IsContentMatrix(data) && i < 6 && j < 6
    ensures CellValue(MatrixOf(data), TONES[i].full, TYPES[j].full) == Some(CellString(data, i, j))
  {
    MatrixOfTone(data, i);
    EntryOfField(ToneObject(data, i), j);
    CellOfRegistries(MatrixOf(data), i, j);
  }

  lemma MatrixOfTone(data: Json, i: nat)
    requires IsContentMatrix(data) && i < 6
    ensures ToneAt(MatrixOf(data), i) == EntryOf(ToneObject(data, i))
  {
    ToneAtFrom(seq(6, i requires 0 <= i < 6 => EntryOf(ToneObject(data, i))), i);
  }

  lemma EntryOfField(t: Json, j: nat)
    requires ValidTone(Some(t)) && j < 6
    ensures FieldAt(EntryOf(t), j) == TypeText(t, j)
  {
    FieldAtFrom(seq(6, j requires 0 <= j < 6 => TypeText(t, j)), j);
  }

  /** The reply format the system prompt asks for, filled with a matrix. */
  function EntryJson(e: ContentEntry): Json
  {
    JObj(seq(6, j requires 0 <= j < 6 => (VALID_TYPES[j], JStr(FieldAt(e, j)))))
  }

  function MatrixJson(c: ContentMatrix): Json
  {
    JObj(seq(6, i requires 0 <= i < 6 => (VALID_TONES[i], EntryJson(ToneAt(c, i)))))
  }

  predicate Complete(c: ContentMatrix)
  {
    forall i, j :: 0 <= i < 6 && 0 <= j < 6 ==> FieldAt(ToneAt(c, i), j) != ""
  }

  lemma EntryJsonField(e: ContentEntry, j: nat)
    requires j < 6
    ensures Property(EntryJson(e), VALID_TYPES[j]) == Some(JStr(FieldAt(e, j)))
  {
    var ms := EntryJson(e).members;
    assert Keys(ms) == VALID_TYPES;
    LookupEntry(ms, j);
  }

  lemma MatrixJsonTone(c: ContentMatrix, i: nat)
    requires i < 6
    ensures Property(MatrixJson(c), VALID_TONES[i]) == Some(EntryJson(ToneAt(c, i)))
  {
    var ms := MatrixJson(c).members;
    assert Keys(ms) == VALID_TONES;
    LookupEntry(ms, i);
  }

  /** A reply in the requested format is accepted exactly when none of its
      36 texts is empty. */
  lemma MatrixJsonValid(c: ContentMatrix)
    ensures IsContentMatrix(MatrixJson(c)) <==> Complete(c)
  {
    if Complete(c) {
      forall i | 0 <= i < |VALID_TONES| ensures ValidTone(Property(MatrixJson(c), VALID_TONES[i])) {
        MatrixJsonTone(c, i);
        forall j | 0 <= j < |VALID_TYPES| ensures NonEmptyString(Property(EntryJson(ToneAt(c, i)), VALID_TYPES[j])) {
          EntryJsonField(ToneAt(c, i), j);
        }
      }
    }
    if IsContentMatrix(MatrixJson(c)) {
      forall i, j | 0 <= i < 6 && 0 <= j < 6 ensures FieldAt(ToneAt(c, i), j) != "" {
        MatrixJsonTone(c, i);
        assert ValidTone(Some(EntryJson(ToneAt(c, i))));
        EntryJsonField(ToneAt(c, i), j);
        assert NonEmptyString(Property(EntryJson(ToneAt(c, i)), VALID_TYPES[j]));
      }
    }
  }

  /** ... and the matrix read from it is the one it was filled with. */
  lemma MatrixJsonRoundTrip(c: ContentMatrix)
    requires Complete(c)
    ensures IsContentMatrix(MatrixJson(c)) && MatrixOf(MatrixJson(c)) == c
  {
    MatrixJsonValid(c);
    var m := MatrixOf(MatrixJson(c));
    forall i, j | 0 <= i < 6 && 0 <= j < 6 ensures FieldAt(ToneAt(m, i), j) == FieldAt(ToneAt(c, i), j) {
      MatrixOfCells(MatrixJson(c), i, j);
      MatrixJsonTone(c, i);
      EntryJsonField(ToneAt(c, i), j);
    }
    SameCells(m, c);
  }

  /** Two matrices with the same 36 cells are the same. */
  lemma SameCells(a: ContentMatrix, b: ContentMatrix)
    requires forall i, j :: 0 <= i < 6 && 0 <= j < 6 ==> FieldAt(ToneAt(a, i), j) == FieldAt(ToneAt(b, i), j)
    ensures a == b
  {
    forall i | 0 <= i < 6 ensures ToneAt(a, i) == ToneAt(b, i) {
      assert forall j :: 0 <= j < 6 ==> FieldAt(ToneAt(a, i), j) == FieldAt(ToneAt(b, i), j);
      SameFields(ToneAt(a, i), ToneAt(b, i));
    }
    assert a.neutral == ToneAt(a, 0) && b.neutral == ToneAt(b, 0);
    assert a.formal == ToneAt(a, 1) && b.formal == ToneAt(b, 1);
    assert a.playful == ToneAt(a, 2) && b.playful == ToneAt(b, 2);
    assert a.minimal == ToneAt(a, 3) && b.minimal == ToneAt(b, 3);
    assert a.witty == ToneAt(a, 4) && b.witty == ToneAt(b, 4);
    assert a.quirky == ToneAt(a, 5) && b.quirky == ToneAt(b, 5);
  }

  lemma SameFields(a: ContentEntry, b: ContentEntry)
    requires forall j :: 0 <= j < 6 ==> FieldAt(a, j) == FieldAt(b, j)
    ensures a == b
  {
    assert FieldAt(a, 0) == FieldAt(b, 0) && FieldAt(a, 1) == FieldAt(b, 1) && FieldAt(a, 2) == FieldAt(b, 2);
    assert FieldAt(a, 3) == FieldAt(b, 3) && FieldAt(a, 4) == FieldAt(b, 4) && FieldAt(a, 5) == FieldAt(b, 5);
  }

  /** Every accepted reply stands for a complete matrix. */
  lemma MatrixOfComplete(data: Json)
    requires IsContentMatrix(data)
    ensures Complete(MatrixOf(data))
  {
    forall i, j | 0 <= i < 6 && 0 <= j < 6 ensures FieldAt(ToneAt(MatrixOf(data), i), j) != "" {
      MatrixOfCells(data, i, j);
    }
  }

  // ---------------------------------------------------------------------
  // the retry loop
  // ---------------------------------------------------------------------

  /** What an attempt yields: a reply without a text block, text that
      `JSON.parse` rejects, or the parsed value. */
  datatype Reply = NoText | Unparsable | Parsed(data: Json)

  predicate Acceptable(r: Reply)
  {
    r.Parsed? && IsContentMatrix(r.data)
  }

  const MAX_ATTEMPTS: nat := 2

  const FAILURE_MESSAGE: string := "Failed to generate valid content after 2 attempts"

  /** The first of the first `n` attempts whose reply is accepted. */
  function FirstAccepted(replies: nat -> Reply, n: nat): (r: Option<nat>)
    ensures r.Some? ==> r.value < n && Acceptable(replies(r.value))
    decreases n
  {
    if n == 0 then None
    else
      match FirstAccepted(replies, n - 1)
      case Some(k) => Some(k)
      case None => if Acceptable(replies(n - 1)) then Some(n - 1) else None
  }

  /** What `generate` returns, `replies(k)` being the reply to attempt k + 1. */
  function GenerateOf(p: GenerateParams, replies: nat -> Reply): Result<GenerateResponse, string>
  {
    match FirstAccepted(replies, MAX_ATTEMPTS)
    case None => Err(FAILURE_MESSAGE)
    case Some(k) => Ok(GenerateResponse(p.domain, p.name, MatrixOf(replies(k).data)))
  }

  /** It is the first: no earlier attempt is accepted, and when there is
      none, no attempt is. */
  lemma {:induction false} FirstAcceptedIsFirst(replies: nat -> Reply, n: nat)
    ensures FirstAccepted(replies, n).Some? ==> forall k :: 0 <= k < FirstAccepted(replies, n).value ==> !Acceptable(replies(k))
    ensures FirstAccepted(replies, n).None? ==> forall k :: 0 <= k < n ==> !Acceptable(replies(k))
    decreases n
  {
    if n > 0 {
      FirstAcceptedIsFirst(replies, n - 1);
    }
  }

  lemma {:induction false} FirstAcceptedStable(replies: nat -> Reply, m: nat, n: nat)
    requires m <= n && FirstAccepted(replies, m).Some?
    ensures FirstAccepted(replies, n) == FirstAccepted(replies, m)
    decreases n - m
  {
    if m < n {
      FirstAcceptedStable(replies, m, n - 1);
    }
  }

  /** How many calls the handler makes: up to the first accepted reply, and
      never more than two. */
  function AttemptsMade(replies: nat -> Reply): (n: nat)
    ensures 1 <= n <= MAX_ATTEMPTS
  {
    match FirstAccepted(replies, MAX_ATTEMPTS)
    case Some(k) => k + 1
    case None => MAX_ATTEMPTS
  }

  /** The handler: the retry loop over the attempts, then the error or the
      response; `attempts` is how many calls were made. */
  method Generate(p: GenerateParams, replies: nat -> Reply) returns (r: Result<GenerateResponse, string>, attempts: nat)
    ensures r == GenerateOf(p, replies)
    ensures attempts == AttemptsMade(replies)
  {
    var content: Option<ContentMatrix> := None;
    attempts := 0;
    while content.None? && attempts < MAX_ATTEMPTS
      invariant attempts <= MAX_ATTEMPTS
      invariant content.None? ==> FirstAccepted(replies, attempts) == None
      invariant content.Some? ==> 0 < attempts && FirstAccepted(replies, attempts) == Some(attempts - 1)
      invariant content.Some? ==> content.value == MatrixOf(replies(attempts - 1).data)
      decreases MAX_ATTEMPTS - attempts
    {
      attempts := attempts + 1;
      content := Attempt(replies(attempts - 1));
    }
    if content.None? {
      return Err(FAILURE_MESSAGE), attempts;
    }
    FirstAcceptedStable(replies, attempts, MAX_ATTEMPTS);
    return Ok(GenerateResponse(p.domain, p.name, content.value)), attempts;
  }

  /** One turn of the loop: a reply without text is skipped, one that does
      not parse is caught, one that parses is kept if it validates. */
  method Attempt(reply: Reply) returns (content: Option<ContentMatrix>)
    ensures content.Some? <==> Acceptable(reply)
    ensures content.Some? ==> content.value == MatrixOf(reply.data)
  {
    content := None;
    if !reply.Parsed? {
      return;
    }
    var valid := ValidateContentMatrix(reply.data);
    if valid {
      content := Some(MatrixOf(reply.data));
    }
  }

  /** The handler fails exactly when neither attempt is accepted. */
  lemma GenerateFails(p: GenerateParams, replies: nat -> Reply)
    ensures GenerateOf(p, replies).Err? <==> !Acceptable(replies(0)) && !Acceptable(replies(1))
    ensures GenerateOf(p, replies).Err? ==> GenerateOf(p, replies).error == FAILURE_MESSAGE
  {
    FirstAcceptedIsFirst(replies, MAX_ATTEMPTS);
  }

  /** The handler stops at the first accepted reply: it makes a second call
      exactly when the first reply is not accepted. */
  lemma AttemptsStopEarly(replies: nat -> Reply)
    ensures AttemptsMade(replies) == 1 <==> Acceptable(replies(0))
  {
    FirstAcceptedIsFirst(replies, MAX_ATTEMPTS);
  }

  /** On success it echoes the domain and the name, and its content is the
      complete matrix of the first accepted reply. */
  lemma GenerateSucceeds(p: GenerateParams, replies: nat -> Reply)
    requires GenerateOf(p, replies).Ok?
    ensures GenerateOf(p, replies).value.domain == p.domain && GenerateOf(p, replies).value.name == p.name
    ensures Acceptable(replies(0)) ==> GenerateOf(p, replies).value.content == MatrixOf(replies(0).data)
    ensures !Acceptable(replies(0)) ==> Acceptable(replies(1)) && GenerateOf(p, replies).value.content == MatrixOf(replies(1).data)
    ensures Complete(GenerateOf(p, replies).value.content)
  {
    var k := FirstAccepted(replies, MAX_ATTEMPTS).value;
    FirstAcceptedIsFirst(replies, MAX_ATTEMPTS);
    MatrixOfComplete(replies(k).data);
  }
}
