/** The `add` command of the command-line client
    (packages/cli/src/commands/add.ts): it turns its arguments into entry
    names, resolves each to a domain and a name, runs generate, preview and
    apply for each, and counts what was added, skipped and failed. The client
    calls, the confirmation prompt and the console output are not modelled:
    how each entry's calls and confirmation turn out is a parameter. */
module Add {
  import opened Wrappers
  import opened Strings

  /** `ResolvedEntry`. */
  datatype ResolvedEntry = ResolvedEntry(domain: string, name: string, neutralTitle: string)

  /** A string option that JavaScript treats as true: present and not empty. */
  predicate Active(o: Option<string>)
  {
    o.Some? && o.value != ""
  }

  // ---------------------------------------------------------------------
  // resolveEntry
  // ---------------------------------------------------------------------

  /** The last dot-separated segment of `s`. */
  function LastSegment(s: string): string
  {
    var parts := Split(s, '.');
    parts[|parts| - 1]
  }

  /** Everything before the last dot of `s`. */
  function Front(s: string): string
  {
    var parts := Split(s, '.');
    Join(parts[..|parts| - 1], ".")
  }

  function ResolveError(trimmed: string): string
  {
    "Cannot resolve \"" + trimmed + "\" without a domain. Use --domain or dot notation (e.g., \"nav." + ToLower(trimmed) + "\")"
  }

  /** `resolveEntry(raw, defaultDomain)`; the thrown error is `Err`. */
  function ResolveEntry(raw: string, defaultDomain: Option<string>): Result<ResolvedEntry, string>
  {
    var trimmed := Trim(raw);
    if '.' in trimmed then Ok(ResolvedEntry(Front(trimmed), ToLower(LastSegment(trimmed)), trimmed))
    else if Active(defaultDomain) then Ok(ResolvedEntry(defaultDomain.value, HyphenateSpaces(ToLower(trimmed)), trimmed))
    else Err(ResolveError(trimmed))
  }

  /** A string with a dot is its front and its last segment, joined by a
      dot; the last segment has no dot. */
  lemma FrontAndLast(s: string)
    requires '.' in s
    ensures s == Front(s) + "." + LastSegment(s)
    ensures '.' !in LastSegment(s)
  {
    var parts := Split(s, '.');
    SplitAtSeparator(s, '.');
    JoinSplit(s, '.');
    JoinLast(parts, ".");
  }

  /** Lower-casing keeps the dots where they are. */
  lemma LowerKeepsDots(s: string)
    ensures ('.' in ToLower(s)) == ('.' in s)
  {
    var r := ToLower(s);
    forall i | 0 <= i < |s| ensures (r[i] == '.') == (s[i] == '.') {
      CaseKeepsPunctuation(s[i]);
    }
    if '.' in s {
      var i :| 0 <= i < |s| && s[i] == '.';
      assert r[i] == '.';
    }
    if '.' in r {
      var i :| 0 <= i < |r| && r[i] == '.';
      assert s[i] == '.';
    }
  }

  /** Dot notation: the input always resolves, the domain option is ignored,
      the trimmed input is the domain, a dot and the name before
      lower-casing, and the name holds no dot. */
  lemma ResolveDotted(raw: string, defaultDomain: Option<string>)
    requires '.' in Trim(raw)
    ensures ResolveEntry(raw, defaultDomain).Ok?
    ensures ResolveEntry(raw, defaultDomain) == ResolveEntry(raw, None)
    ensures var e := ResolveEntry(raw, defaultDomain).value;
      && Trim(raw) == e.domain + "." + LastSegment(Trim(raw))
      && e.name == ToLower(LastSegment(Trim(raw)))
      && e.neutralTitle == Trim(raw)
      && '.' !in e.name
  {
    FrontAndLast(Trim(raw));
    LowerKeepsDots(LastSegment(Trim(raw)));
  }

  /** Every character of the hyphenated string is a hyphen or one of the
      original characters. */
  lemma {:induction false} HyphenateChars(s: string)
    ensures forall i :: 0 <= i < |HyphenateSpaces(s)| ==> HyphenateSpaces(s)[i] == '-' || HyphenateSpaces(s)[i] in s
    decreases |s|
  {
    if s != [] {
      if IsSpace(s[0]) {
        var rest := SkipSpaces(s);
        HyphenateChars(rest);
        forall i | 0 <= i < |HyphenateSpaces(s)| ensures HyphenateSpaces(s)[i] == '-' || HyphenateSpaces(s)[i] in s {
          if i > 0 {
            assert HyphenateSpaces(s)[i] == HyphenateSpaces(rest)[i - 1];
            if HyphenateSpaces(rest)[i - 1] in rest {
              var k :| 0 <= k < |rest| && rest[k] == HyphenateSpaces(rest)[i - 1];
              assert rest[k] == s[|s| - |rest| + k];
            }
          }
        }
      } else {
        HyphenateChars(s[1..]);
        forall i | 0 <= i < |HyphenateSpaces(s)| ensures HyphenateSpaces(s)[i] == '-' || HyphenateSpaces(s)[i] in s {
          if i > 0 {
            assert HyphenateSpaces(s)[i] == HyphenateSpaces(s[1..])[i - 1];
            if HyphenateSpaces(s[1..])[i - 1] in s[1..] {
              var k :| 0 <= k < |s[1..]| && s[1..][k] == HyphenateSpaces(s[1..])[i - 1];
              assert s[1..][k] == s[k + 1];
            }
          }
        }
      }
    }
  }

  predicate IsUpper(c: char)
  {
    'A' <= c <= 'Z'
  }

  /** With the domain option: the option is the domain, and the name is the
      trimmed input lower-cased with its whitespace runs turned into
      hyphens; it holds no whitespace, no dot and no upper-case letter. */
  lemma ResolveWithDomain(raw: string, defaultDomain: Option<string>)
    requires '.' !in Trim(raw) && Active(defaultDomain)
    ensures ResolveEntry(raw, defaultDomain).Ok?
    ensures var e := ResolveEntry(raw, defaultDomain).value;
      && e.domain == defaultDomain.value
      && e.neutralTitle == Trim(raw)
      && e.name == HyphenateSpaces(ToLower(Trim(raw)))
      && (forall i :: 0 <= i < |e.name| ==> !IsSpace(e.name[i]) && e.name[i] != '.' && !IsUpper(e.name[i]))
  {
    var lowered := ToLower(Trim(raw));
    LowerKeepsDots(Trim(raw));
    HyphenateChars(lowered);
    var name := HyphenateSpaces(lowered);
    forall i | 0 <= i < |name| ensures name[i] != '.' && !IsUpper(name[i]) {
      if name[i] != '-' {
        var k :| 0 <= k < |lowered| && lowered[k] == name[i];
        assert lowered[k] == LowerChar(Trim(raw)[k]);
      }
    }
  }

  /** A name without whitespace is only lower-cased. */
  lemma ResolveSingleWord(raw: string, defaultDomain: Option<string>)
    requires '.' !in Trim(raw) && Active(defaultDomain)
    requires forall i :: 0 <= i < |Trim(raw)| ==> !IsSpace(Trim(raw)[i])
    ensures ResolveEntry(raw, defaultDomain) == Ok(ResolvedEntry(defaultDomain.value, ToLower(Trim(raw)), Trim(raw)))
  {
    var lowered := ToLower(Trim(raw));
    forall i | 0 <= i < |lowered| ensures !IsSpace(lowered[i]) {
      CaseKeepsPunctuation(Trim(raw)[i]);
    }
    HyphenateNoSpaces(lowered);
  }

  /** Two words with a whitespace run between them become the lower-cased
      words joined by one hyphen (the rest of the input after the run is
      hyphenated in turn). */
  lemma ResolveTwoWords(raw: string, defaultDomain: Option<string>, a: string, w: string, b: string)
    requires Trim(raw) == a + w + b && '.' !in Trim(raw) && Active(defaultDomain)
    requires forall i :: 0 <= i < |a| ==> !IsSpace(a[i])
    requires w != [] && AllSpace(w)
    requires b == [] || !IsSpace(b[0])
    ensures ResolveEntry(raw, defaultDomain).Ok?
    ensures ResolveEntry(raw, defaultDomain).value.name == ToLower(a) + "-" + HyphenateSpaces(ToLower(b))
  {
    var la, lw, lb := ToLower(a), ToLower(w), ToLower(b);
    assert ToLower(a + w + b) == la + lw + lb;
    forall i | 0 <= i < |la| ensures !IsSpace(la[i]) {
      CaseKeepsPunctuation(a[i]);
    }
    forall i | 0 <= i < |lw| ensures IsSpace(lw[i]) {
      CaseKeepsPunctuation(w[i]);
    }
    if b != [] {
      CaseKeepsPunctuation(b[0]);
    }
    HyphenateRun(la, lw, lb);
  }

  /** Resolution fails exactly when the input has no dot and no domain
      option is given. */
  lemma ResolveFails(raw: string, defaultDomain: Option<string>)
    ensures ResolveEntry(raw, defaultDomain).Err? <==> '.' !in Trim(raw) && !Active(defaultDomain)
    ensures ResolveEntry(raw, defaultDomain).Err? ==> ResolveEntry(raw, defaultDomain).error == ResolveError(Trim(raw))
  {
  }

  /** The results of a `map` whose callback may throw: the first error, or
      every value in order. */
  function FirstError<T>(rs: seq<Result<T, string>>): Result<seq<T>, string>
    decreases |rs|
  {
    if rs == [] then Ok([])
    else
      match rs[0]
      case Err(e) => Err(e)
      case Ok(v) =>
        match FirstError(rs[1..])
        case Err(e) => Err(e)
        case Ok(vs) => Ok([v] + vs)
  }

  /** It succeeds exactly when every result is a value... */
  lemma {:induction false} FirstErrorOk<T>(rs: seq<Result<T, string>>)
    ensures FirstError(rs).Ok? <==> forall i :: 0 <= i < |rs| ==> rs[i].Ok?
    decreases |rs|
  {
    if rs != [] {
      FirstErrorOk(rs[1..]);
      assert forall i :: 1 <= i < |rs| ==> rs[i] == rs[1..][i - 1];
    }
  }

  /** ... and then it holds those values in order. */
  lemma {:induction false} FirstErrorValues<T>(rs: seq<Result<T, string>>)
    requires FirstError(rs).Ok?
    ensures |FirstError(rs).value| == |rs|
    ensures forall i :: 0 <= i < |rs| ==> rs[i].Ok? && FirstError(rs).value[i] == rs[i].value
    decreases |rs|
  {
    if rs != [] {
      FirstErrorValues(rs[1..]);
      assert forall i :: 1 <= i < |rs| ==> rs[i] == rs[1..][i - 1];
    }
  }

  /** `rawNames.map((n) => resolveEntry(n, options.domain))`: the first name
      that does not resolve aborts the whole map. */
  function ResolveAll(names: seq<string>, defaultDomain: Option<string>): Result<seq<ResolvedEntry>, string>
  {
    FirstError(seq(|names|, i requires 0 <= i < |names| => ResolveEntry(names[i], defaultDomain)))
  }

  /** The map succeeds exactly when every name resolves, and then it holds
      their entries in order. */
  lemma ResolveAllOk(names: seq<string>, defaultDomain: Option<string>)
    ensures ResolveAll(names, defaultDomain).Ok? <==> forall i :: 0 <= i < |names| ==> ResolveEntry(names[i], defaultDomain).Ok?
    ensures ResolveAll(names, defaultDomain).Ok? ==>
      |ResolveAll(names, defaultDomain).value| == |names| &&
      forall i :: 0 <= i < |names| ==> ResolveAll(names, defaultDomain).value[i] == ResolveEntry(names[i], defaultDomain).value
  {
    var rs := seq(|names|, i requires 0 <= i < |names| => ResolveEntry(names[i], defaultDomain));
    assert ResolveAll(names, defaultDomain) == FirstError(rs);
    assert forall i :: 0 <= i < |names| ==> rs[i] == ResolveEntry(names[i], defaultDomain);
    FirstErrorOk(rs);
    if FirstError(rs).Ok? {
      FirstErrorValues(rs);
    }
  }

  // ---------------------------------------------------------------------
  // parseNames
  // ---------------------------------------------------------------------

  /** `[x.trim()].filter(Boolean)`. */
  function KeepTrimmed(x: string): seq<string>
  {
    if Trim(x) != "" then [Trim(x)] else []
  }

  /** `xs.map((l) => l.trim()).filter(Boolean)`. */
  function CleanLines(xs: seq<string>): seq<string>
    decreases |xs|
  {
    if xs == [] then [] else CleanLines(xs[..|xs| - 1]) + KeepTrimmed(xs[|xs| - 1])
  }

  /** A name as the two branches produce it: not empty, no surrounding whitespace. */
  predicate Clean(x: string)
  {
    x != "" && !IsSpace(x[0]) && !IsSpace(x[|x| - 1])
  }

  /** Every name kept is clean. */
  lemma {:induction false} CleanLinesClean(xs: seq<string>)
    ensures forall k :: 0 <= k < |CleanLines(xs)| ==> Clean(CleanLines(xs)[k])
    decreases |xs|
  {
    if xs != [] {
      CleanLinesClean(xs[..|xs| - 1]);
    }
  }

  /** Lines are kept in order: cleaning a concatenation concatenates the
      cleaned parts. */
  lemma {:induction false} CleanLinesAppend(a: seq<string>, b: seq<string>)
    ensures CleanLines(a + b) == CleanLines(a) + CleanLines(b)
    decreases |b|
  {
    if b == [] {
      assert a + b == a;
    } else {
      assert (a + b)[..|a + b| - 1] == a + b[..|b| - 1];
      CleanLinesAppend(a, b[..|b| - 1]);
    }
  }

  /** Clean names are kept as they are. */
  lemma {:induction false} CleanLinesOfClean(xs: seq<string>)
    requires forall k :: 0 <= k < |xs| ==> Clean(xs[k])
    ensures CleanLines(xs) == xs
    decreases |xs|
  {
    if xs != [] {
      var front := xs[..|xs| - 1];
      assert forall k :: 0 <= k < |front| ==> Clean(front[k]) by {
        forall k | 0 <= k < |front| ensures Clean(front[k]) {
          assert front[k] == xs[k];
        }
      }
      var last := xs[|xs| - 1];
      calc {
        CleanLines(xs);
        CleanLines(front) + KeepTrimmed(last);
        { CleanLinesOfClean(front); KeepClean(last); }
        front + [last];
        xs;
      }
    }
  }

  lemma KeepClean(x: string)
    requires Clean(x)
    ensures KeepTrimmed(x) == [x]
  {
    TrimTrimmed(x);
  }

  /** The file branch: one name per line. */
  function ParseFile(content: string): seq<string>
  {
    CleanLines(Split(content, '\n'))
  }

  /** Names written one per line are read back. */
  lemma ParseFileRoundTrip(names: seq<string>)
    requires names != []
    requires forall k :: 0 <= k < |names| ==> Clean(names[k]) && '\n' !in names[k]
    ensures ParseFile(Join(names, "\n")) == names
  {
    SplitJoin(names, '\n');
    CleanLinesOfClean(names);
  }

  /** The comma branch: every argument split on commas, in order. */
  function CommaNames(args: seq<string>): seq<string>
    decreases |args|
  {
    if args == [] then [] else CommaNames(args[..|args| - 1]) + CleanLines(Split(args[|args| - 1], ','))
  }

  /** Names written as one comma-separated argument are read back. */
  lemma CommaRoundTrip(names: seq<string>)
    requires names != []
    requires forall k :: 0 <= k < |names| ==> Clean(names[k]) && ',' !in names[k]
    ensures CommaNames([Join(names, ",")]) == names
  {
    CommaSingle(Join(names, ","));
    SplitJoin(names, ',');
    CleanLinesOfClean(names);
  }

  lemma CommaSingle(arg: string)
    ensures CommaNames([arg]) == CleanLines(Split(arg, ','))
  {
    assert [arg][..0] == [];
  }

  /** Every name of the comma branch is clean and holds no comma. */
  lemma {:induction false} CommaNamesClean(args: seq<string>)
    ensures forall k :: 0 <= k < |CommaNames(args)| ==> Clean(CommaNames(args)[k])
    decreases |args|
  {
    if args != [] {
      CommaNamesClean(args[..|args| - 1]);
      CleanLinesClean(Split(args[|args| - 1], ','));
    }
  }

  /** The comma branch as the source writes it: two nested loops pushing
      onto `names`. */
  method ParseCommaNames(args: seq<string>) returns (names: seq<string>)
    ensures names == CommaNames(args)
  {
    names := [];
    for i := 0 to |args|
      invariant names == CommaNames(args[..i])
    {
      CommaNamesSnoc(args, i);
      names := PushParts(names, Split(args[i], ','));
    }
    assert args[..|args|] == args;
  }

  lemma CommaNamesSnoc(args: seq<string>, i: nat)
    requires i < |args|
    ensures CommaNames(args[..i + 1]) == CommaNames(args[..i]) + CleanLines(Split(args[i], ','))
  {
    assert args[..i + 1][..i] == args[..i];
  }

  /** The inner loop: the trimmed non-empty parts pushed in order. */
  method PushParts(names: seq<string>, parts: seq<string>) returns (names': seq<string>)
    ensures names' == names + CleanLines(parts)
  {
    names' := names;
    for k := 0 to |parts|
      invariant names' == names + CleanLines(parts[..k])
    {
      CleanLinesSnoc(parts, k);
      var trimmed := Trim(parts[k]);
      if trimmed != "" {
        names' := names' + [trimmed];
      }
    }
    assert parts[..|parts|] == parts;
  }

  lemma CleanLinesSnoc(parts: seq<string>, k: nat)
    requires k < |parts|
    ensures CleanLines(parts[..k + 1]) == CleanLines(parts[..k]) + KeepTrimmed(parts[k])
  {
    assert parts[..k + 1][..k] == parts[..k];
  }

  /** `AddOptions`; `input` names the file whose text is `fileContent` below. */
  datatype AddOptions = AddOptions(domain: Option<string>, autoApprove: bool, dryRun: bool,
                                   input: Option<string>, interactive: bool, names: seq<string>)

  /** What `parseNames` returns. */
  function NamesOf(options: AddOptions, fileContent: string): seq<string>
  {
    if Active(options.input) then ParseFile(fileContent) else CommaNames(options.names)
  }

  /** `parseNames(options)`, `fileContent` being the text of the input file. */
  method ParseNames(options: AddOptions, fileContent: string) returns (names: seq<string>)
    ensures names == NamesOf(options, fileContent)
  {
    if Active(options.input) {
      return ParseFile(fileContent);
    }
    names := ParseCommaNames(options.names);
  }

  // ---------------------------------------------------------------------
  // the summary
  // ---------------------------------------------------------------------

  /** How the calls for one entry turn out: whether generate and preview
      returned, whether the user approved, whether apply returned. */
  datatype EntryRun = EntryRun(generated: bool, previewed: bool, approved: bool, applied: bool)

  datatype Outcome = Added | Skipped | Failed

  /** One turn of the entry loop: a failed call is caught, a refusal skips
      the entry, `--yes` does not ask. */
  function OutcomeOf(autoApprove: bool, run: EntryRun): Outcome
  {
    if !run.generated || !run.previewed then Failed
    else if !autoApprove && !run.approved then Skipped
    else if !run.applied then Failed
    else Added
  }

  /** The outcomes of the first `n` entries. */
  function Outcomes(autoApprove: bool, runs: nat -> EntryRun, n: nat): (os: seq<Outcome>)
    ensures |os| == n
  {
    if n == 0 then [] else Outcomes(autoApprove, runs, n - 1) + [OutcomeOf(autoApprove, runs(n - 1))]
  }

  function CountOf(os: seq<Outcome>, o: Outcome): (c: nat)
    ensures c <= |os|
    decreases |os|
  {
    if os == [] then 0 else CountOf(os[..|os| - 1], o) + if os[|os| - 1] == o then 1 else 0
  }

  /** Every outcome is counted once. */
  lemma {:induction false} CountsAddUp(os: seq<Outcome>)
    ensures CountOf(os, Added) + CountOf(os, Skipped) + CountOf(os, Failed) == |os|
    decreases |os|
  {
    if os != [] {
      CountsAddUp(os[..|os| - 1]);
    }
  }

  /** `N added, M skipped, K failed`. */
  datatype Summary = Summary(added: nat, skipped: nat, failed: int)

  /** The loop over the entries with its two counters; the failures are
      what is left. */
  method RunEntries(n: nat, autoApprove: bool, runs: nat -> EntryRun) returns (s: Summary)
    ensures s.added == CountOf(Outcomes(autoApprove, runs, n), Added)
    ensures s.skipped == CountOf(Outcomes(autoApprove, runs, n), Skipped)
    ensures s.failed == n - s.added - s.skipped
  {
    var successCount: nat := 0;
    var skipCount: nat := 0;
    for i := 0 to n
      invariant successCount == CountOf(Outcomes(autoApprove, runs, i), Added)
      invariant skipCount == CountOf(Outcomes(autoApprove, runs, i), Skipped)
    {
      var run := runs(i);
      if !run.generated || !run.previewed {
        continue;
      }
      if !autoApprove && !run.approved {
        skipCount := skipCount + 1;
        continue;
      }
      if !run.applied {
        continue;
      }
      successCount := successCount + 1;
    }
    s := Summary(successCount, skipCount, n - successCount - skipCount);
  }

  /** The summary of the first `n` entries. */
  function SummaryOf(n: nat, autoApprove: bool, runs: nat -> EntryRun): Summary
  {
    var os := Outcomes(autoApprove, runs, n);
    Summary(CountOf(os, Added), CountOf(os, Skipped), n - CountOf(os, Added) - CountOf(os, Skipped))
  }

  /** The failure count is never negative: it is the number of entries that
      failed, and added and skipped together never exceed the entries. */
  lemma SummaryCounts(n: nat, autoApprove: bool, runs: nat -> EntryRun)
    ensures SummaryOf(n, autoApprove, runs).failed == CountOf(Outcomes(autoApprove, runs, n), Failed)
    ensures SummaryOf(n, autoApprove, runs).added + SummaryOf(n, autoApprove, runs).skipped <= n
  {
    CountsAddUp(Outcomes(autoApprove, runs, n));
  }

  /** With `--yes` nothing is skipped. */
  lemma {:induction false} AutoApproveSkipsNothing(runs: nat -> EntryRun, n: nat)
    ensures CountOf(Outcomes(true, runs, n), Skipped) == 0
    decreases n
  {
    if n > 0 {
      AutoApproveSkipsNothing(runs, n - 1);
    }
  }

  /** The names `addCommand` starts from. */
  function RawNames(options: AddOptions, fileContent: string, promptedNames: seq<string>): seq<string>
  {
    if options.interactive then promptedNames else NamesOf(options, fileContent)
  }

  /** What `addCommand` ends with, from its names: the exit for an empty
      list, a resolution error, or the summary. */
  function Conclude(rawNames: seq<string>, options: AddOptions, runs: nat -> EntryRun): Result<Summary, string>
  {
    if |rawNames| == 0 then Err("No content entries specified.")
    else
      match ResolveAll(rawNames, options.domain)
      case Err(e) => Err(e)
      case Ok(entries) => Ok(SummaryOf(|entries|, options.autoApprove, runs))
  }

  function AddOf(options: AddOptions, fileContent: string, promptedNames: seq<string>, runs: nat -> EntryRun): Result<Summary, string>
  {
    Conclude(RawNames(options, fileContent, promptedNames), options, runs)
  }

  /** `addCommand`; `promptedNames` is what the interactive prompt collects
      and `runs(i)` how the calls for the i-th entry turn out. */
  method AddCommand(options: AddOptions, fileContent: string, promptedNames: seq<string>, runs: nat -> EntryRun)
    returns (r: Result<Summary, string>)
    ensures r == AddOf(options, fileContent, promptedNames, runs)
  {
    var rawNames: seq<string>;
    if options.interactive {
      rawNames := promptedNames;
    } else {
      rawNames := ParseNames(options, fileContent);
    }
    r := ProcessEntries(rawNames, options, runs);
  }

  /** The rest of `addCommand`: the empty-list exit, the resolution of every
      name, then the loop over the entries. */
  method ProcessEntries(rawNames: seq<string>, options: AddOptions, runs: nat -> EntryRun) returns (r: Result<Summary, string>)
    ensures r == Conclude(rawNames, options, runs)
  {
    if |rawNames| == 0 {
      return Err("No content entries specified.");
    }
    var resolved := ResolveAll(rawNames, options.domain);
    if resolved.Err? {
      return Err(resolved.error);
    }
    var s := RunEntries(|resolved.value|, options.autoApprove, runs);
    return Ok(s);
  }

  /** The command stops before any entry is processed exactly when there is
      no name or some name cannot be resolved: one bad name aborts them all. */
  lemma ConcludeFails(rawNames: seq<string>, options: AddOptions, runs: nat -> EntryRun)
    ensures Conclude(rawNames, options, runs).Ok?
      <==> |rawNames| > 0 && forall i :: 0 <= i < |rawNames| ==> ResolveEntry(rawNames[i], options.domain).Ok?
    ensures |rawNames| == 0 ==> Conclude(rawNames, options, runs) == Err("No content entries specified.")
  {
    ResolveAllOk(rawNames, options.domain);
  }

  /** One summary per run: as many entries as names, counted once each. */
  lemma AddSummary(rawNames: seq<string>, options: AddOptions, runs: nat -> EntryRun)
    requires Conclude(rawNames, options, runs).Ok?
    ensures var s := Conclude(rawNames, options, runs).value;
      && s.added + s.skipped + s.failed == |rawNames|
      && s.failed >= 0
      && (options.autoApprove ==> s.skipped == 0)
  {
    ResolveAllOk(rawNames, options.domain);
    var n := |ResolveAll(rawNames, options.domain).value|;
    assert Conclude(rawNames, options, runs) == Ok(SummaryOf(n, options.autoApprove, runs));
    SummaryCounts(n, options.autoApprove, runs);
    if options.autoApprove {
      AutoApproveSkipsNothing(runs, n);
    }
  }

  // ---------------------------------------------------------------------
  // the content table
  // ---------------------------------------------------------------------

  const CELL_WIDTH: nat := 18

  /** A table cell: a text longer than 18 characters is cut to 17 and
      followed by an ellipsis. */
  function Truncate(val: string): (r: string)
    ensures |r| <= CELL_WIDTH
    ensures |val| <= CELL_WIDTH ==> r == val
    ensures |val| > CELL_WIDTH ==> |r| == CELL_WIDTH && r[..CELL_WIDTH - 1] == val[..CELL_WIDTH - 1] && r[CELL_WIDTH - 1] == '\U{2026}'
  {
    if |val| > 18 then val[..17] + "\U{2026}" else val
  }

  /** A cell already cut stays as it is. */
  lemma TruncateIdempotent(val: string)
    ensures Truncate(Truncate(val)) == Truncate(val)
  {
  }
}
