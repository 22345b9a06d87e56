/** The `apply` handler (apps/api/tokens/apply.ts) over an in-memory store of
    token files: the duplicate gate on the Language file, then one
    read-merge-write step per layer file, thirteen in all, and the report of
    the files touched. A file the store does not hold is a read that fails,
    which ends the handler with the earlier writes kept. The reference keys
    the builder would draw at random are parameters: `typeKeys(j)(i)` is the
    key of the i-th tone's token in the j-th Type file, `toneKeys(i)` that of
    the i-th Tone file's token. */
module Apply {
  import opened Wrappers
  import opened Strings
  import opened Assoc
  import opened Json
  import opened Constants
  import opened Types
  import opened TokenBuilder
  import opened FileManager

  datatype ApplyError =
    | ReadFailed(file: string)
    | AlreadyExists(message: string)

  /** The count the report records for the k-th file: fixed by the layer, not
      taken from what the merge added. */
  function TokensAdded(k: nat): nat
  {
    if k == 0 then 36 else if k <= |TYPES| then 6 else 1
  }

  /** `filesModified` of a completed run. */
  function FilesModified(): (r: seq<FileChange>)
    ensures |r| == 1 + |TYPES| + |TONES|
    ensures forall k :: 0 <= k < |r| ==> r[k] == FileChange(LayerFiles()[k], TokensAdded(k))
  {
    seq(1 + |TYPES| + |TONES|, k requires 0 <= k < 1 + |TYPES| + |TONES| => FileChange(LayerFiles()[k], TokensAdded(k)))
  }

  /** `filesModified.reduce((sum, f) => sum + f.tokensAdded, 0)`. */
  function Total(changes: seq<FileChange>): nat
    decreases |changes|
  {
    if changes == [] then 0 else Total(changes[..|changes| - 1]) + changes[|changes| - 1].tokensAdded
  }

  /** The store, and whether a read failed, after the first `n` steps. */
  datatype RunState = RunState(files: map<string, Json>, failed: Option<string>)

  predicate Mergeable(plan: seq<Step>)
  {
    forall k :: 0 <= k < |plan| ==> plan[k].tree.JObj?
  }

  function RunUpTo(files: map<string, Json>, plan: seq<Step>, n: nat): RunState
    requires n <= |plan| && Mergeable(plan)
    decreases n
  {
    if n == 0 then RunState(files, None)
    else
      var st := RunUpTo(files, plan, n - 1);
      var step := plan[n - 1];
      if st.failed.Some? then st
      else if step.file !in st.files then RunState(st.files, Some(step.file))
      else RunState(st.files[step.file := Merge(st.files[step.file], step.tree)], None)
  }

  function DuplicateMessage(domain: string, name: string): string
  {
    "Content entry \"" + domain + "." + name + "\" already exists"
  }

  /** What `apply` returns and the store it leaves, from the store it starts with. */
  function ApplyOutcome(files: map<string, Json>, req: ApplyRequest, typeKeys: nat -> nat -> string, toneKeys: nat -> string)
    : (Result<ApplyResult, ApplyError>, map<string, Json>)
  {
    var plan := Plan(req.domain, req.name, req.content, typeKeys, toneKeys);
    var report := ApplyResult(FilesModified(), Total(FilesModified()));
    if LANGUAGE_FILE !in files then (Err(ReadFailed(LANGUAGE_FILE)), files)
    else if At(files[LANGUAGE_FILE], NestPath(req.domain, req.name)).Some? then
      (Err(AlreadyExists(DuplicateMessage(req.domain, req.name))), files)
    else if req.dryRun then (Ok(report), files)
    else
      var st := RunUpTo(files, plan, |plan|);
      if st.failed.Some? then (Err(ReadFailed(st.failed.value)), st.files) else (Ok(report), st.files)
  }

  lemma PrefixSnoc<T>(s: seq<T>, n: nat)
    requires n < |s|
    ensures s[..n + 1] == s[..n] + [s[n]]
  {
  }

  /** A step that finds its file missing ends the run: later steps change nothing. */
  lemma {:induction false} RunStaysFailed(files: map<string, Json>, plan: seq<Step>, m: nat, n: nat)
    requires m <= n <= |plan| && Mergeable(plan)
    requires RunUpTo(files, plan, m).failed.Some?
    ensures RunUpTo(files, plan, n) == RunUpTo(files, plan, m)
    decreases n
  {
    if n > m {
      RunStaysFailed(files, plan, m, n - 1);
    }
  }

  /** One more step after a run that has not failed. */
  lemma RunStep(files: map<string, Json>, plan: seq<Step>, n: nat, current: map<string, Json>)
    requires n < |plan| && Mergeable(plan)
    requires RunUpTo(files, plan, n) == RunState(current, None)
    ensures RunUpTo(files, plan, n + 1)
         == if plan[n].file in current then RunState(current[plan[n].file := Merge(current[plan[n].file], plan[n].tree)], None)
            else RunState(current, Some(plan[n].file))
  {
  }

  /** The outcome of a real run that stops at a missing file. */
  lemma OutcomeOfFailedRun(files: map<string, Json>, req: ApplyRequest, typeKeys: nat -> nat -> string, toneKeys: nat -> string, n: nat)
    requires LANGUAGE_FILE in files && At(files[LANGUAGE_FILE], NestPath(req.domain, req.name)).None? && !req.dryRun
    requires n <= 1 + |TYPES| + |TONES|
    requires RunUpTo(files, Plan(req.domain, req.name, req.content, typeKeys, toneKeys), n).failed.Some?
    ensures var st := RunUpTo(files, Plan(req.domain, req.name, req.content, typeKeys, toneKeys), n);
      ApplyOutcome(files, req, typeKeys, toneKeys) == (Err(ReadFailed(st.failed.value)), st.files)
  {
    var plan := Plan(req.domain, req.name, req.content, typeKeys, toneKeys);
    RunStaysFailed(files, plan, n, |plan|);
  }

  /** The outcome of a run that passes the gate and completes. */
  lemma OutcomeOfCompleteRun(files: map<string, Json>, req: ApplyRequest, typeKeys: nat -> nat -> string, toneKeys: nat -> string, after: map<string, Json>)
    requires LANGUAGE_FILE in files && At(files[LANGUAGE_FILE], NestPath(req.domain, req.name)).None?
    requires req.dryRun ==> after == files
    requires !req.dryRun ==> RunUpTo(files, Plan(req.domain, req.name, req.content, typeKeys, toneKeys), 1 + |TYPES| + |TONES|) == RunState(after, None)
    ensures ApplyOutcome(files, req, typeKeys, toneKeys) == (Ok(ApplyResult(FilesModified(), Total(FilesModified()))), after)
  {
  }

  /** What the handler needs to know about the j-th turn of the Type loop. */
  lemma TypeTurn(d: string, n: string, c: ContentMatrix, typeKeys: nat -> nat -> string, toneKeys: nat -> string, j: nat)
    requires j < |TYPES|
    ensures TYPES[j].abbr in Abbrs(TYPES) && FindType(TYPES[j].abbr) == Some(j)
    ensures Plan(d, n, c, typeKeys, toneKeys)[1 + j] == Step(TYPES[j].file, TypeTree(d, n, j, typeKeys(j)))
  {
    assert Abbrs(TYPES)[j] == TYPES[j].abbr;
    FindTypeAt(j);
  }

  /** The report's entry for the j-th Type file. */
  lemma TypeChange(j: nat)
    requires j < |TYPES|
    ensures FilesModified()[1 + j] == FileChange(TYPES[j].file, 6)
  {
  }

  /** What the handler needs to know about the i-th turn of the Tone loop. */
  lemma ToneTurn(d: string, n: string, c: ContentMatrix, typeKeys: nat -> nat -> string, toneKeys: nat -> string, i: nat)
    requires i < |TONES|
    ensures Plan(d, n, c, typeKeys, toneKeys)[1 + |TYPES| + i] == Step(TONES[i].file, BuildToneTokens(d, n, TONES[i].abbr, toneKeys(i)))
  {
  }

  /** The report's entry for the i-th Tone file. */
  lemma ToneChange(i: nat)
    requires i < |TONES|
    ensures FilesModified()[1 + |TYPES| + i] == FileChange(TONES[i].file, 1)
  {
  }

  class TokenStore {
    var files: map<string, Json>

    constructor(files: map<string, Json>)
      ensures this.files == files
    {
      this.files := files;
    }

    /** `readTokenFile`, `deepMerge` and `writeTokenFile` on one file: a file
        the store does not hold cannot be read, and nothing is written. */
    method MergeInto(file: string, tree: Json) returns (ok: bool)
      requires tree.JObj?
      modifies this
      ensures ok == (file in old(files))
      ensures files == if ok then old(files)[file := Merge(old(files)[file], tree)] else old(files)
    {
      if file !in files {
        return false;
      }
      var merged := DeepMerge(files[file], tree);
      files := files[file := merged];
      return true;
    }

    /** `if (!dryRun) { read; merge; write }` for the k-th step of a run that
        started from `start`; false when the file cannot be read. */
    method MergeUnlessDry(ghost start: map<string, Json>, ghost plan: seq<Step>, k: nat, file: string, tree: Json, dryRun: bool)
      returns (ok: bool)
      requires k < |plan| && Mergeable(plan) && plan[k] == Step(file, tree)
      requires dryRun ==> files == start
      requires !dryRun ==> RunUpTo(start, plan, k) == RunState(files, None)
      modifies this
      ensures dryRun ==> ok && files == start
      ensures !dryRun ==> RunUpTo(start, plan, k + 1) == RunState(files, if ok then None else Some(file))
    {
      ok := true;
      if !dryRun {
        RunStep(start, plan, k, files);
        ok := MergeInto(file, tree);
      }
    }

    /** The loop over the Type files, continuing the report `modified` of a
        run that has passed the Language step; `failed` names the file that
        could not be read, which ends the loop. */
    method MergeTypeLayer(ghost start: map<string, Json>, ghost plan: seq<Step>,
                          domain: string, name: string, content: ContentMatrix,
                          typeKeys: nat -> nat -> string, toneKeys: nat -> string, dryRun: bool,
                          modified: seq<FileChange>)
      returns (filesModified: seq<FileChange>, failed: Option<string>)
      requires plan == Plan(domain, name, content, typeKeys, toneKeys)
      requires modified == FilesModified()[..1]
      requires dryRun ==> files == start
      requires !dryRun ==> RunUpTo(start, plan, 1) == RunState(files, None)
      modifies this
      ensures dryRun ==> files == start && failed.None?
      ensures !dryRun ==> RunUpTo(start, plan, 1 + |TYPES|) == RunState(files, failed)
      ensures failed.None? ==> filesModified == FilesModified()[..1 + |TYPES|]
    {
      filesModified := modified;
      for j := 0 to |TYPES|
        invariant filesModified == FilesModified()[..1 + j]
        invariant dryRun ==> files == start
        invariant !dryRun ==> RunUpTo(start, plan, 1 + j) == RunState(files, None)
      {
        var ok;
        ok, filesModified := TypeTurnStep(start, plan, domain, name, content, typeKeys, toneKeys, dryRun, j, filesModified);
        if !ok {
          return filesModified, Some(TYPES[j].file);
        }
      }
      return filesModified, None;
    }

    /** One turn of the Type loop and its entry in the report; a file that
        cannot be read ends the run. */
    method TypeTurnStep(ghost start: map<string, Json>, ghost plan: seq<Step>,
                        domain: string, name: string, content: ContentMatrix,
                        typeKeys: nat -> nat -> string, toneKeys: nat -> string, dryRun: bool,
                        j: nat, modified: seq<FileChange>)
      returns (ok: bool, filesModified: seq<FileChange>)
      requires plan == Plan(domain, name, content, typeKeys, toneKeys) && j < |TYPES|
      requires modified == FilesModified()[..1 + j]
      requires dryRun ==> files == start
      requires !dryRun ==> RunUpTo(start, plan, 1 + j) == RunState(files, None)
      modifies this
      ensures dryRun ==> ok && files == start
      ensures ok ==> filesModified == FilesModified()[..2 + j]
      ensures !dryRun && ok ==> RunUpTo(start, plan, 2 + j) == RunState(files, None)
      ensures !dryRun && !ok ==> RunUpTo(start, plan, 1 + |TYPES|) == RunState(files, Some(TYPES[j].file))
    {
      filesModified := modified;
      ok := MergeTypeFile(start, plan, domain, name, content, typeKeys, toneKeys, dryRun, j);
      if !ok {
        RunStaysFailed(start, plan, 2 + j, 1 + |TYPES|);
        return;
      }
      TypeChange(j);
      PrefixSnoc(FilesModified(), 1 + j);
      filesModified := filesModified + [FileChange(TYPES[j].file, 6)];
    }

    /** One turn of the Type loop: build the j-th Type file's tokens and merge
        them into it unless the run is dry. */
    method MergeTypeFile(ghost start: map<string, Json>, ghost plan: seq<Step>,
                         domain: string, name: string, content: ContentMatrix,
                         typeKeys: nat -> nat -> string, toneKeys: nat -> string, dryRun: bool, j: nat)
      returns (ok: bool)
      requires plan == Plan(domain, name, content, typeKeys, toneKeys) && j < |TYPES|
      requires dryRun ==> files == start
      requires !dryRun ==> RunUpTo(start, plan, 1 + j) == RunState(files, None)
      modifies this
      ensures dryRun ==> ok && files == start
      ensures !dryRun ==> RunUpTo(start, plan, 2 + j) == RunState(files, if ok then None else Some(TYPES[j].file))
    {
      var ty := TYPES[j];
      TypeTurn(domain, name, content, typeKeys, toneKeys, j);
      var typeTokens := BuildTypeTokens(domain, name, ty.abbr, typeKeys(j));
      ok := MergeUnlessDry(start, plan, 1 + j, ty.file, typeTokens.value, dryRun);
    }

    /** The loop over the Tone files, continuing the report `modified` of a
        run that has passed the Type files. */
    method MergeToneLayer(ghost start: map<string, Json>, ghost plan: seq<Step>,
                          domain: string, name: string, content: ContentMatrix,
                          typeKeys: nat -> nat -> string, toneKeys: nat -> string, dryRun: bool,
                          modified: seq<FileChange>)
      returns (filesModified: seq<FileChange>, failed: Option<string>)
      requires plan == Plan(domain, name, content, typeKeys, toneKeys)
      requires modified == FilesModified()[..1 + |TYPES|]
      requires dryRun ==> files == start
      requires !dryRun ==> RunUpTo(start, plan, 1 + |TYPES|) == RunState(files, None)
      modifies this
      ensures dryRun ==> files == start && failed.None?
      ensures !dryRun ==> RunUpTo(start, plan, 1 + |TYPES| + |TONES|) == RunState(files, failed)
      ensures failed.None? ==> filesModified == FilesModified()
    {
      filesModified := modified;
      for i := 0 to |TONES|
        invariant filesModified == FilesModified()[..1 + |TYPES| + i]
        invariant dryRun ==> files == start
        invariant !dryRun ==> RunUpTo(start, plan, 1 + |TYPES| + i) == RunState(files, None)
      {
        var ok;
        ok, filesModified := ToneTurnStep(start, plan, domain, name, content, typeKeys, toneKeys, dryRun, i, filesModified);
        if !ok {
          return filesModified, Some(TONES[i].file);
        }
      }
      assert filesModified == FilesModified()[..|FilesModified()|];
      return filesModified, None;
    }

    /** One turn of the Tone loop and its entry in the report; a file that
        cannot be read ends the run. */
    method ToneTurnStep(ghost start: map<string, Json>, ghost plan: seq<Step>,
                        domain: string, name: string, content: ContentMatrix,
                        typeKeys: nat -> nat -> string, toneKeys: nat -> string, dryRun: bool,
                        i: nat, modified: seq<FileChange>)
      returns (ok: bool, filesModified: seq<FileChange>)
      requires plan == Plan(domain, name, content, typeKeys, toneKeys) && i < |TONES|
      requires modified == FilesModified()[..1 + |TYPES| + i]
      requires dryRun ==> files == start
      requires !dryRun ==> RunUpTo(start, plan, 1 + |TYPES| + i) == RunState(files, None)
      modifies this
      ensures dryRun ==> ok && files == start
      ensures ok ==> filesModified == FilesModified()[..2 + |TYPES| + i]
      ensures !dryRun && ok ==> RunUpTo(start, plan, 2 + |TYPES| + i) == RunState(files, None)
      ensures !dryRun && !ok ==> RunUpTo(start, plan, 1 + |TYPES| + |TONES|) == RunState(files, Some(TONES[i].file))
    {
      filesModified := modified;
      ok := MergeToneFile(start, plan, domain, name, content, typeKeys, toneKeys, dryRun, i);
      if !ok {
        RunStaysFailed(start, plan, 2 + |TYPES| + i, 1 + |TYPES| + |TONES|);
        return;
      }
      ToneChange(i);
      PrefixSnoc(FilesModified(), 1 + |TYPES| + i);
      filesModified := filesModified + [FileChange(TONES[i].file, 1)];
    }

    /** One turn of the Tone loop: build the i-th Tone file's token and merge
        it into the file unless the run is dry. */
    method MergeToneFile(ghost start: map<string, Json>, ghost plan: seq<Step>,
                         domain: string, name: string, content: ContentMatrix,
                         typeKeys: nat -> nat -> string, toneKeys: nat -> string, dryRun: bool, i: nat)
      returns (ok: bool)
      requires plan == Plan(domain, name, content, typeKeys, toneKeys) && i < |TONES|
      requires dryRun ==> files == start
      requires !dryRun ==> RunUpTo(start, plan, 1 + |TYPES| + i) == RunState(files, None)
      modifies this
      ensures dryRun ==> ok && files == start
      ensures !dryRun ==> RunUpTo(start, plan, 2 + |TYPES| + i) == RunState(files, if ok then None else Some(TONES[i].file))
    {
      var tone := TONES[i];
      ToneTurn(domain, name, content, typeKeys, toneKeys, i);
      var toneTokens := BuildToneTokens(domain, name, tone.abbr, toneKeys(i));
      ok := MergeUnlessDry(start, plan, 1 + |TYPES| + i, tone.file, toneTokens, dryRun);
    }

    /** The thirteen steps and the report, for a request that has passed the
        duplicate gate. */
    method RunLayers(req: ApplyRequest, typeKeys: nat -> nat -> string, toneKeys: nat -> string)
      returns (r: Result<ApplyResult, ApplyError>)
      requires LANGUAGE_FILE in files && At(files[LANGUAGE_FILE], NestPath(req.domain, req.name)).None?
      modifies this
      ensures (r, files) == ApplyOutcome(old(files), req, typeKeys, toneKeys)
    {
      var domain, name, content, dryRun := req.domain, req.name, req.content, req.dryRun;
      ghost var start := files;
      ghost var plan := Plan(domain, name, content, typeKeys, toneKeys);

      var langTokens := BuildLanguageTokens(domain, name, content);
      var ok := MergeUnlessDry(start, plan, 0, LANGUAGE_FILE, langTokens, dryRun);
      var filesModified := [FileChange(LANGUAGE_FILE, 36)];
      var failed: Option<string>;
      filesModified, failed := MergeTypeLayer(start, plan, domain, name, content, typeKeys, toneKeys, dryRun, filesModified);
      if failed.Some? {
        OutcomeOfFailedRun(start, req, typeKeys, toneKeys, 1 + |TYPES|);
        return Err(ReadFailed(failed.value));
      }
      filesModified, failed := MergeToneLayer(start, plan, domain, name, content, typeKeys, toneKeys, dryRun, filesModified);
      if failed.Some? {
        OutcomeOfFailedRun(start, req, typeKeys, toneKeys, 1 + |TYPES| + |TONES|);
        return Err(ReadFailed(failed.value));
      }
      var totalTokens := SumTokens(filesModified);
      OutcomeOfCompleteRun(start, req, typeKeys, toneKeys, files);
      return Ok(ApplyResult(filesModified, totalTokens));
    }

    /** The handler body: the Language file must be readable and must not
        hold the entry already. */
    method Apply(req: ApplyRequest, typeKeys: nat -> nat -> string, toneKeys: nat -> string)
      returns (r: Result<ApplyResult, ApplyError>)
      modifies this
      ensures (r, files) == ApplyOutcome(old(files), req, typeKeys, toneKeys)
    {
      if LANGUAGE_FILE !in files {
        return Err(ReadFailed(LANGUAGE_FILE));
      }
      var exists_ := CheckDuplicates(files[LANGUAGE_FILE], req.domain, req.name);
      if exists_ {
        return Err(AlreadyExists(DuplicateMessage(req.domain, req.name)));
      }
      r := RunLayers(req, typeKeys, toneKeys);
    }
  }

  /** `filesModified.reduce((sum, f) => sum + f.tokensAdded, 0)`, as a loop. */
  method SumTokens(changes: seq<FileChange>) returns (total: nat)
    ensures total == Total(changes)
  {
    total := 0;
    for k := 0 to |changes|
      invariant total == Total(changes[..k])
    {
      assert changes[..k + 1][..k] == changes[..k];
      total := total + changes[k].tokensAdded;
    }
    assert changes[..|changes|] == changes;
  }

  // ---------------------------------------------------------------------
  // what apply promises
  // ---------------------------------------------------------------------

  /** An entry whose path the Language file already holds is refused with its
      message, and no file changes. */
  lemma ApplyRejectsDuplicate(files: map<string, Json>, req: ApplyRequest, typeKeys: nat -> nat -> string, toneKeys: nat -> string)
    requires LANGUAGE_FILE in files && At(files[LANGUAGE_FILE], NestPath(req.domain, req.name)).Some?
    ensures ApplyOutcome(files, req, typeKeys, toneKeys)
         == (Err(AlreadyExists("Content entry \"" + req.domain + "." + req.name + "\" already exists")), files)
  {
  }

  lemma {:induction false} TotalPrefix(n: nat)
    requires 1 <= n <= 1 + |TYPES| + |TONES|
    ensures Total(FilesModified()[..n]) == if n <= 7 then 36 + 6 * (n - 1) else 72 + (n - 7)
    decreases n
  {
    var r := FilesModified();
    assert r[..n][..n - 1] == r[..n - 1];
    if n > 1 {
      TotalPrefix(n - 1);
    } else {
      assert r[..0] == [];
    }
  }

  /** A successful apply reports thirteen files, the Language file first with
      36 tokens, then the Type files in catalogue order with 6 each, then the
      Tone files with 1 each, and 78 tokens in all, whatever the merges added. */
  lemma ApplyReport(files: map<string, Json>, req: ApplyRequest, typeKeys: nat -> nat -> string, toneKeys: nat -> string)
    requires ApplyOutcome(files, req, typeKeys, toneKeys).0.Ok?
    ensures var res := ApplyOutcome(files, req, typeKeys, toneKeys).0.value;
      && |res.filesModified| == 13
      && res.filesModified[0] == FileChange(LANGUAGE_FILE, 36)
      && (forall j :: 0 <= j < |TYPES| ==> res.filesModified[1 + j] == FileChange(TYPES[j].file, 6))
      && (forall i :: 0 <= i < |TONES| ==> res.filesModified[7 + i] == FileChange(TONES[i].file, 1))
      && res.totalTokens == 78
  {
    OkIsReport(files, req, typeKeys, toneKeys);
    ReportLayout();
  }

  /** Every successful apply returns the same report. */
  lemma OkIsReport(files: map<string, Json>, req: ApplyRequest, typeKeys: nat -> nat -> string, toneKeys: nat -> string)
    requires ApplyOutcome(files, req, typeKeys, toneKeys).0.Ok?
    ensures ApplyOutcome(files, req, typeKeys, toneKeys).0.value == ApplyResult(FilesModified(), Total(FilesModified()))
  {
  }

  /** The layout of the report of a completed run. */
  lemma ReportLayout()
    ensures var r := FilesModified();
      && |r| == 13
      && r[0] == FileChange(LANGUAGE_FILE, 36)
      && (forall j :: 0 <= j < |TYPES| ==> r[1 + j] == FileChange(TYPES[j].file, 6))
      && (forall i :: 0 <= i < |TONES| ==> r[7 + i] == FileChange(TONES[i].file, 1))
      && Total(r) == 78
  {
    TotalPrefix(13);
    assert FilesModified()[..13] == FilesModified();
  }

  /** With every file of the plan present, the run never fails and keeps the
      store's set of files. */
  lemma {:induction false} RunUpToSucceeds(files: map<string, Json>, plan: seq<Step>, n: nat)
    requires n <= |plan| && Mergeable(plan)
    requires forall k :: 0 <= k < |plan| ==> plan[k].file in files
    ensures RunUpTo(files, plan, n).failed.None?
    ensures RunUpTo(files, plan, n).files.Keys == files.Keys
    decreases n
  {
    if n > 0 {
      RunUpToSucceeds(files, plan, n - 1);
    }
  }

  /** A file no step among the first `n` names is as it was. */
  lemma {:induction false} RunUpToUntouched(files: map<string, Json>, plan: seq<Step>, n: nat, f: string)
    requires n <= |plan| && Mergeable(plan)
    requires forall k :: 0 <= k < |plan| ==> plan[k].file in files
    requires f in files && forall k :: 0 <= k < n ==> plan[k].file != f
    ensures f in RunUpTo(files, plan, n).files && RunUpTo(files, plan, n).files[f] == files[f]
    decreases n
  {
    RunUpToSucceeds(files, plan, n);
    if n > 0 {
      RunUpToUntouched(files, plan, n - 1, f);
    }
  }

  /** Steps that name other files leave a file as it was, and no step adds
      or removes a file. */
  lemma {:induction false} RunUpToKeeps(files: map<string, Json>, plan: seq<Step>, m: nat, n: nat, f: string)
    requires m <= n <= |plan| && Mergeable(plan)
    requires forall k :: m <= k < n ==> plan[k].file != f
    requires RunUpTo(files, plan, n).failed.None?
    ensures RunUpTo(files, plan, m).failed.None?
    ensures RunUpTo(files, plan, n).files.Keys == RunUpTo(files, plan, m).files.Keys
    ensures f in RunUpTo(files, plan, m).files ==> RunUpTo(files, plan, n).files[f] == RunUpTo(files, plan, m).files[f]
    decreases n
  {
    if n > m {
      RunUpToKeeps(files, plan, m, n - 1, f);
    }
  }

  /** With distinct files, the file of step k, once the run is past it, holds
      the merge of its old content with the tree of step k. */
  lemma RunUpToMerged(files: map<string, Json>, plan: seq<Step>, n: nat, k: nat)
    requires k < n <= |plan| && Mergeable(plan)
    requires forall m :: 0 <= m < |plan| ==> plan[m].file in files
    requires forall m :: 0 <= m < |plan| && m != k ==> plan[m].file != plan[k].file
    ensures plan[k].file in RunUpTo(files, plan, n).files
    ensures RunUpTo(files, plan, n).files[plan[k].file] == Merge(files[plan[k].file], plan[k].tree)
  {
    var f := plan[k].file;
    RunUpToSucceeds(files, plan, n);
    RunUpToSucceeds(files, plan, k);
    RunUpToUntouched(files, plan, k, f);
    var before := RunUpTo(files, plan, k).files;
    assert RunUpTo(files, plan, k) == RunState(before, None);
    RunStep(files, plan, k, before);
    var after := RunUpTo(files, plan, k + 1);
    assert after.failed.None? && after.files[f] == Merge(files[f], plan[k].tree);
    RunUpToKeeps(files, plan, k + 1, n, f);
  }

  /** A real run over a store that holds every layer file and not the entry:
      it succeeds, each of the thirteen files becomes the merge of its old
      content with its built tree, and no other file changes. */
  lemma ApplyWritesMerges(files: map<string, Json>, req: ApplyRequest, typeKeys: nat -> nat -> string, toneKeys: nat -> string)
    requires forall f :: f in LayerFiles() ==> f in files
    requires At(files[LANGUAGE_FILE], NestPath(req.domain, req.name)).None?
    requires !req.dryRun
    ensures var (r, after) := ApplyOutcome(files, req, typeKeys, toneKeys);
      var plan := Plan(req.domain, req.name, req.content, typeKeys, toneKeys);
      && r.Ok?
      && after.Keys == files.Keys
      && (forall k :: 0 <= k < |plan| ==> after[plan[k].file] == Merge(files[plan[k].file], plan[k].tree))
      && (forall f :: f in files && f !in LayerFiles() ==> after[f] == files[f])
  {
    var plan := Plan(req.domain, req.name, req.content, typeKeys, toneKeys);
    assert LayerFiles()[0] == LANGUAGE_FILE;
    forall k | 0 <= k < |plan| ensures plan[k].file in files {
      assert LayerFiles()[k] in LayerFiles();
    }
    LayerFilesDistinct();
    RunUpToSucceeds(files, plan, |plan|);
    var after := RunUpTo(files, plan, |plan|).files;
    forall k | 0 <= k < |plan| ensures after[plan[k].file] == Merge(files[plan[k].file], plan[k].tree) {
      forall m | 0 <= m < |plan| && m != k ensures plan[m].file != plan[k].file {
        assert LayerFiles()[m] != LayerFiles()[k];
      }
      RunUpToMerged(files, plan, |plan|, k);
    }
    forall f | f in files && f !in LayerFiles() ensures after[f] == files[f] {
      forall k | 0 <= k < |plan| ensures plan[k].file != f {
        assert LayerFiles()[k] in LayerFiles();
      }
      RunUpToUntouched(files, plan, |plan|, f);
    }
  }

  /** A dry run over the same store returns what the real run returns, and
      changes nothing. */
  lemma DryRunMatchesRealRun(files: map<string, Json>, req: ApplyRequest, typeKeys: nat -> nat -> string, toneKeys: nat -> string)
    requires forall f :: f in LayerFiles() ==> f in files
    requires req.dryRun
    ensures ApplyOutcome(files, req, typeKeys, toneKeys).1 == files
    ensures ApplyOutcome(files, req, typeKeys, toneKeys).0 == ApplyOutcome(files, req.(dryRun := false), typeKeys, toneKeys).0
  {
    var writing := req.(dryRun := false);
    assert LayerFiles()[0] == LANGUAGE_FILE;
    if At(files[LANGUAGE_FILE], NestPath(req.domain, req.name)).None? {
      ApplyWritesMerges(files, writing, typeKeys, toneKeys);
    }
  }

  /** After a successful real apply, applying the same entry again is refused
      as a duplicate, provided the old Language document held an object (and
      no non-object) all along the entry's path. */
  lemma SecondApplyIsDuplicate(files: map<string, Json>, req: ApplyRequest, again: ApplyRequest,
                               typeKeys: nat -> nat -> string, toneKeys: nat -> string,
                               typeKeys': nat -> nat -> string, toneKeys': nat -> string)
    requires !req.dryRun && again.domain == req.domain && again.name == req.name
    requires LANGUAGE_FILE in files && files[LANGUAGE_FILE].JObj?
    requires Compatible(files[LANGUAGE_FILE], NestPath(req.domain, req.name))
    requires ApplyOutcome(files, req, typeKeys, toneKeys).0.Ok?
    ensures ApplyOutcome(ApplyOutcome(files, req, typeKeys, toneKeys).1, again, typeKeys', toneKeys').0
         == Err(AlreadyExists(DuplicateMessage(req.domain, req.name)))
  {
    var d, n := req.domain, req.name;
    var plan := Plan(req.domain, req.name, req.content, typeKeys, toneKeys);
    var st := RunUpTo(files, plan, |plan|);
    var tree := LanguageTree(d, n, req.content);
    assert st.failed.None?;
    assert RunUpTo(files, plan, 1).files[LANGUAGE_FILE] == Merge(files[LANGUAGE_FILE], tree);
    assert st.files[LANGUAGE_FILE] == Merge(files[LANGUAGE_FILE], tree) by {
      LayerFilesDistinct();
      forall k | 1 <= k < |plan| ensures plan[k].file != plan[0].file {
        assert LayerFiles()[k] != LayerFiles()[0];
      }
      RunUpToKeeps(files, plan, 1, |plan|, LANGUAGE_FILE);
    }
    NestedReaches(NestPath(d, n), JObj(NameGroup(d, n, req.content)));
    LanguageTreeWellFormed(d, n, req.content);
    MergeAddsPaths(files[LANGUAGE_FILE], tree, NestPath(d, n));
    GetThenAt(Merge(files[LANGUAGE_FILE], tree), NestPath(d, n));
  }
}
