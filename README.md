# figma-content-framework: a verified model of the token pipeline

This project is a Dafny model of the core of figma-content-framework. The framework turns one content entry — a domain, a name and a 6 × 6 matrix of texts (six tones times six types) — into Figma design tokens spread over thirteen token files:

- the Language file holds 36 text tokens;
- each of the six Type files holds 6 aliases to Language tokens;
- each of the six Tone files holds 1 alias to a Type token.

The model covers these parts of the system:

| module | file | what it models |
|---|---|---|
| `CodeSyntax` | `code_syntax.dfy` | the web, Android and iOS identifiers derived from a dotted token path |
| `Constants` | `constants.dfy` | the two ordered registries of tones and types, their file names and abbreviation maps |
| `Types` | `types.dfy` | the content matrix and token value types, and the JSON shape of a token |
| `TokenBuilder` | `token_builder.dfy` | the three tree builders and `setNested`, with the random reference keys passed in |
| `FileManager` | `file_manager.dfy` | the additive `deepMerge` and the duplicate walk of `checkDuplicates` |
| `Apply` | `apply.dfy` | the `apply` handler over a class that holds the file store |
| `Preview` | `preview.dfy` | `extractTokens` and the `preview` handler |
| `TokenList`, `TokenListBuilt` | `list.dfy` | `extractEntries`, the domain walk of `list`, and how `list` reads what the builder writes |
| `Generate` | `generate.dfy` | the prompt, the content validator and the two-attempt retry loop, over the replies of the language model |
| `Add` | `add.dfy` | the CLI `add` command: name parsing, entry resolution, the summary counters and table-cell truncation |

Supporting modules:

- `Wrappers`: `Option` and `Result`.
- `Strings`: `split`, `join`, `trim`, whitespace runs, ASCII case.
- `Paths`: dotted paths.
- `Assoc`: association lists used as JavaScript objects.
- `Json`: the document datatype, property access as JavaScript does it, and `String(...)`.

Documents are JSON values whose objects are association lists with distinct keys, kept in insertion order. Traversal order is therefore part of the model, and so is the order of keys in merges and records.

The token store that `apply` reads and writes is the `files: map<string, Json>` field of the class `Apply.TokenStore`. A file missing from the map stands for a read that fails.

Everything the handlers receive from outside is a parameter of the model:

- the random 40-character reference keys;
- the replies of the language model;
- the lines typed at the interactive prompt;
- the text of the input file;
- how each entry's client calls and confirmation turn out.

Where the written description of the system and the code disagree, the model follows the code:

- **The iOS identifier keeps its first segment verbatim.** It is not lower-cased (`CodeSyntax.IosSyntaxFirstPiece`).
- **`add` resolves every name before it processes any entry.** One name that cannot be resolved therefore aborts the whole batch, instead of failing that entry alone (`Add.ConcludeFails`).

## Model

| member | source | states |
|---|---|---|
| CodeSyntax.ReplaceChar | packages/core/src/code-syntax.ts:13 | a global single-character replace keeps the length and changes exactly the occurrences of the character |
| CodeSyntax.WebSyntax | packages/core/src/code-syntax.ts:12-15 | the web identifier is `var(--` + the path with every `.` turned into `-` + `)`; no other character changes |
| CodeSyntax.AndroidSyntax | packages/core/src/code-syntax.ts:17-19 | the Android identifier has the path's length, holds no `.` and no `-`, and changes only those two characters, each to `_` |
| CodeSyntax.SplitRuns | packages/core/src/code-syntax.ts:22 | splitting on `/[.-]+/` gives at least one piece and no piece holds a separator |
| CodeSyntax.IosSyntaxSepFree | packages/core/src/code-syntax.ts:21-26 | the iOS identifier never holds a `.` or a `-` |
| CodeSyntax.SkipRun | packages/core/src/code-syntax.ts:22 | a whole run of separators before a piece is skipped at once |
| CodeSyntax.SplitRunsPrefix | packages/core/src/code-syntax.ts:22 | a separator-free prefix stays one piece with what follows up to the next separator |
| CodeSyntax.IosSyntaxBreak | packages/core/src/code-syntax.ts:22-25 | a run of any number of separators acts as one break: the text after it is capitalised once and appended |
| CodeSyntax.IosSyntaxFirstPiece | packages/core/src/code-syntax.ts:23-24 | a path without separators is its own iOS identifier: the first piece is kept as it is, not lower-cased |
| CodeSyntax.IosSyntaxTwoPieces | packages/core/src/code-syntax.ts:23-25 | two pieces joined by one separator give the first piece verbatim and the second with its first character upper-cased |
| CodeSyntax.CapitalizeAppend | packages/core/src/code-syntax.ts:24 | capitalising touches only the first character |
| CodeSyntax.IosOfPieces | packages/core/src/code-syntax.ts:21-26 | the iOS identifier of a Language token path is its first piece followed by every later piece capitalised |
| CodeSyntax.WebOfPieces | packages/core/src/code-syntax.ts:12-15 | the web identifier of a Language token path, piece by piece |
| CodeSyntax.AndroidOfPieces | packages/core/src/code-syntax.ts:17-19 | the Android identifier of a Language token path, piece by piece, `--` becoming `__` |
| CodeSyntax.WebExample | packages/core/src/code-syntax.ts:4-7 | the documented example's web identifier |
| CodeSyntax.AndroidExample | packages/core/src/code-syntax.ts:4-8 | the documented example's Android identifier |
| CodeSyntax.IosExample | packages/core/src/code-syntax.ts:4-9 | the documented example's iOS identifier |
| CodeSyntax.CodeSyntaxExample | packages/core/src/code-syntax.ts:28-34 | `codeSyntax` of the documented example gives the three documented identifiers |
| Constants.TonesInOrder | packages/core/src/constants.ts:3-10 | six tones, in the order neutral, formal, playful, minimal, witty, quirky |
| Constants.TypesInOrder | packages/core/src/constants.ts:12-19 | six types, in the order title, subtitle, description, caption, abbreviation, emoji |
| Constants.ToneNamesDistinct | packages/core/src/constants.ts:4-9 | the tone abbreviations are pairwise distinct, and so are the full names |
| Constants.TypeNamesDistinct | packages/core/src/constants.ts:13-18 | the type abbreviations are pairwise distinct, and so are the full names |
| Constants.TypeFilesDistinct | packages/core/src/constants.ts:13-18 | two different types have different file names |
| Constants.ToneFilesDistinct | packages/core/src/constants.ts:4-9 | two different tones have different file names |
| Constants.LayerFiles | packages/core/src/constants.ts:3-21 | the thirteen files in handler order: Language, then the Type files, then the Tone files |
| Constants.LayerFilesDiffer | packages/core/src/constants.ts:3-21 | two positions of that order name different files |
| Constants.LayerFilesDistinct | packages/core/src/constants.ts:3-21 | the Language file and the twelve layer files are thirteen pairwise-distinct names |
| Constants.FromEntries | packages/core/src/constants.ts:23-29 | `Object.fromEntries` gives a record whose keys are distinct |
| Constants.FromEntriesFresh | packages/core/src/constants.ts:23-29 | entries with distinct keys are recorded as they are, in order |
| Constants.ToneAbbrMapLookup | packages/core/src/constants.ts:23-25 | `TONE_ABBR_MAP[t.full]` is `t.abbr` for every tone |
| Constants.TypeAbbrMapLookup | packages/core/src/constants.ts:27-29 | `TYPE_ABBR_MAP[t.full]` is `t.abbr` for every type |
| Types.ContentKey | packages/core/src/token-builder.ts:10-20 | `contentKey` finds a key exactly for the six type names, and the key is the type name itself |
| Types.CellOfRegistries | packages/core/src/types.ts:13-29 | the tone full names are the keys of `ContentMatrix` and the type full names the fields of `ContentEntry`, in registry order |
| Types.TokenJsonFields | packages/core/src/types.ts:35-52 | where `$type`, `$value` and `$extensions.figma` sit in a token object |
| Types.FigmaJsonFields | packages/core/src/types.ts:43-52 | where the scopes, code syntax, publishing flag and optional reference key sit |
| Types.DecodeTokenJson | packages/core/src/types.ts:35-52 | a token read back from its JSON object is the token |
| Types.TokenJsonWellFormed | packages/core/src/types.ts:35-52 | a token object is well formed and is recognised as a token by its `$type` key |
| TokenBuilder.Dereference | packages/core/src/token-builder.ts:80 | an alias is read back only from a string in braces |
| TokenBuilder.DereferenceReference | packages/core/src/token-builder.ts:80 | the path inside an alias is the path it was built from |
| TokenBuilder.Nested | packages/core/src/token-builder.ts:137-158 | a chain of parts yields a one-key object |
| TokenBuilder.SetNested | packages/core/src/token-builder.ts:137-158 | the loop that advances `current` builds the chain of single-key objects along `domain.split(".") ++ [name]` |
| TokenBuilder.NestedReaches | packages/core/src/token-builder.ts:137-158 | walking `domain.split(".") ++ [name]` from the root reaches the wrapped value |
| TokenBuilder.NestedSingleKeys | packages/core/src/token-builder.ts:144-151 | every object on the way, the root included, has exactly one key: the next part |
| TokenBuilder.NestedThen | packages/core/src/token-builder.ts:137-158 | walking past the chain continues inside the wrapped value |
| TokenBuilder.ToneGroup | packages/core/src/token-builder.ts:37-54 | `toneTokens`: one token per type, in registry order, under its Language key |
| TokenBuilder.NameGroup | packages/core/src/token-builder.ts:33-57 | `nameGroup`: one tone group per tone, under the tone's full name, in registry order |
| TokenBuilder.LangKeysDistinct | packages/core/src/token-builder.ts:40 | different types give different Language keys within a tone |
| TokenBuilder.NameGroupDistinct | packages/core/src/token-builder.ts:33-57 | the name group holds each tone once |
| TokenBuilder.ToneGroupDistinct | packages/core/src/token-builder.ts:37-54 | a tone group holds each Language key once |
| TokenBuilder.BuildLanguageTokens | packages/core/src/token-builder.ts:28-60 | the two nested loops that fill `toneTokens` and `nameGroup` build the Language tree |
| TokenBuilder.LanguageLeaf | packages/core/src/token-builder.ts:40-53 | the 36 leaves sit at `domain-parts ++ [name, tone.full, lang--abbr--abbr--name]`; each has `$type` text, the matrix cell as value, no scopes, is hidden, has no reference key, and carries `codeSyntax` of its own dotted path |
| TokenBuilder.LanguageTreeWellFormed | packages/core/src/token-builder.ts:28-60 | the Language tree holds every key once at every depth |
| TokenBuilder.FindType | packages/core/src/token-builder.ts:74 | `TYPES.find` finds the first type with the abbreviation, exactly when there is one |
| TokenBuilder.FindTypeAt | packages/core/src/token-builder.ts:74 | each type's own abbreviation finds that type |
| TokenBuilder.TypeGroup | packages/core/src/token-builder.ts:77-94 | one Type token per tone, in registry order, under `type--abbr--name` |
| TokenBuilder.TypeKeysDistinct | packages/core/src/token-builder.ts:78 | different tones give different Type keys |
| TokenBuilder.BuildTypeTokens | packages/core/src/token-builder.ts:68-97 | throws, with the source's message, exactly when the abbreviation is none of the six; otherwise builds the Type tree of that type |
| TokenBuilder.TypeLeaf | packages/core/src/token-builder.ts:77-93 | the 6 leaves sit at `domain-parts ++ [name, type--abbr--name]`; each value is `{` + the Language path of its tone and type + `}`; no scopes, hidden, the drawn reference key, `codeSyntax` of its own path |
| TokenBuilder.TypeTreeWellFormed | packages/core/src/token-builder.ts:68-97 | a Type tree holds every key once at every depth |
| TokenBuilder.ToneLeaf | packages/core/src/token-builder.ts:105-128 | the one leaf `tone--name` is the only key of its group; its value is `{` + the Type path of the given abbreviation + `}`, scoped to `TEXT_CONTENT`, published, with the drawn reference key; the abbreviation is not checked |
| TokenBuilder.ToneTreeWellFormed | packages/core/src/token-builder.ts:105-128 | the Tone tree holds every key once at every depth |
| TokenBuilder.Plan | apps/api/tokens/apply.ts:32-61 | the thirteen (file, tree) pairs the handlers build, in file order |
| TokenBuilder.StepAt | apps/api/tokens/apply.ts:32-61 | the k-th pair names the k-th layer file and holds an object |
| TokenBuilder.Resolve | packages/core/src/token-builder.ts:80 | an alias resolves only to a token found in the tree at its dotted path |
| TokenBuilder.TypeReferenceResolves | packages/core/src/token-builder.ts:78-80 | every Type alias resolves, in the Language tree, to the Language token of its tone and type |
| TokenBuilder.ToneReferenceResolves | packages/core/src/token-builder.ts:110-112 | every Tone alias resolves, in the Type tree, to the Type token of its tone |
| TokenBuilder.ReferenceChain | packages/core/src/token-builder.ts:28-128 | following a Tone alias and then the Type alias it reaches ends at the matrix cell of that tone and type |
| TokenBuilder.NoDotInRegistries | packages/core/src/constants.ts:3-19 | no registry name or abbreviation holds a dot |
| FileManager.DeepMerge | packages/core/src/file-manager.ts:27-55 | the loop over the source keys with its recursive calls computes the merge |
| FileManager.MergeLookup | packages/core/src/file-manager.ts:31-53 | the value under each key of the result: the target's, the source's, or their recursive merge |
| FileManager.MergeKeepsExisting | packages/core/src/file-manager.ts:37-51 | an existing value is never replaced unless both sides are objects |
| FileManager.MergeCopiesNew | packages/core/src/file-manager.ts:49-50 | a key only the source holds is copied with its value as it is |
| FileManager.MergeKeys | packages/core/src/file-manager.ts:31-53 | the target's keys keep their order at the front, and the result's keys are exactly the union of both sides' keys |
| FileManager.MergeEmpty | packages/core/src/file-manager.ts:27-31 | merging an empty source gives the target back |
| FileManager.MergeWellFormed | packages/core/src/file-manager.ts:27-55 | merging two well-formed objects gives a well-formed object |
| FileManager.MergeKeepsPaths | packages/core/src/file-manager.ts:37-51 | every path of the target is still present after the merge, and a non-object value on it is unchanged; token objects merge field-wise, so `$value` is never overwritten |
| FileManager.MergeAddsPaths | packages/core/src/file-manager.ts:37-51 | every path of the source is present after the merge, provided the target has no non-object value on its way; where the target reaches nothing, the merge holds exactly the source's value |
| FileManager.CheckDuplicates | packages/core/src/file-manager.ts:68-80 | the walk returns true exactly when every part of `domain.split(".") ++ [name]` is found in turn in a non-null object, stopping at the first miss or at a value that is neither an object nor an array; the last value may be a leaf |
| Json.GetThenAt | packages/core/src/file-manager.ts:72-74 | a value found through objects is found by the JavaScript walk too |
| Json.AtAppend | packages/core/src/file-manager.ts:72-78 | walking a concatenated path walks its two halves, and a miss stops the walk |
| Assoc.Put | packages/core/src/file-manager.ts:45-50 | assigning a key: the keys, the new value, and every other key unchanged |
| Assoc.PutDistinct | packages/core/src/file-manager.ts:45-50 | assignment keeps the keys of an object distinct |
| Assoc.AppendAllDistinct | apps/api/tokens/list.ts:60-63 | appending groups keeps their keys distinct |
| Strings.JoinSplit | packages/core/src/token-builder.ts:138 | joining the pieces of a split with the separator gives the string back |
| Strings.SplitJoin | packages/cli/src/commands/add.ts:47-48 | splitting a join of separator-free pieces gives the pieces back |
| Strings.Trim | packages/cli/src/commands/add.ts:22 | a trimmed string neither starts nor ends with whitespace |
| Strings.TrimSlice | packages/cli/src/commands/add.ts:22 | trimming removes only whitespace, and only at the two ends |
| Strings.HyphenateSpaces | packages/cli/src/commands/add.ts:35 | after replacing whitespace runs with `-`, no whitespace is left |
| Strings.HyphenateNoSpaces | packages/cli/src/commands/add.ts:35 | a string without whitespace is left as it is |
| Strings.HyphenateRun | packages/cli/src/commands/add.ts:35 | a maximal whitespace run after a word, of any length, becomes one hyphen, and the text after it is hyphenated in turn |
| Strings.ToLower | packages/cli/src/commands/add.ts:28-35 | lower-casing keeps the length and maps each character on its own |
| Strings.CanonicalIndexOfNat | packages/core/src/file-manager.ts:73 | rendering an index and reading it back as an array key gives the index |
| Apply.FilesModified | apps/api/tokens/apply.ts:30-61 | the report of a completed run: one entry per layer file, in file order, with the fixed counts |
| Apply.RunStaysFailed | apps/api/tokens/apply.ts:35-58 | a failed read ends the run: later steps change nothing |
| Apply.TokenStore.MergeInto | apps/api/tokens/apply.ts:35-37 | read, merge, write of one file: it succeeds exactly when the store holds the file, and changes only that file |
| Apply.TokenStore.MergeTypeLayer | apps/api/tokens/apply.ts:42-50 | the Type loop performs steps 2 to 7 of the run and pushes the six Type entries of the report |
| Apply.TokenStore.MergeToneLayer | apps/api/tokens/apply.ts:53-61 | the Tone loop performs steps 8 to 13 and pushes the six Tone entries |
| Apply.TokenStore.SumTokens | apps/api/tokens/apply.ts:63 | the `reduce` loop sums the counts |
| Apply.TokenStore.Apply | apps/api/tokens/apply.ts:21-66 | the handler returns, and leaves the store, as `ApplyOutcome` says |
| Apply.ApplyRejectsDuplicate | apps/api/tokens/apply.ts:25-28 | when the Language document holds the entry path, apply fails with the duplicate message and no file changes |
| Apply.ApplyReport | apps/api/tokens/apply.ts:30-65 | a successful apply reports 13 files: Language with 36, the Type files in order with 6, the Tone files in order with 1, 78 in total |
| Apply.OkIsReport | apps/api/tokens/apply.ts:39-63 | the counts are fixed: every successful apply returns the same report, whatever the merge added |
| Apply.ReportLayout | apps/api/tokens/apply.ts:30-63 | the layout and total of that fixed report |
| Apply.TotalPrefix | apps/api/tokens/apply.ts:63 | the running total of the report after its first n entries |
| Apply.RunUpToMerged | apps/api/tokens/apply.ts:35-58 | when every file is present, each file of a completed run holds the merge of its old content and its tree |
| Apply.RunUpToUntouched | apps/api/tokens/apply.ts:35-58 | a file no step names keeps its content |
| Apply.ApplyWritesMerges | apps/api/tokens/apply.ts:25-58 | a real run over a store holding all thirteen files succeeds, keeps the set of files, turns each layer file into `deepMerge(old, tree)` and leaves every other file alone |
| Apply.DryRunMatchesRealRun | apps/api/tokens/apply.ts:34-61 | a dry run leaves the store unchanged and returns what the real run returns |
| Apply.SecondApplyIsDuplicate | apps/api/tokens/apply.ts:25-37 | after a successful apply, applying the same domain and name again fails as a duplicate, provided no non-object sat on the entry path |
| Preview.Extract | apps/api/content/preview.ts:12-28 | a non-object yields an empty record |
| Preview.ExtractDistinct | apps/api/content/preview.ts:12-28 | the record holds each path once |
| Preview.ExtractTokens | apps/api/content/preview.ts:12-28 | the recursive loop with `Object.assign` computes the flattened record |
| Preview.Flat | apps/api/content/preview.ts:17-21 | a group of tokens flattens to one entry per token, in order, at `prefix.key` |
| Preview.ExtractFlat | apps/api/content/preview.ts:12-28 | an object of tokens with distinct keys flattens to exactly that list |
| Preview.ExtractGroups | apps/api/content/preview.ts:12-28 | an object of such groups flattens group after group |
| Preview.ExtractNested | apps/api/content/preview.ts:12-28 | flattening a tree wrapped by `setNested` flattens the inner object below the dotted chain |
| Preview.LanguageRecord | apps/api/content/preview.ts:36-37 | the Language tree flattens to 36 entries, tone-major, one per cell |
| Preview.TypeRecord | apps/api/content/preview.ts:47-48 | a Type tree flattens to 6 aliases to the Language paths of its type |
| Preview.ToneRecord | apps/api/content/preview.ts:59-60 | a Tone tree flattens to its one alias |
| Preview.Reports | apps/api/content/preview.ts:33-67 | one report per layer file |
| Preview.Preview | apps/api/content/preview.ts:30-73 | the handler with its two loops and the final sum returns `PreviewOf`, and reads no store |
| Preview.PreviewLayout | apps/api/content/preview.ts:36-67 | 13 files in file order, tagged language, then type six times, then tone six times |
| Preview.PreviewCounts | apps/api/content/preview.ts:36-69 | the counts are 36, then 6 per Type file, then 1 per Tone file, 78 in total |
| Preview.TotalCountAppend | apps/api/content/preview.ts:69 | the sum of the counts adds up over concatenation |
| Preview.PreviewPathsMatchBuilder | apps/api/content/preview.ts:18-21 | every path preview reports is the dotted path the builder used for `codeSyntax`, with the cell or alias the builder put there |
| Preview.PreviewIgnoresKeys | apps/api/content/preview.ts:30-73 | the preview does not depend on the drawn reference keys |
| Preview.EntryPath | packages/core/src/token-builder.ts:137-158 | the flattened path of the wrapper chain is `domain.name` |
| TokenList.WordRun | apps/api/tokens/list.ts:38 | the run of `\w` characters at the front of a string stops at the first non-word character |
| TokenList.MatchSound | apps/api/tokens/list.ts:38 | a match found for `^lang--(\w+)--(\w+)--(.+)$` is one: the key is assembled from its captures, the first two are words and the last is a non-empty line |
| TokenList.MatchComplete | apps/api/tokens/list.ts:38 | every key the pattern matches is found, with those captures |
| TokenList.MatchUnique | apps/api/tokens/list.ts:38-41 | because `\w` excludes `-`, the pattern matches a key in at most one way |
| TokenList.ExtractEntriesLoop | apps/api/tokens/list.ts:24-68 | the recursive loop with its pushes computes the groups of `extractEntries` |
| TokenList.VisitEntry | apps/api/tokens/list.ts:34-64 | one turn of the loop: a token is matched, filtered and pushed onto its group; an object is recursed into and its groups merged |
| TokenList.MergeNested | apps/api/tokens/list.ts:58-63 | nested groups are appended group after group, in traversal order |
| TokenList.ExtractDistinct | apps/api/tokens/list.ts:29-61 | the groups have distinct keys |
| TokenList.ExtractEntriesGood | apps/api/tokens/list.ts:36-63 | every group is non-empty, and each of its entries passes the tone and type filters, has word captures as tone and type, and has its group as the group key of its path |
| TokenList.ExtractGroups | apps/api/tokens/list.ts:29-67 | the groups are the listed tokens of the walk, grouped: each group key holds exactly the tokens whose path has that group key, in traversal order, and a key without such tokens is absent |
| TokenList.ExtractGrouping | apps/api/tokens/list.ts:29-67 | the same, for one group key |
| TokenList.TokensSound | apps/api/tokens/list.ts:33-57 | every token the walk lists is a `$type` object reached along a chain of entries, whose key matches the pattern and passes the filters, recorded with its full path, `String($value)` and the captures |
| TokenList.TokensComplete | apps/api/tokens/list.ts:33-59 | every such reachable token that matches and passes the filters is listed |
| TokenList.AppendToGood | apps/api/tokens/list.ts:51-57 | pushing a good entry keeps every group good |
| TokenList.GroupKeyOf | apps/api/tokens/list.ts:48-49 | dropping the last two segments of `p.f.key` gives `p` |
| TokenList.List | apps/api/tokens/list.ts:70-89 | the domain walk, which stops with empty entries at a value that is not an object, and the extraction compute `ListOf` |
| TokenList.AtStops | apps/api/tokens/list.ts:78-82 | once the walk reaches a value that is not an object, or nothing, the rest of the path cannot be walked |
| TokenList.AtStep | apps/api/tokens/list.ts:78-79 | one more step of the domain walk is one property access |
| TokenListBuilt.LangKeyMatches | apps/api/tokens/list.ts:38-41 | every Language key the builder writes matches, with its tone and type abbreviations and the name as captures |
| TokenListBuilt.LangPathGroup | apps/api/tokens/list.ts:48-49 | every Language token the builder writes is grouped under `domain.name` |
| TokenListBuilt.ToneAbbrIsWord | apps/api/tokens/list.ts:38 | the tone abbreviations are `\w+` words |
| TokenListBuilt.TypeAbbrIsWord | apps/api/tokens/list.ts:38 | the type abbreviations are `\w+` words |
| TokenListBuilt.BuiltTokens | apps/api/tokens/list.ts:33-64 | walking the freshly built Language tree lists its 36 tokens, tone after tone and type after type, below `domain.name` |
| TokenListBuilt.ListOneGroup | apps/api/tokens/list.ts:47-57 | when every listed token lies in one group, the list has that one group and it holds them all, in order |
| TokenListBuilt.ListBuiltLanguage | apps/api/tokens/list.ts:70-89 | listing the freshly built Language file without filters gives the one group `domain.name`, holding the 36 tokens in tone-major order, each with the builder's path, its matrix cell, and the tone and type abbreviations |
| Generate.BuildUserPrompt | apps/api/content/generate.ts:41-51 | the prompt is the title, domain and name lines, and the context line when there is one, joined by newlines |
| Generate.PromptContext | apps/api/content/generate.ts:46-48 | the context line is present exactly when the context is set and not empty |
| Generate.PromptReadsBack | apps/api/content/generate.ts:41-51 | for one-line parameters, splitting the prompt at newlines gives its lines back |
| Generate.ValidatorCatalogues | apps/api/content/generate.ts:56-57 | the validator's tone and type lists are the registries' full names, in order |
| Generate.ValidateContentMatrix | apps/api/content/generate.ts:53-69 | accepts exactly a non-null object whose six tone members are non-null objects with six non-empty string fields |
| Generate.ValidateTone | apps/api/content/generate.ts:60-65 | the inner loop accepts exactly a tone object with six non-empty string fields |
| Generate.ExtraToneIgnored | apps/api/content/generate.ts:53-69 | a member under a key that is not a tone changes nothing |
| Generate.ExtraTypeIgnored | apps/api/content/generate.ts:62-65 | a member under a key that is not a type changes nothing |
| Generate.ToneObject | apps/api/content/generate.ts:60-61 | an accepted reply holds a valid tone object under each tone |
| Generate.TypeText | apps/api/content/generate.ts:63-64 | a valid tone object holds a non-empty string under each type |
| Generate.MatrixOfCells | apps/api/content/generate.ts:95 | the matrix an accepted reply stands for holds, in each cell, the non-empty text the reply holds there |
| Generate.MatrixOfCellValue | apps/api/content/generate.ts:95 | the builder reads from that matrix exactly the reply's text |
| Generate.MatrixOfComplete | apps/api/content/generate.ts:94-95 | every accepted reply stands for a matrix with no empty cell |
| Generate.MatrixJsonValid | apps/api/content/generate.ts:53-69 | the reply format of the system prompt, filled with a matrix, is accepted exactly when no cell is empty |
| Generate.MatrixJsonRoundTrip | apps/api/content/generate.ts:31-39 | a complete matrix written in that format is read back as itself |
| Generate.SameCells | packages/core/src/types.ts:13-29 | two matrices with the same 36 cells are equal |
| Generate.FirstAccepted | apps/api/content/generate.ts:79-100 | the attempt it names is among the first n and its reply is accepted |
| Generate.FirstAcceptedIsFirst | apps/api/content/generate.ts:79-100 | no earlier reply is accepted, and none of the first n is when it names none |
| Generate.FirstAcceptedStable | apps/api/content/generate.ts:79 | more attempts do not change the first accepted one |
| Generate.AttemptsMade | apps/api/content/generate.ts:79-80 | one or two attempts are made |
| Generate.Generate | apps/api/content/generate.ts:76-106 | the retry loop returns `GenerateOf` and makes `AttemptsMade` attempts |
| Generate.Attempt | apps/api/content/generate.ts:89-99 | one attempt yields a matrix exactly when the reply is text that parses and validates |
| Generate.GenerateFails | apps/api/content/generate.ts:102-104 | the handler fails, with the source's message, exactly when neither of the two replies is accepted |
| Generate.AttemptsStopEarly | apps/api/content/generate.ts:79 | a second attempt is made exactly when the first reply is not accepted |
| Generate.GenerateSucceeds | apps/api/content/generate.ts:94-106 | on success it echoes domain and name, and the content is that of the first accepted reply, with no empty cell |
| Add.ResolveDotted | packages/cli/src/commands/add.ts:24-31 | input with a dot resolves whatever the default domain is: domain is every segment but the last, name is the last lower-cased and not hyphenated, the title is the trimmed input |
| Add.FrontAndLast | packages/cli/src/commands/add.ts:26-29 | a string with a dot is its front and its dot-free last segment, joined by a dot |
| Add.ResolveWithDomain | packages/cli/src/commands/add.ts:34-37 | without a dot and with a set domain, the domain is the option, the title is the trimmed input, and the name is the trimmed input lower-cased with each whitespace run replaced by `-`; it holds no whitespace, no dot and no upper-case letter |
| Add.ResolveTwoWords | packages/cli/src/commands/add.ts:35 | two words with a whitespace run between them resolve to the lower-cased first word, one `-`, and the rest lower-cased and hyphenated |
| Add.ResolveSingleWord | packages/cli/src/commands/add.ts:35 | a name without whitespace is only lower-cased |
| Add.HyphenateChars | packages/cli/src/commands/add.ts:35 | the hyphenated name holds only hyphens and characters of its input |
| Add.ResolveFails | packages/cli/src/commands/add.ts:39-41 | resolution throws, with the source's message, exactly when there is no dot and the domain is unset or empty |
| Add.ResolveAllOk | packages/cli/src/commands/add.ts:101 | `rawNames.map(resolveEntry)` succeeds exactly when every name resolves, and then holds the entries in order |
| Add.CleanLinesClean | packages/cli/src/commands/add.ts:49-58 | every name kept is non-empty and trimmed |
| Add.CleanLinesOfClean | packages/cli/src/commands/add.ts:49-50 | clean names pass through `trim` and `filter(Boolean)` unchanged |
| Add.ParseFileRoundTrip | packages/cli/src/commands/add.ts:45-51 | names written one per line are read back from the file, in order |
| Add.CommaRoundTrip | packages/cli/src/commands/add.ts:54-62 | names written as one comma-separated argument are read back, in order |
| Add.CommaNamesClean | packages/cli/src/commands/add.ts:54-62 | every name of the comma branch is non-empty and trimmed |
| Add.ParseCommaNames | packages/cli/src/commands/add.ts:54-62 | the two nested loops push the trimmed non-empty parts of every argument, in order |
| Add.ParseNames | packages/cli/src/commands/add.ts:44-63 | the file branch when an input file is given, the comma branch otherwise |
| Add.RunEntries | packages/cli/src/commands/add.ts:107-168 | the entry loop's counters count the added and the skipped entries, and failed is what is left |
| Add.CountsAddUp | packages/cli/src/commands/add.ts:110-168 | every entry ends as exactly one of added, skipped or failed |
| Add.SummaryCounts | packages/cli/src/commands/add.ts:168 | failed is the number of entries that failed, so added plus skipped never exceed the entries |
| Add.AutoApproveSkipsNothing | packages/cli/src/commands/add.ts:134-141 | with auto-approve nothing is skipped |
| Add.AddCommand | packages/cli/src/commands/add.ts:93-170 | the command takes the prompted or parsed names, stops on an empty list or an unresolvable name, and otherwise summarises the entries |
| Add.ConcludeFails | packages/cli/src/commands/add.ts:96-101 | the command stops before any entry exactly when there is no name or some name does not resolve |
| Add.AddSummary | packages/cli/src/commands/add.ts:107-169 | added, skipped and failed add up to the number of names, failed is never negative, and with auto-approve nothing is skipped |
| Add.Truncate | packages/cli/src/commands/add.ts:78 | a cell longer than 18 becomes its first 17 characters and `…`, 18 in all; a shorter one is unchanged |
| Add.TruncateIdempotent | packages/cli/src/commands/add.ts:78 | a cut cell stays as it is |

## Left out

- File I/O: `readTokenFile` and `writeTokenFile` are I/O plus `JSON.parse` and `JSON.stringify`. The store is a map from file names to documents, and a read is a map lookup; no JSON text is parsed or printed.
- The network and the framework: the model client, the secret lookup, the HTTP wrappers of the handlers, the CLI's API client and argument parsing. What the model returns is a `Reply` per attempt. How each entry's generate, preview and apply calls turn out is an `EntryRun` per entry.
- Console output: `printContentTable` beyond the cell truncation (padding, the header, the rule), the progress messages and the prompts. `confirm` is the `approved` field of an `EntryRun`. `promptForNames` is its result, passed in. `process.exit(1)` on an empty list is an `Err` result.
- Randomness: `randomReferenceKey` is not modelled; the reference keys are parameters.
- Concurrency and `async`: every handler runs sequentially, and concurrent applies are not modelled.
- JavaScript semantics. Only own keys are modelled, so on a prototype key such as `constructor` `key in obj` and `result[key]` disagree with the real code. Keys that look like integers, which JavaScript lists first, keep their insertion order. Numbers are integers. `\s` and `trim` use JavaScript's full WhiteSpace and LineTerminator set (`Strings.IsSpace`), but `toLowerCase` and `toUpperCase` map the ASCII letters only (`Strings.LowerChar`, `Strings.UpperChar`). `length` counts characters, not UTF-16 code units.
- `Json.JNum`: only arrays' `length` produces a number; the builders emit none.
- TokenBuilder.SetNested: builds the chain bottom-up, from the value outwards, because a datatype value cannot be extended through an interior pointer as `current` is. The result is the same object.
- FileManager.CheckDuplicates works on the Language document that has already been read. The dynamic import and the read are left out.
- Apply.TokenStore.Apply: a read that fails in the middle ends the handler with the earlier writes kept. That outcome is modelled; a failing write is not. An `ApplyRequest` whose `dryRun` is missing counts as `false`.
- Preview.PreviewCounts and the other record lemmas assume that no key of the wrapper chain below the root is `$type`. Such a key would make preview take an interior object for a token. The `...PathsMatchBuilder` lemmas also require `Split(domain, '.')[0] != ""`: the domain neither is empty nor starts with a dot.
- TokenList.EntryStep: the `!tone || !type || !name` check is not written out. After a match it cannot fail, because `MatchSound` shows every capture is non-empty.
- TokenListBuilt.LangPathGroup: covers dot-free names only. A name with a dot moves its entries to a different group key.
- Generate: the system prompt text and the model parameters are constants of the model call and are not modelled.
- Generate.Generate: on success the handler returns the parsed reply itself as `content` (generate.ts:95,106), with any extra members the validator let through. The model returns the `ContentMatrix` of its 36 cells, so the extra members are not part of the result.
- TokenBuilder.TypeReferenceResolves, TokenBuilder.ToneReferenceResolves and TokenBuilder.ReferenceChain require a name without dots. The builder nests a dotted name as one key, but the alias splits it at the dots, so the alias dangles. The preview and apply handlers accept such names; the model does not say where those aliases lead.
- TokenListBuilt.ListBuiltLanguage requires a dot-free name that is a non-empty line, a domain whose first segment is not empty, and no `$type` key on the wrapper chain; for other entries, list groups or reads the tokens differently.
