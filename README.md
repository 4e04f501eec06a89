# ContextKeeper core, modelled in Dafny

ContextKeeper is a project-aware knowledge agent. It keeps a store of
projects with their decisions and objectives. It ingests the files it
watches, in chunks, and protects approved architectural plans ("sacred
plans"). It also checks recent development activity against the plan
files stored for a project, approved or not ("drift"). This project models the rule-bearing core of that system in
Dafny and proves properties of the model.

| file | module | models |
|---|---|---|
| `wrappers.dfy` | `Wrappers` | `Option`, the failure-propagating result of lookups and decoders |
| `strings.dfy` | `Strings` | ASCII lower/upper case, `strip`, `split`/`join`, substring search, code-point ordering of strings |
| `json.dfy` | `Json` | JSON values, as `json.dump` writes and `json.load` reads them |
| `project_store.dfy` | `ProjectStore` | `project_manager.py`: the record types, `to_dict`/`from_dict`, and `ProjectManager` with its configuration directory |
| `path_filter.dfy` | `PathFiltering` | `PathFilter` of `rag_agent.py`: glob patterns compiled to anchored, case-insensitive matchers |
| `text_chunker.dfy` | `TextChunking` | `TextChunker` of `rag_agent.py`: structural chunks of code and token windows of documents |
| `rag_agent.dfy` | `RagAgent` | `_find_project_for_file` of `rag_agent.py` |
| `sacred_layer.dfy` | `SacredLayer` | `sacred_layer_implementation.py`: plan creation, two-factor approval, chunking and reconstruction of large plans |
| `sacred_drift.dfy` | `SacredDrift` | `enhanced_drift_sacred.py`: the status ladder and the scoring, violations and advice of `analyze_sacred_drift` |
| `enhanced_agent.dfy` | `EnhancedAgent` | `Proposed_enhancments/enhanced_rag_agent.py`: the session manager in which "focused" is a status, activity correlation and `objectives_status` |

## How the model is built

**Classes.** Each class whose methods update fields in place is a Dafny
`class`:
- `ProjectStore.ProjectManager` with `projects`, `order` and `focusedProjectId`;
- `EnhancedAgent.ProjectManager`;
- `SacredLayer.SacredLayerManager`, which stores plan files as a map;
- `PathFiltering.PathFilter`;
- `TextChunking.TextChunker`;
- `SacredDrift.SacredDriftDetector`.

Python dictionaries keep insertion order, so each manager keeps the order
of its keys in a `seq` beside the map.

**Files on disk.**
- The configuration directory of `project_manager.py` is a ghost map from
  file stem to the JSON written there.
- The class invariant `Synced` says the store writes through: each record's
  file decodes to that record.
- Every public method either keeps `Synced` or changes nothing.
- The registry file of the proposed manager is the ghost field `saved`.
  As written, every save with a session raises and leaves that file
  truncated (see "## Findings").
- `Persisted` says that file holds the sessions and the active id as they
  are in memory. Only the corrected save, `SaveProjectsByValue`, promises it.

**Outside inputs.** Parameters stand in for everything from outside:
- the clock: ISO-8601 text `now`, or Unix `seconds`;
- `uuid4().hex`: the text `hex` or `uuidHex`;
- `secrets.token_bytes`: four byte values;
- `hashlib.sha256`: a function `sha256`;
- `os.path.abspath`: a function `abspath`;
- tiktoken: `encode`/`decode`, with a line's token count `|encode(line)|`;
- the git tracker's activity: a `GitActivity` value;
- the plan directory: a sequence of `PlanFile`s.

**Default arguments.** A default argument of the source is an explicit
argument here. `create_plan` calls `chunk_large_plan` with its default
`chunk_size=1000`, the constant `LargePlanThreshold`, which is also the
length test of line 126. `TextChunker()` defaults to chunk size 1000 and
overlap 200; the constructor takes both.

**Loops.** Loops that accumulate are `method`s with loop invariants. Each
is proved equal to a function, and lemmas prove the source's promises
about that function. Examples:
- `ChunkByStructure` and `StructureChunks`;
- `ChunkLargePlan` and `PlanChunks`;
- `AnalyzeSacredDrift` and `Analysis`.

## Model

| member | source | states |
|---|---|---|
| ProjectStore.StatusFromTag | project_manager.py:19-22 | a tag decodes exactly when it is "active", "paused" or "archived", and the status it decodes to writes that same tag |
| ProjectStore.StatusTagRoundTrip | project_manager.py:19-22 | every status reads back from its lowercase tag |
| ProjectStore.DecisionFromDict | project_manager.py:25-35 | a decision decodes only from an object whose keys are all decision fields, and it keeps the stored id |
| ProjectStore.DecisionRoundTrip | project_manager.py:25-35 | decoding the dictionary of a decision gives the decision back |
| ProjectStore.ObjectiveFromDict | project_manager.py:38-46 | an objective decodes only from an object of objective fields; a missing status becomes "pending" and a missing priority "medium" |
| ProjectStore.ObjectiveRoundTrip | project_manager.py:38-46 | decoding the dictionary of an objective gives the objective back |
| ProjectStore.DecisionsRoundTrip | project_manager.py:74-89 | a list of decisions survives writing and reading, element by element |
| ProjectStore.ObjectivesRoundTrip | project_manager.py:74-89 | a list of objectives survives writing and reading, element by element |
| ProjectStore.FromDict | project_manager.py:49-89 | a record decodes only from an object of known keys; its id and status come from the stored fields; absent decisions give none, and absent or null extensions give the defaults |
| ProjectStore.HeaderFields | project_manager.py:74-80 | `to_dict` writes the id, name, root path and watch directories under their keys |
| ProjectStore.StateFields | project_manager.py:74-80 | `to_dict` writes the status tag and both times under their keys |
| ProjectStore.ExtrasFields | project_manager.py:74-80 | `to_dict` writes the description, extensions, decisions, objectives and metadata under their keys |
| ProjectStore.HeaderRoundTrip | project_manager.py:83-89 | the leading fields read back from a written record |
| ProjectStore.StateRoundTrip | project_manager.py:83-89 | the status and the two times read back from a written record |
| ProjectStore.ExtrasRoundTrip | project_manager.py:83-89 | the optional fields read back from a written record |
| ProjectStore.ProjectRoundTrip | project_manager.py:74-89 | `from_dict(to_dict(p)) == p` for every record |
| ProjectStore.InsertByTimestamp | project_manager.py:298-300 | inserting a decision adds exactly that decision to the multiset |
| ProjectStore.InsertByTimestampSorted | project_manager.py:298-300 | inserting into a list sorted newest first keeps it sorted |
| ProjectStore.SortByTimestampDesc | project_manager.py:298-300 | sorting permutes the decisions |
| ProjectStore.SortByTimestampDescSorted | project_manager.py:298-300 | the sorted decisions are in descending timestamp order |
| ProjectStore.RecentDecisions | project_manager.py:298-300 | the recent decisions number min(10, all) |
| ProjectStore.RecentDecisionsSpec | project_manager.py:298-300 | the recent decisions number min(10, all), are newest first, come from the record, and none left out is newer than one kept |
| ProjectStore.PendingObjectives | project_manager.py:301 | the pending objectives are exactly those not "completed", and with the completed ones they account for all |
| ProjectStore.CompletedObjectives | project_manager.py:330-331 | the completed objectives are exactly those with status "completed" |
| ProjectStore.WithStatus | project_manager.py:338-359 | the records of the given ids with a given status, and only those |
| ProjectStore.StatusCountsAddUp | project_manager.py:338-359 | the active, paused and archived counts add up to the number of records |
| ProjectStore.WatchDirsOf | project_manager.py:283-288 | the union of the watch directories of the given records |
| ProjectStore.ExportRecord | project_manager.py:290-336 | the export of a record: min(10, all) recent decisions, newest first; exactly the pending objectives; statistics equal to the list lengths |
| ProjectStore.Rows | project_manager.py:338-359 | one summary row per record, in the store's order |
| ProjectStore.FirstObjectiveIndex | project_manager.py:263-277 | the index of the first objective with the id, or none when no objective has it |
| ProjectStore.CompleteKeepsMatch | project_manager.py:263-277 | after completing an objective, the same id still finds it, so a repeated completion succeeds |
| ProjectStore.LoadedProjects | project_manager.py:106-122 | every loaded record sits under its own id |
| ProjectStore.LoadedOrderMatches | project_manager.py:106-122 | the load order lists each loaded id exactly once |
| ProjectStore.FirstActive | project_manager.py:118-122 | the focus after loading is the first active record, or none when no record is active |
| ProjectStore.LoadedStems | project_manager.py:106-122 | with well-named files, every loaded id is the stem of a file in the directory |
| ProjectStore.LoadedFromOwnFile | project_manager.py:106-129 | with well-named files, each loaded record's file decodes to it |
| ProjectStore.NewProject | project_manager.py:131-173 | a new record: id "proj_" plus 12 hex digits, active, absolute root, watch directories defaulting to the root, both times the one clock reading `now`, and empty lists |
| ProjectStore.StoreIndexed | project_manager.py:124-129 | storing a record keeps the order a duplicate-free list of the keys, appending a new id |
| ProjectStore.StoreSynced | project_manager.py:124-129 | storing a record and writing its file keeps every file in step with its record |
| ProjectStore.ProjectManager.Load | project_manager.py:106-122 | the manager after loading the directory: records, order and disk as loaded, and focus on the first active record |
| ProjectStore.ProjectManager.SaveProject | project_manager.py:124-129 | the record's file is overwritten with its dictionary and nothing else changes |
| ProjectStore.ProjectManager.Store | project_manager.py:124-129 | the record is filed under its id and written through, and focus is unchanged |
| ProjectStore.ProjectManager.CreateProject | project_manager.py:131-173 | the new record is filed and saved; focus moves to it only when it is then the only record |
| ProjectStore.ProjectManager.GetProject | project_manager.py:175-177 | the record under the id, or none exactly when the id is unknown |
| ProjectStore.ProjectManager.GetFocusedProject | project_manager.py:179-183 | the focused record, or none exactly when no non-empty focus is set |
| ProjectStore.ProjectManager.SetFocus | project_manager.py:185-194 | an unknown id gives false and changes nothing; a known id gives true, takes the focus and re-stamps and saves only that record |
| ProjectStore.ProjectManager.UpdateStatus | project_manager.py:196-205 | an unknown id gives false and changes nothing; otherwise only the target's status and time change, and it is saved |
| ProjectStore.ProjectManager.PauseProject | project_manager.py:207-209 | on a known id the target alone becomes paused and is saved; false and no change otherwise |
| ProjectStore.ProjectManager.ResumeProject | project_manager.py:211-213 | on a known id the target alone becomes active and is saved; false and no change otherwise |
| ProjectStore.ProjectManager.ArchiveProject | project_manager.py:215-217 | on a known id the target alone becomes archived and is saved; false and no change otherwise |
| ProjectStore.ProjectManager.AddDecision | project_manager.py:219-239 | none and no change for an unknown project; otherwise exactly one decision is appended, tags default to empty, and the record is saved |
| ProjectStore.ProjectManager.AddObjective | project_manager.py:241-261 | none and no change for an unknown project; otherwise one pending objective with no completion time and priority defaulting to "medium" is appended and saved |
| ProjectStore.ProjectManager.CompleteObjective | project_manager.py:263-277 | true exactly when the project exists and an objective has the id; then only the first such objective is completed and stamped, and the record is saved |
| ProjectStore.ProjectManager.GetActiveProjects | project_manager.py:279-281 | exactly the active records, in insertion order, each once: the status filter `WithStatus` over the store's key order |
| ProjectStore.ProjectManager.GetAllWatchDirs | project_manager.py:283-288 | the duplicate-free union of the watch directories of the active records only |
| ProjectStore.ProjectManager.ExportContext | project_manager.py:290-336 | `{}` exactly for an unknown id, otherwise the export of that record |
| ProjectStore.ProjectManager.GetProjectSummary | project_manager.py:338-359 | one row per record; total = active + paused + archived; each row's pending count and the completed objectives add up to all objectives |
| PathFiltering.Translate | rag_agent.py:229-230 | each pattern character becomes one token: `*` any run, `?` and `.` any character, the rest literal |
| PathFiltering.WildcardFreeMatch | rag_agent.py:229-230 | a pattern without `*` or `?` matches exactly the names of its length that agree character by character, ignoring case, with `.` matching anything |
| PathFiltering.SuffixMatch | rag_agent.py:229-230 | as written, `*suffix` matches a name exactly when its last characters match the suffix one by one, each `.` of the suffix matching any character |
| PathFiltering.Significant | rag_agent.py:249-251 | the path components kept are non-empty, not ".", and come from the split path |
| PathFiltering.PathParts | rag_agent.py:249-251 | a path has no parts exactly when it is not absolute and has no significant component |
| PathFiltering.PathFilter.constructor | rag_agent.py:222-230 | the ignored directories are the given set, and every file pattern is compiled in order by the `replace` chain as written |
| PathFiltering.PathFilter.ShouldIgnoreDirectory | rag_agent.py:232-239 | a directory is ignored exactly when its name starts with a dot or is listed |
| PathFiltering.PathFilter.ShouldIgnoreFile | rag_agent.py:241-247 | true exactly when some pattern, compiled as written so that `.` matches any character, matches the whole name |
| PathFiltering.PathFilter.ShouldIgnorePath | rag_agent.py:249-262 | true exactly when some non-final part is an ignored directory or the final part matches a pattern compiled as written; a path with no parts is kept |
| PathFiltering.MinJsMatchesAdminJs | rag_agent.py:229-230 | with `.` unescaped, `*.min.js` matches "admin.js" |
| PathFiltering.MinJsIgnoresAdminJs | rag_agent.py:163 | the default patterns, compiled as written, ignore "admin.js", though it does not end in ".min.js" |
| PathFiltering.HeaderMatchesShellScript | rag_agent.py:229-230 | with `.` unescaped, `*.h` matches "deploy.sh" |
| PathFiltering.HeaderIsOtherLanguage | rag_agent.py:177 | the "other languages" group, compiled as written, matches "deploy.sh" |
| PathFiltering.HeaderPatternIgnoresShellScripts | rag_agent.py:151-195 | the default patterns, compiled as written, ignore "deploy.sh", though it does not end in ".h" |
| PathFiltering.TranslateEscaped | rag_agent.py:229-230 | the corrected compilation: `*` any run, `?` any character, everything else, `.` included, literal |
| PathFiltering.EscapedLiteralMatch | rag_agent.py:229-230 | under the corrected compilation a pattern without wildcards matches exactly the names equal to it, ignoring case |
| PathFiltering.EscapedSuffixMatch | rag_agent.py:229-230 | under the corrected compilation `*suffix` matches exactly the names ending in `suffix`, ignoring case |
| PathFiltering.EscapedMinJsKeepsAdminJs | rag_agent.py:163 | under the corrected compilation `*.min.js` does not match "admin.js" |
| PathFiltering.EscapedHeaderKeepsShellScripts | rag_agent.py:177 | under the corrected compilation `*.h` does not match "deploy.sh" |
| TextChunking.CodeChunk | rag_agent.py:300-312 | a code chunk holds its lines joined by line feeds, with their line range and token sum |
| TextChunking.AppendChunk | rag_agent.py:300-312 | appending the current chunk keeps the chunks consecutive, starting at line 0, each following the one before |
| TextChunking.EmitStep | rag_agent.py:300-317 | at a boundary the current chunk is saved, and the next one starts at its last five lines, or after it when it has five or fewer |
| TextChunking.ResumeAfter | rag_agent.py:314-317 | after a cut the next chunk resumes at the overlap start |
| TextChunking.ExtendStep | rag_agent.py:319-320 | a line that does not close the chunk joins it |
| TextChunking.NoLines | rag_agent.py:323-336 | no lines give no chunks |
| TextChunking.FinishStep | rag_agent.py:323-334 | the last chunk ends at the last line, and the chunks then satisfy the structural specification |
| TextChunking.Range | rag_agent.py:343 | `range(i, n, step)` stays between `i` and `n` |
| TextChunking.RangeSpec | rag_agent.py:343 | the starts are i, i+step, i+2·step, …, and the last one is within a step of the end |
| TextChunking.Window | rag_agent.py:344 | a window is a prefix of the tokens from its start, at most `chunk_size` long |
| TextChunking.WindowStep | rag_agent.py:343-355 | one more window, numbered by its start over the step, extends the document chunks |
| TextChunking.SizeChunksNumbered | rag_agent.py:343-355 | document chunks are numbered 0, 1, 2, … and hold at most `chunk_size` tokens |
| TextChunking.WindowsCover | rag_agent.py:343-344 | when the step does not exceed the window, every token lies in some window |
| TextChunking.TextChunker.constructor | rag_agent.py:267-270 | the chunk size, overlap and tokenizer are those given |
| TextChunking.TextChunker.ChunkByStructure | rag_agent.py:285-336 | the chunks are consecutive runs of lines: none for no lines, the first at line 0, the last ending at the last line, each cut at a boundary and overlapping as specified |
| TextChunking.TextChunker.StructureStep | rag_agent.py:291-320 | one line of the loop keeps the pass invariant |
| TextChunking.TextChunker.CutAt | rag_agent.py:300-317 | saving at a boundary emits the chunk and keeps its overlap as the new current chunk with its token sum |
| TextChunking.TextChunker.StructureFinish | rag_agent.py:322-336 | closing the last chunk gives chunks meeting the structural specification |
| TextChunking.TextChunker.ChunkBySize | rag_agent.py:338-357 | a zero step fails, as `range` raises; a negative step gives no chunks; otherwise one window per start, numbered consecutively |
| TextChunking.TextChunker.Windows | rag_agent.py:343-355 | the loop builds exactly the document chunks of the tokens |
| TextChunking.TextChunker.NextWindow | rag_agent.py:344-355 | the chunk of one window, numbered by its start over the step |
| TextChunking.TextChunker.ChunkCode | rag_agent.py:272-283 | `.py`, `.js` and `.ts` files are chunked by structure, into at least one chunk; others by size |
| RagAgent.FirstOwnerSpec | rag_agent.py:491-498 | the owner is the first record watching the path, and there is none exactly when no record watches it |
| RagAgent.FirstOwner | rag_agent.py:491-498 | an owner found is the id of a record that watches the path |
| RagAgent.WatchesPath | rag_agent.py:494-497 | true exactly when some watch directory, made absolute, is a prefix of the path |
| RagAgent.FindProjectForFile | rag_agent.py:491-498 | the first active project in store order watching the file's absolute path; an active, watching record when found; none exactly when no active record watches |
| RagAgent.OwnerIsActive | rag_agent.py:491-498 | the owner among the active records is an active record of the store that watches the path |
| SacredLayer.RefineAppend | sacred_layer_implementation.py:348-366 | the second pass works chunk by chunk: refining a concatenation refines each part |
| SacredLayer.ShortChunkKept | sacred_layer_implementation.py:348-351 | a first-pass chunk within the size is kept unchanged, in its place |
| SacredLayer.RefineShort | sacred_layer_implementation.py:348-366 | when every first-pass chunk is within the size, the second pass changes nothing |
| SacredLayer.EmptyPlanHasNoChunks | sacred_layer_implementation.py:313-368 | empty content gives no chunks, as written and corrected |
| SacredLayer.PackCurrentBound | sacred_layer_implementation.py:332-341 | the chunk being built grows past the size plus a separator only when it is a single part |
| SacredLayer.PackOutBound | sacred_layer_implementation.py:332-366 | every chunk a pass emits is within the size, a separator and the suffix, or is a single overlong part |
| SacredLayer.RefinedBound | sacred_layer_implementation.py:350-366 | each chunk the sentence pass makes of one first-pass chunk, the closing one included, is at most the size plus 3 characters long, or is one sentence of that chunk, stripped, with or without the added full stop |
| SacredLayer.RefineBound | sacred_layer_implementation.py:347-366 | the same bound for the whole second pass over all first-pass chunks |
| SacredLayer.PlanChunksBound | sacred_layer_implementation.py:313-368 | every chunk of `chunk_large_plan` is at most the size plus 3 characters long (within the 150 the tests allow for a size of 100), unless it is a single overlong sentence |
| SacredLayer.PackSkipsBlank | sacred_layer_implementation.py:332-345 | a paragraph pass that drops blank chunks emits no empty chunk |
| SacredLayer.SentencePackNonEmpty | sacred_layer_implementation.py:352-366 | the sentence pass emits no empty chunk, since each ends in "." |
| SacredLayer.RefineNonEmpty | sacred_layer_implementation.py:348-366 | refining non-empty chunks gives non-empty chunks |
| SacredLayer.SkippingBlankHasNoEmptyChunk | sacred_layer_implementation.py:313-368 | the corrected chunking never yields an empty chunk |
| SacredLayer.BlankParagraphGivesEmptyChunk | sacred_layer_implementation.py:334-335 | as written, a blank first paragraph before a long one yields an empty first chunk |
| SacredLayer.PackWithoutBlankParts | sacred_layer_implementation.py:332-341 | when no paragraph strips to nothing, the current chunk is never blank, so the pass as written equals the one that drops blank chunks |
| SacredLayer.NoBlankParagraphNoEmptyChunk | sacred_layer_implementation.py:313-368 | as written, content with no blank paragraph gives the corrected chunks, so none is empty |
| SacredLayer.PlanChunks | sacred_layer_implementation.py:313-368 | `chunk_large_plan` as written, a definition without contract; its properties are the rows of `ChunkLargePlan`, `EmptyPlanHasNoChunks`, `NoBlankParagraphNoEmptyChunk` and `BlankParagraphGivesEmptyChunk` |
| SacredLayer.PlanChunksSkippingBlank | sacred_layer_implementation.py:334-335 | the corrected chunking, a definition without contract that drops a blank current chunk as line 344 drops a blank last one; `SkippingBlankHasNoEmptyChunk` states its property |
| SacredLayer.ReconstructPlan | sacred_layer_implementation.py:396-409 | the joined text is at least as long as each chunk, and one chunk reconstructs to itself |
| SacredLayer.ReconstructAppend | sacred_layer_implementation.py:396-409 | reconstruction is in-order concatenation: it distributes over appending chunk lists |
| SacredLayer.UpperHexDigit | sacred_layer_implementation.py:180-188 | each digit is an uppercase hex character standing for its value |
| SacredLayer.TokenHex | sacred_layer_implementation.py:180-188 | `token_hex` writes two characters per byte |
| SacredLayer.UpperOfTokenHex | sacred_layer_implementation.py:180-188 | upper-casing the lowercase hex text gives the uppercase hex of the bytes |
| SacredLayer.UpperTokenHexDecodes | sacred_layer_implementation.py:180-188 | the uppercase hex of bytes decodes back to those bytes |
| SacredLayer.VerificationCodeDecodes | sacred_layer_implementation.py:180-188 | the verification code determines its four random bytes |
| SacredLayer.VerificationCode | sacred_layer_implementation.py:180-188 | `token_hex(4).upper()` of four random bytes is eight upper-case hexadecimal digits |
| SacredLayer.PlanVerificationCode | sacred_layer_implementation.py:190-201 | the plan's code is the random code, a dash, then up to 8 characters of the content hash |
| SacredLayer.PlanToDict | sacred_layer_implementation.py:148-156 | the plan file has exactly the keys of the plan's fields |
| SacredLayer.Approve | sacred_layer_implementation.py:237-243 | approval sets status "approved", `approved_at` to the time and `approved_by` to "system", and leaves every other stored field alone |
| SacredLayer.CreatedRecordUpdates | sacred_layer_implementation.py:246-264 | a record written by `create_plan` and then approved has the fields the chunk update needs |
| SacredLayer.CreatedRecordCode | sacred_layer_implementation.py:226-229 | for a record written by `create_plan`, a code is accepted exactly when it equals the plan's code |
| SacredLayer.ApproveTwice | sacred_layer_implementation.py:237-243 | approving again only re-stamps the approval time |
| SacredLayer.NewPlan | sacred_layer_implementation.py:126-145 | the record `create_plan` builds is an unapproved draft holding its code and the given chunks, flagged as chunked exactly when there are some |
| SacredLayer.NewPlanShape | sacred_layer_implementation.py:126-145 | a new plan is a draft, not approved; it has chunks only when longer than 1000 characters, and then they are the chunks as written; `chunked` holds exactly when it has chunks |
| SacredLayer.SacredLayerManager.constructor | sacred_layer_implementation.py:76-105 | the manager holds the approval key and the stored plan files |
| SacredLayer.SacredLayerManager.CreatePlan | sacred_layer_implementation.py:107-178 | the plan built from the content, hash, code, time and the chunks as written is stored under its id, and no other file changes |
| SacredLayer.SacredLayerManager.ApprovePlan | sacred_layer_implementation.py:203-271 | approval happens exactly when the plan exists, its stored code is non-empty and equal, and the key is non-empty and equal; only that file changes; true exactly when it also passes the chunk update |
| SacredLayer.SacredLayerManager.ChunkLargePlan | sacred_layer_implementation.py:313-368 | the loops compute the chunking as written; when no paragraph strips to nothing, it has no empty chunk; every chunk is at most the size plus 3 characters long or is a single overlong sentence |
| SacredLayer.SacredLayerManager.SplitParagraphs | sacred_layer_implementation.py:329-345 | the paragraph loop computes the first pass, emitting a blank current chunk as an empty one |
| SacredLayer.SacredLayerManager.SplitSentences | sacred_layer_implementation.py:352-366 | the sentence loop computes the second pass of one chunk |
| SacredDrift.DetermineStatus | enhanced_drift_sacred.py:342-359 | each status holds exactly on its band of the ladder |
| SacredDrift.DefaultLadder | enhanced_drift_sacred.py:342-359 | with the default thresholds: aligned iff ≥ 0.8, moderate drift iff in [0.6, 0.8), critical iff < 0.6 |
| SacredDrift.MinorDriftUnreachable | enhanced_drift_sacred.py:76-81 | with the default thresholds, minor drift is never returned |
| SacredDrift.CriticalThresholdIgnored | enhanced_drift_sacred.py:352-359 | the 'critical' threshold does not affect the status |
| SacredDrift.IntendedStatus | enhanced_drift_sacred.py:76-81 | the ladder the thresholds' comments describe: critical below 'critical', moderate below 'moderate', minor below 'minor', aligned above |
| SacredDrift.IntendedLadder | enhanced_drift_sacred.py:76-81 | with the default thresholds the intended ladder has four bands: < 0.3, [0.3, 0.6), [0.6, 0.8), ≥ 0.8 |
| SacredDrift.LaddersDisagree | enhanced_drift_sacred.py:352-359 | the written and intended ladders differ exactly on [0.3, 0.8) |
| SacredDrift.ErrorAnalysis | enhanced_drift_sacred.py:272-282 | the error result: aligned, score 0.0, a single analysis-error violation, no plans checked |
| SacredDrift.ProjectPlans | enhanced_drift_sacred.py:113-141 | at most one plan per directory entry, each naming the project |
| SacredDrift.ProjectPlansSpec | enhanced_drift_sacred.py:113-141 | the plans loaded are exactly the readable plan files of the project, with one checked id each |
| SacredDrift.PlanContent | enhanced_drift_sacred.py:156-157 | a plan's content is usable exactly when it is absent or text |
| SacredDrift.Contents | enhanced_drift_sacred.py:154-166 | the contents of all plans, in order, when every one is usable |
| SacredDrift.ConstraintsSnoc | enhanced_drift_sacred.py:154-166 | one more plan appends its tags to the constraints |
| SacredDrift.ConstraintsExact | enhanced_drift_sacred.py:154-166 | a tag is among the constraints exactly when some plan's lowercased content contains its keyword |
| SacredDrift.TagsOfExact | enhanced_drift_sacred.py:157-166 | a plan contributes a tag exactly when its lowercased content contains the keyword |
| SacredDrift.ConstraintsAreTags | enhanced_drift_sacred.py:154-166 | every constraint is one of the four tags |
| SacredDrift.SeparationViolations | enhanced_drift_sacred.py:172-184 | at most one violation per changed file |
| SacredDrift.SeparationViolationsExact | enhanced_drift_sacred.py:172-184 | a file is a violation exactly when its lowercased path contains "sacred" but neither "sacred_layer" nor "sacred_plans" |
| SacredDrift.SacredSplit | enhanced_drift_sacred.py:204-218 | the changed files split into those in a sacred area and the others |
| SacredDrift.SeparationScore | enhanced_drift_sacred.py:198-200 | max(0, 1 − violations/checks), within [0, 1] |
| SacredDrift.Judge | enhanced_drift_sacred.py:168-200 | with plans, a score within [0, 1] and at most one violation per file |
| SacredDrift.JudgeUnguided | enhanced_drift_sacred.py:204-221 | without plans, at most one violation, and none exactly when every file is in a sacred area |
| SacredDrift.OrAligned | enhanced_drift_sacred.py:253-257 | the closing rule leaves a non-empty list, and keeps a list that was already non-empty |
| SacredDrift.Recommendations | enhanced_drift_sacred.py:226-257 | the recommendations are never empty |
| SacredDrift.Report | enhanced_drift_sacred.py:222-270 | the record keeps the project, score and violations; its status, from `determine_status`, is never minor drift, and it recommends something |
| SacredDrift.Analysis | enhanced_drift_sacred.py:83-282 | every analysis names its project and recommends something |
| SacredDrift.NoCommitsAligned | enhanced_drift_sacred.py:100-111 | no commits give aligned, score 1.0, no violations and no plans checked |
| SacredDrift.JudgementBounds | enhanced_drift_sacred.py:198-221 | both scores lie within [0, 1] |
| SacredDrift.AnalysisShape | enhanced_drift_sacred.py:83-282 | every analysis has a score in [0, 1] and some recommendation; outside the error path its status follows the score on the ladder of `determine_status`, so it is never minor drift |
| SacredDrift.JudgeSeparation | enhanced_drift_sacred.py:168-200 | under the separation constraint, violations and score follow the files; without it, no violations and score 1.0 |
| SacredDrift.SeparationAnalysis | enhanced_drift_sacred.py:168-200 | with plans requiring separation, the violations are exactly the offending files and the score is 1 − violations/files |
| SacredDrift.NoSeparationRule | enhanced_drift_sacred.py:168-200 | with plans that do not require separation, nothing is a violation and the result is aligned |
| SacredDrift.BadContentFails | enhanced_drift_sacred.py:156-159 | a plan whose content is not text sends the analysis to the error result |
| SacredDrift.JudgeUnguidedSpec | enhanced_drift_sacred.py:204-221 | without plans the score is the fraction of sacred-area files; there is one violation listing the others exactly when some exist |
| SacredDrift.UnguidedAnalysis | enhanced_drift_sacred.py:204-221 | the same of the whole analysis when the project has no plans |
| SacredDrift.SacredDriftDetector.constructor | enhanced_drift_sacred.py:64-81 | the detector starts with the default thresholds |
| SacredDrift.SacredDriftDetector.AnalyzeSacredDrift | enhanced_drift_sacred.py:83-282 | the loops compute the analysis function |
| SacredDrift.Assemble | enhanced_drift_sacred.py:259-270 | the result record of a judgement, its status read off `determine_status` |
| SacredDrift.LoadPlans | enhanced_drift_sacred.py:113-141 | the directory loop loads the project's plans and their checked ids |
| SacredDrift.ExtractConstraints | enhanced_drift_sacred.py:154-166 | the constraint loop fails exactly when some content is unusable, and otherwise gives the constraints |
| SacredDrift.CheckFiles | enhanced_drift_sacred.py:168-196 | one check per file, and the separation violations when that constraint holds |
| SacredDrift.BuildRecommendations | enhanced_drift_sacred.py:226-257 | the recommendation steps compute the recommendations |
| EnhancedAgent.NewSession | Proposed_enhancments/enhanced_rag_agent.py:27-50 | `__post_init__` stamps both times with the one clock reading `now` and empties the lists |
| EnhancedAgent.SessionId | Proposed_enhancments/enhanced_rag_agent.py:217 | ids are "proj_" followed by the seconds |
| EnhancedAgent.ObjectiveEntry | Proposed_enhancments/enhanced_rag_agent.py:254-258 | a new objective has its text, the time and `completed` false, and no other keys |
| EnhancedAgent.DecisionEntry | Proposed_enhancments/enhanced_rag_agent.py:273-278 | a new decision has exactly its four keys |
| EnhancedAgent.Completed | Proposed_enhancments/enhanced_rag_agent.py:266-267 | completion sets `completed` and `completed_at` and keeps every other key |
| EnhancedAgent.DoneMarks | Proposed_enhancments/enhanced_rag_agent.py:426-430 | a new objective counts as not done, and a completed one as done |
| EnhancedAgent.AsDict | Proposed_enhancments/enhanced_rag_agent.py:209 | `asdict(session)` keeps the status field an enum member; every other field is JSON data |
| EnhancedAgent.AsDictByValue | project_manager.py:76-77 | the dictionary with the status written by its value, so every field is JSON data |
| EnhancedAgent.Dump | Proposed_enhancments/enhanced_rag_agent.py:206-213 | a completed dump holds exactly the registry given, and a registry with no session always dumps |
| EnhancedAgent.DumpFailsWithSession | Proposed_enhancments/enhanced_rag_agent.py:206-213 | as written, the dump completes exactly when there is no session |
| EnhancedAgent.DumpByValueCompletes | project_manager.py:76-77 | with the status written by its value, every dump completes |
| EnhancedAgent.InOrder | Proposed_enhancments/enhanced_rag_agent.py:206-213 | the sessions in key order, as the registry lists them |
| EnhancedAgent.StatusSet | Proposed_enhancments/enhanced_rag_agent.py:237-249 | a status change keeps the set of sessions |
| EnhancedAgent.FocusIsExclusive | Proposed_enhancments/enhanced_rag_agent.py:237-249 | after focusing a session it is the only focused one |
| EnhancedAgent.StatusSetKeepsOneFocused | Proposed_enhancments/enhanced_rag_agent.py:237-249 | any status change keeps at most one session focused |
| EnhancedAgent.StatusSetChanges | Proposed_enhancments/enhanced_rag_agent.py:237-249 | the target takes the status and time; another session changes only when focusing, and only from focused to active |
| EnhancedAgent.TargetOnly | Proposed_enhancments/enhanced_rag_agent.py:239-241 | a status other than focused changes the target alone |
| EnhancedAgent.DemotedStep | Proposed_enhancments/enhanced_rag_agent.py:244-247 | one step of the unfocusing loop demotes the visited session when it is focused and not the target |
| EnhancedAgent.DemoteOthers | Proposed_enhancments/enhanced_rag_agent.py:244-247 | the unfocusing loop makes every focused session other than the target active |
| EnhancedAgent.DemotedAll | Proposed_enhancments/enhanced_rag_agent.py:239-247 | focusing the target, then running the loop over all keys, is the status change |
| EnhancedAgent.FileSession | Proposed_enhancments/enhanced_rag_agent.py:230 | filing a session keeps the key order duplicate-free, appending a new id |
| EnhancedAgent.UnfocusedKeepsOneFocused | Proposed_enhancments/enhanced_rag_agent.py:222-230 | filing a session that is not focused keeps at most one focused |
| EnhancedAgent.FirstClaimantSpec | Proposed_enhancments/enhanced_rag_agent.py:340-358 | the claimant is the first non-archived session whose watch directory or root prefixes the directory; none exactly when no such session exists |
| EnhancedAgent.Having | Proposed_enhancments/enhanced_rag_agent.py:287-295 | the sessions that satisfy the filter, and only those |
| EnhancedAgent.StatusOfObjectives | Proposed_enhancments/enhanced_rag_agent.py:426-430 | the total is the number of objectives |
| EnhancedAgent.ObjectivesAddUp | Proposed_enhancments/enhanced_rag_agent.py:426-430 | completed + len(current) == total, and the current objectives are exactly those not done |
| EnhancedAgent.NewObjectiveIsCurrent | Proposed_enhancments/enhanced_rag_agent.py:251-259 | a new objective joins the current ones and leaves the completed count alone |
| EnhancedAgent.ProjectManager.constructor | Proposed_enhancments/enhanced_rag_agent.py:190-194 | a manager without a registry file starts with no sessions and no active project |
| EnhancedAgent.ProjectManager.SaveProjects | Proposed_enhancments/enhanced_rag_agent.py:206-213 | the registry file is the dump of the sessions in order and the active id; it raises exactly when there is a session, leaving the file truncated, and otherwise the file holds the sessions |
| EnhancedAgent.ProjectManager.SaveProjectsByValue | Proposed_enhancments/enhanced_rag_agent.py:206-213 | the corrected save: the registry file then holds the sessions in order and the active id |
| EnhancedAgent.ProjectManager.CreateProject | Proposed_enhancments/enhanced_rag_agent.py:215-235 | an active session under "proj_" plus the seconds, watching the root unless directories are given; it becomes the active project only if there was none; the save always raises, so no id is returned and the registry is truncated |
| EnhancedAgent.ProjectManager.SetProjectStatus | Proposed_enhancments/enhanced_rag_agent.py:237-249 | an unknown id changes nothing; a known one gets the status change and the save raises, truncating the registry; after a focus at most one session is focused |
| EnhancedAgent.ProjectManager.UnfocusOthers | Proposed_enhancments/enhanced_rag_agent.py:244-247 | the loop over the sessions in key order demotes every other focused session |
| EnhancedAgent.ProjectManager.AddObjective | Proposed_enhancments/enhanced_rag_agent.py:251-259 | exactly one not-completed objective is appended to a known session, and the save raises, truncating the registry; a no-op otherwise |
| EnhancedAgent.ProjectManager.MarkObjectiveComplete | Proposed_enhancments/enhanced_rag_agent.py:261-268 | only an in-range index of a known session is completed, and the save raises, truncating the registry; otherwise nothing changes |
| EnhancedAgent.ProjectManager.AddDecision | Proposed_enhancments/enhanced_rag_agent.py:270-279 | exactly one decision is appended to a known session, and the save raises, truncating the registry; a no-op otherwise |
| EnhancedAgent.ProjectManager.FocusTerminals | Proposed_enhancments/enhanced_rag_agent.py:281-285 | a known session's focused terminals become the given pids, and the save raises, truncating the registry; a no-op otherwise |
| EnhancedAgent.ProjectManager.Sessions | Proposed_enhancments/enhanced_rag_agent.py:345 | every session, each once, in key order |
| EnhancedAgent.ProjectManager.GetFocusedProjects | Proposed_enhancments/enhanced_rag_agent.py:287-290 | exactly the focused sessions, in key order, each once: the filter of `Sessions()` |
| EnhancedAgent.ProjectManager.GetActiveProjects | Proposed_enhancments/enhanced_rag_agent.py:292-295 | exactly the active or focused sessions, in key order, each once: the filter of `Sessions()` |
| EnhancedAgent.CorrelateActivityToProject | Proposed_enhancments/enhanced_rag_agent.py:340-358 | the first non-archived session, in key order, that claims the working directory; none exactly when none claims it |
| EnhancedAgent.ClaimantFacts | Proposed_enhancments/enhanced_rag_agent.py:340-358 | the claimant found is a non-archived session claiming the directory, and there is none exactly when no such session exists |
| EnhancedAgent.IsTerminalFocused | Proposed_enhancments/enhanced_rag_agent.py:360-365 | true exactly when the pid is among some session's focused terminals |

## Left out

- Disk I/O is not modelled as I/O. The configuration directory of
  `project_manager.py`, the sacred plan files and the proposed manager's
  registry file are maps or ghost fields. Directory listing order is the
  order of the given sequence of files.
- The clock, `uuid4`, `secrets`, `hashlib.sha256`, `os.path.abspath`,
  tiktoken and the git tracker are parameters, not implementations.
- `ProjectStore.NewProject`: an id equal to an existing one replaces that
  record, as the dictionary assignment does. The model does not claim that
  ids are fresh.
- `EnhancedAgent.ProjectManager.constructor`: `load_projects` is not
  modelled, because it reads a registry file through `ProjectSession(**d)`.
  The manager starts as it does when no file exists.
- `SacredDrift.ViolationText`: `str(v)` of a violation is approximated by
  fixed text. The exception text of the error path and `analyzed_at` are
  not modelled.
- Scores are exact reals. IEEE rounding is not modelled.
- `calculate_alignment` is a placeholder and is not modelled.
- `_analyze_objective_drift` is not modelled: it is a floating-point keyword
  ratio over unordered sets.
- Not modelled, because each depends on ChromaDB, regular expressions,
  processes, threads or the network:
  - `list_plans` and `_get_plan_collection`;
  - `SecurityFilter`;
  - `TerminalMonitor`;
  - `_update_project_activity`;
  - the parts of `get_project_context` other than `objectives_status`;
  - ingestion, queries and the HTTP and command-line shells.
- `SacredLayer.SacredLayerManager.CreatePlan`: the `collection.add` of each
  chunk into ChromaDB (sacred_layer_implementation.py lines 158-175) is not
  modelled. It is taken to succeed, so the exception it could raise is not
  modelled either.
- `SacredLayer.SacredLayerManager.ApprovePlan`: the `collection.update` of
  each chunk's metadata (lines 246-264) is not modelled. It is taken to
  succeed, and its exception is not modelled; `ChunkUpdateSucceeds` covers
  only the reads of the stored record that precede it.
- Logging is left out.
- Case folding is ASCII only, in `Strings.Lower` and `Strings.Upper`.
  Python's Unicode case mapping is not modelled.
- `ProjectStore.SortByTimestampDesc`: the insertion keeps decisions with
  equal timestamps in their original order, as Python's stable sort does.
  No lemma states that stability.
- `PathFiltering.PathFilter.ShouldIgnoreFile`: only `*`, `?` and `.` are
  given regular-expression meaning. Other metacharacters in a pattern are
  taken literally. None occur in the default patterns.
- `PathFiltering.SuffixMatch` and `PathFiltering.EscapedSuffixMatch`: stated
  only for names without line feeds. `FullMatch` itself models `$` also
  matching before a final line feed, and `ShouldIgnoreFile` rests on it.
- `PathFiltering.PathParts`: only `/` separates components. Windows drive
  and backslash parts of `Path.parts` are not modelled.
- `TextChunking.TextChunker.constructor`: the chunk size is a `nat`.
  Negative sizes are not modelled. The overlap may be any integer.
- `SacredLayer.UpperTokenHex`: no length is stated for it. Its length
  follows from `TokenHex`.
- `SacredDrift.Analysis`: `files_changed` of the git activity is a
  sequence in a fixed order.
- `ProjectStore.DecisionFromDict`, `ProjectStore.ObjectiveFromDict`,
  `ProjectStore.FromDict` and `ProjectStore.ProjectManager.Load`: decoding
  is typed, where `Decision(**d)`, `Objective(**o)` and `cls(**data)` check
  no types. The model rejects, and `Load` skips, a file that Python loads
  with ill-typed field values, for instance a decision with `"id": 5`, an
  objective with `"status": null`, `"description": null`, `"metadata": []`
  or `"decisions": ""`. Records are typed in the model, so it cannot hold
  such values.
- `ProjectStore.DecisionFromDict`: stricter than `Decision(**d)` on value types, as above.
- `ProjectStore.ObjectiveFromDict`: stricter than `Objective(**o)` on value types, as above.
- `ProjectStore.FromDict`: stricter than `cls(**data)` on value types, as above.
- `ProjectStore.ProjectManager.Load`: skips the ill-typed files that `from_dict` loads, as above.
- `ProjectStore.NewProject`: one clock reading `now` stands for the two
  `datetime.now()` calls of lines 160-161, so `created_at` and
  `last_active` are equal. In Python they generally differ by microseconds.
- `ProjectStore.ProjectManager.CreateProject`: one `now` for the two clock reads of lines 160-161.
- `ProjectStore.ProjectManager.AddDecision`: one `now` for the decision's timestamp (line 230) and `last_active` (line 235).
- `ProjectStore.ProjectManager.AddObjective`: one `now` for `created_at` (line 252) and `last_active` (line 257).
- `ProjectStore.ProjectManager.CompleteObjective`: one `now` for `completed_at` and `last_active` (lines 272-273).
- `EnhancedAgent.NewSession`: one `now` for the two clock reads of `__post_init__` (lines 42 and 44).
- `EnhancedAgent.ProjectManager.CreateProject`: one `now` for the session's two stamps.
- `EnhancedAgent.ProjectManager.SaveProjects`: the bytes of the truncated
  registry, the opening `json.dump` wrote before it raised, are not
  modelled; the file is only known to be truncated.

## Findings

| source | as written | input that shows it | evidently intended | confidence | as-written member | corrected member |
|---|---|---|---|---|---|---|
| rag_agent.py:229-230 | the glob is turned into a regular expression without escaping `.`, so `.` matches any character | `*.min.js` matches "admin.js"; `*.h` matches "deploy.sh", so every shell script is ignored by default | `.` in a glob pattern matches only a dot | not executed | PathFiltering.MinJsIgnoresAdminJs | PathFiltering.EscapedSuffixMatch |
| sacred_layer_implementation.py:334-335 | the paragraph loop appends `current_chunk.strip()` without checking that it is non-empty | content `" \n\n" + p`, where `p` has no blank line and is at least `chunk_size` long, yields "" as its first chunk | no empty chunks, as the final chunk's guard at line 344 suggests | not executed | SacredLayer.BlankParagraphGivesEmptyChunk | SacredLayer.SkippingBlankHasNoEmptyChunk |
| Proposed_enhancments/enhanced_rag_agent.py:206-213 | `asdict` keeps the status as a plain `Enum` member, which `json.dump` cannot encode | any save with a session, so every `create_project` and every update of a known session, raises `TypeError` after `open(..., 'w')` has emptied the registry | write `status.value`, as `to_dict` of project_manager.py does at line 77 | not executed | EnhancedAgent.DumpFailsWithSession | EnhancedAgent.DumpByValueCompletes |
| enhanced_drift_sacred.py:352-359 | the ladder tests 'aligned' then 'minor', both 0.8, and never tests 'critical' | a score of 0.7 gives moderate drift and 0.5 gives a critical violation | minor drift on [0.6, 0.8), moderate on [0.3, 0.6) and critical below 0.3, as the comments at lines 76-81 say | not executed | SacredDrift.MinorDriftUnreachable | SacredDrift.IntendedLadder |
