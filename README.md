# convex-cache: dev loop and schema-map pipeline, modelled in Dafny

This project models two parts of the `convex-cache` SDK and proves properties of the model.

**The `convex-cache dev` loop.**
- `ShellRunner` spawns one child process per task kind and tracks it in a kind → child table. It classifies how each run ends: resolved, cancelled, failed, or failed to start.
- `ConvexRunner` runs the single-flight pipeline: first `convex dev --once` (unless skipped), then schema generation.
- `DirWatcher` debounces filesystem notifications into one `onChange` call per burst.
- `dev` applies an ignore rule to watch notifications and configures the watcher.

**The schema-map pipeline.**
- `vQuery` and `zQuery` normalise a query definition's `returns` into a single validator or Zod schema. They attach it to the built function as `__returnsJson` or `__zReturn`.
- `extractSchema` and the generator script walk each module's exports and resolve every export that qualifies against the generated `api` tree.
- The resulting entries are merged by function name, last one winning.
- The entries are rendered, sorted by name, into `schemaMap.ts`, or into `schemaMap.js` plus `schemaMap.d.ts`.
- `validatorFromJSON` rebuilds a Convex validator from its JSON form.
- `makeQueryKey` builds the cache key for a query call.

**How the model is built.**
- Stateful objects become classes whose methods change their fields:
  - the child table, the cancelled flag, the kill and log records;
  - the watcher's timer and last path;
  - the pipeline's phase;
  - the built query function's own properties.
- Each method is tied to a pure function or an invariant of the old state.
- Pure code becomes functions, with lemmas for the properties that matter:
  - the validator codec round-trips;
  - dedupe keeps each name's last entry, in first-appearance order;
  - the sort is a sorted permutation, so the output does not depend on input order;
  - function keys read back from the cache key;
  - a burst reports exactly once;
  - a cancellation is never reported as a failure.
- The JavaScript values the code inspects are a small datatype (`JsValues.JsValue`) that keeps truthiness, `typeof`, own properties and Zod-instance-ness.
- A JavaScript `Map` is a sequence of pairs in insertion order (`OrderedMap`).

**Parameters.** Everything outside the core is a parameter or an input:
- node APIs, processes, timers and the filesystem;
- `JSON.parse` and `JSON.stringify`, `superjson`, `deepSort` and SHA-256;
- `localeCompare`, `getFunctionName` and `zodToJson` (a JSON value, or nothing when it throws);
- `v.object`, `z.object` and `validatorToJSON`;
- the dynamic `import` of a module.

Where the code and its comments disagree, the model follows the code. The `fetchReturnsString` comment says it "returns true" and "returns false", but the function returns the string or null. The `dev` comment says a failed initial run keeps the watcher from starting, but `runOnce` never rejects, so that branch cannot be taken.

## Model

| member | source | states |
|---|---|---|
| ShellRunning.Precheck | src/cli/lib/shell-runner.ts:70-81 | `run` fast-fails in a fixed order: cancelled runner, then an already-aborted signal, then a kind already tracked. It passes exactly when all three are clear. |
| ShellRunning.ClassifyExit | src/cli/lib/shell-runner.ts:120-135 | An exit resolves exactly when the code is 0 and neither the runner is cancelled nor the signal aborted. A cancellation wins over any exit code. Every other exit rejects with the label's failure, carrying code and signal. |
| ShellRunning.ExitLines | src/cli/lib/shell-runner.ts:120-136 | The console output of the `exit` handler. Definition; ShellRun.OnExit states that it is appended to the log: the success message (only if non-empty) on a resolve, the failure line on a genuine failure, nothing on a cancellation. |
| ShellRunning.ExitCancelledIffMessage | src/cli/lib/shell-runner.ts:122-134 | A rejection from the exit handler has message "cancelled" if and only if the runner was cancelled or the signal aborted. A genuine failure can never pass for a cancellation. |
| ShellRunning.RegisterKeepsInvariant | src/cli/lib/shell-runner.ts:79-92 | Tracking a freshly spawned child under an untracked kind appends it and maps the kind to it. The table invariant (one child per kind, children spawned and distinct) still holds. |
| ShellRunning.UntrackKeepsInvariant | src/cli/lib/shell-runner.ts:110-112 | Deleting any one entry of the table keeps the table invariant. |
| ShellRunning.UntrackChildKeepsInvariant | src/cli/lib/shell-runner.ts:110-112 | The `settle` cleanup, which deletes the kind only while it still maps to this run's child, keeps the table invariant. |
| ShellRunning.AbortSignal.constructor | src/cli/lib/shell-runner.ts:25 | A fresh abort signal is not aborted. |
| ShellRunning.AbortSignal.Abort | src/cli/lib/shell-runner.ts:95-102 | `abort()` leaves the signal aborted. The "abort" event that reaches the listeners is dispatched on the first call only. |
| ShellRunning.ShellRunner.constructor | src/cli/lib/shell-runner.ts:44-46 | A new runner has an empty table, is not cancelled, has signalled nothing, and satisfies the table invariant. |
| ShellRunning.ShellRunner.IsCancelled | src/cli/lib/shell-runner.ts:48-50 | The getter returns the cancelled flag. |
| ShellRunning.ShellRunner.ResetCancelled | src/cli/lib/shell-runner.ts:57-59 | Clears the flag and changes nothing else: no table entry, no child and no log line. |
| ShellRunning.ShellRunner.Run | src/cli/lib/shell-runner.ts:67-92 | A failed precheck rejects with that error and leaves the runner unchanged. Otherwise it logs the label, spawns a new child and tracks it under the kind. The new run holds the options and is unsettled. The invariant is kept. |
| ShellRunning.ShellRunner.Register | src/cli/lib/shell-runner.ts:83-92 | On an untracked kind, the label line is appended and the next child identity is handed out. The table becomes the old table plus (kind, child). |
| ShellRunning.ShellRunner.CancelAll | src/cli/lib/shell-runner.ts:151-161 | Sets the flag and sends the signal to every tracked child, in table order. Earlier kills are kept, and the table is unchanged. |
| ShellRunning.ShellRunner.CancelKind | src/cli/lib/shell-runner.ts:166-174 | Signals exactly the child tracked under the kind. If none is tracked it does nothing. |
| ShellRunning.ShellRun.constructor | src/cli/lib/shell-runner.ts:85-104 | The per-run state holds the runner, kind, label, success message, signal and child, with `settled` false. Its abort listener is registered exactly when a signal was given. |
| ShellRunning.ShellRun.Settle | src/cli/lib/shell-runner.ts:104-118 | Marks the run settled and removes its abort listener. The kind is untracked only if the table still maps it to this run's child. The table invariant is kept. |
| ShellRunning.ShellRun.OnExit | src/cli/lib/shell-runner.ts:120-136 | A settled run ignores a later exit. Otherwise the run settles with the ClassifyExit verdict, read from the flags at exit time. It logs the success message (if non-empty) or the failure line, and untracks its own child. |
| ShellRunning.ShellRun.OnError | src/cli/lib/shell-runner.ts:138-143 | A settled run ignores the error. Otherwise it settles, rejecting with the child's error unchanged after logging the start failure. |
| ShellRunning.ShellRun.OnAbortEvent | src/cli/lib/shell-runner.ts:95-102 | The abort event reaching this run's `once` listener removes it. The child gets SIGINT only if the listener was still registered (not fired, run not settled) and the child was not signalled yet. Otherwise nothing happens. |
| ShellRunning.AbortSharedSignal | src/cli/lib/shell-runner.ts:95-116 | One `abort()` on a signal shared by two listening runs sends SIGINT to both children, in registration order. A second `abort()` dispatches nothing. |
| ConvexRunning.Pipeline | src/cli/fns/fns/convex-runner.ts:54-71 | A run is the schema task alone when Convex is skipped. Otherwise it is two tasks: the Convex task, then the schema task. |
| ConvexRunning.PipelineKindsDistinct | src/cli/fns/fns/convex-runner.ts:57-71 | The tasks of one run have distinct kinds, so `run` never refuses one as a duplicate. |
| ConvexRunning.ExitReporting | src/cli/fns/fns/convex-runner.ts:74-78 | A child that exits after a cancellation is never reported. A failed exit with nothing cancelled always is. |
| ConvexRunning.PrecheckFailuresAreLogged | src/cli/fns/fns/convex-runner.ts:74-78 | Errors thrown before a spawn are reported. In particular, the "ShellRunner is cancelled" error of a cancel that arrives while the command is still being resolved is reported. |
| ConvexRunning.ConvexRunner.constructor | src/cli/fns/fns/convex-runner.ts:14-21 | Starts idle with an empty fresh ShellRunner. `skipConvex` is true only when the option is given as true. |
| ConvexRunning.ConvexRunner.Running | src/cli/fns/fns/convex-runner.ts:23-25 | The getter returns whether a run is in progress. |
| ConvexRunning.ConvexRunner.Cancel | src/cli/fns/fns/convex-runner.ts:31-34 | Does nothing while idle. During a run it sets the runner's cancelled flag, and SIGINT reaches exactly the awaited child, if there is one. |
| ConvexRunning.ConvexRunner.RunOnce | src/cli/fns/fns/convex-runner.ts:47-51 | Is a no-op while a run is in progress. Otherwise it marks the runner busy, clears the cancelled flag and starts resolving the first task's command. |
| ConvexRunning.ConvexRunner.Finish | src/cli/fns/fns/convex-runner.ts:74-82 | Logs a rejection unless its message is "cancelled". Then it always clears the busy and cancelled flags, leaving the runner idle. |
| ConvexRunning.ConvexRunner.CommandResolved | src/cli/fns/fns/convex-runner.ts:54-67 | A cancel during command resolution ends the run with a reported AlreadyCancelled error. Nothing is spawned or signalled and the runner logs nothing. Otherwise the task's child is spawned with the next identity and awaited, with the cancelled flag still clear. It is the only tracked process, no child is signalled, and the pipeline's kinds so far are recorded. |
| ConvexRunning.ConvexRunner.Await | src/cli/fns/fns/convex-runner.ts:57-71 | The spawned task becomes the awaited one, its kind is added to those started, and the runner invariant holds. |
| ConvexRunning.ConvexRunner.Continue | src/cli/fns/fns/convex-runner.ts:53-73 | A resolved task lets the next one start, or after the last task logs the "watching" line and goes idle. A rejection fails the run fast, reported unless it is a cancellation. |
| ConvexRunning.ConvexRunner.ChildExited | src/cli/fns/fns/convex-runner.ts:57-82 | The awaited child's exit is classified against the cancelled flag and logged by the runner, and the table is emptied. No child is signalled or spawned. The pipeline then continues (keeping the cancelled flag) or ends, as Continue says. |
| ConvexRunning.ConvexRunner.ChildFailedToStart | src/cli/fns/fns/convex-runner.ts:74-82 | A start failure ends the run idle with the table empty. No child is signalled or spawned. The start-failure line is logged, and the error is reported unless its message is "cancelled". |
| ConvexRunning.UncancelledRun | src/cli/fns/fns/convex-runner.ts:47-82 | A `runOnce` that nobody cancels, with both children exiting 0, runs the Convex task and then the schema task. Each logs its label and success message, no child is signalled, and the run ends idle with the "watching" line. |
| Dev.ShouldIgnore | src/cli/fns/dev.ts:33 | The ignore rule. Definition; GeneratedPathsIgnored, EditorFilesIgnored, SourcesKept, PlainSourcesKept and IgnoredPrefixExtends state which paths it ignores and keeps. |
| Dev.GeneratedPathsIgnored | src/cli/fns/dev.ts:33 | Every path starting with "_generated" is ignored, including a file merely named like the directory. |
| Dev.EditorFilesIgnored | src/cli/fns/dev.ts:33 | Every path starting with "." and every path ending in "~" or ".swp" is ignored. |
| Dev.SourcesKept | src/cli/fns/dev.ts:33 | Examples, worked out letter by letter: an ordinary source file, a nested `_generated` directory and the empty path are not ignored. The general kept condition is PlainSourcesKept. |
| Dev.PlainSourcesKept | src/cli/fns/dev.ts:33 | Every non-empty path that starts with neither '.' nor '_' and ends in neither '~' nor 'p' is kept. That covers every `.ts` and `.js` source outside `_generated`. |
| Dev.IgnoredPrefixExtends | src/cli/fns/dev.ts:33 | Anything under an ignored "_generated" or "." prefix is ignored. |
| Dev.DevWatcherOptions | src/cli/fns/dev.ts:38-42 | The dev watcher watches the given root recursively, with a 200 ms debounce and exactly the ShouldIgnore rule. |
| Dev.DevAccepts | src/cli/fns/dev.ts:33-42 | Under the dev configuration a notification is handled exactly when its name is truthy and ShouldIgnore does not match it. |
| DirWatching.Initial | src/cli/lib/dir-watcher.ts:33-36 | A new watcher has no timer, no last path, is not started and has reported nothing. |
| DirWatching.AfterStart | src/cli/lib/dir-watcher.ts:54-79 | Starting while started changes nothing. Otherwise the watcher becomes watching and started, and nothing else changes. |
| DirWatching.AfterStop | src/cli/lib/dir-watcher.ts:84-97 | Stopping releases the watcher and the timer and forgets the last path. What was already reported is kept. |
| DirWatching.AfterFsEvent | src/cli/lib/dir-watcher.ts:105-131 | A notification with a falsy name, or an ignored one, changes nothing. An accepted one records its path and replaces any pending timer with a new one. Nothing is reported. |
| DirWatching.AfterTimerFire | src/cli/lib/dir-watcher.ts:120-131 | The timer reports the last path unless it is empty, and is no longer pending. The path and the timer field are not cleared. |
| DirWatching.StartStopIdempotent | src/cli/lib/dir-watcher.ts:54-97 | Starting twice is starting once, and stopping twice is stopping once. |
| DirWatching.FeedBurst | src/cli/lib/dir-watcher.ts:105-131 | A burst with no accepted notification changes nothing. Otherwise exactly one timer is pending, created by the last accepted notification, with that notification's path. Nothing is reported during the burst. |
| DirWatching.BurstReportsOnce | src/cli/lib/dir-watcher.ts:112-131 | A burst with an accepted notification, followed by the timer firing, makes one `onChange` call with the last accepted path (none if that path is empty). No timer is left pending. |
| DirWatching.DirWatcher.constructor | src/cli/lib/dir-watcher.ts:38-48 | `recursive` defaults to true and `debounceMs` to 200. The state starts as Initial. |
| DirWatching.DirWatcher.Start | src/cli/lib/dir-watcher.ts:54-79 | The new state is AfterStart of the old one. |
| DirWatching.DirWatcher.Stop | src/cli/lib/dir-watcher.ts:84-97 | The new state is AfterStop of the old one. |
| DirWatching.DirWatcher.HandleFsEvent | src/cli/lib/dir-watcher.ts:105-132 | The new state is AfterFsEvent of the old one, under the watcher's ignore rule. |
| DirWatching.DirWatcher.TimerFires | src/cli/lib/dir-watcher.ts:120-131 | The new state is AfterTimerFire of the old one. |
| DirWatching.DirWatcher.OnChangeRejected | src/cli/lib/dir-watcher.ts:124-130 | A rejection of one of the reported `onChange` calls is logged once and does not touch the watcher's state. There are never more error lines than reported calls. |
| ExportScan.KeptAppend | src/cli/fns/fns/generate-z-schema/utils/extract-schema.ts:73-98 | The export loop is compositional: the entries of a then b are those of a followed by those of b. |
| ExportScan.KeptExactly | src/cli/fns/fns/generate-z-schema/utils/extract-schema.ts:73-98 | Every entry pushed came from some export, and every export that yields an entry contributes it. |
| ExportScan.KeptLength | src/cli/fns/fns/generate-z-schema/utils/extract-schema.ts:73-98 | The loop never pushes more entries than there are exports. |
| ExportScan.KeptNone | src/cli/fns/fns/generate-z-schema/utils/extract-schema.ts:73-98 | When no export passes the checks, nothing is pushed. |
| ExportScan.KeptSkip | src/cli/fns/fns/generate-z-schema/utils/extract-schema.ts:73-98 | An export that `continue`s is dropped without disturbing the others. |
| ExtractSchema.IsConvexFn | src/cli/fns/fns/generate-z-schema/utils/extract-schema.ts:24-30 | The public-query check. Definition; stated by IsConvexFnRefinesGenerator. |
| ExtractSchema.FetchReturnsString | src/cli/fns/fns/generate-z-schema/utils/extract-schema.ts:36-43 | Reading `exportReturns()`. Definition; stated by FetchReturnsStringExactly. |
| ExtractSchema.StripSourceSuffix | src/cli/fns/fns/generate-z-schema/utils/extract-schema.ts:70-71 | The module path of a file. Definition; stated by StripSourceSuffixInverse. |
| ExtractSchema.EntryFor | src/cli/fns/fns/generate-z-schema/utils/extract-schema.ts:73-97 | One export's checks and entry. Definition; stated by EntryForExactly and ParseFailureSkipsOnlyThatExport. |
| ExtractSchema.Entries | src/cli/fns/fns/generate-z-schema/utils/extract-schema.ts:58-101 | The entries of one file. Definition; ExtractSchema computes it, and EntriesExactly and EntriesInExportOrder state it. |
| ExtractSchema.IsConvexFnRefinesGenerator | src/cli/fns/fns/generate-z-schema/utils/extract-schema.ts:24-30 | This check is the generator's `isConvexFn` plus a function-valued `exportReturns`. |
| ExtractSchema.FetchReturnsStringExactly | src/cli/fns/fns/generate-z-schema/utils/extract-schema.ts:36-43 | A string comes back exactly when `exportReturns` is a function whose call returns a non-empty string. A throw, a missing member and "" all give nothing. |
| ExtractSchema.StripSourceSuffixInverse | src/cli/fns/fns/generate-z-schema/utils/extract-schema.ts:70-71 | Exactly one trailing ".ts" or ".js" is removed. A path with neither suffix is kept. |
| ExtractSchema.ExtractSchema | src/cli/fns/fns/generate-z-schema/utils/extract-schema.ts:58-101 | The loop computes Entries: nothing for a failed import, otherwise the export loop over the module path. |
| ExtractSchema.EntryForExactly | src/cli/fns/fns/generate-z-schema/utils/extract-schema.ts:73-97 | An export yields an entry exactly when all four checks pass: public query, non-empty returns string, truthy reference, truthy parse. The entry is the reference's name with `{ returns: <parsed JSON> }`. |
| ExtractSchema.EntriesExactly | src/cli/fns/fns/generate-z-schema/utils/extract-schema.ts:58-101 | A failed import gives no entry. Otherwise the entries are exactly those the exports yield, and there are never more entries than exports. |
| ExtractSchema.EntriesInExportOrder | src/cli/fns/fns/generate-z-schema/utils/extract-schema.ts:73-98 | Entries come out in export order. |
| ExtractSchema.ParseFailureSkipsOnlyThatExport | src/cli/fns/fns/generate-z-schema/utils/extract-schema.ts:88-90 | A returns string that fails to parse skips that export alone. |
| GenerateZSchema.SplitPiecesHaveNoSeparator | src/cli/fns/fns/generate-z-schema.ts:58 | No piece of the split contains "/" or "\\". |
| GenerateZSchema.NonEmptyKeeps | src/cli/fns/fns/generate-z-schema.ts:58 | `filter(Boolean)` keeps only non-empty pieces of the input. |
| GenerateZSchema.SegmentsAreSegments | src/cli/fns/fns/generate-z-schema.ts:58 | Each segment walked is non-empty and contains no separator. |
| GenerateZSchema.NoSegments | src/cli/fns/fns/generate-z-schema.ts:58-59 | A path yields no segment exactly when it is made of separators only, the empty path included. |
| GenerateZSchema.SegmentsOfJoin | src/cli/fns/fns/generate-z-schema.ts:58 | Joining segments with either separator and splitting again gives them back. |
| GenerateZSchema.SeparatorsAlike | src/cli/fns/fns/generate-z-schema.ts:57-58 | "/" and "\\" split a path alike. |
| GenerateZSchema.Walk | src/cli/fns/fns/generate-z-schema.ts:63-67 | A walk over at least one segment only ever ends on a truthy node. |
| GenerateZSchema.FindFunctionReference | src/cli/fns/fns/generate-z-schema.ts:55-78 | The loop computes FunctionReference: undefined for no segments or a broken walk, the truthy `default` member or the node for "default", otherwise the named member. |
| GenerateZSchema.WalkAppend | src/cli/fns/fns/generate-z-schema.ts:63-67 | Walking a path in two legs is walking it whole. |
| GenerateZSchema.FunctionReference | src/cli/fns/fns/generate-z-schema.ts:55-78 | What `findFunctionReference` returns. Definition; FindFunctionReference computes it, and NoSegmentsNoReference, DefaultExport, JoinedPathReference and WindowsPathsAlike state it. |
| GenerateZSchema.NoSegmentsNoReference | src/cli/fns/fns/generate-z-schema.ts:58-59 | A path of separators only finds nothing. |
| GenerateZSchema.DefaultExport | src/cli/fns/fns/generate-z-schema.ts:69-73 | Once the walk reaches a node, "default" yields its truthy `default` member or the node itself, and is never falsy. Any other name yields that member. |
| GenerateZSchema.JoinedPathReference | src/cli/fns/fns/generate-z-schema.ts:55-78 | The segments of `a/b/c` or `a\b\c` are looked up in order from the api root. |
| GenerateZSchema.WindowsPathsAlike | src/cli/fns/fns/generate-z-schema.ts:57-58 | Replacing "/" by "\\" finds the same reference. |
| GenerateZSchema.IsConvexFn | src/cli/fns/fns/generate-z-schema.ts:91-97 | The public-query check. Definition; stated by IsConvexFnExactly. |
| GenerateZSchema.HasZReturn | src/cli/fns/fns/generate-z-schema.ts:99-101 | The Zod-return check. Definition; stated by HasZReturnExactly. |
| GenerateZSchema.StripTsSuffix | src/cli/fns/fns/generate-z-schema.ts:118-119 | The module path of a file. Definition; stated by StripTsSuffixInverse. |
| GenerateZSchema.ZEntryFor | src/cli/fns/fns/generate-z-schema.ts:121-143 | One export's checks and entry. Definition; stated by ZEntryForExactly. |
| GenerateZSchema.ZEntries | src/cli/fns/fns/generate-z-schema.ts:107-146 | The entries of one file. Definition; ExtractSchemasFromFile computes it, and ZEntriesExactly states it. |
| GenerateZSchema.BuildSchemasFileContent | src/cli/fns/fns/generate-z-schema.ts:151-164 | The generated file's text. Definition; stated by ContentLayout and ContentIgnoresInputOrder. |
| GenerateZSchema.ResolveConvexDirFromArgs | src/cli/fns/fns/generate-z-schema.ts:176-185 | The convex directory chosen from the arguments. Definition; stated by ResolveWithoutFlag and ResolveFirstFlag. |
| GenerateZSchema.RunResult | src/cli/fns/fns/generate-z-schema.ts:187-221 | What `main` does. Definition; RunGenerator computes it, and RunWritesOnlyWithEntries states it. |
| GenerateZSchema.IsConvexFnExactly | src/cli/fns/fns/generate-z-schema.ts:91-97 | Only objects and functions pass, and exactly when `isQuery` and `isPublic` are both truthy. |
| GenerateZSchema.HasZReturnExactly | src/cli/fns/fns/generate-z-schema.ts:99-101 | An object or function has a Zod return exactly when its `__zReturn` is truthy. |
| GenerateZSchema.StripTsSuffixInverse | src/cli/fns/fns/generate-z-schema.ts:118-119 | Exactly one trailing ".ts" is removed, and ".js" stays. |
| GenerateZSchema.ExtractSchemasFromFile | src/cli/fns/fns/generate-z-schema.ts:107-146 | The loop computes ZEntries: nothing for a failed import, otherwise the export loop over the path without ".ts". |
| GenerateZSchema.ZEntriesExactly | src/cli/fns/fns/generate-z-schema.ts:107-146 | An entry comes out exactly for an export with a truthy `__zReturn` that is a public query, is found in the api, and whose schema converts. It is named after the reference and holds `{ output: <converted schema> }`. There are never more entries than exports, and a failed import gives none. |
| GenerateZSchema.ZEntryForExactly | src/cli/fns/fns/generate-z-schema.ts:121-143 | One export yields an entry exactly when all its checks pass. The entry is the reference's name with `{ output: <converted schema> }`. |
| GenerateZSchema.ContentLayout | src/cli/fns/fns/generate-z-schema.ts:151-164 | The content is the header, one item per entry in ascending name order joined by newlines, then the closing brace. The sorted list is a permutation of the input. |
| GenerateZSchema.ContentIgnoresInputOrder | src/cli/fns/fns/generate-z-schema.ts:151-155 | When names determine entries, the file content does not depend on the input order. |
| GenerateZSchema.IndexOf | src/cli/fns/fns/generate-z-schema.ts:179 | `indexOf` gives the first position of the flag, or -1 exactly when it is absent. |
| GenerateZSchema.ResolveWithoutFlag | src/cli/fns/fns/generate-z-schema.ts:176-185 | Without "--convexDir" the directory is `<cwd>/convex`. |
| GenerateZSchema.ResolveFirstFlag | src/cli/fns/fns/generate-z-schema.ts:176-185 | Only the first "--convexDir" counts. A missing or empty value after it falls back to the default, even if the flag occurs again later. |
| GenerateZSchema.PerFileEntries | src/cli/fns/fns/generate-z-schema.ts:202 | One entry list per file, in file order, each that file's ZEntries. |
| GenerateZSchema.ExtractAll | src/cli/fns/fns/generate-z-schema.ts:202 | `Promise.all` over the files yields PerFileEntries. |
| GenerateZSchema.RunGenerator | src/cli/fns/fns/generate-z-schema.ts:187-221 | `main` skips with a warning without a convex directory. It stops silently when the api is missing or falsy (`undefined`, `null`). Otherwise it dedupes all files' entries and writes `schemaMap.js` with them unless there are none. |
| GenerateZSchema.RunWritesOnlyWithEntries | src/cli/fns/fns/generate-z-schema.ts:196-220 | With a convex directory, the run stops silently exactly when the api is falsy. Otherwise nothing is written exactly when no file yields an entry, and the one file written is `schemaMap.js`, listing each name's last entry. |
| OrderedMap.Get | src/cli/lib/shell-runner.ts:110 | `Map.get` finds a value exactly when the key is present. The value is the one stored under it, and it is unique when keys are distinct. |
| OrderedMap.PutShape | src/cli/fns/fns/generate-z-schema/fns/build-schema-map.ts:16 | `Map.set` on a present key keeps every key in place. On a new key it appends the pair. |
| OrderedMap.PutGet | src/cli/fns/fns/generate-z-schema/fns/build-schema-map.ts:16 | After `set`, the key maps to the new value, every other key is unaffected, and distinct keys stay distinct. |
| OrderedMap.Remove | src/cli/lib/shell-runner.ts:111 | `Map.delete` removes exactly that key, keeps the other keys' values and invents no pair. Deleting an absent key changes nothing. |
| OrderedMap.Values | src/cli/fns/fns/generate-z-schema/fns/build-schema-map.ts:20 | `[...map.values()]` lists the values in insertion order. |
| QueryFunctions.QueryFunction.constructor | src/convex/queries/v-query.ts:41 | The built function starts with the builder's properties and call behaviour. |
| QueryFunctions.QueryFunction.AsValue | src/convex/queries/v-query.ts:58 | The returned function, as a value, is a function object with the current properties. |
| QueryFunctions.QueryFunction.DefineProperty | src/convex/queries/v-query.ts:51-56 | `Object.defineProperty` sets that one property and leaves the others as they were. |
| QueryKey.Slice | src/convex-cache/core/helpers/utils/query-key.ts:26 | `slice(0, n)` is a prefix of length min(length, n). |
| QueryKey.Namespace | src/convex-cache/core/helpers/utils/query-key.ts:12 | The key's namespace, "pq" or "q". Definition; KindsNeverCollide states that the two kinds never share a key. |
| QueryKey.HashKey | src/convex-cache/core/helpers/utils/query-key.ts:25-27 | The tag of a key. Definition; stated by TagIsDigestPrefix. |
| QueryKey.MakeQueryKey | src/convex-cache/core/helpers/utils/query-key.ts:11-23 | The key and tag of a call. Definition; stated by KeyReadsBack, NamedKeyReadsBack, KindsNeverCollide, TagIsDigestPrefix and SortedArgsDecide. |
| QueryKey.KeyReadsBack | src/convex-cache/core/helpers/utils/query-key.ts:11-23 | A key is `<ns>:<fnKey>:<args>`. For a function key without ':' it parses back to exactly the kind, the function key and the serialised deep-sorted arguments. |
| QueryKey.NamedKeyReadsBack | src/convex-cache/core/helpers/utils/query-key.ts:11-23 | For the names `getFunctionName` gives, `<module>:<export>` with no ':' in either part, the key parses back to exactly the kind, that name and the serialised deep-sorted arguments. |
| QueryKey.KindsNeverCollide | src/convex-cache/core/helpers/utils/query-key.ts:12-17 | A query key never equals a paginated key, whatever the functions and arguments. |
| QueryKey.TagIsDigestPrefix | src/convex-cache/core/helpers/utils/query-key.ts:19-27 | The tag is a prefix of the key's digest, 16 characters long for a 64-character hex digest. |
| QueryKey.SortedArgsDecide | src/convex-cache/core/helpers/utils/query-key.ts:14-17 | Arguments that deep-sort alike give the same key and tag. |
| SchemaFile.Insert | src/cli/fns/fns/generate-z-schema/utils/build-schema-file.ts:8 | Inserting into a sorted list keeps it sorted and adds exactly that entry. |
| SchemaFile.SortByName | src/cli/fns/fns/generate-z-schema/utils/build-schema-file.ts:8 | The sort yields entries in ascending name order and is a permutation of its input. |
| SchemaFile.SortedArrangementUnique | src/cli/fns/fns/generate-z-schema/utils/build-schema-file.ts:8 | Two sorted arrangements of the same entries are equal when names determine entries and the order is antisymmetric. |
| SchemaFile.SortIgnoresInputOrder | src/cli/fns/fns/generate-z-schema/utils/build-schema-file.ts:8 | The sorted list depends only on which entries there are, not on the order they were listed in. |
| SchemaFile.Items | src/cli/fns/fns/generate-z-schema/utils/build-schema-file.ts:10 | One rendered line per entry, in the same order. |
| SchemaFile.EntryBlockLines | src/cli/fns/fns/generate-z-schema/utils/build-schema-file.ts:8-17 | The map body has one item per input entry, in ascending name order, and holds every input entry's item. |
| SchemaFile.SchemaFileTs | src/cli/fns/fns/generate-z-schema/utils/build-schema-file.ts:6-20 | `buildSchemaFileTs`. Definition; stated by EntryBlockLines, TsAndJsShareEntries and FilesIgnoreInputOrder. |
| SchemaFile.SchemaFileJs | src/cli/fns/fns/generate-z-schema/utils/build-schema-file.ts:25-37 | `buildSchemaFileJs`. Definition; stated by EntryBlockLines, TsAndJsShareEntries and FilesIgnoreInputOrder. |
| SchemaFile.TsAndJsShareEntries | src/cli/fns/fns/generate-z-schema/utils/build-schema-file.ts:6-37 | The TypeScript and JavaScript files begin with their different headers and are the same text after them. |
| SchemaFile.FilesIgnoreInputOrder | src/cli/fns/fns/generate-z-schema/utils/build-schema-file.ts:6-37 | When names determine entries, both files are the same for every ordering of the entries. |
| SchemaMap.DedupeByName | src/cli/fns/fns/generate-z-schema/fns/build-schema-map.ts:13-20 | The nested loops give Dedupe of the flattened lists. |
| SchemaMap.Dedupe | src/cli/fns/fns/generate-z-schema/fns/build-schema-map.ts:13-20 | The by-name merge. Definition; DedupeByName computes it, and DedupeDistinctNames, DedupeCoversNames, DedupeKeepsLast, DedupeOnlyLast, DedupeFirstAppearanceOrder and DedupeEmpty state it. |
| SchemaMap.ByNameShape | src/cli/fns/fns/generate-z-schema/fns/build-schema-map.ts:13-18 | The map's keys are distinct, and each entry is stored under its own name. |
| SchemaMap.ByNameKeys | src/cli/fns/fns/generate-z-schema/fns/build-schema-map.ts:13-18 | The names kept are exactly the names that occur. |
| SchemaMap.ByNameKeepsLast | src/cli/fns/fns/generate-z-schema/fns/build-schema-map.ts:13-18 | Each name maps to its last occurrence. |
| SchemaMap.ByNameFirstAppearanceOrder | src/cli/fns/fns/generate-z-schema/fns/build-schema-map.ts:13-20 | Map order is the order in which names first appeared. |
| SchemaMap.DedupeDistinctNames | src/cli/fns/fns/generate-z-schema/fns/build-schema-map.ts:13-20 | No two surviving entries share a name. |
| SchemaMap.DedupeCoversNames | src/cli/fns/fns/generate-z-schema/fns/build-schema-map.ts:13-20 | Every input name survives. |
| SchemaMap.DedupeKeepsLast | src/cli/fns/fns/generate-z-schema/fns/build-schema-map.ts:13-20 | The last entry of each name is kept. |
| SchemaMap.DedupeOnlyLast | src/cli/fns/fns/generate-z-schema/fns/build-schema-map.ts:13-20 | Every kept entry is the last input entry with its name. |
| SchemaMap.DedupeFirstAppearanceOrder | src/cli/fns/fns/generate-z-schema/fns/build-schema-map.ts:13-20 | Kept entries come out in the order their names first appeared. |
| SchemaMap.DedupeEmpty | src/cli/fns/fns/generate-z-schema/fns/build-schema-map.ts:20-22 | The result is empty exactly when there was no entry at all. |
| SchemaMap.WriteSchemasFile | src/cli/fns/fns/generate-z-schema/fns/build-schema-map.ts:32-49 | The files written. Definition; stated by WrittenFiles. |
| SchemaMap.WrittenFiles | src/cli/fns/fns/generate-z-schema/fns/build-schema-map.ts:32-49 | A TypeScript project gets `schemaMap.ts` alone. Otherwise it gets `schemaMap.js` and the fixed `schemaMap.d.ts`. Both map files contain the same text after their headers. |
| SchemaMap.BuildSchemaMap | src/cli/fns/fns/generate-z-schema/fns/build-schema-map.ts:10-28 | Warns with the fixed message exactly when no file yields an entry. Otherwise it writes the deduped entries. |
| Validation.Decode | src/validation/index.ts:15-78 | Decoding fails only with an unknown-tag message, and never yields an optional validator at top level. |
| Validation.DecodeMembers | src/validation/index.ts:51-55 | It gives either the first failing member's error, or one decoded validator per member, in order. |
| Validation.DecodeField | src/validation/index.ts:60-62 | The field's type is decoded and wrapped in `v.optional` if and only if the field is flagged optional. |
| Validation.DecodeFields | src/validation/index.ts:57-65 | The object loop fails only with an unknown-tag message. |
| Validation.DecodeRecordKey | src/validation/index.ts:80-95 | A decoded record key is a string, an id, or a union of such. Failures are unknown-key-tag messages. |
| Validation.DecodeKeyMembers | src/validation/index.ts:86-89 | Gives one decoded key per member, in order, or the first failing member's error. |
| Validation.ValidatorFromJson | src/validation/index.ts:15-78 | The recursive decoder with its loops computes Decode. |
| Validation.RecordKeyFromJson | src/validation/index.ts:80-95 | Computes DecodeRecordKey. |
| Validation.RecordValueFromJson | src/validation/index.ts:97-101 | Computes DecodeField for the record's value. |
| Validation.DecodeFailsIffUnknown | src/validation/index.ts:73-76 | `validatorFromJSON` throws if and only if an unknown tag occurs anywhere in the tree, including inside a record key. |
| Validation.RecordKeyFailsIffUnknown | src/validation/index.ts:90-93 | `recordKeyFromJSON` throws if and only if a tag other than string, id or union occurs in the key. |
| Validation.ObjectKeepsFields | src/validation/index.ts:57-65 | For distinct field names, the object case keeps exactly the field names, in order. A field is wrapped in `v.optional` if and only if it is flagged optional. |
| Validation.DecodeToJson | src/validation/index.ts:8-78 | When literal values survive the conversion to JSON and back, decoding the JSON of a well-formed validator gives that validator back. |
| Validation.FieldRoundTrip | src/validation/index.ts:97-101 | Decoding a field's JSON gives the field validator back, optional or not. |
| Validation.KeyRoundTrip | src/validation/index.ts:80-95 | Decoding a record key's JSON gives the key back. |
| Validation.ToJsonDecode | src/validation/index.ts:8-78 | When every object's field names are distinct, whatever decodes is well-formed, and its JSON is the input. |
| VQuery.IsConvexValidatorExactly | src/convex/queries/v-query.ts:6-8 | Only a plain object whose own `isConvexValidator` is exactly `true` is a validator. |
| VQuery.IsConvexValidator | src/convex/queries/v-query.ts:6-8 | The validator check. Definition; stated by IsConvexValidatorExactly. |
| VQuery.ToConvexValidatorCases | src/convex/queries/v-query.ts:17-32 | A result exists exactly for a validator or an object or array of validators, the empty ones included. A validator is used as is, and a shape goes through `v.object`. |
| VQuery.ToConvexValidatorGivesValidator | src/convex/queries/v-query.ts:17-32 | When `v.object` builds validators, every result is a single validator. |
| VQuery.ToConvexValidator | src/convex/queries/v-query.ts:17-32 | The normalised `returns`. Definition; stated by ToConvexValidatorCases and ToConvexValidatorGivesValidator. |
| VQuery.AttachedExactly | src/convex/queries/v-query.ts:43-56 | The wrapper throws "Invalid returns schema" exactly when `returns` describes no validator. Otherwise it adds `__returnsJson` with the validator's JSON and keeps every other property. |
| VQuery.Attached | src/convex/queries/v-query.ts:41-58 | The built function's properties, or the error thrown. Definition; stated by AttachedExactly, and VQueryImpl computes it. |
| VQuery.ReturnsJsonKeepsFlags | src/convex/queries/v-query.ts:51-56 | Attaching `__returnsJson` does not change what either schema extractor's `isConvexFn` says. |
| VQuery.VQueryImpl | src/convex/queries/v-query.ts:39-60 | Builds the function, then either throws exactly as Attached says or returns a fresh function whose properties are Attached's. |
| ZQuery.ToZodReturnSchemaCases | src/convex/queries/z-query.ts:16-30 | A schema exists exactly for a Zod type or an object or array of Zod types. A Zod type is used as is, and a shape goes through `z.object`. |
| ZQuery.IsZodType | src/convex/queries/z-query.ts:5-7 | `instanceof ZodType`. Definition; IsZodShapeExactly states that null is not one. |
| ZQuery.IsZodShape | src/convex/queries/z-query.ts:9-11 | The shape check. Definition; stated by IsZodShapeExactly. |
| ZQuery.IsZodShapeExactly | src/convex/queries/z-query.ts:9-11 | A shape is exactly an object or array whose values are all Zod types, the empty ones included. Null is neither a Zod type nor a shape. |
| ZQuery.ToZodReturnSchema | src/convex/queries/z-query.ts:16-30 | The normalised `returns`. Definition; stated by ToZodReturnSchemaCases. |
| ZQuery.WithZReturn | src/convex/queries/z-query.ts:40-57 | The built function's properties. Definition; stated by ZReturnSeenByGenerator, and ZQueryImpl computes it. |
| ZQuery.ZReturnSeenByGenerator | src/convex/queries/z-query.ts:44-54 | The generator's `hasZReturn` holds on the built function exactly when `returns` yields a schema, and reads back that schema. `isQuery` and `isPublic` are untouched. |
| ZQuery.ZQueryImpl | src/convex/queries/z-query.ts:39-58 | Always returns a fresh function with the builder's call. `__zReturn` is added only when a truthy schema comes out. |

## Left out

- **I/O is not modelled.** The `child_process` spawn, `fs.watch`, `setTimeout`/`clearTimeout`, `fs.existsSync`, `mkdirSync`, `writeFileSync`, `process.exit` and the console are left out. Their events are method calls, their effects are recorded as kill, log and report sequences or returned values, and the fatal paths of `DirWatcher.start` are not modelled.
- **Async interleavings are collapsed.**
  - The async interleaving of `Promise.all` and of nested `await`s is not modelled: extraction runs file by file in order, matching the order `Promise.all` returns.
  - `dev`'s `onChange` queueing of rebuilds (`rebuildPromise`) and its signal handlers are not modelled. The dev loop is modelled through the runner, watcher, ignore rule and configuration.
  - `dev`'s "initial run failed" branch is unreachable because `runOnce` catches every error; it is not modelled.
- **External functions are parameters, not modelled:** `runCmd`/`runFileCmd` command resolution, `path.join`, `path.resolve`, `path.relative`, `fileURLToPath`, `fast-glob`, `loadConvexApi` and the dynamic `import`. Command resolution is the CommandResolved event, the paths are inputs and the import outcome is an input.
- **Library functions are parameters:** `JSON.parse`, `JSON.stringify`, `superjson.stringify`, `deepSort`, SHA-256, `getFunctionName`, `ZOD_JSON.zodToJson`, `jsonToConvex`, `v.object`, `z.object` and `validatorToJSON`. Their own behaviour is not part of this model.
- `findFunctionReference` used by extract-schema.ts comes from `./find-fn-ref`, which is not part of this model. It is a parameter there. The generator's own copy in generate-z-schema.ts is modelled.
- The `try`/`catch` inside `findFunctionReference` is not modelled, because nothing in this property model throws.
- **JavaScript value limits.**
  - Array elements read by index through `GetProp` are `undefined`, and NaN and non-integer numbers are not modelled.
  - `Object.defineProperty` on an existing non-configurable property, which would throw, is modelled as an overwrite.
  - The non-enumerability of the defined property is not modelled.
- SchemaFile.SortByName: `localeCompare` is an abstract total order `le`, and locale collation is not modelled. Stability is not stated.
- SchemaFile.SortIgnoresInputOrder: requires an antisymmetric order, and names that determine entries (as after dedupe). Two entries with the same name could otherwise be ordered either way.
- SchemaFile.FilesIgnoreInputOrder: requires the same conditions as SortIgnoresInputOrder.
- GenerateZSchema.ContentIgnoresInputOrder: requires the same conditions as SortIgnoresInputOrder.
- DirWatching.AfterStart: leaves out the fatal paths of `start`: a missing root directory, an `fs.watch` that throws, and a watcher `error` event. Each of them exits the process.
- QueryKey.KeyReadsBack: stated only for function keys without ':'. Real Convex names contain one ':' and are covered by QueryKey.NamedKeyReadsBack instead. A function key with two or more ':' cannot be split back unambiguously.
- VQuery.AttachedExactly: assumes `v.object` returns a truthy value. If it did not, the wrapper would also throw for a shape.
- ZQuery.ZReturnSeenByGenerator: assumes `z.object` returns a Zod type, and that the builder's function has no own `__zReturn` property.
- ShellRunning.ShellRunner.Run: covers the call up to registering the child. The promise settles through `ShellRun.OnExit` and `ShellRun.OnError`. `shell` and `spawnOptions` only reach the spawn and are not modelled. `child.killed` is modelled as "some signal was sent"; the signal actually ending the process is not.
- ShellRunning.ShellRun.OnAbortEvent: the dispatch of one "abort" event to every listener still registered is the caller's sequence of OnAbortEvent calls after AbortSignal.Abort reports a dispatch. ShellRunning.AbortSharedSignal shows it for two runs.
- QueryFunctions.QueryFunction.constructor: `vQuery` and `zQuery` change the object `baseQuery` returned, in place. The model builds a new QueryFunction with the builder's properties instead, so the identity of that object and any alias to it are not modelled.
- Validation.ToJson: the reference encoder writes `optional: true` for a record whose value is `v.optional(…)`. Convex's own encoder always writes `false` there. The decoder respects the flag either way, as the source does.
- ConvexRunning.ConvexRunner.Cancel: SIGINT is recorded against the awaited child only. `cancelAll` also signals nothing else, because the table never holds more than that one child.
- ShellRunning.ShellRun.OnExit: the exit code is an unbounded integer. Node's `code` is a small integer or null, and `signal` is a name or null.
