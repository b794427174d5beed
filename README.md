# sink: a verified model of the path-selection, watch and output core

sink collects the source files of a repository into one markdown document
(a table of contents, then one section per file with its metadata and its
code), optionally with line numbers and without comments, and can watch the
repository to regenerate that document when files change.  This project
models, in Dafny, the sequential logic that decides what goes into the
document and how it is written:

- **path selection**: `MatchesAny` over include/exclude patterns
  (`Patterns`), the ignore-file loader and basename matcher (`Gitignore`),
  the NUL-sniff binary test (`Binary`), the file processor's acceptance
  checks, pruned walk, `FileInfo` records and language detection
  (`Processor`, `Language`);
- **watch-set maintenance**: the watch service as a class holding the
  table of watched paths, its event dispatch, its subtree purges on removal
  and rename, its rebuild on reconfiguration and on a configuration reload,
  and the number of regenerations it schedules (`Watcher`);
- **configuration**: the defaults, the in-place `merge` and the layering of
  system, user, local and explicit configuration files (`Configuration`),
  and the ordered validation checks with their tables (`Validation`);
- **output**: the extension statistics and their flat formatting
  (`Analyzer`), line numbering (`LineNumbers`), comment stripping
  (`Comments`) and the markdown serialiser (`Markdown`).

Helper modules: `Wrappers` (Option, Result), `Text` (split, join, prefixes,
ASCII `TrimSpace` and `ToLower`), `Decimal` (decimal rendering and padding),
`Order` (byte-wise string order and a sort), `Paths` (`filepath.Base`,
`Ext`, `Dir`, `Clean`, `Rel` with `/` as the separator), `Glob` (a glob
engine standing in for `filepath.Match` and `doublestar.Match`) and
`FileSystem` (the file tree the core walks).

How the world outside the core is represented:

- The file system is a tree of entries whose children are listed in
  lexical order.  Each file entry carries the outcome of `os.Stat` on it and
  of opening and reading it; a directory records whether it can be listed.
  The watch service sees the same world through an `Env` value: the outcome
  of statting a path, the tree found at a path, the outcome of opening a
  path, whether fsnotify accepts a watch, and what each configuration file
  parses to.
- The ignore-file filter built by `filter.NewFilter` is an abstract
  function from relative paths to its `(ignored, error)` answer.
- The ignore file is a sequence of lines, or the error opening or scanning
  it gives.  The template-path `os.Stat` in `Validate` is a parameter.
- Strings are sequences of characters, one per byte; file contents are
  sequences of bytes.
- A regeneration request is counted by a ghost counter on the service.
- The Python comment stripper compiles a pattern with a backreference,
  which Go's regular-expression package rejects, so that branch is modelled
  as a panic, and the markdown generator returns `Panicked` when it is taken.

Behaviour of the code that the model states explicitly:

- The comment stripper's line pass runs before its block pass, so in
  `/* a // b */ c` the line comment swallows the closing `*/` and the result
  is `/* a` (`Comments.LineCommentInsideBlock`).
- `filepath.Walk`, used by the watch service, lists a directory before it
  calls the callback on it.  An unreadable directory therefore fails the
  rebuild even when the callback would have pruned it.  `filepath.WalkDir`,
  used by the file processor, calls the callback first, so a pruned
  unreadable directory is never listed.
- `LoadConfig` with no explicit path cannot fail, so the configuration
  reload in the watch service fails only when the rebuild of the watch
  table fails; `reloading` then stays set.

## Model

| member | source | states |
|---|---|---|
| Patterns.MatchesAny | internal/filter/patterns.go:11-44 | an empty list matches every path; otherwise the result is true exactly when some pattern, folded like the path, matches the folded path (or its base name when the pattern has no `/`) |
| Patterns.AnyMatch | internal/filter/patterns.go:25-43 | the loop with early return is true exactly when some pattern of the list matches |
| Patterns.Fold | internal/filter/patterns.go:18-20 | case folding keeps the length of the path |
| Patterns.EmptyMatchesEverything | internal/filter/patterns.go:12-13 | `MatchesAny(path, [])` holds for every path |
| Patterns.SamePatternsSameResult | internal/filter/patterns.go:25-43 | two lists with the same members give the same result, so order and repetition are irrelevant |
| Patterns.MoreNonEmptyPatternsKeepMatch | internal/filter/patterns.go:25-43 | adding patterns to a non-empty list never turns a match into a non-match |
| Patterns.FirstPatternCanTurnMatchOff | internal/filter/patterns.go:12-13 | the empty-list rule is not monotone: `[]` matches `a.txt`, `["*.go"]` does not |
| Patterns.CaseInsensitiveIgnoresCase | internal/filter/patterns.go:18-20 | without case sensitivity, paths equal after lower-casing get the same result for every pattern list |
| Patterns.BarePatternSeesBasename | internal/filter/patterns.go:23 | a pattern without `/` matches `dir/name` exactly when it matches `name` |
| Patterns.MatchOneBare | internal/filter/patterns.go:31-37 | a pattern without `/` is matched against the base name |
| Patterns.StarDotGo | internal/filter/patterns.go:31-38 | `*.go` matches a name exactly when the folded name ends in `.go` |
| Patterns.FoldKeepsSlashes | internal/filter/patterns.go:26-33 | folding neither adds nor removes `/`, so the basename choice is the same before and after |
| Patterns.FoldConcat | internal/filter/patterns.go:18-20 | folding distributes over concatenation |
| Patterns.MatchOne | internal/filter/patterns.go:26-38 | one pattern against one path: the pattern is folded like the path, matched by doublestar against the whole path when it holds a `/` and against the base name otherwise, and a malformed pattern is no match |
| Patterns.LitsMatch | internal/filter/patterns.go:37 | a segment of literal tokens matches exactly its own text |
| Patterns.StarSuffix | internal/filter/patterns.go:37 | `*` followed by literal text matches exactly the names ending in that text |
| PatternExamples.MatchesDeepGoFile | internal/filter/filter_test.go:14-19 | `my-folder/**/*.go` matches `my-folder/subdir/deeper/file.go` |
| PatternExamples.RejectsTxtFile | internal/filter/filter_test.go:20-25 | `my-folder/**/*.go` rejects `my-folder/subdir/file.txt` |
| PatternExamples.MatchesShallowGoFile | internal/filter/filter_test.go:26-31 | `**` spans zero elements: `my-folder/file.go` matches |
| PatternExamples.RejectsOtherFolder | internal/filter/filter_test.go:32-37 | `my-folder/**/*.go` rejects `another-folder/file.go` |
| PatternExamples.MyFolderGlob | internal/filter/filter_test.go:14-37 | a path matches `my-folder/**/*.go` exactly when, lower-cased, it starts with `my-folder/` and ends in `.go` |
| PatternExamples.DirGlobStarGo | internal/filter/patterns.go:31-38 | for a plain lower-case directory name `d`, `d/**/*.go` matches exactly the folded paths that start with `d/` and end in `.go` |
| PatternExamples.RecursiveWildcardMatches | internal/filter/patterns.go:37 | `a/**/*.go` matches `a/b/c/file.go` |
| PatternExamples.RecursiveWildcardRejects | internal/filter/patterns.go:37 | `a/**/*.go` rejects `x/file.go` |
| PatternExamples.StarGoOnName | internal/filter/patterns.go:31-38 | `*.go` matches a name exactly when its folded form ends in `.go` |
| PatternExamples.CaseInsensitiveExample | internal/filter/patterns.go:18-20 | `FILE.GO` matches `*.go` when matching ignores case |
| PatternExamples.CaseSensitiveExample | internal/filter/patterns.go:18-20 | `FILE.GO` does not match `*.go` when matching is case-sensitive |
| PatternExamples.BarePatternAnyDepth | internal/filter/patterns.go:31-35 | the bare pattern `*.go` matches `a/b/c.go` |
| Gitignore.LoadGitignorePatterns | internal/filter/gitignore.go:11-32 | an empty path gives no patterns and no error; a failed open gives its error; otherwise the patterns are the qualifying lines and the error is the scanner's |
| Gitignore.Qualifying | internal/filter/gitignore.go:23-29 | every pattern is non-empty, has no leading or trailing space and does not start with `#`; there are at most as many as lines |
| Gitignore.QualifyingConcat | internal/filter/gitignore.go:23-29 | lines are judged one at a time: the patterns of a concatenation are the concatenated patterns |
| Gitignore.QualifyingOne | internal/filter/gitignore.go:25-27 | one line yields its trimmed text exactly when it is non-empty and not a comment, and nothing otherwise |
| Gitignore.QualifyingKeepsLine | internal/filter/gitignore.go:23-29 | a qualifying line contributes its trimmed text once, at its place in file order |
| Gitignore.Keeps | internal/filter/gitignore.go:25-27 | a line is kept when its trimmed form is neither empty nor starts with `#` |
| Gitignore.IsIgnored | internal/filter/gitignore.go:35-42 | true exactly when some pattern matches the path's base name |
| Gitignore.NoPatternsIgnoreNothing | internal/filter/gitignore.go:35-42 | an empty pattern list ignores nothing |
| Gitignore.MatchGitignorePattern | internal/filter/gitignore.go:45-50 | `filepath.Match` of the pattern against the base name of the path, with a malformed pattern counted as no match |
| Gitignore.OnlyBaseNameMatters | internal/filter/gitignore.go:48 | `dir/name` is ignored exactly when `name` is |
| Gitignore.MalformedNeverMatches | internal/filter/gitignore.go:48 | a pattern `filepath.Match` rejects never matches, its error being discarded |
| Gitignore.UnclosedClassIsMalformed | internal/filter/gitignore.go:48 | `[a` is malformed for every name |
| Gitignore.TrailingSlashPattern | internal/filter/gitignore.go:48 | a pattern ending in `/` can match only a path made of slashes alone |
| Binary.FirstRead | internal/utils/binary.go:10-22 | the read yields nothing when the open fails, the read fails or the file is empty, and otherwise the first min(size, 512) bytes |
| Binary.BinaryIffNulInPrefix | internal/utils/binary.go:17-24 | a file is binary exactly when it opens, reads, and has a NUL among its first 512 bytes |
| Binary.UnreadableIsNotBinary | internal/utils/binary.go:10-21 | an unopenable file, a failed read or an empty file is not binary |
| Binary.OnlyPrefixMatters | internal/utils/binary.go:17-22 | bytes after the first 512 never change the answer |
| Binary.LateNulIsIgnored | internal/utils/binary.go:17-24 | a NUL only after the first 512 bytes does not make a file binary |
| Binary.IsBinaryFile | internal/utils/binary.go:9-25 | a file is binary when the first read gives bytes and a NUL is among them; open and read failures give false |
| Language.SwitchIsTable | internal/processor/language.go:8-24 | the switch maps the ten known extensions to their language and everything else to `unknown` |
| Language.OnlyExtensionMatters | internal/processor/language.go:7 | two paths with the same extension get the same language |
| Language.NoExtensionIsUnknown | internal/processor/language.go:22-23 | a path without an extension is `unknown` |
| Language.UnknownIffNotKnown | internal/processor/language.go:8-24 | the result is `unknown` exactly when the extension is not one of the ten known |
| Language.LanguageOfExt | internal/processor/language.go:8-24 | the switch from extension to language name, `unknown` by default |
| Language.DetectLanguage | internal/processor/language.go:6-25 | the language of a path is the switch applied to its extension |
| Processor.DirectoriesIgnoreFilters | internal/processor/files.go:76-104 | the directory decision does not depend on the filter patterns |
| Processor.PrunedDirectories | internal/processor/files.go:76-104 | a directory is pruned exactly when it is named `.git`, or its relative path is ignored, or a non-empty exclude list matches it; a pruned directory adds nothing and cannot fail |
| Processor.DecideDir | internal/processor/files.go:76-104 | a directory is pruned when named `.git`, when the ignore filter ignores its relative path, or when a non-empty exclude list matches it; a failing `Rel` or an ignore error aborts the walk; otherwise the walk descends |
| Processor.UnlistableDirectoryFails | internal/processor/files.go:70-73 | a directory the walk enters but cannot list stops the walk with its error |
| Processor.ShouldProcessFileIff | internal/processor/files.go:185-222 | a file is accepted exactly when it is not binary, has a relative path, is reported not ignored without error, matches the filter list (empty matches all) and is not matched by a non-empty exclude list |
| Processor.ShouldProcessFile | internal/processor/files.go:185-222 | the file checks in order: not binary, `Rel` succeeds, not ignored and no ignore error, then the filter and exclude lists with an empty list matching everything |
| Processor.NoFiltersOnlyExcludes | internal/processor/files.go:203-209 | with no filter patterns a clean, unignored file is accepted exactly when the exclude list is empty or does not match |
| Processor.EmptyExcludesExcludeNothing | internal/processor/files.go:211-221 | with no exclude patterns acceptance is exactly the filter-list match |
| Processor.RejectedFiles | internal/processor/files.go:187-200 | binary files, relative-path failures and ignored or ignore-error files are always rejected |
| Processor.DetectLanguage | internal/processor/files.go:224-249 | a syntax-map entry for the extension wins; otherwise the language is the stand-alone table's |
| Processor.BuiltinAgreesWithLanguage | internal/processor/files.go:233-248 | the fallback switch equals `detectLanguage` of language.go, entry for entry |
| Processor.ProcessFile | internal/processor/files.go:134-176 | a record exactly for a statted, non-directory, opened and read file, with `Ext` from the path, the detected language, the stat size and `Created == Modified ==` the mod time; the skip sentinel exactly for a directory or an "is a directory" open error; an error in every other case |
| Processor.Process | internal/processor/files.go:66-132 | returns the walk's records and no error when the walk succeeds, and no records plus the walk's error otherwise |
| Processor.WalkEntry | internal/processor/files.go:70-125 | the callback on one entry and the walk below it compute the walk function `Visit` |
| Processor.WalkChildren | internal/processor/files.go:70-125 | the loop over a directory's children computes `VisitAll`, stopping at the first error |
| Processor.WalkFile | internal/processor/files.go:106-124 | the callback on a non-directory computes `VisitFile` |
| Processor.Walk | internal/processor/files.go:66-132 | `filepath.WalkDir` from the root: a root that cannot be found is an error, otherwise the root entry, named after the root's base, is visited |
| Processor.Visit | internal/processor/files.go:70-125 | one entry of the walk: a directory is decided, then listed and its children visited, a file is handed to the file step |
| Processor.VisitAll | internal/processor/files.go:70-125 | the children of a directory in order, stopping at the first error |
| Processor.VisitFile | internal/processor/files.go:106-124 | a rejected file adds nothing; an accepted one adds its record, is skipped or fails the walk, as `processFile` decides |
| Processor.ErrorIsFinal | internal/processor/files.go:127-129 | once a child's walk fails the directory's result is that error |
| Processor.FileOutcomes | internal/processor/files.go:107-123 | a rejected file adds nothing without error, a skipped one is dropped silently, a failing one stops the walk with its error |
| Processor.Accepted | internal/processor/files.go:107-123 | there are at most as many records as entries walked |
| Processor.AcceptedConcat | internal/processor/files.go:107-123 | acceptance is judged entry by entry |
| Processor.OutputIsAccepted | internal/processor/files.go:107-123 | a successful walk of an entry appends exactly the accepted records of the files it reaches, in walk order |
| Processor.ProcessReturnsAcceptedFiles | internal/processor/files.go:66-132 | a successful `Process` returns exactly the accepted files of the whole tree, in walk order |
| Watcher.TemporaryIff | internal/watcher/service.go:451-458 | a path is temporary exactly when its base name is `Thumbs.db`, starts with `.`, ends with `~`, or starts and ends with `#` (`.DS_Store` is already hidden) |
| Watcher.IsTemporaryFile | internal/watcher/service.go:451-458 | a path is temporary when its base name is `.DS_Store` or `Thumbs.db`, starts with `.`, ends with `~`, or starts and ends with `#` |
| Watcher.EmptyNameIsTemporary | internal/watcher/service.go:451-458 | the empty path has base name `.` and so counts as temporary |
| Watcher.OnlyBaseNameMatters | internal/watcher/service.go:452 | the directories above a name play no part |
| Watcher.SameFilesAsProcessor | internal/watcher/service.go:149-191 | the service's file check accepts exactly what the processor's accepts, though it tests exclude patterns before filter patterns: not binary, relative, not ignored, matched by the filters, not excluded |
| Watcher.ShouldProcessFile | internal/watcher/service.go:149-191 | the service's file checks in its own order: not binary, `Rel` succeeds, not ignored and no ignore error, no match in a non-empty exclude list, a match in a non-empty filter list |
| Watcher.WatchDirectoryIff | internal/watcher/service.go:409-440 | a directory is watched exactly when its relative path is `.`, or it is reported not ignored without error and no non-empty exclude list matches it |
| Watcher.ShouldWatchDirectory | internal/watcher/service.go:409-440 | a directory is watched when `Rel` succeeds and it is the root, or when it is not ignored, the ignore check succeeds and a non-empty exclude list does not match it |
| Watcher.RootIsWatched | internal/watcher/service.go:417-420 | the root is watched even if the ignore file or the exclude patterns would reject it |
| Watcher.DirectoriesIgnoreFilters | internal/watcher/service.go:409-440 | filter patterns are never consulted for directories |
| Watcher.WatchesWhatProcessorDescends | internal/watcher/service.go:409-440 | below the root, the service watches exactly the non-`.git` directories the processor's walk descends into |
| Watcher.DispatchIff | internal/watcher/service.go:193-236 | when each handler is chosen: configuration change for a write to the configuration file outside a reload; otherwise, for a non-temporary file that passes the file check, the first set bit among create, remove, write and rename |
| Watcher.Dispatch | internal/watcher/service.go:193-236 | the route of an event: temporary files are skipped, a configuration-file event while not reloading reloads on a write and is skipped otherwise, files failing the checks are skipped, then the first of create, remove, write and rename picks the handler |
| Watcher.TemporaryFilesSkipped | internal/watcher/service.go:195-198 | a temporary file is dropped before anything else |
| Watcher.ChmodAloneSkipped | internal/watcher/service.go:230-232 | a mode change alone never reaches a handler |
| Watcher.ConfigWriteWhileReloading | internal/watcher/service.go:201-209 | a write to the configuration file reloads when no reload is in progress and is an ordinary modification while one is |
| Watcher.FilteredPathsReachNoHandler | internal/watcher/service.go:183-188 | a path a non-empty filter list does not match reaches no file handler, directories included |
| Watcher.PurgedIff | internal/watcher/service.go:255-287 | after a removal, exactly the entries other than the path survive, except those below it when it was a watched directory; survivors keep their values |
| Watcher.Purged | internal/watcher/service.go:255-287 | an unwatched path leaves the table alone; a watched file is deleted; a watched directory is deleted with every entry under it |
| Watcher.PurgeUnwatched | internal/watcher/service.go:258-263 | removing an unwatched path changes nothing |
| Watcher.PurgeIdempotent | internal/watcher/service.go:255-287 | a second removal of the same path changes nothing more |
| Watcher.SiblingSurvives | internal/watcher/service.go:274-276 | removing `a` drops `a/b` and keeps the sibling `a-b` |
| Watcher.DeletePrefixed | internal/watcher/service.go:273-283 | the deletion loop leaves exactly the keys without the prefix |
| Watcher.CleanWalkAddsReached | internal/watcher/service.go:351-374 | a walk that meets no error adds exactly the directories it reaches, each marked as a directory, and keeps every existing entry |
| Watcher.AddNode | internal/watcher/service.go:351-374 | one entry of `filepath.Walk`: an unreadable directory is an error, `.git` and unwatchable directories are skipped, a refused watch is an error, a watched directory is added and its children walked, files are passed over |
| Watcher.AddChildren | internal/watcher/service.go:351-374 | the children in order, stopping at the first error |
| Watcher.AddWalk | internal/watcher/service.go:351-374 | a root that cannot be lstat'ed is an error, otherwise the walk starts from it |
| Watcher.ReachedDirs | internal/watcher/service.go:357-370 | the directories a walk without errors watches: every directory not named `.git` that should be watched and whose parents were watched |
| Watcher.CleanWalkAddsReachedAll | internal/watcher/service.go:351-374 | the same for the entries of one directory |
| Watcher.WalkAddsOnlyWatchable | internal/watcher/service.go:357-370 | even a walk stopped by an error keeps every entry and adds only directories `shouldWatchDirectory` accepts |
| Watcher.WalkAddsOnlyWatchableAll | internal/watcher/service.go:357-370 | the same for the entries of one directory |
| Watcher.AddsOnlyWatchableTrans | internal/watcher/service.go:357-370 | "adds only watchable directories" composes over successive walks |
| Watcher.StopsAtError | internal/watcher/service.go:352-354 | once a child's walk fails the rest of the directory is not walked |
| Watcher.RebuildWatchesReached | internal/watcher/service.go:338-349 | a successful rebuild watches the root and exactly the directories reached from it, whatever was watched before; so a second rebuild of an unchanged tree gives the same table |
| Watcher.Rebuild | internal/watcher/service.go:338-349 | the table is emptied and the root walked again |
| Watcher.SetUp | internal/watcher/service.go:90-102 | the rebuild, then a watch on the configuration file when there is one, as a file entry |
| Watcher.CreateFileChangesNothing | internal/watcher/service.go:238-253 | a new file, or a new directory that should not be watched, changes no entry |
| Watcher.CreateEffect | internal/watcher/service.go:238-253 | a stat failure is an error; a new directory that should be watched is walked; anything else leaves the table alone |
| Watcher.CreateDirectoryAddsReached | internal/watcher/service.go:244-250 | a new watchable directory walked without error adds exactly the directories reached inside it |
| Watcher.NoReloadWhileReloading | internal/watcher/service.go:201 | while `reloading` is set no event is a configuration change |
| Watcher.ReloadedConfig | internal/watcher/service.go:302-307 | the configuration a reload installs is `LoadConfig("")`, which cannot fail |
| Watcher.ReloadWatchesConfigFile | internal/watcher/service.go:314-320 | a successful reload watches the configuration file again, as a file |
| Watcher.Service.constructor | internal/watcher/service.go:46-80 | the configuration file is watched only if it exists at start; the table is empty, no reload is in progress and nothing is scheduled |
| Watcher.Service.TriggerRegeneration | internal/watcher/service.go:376-402 | one more regeneration is scheduled |
| Watcher.Service.WatchNode | internal/watcher/service.go:352-373 | the walk callback on one entry sets the table and error to those of the walk function |
| Watcher.Service.WatchChildren | internal/watcher/service.go:352-373 | the loop over a directory's entries does the same, stopping at the first error |
| Watcher.RootNode | internal/watcher/service.go:352-358 | the entry a walk starts from is named after the base of the path it was given, so the `.git` test sees that base |
| Watcher.Service.AddWatchRecursive | internal/watcher/service.go:351-374 | the table and error after the walk are those of the walk function from the old table |
| Watcher.Service.ReconfigureWatcher | internal/watcher/service.go:338-349 | the table is emptied and rebuilt from the root |
| Watcher.Service.SetUpWatches | internal/watcher/service.go:90-102 | the root's tree, then the configuration file as a file entry if there is one |
| Watcher.Service.HandleRemove | internal/watcher/service.go:255-287 | the table becomes the purged table and one regeneration is scheduled |
| Watcher.Service.HandleRename | internal/watcher/service.go:293-296 | the same as a removal |
| Watcher.Service.HandleModify | internal/watcher/service.go:289-291 | one regeneration, nothing else |
| Watcher.Service.HandleCreate | internal/watcher/service.go:238-253 | the table and error are those of the create effect; a regeneration is scheduled exactly when there is no error |
| Watcher.Service.HandleConfigChange | internal/watcher/service.go:298-326 | the configuration is reloaded, the watches are set up again under it, `reloading` stays set exactly on an error, and a regeneration is scheduled exactly on success |
| Watcher.Service.HandleEvent | internal/watcher/service.go:193-236 | each route has its effect: skip changes nothing; remove and rename purge and schedule one regeneration; modify schedules one; create and configuration change as their handlers state |
| Configuration.Pick | internal/config/config.go:157-165 | a non-empty setting of `other` replaces the receiver's; an empty one keeps the receiver's |
| Configuration.Merged | internal/config/config.go:151-207 | merging nothing keeps the configuration; merging another one takes its non-empty strings and lists and its non-zero numbers, turns on every flag it sets, and adds its syntax map over the current one |
| Configuration.MergedPaths | internal/config/config.go:157-165 | the output path and the filter and exclude lists take the other configuration's value when it is non-empty |
| Configuration.MergedFlags | internal/config/config.go:167-185 | each flag is the OR of the two |
| Configuration.MergedModelSettings | internal/config/config.go:187-201 | the token encoding, provider, model, output-token count and template path take the other configuration's value when it is non-empty or non-zero |
| Configuration.MergedInGroups | internal/config/config.go:151-207 | merging the three groups of settings in turn, then the syntax map, is the whole merge |
| Configuration.Config.Default | internal/config/config.go:43-51 | the new configuration holds the defaults: `cl100k_base`, `openai`, `gpt-3.5-turbo`, 1000 output tokens, an empty map, all else empty or false |
| Configuration.Config.Merge | internal/config/config.go:151-207 | the new configuration is the merge of the old one with `other`; `nil` changes nothing |
| Configuration.Config.MergePaths | internal/config/config.go:157-165 | the output path and pattern lists are merged and nothing else changes |
| Configuration.Config.SetPaths | internal/config/config.go:157-165 | each of the three fields takes `other`'s value when it is non-empty |
| Configuration.Config.MergeFlags | internal/config/config.go:167-185 | the six flags are merged and nothing else changes |
| Configuration.Config.SetFlags | internal/config/config.go:167-185 | each flag becomes the old flag or `other`'s |
| Configuration.Config.MergeModelSettings | internal/config/config.go:187-201 | the token, pricing and template settings are merged and nothing else changes |
| Configuration.Config.SetModelSettings | internal/config/config.go:187-201 | each of the five fields takes `other`'s value when it is non-empty or non-zero |
| Configuration.CopyEntries | internal/config/config.go:204-206 | the copy loop yields the receiver's map overwritten by every entry of `other`'s |
| Configuration.MergeNothing | internal/config/config.go:152-154 | merging `nil` changes nothing |
| Configuration.SetValuesOverride | internal/config/config.go:157-166 | every string, list and number field takes `other`'s value exactly when it is set, and keeps the receiver's otherwise |
| Configuration.FlagsOnlyTurnOn | internal/config/config.go:167-185 | a merge can switch a flag on but never off; with no flag set in `other` the flags are unchanged |
| Configuration.SyntaxMapUnion | internal/config/config.go:204-206 | the merged map has the keys of both maps, and `other`'s value wins on shared keys |
| Configuration.MergeIdempotent | internal/config/config.go:151-207 | merging the same configuration twice gives the same result as merging it once |
| Configuration.LoadConfig | internal/config/config.go:54-85 | on success the fresh configuration is the defaults merged with system, user, local, then explicit, each skipped when it fails to load; when the explicit file fails, there is no configuration and the error is returned |
| Configuration.Loaded | internal/config/config.go:57-73 | a configuration file that fails to load is skipped |
| Configuration.Layered | internal/config/config.go:54-85 | the defaults merged with the system, user and local files that load, then with the explicit file, whose failure is the error |
| Configuration.OnlyExplicitFileCanFail | internal/config/config.go:58-81 | loading fails exactly when an explicit path is given and that file fails to load |
| Configuration.LastSet | internal/config/config.go:55-82 | the layered value is either the base or one of the layers |
| Configuration.LaterSourcesWin | internal/config/config.go:55-82 | the output path is the one set by the last source that loads and sets it, the explicit file last, and the default otherwise |
| Validation.Validate | internal/config/validation.go:9-38 | no error exactly when the encoding is known, provider and model are valid whenever `ShowPrice` is set, `OutputTokens >= 0`, and a non-empty template path stats without error |
| Validation.UnknownEncodingFails | internal/config/validation.go:11-13 | an unknown encoding is the error, whatever the other fields hold |
| Validation.PricingIgnoredWithoutShowPrice | internal/config/validation.go:16-23 | without `ShowPrice` the provider and the model are never looked at |
| Validation.ProvidersWithoutModelsFail | internal/config/validation.go:50-79 | `google`, `mistral` and `cohere` are valid providers, yet with `ShowPrice` set every model of theirs fails |
| Validation.ModelTableProvidersAreValid | internal/config/validation.go:50-79 | every provider with a model table is a valid provider |
| Validation.NegativeTokensFail | internal/config/validation.go:26-28 | once the earlier checks pass, negative output tokens are the error |
| Validation.ZeroTokensAllowed | internal/config/validation.go:26-28 | zero output tokens is treated like any non-negative count |
| Validation.FirstFailureWins | internal/config/validation.go:9-37 | the checks run in the order encoding, provider, model, output tokens, template; each error is reported only when every earlier check passed |
| Validation.EmptyTemplateNotChecked | internal/config/validation.go:31-35 | an empty template path is never statted |
| Validation.DefaultsAreValid | internal/config/validation.go:9-37 | the default configuration passes every check |
| Analyzer.Stats.constructor | internal/analyzer/analyzer.go:38-41 | the statistics start with empty tables and zero totals |
| Analyzer.ProcessFile | internal/analyzer/analyzer.go:59-76 | the path's extension is counted once overall and once under its directory (whose table is created when missing), and the file total grows by one |
| Analyzer.Bump | internal/analyzer/analyzer.go:68 | one more occurrence of a key, a missing key counting from zero |
| Analyzer.BumpIn | internal/analyzer/analyzer.go:72-75 | one more occurrence in a directory's table, which is created when missing |
| Analyzer.ExtCounts | internal/analyzer/analyzer.go:59-69 | the extension table after every path of the list has been processed |
| Analyzer.DirCounts | internal/analyzer/analyzer.go:59-76 | the directory table after every path of the list has been processed |
| Analyzer.Analyze | internal/analyzer/analyzer.go:37-56 | the tables are the counts of the whole input list, the file total is its length, the size stays 0 and no error is returned |
| Analyzer.ExtCountsAreCounts | internal/analyzer/analyzer.go:59-69 | an extension is in the table exactly when some input has it, and its entry is the number of inputs (duplicates included) that have it |
| Analyzer.DirCountsAreCounts | internal/analyzer/analyzer.go:59-76 | a directory is in the table exactly when some input lies in it, and its table counts, per extension, the inputs of that directory with that extension |
| Analyzer.NumNarrower | internal/analyzer/analyzer.go:72-75 | a directory has no more inputs with a given extension than inputs |
| Analyzer.BumpInAt | internal/analyzer/analyzer.go:72-75 | one update creates the directory's table when missing and adds one only at that directory and extension |
| Analyzer.NumPermutation | internal/analyzer/analyzer.go:46-53 | a count depends only on which paths occur how often |
| Analyzer.ExtCountsOrderIndependent | internal/analyzer/analyzer.go:46-69 | the extension table does not depend on the order of the inputs |
| Analyzer.DirTableOrderIndependent | internal/analyzer/analyzer.go:46-76 | one directory's table does not depend on the order of the inputs |
| Analyzer.DirCountsOrderIndependent | internal/analyzer/analyzer.go:46-76 | the directory table does not depend on the order of the inputs |
| Analyzer.OrderIndependent | internal/analyzer/analyzer.go:46-53 | none of the statistics depends on the order of the input list |
| Analyzer.SumBump | internal/analyzer/analyzer.go:68 | one update adds one to the sum of the extension counts |
| Analyzer.CountsSumToTotal | internal/analyzer/analyzer.go:68-69 | the extension counts add up to the number of inputs |
| Analyzer.BumpInColumn | internal/analyzer/analyzer.go:72-75 | one update adds one to the directory sum of its own extension's count and nothing to the others |
| Analyzer.DirectoriesSumToExtensions | internal/analyzer/analyzer.go:60-75 | summing an extension's count over all directories gives its overall count |
| Analyzer.SortedKeys | internal/analyzer/analyzer.go:83-87 | the extension list is strictly ascending and holds exactly the table's keys |
| Analyzer.CollectKeys | internal/analyzer/analyzer.go:83-86 | the key loop collects every key of the table exactly once |
| Analyzer.SortedExtensions | internal/analyzer/analyzer.go:83-87 | whatever order the map yields, the sorted list is the table's keys in ascending order |
| Analyzer.FlatLines | internal/analyzer/analyzer.go:90-97 | one line per extension |
| Analyzer.FlatLinesOf | internal/analyzer/analyzer.go:90-97 | the loop appends one line per extension, in the list's order |
| Analyzer.FormatFlat | internal/analyzer/analyzer.go:79-100 | the result is the line of each extension, in ascending order, joined by newlines, with none at the end |
| Analyzer.GetExtensionList | internal/analyzer/analyzer.go:103-110 | the result is the sorted extensions joined by commas |
| Analyzer.FlatLineParts | internal/analyzer/analyzer.go:92-96 | a line is the extension, `: `, the count in decimal, then ` file` for a count of one and ` files` otherwise |
| Analyzer.FlatLinesFreeOf | internal/analyzer/analyzer.go:90-97 | no line holds a newline when no extension does |
| Analyzer.FlatViewLines | internal/analyzer/analyzer.go:79-100 | splitting the flat view at newlines gives back one line per extension, in ascending order |
| Analyzer.ExtensionListSplits | internal/analyzer/analyzer.go:103-110 | splitting the list at commas gives back the sorted extensions |
| Analyzer.NoExtensionsNoList | internal/analyzer/analyzer.go:103-110 | an empty table gives an empty list |
| Analyzer.EmptyExtensionIsInvisible | internal/analyzer/analyzer.go:103-110 | paths without an extension are counted under `""`, and a table of those alone gives the same empty list |
| LineNumbers.AddLineNumbers | internal/processor/linenumbers/processor.go:8-21 | the result is the numbered lines joined by `\n`, with no trailing newline; each line is its 1-based number right-aligned to the digit count of the line count, then space, bar, space, then the original line |
| LineNumbers.Numbered | internal/processor/linenumbers/processor.go:8-21 | the content split at newlines, each line prefixed by its number right-aligned to the digit count of the line count and by ` | `, joined again by newlines |
| LineNumbers.Width | internal/processor/linenumbers/processor.go:10 | the width of the number column is the digit count of the number of lines |
| LineNumbers.Prefix | internal/processor/linenumbers/processor.go:11-15 | a line's prefix is its number right-aligned in the column, then ` | ` |
| LineNumbers.NumberedLines | internal/processor/linenumbers/processor.go:14-15 | one output line per `\n`-separated input part |
| LineNumbers.NumberedSplits | internal/processor/linenumbers/processor.go:9-19 | splitting the output at `\n` gives exactly the numbered lines: separators appear only between lines |
| LineNumbers.PrefixShape | internal/processor/linenumbers/processor.go:10-15 | for every line number `k` of the `n` lines the prefix has length `w+3`, ends in space, bar, space, is padded with spaces, and its digits read back as `k` |
| LineNumbers.PrefixLength | internal/processor/linenumbers/processor.go:10-11 | every prefix has the same length `w+3` |
| LineNumbers.PrefixHasNoNewline | internal/processor/linenumbers/processor.go:11 | a prefix holds no newline |
| LineNumbers.NumberedLineHasNoNewline | internal/processor/linenumbers/processor.go:15 | a numbered line holds a newline only where the original does |
| LineNumbers.JoinPrefixStep | internal/processor/linenumbers/processor.go:14-19 | writing one more line adds a separator only when a line was written before |
| LineNumbers.SingleLinePrefix | internal/processor/linenumbers/processor.go:10-11 | the prefix of the only line of a one-line text is `1` followed by space, bar, space |
| LineNumbers.EmptyContent | internal/processor/linenumbers/processor.go:9-15 | the empty text becomes `1` followed by space, bar, space |
| LineNumbers.Unnumber | internal/processor/linenumbers/processor.go:15 | removing the first `w+3` characters of a numbered line gives back the original line |
| LineNumbers.StripNumbers | internal/processor/linenumbers/processor.go:8-21 | removing the first `w+3` characters of every output line and joining with `\n` gives back the input |
| Comments.OtherLanguagesUnchanged | internal/processor/comments/stripper.go:8-20 | any language other than `go`, `python` and `javascript` gets its content back unchanged |
| Comments.StripComments | internal/processor/comments/stripper.go:8-20 | `go` and `javascript` content goes through the slash-comment stripper, `python` panics, anything else is returned unchanged |
| Comments.StripSlashComments | internal/processor/comments/stripper.go:22-32 | the line pass, then the block pass, then `TrimSpace` |
| Comments.GoLikeJavaScript | internal/processor/comments/stripper.go:22-55 | `go` and `javascript` give identical output |
| Comments.PythonPanics | internal/processor/comments/stripper.go:34-44 | the Python stripper never returns: compiling its back-reference regular expression panics |
| Comments.StrippedIsTrimmed | internal/processor/comments/stripper.go:22-55 | the go/javascript result has no leading or trailing white space |
| Comments.LineEnd | internal/processor/comments/stripper.go:24-25 | the end of a line is the first newline at or after the start, or the end of the text |
| Comments.CloseAt | internal/processor/comments/stripper.go:28-29 | the nearest `*/` at or after a position, or none |
| Comments.CommentStart | internal/processor/comments/stripper.go:24-25 | the first `//` of a line, or its end |
| Comments.CutLines | internal/processor/comments/stripper.go:24-25 | one cut line per line |
| Comments.LinePassOnLine | internal/processor/comments/stripper.go:24-25 | on one line the line pass keeps exactly the text before the first `//` |
| Comments.LineEndAt | internal/processor/comments/stripper.go:24-25 | the line end is the first newline |
| Comments.LinePassSplits | internal/processor/comments/stripper.go:24-25 | the line pass works line by line and keeps each newline |
| Comments.LinePassOfJoin | internal/processor/comments/stripper.go:24-25 | the line pass of joined lines is the join of the line passes |
| Comments.LinePassCutsLines | internal/processor/comments/stripper.go:24-25 | the line pass deletes each `//` through the end of its line and keeps the newlines: its lines are the input's lines cut at their first `//` |
| Comments.StripLineComments | internal/processor/comments/stripper.go:24-25 | every `//` is removed with the rest of its line; the newline stays |
| Comments.BlockPassStep | internal/processor/comments/stripper.go:28-29 | a character that opens no terminated block comment is kept |
| Comments.BlockPassKeeps | internal/processor/comments/stripper.go:28-29 | text in which no `/*` starts is kept as it is |
| Comments.NoOpenerBefore | internal/processor/comments/stripper.go:28-29 | no `/*` starts inside text free of `/*` when a `/` follows it |
| Comments.BlockPassRemoves | internal/processor/comments/stripper.go:28-29 | the leftmost `/*` is deleted through the nearest following `*/`, across lines, and the pass goes on after it |
| Comments.StripBlockComments | internal/processor/comments/stripper.go:28-29 | from left to right, every `/*` with a later `*/` is removed through the nearest such `*/`, across lines; an unterminated `/*` stays |
| Comments.ClosesFirstAt | internal/processor/comments/stripper.go:28-29 | the nearest closer after `/*` is the first `*/` after the comment body |
| Comments.BlockPassWithoutCloser | internal/processor/comments/stripper.go:28-29 | text without `*/` is kept as it is |
| Comments.UnterminatedOpener | internal/processor/comments/stripper.go:28-29 | an unterminated `/*` is kept with everything after it |
| Comments.BlockPassKeepsUnterminated | internal/processor/comments/stripper.go:28-29 | text without `/*` followed by an unterminated `/*` is kept as it is |
| Comments.NoSlashPassesKeep | internal/processor/comments/stripper.go:22-32 | both passes keep content without `/` |
| Comments.NoSlashOnlyTrims | internal/processor/comments/stripper.go:22-32 | go/javascript content without `/` yields exactly its trimmed text |
| Comments.SampleLineCut | internal/processor/comments/stripper.go:24-25 | the line pass cuts `/* a // b */ c` to `/* a ` |
| Comments.LineCommentInsideBlock | internal/processor/comments/stripper.go:22-32 | the line pass runs first, so a `//` inside a block comment removes that comment's `*/`: `/* a // b */ c` becomes `/* a` |
| Comments.SampleTrim | internal/processor/comments/stripper.go:31 | trimming `/* a ` gives `/* a` |
| Markdown.Generator.constructor | internal/processor/markdown/generator.go:23-25 | the generator keeps the configuration it is given |
| Markdown.Generator.Generate | internal/processor/markdown/generator.go:27-43 | the result is the whole document: title, one table-of-contents line per file, an empty line, then each file's section in order |
| Markdown.Generator.WriteToc | internal/processor/markdown/generator.go:31-35 | the first pass writes `# Table of Contents\n`, one `- <path>\n` per file in input order, then `\n` |
| Markdown.Generator.WriteSections | internal/processor/markdown/generator.go:37-40 | the second pass appends every section in order to what was written, or panics when a section does |
| Markdown.Generator.WriteHeader | internal/processor/markdown/generator.go:48-57 | the header lines are the title, the metadata, then `### Code\n\n` |
| Markdown.Generator.GenerateFileSection | internal/processor/markdown/generator.go:45-74 | the section is the header followed by the code, stripped and numbered as asked and wrapped as asked; it panics exactly when the stripper does |
| Markdown.Document | internal/processor/markdown/generator.go:27-43 | the table of contents heading, one entry per file, a blank line, then the sections; a panicking section makes the whole document panic |
| Markdown.Toc | internal/processor/markdown/generator.go:32-34 | one `- <path>` line per file, in order |
| Markdown.Sections | internal/processor/markdown/generator.go:37-40 | the sections of the files concatenated in order, or a panic |
| Markdown.Concat | internal/processor/markdown/generator.go:37-40 | the parts concatenated in order, or nothing when one part is missing |
| Markdown.Section | internal/processor/markdown/generator.go:45-74 | the header of the file, then its processed code wrapped as configured, or a panic from the stripper |
| Markdown.Header | internal/processor/markdown/generator.go:48-57 | the title, the metadata lines, then `### Code` and a blank line |
| Markdown.Title | internal/processor/markdown/generator.go:49 | `## File: <path>` and a blank line |
| Markdown.Metadata | internal/processor/markdown/generator.go:50-54 | the extension taken from the path, the language, the size in bytes and the two times, one per line, then a blank line |
| Markdown.FormatTime | internal/processor/markdown/generator.go:53-54 | the `2006-01-02 15:04:05` layout: the six fields zero-padded to 4, 2, 2, 2, 2 and 2 digits with their separators |
| Markdown.Code | internal/processor/markdown/generator.go:59-65 | the content, stripped of comments when configured, then numbered when configured |
| Markdown.Wrapped | internal/processor/markdown/generator.go:67-71 | a fenced block tagged with the language, or the bare content when code blocks are off, followed by a blank line |
| Markdown.SectionList | internal/processor/markdown/generator.go:38-40 | one section per file |
| Markdown.NoFiles | internal/processor/markdown/generator.go:31-42 | an empty file list gives `# Table of Contents\n\n` |
| Markdown.TocIsJoin | internal/processor/markdown/generator.go:32-34 | the table of contents is its `- <path>` entries, each ended by a newline |
| Markdown.TocLines | internal/processor/markdown/generator.go:32-34 | with no newline in a path, the table of contents splits into one `- <path>` line per file, in order |
| Markdown.TocLinesHaveNoNewline | internal/processor/markdown/generator.go:33 | no entry holds a newline when no path does |
| Markdown.EntryHasNoNewline | internal/processor/markdown/generator.go:33 | an entry holds a newline only where its path does |
| Markdown.ConcatStep | internal/processor/markdown/generator.go:38-40 | writing one more section extends the document by it, or panics for all of it |
| Markdown.PanicPersists | internal/processor/markdown/generator.go:38-40 | once a section panics the document is never produced |
| Markdown.ConcatAppend | internal/processor/markdown/generator.go:38-40 | the sections of two lists one after the other are those of the concatenated list |
| Markdown.ConcatOne | internal/processor/markdown/generator.go:38-40 | one section alone is itself |
| Markdown.ConcatAllPresent | internal/processor/markdown/generator.go:38-40 | when no section panics the document is produced |
| Markdown.ConcatMissing | internal/processor/markdown/generator.go:38-40 | when one section panics the document is not produced |
| Markdown.SectionPanicsIff | internal/processor/markdown/generator.go:59-62 | a section panics exactly when comments are stripped and the file is Python code |
| Markdown.DocumentUnlessPython | internal/processor/markdown/generator.go:27-43 | the document is produced unless comments are stripped and some file is Python code; there is no other failure, and no error is returned |
| Markdown.SectionOpensWithTitle | internal/processor/markdown/generator.go:49 | every section starts with `## File: <path>\n\n` |
| Markdown.ConcatJoins | internal/processor/markdown/generator.go:38-40 | parts that are all present are written as their texts one after another |
| Markdown.SectionInDocument | internal/processor/markdown/generator.go:37-40 | in a produced document every file's section is present and opens with the title naming that file |
| Markdown.DocumentShape | internal/processor/markdown/generator.go:27-43 | a produced document is the table of contents, an empty line, then exactly one section per input file, in input order, each opening with `## File: <path>` for its own file |
| Markdown.PrefixOfConcat | internal/processor/markdown/generator.go:49 | text starts with whatever is written first |
| Markdown.PrefixExtends | internal/processor/markdown/generator.go:49-57 | writing more keeps what is already at the start |
| Markdown.ExtensionFromPath | internal/processor/markdown/generator.go:50 | the section depends on the path's extension, never on the recorded `Ext` field |
| Markdown.CodeSteps | internal/processor/markdown/generator.go:59-65 | the code is what stripping left, numbered when asked |
| Markdown.StripThenNumber | internal/processor/markdown/generator.go:59-65 | comment stripping comes before line numbering, and each applies only when its switch is on |
| Markdown.UnwrapCode | internal/processor/markdown/generator.go:67-71 | unless `NoCodeBlock` is set the code sits between `` ```<lang>\n `` and `` \n```\n\n ``; otherwise it is followed by `\n\n` |
| Paths.Base | internal/filter/patterns.go:23 | the base name is non-empty, contains no `/` unless it is `/` itself, and is `/` exactly for a path of slashes alone |
| Paths.Ext | internal/processor/language.go:7 | the extension is empty or a suffix of the path that starts with `.` and contains no other `.` and no `/` |
| Paths.Rel | internal/processor/files.go:82 | a path is relative to itself as `.`; the answer is an error exactly when one cleaned path is rooted and the other is not, or when the base goes on with `..` after the elements the two share |
| Paths.RelJoinsBack | internal/processor/files.go:82 | whenever `Rel(base, targ)` answers, joining that answer to `base` gives the cleaned `targ` |
| Text.TrimSpace | internal/filter/gitignore.go:25 | trimming drops leading and trailing white space and nothing else |
| Text.ToLower | internal/filter/patterns.go:19 | lower-casing maps each character and keeps the length |
| Text.SplitJoin | internal/processor/linenumbers/processor.go:9 | splitting a join of parts free of the separator gives back the parts |
| Text.JoinSplit | internal/processor/linenumbers/processor.go:9 | joining the parts of a split gives back the text |
| Decimal.ValueItoa | internal/processor/markdown/generator.go:52 | the decimal digits of a number read back as that number |
| Decimal.ZeroPad | internal/processor/markdown/generator.go:53-54 | a zero-padded field is as wide as the field, or as the number when that is wider; the padding is zeros, every character is a digit, and the field reads back as its value |
| Glob.DoublestarMatch | internal/filter/patterns.go:37 | the pattern and the name split at `/`; a malformed pattern is an error, otherwise the segments match one for one with `**` spanning any number of name segments |
| Glob.FilepathMatch | internal/filter/gitignore.go:48 | the same engine without `**`: a malformed pattern is an error, otherwise the segments match one for one |
| Glob.SegMatch | internal/filter/patterns.go:37 | a literal matches itself, `?` one character, `*` any run of characters, a class one character in or, negated, outside its ranges |
| Glob.PathMatch | internal/filter/patterns.go:37 | pattern segments against path segments, `**` spanning zero or more of them |
| Order.Sort | internal/analyzer/analyzer.go:87 | sorting distinct strings yields them strictly ascending in byte order, as a permutation |
| Order.SortedUnique | internal/analyzer/analyzer.go:87 | two strictly sorted lists with the same members are equal, so the sorted order does not depend on the map's iteration order |

## Left out

- The debounce timer, the event loop, its `select`, the signal context and the ticker in the watch service are concurrency and time; `triggerRegeneration` is only counted.
- fsnotify's `Add` is an environment answer (accepted or refused); `Remove` is not modelled, since its failures are logged and ignored.
- `handleWatchError` and `isCriticalError` are not modelled: `isCriticalError` always answers false, so watch errors are only logged.
- `filter.NewFilter` and `GitignoreFilter` are not part of this model; their `IsIgnored` is an abstract function.
- Glob: doublestar's `{a,b}` alternatives and `[!...]` negation are not modelled, nor `filepath.Match` letting a class match `/`.
- Glob.SegMatch: `?` and a character class consume one byte, where both libraries consume one UTF-8 rune; for the name "é" (two bytes) the model matches `??` and not `?`, the libraries the reverse.
- Glob.DoublestarMatch and Glob.FilepathMatch: the pattern is split at every `/` before it is tokenized, so an escaped `\/` ends a segment with a trailing `\` and the pattern is malformed, while both libraries read `\/` as a literal `/`.
- File and environment I/O (`os.Open`, `os.Stat`, `io.ReadAll`, the line scanner, `yaml.Unmarshal`, the environment lookups of the configuration-path helpers) are inputs, not operations.
- `stripPythonComments` is modelled only as the panic its pattern compilation raises.
- `internal/tokens/counter.go` (a foreign tokenizer and floating-point prices), `internal/processor/template/engine.go`, `internal/generator/generator.go` and `cmd/sink` (including `MergeFlagSet`) are not part of this model.
- Markdown.FormatTime: the time layout is given by definition only, as zero-padded date and time fields; no time zone or calendar is modelled.
- Markdown.Metadata: the metadata lines of a section are stated by definition; no lemma splits them into their five lines.
- Text.ToLower and Text.TrimSpace: ASCII only, while Go's are Unicode-aware.
- Analyzer.Analyze: the goroutine fan-out and its mutex are a sequential loop, which gives the same counts because every update is an increment made under the lock.
- Analyzer.Stats: `totalSize` is an unbounded int rather than an `int64`; as in the source, nothing writes it and it stays 0.
- Watcher.Service.HandleConfigChange: the error branch of its `LoadConfig` call is not modelled, because that call cannot fail.
- Markdown.Generator.Generate: its loops are split into `WriteToc`, `WriteSections` and `WriteHeader`, writing the same text in the same order.
- Paths: `/` is the only path separator.
- Processor.FileInfo: `Size` is a natural number, with no 64-bit bound.
