# kai, modelled in Dafny

kai is a terminal directory picker. It scans a projects directory and tags each
sub-directory as a project when it holds a marker file such as `package.json`
or `.git`. It also probes one level deeper for nested git repositories, and
lists the results with the recently visited directories first. The user
narrows the list by fuzzy search and moves a selection through it. Choosing an
entry records the visit in `~/.config/kai/config.json` and prints a `cd`
command, which a shell wrapper installed by `kai init` evaluates.

This project models that core and proves properties of it:

- `scanner.dfy` (module `Scanner`): the scanner of `src/scanner.ts` over an
  abstract filesystem. The filesystem has three independent views, one per
  call: `existsSync`, `statSync` and `readdirSync`. The loops of
  `isProjectDirectory`, `scanSubdirectoriesForGit`, `scanDirectory` and
  `getAllProjects` are methods. Each is proved equal to a specification
  function, and lemmas about those functions give the membership, ordering
  and depth properties.
- `timeago.dfy` (module `TimeAgo`): `formatTimeAgo`, with the current time as
  a parameter.
- `sorting.dfy` (module `Sorting`): the sort behind `Array.prototype.sort`,
  specified by a key and a comparison, and proved stable.
- `config.dfy` (module `Config`): the defaults and the merge of a parsed config
  file, the recency list of `addRecentDirectory`, and a `ConfigStore` class
  for the config file that `loadConfig`, `saveConfig` and
  `addRecentDirectory` read and write.
- `app.dfy` (module `App`): the selection engine of `src/App.tsx`. This covers
  padding, the recents-first ordering, search names, the option list with its
  "Create new" entry and the visible window. The component state is a class
  `Picker` with one method per event and one per effect. Methods that run an
  event followed by its effects keep the selection on an option and inside
  the scroll window.
- `shell.dfy` (module `Shell`): reference readings of a quoted shell word, one
  for POSIX shells and one for fish. They are the yardstick for the emitted
  `cd` command.
- `cli.dfy` (module `Cli`): `index.ts`. This covers the `cd` command, the
  `--path=` override, `handleSelect`, a run of `main` that ends in choosing a
  project, and the choice of init script.
- `base.dfy` (module `Base`): `Option`, prefix and substring tests, space
  padding and `filter`.

The comment at `src/App.tsx:82` says the selection and the scroll are reset
when the filtered results change. The effect below it (`src/App.tsx:83-88`)
runs on a change of the query and does not reset the selection: it pulls
`selectedIndex` back to `maxIndex` when it lies past it and otherwise keeps it.
Only the scroll offset goes back to 0. The model follows the code, and
`App.Picker.QueryEffect` states that behaviour.

In the code `loadConfig` can return the module's `DEFAULT_CONFIG` object
itself, and callers then change that object in place. `Config.ConfigStore`
therefore holds `DEFAULT_CONFIG` as an object of the class
`Config.ConfigObject`, and its methods say when that object changes.

## Model

| member | source | states |
|---|---|---|
| Scanner.FirstIndicator | src/scanner.ts:37-43 | The result is absent exactly when no marker occurs among the files. When present, it is the marker at the earliest position of the list that occurs, and no earlier marker occurs. |
| Scanner.Detect | src/scanner.ts:33-47 | `isProject` holds iff a type is reported. Both hold iff the directory can be listed and some marker is among its children. The type is then the first such marker in `PROJECT_INDICATORS` order. An unreadable directory gives `false` with no type. |
| Scanner.IsProjectDirectory | src/scanner.ts:33-47 | The early-return loop over the markers returns exactly the detection above. |
| Scanner.AnyVisibleSubdir | src/scanner.ts:52-60 | True iff some item names a child that can be stat'ed, is a directory and does not start with `.`. A child whose stat fails counts as no directory. |
| Scanner.HasSubdirectories | src/scanner.ts:49-64 | True iff the directory can be listed and one of its children is a visible directory. Otherwise false, including when the listing fails. |
| Scanner.ScanSubdirectoriesForGit | src/scanner.ts:120-165 | The loop returns the git probe's specification list, and the empty list when the parent cannot be listed. |
| Scanner.GitEntriesMembers | src/scanner.ts:126-159 | An entry is pushed iff it is for a listed, non-hidden, stat'able child directory that contains `.git`. Such an entry has `isProject` and `isSubdirectory` set, `parentDir` equal to the parent's name, the detected type or `.git` as its type, and its `hasSubdirs` and `lastModified` taken from the filesystem. |
| Scanner.GitEntries | src/scanner.ts:126-159 | The loop pushes at most one entry per item, and each entry is a git project marked as a subdirectory of the parent. |
| Scanner.GitScan | src/scanner.ts:120-165 | An unreadable parent gives no entries. Otherwise there are at most as many entries as listed children, each a git project marked as a subdirectory of the parent. |
| Scanner.GitScanMembers | src/scanner.ts:120-165 | The same characterisation for the whole probe: nothing is reported for an unreadable parent. |
| Scanner.ScanItem | src/scanner.ts:76-109 | One loop iteration pushes nothing for a hidden, unstat'able or non-directory child. Otherwise it pushes the child's entry, followed by the git probe's entries when the child has subdirectories. |
| Scanner.ScanDirectory | src/scanner.ts:66-118 | The method returns the specification result. That result is empty for a missing or unreadable root; otherwise it is the collected entries sorted by name. |
| Scanner.CollectedMembers | src/scanner.ts:75-110 | An entry is collected iff it is either a first-level entry or a second-level entry. A first-level entry is a listed, stat'able child directory of the root, visible unless `includeHidden`, with `isSubdirectory` false and no parent. A second-level entry is found by the probe of a first-level entry with subdirectories. |
| Scanner.ScanResultMembers | src/scanner.ts:66-118 | The scan result contains exactly those entries, and nothing when the root is missing or unreadable. |
| Scanner.ScanResult | src/scanner.ts:66-118 | A missing or unreadable root gives the empty list. Otherwise the result holds each collected entry exactly as often as it was collected. |
| Scanner.ScanResultSortedPermutation | src/scanner.ts:66-118 | A missing or unreadable root gives the empty list. Otherwise the result is a permutation of the collected entries, ordered by name under any total preorder standing for `localeCompare`. |
| Scanner.ScanResultTiesKeepOrder | src/scanner.ts:113 | Entries whose names `localeCompare` ranks equal keep the order in which the directory listing gave them. |
| Scanner.ScanInto | src/scanner.ts:170-183 | `scan(path, depth)` appends exactly the walk's specification entries to `allProjects`, and nothing beyond `maxDepth`. |
| Scanner.AppendProjects | src/scanner.ts:175-182 | The loop of `scan` appends each entry, and after an entry that is not a project but has subdirectories it appends the deeper walk. |
| Scanner.GetAllProjects | src/scanner.ts:167-187 | The result is the walk from the root at depth 0. It is empty for a negative `maxDepth`, and just the root's scan for `maxDepth` 0. |
| Scanner.AtMaxDepth | src/scanner.ts:171-181 | At `maxDepth` the loop appends the scanned entries and descends nowhere. |
| Scanner.ScansWithinDepth | src/scanner.ts:170-181 | Every call of `scan` made from depth `d` has a depth between `d` and `maxDepth`. |
| Scanner.DescendScansWithinDepth | src/scanner.ts:175-181 | The calls made by the loop at depth `d` are deeper than `d` and no deeper than `maxDepth`. |
| Scanner.ScansOnlyFolders | src/scanner.ts:178-181 | Apart from the first call, `scan` is only called on the path of a reported entry that is not a project and has subdirectories. |
| Scanner.DescendScansOnlyFolders | src/scanner.ts:178-181 | The same for the calls made by the loop. |
| Scanner.AllFromScanned | src/scanner.ts:173-177 | Every entry of the walk belongs to the scan of some directory that `scan` was called on. |
| Scanner.DescendScanned | src/scanner.ts:173-177 | The same for the loop: an entry is one of the given entries or comes from a deeper scan. |
| Scanner.ScansEveryFolder | src/scanner.ts:178-181 | Below `maxDepth`, `scan` is called one level deeper on every scanned entry that is not a project and has subdirectories. |
| Scanner.DescendScansEveryFolder | src/scanner.ts:178-181 | The same for the loop over a list of entries. |
| Sorting.SortBy | src/scanner.ts:113 | The sort keeps the multiset and the length of its input. Its stability is stated by `Sorting.SortByStable`. |
| Sorting.SortBySorted | src/scanner.ts:113 | Under a total preorder the result is ordered by key. |
| Sorting.SortByMembers | src/scanner.ts:113 | The result has exactly the elements of the input. |
| Sorting.InsertStable | src/scanner.ts:113 | Inserting an element keeps, for every key, the elements equivalent to it in the order of the element followed by the list. |
| Sorting.SortByStable | src/scanner.ts:113 | The sort is stable: for every key, the elements whose keys are equivalent to it (each compares no later than the other) appear in their input order. |
| TimeAgo.FormatTimeAgo | src/scanner.ts:189-207 | The result is the coarsest unit, from years down to minutes, whose floored count is positive, together with that count. Every coarser count is non-positive. The result is "just now" iff no count is positive. |
| TimeAgo.AmountsAsQuotients | src/scanner.ts:193-199 | The chained floors of seconds, minutes, hours and days equal single floors of the difference by a minute, hour, day, 7, 30 and 365 days. |
| TimeAgo.FormatTimeAgoThresholds | src/scanner.ts:191-207 | The unit depends only on the millisecond thresholds crossed: under 60 000 ms is "just now", then minutes below an hour, hours below a day, days below 7 days, weeks below 30 days, months below 365 days, and years from there on. |
| TimeAgo.Decimal | src/scanner.ts:201-206 | The numeral is non-empty, is all digits, and has no leading zero for a positive number. |
| TimeAgo.DecimalRoundTrip | src/scanner.ts:201-206 | The value of the printed numeral is the number. |
| TimeAgo.FormatTimeAgoTextShape | src/scanner.ts:201-207 | The string is "just now" exactly when under a minute has passed. Otherwise it is the count's numeral followed by the unit's suffix. |
| TimeAgo.SuffixAgo | src/scanner.ts:201-206 | Every unit's suffix ends in " ago". |
| TimeAgo.FormatTimeAgoText | src/scanner.ts:189-207 | The text is "just now" exactly when less than a minute has passed. Otherwise it starts with a digit and ends in " ago". |
| Base.Contains | index.ts:17 | `includes` is true iff the substring occurs at some position. |
| Base.Spaces | src/App.tsx:23 | `' '.repeat(n)` has length `n` and only spaces. |
| Base.Filter | src/App.tsx:43-44 | Every kept element is in the input and satisfies the test, and every input element that satisfies it is kept. |
| Base.FilterAppend | src/config.ts:59 | Filtering keeps relative order: it distributes over concatenation. |
| Base.FilterPartition | src/App.tsx:43-44 | The two filters by a test and by its negation together hold the input's multiset. |
| Config.LoadAfterSave | src/config.ts:40-53 | A saved configuration loads back unchanged, whatever the defaults: every key of the file wins over `DEFAULT_CONFIG` in the merge. |
| Config.LoadEmptyRecord | src/config.ts:20-24 | A file with none of the keys loads as the defaults: projects under `home/Documents/kirana_labs/projects`, no recent directories and a limit of 10. |
| Config.ReloadIsStable | src/config.ts:32-48 | The file that `loadConfig` leaves behind (the defaults written out for a missing file, otherwise the file as it was) loads as the configuration that call returned. |
| Config.RemovePath | src/config.ts:59 | The filter keeps exactly the entries for other paths. |
| Config.AddRecent | src/config.ts:55-69 | The list grows by at most one, and every entry is either the new visit or an old entry. |
| Config.AddRecentFront | src/config.ts:62-66 | Whenever the list is non-empty, its first entry is the new visit with the given path, name and time. The list is non-empty when `maxRecents >= 1`. |
| Config.AddRecentUnique | src/config.ts:59-66 | No entry after the first has the visited path. |
| Config.AddRecentShape | src/config.ts:59-69 | For `maxRecents >= 0` the length is `min(maxRecents, 1 + remaining)` and so at most `maxRecents`. The entries after the first are the old entries without the path, in order, cut short. |
| Config.AddRecentTwice | src/config.ts:55-72 | For `maxRecents >= 0`, two visits to the same path leave the list exactly as one visit at the later time. |
| Config.ConfigStore.SaveConfig | src/config.ts:50-53 | The file then holds every key of the configuration. |
| Config.ConfigStore.constructor | src/config.ts:20-24 | The store starts with the given file, and with a new `DEFAULT_CONFIG` object holding the defaults for the home directory. |
| Config.ConfigStore.LoadConfig | src/config.ts:32-48 | The method returns an object holding the loaded configuration. A missing file is created with the defaults, and any other file is left as it was. For a missing or unparsable file the object returned is `DEFAULT_CONFIG` itself, unless the store copies the defaults. |
| Config.ConfigStore.AddRecentDirectory | src/config.ts:55-72 | The file then holds the loaded configuration with its list replaced by the visit's list, and every other key unchanged. `DEFAULT_CONFIG` takes the same value when it was the object loaded, and is otherwise unchanged. |
| Config.VisitIsRemembered | src/config.ts:55-72 | After a visit with `maxRecents >= 1`, the stored list starts with that visit. The projects directory and the limit are unchanged. |
| App.PadRight | src/App.tsx:22-24 | The length is exactly `max(length, 0)`. A long string is cut to its prefix, and a short one is followed by spaces. |
| App.PadLeft | src/App.tsx:26-28 | The length is exactly `max(length, 0)`. A long string is cut to its prefix, and a short one is preceded by spaces. |
| App.RecentTime | src/App.tsx:47-48 | The time is that of the first entry for the path, or 0 when there is none. |
| App.OrderedProjects | src/App.tsx:40-52 | The ordering has exactly as many entries as there are projects. |
| App.OrderedIsPermutation | src/App.tsx:40-52 | The ordering is a permutation of the projects. |
| App.RecentsFirst | src/App.tsx:43-52 | The first block holds every recent project and nothing else, and all later entries are not recent. |
| App.RecentsByTime | src/App.tsx:46-50 | Within the recent block, visit times do not increase. |
| App.RecentTiesKeepOrder | src/App.tsx:46-50 | Recent projects visited at the same time keep the order the scanner gave them. |
| App.OthersKeepOrder | src/App.tsx:44-52 | The non-recent projects appear in the scanner's order. |
| App.SearchName | src/App.tsx:57 | The project's name is always a suffix of the search name. The search name differs from the name exactly for a subdirectory with a non-empty parent name, and then it is the parent name, a `/` and the name. |
| App.UnwrapSearchable | src/App.tsx:55-70 | Dropping the `searchName` key from the searchable projects gives back the ordered projects. |
| App.FullMatchShowsAll | src/App.tsx:66-71 | When Fuse returns its whole collection in order, the filtered list is the ordered list. |
| App.FilteredFromProjects | src/App.tsx:60-71 | When Fuse returns only items it was given, every filtered project is one of the projects. |
| App.OptionsThenCreate | src/App.tsx:74-75 | Exactly the last option is "Create new", and a project is an option iff it is a filtered project. |
| App.Slice | src/App.tsx:78 | `slice` gives at most the list's entries, each from the list. Within bounds it is the sub-list from `start` to `end`, and a start at or past the end, or an end at or before the start, gives nothing. |
| App.VisibleProjects | src/App.tsx:78 | At most 15 rows are visible. For an offset within the list, they are the rows from the offset up to 15 further or to the end. |
| App.WindowMarkers | src/App.tsx:78-80 | "More above" shows iff rows precede the window, and "more below" iff rows follow it. The list is the rows above, the window and the rows below. |
| App.SelectedRowVisible | src/App.tsx:78-99 | When the selection is inside the scroll window, the selected project is drawn at its place in the visible rows. |
| App.Picker.MaxIndex | src/App.tsx:74-75 | `maxIndex` equals the number of filtered projects and is never negative. |
| App.Picker.constructor | src/App.tsx:34-37 | The picker starts with an empty query, the search box focused and everything at 0, and the invariant holds. |
| App.Picker.QueryEffect | src/App.tsx:83-88 | A selection past `maxIndex` is pulled back to it and is otherwise kept. The window returns to the top. |
| App.Picker.ScrollEffect | src/App.tsx:91-99 | The window moves up to a selection above it, down just far enough for one below it, and otherwise stays. Afterwards the selection is inside the window. |
| App.Scrolled | src/App.tsx:91-99 | The window the scroll effect settles on contains the selection, and no window that contains it lies nearer to the starting offset. |
| App.Picker.TextInputChange | src/App.tsx:170-175 | While the search box has focus, the query becomes the typed text. |
| App.Picker.HandleInput | src/App.tsx:101-151 | Each branch of the key handler, with the complete new state and what it hands back. In search mode: Escape clears a query or cancels on an empty one; Down or Tab moves to the list at 0; Enter selects a single result, moves to the list at 0 for two or more, and does nothing for none. In list mode: Escape refocuses search; Up moves up or refocuses search at 0; Down moves down only below `maxIndex`; Enter asks to create on the last option and selects any other; a printable character refocuses search and is appended to the query. |
| App.InputReactionCases | src/App.tsx:101-151 | The same branches for the pure reaction to a key, which `HandleInput` is proved to perform. |
| App.Picker.Settle | src/App.tsx:83-99 | After a query change the selection is pulled back to `maxIndex` when past it and the window starts from the top. Then the window moves to the nearest one showing the selection. Afterwards the selection is an option and inside the window. |
| App.Picker.Press | src/App.tsx:83-151 | The outcome is the key handler's. The new state is the handler's state settled by the effects, with the query effect run iff the handler changed the query. The selection stays on an option and inside the window. |
| App.Picker.Type | src/App.tsx:83-99 | The query becomes the typed text, and the effects then settle the selection and the window as for any query change. The invariant is kept. |
| Cli.EscapeSingleQuotes | index.ts:57 | The escaped path is never shorter than the path. |
| Cli.EscapeLength | index.ts:57 | The escape is the path's length plus four characters for each single quote in it. |
| Cli.CdCommand | index.ts:57 | The printed command starts with `cd '` and ends with a single quote. |
| Cli.EscapeWithoutQuotes | index.ts:57 | A path without single quotes is printed unchanged. |
| Cli.QuoteEscapeReads | index.ts:57 | Both shells read `'"'"'` inside single quotes as one single quote. |
| Cli.PosixReadsEscape | index.ts:57 | Inside the opening quote, a POSIX shell reads the escaped path back as the path. |
| Cli.CdCommandPosix | index.ts:57 | A POSIX shell reading the printed command hands `cd` exactly the chosen path as its one argument, whatever characters the path contains. |
| Cli.FishReadsEscape | index.ts:57 | Fish reads the escaped path back as the path when it has no backslash. |
| Cli.CdCommandFishWithoutBackslash | index.ts:57 | In fish the printed command is right for every path without a backslash. |
| Cli.CdCommandFishTrailingBackslash | index.ts:57 | The command as written does not parse in fish for the path `x\`. |
| Cli.CdCommandFishDoubleBackslash | index.ts:57 | For the path `x\\`, fish hands `cd` the argument `x\` instead. |
| Cli.EscapePortable | index.ts:57 | The corrected escape is never shorter than the path. |
| Cli.PortableEscapeAgrees | index.ts:57 | On a path without backslashes the corrected escape equals the one written. |
| Cli.PortableAgrees | index.ts:57 | On a path without backslashes the corrected command equals the one printed. |
| Cli.BackslashEscapeReads | index.ts:57 | Both shells read `'"\\"'` inside single quotes as one backslash. |
| Cli.PortableReads | index.ts:57 | Both shells read the corrected escape back as the path. |
| Cli.CdCommandPortableRoundTrip | index.ts:57 | With the corrected escape, both a POSIX shell and fish hand `cd` exactly the chosen path as its one argument. |
| Cli.HandleSelect | index.ts:54-58 | The visit is recorded as `addRecentDirectory` records it. The printed line is the `cd` command as written followed by a newline, and a POSIX shell hands `cd` exactly the path from it. |
| Cli.HandleSelectPortable | index.ts:54-58 | The same with the corrected command, from which both a POSIX shell and fish hand `cd` exactly the path. |
| Cli.Split | index.ts:96 | `split` gives at least one part, and no part holds the separator. |
| Cli.SplitJoin | index.ts:96 | Joining the parts with the separator gives back the string. |
| Cli.SplitHead | index.ts:96 | The first part is the prefix before the first separator, or the whole string. |
| Cli.SplitAfterPrefix | index.ts:96 | After a separator-free prefix and one separator, the parts are the split of the rest. |
| Cli.SplitWithout | index.ts:96 | A string without the separator splits into itself. |
| Cli.FirstPathFlag | index.ts:92 | `findIndex` returns the first argument starting with `--path=`, or none iff no argument does. |
| Cli.FlagValueSegment | index.ts:92-96 | The value of a `--path=` argument runs from after its `=` to the next `=` or the end, and holds no `=`. |
| Cli.FlagValue | index.ts:96 | `split('=')[1]` exists iff the argument holds an `=`, and it holds no `=`. |
| Cli.StripQuotes | index.ts:98 | One leading `"` or `'` and one trailing `"` or `'` are dropped. A lone quote gives the empty string, and a value without either is unchanged. |
| Cli.PathOverride | index.ts:92-99 | Without a `--path=` argument there is no override, and an override never holds an `=`. |
| Cli.WithPathOverride | index.ts:92-100 | Only the projects directory changes, and only when an override is present. |
| Cli.PathOverrideChoice | index.ts:92-99 | An override exists iff some argument starts with `--path=`, no earlier one does, and its value is non-empty. |
| Cli.PathFlagRoundTrip | index.ts:92-100 | A directory without `=` and without quotes at either end, passed as the first `--path=` argument, becomes the projects directory. |
| Cli.StartUp | index.ts:89-101 | `main` loads the configuration and writes the override into the object loaded. For a missing or unparsable file that object is `DEFAULT_CONFIG`, which then carries the override. |
| Cli.SelectSession | index.ts:54-58 | A run that ends in choosing a project saves the loaded configuration with the visit added and prints the `cd` command. As written, an unparsable file makes the saved projects directory the `--path=` override. |
| Cli.OverrideOutlivesRun | index.ts:98 | With an unparsable config file, `kai --path=dir` followed by a choice leaves `dir` as the projects directory stored in the file. |
| Cli.OverrideStaysOneOff | index.ts:89-101 | When `loadConfig` hands out a copy of the defaults, the stored projects directory is the one loaded, whatever the arguments, and `DEFAULT_CONFIG` never changes. |
| Cli.IsFish | index.ts:16-17 | Fish is detected iff `$SHELL` is set and contains `fish`. |
| Cli.ChooseInitScript | index.ts:16-19 | The fish function is printed iff `$SHELL` contains `fish`, and the POSIX function otherwise. |

## Findings

| source | as written | input that shows it | evidently intended | confidence | as-written member | corrected member |
|---|---|---|---|---|---|---|
| index.ts:57 | Only `'` is escaped, as `'"'"'`. That is right for POSIX shells, but inside single quotes fish also treats `\\` and `\'` as escapes. | The path `x\` gives `cd 'x\'`, which fish cannot parse. The path `x\\` makes fish hand `cd` the argument `x\`. | The printed command hands `cd` the chosen path under both wrappers that `kai init` installs, so backslashes must be escaped too. Writing each one as `'"\\"'` works in both shells. | not executed | Cli.CdCommandFishTrailingBackslash | Cli.CdCommandPortableRoundTrip |
| src/config.ts:46 | For an unparsable config file `loadConfig` returns the `DEFAULT_CONFIG` object itself, and `main` (index.ts:98) writes the `--path=` value into it. When a project is chosen, `addRecentDirectory` loads that same object and saves it. | An unparsable config file, `kai --path=/srv/work`, then choosing any project: the config file now says the projects directory is `/srv/work`. | The override lasts one run: the saved file keeps the projects directory it would have loaded. Returning a copy of `DEFAULT_CONFIG` does that. | not executed | Cli.OverrideOutlivesRun | Cli.OverrideStaysOneOff |

`Cli.HandleSelect` prints the command as written, and `Cli.HandleSelectPortable`
prints the corrected one. `Cli.CdCommandPosix` and
`Cli.CdCommandFishWithoutBackslash` show that the command as written is right in
POSIX shells, and in fish for paths without backslashes. Both statements are
about the argument the shell hands `cd`: `cd` itself still reads a leading `-`
as an option and searches `CDPATH` for a relative path.

`Config.ConfigStore` has a flag `copiesDefaults` that says whether `loadConfig`
hands out a copy of `DEFAULT_CONFIG`. The code as written corresponds to
`false`, and `Cli.OverrideStaysOneOff` is proved for `true`.

## Left out

- Real filesystem calls are replaced by the three views of `Scanner.FileSystem`, which are not required to agree with one another. Errors other than "the call fails" are not distinguished.
- `path.join` normalisation: `Scanner.Join` concatenates with `/`, so `..`, duplicate slashes and trailing slashes are not normalised.
- `mtimeMs` and `accessedAt` are integers in the model, so fractional milliseconds are not modelled.
- `localeCompare` collation is the parameter `collate`. The ordering lemmas hold for any total preorder; the locale's actual rules are not modelled.
- Fuse.js scoring, threshold and result order: `fuzzy` is an uninterpreted function of the picker. An empty query bypasses it, as in the code.
- Ink and React rendering, the JSX layout (`src/App.tsx:153-276`), the render scheduling of the effects, and `useApp().exit`. The effects are explicit methods, run in the order the component triggers them. The exit callbacks become the `Outcome` of a key press.
- `ink-text-input`'s own editing (cursor movement, deletion) and how its input handler is ordered against `useInput`: the text input is reduced to setting the whole query.
- JSON parsing and printing. A parsed file is a record whose three known keys may each be present or absent. Extra keys, values of the wrong type and `null` values are not modelled.
- Failures of `ensureConfigDir` and `writeFileSync` are not modelled: `ConfigStore.SaveConfig` always stores the record.
- The `recentDirs` array of `DEFAULT_CONFIG` is not its own object in the model: `ConfigObject` holds the list as a value. The code reassigns the field before changing the array in place, so no caller can tell the difference.
- `Cli.SelectSession` stops at the choice. The check that the projects directory exists (`index.ts:104-108`), the scan, the empty-list exit (`index.ts:48-52`) and the picker between them are not part of it.
- `Date.now()`, `homedir()`, `process.argv` and `process.env.SHELL` become parameters. `console` output other than the `cd` line, exit codes, the `render` call and the text of the init scripts are not modelled.
- `Scanner.GetAllProjects`: the default `maxDepth` of 3 is left to the caller.
- String lengths count Dafny characters, not UTF-16 code units.
- `Shell.PosixRead` and `Shell.FishRead` return `None` for any unquoted text and for expansions inside double quotes, so they say nothing about words that use those.
