# Container counter app: page state and directory printer, modelled in Dafny

This project models the sequential state logic of a small browser app for
counting recyclable containers, together with the repository's directory
tree printer script:

- **Container counter page** (`CounterPage`): five per-container counts
  that the "+" and "-" buttons raise and lower by one. A count has no lower
  bound, so it can go negative. The page also shows the total of the counts
  and has a start/stop capture flag. Each handler copies the counts, changes
  one slot, and replaces the state. The model is a `Counter` class with a
  `seq<int>` field. Its methods are specified by the pure function
  `Adjusted`, whose contract gives the frame ("only slot `index` changes")
  and the change to the total.
- **Settings page keyword list** (`SettingsPage`): "Add" appends the trimmed
  input only when it is not blank, then clears the input. "Remove" deletes
  the keyword at an index using `splice`. Each edit posts one audit event to
  the `event` table. That post becomes an append of `Event(name, date)` to
  the `outbox` field.
- **Debugging page** (`DebuggingPage`): two lists, `logs` and `testResults`,
  that only grow at the end. Each handler appends to exactly one of them.
  `SampleResult` is the result "Run Test" records, and `ResultLine` gives
  the text shown for each test result.
- **Directory printer** (`DirectoryPrinter`): the recursive tree printer.
  The script's function becomes `PrintDirectoryStructure`, and its
  `forEach` over the listing becomes the mutually recursive `PrintEntries`.
  `Connector` gives the `'├── '`/`'└── '` marker and `Indent` the
  `'│   '`/`'    '` added to the prefix for a subdirectory.
  The file system becomes an `Entry` tree (a file, or a directory with its
  children in listing order). The console becomes the returned
  `seq<JsString>` of lines. The main result relates the printed lines, one
  to one, to a pre-order listing of the entries (`Preorder`).
- **JavaScript built-ins** (`JsBuiltins`): `String.prototype.trim` (with
  ECMAScript's whitespace and line terminator characters), reading `arr[i]`
  (which gives `undefined` outside the array), and `Array.prototype.splice(start, 1)`
  with its negative-index and clamping rules.

The printer is modelled as written. Each printed line is
`prefix + newPrefix + file`, and `newPrefix` already begins with `prefix`,
so the prefix appears twice. Nested lines are therefore indented twice as
far as the tree drawing suggests. `DoubledPrefixExample` shows this on a
three-entry tree, and `LinesMatchEntries` shows it in general: the line for
an entry at depth `d` is `8 * d + 4` characters longer than its name.

Timestamps (`new Date().toISOString()`) are passed in as opaque string
parameters. The script's command-line argument and file system are
parameters of `Run`: a list of arguments, and a map from a path to the tree
found there.

## Model

| member | source | states |
|---|---|---|
| `JsBuiltins.Trim` | src/pages/SettingsPage.jsx:13-16 | `trim` returns a contiguous piece of the input, and everything cut from either side is whitespace. The result is empty exactly when the input is blank. Otherwise it neither starts nor ends with whitespace |
| `JsBuiltins.TrimKeepsTrimmed` | src/pages/SettingsPage.jsx:13-14 | A string that neither starts nor ends with whitespace is its own trim |
| `JsBuiltins.TrimIdempotent` | src/pages/SettingsPage.jsx:13-16 | Trimming twice gives the same result as trimming once. `HandleAddKeyword` uses it to keep `Settings.Valid` |
| `JsBuiltins.RemoveAt` | src/pages/SettingsPage.jsx:23 | Removing position `k` shortens the list by one. Elements before `k` stay in place, and later ones move down by one. The multiset of elements loses exactly the removed element |
| `JsBuiltins.SpliceOne` | src/pages/SettingsPage.jsx:22-23 | `splice(start, 1)` with `0 <= start < length` gives `arr[..start] + arr[start+1..]`. A negative `start` removes the clamped position from the end. A `start` at or past the end changes nothing. The length drops by one exactly when something is removed, and no element is gained |
| `JsBuiltins.SpliceOneUndone` | src/pages/SettingsPage.jsx:21-23 | For an index in range, `arr[index]` reads an element, and putting it back at `index` in what `splice(index, 1)` left gives the original array: nothing else is lost |
| `CounterPage.Reduce` | src/pages/CounterPage.jsx:23 | The `reduce` fold from accumulator `acc` equals `acc` plus the sum of the counts |
| `CounterPage.SumAfterAdjust` | src/pages/CounterPage.jsx:7-17 | Changing one count by `delta` changes the sum by exactly `delta` |
| `CounterPage.Adjusted` | src/pages/CounterPage.jsx:8-9 | One button press keeps the length. Count `index` moves by `delta`, every other count stays, and the sum moves by `delta` |
| `CounterPage.AdjustUndone` | src/pages/CounterPage.jsx:7-17 | Moving a count by `delta` and then by `-delta` restores the original counts |
| `CounterPage.AdjustCommutes` | src/pages/CounterPage.jsx:7-17 | Presses on two different containers give the same counts in either order |
| `CounterPage.Counter.constructor` | src/pages/CounterPage.jsx:4-5 | The page starts with five zero counts, a total of 0, and capture off |
| `CounterPage.Counter.TotalCount` | src/pages/CounterPage.jsx:23 | `totalCount` is the sum of the counts |
| `CounterPage.Counter.HandleIncrement` | src/pages/CounterPage.jsx:7-11 | Count `index` goes up by one, and no other count changes. There are still five counts, the total goes up by exactly 1, and the capture flag is unchanged |
| `CounterPage.Counter.HandleDecrement` | src/pages/CounterPage.jsx:13-17 | Count `index` goes down by one with no lower bound, and no other count changes. There are still five counts, the total goes down by exactly 1, and the capture flag is unchanged |
| `CounterPage.Counter.HandleStartStopCapture` | src/pages/CounterPage.jsx:19-21 | The capture flag is negated, and the counts are unchanged |
| `CounterPage.IncrementThenDecrement` | src/pages/CounterPage.jsx:7-17 | "+" then "-" on the same container restores the counts and the flag |
| `CounterPage.StartStopTwice` | src/pages/CounterPage.jsx:19-21 | Toggling capture twice restores the flag and leaves the counts unchanged |
| `CounterPage.DecrementFromFreshPage` | src/pages/CounterPage.jsx:4-17 | On a fresh page, "-" on the first container shows counts `[-1, 0, 0, 0, 0]` and a total of -1 |
| `SettingsPage.AddedNameInjective` | src/pages/SettingsPage.jsx:16 | Two add events have the same name exactly when they added the same keyword |
| `SettingsPage.RemovedNameDistinguishes` | src/pages/SettingsPage.jsx:21-25 | Two remove events for keywords read from the list have the same name exactly when the keywords are equal. Removing a keyword spelled `undefined` and removing past the end of the list post the same name |
| `SettingsPage.Settings.constructor` | src/pages/SettingsPage.jsx:7-8 | The keywords start as `["keyword1", "keyword2"]`, the input starts empty, and nothing has been posted. `Valid` holds: every listed keyword is trimmed and non-empty |
| `SettingsPage.Settings.SetNewKeyword` | src/pages/SettingsPage.jsx:42 | Typing sets the input and touches nothing else, so `Valid` is kept |
| `SettingsPage.Settings.HandleAddKeyword` | src/pages/SettingsPage.jsx:12-18 | When the input is not blank: the trimmed input is appended after all earlier keywords, in order, without a duplicate check. The input is cleared, and exactly one event `Added keyword: <trimmed>` is posted. When the input is blank: keywords, input and outbox are all unchanged. Either way every listed keyword stays trimmed and non-empty (`Valid`) |
| `SettingsPage.Settings.HandleRemoveKeyword` | src/pages/SettingsPage.jsx:20-26 | The keywords become `splice(index, 1)` of the old ones. For an index in range that is `old[..index] + old[index+1..]`. Exactly one event `Removed keyword: <old[index]>` is posted (`undefined` for an index outside the list), and the input is unchanged. Every listed keyword stays trimmed and non-empty (`Valid`) |
| `SettingsPage.DuplicateKeywordIsAdded` | src/pages/SettingsPage.jsx:14 | Adding `keyword1` to the initial list gives `["keyword1", "keyword2", "keyword1"]` |
| `SettingsPage.AddThenRemoveLast` | src/pages/SettingsPage.jsx:12-26 | Adding a keyword and then removing the last one restores the list and posts two events, the last naming the removed keyword |
| `DebuggingPage.ResultLineParts` | src/pages/DebuggingPage.jsx:35 | Every result line begins with `<test name> - <status>`. For the same test and status, two lines are equal exactly when the timestamps are equal |
| `DebuggingPage.ResultLinesAppend` | src/pages/DebuggingPage.jsx:34-36 | Recording one more result adds exactly its line at the end of the rendered list, and the lines above it do not change |
| `DebuggingPage.SampleLineStartsWithVerdict` | src/pages/DebuggingPage.jsx:13 | Whatever the timestamp, the sample result's line begins with `"Sample Test - Passed"` |
| `DebuggingPage.Debugging.constructor` | src/pages/DebuggingPage.jsx:4-5 | `logs` and `testResults` both start empty |
| `DebuggingPage.Debugging.CaptureLog` | src/pages/DebuggingPage.jsx:7-9 | `log` is appended as the last log entry, earlier entries stay, and `testResults` is unchanged |
| `DebuggingPage.Debugging.RunTest` | src/pages/DebuggingPage.jsx:11-15 | Exactly one result `("Sample Test", "Passed", timestamp)` is appended, and `logs` is unchanged |
| `DebuggingPage.RunTestOnFreshPage` | src/__tests__/DebuggingPage.test.jsx:5-13 | After one "Run Test" on a fresh page, the rendered list holds one line, which begins with `"Sample Test - Passed"`, and there are no logs |
| `DirectoryPrinter.Preorder` | scripts/printDirectoryStructure.js:7-16 | The pre-order listing has exactly one item per entry of the tree, at every depth |
| `DirectoryPrinter.OwnLineFits` | scripts/printDirectoryStructure.js:10-12 | An entry's own line is `prefix + (prefix + connector) + name`: it starts with the prefix, ends with the name, and is 4 characters longer than twice the prefix plus the name |
| `DirectoryPrinter.DeeperLineFits` | scripts/printDirectoryStructure.js:15 | A subdirectory is printed with the prefix grown by a 4-character indent, so its lines still begin with the outer prefix and are 8 characters longer per level |
| `DirectoryPrinter.EntriesMatchPreorder` | scripts/printDirectoryStructure.js:7-16 | The lines printed from position `index` of a listing correspond one to one, in order, to the pre-order items of the entries from `index` on. Each line starts with the prefix, ends with its entry's name, and has the length `LineFor` gives for its depth |
| `DirectoryPrinter.LinesMatchEntries` | scripts/printDirectoryStructure.js:4-17 | From the empty prefix, there is one line per entry below the root, in pre-order. The line for an entry at depth `d` ends with its name and is `8 * d + 4` characters longer than it, which is the doubled prefix |
| `DirectoryPrinter.EntryLineInOutput` | scripts/printDirectoryStructure.js:7-12 | The lines for entries from position `index` on end a directory's output, in listing order. The first of them is `prefix + prefix + connector + name`, with `'└── '` for the last entry and `'├── '` for the others |
| `DirectoryPrinter.EntryBlock` | scripts/printDirectoryStructure.js:12-16 | A subdirectory's lines come right after its own line, printed with `prefix + '    '` after the last entry and `prefix + '│   '` after the others. A file's line is followed directly by the next entry's line |
| `DirectoryPrinter.EmptyDirectoryPrintsNothing` | scripts/printDirectoryStructure.js:5-7 | An empty directory prints no lines |
| `DirectoryPrinter.DoubledPrefixExample` | scripts/printDirectoryStructure.js:10-15 | For a root holding directory `a` (with file `b`) and then file `c`, the output is `["├── a", "│   │   └── b", "└── c"]`. The rail is printed twice on the nested line |
| `DirectoryPrinter.DirectoryToPrint` | scripts/printDirectoryStructure.js:20 | The directory is the first argument when it is given and non-empty, and `"."` otherwise. It is never empty |
| `DirectoryPrinter.Run` | scripts/printDirectoryStructure.js:20-21 | The script prints exactly when the chosen path exists and is a directory. It then prints what `PrintDirectoryStructure` gives for that tree from the empty prefix: one line per entry below it. Otherwise it fails with an error naming that path, a "not a directory" error exactly when the path exists |

## Left out

- Rendering, routing, CSS classes and the loading and error views of the settings page are not modelled. Neither is the `useEvents` query, whose data the page never shows.
- The event store client (`src/integrations/supabase/index.js`) and the authentication provider are not part of this model. `addEvent.mutate` is modelled as an append to `outbox`. A failed or asynchronous insert, and the cache invalidation after it, are not modelled.
- Timestamps from `new Date().toISOString()` are opaque string parameters. The clock is not modelled.
- CounterPage.Counter.HandleIncrement: requires `0 <= index < 5`, because the page only calls it from the five buttons. In JavaScript, an index of 5 or more would store `NaN` there and grow the array (an index above 5 also leaves holes), so the total would become `NaN`. A negative index would add a non-index property `NaN` under a name like `"-1"`, which neither the length nor `reduce` sees.
- CounterPage.Counter.HandleDecrement: requires `0 <= index < 5`, for the same reason as the increment.
- Counts are unbounded integers. JavaScript numbers are IEEE doubles and lose precision above 2^53; no count gets near that by button presses.
- React's batching of state updates and stale closures between renders are not modelled. Each handler runs on the state left by the previous one.
- `captureLog` is never wired to a control on the page. It is modelled as an operation that could be called with any string.
- The "Export Logs" test in `src/__tests__/DebuggingPage.test.jsx` targets a button the debugging page does not have. There is no export logic to model.
- Strings are sequences of Unicode scalar values, not UTF-16 code units. Lone surrogates cannot be represented.
- The printer's `fs.readdirSync` and `fs.statSync` are replaced by the `Entry` tree. The order of the listing is whatever the tree gives. I/O errors other than a missing path or a non-directory root are not modelled (for example a permission error, or a symbolic-link cycle that would make the script recurse forever). `path.join` only builds the path handed to `fs`, so it has no counterpart.
- Writing to the console becomes the returned list of lines.
