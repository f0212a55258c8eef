# ModHeader core logic in Dafny

ModHeader is a browser extension that rewrites request and response headers, cookies, CSP
directives and URLs according to user-defined profiles. This project models six small pieces
of its logic and proves properties about them:

- **`Template`** (`src/js/utils.js`): the template evaluator. A configured value may contain
  `{{command}}` placeholders. Each one is replaced by a value from the request: `uuid`, `url`,
  `url_origin`, `url_hostname`, `url_path`, `existing_value`, `timestamp`, or the empty string
  for any other command. The evaluator works one placeholder at a time: it pairs the first
  `{{` with the first `}}` anywhere in the value, substitutes, and recurses.
- **`Csp`** (`src/js/csp.js`): the serialiser that turns a Content-Security-Policy directive map
  into the header value. Each directive becomes `name value`, and directives are joined by `; `
  (section 2.2 of W3C Content Security Policy Level 3).
- **`WorkerData`** (`src/js/worker-data-manager.js`): the background worker's view of storage.
  - `reloadActiveProfiles` collects the active profiles: every managed profile, then each stored
    profile that is selected or always on.
  - The storage listener merges changes into the local copy of storage.
  - `saveStorageToCloud` prunes old snapshots from sync storage and writes a new one when the
    profiles changed.
- **`Datasource`** (`src/js/datasource.js`): the popup's four stores.
  - `commitData` writes the four stores together.
  - `undo` skips recorded changes that match the current state and restores the first one that
    differs.
- **`BrowserAction`** (`src/js/browser-action-manager.js`): the toolbar badge and its cache of
  the settings last pushed.
- **`ContextMenu`** (`src/js/context-menu-manager.js`): the pause entry of the context menu and
  its per-entry title cache.

`Common` holds the shared values: the profile record, a JSON-like value for storage entries,
JavaScript truthiness, and property access that reads a missing key as `undefined`. `Text`
models the runtime operations the core relies on: `indexOf`, the decimal rendering of a number,
and the default string order of `Array.prototype.sort`.

The source files are modelled in the form they take. `utils.js` and `csp.js` are pure, so they
become functions and lemmas. The other four update state, so they become classes whose
methods carry loops with invariants:
- the worker's two collection loops and its merge loop;
- the undo loop over the change stack;
- the badge's counting loop.

Each method is proved against a specification function, and the properties are proved as
lemmas about that function.

Two behaviours of `evaluateValue` shape the template model:
- **No recursion bound.** `evaluateValue` recurses until no placeholder is left. Here the budget
  `fuel` bounds the number of substitutions, and the outcome `FuelExhausted` marks a run the
  source never finishes (`SelfReferenceDiverges`).
- **Placeholder pairing.** `evaluateValue` pairs the first `{{` with the first `}}` in the whole
  string, even when that `}}` comes earlier (`CloseBeforeOpenUnchanged`).

## Model

| member | source | states |
|---|---|---|
| Template.DynamicValue | src/js/utils.js:3-22 | A command has no value exactly when it reads the parsed URL and the URL cannot be parsed. When no value of the environment contains `{`, no command's value does. |
| Template.Step | src/js/utils.js:25-35 | One pass raises the URL error only when the URL cannot be parsed, and finds nothing to substitute in a value without `{`. |
| Template.StepAt | src/js/utils.js:25-35 | With the first `{{` at `i` and the first `}}` at `j > i`, the command is the text between them and the result is prefix + command value + suffix. The prefix and suffix are kept verbatim; an unparsable URL gives the URL error. |
| Template.StepFindsPlaceholder | src/js/utils.js:25-28 | One pass substitutes nothing exactly when there is no first `{{` followed by a later first `}}`. |
| Template.EvaluateValue | src/js/utils.js:24-39 | A finished evaluation is a value on which one more pass finds nothing to substitute. |
| Template.DoneHasNoPlaceholder | src/js/utils.js:24-39 | The text a finished evaluation returns holds no placeholder. |
| Template.EvaluateStep | src/js/utils.js:29-35 | Evaluating a value with a placeholder is evaluating prefix + command value + suffix with one substitution fewer; an unparsable URL gives the URL error. |
| Template.EvaluateUnchanged | src/js/utils.js:25-28 | A value with no placeholder is returned unchanged, whatever the budget. |
| Template.NoOpeningUnchanged | src/js/utils.js:25-26 | A value with no `{{` is returned unchanged. |
| Template.CloseBeforeOpenUnchanged | src/js/utils.js:27-28 | When a `}}` occurs before the first `{{`, the value is returned unchanged, even if a later `}}` exists. |
| Template.StepDecomposed | src/js/utils.js:29-32 | For `prefix{{command}}suffix` with no brace in the prefix and no `}` in the command, the command's value replaces the placeholder. |
| Template.NoBraceUnchanged | src/js/utils.js:25-26 | A value with no `{` is returned unchanged. |
| Template.StepRemovesBraces | src/js/utils.js:29-32 | A value with a placeholder holds at least two `{`. When no substituted value holds `{`, each substitution removes at least two `{` and adds none. |
| Template.SafeEvaluationTerminates | src/js/utils.js:31-35 | When no substituted value holds `{`, the evaluation ends within half as many substitutions as the value has `{` (rounded down). |
| Template.EvaluationFuelIndependent | src/js/utils.js:31-35 | Once a budget suffices, every larger budget gives the same result, so the bounded evaluator agrees with the unbounded recursion. |
| Template.SelfReproducingStep | src/js/utils.js:29-35 | A placeholder whose command yields the placeholder itself is substituted by itself. |
| Template.SelfReproducingDiverges | src/js/utils.js:31-35 | Such a placeholder exhausts every budget: the source recurses forever. |
| Template.SelfReferenceDiverges | src/js/utils.js:15-16 | The existing value `{{existing_value}}` makes evaluation diverge. |
| Template.UuidExample | src/js/modifier.test.js:207-239 | `prefix{{uuid}}` with a brace-free prefix evaluates to the prefix followed by the generated identifier (`foo-{{uuid}}` gives `foo-test-uuid`). |
| Template.UrlPathExample | src/js/modifier.test.js:67-86 | `prefix{{url_path}}` evaluates to the prefix followed by the URL's path (`https://modheader.com{{url_path}}` with path `/test` gives `https://modheader.com/test`). |
| Template.CommandValues | src/js/utils.js:4-21 | `existing_value`, `url`, `uuid` and `timestamp` yield the old value, the URL, the identifier and the clock in decimal. Any other command, the empty one included, yields `""`. |
| Text.IndexOfFromFirst | src/js/utils.js:25-27 | A search from a start position returns the first occurrence at or after it, or -1 when there is none. |
| Text.IndexOfFirst | src/js/utils.js:25-27 | `indexOf` returns the first occurrence of the pattern, or -1 exactly when there is none. |
| Text.Decimal | src/js/utils.js:17-18 | The rendering of a number is a non-empty string of digits with no leading zero. |
| Text.DecimalRoundTrip | src/js/browser-action-manager.js:49 | Reading back the rendered numeral gives the number. |
| Text.DecimalSingleDigit | src/js/browser-action-manager.js:49 | A numeral is one character long exactly when the number is below 10. |
| Text.LexLessSnoc | src/js/worker-data-manager.js:87 | Appending one character to two strings of equal length keeps their order, and breaks a tie by the appended characters. |
| Text.DecimalOrder | src/js/worker-data-manager.js:87-93 | Numerals of equal length sort in numeric order, so the sorted timestamp keys run oldest first. |
| Text.LexLessIrreflexive | src/js/worker-data-manager.js:87 | The sort order is irreflexive. |
| Text.LexLessTransitive | src/js/worker-data-manager.js:87 | The sort order is transitive. |
| Text.LexLessTotal | src/js/worker-data-manager.js:87 | Any two distinct strings are ordered one way or the other. |
| Text.LexLessAsymmetric | src/js/worker-data-manager.js:87 | The sort order is asymmetric. |
| Text.LexLessEqTransitive | src/js/worker-data-manager.js:87 | The non-strict order is transitive. |
| Text.LexLessEqTotal | src/js/worker-data-manager.js:87 | The non-strict order is total. |
| Text.SortedCons | src/js/worker-data-manager.js:87 | Putting an element no greater than the head in front of a sorted list keeps it sorted. |
| Text.Insert | src/js/worker-data-manager.js:87 | Inserting into a sorted list gives a sorted list holding the old elements plus the new one. |
| Text.Sort | src/js/worker-data-manager.js:87 | `keys.sort()` yields a sorted permutation of the keys. |
| Csp.ToCspString | src/js/csp.js:1-5 | The policy is empty exactly when the map is, and otherwise opens with the first directive's `name value`. |
| Csp.EntriesConcat | src/js/csp.js:2-3 | The entries of two directive lists put together are their two entry lists put together, so each directive becomes `name value` in order. |
| Csp.JoinConcat | src/js/csp.js:4 | Joining two non-empty lists puts exactly one separator between their joins. |
| Csp.JoinLength | src/js/csp.js:4 | Joining k >= 1 parts yields the parts' total length plus k - 1 separators. |
| Csp.EmptyPolicy | src/js/csp.js:2-4 | An empty map serialises to `""`. |
| Csp.SingleDirective | src/js/csp.js:3 | One directive serialises to `name value`; an empty value leaves a trailing space. |
| Csp.ConcatPolicies | src/js/csp.js:2-4 | The policy of two non-empty maps with no name in common put together is the first policy, `; `, then the second, so directives keep their order. |
| Csp.AppendDirective | src/js/csp.js:2-4 | Adding a directive `(n, v)` with a new name `n` to a non-empty map appends `; n v` to its policy. |
| Csp.EntriesLength | src/js/csp.js:3 | The entries' total length is the sum of name length + 1 + value length. |
| Csp.PolicyLength | src/js/csp.js:2-4 | A policy of k >= 1 directives is as long as its names and values, plus k spaces, plus 2(k - 1) for the separators. |
| WorkerData.Picked | src/js/worker-data-manager.js:70-73 | Every index of an active stored profile lies below the bound scanned. |
| WorkerData.ReloadActiveProfiles | src/js/worker-data-manager.js:59-82 | The two loops compute exactly the specified result. Missing managed profiles, a non-empty string of managed profiles, and truthy non-list profiles each give their TypeError. |
| WorkerData.PickStored | src/js/worker-data-manager.js:68-80 | The second loop collects the optimised selected-or-always-on stored profiles in order, and the optimised selected one. |
| WorkerData.OptimizeAtSnoc | src/js/worker-data-manager.js:78 | Picking one more profile appends its optimised copy. |
| WorkerData.PickedMembership | src/js/worker-data-manager.js:70-73 | Stored profile `i` is active exactly when `i` is the selected index or the profile is always on. |
| WorkerData.PickedIncreasing | src/js/worker-data-manager.js:70-79 | Active stored profiles keep their storage order. |
| WorkerData.ReloadSelection | src/js/worker-data-manager.js:62-81 | The managed profiles come first and in order, followed by exactly the selected or always-on stored profiles in order. The selection is defined exactly when `selectedProfile` indexes a stored profile, and is that profile's optimised copy. |
| WorkerData.EmptyStorage | src/js/worker-data-manager.test.js:57-73 | No stored and no managed profiles give no active profile and no selection. |
| WorkerData.SelectedAndAlwaysOn | src/js/worker-data-manager.test.js:136-171 | Of three stored profiles with the second selected and the third always on, the second and the third are active and the second is selected. |
| WorkerData.ObjectKeys | src/js/worker-data-manager.js:86 | `Object.keys` lists every key of the object exactly once. |
| WorkerData.SaveStorageToCloud | src/js/worker-data-manager.js:84-96 | The keys are sorted and are the snapshot keys. The oldest `len - 20` keys are removed exactly when `len >= 20`. The profiles are written under the current time exactly when there is no snapshot or the newest one differs from them. |
| WorkerData.PruneKeepsNewest | src/js/worker-data-manager.js:88-90 | Pruning keeps exactly 20 keys, and no kept key sorts before a removed one. |
| WorkerData.LatestIsGreatest | src/js/worker-data-manager.js:91 | The key the write decision compares against is the greatest key. |
| WorkerData.SortedKeysAreSnapshots | src/js/worker-data-manager.js:86-87 | A key is in the sorted list exactly when it is a snapshot key. |
| WorkerData.Worker.constructor | src/js/worker-data-manager.js:10-13 | The initial load stores the local storage and delivers its reload result. |
| WorkerData.Worker.MergeChanges | src/js/worker-data-manager.js:29-31 | The local copy becomes the old one overridden by the changes, and nothing else changes. |
| WorkerData.Worker.OnStorageChanged | src/js/worker-data-manager.js:15-39 | A fix by `fixProfiles` saves the fixed profiles and returns before touching the local copy. Otherwise the changes are merged, and the active set is recomputed only when `profiles` or `selectedProfile` changed. The callback gets the result, and a change to `profiles` also runs the cloud decision; a failing reload stops the run. |
| WorkerData.MergeOverwritesChangedKeys | src/js/worker-data-manager.js:29-31 | After the merge a changed key reads its new value, and every other key reads what it read before. |
| Datasource.ClampIndexInRange | src/js/datasource.js:98 | A numeric index ends in `[0, len-1]`, or at 0 for an empty list, and an index already in range is kept. A missing or NaN index gives NaN. |
| Datasource.CommitKeepsOrClearsLock | src/js/datasource.js:99-101 | A commit keeps the current lock flag when given one and clears it when given none; it never sets a new lock value. |
| Datasource.CommitIdempotent | src/js/datasource.js:96-116 | Committing the same request twice has the effect of committing it once. |
| Datasource.RecordOfMatches | src/js/datasource.js:66-86 | The record of a state matches that state, unless its index is NaN, which differs from itself. |
| Datasource.RestoreRecordOf | src/js/datasource.js:87-92 | Restoring an earlier state's record brings back its profiles, its in-range index and its pause flag, but not its lock flag. |
| Datasource.FindUndoLatest | src/js/datasource.js:66-86 | The undo target is the latest record that differs from the current state in a recorded field. Every later record matches, and there is no target exactly when every record matches. |
| Datasource.Store.constructor | src/js/datasource.js:16-19 | The stores start at no profiles, index 0, unlocked and not paused. |
| Datasource.Store.CommitData | src/js/datasource.js:96-116 | The stores take the clamped index, the profiles, the lock flag as written and the pause flag defaulted to the current one. Their record is returned and pushed. |
| Datasource.Store.Undo | src/js/datasource.js:57-94 | An empty stack changes nothing. Otherwise every matching record is popped and the first differing one is committed, with the current profiles when it has none. When every record matches, the stack is exhausted and the dereference fails. |
| BrowserAction.ModifierCountAppend | src/js/browser-action-manager.js:32-39 | The count of two lists of profiles is the sum of their counts. |
| BrowserAction.ModifierCountZero | src/js/browser-action-manager.js:32-45 | The count is 0 exactly when no active profile has a request or response header, Set-Cookie header or URL replacement. |
| BrowserAction.ModifierCountIgnoresCookieAndCsp | src/js/browser-action-manager.js:33-39 | Cookie and CSP modifiers do not change the count. |
| BrowserAction.BadgeCases | src/js/browser-action-manager.js:24-54 | Paused gives the disabled icon with the paused text on `#666`. Otherwise a count of 0 gives the disabled icon with no text on `#fff`. A positive count gives the regular icon, the count in decimal and the selected profile's colour, and fails exactly when no profile is selected. |
| BrowserAction.BadgeManager.constructor | src/js/browser-action-manager.js:7 | No settings pushed yet. |
| BrowserAction.BadgeManager.UpdateBrowserActionIfNeeded | src/js/browser-action-manager.js:16-22 | The browser is called exactly when the new settings differ from the cached ones, and the cache then holds the new settings. |
| BrowserAction.BadgeManager.ResetBrowserActions | src/js/browser-action-manager.js:24-54 | The counting loop computes the specified badge. Pushing it follows the cache rule; a failure leaves the cache and calls untouched. |
| BrowserAction.BadgeManager.ResetTwice | src/js/browser-action-manager.js:16-22 | Two resets with the same input push at most once. |
| ContextMenu.PauseEntry | src/js/context-menu-manager.js:42-54 | While paused the entry reads `Unpause ModHeader` and unpauses; otherwise it reads `Pause ModHeader` and pauses. |
| ContextMenu.PauseEntryChanges | src/js/context-menu-manager.js:30-54 | With the cache holding the pause entry's title, an update is needed exactly when the pause state changed. |
| ContextMenu.MenuManager.constructor | src/js/context-menu-manager.js:8 | The title cache starts empty. |
| ContextMenu.MenuManager.UpdateContextMenuIfNeeded | src/js/context-menu-manager.js:30-40 | The menu is updated exactly when the cached title differs, and the cache then holds the new title. |
| ContextMenu.MenuManager.ResetContextMenu | src/js/context-menu-manager.js:42-54 | Only the pause entry's cache slot changes, and the lock entry and every other entry keep theirs. The update follows the cache rule. |
| ContextMenu.MenuManager.ResetTwice | src/js/context-menu-manager.js:30-54 | Two resets with the same pause state update the menu at most once. |

## Left out

- The header, cookie, Set-Cookie and CSP rewrite engine and the filter matcher (`modifier.js`, `filter.js`, `header.js`, `url-redirect.js`) are not part of this model. They appear only as callers of `evaluateValue`.
- URL parsing is not modelled. `new URL(url)` becomes the input `Env.parsedUrl`: its origin, hostname and pathname, or `None` when the parser throws.
- `uuidv4()` and `Date.now()` become the inputs `Env.uuid`, `Env.timestamp` and `now`.
  - Template.CommandValues: one identifier and one clock reading serve a whole evaluation. The source draws a fresh identifier, and reads the clock again, for every placeholder.
- Template.EvaluateValue: the source recursion has no bound. The model bounds the number of substitutions by `fuel`, and `FuelExhausted` stands for a run the source does not finish. `SafeEvaluationTerminates` and `EvaluationFuelIndependent` say when the bound is harmless.
- Csp: a directive map is the entry list `Object.entries` returns, with distinct names. The runtime's order of those entries (integer-like names first, in numeric order, then the rest in insertion order) is not modelled, and `ConcatPolicies` and `AppendDirective` describe adding new, non-numeric names.
- `optimizeProfile` is the parameter `optimize`. Its field-by-field optimisers live in the unseen `filter.js` and `url-redirect.js`, and in a library.
- Storage reads and writes are not executed; they are results and recorded effects. This covers `storage.getSync/setSync/removeSync`, `storageLoader.initStorage`, `storageWriter.setProfiles`, `setBrowserAction` and `updateContextMenu`.
- `profile.fixProfiles` is the parameter `fixProfiles`. It returns the fixed list when it fixed one.
- Async sequencing, listener registration and Svelte subscriptions are left out. This includes the persistence in the `isPaused`/`isLocked` subscribers, `isInitialized`, `hideMessage`, `init()` and `initContextMenu()`. Only the state transitions are modelled.
- `change-stack.js` is not part of this model. The stack is the sequence `changes` with its top at the end. `undoChange` pops from it, and `commit` pushes the record it is given; any other bookkeeping of the stack is left out.
- Text.Sort: the order is code-point order per character. The runtime sorts by UTF-16 code units, which differs only for characters outside the Basic Multilingual Plane. The sort is a function on a sequence, not an in-place sort.
- WorkerData.ObjectKeys: the order `Object.keys` returns (integer-like keys first) is not modelled, because the keys are sorted right after.
- JavaScript numbers are integers or NaN here. Floating-point indices and arithmetic are not modelled.
- The `chromeLocal` field of the reload response is not modelled, because it is the input map itself.
- Values in storage are a small JSON-like type: undefined, null, booleans, integers, strings and profile lists. Deep equality (`lodash.isEqual`) is structural equality on it.
