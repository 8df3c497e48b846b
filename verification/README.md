# Routerly: proofs about its client-side algorithms and protocols

Routerly's command line and dashboard contain a handful of small algorithms and protocols that users
trust with their own files and sessions. This project models them in Dafny 4.11 and proves what they
promise. `dafny verify dfyconfig.toml` checks everything.

| Part | Files |
|---|---|
| Word diff of two prompts (`TextDiff.tsx`) | `word_diff.dfy`, `diff_engine.dfy`, `subsequence.dfy`, `diff_laws.dfy` |
| Atomic writes, backups, undo (`safe-file.ts`, `apply` in `codex.ts`) | `safe_file.dfy` (the protocol), `safe_file_invariants.dfy`, `safe_file_steps.dfy`, `safe_file_order.dfy`, `safe_file_theorems.dfy`, `safe_file_mode.dfy`, `safe_file_temp.dfy`, `safe_file_program.dfy` (the code), `safe_file_progress.dfy`, `safe_file_environment.dfy`, `safe_file_examples.dfy` |
| Codex `config.toml` merger (`codex.ts`) | `codex_toml.dfy`, `toml_lines.dfy`, `written_toml.dfy`, `apply_plan.dfy` (plan, backup and write together), `client_target.dfy` |
| Continue `config.yaml` merger (`continue.ts`) | `continue_yaml.dfy`, `yaml_lines.dfy`, `written_yaml.dfy`, `client_target.dfy` |
| Dashboard transport: trace frames, shared token refresh (`dashboard/src/api.ts`) | `frame_stream.dfy`, `frame_laws.dfy`, `session_refresh.dfy`, `session_laws.dfy` |
| Command-line permission guard (`cli/src/api.ts`) | `permission_guard.dfy`, `guard_laws.dfy` |
| Reordering and pipeline edits (`router.ts`, `optimizers.ts`) | `reorder.dfy`, `optimizer_pipeline.dfy` |
| Aliases and the account store (`auth.ts`, `store.ts`) | `account_store.dfy`, `account_laws.dfy`, `decimal.dfy` |
| Drag reordering | `drag.dfy` |
| Date picker (`DateRangePicker.tsx`) | `calendar.dfy` (dates and grid), `printed_days.dfy` (strings and their order), `date_range_picker.dfy`, `decimal.dfy` |
| Strings: white space, split, join, blank lines | `text.dfy` |

The code that works step by step is written as classes and methods with loops. Each method is proved
equal to a specification function of its inputs or its old state, and the promises are lemmas about
those functions. The concurrent parts are transition functions over every interleaving of events,
with invariants over every run; the classes beside them are the program, one method a turn or one
method a system call. The files named laws, lines, written and progress say what these functions do
without naming their bodies: every literal that is written, what each regular expression matches,
what goes back to what, and that what should happen does.

## What is false of the code, and exactly when it holds

- An over-long diff (more than 600 tokens in a middle) is not a longest common subsequence. It is one
  exactly when the two middles share no token (`WordDiff.SameTokensAreLongest`; two texts of 301
  words each in `WordDiff.LongDiffExample`).
- `backupFile` reads the source and writes the copy under one `catch` that takes `ENOENT` for a
  missing source, although its comment says that only a missing source counts. If opening the copy
  reports `ENOENT`, a complete manifest says "existed" and there is no copy. Apart from exactly that
  case the copy is complete (`SafeFileTheorems.ManifestHasCopyIffNotSwallowed`, with the input in
  `SafeFileTheorems.SwallowedCopyExample`); an undo of such a backup fails although every call succeeds
  (`SafeFileProgress.UndoFailsWithoutCopy`), and of any other it succeeds (`SafeFileProgress.UndoSucceeds`).
- `atomicWrite` takes every error of `stat` for a missing file, so an existing file whose stat fails
  ends up with mode 0o600. The mode is kept exactly when the stat succeeded or the mode was the
  default anyway (`SafeFileMode.WriteKeepsMode`, with the input in `SafeFileMode.StatErrorLosesMode`).
- `atomicWrite` promises to remove the temp file on any failure. A failed write has removed it exactly
  when its cleanup succeeded or there was nothing to remove
  (`SafeFileTemp.FailedWriteRemovesTempIff`; a full disk in `SafeFileExamples.LeftoverExample`).
- `restoreBackup` swallows every error of the unlink, so an undo can return although the file it should
  delete is still there, exactly when the unlink failed and there was a file
  (`SafeFileTheorems.UndoRestores`, with the run in `SafeFileExamples.UndoExample`).
- `mergeToml` promises to preserve every other line, and strips a `model_provider` line inside any
  table. Blank lines at the end aside, it keeps the promise exactly when no line is a selector in a
  table other than the provider's own (`CodexToml.MergeKeepsAllElseIff`; a profile that picks its own
  provider in `CodexToml.NestedExample`).
- The merged TOML has one selector and one provider header exactly when no line of the target's own
  text reads as one (`CodexToml.MergeHasOneSelectorAndOneTable`; a token that brings a header in
  `CodexToml.TwoTablesExample`).
- Planning the TOML merge again is not idempotent: each plan adds one blank line after the selector.
  It changes nothing exactly when the file holds nothing but the integration's own lines
  (`CodexToml.ReplanIsStableIffNothingElse`; a one-line file in `CodexToml.ReplanExample`).
- Applying a plan commits the merge of the file that was read when planning. It is the merge of the file
  that is backed up, or of the file that is replaced, exactly when the merge keeps the same lines of it
  as of the one that was read (`ApplyPlan.AppliedIsMergeOfBackupIff`, `ApplyPlan.ReplacedIsMergedIff`);
  a line written in between is lost from the configuration (`ApplyPlan.LostUpdateExample`).
- The TOML block reads back exactly when URL and token hold no `\n`, `\r`, U+2028 or U+2029
  (`CodexToml.ReadsBackIffTerminatorFree`, `CodexToml.ReadBackExample`); the YAML URL exactly when it
  holds no white space (`ContinueYaml.ReadsBackIffNoSpace`, `ContinueYaml.ReadBackExample`).
- The YAML merge drops more than "every other key/entry" in its comment suggests: blank lines between
  the items, and indented lines between the key and the first item. Apart from blank lines at the end
  nothing else is lost, and the lines around the Routerly item survive literally exactly if there are
  none of either
  (`ContinueYaml.MergeIsLiteralIff`; a comment under the key in `ContinueYaml.OrphanExample`).
- A dashboard refresh without a token returns before the `finally`, so the shared slot stays filled.
  Until the page is loaded anew the client can never refresh again exactly then, whatever is stored
  later (`SessionRefresh.NeverRefreshesAgainIffStuck`, `SessionRefresh.StuckIffStartedWithoutToken`;
  one request in `SessionRefresh.StuckExample`). The redirect after a rejected request loads the page
  anew, except on the login page itself.
- The find-then-append reorder loop yields a permutation in stable rank order exactly when no existing
  id is mentioned twice; otherwise it duplicates an entry
  (`Reorder.LoopIsStableSortIffMentionedOnce`, `Reorder.RepeatedMention`).
- The current account can be missing although accounts exist, exactly when the current alias is empty
  (`AccountStore.CurrentAccountIff`; a rename in `AccountStore.EmptyAliasExample`). A run that brings
  in no empty alias never gets there (`AccountStore.NamedRunHasCurrent`).
- The calendar grid of a year from 0 to 99 is that of the year 1900 years later, exactly for these years
  (`Calendar.GridIsOfMonthShownIff`).
- Printed days of different years compare as the days do exactly when the leading digits of the later
  year, cut to the width of the earlier, are not below the earlier one (with the signs turned for two
  years before the year 0): `PrintedDays.FmtOrderIff`. The same condition decides whether the picker's
  test for the last month is right (`PrintedDays.AtLastMonthIsRightIff`): in 2024 the next-month step
  works from the years 100 to 202, 10 to 20, 0 to 2 and before 0, and is blocked from the others below
  1000 (`PrintedDays.MonthOrderBelow1000`,
  `PrintedDays.MonthOrderExample`); and whether a completed pair is in order
  (`DatePicker.PairIsChronologicalIff`, `DatePicker.ReversedPairExample`). From 1000 to 9999 it always
  holds (`PrintedDays.FmtOrder`, `PrintedDays.MonthOrder`).

- Confirming a range cuts its ends to ten characters after a time was attached. An end comes back as it
  was exactly when it is absent or ten characters long (`DatePicker.ConfirmedDayIff`), as a printed day
  is exactly when its year prints with four (`DatePicker.FmtIsTenIff`); a day of the year 150 is turned
  into a string of no day (`DatePicker.ConfirmExample`).

## What is assumed

- A string is a sequence of Unicode scalar values, where the runtime has UTF-16 code units. White
  space is what `\s` and `trim` accept.
- File system: a rename is atomic and durable, and so is an unlink (the code does not sync the
  directory). A loss of power may garble or drop any file that was not synced. A failed write leaves
  arbitrary content. SHA-256 is collision-free. A manifest that was not completely written does not
  parse as one.
- `Start` of the safe-file protocol carries what the code leaves to its callers: a backup id is used
  once, a process runs one write at a time, and a target is not itself named like a temp file.
- The dashboard and the guard run on one event loop; an event is one turn from a resumption to the next
  `await`. Answers of the network, prompts and clocks are inputs of the events. The account store runs
  sequentially.
- Today's year is at least 1000, and at most 9999 where the comparison of printed months is described.
  Years are unbounded; the runtime's `Date` ends at the year 275760.
- Drag events are handled after the re-render of the one before.
- `Array.prototype.sort` is stable and treats `NaN` as equal (section 23.1.3.30 of ECMA-262 2023): it
  is whatever satisfies `Reorder.IsStableSort`.
- `TextDecoder` and `JSON.parse` are abstract: chunks are decoded text, and parsing is a partial
  function.

## Model

| member | source | states |
|---|---|---|
| `WordDiff.TokenizeIsMaximal` | packages/dashboard/src/components/TextDiff.tsx:43-45 | for every text the tokens join back to it, none is empty, each is all white space or has none, and the two kinds alternate, so they are the maximal runs |
| `WordDiff.TokenizeOfTokens` | packages/dashboard/src/components/TextDiff.tsx:43-45 | the other way round, any list of alternating runs is the token list of the text it joins to |
| `WordDiff.WalkScriptIsOptimal` | packages/dashboard/src/components/TextDiff.tsx:61-70 | the greedy walk rebuilds both token lists and keeps exactly as many tokens as their longest common subsequence has |
| `WordDiff.KeptTokensAreLongest` | packages/dashboard/src/components/TextDiff.tsx:86-103 | with head and tail trimming included, the kept tokens are a common subsequence of the two whole lists, and a longest one if and only if the middles fit the cap or share no token |
| `WordDiff.SameTokensAreLongest` | packages/dashboard/src/components/TextDiff.tsx:82-104 | on the parts that are returned: the tokens of the `same` parts are exactly those kept, common to both texts, and a longest common subsequence under the same condition |
| `WordDiff.CoalesceKeepsTokens` | packages/dashboard/src/components/TextDiff.tsx:73-79 | merging kept tokens into parts loses no token boundary: tokenizing the `same` parts gives them back |
| `WordDiff.LongDiffExample` | packages/dashboard/src/components/TextDiff.tsx:96-98 | two texts of 301 words whose diff is not a longest common subsequence, since the spaces they share are not kept |
| `DiffLaws.WithinCapIsLongest` | packages/dashboard/src/components/TextDiff.tsx:82-104 | if neither middle has more than 600 tokens, the tokens of the `same` parts are a longest common subsequence of the two texts |
| `DiffLaws.OverCapIsReplaced` | packages/dashboard/src/components/TextDiff.tsx:96-102 | if a middle has more than 600, the `same` tokens are exactly the shared head and tail, and the parts are the head, one removal, one addition and the tail |
| `DiffLaws.TrimIsMaximal` | packages/dashboard/src/components/TextDiff.tsx:86-92 | the head is the longest common start and the tail the longest common end beside it, so two non-empty middles differ at both ends |
| `DiffLaws.ReplacementsRemoveFirst` | packages/dashboard/src/components/TextDiff.tsx:61-69 | for all texts no addition stands right before a removal: a replacement always shows as the removal and then the addition |
| `WordDiff.DiffScriptRebuilds` | packages/dashboard/src/components/TextDiff.tsx:86-103 | dropping the additions leaves the first token list, dropping the removals the second, over the cap or not |
| `WordDiff.DiffRebuildsBothTexts` | packages/dashboard/src/components/TextDiff.tsx:82-104 | for all texts, same and removed parts concatenate to `before`, same and added parts to `after`, no part is empty and no neighbours share a kind |
| `WordDiff.ChangedIffDifferent` | packages/dashboard/src/components/TextDiff.tsx:120-122 | some part is not `same` if and only if the two texts differ |
| `WordDiff.CoalesceKeepsText` | packages/dashboard/src/components/TextDiff.tsx:73-79 | pushing any script keeps the text of every set of kinds and the normal form of the part list |
| `Subsequence.LcsLengthBounds` | packages/dashboard/src/components/TextDiff.tsx:53-59 | no common subsequence is longer than the recurrence the table is filled by |
| `Subsequence.LongestThroughTrim` | packages/dashboard/src/components/TextDiff.tsx:86-92 | stripping a shared head and tail preserves being a longest common subsequence, in both directions |
| `DiffEngine.CellIsInjective` | packages/dashboard/src/components/TextDiff.tsx:51-58 | different cells of the flat table have different offsets, so writing one leaves the others alone |
| `DiffEngine.FillTable` | packages/dashboard/src/components/TextDiff.tsx:48-59 | the in-place 32-bit table holds the LCS length of every pair of suffixes, border included |
| `DiffEngine.WalkTable` | packages/dashboard/src/components/TextDiff.tsx:60-69 | the walk over the filled table pushes exactly the greedy script, coalesced |
| `DiffEngine.LcsDiff` | packages/dashboard/src/components/TextDiff.tsx:48-71 | the parts are those of the script that `WordDiff.WalkScriptIsOptimal` is about |
| `DiffEngine.PartList.Push` | packages/dashboard/src/components/TextDiff.tsx:74-79 | the new part list is the one `WordDiff.CoalesceKeepsText` is about; empty text changes nothing |
| `DiffEngine.TrimEnds` | packages/dashboard/src/components/TextDiff.tsx:86-89 | the head and tail found are the shared ones of `WordDiff.TrimCommonRebuilds`, and they never overlap in either list |
| `WordDiff.TrimCommonRebuilds` | packages/dashboard/src/components/TextDiff.tsx:86-92 | both lists are the same head, their own middle, and the same tail |
| `DiffEngine.PushMiddle` | packages/dashboard/src/components/TextDiff.tsx:96-101 | over the cap one removal and one addition, else the inner diff: in both cases the coalesced middle script |
| `DiffEngine.DiffWords` | packages/dashboard/src/components/TextDiff.tsx:82-104 | the part list built in place is the one the three main results are about |
| `SafeFile.TempNameInjective` | packages/cli/src/lib/safe-file.ts:98 | two temp names are equal only for the same path and the same process |
| `SafeFileSteps.StepInv` | packages/cli/src/lib/safe-file.ts:28-156 | every call of any process, failing or not, a crash or a loss of power keeps the invariant of targets, backups, processes and the log of commits |
| `SafeFileSteps.RenameCommits` | packages/cli/src/lib/safe-file.ts:118-120 | a rename replaces the target by the whole synced content with the recorded mode, removes the temp file and changes nothing else |
| `SafeFileTheorems.TargetIsNeverMixed` | packages/cli/src/lib/safe-file.ts:97-126 | over all interleavings, a target holds its whole old content or the whole content of one writer, the one that committed last |
| `SafeFileTheorems.CallsCommitIffTheyReturn` | packages/cli/src/lib/safe-file.ts:109-125 | a call has changed a target if and only if it returned (without a swallowed unlink error); a failed or dead one never has |
| `SafeFileTheorems.OnlyCommitsChangeTargets` | packages/cli/src/lib/safe-file.ts:97-126 | in every reachable state, a step changes a target only by the last call of the process that replaces or removes it |
| `SafeFileMode.WriteKeepsMode` | packages/cli/src/lib/safe-file.ts:100-120 | whatever runs between a writer's stat and its rename, it commits its whole content, with the permission bits the target had (0o600 for a new file) if and only if the stat succeeded or they were 0o600 |
| `SafeFileMode.StatErrorLosesMode` | packages/cli/src/lib/safe-file.ts:101-107 | a run in which a file of mode 0o644 is replaced by one of mode 0o600 because its stat failed |
| `SafeFileTemp.TempHasCause` | packages/cli/src/lib/safe-file.ts:98-125 | over every run, a file under a temp name was there from the start, or its process is in a write of that path past the open, or it died there or had its cleanup fail |
| `SafeFileTemp.FailedWriteRemovesTempIff` | packages/cli/src/lib/safe-file.ts:121-125 | in every run a write fails only by way of its cleanup, and then its temp file is gone if and only if the cleanup succeeded or there was nothing to remove |
| `SafeFileExamples.LeftoverExample` | packages/cli/src/lib/safe-file.ts:109-125 | a run in which a write and its cleanup fail and the temp file stays |
| `SafeFileTheorems.ManifestHasCopyIffNotSwallowed` | packages/cli/src/lib/safe-file.ts:65-88 | in every run, a complete manifest that says "existed" has a complete copy beside it if and only if opening the copy was not reported as "no such file" |
| `SafeFileTheorems.SwallowedCopyExample` | packages/cli/src/lib/safe-file.ts:67-75 | a run in which an existing file gets a complete manifest and no copy |
| `SafeFileOrder.ConfigureBacksUpFirst` | packages/cli/src/clients/codex.ts:218-223 | whenever a configuration has replaced its target, its backup is durable: manifest with the right path, digest and existence, and the copy complete unless swallowed |
| `SafeFileTheorems.SnapshotIsWhatWasThere` | packages/cli/src/lib/safe-file.ts:67-75 | a backup records what its target held when it was read |
| `SafeFileTheorems.SnapshotsStay` | packages/cli/src/lib/safe-file.ts:48-89 | no later step changes what a backup recorded |
| `SafeFileTheorems.UndoRestores` | packages/cli/src/lib/safe-file.ts:134-156 | when an undo returns, its path holds what the backup found, absent included, if and only if no unlink error was swallowed or there was nothing to unlink |
| `SafeFileExamples.UndoExample` | packages/cli/src/lib/safe-file.ts:152-155 | a run in which a configuration creates a file and its undo returns with the file still there |
| `SafeFileTheorems.UndoBringsBackTheText` | packages/cli/src/lib/safe-file.ts:134-156 | from the backup to the undo, whatever ran in between, the text and the existence of the file come back |
| `SafeFileProgress.WriteSucceeds` | packages/cli/src/lib/safe-file.ts:97-126 | progress, from every reachable state: if the seven calls of a write succeed, whatever the umask, it is done and the target holds its text with the permission bits of the file that was there, or 0o600 |
| `SafeFileProgress.ConfigureSucceeds` | packages/cli/src/lib/safe-file.ts:48-126 | progress of backup and write: if the 17 calls succeed (13 without a file), the target holds the new text with the old permission bits, the backup is durable, and it recorded what was there |
| `SafeFileProgress.UndoSucceeds` | packages/cli/src/lib/safe-file.ts:134-151 | progress of an undo: in every reachable state with a parsed manifest that recorded a text, and unless the copy was lost to a swallowed `ENOENT`, nine successful calls end with the file holding that text again |
| `SafeFileProgress.UndoRemoves` | packages/cli/src/lib/safe-file.ts:152-155 | if the backup found no file, two successful calls end the undo with no file |
| `SafeFileProgress.UndoFailsWithoutCopy` | packages/cli/src/lib/safe-file.ts:141-150 | if the copy was lost, the undo fails although every call succeeds, and the disk is unchanged |
| `SafeFileProgress.ConfigureThenUndo` | packages/cli/src/lib/safe-file.ts:48-156 | round trip, from every reachable state: a configuration and its undo, all calls succeeding, leave text and permission bits of the target as they were, or no file if there was none |
| `SafeFileEnvironment.UnsyncedCanBeLost` | packages/cli/src/lib/safe-file.ts:110-117 | a file that was not synced may be gone after a loss of power, or hold anything; the results above hold against that |
| `SafeFileEnvironment.OpenTruncates` | packages/cli/src/lib/safe-file.ts:28-31 | opening a file for writing empties it, keeps the mode of an existing file, and nothing is safe until the sync |
| `SafeFileProgram.Machine.WriteSync` | packages/cli/src/lib/safe-file.ts:28-36 | open, write, sync and a close in any case follow the protocol; success means all four succeeded |
| `SafeFileProgram.Machine.BackupFile` | packages/cli/src/lib/safe-file.ts:48-89 | the code follows the protocol while others interfere; when it returns, the manifest is durable and names the path |
| `SafeFileProgram.Machine.AtomicWrite` | packages/cli/src/lib/safe-file.ts:97-126 | the code returns if and only if the target was replaced, whatever other processes do between its calls |
| `SafeFileProgram.Machine.Apply` | packages/cli/src/clients/codex.ts:218-223 | backup then write: it returns if and only if the target was replaced, and then its backup is durable |
| `SafeFileProgram.Machine.RestoreBackup` | packages/cli/src/lib/safe-file.ts:134-156 | the target changed if and only if it returned and swallowed no unlink error |
| `CodexToml.MergeToml` | packages/cli/src/clients/codex.ts:126-170 | filter, skipping loop, trimming loop and join produce the file that the TOML results are about |
| `CodexToml.CutProviderTables` | packages/cli/src/clients/codex.ts:133-147 | the loop with the skipping flag keeps the lines that `CodexToml.SurvivorsKeepScope` characterises |
| `CodexToml.SurvivorsKeepScope` | packages/cli/src/clients/codex.ts:130-147 | the surviving lines are exactly those that are neither selector nor under a routerly header, in order, each under the table header it stood under (TOML v1.0.0, section "Table") |
| `CodexToml.MergePreservesScope` | packages/cli/src/clients/codex.ts:126-170 | the whole output with the header of every line: the selector at top level, the kept lines minus trailing blanks in order under their old headers, then the provider block |
| `CodexToml.MergeKeepsAllElseIff` | packages/cli/src/clients/codex.ts:116-148 | the output keeps all lines but the top-level selector, the provider table and blank lines at the end, if and only if no other table has a selector line |
| `CodexToml.NestedIsLost` | packages/cli/src/clients/codex.ts:130-131 | a selector under another table header is in the file and not in the merged file |
| `CodexToml.NestedExample` | packages/cli/src/clients/codex.ts:130-131 | the provider that a profile picks for itself is lost |
| `CodexToml.MergeHasOneSelectorAndOneTable` | packages/cli/src/clients/codex.ts:130-169 | the output has one selector, the first line, and one routerly header if and only if no line of the target's own text reads as one |
| `CodexToml.TwoTablesExample` | packages/cli/src/clients/codex.ts:160 | a token with a line break, the header and a line break puts another header into every merged file |
| `CodexToml.BreakFreeStaysOneTable` | packages/cli/src/clients/codex.ts:150-161 | a target without line breaks prints as the five lines of the block and adds no selector or header |
| `CodexToml.ExtractProviderBlock` | packages/cli/src/clients/codex.ts:101-114 | the search and the field loop return the map that the read-back results are about |
| `CodexToml.MergedBlockReadsBack` | packages/cli/src/clients/codex.ts:101-170 | for targets free of line terminators, reading a merged file gives exactly the four fields written, for any file merged into |
| `CodexToml.ReadsBackIffTerminatorFree` | packages/cli/src/clients/codex.ts:101-170 | URL and token read back if and only if neither holds a line terminator |
| `CodexToml.ReadBackExample` | packages/cli/src/clients/codex.ts:110-111 | a token that is a carriage return does not read back, whatever file it is merged into |
| `ClientTarget.WrittenUrl` | packages/cli/src/clients/codex.ts:61-63 | one slash at the end of the server URL is dropped before `/v1` is added, and no more than one |
| `WrittenToml.UrlReadsBack` | packages/cli/src/clients/codex.ts:101-170 | for a server URL and a token on one line, whatever the file held: the block that reads back is name `Routerly`, the URL with `/v1`, wire API `responses` and the token; the same URL with a slash at its end, and one slash kept of two |
| `WrittenToml.UrlReadsBackIff` | packages/cli/src/clients/codex.ts:101-170 | URL with `/v1` and token read back if and only if neither holds `\n`, `\r`, U+2028 or U+2029 |
| `WrittenToml.MergedLinesAre` | packages/cli/src/clients/codex.ts:145-169 | the output line by line, every literal spelled out: the selector, the surviving lines after a blank one, a blank line and the five lines of the block |
| `TomlLines.IsSelectorIff` | packages/cli/src/clients/codex.ts:131 | a line is stripped as a selector if and only if it is white space, `model_provider`, white space, `=` and anything |
| `TomlLines.OpensTableIff` | packages/cli/src/clients/codex.ts:109 | a line ends a table if and only if it is white space, `[` and anything |
| `TomlLines.IsProviderHeaderIff` | packages/cli/src/clients/codex.ts:103 | a line is the provider header if and only if it is `[model_providers.routerly]` between white space |
| `TomlLines.FieldIff` | packages/cli/src/clients/codex.ts:110 | a line gives a key and a value if and only if it is that word, `=`, and that value in quotes on one line, with white space between and around |
| `TomlLines.ExtractedIff` | packages/cli/src/clients/codex.ts:101-114 | for every key but `__proto__` the reader finds the value of the last field line for it between the first provider header and the next table |
| `CodexToml.ReplanDrift` | packages/cli/src/clients/codex.ts:126-170 | planning k + 1 times is planning once with the last target plus k blank lines before the surviving lines, and no drift if nothing else is in the file |
| `CodexToml.ReplanIsStableIffNothingElse` | packages/cli/src/clients/codex.ts:163-168 | planning twice equals planning once if and only if the file holds nothing but the integration's own lines |
| `CodexToml.ReplanExample` | packages/cli/src/clients/codex.ts:163-168 | planning twice on a file with one other line differs from planning once |
| `CodexToml.ReplanKeepsNonBlank` | packages/cli/src/clients/codex.ts:126-170 | however often it is planned, the non-blank lines are those of planning once with the last target |
| `CodexToml.SameMergeIff` | packages/cli/src/clients/codex.ts:126-170 | two files merge to the same one if and only if the merge keeps the same lines of both |
| `ApplyPlan.AppliedIsMergeOfBackupIff` | packages/cli/src/clients/codex.ts:211-223 | in every run, what applying a plan commits is the merge of the text it backed up if and only if the merge keeps the same lines of that and of what the plan read, so in particular if the target was unchanged |
| `ApplyPlan.ReplacedIsMergedIff` | packages/cli/src/clients/codex.ts:211-223 | the same of the text that the target held right before it was replaced |
| `ApplyPlan.LostUpdateExample` | packages/cli/src/clients/codex.ts:211-223 | a run in which a line written between plan and apply is missing from the committed configuration |
| `Text.PopTrailingBlank` | packages/cli/src/clients/continue.ts:97-101 | the popping loop leaves the longest prefix that is empty or ends in a non-blank line (with `Text.TrimmedIn`) |
| `ContinueYaml.ParseModelsSection` | packages/cli/src/clients/continue.ts:119-155 | the parser as written returns the section that the YAML results are about |
| `ContinueYaml.GatherItems` | packages/cli/src/clients/continue.ts:126-144 | the loop over lines and the current block gathers the items of `ContinueYaml.ScanDropsOnlyOrphans` |
| `ContinueYaml.ScanDropsOnlyOrphans` | packages/cli/src/clients/continue.ts:126-153 | the scan keeps every non-blank line in order except those before the first item |
| `ContinueYaml.ParseMerged` | packages/cli/src/clients/continue.ts:119-207 | parsing a merged file gives the same header, indent and rest, and the items with ours in place |
| `ContinueYaml.MergeYaml` | packages/cli/src/clients/continue.ts:187-207 | the merge as written produces the file that the YAML results are about |
| `ContinueYaml.MergeTwiceIsMergeLast` | packages/cli/src/clients/continue.ts:187-207 | merging twice is merging once with the last target, exactly, for any file and break-free first target |
| `ContinueYaml.ReplanIsMergeLast` | packages/cli/src/clients/continue.ts:181-207 | any number of merges equals one merge with the last target, so merging the same target again changes nothing |
| `ContinueYaml.ExtractApiBase` | packages/cli/src/clients/continue.ts:161-168 | the loop returns the URL of the first line that has one |
| `ContinueYaml.ReadsBackIffNoSpace` | packages/cli/src/clients/continue.ts:157-207 | for every file, URL and token, reading a merged file gives the new URL if and only if the URL holds no white space |
| `ContinueYaml.ReadBackExample` | packages/cli/src/clients/continue.ts:161-168 | a URL with a space does not read back, whatever file it is merged into |
| `WrittenYaml.UrlReadsBack` | packages/cli/src/clients/continue.ts:119-207 | for a server URL without white space, whatever the file and the token: the URL that reads back ends in `/v1`, the same with a slash at the end of the server URL, and one slash kept of two |
| `WrittenYaml.UrlReadsBackIff` | packages/cli/src/clients/continue.ts:161-207 | it reads back if and only if the server URL holds none of the 25 white space characters |
| `WrittenYaml.NewFileIs` | packages/cli/src/clients/continue.ts:187-195 | a new file line by line, every literal spelled out |
| `WrittenYaml.BlockIs` | packages/cli/src/clients/continue.ts:170-179 | the five lines of the entry under any indent, every literal spelled out |
| `YamlLines.IsModelsKeyIff` | packages/cli/src/clients/continue.ts:67 | a line is the key if and only if it is `models:` at the start of the line and white space |
| `YamlLines.IsItemStartIff` | packages/cli/src/clients/continue.ts:68 | a line starts an item if and only if it is white space, a dash and white space, and the indent is what stands before the dash |
| `YamlLines.ContainsIff` | packages/cli/src/clients/continue.ts:157-159 | a line includes a text if and only if it is that text between others |
| `YamlLines.ApiBaseInIff` | packages/cli/src/clients/continue.ts:161-168 | the URL of a line is that of the leftmost place from which the rest is `apiBase:`, white space, one word and white space |
| `YamlLines.SectionIs` | packages/cli/src/clients/continue.ts:119-155 | the parser cuts a file at its first `models:` line, at the first item below it and at the first line that is not indented; the items are the non-blank lines between, each from a start to the next, and their indent is that of the first or two spaces |
| `ContinueYaml.MergeConservesLines` | packages/cli/src/clients/continue.ts:126-207 | with a `models:` key, the non-blank lines of the output are those of the input in order, with the Routerly item replaced or appended, minus the lines between the key and the first item |
| `ContinueYaml.MergeIsLiteralIff` | packages/cli/src/clients/continue.ts:126-207 | with a `models:` key, the output line by line; the input's lines below the key are its items and rest literally if and only if no blank line stands among the items and no line before the first |
| `ContinueYaml.OrphanIsLost` | packages/cli/src/clients/continue.ts:136-141 | a line between the key and the first item is not in the merged file |
| `ContinueYaml.OrphanExample` | packages/cli/src/clients/continue.ts:136-141 | a comment under the key is lost |
| `ContinueYaml.MergeWithoutKeyConservesLines` | packages/cli/src/clients/continue.ts:191-195 | without a key, the non-blank lines are the input's, or the default header for an empty file, then the new section |
| `ContinueYaml.MergeWithoutKeyIsLiteral` | packages/cli/src/clients/continue.ts:191-195 | without a key, the output line by line: the input's lines without blank ones at the end, or the default header, a blank line, the key, the block |
| `FrameStream.SplitIsTheSplit` | packages/dashboard/src/api.ts:664-665 | the pieces join to the text, each but the last ends at the first separator, and the last holds none |
| `FrameStream.SplitIsUnique` | packages/dashboard/src/api.ts:664-665 | no other list of pieces has these properties |
| `FrameStream.ChunkingDoesNotMatter` | packages/dashboard/src/api.ts:655-671 | for every way to cut a stream into chunks, even inside a separator, the frames handled are all but the last piece of the whole stream, in order |
| `FrameStream.SameStreamSameEvents` | packages/dashboard/src/api.ts:655-671 | two ways to cut the same stream deliver the same events |
| `FrameLaws.SentIsDelivered` | packages/dashboard/src/api.ts:655-673 | a stream of `data: ` frames and an unfinished rest, however it is cut: the payloads that parse are delivered in order, and the rest waits |
| `FrameLaws.DataIff` | packages/dashboard/src/api.ts:666-668 | the data of a frame is what follows `data: ` in its first line that starts so |
| `FrameLaws.KeepaliveIsSilent` | packages/dashboard/src/api.ts:666-667 | a frame without such a line delivers nothing |
| `FrameStream.TraceReader.Receive` | packages/dashboard/src/api.ts:661-670 | a chunk delivers the events of the frames it completes and leaves the unfinished text in the buffer |
| `FrameStream.TraceReader.ReadAll` | packages/dashboard/src/api.ts:655-673 | the events delivered are those of the complete frames of the whole stream; the unterminated tail is never delivered |
| `SessionRefresh.StepInv` | packages/dashboard/src/api.ts:25-110 | every turn keeps: only the refresh in the slot is unsettled, results are final, and the call counts fit where each request stands |
| `SessionRefresh.OneRefreshInFlight` | packages/dashboard/src/api.ts:25-29 | over all interleavings, at most one refresh is in flight, and it is the one in the slot |
| `SessionRefresh.JoinersSeeOneResult` | packages/dashboard/src/api.ts:25-56 | all requests that awaited the same refresh saw the result it settled with |
| `SessionRefresh.AtMostTwoCalls` | packages/dashboard/src/api.ts:58-110 | each request makes its original call at most twice |
| `SessionRefresh.SecondCallFollowsRefresh` | packages/dashboard/src/api.ts:83-96 | in every run, a second call goes back to a turn in which the request awaited a refresh that had succeeded |
| `SessionRefresh.UnauthorizedRemovesKeys` | packages/dashboard/src/api.ts:98-106 | in every run, a request that ends as Unauthorized did so in a turn that removed all four session keys |
| `SessionLaws.SuccessStores` | packages/dashboard/src/api.ts:39-48 | the turn in which a refresh succeeds stores its token, its refresh token unless empty and its expiry if given, leaves the user, settles the refresh and clears the slot |
| `SessionLaws.SuccessfulRefreshStored` | packages/dashboard/src/api.ts:28-56 | over every run, every refresh that has succeeded did so in such a turn of its own |
| `SessionLaws.FailsIff` | packages/dashboard/src/api.ts:34-52 | a refresh fails if and only if its call is refused or throws; the keys stay and the slot is cleared |
| `SessionLaws.CallCarriesStoredToken` | packages/dashboard/src/api.ts:6-9 | every call carries the token that is stored when it is made, and none if that is empty |
| `SessionLaws.ResumedCallCarriesNewToken` | packages/dashboard/src/api.ts:61-94 | a request that goes on after a refresh succeeded, before its first call or its second, sends it with the token of that refresh unless a turn in between touched the keys |
| `SessionLaws.RetryCarriesNewToken` | packages/dashboard/src/api.ts:82-94 | over every run, a second call goes back to a refresh that succeeded and carries its token, unless the page stored keys, another refresh succeeded or a request was rejected in between |
| `SessionLaws.ChangedKeysWereTouched` | packages/dashboard/src/api.ts:28-106 | the session keys change in no other turns than those three |
| `SessionLaws.RefreshStarts` | packages/dashboard/src/api.ts:28-34 | a refresh is started only when the slot is empty, which it fills; it posts the stored refresh token, and none if that is absent or empty |
| `SessionLaws.AwaitsTheSlot` | packages/dashboard/src/api.ts:28-30 | a request that begins to wait waits for the refresh in the slot |
| `SessionLaws.RefreshesEarlyIff` | packages/dashboard/src/api.ts:60-66 | a request waits for a refresh before its first call if and only if it is neither login nor refresh and the expiry is ahead, but less than five minutes |
| `SessionLaws.WaitsToRetryIff` | packages/dashboard/src/api.ts:82-84 | it waits to retry if and only if its first answer is a 401 and it is not the login |
| `SessionLaws.EndsIff` | packages/dashboard/src/api.ts:82-110 | in a turn a request returns a status, is rejected or breaks if and only if the answer, the refused refresh or the error for it comes |
| `SessionLaws.EndedBy` | packages/dashboard/src/api.ts:82-110 | over every run, every ended request goes back to such a turn |
| `SessionRefresh.StuckIffStartedWithoutToken` | packages/dashboard/src/api.ts:28-32 | in every run, the slot holds a settled refresh if and only if some refresh was started without a token |
| `SessionRefresh.NeverRefreshesAgainIffStuck` | packages/dashboard/src/api.ts:25-56 | no continuation, a new login among them, starts another refresh if and only if the slot is stuck |
| `SessionRefresh.StuckExample` | packages/dashboard/src/api.ts:28-32 | one request without a session, answered by a 401, leaves the slot stuck |
| `SessionRefresh.ApiClient.JoinRefresh` | packages/dashboard/src/api.ts:26-32 | joins the refresh in the slot or fills it, without a token with one that is settled at once |
| `SessionRefresh.ApiClient.Open` | packages/dashboard/src/api.ts:58-75 | the request goes out, or awaits a refresh if the token expires within five minutes, and the invariant holds |
| `SessionRefresh.ApiClient.OnAnswer` | packages/dashboard/src/api.ts:82-110 | a 401 on the first call awaits a refresh, on the second gives up; the invariant holds |
| `SessionRefresh.ApiClient.OnRefreshed` | packages/dashboard/src/api.ts:84-105 | the request goes on with the result of the refresh it awaited; the invariant holds |
| `SessionRefresh.ApiClient.OnTokens` | packages/dashboard/src/api.ts:40-54 | the tokens are stored, the refresh succeeds and the slot is cleared; the invariant holds |
| `SessionRefresh.ApiClient.OnRefreshError` | packages/dashboard/src/api.ts:49-53 | the refresh settles as failed and the slot is cleared; the invariant holds |
| `PermissionGuard.StepInv` | packages/cli/src/api.ts:51-159 | every turn keeps: what was sent awaited passed checks, what was posted had consent, and checks are counted by 423 answers |
| `PermissionGuard.NoCallBeforeACheck` | packages/cli/src/api.ts:138-159 | over all interleavings, every send of a non-exempt call was preceded by a check that passed, and a retry by a later one than the first send |
| `GuardLaws.CheckMoves` | packages/cli/src/api.ts:51-102 | the phases of a check, each with the only turns that lead to it, as equivalences |
| `GuardLaws.PassedGoesBack` | packages/cli/src/api.ts:74-102 | over every run, a check that has passed goes back to a status that was forbidden or clear, or to a blocked one, a yes of the operator and a fix that succeeded, in this order and all of that check; if the status was blocked, to the latter |
| `GuardLaws.FailedNeverPasses` | packages/cli/src/api.ts:79-85 | a check whose status call, prompt or fix failed is rejected and stays so |
| `GuardLaws.AnsweredOnce` | packages/cli/src/api.ts:76-79 | the status of a check is given once |
| `GuardLaws.CallGoesBack` | packages/cli/src/api.ts:138-156 | over every run, each time a guarded call is sent its check has passed before, and if that check found unsafe files the yes and the successful fix came before the call |
| `GuardLaws.EndsIff` | packages/cli/src/api.ts:145-158 | a call returns or throws in a turn if and only if the answer for it, or the rejection of its check, comes |
| `GuardLaws.RetriesIff` | packages/cli/src/api.ts:150-154 | the first 423 of a guarded call, and only that, makes it await a check that is started in that turn |
| `GuardLaws.BeginsByAwaiting` | packages/cli/src/api.ts:74-76 | a guarded call awaits the memoized check, which is started only if there is none |
| `GuardLaws.ExitsIff` | packages/cli/src/api.ts:64-67 | the process has exited if and only if some prompt was answered with no |
| `GuardLaws.WarnsIff` | packages/cli/src/api.ts:93-98 | warnings have been printed, once, if and only if some status reported them |
| `PermissionGuard.RetryAwaitsOwnCheck` | packages/cli/src/api.ts:149-155 | in every run, the check a retry awaits was started in the turn of that call's own 423, after all checks there were |
| `PermissionGuard.SentAtMostTwice` | packages/cli/src/api.ts:144-155 | each call is sent at most twice, an exempt one at most once |
| `PermissionGuard.NoFixWithoutConsent` | packages/cli/src/api.ts:49-70 | in every run, a fix posted in a check goes back to a yes to the prompt of that same check |
| `PermissionGuard.ConsentIsAYes` | packages/cli/src/api.ts:57-69 | a turn that posts a fix is the operator's yes to the prompt of that very check |
| `PermissionGuard.ChecksAreBounded` | packages/cli/src/api.ts:74-101 | status checks number at most one plus the 423 answers, and warnings are printed at most once |
| `PermissionGuard.NothingAfterExit` | packages/cli/src/api.ts:64-67 | after a no, nothing is sent, asked or posted |
| `PermissionGuard.Guard.EnsurePermissionsSafe` | packages/cli/src/api.ts:74-102 | starts a check if and only if none is memoized, and returns the memoized one |
| `PermissionGuard.Guard.OnStatus` | packages/cli/src/api.ts:77-98 | a forbidden status passes, another error rejects, a blocked one prompts, and warnings are printed if none were |
| `PermissionGuard.Guard.OnConfirm` | packages/cli/src/api.ts:57-69 | a no exits the process, a yes posts the fix of that check |
| `PermissionGuard.Guard.OnPromptError` | packages/cli/src/api.ts:57-62 | a prompt that fails rejects the memoized check, and nothing is posted |
| `PermissionGuard.Guard.OnFix` | packages/cli/src/api.ts:69 | the answer to the fix ends the check, passed or rejected |
| `PermissionGuard.Guard.OnChecked` | packages/cli/src/api.ts:145-155 | once the awaited check has passed the call is sent, and if it was rejected the call throws |
| `PermissionGuard.Guard.OnAnswer` | packages/cli/src/api.ts:147-158 | a 423 on the first attempt of a guarded call drops the memoized check and awaits a new one; every other failure throws |
| `Reorder.ReorderLoop` | packages/cli/src/commands/router.ts:533-540 | the two loops return the order that the reorder results are about |
| `Reorder.LoopSortsStably` | packages/cli/src/commands/router.ts:357-366 | for distinct ids and no existing id mentioned twice, the loops give a permutation sorted stably by rank |
| `Reorder.LoopIsStableSortIffMentionedOnce` | packages/cli/src/commands/router.ts:533-540 | for distinct ids they do so if and only if no existing id is mentioned twice |
| `Reorder.RepeatedMention` | packages/cli/src/commands/router.ts:534-537 | every repeated mention of an existing id puts its entry in twice |
| `Reorder.RankIsLast` | packages/cli/src/commands/optimizers.ts:266 | the rank of an id is the position of its last mention, and that after all mentions if it has none |
| `Reorder.FindIsFirst` | packages/cli/src/commands/router.ts:534-537 | a mention picks the first entry with its id |
| `Reorder.SortedIsUnique` | packages/cli/src/commands/optimizers.ts:264-272 | there is only one stable order by rank of the same entries, unmentioned ids last |
| `Reorder.ReorderingsAgree` | packages/cli/src/commands/optimizers.ts:263-273 | whatever the stable sort returns is what the find-then-append loops return |
| `Reorder.ReorderIsAFixedPoint` | packages/cli/src/commands/router.ts:530-540 | reordering the result the same way changes nothing |
| `OptimizerPipeline.Pipeline.constructor` | packages/cli/src/commands/optimizers.ts:227-229 | the index over the cloned steps finds the last step of every id |
| `OptimizerPipeline.Pipeline.Upsert` | packages/cli/src/commands/optimizers.ts:231-239 | returns the step the id stands for, appended switched off if there is none; places and all settings stay |
| `OptimizerPipeline.Pipeline.Configure` | packages/cli/src/commands/optimizers.ts:241-261 | the final setting of every id depends on the flags alone: disable wins over enable, the last threshold wins, the checkpoint goes to one step; existing steps keep their places and new ids come after them, once each |
| `OptimizerPipeline.SettingAfterUpdate` | packages/cli/src/commands/optimizers.ts:231-242 | writing the step an id stands for changes what that id stands for and no other |
| `AccountStore.NextFreeAlias` | packages/cli/src/commands/auth.ts:101-106 | for every base and finite alias set the loop ends after at most as many turns as there are aliases, at the first free candidate of base, base-2, base-3 and so on |
| `AccountStore.TakenAreFew` | packages/cli/src/commands/auth.ts:101-106 | no more candidates can be taken than there are aliases |
| `Decimal.DigitsInjective` | packages/cli/src/commands/auth.ts:104 | different counters print differently |
| `Decimal.DigitsAreTheNumber` | packages/cli/src/commands/auth.ts:104 | the digits printed stand for the number, without a leading zero |
| `AccountLaws.CandidatesAre` | packages/cli/src/commands/auth.ts:101-106 | the candidates are the base, base-2, base-3 and so on |
| `AccountStore.RunOk` | packages/cli/src/store.ts:87-132 | over every run of save, remove, rename, switch and login, aliases stay distinct and the current alias is null if and only if there are no accounts and otherwise names one |
| `AccountStore.CurrentAccountIff` | packages/cli/src/store.ts:76-80 | after every run there is no current account if and only if there are no accounts or the current alias is empty |
| `AccountStore.NamedRunHasCurrent` | packages/cli/src/store.ts:76-132 | a run whose saves, renames and logins bring in no empty alias has a current account as soon as it has an account |
| `AccountStore.EmptyAliasExample` | packages/cli/src/store.ts:76-80 | saving an account and renaming it to the empty alias leaves no current account |
| `AccountStore.LoginAddsUnlessOverwriting` | packages/cli/src/commands/auth.ts:111-157 | a login leaves every saved entry untouched and adds one at the end, if and only if the operator was not asked or did not choose to overwrite; overwriting replaces one entry in place |
| `AccountLaws.LoginAliasIs` | packages/cli/src/commands/auth.ts:111-155 | the alias of a login, branch by branch: kept for a known email that is overwritten, `default` for the first account, the one given if it is free or overwritten, else the first free candidate of the one given or of the email |
| `AccountLaws.LoginDoes` | packages/cli/src/commands/auth.ts:157 | the login saves email and token under that alias and leaves the account behind every other alias as it was |
| `AccountLaws.SaveDoes` | packages/cli/src/store.ts:87-100 | after a save the alias stands for the entry and every other alias for what it stood for; the selection changes only if there was none |
| `AccountLaws.RemoveDoes` | packages/cli/src/store.ts:102-112 | after a removal the alias stands for nothing and every other for what it stood for; if it was selected, the first of the others is |
| `AccountLaws.RenameDoes` | packages/cli/src/store.ts:114-124 | a rename to a free alias moves the account with all it holds, and the selection with it; otherwise nothing changes |
| `AccountLaws.SwitchDoes` | packages/cli/src/store.ts:126-132 | a switch to an alias that is there changes the selection and nothing else |
| `AccountStore.Store.SaveAccount` | packages/cli/src/store.ts:87-100 | replaces or appends the entry and activates it if none was active, keeping the invariant |
| `AccountStore.Store.RemoveAccount` | packages/cli/src/store.ts:102-112 | removes the account and moves the current alias on if it was its, keeping the invariant; false if and only if there was none |
| `AccountStore.Store.RenameAccount` | packages/cli/src/store.ts:114-124 | relabels exactly the account and the current alias, if and only if the old alias exists and the new one does not |
| `AccountStore.Store.SwitchAccount` | packages/cli/src/store.ts:126-132 | switches if and only if the alias exists |
| `AccountStore.Store.LogInAs` | packages/cli/src/commands/auth.ts:111-157 | the branches choose the alias that `AccountStore.LoginAddsUnlessOverwriting` is about, and the save keeps the invariant |
| `Drag.Moved` | packages/dashboard/src/components/OptimizerStepsEditor.tsx:273-277 | the row lands at the target and the other rows keep their order |
| `Drag.MovedTwice` | packages/dashboard/src/components/OptimizerStepsEditor.tsx:270-281 | moving on from where a row was dropped is moving there directly |
| `Drag.DragList.OnDragEnter` | packages/dashboard/src/components/RoutingPoliciesEditor.tsx:179-190 | the two splices move the dragged row to the target and the index follows; without a drag nothing changes |
| `Drag.DragList.DragOver` | packages/dashboard/src/components/OptimizerStepsEditor.tsx:261-281 | after any run of drag-enter steps the list is the original with the row taken out and put back at the last target, and the index points at it |
| `Drag.ModelIdsReadBack` | packages/dashboard/src/components/RoutingPoliciesEditor.tsx:123-136 | a stored model list reads back if and only if its first id is not empty |
| `Drag.DraggedModelsFollow` | packages/dashboard/src/components/RoutingPoliciesEditor.tsx:148-160 | for non-empty ids the whole gesture, storing and reading at each step, moves one id to the last target |
| `Calendar.GetCalendarDays` | packages/dashboard/src/components/DateRangePicker.tsx:18-27 | the loops build whole weeks for the year the `Date` constructor takes the argument for: empty cells up to the first weekday, every day in order, and fewer than seven empty cells after |
| `Calendar.GridHoldsEachDayOnce` | packages/dashboard/src/components/DateRangePicker.tsx:18-27 | every day of the grid's month is in it exactly once, in its own weekday column, and no other day is |
| `Calendar.GridIsOfMonthShownIff` | packages/dashboard/src/components/DateRangePicker.tsx:19-24 | the grid is that of the month shown if and only if the year is not one of 0 to 99 |
| `Calendar.NextDayIsNext` | packages/dashboard/src/components/DateRangePicker.tsx:19-21 | the day numbers behind the weekdays advance by one per day, across the ends of months and leap years |
| `Calendar.ColumnsAdvance` | packages/dashboard/src/components/DateRangePicker.tsx:21 | each day is one weekday column after the day before, and the epoch is a Thursday |
| `Calendar.WeekdaysRepeat` | packages/dashboard/src/components/DateRangePicker.tsx:19-21 | 400 years are 146097 days, a whole number of weeks, so the weekdays repeat |
| `Calendar.MonthLengths` | packages/dashboard/src/components/DateRangePicker.tsx:20 | the lengths of the twelve months |
| `PrintedDays.FmtOrderIff` | packages/dashboard/src/components/DateRangePicker.tsx:29-33 | for any two days, of any years, the strings compare as the days do if and only if the years are equal or print in order |
| `PrintedDays.FmtReadsBack` | packages/dashboard/src/components/DateRangePicker.tsx:29-33 | a day of the years 1000 to 9999 prints as four digits, two and two, which stand for its year, its month from 1 and its day |
| `PrintedDays.FmtOrder` | packages/dashboard/src/components/DateRangePicker.tsx:29-33 | for years 1000 to 9999, string order of printed days is chronological order and equal strings are equal days |
| `PrintedDays.AtLastMonthIsRightIff` | packages/dashboard/src/components/DateRangePicker.tsx:295-297 | for every year shown, the test for the last month is right if and only if that year is today's or prints in order with it |
| `PrintedDays.MonthOrder` | packages/dashboard/src/components/DateRangePicker.tsx:297 | for years 1000 to 9999, the month shown compares before today's string if and only if it is an earlier month |
| `PrintedDays.MonthOrderBelow1000` | packages/dashboard/src/components/DateRangePicker.tsx:297 | for years 0 to 999 the month shown compares as earlier if and only if the year is not above the leading digits of today's year, cut to its width |
| `PrintedDays.MonthOrderExample` | packages/dashboard/src/components/DateRangePicker.tsx:297 | in 2024, the year 202 compares as earlier and the year 203 does not |
| `DatePicker.PairIsChronologicalIff` | packages/dashboard/src/components/DateRangePicker.tsx:229-244 | the two strings of a completed pair stand for two days, neither after today, in order if and only if their years are equal or print in order |
| `DatePicker.PairIsChronological` | packages/dashboard/src/components/DateRangePicker.tsx:229-244 | for years 1000 to 9999 a pair in string order is a pair of days in order |
| `DatePicker.ReversedPairExample` | packages/dashboard/src/components/DateRangePicker.tsx:238 | in 2024 a day of the year 1000 and one of the year 150 can both be clicked, and are then ordered the wrong way round |
| `DatePicker.SelectableIff` | packages/dashboard/src/components/DateRangePicker.tsx:467-495 | of the days a grid can show, those can be clicked that are not in the future and whose year prints in order with today's |
| `DatePicker.TodayIsLast` | packages/dashboard/src/components/DateRangePicker.tsx:297 | when today's month is shown the test for the last month always stops the next step |
| `DatePicker.RunAgrees` | packages/dashboard/src/components/DateRangePicker.tsx:195-289 | over every run from any start, the ends are what the run's own events say: picked, and then not in the future and as a completed pair in string order, or the range given last, cut to ten characters; the month shown never passes today's |
| `DatePicker.ClicksAndMonths` | packages/dashboard/src/components/DateRangePicker.tsx:219-244 | after any run of clicks, month steps and midnights, either the ends are those of the start, or they are picked: no end lies in the future and a completed pair is in string order |
| `DatePicker.StaysPicked` | packages/dashboard/src/components/DateRangePicker.tsx:219-271 | once picked, ends of four-digit years stay picked until another range is adopted, through any number of confirms |
| `DatePicker.ConfirmedDayIff` | packages/dashboard/src/components/DateRangePicker.tsx:195-254 | confirming gives an end back as it was if and only if it is absent or ten characters long |
| `DatePicker.ConfirmExample` | packages/dashboard/src/components/DateRangePicker.tsx:246-271 | in 2024 a day of the year 150 can be clicked, and after confirming neither end is that day |
| `DatePicker.DateRangePicker.ShowPrevMonth` | packages/dashboard/src/components/DateRangePicker.tsx:219-222 | one month back, across the year and without a limit, keeping the picker valid |
| `DatePicker.DateRangePicker.ShowNextMonth` | packages/dashboard/src/components/DateRangePicker.tsx:223-227 | one month on, unless today's month is shown or the year does not print in order, never past today's, keeping the picker valid |
| `DatePicker.DateRangePicker.HandleDayClick` | packages/dashboard/src/components/DateRangePicker.tsx:229-244 | a first click starts a range; a second completes it with the two clicked days in string order; the ends count as picked |
| `DatePicker.DateRangePicker.ClickDay` | packages/dashboard/src/components/DateRangePicker.tsx:467-495 | a day that cannot be selected changes nothing; after any other the ends are picked, not in the future and as a pair in order |
| `DatePicker.DateRangePicker.AdoptRange` | packages/dashboard/src/components/DateRangePicker.tsx:195-201 | the ends become those of a value from outside, cut to ten characters, and that value is their source |
| `DatePicker.DateRangePicker.HandleConfirm` | packages/dashboard/src/components/DateRangePicker.tsx:246-271 | hands over each end as the day, `T` and the time, or nothing without a day; each end stays as it is if and only if it is absent or ten characters long, a single day standing for both ends; picked ends that stay remain picked |
| `DatePicker.FmtIsTenIff` | packages/dashboard/src/components/DateRangePicker.tsx:32 | a printed day has ten characters if and only if its year prints with four |
| `DatePicker.FmtIsTen` | packages/dashboard/src/components/DateRangePicker.tsx:32 | the years 1000 to 9999 are of that kind |
| `DatePicker.DateRangePicker.Play` | packages/dashboard/src/components/DateRangePicker.tsx:195-289 | the component ends every run in the state, and with the source of its ends, that `DatePicker.RunAgrees` is about |

## Left out

- DatePicker.RunAgrees: promises nothing about the days of a range given from outside (a stored value, a preset), which the code takes over unchecked; hover only renders.
- SafeFileProgram.Machine.BackupFile: the disk is a value of the model, so this and the other methods of the machine are ghost, and the content each call writes comes from the protocol.
- SafeFileTheorems.UndoRestores: speaks of text and existence; an undo restores the mode that the target has at that time (`SafeFileMode.WriteKeepsMode`), not the one it had at the backup, as the code does.
- FrameStream.TraceReader.ReadAll: decoded text only; how `TextDecoder` joins bytes across chunks is not part of this model.
- SessionRefresh.AtMostTwoCalls: counts the calls of `request`; other headers than the bearer token, the 423 event and the redirect to the login page are left out.
- PermissionGuard.Guard.Request: whether a path is on the list of exempt ones is an input of the call.
- DatePicker.DateRangePicker.HandleConfirm: the times arrive with their seconds, and the label of the range is left out.
- AccountStore.RunOk: one process at a time; two command-line processes that read and write the file at once may lose an update.
- Short writes, lossy UTF-8 and file-system races outside the listed calls.
- `listBackups`, `messageText`, `promptText`, `mergeOptimizerRows`, `buildOptimizerSteps`: filters and maps, easy members.
- The command line's own `trySilentRefresh`: its save is the `Save` of the account store; the rest is one request.
- The threshold flag's text parsing and its error exits, which happen before anything is saved.
- The semantic model list, which stores an array without a primary.
- TOML and YAML beyond lines: multi-line strings, flow arrays, comments inside the array, unindented list items.
- React rendering, styling, translations, HTTP, JSON, Commander and inquirer.
- The routing engine, budgets, resilience and the optimizers themselves, and `claude-code.ts`, `opencode.ts`, `manual.ts`, `LimitRowsEditor.tsx`, `SecurityRulesEditor.tsx`, `experiments.ts`.
