# ModsBeforeFriday site: mod-management coordination, modelled in Dafny

ModsBeforeFriday's web app manages Beat Saber mods on a Quest headset over ADB.
This project models the coordination rules inside its mod-manager and options
components, and proves properties of them:

- **The import queue** (`importQueue`, `isProcessingQueue`, `enqueueImports`).
  Every add-mods menu shares one backlog. The first caller takes a
  single-flight flag and drains the backlog. The drain pops from the end, so
  processing is last-in first-out. It stops when the backlog is empty or the
  device disconnects. `ImportQueue.ImportQueue` is a class over the backlog and
  the flag. The drain loop is proved against `DrainRun`, a function that
  states it. Other callers' enqueues arrive between loop turns as the input
  `arrivals`.
- **One import job** (`handleFileImport`, `handleUrlImport`, `onImportResult`,
  `onModImported`). The agent's answers are an input (`AgentReply`). What a job
  does is an output (`Effect`): the device requests it makes, the mod lists it
  shows, and the report the user sees. Exceptions are values; `HandleImport`
  catches them as the source does.
- **The installed-mods menu**. The change set is last-write-wins. It is a
  plain JavaScript object, so `id in changes` also holds for the names it
  inherits from `Object.prototype` (`constructor`, `toString`, ...), and a
  toggle of `__proto__` adds no entry; `ModSync` models both. The sync
  button sends the whole set, empties it, and checks the device's answer
  against it (`allSuccesful`).
- **`sortById`**: an in-place array sort by JavaScript string order, which
  compares UTF-16 code units (a character above U+FFFF counts as its surrogate pair).
- **`logcatToBlob`**: clear the log, spawn `logcat`, and read until the stream
  ends. The process is killed once, when cancellation is first seen, and
  reading goes on after the kill. The method returns the blob and a trace of
  its device requests. The trace is proved equal to a closed form.
- **The ADB log panel** (`AdbLogger`): a class holding `logging`, `logFile`,
  `waitingForLog` and the capture's `cancelled` flag.

The agent calls (`importFile`, `importUrl`, `setModStatuses`, `removeMod`) and
the ADB subprocess calls are inputs or recorded outputs. `trimGameVersion` is a
function parameter `trim`. A session's disconnect is an input,
`disconnectedAfter(k)`: whether the flag was set by the time job k finished.
The flag is set by a promise callback, which cannot run before the loop's
first test. So the first test never sees a disconnect, and a drain of a
non-empty backlog always processes at least one job.

Files: `wrappers.dfy` (Option, Result), `mods.dfy`, `imports.dfy`,
`import_queue.dfy`, `mod_sync.dfy`, `mod_order.dfy`, `logcat.dfy`,
`adb_logger.dfy`.

## Model

| member | source | states |
|---|---|---|
| Mods.FindFrom | mbf-site/src/components/ModManager.tsx:240 | the index found holds the id, and no earlier index from the start does; `None` only when no mod from the start has the id |
| Mods.FindById | mbf-site/src/components/ModManager.tsx:240 | `find` returns the first mod with the id; it returns nothing exactly when no mod has it |
| Imports.OnModImported | mbf-site/src/components/ModManager.tsx:236-249 | the returned list is shown first. A missing id: no request, and the error propagates. Activation is requested iff the mod's game version is null or equals the target, as one request `{id: true}`. On success the mods are replaced by its answer and the install is announced. On mismatch the error names the id and the trimmed version. A failed activation propagates |
| Imports.OnImportResult | mbf-site/src/components/ModManager.tsx:252-263 | file copies and songs issue no request, change no mod list and give their own notice; every other result is exactly `OnModImported` |
| Imports.Caught | mbf-site/src/components/ModManager.tsx:266-271 | whatever reaches the `catch` becomes a report; a report passes unchanged |
| Imports.HandleImport | mbf-site/src/components/ModManager.tsx:265-285 | every job ends in a report. A `file:///` URL is rejected with no device request. Any other job makes its import request first, then only status requests. A failed import is reported and changes nothing. A returned result is classified, and what classification throws is reported |
| Imports.VersionMismatchExample | mbf-site/src/components/ModManager.tsx:241-244 | a 1.28.0 mod under target 1.29.0: no request, and the advisory names the trimmed 1.29.0 |
| Imports.ActivationExample | mbf-site/src/components/ModManager.tsx:241-247 | a mod for the target version, or for no version, gets exactly `{id: true}` and the answer is shown |
| ImportQueue.DrainStep | mbf-site/src/components/ModManager.tsx:302-304 | one loop turn takes the backlog's last job, then continues from the rest plus what arrived meanwhile |
| ImportQueue.DrainResumes | mbf-site/src/components/ModManager.tsx:302-311 | the drain loop's invariant (the processed jobs plus the run from the current backlog make the whole run) survives one turn |
| ImportQueue.HandledNext | mbf-site/src/components/ModManager.tsx:305-311 | handling one more job keeps each report paired with its job and that job's reply |
| ImportQueue.DrainExit | mbf-site/src/components/ModManager.tsx:302-314 | the drain leaves jobs behind only when a disconnect is seen at exit, and no disconnect was seen at any earlier test |
| ImportQueue.DrainEmptiesConnectedBacklog | mbf-site/src/components/ModManager.tsx:302 | a session that stays connected drains everything, including jobs that arrive while it runs |
| ImportQueue.DrainKeepsEveryJob | mbf-site/src/components/ModManager.tsx:289-304 | processed plus remaining jobs equal, as a multiset, the backlog plus the jobs that arrived during the run: nothing lost or duplicated |
| ImportQueue.DrainIsLastInFirstOut | mbf-site/src/components/ModManager.tsx:304 | with no arrivals, the backlog is the remaining jobs followed by the processed jobs reversed |
| ImportQueue.FirstJobAlwaysRuns | mbf-site/src/components/ModManager.tsx:299-304 | a drain of a non-empty backlog processes at least one job, the last one enqueued, even if the session is already lost |
| ImportQueue.LaterArrivalCutsIn | mbf-site/src/components/ModManager.tsx:289-304 | enqueue [A, B], then [C] while B runs: the order is B, C, A |
| ImportQueue.DisconnectTruncates | mbf-site/src/components/ModManager.tsx:299-304 | backlog [A, B, C] with the session lost during the first job: C is processed, and A and B stay queued |
| ImportQueue.ImportQueue.constructor | mbf-site/src/components/ModManager.tsx:220-221 | the backlog starts empty and the flag clear |
| ImportQueue.ImportQueue.Enqueue | mbf-site/src/components/ModManager.tsx:289-297 | jobs are appended in order. The caller drives iff no drain was running, and afterwards a drain is running |
| ImportQueue.ImportQueue.Drain | mbf-site/src/components/ModManager.tsx:299-314 | the order processed and the backlog left are exactly `DrainRun` of the starting backlog. Each report is the handling of its job with that job's reply. The flag is released |
| ImportQueue.ImportQueue.EnqueueImports | mbf-site/src/components/ModManager.tsx:287-315 | a caller finding a drain running processes nothing and leaves its jobs queued; otherwise it drains the backlog with its jobs appended and releases the flag |
| ModSync.WithToggle | mbf-site/src/components/ModManager.tsx:173-177 | a toggle maps the mod to the new state, adding only that key, and leaves every other entry unchanged; a toggle of `__proto__` changes nothing, so a change set without that entry never gains one |
| ModSync.LastToggleWins | mbf-site/src/components/ModManager.tsx:173-177 | toggling one mod twice leaves only the second choice |
| ModSync.TogglesCommute | mbf-site/src/components/ModManager.tsx:173-177 | toggles of different mods commute |
| ModSync.AllSuccessful | mbf-site/src/components/ModManager.tsx:139-144 | the flag is false iff some returned mod fails the check: its id is an entry of the change set with another state, or a name the change set inherits and does not hold |
| ModSync.MismatchExample | mbf-site/src/components/ModManager.tsx:139-144 | asking A on and B off, with the device leaving both on, is a mismatch |
| ModSync.OnlyRequestedModsCount | mbf-site/src/components/ModManager.tsx:141 | a returned mod whose id the change set neither holds nor inherits never affects the verdict |
| ModSync.InheritedIdAlwaysMismatches | mbf-site/src/components/ModManager.tsx:141 | a returned mod whose id is an inherited name the change set does not hold always makes the check fail |
| ModSync.InheritedIdExample | mbf-site/src/components/ModManager.tsx:139-144 | asking `a` on, a returned `constructor` mod makes the check fail, though `a` alone passes |
| ModSync.InstalledModsMenu.constructor | mbf-site/src/components/ModManager.tsx:129 | the change set starts empty, with no `__proto__` entry |
| ModSync.InstalledModsMenu.OnEnabledChanged | mbf-site/src/components/ModManager.tsx:173-177 | the change set becomes `WithToggle` of the old one and keeps having no `__proto__` entry; nothing else changes |
| ModSync.InstalledModsMenu.Sync | mbf-site/src/components/ModManager.tsx:133-156 | the request is the whole change set, which is emptied. On success the answer is always stored, and the mismatch error is raised iff `Unfulfilled`. On failure the error is shown and the mods are kept. The busy modal is closed on every path |
| ModSync.InstalledModsMenu.OnRemoved | mbf-site/src/components/ModManager.tsx:159-172 | the removal requested is of the card's own mod, one of those displayed; the answer replaces the mods, or the error is shown; the change set is untouched and the busy modal closed |
| ModOrder.Utf16Injective | mbf-site/src/components/ModManager.tsx:360-362 | two ids with the same UTF-16 code units are the same id |
| ModOrder.IdLessIrreflexive | mbf-site/src/components/ModManager.tsx:360-362 | no id is less than itself |
| ModOrder.IdLessAsymmetric | mbf-site/src/components/ModManager.tsx:360-362 | two ids are never less than each other |
| ModOrder.IdLessTotal | mbf-site/src/components/ModManager.tsx:360-362 | two different ids are ordered one way or the other |
| ModOrder.IdLessTransitive | mbf-site/src/components/ModManager.tsx:360-362 | string order is transitive |
| ModOrder.SurrogatePairSortsLow | mbf-site/src/components/ModManager.tsx:360-362 | U+1F600 sorts before U+FF01, as its first code unit U+D83D is smaller, though its code point is larger |
| ModOrder.CompareById | mbf-site/src/components/ModManager.tsx:359-367 | the comparator is 0 iff the ids are equal, 1 iff the first id is greater by UTF-16 code units, and -1 iff it is smaller |
| ModOrder.CompareAntisymmetric | mbf-site/src/components/ModManager.tsx:359-367 | swapping the arguments negates the comparator |
| ModOrder.CompareTransitive | mbf-site/src/components/ModManager.tsx:359-367 | the comparator's "not after" is transitive |
| ModOrder.SortById | mbf-site/src/components/ModManager.tsx:358-368 | the array ends sorted by the comparator and is a permutation of what it held |
| ModOrder.Insert | mbf-site/src/components/ModManager.tsx:358-368 | one insertion step extends the sorted prefix by one element and permutes the array |
| Logcat.FirstCancelled | mbf-site/src/components/OptionsMenu.tsx:169 | the poll at which the kill happens lies within the chunks read |
| Logcat.FirstCancelledIsFirst | mbf-site/src/components/OptionsMenu.tsx:169-173 | that poll saw cancellation and no earlier poll did; there is none iff no poll saw cancellation |
| Logcat.LogcatToBlob | mbf-site/src/components/OptionsMenu.tsx:146-178 | the requests are exactly `LogcatTrace`. At the end of the stream the blob is every chunk in order; a read error rejects with that error |
| Logcat.KillAtMostOnce | mbf-site/src/components/OptionsMenu.tsx:153-173 | `kill()` is requested at most once, and exactly once iff some poll saw cancellation |
| Logcat.ReadsEveryChunk | mbf-site/src/components/OptionsMenu.tsx:159-174 | there are as many reads as chunks plus one, for the end: cancellation never stops the reading |
| Logcat.KillThenDrain | mbf-site/src/components/OptionsMenu.tsx:159-174 | the kill comes right after the read of the first chunk whose poll saw cancellation, and at least one read follows it |
| Logcat.EndBeforeCancelNoKill | mbf-site/src/components/OptionsMenu.tsx:161-169 | a stream that ends before any poll sees cancellation is never killed |
| Logcat.CaptureOrder | mbf-site/src/components/OptionsMenu.tsx:150-160 | clear comes first, the spawn second and a read third; the last request is a read; everything after the spawn is a read or the kill |
| Logcat.CancelAfterTwoChunks | mbf-site/src/components/OptionsMenu.tsx:157-177 | chunks x, y, then cancellation, then z: the blob is "xyz" and the kill follows y's read |
| LogCapture.AdbLogger.constructor | mbf-site/src/components/OptionsMenu.tsx:180-183 | no capture, no log, no notice |
| LogCapture.AdbLogger.NoticeShown | mbf-site/src/components/OptionsMenu.tsx:218 | the wait notice is shown only when not capturing, while a stopped capture drains; a capturing panel never shows it |
| LogCapture.AdbLogger.StartLogging | mbf-site/src/components/OptionsMenu.tsx:185-193 | starting (only when not capturing) drops the previous log, clears the notice and gives the capture a fresh flag; the panel is capturing |
| LogCapture.AdbLogger.StopLogging | mbf-site/src/components/OptionsMenu.tsx:202-205 | stopping sets `cancelled` and shows the notice; a capturing panel now waits for the drain |
| LogCapture.AdbLogger.CaptureSettled | mbf-site/src/components/OptionsMenu.tsx:194-199 | a finished capture stores its log and clears the notice, which ends the wait; a failed capture changes nothing |

## Left out

- React rendering, menus, modals, toasts, console output and message texts, except the sync-mismatch text. Each report is a `Notice` value instead.
- The busy spinner of the add-mods menu (`setWorking` around the drain). It is UI only.
- `ModRepoBrowser.onDownload`. It bypasses the queue, and its classification is `OnImportResult`.
- `importFile`, `importUrl`, `setModStatuses`, `removeMod` and `trimGameVersion` are not part of this model. Their results are inputs.
- The ADB transport: spawning, `spawnAndWait`, `kill`, `stdout.read` and the disconnect promise. The stream is a chunk sequence plus how it ends. A failing spawn, clear or kill is not modelled.
- `decodeUtf8` and `Blob`: chunks are strings, and the blob is their concatenation.
- Real asynchronous interleaving. Other callers' enqueues are `arrivals`, applied between loop turns. Replies are indexed by the job's position in the drain.
- Imports.OnModImported: for an imported id missing from the returned list, the source's unchecked `find(...)!` dereference throws. It is modelled as a failure caught by the job's handler. No other consequence of the exception is modelled.
- LogCapture.AdbLogger.CaptureSettled: a completion is not tagged with the capture it belongs to. A previous capture that settles after a restart is treated like any other.
- ModOrder.SortById: the engine's sort algorithm is unspecified. An insertion sort stands for it, and only the result (sorted, a permutation) is claimed.
- The `ModTools` and `RepatchMenu` actions of the options menu. They are thin wrappers over device calls.
