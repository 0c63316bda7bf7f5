/**
 * One import job, from the call into the agent to the user-facing report:
 * `handleFileImport`, `handleUrlImport`, `onImportResult` and `onModImported`
 * of the add-mods menu.
 *
 * The agent calls (`importFile`, `importUrl`, `setModStatuses`) are not part of
 * this model: their answers are an input (`AgentReply`), and what the job asks
 * of the agent is an output (`Effect.calls`). A thrown error is a value.
 */
module Imports {
  import opened Wrappers
  import opened Mods

  /** A queued import: a dropped or uploaded file (identified by its name) or a dropped URL. */
  datatype Job = FileJob(file: string) | UrlJob(url: string)

  /** The typed part of an import result. */
  datatype ImportResultType =
    | ImportedMod(installedMods: seq<Mod>, importedId: string)
    | ImportedFileCopy(copiedTo: string, modId: string)
    | ImportedSong

  datatype ImportResult = ImportResult(usedFilename: string, result: ImportResultType)

  /**
   * What the agent does with one job: the import call throws, or it returns a
   * result; `statusReply` is what the follow-up `setModStatuses` call would give
   * (its mod list, or the error it throws), used only when that call is made.
   */
  datatype AgentReply =
    | ImportThrew(message: string)
    | ImportReturned(result: ImportResult, statusReply: Result<seq<Mod>, string>)

  /** A request the job sends to the device. */
  datatype DeviceCall =
    | ImportFileCall(file: string)
    | ImportUrlCall(url: string)
    | SetModStatusesCall(changes: ChangeSet)

  /** Why a job's processing threw. */
  datatype Failure =
    | AgentFailed(message: string)
    | ImportedModMissing(importedId: string)  // `find(...)!` gave `undefined`: a TypeError follows

  /** What the user is shown for one job (a toast, a log line or the error modal). */
  datatype Notice =
    | FileCopied(filename: string, copiedTo: string, modId: string)
    | SongImported(filename: string)
    | NotEnabledForVersion(importedId: string, trimmedGameVersion: string)
    | ModInstalled(importedId: string, version: string)
    | ImportFailed(failure: Failure)
    | LocalFileRejected

  /** How the processing of a job ended: with a report, or with an exception still propagating. */
  datatype Outcome = Reported(notice: Notice) | Threw(failure: Failure)

  /**
   * Everything a job does, in order: its device requests, the arguments of its
   * `setMods` calls (each replaces the displayed mod list), and how it ended.
   */
  datatype Effect = Effect(calls: seq<DeviceCall>, modUpdates: seq<seq<Mod>>, outcome: Outcome)

  /** URLs dragged from a browser's downloads list; they cannot be fetched. */
  const LocalFilePrefix := "file:///"

  /** The version gate stated positively: the mod declares no game version, or the targeted one. */
  predicate DesignedFor(m: Mod, gameVersion: string)
  {
    m.gameVersion == None || m.gameVersion == Some(gameVersion)
  }

  /**
   * `onModImported`: show the new mod list, then enable the imported mod if the
   * version gate lets it through. `trim` is `trimGameVersion`.
   */
  function OnModImported(installedMods: seq<Mod>, importedId: string, gameVersion: string,
                         trim: string -> string, statusReply: Result<seq<Mod>, string>): (r: Effect)
    // the list the import returned is shown first, whatever follows
    ensures |r.modUpdates| >= 1 && r.modUpdates[0] == installedMods
    // a missing imported id is fatal: nothing is requested and the error propagates
    ensures FindById(installedMods, importedId).None? ==>
              r.calls == [] && r.modUpdates == [installedMods] && r.outcome == Threw(ImportedModMissing(importedId))
    // activation is requested exactly when the mod is present and passes the version gate ...
    ensures r.calls != [] <==>
              FindById(installedMods, importedId).Some? && DesignedFor(FindById(installedMods, importedId).value, gameVersion)
    // ... and then it is one request enabling just the imported mod
    ensures r.calls != [] ==> r.calls == [SetModStatusesCall(map[importedId := true])]
    // when the gate fails the user is told which mod and which (trimmed) version
    ensures FindById(installedMods, importedId).Some? && !DesignedFor(FindById(installedMods, importedId).value, gameVersion) ==>
              r.modUpdates == [installedMods] && r.outcome == Reported(NotEnabledForVersion(importedId, trim(gameVersion)))
    // after a successful activation the mods are replaced by the device's answer
    ensures r.calls != [] && statusReply.Ok? ==>
              r.modUpdates == [installedMods, statusReply.value]
              && r.outcome == Reported(ModInstalled(importedId, FindById(installedMods, importedId).value.version))
    // a failed activation propagates; the import itself is not undone
    ensures r.calls != [] && statusReply.Err? ==>
              r.modUpdates == [installedMods] && r.outcome == Threw(AgentFailed(statusReply.error))
  {
    match FindById(installedMods, importedId)
    case None => Effect([], [installedMods], Threw(ImportedModMissing(importedId)))
    case Some(m) =>
      if m.gameVersion.Some? && gameVersion != m.gameVersion.value then
        Effect([], [installedMods], Reported(NotEnabledForVersion(importedId, trim(gameVersion))))
      else
        var request := [SetModStatusesCall(map[importedId := true])];
        match statusReply
        case Ok(updated) => Effect(request, [installedMods, updated], Reported(ModInstalled(importedId, m.version)))
        case Err(e) => Effect(request, [installedMods], Threw(AgentFailed(e)))
  }

  /** `onImportResult`: the three-way split on the result's type. */
  function OnImportResult(importResult: ImportResult, gameVersion: string, trim: string -> string,
                          statusReply: Result<seq<Mod>, string>): (r: Effect)
    // copied files and songs change no mod state and issue no request
    ensures !importResult.result.ImportedMod? ==> r.calls == [] && r.modUpdates == [] && r.outcome.Reported?
    ensures importResult.result.ImportedFileCopy? ==>
              r.outcome.notice == FileCopied(importResult.usedFilename, importResult.result.copiedTo, importResult.result.modId)
    ensures importResult.result.ImportedSong? ==> r.outcome.notice == SongImported(importResult.usedFilename)
    // everything else is an imported mod
    ensures importResult.result.ImportedMod? ==>
              r == OnModImported(importResult.result.installedMods, importResult.result.importedId, gameVersion, trim, statusReply)
  {
    var filename := importResult.usedFilename;
    match importResult.result
    case ImportedFileCopy(copiedTo, modId) => Effect([], [], Reported(FileCopied(filename, copiedTo, modId)))
    case ImportedSong => Effect([], [], Reported(SongImported(filename)))
    case ImportedMod(installedMods, importedId) => OnModImported(installedMods, importedId, gameVersion, trim, statusReply)
  }

  /** The import request a job sends. */
  function ImportCall(job: Job): DeviceCall
  {
    match job
    case FileJob(file) => ImportFileCall(file)
    case UrlJob(url) => ImportUrlCall(url)
  }

  predicate IsLocalFileUrl(job: Job)
  {
    job.UrlJob? && StartsWith(job.url, LocalFilePrefix)
  }

  /** The `catch` around a job: an error that reaches it becomes a failure toast. */
  function Caught(o: Outcome): (r: Outcome)
    ensures r.Reported?
    ensures o.Reported? ==> r == o
  {
    match o
    case Reported(_) => o
    case Threw(f) => Reported(ImportFailed(f))
  }

  /** `handleFileImport` / `handleUrlImport`: one queued job with the agent's reply to it. */
  function HandleImport(job: Job, reply: AgentReply, gameVersion: string, trim: string -> string): (r: Effect)
    // every job ends in its own report; no error escapes to the queue
    ensures r.outcome.Reported?
    // a `file:///` URL is rejected without asking the device anything
    ensures IsLocalFileUrl(job) ==> r == Effect([], [], Reported(LocalFileRejected))
    // any other job makes its import request first, and exactly once
    ensures !IsLocalFileUrl(job) ==> |r.calls| >= 1 && r.calls[0] == ImportCall(job)
    ensures !IsLocalFileUrl(job) ==> forall k :: 1 <= k < |r.calls| ==> r.calls[k].SetModStatusesCall?
    // a failed import is reported as such and changes nothing
    ensures !IsLocalFileUrl(job) && reply.ImportThrew? ==>
              r == Effect([ImportCall(job)], [], Reported(ImportFailed(AgentFailed(reply.message))))
    // a returned result is classified; what the classification throws is reported
    ensures !IsLocalFileUrl(job) && reply.ImportReturned? ==>
              var inner := OnImportResult(reply.result, gameVersion, trim, reply.statusReply);
              r.calls == [ImportCall(job)] + inner.calls && r.modUpdates == inner.modUpdates
              && r.outcome == Caught(inner.outcome)
  {
    if IsLocalFileUrl(job) then Effect([], [], Reported(LocalFileRejected))
    else
      match reply
      case ImportThrew(message) => Effect([ImportCall(job)], [], Reported(ImportFailed(AgentFailed(message))))
      case ImportReturned(importResult, statusReply) =>
        var inner := OnImportResult(importResult, gameVersion, trim, statusReply);
        Effect([ImportCall(job)] + inner.calls, inner.modUpdates, Caught(inner.outcome))
  }

  /** A mod made for 1.28.0 is left disabled while 1.29.0 is targeted, and the advisory names 1.29.0. */
  lemma VersionMismatchExample(trim: string -> string, statusReply: Result<seq<Mod>, string>)
    ensures var stale := Mod("a", "1.0.0", Some("1.28.0"), false);
            OnModImported([stale], "a", "1.29.0", trim, statusReply)
              == Effect([], [[stale]], Reported(NotEnabledForVersion("a", trim("1.29.0"))))
  {
    var stale := Mod("a", "1.0.0", Some("1.28.0"), false);
    assert FindById([stale], "a") == Some(stale);
  }

  /** A mod made for the targeted version, or for no version, is enabled with `{id: true}`. */
  lemma ActivationExample(trim: string -> string, updated: seq<Mod>)
    ensures var m := Mod("a", "1.0.0", Some("1.29.0"), false);
            OnModImported([m], "a", "1.29.0", trim, Ok(updated))
              == Effect([SetModStatusesCall(map["a" := true])], [[m], updated], Reported(ModInstalled("a", "1.0.0")))
    ensures var m := Mod("a", "1.0.0", None, false);
            OnModImported([m], "a", "1.29.0", trim, Ok(updated))
              == Effect([SetModStatusesCall(map["a" := true])], [[m], updated], Reported(ModInstalled("a", "1.0.0")))
  {
    var m := Mod("a", "1.0.0", Some("1.29.0"), false);
    assert FindById([m], "a") == Some(m);
    var n := Mod("a", "1.0.0", None, false);
    assert FindById([n], "a") == Some(n);
  }
}
