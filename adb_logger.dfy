/**
 * The state of the ADB log panel (`AdbLogger`): the capture toggle, the
 * finished log, the "please wait" notice, and the `cancelled` flag that the
 * running capture polls.
 */
module LogCapture {
  import opened Wrappers

  /** Idle, capturing, or stopped and waiting for the capture to drain. */
  datatype Phase = Idle | Capturing | DrainingAfterCancel

  class AdbLogger {
    /** `logging`: the Start/Stop button's state. */
    var logging: bool
    /** `logFile`: the last finished log, offered for download. */
    var logFile: Option<string>
    /** `waitingForLog`: the "please wait" notice. */
    var waitingForLog: bool
    /** The `cancelled` variable of the current capture: what its `getCancelled` callback returns. */
    var cancelled: bool

    /**
     * The panel's invariant, kept by every button and every settling capture:
     * a running capture is neither cancelled nor waited for.
     */
    predicate Valid()
      reads this
    {
      logging ==> !cancelled && !waitingForLog
    }

    /** Whether "Please wait while the log file generates" is shown: never while capturing. */
    function NoticeShown(): (r: bool)
      requires Valid()
      reads this
      ensures r ==> !logging && CurrentPhase() == DrainingAfterCancel
      ensures CurrentPhase() == Capturing ==> !r
    {
      waitingForLog
    }

    function CurrentPhase(): Phase
      reads this
    {
      if logging then Capturing else if waitingForLog then DrainingAfterCancel else Idle
    }

    constructor ()
      ensures Valid() && CurrentPhase() == Idle
      ensures !logging && logFile == None && !waitingForLog && !cancelled
    {
      logging := false;
      logFile := None;
      waitingForLog := false;
      cancelled := false;
    }

    /**
     * "Start Logging": the effect runs only when `logging` changes; it drops the
     * previous log, clears the notice and starts a capture with a fresh flag.
     */
    method StartLogging()
      requires Valid()
      modifies this
      ensures Valid()
      ensures old(logging) ==> logging == old(logging) && logFile == old(logFile)
                               && waitingForLog == old(waitingForLog) && cancelled == old(cancelled)
      ensures !old(logging) ==> logging && logFile == None && !waitingForLog && !cancelled
      ensures CurrentPhase() == Capturing
    {
      if !logging {
        logging := true;
        waitingForLog := false;
        logFile := None;
        cancelled := false;
      }
    }

    /** "Stop Logging": the effect's cleanup asks the capture to stop and shows the notice. */
    method StopLogging()
      requires Valid()
      modifies this
      ensures Valid()
      ensures old(logging) ==> !logging && cancelled && waitingForLog && logFile == old(logFile)
      ensures !old(logging) ==> logging == old(logging) && logFile == old(logFile)
                                && waitingForLog == old(waitingForLog) && cancelled == old(cancelled)
      ensures old(CurrentPhase()) == Capturing ==> CurrentPhase() == DrainingAfterCancel
    {
      if logging {
        logging := false;
        cancelled := true;
        waitingForLog := true;
      }
    }

    /**
     * The capture's promise settles: a log is stored and the notice cleared; a
     * failure is only written to the console and changes nothing here.
     */
    method CaptureSettled(result: Result<string, string>)
      requires Valid()
      modifies this
      ensures Valid()
      ensures logging == old(logging) && cancelled == old(cancelled)
      ensures result.Ok? ==> logFile == Some(result.value) && !waitingForLog
      ensures result.Err? ==> logFile == old(logFile) && waitingForLog == old(waitingForLog)
      ensures result.Ok? && old(CurrentPhase()) == DrainingAfterCancel ==> CurrentPhase() == Idle
    {
      if result.Ok? {
        logFile := Some(result.value);
        waitingForLog := false;
      }
    }
  }
}
