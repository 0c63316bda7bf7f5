/**
 * `logcatToBlob`: clear the device log, spawn `logcat`, and read its output
 * until the stream ends, killing the process once when cancellation is seen.
 *
 * The stream is given as the chunks it yields followed by how it ends; the
 * cancellation callback as the value it returns at each poll. The device
 * requests are recorded, in order, as a trace of actions.
 */
module Logcat {
  import opened Wrappers

  /** A request made to the device. */
  datatype Action =
    | ClearLogBuffer   // `logcat -c`, awaited
    | SpawnLogcat      // `logcat`
    | ReadChunk        // one `stdout.read()`
    | KillLogcat       // `process.kill()`

  /** How the output stream finishes after its chunks: a read returning no data, or a read that throws. */
  datatype StreamEnd = EndOfStream | ReadError(message: string)

  /** `n` reads in a row. */
  function Reads(n: nat): seq<Action>
  {
    seq(n, _ => ReadChunk)
  }

  /** The first poll among polls 0 .. n - 1 at which the callback reports cancellation. */
  function FirstCancelled(cancelled: nat -> bool, n: nat): (r: Option<nat>)
    ensures r.Some? ==> r.value < n
  {
    if n == 0 then None
    else
      var earlier := FirstCancelled(cancelled, n - 1);
      if earlier.Some? then earlier
      else if cancelled(n - 1) then Some(n - 1)
      else None
  }

  /** `FirstCancelled` finds a poll that saw cancellation, none before it does, and it finds none only if no poll does. */
  lemma {:induction false} FirstCancelledIsFirst(cancelled: nat -> bool, n: nat)
    ensures var r := FirstCancelled(cancelled, n);
            r.Some? ==> cancelled(r.value) && forall j :: 0 <= j < r.value ==> !cancelled(j)
    ensures FirstCancelled(cancelled, n).None? <==> forall j :: 0 <= j < n ==> !cancelled(j)
  {
    if n > 0 {
      FirstCancelledIsFirst(cancelled, n - 1);
    }
  }

  /**
   * The requests of a capture over `n` chunks whose first poll to see
   * cancellation is `first`: clear, spawn, one read per chunk, a kill right
   * after the read of chunk `first`, and a final read that finds the end.
   */
  function TraceShape(first: Option<nat>, n: nat): seq<Action>
    requires first.Some? ==> first.value < n
  {
    match first
    case None => [ClearLogBuffer, SpawnLogcat] + Reads(n + 1)
    case Some(k) => [ClearLogBuffer, SpawnLogcat] + Reads(k + 1) + [KillLogcat] + Reads(n - k)
  }

  /** Every device request of one capture over `chunks`. */
  function LogcatTrace(chunks: seq<string>, cancelled: nat -> bool): seq<Action>
  {
    TraceShape(FirstCancelled(cancelled, |chunks|), |chunks|)
  }

  /** The blob's text: `new Blob(logs)` joins its parts in order. */
  function Concat(parts: seq<string>): string
  {
    if parts == [] then "" else parts[0] + Concat(parts[1..])
  }

  /**
   * `logcatToBlob`: the chunks read, in order, become the blob; a failing read
   * rejects the promise with its error. `cancelled(k)` is what the callback
   * returns when polled after chunk k.
   */
  method LogcatToBlob(chunks: seq<string>, end: StreamEnd, cancelled: nat -> bool)
      returns (blob: Result<string, string>, trace: seq<Action>)
    ensures trace == LogcatTrace(chunks, cancelled)
    ensures end == EndOfStream ==> blob == Ok(Concat(chunks))
    ensures end.ReadError? ==> blob == Err(end.message)
  {
    trace := [ClearLogBuffer, SpawnLogcat];
    var killed := false;
    var logs: seq<string> := [];
    var i := 0;
    while true
      invariant 0 <= i <= |chunks|
      invariant logs == chunks[..i]
      invariant killed <==> FirstCancelled(cancelled, i).Some?
      invariant trace == [ClearLogBuffer, SpawnLogcat] + PolledTrace(cancelled, i)
      decreases |chunks| - i
    {
      trace := trace + [ReadChunk];
      if i == |chunks| {
        FinishTrace(chunks, cancelled);
        match end {
          case EndOfStream => break;
          case ReadError(message) => return Err(message), trace;
        }
      }
      assert chunks[..i + 1] == chunks[..i] + [chunks[i]];
      logs := logs + [chunks[i]];
      if cancelled(i) && !killed {
        trace := trace + [KillLogcat];
        killed := true;
      }
      ExtendTrace(cancelled, i);
      i := i + 1;
    }
    assert logs == chunks;
    blob := Ok(Concat(logs));
  }

  /** The requests after `n` chunks have each been read and followed by a poll. */
  function PolledTrace(cancelled: nat -> bool, n: nat): seq<Action>
  {
    match FirstCancelled(cancelled, n)
    case None => Reads(n)
    case Some(k) => Reads(k + 1) + [KillLogcat] + Reads(n - k - 1)
  }

  lemma ReadsSnoc(n: nat)
    ensures Reads(n + 1) == Reads(n) + [ReadChunk]
  {
    assert Reads(n + 1) == Reads(n) + [ReadChunk];
  }

  /** One more chunk read and polled: a read, then the kill if this poll is the first to see cancellation. */
  lemma ExtendPolledTrace(cancelled: nat -> bool, n: nat)
    ensures PolledTrace(cancelled, n + 1)
            == PolledTrace(cancelled, n) + [ReadChunk]
               + (if FirstCancelled(cancelled, n).None? && cancelled(n) then [KillLogcat] else [])
  {
    match FirstCancelled(cancelled, n)
    case None =>
      ReadsSnoc(n);
    case Some(k) =>
      ReadsSnoc(n - k - 1);
  }

  /** The same step on the whole trace so far, the clear and the spawn included. */
  lemma ExtendTrace(cancelled: nat -> bool, n: nat)
    ensures FirstCancelled(cancelled, n).None? && cancelled(n) ==>
              [ClearLogBuffer, SpawnLogcat] + PolledTrace(cancelled, n + 1)
              == [ClearLogBuffer, SpawnLogcat] + PolledTrace(cancelled, n) + [ReadChunk] + [KillLogcat]
    ensures !(FirstCancelled(cancelled, n).None? && cancelled(n)) ==>
              [ClearLogBuffer, SpawnLogcat] + PolledTrace(cancelled, n + 1)
              == [ClearLogBuffer, SpawnLogcat] + PolledTrace(cancelled, n) + [ReadChunk]
  {
    ExtendPolledTrace(cancelled, n);
    var head, polled := [ClearLogBuffer, SpawnLogcat], PolledTrace(cancelled, n);
    if FirstCancelled(cancelled, n).None? && cancelled(n) {
      assert head + (polled + [ReadChunk] + [KillLogcat]) == head + polled + [ReadChunk] + [KillLogcat];
    } else {
      assert polled + [ReadChunk] + [] == polled + [ReadChunk];
      assert head + (polled + [ReadChunk]) == head + polled + [ReadChunk];
    }
  }

  /** The final read, the one that finds no data, completes the capture's requests. */
  lemma FinishTrace(chunks: seq<string>, cancelled: nat -> bool)
    ensures [ClearLogBuffer, SpawnLogcat] + PolledTrace(cancelled, |chunks|) + [ReadChunk] == LogcatTrace(chunks, cancelled)
  {
    match FirstCancelled(cancelled, |chunks|)
    case None =>
      ReadsSnoc(|chunks|);
    case Some(k) =>
      ReadsSnoc(|chunks| - k - 1);
  }

  /** How many of the requests in `t` are `a`. */
  function Count(t: seq<Action>, a: Action): nat
  {
    if t == [] then 0 else (if t[0] == a then 1 else 0) + Count(t[1..], a)
  }

  /** `kill()` is requested at most once, and exactly when some poll saw cancellation. */
  lemma KillAtMostOnce(chunks: seq<string>, cancelled: nat -> bool)
    ensures Count(LogcatTrace(chunks, cancelled), KillLogcat) <= 1
    ensures Count(LogcatTrace(chunks, cancelled), KillLogcat) == 1
            <==> exists k :: 0 <= k < |chunks| && cancelled(k)
  {
    FirstCancelledIsFirst(cancelled, |chunks|);
    ShapeCounts(FirstCancelled(cancelled, |chunks|), |chunks|);
  }

  /** Every chunk is read and so is the end of the stream: cancellation never cuts the reading short. */
  lemma ReadsEveryChunk(chunks: seq<string>, cancelled: nat -> bool)
    ensures Count(LogcatTrace(chunks, cancelled), ReadChunk) == |chunks| + 1
  {
    ShapeCounts(FirstCancelled(cancelled, |chunks|), |chunks|);
  }

  /** Counting a joined trace part by part. */
  lemma {:induction false} CountJoin(s: seq<Action>, t: seq<Action>, a: Action)
    ensures Count(s + t, a) == Count(s, a) + Count(t, a)
  {
    if s == [] {
      assert s + t == t;
    } else {
      assert (s + t)[1..] == s[1..] + t;
      CountJoin(s[1..], t, a);
    }
  }

  /** `n` reads are `n` reads and no kill. */
  lemma {:induction false} CountReads(n: nat)
    ensures Count(Reads(n), ReadChunk) == n && Count(Reads(n), KillLogcat) == 0
  {
    if n > 0 {
      assert Reads(n)[1..] == Reads(n - 1);
      CountReads(n - 1);
    }
  }

  /** The requests of a capture, counted: a kill only if some poll saw cancellation, and n + 1 reads. */
  lemma ShapeCounts(first: Option<nat>, n: nat)
    requires first.Some? ==> first.value < n
    ensures Count(TraceShape(first, n), KillLogcat) == (if first.Some? then 1 else 0)
    ensures Count(TraceShape(first, n), ReadChunk) == n + 1
  {
    match first
    case None =>
      CountReads(n + 1);
      StartCounts(Reads(n + 1));
    case Some(k) =>
      CountReads(k + 1);
      CountReads(n - k);
      KilledCounts(Reads(k + 1), Reads(n - k));
  }

  /** Clear and spawn are neither reads nor kills. */
  lemma StartCounts(s: seq<Action>)
    ensures Count([ClearLogBuffer, SpawnLogcat] + s, KillLogcat) == Count(s, KillLogcat)
    ensures Count([ClearLogBuffer, SpawnLogcat] + s, ReadChunk) == Count(s, ReadChunk)
  {
    var head := [ClearLogBuffer, SpawnLogcat];
    assert Count(head, KillLogcat) == 0 && Count(head, ReadChunk) == 0;
    CountJoin(head, s, KillLogcat);
    CountJoin(head, s, ReadChunk);
  }

  /** A kill between two stretches of requests: one kill more than they hold, and their reads. */
  lemma KilledCounts(before: seq<Action>, after: seq<Action>)
    ensures Count([ClearLogBuffer, SpawnLogcat] + before + [KillLogcat] + after, KillLogcat)
            == Count(before, KillLogcat) + 1 + Count(after, KillLogcat)
    ensures Count([ClearLogBuffer, SpawnLogcat] + before + [KillLogcat] + after, ReadChunk)
            == Count(before, ReadChunk) + Count(after, ReadChunk)
  {
    var head := [ClearLogBuffer, SpawnLogcat];
    StartCounts(before);
    assert Count([KillLogcat], KillLogcat) == 1 && Count([KillLogcat], ReadChunk) == 0;
    CountJoin(head + before, [KillLogcat], KillLogcat);
    CountJoin(head + before, [KillLogcat], ReadChunk);
    CountJoin(head + before + [KillLogcat], after, KillLogcat);
    CountJoin(head + before + [KillLogcat], after, ReadChunk);
  }

  /**
   * The kill follows the read of the first chunk after which cancellation was
   * seen, and reading goes on afterwards: every remaining chunk, then the read
   * that finds the end.
   */
  lemma KillThenDrain(chunks: seq<string>, cancelled: nat -> bool, k: nat)
    requires k < |chunks| && cancelled(k)
    requires forall j :: 0 <= j < k ==> !cancelled(j)
    ensures LogcatTrace(chunks, cancelled)
            == [ClearLogBuffer, SpawnLogcat] + Reads(k + 1) + [KillLogcat] + Reads(|chunks| - k)
    ensures |chunks| - k >= 1
  {
    FirstCancelledIsFirst(cancelled, |chunks|);
    assert FirstCancelled(cancelled, |chunks|) == Some(k);
  }

  /** A stream that ends before any poll sees cancellation is never killed. */
  lemma EndBeforeCancelNoKill(chunks: seq<string>, cancelled: nat -> bool)
    requires forall j :: 0 <= j < |chunks| ==> !cancelled(j)
    ensures LogcatTrace(chunks, cancelled) == [ClearLogBuffer, SpawnLogcat] + Reads(|chunks| + 1)
  {
    FirstCancelledIsFirst(cancelled, |chunks|);
  }

  /**
   * The old log is cleared before `logcat` is spawned, reading starts only after
   * the spawn, and the capture finishes on a read: the one that finds the end.
   */
  lemma CaptureOrder(chunks: seq<string>, cancelled: nat -> bool)
    ensures var t := LogcatTrace(chunks, cancelled);
            |t| >= 3 && t[0] == ClearLogBuffer && t[1] == SpawnLogcat && t[2] == ReadChunk && t[|t| - 1] == ReadChunk
    ensures var t := LogcatTrace(chunks, cancelled);
            forall p :: 2 <= p < |t| ==> t[p] == ReadChunk || t[p] == KillLogcat
  {
  }

  /** Chunks x, y, then cancellation, then z and the end: the blob is "xyz" and the kill comes after y. */
  lemma CancelAfterTwoChunks()
    ensures Concat(["x", "y", "z"]) == "xyz"
    ensures LogcatTrace(["x", "y", "z"], j => j >= 1)
            == [ClearLogBuffer, SpawnLogcat, ReadChunk, ReadChunk, KillLogcat, ReadChunk, ReadChunk]
  {
    var cancelled: nat -> bool := j => j >= 1;
    assert FirstCancelled(cancelled, 1) == None;
    assert FirstCancelled(cancelled, 3) == Some(1);
  }
}
