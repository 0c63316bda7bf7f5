/**
 * The import backlog shared by every add-mods menu (`importQueue`) and its
 * single-flight flag (`isProcessingQueue`), with the drain loop of
 * `enqueueImports`.
 *
 * The backlog is popped from its end, so it behaves as a stack. Concurrent
 * `enqueueImports` calls are modelled as calls of `Enqueue` made between two
 * steps of the drain: `arrivals[k]` are the jobs other callers enqueue while
 * the k-th job of the drain (counting from 0) is being processed.
 */
module ImportQueue {
  import opened Wrappers
  import opened Mods
  import opened Imports

  /**
   * The device seen by one drain: `disconnectedAfter(k)` says whether the
   * drain's `disconnected` flag has been set by the time job k has been
   * processed, and `replies(k)` is the agent's reply to job k.
   */
  datatype Session = Session(disconnectedAfter: nat -> bool, replies: nat -> AgentReply)

  /**
   * The drain's `disconnected` flag at the loop test that follows `done` jobs.
   * It is set by a callback on the disconnect promise, which cannot run before
   * the first `await`, so the first test always sees `false`.
   */
  predicate DisconnectSeen(disconnectedAfter: nat -> bool, done: nat)
  {
    done > 0 && disconnectedAfter(done - 1)
  }

  /** The jobs enqueued while job k runs. */
  function Arrival(arrivals: seq<seq<Job>>, k: nat): seq<Job>
  {
    if k < |arrivals| then arrivals[k] else []
  }

  /** How many jobs are still to arrive from job k on. */
  function Pending(arrivals: seq<seq<Job>>, k: nat): nat
    decreases |arrivals| - k
  {
    if k < |arrivals| then |arrivals[k]| + Pending(arrivals, k + 1) else 0
  }

  /** The jobs enqueued while jobs k, ..., k + n - 1 run, in the order they were enqueued. */
  function ArrivedDuring(arrivals: seq<seq<Job>>, k: nat, n: nat): seq<Job>
    decreases n
  {
    if n == 0 then [] else Arrival(arrivals, k) + ArrivedDuring(arrivals, k + 1, n - 1)
  }

  function Reversed(s: seq<Job>): seq<Job>
  {
    if s == [] then [] else Reversed(s[1..]) + [s[0]]
  }

  /** What a drain did: the jobs it processed, in order, and the backlog it left. */
  datatype Drained = Drained(processed: seq<Job>, remaining: seq<Job>)

  /**
   * The drain loop as a function: starting from `backlog` after `done` jobs,
   * pop the last job while the backlog is non-empty and no disconnect is seen.
   */
  function DrainRun(backlog: seq<Job>, arrivals: seq<seq<Job>>, disconnectedAfter: nat -> bool, done: nat): Drained
    decreases |backlog| + Pending(arrivals, done)
  {
    if backlog == [] || DisconnectSeen(disconnectedAfter, done) then Drained([], backlog)
    else
      var rest := DrainRun(backlog[..|backlog| - 1] + Arrival(arrivals, done), arrivals, disconnectedAfter, done + 1);
      Drained([backlog[|backlog| - 1]] + rest.processed, rest.remaining)
  }

  /** One turn of the loop: the last job is taken and the jobs arriving meanwhile join the backlog. */
  lemma DrainStep(backlog: seq<Job>, arrivals: seq<seq<Job>>, disconnectedAfter: nat -> bool, done: nat)
    requires backlog != [] && !DisconnectSeen(disconnectedAfter, done)
    ensures var rest := DrainRun(backlog[..|backlog| - 1] + Arrival(arrivals, done), arrivals, disconnectedAfter, done + 1);
            DrainRun(backlog, arrivals, disconnectedAfter, done) == Drained([backlog[|backlog| - 1]] + rest.processed, rest.remaining)
  {
  }

  /** After processing `order` from `start`, the rest of the run is the run from `backlog`. */
  predicate RunContinues(start: seq<Job>, arrivals: seq<seq<Job>>, disconnectedAfter: nat -> bool,
                         order: seq<Job>, backlog: seq<Job>)
  {
    var rest := DrainRun(backlog, arrivals, disconnectedAfter, |order|);
    DrainRun(start, arrivals, disconnectedAfter, 0) == Drained(order + rest.processed, rest.remaining)
  }

  /**
   * The drain loop's invariant is kept by one turn: if `order` has been processed
   * from `start` and `backlog` is left, the rest of the run continues from the next backlog.
   */
  lemma DrainResumes(start: seq<Job>, arrivals: seq<seq<Job>>, disconnectedAfter: nat -> bool,
                     order: seq<Job>, backlog: seq<Job>)
    requires backlog != [] && !DisconnectSeen(disconnectedAfter, |order|)
    requires RunContinues(start, arrivals, disconnectedAfter, order, backlog)
    ensures RunContinues(start, arrivals, disconnectedAfter, order + [backlog[|backlog| - 1]],
                         backlog[..|backlog| - 1] + Arrival(arrivals, |order|))
  {
    var n, last := |order|, backlog[|backlog| - 1];
    var next := backlog[..|backlog| - 1] + Arrival(arrivals, n);
    DrainStep(backlog, arrivals, disconnectedAfter, n);
    var rest := DrainRun(next, arrivals, disconnectedAfter, n + 1);
    var d := DrainRun(backlog, arrivals, disconnectedAfter, n);
    assert d.processed == [last] + rest.processed && d.remaining == rest.remaining;
    assert order + d.processed == (order + [last]) + rest.processed;
    assert |order + [last]| == n + 1;
  }

  /** The loop leaves only when the backlog is empty or a disconnect is seen, and never earlier. */
  lemma {:induction false} DrainExit(backlog: seq<Job>, arrivals: seq<seq<Job>>, disconnectedAfter: nat -> bool, done: nat)
    ensures var d := DrainRun(backlog, arrivals, disconnectedAfter, done);
            d.remaining == [] || DisconnectSeen(disconnectedAfter, done + |d.processed|)
    ensures var d := DrainRun(backlog, arrivals, disconnectedAfter, done);
            forall k :: done <= k < done + |d.processed| ==> !DisconnectSeen(disconnectedAfter, k)
    decreases |backlog| + Pending(arrivals, done)
  {
    if backlog != [] && !DisconnectSeen(disconnectedAfter, done) {
      DrainExit(backlog[..|backlog| - 1] + Arrival(arrivals, done), arrivals, disconnectedAfter, done + 1);
    }
  }

  /** A session that stays connected is drained completely, including the jobs that arrive meanwhile. */
  lemma DrainEmptiesConnectedBacklog(backlog: seq<Job>, arrivals: seq<seq<Job>>, disconnectedAfter: nat -> bool, done: nat)
    requires forall k :: !disconnectedAfter(k)
    ensures DrainRun(backlog, arrivals, disconnectedAfter, done).remaining == []
  {
    DrainExit(backlog, arrivals, disconnectedAfter, done);
  }

  /** The bookkeeping of one turn of the loop, for DrainKeepsEveryJob. */
  lemma TurnKeepsEveryJob(init: seq<Job>, last: Job, arrived: seq<Job>, later: seq<Job>, processed: seq<Job>, remaining: seq<Job>)
    requires multiset(processed) + multiset(remaining) == multiset(init + arrived) + multiset(later)
    ensures multiset([last] + processed) + multiset(remaining) == multiset(init + [last]) + multiset(arrived + later)
  {
    calc {
      multiset([last] + processed) + multiset(remaining);
      multiset{last} + (multiset(processed) + multiset(remaining));
      multiset{last} + (multiset(init) + multiset(arrived) + multiset(later));
      (multiset(init) + multiset{last}) + (multiset(arrived) + multiset(later));
      multiset(init + [last]) + multiset(arrived + later);
    }
  }

  /** No job is lost or duplicated: what is processed or left is what was queued or arrived meanwhile. */
  lemma {:induction false} DrainKeepsEveryJob(backlog: seq<Job>, arrivals: seq<seq<Job>>, disconnectedAfter: nat -> bool, done: nat)
    ensures var d := DrainRun(backlog, arrivals, disconnectedAfter, done);
            multiset(d.processed) + multiset(d.remaining)
              == multiset(backlog) + multiset(ArrivedDuring(arrivals, done, |d.processed|))
    decreases |backlog| + Pending(arrivals, done)
  {
    if backlog != [] && !DisconnectSeen(disconnectedAfter, done) {
      var init, last := backlog[..|backlog| - 1], backlog[|backlog| - 1];
      var next := init + Arrival(arrivals, done);
      DrainKeepsEveryJob(next, arrivals, disconnectedAfter, done + 1);
      var rest := DrainRun(next, arrivals, disconnectedAfter, done + 1);
      var later := ArrivedDuring(arrivals, done + 1, |rest.processed|);
      DrainStep(backlog, arrivals, disconnectedAfter, done);
      TurnKeepsEveryJob(init, last, Arrival(arrivals, done), later, rest.processed, rest.remaining);
      var d := DrainRun(backlog, arrivals, disconnectedAfter, done);
      assert d.processed == [last] + rest.processed && d.remaining == rest.remaining;
      assert ArrivedDuring(arrivals, done, |d.processed|) == Arrival(arrivals, done) + later;
      assert backlog == init + [last];
    }
  }

  /** With nothing arriving, jobs come off the end: the processed jobs, reversed, are the backlog's tail. */
  lemma {:induction false} DrainIsLastInFirstOut(backlog: seq<Job>, arrivals: seq<seq<Job>>, disconnectedAfter: nat -> bool, done: nat)
    requires done >= |arrivals|
    ensures var d := DrainRun(backlog, arrivals, disconnectedAfter, done);
            backlog == d.remaining + Reversed(d.processed)
    decreases |backlog|
  {
    if backlog != [] && !DisconnectSeen(disconnectedAfter, done) {
      var init := backlog[..|backlog| - 1];
      var last := backlog[|backlog| - 1];
      assert Arrival(arrivals, done) == [];
      assert init + Arrival(arrivals, done) == init;
      DrainIsLastInFirstOut(init, arrivals, disconnectedAfter, done + 1);
      var rest := DrainRun(init, arrivals, disconnectedAfter, done + 1);
      assert ([last] + rest.processed)[1..] == rest.processed;
      assert Reversed([last] + rest.processed) == Reversed(rest.processed) + [last];
      assert backlog == init + [last];
    }
  }

  /** Even a session already lost when the drain starts gets its first job processed. */
  lemma FirstJobAlwaysRuns(backlog: seq<Job>, arrivals: seq<seq<Job>>, disconnectedAfter: nat -> bool)
    requires backlog != []
    ensures var d := DrainRun(backlog, arrivals, disconnectedAfter, 0);
            |d.processed| >= 1 && d.processed[0] == backlog[|backlog| - 1]
  {
  }

  /** `enqueue([A, B])`, then `enqueue([C])` while B runs: the order is B, C, A. */
  lemma LaterArrivalCutsIn(a: Job, b: Job, c: Job)
    ensures DrainRun([a, b], [[c]], k => false, 0) == Drained([b, c, a], [])
  {
    var never: nat -> bool := k => false;
    assert [a, b][..1] + Arrival([[c]], 0) == [a, c];
    assert [a, c][..1] + Arrival([[c]], 1) == [a];
    assert [a][..0] + Arrival([[c]], 2) == [];
    assert DrainRun([], [[c]], never, 3) == Drained([], []);
    assert DrainRun([a], [[c]], never, 2) == Drained([a], []);
    assert DrainRun([a, c], [[c]], never, 1) == Drained([c, a], []);
  }

  /** Three pending jobs, the session lost during the first: one job runs, two stay queued. */
  lemma DisconnectTruncates(a: Job, b: Job, c: Job)
    ensures DrainRun([a, b, c], [], k => true, 0) == Drained([c], [a, b])
  {
    var always: nat -> bool := k => true;
    assert [a, b, c][..2] + Arrival([], 0) == [a, b];
    assert DrainRun([a, b], [], always, 1) == Drained([], [a, b]);
  }

  /** `reports[k]` is the handling of job `order[k]` with the k-th reply of the session. */
  predicate HandledInOrder(order: seq<Job>, reports: seq<Effect>, replies: nat -> AgentReply, gameVersion: string, trim: string -> string)
  {
    |reports| == |order| && forall k :: 0 <= k < |order| ==> reports[k] == HandleImport(order[k], replies(k), gameVersion, trim)
  }

  /** Handling one more job keeps the reports in step with the jobs. */
  lemma HandledNext(order: seq<Job>, reports: seq<Effect>, replies: nat -> AgentReply, gameVersion: string, trim: string -> string,
                    job: Job, report: Effect)
    requires HandledInOrder(order, reports, replies, gameVersion, trim)
    requires report == HandleImport(job, replies(|order|), gameVersion, trim)
    ensures HandledInOrder(order + [job], reports + [report], replies, gameVersion, trim)
  {
  }

  class ImportQueue {
    /** `importQueue`: the jobs not yet taken; the next one is the last. */
    var backlog: seq<Job>
    /** `isProcessingQueue`: a drain is running. */
    var processing: bool

    constructor ()
      ensures backlog == [] && !processing
    {
      backlog := [];
      processing := false;
    }

    /**
     * The synchronous start of `enqueueImports`: append the jobs in order, and
     * take the flag unless another caller holds it. `driver` says whether this
     * caller must now drain.
     */
    method Enqueue(jobs: seq<Job>) returns (driver: bool)
      modifies this
      ensures backlog == old(backlog) + jobs
      ensures driver == !old(processing)
      ensures processing
    {
      backlog := backlog + jobs;
      if processing {
        return false;
      }
      processing := true;
      driver := true;
    }

    /**
     * The drain loop, run by the caller that took the flag. Each job is handled
     * (`handleFileImport` or `handleUrlImport`) with the reply the session gives
     * it; `reports` are those handlings. The flag is released on every exit.
     */
    method Drain(session: Session, arrivals: seq<seq<Job>>, gameVersion: string, trim: string -> string)
        returns (order: seq<Job>, reports: seq<Effect>)
      requires processing
      modifies this
      ensures Drained(order, backlog) == DrainRun(old(backlog), arrivals, session.disconnectedAfter, 0)
      ensures !processing
      ensures HandledInOrder(order, reports, session.replies, gameVersion, trim)
    {
      ghost var start := backlog;
      order, reports := [], [];
      while backlog != [] && !DisconnectSeen(session.disconnectedAfter, |order|)
        invariant processing
        invariant RunContinues(start, arrivals, session.disconnectedAfter, order, backlog)
        invariant HandledInOrder(order, reports, session.replies, gameVersion, trim)
        decreases |backlog| + Pending(arrivals, |order|)
      {
        var n := |order|;
        DrainResumes(start, arrivals, session.disconnectedAfter, order, backlog);
        var job := backlog[|backlog| - 1];
        backlog := backlog[..|backlog| - 1];
        var report := HandleImport(job, session.replies(n), gameVersion, trim);
        var driver := Enqueue(Arrival(arrivals, n));
        assert !driver;
        HandledNext(order, reports, session.replies, gameVersion, trim, job, report);
        order, reports := order + [job], reports + [report];
      }
      assert DrainRun(backlog, arrivals, session.disconnectedAfter, |order|) == Drained([], backlog);
      assert order + [] == order;
      processing := false;
    }

    /** `enqueueImports`: enqueue, then drain unless a drain is already running. */
    method EnqueueImports(jobs: seq<Job>, session: Session, arrivals: seq<seq<Job>>, gameVersion: string, trim: string -> string)
        returns (driver: bool, order: seq<Job>, reports: seq<Effect>)
      modifies this
      ensures driver == !old(processing)
      ensures !driver ==> order == [] && reports == [] && backlog == old(backlog) + jobs && processing
      ensures driver ==> Drained(order, backlog) == DrainRun(old(backlog) + jobs, arrivals, session.disconnectedAfter, 0)
      ensures driver ==> !processing
      ensures HandledInOrder(order, reports, session.replies, gameVersion, trim)
    {
      driver := Enqueue(jobs);
      if !driver {
        return driver, [], [];
      }
      order, reports := Drain(session, arrivals, gameVersion, trim);
    }
  }
}
