/**
  `processJobs` of `server/process-jobs.js`: read the configuration (stop
  if there is none), read the job array, and for every record that was
  pending at read time, in array order, mark it `processing` and write the
  array, run the pipeline, put the result at the same index and write the
  array again.

  The index is found with `findIndex` on the id, as the code does. When ids
  are unique that index is the record's own position, and the lemmas at the
  end state the outcome and every intermediate write in those terms.
 */
module Batch {
  import opened Common
  import opened Records
  import opened Processing

  predicate HasId(js: seq<Job>, id: string) {
    exists i :: 0 <= i < |js| && js[i].id == id
  }

  function IdAt(js: seq<Job>, i: nat): string
    requires i < |js|
  {
    js[i].id
  }

  /** No two records share an id. */
  predicate UniqueIds(js: seq<Job>) {
    forall a, b :: 0 <= a < b < |js| ==> IdAt(js, a) != IdAt(js, b)
  }

  /** Which records are pending. */
  function PendingFlags(js: seq<Job>): (flags: seq<bool>)
    ensures |flags| == |js|
    ensures forall i :: 0 <= i < |js| ==> (flags[i] <==> js[i].status == Pending)
  {
    seq(|js|, i requires 0 <= i < |js| => js[i].status == Pending)
  }

  /** The positions of the pending records, in increasing order. */
  function PendingPositions(js: seq<Job>): (ps: seq<nat>)
    ensures forall k :: 0 <= k < |ps| ==> ps[k] < |js| && js[ps[k]].status == Pending
  {
    var flags := PendingFlags(js);
    var ps := Positions(flags, 0);
    assert forall k :: 0 <= k < |ps| ==> flags[ps[k]] by {
      forall k | 0 <= k < |ps| ensures flags[ps[k]] {
        PositionsMembers(flags, 0, ps[k]);
      }
    }
    ps
  }

  /** `jobs.filter(job => job.status === 'pending')`. */
  function PendingJobs(js: seq<Job>): (ps: seq<Job>)
    ensures |ps| == |PendingPositions(js)|
    ensures forall k :: 0 <= k < |ps| ==> ps[k] == js[PendingPositions(js)[k]]
    ensures forall k :: 0 <= k < |ps| ==> HasId(js, ps[k].id)
  {
    var pos := PendingPositions(js);
    seq(|pos|, k requires 0 <= k < |pos| => js[pos[k]])
  }

  /** `jobs.findIndex(j => j.id === id)`: the first position carrying `id`,
      or -1 when there is none. */
  function FindIndex(js: seq<Job>, id: string): (i: int)
    ensures -1 <= i < |js|
    ensures i >= 0 ==> js[i].id == id && forall k :: 0 <= k < i ==> js[k].id != id
    ensures i == -1 <==> !HasId(js, id)
  {
    if js == [] then -1
    else if js[0].id == id then 0
    else
      var i := FindIndex(js[1..], id);
      assert HasId(js, id) ==> HasId(js[1..], id) by {
        if HasId(js, id) {
          var j :| 0 <= j < |js| && js[j].id == id;
          assert js[1..][j - 1].id == id;
        }
      }
      if i == -1 then -1 else i + 1
  }

  /** `runs[k]` is a run of the pipeline on `pend[k]`: same id, terminal. */
  predicate RunsFor(pend: seq<Job>, runs: seq<Run>) {
    && |runs| == |pend|
    && forall k :: 0 <= k < |pend| ==>
         runs[k].result.id == pend[k].id && Terminal(runs[k].result.status)
  }

  /** What the pipeline does with each of `pend`. */
  function Outcomes(pend: seq<Job>, config: Config, caps: Capabilities): (runs: seq<Run>)
    ensures RunsFor(pend, runs)
  {
    seq(|pend|, k requires 0 <= k < |pend| => ProcessRun(pend[k], config, caps))
  }

  datatype BatchRun = BatchRun(final: seq<Job>, writes: seq<seq<Job>>)

  /** What one turn of the loop logs: the marked array is written before
      any request for the record, and the updated array after all of them. */
  function Turn(marked: seq<Job>, run: Run, done: seq<Job>): seq<Event> {
    [Persist(marked)] + run.trace + [Persist(done)]
  }

  /** The loop of `processJobs` from array `cur`, with `pend[k..]` still to
      do and `runs` what the pipeline does with each pending record: the
      final array and the arrays written (two per record). Ids never change, so every index lookup succeeds. */
  function BatchFrom(cur: seq<Job>, pend: seq<Job>, runs: seq<Run>, k: nat): (b: BatchRun)
    requires RunsFor(pend, runs) && k <= |pend|
    requires forall j :: k <= j < |pend| ==> HasId(cur, pend[j].id)
    ensures |b.final| == |cur|
    ensures |b.writes| == 2 * (|pend| - k)
    decreases |pend| - k
  {
    if k == |pend| then BatchRun(cur, [])
    else
      var i := FindIndex(cur, pend[k].id);
      var marked := cur[i := cur[i].(status := Processing)];
      var done := marked[i := runs[k].result];
      assert forall j :: k < j < |pend| ==> HasId(done, pend[j].id) by {
        forall j | k < j < |pend| ensures HasId(done, pend[j].id) {
          assert HasId(cur, pend[j].id);
          var w :| 0 <= w < |cur| && cur[w].id == pend[j].id;
          assert done[w].id == pend[j].id;
        }
      }
      var rest := BatchFrom(done, pend, runs, k + 1);
      BatchRun(rest.final, [marked, done] + rest.writes)
  }

  /** The batch over the records of `js` that are pending. */
  function Batch(js: seq<Job>, config: Config, caps: Capabilities): (b: BatchRun)
    ensures |b.final| == |js|
    ensures |b.writes| == 2 * |PendingJobs(js)|
    ensures PendingJobs(js) == [] ==> b == BatchRun(js, [])
  {
    var pend := PendingJobs(js);
    BatchFrom(js, pend, Outcomes(pend, config, caps), 0)
  }

  /** The log of turns `k..` given the arrays they write, two per turn:
      each record's requests sit between its two writes. */
  function Log(ws: seq<seq<Job>>, runs: seq<Run>, k: nat): seq<Event>
    requires k <= |runs| && |ws| == 2 * (|runs| - k)
    decreases |runs| - k
  {
    if k == |runs| then [] else Turn(ws[0], runs[k], ws[1]) + Log(ws[2..], runs, k + 1)
  }

  /** The writes and requests of the batch over `js`, in the order made. */
  function BatchTrace(js: seq<Job>, config: Config, caps: Capabilities): seq<Event> {
    var pend := PendingJobs(js);
    Log(Batch(js, config, caps).writes, Outcomes(pend, config, caps), 0)
  }

  /** `processJobs`. Without a readable configuration nothing is read or
      written; otherwise the writes are those of `Batch` over the array as
      read, made in the order `BatchTrace` gives with the requests, and the file is left alone when nothing was
      pending. */
  method ProcessJobs(dir: DataDir, host: Host)
    modifies dir, host
    ensures dir.configFile == old(dir.configFile)
    ensures old(dir.ReadConfig()).None? ==>
      && dir.jobsFile == old(dir.jobsFile)
      && dir.jobWrites == old(dir.jobWrites)
      && host.trace == old(host.trace)
    ensures old(dir.ReadConfig()).Some? ==>
      var b := Batch(old(dir.ReadJobs()), old(dir.ReadConfig()).value, host.caps);
      && dir.jobWrites == old(dir.jobWrites) + b.writes
      && host.trace == old(host.trace) + BatchTrace(old(dir.ReadJobs()), old(dir.ReadConfig()).value, host.caps)
      && (b.writes == [] ==> dir.jobsFile == old(dir.jobsFile))
      && (b.writes != [] ==> dir.jobsFile == Holds(b.final))
  {
    var config := dir.ReadConfig();
    if config.None? {
      return;
    }
    var jobs := dir.ReadJobs();
    var pendingJobs := PendingJobs(jobs);
    ghost var runs := Outcomes(pendingJobs, config.value, host.caps);
    ghost var whole := BatchFrom(jobs, pendingJobs, runs, 0);
    ghost var writes0 := dir.jobWrites;
    ghost var trace0 := host.trace;
    ghost var file0 := dir.jobsFile;
    var n := 0;
    while n < |pendingJobs|
      invariant 0 <= n <= |pendingJobs|
      invariant forall j :: n <= j < |pendingJobs| ==> HasId(jobs, pendingJobs[j].id)
      invariant dir.configFile == old(dir.configFile)
      invariant n == 0 ==> dir.jobsFile == file0
      invariant n > 0 ==> dir.jobsFile == Holds(jobs)
      invariant
        var rest := BatchFrom(jobs, pendingJobs, runs, n);
        && rest.final == whole.final
        && dir.jobWrites + rest.writes == writes0 + whole.writes
        && host.trace + Log(rest.writes, runs, n) == trace0 + Log(whole.writes, runs, 0)
    {
      ghost var i := FindIndex(jobs, pendingJobs[n].id);
      BatchFromTurn(jobs, pendingJobs, runs, n, i);
      ghost var writes, trace := dir.jobWrites, host.trace;
      ghost var marked := jobs[i := jobs[i].(status := Processing)];
      jobs := ProcessPending(dir, host, jobs, pendingJobs[n], config.value, runs[n]);
      ghost var next := BatchFrom(jobs, pendingJobs, runs, n + 1);
      Regroup(writes, [marked, jobs], next.writes);
      LogAfterTurn(trace, marked, jobs, next.writes, runs, n);
      n := n + 1;
    }
  }

  /** The first turn of a log. */
  lemma LogTurn(ws: seq<seq<Job>>, runs: seq<Run>, k: nat)
    requires k < |runs| && |ws| == 2 * (|runs| - k)
    ensures Log(ws, runs, k) == Turn(ws[0], runs[k], ws[1]) + Log(ws[2..], runs, k + 1)
  {
  }

  /** The log of the remaining turns, regrouped after the first one has
      been appended. A proof step only, for the loop of `ProcessJobs`. */
  lemma LogAfterTurn(log: seq<Event>, marked: seq<Job>, done: seq<Job>, ws: seq<seq<Job>>, runs: seq<Run>, k: nat)
    requires k < |runs| && |ws| == 2 * (|runs| - k - 1)
    ensures (log + Turn(marked, runs[k], done)) + Log(ws, runs, k + 1)
         == log + Log([marked, done] + ws, runs, k)
  {
    assert ([marked, done] + ws)[2..] == ws;
    LogTurn([marked, done] + ws, runs, k);
    Regroup(log, Turn(marked, runs[k], done), Log(ws, runs, k + 1));
  }

  /** A turn appended to a log, event by event. */
  lemma TurnAfter(log: seq<Event>, marked: seq<Job>, run: Run, done: seq<Job>)
    ensures log + [Persist(marked)] + run.trace + [Persist(done)] == log + Turn(marked, run, done)
  {
  }

  /** One turn of the loop of `processJobs`: find the record by id, mark
      it `processing` and write the array, run the pipeline on the record
      as read, put the result at the same index and write again. */
  method ProcessPending(dir: DataDir, host: Host, jobs: seq<Job>, job: Job, config: Config, ghost run: Run)
    returns (updated: seq<Job>)
    requires HasId(jobs, job.id)
    requires run == ProcessRun(job, config, host.caps)
    modifies dir, host
    ensures
      var i := FindIndex(jobs, job.id);
      var marked := jobs[i := jobs[i].(status := Processing)];
      && updated == marked[i := run.result]
      && dir.jobWrites == old(dir.jobWrites) + [marked, updated]
      && host.trace == old(host.trace) + Turn(marked, run, updated)
    ensures dir.jobsFile == Holds(updated) && dir.configFile == old(dir.configFile)
  {
    var jobIndex := FindIndex(jobs, job.id);
    ghost var trace0, writes0 := host.trace, dir.jobWrites;
    var marked := jobs[jobIndex := jobs[jobIndex].(status := Processing)];
    host.SaveJobs(dir, marked);
    ghost var trace1 := host.trace;
    var processedJob := host.ProcessJob(job, config);
    assert host.trace == trace1 + run.trace;
    updated := marked[jobIndex := processedJob];
    host.SaveJobs(dir, updated);
    assert host.trace == trace0 + [Persist(marked)] + run.trace + [Persist(updated)];
    TurnAfter(trace0, marked, run, updated);
    assert dir.jobWrites == writes0 + [marked, updated];
  }

  // ---------------------------------------------------------------------
  // The batch when ids are unique
  // ---------------------------------------------------------------------

  /** `runs[k]` is a run on the `k`-th pending record of `js`. */
  predicate RunsAt(js: seq<Job>, runs: seq<Run>) {
    var pos := PendingPositions(js);
    && |runs| == |pos|
    && forall k :: 0 <= k < |pos| ==>
         runs[k].result.id == js[pos[k]].id && Terminal(runs[k].result.status)
  }

  /** The array once the first `k` pending records have been replaced by
      their runs' results. */
  function Snapshot(js: seq<Job>, runs: seq<Run>, k: nat): (s: seq<Job>)
    requires RunsAt(js, runs)
    requires k <= |runs|
    ensures |s| == |js|
  {
    if k == 0 then js
    else
      var p := PendingPositions(js)[k - 1];
      Snapshot(js, runs, k - 1)[p := runs[k - 1].result]
  }

  /** Snapshots keep every record's id. */
  lemma {:induction false} SnapshotKeepsIds(js: seq<Job>, runs: seq<Run>, k: nat, i: nat)
    requires RunsAt(js, runs)
    requires k <= |runs| && i < |js|
    ensures Snapshot(js, runs, k)[i].id == js[i].id
  {
    if k > 0 {
      SnapshotKeepsIds(js, runs, k - 1, i);
      var p := PendingPositions(js)[k - 1];
      assert Snapshot(js, runs, k) == Snapshot(js, runs, k - 1)[p := runs[k - 1].result];
      assert runs[k - 1].result.id == js[p].id;
    }
  }

  /** The array written just before the `k`-th pending record is processed. */
  function Marked(js: seq<Job>, runs: seq<Run>, k: nat): (s: seq<Job>)
    requires RunsAt(js, runs)
    requires k < |runs|
    ensures |s| == |js|
  {
    var p := PendingPositions(js)[k];
    Snapshot(js, runs, k)[p := js[p].(status := Processing)]
  }

  /** The `j`-th pending record is replaced by its result in the
      snapshots after its turn, and is as read before. */
  lemma {:induction false} SnapshotPending(js: seq<Job>, runs: seq<Run>, k: nat, j: nat)
    requires RunsAt(js, runs)
    requires k <= |runs| && j < |runs|
    ensures Snapshot(js, runs, k)[PendingPositions(js)[j]] ==
      if j < k then runs[j].result else js[PendingPositions(js)[j]]
  {
    if k > 0 {
      SnapshotPending(js, runs, k - 1, j);
      PositionsOrdered(PendingFlags(js), 0);
    }
  }

  /** A record that was not pending is the same in every snapshot. */
  lemma {:induction false} SnapshotOther(js: seq<Job>, runs: seq<Run>, k: nat, i: nat)
    requires RunsAt(js, runs)
    requires k <= |runs| && i < |js| && js[i].status != Pending
    ensures Snapshot(js, runs, k)[i] == js[i]
  {
    if k > 0 {
      SnapshotOther(js, runs, k - 1, i);
    }
  }

  /** One turn of the loop from `Snapshot(k)`: the lookup lands on the
      record's own position. */
  lemma {:induction false} BatchStep(js: seq<Job>, runs: seq<Run>, k: nat)
    requires UniqueIds(js)
    requires RunsAt(js, runs)
    requires k < |runs|
    ensures FindIndex(Snapshot(js, runs, k), PendingJobs(js)[k].id) == PendingPositions(js)[k]
  {
    var pos := PendingPositions(js);
    var cur := Snapshot(js, runs, k);
    var p := pos[k];
    var id := PendingJobs(js)[k].id;
    SnapshotPending(js, runs, k, k);
    assert cur[p].id == id;
    forall j | 0 <= j < p ensures cur[j].id != id {
      SnapshotKeepsIds(js, runs, k, j);
      assert IdAt(js, j) != IdAt(js, p);
    }
    var i := FindIndex(cur, id);
    assert i >= 0;
    assert i <= p;
    assert i >= p;
  }

  /** `[a[k], b[k], a[k + 1], b[k + 1], ...]`. */
  function Interleave<T>(a: seq<T>, b: seq<T>, k: nat): (r: seq<T>)
    requires |a| == |b| && k <= |a|
    ensures |r| == 2 * (|a| - k)
    decreases |a| - k
  {
    if k == |a| then [] else [a[k], b[k]] + Interleave(a, b, k + 1)
  }

  /** `a[j]` sits at `i == 2 * (j - k)` of `Interleave(a, b, k)`, `b[j]`
      right after. */
  lemma {:induction false} InterleaveAt<T>(a: seq<T>, b: seq<T>, k: nat, j: nat, i: nat)
    requires |a| == |b| && k <= j < |a| && i == 2 * (j - k)
    ensures Interleave(a, b, k)[i] == a[j]
    ensures Interleave(a, b, k)[i + 1] == b[j]
    decreases j - k
  {
    if k < j {
      InterleaveAt(a, b, k + 1, j, i - 2);
    }
  }

  /** The first write for each pending record. */
  function Marks(js: seq<Job>, runs: seq<Run>): (ms: seq<seq<Job>>)
    requires RunsAt(js, runs)
    ensures |ms| == |runs|
  {
    seq(|runs|, k requires 0 <= k < |runs| => Marked(js, runs, k))
  }

  /** The second write for each pending record. */
  function Results(js: seq<Job>, runs: seq<Run>): (rs: seq<seq<Job>>)
    requires RunsAt(js, runs)
    ensures |rs| == |runs|
  {
    seq(|runs|, k requires 0 <= k < |runs| => Processed(js, runs, k))
  }

  /** The array right after the `k`-th pending record is processed. */
  function Processed(js: seq<Job>, runs: seq<Run>, k: nat): seq<Job>
    requires RunsAt(js, runs)
    requires k < |runs|
  {
    Snapshot(js, runs, k + 1)
  }

  /** `(a + b) + c == a + (b + c)`. A proof step only: it models nothing
      and keeps the solver's effort down in the loop's bookkeeping. */
  lemma Regroup<T>(a: seq<T>, b: seq<T>, c: seq<T>)
    ensures (a + b) + c == a + (b + c)
  {
  }

  /** One turn of `BatchFrom` when the lookup lands on `p`. */
  lemma BatchFromTurn(cur: seq<Job>, pend: seq<Job>, runs: seq<Run>, k: nat, p: nat)
    requires RunsFor(pend, runs) && k < |pend|
    requires forall j :: k <= j < |pend| ==> HasId(cur, pend[j].id)
    requires p < |cur| && FindIndex(cur, pend[k].id) == p
    ensures
      var marked := cur[p := cur[p].(status := Processing)];
      var done := marked[p := runs[k].result];
      && (forall j :: k < j < |pend| ==> HasId(done, pend[j].id))
      && BatchFrom(cur, pend, runs, k).final == BatchFrom(done, pend, runs, k + 1).final
      && BatchFrom(cur, pend, runs, k).writes == [marked, done] + BatchFrom(done, pend, runs, k + 1).writes
  {
    var marked := cur[p := cur[p].(status := Processing)];
    var done := marked[p := runs[k].result];
    forall j | k < j < |pend| ensures HasId(done, pend[j].id) {
      assert HasId(cur, pend[j].id);
      var w :| 0 <= w < |cur| && cur[w].id == pend[j].id;
      assert done[w].id == pend[j].id;
    }
  }

  /** The writes a log records are the arrays it was built from, in order,
      when no run writes anything itself. */
  lemma {:induction false} LogWrites(ws: seq<seq<Job>>, runs: seq<Run>, k: nat)
    requires k <= |runs| && |ws| == 2 * (|runs| - k)
    requires forall j :: k <= j < |runs| ==> StepsWithin(runs[j].trace, 0, 5)
    ensures Persisted(Log(ws, runs, k)) == ws
    decreases |runs| - k
  {
    if k < |runs| {
      LogWrites(ws[2..], runs, k + 1);
      PersistedNone(runs[k].trace);
      PersistedAppend([Persist(ws[0])], runs[k].trace);
      PersistedAppend([Persist(ws[0])] + runs[k].trace, [Persist(ws[1])]);
      PersistedAppend(Turn(ws[0], runs[k], ws[1]), Log(ws[2..], runs, k + 1));
      assert Persisted([Persist(ws[0])]) == [ws[0]];
      assert Persisted([Persist(ws[1])]) == [ws[1]];
      assert ws == [ws[0], ws[1]] + ws[2..];
    }
  }

  /** `processJobs` writes each record as `processing` before any request
      for it and its result after all of them (`Log`), and the writes its
      log records are exactly the batch's writes, in order. */
  lemma BatchTraceWrites(js: seq<Job>, config: Config, caps: Capabilities)
    ensures Persisted(BatchTrace(js, config, caps)) == Batch(js, config, caps).writes
  {
    var runs := Outcomes(PendingJobs(js), config, caps);
    forall j | 0 <= j < |runs| ensures StepsWithin(runs[j].trace, 0, 5) {
      ProcessOrder(PendingJobs(js)[j], config, caps);
    }
    LogWrites(Batch(js, config, caps).writes, runs, 0);
  }

  /** The writes from the `k`-th record on start with its two writes. */
  lemma WritesFromTurn(js: seq<Job>, runs: seq<Run>, k: nat)
    requires RunsAt(js, runs)
    requires k < |runs|
    ensures Interleave(Marks(js, runs), Results(js, runs), k) ==
      [Marked(js, runs, k), Snapshot(js, runs, k + 1)] + Interleave(Marks(js, runs), Results(js, runs), k + 1)
  {
    var ms, rs := Marks(js, runs), Results(js, runs);
    assert ms[k] == Marked(js, runs, k);
    assert rs[k] == Processed(js, runs, k);
  }

  /** Every pending record still to do can be found in `Snapshot(k)`. */
  lemma SnapshotIds(js: seq<Job>, runs: seq<Run>, k: nat)
    requires RunsAt(js, runs)
    requires k <= |runs|
    ensures RunsFor(PendingJobs(js), runs)
    ensures forall j :: k <= j < |runs| ==> HasId(Snapshot(js, runs, k), PendingJobs(js)[j].id)
  {
    var pend := PendingJobs(js);
    var cur := Snapshot(js, runs, k);
    forall j | k <= j < |runs| ensures HasId(cur, pend[j].id) {
      SnapshotPending(js, runs, k, j);
      assert cur[PendingPositions(js)[j]].id == pend[j].id;
    }
  }

  /** The turn of the `k`-th pending record, from `Snapshot(k)`: the
      lookup lands on its position, the first write is `Marked(k)` and the
      second `Snapshot(k + 1)`. */
  lemma SnapshotTurn(js: seq<Job>, runs: seq<Run>, k: nat)
    requires UniqueIds(js)
    requires RunsAt(js, runs)
    requires k < |runs|
    ensures
      var cur, p := Snapshot(js, runs, k), PendingPositions(js)[k];
      && FindIndex(cur, PendingJobs(js)[k].id) == p
      && cur[p := cur[p].(status := Processing)] == Marked(js, runs, k)
      && Marked(js, runs, k)[p := runs[k].result] == Snapshot(js, runs, k + 1)
  {
    BatchStep(js, runs, k);
    SnapshotPending(js, runs, k, k);
  }

  /** `BatchFrom` from `Snapshot(k)` takes one turn to `Snapshot(k + 1)`. */
  lemma BatchFromSnapshotTurn(js: seq<Job>, runs: seq<Run>, k: nat)
    requires UniqueIds(js)
    requires RunsAt(js, runs)
    requires k < |runs|
    ensures RunsFor(PendingJobs(js), runs)
    ensures forall j :: k <= j < |runs| ==> HasId(Snapshot(js, runs, k), PendingJobs(js)[j].id)
    ensures forall j :: k < j < |runs| ==> HasId(Snapshot(js, runs, k + 1), PendingJobs(js)[j].id)
    ensures
      var b := BatchFrom(Snapshot(js, runs, k), PendingJobs(js), runs, k);
      var rest := BatchFrom(Snapshot(js, runs, k + 1), PendingJobs(js), runs, k + 1);
      && b.final == rest.final
      && b.writes == [Marked(js, runs, k), Snapshot(js, runs, k + 1)] + rest.writes
  {
    SnapshotIds(js, runs, k);
    SnapshotIds(js, runs, k + 1);
    SnapshotTurn(js, runs, k);
    BatchFromTurn(Snapshot(js, runs, k), PendingJobs(js), runs, k, PendingPositions(js)[k]);
  }

  /** The turns of the loop from `Snapshot(k)` on. */
  function LoopRest(js: seq<Job>, runs: seq<Run>, k: nat): BatchRun
    requires RunsAt(js, runs)
    requires k <= |runs|
  {
    SnapshotIds(js, runs, k);
    BatchFrom(Snapshot(js, runs, k), PendingJobs(js), runs, k)
  }

  /** What `BatchFromSnapshot` states about the loop from `Snapshot(k)`. */
  predicate LoopFromSnapshot(js: seq<Job>, runs: seq<Run>, k: nat)
    requires RunsAt(js, runs)
    requires k <= |runs|
  {
    LoopRest(js, runs, k) == BatchRun(Snapshot(js, runs, |runs|), Interleave(Marks(js, runs), Results(js, runs), k))
  }

  /** Once every pending record is done the loop stops. */
  lemma LoopEnd(js: seq<Job>, runs: seq<Run>, k: nat)
    requires RunsAt(js, runs)
    requires k == |runs|
    ensures LoopFromSnapshot(js, runs, k)
  {
    SnapshotIds(js, runs, k);
  }

  /** One turn of the loop followed by the rest. */
  lemma LoopTurn(js: seq<Job>, runs: seq<Run>, k: nat)
    requires UniqueIds(js)
    requires RunsAt(js, runs)
    requires k < |runs|
    requires LoopFromSnapshot(js, runs, k + 1)
    ensures LoopFromSnapshot(js, runs, k)
  {
    BatchFromSnapshotTurn(js, runs, k);
    WritesFromTurn(js, runs, k);
  }

  /** The loop from `Snapshot(k)` to the end. */
  lemma {:induction false} BatchFromSnapshot(js: seq<Job>, runs: seq<Run>, k: nat)
    requires UniqueIds(js)
    requires RunsAt(js, runs)
    requires k <= |runs|
    ensures LoopFromSnapshot(js, runs, k)
    decreases |runs| - k
  {
    if k == |runs| {
      LoopEnd(js, runs, k);
    } else {
      BatchFromSnapshot(js, runs, k + 1);
      LoopTurn(js, runs, k);
    }
  }

  /** The whole batch in terms of snapshots. */
  lemma BatchSnapshots(js: seq<Job>, runs: seq<Run>)
    requires UniqueIds(js)
    requires RunsAt(js, runs)
    ensures RunsFor(PendingJobs(js), runs)
    ensures
      var b := BatchFrom(js, PendingJobs(js), runs, 0);
      && b.final == Snapshot(js, runs, |runs|)
      && b.writes == Interleave(Marks(js, runs), Results(js, runs), 0)
  {
    BatchFromSnapshot(js, runs, 0);
    SnapshotIds(js, runs, 0);
    assert Snapshot(js, runs, 0) == js;
  }

  /** With unique ids the batch replaces each record that was pending by
      its processing result, at its own index, and leaves every other
      record as it was; the array keeps its length. */
  lemma {:induction false} BatchOutcome(js: seq<Job>, config: Config, caps: Capabilities)
    requires UniqueIds(js)
    ensures
      var f := Batch(js, config, caps).final;
      && |f| == |js|
      && forall i :: 0 <= i < |js| ==>
           f[i] == if js[i].status == Pending then ProcessRun(js[i], config, caps).result else js[i]
  {
    var pos := PendingPositions(js);
    var runs := Outcomes(PendingJobs(js), config, caps);
    BatchSnapshots(js, runs);
    var f := Snapshot(js, runs, |runs|);
    forall i | 0 <= i < |js|
      ensures f[i] == if js[i].status == Pending then ProcessRun(js[i], config, caps).result else js[i]
    {
      if js[i].status == Pending {
        PositionsMembers(PendingFlags(js), 0, i);
        var k :| 0 <= k < |pos| && pos[k] == i;
        SnapshotPending(js, runs, |runs|, k);
        assert runs[k] == ProcessRun(PendingJobs(js)[k], config, caps);
      } else {
        SnapshotOther(js, runs, |runs|, i);
      }
    }
  }

  /** `s` is an array the batch can leave behind while on the `k`-th
      pending record of `js`: same length, every record that was not
      pending as read, the pending records before the `k`-th terminal, and
      those after it as read. */
  predicate Trail(js: seq<Job>, s: seq<Job>, k: nat) {
    var pos := PendingPositions(js);
    && |s| == |js|
    && (forall i :: 0 <= i < |js| && js[i].status != Pending ==> s[i] == js[i])
    && (forall j :: 0 <= j < k && j < |pos| ==> Terminal(s[pos[j]].status))
    && (forall j :: k < j < |pos| ==> s[pos[j]] == js[pos[j]])
  }

  /** The first write for the `k`-th pending record. */
  lemma MarkedTrail(js: seq<Job>, runs: seq<Run>, k: nat)
    requires RunsAt(js, runs)
    requires k < |runs|
    ensures Trail(js, Marked(js, runs, k), k)
    ensures Marked(js, runs, k)[PendingPositions(js)[k]] ==
      js[PendingPositions(js)[k]].(status := Processing)
  {
    var pos := PendingPositions(js);
    var s := Marked(js, runs, k);
    forall i | 0 <= i < |js| && js[i].status != Pending
      ensures s[i] == js[i]
    {
      SnapshotOther(js, runs, k, i);
    }
    PositionsOrdered(PendingFlags(js), 0);
    forall j | 0 <= j < |pos| && j != k
      ensures s[pos[j]] == if j < k then runs[j].result else js[pos[j]]
    {
      SnapshotPending(js, runs, k, j);
    }
  }

  /** The second write for the `k`-th pending record. */
  lemma ResultTrail(js: seq<Job>, runs: seq<Run>, k: nat)
    requires RunsAt(js, runs)
    requires k < |runs|
    ensures Trail(js, Snapshot(js, runs, k + 1), k)
    ensures Snapshot(js, runs, k + 1)[PendingPositions(js)[k]] == runs[k].result
  {
    var pos := PendingPositions(js);
    var s := Snapshot(js, runs, k + 1);
    forall i | 0 <= i < |js| && js[i].status != Pending
      ensures s[i] == js[i]
    {
      SnapshotOther(js, runs, k + 1, i);
    }
    forall j | 0 <= j < |pos|
      ensures s[pos[j]] == if j <= k then runs[j].result else js[pos[j]]
    {
      SnapshotPending(js, runs, k + 1, j);
    }
  }

  /** What a crash leaves behind. With unique ids the batch writes the
      array twice for the `k`-th pending record: first with that record
      marked `processing`, then with its processing result in its place;
      in both, the earlier pending records are terminal and everything
      else is as read. */
  lemma CrashTrail(js: seq<Job>, config: Config, caps: Capabilities, k: nat)
    requires UniqueIds(js)
    requires k < |PendingPositions(js)|
    ensures |Batch(js, config, caps).writes| == 2 * |PendingPositions(js)|
    ensures
      var p := PendingPositions(js)[k];
      var first := Batch(js, config, caps).writes[2 * k];
      && Trail(js, first, k)
      && first[p] == js[p].(status := Processing)
    ensures
      var p := PendingPositions(js)[k];
      var second := Batch(js, config, caps).writes[2 * k + 1];
      && Trail(js, second, k)
      && second[p] == ProcessRun(js[p], config, caps).result
  {
    var pend := PendingJobs(js);
    var runs := Outcomes(pend, config, caps);
    WritesTrail(js, runs, k);
    assert runs[k] == ProcessRun(pend[k], config, caps);
  }

  /** `CrashTrail` for any runs of the pending records. */
  lemma WritesTrail(js: seq<Job>, runs: seq<Run>, k: nat)
    requires UniqueIds(js)
    requires RunsAt(js, runs)
    requires k < |runs|
    ensures RunsFor(PendingJobs(js), runs)
    ensures |BatchFrom(js, PendingJobs(js), runs, 0).writes| == 2 * |runs|
    ensures
      var p := PendingPositions(js)[k];
      var first := BatchFrom(js, PendingJobs(js), runs, 0).writes[2 * k];
      && Trail(js, first, k)
      && first[p] == js[p].(status := Processing)
    ensures
      var p := PendingPositions(js)[k];
      var second := BatchFrom(js, PendingJobs(js), runs, 0).writes[2 * k + 1];
      && Trail(js, second, k)
      && second[p] == runs[k].result
  {
    BatchWrites(js, runs, k);
    MarkedTrail(js, runs, k);
    ResultTrail(js, runs, k);
  }

  /** The two writes for the `k`-th pending record, with unique ids. */
  lemma BatchWrites(js: seq<Job>, runs: seq<Run>, k: nat)
    requires UniqueIds(js)
    requires RunsAt(js, runs)
    requires k < |runs|
    ensures RunsFor(PendingJobs(js), runs)
    ensures |BatchFrom(js, PendingJobs(js), runs, 0).writes| == 2 * |runs|
    ensures BatchFrom(js, PendingJobs(js), runs, 0).writes[2 * k] == Marked(js, runs, k)
    ensures BatchFrom(js, PendingJobs(js), runs, 0).writes[2 * k + 1] == Snapshot(js, runs, k + 1)
  {
    BatchSnapshots(js, runs);
    var ms, rs := Marks(js, runs), Results(js, runs);
    var ws := BatchFrom(js, PendingJobs(js), runs, 0).writes;
    assert ws == Interleave(ms, rs, 0);
    InterleaveAt(ms, rs, 0, k, 2 * k);
    assert ms[k] == Marked(js, runs, k);
    assert rs[k] == Processed(js, runs, k);
  }

  /** With two records sharing an id, `findIndex` lands on the first: the
      pending duplicate's result overwrites the other record, and the
      pending record itself is left `pending`. */
  lemma DuplicateIdOverwritesFirst(a: Job, b: Job, config: Config, caps: Capabilities)
    requires a.id == b.id && a.status != Pending && b.status == Pending
    ensures Batch([a, b], config, caps).final == [ProcessRun(b, config, caps).result, b]
  {
    var js := [a, b];
    var flags := PendingFlags(js);
    assert flags == [false, true];
    assert Positions(flags, 2) == [];
    assert Positions(flags, 1) == [1];
    assert Positions(flags, 0) == [1];
    assert PendingPositions(js) == [1];
    var pend := PendingJobs(js);
    assert pend == [b];
    var runs := Outcomes(pend, config, caps);
    assert runs[0] == ProcessRun(b, config, caps);
    assert FindIndex(js, b.id) == 0;
    var done := [runs[0].result, b];
    assert js[0 := js[0].(status := Processing)][0 := runs[0].result] == done;
    assert HasId(done, b.id) by {
      assert done[1].id == b.id;
    }
    assert BatchFrom(done, pend, runs, 1).final == done;
    assert BatchFrom(js, pend, runs, 0).final == BatchFrom(done, pend, runs, 1).final;
  }
}
