/**
 * The worker's handling of one task identifier: load the record, mark it
 * processing and commit, consult the executor, record the terminal outcome
 * and commit, and on any error best-effort mark the record failed; the session
 * is closed on every path.
 *
 * The database is the committed map from UUID to record. The session's
 * queries, commits, rollback and close are oracles (`Io`), and so is the
 * executor's outcome; the time the simulated work took enters only through
 * the text of the success message.
 */
module Worker {
  import opened Wrappers
  import opened JsonModel
  import opened Uuids
  import opened Models

  /** How one session operation ends. */
  datatype Io = Succeeds | Raises(message: string)

  /** The outcome of every operation `process_task` may perform, in program order. */
  datatype WorkerIo = WorkerIo(
    load: Io,               // the query that loads the record
    markProcessing: Io,     // the commit after setting PROCESSING
    executorSucceeds: bool, // the simulated executor's verdict
    elapsed: string,        // the processing time as the success message prints it
    markTerminal: Io,       // the commit after setting DONE or FAILED
    reload: Io,             // the handler's query when no record was loaded
    recoveryCommit: Io,     // the handler's commit of FAILED
    rollback: Io,           // the rollback after the handler itself failed
    close: Io)              // the close in the finally clause

  /** What the worker does, in order; a commit records what it writes and whether it became durable. */
  datatype Step =
    | ParseId
    | Query
    | Commit(status: TaskStatus, result: Option<string>, durable: bool)
    | Execute
    | Rollback
    | Close

  /** `process_task` returns, or an exception escapes it. */
  datatype Exit = Returned | Raised(message: string)

  datatype WorkerRun = WorkerRun(tasks: map<Uuid, Task>, steps: seq<Step>, exit: Exit)

  const SimulatedFailure: string := "Task processing failed (simulated error)"

  function SuccessMessage(elapsed: string): string {
    "Task processed successfully in " + elapsed + " seconds"
  }

  function ErrorResult(message: string): string {
    "Error: " + message
  }

  /** `uuid.UUID(task_id)`: only a string can be parsed; anything else raises. */
  function ParseTaskId(taskId: Json): Option<Uuid> {
    match taskId
    case JStr(s) => ParseUuid(s)
    case _ => None
  }

  /** The end of every path: a rollback if the handler itself failed, then the close of the session. */
  function Finish(tasks: map<Uuid, Task>, steps: seq<Step>, rolledBack: bool, io: WorkerIo): WorkerRun {
    WorkerRun(tasks, steps + (if rolledBack then [Rollback] else []) + [Close],
              if io.close.Raises? then Raised(io.close.message)
              else if rolledBack && io.rollback.Raises? then Raised(io.rollback.message)
              else Returned)
  }

  /** The handler with a record at hand: mark it failed with the error text and commit. */
  function RecoverLoaded(tasks: map<Uuid, Task>, steps: seq<Step>, key: Uuid, message: string, io: WorkerIo): WorkerRun
    requires key in tasks
  {
    var failed := tasks[key].(status := Failed, result := Some(ErrorResult(message)));
    if io.recoveryCommit.Succeeds? then
      Finish(tasks[key := failed], steps + [Commit(Failed, failed.result, true)], false, io)
    else
      Finish(tasks, steps + [Commit(Failed, failed.result, false)], true, io)
  }

  /**
   * The except clause of `process_task`. `loaded` is the key of the record the
   * session holds, if the try block got that far; otherwise the handler parses
   * the identifier and queries again. A failure inside the handler is followed
   * by a rollback.
   */
  function HandlerSpec(tasks: map<Uuid, Task>, steps: seq<Step>, taskId: Json, loaded: Option<Uuid>,
                       message: string, io: WorkerIo): WorkerRun
    requires loaded.Some? ==> loaded.value in tasks
  {
    if loaded.Some? then
      RecoverLoaded(tasks, steps, loaded.value, message, io)
    else
      match ParseTaskId(taskId)
      case None => Finish(tasks, steps + [ParseId], true, io)
      case Some(key) =>
        if io.reload.Raises? then Finish(tasks, steps + [ParseId, Query], true, io)
        else if key !in tasks then Finish(tasks, steps + [ParseId, Query], false, io)
        else RecoverLoaded(tasks, steps + [ParseId, Query], key, message, io)
  }

  /** The message of the `ValueError` raised for an identifier that is not a UUID. */
  const BadUuid: string := "badly formed hexadecimal UUID string"

  /**
   * Where the try block of `process_task` leaves off: the committed records,
   * the steps so far, the key of the record the session holds (if one was
   * loaded) and the exception that left the block (if any).
   */
  datatype TryRun = TryRun(tasks: map<Uuid, Task>, steps: seq<Step>, loaded: Option<Uuid>, error: Option<string>)

  /** The try block of `process_task`. */
  function TrySpec(tasks: map<Uuid, Task>, taskId: Json, io: WorkerIo): (r: TryRun)
    ensures r.tasks.Keys == tasks.Keys
    ensures r.loaded.Some? ==> r.loaded.value in tasks && r.tasks[r.loaded.value].payload == tasks[r.loaded.value].payload
  {
    match ParseTaskId(taskId)
    case None => TryRun(tasks, [ParseId], None, Some(BadUuid))
    case Some(key) =>
      if io.load.Raises? then
        TryRun(tasks, [ParseId, Query], None, Some(io.load.message))
      else if key !in tasks then
        TryRun(tasks, [ParseId, Query], None, None)
      else
        var processing := tasks[key].(status := Processing);
        var mark := Commit(Processing, processing.result, io.markProcessing.Succeeds?);
        if io.markProcessing.Raises? then
          TryRun(tasks, [ParseId, Query, mark], Some(key), Some(io.markProcessing.message))
        else
          var marked := tasks[key := processing];
          var terminal :=
            if io.executorSucceeds then processing.(status := Done, result := Some(SuccessMessage(io.elapsed)))
            else processing.(status := Failed, result := Some(SimulatedFailure));
          var steps := [ParseId, Query, mark, Execute, Commit(terminal.status, terminal.result, io.markTerminal.Succeeds?)];
          if io.markTerminal.Raises? then
            TryRun(marked, steps, Some(key), Some(io.markTerminal.message))
          else
            TryRun(marked[key := terminal], steps, Some(key), None)
  }

  /** What `process_task(task_id)` does to the committed records, step by step. */
  function ProcessSpec(tasks: map<Uuid, Task>, taskId: Json, io: WorkerIo): WorkerRun {
    var t := TrySpec(tasks, taskId, io);
    if t.error.Some? then HandlerSpec(t.tasks, t.steps, taskId, t.loaded, t.error.value, io)
    else Finish(t.tasks, t.steps, false, io)
  }

  /** A commit that became durable. */
  predicate DurableCommit(s: Step) {
    s.Commit? && s.durable
  }

  /** The commits in `steps` that became durable, in order. */
  function DurableCommits(steps: seq<Step>): (d: seq<Step>)
    ensures |d| <= |steps|
    ensures forall i :: 0 <= i < |d| ==> DurableCommit(d[i])
  {
    if |steps| == 0 then []
    else DurableCommits(steps[..|steps| - 1])
         + (if DurableCommit(steps[|steps| - 1]) then [steps[|steps| - 1]] else [])
  }

  lemma {:induction false} DurableCommitsAppend(a: seq<Step>, b: seq<Step>)
    ensures DurableCommits(a + b) == DurableCommits(a) + DurableCommits(b)
    decreases |b|
  {
    if |b| == 0 {
      assert a + b == a;
    } else {
      assert (a + b)[..|a + b| - 1] == a + b[..|b| - 1];
      DurableCommitsAppend(a, b[..|b| - 1]);
    }
  }

  lemma {:induction false} NoDurableCommits(steps: seq<Step>)
    requires forall i :: 0 <= i < |steps| ==> !steps[i].Commit?
    ensures DurableCommits(steps) == []
  {
    if |steps| > 0 {
      NoDurableCommits(steps[..|steps| - 1]);
    }
  }

  lemma DurableCommitsSnoc(a: seq<Step>, c: Step)
    ensures DurableCommits(a + [c]) == DurableCommits(a) + (if DurableCommit(c) then [c] else [])
  {
    assert (a + [c])[..|a|] == a;
  }

  lemma DurableCommitsOfThree(x: Step, y: Step, c: Step)
    requires !x.Commit? && !y.Commit?
    ensures DurableCommits([x, y, c]) == if DurableCommit(c) then [c] else []
  {
    NoDurableCommits([x, y]);
    DurableCommitsSnoc([x, y], c);
    assert [x, y] + [c] == [x, y, c];
  }

  lemma DurableCommitsOfFive(x: Step, y: Step, c: Step, z: Step, e: Step)
    requires !x.Commit? && !y.Commit? && !z.Commit?
    ensures DurableCommits([x, y, c, z, e])
            == (if DurableCommit(c) then [c] else []) + (if DurableCommit(e) then [e] else [])
  {
    DurableCommitsOfThree(x, y, c);
    DurableCommitsSnoc([x, y, c], z);
    assert [x, y, c] + [z] == [x, y, c, z];
    DurableCommitsSnoc([x, y, c, z], e);
    assert [x, y, c, z] + [e] == [x, y, c, z, e];
  }

  lemma FinishCommits(tasks: map<Uuid, Task>, steps: seq<Step>, rolledBack: bool, io: WorkerIo)
    ensures DurableCommits(Finish(tasks, steps, rolledBack, io).steps) == DurableCommits(steps)
  {
    var tail := (if rolledBack then [Rollback] else []) + [Close];
    assert Finish(tasks, steps, rolledBack, io).steps == steps + tail;
    DurableCommitsAppend(steps, tail);
  }

  lemma RecoverLoadedCommits(tasks: map<Uuid, Task>, steps: seq<Step>, key: Uuid, message: string, io: WorkerIo)
    requires key in tasks
    ensures var r := RecoverLoaded(tasks, steps, key, message, io);
      var failed := Commit(Failed, Some(ErrorResult(message)), true);
      if io.recoveryCommit.Succeeds? then
        DurableCommits(r.steps) == DurableCommits(steps) + [failed]
        && r.tasks == tasks[key := tasks[key].(status := Failed, result := failed.result)]
      else
        DurableCommits(r.steps) == DurableCommits(steps) && r.tasks == tasks
  {
    var failed := tasks[key].(status := Failed, result := Some(ErrorResult(message)));
    var commit := Commit(Failed, failed.result, io.recoveryCommit.Succeeds?);
    DurableCommitsSnoc(steps, commit);
    if io.recoveryCommit.Succeeds? {
      FinishCommits(tasks[key := failed], steps + [commit], false, io);
    } else {
      FinishCommits(tasks, steps + [commit], true, io);
    }
  }

  /** The exception `process_task`'s except clause records: the first step of the try block that raised. */
  function FirstError(io: WorkerIo): string
    requires io.load.Raises? || io.markProcessing.Raises? || io.markTerminal.Raises?
  {
    if io.load.Raises? then io.load.message
    else if io.markProcessing.Raises? then io.markProcessing.message
    else io.markTerminal.message
  }

  /** A terminal record carries a result: the invariant `process_task` keeps. */
  predicate ResultWhenTerminal(t: Task) {
    t.status.IsTerminal() ==> t.result.Some?
  }

  /** A record has a result exactly when it is terminal. */
  predicate ResultIffTerminal(t: Task) {
    t.status.IsTerminal() <==> t.result.Some?
  }

  /** The try block's steps: it parses first, never rolls back or closes, and executes only right after a durable PROCESSING commit. */
  lemma TryShape(tasks: map<Uuid, Task>, taskId: Json, io: WorkerIo)
    ensures var t := TrySpec(tasks, taskId, io);
      1 <= |t.steps| && t.steps[0] == ParseId
      && forall i :: 0 <= i < |t.steps| ==> t.steps[i] != Close && t.steps[i] != Rollback
    ensures var t := TrySpec(tasks, taskId, io);
      Execute in t.steps <==>
        ParseTaskId(taskId).Some? && io.load.Succeeds? && ParseTaskId(taskId).value in tasks && io.markProcessing.Succeeds?
    ensures var t := TrySpec(tasks, taskId, io);
      forall i :: 0 <= i < |t.steps| && t.steps[i] == Execute ==>
        i == 3 && t.steps[2] == Commit(Processing, tasks[ParseTaskId(taskId).value].result, true)
    ensures var t := TrySpec(tasks, taskId, io);
      forall i :: 0 <= i < |t.steps| && t.steps[i].Commit? ==> t.steps[i].status != Pending
  {
  }

  /**
   * Every path is the try block's steps, then the except clause's (queries
   * and a commit only), then an optional rollback and the close; the
   * rollback follows only a failure inside the except clause.
   */
  lemma ProcessShape(tasks: map<Uuid, Task>, taskId: Json, io: WorkerIo)
    returns (t: map<Uuid, Task>, tail: seq<Step>, rolledBack: bool)
    ensures ProcessSpec(tasks, taskId, io) == Finish(t, TrySpec(tasks, taskId, io).steps + tail, rolledBack, io)
    ensures forall i :: 0 <= i < |tail| ==> tail[i] == ParseId || tail[i] == Query || (tail[i].Commit? && tail[i].status == Failed)
    ensures TrySpec(tasks, taskId, io).error.None? ==> tail == [] && !rolledBack
    ensures rolledBack ==> ParseTaskId(taskId).None? || io.reload.Raises? || io.recoveryCommit.Raises?
  {
    var r := TrySpec(tasks, taskId, io);
    if r.error.None? {
      t, tail, rolledBack := r.tasks, [], false;
      assert r.steps + tail == r.steps;
    } else {
      t, tail, rolledBack := HandlerShape(r.tasks, r.steps, taskId, r.loaded, r.error.value, io);
    }
  }

  /** The except clause adds queries and a commit, then an optional rollback and the close. */
  lemma HandlerShape(tasks: map<Uuid, Task>, steps: seq<Step>, taskId: Json, loaded: Option<Uuid>,
                     message: string, io: WorkerIo)
    returns (t: map<Uuid, Task>, tail: seq<Step>, rolledBack: bool)
    requires loaded.Some? ==> loaded.value in tasks
    ensures HandlerSpec(tasks, steps, taskId, loaded, message, io) == Finish(t, steps + tail, rolledBack, io)
    ensures forall i :: 0 <= i < |tail| ==> tail[i] == ParseId || tail[i] == Query || (tail[i].Commit? && tail[i].status == Failed)
    ensures rolledBack ==> ParseTaskId(taskId).None? || io.reload.Raises? || io.recoveryCommit.Raises?
  {
    var key: Uuid := if loaded.Some? then loaded.value else seq(32, _ => 0);
    var reload: seq<Step> := [];
    if loaded.None? {
      match ParseTaskId(taskId)
      case None =>
        reload := [ParseId];
      case Some(k) =>
        reload := [ParseId, Query];
        key := k;
    }
    if loaded.Some? || (ParseTaskId(taskId).Some? && io.reload.Succeeds? && key in tasks) {
      var failed := tasks[key].(status := Failed, result := Some(ErrorResult(message)));
      tail := reload + [Commit(Failed, failed.result, io.recoveryCommit.Succeeds?)];
      assert steps + reload + [Commit(Failed, failed.result, io.recoveryCommit.Succeeds?)] == steps + tail;
      if io.recoveryCommit.Succeeds? {
        t, rolledBack := tasks[key := failed], false;
      } else {
        t, rolledBack := tasks, true;
      }
    } else {
      t, tail := tasks, reload;
      rolledBack := ParseTaskId(taskId).None? || io.reload.Raises?;
    }
  }

  /** Every path starts by parsing the identifier and ends with exactly one close of the session. */
  lemma ProcessCloses(tasks: map<Uuid, Task>, taskId: Json, io: WorkerIo)
    ensures var r := ProcessSpec(tasks, taskId, io);
      2 <= |r.steps| && r.steps[0] == ParseId && r.steps[|r.steps| - 1] == Close
    ensures var r := ProcessSpec(tasks, taskId, io);
      forall i :: 0 <= i < |r.steps| - 1 ==> r.steps[i] != Close
  {
    TryShape(tasks, taskId, io);
    var t, tail, rolledBack := ProcessShape(tasks, taskId, io);
  }

  /**
   * `process_task` returns normally exactly when the close succeeds and, if the
   * handler failed, so does the rollback; otherwise the close's exception
   * escapes, or failing that the rollback's.
   */
  lemma ProcessExit(tasks: map<Uuid, Task>, taskId: Json, io: WorkerIo)
    ensures var r := ProcessSpec(tasks, taskId, io);
      r.exit == Returned <==> io.close.Succeeds? && (Rollback in r.steps ==> io.rollback.Succeeds?)
    ensures var r := ProcessSpec(tasks, taskId, io);
      io.close.Raises? ==> r.exit == Raised(io.close.message)
    ensures var r := ProcessSpec(tasks, taskId, io);
      r.exit.Raised? && io.close.Succeeds? ==> Rollback in r.steps && r.exit == Raised(io.rollback.message)
  {
    TryShape(tasks, taskId, io);
    var t, tail, rolledBack := ProcessShape(tasks, taskId, io);
    var steps := TrySpec(tasks, taskId, io).steps + tail;
    assert Rollback !in steps;
    assert Rollback in ProcessSpec(tasks, taskId, io).steps <==> rolledBack;
  }

  /** A rollback follows only a failure inside the except clause: a bad identifier, a failed reload or a failed recovery commit. */
  lemma ProcessRollsBackOnlyAfterHandlerFailure(tasks: map<Uuid, Task>, taskId: Json, io: WorkerIo)
    ensures var r := ProcessSpec(tasks, taskId, io);
      Rollback in r.steps ==> ParseTaskId(taskId).None? || io.reload.Raises? || io.recoveryCommit.Raises?
  {
    TryShape(tasks, taskId, io);
    var t, tail, rolledBack := ProcessShape(tasks, taskId, io);
    assert Rollback !in TrySpec(tasks, taskId, io).steps + tail;
  }

  /** No record is added or removed, no payload changes, and only the record under the given identifier can change. */
  lemma ProcessFrame(tasks: map<Uuid, Task>, taskId: Json, io: WorkerIo)
    ensures ProcessSpec(tasks, taskId, io).tasks.Keys == tasks.Keys
    ensures forall k :: k in tasks ==> ProcessSpec(tasks, taskId, io).tasks[k].payload == tasks[k].payload
    ensures forall k :: k in tasks && ParseTaskId(taskId) != Some(k) ==> ProcessSpec(tasks, taskId, io).tasks[k] == tasks[k]
  {
    ProcessDurableCommits(tasks, taskId, io);
  }

  /** The try block's durable commits: none, a PROCESSING commit, or that followed by the terminal commit without an error. */
  lemma TryDurableCommits(tasks: map<Uuid, Task>, taskId: Json, io: WorkerIo)
    ensures var t := TrySpec(tasks, taskId, io);
      t.loaded.None? ==> DurableCommits(t.steps) == [] && t.tasks == tasks
    ensures var t := TrySpec(tasks, taskId, io);
      t.loaded.Some? ==> t.loaded == ParseTaskId(taskId)
    ensures var t := TrySpec(tasks, taskId, io);
      var d := DurableCommits(t.steps);
      t.loaded.Some? ==>
        var k := t.loaded.value;
        (d == [] ==> t.tasks == tasks)
        && (d != [] ==> t.tasks == tasks[k := tasks[k].(status := d[|d| - 1].status, result := d[|d| - 1].result)])
        && |d| <= 2 && (|d| >= 1 ==> d[0].status == Processing)
        && (|d| == 2 ==> d[1].status.IsTerminal() && t.error.None?)
  {
    var t := TrySpec(tasks, taskId, io);
    match ParseTaskId(taskId)
    case None =>
      assert t.steps == [ParseId];
      NoDurableCommits(t.steps);
    case Some(key) =>
      if io.load.Raises? || key !in tasks {
        assert t.steps == [ParseId, Query] && t.loaded.None? && t.tasks == tasks;
        NoDurableCommits(t.steps);
      } else {
        var processing := tasks[key].(status := Processing);
        var mark := Commit(Processing, processing.result, io.markProcessing.Succeeds?);
        if io.markProcessing.Raises? {
          assert t == TryRun(tasks, [ParseId, Query, mark], Some(key), Some(io.markProcessing.message));
          DurableCommitsOfThree(ParseId, Query, mark);
        } else {
          var terminal :=
            if io.executorSucceeds then processing.(status := Done, result := Some(SuccessMessage(io.elapsed)))
            else processing.(status := Failed, result := Some(SimulatedFailure));
          var last := Commit(terminal.status, terminal.result, io.markTerminal.Succeeds?);
          assert t.steps == [ParseId, Query, mark, Execute, last] && t.loaded == Some(key);
          DurableCommitsOfFive(ParseId, Query, mark, Execute, last);
          if io.markTerminal.Succeeds? {
            assert t.tasks == tasks[key := processing][key := terminal];
            assert tasks[key := processing][key := terminal]
              == tasks[key := tasks[key].(status := last.status, result := last.result)];
          } else {
            assert t.tasks == tasks[key := processing];
          }
        }
      }
  }

  /** Every run of `process_task` changes the store only through its durable commits, in the order `DurableHistory` allows. */
  lemma ProcessDurableCommits(tasks: map<Uuid, Task>, taskId: Json, io: WorkerIo)
    ensures DurableHistory(tasks, ParseTaskId(taskId), ProcessSpec(tasks, taskId, io))
  {
    var t := TrySpec(tasks, taskId, io);
    var key := ParseTaskId(taskId);
    TryDurableCommits(tasks, taskId, io);
    var r := ProcessSpec(tasks, taskId, io);
    if t.error.None? {
      assert r == Finish(t.tasks, t.steps, false, io);
      FinishCommits(t.tasks, t.steps, false, io);
      assert DurableHistory(tasks, key, r);
    } else if t.loaded.Some? {
      assert r == RecoverLoaded(t.tasks, t.steps, t.loaded.value, t.error.value, io);
      RecoverLoadedHistory(tasks, key, t, io);
    } else {
      assert r == HandlerSpec(t.tasks, t.steps, taskId, None, t.error.value, io);
      HandlerReloadCommits(t.tasks, t.steps, taskId, t.error.value, io);
      assert DurableHistory(tasks, key, r);
    }
  }

  /**
   * The store of run `r` on `tasks`, whose identifier parsed to `key`, changed
   * only through durable commits, and they move forward: at most a PROCESSING
   * commit followed by one terminal commit (or a lone PROCESSING or FAILED
   * commit). The store ends as it started with the record's status and result
   * replaced by those of the last durable commit.
   */
  predicate DurableHistory(tasks: map<Uuid, Task>, key: Option<Uuid>, r: WorkerRun) {
    var d := DurableCommits(r.steps);
    (d == [] ==> r.tasks == tasks)
    && (d != [] ==>
          key.Some? && key.value in tasks
          && r.tasks == tasks[key.value := tasks[key.value].(status := d[|d| - 1].status, result := d[|d| - 1].result)])
    && |d| <= 2
    && (|d| == 1 ==> d[0].status == Processing || d[0].status == Failed)
    && (|d| == 2 ==> d[0].status == Processing && d[1].status.IsTerminal())
  }

  /** The except clause with the record loaded by the try block adds at most a FAILED commit. */
  lemma RecoverLoadedHistory(tasks: map<Uuid, Task>, key: Option<Uuid>, t: TryRun, io: WorkerIo)
    requires t.tasks.Keys == tasks.Keys && t.loaded.Some? && t.loaded == key && key.value in tasks
    requires t.error.Some?
    requires var d := DurableCommits(t.steps);
      var k := key.value;
      (d == [] ==> t.tasks == tasks)
      && (d != [] ==> t.tasks == tasks[k := tasks[k].(status := d[|d| - 1].status, result := d[|d| - 1].result)])
      && |d| <= 1 && (|d| == 1 ==> d[0].status == Processing)
    ensures DurableHistory(tasks, key, RecoverLoaded(t.tasks, t.steps, key.value, t.error.value, io))
  {
    RecoverLoadedCommits(t.tasks, t.steps, key.value, t.error.value, io);
    var k := key.value;
    var d := DurableCommits(t.steps);
    if io.recoveryCommit.Succeeds? && d != [] {
      assert t.tasks[k := t.tasks[k].(status := Failed, result := Some(ErrorResult(t.error.value)))]
        == tasks[k := tasks[k].(status := Failed, result := Some(ErrorResult(t.error.value)))];
    }
  }

  /** The except clause without a loaded record commits at most the FAILED record it reloads. */
  lemma HandlerReloadCommits(tasks: map<Uuid, Task>, steps: seq<Step>, taskId: Json, message: string, io: WorkerIo)
    requires DurableCommits(steps) == []
    ensures var r := HandlerSpec(tasks, steps, taskId, None, message, io);
      var d := DurableCommits(r.steps);
      (d == [] && r.tasks == tasks)
      || (ParseTaskId(taskId).Some? && ParseTaskId(taskId).value in tasks
          && d == [Commit(Failed, Some(ErrorResult(message)), true)]
          && r.tasks == tasks[ParseTaskId(taskId).value := tasks[ParseTaskId(taskId).value].(status := Failed, result := Some(ErrorResult(message)))])
  {
    match ParseTaskId(taskId)
    case None =>
      DurableCommitsSnoc(steps, ParseId);
      FinishCommits(tasks, steps + [ParseId], true, io);
    case Some(key) =>
      NoDurableCommits([ParseId, Query]);
      DurableCommitsAppend(steps, [ParseId, Query]);
      if io.reload.Raises? {
        FinishCommits(tasks, steps + [ParseId, Query], true, io);
      } else if key !in tasks {
        FinishCommits(tasks, steps + [ParseId, Query], false, io);
      } else {
        RecoverLoadedCommits(tasks, steps + [ParseId, Query], key, message, io);
      }
  }

  /** When the identifier is not a UUID or no record has it, nothing is committed or executed and the store is unchanged. */
  lemma ProcessMissingTask(tasks: map<Uuid, Task>, taskId: Json, io: WorkerIo)
    requires ParseTaskId(taskId).None? || ParseTaskId(taskId).value !in tasks
    ensures var r := ProcessSpec(tasks, taskId, io);
      r.tasks == tasks && forall i :: 0 <= i < |r.steps| ==> !r.steps[i].Commit? && r.steps[i] != Execute
  {
    var t := TrySpec(tasks, taskId, io);
    assert t.tasks == tasks && t.loaded.None? && t.steps in {[ParseId], [ParseId, Query]};
    if t.error.Some? {
      assert ProcessSpec(tasks, taskId, io) == HandlerSpec(tasks, t.steps, taskId, None, t.error.value, io);
    }
  }

  /** An identifier that is not a UUID fails in the try block and again in the handler, which rolls back. */
  lemma ProcessInvalidId(tasks: map<Uuid, Task>, taskId: Json, io: WorkerIo)
    requires ParseTaskId(taskId).None?
    ensures ProcessSpec(tasks, taskId, io)
      == WorkerRun(tasks, [ParseId, ParseId, Rollback, Close],
                   if io.close.Raises? then Raised(io.close.message)
                   else if io.rollback.Raises? then Raised(io.rollback.message)
                   else Returned)
  {
  }

  /**
   * The executor is consulted exactly when the record was loaded and its
   * PROCESSING status durably committed, and only right after that commit.
   */
  lemma ProcessExecutesAfterProcessingCommit(tasks: map<Uuid, Task>, taskId: Json, io: WorkerIo)
    ensures var r := ProcessSpec(tasks, taskId, io);
      Execute in r.steps <==>
        ParseTaskId(taskId).Some? && io.load.Succeeds? && ParseTaskId(taskId).value in tasks && io.markProcessing.Succeeds?
    ensures var r := ProcessSpec(tasks, taskId, io);
      forall i :: 0 <= i < |r.steps| && r.steps[i] == Execute ==>
        i == 3 && r.steps[2] == Commit(Processing, tasks[ParseTaskId(taskId).value].result, true)
  {
    TryShape(tasks, taskId, io);
    var t, tail, rolledBack := ProcessShape(tasks, taskId, io);
    var r := ProcessSpec(tasks, taskId, io);
    var trySteps := TrySpec(tasks, taskId, io).steps;
    assert r.steps == trySteps + (tail + (if rolledBack then [Rollback] else []) + [Close]);
    assert Execute !in tail + (if rolledBack then [Rollback] else []) + [Close];
    forall i | 0 <= i < |r.steps| && r.steps[i] == Execute
      ensures i < |trySteps| && trySteps[i] == Execute
    {
    }
  }

  /**
   * When every query and commit of the try block succeeds, the record ends
   * DONE with the success message or FAILED with the simulated error, through
   * exactly one terminal commit.
   */
  lemma ProcessNormalPath(tasks: map<Uuid, Task>, taskId: Json, io: WorkerIo, k: Uuid)
    requires ParseTaskId(taskId) == Some(k) && k in tasks
    requires io.load.Succeeds? && io.markProcessing.Succeeds? && io.markTerminal.Succeeds?
    ensures var r := ProcessSpec(tasks, taskId, io);
      var status := if io.executorSucceeds then Done else Failed;
      var result := Some(if io.executorSucceeds then SuccessMessage(io.elapsed) else SimulatedFailure);
      r.tasks == tasks[k := tasks[k].(status := status, result := result)]
      && r.steps == [ParseId, Query, Commit(Processing, tasks[k].result, true), Execute, Commit(status, result, true), Close]
      && (r.exit == Returned <==> io.close.Succeeds?)
  {
  }

  /**
   * When a query or commit of the try block raises, the record exists and the
   * handler's commit succeeds, the record ends FAILED with "Error: " and the
   * exception's text, and nothing is rolled back.
   */
  lemma ProcessRecordsError(tasks: map<Uuid, Task>, taskId: Json, io: WorkerIo, k: Uuid)
    requires ParseTaskId(taskId) == Some(k) && k in tasks
    requires io.load.Raises? || io.markProcessing.Raises? || io.markTerminal.Raises?
    requires io.load.Raises? ==> io.reload.Succeeds?
    requires io.recoveryCommit.Succeeds?
    ensures var r := ProcessSpec(tasks, taskId, io);
      r.tasks == tasks[k := tasks[k].(status := Failed, result := Some(ErrorResult(FirstError(io))))]
      && Rollback !in r.steps && (r.exit == Returned <==> io.close.Succeeds?)
  {
  }

  /**
   * When the handler's own commit fails as well, the session is rolled back
   * and the record keeps what was last durably committed: PROCESSING (with
   * its earlier result) once that commit went through, otherwise the record
   * as it was.
   */
  lemma ProcessRecoveryFails(tasks: map<Uuid, Task>, taskId: Json, io: WorkerIo, k: Uuid)
    requires ParseTaskId(taskId) == Some(k) && k in tasks
    requires io.load.Succeeds? && (io.markProcessing.Raises? || io.markTerminal.Raises?)
    requires io.recoveryCommit.Raises?
    ensures var r := ProcessSpec(tasks, taskId, io);
      r.tasks == (if io.markProcessing.Succeeds? then tasks[k := tasks[k].(status := Processing)] else tasks)
      && Rollback in r.steps
  {
  }

  /**
   * Within one call the durable commits move strictly forward along
   * PENDING -> PROCESSING -> {DONE, FAILED}, so at most one of them is
   * terminal; and no commit ever writes PENDING.
   */
  lemma ProcessCommitsMoveForward(tasks: map<Uuid, Task>, taskId: Json, io: WorkerIo)
    ensures var d := DurableCommits(ProcessSpec(tasks, taskId, io).steps);
      forall i, j :: 0 <= i < j < |d| ==> d[i].status.Rank() < d[j].status.Rank()
    ensures var d := DurableCommits(ProcessSpec(tasks, taskId, io).steps);
      forall i :: 0 <= i < |d| - 1 ==> !d[i].status.IsTerminal()
    ensures var d := DurableCommits(ProcessSpec(tasks, taskId, io).steps);
      forall i :: 0 <= i < |d| ==> d[i].status != Pending
    ensures var s := ProcessSpec(tasks, taskId, io).steps;
      forall i :: 0 <= i < |s| && s[i].Commit? ==> s[i].status != Pending
  {
    var r := ProcessSpec(tasks, taskId, io);
    assert DurableHistory(tasks, ParseTaskId(taskId), r) by {
      ProcessDurableCommits(tasks, taskId, io);
    }
    ProcessWritesNoPending(tasks, taskId, io);
  }

  /** No commit of `process_task`, durable or not, writes PENDING. */
  lemma ProcessWritesNoPending(tasks: map<Uuid, Task>, taskId: Json, io: WorkerIo)
    ensures var s := ProcessSpec(tasks, taskId, io).steps;
      forall i :: 0 <= i < |s| && s[i].Commit? ==> s[i].status != Pending
  {
    TryShape(tasks, taskId, io);
    var t, tail, rolledBack := ProcessShape(tasks, taskId, io);
    var steps := TrySpec(tasks, taskId, io).steps;
    var s := ProcessSpec(tasks, taskId, io).steps;
    assert s == steps + tail + (if rolledBack then [Rollback] else []) + [Close];
    forall i | 0 <= i < |s| && s[i].Commit?
      ensures s[i].status != Pending
    {
      if i < |steps| {
        assert s[i] == steps[i];
      } else if i < |steps| + |tail| {
        assert s[i] == tail[i - |steps|];
      }
    }
  }

  /** The try block depends on the store only through which records exist and their results, and keeps both alike. */
  lemma TryIgnoresStatuses(tasks1: map<Uuid, Task>, tasks2: map<Uuid, Task>, taskId: Json, io: WorkerIo)
    requires tasks1.Keys == tasks2.Keys
    requires forall k :: k in tasks1 ==> tasks1[k].result == tasks2[k].result
    ensures var t1, t2 := TrySpec(tasks1, taskId, io), TrySpec(tasks2, taskId, io);
      t1.steps == t2.steps && t1.loaded == t2.loaded && t1.error == t2.error
    ensures var t1, t2 := TrySpec(tasks1, taskId, io), TrySpec(tasks2, taskId, io);
      t1.tasks.Keys == t2.tasks.Keys && forall k :: k in t1.tasks ==> t1.tasks[k].result == t2.tasks[k].result
  {
    match ParseTaskId(taskId)
    case None =>
    case Some(key) =>
      if io.load.Succeeds? && key in tasks1 && io.markProcessing.Succeeds? {
        var t1, t2 := TrySpec(tasks1, taskId, io), TrySpec(tasks2, taskId, io);
        assert t1.steps == t2.steps;
        forall k | k in t1.tasks ensures t1.tasks[k].result == t2.tasks[k].result {
          if k != key {
            assert t1.tasks[k] == tasks1[k] && t2.tasks[k] == tasks2[k];
          }
        }
      }
  }

  /** So does the except clause. */
  lemma HandlerIgnoresStatuses(tasks1: map<Uuid, Task>, tasks2: map<Uuid, Task>, steps: seq<Step>, taskId: Json,
                               loaded: Option<Uuid>, message: string, io: WorkerIo)
    requires tasks1.Keys == tasks2.Keys
    requires forall k :: k in tasks1 ==> tasks1[k].result == tasks2[k].result
    requires loaded.Some? ==> loaded.value in tasks1
    ensures HandlerSpec(tasks1, steps, taskId, loaded, message, io).steps == HandlerSpec(tasks2, steps, taskId, loaded, message, io).steps
    ensures HandlerSpec(tasks1, steps, taskId, loaded, message, io).exit == HandlerSpec(tasks2, steps, taskId, loaded, message, io).exit
  {
  }

  /** The steps and the exit depend on the store only through which records exist and their results. */
  lemma ProcessStepsIgnoreStatuses(tasks1: map<Uuid, Task>, tasks2: map<Uuid, Task>, taskId: Json, io: WorkerIo)
    requires tasks1.Keys == tasks2.Keys
    requires forall k :: k in tasks1 ==> tasks1[k].result == tasks2[k].result
    ensures ProcessSpec(tasks1, taskId, io).steps == ProcessSpec(tasks2, taskId, io).steps
    ensures ProcessSpec(tasks1, taskId, io).exit == ProcessSpec(tasks2, taskId, io).exit
  {
    TryIgnoresStatuses(tasks1, tasks2, taskId, io);
    var t1, t2 := TrySpec(tasks1, taskId, io), TrySpec(tasks2, taskId, io);
    if t1.error.Some? {
      HandlerIgnoresStatuses(t1.tasks, t2.tasks, t1.steps, taskId, t1.loaded, t1.error.value, io);
    }
  }

  /**
   * The prior status is never consulted: whatever status the record starts
   * in (DONE or FAILED included), the same steps are taken, the same
   * exception escapes, and the same record is committed.
   */
  lemma ProcessIgnoresPriorStatus(tasks: map<Uuid, Task>, taskId: Json, io: WorkerIo, k: Uuid, prior: TaskStatus)
    requires ParseTaskId(taskId) == Some(k) && k in tasks
    ensures var r1 := ProcessSpec(tasks, taskId, io);
      var r2 := ProcessSpec(tasks[k := tasks[k].(status := prior)], taskId, io);
      r2.steps == r1.steps && r2.exit == r1.exit
      && r2.tasks == if DurableCommits(r1.steps) == [] then tasks[k := tasks[k].(status := prior)] else r1.tasks
  {
    var tasks2 := tasks[k := tasks[k].(status := prior)];
    var r1, r2 := ProcessSpec(tasks, taskId, io), ProcessSpec(tasks2, taskId, io);
    ProcessStepsIgnoreStatuses(tasks, tasks2, taskId, io);
    ProcessDurableCommits(tasks, taskId, io);
    ProcessDurableCommits(tasks2, taskId, io);
    HistoriesAgree(tasks, k, prior, r1, r2);
  }

  /** Two runs with the same steps on stores that differ only in one record's status agree once that record is committed. */
  lemma HistoriesAgree(tasks: map<Uuid, Task>, k: Uuid, prior: TaskStatus, r1: WorkerRun, r2: WorkerRun)
    requires k in tasks && r1.steps == r2.steps
    requires DurableHistory(tasks, Some(k), r1)
    requires DurableHistory(tasks[k := tasks[k].(status := prior)], Some(k), r2)
    ensures r2.tasks == if DurableCommits(r1.steps) == [] then tasks[k := tasks[k].(status := prior)] else r1.tasks
  {
    var tasks2 := tasks[k := tasks[k].(status := prior)];
    var d := DurableCommits(r1.steps);
    if d != [] {
      var last := d[|d| - 1];
      assert tasks2[k].(status := last.status, result := last.result) == tasks[k].(status := last.status, result := last.result);
      assert tasks2[k := tasks[k].(status := last.status, result := last.result)]
          == tasks[k := tasks[k].(status := last.status, result := last.result)];
    }
  }

  /** `process_task` keeps the invariant that terminal records carry a result. */
  lemma ProcessKeepsResultWhenTerminal(tasks: map<Uuid, Task>, taskId: Json, io: WorkerIo)
    requires forall k :: k in tasks ==> ResultWhenTerminal(tasks[k])
    ensures var r := ProcessSpec(tasks, taskId, io);
      forall k :: k in r.tasks ==> ResultWhenTerminal(r.tasks[k])
  {
  }

  /** On a record that is not yet terminal, `process_task` keeps "a result exactly when terminal". */
  lemma ProcessKeepsResultIffTerminal(tasks: map<Uuid, Task>, taskId: Json, io: WorkerIo)
    requires forall k :: k in tasks ==> ResultIffTerminal(tasks[k])
    requires ParseTaskId(taskId).Some? && ParseTaskId(taskId).value in tasks ==>
             !tasks[ParseTaskId(taskId).value].status.IsTerminal()
    ensures var r := ProcessSpec(tasks, taskId, io);
      forall k :: k in r.tasks ==> ResultIffTerminal(r.tasks[k])
  {
    var t := TrySpec(tasks, taskId, io);
    TryKeepsResultIffTerminal(tasks, taskId, io);
    if t.error.Some? {
      assert ProcessSpec(tasks, taskId, io) == HandlerSpec(t.tasks, t.steps, taskId, t.loaded, t.error.value, io);
      HandlerKeepsResultIffTerminal(t.tasks, t.steps, taskId, t.loaded, t.error.value, io);
    }
  }

  /** The try block writes PROCESSING only over a record without a result, and a terminal status only with one. */
  lemma TryKeepsResultIffTerminal(tasks: map<Uuid, Task>, taskId: Json, io: WorkerIo)
    requires forall k :: k in tasks ==> ResultIffTerminal(tasks[k])
    requires ParseTaskId(taskId).Some? && ParseTaskId(taskId).value in tasks ==>
             !tasks[ParseTaskId(taskId).value].status.IsTerminal()
    ensures var t := TrySpec(tasks, taskId, io);
      forall k :: k in t.tasks ==> ResultIffTerminal(t.tasks[k])
  {
  }

  /** The except clause writes FAILED together with a result, so it keeps "a result exactly when terminal". */
  lemma HandlerKeepsResultIffTerminal(tasks: map<Uuid, Task>, steps: seq<Step>, taskId: Json, loaded: Option<Uuid>,
                                      message: string, io: WorkerIo)
    requires loaded.Some? ==> loaded.value in tasks
    requires forall k :: k in tasks ==> ResultIffTerminal(tasks[k])
    ensures var r := HandlerSpec(tasks, steps, taskId, loaded, message, io);
      forall k :: k in r.tasks ==> ResultIffTerminal(r.tasks[k])
  {
  }

  /**
   * "A result exactly when terminal" does not survive a replay: a DONE record
   * processed again, whose terminal and recovery commits both fail, is left
   * PROCESSING with its earlier result.
   */
  lemma ReplayLeavesResultOnProcessing()
    ensures var k: Uuid := seq(32, _ => 0);
      var tasks := map[k := Task("payload", Done, Some("earlier result"))];
      var io := WorkerIo(Succeeds, Succeeds, true, "3.00", Raises("write failed"), Succeeds,
                         Raises("write failed"), Succeeds, Succeeds);
      ResultIffTerminal(tasks[k])
      && ProcessSpec(tasks, JStr(Format(k)), io).tasks[k] == Task("payload", Processing, Some("earlier result"))
      && !ResultIffTerminal(ProcessSpec(tasks, JStr(Format(k)), io).tasks[k])
  {
    var k: Uuid := seq(32, _ => 0);
    var tasks := map[k := Task("payload", Done, Some("earlier result"))];
    var io := WorkerIo(Succeeds, Succeeds, true, "3.00", Raises("write failed"), Succeeds,
                       Raises("write failed"), Succeeds, Succeeds);
    ParseFormat(k);
    ProcessRecoveryFails(tasks, JStr(Format(k)), io, k);
  }

  /** The committed task records, and the worker that updates them. */
  class TaskStore {
    var tasks: map<Uuid, Task>

    constructor (initial: map<Uuid, Task>)
      ensures tasks == initial
    {
      tasks := initial;
    }

    /** `db.commit()` of the record `t` under `key`: it becomes durable only if the commit succeeds. */
    method CommitRecord(key: Uuid, t: Task, outcome: Io)
      modifies this
      ensures tasks == if outcome.Succeeds? then old(tasks)[key := t] else old(tasks)
    {
      if outcome.Succeeds? {
        tasks := tasks[key := t];
      }
    }

    /**
     * The except clause of `process_task`; `task` is the record the session
     * holds, if any, under `key`. It returns the steps so far and whether the
     * handler itself failed, so that the session must be rolled back.
     */
    method Handle(taskId: Json, io: WorkerIo, task: Option<Task>, key: Uuid, message: string, steps: seq<Step>)
      returns (steps': seq<Step>, mustRollBack: bool)
      requires task.Some? ==> key in tasks && task.value.payload == tasks[key].payload
      modifies this
      ensures Finish(tasks, steps', mustRollBack, io)
        == HandlerSpec(old(tasks), steps, taskId, if task.Some? then Some(key) else None, message, io)
    {
      steps' := steps;
      var record := task;
      var recordKey := key;
      var failed := false;
      if record.None? {
        steps' := steps' + [ParseId];
        var again := ParseTaskId(taskId);
        if again.None? {
          failed := true;
        } else {
          recordKey := again.value;
          steps' := steps' + [Query];
          if io.reload.Raises? {
            failed := true;
          } else if recordKey in tasks {
            record := Some(tasks[recordKey]);
          }
        }
      }
      if !failed && record.Some? {
        record := Some(record.value.(status := Failed, result := Some(ErrorResult(message))));
        steps' := steps' + [Commit(Failed, record.value.result, io.recoveryCommit.Succeeds?)];
        CommitRecord(recordKey, record.value, io.recoveryCommit);
        failed := io.recoveryCommit.Raises?;
      }
      mustRollBack := failed;
    }

    /**
     * The try block of `process_task`. `task` is the record the session holds;
     * it is changed in place and reaches `tasks` only through a commit that
     * succeeds. `error` is the exception that left the block, if any; the
     * contract says how the rest of `process_task` continues from here.
     */
    method Attempt(taskId: Json, io: WorkerIo)
      returns (steps: seq<Step>, task: Option<Task>, key: Uuid, error: Option<string>)
      modifies this
      ensures task.Some? ==> key in tasks && task.value.payload == tasks[key].payload
      ensures TryRun(tasks, steps, if task.Some? then Some(key) else None, error) == TrySpec(old(tasks), taskId, io)
    {
      task := None;
      key := seq(32, _ => 0);
      error := None;
      steps := [ParseId];
      var parsed := ParseTaskId(taskId);
      if parsed.None? {
        error := Some(BadUuid);
      } else {
        key := parsed.value;
        steps := steps + [Query];
        if io.load.Raises? {
          error := Some(io.load.message);
        } else if key in tasks {
          task := Some(tasks[key].(status := Processing));
          steps := steps + [Commit(Processing, task.value.result, io.markProcessing.Succeeds?)];
          CommitRecord(key, task.value, io.markProcessing);
          if io.markProcessing.Raises? {
            error := Some(io.markProcessing.message);
          } else {
            steps := steps + [Execute];
            if io.executorSucceeds {
              task := Some(task.value.(status := Done, result := Some(SuccessMessage(io.elapsed))));
            } else {
              task := Some(task.value.(status := Failed, result := Some(SimulatedFailure)));
            }
            steps := steps + [Commit(task.value.status, task.value.result, io.markTerminal.Succeeds?)];
            CommitRecord(key, task.value, io.markTerminal);
            if io.markTerminal.Raises? {
              error := Some(io.markTerminal.message);
            }
          }
        }
        // a missing record is logged and the function returns
      }
    }

    /** `process_task(task_id)`: the try block, the except clause if it raised, and the close in the finally clause. */
    method ProcessTask(taskId: Json, io: WorkerIo) returns (steps: seq<Step>, exit: Exit)
      modifies this
      ensures WorkerRun(tasks, steps, exit) == ProcessSpec(old(tasks), taskId, io)
    {
      var task, key, error;
      steps, task, key, error := Attempt(taskId, io);
      var rolledBack := false;
      if error.Some? {
        steps, rolledBack := Handle(taskId, io, task, key, error.value, steps);
      }
      assert Finish(tasks, steps, rolledBack, io) == ProcessSpec(old(tasks), taskId, io);
      if rolledBack {
        steps := steps + [Rollback];
      }

      steps := steps + [Close];
      if io.close.Raises? {
        exit := Raised(io.close.message);
      } else if rolledBack && io.rollback.Raises? {
        exit := Raised(io.rollback.message);
      } else {
        exit := Returned;
      }
    }
  }
}
