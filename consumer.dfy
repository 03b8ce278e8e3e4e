/**
 * The worker process: `consume_tasks(process_task)` connects to the broker,
 * declares the task queue, and for every delivery runs `on_message` with
 * `process_task` as the callback, acknowledging or rejecting each message.
 *
 * The broker is an oracle: the outcome of every connection attempt, whether
 * the channel setup raises, the deliveries in order (each a decoded body and
 * the outcomes of the database session `process_task` opens for it), how
 * consuming stops, and how `stop_consuming()` and `connection.close()` end
 * when they are called on the way out.
 */
module Consumer {
  import opened Wrappers
  import opened JsonModel
  import opened Uuids
  import opened Models
  import opened Queue
  import opened Worker

  /** How a call on the way out ends: `channel.stop_consuming()` or `connection.close()`. */
  datatype Call = Returns | Fails(error: Error)

  /** How `channel()`, `queue_declare`, `basic_qos` and `basic_consume` end; a failure may have closed the connection. */
  datatype Setup = SetupSucceeds | SetupRaises(error: Error, connectionClosed: bool)

  /** One message the broker delivers, and the outcomes of the session `process_task` opens for it. */
  datatype Delivery = Delivery(body: Parse, io: WorkerIo)

  /**
   * How `start_consuming()` ends after the deliveries: a keyboard interrupt,
   * followed by `stop_consuming()` with the outcome given; an exception; or a
   * plain return once the broker cancels the consumer. `connectionClosed` is
   * what `connection.is_closed` says by then.
   */
  datatype Stop =
    | Interrupted(stopConsuming: Call, connectionClosed: bool)
    | ConnectionLost(error: Error, connectionClosed: bool)
    | ConsumingEnded

  /** `consume_tasks` returns, or an exception escapes it. */
  datatype ConsumerExit = Stopped | Propagated(error: Error)

  /**
   * A run of `consume_tasks`: the connection attempts, how each delivery was
   * handled, the store afterwards, whether `stop_consuming` and `close` were
   * called, and whether the connection is left open without `close` being called.
   */
  datatype ConsumerRun = ConsumerRun(
    connectTrace: seq<Event>,
    handled: seq<Handling>,
    tasks: map<Uuid, Task>,
    stopCalled: bool,
    closeCalled: bool,
    leftOpen: bool,
    exit: ConsumerExit)

  /** The result of the deliveries so far: the store and how each message was handled. */
  datatype Consumed = Consumed(tasks: map<Uuid, Task>, handled: seq<Handling>)

  /** How `consume_tasks` leaves once the connection exists. */
  datatype WayOut = WayOut(stopCalled: bool, closeCalled: bool, leftOpen: bool, exit: ConsumerExit)

  /**
   * The `except Exception` clause: close the connection unless it is already
   * closed, then re-raise `e`; an exception from `close` escapes in its place.
   */
  function ExceptionExit(e: Error, connectionClosed: bool, close: Call): WayOut {
    if connectionClosed then WayOut(false, false, false, Propagated(e))
    else WayOut(false, true, false, Propagated(if close.Fails? then close.error else e))
  }

  /**
   * The `except KeyboardInterrupt` clause: `stop_consuming()`, then close the
   * connection unless it is already closed. An exception from either call
   * escapes; one from `stop_consuming` skips the close.
   */
  function InterruptExit(stopConsuming: Call, connectionClosed: bool, close: Call): WayOut {
    if stopConsuming.Fails? then WayOut(true, false, !connectionClosed, Propagated(stopConsuming.error))
    else if connectionClosed then WayOut(true, false, false, Stopped)
    else WayOut(true, true, false, if close.Fails? then Propagated(close.error) else Stopped)
  }

  /** One delivery: `on_message` with `process_task` as its callback, which runs only on a truthy identifier. */
  function Deliver(tasks: map<Uuid, Task>, d: Delivery): Consumed {
    if HasTaskId(d.body) then
      var r := ProcessSpec(tasks, TaskIdField(d.body.value), d.io);
      Consumed(r.tasks, [OnMessage(d.body, if r.exit.Returned? then Completed else Threw(r.exit.message))])
    else
      Consumed(tasks, [OnMessage(d.body, Completed)])
  }

  /** The deliveries handled one after another against the store each leaves behind. */
  function Consume(tasks: map<Uuid, Task>, deliveries: seq<Delivery>): (c: Consumed)
    ensures |c.handled| == |deliveries|
  {
    if |deliveries| == 0 then Consumed(tasks, [])
    else
      var before := Consume(tasks, deliveries[..|deliveries| - 1]);
      var last := Deliver(before.tasks, deliveries[|deliveries| - 1]);
      Consumed(last.tasks, before.handled + last.handled)
  }

  /**
   * `consume_tasks(process_task)`. With its default of 30 attempts
   * `get_connection()` never returns `None` (`Queue.ReturnsNoneIff`), so a
   * connection exists whenever it does not raise.
   */
  function ConsumeTasksSpec(tasks: map<Uuid, Task>, connect: seq<Outcome>, setup: Setup,
                            deliveries: seq<Delivery>, stop: Stop, close: Call): ConsumerRun
    requires DefaultConnectRetries <= |connect|
  {
    var c := GetConnectionSpec(DefaultConnectRetries, DefaultConnectDelay, connect);
    if c.result.Raised? then
      ConsumerRun(c.trace, [], tasks, false, false, false, Propagated(c.result.error))
    else
      match setup
      case SetupRaises(e, closed) =>
        var w := ExceptionExit(e, closed, close);
        ConsumerRun(c.trace, [], tasks, w.stopCalled, w.closeCalled, w.leftOpen, w.exit)
      case SetupSucceeds =>
        var d := Consume(tasks, deliveries);
        var w := match stop
          case Interrupted(stopConsuming, closed) => InterruptExit(stopConsuming, closed, close)
          case ConnectionLost(e, closed) => ExceptionExit(e, closed, close)
          case ConsumingEnded => WayOut(false, false, true, Stopped);
        ConsumerRun(c.trace, d.handled, d.tasks, w.stopCalled, w.closeCalled, w.leftOpen, w.exit)
  }

  /** `consume_tasks(process_task)` against the store `store`. */
  method ConsumeTasks(store: TaskStore, connect: seq<Outcome>, setup: Setup, deliveries: seq<Delivery>,
                      stop: Stop, close: Call)
    returns (connectTrace: seq<Event>, handled: seq<Handling>, stopCalled: bool, closeCalled: bool,
             leftOpen: bool, exit: ConsumerExit)
    requires DefaultConnectRetries <= |connect|
    modifies store
    ensures ConsumerRun(connectTrace, handled, store.tasks, stopCalled, closeCalled, leftOpen, exit)
            == ConsumeTasksSpec(old(store.tasks), connect, setup, deliveries, stop, close)
  {
    var result;
    connectTrace, result := GetConnection(DefaultConnectRetries, DefaultConnectDelay, connect);
    handled, stopCalled, closeCalled, leftOpen := [], false, false, false;
    if result.Raised? {
      exit := Propagated(result.error);
      return;
    }
    var closed := false;
    var error: Option<Error> := None;
    if setup.SetupRaises? {
      error, closed := Some(setup.error), setup.connectionClosed;
    } else {
      ghost var initial := store.tasks;
      for i := 0 to |deliveries|
        invariant Consumed(store.tasks, handled) == Consume(initial, deliveries[..i])
      {
        assert deliveries[..i + 1][..i] == deliveries[..i];
        var d := deliveries[i];
        var callback := Completed;
        if HasTaskId(d.body) {
          var steps, workerExit := store.ProcessTask(TaskIdField(d.body.value), d.io);
          callback := if workerExit.Returned? then Completed else Threw(workerExit.message);
        }
        handled := handled + [OnMessage(d.body, callback)];
      }
      assert deliveries[..|deliveries|] == deliveries;
      match stop
      case Interrupted(stopConsuming, connectionClosed) =>
        stopCalled, closed := true, connectionClosed;
        if stopConsuming.Fails? {
          leftOpen := !closed;
          exit := Propagated(stopConsuming.error);
          return;
        }
      case ConnectionLost(e, connectionClosed) =>
        error, closed := Some(e), connectionClosed;
      case ConsumingEnded =>
        leftOpen := true;
        exit := Stopped;
        return;
    }
    // the two `except` clauses: close unless closed, then re-raise or return
    exit := if error.Some? then Propagated(error.value) else Stopped;
    if !closed {
      closeCalled := true;
      if close.Fails? {
        exit := Propagated(close.error);
      }
    }
  }

  // ---------------------------------------------------------------------------
  // Properties
  // ---------------------------------------------------------------------------

  /**
   * A message is acknowledged exactly when it carries a truthy task
   * identifier and `process_task` returns normally on it; a message without
   * one is rejected for good without touching the store.
   */
  lemma DeliverDecision(tasks: map<Uuid, Task>, d: Delivery)
    ensures var c := Deliver(tasks, d);
      |c.handled| == 1
      && (c.handled[0].decision == Ack <==>
            HasTaskId(d.body) && ProcessSpec(tasks, TaskIdField(d.body.value), d.io).exit.Returned?)
    ensures var c := Deliver(tasks, d);
      !HasTaskId(d.body) ==> c.tasks == tasks && c.handled[0].callbackArg.None?
  {
  }

  /**
   * When the session's rollback and close succeed, every message with a
   * truthy task identifier is acknowledged, whatever else fails: errors inside
   * `process_task` are recorded, not raised.
   */
  lemma DeliverAcksWhenSessionEnds(tasks: map<Uuid, Task>, d: Delivery)
    requires HasTaskId(d.body)
    requires d.io.close.Succeeds? && d.io.rollback.Succeeds?
    ensures Deliver(tasks, d).handled[0].decision == Ack
  {
    ProcessExit(tasks, TaskIdField(d.body.value), d.io);
  }

  /** Each message is handled against the store the messages before it left behind. */
  lemma {:induction false} ConsumeInOrder(tasks: map<Uuid, Task>, deliveries: seq<Delivery>)
    ensures var c := Consume(tasks, deliveries);
      forall i :: 0 <= i < |deliveries| ==>
        c.handled[i] == Deliver(Consume(tasks, deliveries[..i]).tasks, deliveries[i]).handled[0]
  {
    if |deliveries| > 0 {
      var n := |deliveries| - 1;
      var init := deliveries[..n];
      var before := Consume(tasks, init);
      var last := Deliver(before.tasks, deliveries[n]);
      var c := Consume(tasks, deliveries);
      assert c.handled == before.handled + last.handled;
      ConsumeInOrder(tasks, init);
      forall i | 0 <= i < |deliveries|
        ensures c.handled[i] == Deliver(Consume(tasks, deliveries[..i]).tasks, deliveries[i]).handled[0]
      {
        if i < n {
          assert deliveries[..i] == init[..i];
          assert init[i] == deliveries[i];
          assert c.handled[i] == before.handled[i];
        } else {
          assert deliveries[..i] == init;
        }
      }
    }
  }

  /** Consuming adds and removes no record and changes no payload. */
  lemma {:induction false} ConsumeFrame(tasks: map<Uuid, Task>, deliveries: seq<Delivery>)
    ensures Consume(tasks, deliveries).tasks.Keys == tasks.Keys
    ensures forall k :: k in tasks ==> Consume(tasks, deliveries).tasks[k].payload == tasks[k].payload
  {
    if |deliveries| > 0 {
      var before := Consume(tasks, deliveries[..|deliveries| - 1]);
      ConsumeFrame(tasks, deliveries[..|deliveries| - 1]);
      var d := deliveries[|deliveries| - 1];
      if HasTaskId(d.body) {
        ProcessFrame(before.tasks, TaskIdField(d.body.value), d.io);
      }
    }
  }

  /** Consuming keeps the invariant that terminal records carry a result. */
  lemma {:induction false} ConsumeKeepsResultWhenTerminal(tasks: map<Uuid, Task>, deliveries: seq<Delivery>)
    requires forall k :: k in tasks ==> ResultWhenTerminal(tasks[k])
    ensures forall k :: k in Consume(tasks, deliveries).tasks ==> ResultWhenTerminal(Consume(tasks, deliveries).tasks[k])
  {
    if |deliveries| > 0 {
      var before := Consume(tasks, deliveries[..|deliveries| - 1]);
      ConsumeKeepsResultWhenTerminal(tasks, deliveries[..|deliveries| - 1]);
      assert forall k :: k in before.tasks ==> ResultWhenTerminal(before.tasks[k]);
      var d := deliveries[|deliveries| - 1];
      assert Consume(tasks, deliveries).tasks == Deliver(before.tasks, d).tasks;
      if HasTaskId(d.body) {
        ProcessKeepsResultWhenTerminal(before.tasks, TaskIdField(d.body.value), d.io);
      }
    }
  }

  /** With every session's rollback and close succeeding, every message with a truthy task identifier is acknowledged. */
  lemma ConsumeAcksWhenSessionsEnd(tasks: map<Uuid, Task>, deliveries: seq<Delivery>)
    requires forall i :: 0 <= i < |deliveries| ==> deliveries[i].io.close.Succeeds? && deliveries[i].io.rollback.Succeeds?
    ensures var c := Consume(tasks, deliveries);
      forall i :: 0 <= i < |deliveries| && HasTaskId(deliveries[i].body) ==> c.handled[i].decision == Ack
  {
    ConsumeInOrder(tasks, deliveries);
    forall i | 0 <= i < |deliveries| && HasTaskId(deliveries[i].body)
      ensures Consume(tasks, deliveries).handled[i].decision == Ack
    {
      DeliverAcksWhenSessionEnds(Consume(tasks, deliveries[..i]).tasks, deliveries[i]);
    }
  }

  /**
   * After an exception, or an interrupt whose `stop_consuming()` returns, the
   * connection is closed unless it is closed already. It stays open when
   * consuming ends by itself, or when `stop_consuming()` raises.
   */
  lemma ConsumerConnection(tasks: map<Uuid, Task>, connect: seq<Outcome>, setup: Setup,
                           deliveries: seq<Delivery>, stop: Stop, close: Call)
    requires DefaultConnectRetries <= |connect|
    ensures var r := ConsumeTasksSpec(tasks, connect, setup, deliveries, stop, close);
      var connected := GetConnectionSpec(DefaultConnectRetries, DefaultConnectDelay, connect).result.Connected?;
      r.leftOpen <==>
        connected && setup.SetupSucceeds?
        && (stop.ConsumingEnded? || (stop.Interrupted? && stop.stopConsuming.Fails? && !stop.connectionClosed))
    ensures var r := ConsumeTasksSpec(tasks, connect, setup, deliveries, stop, close);
      var connected := GetConnectionSpec(DefaultConnectRetries, DefaultConnectDelay, connect).result.Connected?;
      r.closeCalled <==>
        connected
        && (if setup.SetupRaises? then !setup.connectionClosed
            else !stop.ConsumingEnded? && !stop.connectionClosed && !(stop.Interrupted? && stop.stopConsuming.Fails?))
    ensures var r := ConsumeTasksSpec(tasks, connect, setup, deliveries, stop, close);
      var connected := GetConnectionSpec(DefaultConnectRetries, DefaultConnectDelay, connect).result.Connected?;
      r.stopCalled <==> connected && setup.SetupSucceeds? && stop.Interrupted?
    ensures var r := ConsumeTasksSpec(tasks, connect, setup, deliveries, stop, close);
      r.stopCalled && !r.closeCalled ==> stop.stopConsuming.Fails? || stop.connectionClosed
  {
    ReturnsNoneIff(DefaultConnectRetries, DefaultConnectDelay, connect);
  }

  /**
   * `consume_tasks` returns normally only after consuming ends, or after an
   * interrupt whose `stop_consuming()` and `close()` do not raise; any other
   * exception, and any connection failure, escapes. An exception from
   * `close()` escapes in place of the one being handled. Messages are handled
   * only once the channel is set up.
   */
  lemma ConsumerExitIff(tasks: map<Uuid, Task>, connect: seq<Outcome>, setup: Setup,
                        deliveries: seq<Delivery>, stop: Stop, close: Call)
    requires DefaultConnectRetries <= |connect|
    ensures var r := ConsumeTasksSpec(tasks, connect, setup, deliveries, stop, close);
      var connected := GetConnectionSpec(DefaultConnectRetries, DefaultConnectDelay, connect).result.Connected?;
      r.exit == Stopped <==>
        connected && setup.SetupSucceeds?
        && (stop.ConsumingEnded?
            || (stop.Interrupted? && stop.stopConsuming.Returns? && (stop.connectionClosed || close.Returns?)))
    ensures var r := ConsumeTasksSpec(tasks, connect, setup, deliveries, stop, close);
      var c := GetConnectionSpec(DefaultConnectRetries, DefaultConnectDelay, connect);
      !c.result.Connected? ==> c.result.Raised? && r.exit == Propagated(c.result.error) && r.handled == [] && r.tasks == tasks
    ensures var r := ConsumeTasksSpec(tasks, connect, setup, deliveries, stop, close);
      r.closeCalled && close.Fails? ==> r.exit == Propagated(close.error)
    ensures var r := ConsumeTasksSpec(tasks, connect, setup, deliveries, stop, close);
      var connected := GetConnectionSpec(DefaultConnectRetries, DefaultConnectDelay, connect).result.Connected?;
      connected && setup.SetupRaises? && !(r.closeCalled && close.Fails?) ==> r.exit == Propagated(setup.error)
    ensures var r := ConsumeTasksSpec(tasks, connect, setup, deliveries, stop, close);
      var connected := GetConnectionSpec(DefaultConnectRetries, DefaultConnectDelay, connect).result.Connected?;
      connected && setup.SetupSucceeds? && stop.ConnectionLost? && !(r.closeCalled && close.Fails?) ==>
        r.exit == Propagated(stop.error)
    ensures var r := ConsumeTasksSpec(tasks, connect, setup, deliveries, stop, close);
      var connected := GetConnectionSpec(DefaultConnectRetries, DefaultConnectDelay, connect).result.Connected?;
      connected && setup.SetupSucceeds? && stop.Interrupted? && stop.stopConsuming.Fails? ==>
        r.exit == Propagated(stop.stopConsuming.error)
    ensures var r := ConsumeTasksSpec(tasks, connect, setup, deliveries, stop, close);
      var connected := GetConnectionSpec(DefaultConnectRetries, DefaultConnectDelay, connect).result.Connected?;
      (|r.handled| == |deliveries| <==> connected && setup.SetupSucceeds?) || deliveries == []
  {
    ReturnsNoneIff(DefaultConnectRetries, DefaultConnectDelay, connect);
  }

  /**
   * From enqueue to completion: the body `publish_task` sends for a stored
   * task, delivered to a worker whose session and executor succeed, leaves the
   * record DONE with the success message, and the message is acknowledged.
   */
  lemma EndToEnd(tasks: map<Uuid, Task>, u: Uuid, maxRetries: int, retryDelay: nat,
                 attempts: seq<PublishAttempt>, io: WorkerIo)
    requires u in tasks
    requires maxRetries <= |attempts| && WellFormedAttempts(attempts)
    requires io.load.Succeeds? && io.markProcessing.Succeeds? && io.markTerminal.Succeeds? && io.executorSucceeds
    ensures var trace := PublishSpec(Format(u), maxRetries, retryDelay, attempts).trace;
      forall j :: 0 <= j < |trace| && trace[j].Round? && trace[j].sent.Some? ==>
        var c := Deliver(tasks, Delivery(Parsed(trace[j].sent.value), io));
        c.tasks == tasks[u := tasks[u].(status := Done, result := Some(SuccessMessage(io.elapsed)))]
        && (c.handled[0].decision == Ack <==> io.close.Succeeds?)
  {
    PublishSendsOnlyTheBody(Format(u), maxRetries, retryDelay, attempts);
    ParseFormat(u);
    var body := MessageBody(Format(u));
    assert TaskIdField(body) == JStr(Format(u));
    assert Format(u) != [] by {
      FormatAlphabet(u);
    }
    ProcessNormalPath(tasks, JStr(Format(u)), io, u);
  }
}
