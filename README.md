# bobr task queue — a Dafny model

This project models the core of a small task service. An HTTP endpoint stores a
task record and publishes its identifier to a RabbitMQ queue. A worker process
consumes the queue, processes each task, and records the outcome in a SQL
database. The model covers the four parts of that pipeline that carry logic:

- **Connecting** (`get_connection`): a bounded retry loop with capped exponential
  backoff. It retries only connection-type errors and re-raises the last one.
- **Publishing** (`publish_task`): an outer retry loop. Each round connects with a
  budget of three attempts, declares the queue, publishes the body
  `{"task_id": str(task_id)}` and closes the connection. The loop pauses for a
  fixed delay between rounds and returns `True` or `False`.
- **Consuming** (`consume_tasks` and its `on_message` handler): it connects
  with the defaults and sets up the channel. For each delivery it decides
  between acknowledging, rejecting, and rejecting with requeue. After an
  interrupt or an exception it closes the connection if that is still open,
  unless `stop_consuming()` raises after the interrupt.
- **Processing** (`process_task`): it loads the record and marks it PROCESSING
  (commit). It then consults the executor and marks the record DONE or FAILED
  (commit). If anything in that sequence raises, it marks the record FAILED with
  the error text (commit), and rolls back if that fails too. The session is
  always closed.

Every interaction with the outside world is an oracle given to the model:
- the outcome of each connection attempt;
- the step at which a publish round fails;
- what `json.loads` made of a delivered body;
- how consuming stops, whether the connection is closed by then, and how
  `stop_consuming()` and `connection.close()` end;
- the outcome of each query, commit, rollback and close of a database session;
- the executor's verdict and the printed processing time.

Sleeps are trace events carrying their delay.

Modules follow the program:
- `Wrappers`: `Option`.
- `JsonModel`: decoded JSON values and Python truthiness.
- `Models`: `TaskStatus` and the task record.
- `Uuids`: `uuid.UUID(s)` parsing and `str(uuid)`.
- `Queue`: `get_connection`, `publish_task` and `on_message`.
- `Worker`: `process_task`, as a `TaskStore` class over the committed records.
- `Consumer`: `consume_tasks(process_task)`, as the worker process runs it.

The loops are methods proved equal to closed-form specification functions:
- `GetConnection` = `GetConnectionSpec`;
- `PublishTask` = `PublishSpec`;
- `TaskStore.ProcessTask` = `ProcessSpec`;
- `ConsumeTasks` = `ConsumeTasksSpec`.

The properties are lemmas about those functions.

## Model

| member | source | states |
|---|---|---|
| Queue.Backoff | app/queue.py:35 | the sleep after caught failure `k` is `min(retry_delay * 2 ** min(k, 3), 10)` and never exceeds 10 seconds |
| Queue.BackoffMonotone | app/queue.py:35 | a later failure never sleeps for less |
| Queue.BackoffSaturates | app/queue.py:35 | from the fourth failure on, the delay stays at `min(8 * retry_delay, 10)` |
| Queue.DefaultBackoffSchedule | app/queue.py:35 | with the default delay of 2 seconds the sleeps are 2, 4, 8, 10, 10, ... |
| Queue.GetConnection | app/queue.py:16-40 | the loop's events and result are those of `GetConnectionSpec`: each caught failure before the decisive attempt is followed by its backoff sleep, and the decisive attempt by nothing |
| Queue.ConnectAttemptsAndSleeps | app/queue.py:27-40 | at most `max_retries` attempts, at least one when it is positive; one sleep after every attempt but the last, none after the last |
| Queue.ConnectSleepsAreBackoffs | app/queue.py:33-37 | sleep `i` is the backoff of caught failure `i` |
| Queue.ConnectedIff | app/queue.py:27-32 | a connection is returned exactly when some attempt within the budget connects after nothing but caught failures |
| Queue.ConnectsAtFirstSuccess | app/queue.py:28-31 | the first success is returned at once: `k + 1` attempts and `k` sleeps |
| Queue.UncaughtErrorPropagates | app/queue.py:28-32 | an error outside the three caught types propagates from the attempt that raises it, with no sleep after it |
| Queue.ExhaustedRaisesLastError | app/queue.py:33-40 | when every attempt fails with a caught error, the last error is re-raised after `max_retries - 1` sleeps |
| Queue.ReturnsNoneIff | app/queue.py:27 | the loop falls through and returns `None`, with no attempt, exactly when `max_retries <= 0` |
| Queue.RoundSpec | app/queue.py:46-66 | a round is one round event; any body it hands to the broker is `{"task_id": task_id}`; it succeeds exactly when it connects and channel, declare, publish and close all complete |
| Queue.RoundAttemptsBounded | app/queue.py:47 | a round makes at most three connection attempts |
| Queue.PublishRound | app/queue.py:47-66 | one pass of the loop body behaves as `RoundSpec` |
| Queue.PublishLoop | app/queue.py:45-74 | the retry loop, given what each round does, behaves as `PublishOf`: failed rounds each followed by the fixed pause, and nothing after the first success or the last round |
| Queue.PublishTask | app/queue.py:43-74 | `publish_task` behaves as `PublishSpec` |
| Queue.PublishOkIff | app/queue.py:45-74 | `True` exactly when one of the first `max_retries` rounds succeeds, so `False` when `max_retries <= 0`; it never raises |
| Queue.PublishTraceShape | app/queue.py:45-70 | round `i` is event `2 * i` and the pause after it is event `2 * i + 1` |
| Queue.PublishRoundsAndPauses | app/queue.py:68-73 | at most `max_retries` rounds; no events exactly when `max_retries <= 0`; the trace ends with a round and has one pause fewer than rounds; every pause lasts `retry_delay` |
| Queue.PublishConnectAttemptsBounded | app/queue.py:45-47 | one publish makes at most `3 * max_retries` connection attempts |
| Queue.PublishSendsOnlyTheBody | app/queue.py:54-62 | every body handed to the broker is `{"task_id": task_id}` |
| Queue.PublishOnceWithoutCloseFailure | app/queue.py:55-66 | if no close raises after a publish, the body goes out once when `True` is returned and never when `False` is returned |
| Queue.CloseFailureRepublishes | app/queue.py:65-70 | a close that raises after the publish fails the round, so after the retry the broker holds the body twice and `True` is returned |
| Queue.OnMessage | app/queue.py:93-105 | the callback is invoked exactly when the body decodes to an object with a truthy `task_id`, and with that value; acknowledged exactly when the callback was invoked and completed; rejected for good exactly when `task_id` is missing or falsy; requeued exactly when the body does not decode, is not an object, or the callback raised |
| Queue.MessageBodyDelivered | app/queue.py:54-98 | a published body, decoded, hands the same identifier string to the callback; an empty identifier is rejected without requeue |
| Uuids.ParseFormat | app/worker.py:17 | `uuid.UUID(str(u))` gives back `u` |
| Uuids.UnderscoredDigitsOfHex | app/worker.py:17 | `int(_, 16)` reads a plain run of digits back as those digits |
| Uuids.ParseAcceptsPrefix | app/worker.py:17 | `"0x"` followed by 30 digits is a valid identifier: `int()` takes the prefix, and the value has two leading zero digits |
| Uuids.ParseAcceptsLeadingSpace | app/worker.py:17 | a space followed by 31 digits is a valid identifier: `int()` skips surrounding whitespace |
| Uuids.ParseRejectsFileSeparator | app/worker.py:17 | U+001C followed by 31 digits is refused: `int()` skips only ASCII whitespace and non-ASCII `str.isspace()` characters, not the ASCII separators |
| Uuids.FormatAlphabet | app/queue.py:54 | `str(uuid)` is 36 characters, all lower-case hexadecimal digits or hyphens |
| Uuids.FormatWithoutHyphens | app/queue.py:54 | the digits of `str(uuid)`, once hyphens are removed, are those of the UUID |
| Worker.TrySpec | app/worker.py:16-44 | the try block adds and removes no record, and the record it holds keeps its payload |
| Worker.TryShape | app/worker.py:16-44 | the try block parses first, never rolls back or closes, and executes only right after a durable PROCESSING commit; none of its commits writes PENDING |
| Worker.ProcessShape | app/worker.py:16-61 | every path is the try block's steps, then the handler's queries and FAILED commit, then an optional rollback and the close; a rollback follows only a failure inside the handler |
| Worker.HandlerShape | app/worker.py:46-61 | the except clause adds only queries and a FAILED commit, then an optional rollback and the close; the rollback follows only a bad identifier, a failed reload or a failed recovery commit |
| Worker.ProcessCloses | app/worker.py:60-61 | every path starts by parsing the identifier and ends with exactly one close of the session |
| Worker.ProcessExit | app/worker.py:57-61 | `process_task` returns normally exactly when the close succeeds and, if the handler failed, the rollback does too; otherwise the close's exception escapes, or else the rollback's |
| Worker.ProcessRollsBackOnlyAfterHandlerFailure | app/worker.py:49-59 | a rollback happens only after a bad identifier, a failed reload or a failed recovery commit |
| Worker.ProcessFrame | app/worker.py:12-61 | no record is added or removed, no payload changes, and only the record under the given identifier can change |
| Worker.TryDurableCommits | app/worker.py:25-44 | the try block makes no durable commit, a PROCESSING commit, or that one followed by the terminal commit when no error occurred |
| Worker.ProcessDurableCommits | app/worker.py:12-61 | the store changes only through durable commits: it ends as it started, with the record's status and result replaced by those of the last durable commit |
| Worker.HandlerReloadCommits | app/worker.py:49-56 | the handler with no record at hand commits at most the FAILED record it reloads |
| Worker.ProcessMissingTask | app/worker.py:17-22 | for an identifier that is not a UUID, or one with no record, nothing is committed or executed and the store is unchanged |
| Worker.ProcessInvalidId | app/worker.py:17-59 | a non-UUID identifier fails in the try block and again in the handler, which rolls back |
| Worker.ProcessExecutesAfterProcessingCommit | app/worker.py:25-35 | the executor is consulted exactly when the record was loaded and PROCESSING became durable, and only right after that commit |
| Worker.ProcessNormalPath | app/worker.py:25-44 | when every query and commit of the try block succeeds, the record ends DONE with the success message or FAILED with the simulated error, through exactly one terminal commit |
| Worker.ProcessRecordsError | app/worker.py:46-56 | when a try-block step raises, the record exists and the handler's commit succeeds, the record ends FAILED with `"Error: "` plus that exception's text, with no rollback |
| Worker.ProcessRecoveryFails | app/worker.py:57-59 | when the handler's commit fails too, the session is rolled back; the record stays PROCESSING with its earlier result if that commit went through, and is unchanged otherwise |
| Worker.ProcessCommitsMoveForward | app/worker.py:25-56 | within one call, durable commits strictly increase in status rank, at most one is terminal, and none writes PENDING; no commit of the call, durable or not, writes PENDING |
| Worker.ProcessWritesNoPending | app/worker.py:25-56 | no commit `process_task` attempts, durable or not, writes PENDING: the try block writes PROCESSING then DONE or FAILED, the handler FAILED |
| Worker.TryIgnoresStatuses | app/worker.py:17-44 | the try block depends on the store only through which records exist and their results |
| Worker.HandlerIgnoresStatuses | app/worker.py:46-59 | so does the except clause |
| Worker.ProcessStepsIgnoreStatuses | app/worker.py:12-61 | steps and exit depend on the store only through which records exist and their results |
| Worker.ProcessIgnoresPriorStatus | app/worker.py:25-41 | the prior status, DONE or FAILED included, is never consulted: the same steps, the same exit and the same committed record |
| Worker.ProcessKeepsResultWhenTerminal | app/worker.py:35-56 | `process_task` keeps the invariant that a terminal record carries a result |
| Worker.ProcessKeepsResultIffTerminal | app/worker.py:25-56 | on a record that is not yet terminal, it also keeps "a result exactly when terminal" |
| Worker.TryKeepsResultIffTerminal | app/worker.py:25-41 | the try block keeps "a result exactly when terminal" on a record that is not yet terminal |
| Worker.HandlerKeepsResultIffTerminal | app/worker.py:46-56 | the except clause keeps "a result exactly when terminal", since it writes FAILED together with the error text |
| Worker.ReplayLeavesResultOnProcessing | app/worker.py:25-59 | replaying a DONE record, with the terminal and recovery commits both failing, leaves it PROCESSING with its earlier result |
| Worker.TaskStore.constructor | app/worker.py:14 | the store starts as the given committed records |
| Worker.TaskStore.CommitRecord | app/worker.py:26 | a commit makes the record durable exactly when it succeeds |
| Worker.TaskStore.Attempt | app/worker.py:16-44 | the try block run on the store: its steps, the record it holds, the exception that leaves it and the committed records are those of `TrySpec`; the record held keeps its payload |
| Worker.TaskStore.Handle | app/worker.py:46-59 | the except clause, run on the store, behaves as `HandlerSpec` |
| Worker.TaskStore.ProcessTask | app/worker.py:12-61 | the store, steps and exit of `process_task` are those of `ProcessSpec` on the store it started from |
| Consumer.Consume | app/queue.py:93-113 | one handling per delivery |
| Consumer.ConsumeTasks | app/queue.py:77-124 | `consume_tasks(process_task)` on the store behaves as `ConsumeTasksSpec` |
| Consumer.DeliverDecision | app/queue.py:93-105 | a delivery is acknowledged exactly when it carries a truthy identifier and `process_task` returned on it; a message without one leaves the store unchanged and no callback runs |
| Consumer.DeliverAcksWhenSessionEnds | app/queue.py:98-99 | with the session's rollback and close succeeding, every message with a truthy identifier is acknowledged, whatever else fails |
| Consumer.ConsumeInOrder | app/queue.py:107-113 | each message is handled against the store the messages before it left behind |
| Consumer.ConsumeFrame | app/queue.py:93-113 | consuming adds and removes no record and changes no payload |
| Consumer.ConsumeKeepsResultWhenTerminal | app/queue.py:93-113 | consuming keeps the invariant that terminal records carry a result |
| Consumer.ConsumeAcksWhenSessionsEnd | app/queue.py:93-113 | with every session's rollback and close succeeding, every message with a truthy identifier is acknowledged |
| Consumer.ConsumerConnection | app/queue.py:114-124 | after an exception, or an interrupt whose `stop_consuming()` returns, `close()` is called exactly when the connection is not already closed; the connection stays open exactly when consuming ends by itself, or when `stop_consuming()` raises on an open connection; `stop_consuming()` is called exactly after an interrupt |
| Consumer.ConsumerExitIff | app/queue.py:82-124 | `consume_tasks` returns normally exactly when consuming ends by itself, or after an interrupt whose `stop_consuming()` and any `close()` return; an exception from `close()` escapes in place of the one being handled, one from `stop_consuming()` escapes without a close, and connection failures propagate; messages are handled only once the channel is set up |
| Consumer.EndToEnd | app/main.py:33 | the body `publish_task` sends for a stored UUID, delivered to a worker whose queries, commits and executor succeed, leaves the record DONE with the success message; the message is acknowledged exactly when the session's close succeeds |

## Code and description

The model follows the code where it differs from the service's description:

- `process_task` does not return normally on every path. The `db.rollback()` in
  the handler (app/worker.py:59) and the `db.close()` in the finally clause
  (app/worker.py:61) can raise. Their exception escapes, and `on_message` then
  requeues the message. `Worker.ProcessExit` states exactly when
  `process_task` returns.
- Terminal writes are not idempotent. A message delivered twice re-runs the whole
  sequence on a DONE or FAILED record (`Worker.ProcessIgnoresPriorStatus`).
- A replay can leave a PROCESSING record with a result, so "a result exactly
  when terminal" holds only for records that are not yet terminal
  (`Worker.ReplayLeavesResultOnProcessing`). "A terminal record has a result"
  holds always.
- A failure to load the task or to commit PROCESSING does not propagate to
  force a redelivery. The handler in `process_task` (app/worker.py:46-59)
  catches it, records FAILED where it can, and returns, so `on_message`
  acknowledges the message (`Worker.ProcessExit`,
  `Consumer.DeliverAcksWhenSessionEnds`).
- A `connection.close()` that raises after `basic_publish` fails the whole
  round. The retry then publishes the body again
  (`Queue.CloseFailureRepublishes`).
- The retry loop of `get_connection` alone returns `None` only when
  `max_retries <= 0` (`Queue.ReturnsNoneIff`); with the real broker client,
  connection parameters with fewer than one attempt are refused before the
  loop runs, so the program raises instead. `consume_tasks` calls it with the default of 30,
  so its `connection.channel()` always has a connection to work on.
- When `start_consuming()` returns on its own, `consume_tasks` leaves the
  connection open. So it does when `stop_consuming()` raises after an
  interrupt: that exception escapes and the close is skipped
  (`Consumer.ConsumerConnection`).
- An exception from `connection.close()` in either `except` clause escapes
  `consume_tasks` in place of the one being handled (`Consumer.ConsumerExitIff`).

## Left out

- The broker client library: connection parameters and their own internal
  `connection_attempts`/`retry_delay` retries, channels, `queue_declare`,
  `basic_qos` and delivery tags. Only the Python loops and the outcomes they
  see are modelled.
- Real sleeping, logging, and configuration from environment variables.
  A sleep is an event with its delay; log calls have no effect on the model.
- JSON text: `json.dumps` and `json.loads` are not codecs here. A body reaches
  the consumer as the decoded value or as a parse failure, so
  `Consumer.EndToEnd` takes the decoded body to be the value that was sent.
  Floating-point JSON numbers are not represented.
- `uuid.UUID` is modelled for string arguments only; other keyword forms and a
  non-string argument, which fails with `AttributeError` at `hex.replace`,
  are both "raises". `int(_, 16)` is
  modelled with its whitespace, `+` sign, `0x` prefix and underscore rules,
  except that it also accepts non-ASCII decimal digits, which the model treats
  as malformed identifiers.
- The database session: queries, commits, rollback and close are oracles with a
  message, over a map of committed records. Session identity, autoflush and
  transaction isolation are not modelled. The oracles are independent for
  each operation, so the model over-approximates the session: it allows a
  commit to succeed after an earlier flush of the same session failed,
  which the real session refuses until it is rolled back.
- Randomness and timing in the worker: `random.uniform`, `random() < 0.9` and the
  float formatting of the processing time. They become a bool oracle and the
  printed time as text.
- Timestamps (`created_at`, `updated_at`) and the ORM column definitions.
- The HTTP endpoints and request schemas.
- Concurrency: several workers competing for messages, fair dispatch, and a
  signal arriving during a callback or outside `start_consuming`.
- Failures of `basic_ack` or `basic_nack` themselves.
- `database.SessionLocal()` at the start of `process_task` is assumed to open a
  session. If it raised, no step and no close would happen and `on_message`
  would requeue the message; `Worker.ProcessSpec` has no outcome for that.
- Consumer.ConsumeTasks: how consuming stops is given as one oracle after all
  deliveries. An interrupt or connection loss in the middle of a delivery is not
  modelled.
- Exceptions that are not `Exception`s (other than the keyboard interrupt that
  `consume_tasks` catches) are not modelled.
