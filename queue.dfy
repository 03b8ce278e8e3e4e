/**
 * The broker-facing logic of the task queue: connecting with capped exponential
 * backoff, publishing a task reference with whole-attempt retries, and the
 * acknowledgement decision of the consumer's per-message handler.
 *
 * Every interaction with the broker is an oracle: the outcome of each
 * connection attempt, the step of a publish round that fails, and what
 * `json.loads` made of a delivered body. Sleeping becomes an event that
 * carries its delay in seconds.
 */
module Queue {
  import opened Wrappers
  import opened JsonModel

  // ---------------------------------------------------------------------------
  // Connecting: get_connection
  // ---------------------------------------------------------------------------

  /** What one `pika.BlockingConnection(...)` call can raise. */
  datatype Error =
    | AmqpConnectionError(message: string)
    | ConnectionRefused(message: string)
    | OsError(message: string)
    | OtherError(message: string)

  /** The exception types named in the retry loop's except clause. */
  predicate Retried(e: Error) {
    !e.OtherError?
  }

  /** The outcome of one connection attempt. */
  datatype Outcome = Connects | Fails(error: Error)

  /** An attempt that ends the retry loop: a success or an error it does not catch. */
  predicate Decisive(o: Outcome) {
    o.Connects? || !Retried(o.error)
  }

  datatype Event = Attempt | Sleep(seconds: nat)

  /** How `get_connection` ends: it returns a connection, raises, or falls off the loop and returns `None`. */
  datatype ConnectResult = Connected | Raised(error: Error) | ReturnedNone

  datatype ConnectRun = ConnectRun(trace: seq<Event>, result: ConnectResult)

  /** The cap on one backoff sleep, in seconds. */
  const MaxBackoff: nat := 10

  /** The defaults of `get_connection`. */
  const DefaultConnectRetries: int := 30
  const DefaultConnectDelay: nat := 2

  function Min(a: int, b: int): int {
    if a <= b then a else b
  }

  /** The number of iterations of `range(n)`. */
  function Iterations(n: int): nat {
    if n > 0 then n else 0
  }

  function Pow2(k: nat): (r: nat)
    ensures r >= 1
  {
    if k == 0 then 1 else 2 * Pow2(k - 1)
  }

  /** The sleep after failed attempt `attempt` (0-based): `min(retry_delay * 2 ** min(attempt, 3), 10)`. */
  function Backoff(retryDelay: nat, attempt: nat): (r: nat)
    ensures r <= MaxBackoff
  {
    Min(retryDelay * Pow2(Min(attempt, 3)), MaxBackoff)
  }

  /**
   * The events of `k` caught failures, each followed by its backoff sleep:
   * failure `i` is event `2 * i` and its sleep event `2 * i + 1`.
   */
  function RetriedAttempts(retryDelay: nat, k: nat): (r: seq<Event>)
    ensures |r| == 2 * k
  {
    seq(2 * k, i requires 0 <= i < 2 * k => if i % 2 == 0 then Attempt else Sleep(Backoff(retryDelay, i / 2)))
  }

  /** The first attempt from `from` on, below `n`, that ends the loop; `n` if there is none. */
  function FirstDecisive(outcomes: seq<Outcome>, n: nat, from: nat): (k: nat)
    requires from <= n <= |outcomes|
    ensures from <= k <= n
    ensures k == n && from < n ==> !Decisive(outcomes[n - 1])
    decreases n - from
  {
    if from == n then n
    else if Decisive(outcomes[from]) then from
    else FirstDecisive(outcomes, n, from + 1)
  }

  /** No attempt before `FirstDecisive` ends the loop, and the one it names does. */
  lemma FirstDecisiveDecides(outcomes: seq<Outcome>, n: nat, from: nat)
    requires from <= n <= |outcomes|
    ensures var k := FirstDecisive(outcomes, n, from);
      && (forall j :: from <= j < k ==> !Decisive(outcomes[j]))
      && (k < n ==> Decisive(outcomes[k]))
    decreases n - from
  {
    if from < n && !Decisive(outcomes[from]) {
      FirstDecisiveDecides(outcomes, n, from + 1);
    }
  }

  /**
   * What `get_connection(max_retries, retry_delay)` does, stated by the attempt
   * that ends it: every caught failure before it is followed by its backoff
   * sleep; the deciding attempt (a success, an uncaught error, or the last
   * caught failure) is followed by nothing.
   */
  function GetConnectionSpec(maxRetries: int, retryDelay: nat, outcomes: seq<Outcome>): ConnectRun
    requires maxRetries <= |outcomes|
  {
    var n := Iterations(maxRetries);
    var k := FirstDecisive(outcomes, n, 0);
    if k < n then
      ConnectRun(RetriedAttempts(retryDelay, k) + [Attempt],
                 if outcomes[k].Connects? then Connected else Raised(outcomes[k].error))
    else if n == 0 then
      ConnectRun([], ReturnedNone)
    else
      ConnectRun(RetriedAttempts(retryDelay, n - 1) + [Attempt], Raised(outcomes[n - 1].error))
  }

  /** The attempt that ends the loop is determined by the outcomes before it. */
  lemma FirstDecisiveIs(outcomes: seq<Outcome>, n: nat, k: nat)
    requires k <= n <= |outcomes|
    requires forall j :: 0 <= j < k ==> !Decisive(outcomes[j])
    requires k < n ==> Decisive(outcomes[k])
    ensures FirstDecisive(outcomes, n, 0) == k
  {
    FirstDecisiveDecides(outcomes, n, 0);
  }

  /** The retry loop of `get_connection`. `outcomes[i]` is the outcome of attempt `i`. */
  method GetConnection(maxRetries: int, retryDelay: nat, outcomes: seq<Outcome>)
    returns (trace: seq<Event>, result: ConnectResult)
    requires maxRetries <= |outcomes|
    ensures ConnectRun(trace, result) == GetConnectionSpec(maxRetries, retryDelay, outcomes)
  {
    trace := [];
    for attempt := 0 to Iterations(maxRetries)
      invariant trace == RetriedAttempts(retryDelay, attempt)
      invariant 0 < attempt ==> attempt < Iterations(maxRetries)
      invariant forall j :: 0 <= j < attempt ==> !Decisive(outcomes[j])
    {
      trace := trace + [Attempt];
      match outcomes[attempt]
      case Connects =>
        result := Connected;
        FirstDecisiveIs(outcomes, Iterations(maxRetries), attempt);
        return;
      case Fails(e) =>
        if !Retried(e) {
          result := Raised(e);
          FirstDecisiveIs(outcomes, Iterations(maxRetries), attempt);
          return;
        }
        if attempt < maxRetries - 1 {
          RetriedAttemptsNext(retryDelay, attempt);
          trace := trace + [Sleep(Backoff(retryDelay, attempt))];
        } else {
          result := Raised(e);
          FirstDecisiveIs(outcomes, Iterations(maxRetries), attempt + 1);
          return;
        }
    }
    result := ReturnedNone;
    FirstDecisiveIs(outcomes, Iterations(maxRetries), Iterations(maxRetries));
  }

  function CountAttempts(trace: seq<Event>): nat {
    if trace == [] then 0
    else CountAttempts(trace[..|trace| - 1]) + (if trace[|trace| - 1].Attempt? then 1 else 0)
  }

  function CountSleeps(trace: seq<Event>): nat {
    if trace == [] then 0
    else CountSleeps(trace[..|trace| - 1]) + (if trace[|trace| - 1].Sleep? then 1 else 0)
  }

  // ---------------------------------------------------------------------------
  // Publishing: publish_task
  // ---------------------------------------------------------------------------

  /** The inner connection budget of one publish round. */
  const PublishConnectRetries: int := 3
  const PublishConnectDelay: nat := 1

  /** The defaults of `publish_task`. */
  const DefaultPublishRetries: int := 5
  const DefaultPublishDelay: nat := 1

  /** What happens in a round once a connection is obtained: the step that raises, or none. */
  datatype PublishStep = ChannelFails | DeclareFails | PublishFails | CloseFails | Completes

  /** The oracle of one publish round: its connection attempts and its later steps. */
  datatype PublishAttempt = PublishAttempt(connect: seq<Outcome>, rest: PublishStep)

  /** A round's connection events and the body it handed to the broker, if any; or the pause between rounds. */
  datatype PublishEvent = Round(connection: seq<Event>, sent: Option<Json>) | Pause(seconds: nat)

  datatype RoundRun = RoundRun(round: PublishEvent, succeeded: bool)

  datatype PublishRun = PublishRun(trace: seq<PublishEvent>, ok: bool)

  /** The key of the only field of a published body. */
  const TaskIdKey: string := "task_id"

  /** The published body `{"task_id": str(task_id)}`. */
  function MessageBody(taskId: string): Json {
    JObj(map[TaskIdKey := JStr(taskId)])
  }

  /** Every round of the oracle has outcomes for its three connection attempts. */
  predicate WellFormedAttempts(attempts: seq<PublishAttempt>) {
    forall j :: 0 <= j < |attempts| ==> PublishConnectRetries <= |attempts[j].connect|
  }

  /** A round returns `True`: it connects and every later step completes. */
  predicate RoundSucceeds(a: PublishAttempt)
    requires PublishConnectRetries <= |a.connect|
  {
    GetConnectionSpec(PublishConnectRetries, PublishConnectDelay, a.connect).result.Connected?
    && a.rest == Completes
  }

  /** One pass of the body of the publish loop. */
  function RoundSpec(taskId: string, a: PublishAttempt): (r: RoundRun)
    requires PublishConnectRetries <= |a.connect|
    ensures r.round.Round?
    ensures r.round.sent.Some? ==> r.round.sent.value == MessageBody(taskId)
    ensures r.round.sent.None? ==> !r.succeeded
    ensures r.succeeded <==> RoundSucceeds(a)
  {
    var c := GetConnectionSpec(PublishConnectRetries, PublishConnectDelay, a.connect);
    if !c.result.Connected? then
      RoundRun(Round(c.trace, None), false)
    else
      match a.rest
      case ChannelFails => RoundRun(Round(c.trace, None), false)
      case DeclareFails => RoundRun(Round(c.trace, None), false)
      case PublishFails => RoundRun(Round(c.trace, None), false)
      case CloseFails => RoundRun(Round(c.trace, Some(MessageBody(taskId))), false)
      case Completes => RoundRun(Round(c.trace, Some(MessageBody(taskId))), true)
  }

  /** What each round of the oracle does when it is reached, in order. */
  function Rounds(taskId: string, attempts: seq<PublishAttempt>): (rs: seq<RoundRun>)
    requires WellFormedAttempts(attempts)
    ensures |rs| == |attempts|
    decreases |attempts|
  {
    if attempts == [] then []
    else
      assert WellFormedAttempts(attempts[1..]) by {
        forall j | 0 <= j < |attempts[1..]| ensures PublishConnectRetries <= |attempts[1..][j].connect| {
          assert attempts[1..][j] == attempts[j + 1];
        }
      }
      [RoundSpec(taskId, attempts[0])] + Rounds(taskId, attempts[1..])
  }

  lemma {:induction false} RoundsAt(taskId: string, attempts: seq<PublishAttempt>, j: nat)
    requires WellFormedAttempts(attempts) && j < |attempts|
    ensures Rounds(taskId, attempts)[j] == RoundSpec(taskId, attempts[j])
    decreases j
  {
    if j > 0 {
      assert WellFormedAttempts(attempts[1..]) by {
        forall i | 0 <= i < |attempts[1..]| ensures PublishConnectRetries <= |attempts[1..][i].connect| {
          assert attempts[1..][i] == attempts[i + 1];
        }
      }
      RoundsAt(taskId, attempts[1..], j - 1);
    }
  }

  function FirstSuccess(rounds: seq<RoundRun>, n: nat, from: nat): (k: nat)
    requires from <= n <= |rounds|
    ensures from <= k <= n
    ensures forall j :: from <= j < k ==> !rounds[j].succeeded
    ensures k < n ==> rounds[k].succeeded
    decreases n - from
  {
    if from == n then n
    else if rounds[from].succeeded then from
    else FirstSuccess(rounds, n, from + 1)
  }

  lemma FirstSuccessIs(rounds: seq<RoundRun>, n: nat, k: nat)
    requires k <= n <= |rounds|
    requires forall j :: 0 <= j < k ==> !rounds[j].succeeded
    requires k < n ==> rounds[k].succeeded
    ensures FirstSuccess(rounds, n, 0) == k
  {
  }

  /** The events of the first `k` rounds, each failed and followed by the fixed pause. */
  function FailedRounds(rounds: seq<RoundRun>, retryDelay: nat, k: nat): (r: seq<PublishEvent>)
    requires k <= |rounds|
    ensures |r| == 2 * k
  {
    if k == 0 then []
    else FailedRounds(rounds, retryDelay, k - 1) + [rounds[k - 1].round, Pause(retryDelay)]
  }

  /**
   * The retry loop of `publish_task` over rounds whose results are given,
   * stated by the first successful round: the rounds before it failed and were
   * each followed by the fixed pause; nothing follows the round that succeeds
   * or the last one.
   */
  function PublishOf(rounds: seq<RoundRun>, maxRetries: int, retryDelay: nat): PublishRun
    requires maxRetries <= |rounds|
  {
    var n := Iterations(maxRetries);
    var k := FirstSuccess(rounds, n, 0);
    if k < n then
      PublishRun(FailedRounds(rounds, retryDelay, k) + [rounds[k].round], true)
    else if n == 0 then
      PublishRun([], false)
    else
      PublishRun(FailedRounds(rounds, retryDelay, n - 1) + [rounds[n - 1].round], false)
  }

  /** What `publish_task(task_id, max_retries, retry_delay)` does. */
  function PublishSpec(taskId: string, maxRetries: int, retryDelay: nat, attempts: seq<PublishAttempt>): PublishRun
    requires maxRetries <= |attempts|
    requires WellFormedAttempts(attempts)
  {
    PublishOf(Rounds(taskId, attempts), maxRetries, retryDelay)
  }

  /** `PublishOf` when round `k` is the first to succeed. */
  lemma PublishOfSucceedsAt(rounds: seq<RoundRun>, maxRetries: int, retryDelay: nat, k: nat)
    requires maxRetries <= |rounds|
    requires k < Iterations(maxRetries) && rounds[k].succeeded
    requires forall j :: 0 <= j < k ==> !rounds[j].succeeded
    ensures PublishOf(rounds, maxRetries, retryDelay)
            == PublishRun(FailedRounds(rounds, retryDelay, k) + [rounds[k].round], true)
  {
    FirstSuccessIs(rounds, Iterations(maxRetries), k);
  }

  /** `PublishOf` when every round fails. */
  lemma PublishOfExhausted(rounds: seq<RoundRun>, maxRetries: int, retryDelay: nat)
    requires maxRetries <= |rounds|
    requires forall j :: 0 <= j < Iterations(maxRetries) ==> !rounds[j].succeeded
    ensures var n := Iterations(maxRetries);
      PublishOf(rounds, maxRetries, retryDelay)
      == if n == 0 then PublishRun([], false)
         else PublishRun(FailedRounds(rounds, retryDelay, n - 1) + [rounds[n - 1].round], false)
  {
    FirstSuccessIs(rounds, Iterations(maxRetries), Iterations(maxRetries));
  }

  /**
   * A publish that makes at least one round ends with round `last`, the first
   * to succeed or else the final one; its result is that round's.
   */
  lemma PublishOfLast(rounds: seq<RoundRun>, maxRetries: int, retryDelay: nat) returns (last: nat)
    requires maxRetries <= |rounds| && 0 < maxRetries
    ensures last < Iterations(maxRetries)
    ensures forall j :: 0 <= j < last ==> !rounds[j].succeeded
    ensures PublishOf(rounds, maxRetries, retryDelay)
            == PublishRun(FailedRounds(rounds, retryDelay, last) + [rounds[last].round], rounds[last].succeeded)
  {
    var n := Iterations(maxRetries);
    var k := FirstSuccess(rounds, n, 0);
    last := if k < n then k else n - 1;
  }

  /**
   * The body of the publish loop: connect with the inner budget, then open a
   * channel, declare the queue, publish the body and close the connection.
   */
  method PublishRound(taskId: string, a: PublishAttempt) returns (r: RoundRun)
    requires PublishConnectRetries <= |a.connect|
    ensures r == RoundSpec(taskId, a)
  {
    var connection, result := GetConnection(PublishConnectRetries, PublishConnectDelay, a.connect);
    // `connection.channel()` on a `None` connection raises as well
    var sent: Option<Json> := None;
    var succeeded := false;
    if result.Connected? {
      match a.rest
      case ChannelFails =>
      case DeclareFails =>
      case PublishFails =>
      case CloseFails =>
        // basic_publish went through; connection.close() raised
        sent := Some(MessageBody(taskId));
      case Completes =>
        sent := Some(MessageBody(taskId));
        succeeded := true;
    }
    r := RoundRun(Round(connection, sent), succeeded);
  }

  /** Every round of `Rounds` is the round its attempt makes. */
  lemma RoundsAll(taskId: string, attempts: seq<PublishAttempt>)
    requires WellFormedAttempts(attempts)
    ensures forall j :: 0 <= j < |attempts| ==> Rounds(taskId, attempts)[j] == RoundSpec(taskId, attempts[j])
  {
    forall j | 0 <= j < |attempts| ensures Rounds(taskId, attempts)[j] == RoundSpec(taskId, attempts[j]) {
      RoundsAt(taskId, attempts, j);
    }
  }

  /**
   * The retry loop of `publish_task`; round `i` follows `attempts[i]`, and
   * `rounds` names what each round does.
   */
  method PublishLoop(taskId: string, maxRetries: int, retryDelay: nat, attempts: seq<PublishAttempt>,
                     ghost rounds: seq<RoundRun>)
    returns (trace: seq<PublishEvent>, ok: bool)
    requires maxRetries <= |attempts| == |rounds|
    requires WellFormedAttempts(attempts)
    requires forall j {:trigger RoundSpec(taskId, attempts[j])} :: 0 <= j < |attempts| ==>
      rounds[j] == RoundSpec(taskId, attempts[j])
    ensures PublishRun(trace, ok) == PublishOf(rounds, maxRetries, retryDelay)
  {
    trace := [];
    ok := false;
    for attempt := 0 to Iterations(maxRetries)
      invariant trace == FailedRounds(rounds, retryDelay, attempt)
      invariant 0 < attempt ==> attempt < Iterations(maxRetries)
      invariant forall j :: 0 <= j < attempt ==> !rounds[j].succeeded
    {
      var r := PublishRound(taskId, attempts[attempt]);
      trace := trace + [r.round];
      if r.succeeded {
        ok := true;
        PublishOfSucceedsAt(rounds, maxRetries, retryDelay, attempt);
        return;
      }
      if attempt < maxRetries - 1 {
        trace := trace + [Pause(retryDelay)];
      } else {
        PublishOfExhausted(rounds, maxRetries, retryDelay);
        return;
      }
    }
    PublishOfExhausted(rounds, maxRetries, retryDelay);
  }

  /** `publish_task(task_id, max_retries, retry_delay)`. */
  method PublishTask(taskId: string, maxRetries: int, retryDelay: nat, attempts: seq<PublishAttempt>)
    returns (trace: seq<PublishEvent>, ok: bool)
    requires maxRetries <= |attempts|
    requires WellFormedAttempts(attempts)
    ensures PublishRun(trace, ok) == PublishSpec(taskId, maxRetries, retryDelay, attempts)
  {
    RoundsAll(taskId, attempts);
    trace, ok := PublishLoop(taskId, maxRetries, retryDelay, attempts, Rounds(taskId, attempts));
  }

  function CountRounds(trace: seq<PublishEvent>): nat {
    if trace == [] then 0
    else CountRounds(trace[..|trace| - 1]) + (if trace[|trace| - 1].Round? then 1 else 0)
  }

  function CountPauses(trace: seq<PublishEvent>): nat {
    if trace == [] then 0
    else CountPauses(trace[..|trace| - 1]) + (if trace[|trace| - 1].Pause? then 1 else 0)
  }

  /** The number of bodies handed to the broker. */
  function CountSent(trace: seq<PublishEvent>): nat {
    if trace == [] then 0
    else CountSent(trace[..|trace| - 1]) + (if trace[|trace| - 1].Round? && trace[|trace| - 1].sent.Some? then 1 else 0)
  }

  /** The number of connection attempts over all rounds. */
  function CountConnectAttempts(trace: seq<PublishEvent>): nat {
    if trace == [] then 0
    else CountConnectAttempts(trace[..|trace| - 1])
         + (if trace[|trace| - 1].Round? then CountAttempts(trace[|trace| - 1].connection) else 0)
  }

  // ---------------------------------------------------------------------------
  // Consuming: the per-message handler on_message
  // ---------------------------------------------------------------------------

  /** How the callback invoked on a task identifier ends. */
  datatype CallbackResult = Completed | Threw(message: string)

  datatype Decision = Ack | Nack(requeue: bool)

  /** The argument the callback was invoked with, if it was, and the decision sent to the broker. */
  datatype Handling = Handling(callbackArg: Option<Json>, decision: Decision)

  /** `message.get("task_id")`, with Python's `None` for a missing key. */
  function TaskIdField(message: Json): Json
    requires message.JObj?
  {
    if TaskIdKey in message.fields then message.fields[TaskIdKey] else JNull
  }

  /** The decoded body is an object whose `task_id` is truthy. */
  predicate HasTaskId(body: Parse) {
    body.Parsed? && body.value.JObj? && Truthy(TaskIdField(body.value))
  }

  /** The decoded body is an object whose `task_id` is missing or falsy. */
  predicate LacksTaskId(body: Parse) {
    body.Parsed? && body.value.JObj? && !Truthy(TaskIdField(body.value))
  }

  /**
   * `on_message`: `callback` is how the callback ends when it is invoked.
   * A body that does not decode, or decodes to something other than an object
   * (which has no `get`), is requeued, like a callback that raises; an object
   * without a truthy `task_id` is rejected for good and the callback is never
   * invoked; otherwise the callback completes before the message is acknowledged.
   */
  function OnMessage(body: Parse, callback: CallbackResult): (h: Handling)
    ensures h.callbackArg.Some? <==> HasTaskId(body)
    ensures h.callbackArg.Some? ==> h.callbackArg.value == TaskIdField(body.value)
    ensures h.decision == Ack <==> HasTaskId(body) && callback.Completed?
    ensures h.decision == Nack(false) <==> LacksTaskId(body)
    ensures h.decision == Nack(true) <==> body.Unparseable? || !body.value.JObj? || (HasTaskId(body) && callback.Threw?)
  {
    match body
    case Unparseable => Handling(None, Nack(true))
    case Parsed(message) =>
      if !message.JObj? then
        Handling(None, Nack(true))
      else if Truthy(TaskIdField(message)) then
        Handling(Some(TaskIdField(message)), if callback.Completed? then Ack else Nack(true))
      else
        Handling(None, Nack(false))
  }

  // ---------------------------------------------------------------------------
  // Properties of the backoff rule
  // ---------------------------------------------------------------------------

  lemma {:induction false} Pow2Monotone(i: nat, j: nat)
    requires i <= j
    ensures Pow2(i) <= Pow2(j)
    decreases j - i
  {
    if i < j {
      Pow2Monotone(i, j - 1);
    }
  }

  lemma MulMonotone(x: nat, a: nat, b: nat)
    requires a <= b
    ensures x * a <= x * b
  {
    assert x * b == x * a + x * (b - a);
  }

  /** A later failure never sleeps for less. */
  lemma BackoffMonotone(retryDelay: nat, i: nat, j: nat)
    requires i <= j
    ensures Backoff(retryDelay, i) <= Backoff(retryDelay, j)
  {
    Pow2Monotone(Min(i, 3), Min(j, 3));
    MulMonotone(retryDelay, Pow2(Min(i, 3)), Pow2(Min(j, 3)));
  }

  /** From the fourth failure on, the delay stays at `min(8 * retry_delay, 10)`. */
  lemma BackoffSaturates(retryDelay: nat, attempt: nat)
    requires attempt >= 3
    ensures Backoff(retryDelay, attempt) == Min(8 * retryDelay, MaxBackoff)
  {
    assert Pow2(3) == 8 by {
      assert Pow2(1) == 2;
      assert Pow2(2) == 4;
    }
  }

  /** With the default delay of 2 seconds the sleeps are 2, 4, 8, 10, 10, ... */
  lemma DefaultBackoffSchedule(attempt: nat)
    ensures Backoff(DefaultConnectDelay, attempt) == [2, 4, 8, 10][Min(attempt, 3)]
  {
    assert Pow2(1) == 2;
    assert Pow2(2) == 4;
    assert Pow2(3) == 8;
  }

  // ---------------------------------------------------------------------------
  // Properties of get_connection
  // ---------------------------------------------------------------------------

  lemma {:induction false} CountsAppend(s: seq<Event>, t: seq<Event>)
    ensures CountAttempts(s + t) == CountAttempts(s) + CountAttempts(t)
    ensures CountSleeps(s + t) == CountSleeps(s) + CountSleeps(t)
    decreases |t|
  {
    if t == [] {
      assert s + t == s;
    } else {
      var t' := t[..|t| - 1];
      assert (s + t)[..|s + t| - 1] == s + t';
      CountsAppend(s, t');
    }
  }

  /** One more caught failure appends an attempt and its backoff sleep. */
  lemma RetriedAttemptsNext(retryDelay: nat, k: nat)
    ensures RetriedAttempts(retryDelay, k + 1) == RetriedAttempts(retryDelay, k) + [Attempt, Sleep(Backoff(retryDelay, k))]
  {
    var r := RetriedAttempts(retryDelay, k + 1);
    var s := RetriedAttempts(retryDelay, k) + [Attempt, Sleep(Backoff(retryDelay, k))];
    forall j | 0 <= j < 2 * k + 2 ensures r[j] == s[j] {
      if j >= 2 * k {
        assert j == 2 * k || j == 2 * k + 1;
      }
    }
  }

  lemma {:induction false} RetriedAttemptsCounts(retryDelay: nat, k: nat)
    ensures CountAttempts(RetriedAttempts(retryDelay, k)) == k
    ensures CountSleeps(RetriedAttempts(retryDelay, k)) == k
  {
    if k > 0 {
      var tail := [Attempt, Sleep(Backoff(retryDelay, k - 1))];
      RetriedAttemptsNext(retryDelay, k - 1);
      RetriedAttemptsCounts(retryDelay, k - 1);
      CountsAppend(RetriedAttempts(retryDelay, k - 1), tail);
      assert tail[..1] == [Attempt];
      assert [Attempt][..0] == [];
      assert CountAttempts(tail) == 1 && CountSleeps(tail) == 1;
    }
  }

  /** The trace after a final attempt that followed `k` caught failures. */
  lemma FinalAttemptCounts(retryDelay: nat, k: nat)
    ensures CountAttempts(RetriedAttempts(retryDelay, k) + [Attempt]) == k + 1
    ensures CountSleeps(RetriedAttempts(retryDelay, k) + [Attempt]) == k
  {
    assert [Attempt][..0] == [];
    RetriedAttemptsCounts(retryDelay, k);
    CountsAppend(RetriedAttempts(retryDelay, k), [Attempt]);
  }

  /**
   * `get_connection` makes at most `max_retries` attempts, at least one when
   * `max_retries` is positive; every attempt but the last is followed by
   * exactly one sleep, and the last attempt by none.
   */
  lemma ConnectAttemptsAndSleeps(maxRetries: int, retryDelay: nat, outcomes: seq<Outcome>)
    requires maxRetries <= |outcomes|
    ensures var run := GetConnectionSpec(maxRetries, retryDelay, outcomes);
      && CountAttempts(run.trace) <= Iterations(maxRetries)
      && (run.trace == [] <==> maxRetries <= 0)
      && (run.trace != [] ==>
            run.trace[|run.trace| - 1] == Attempt && CountSleeps(run.trace) + 1 == CountAttempts(run.trace))
  {
    var n := Iterations(maxRetries);
    var k := FirstDecisive(outcomes, n, 0);
    if k < n {
      FinalAttemptCounts(retryDelay, k);
    } else if n > 0 {
      FinalAttemptCounts(retryDelay, n - 1);
    }
  }

  /** The `i`-th sleep of a run is the backoff of caught failure `i`, so no sleep exceeds 10 seconds. */
  lemma ConnectSleepsAreBackoffs(maxRetries: int, retryDelay: nat, outcomes: seq<Outcome>)
    requires maxRetries <= |outcomes|
    ensures var trace := GetConnectionSpec(maxRetries, retryDelay, outcomes).trace;
      forall j :: 0 <= j < |trace| ==>
        trace[j] == if j % 2 == 0 then Attempt else Sleep(Backoff(retryDelay, j / 2))
  {
    var n := Iterations(maxRetries);
    var k := FirstDecisive(outcomes, n, 0);
    if n > 0 {
      var last := if k < n then k else n - 1;
      var trace := RetriedAttempts(retryDelay, last) + [Attempt];
      forall j | 0 <= j < |trace| ensures trace[j] == if j % 2 == 0 then Attempt else Sleep(Backoff(retryDelay, j / 2)) {
        if j < 2 * last {
          assert trace[j] == RetriedAttempts(retryDelay, last)[j];
        }
      }
    }
  }

  /** Attempt `k` is reached and succeeds: only caught failures came before it. */
  predicate SucceedsAt(outcomes: seq<Outcome>, n: nat, k: nat)
    requires n <= |outcomes|
  {
    k < n && outcomes[k] == Connects && forall j :: 0 <= j < k ==> outcomes[j].Fails? && Retried(outcomes[j].error)
  }

  /**
   * A connection is returned exactly when some attempt within the budget
   * succeeds after nothing but caught failures; that attempt is the last one made.
   */
  lemma ConnectedIff(maxRetries: int, retryDelay: nat, outcomes: seq<Outcome>)
    requires maxRetries <= |outcomes|
    ensures var run := GetConnectionSpec(maxRetries, retryDelay, outcomes);
      run.result == Connected <==> exists k :: SucceedsAt(outcomes, Iterations(maxRetries), k)
  {
    var n := Iterations(maxRetries);
    var f := FirstDecisive(outcomes, n, 0);
    FirstDecisiveDecides(outcomes, n, 0);
    if GetConnectionSpec(maxRetries, retryDelay, outcomes).result == Connected {
      assert SucceedsAt(outcomes, n, f);
    }
    if k :| SucceedsAt(outcomes, n, k) {
      FirstDecisiveIs(outcomes, n, k);
    }
  }

  /** The first success is returned at once: `k + 1` attempts and `k` sleeps. */
  lemma ConnectsAtFirstSuccess(maxRetries: int, retryDelay: nat, outcomes: seq<Outcome>, k: nat)
    requires maxRetries <= |outcomes|
    requires SucceedsAt(outcomes, Iterations(maxRetries), k)
    ensures var run := GetConnectionSpec(maxRetries, retryDelay, outcomes);
      run.result == Connected && CountAttempts(run.trace) == k + 1 && CountSleeps(run.trace) == k
  {
    FirstDecisiveIs(outcomes, Iterations(maxRetries), k);
    FinalAttemptCounts(retryDelay, k);
  }

  /** An error outside the three caught types propagates from the attempt that raises it, without a sleep. */
  lemma UncaughtErrorPropagates(maxRetries: int, retryDelay: nat, outcomes: seq<Outcome>, k: nat, e: Error)
    requires maxRetries <= |outcomes|
    requires k < Iterations(maxRetries) && outcomes[k] == Fails(e) && !Retried(e)
    requires forall j :: 0 <= j < k ==> outcomes[j].Fails? && Retried(outcomes[j].error)
    ensures var run := GetConnectionSpec(maxRetries, retryDelay, outcomes);
      && run.result == Raised(e)
      && CountAttempts(run.trace) == k + 1 && CountSleeps(run.trace) == k
      && run.trace[|run.trace| - 1] == Attempt
  {
    FirstDecisiveIs(outcomes, Iterations(maxRetries), k);
    FinalAttemptCounts(retryDelay, k);
  }

  /** When every attempt fails with a caught error, the last error is re-raised after `max_retries - 1` sleeps. */
  lemma ExhaustedRaisesLastError(maxRetries: int, retryDelay: nat, outcomes: seq<Outcome>)
    requires 0 < maxRetries <= |outcomes|
    requires forall j :: 0 <= j < maxRetries ==> outcomes[j].Fails? && Retried(outcomes[j].error)
    ensures var run := GetConnectionSpec(maxRetries, retryDelay, outcomes);
      && run.result == Raised(outcomes[maxRetries - 1].error)
      && CountAttempts(run.trace) == maxRetries && CountSleeps(run.trace) == maxRetries - 1
  {
    FirstDecisiveIs(outcomes, maxRetries, maxRetries);
    FinalAttemptCounts(retryDelay, maxRetries - 1);
  }

  /** `get_connection` falls off its loop and returns `None` exactly when `max_retries <= 0`, without an attempt. */
  lemma ReturnsNoneIff(maxRetries: int, retryDelay: nat, outcomes: seq<Outcome>)
    requires maxRetries <= |outcomes|
    ensures var run := GetConnectionSpec(maxRetries, retryDelay, outcomes);
      run.result == ReturnedNone <==> maxRetries <= 0
  {
  }

  // ---------------------------------------------------------------------------
  // Properties of publish_task
  // ---------------------------------------------------------------------------

  lemma {:induction false} PublishCountsAppend(s: seq<PublishEvent>, t: seq<PublishEvent>)
    ensures CountRounds(s + t) == CountRounds(s) + CountRounds(t)
    ensures CountPauses(s + t) == CountPauses(s) + CountPauses(t)
    ensures CountSent(s + t) == CountSent(s) + CountSent(t)
    ensures CountConnectAttempts(s + t) == CountConnectAttempts(s) + CountConnectAttempts(t)
    decreases |t|
  {
    if t == [] {
      assert s + t == s;
    } else {
      var t' := t[..|t| - 1];
      assert (s + t)[..|s + t| - 1] == s + t';
      PublishCountsAppend(s, t');
    }
  }

  /** A round makes at most three connection attempts. */
  lemma RoundAttemptsBounded(taskId: string, a: PublishAttempt)
    requires PublishConnectRetries <= |a.connect|
    ensures RoundSpec(taskId, a).round.Round?
    ensures CountAttempts(RoundSpec(taskId, a).round.connection) <= 3
  {
    ConnectAttemptsAndSleeps(PublishConnectRetries, PublishConnectDelay, a.connect);
  }

  lemma OneRoundCounts(e: PublishEvent)
    requires e.Round?
    ensures CountRounds([e]) == 1 && CountPauses([e]) == 0
    ensures CountSent([e]) == (if e.sent.Some? then 1 else 0)
    ensures CountConnectAttempts([e]) == CountAttempts(e.connection)
  {
    assert [e][..0] == [];
  }

  /** The counts of a failed round followed by its pause. */
  lemma RoundThenPauseCounts(e: PublishEvent, seconds: nat)
    requires e.Round?
    ensures var pair := [e, Pause(seconds)];
      && CountRounds(pair) == 1 && CountPauses(pair) == 1
      && CountSent(pair) == (if e.sent.Some? then 1 else 0)
      && CountConnectAttempts(pair) == CountAttempts(e.connection)
  {
    var pair := [e, Pause(seconds)];
    assert pair[..1] == [e];
    OneRoundCounts(e);
  }

  lemma {:induction false} FailedRoundsCounts(rounds: seq<RoundRun>, retryDelay: nat, k: nat)
    requires k <= |rounds|
    requires forall j :: 0 <= j < k ==> rounds[j].round.Round?
    ensures CountRounds(FailedRounds(rounds, retryDelay, k)) == k
    ensures CountPauses(FailedRounds(rounds, retryDelay, k)) == k
  {
    if k > 0 {
      var e := rounds[k - 1].round;
      FailedRoundsCounts(rounds, retryDelay, k - 1);
      PublishCountsAppend(FailedRounds(rounds, retryDelay, k - 1), [e, Pause(retryDelay)]);
      RoundThenPauseCounts(e, retryDelay);
    }
  }

  lemma {:induction false} FailedRoundsConnectAttempts(taskId: string, retryDelay: nat, attempts: seq<PublishAttempt>, k: nat)
    requires k <= |attempts|
    requires WellFormedAttempts(attempts)
    ensures CountConnectAttempts(FailedRounds(Rounds(taskId, attempts), retryDelay, k)) <= 3 * k
  {
    if k > 0 {
      var rs := Rounds(taskId, attempts);
      RoundsAt(taskId, attempts, k - 1);
      var e := rs[k - 1].round;
      FailedRoundsConnectAttempts(taskId, retryDelay, attempts, k - 1);
      PublishCountsAppend(FailedRounds(rs, retryDelay, k - 1), [e, Pause(retryDelay)]);
      RoundThenPauseCounts(e, retryDelay);
      RoundAttemptsBounded(taskId, attempts[k - 1]);
    }
  }

  /** Failed rounds hand nothing to the broker unless a close raised after a publish. */
  lemma {:induction false} FailedRoundsSendNothing(taskId: string, retryDelay: nat, attempts: seq<PublishAttempt>, k: nat)
    requires k <= |attempts|
    requires WellFormedAttempts(attempts)
    requires forall j :: 0 <= j < k ==> attempts[j].rest != CloseFails
    requires forall j :: 0 <= j < k ==> !RoundSucceeds(attempts[j])
    ensures CountSent(FailedRounds(Rounds(taskId, attempts), retryDelay, k)) == 0
  {
    if k > 0 {
      var rs := Rounds(taskId, attempts);
      RoundsAt(taskId, attempts, k - 1);
      var e := rs[k - 1].round;
      FailedRoundsSendNothing(taskId, retryDelay, attempts, k - 1);
      PublishCountsAppend(FailedRounds(rs, retryDelay, k - 1), [e, Pause(retryDelay)]);
      RoundThenPauseCounts(e, retryDelay);
    }
  }

  /** Round `i` is event `2 * i`, and the pause after it is event `2 * i + 1`. */
  lemma {:induction false} FailedRoundsShape(rounds: seq<RoundRun>, retryDelay: nat, k: nat)
    requires k <= |rounds|
    ensures forall j {:trigger FailedRounds(rounds, retryDelay, k)[j]} :: 0 <= j < 2 * k ==>
      FailedRounds(rounds, retryDelay, k)[j] == if j % 2 == 0 then rounds[j / 2].round else Pause(retryDelay)
  {
    if k > 0 {
      FailedRoundsShape(rounds, retryDelay, k - 1);
      var r := FailedRounds(rounds, retryDelay, k);
      forall j | 0 <= j < 2 * k
        ensures r[j] == if j % 2 == 0 then rounds[j / 2].round else Pause(retryDelay)
      {
        if j < 2 * k - 2 {
          assert r[j] == FailedRounds(rounds, retryDelay, k - 1)[j];
        } else {
          assert j == 2 * (k - 1) || j == 2 * (k - 1) + 1;
        }
      }
    }
  }

  /** `publish_task` returns `True` exactly when one of its first `max_retries` rounds succeeds. */
  lemma PublishOkIff(taskId: string, maxRetries: int, retryDelay: nat, attempts: seq<PublishAttempt>)
    requires maxRetries <= |attempts|
    requires WellFormedAttempts(attempts)
    ensures PublishSpec(taskId, maxRetries, retryDelay, attempts).ok <==>
      exists j :: 0 <= j < Iterations(maxRetries) && RoundSucceeds(attempts[j])
  {
    var n := Iterations(maxRetries);
    var rs := Rounds(taskId, attempts);
    var k := FirstSuccess(rs, n, 0);
    if k < n {
      RoundsAt(taskId, attempts, k);
      assert RoundSucceeds(attempts[k]);
    }
    if j :| 0 <= j < n && RoundSucceeds(attempts[j]) {
      RoundsAt(taskId, attempts, j);
      assert k <= j;
    }
  }

  /** Round `i` of a publish is event `2 * i`, and the pause after it is event `2 * i + 1`. */
  lemma PublishTraceShape(taskId: string, maxRetries: int, retryDelay: nat, attempts: seq<PublishAttempt>)
    requires maxRetries <= |attempts|
    requires WellFormedAttempts(attempts)
    ensures var trace := PublishSpec(taskId, maxRetries, retryDelay, attempts).trace;
      forall j :: 0 <= j < |trace| ==>
        trace[j] == if j % 2 == 0 then RoundSpec(taskId, attempts[j / 2]).round else Pause(retryDelay)
  {
    var n := Iterations(maxRetries);
    var rs := Rounds(taskId, attempts);
    var k := FirstSuccess(rs, n, 0);
    if n > 0 {
      var last := if k < n then k else n - 1;
      var trace := PublishSpec(taskId, maxRetries, retryDelay, attempts).trace;
      var prefix := FailedRounds(rs, retryDelay, last);
      assert trace == prefix + [rs[last].round];
      FailedRoundsShape(rs, retryDelay, last);
      forall j | 0 <= j < |trace|
        ensures trace[j] == if j % 2 == 0 then RoundSpec(taskId, attempts[j / 2]).round else Pause(retryDelay)
      {
        RoundsAt(taskId, attempts, j / 2);
        if j < 2 * last {
          assert trace[j] == prefix[j];
        } else {
          assert j == 2 * last && j / 2 == last;
        }
      }
    }
  }

  /** The shape of `PublishOf` over rounds that each make a round event. */
  lemma PublishOfRoundsAndPauses(rounds: seq<RoundRun>, maxRetries: int, retryDelay: nat)
    requires maxRetries <= |rounds|
    requires forall j :: 0 <= j < |rounds| ==> rounds[j].round.Round?
    ensures var trace := PublishOf(rounds, maxRetries, retryDelay).trace;
      && CountRounds(trace) <= Iterations(maxRetries)
      && (trace == [] <==> maxRetries <= 0)
      && (trace != [] ==> trace[|trace| - 1].Round? && CountPauses(trace) + 1 == CountRounds(trace))
      && (forall j :: 0 <= j < |trace| && trace[j].Pause? ==> trace[j].seconds == retryDelay)
  {
    if maxRetries > 0 {
      var last := PublishOfLast(rounds, maxRetries, retryDelay);
      var e := rounds[last].round;
      var prefix := FailedRounds(rounds, retryDelay, last);
      var trace := prefix + [e];
      FailedRoundsCounts(rounds, retryDelay, last);
      PublishCountsAppend(prefix, [e]);
      OneRoundCounts(e);
      FailedRoundsShape(rounds, retryDelay, last);
      forall j | 0 <= j < |trace| && trace[j].Pause? ensures trace[j].seconds == retryDelay {
        if j < 2 * last {
          assert trace[j] == prefix[j];
        }
      }
    }
  }

  /**
   * At most `max_retries` rounds, at least one when it is positive, with the
   * fixed pause between consecutive rounds and none after the last.
   */
  lemma PublishRoundsAndPauses(taskId: string, maxRetries: int, retryDelay: nat, attempts: seq<PublishAttempt>)
    requires maxRetries <= |attempts|
    requires WellFormedAttempts(attempts)
    ensures var trace := PublishSpec(taskId, maxRetries, retryDelay, attempts).trace;
      && CountRounds(trace) <= Iterations(maxRetries)
      && (trace == [] <==> maxRetries <= 0)
      && (trace != [] ==> trace[|trace| - 1].Round? && CountPauses(trace) + 1 == CountRounds(trace))
      && (forall j :: 0 <= j < |trace| && trace[j].Pause? ==> trace[j].seconds == retryDelay)
  {
    RoundsAll(taskId, attempts);
    PublishOfRoundsAndPauses(Rounds(taskId, attempts), maxRetries, retryDelay);
  }

  /** One publish makes at most `3 * max_retries` connection attempts. */
  lemma PublishConnectAttemptsBounded(taskId: string, maxRetries: int, retryDelay: nat, attempts: seq<PublishAttempt>)
    requires maxRetries <= |attempts|
    requires WellFormedAttempts(attempts)
    ensures CountConnectAttempts(PublishSpec(taskId, maxRetries, retryDelay, attempts).trace)
      <= 3 * Iterations(maxRetries)
  {
    var rs := Rounds(taskId, attempts);
    if maxRetries > 0 {
      var last := PublishOfLast(rs, maxRetries, retryDelay);
      RoundsAt(taskId, attempts, last);
      var e := rs[last].round;
      FailedRoundsConnectAttempts(taskId, retryDelay, attempts, last);
      PublishCountsAppend(FailedRounds(rs, retryDelay, last), [e]);
      RoundAttemptsBounded(taskId, attempts[last]);
    }
  }

  /** Whatever a round hands to the broker is the body `{"task_id": task_id}`. */
  lemma PublishSendsOnlyTheBody(taskId: string, maxRetries: int, retryDelay: nat, attempts: seq<PublishAttempt>)
    requires maxRetries <= |attempts|
    requires WellFormedAttempts(attempts)
    ensures var trace := PublishSpec(taskId, maxRetries, retryDelay, attempts).trace;
      forall j :: 0 <= j < |trace| && trace[j].Round? && trace[j].sent.Some? ==>
        trace[j].sent.value == MessageBody(taskId)
  {
    PublishTraceShape(taskId, maxRetries, retryDelay, attempts);
  }

  /**
   * Without a close that raises after a publish, the broker receives the body
   * once when `publish_task` returns `True` and never when it returns `False`.
   */
  lemma PublishOnceWithoutCloseFailure(taskId: string, maxRetries: int, retryDelay: nat, attempts: seq<PublishAttempt>)
    requires maxRetries <= |attempts|
    requires WellFormedAttempts(attempts)
    requires forall j :: 0 <= j < maxRetries ==> attempts[j].rest != CloseFails
    ensures var run := PublishSpec(taskId, maxRetries, retryDelay, attempts);
      CountSent(run.trace) == if run.ok then 1 else 0
  {
    var rs := Rounds(taskId, attempts);
    if maxRetries > 0 {
      var last := PublishOfLast(rs, maxRetries, retryDelay);
      RoundsAt(taskId, attempts, last);
      var e := rs[last].round;
      assert e.sent.Some? <==> rs[last].succeeded;
      forall j | 0 <= j < last ensures !RoundSucceeds(attempts[j]) {
        RoundsAt(taskId, attempts, j);
      }
      FailedRoundsSendNothing(taskId, retryDelay, attempts, last);
      PublishCountsAppend(FailedRounds(rs, retryDelay, last), [e]);
      OneRoundCounts(e);
    }
  }

  /**
   * A close that raises after the body went out makes the whole round fail and
   * be retried, so the broker receives the body twice and `True` is returned.
   */
  lemma CloseFailureRepublishes(taskId: string)
    ensures var ok3 := [Connects, Connects, Connects];
      var run := PublishSpec(taskId, DefaultPublishRetries, DefaultPublishDelay,
                             [PublishAttempt(ok3, CloseFails), PublishAttempt(ok3, Completes),
                              PublishAttempt(ok3, Completes), PublishAttempt(ok3, Completes),
                              PublishAttempt(ok3, Completes)]);
      run.ok && CountSent(run.trace) == 2
  {
    var ok3 := [Connects, Connects, Connects];
    var attempts := [PublishAttempt(ok3, CloseFails), PublishAttempt(ok3, Completes),
                     PublishAttempt(ok3, Completes), PublishAttempt(ok3, Completes),
                     PublishAttempt(ok3, Completes)];
    FirstDecisiveIs(ok3, 3, 0);
    assert GetConnectionSpec(PublishConnectRetries, PublishConnectDelay, ok3) == ConnectRun([Attempt], Connected);
    var body := Some(MessageBody(taskId));
    var rs := Rounds(taskId, attempts);
    RoundsAt(taskId, attempts, 0);
    RoundsAt(taskId, attempts, 1);
    assert rs[0] == RoundRun(Round([Attempt], body), false);
    assert rs[1] == RoundRun(Round([Attempt], body), true);
    FirstSuccessIs(rs, 5, 1);
    var e := Round([Attempt], body);
    assert FailedRounds(rs, DefaultPublishDelay, 1) == [e, Pause(DefaultPublishDelay)];
    PublishCountsAppend([e, Pause(DefaultPublishDelay)], [e]);
    RoundThenPauseCounts(e, DefaultPublishDelay);
    OneRoundCounts(e);
  }

  // ---------------------------------------------------------------------------
  // Properties of on_message
  // ---------------------------------------------------------------------------

  /**
   * A published body, decoded by the consumer, hands the same identifier string
   * to the callback; an empty identifier is rejected without requeue.
   */
  lemma MessageBodyDelivered(taskId: string, callback: CallbackResult)
    ensures var h := OnMessage(Parsed(MessageBody(taskId)), callback);
      && (taskId != "" ==> h.callbackArg == Some(JStr(taskId)) && (h.decision == Ack <==> callback.Completed?))
      && (taskId == "" ==> h.callbackArg == None && h.decision == Nack(false))
  {
    assert TaskIdField(MessageBody(taskId)) == JStr(taskId);
  }
}
