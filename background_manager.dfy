/**
 * The background task manager: each task runs in a session of its own, is
 * polled until that session falls idle with an answer, and can be
 * cancelled on its own or together with every other running task.
 *
 * The session API, the clock and the id generator are inputs: a poll
 * is an `Observation` of what the API answered and when.
 */
module BackgroundManager {
  import opened Wrappers
  import opened Assoc
  import opened SessionMessages
  import opened JsonValues
  import opened BackgroundUtils

  datatype Status = Pending | Running | Completed | Failed

  function StatusName(s: Status): string
  {
    match s
    case Pending => "pending"
    case Running => "running"
    case Completed => "completed"
    case Failed => "failed"
  }

  /** A background task; times are clock readings in milliseconds. */
  datatype Task = Task(
    id: string,
    sessionId: string,
    description: string,
    agent: string,
    status: Status,
    result: Option<string>,
    error: Option<string>,
    startedAt: int,
    completedAt: Option<int>)

  predicate Done(t: Task)
  {
    t.status == Completed || t.status == Failed
  }

  const CancelledByUser := "Cancelled by user"
  const SessionCreateFailed := "Failed to create background session"

  /** Failed with `error` at `now`. */
  function Fail(t: Task, error: string, now: int): (r: Task)
    ensures r.id == t.id && Done(r)
  {
    t.(status := Failed, error := Some(error), completedAt := Some(now))
  }

  // ---------------------------------------------------------------- cancel

  /** What `cancel` does to one task: a running task fails as cancelled by the user, any other is left alone. */
  function CancelRunning(t: Task, now: int): (r: Task)
    ensures r.id == t.id && r.status != Running
    ensures t.status != Running ==> r == t
  {
    if t.status == Running then Fail(t, CancelledByUser, now) else t
  }

  /** The number of running tasks. */
  function RunningCount(ts: Entries<Task>): (n: nat)
    ensures n <= |ts|
  {
    if |ts| == 0 then 0 else (if ts[0].1.status == Running then 1 else 0) + RunningCount(ts[1..])
  }

  function CancelAllOf(ts: Entries<Task>, now: int): Entries<Task>
  {
    MapValues(ts, t => CancelRunning(t, now))
  }

  /**
   * `cancel(taskId)`: the map of tasks afterwards and the count returned. A
   * missing or empty id (a falsy one) cancels every running task.
   */
  function CancelOf(ts: Entries<Task>, taskId: Option<string>, now: int): (Entries<Task>, nat)
  {
    if taskId.Some? && taskId.value != "" then
      var t := Get(ts, taskId.value);
      if t.Some? && t.value.status == Running then (Put(ts, taskId.value, CancelRunning(t.value, now)), 1)
      else (ts, 0)
    else (CancelAllOf(ts, now), RunningCount(ts))
  }

  // ---------------------------------------------------------------- polling

  /**
   * What the session API answered during one poll of a task: the status
   * call (`Err` with the error message when it threw, otherwise the type of
   * this session's status, if the session has one), the messages call, and
   * the clock reading.
   */
  datatype Observation = Observation(status: Result<Option<string>>, messages: Result<seq<Message>>, now: int)

  /** A session status that is present and not `idle`. */
  predicate Busy(status: Option<string>)
  {
    status.Some? && status.value != "idle"
  }

  predicate SomeAssistant(messages: seq<Message>)
  {
    exists i :: 0 <= i < |messages| && IsAssistant(messages[i])
  }

  /** `pollTask`: a task after one poll. A throw from either call fails it, even one that is no longer running. */
  function PollTaskOf(t: Task, obs: Observation): (r: Task)
    ensures r.id == t.id
  {
    match obs.status
    case Err(e) => Fail(t, e, obs.now)
    case Ok(status) =>
      if t.status != Running || Busy(status) then t
      else
        match obs.messages
        case Err(e) => Fail(t, e, obs.now)
        case Ok(messages) =>
          if !SomeAssistant(messages) then t
          else
            var text := ResponseText(messages);
            if text != "" then t.(result := Some(text), status := Completed, completedAt := Some(obs.now))
            else t
  }

  /** A task in `pollAllTasks`: polled with what `observe` gives for its id when it is running, left alone otherwise. */
  function PollIfRunning(t: Task, observe: string -> Observation): (r: Task)
    ensures r.id == t.id
  {
    if t.status == Running then PollTaskOf(t, observe(t.id)) else t
  }

  /** `pollAllTasks` with running tasks: each running task polled once. */
  function PollAllOf(ts: Entries<Task>, observe: string -> Observation): Entries<Task>
  {
    MapValues(ts, (t: Task) => PollIfRunning(t, observe))
  }

  /**
   * The blocking wait of `getResult`: poll after poll until it is
   * completed or failed, or the polls that fit before the deadline run out.
   */
  function BlockingResultOf(t: Task, polls: seq<Observation>): Task
    decreases |polls|
  {
    if |polls| == 0 then t
    else
      var next := PollTaskOf(t, polls[0]);
      if Done(next) then next else BlockingResultOf(next, polls[1..])
  }

  /** `getResult(taskId, block)`; `None` stands for `null`. */
  function GetResultOf(ts: Entries<Task>, taskId: string, block: bool, polls: seq<Observation>): (r: Option<Task>)
    ensures r.None? <==> !HasKey(ts, taskId)
  {
    match Get(ts, taskId)
    case None => None
    case Some(t) => if !block || Done(t) then Some(t) else Some(BlockingResultOf(t, polls))
  }

  /** What `launch` registers. */
  function NewTask(taskId: string, sessionId: string, description: string, agent: string, now: int): (t: Task)
    ensures t.id == taskId && t.sessionId == sessionId && t.status == Running
    ensures t.result.None? && t.error.None? && t.completedAt.None?
  {
    Task(taskId, sessionId, description, agent, Running, None, None, now, None)
  }

  /** Every task is stored once, under its own id. */
  ghost predicate StoredUnderIds(ts: Entries<Task>)
  {
    DistinctKeys(ts) && forall k :: HasKey(ts, k) ==> Get(ts, k).value.id == k
  }

  /** An update that keeps every task's id keeps each task stored under their ids. */
  lemma MapKeepsIds(ts: Entries<Task>, f: Task -> Task)
    requires StoredUnderIds(ts)
    requires forall t :: f(t).id == t.id
    ensures StoredUnderIds(MapValues(ts, f))
  {
    var r := MapValues(ts, f);
    assert Keys(r) == Keys(ts);
    forall k | HasKey(r, k)
      ensures Get(r, k).value.id == k
    {
      assert HasKey(ts, k);
      assert Get(r, k).value == f(Get(ts, k).value);
    }
  }

  /** The result of updating every entry in place is `MapValues`. */
  lemma MapInPlace(before: Entries<Task>, after: Entries<Task>, f: Task -> Task)
    requires |after| == |before|
    requires forall j :: 0 <= j < |before| ==> after[j] == (before[j].0, f(before[j].1))
    ensures after == MapValues(before, f)
  {
  }

  // ---------------------------------------------------------------- the prompt request

  /** The prompt body before the variant: the agent, the two recursive tools switched off, and the prompt as one text part. */
  function BaseBody(agent: string, prompt: string): Entries<Json>
  {
    [("agent", JStr(agent)),
     ("tools", JObj([("background_task", JBool(false)), ("task", JBool(false))])),
     ("parts", JArr([JObj([("type", JStr("text")), ("text", JStr(prompt))])]))]
  }

  /** The body `sendPrompt` sends: the base body with the agent's configured variant, when there is one. */
  function PromptBody(config: Option<Entries<Json>>, agent: string, prompt: string): Entries<Json>
  {
    ApplyAgentVariant(ResolveAgentVariant(config, agent), BaseBody(agent, prompt))
  }

  /** The prompt carries a variant exactly when one is configured for the agent, and always names the agent. */
  lemma PromptBodyVariant(config: Option<Entries<Json>>, agent: string, prompt: string)
    ensures Field(PromptBody(config, agent, prompt), "agent") == JStr(agent)
    ensures ResolveAgentVariant(config, agent).Some? ==>
      Field(PromptBody(config, agent, prompt), "variant") == JStr(ResolveAgentVariant(config, agent).value)
    ensures ResolveAgentVariant(config, agent).None? ==> PromptBody(config, agent, prompt) == BaseBody(agent, prompt)
  {
    var body := BaseBody(agent, prompt);
    assert Keys(body) == ["agent", "tools", "parts"];
    assert !HasKey(body, "variant");
    ApplyVariantFields(ResolveAgentVariant(config, agent), body, "agent");
  }

  /** The `session.prompt` request of `launch`: the task's session, the body and the query. */
  datatype PromptRequest = PromptRequest(sessionId: string, body: Entries<Json>, query: Entries<string>)

  /** The query of the prompt request: the directory, and the model when a non-empty one is given. */
  function LaunchQuery(directory: string, model: Option<string>): (q: Entries<string>)
    ensures Get(q, "directory") == Some(directory)
    ensures Get(q, "model") == if model.Some? && model.value != "" then Some(model.value) else None
    ensures Keys(q) == ["directory"] + (if model.Some? && model.value != "" then ["model"] else [])
  {
    [("directory", directory)] + (if model.Some? && model.value != "" then [("model", model.value)] else [])
  }

  // ---------------------------------------------------------------- the manager

  class BackgroundTaskManager {
    /** Tasks by id, in launch order. */
    var tasks: Entries<Task>
    /** Whether the background polling timer is set. */
    var polling: bool
    /** The working directory sent with every session request. */
    const directory: string
    /** The plugin configuration, read for the agents' variants. */
    const config: Option<Entries<Json>>

    /** Every task is stored once, under its own id. */
    ghost predicate Valid()
      reads this
    {
      StoredUnderIds(tasks)
    }

    constructor(directory: string, config: Option<Entries<Json>>)
      ensures Valid() && tasks == [] && !polling
      ensures this.directory == directory && this.config == config
    {
      tasks := [];
      polling := false;
      this.directory := directory;
      this.config := config;
    }

    /**
     * `launch`: `sessionId` is the id of the session the API created,
     * `taskId` the generated id, and `promptError` what the prompt request
     * threw. The task is stored and polling started before that request, so
     * a launch whose prompt fails rejects with the task left running.
     */
    method Launch(sessionId: Option<string>, taskId: string, description: string, agent: string,
                  prompt: string, model: Option<string>, promptError: Option<string>, now: int)
      returns (r: Result<Task>, request: Option<PromptRequest>)
      requires Valid()
      modifies this
      ensures Valid()
      ensures sessionId.None? || sessionId.value == "" ==>
        r == Err(SessionCreateFailed) && request.None? && tasks == old(tasks) && polling == old(polling)
      ensures sessionId.Some? && sessionId.value != "" ==>
        && tasks == Put(old(tasks), taskId, NewTask(taskId, sessionId.value, description, agent, now))
        && polling
        && request == Some(PromptRequest(sessionId.value, PromptBody(config, agent, prompt), LaunchQuery(directory, model)))
        && r == if promptError.Some? then Err(promptError.value) else Ok(NewTask(taskId, sessionId.value, description, agent, now))
    {
      if sessionId.None? || sessionId.value == "" {
        return Err(SessionCreateFailed), None;
      }
      var task := NewTask(taskId, sessionId.value, description, agent, now);
      PutDistinct(tasks, taskId, task);
      tasks := Put(tasks, taskId, task);
      if !polling {
        polling := true;
      }
      request := Some(PromptRequest(sessionId.value, PromptBody(config, agent, prompt), LaunchQuery(directory, model)));
      if promptError.Some? {
        return Err(promptError.value), request;
      }
      return Ok(task), request;
    }

    /** `cancel(taskId)`, returning how many tasks it cancelled. */
    method Cancel(taskId: Option<string>, now: int) returns (count: nat)
      requires Valid()
      modifies this
      ensures Valid() && polling == old(polling)
      ensures (tasks, count) == CancelOf(old(tasks), taskId, now)
    {
      if taskId.Some? && taskId.value != "" {
        var task := Get(tasks, taskId.value);
        if task.Some? && task.value.status == Running {
          PutDistinct(tasks, taskId.value, CancelRunning(task.value, now));
          tasks := Put(tasks, taskId.value, CancelRunning(task.value, now));
          return 1;
        }
        return 0;
      }
      ghost var before := tasks;
      count := 0;
      var i := 0;
      while i < |tasks|
        invariant 0 <= i <= |tasks| == |before|
        invariant forall j :: 0 <= j < i ==> tasks[j] == (before[j].0, CancelRunning(before[j].1, now))
        invariant forall j :: i <= j < |tasks| ==> tasks[j] == before[j]
        invariant count + RunningCount(before[i..]) == RunningCount(before)
        invariant polling == old(polling)
      {
        assert before[i..][1..] == before[i + 1..];
        if tasks[i].1.status == Running {
          tasks := tasks[i := (tasks[i].0, CancelRunning(tasks[i].1, now))];
          count := count + 1;
        }
        i := i + 1;
      }
      MapInPlace(before, tasks, t => CancelRunning(t, now));
      MapKeepsIds(before, t => CancelRunning(t, now));
    }

    /** `pollTask` on what is stored under `taskId`. */
    method PollTask(taskId: string, obs: Observation)
      requires Valid() && HasKey(tasks, taskId)
      modifies this
      ensures Valid() && polling == old(polling)
      ensures tasks == Put(old(tasks), taskId, PollTaskOf(Get(old(tasks), taskId).value, obs))
    {
      var task := Get(tasks, taskId).value;
      if obs.status.Err? {
        task := Fail(task, obs.status.msg, obs.now);
      } else if task.status == Running && !Busy(obs.status.value) {
        if obs.messages.Err? {
          task := Fail(task, obs.messages.msg, obs.now);
        } else if SomeAssistant(obs.messages.value) {
          var text := ExtractResponseText(obs.messages.value);
          if text != "" {
            task := task.(result := Some(text), status := Completed, completedAt := Some(obs.now));
          }
        }
      }
      PutDistinct(tasks, taskId, task);
      tasks := Put(tasks, taskId, task);
    }

    /**
     * `pollAllTasks`, one tick of the polling timer: with no running task
     * the timer is cleared; otherwise every running task is polled.
     */
    method PollAllTasks(observe: string -> Observation)
      requires Valid()
      modifies this
      ensures Valid()
      ensures RunningCount(old(tasks)) == 0 ==> tasks == old(tasks) && !polling
      ensures RunningCount(old(tasks)) > 0 ==> tasks == PollAllOf(old(tasks), observe) && polling == old(polling)
    {
      if RunningCount(tasks) == 0 {
        polling := false;
        return;
      }
      ghost var before := tasks;
      var i := 0;
      while i < |tasks|
        invariant 0 <= i <= |tasks| == |before|
        invariant forall j :: 0 <= j < i ==> tasks[j] == (before[j].0, PollIfRunning(before[j].1, observe))
        invariant forall j :: i <= j < |tasks| ==> tasks[j] == before[j]
        invariant polling == old(polling)
      {
        var task := tasks[i].1;
        if task.status == Running {
          tasks := tasks[i := (tasks[i].0, PollTaskOf(task, observe(task.id)))];
        }
        i := i + 1;
      }
      MapInPlace(before, tasks, (t: Task) => PollIfRunning(t, observe));
      MapKeepsIds(before, (t: Task) => PollIfRunning(t, observe));
    }

    /**
     * `getResult(taskId, block)`. `polls` are the polls that fit before the
     * deadline; what it finds is updated in place by the polls.
     */
    method GetResult(taskId: string, block: bool, polls: seq<Observation>) returns (r: Option<Task>)
      requires Valid()
      modifies this
      ensures Valid() && polling == old(polling)
      ensures r == GetResultOf(old(tasks), taskId, block, polls)
      ensures r.None? ==> tasks == old(tasks)
      ensures r.Some? ==> tasks == Put(old(tasks), taskId, r.value)
    {
      var found := Get(tasks, taskId);
      if found.None? {
        return None;
      }
      var task := found.value;
      PutSame(tasks, taskId);
      if !block || Done(task) {
        return Some(task);
      }
      var i := 0;
      while i < |polls|
        invariant 0 <= i <= |polls|
        invariant Valid() && polling == old(polling)
        invariant HasKey(tasks, taskId) && Get(tasks, taskId) == Some(task)
        invariant tasks == Put(old(tasks), taskId, task)
        invariant !Done(task)
        invariant BlockingResultOf(task, polls[i..]) == BlockingResultOf(found.value, polls)
      {
        assert polls[i..][0] == polls[i] && polls[i..][1..] == polls[i + 1..];
        ghost var previous := tasks;
        PollTask(taskId, polls[i]);
        PutOver(old(tasks), taskId, task, PollTaskOf(task, polls[i]));
        task := Get(tasks, taskId).value;
        if Done(task) {
          return Some(task);
        }
        i := i + 1;
      }
      return Some(task);
    }
  }

  // ---------------------------------------------------------------- properties

  /**
   * Cancelling one task: it is cancelled (and 1 returned) exactly when it
   * exists and is running; nothing else changes, and with 0 nothing at all.
   */
  lemma CancelOne(ts: Entries<Task>, taskId: string, now: int)
    requires taskId != ""
    ensures CancelOf(ts, Some(taskId), now).1 == 1 <==>
      Get(ts, taskId).Some? && Get(ts, taskId).value.status == Running
    ensures CancelOf(ts, Some(taskId), now).1 == 0 ==> CancelOf(ts, Some(taskId), now).0 == ts
    ensures CancelOf(ts, Some(taskId), now).1 == 1 ==>
      && Get(CancelOf(ts, Some(taskId), now).0, taskId) ==
         Some(Get(ts, taskId).value.(status := Failed, error := Some(CancelledByUser), completedAt := Some(now)))
      && Keys(CancelOf(ts, Some(taskId), now).0) == Keys(ts)
    ensures forall k :: k != taskId ==> Get(CancelOf(ts, Some(taskId), now).0, k) == Get(ts, k)
  {
  }

  /** The number of running tasks is zero exactly when none is running. */
  lemma {:induction false} RunningCountZero(ts: Entries<Task>)
    ensures RunningCount(ts) == 0 <==> forall j :: 0 <= j < |ts| ==> ts[j].1.status != Running
  {
    if |ts| > 0 {
      RunningCountZero(ts[1..]);
      assert forall j :: 1 <= j < |ts| ==> ts[j] == ts[1..][j - 1];
    }
  }

  /**
   * Cancelling all: every running task fails as cancelled by the user, every
   * other task is untouched, the keys stay as they were, the count is the
   * number of tasks that were running, and none is running afterwards.
   */
  lemma CancelAll(ts: Entries<Task>, now: int, key: string)
    ensures CancelOf(ts, None, now).1 == RunningCount(ts)
    ensures Keys(CancelOf(ts, None, now).0) == Keys(ts)
    ensures HasKey(ts, key) && Get(ts, key).value.status == Running ==>
      Get(CancelOf(ts, None, now).0, key) ==
        Some(Get(ts, key).value.(status := Failed, error := Some(CancelledByUser), completedAt := Some(now)))
    ensures HasKey(ts, key) && Get(ts, key).value.status != Running ==>
      Get(CancelOf(ts, None, now).0, key) == Get(ts, key)
    ensures RunningCount(CancelOf(ts, None, now).0) == 0
  {
    CancelAllGet(ts, now, key);
    CancelAllNoneRunning(ts, now);
  }

  lemma CancelAllGet(ts: Entries<Task>, now: int, key: string)
    ensures Keys(CancelAllOf(ts, now)) == Keys(ts)
    ensures Get(CancelAllOf(ts, now), key) == if HasKey(ts, key) then Some(CancelRunning(Get(ts, key).value, now)) else None
  {
    var f := t => CancelRunning(t, now);
    assert CancelAllOf(ts, now) == MapValues(ts, f);
  }

  lemma CancelAllNoneRunning(ts: Entries<Task>, now: int)
    ensures RunningCount(CancelAllOf(ts, now)) == 0
  {
    var r := CancelAllOf(ts, now);
    forall j | 0 <= j < |r|
      ensures r[j].1.status != Running
    {
      assert r[j].1 == CancelRunning(ts[j].1, now);
    }
    RunningCountZero(r);
  }

  /** An empty task id is falsy: it cancels every running task, as no id does. */
  lemma EmptyIdCancelsAll(ts: Entries<Task>, now: int)
    ensures CancelOf(ts, Some(""), now) == CancelOf(ts, None, now)
  {
  }

  /** A status call that throws fails it with its message, whatever state it was in. */
  lemma PollThrowFails(t: Task, obs: Observation)
    requires obs.status.Err?
    ensures PollTaskOf(t, obs).status == Failed
    ensures PollTaskOf(t, obs).error == Some(obs.status.msg)
    ensures PollTaskOf(t, obs).completedAt == Some(obs.now)
    ensures PollTaskOf(t, obs).result == t.result
  {
  }

  /** A task that is not running, or whose session is busy, is left as it is. */
  lemma PollLeavesAlone(t: Task, obs: Observation)
    requires obs.status.Ok?
    requires t.status != Running || Busy(obs.status.value)
    ensures PollTaskOf(t, obs) == t
  {
  }

  /**
   * A running task whose session is idle (or has no status) and whose
   * messages could be read completes exactly when the response text is not
   * empty, with that text as its result; otherwise it stays as it is.
   */
  lemma PollCompletes(t: Task, obs: Observation)
    requires t.status == Running && obs.status.Ok? && !Busy(obs.status.value) && obs.messages.Ok?
    ensures PollTaskOf(t, obs).status == Completed <==> ResponseText(obs.messages.value) != ""
    ensures ResponseText(obs.messages.value) != "" ==>
      PollTaskOf(t, obs) == t.(result := Some(ResponseText(obs.messages.value)), status := Completed, completedAt := Some(obs.now))
    ensures ResponseText(obs.messages.value) == "" ==> PollTaskOf(t, obs) == t
  {
    var messages := obs.messages.value;
    if !SomeAssistant(messages) {
      NoAssistantNoText(messages);
    }
  }

  /** One poll of an unfinished task either leaves it as it is or finishes it. */
  lemma PollStepOutcome(t: Task, obs: Observation)
    requires !Done(t)
    ensures PollTaskOf(t, obs) == t || Done(PollTaskOf(t, obs))
  {
  }

  /**
   * A blocking wait returns the unfinished task unchanged when no poll
   * finishes it, and otherwise as the first finishing poll left it.
   */
  lemma {:induction false} BlockingResultIsFirstFinish(t: Task, polls: seq<Observation>)
    requires !Done(t)
    ensures BlockingResultOf(t, polls) == t ||
      exists k :: 0 <= k < |polls| && BlockingResultOf(t, polls) == PollTaskOf(t, polls[k]) &&
        Done(PollTaskOf(t, polls[k])) && forall j :: 0 <= j < k ==> PollTaskOf(t, polls[j]) == t
    ensures Done(BlockingResultOf(t, polls)) || BlockingResultOf(t, polls) == t
  {
    if |polls| > 0 {
      var next := PollTaskOf(t, polls[0]);
      PollStepOutcome(t, polls[0]);
      if !Done(next) {
        assert next == t;
        BlockingResultIsFirstFinish(t, polls[1..]);
        var r := BlockingResultOf(t, polls);
        if r != t {
          var k :| 0 <= k < |polls[1..]| && r == PollTaskOf(t, polls[1..][k]) &&
            Done(PollTaskOf(t, polls[1..][k])) && forall j :: 0 <= j < k ==> PollTaskOf(t, polls[1..][j]) == t;
          assert polls[1..][k] == polls[k + 1];
          assert forall j :: 0 <= j < k + 1 ==> PollTaskOf(t, polls[j]) == t by {
            forall j | 0 <= j < k + 1
              ensures PollTaskOf(t, polls[j]) == t
            {
              if j > 0 {
                assert polls[1..][j - 1] == polls[j];
              }
            }
          }
        }
      }
    }
  }

  /** Without blocking, and for a finished task, `getResult` returns the stored task. */
  lemma GetResultStored(ts: Entries<Task>, taskId: string, block: bool, polls: seq<Observation>)
    requires HasKey(ts, taskId)
    requires !block || Done(Get(ts, taskId).value)
    ensures GetResultOf(ts, taskId, block, polls) == Get(ts, taskId)
  {
  }
}
