/**
 * The three background tools: `background_task` (launch, or run to the end
 * in sync mode), `background_output` and `background_cancel`, with the
 * session poll that decides when a synchronous run has settled.
 *
 * Every answer of the session API and every abort-signal reading is an
 * input; the polls that start before the five-minute limit are a sequence.
 */
module BackgroundTools {
  import opened Wrappers
  import opened Text
  import opened Assoc
  import opened JsonValues
  import opened SessionMessages
  import opened BackgroundUtils
  import opened BackgroundManager

  const PollIntervalMs := 500
  const DefaultTimeoutMs := 2 * 60 * 1000
  const MaxPollTimeMs := 5 * 60 * 1000
  const StablePollsThreshold := 3

  // ---------------------------------------------------------------- task metadata

  function MetadataSuffix(sessionId: string): string
  {
    "\n\n<task_metadata>\nsession_id: " + sessionId + "\n</task_metadata>"
  }

  /** `withTaskMetadata`: the content, then a blank line and the session id in a `<task_metadata>` block. */
  function WithTaskMetadata(content: string, sessionId: string): (r: string)
    ensures StartsWith(r, content) && EndsWith(r, MetadataSuffix(sessionId))
    ensures |r| == |content| + |MetadataSuffix(sessionId)|
  {
    var r := content + MetadataSuffix(sessionId);
    assert r[..|content|] == content;
    assert r[|r| - |MetadataSuffix(sessionId)|..] == MetadataSuffix(sessionId);
    r
  }

  /** The content of a text that carries the metadata block of `sessionId`. */
  function StripTaskMetadata(text: string, sessionId: string): (r: Option<string>)
    ensures r.Some? <==> EndsWith(text, MetadataSuffix(sessionId))
  {
    var suffix := MetadataSuffix(sessionId);
    if EndsWith(text, suffix) then Some(text[..|text| - |suffix|]) else None
  }

  /** The content comes back out of the metadata block, so two contents never get the same text. */
  lemma TaskMetadataRoundTrip(content: string, other: string, sessionId: string)
    ensures StripTaskMetadata(WithTaskMetadata(content, sessionId), sessionId) == Some(content)
    ensures WithTaskMetadata(content, sessionId) == WithTaskMetadata(other, sessionId) ==> content == other
  {
    var r := WithTaskMetadata(content, sessionId);
    assert r[..|r| - |MetadataSuffix(sessionId)|] == content;
    var q := WithTaskMetadata(other, sessionId);
    assert q[..|q| - |MetadataSuffix(sessionId)|] == other;
  }

  // ---------------------------------------------------------------- pollSession

  /**
   * One turn of the `pollSession` loop: the abort signal was already set,
   * or the status call and then the messages call answered (`Err` when the
   * answer carried an error; the status is the type of this session's
   * status, if it has one; the messages are counted).
   */
  datatype PollRound = AbortSeen | Polled(status: Result<Option<string>>, messageCount: Result<nat>)

  datatype PollOutcome = Settled | PollError(error: string) | TimedOut | AbortedPoll

  /** `pollSession` from the counters `lastMsgCount` and `stablePolls`. */
  function PollSessionFrom(rounds: seq<PollRound>, lastMsgCount: nat, stablePolls: nat): PollOutcome
    decreases |rounds|
  {
    if |rounds| == 0 then TimedOut
    else
      match rounds[0]
      case AbortSeen => AbortedPoll
      case Polled(status, count) =>
        if status.Err? then PollError("Failed to get session status: " + status.msg)
        else if Busy(status.value) then PollSessionFrom(rounds[1..], 0, 0)
        else if count.Err? then PollError("Failed to check messages: " + count.msg)
        else if count.value > 0 && count.value == lastMsgCount then
          if stablePolls + 1 >= StablePollsThreshold then Settled
          else PollSessionFrom(rounds[1..], lastMsgCount, stablePolls + 1)
        else PollSessionFrom(rounds[1..], count.value, 0)
  }

  function PollSessionOf(rounds: seq<PollRound>): PollOutcome
  {
    PollSessionFrom(rounds, 0, 0)
  }

  method PollSession(rounds: seq<PollRound>) returns (outcome: PollOutcome)
    ensures outcome == PollSessionOf(rounds)
  {
    var lastMsgCount: nat := 0;
    var stablePolls: nat := 0;
    var i := 0;
    while i < |rounds|
      invariant 0 <= i <= |rounds|
      invariant PollSessionFrom(rounds[i..], lastMsgCount, stablePolls) == PollSessionOf(rounds)
    {
      assert rounds[i..][0] == rounds[i] && rounds[i..][1..] == rounds[i + 1..];
      if rounds[i].AbortSeen? {
        return AbortedPoll;
      }
      var status := rounds[i].status;
      if status.Err? {
        return PollError("Failed to get session status: " + status.msg);
      }
      if Busy(status.value) {
        stablePolls := 0;
        lastMsgCount := 0;
      } else {
        var count := rounds[i].messageCount;
        if count.Err? {
          return PollError("Failed to check messages: " + count.msg);
        }
        if count.value > 0 && count.value == lastMsgCount {
          stablePolls := stablePolls + 1;
          if stablePolls >= StablePollsThreshold {
            return Settled;
          }
        } else {
          stablePolls := 0;
          lastMsgCount := count.value;
        }
      }
      i := i + 1;
    }
    return TimedOut;
  }

  /** A round in which the session is idle (or has no status) and holds `n` messages. */
  predicate Quiet(round: PollRound, n: nat)
  {
    round.Polled? && round.status.Ok? && !Busy(round.status.value) && round.messageCount == Ok(n)
  }

  /** Four quiet rounds in a row with the same positive count. */
  predicate FourQuiet(rounds: seq<PollRound>, k: int, n: nat)
  {
    0 <= k && k + 4 <= |rounds| && n > 0 && forall j :: k <= j < k + 4 ==> Quiet(rounds[j], n)
  }

  /**
   * From counters that already saw `stablePolls` quiet rounds of
   * `lastMsgCount`, the poll settles only after four quiet rounds in a row
   * with one positive count, or after the rounds still missing from the
   * current run.
   */
  lemma {:induction false} SettledAfterQuietRun(rounds: seq<PollRound>, lastMsgCount: nat, stablePolls: nat)
    requires stablePolls < StablePollsThreshold
    requires PollSessionFrom(rounds, lastMsgCount, stablePolls) == Settled
    ensures (exists k, n :: FourQuiet(rounds, k, n)) ||
      (lastMsgCount > 0 && 3 - stablePolls <= |rounds| &&
       forall j :: 0 <= j < 3 - stablePolls ==> Quiet(rounds[j], lastMsgCount))
  {
    var r := rounds[0];
    var rest := rounds[1..];
    assert forall j :: 1 <= j < |rounds| ==> rounds[j] == rest[j - 1];
    if Busy(r.status.value) {
      SettledAfterQuietRun(rest, 0, 0);
      var k, n :| FourQuiet(rest, k, n);
      assert FourQuiet(rounds, k + 1, n);
    } else if r.messageCount.value > 0 && r.messageCount.value == lastMsgCount {
      if stablePolls + 1 < StablePollsThreshold {
        SettledAfterQuietRun(rest, lastMsgCount, stablePolls + 1);
        if exists k, n :: FourQuiet(rest, k, n) {
          var k, n :| FourQuiet(rest, k, n);
          assert FourQuiet(rounds, k + 1, n);
        }
      }
    } else {
      var n := r.messageCount.value;
      SettledAfterQuietRun(rest, n, 0);
      if exists k, n' :: FourQuiet(rest, k, n') {
        var k, n' :| FourQuiet(rest, k, n');
        assert FourQuiet(rounds, k + 1, n');
      } else {
        assert FourQuiet(rounds, 0, n);
      }
    }
  }

  /** `pollSession` reports success only after four quiet rounds in a row with the same positive message count. */
  lemma SettledNeedsFourQuiet(rounds: seq<PollRound>)
    requires PollSessionOf(rounds) == Settled
    ensures exists k, n :: FourQuiet(rounds, k, n)
  {
    SettledAfterQuietRun(rounds, 0, 0);
  }

  /** The rounds still missing from a run of quiet rounds settle the poll. */
  lemma {:induction false} QuietRunSettles(rounds: seq<PollRound>, n: nat, stablePolls: nat)
    requires n > 0 && stablePolls < StablePollsThreshold
    requires 3 - stablePolls <= |rounds| && forall j :: 0 <= j < 3 - stablePolls ==> Quiet(rounds[j], n)
    ensures PollSessionFrom(rounds, n, stablePolls) == Settled
  {
    if stablePolls + 1 < StablePollsThreshold {
      assert forall j :: 0 <= j < 3 - (stablePolls + 1) ==> rounds[1..][j] == rounds[j + 1];
      QuietRunSettles(rounds[1..], n, stablePolls + 1);
    }
  }

  /** Four quiet rounds with the same positive count settle the poll, whatever the counters were. */
  lemma FourQuietSettles(rounds: seq<PollRound>, n: nat, lastMsgCount: nat, stablePolls: nat)
    requires stablePolls < StablePollsThreshold
    requires FourQuiet(rounds, 0, n)
    ensures PollSessionFrom(rounds, lastMsgCount, stablePolls) == Settled
  {
    if n == lastMsgCount {
      QuietRunSettles(rounds, n, stablePolls);
    } else {
      assert forall j :: 0 <= j < 3 ==> rounds[1..][j] == rounds[j + 1];
      QuietRunSettles(rounds[1..], n, 0);
    }
  }

  /** The poll is aborted only by a set abort signal, and times out only when none was seen. */
  lemma {:induction false} PollEnds(rounds: seq<PollRound>, lastMsgCount: nat, stablePolls: nat)
    ensures PollSessionFrom(rounds, lastMsgCount, stablePolls) == AbortedPoll ==> AbortSeen in rounds
    ensures PollSessionFrom(rounds, lastMsgCount, stablePolls) == TimedOut ==>
      AbortSeen !in rounds && forall j :: 0 <= j < |rounds| ==> rounds[j].status.Ok?
    ensures |rounds| > 0 && rounds[0] == AbortSeen ==> PollSessionFrom(rounds, lastMsgCount, stablePolls) == AbortedPoll
  {
    if |rounds| > 0 && rounds[0].Polled? {
      var rest := rounds[1..];
      assert rounds == [rounds[0]] + rest;
      assert forall j :: 1 <= j < |rounds| ==> rounds[j] == rest[j - 1];
      var r := rounds[0];
      if r.status.Ok? {
        if Busy(r.status.value) {
          PollEnds(rest, 0, 0);
        } else if r.messageCount.Ok? {
          if r.messageCount.value > 0 && r.messageCount.value == lastMsgCount {
            PollEnds(rest, lastMsgCount, stablePolls + 1);
          } else {
            PollEnds(rest, r.messageCount.value, 0);
          }
        }
      }
    }
  }

  // ---------------------------------------------------------------- sync mode

  /**
   * `resolveSessionId`: an existing (non-empty) session id is looked up,
   * `lookupError` being the error of that lookup; otherwise a child session
   * is created, `created` being the id or the error of that call.
   */
  function ResolveSessionId(existingSessionId: Option<string>, lookupError: Option<string>, created: Result<string>): (r: Result<string>)
    ensures existingSessionId.Some? && existingSessionId.value != "" && lookupError.None? ==> r == Ok(existingSessionId.value)
    ensures (existingSessionId.None? || existingSessionId.value == "") ==> (r.Ok? <==> created.Ok?)
  {
    if existingSessionId.Some? && existingSessionId.value != "" then
      if lookupError.Some? then Err("Failed to get session: " + lookupError.value) else Ok(existingSessionId.value)
    else if created.Err? then Err("Failed to create session: " + created.msg)
    else Ok(created.value)
  }

  /** `sendPrompt`'s error when the prompt call threw. */
  function PromptError(threw: Option<string>): (r: Option<string>)
    ensures r.None? <==> threw.None?
  {
    if threw.Some? then Some("Failed to send prompt: " + threw.value) else None
  }

  function TimeoutMessage(): string
  {
    "Error: Agent timed out after " + NatToString(MaxPollTimeMs / 60000) + " minutes."
  }

  /**
   * `executeSync`: the text returned for a synchronous run, from the
   * resolved session, the prompt call, the poll and the final messages call.
   */
  function SyncResponse(session: Result<string>, promptThrew: Option<string>, poll: PollOutcome,
                        messages: Result<seq<Message>>): string
  {
    match session
    case Err(e) => "Error: " + e
    case Ok(id) =>
      if promptThrew.Some? then WithTaskMetadata("Error: " + PromptError(promptThrew).value, id)
      else
        match poll
        case AbortedPoll => WithTaskMetadata("Task aborted.", id)
        case TimedOut => WithTaskMetadata(TimeoutMessage(), id)
        case PollError(e) => WithTaskMetadata("Error: " + e, id)
        case Settled =>
          match messages
          case Err(e) => "Error: Failed to get messages: " + e
          case Ok(ms) =>
            var text := ResponseText(ms);
            if text == "" then WithTaskMetadata("Error: No response from agent.", id) else WithTaskMetadata(text, id)
  }

  /**
   * A settled run with a response returns the response with the session's
   * metadata, and the response can be read back out of it; a timeout
   * reports five minutes.
   */
  lemma SyncResponseCarriesText(id: string, poll: PollOutcome, ms: seq<Message>)
    ensures poll == Settled && ResponseText(ms) != "" ==>
      StripTaskMetadata(SyncResponse(Ok(id), None, poll, Ok(ms)), id) == Some(ResponseText(ms))
    ensures poll == TimedOut ==>
      SyncResponse(Ok(id), None, poll, Ok(ms)) == WithTaskMetadata("Error: Agent timed out after 5 minutes.", id)
    ensures poll == Settled && ResponseText(ms) == "" ==>
      StripTaskMetadata(SyncResponse(Ok(id), None, poll, Ok(ms)), id) == Some("Error: No response from agent.")
  {
    if poll == Settled {
      var text := ResponseText(ms);
      if text != "" {
        TaskMetadataRoundTrip(text, text, id);
      } else {
        TaskMetadataRoundTrip("Error: No response from agent.", "", id);
      }
    } else if poll == TimedOut {
      TimeoutMinutes();
    }
  }

  /** The timeout message counts five minutes. */
  lemma TimeoutMinutes()
    ensures TimeoutMessage() == "Error: Agent timed out after 5 minutes."
  {
    assert NatToString(MaxPollTimeMs / 60000) == "5";
  }

  /** Only a set session lookup or creation error, or a failed final messages call, come back without the metadata block. */
  lemma SyncResponseMetadata(session: Result<string>, promptThrew: Option<string>, poll: PollOutcome, messages: Result<seq<Message>>)
    requires session.Ok?
    requires !(promptThrew.None? && poll == Settled && messages.Err?)
    ensures EndsWith(SyncResponse(session, promptThrew, poll, messages), MetadataSuffix(session.value))
  {
  }

  // ---------------------------------------------------------------- tool responses

  /** Sync mode is chosen only by `sync` being exactly `true`. */
  predicate IsSync(sync: Json)
  {
    sync == JBool(true)
  }

  function LaunchMessage(taskId: string, agent: string): string
  {
    "Background task launched.\n\nTask ID: " + taskId + "\nAgent: " + agent +
    "\nStatus: running\n\nUse `background_output` with task_id=\"" + taskId + "\" to get results."
  }

  /** The whole seconds from start to completion (rounded down), or `running`. */
  function Duration(t: Task): string
  {
    if t.completedAt.Some? then IntToString((t.completedAt.value - t.startedAt) / 1000) + "s" else "running"
  }

  function OutputHeader(t: Task): string
  {
    "Task: " + t.id + "\n Description: " + t.description + "\n Status: " + StatusName(t.status) +
    "\n Duration: " + Duration(t) + "\n\n ---\n\n "
  }

  /** What follows the header: the result, the error (`undefined` when there is none), or a note that it still runs. */
  function OutputBody(t: Task): string
  {
    if t.status == Completed && t.result.Some? then t.result.value
    else if t.status == Failed then "Error: " + (if t.error.Some? then t.error.value else "undefined")
    else "(Task still running)"
  }

  /** `background_output`'s answer for what `getResult` found, if any. */
  function OutputMessage(taskId: string, found: Option<Task>): (r: string)
  {
    if found.None? then "Task not found: " + taskId else OutputHeader(found.value) + OutputBody(found.value)
  }

  /** The output of a found task is its header followed by its result, its error, or the still-running note. */
  lemma OutputShape(taskId: string, t: Task)
    ensures StartsWith(OutputMessage(taskId, Some(t)), OutputHeader(t))
    ensures t.status == Completed && t.result.Some? ==> EndsWith(OutputMessage(taskId, Some(t)), t.result.value)
    ensures t.status == Failed && t.error.Some? ==> EndsWith(OutputMessage(taskId, Some(t)), "Error: " + t.error.value)
    ensures t.status == Running || t.status == Pending ==> EndsWith(OutputMessage(taskId, Some(t)), "(Task still running)")
  {
    var h, b := OutputHeader(t), OutputBody(t);
    assert (h + b)[..|h|] == h;
    assert (h + b)[|h + b| - |b|..] == b;
  }

  /**
   * `background_cancel`: the map of tasks afterwards and the answer. `all`
   * wins over `task_id`; an empty `task_id` cancels every running task,
   * as the manager reads it as no id.
   */
  function CancelToolOf(ts: Entries<Task>, all: bool, taskId: Option<string>, now: int): (Entries<Task>, string)
  {
    if all then
      var (after, count) := CancelOf(ts, None, now);
      (after, "Cancelled " + NatToString(count) + " running task(s).")
    else if taskId.Some? then
      var (after, count) := CancelOf(ts, taskId, now);
      (after, if count > 0 then "Cancelled task " + taskId.value + "." else "Task " + taskId.value + " not found or not running.")
    else (ts, "Specify task_id or use all=true.")
  }

  /** `background_cancel` with an id answers that it was cancelled exactly when it was running. */
  lemma CancelToolById(ts: Entries<Task>, taskId: string, now: int)
    requires taskId != ""
    ensures CancelToolOf(ts, false, Some(taskId), now).1 == "Cancelled task " + taskId + "." <==>
      HasKey(ts, taskId) && Get(ts, taskId).value.status == Running
    ensures CancelToolOf(ts, false, Some(taskId), now).0 == CancelOf(ts, Some(taskId), now).0
  {
    CancelOne(ts, taskId, now);
    var notFound := "Task " + taskId + " not found or not running.";
    var cancelled := "Cancelled task " + taskId + ".";
    assert notFound[0] != cancelled[0];
  }

  /** Neither argument: a usage hint and nothing cancelled. */
  lemma CancelToolNeither(ts: Entries<Task>, now: int)
    ensures CancelToolOf(ts, false, None, now) == (ts, "Specify task_id or use all=true.")
  {
  }

  /** An empty `task_id` with running tasks cancels every one of them, and the answer names no task. */
  lemma CancelToolEmptyId(ts: Entries<Task>, now: int)
    requires RunningCount(ts) > 0
    ensures CancelToolOf(ts, false, Some(""), now) == (CancelOf(ts, None, now).0, "Cancelled task .")
  {
    assert "Cancelled task " + "" + "." == "Cancelled task .";
  }

  // ---------------------------------------------------------------- the tools over the manager

  /**
   * `background_task` in async mode: launch with the prompt and no model,
   * then the launch message; a launch error is the tool's error.
   */
  method BackgroundTask(manager: BackgroundTaskManager, sessionId: Option<string>, taskId: string,
                        description: string, agent: string, prompt: string, promptError: Option<string>, now: int)
    returns (r: Result<string>)
    requires manager.Valid()
    modifies manager
    ensures manager.Valid()
    ensures r.Err? <==> sessionId.None? || sessionId.value == "" || promptError.Some?
    ensures r.Ok? ==> r.value == LaunchMessage(taskId, agent)
    ensures sessionId.Some? && sessionId.value != "" ==>
      Get(manager.tasks, taskId) == Some(NewTask(taskId, sessionId.value, description, agent, now))
    ensures sessionId.Some? && sessionId.value != "" && promptError.Some? ==> r == Err(promptError.value)
    ensures (sessionId.None? || sessionId.value == "") ==> r == Err(SessionCreateFailed) && manager.tasks == old(manager.tasks)
  {
    var launched, _ := manager.Launch(sessionId, taskId, description, agent, prompt, None, promptError, now);
    if launched.Err? {
      return Err(launched.msg);
    }
    return Ok(LaunchMessage(launched.value.id, agent));
  }

  /**
   * `background_task`'s dispatch: `sync` exactly `true` runs the synchronous
   * path, which leaves the manager alone and answers with text; anything else
   * launches a background task.
   */
  method BackgroundTaskTool(manager: BackgroundTaskManager, sync: Json, sessionId: Option<string>, taskId: string,
                            description: string, agent: string, prompt: string, promptError: Option<string>, now: int,
                            syncSession: Result<string>, syncPromptThrew: Option<string>, poll: PollOutcome,
                            messages: Result<seq<Message>>)
    returns (r: Result<string>)
    requires manager.Valid()
    modifies manager
    ensures manager.Valid()
    ensures IsSync(sync) ==> r == Ok(SyncResponse(syncSession, syncPromptThrew, poll, messages)) && unchanged(manager)
    ensures !IsSync(sync) ==> (r.Err? <==> sessionId.None? || sessionId.value == "" || promptError.Some?)
    ensures !IsSync(sync) && r.Ok? ==> r.value == LaunchMessage(taskId, agent)
    ensures !IsSync(sync) && sessionId.Some? && sessionId.value != "" ==>
      Get(manager.tasks, taskId) == Some(NewTask(taskId, sessionId.value, description, agent, now))
  {
    if IsSync(sync) {
      return Ok(SyncResponse(syncSession, syncPromptThrew, poll, messages));
    }
    r := BackgroundTask(manager, sessionId, taskId, description, agent, prompt, promptError, now);
  }

  /** `background_output`: the manager's answer, as text. */
  method BackgroundOutput(manager: BackgroundTaskManager, taskId: string, block: bool, polls: seq<Observation>)
    returns (text: string)
    requires manager.Valid()
    modifies manager
    ensures manager.Valid()
    ensures text == OutputMessage(taskId, GetResultOf(old(manager.tasks), taskId, block, polls))
  {
    var found := manager.GetResult(taskId, block, polls);
    text := OutputMessage(taskId, found);
  }

  /** `background_cancel`: the manager's cancellation, as text. */
  method BackgroundCancel(manager: BackgroundTaskManager, all: bool, taskId: Option<string>, now: int)
    returns (text: string)
    requires manager.Valid()
    modifies manager
    ensures manager.Valid()
    ensures (manager.tasks, text) == CancelToolOf(old(manager.tasks), all, taskId, now)
  {
    if all {
      var count := manager.Cancel(None, now);
      return "Cancelled " + NatToString(count) + " running task(s).";
    }
    if taskId.Some? {
      var count := manager.Cancel(taskId, now);
      if count > 0 {
        return "Cancelled task " + taskId.value + ".";
      }
      return "Task " + taskId.value + " not found or not running.";
    }
    return "Specify task_id or use all=true.";
  }
}
