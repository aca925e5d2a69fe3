/**
 * The multiplexer manager: a terminal pane is spawned for every child
 * session created, tracked by session id, and closed once the session is
 * idle, has been missing from the status list for long enough, or is too
 * old.
 *
 * Spawning and closing panes, the status call and the clock are inputs: a
 * spawn is the `SpawnResult` it gave, a pane whose close call throws is a
 * member of `failing`.
 */
module MultiplexerManager {
  import opened Wrappers
  import opened Assoc

  const PollIntervalBackgroundMs := 2000
  const SessionTimeoutMs := 10 * 60 * 1000
  const SessionMissingGraceMs := PollIntervalBackgroundMs * 3

  /** A child session with its pane; times are clock readings in milliseconds. */
  datatype TrackedSession = TrackedSession(
    sessionId: string,
    paneId: string,
    parentId: string,
    title: string,
    createdAt: int,
    lastSeenAt: int,
    missingSince: Option<int>)

  datatype SessionInfo = SessionInfo(id: Option<string>, parentID: Option<string>, title: Option<string>)

  /** An event: its `type` and `properties?.info`. */
  datatype SessionEvent = SessionEvent(kind: string, info: Option<SessionInfo>)

  /** What `provider.spawn` gave; a spawn that threw counts as `success: false`. */
  datatype SpawnResult = SpawnResult(success: bool, paneId: Option<string>)

  predicate NonEmpty(s: Option<string>)
  {
    s.Some? && s.value != ""
  }

  // ---------------------------------------------------------------- onSessionCreated

  /** The child session an event announces, when it names both its id and its parent. */
  predicate IsChildCreated(event: SessionEvent)
  {
    event.kind == "session.created" && event.info.Some? && NonEmpty(event.info.value.id) && NonEmpty(event.info.value.parentID)
  }

  function NewTracked(info: SessionInfo, paneId: string, now: int): TrackedSession
    requires NonEmpty(info.id) && NonEmpty(info.parentID)
  {
    var title := if info.title.Some? then info.title.value else "Subagent";
    TrackedSession(info.id.value, paneId, info.parentID.value, title, now, now, None)
  }

  /** `onSessionCreated`: the tracked sessions afterwards. */
  function OnSessionCreatedOf(sessions: Entries<TrackedSession>, enabled: bool, event: SessionEvent,
                              spawned: SpawnResult, now: int): Entries<TrackedSession>
  {
    if !enabled || !IsChildCreated(event) then sessions
    else
      var info := event.info.value;
      if HasKey(sessions, info.id.value) then sessions
      else if !spawned.success || !NonEmpty(spawned.paneId) then sessions
      else Put(sessions, info.id.value, NewTracked(info, spawned.paneId.value, now))
  }

  // ---------------------------------------------------------------- pollSessions

  /** A JavaScript number used as a condition: set and not zero. */
  predicate TruthyTime(t: Option<int>)
  {
    t.Some? && t.value != 0
  }

  /** The bookkeeping of one poll for one session, given its status type if the status list has it. */
  function Refresh(t: TrackedSession, status: Option<string>, now: int): (r: TrackedSession)
    ensures r.sessionId == t.sessionId && r.paneId == t.paneId && r.createdAt == t.createdAt
  {
    if status.Some? then t.(lastSeenAt := now, missingSince := None)
    else if !TruthyTime(t.missingSince) then t.(missingSince := Some(now))
    else t
  }

  /** The close rule, on the refreshed session. */
  predicate ShouldClose(t: TrackedSession, status: Option<string>, now: int)
  {
    var isIdle := status == Some("idle");
    var missingTooLong := TruthyTime(t.missingSince) && now - t.missingSince.value >= SessionMissingGraceMs;
    var isTimedOut := now - t.createdAt > SessionTimeoutMs;
    isIdle || missingTooLong || isTimedOut
  }

  function RefreshAll(sessions: Entries<TrackedSession>, statuses: Entries<string>, now: int): Entries<TrackedSession>
  {
    MapWithKeys(sessions, (k: string, t: TrackedSession) => Refresh(t, Get(statuses, k), now))
  }

  /** The ids of the refreshed sessions to close, in map order. */
  function CloseList(refreshed: Entries<TrackedSession>, statuses: Entries<string>, now: int): (ids: seq<string>)
    ensures forall id :: id in ids ==> HasKey(refreshed, id)
  {
    if |refreshed| == 0 then []
    else
      var k := refreshed[0].0;
      var rest := CloseList(refreshed[1..], statuses, now);
      assert Keys(refreshed) == [k] + Keys(refreshed[1..]);
      if ShouldClose(refreshed[0].1, Get(statuses, k), now) then [k] + rest else rest
  }

  /**
   * `closeSession` on each id in turn: a tracked session is removed once its
   * pane is closed, and the timer stops when none is left; a close that
   * throws ends the poll there. The result is the sessions and the polling flag.
   */
  function CloseEach(sessions: Entries<TrackedSession>, polling: bool, ids: seq<string>, failing: set<string>)
    : (Entries<TrackedSession>, bool)
    decreases |ids|
  {
    if |ids| == 0 then (sessions, polling)
    else
      match Get(sessions, ids[0])
      case None => CloseEach(sessions, polling, ids[1..], failing)
      case Some(t) =>
        if t.paneId in failing then (sessions, polling)
        else
          var left := Without(sessions, [ids[0]]);
          CloseEach(left, polling && |left| > 0, ids[1..], failing)
  }

  /**
   * `pollSessions`: nothing to track stops the timer; a status call that
   * throws changes nothing; otherwise every session is refreshed and the
   * ones the close rule picks are closed.
   */
  function PollSessionsOf(sessions: Entries<TrackedSession>, polling: bool, statuses: Result<Entries<string>>,
                          now: int, failing: set<string>): (Entries<TrackedSession>, bool)
  {
    if |sessions| == 0 then (sessions, false)
    else if statuses.Err? then (sessions, polling)
    else
      var refreshed := RefreshAll(sessions, statuses.value, now);
      CloseEach(refreshed, polling, CloseList(refreshed, statuses.value, now), failing)
  }

  /** The panes of the tracked sessions, in map order. */
  function Panes(sessions: Entries<TrackedSession>): (panes: seq<string>)
    ensures |panes| == |sessions|
    ensures forall j :: 0 <= j < |sessions| ==> panes[j] == sessions[j].1.paneId
  {
    if |sessions| == 0 then [] else Panes(sessions[..|sessions| - 1]) + [sessions[|sessions| - 1].1.paneId]
  }

  /** Every session is tracked once, under its own id. */
  ghost predicate TrackedUnderIds(sessions: Entries<TrackedSession>)
  {
    DistinctKeys(sessions) && forall k :: HasKey(sessions, k) ==> Get(sessions, k).value.sessionId == k
  }

  lemma WithoutKeepsIds(sessions: Entries<TrackedSession>, drop: seq<string>)
    requires TrackedUnderIds(sessions)
    ensures TrackedUnderIds(Without(sessions, drop))
  {
    WithoutDistinct(sessions, drop);
  }

  // ---------------------------------------------------------------- the manager

  /** The refresh loop over the tracked sessions: each one refreshed, and the ids to close collected in order. */
  method RefreshEach(sessions: Entries<TrackedSession>, all: Entries<string>, now: int)
    returns (refreshed: Entries<TrackedSession>, toClose: seq<string>)
    ensures refreshed == RefreshAll(sessions, all, now)
    ensures toClose == CloseList(refreshed, all, now)
  {
    ghost var target := RefreshAll(sessions, all, now);
    refreshed := sessions;
    toClose := [];
    var i := 0;
    while i < |refreshed|
      invariant 0 <= i <= |refreshed| == |sessions|
      invariant forall j :: 0 <= j < i ==> refreshed[j] == target[j]
      invariant forall j :: i <= j < |refreshed| ==> refreshed[j] == sessions[j]
      invariant toClose == ClosePrefix(target, all, now, i)
    {
      var sessionId := refreshed[i].0;
      var tracked := Refresh(refreshed[i].1, Get(all, sessionId), now);
      assert target[i] == (sessionId, tracked);
      refreshed := refreshed[i := (sessionId, tracked)];
      if ShouldClose(tracked, Get(all, sessionId), now) {
        toClose := toClose + [sessionId];
      }
      i := i + 1;
    }
    assert refreshed == target;
    ClosePrefixAll(target, all, now);
  }

  class MultiplexerManager {
    /** `config.enabled && provider.isActive()`, fixed at construction. */
    const enabled: bool
    var sessions: Entries<TrackedSession>
    /** Whether the polling timer is set. */
    var polling: bool

    ghost predicate Valid()
      reads this
    {
      TrackedUnderIds(sessions)
    }

    constructor(configEnabled: bool, providerActive: bool)
      ensures Valid() && enabled == (configEnabled && providerActive)
      ensures sessions == [] && !polling
    {
      enabled := configEnabled && providerActive;
      sessions := [];
      polling := false;
    }

    /** `onSessionCreated`; `spawned` is what the pane spawn gave, when it is asked for. */
    method OnSessionCreated(event: SessionEvent, spawned: SpawnResult, now: int)
      requires Valid()
      modifies this
      ensures Valid()
      ensures sessions == OnSessionCreatedOf(old(sessions), enabled, event, spawned, now)
      ensures polling == (old(polling) || sessions != old(sessions))
    {
      if !enabled || event.kind != "session.created" {
        return;
      }
      if event.info.None? || !NonEmpty(event.info.value.id) || !NonEmpty(event.info.value.parentID) {
        return;
      }
      var info := event.info.value;
      if HasKey(sessions, info.id.value) {
        return;
      }
      if spawned.success && NonEmpty(spawned.paneId) {
        var tracked := NewTracked(info, spawned.paneId.value, now);
        PutNew(sessions, info.id.value, tracked);
        PutDistinct(sessions, info.id.value, tracked);
        sessions := Put(sessions, info.id.value, tracked);
        polling := true;
      }
    }

    /** `closeSession`; `failing` holds the panes whose close call throws, and `closed` is false when it threw. */
    method CloseSession(sessionId: string, failing: set<string>) returns (closed: bool)
      requires Valid()
      modifies this
      ensures Valid()
      ensures !HasKey(old(sessions), sessionId) ==> closed && sessions == old(sessions) && polling == old(polling)
      ensures HasKey(old(sessions), sessionId) ==>
        && closed == (Get(old(sessions), sessionId).value.paneId !in failing)
        && (closed ==> sessions == Without(old(sessions), [sessionId]) && polling == (old(polling) && |sessions| > 0))
        && (!closed ==> sessions == old(sessions) && polling == old(polling))
    {
      var tracked := Get(sessions, sessionId);
      if tracked.None? {
        return true;
      }
      if tracked.value.paneId in failing {
        return false;
      }
      WithoutKeepsIds(sessions, [sessionId]);
      sessions := Without(sessions, [sessionId]);
      if |sessions| == 0 {
        polling := false;
      }
      return true;
    }

    /** `pollSessions`: `statuses` is the status list by session id, or the error the call threw. */
    method PollSessions(statuses: Result<Entries<string>>, now: int, failing: set<string>)
      requires Valid()
      modifies this
      ensures Valid()
      ensures (sessions, polling) == PollSessionsOf(old(sessions), old(polling), statuses, now, failing)
    {
      if |sessions| == 0 {
        polling := false;
        return;
      }
      if statuses.Err? {
        return;
      }
      var toClose := RefreshSessions(statuses.value, now);
      CloseSessions(toClose, failing);
    }

    /** The first loop of `pollSessions`: every session refreshed in place, and the ids to close collected. */
    method RefreshSessions(all: Entries<string>, now: int) returns (toClose: seq<string>)
      requires Valid()
      modifies this
      ensures Valid() && polling == old(polling)
      ensures sessions == RefreshAll(old(sessions), all, now)
      ensures toClose == CloseList(sessions, all, now)
    {
      RefreshKeepsIds(sessions, all, now);
      sessions, toClose := RefreshEach(sessions, all, now);
    }

    /** The second loop of `pollSessions`: `closeSession` on each id, stopping at a close that throws. */
    method CloseSessions(toClose: seq<string>, failing: set<string>)
      requires Valid()
      modifies this
      ensures Valid()
      ensures (sessions, polling) == CloseEach(old(sessions), old(polling), toClose, failing)
    {
      var j := 0;
      while j < |toClose|
        invariant 0 <= j <= |toClose|
        invariant Valid()
        invariant CloseEach(sessions, polling, toClose[j..], failing) == CloseEach(old(sessions), old(polling), toClose, failing)
      {
        CloseEachAt(sessions, polling, toClose, j, failing);
        var closed := CloseSession(toClose[j], failing);
        if !closed {
          return;
        }
        j := j + 1;
      }
    }

    /** `cleanup`: the timer stops, every pane is closed (errors are only logged) and nothing stays tracked. */
    method Cleanup() returns (closedPanes: seq<string>)
      modifies this
      ensures Valid()
      ensures sessions == [] && !polling
      ensures closedPanes == Panes(old(sessions))
    {
      polling := false;
      closedPanes := [];
      var i := 0;
      while i < |sessions|
        invariant 0 <= i <= |sessions|
        invariant sessions == old(sessions)
        invariant closedPanes == Panes(sessions[..i])
      {
        assert sessions[..i + 1][..i] == sessions[..i];
        closedPanes := closedPanes + [sessions[i].1.paneId];
        i := i + 1;
      }
      assert sessions[..|sessions|] == sessions;
      sessions := [];
    }
  }

  lemma CloseEachStep(sessions: Entries<TrackedSession>, polling: bool, ids: seq<string>, failing: set<string>)
    requires |ids| > 0
    ensures !HasKey(sessions, ids[0]) ==>
      CloseEach(sessions, polling, ids, failing) == CloseEach(sessions, polling, ids[1..], failing)
    ensures HasKey(sessions, ids[0]) && Get(sessions, ids[0]).value.paneId in failing ==>
      CloseEach(sessions, polling, ids, failing) == (sessions, polling)
    ensures HasKey(sessions, ids[0]) && Get(sessions, ids[0]).value.paneId !in failing ==>
      var left := Without(sessions, [ids[0]]);
      CloseEach(sessions, polling, ids, failing) == CloseEach(left, polling && |left| > 0, ids[1..], failing)
  {
  }

  /** `CloseEachStep` for the ids from position `j` on. */
  lemma CloseEachAt(sessions: Entries<TrackedSession>, polling: bool, ids: seq<string>, j: nat, failing: set<string>)
    requires j < |ids|
    ensures !HasKey(sessions, ids[j]) ==>
      CloseEach(sessions, polling, ids[j..], failing) == CloseEach(sessions, polling, ids[j + 1..], failing)
    ensures HasKey(sessions, ids[j]) && Get(sessions, ids[j]).value.paneId in failing ==>
      CloseEach(sessions, polling, ids[j..], failing) == (sessions, polling)
    ensures HasKey(sessions, ids[j]) && Get(sessions, ids[j]).value.paneId !in failing ==>
      var left := Without(sessions, [ids[j]]);
      CloseEach(sessions, polling, ids[j..], failing) == CloseEach(left, polling && |left| > 0, ids[j + 1..], failing)
  {
    var rest := ids[j..];
    assert rest[0] == ids[j] && rest[1..] == ids[j + 1..];
    CloseEachStep(sessions, polling, rest, failing);
  }

  /** The ids to close among the first `i` refreshed sessions, in order. */
  function ClosePrefix(refreshed: Entries<TrackedSession>, statuses: Entries<string>, now: int, i: nat): seq<string>
    requires i <= |refreshed|
  {
    if i == 0 then []
    else
      var k := refreshed[i - 1].0;
      ClosePrefix(refreshed, statuses, now, i - 1) +
        (if ShouldClose(refreshed[i - 1].1, Get(statuses, k), now) then [k] else [])
  }

  lemma {:induction false} ClosePrefixAll(refreshed: Entries<TrackedSession>, statuses: Entries<string>, now: int)
    ensures ClosePrefix(refreshed, statuses, now, |refreshed|) == CloseList(refreshed, statuses, now)
  {
    ClosePrefixShift(refreshed, statuses, now, |refreshed|);
    assert refreshed[..|refreshed|] == refreshed;
  }

  /** Collecting from the back agrees with collecting from the front. */
  lemma {:induction false} ClosePrefixShift(refreshed: Entries<TrackedSession>, statuses: Entries<string>, now: int, i: nat)
    requires i <= |refreshed|
    ensures ClosePrefix(refreshed, statuses, now, i) == CloseList(refreshed[..i], statuses, now)
  {
    if i > 0 {
      ClosePrefixShift(refreshed, statuses, now, i - 1);
      CloseListAppend(refreshed[..i - 1], refreshed[i - 1], statuses, now);
      assert refreshed[..i - 1] + [refreshed[i - 1]] == refreshed[..i];
    } else {
      assert refreshed[..0] == [];
    }
    if i == |refreshed| {
      assert refreshed[..i] == refreshed;
    }
  }

  lemma {:induction false} CloseListAppend(a: Entries<TrackedSession>, e: (string, TrackedSession), statuses: Entries<string>, now: int)
    ensures CloseList(a + [e], statuses, now) ==
      CloseList(a, statuses, now) + (if ShouldClose(e.1, Get(statuses, e.0), now) then [e.0] else [])
  {
    if |a| > 0 {
      assert (a + [e])[1..] == a[1..] + [e];
      CloseListAppend(a[1..], e, statuses, now);
    } else {
      assert a + [e] == [e];
      assert [e][1..] == [];
    }
  }

  lemma RefreshKeepsIds(sessions: Entries<TrackedSession>, statuses: Entries<string>, now: int)
    requires TrackedUnderIds(sessions)
    ensures TrackedUnderIds(RefreshAll(sessions, statuses, now))
  {
    var r := RefreshAll(sessions, statuses, now);
    assert Keys(r) == Keys(sessions);
    forall k | HasKey(r, k)
      ensures Get(r, k).value.sessionId == k
    {
      assert HasKey(sessions, k);
      assert Get(r, k).value == Refresh(Get(sessions, k).value, Get(statuses, k), now);
    }
  }

  // ---------------------------------------------------------------- properties

  /**
   * A session is tracked exactly when the manager is enabled, the event is
   * a `session.created` of a child session not tracked yet, and the spawn
   * gave a pane; it is then appended, titled "Subagent" when the event has
   * no title, and first seen now.
   */
  lemma OnSessionCreatedTracks(sessions: Entries<TrackedSession>, enabled: bool, event: SessionEvent, spawned: SpawnResult, now: int)
    ensures OnSessionCreatedOf(sessions, enabled, event, spawned, now) != sessions <==>
      enabled && IsChildCreated(event) && !HasKey(sessions, event.info.value.id.value) &&
      spawned.success && NonEmpty(spawned.paneId)
    ensures OnSessionCreatedOf(sessions, enabled, event, spawned, now) != sessions ==>
      var info := event.info.value;
      && OnSessionCreatedOf(sessions, enabled, event, spawned, now) ==
           sessions + [(info.id.value, NewTracked(info, spawned.paneId.value, now))]
      && NewTracked(info, spawned.paneId.value, now).title == (if info.title.Some? then info.title.value else "Subagent")
      && NewTracked(info, spawned.paneId.value, now).createdAt == now
      && NewTracked(info, spawned.paneId.value, now).lastSeenAt == now
  {
    if enabled && IsChildCreated(event) && !HasKey(sessions, event.info.value.id.value) &&
       spawned.success && NonEmpty(spawned.paneId) {
      var info := event.info.value;
      var r := OnSessionCreatedOf(sessions, enabled, event, spawned, now);
      PutNew(sessions, info.id.value, NewTracked(info, spawned.paneId.value, now));
      assert |r| == |sessions| + 1;
    }
  }

  /**
   * A session with a status is seen now and no longer missing; one without
   * is missing since now, unless it was already missing.
   */
  lemma RefreshRule(t: TrackedSession, status: Option<string>, now: int)
    ensures status.Some? ==> Refresh(t, status, now).lastSeenAt == now && Refresh(t, status, now).missingSince.None?
    ensures status.None? && !TruthyTime(t.missingSince) ==> Refresh(t, status, now) == t.(missingSince := Some(now))
    ensures status.None? && TruthyTime(t.missingSince) ==> Refresh(t, status, now) == t
  {
  }

  /**
   * The close rule on a session as it was before the poll: it closes
   * exactly when its status is idle, when it was already missing for at
   * least the grace period, or when it is older than the session timeout.
   */
  lemma CloseRule(t: TrackedSession, status: Option<string>, now: int)
    ensures ShouldClose(Refresh(t, status, now), status, now) <==>
      || status == Some("idle")
      || (status.None? && TruthyTime(t.missingSince) && now - t.missingSince.value >= 3 * 2000)
      || now - t.createdAt > 10 * 60 * 1000
  {
  }

  /** With distinct ids, the close list holds exactly the tracked ids the close rule picks. */
  lemma {:induction false} CloseListExact(refreshed: Entries<TrackedSession>, statuses: Entries<string>, now: int, id: string)
    requires DistinctKeys(refreshed)
    ensures id in CloseList(refreshed, statuses, now) <==>
      HasKey(refreshed, id) && ShouldClose(Get(refreshed, id).value, Get(statuses, id), now)
  {
    if |refreshed| > 0 {
      var ks := Keys(refreshed);
      assert ks == [refreshed[0].0] + Keys(refreshed[1..]);
      var tail := Keys(refreshed[1..]);
      assert forall j :: 0 <= j < |tail| ==> tail[j] == ks[j + 1];
      assert DistinctKeys(refreshed[1..]);
      CloseListExact(refreshed[1..], statuses, now, id);
      if id == refreshed[0].0 {
        assert !HasKey(refreshed[1..], id);
      }
    }
  }

  /** When no close call throws, closing a list of ids removes exactly those ids. */
  lemma {:induction false} CloseEachRemoves(sessions: Entries<TrackedSession>, polling: bool, ids: seq<string>, key: string)
    ensures Get(CloseEach(sessions, polling, ids, {}).0, key) == if key in ids then None else Get(sessions, key)
    decreases |ids|
  {
    if |ids| > 0 {
      match Get(sessions, ids[0])
      case None =>
        CloseEachRemoves(sessions, polling, ids[1..], key);
      case Some(t) =>
        var left := Without(sessions, [ids[0]]);
        CloseEachRemoves(left, polling && |left| > 0, ids[1..], key);
    }
  }

  /**
   * One poll of the status list, with every close call succeeding: a
   * session stays tracked exactly when the close rule does not pick it, and
   * stays with its refreshed bookkeeping.
   */
  lemma PollClosesByRule(sessions: Entries<TrackedSession>, polling: bool, statuses: Entries<string>, now: int, key: string)
    requires TrackedUnderIds(sessions) && |sessions| > 0
    ensures var after := PollSessionsOf(sessions, polling, Ok(statuses), now, {}).0;
      && (HasKey(after, key) <==>
           HasKey(sessions, key) && !ShouldClose(Refresh(Get(sessions, key).value, Get(statuses, key), now), Get(statuses, key), now))
      && (HasKey(after, key) ==> Get(after, key) == Some(Refresh(Get(sessions, key).value, Get(statuses, key), now)))
  {
    var refreshed := RefreshAll(sessions, statuses, now);
    assert Keys(refreshed) == Keys(sessions);
    CloseListExact(refreshed, statuses, now, key);
    CloseEachRemoves(refreshed, polling, CloseList(refreshed, statuses, now), key);
  }
}
