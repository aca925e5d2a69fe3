/**
 * `pollUntilStable`: fetch the current state once per round until the
 * caller's `isStable` judgement has held for `stableThreshold` rounds in a
 * row, the abort signal is seen, or the time runs out.
 *
 * The clock, the abort signal and the fetches are inputs: round `i` holds
 * the elapsed time read by the loop test, whether the signal was aborted
 * when it was checked, and what the fetch returned (`Err` when its promise
 * rejects). Running out of rounds counts as the clock passing the limit.
 * The sleep between rounds has no effect on the result and is left out.
 */
module Polling {
  import opened Wrappers

  const PollIntervalMs: int := 500
  const MaxPollTimeMs: int := 5 * 60 * 1000
  const StablePollsThreshold: int := 3

  /** `PollOptions` without the signal, which each round carries. */
  datatype PollOptions = PollOptions(pollInterval: Option<int>, maxPollTime: Option<int>, stableThreshold: Option<int>)

  datatype Settings = Settings(pollInterval: int, maxPollTime: int, stableThreshold: int)

  /** One pass of the loop as its inputs see it. */
  datatype Round<T> = Round(elapsed: nat, aborted: bool, fetched: Result<T>)

  datatype PollResult<T> = PollResult(success: bool, data: Option<T>, timedOut: bool, aborted: bool)

  function Succeeded<T>(data: T): PollResult<T>
  {
    PollResult(true, Some(data), false, false)
  }

  function AbortedResult<T>(): PollResult<T>
  {
    PollResult(false, None, false, true)
  }

  function TimedOutResult<T>(data: Option<T>): PollResult<T>
  {
    PollResult(false, data, true, false)
  }

  /** `opts.x ?? DEFAULT`: only a missing value takes the default; 0 is kept. */
  function Resolve(opts: PollOptions): (s: Settings)
    ensures opts.pollInterval.Some? ==> s.pollInterval == opts.pollInterval.value
    ensures opts.maxPollTime.Some? ==> s.maxPollTime == opts.maxPollTime.value
    ensures opts.stableThreshold.Some? ==> s.stableThreshold == opts.stableThreshold.value
    ensures opts == PollOptions(None, None, None) ==> s == Settings(500, 300000, 3)
  {
    Settings(
      if opts.pollInterval.Some? then opts.pollInterval.value else PollIntervalMs,
      if opts.maxPollTime.Some? then opts.maxPollTime.value else MaxPollTimeMs,
      if opts.stableThreshold.Some? then opts.stableThreshold.value else StablePollsThreshold)
  }

  /** The first `k` rounds passed the clock test and the abort check, and their fetches resolved. */
  predicate Continued<T>(rounds: seq<Round<T>>, maxPollTime: int, k: nat)
  {
    k <= |rounds| &&
    forall j :: 0 <= j < k ==> rounds[j].elapsed < maxPollTime && !rounds[j].aborted && rounds[j].fetched.Ok?
  }

  /** The data fetched in round `j`. */
  function Value<T>(rounds: seq<Round<T>>, j: nat): T
    requires j < |rounds| && rounds[j].fetched.Ok?
  {
    rounds[j].fetched.value
  }

  /** `previousData` at the start of round `j`: the data of the round before, `null` at first. */
  function Prev<T>(rounds: seq<Round<T>>, j: nat): Option<T>
    requires j <= |rounds| && (j > 0 ==> rounds[j - 1].fetched.Ok?)
  {
    if j == 0 then None else Some(Value(rounds, j - 1))
  }

  /** `stablePolls` after `k` rounds: one more for each stable judgement, back to 0 on any other. */
  function CountAfter<T>(rounds: seq<Round<T>>, isStable: (T, Option<T>, nat) -> bool, maxPollTime: int, k: nat): nat
    requires Continued(rounds, maxPollTime, k)
  {
    if k == 0 then 0
    else
      var c := CountAfter(rounds, isStable, maxPollTime, k - 1);
      if isStable(Value(rounds, k - 1), Prev(rounds, k - 1), c) then c + 1 else 0
  }

  /** Round `j` returns success: its judgement was stable and the counter reached the threshold. */
  predicate Settles<T>(rounds: seq<Round<T>>, isStable: (T, Option<T>, nat) -> bool, maxPollTime: int, threshold: int, j: nat)
    requires Continued(rounds, maxPollTime, j + 1)
  {
    CountAfter(rounds, isStable, maxPollTime, j + 1) > 0 &&
    CountAfter(rounds, isStable, maxPollTime, j + 1) >= threshold
  }

  /** What the loop returns when it enters round `i`. */
  function PollAt<T>(rounds: seq<Round<T>>, isStable: (T, Option<T>, nat) -> bool, maxPollTime: int, threshold: int, i: nat): Result<PollResult<T>>
    requires Continued(rounds, maxPollTime, i)
    decreases |rounds| - i
  {
    if i == |rounds| || rounds[i].elapsed >= maxPollTime then Ok(TimedOutResult(Prev(rounds, i)))
    else if rounds[i].aborted then Ok(AbortedResult())
    else if rounds[i].fetched.Err? then Err(rounds[i].fetched.msg)
    else if Settles(rounds, isStable, maxPollTime, threshold, i) then Ok(Succeeded(Value(rounds, i)))
    else PollAt(rounds, isStable, maxPollTime, threshold, i + 1)
  }

  /** `pollUntilStable(fetchFn, isStable, opts)` over the given rounds. */
  function PollOf<T>(rounds: seq<Round<T>>, isStable: (T, Option<T>, nat) -> bool, opts: PollOptions): Result<PollResult<T>>
  {
    PollAt(rounds, isStable, Resolve(opts).maxPollTime, Resolve(opts).stableThreshold, 0)
  }

  method PollUntilStable<T>(rounds: seq<Round<T>>, isStable: (T, Option<T>, nat) -> bool, opts: PollOptions)
    returns (r: Result<PollResult<T>>)
    ensures r == PollOf(rounds, isStable, opts)
  {
    var maxPollTime := if opts.maxPollTime.Some? then opts.maxPollTime.value else MaxPollTimeMs;
    var stableThreshold := if opts.stableThreshold.Some? then opts.stableThreshold.value else StablePollsThreshold;
    var previousData: Option<T> := None;
    var stablePolls: nat := 0;
    var i := 0;
    while i < |rounds| && rounds[i].elapsed < maxPollTime
      invariant Continued(rounds, maxPollTime, i)
      invariant previousData == Prev(rounds, i)
      invariant stablePolls == CountAfter(rounds, isStable, maxPollTime, i)
      invariant PollAt(rounds, isStable, maxPollTime, stableThreshold, i) == PollOf(rounds, isStable, opts)
      decreases |rounds| - i
    {
      if rounds[i].aborted {
        return Ok(AbortedResult());
      }
      if rounds[i].fetched.Err? {
        return Err(rounds[i].fetched.msg);
      }
      var currentData := rounds[i].fetched.value;
      if isStable(currentData, previousData, stablePolls) {
        stablePolls := stablePolls + 1;
        if stablePolls >= stableThreshold {
          return Ok(Succeeded(currentData));
        }
      } else {
        stablePolls := 0;
      }
      previousData := Some(currentData);
      i := i + 1;
    }
    return Ok(TimedOutResult(previousData));
  }

  // ---------------------------------------------------------------- properties

  /** The first `k` fetches resolved (rounds that passed the clock test and the abort check did). */
  predicate Fetched<T>(rounds: seq<Round<T>>, k: nat)
  {
    k <= |rounds| && forall j :: 0 <= j < k ==> rounds[j].fetched.Ok?
  }

  /** Round `j`, the `j - start`-th of a run starting at round `start`, was judged stable with that count. */
  predicate RunStable<T>(rounds: seq<Round<T>>, isStable: (T, Option<T>, nat) -> bool, start: nat, j: nat)
    requires start <= j < |rounds| && rounds[j].fetched.Ok? && (j > 0 ==> rounds[j - 1].fetched.Ok?)
  {
    isStable(Value(rounds, j), Prev(rounds, j), j - start)
  }

  /** Rounds `start` to `end - 1` were judged stable with counts 0, 1, ..., `end - start - 1`. */
  predicate StableRun<T>(rounds: seq<Round<T>>, isStable: (T, Option<T>, nat) -> bool, start: nat, end: nat)
    requires start <= end && Fetched(rounds, end)
  {
    forall j :: start <= j < end ==> RunStable(rounds, isStable, start, j)
  }

  /**
   * The counter is the length of the current run of stable judgements: the
   * last `n` rounds were each judged stable, with counts 0, 1, ..., n - 1,
   * and the round before them, if any, was judged unstable.
   */
  lemma {:induction false} CountIsStableRun<T>(rounds: seq<Round<T>>, isStable: (T, Option<T>, nat) -> bool, maxPollTime: int, k: nat)
    requires Continued(rounds, maxPollTime, k)
    ensures CountAfter(rounds, isStable, maxPollTime, k) <= k
    ensures StableRun(rounds, isStable, k - CountAfter(rounds, isStable, maxPollTime, k), k)
    ensures CountAfter(rounds, isStable, maxPollTime, k) < k ==>
      var j := k - CountAfter(rounds, isStable, maxPollTime, k) - 1;
      !isStable(Value(rounds, j), Prev(rounds, j), CountAfter(rounds, isStable, maxPollTime, j))
  {
    if k > 0 {
      CountIsStableRun(rounds, isStable, maxPollTime, k - 1);
      var c := CountAfter(rounds, isStable, maxPollTime, k - 1);
      if isStable(Value(rounds, k - 1), Prev(rounds, k - 1), c) {
        assert CountAfter(rounds, isStable, maxPollTime, k) == c + 1;
        var start := k - 1 - c;
        assert StableRun(rounds, isStable, start, k - 1);
        assert RunStable(rounds, isStable, start, k - 1);
        assert StableRun(rounds, isStable, start, k);
      } else {
        assert CountAfter(rounds, isStable, maxPollTime, k) == 0;
      }
    }
  }

  /**
   * A success entered at round `i` returns the data of the first round from
   * `i` on that settles: its judgement was stable and the counter reached
   * the threshold.
   */
  lemma {:induction false} SuccessOutcome<T>(rounds: seq<Round<T>>, isStable: (T, Option<T>, nat) -> bool, maxPollTime: int, threshold: int, i: nat)
    requires Continued(rounds, maxPollTime, i)
    requires PollAt(rounds, isStable, maxPollTime, threshold, i).Ok?
    requires PollAt(rounds, isStable, maxPollTime, threshold, i).value.success
    ensures exists e ::
      && i <= e < |rounds|
      && Continued(rounds, maxPollTime, e + 1)
      && (forall j :: i <= j < e ==> !Settles(rounds, isStable, maxPollTime, threshold, j))
      && Settles(rounds, isStable, maxPollTime, threshold, e)
      && PollAt(rounds, isStable, maxPollTime, threshold, i).value.data == Some(Value(rounds, e))
    decreases |rounds| - i
  {
    if i < |rounds| && rounds[i].elapsed < maxPollTime && !rounds[i].aborted && rounds[i].fetched.Ok? {
      if Settles(rounds, isStable, maxPollTime, threshold, i) {
        assert PollAt(rounds, isStable, maxPollTime, threshold, i).value.data == Some(Value(rounds, i));
      } else {
        SuccessOutcome(rounds, isStable, maxPollTime, threshold, i + 1);
      }
    }
  }

  /** Conversely, once a round that passed the clock test and the abort check settles, the poll succeeds by then. */
  lemma {:induction false} SettlingRoundSucceeds<T>(rounds: seq<Round<T>>, isStable: (T, Option<T>, nat) -> bool, maxPollTime: int, threshold: int, i: nat, e: nat)
    requires i <= e && Continued(rounds, maxPollTime, e + 1)
    requires Settles(rounds, isStable, maxPollTime, threshold, e)
    ensures PollAt(rounds, isStable, maxPollTime, threshold, i).Ok?
    ensures PollAt(rounds, isStable, maxPollTime, threshold, i).value.success
    decreases e - i
  {
    if i < e && !Settles(rounds, isStable, maxPollTime, threshold, i) {
      SettlingRoundSucceeds(rounds, isStable, maxPollTime, threshold, i + 1, e);
    }
  }

  /** An abort is returned only for a round that passed the clock test with the signal already aborted. */
  lemma {:induction false} AbortOutcome<T>(rounds: seq<Round<T>>, isStable: (T, Option<T>, nat) -> bool, maxPollTime: int, threshold: int, i: nat)
    requires Continued(rounds, maxPollTime, i)
    requires PollAt(rounds, isStable, maxPollTime, threshold, i).Ok?
    requires PollAt(rounds, isStable, maxPollTime, threshold, i).value.aborted
    ensures PollAt(rounds, isStable, maxPollTime, threshold, i) == Ok(AbortedResult())
    ensures exists e ::
      && i <= e < |rounds|
      && Continued(rounds, maxPollTime, e)
      && rounds[e].elapsed < maxPollTime
      && rounds[e].aborted
      && (forall j :: i <= j < e ==> !Settles(rounds, isStable, maxPollTime, threshold, j))
    decreases |rounds| - i
  {
    if i < |rounds| && rounds[i].elapsed < maxPollTime && !rounds[i].aborted && rounds[i].fetched.Ok? {
      AbortOutcome(rounds, isStable, maxPollTime, threshold, i + 1);
    }
  }

  /**
   * A timeout is returned when the clock passes the limit (or the rounds run
   * out) before any round settled, with the data of the last round fetched.
   */
  lemma {:induction false} TimeoutOutcome<T>(rounds: seq<Round<T>>, isStable: (T, Option<T>, nat) -> bool, maxPollTime: int, threshold: int, i: nat)
    requires Continued(rounds, maxPollTime, i)
    requires PollAt(rounds, isStable, maxPollTime, threshold, i).Ok?
    requires PollAt(rounds, isStable, maxPollTime, threshold, i).value.timedOut
    ensures exists e ::
      && i <= e <= |rounds|
      && Continued(rounds, maxPollTime, e)
      && (e == |rounds| || rounds[e].elapsed >= maxPollTime)
      && (forall j :: i <= j < e ==> !Settles(rounds, isStable, maxPollTime, threshold, j))
      && PollAt(rounds, isStable, maxPollTime, threshold, i) == Ok(TimedOutResult(Prev(rounds, e)))
    decreases |rounds| - i
  {
    if i < |rounds| && rounds[i].elapsed < maxPollTime && !rounds[i].aborted && rounds[i].fetched.Ok? {
      TimeoutOutcome(rounds, isStable, maxPollTime, threshold, i + 1);
    }
  }

  /** A rejected fetch rejects the whole poll with its error, when its round passed the clock test and the abort check. */
  lemma {:induction false} RejectOutcome<T>(rounds: seq<Round<T>>, isStable: (T, Option<T>, nat) -> bool, maxPollTime: int, threshold: int, i: nat)
    requires Continued(rounds, maxPollTime, i)
    requires PollAt(rounds, isStable, maxPollTime, threshold, i).Err?
    ensures exists e ::
      && i <= e < |rounds|
      && Continued(rounds, maxPollTime, e)
      && rounds[e].elapsed < maxPollTime
      && !rounds[e].aborted
      && (forall j :: i <= j < e ==> !Settles(rounds, isStable, maxPollTime, threshold, j))
      && rounds[e].fetched == Err(PollAt(rounds, isStable, maxPollTime, threshold, i).msg)
    decreases |rounds| - i
  {
    if i < |rounds| && rounds[i].elapsed < maxPollTime && !rounds[i].aborted && rounds[i].fetched.Ok? {
      RejectOutcome(rounds, isStable, maxPollTime, threshold, i + 1);
    }
  }

  /** A settling round ends a run of stable judgements at least as long as the threshold. */
  lemma SettlesAfterRun<T>(rounds: seq<Round<T>>, isStable: (T, Option<T>, nat) -> bool, maxPollTime: int, threshold: int, end: nat)
    returns (start: nat)
    requires 0 < end && Continued(rounds, maxPollTime, end)
    requires Settles(rounds, isStable, maxPollTime, threshold, end - 1)
    ensures start < end && end - start >= threshold && StableRun(rounds, isStable, start, end)
  {
    CountIsStableRun(rounds, isStable, maxPollTime, end);
    start := end - CountAfter(rounds, isStable, maxPollTime, end);
  }

  /**
   * A success is `stableThreshold` (at least one) stable judgements in a row,
   * with counts 0, 1, ..., ending at the round whose data is returned.
   */
  lemma SuccessNeedsStableRun<T>(rounds: seq<Round<T>>, isStable: (T, Option<T>, nat) -> bool, opts: PollOptions, data: T)
    requires PollOf(rounds, isStable, opts) == Ok(Succeeded(data))
    ensures exists start: nat, end: nat ::
      && start < end <= |rounds|
      && Continued(rounds, Resolve(opts).maxPollTime, end)
      && data == Value(rounds, end - 1)
      && end - start >= Resolve(opts).stableThreshold
      && StableRun(rounds, isStable, start, end)
  {
    var s := Resolve(opts);
    var poll := PollAt(rounds, isStable, s.maxPollTime, s.stableThreshold, 0);
    assert poll.value.data == Some(data);
    SuccessOutcome(rounds, isStable, s.maxPollTime, s.stableThreshold, 0);
    var e :| 0 <= e < |rounds| && Continued(rounds, s.maxPollTime, e + 1) &&
      Settles(rounds, isStable, s.maxPollTime, s.stableThreshold, e) &&
      poll.value.data == Some(Value(rounds, e));
    var start := SettlesAfterRun(rounds, isStable, s.maxPollTime, s.stableThreshold, e + 1);
    assert start < e + 1 <= |rounds| && data == Value(rounds, e);
  }
}
