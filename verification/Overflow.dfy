/** The compaction state of a run (agent/overflow.go). A turn is compacted at most five times for
    input pressure and three times after a context-length error before a provider call succeeds,
    whatever its configuration changes to meanwhile, unless the token limit is taken away while the
    turn is under pressure. */
module Overflow {
  import opened Transcript

  const MAX_RETRIES: nat := 3
  const MAX_PRESSURE: nat := 5

  /** The most compactions between two successful calls. */
  const MAX_COMPACTIONS: nat := MAX_RETRIES + MAX_PRESSURE

  /** `maxInput` is zero or less when no token limit is set; `compactor` says whether a strategy
      is configured, and `enabled` whether an overflow may be answered by compacting. */
  datatype Limits = Limits(maxInput: int, compactor: bool, enabled: bool, compactNow: bool)

  /** What a compaction attempt comes to: a failure that ends the run, the old history kept, or
      a new history to check and move to. */
  datatype Attempt = Refused | Kept | Rewritten(history: seq<Message>)

  datatype Outcome = NoChange | Moved(history: seq<Message>) | Abort

  class OverflowState {
    var lastPromptTokens: nat
    var retries: nat
    var compacted: bool
    var pressure: bool
    var pressureSize: nat
    var pressureRounds: nat
    /** Compactions since the last successful call, and those of them made under pressure when the
        token limit was gone. */
    ghost var spent: nat
    ghost var loose: nat

    /** What holds at every point, whatever limits each step is given. */
    ghost predicate Valid()
      reads this
    {
      && retries <= MAX_RETRIES && pressureRounds <= MAX_PRESSURE
      && (pressure ==> pressureRounds > 0) && (pressureRounds > 0 ==> compacted)
      && (!compacted ==> spent == 0)
      && loose <= spent <= loose + retries + (if pressureRounds > 0 then pressureRounds else 1)
    }

    constructor ()
      ensures Valid() && spent == 0 && loose == 0 && !pressure && !compacted
    {
      lastPromptTokens, retries, compacted := 0, 0, false;
      pressure, pressureSize, pressureRounds, spent, loose := false, 0, 0, 0, 0;
    }

    /** At most eight compactions since the last successful call, besides the loose ones. */
    lemma SpentIsBounded()
      requires Valid()
      ensures spent <= MAX_COMPACTIONS + loose
    {}

    /** The guard under which a compaction is not counted against any limit. */
    predicate Unbounded(limits: Limits)
      reads this
    {
      pressure && limits.maxInput <= 0 && limits.compactor
    }

    /** The last compaction did not make the input smaller, or the turn was compacted five times for it. */
    ghost predicate Stuck(estimate: nat)
      reads this
    {
      pressure && (estimate >= pressureSize || lastPromptTokens >= pressureSize || pressureRounds == 5)
    }

    predicate CanCompact()
      reads this
    {
      !compacted || pressure
    }

    /** A completed provider call starts a new turn. `prompt` is the size it reported, when it
        reported one for a single request. */
    method TurnSucceeded(prompt: nat)
      modifies this
      ensures Valid() && spent == 0 && loose == 0 && CanCompact() && !pressure
      ensures lastPromptTokens == if prompt > 0 then prompt else old(lastPromptTokens)
    {
      retries, compacted := 0, false;
      pressure, pressureSize, pressureRounds, spent, loose := false, 0, 0, 0, 0;
      if prompt > 0 {
        lastPromptTokens := prompt;
      }
    }

    /** One compaction: a rewritten history is used only when every result in it has its call. */
    method RunCompaction(attempt: Attempt) returns (r: Outcome)
      modifies this`lastPromptTokens, this`compacted, this`spent
      ensures r.Moved? ==> attempt.Rewritten? && r.history == attempt.history && ResultsHaveCalls(r.history)
      ensures r.Abort? <==> attempt.Refused?
      ensures attempt.Rewritten? && ResultsHaveCalls(attempt.history) ==> r.Moved?
      ensures r.Moved? ==> compacted && lastPromptTokens == 0 && spent == old(spent) + 1
      ensures !r.Moved? ==> compacted == old(compacted) && lastPromptTokens == old(lastPromptTokens) && spent == old(spent)
    {
      match attempt
      case Refused =>
        r := Abort;
      case Kept =>
        r := NoChange;
      case Rewritten(history) =>
        var ok := CheckToolPairing(history);
        if ok {
          lastPromptTokens, compacted, spent := 0, true, spent + 1;
          r := Moved(history);
        } else {
          r := NoChange;
        }
    }

    /** Compacts before a turn is sent when the configured trigger fires. `estimate` is the local
        size of the input. Either the compaction count grows, or the turn is sent now and, with a
        token limit, is not compacted again before it is sent. */
    method CompactIfNeeded(limits: Limits, estimate: nat, attempt: Attempt) returns (r: Outcome)
      requires Valid() && CanCompact()
      modifies this
      ensures Valid() && retries == old(retries)
      ensures r.Moved? ==> spent == old(spent) + 1 && attempt.Rewritten? && r.history == attempt.history && ResultsHaveCalls(r.history)
      ensures !r.Moved? ==> spent == old(spent)
      ensures loose == old(loose) + (if r.Moved? && old(Unbounded(limits)) then 1 else 0)
      ensures limits.maxInput > 0 ==> pressure == r.Moved?
      ensures limits.maxInput <= 0 ==> pressure == old(pressure) && pressureRounds == old(pressureRounds)
      ensures limits.maxInput <= 0 && limits.compactor && attempt.Rewritten? && ResultsHaveCalls(attempt.history) ==> r.Moved?
      ensures limits.maxInput <= 0 && !limits.compactor ==> r.NoChange?
      ensures limits.maxInput > 0 && estimate <= limits.maxInput && old(lastPromptTokens) <= limits.maxInput && (old(pressure) || !limits.compactNow) ==> r.NoChange?
      ensures limits.maxInput > 0 && old(Stuck(estimate)) ==> r.NoChange?
      ensures limits.maxInput > 0 && !old(Stuck(estimate)) && (estimate > limits.maxInput || old(lastPromptTokens) > limits.maxInput || (limits.compactNow && !old(pressure))) ==>
        if attempt.Refused? then r.Abort? else if attempt.Rewritten? && ResultsHaveCalls(attempt.history) then r.Moved? else r.NoChange?
      ensures limits.maxInput > 0 && r.Moved? ==> pressureRounds == old(pressureRounds) + 1 && pressureSize >= estimate && pressureSize >= old(lastPromptTokens)
      ensures limits.maxInput > 0 && r.Moved? ==> pressureSize == estimate || pressureSize == old(lastPromptTokens)
      ensures r.Moved? ==> lastPromptTokens == 0 && compacted
      ensures !r.Moved? ==> lastPromptTokens == old(lastPromptTokens) && compacted == old(compacted)
    {
      if limits.maxInput <= 0 {
        if !limits.compactor {
          return NoChange;
        }
        r := RunCompaction(attempt);
        loose := loose + (if r.Moved? && pressure then 1 else 0);
        return;
      }
      if compacted && !pressure {
        return NoChange;
      }
      var size := if lastPromptTokens > estimate then lastPromptTokens else estimate;
      if pressure && (size >= pressureSize || pressureRounds >= MAX_PRESSURE) {
        pressure := false;
        return NoChange;
      }
      if size <= limits.maxInput && (pressure || !limits.compactNow) {
        pressure := false;
        return NoChange;
      }
      r := RunCompaction(attempt);
      if !r.Moved? {
        pressure := false;
        return;
      }
      pressure, pressureSize := true, size;
      pressureRounds := pressureRounds + 1;
    }

    /** Answers a provider error: a context-length error is compacted and retried at most three
        times a turn, and every other error ends the run. */
    method RecoverOverflow(limits: Limits, contextLength: bool, attempt: Attempt) returns (retry: Outcome)
      requires Valid()
      modifies this
      ensures Valid() && loose == old(loose) && pressure == old(pressure)
      ensures retry.Moved? ==> contextLength && limits.enabled && old(retries) < MAX_RETRIES && compacted
      ensures contextLength && limits.enabled && old(retries) < MAX_RETRIES ==> retries == old(retries) + 1
      ensures contextLength && limits.enabled && old(retries) < MAX_RETRIES ==>
        if attempt.Refused? then retry.Abort? else if attempt.Rewritten? && ResultsHaveCalls(attempt.history) then retry.Moved? else retry.NoChange?
      ensures !(contextLength && limits.enabled && old(retries) < MAX_RETRIES) ==> retry.NoChange? && retries == old(retries)
      ensures retry.Moved? ==> spent == old(spent) + 1 && attempt.Rewritten? && retry.history == attempt.history && ResultsHaveCalls(retry.history)
      ensures !retry.Moved? ==> spent == old(spent)
    {
      if !contextLength || !limits.enabled || retries >= MAX_RETRIES {
        return NoChange;
      }
      retries := retries + 1;
      retry := RunCompaction(attempt);
    }
  }

  // ---- every order of steps ----

  /** A step of the compaction state. Each comes with the limits in force at its time. */
  datatype Event =
    | BeforeSending(limits: Limits, estimate: nat, attempt: Attempt)
    | AfterError(limits: Limits, contextLength: bool, attempt: Attempt)
    | AfterSuccess(prompt: nat)

  /** An attempt whose history is moved to. */
  ghost predicate Used(attempt: Attempt) {
    attempt.Rewritten? && ResultsHaveCalls(attempt.history)
  }

  /** Takes one step; before a turn is sent, only when the turn can be compacted. `unbounded` says
      that a compaction was asked for under pressure when the token limit was gone. */
  method Step(st: OverflowState, e: Event) returns (unbounded: bool)
    requires st.Valid()
    modifies st
    ensures st.Valid()
    ensures unbounded <==> e.BeforeSending? && old(st.Unbounded(e.limits))
    ensures unbounded || st.loose <= old(st.loose)
    ensures !e.AfterSuccess? ==> old(st.spent) <= st.spent <= old(st.spent) + 1
    ensures e.AfterSuccess? ==> st.spent == 0
    ensures e.BeforeSending? && old(st.CanCompact()) && Used(e.attempt) && e.limits.maxInput <= 0 && e.limits.compactor ==> st.spent == old(st.spent) + 1
    ensures e.BeforeSending? && old(st.CanCompact()) && Used(e.attempt) && 0 < e.limits.maxInput < e.estimate && !old(st.Stuck(e.estimate)) ==> st.spent == old(st.spent) + 1
    ensures e.AfterError? && e.contextLength && e.limits.enabled && old(st.retries) < MAX_RETRIES && Used(e.attempt) ==> st.spent == old(st.spent) + 1
  {
    unbounded := false;
    match e
    case BeforeSending(limits, estimate, attempt) =>
      unbounded := st.Unbounded(limits);
      if st.CanCompact() {
        var _ := st.CompactIfNeeded(limits, estimate, attempt);
      }
    case AfterError(limits, contextLength, attempt) =>
      var _ := st.RecoverOverflow(limits, contextLength, attempt);
    case AfterSuccess(prompt) =>
      st.TurnSucceeded(prompt);
  }

  /** Over every order of steps and every change of limits, at most eight compactions happen between
      successful calls as long as none is asked for under pressure with the token limit gone; */
  method Replay(events: seq<Event>) returns (st: OverflowState, unbounded: bool)
    ensures fresh(st) && st.Valid() && st.spent <= MAX_COMPACTIONS + st.loose
    ensures !unbounded ==> st.spent <= MAX_COMPACTIONS
  {
    st := new OverflowState();
    unbounded := false;
    var i := 0;
    while i < |events|
      invariant i <= |events| && fresh(st) && st.Valid()
      invariant !unbounded ==> st.loose == 0
    {
      var now := Step(st, events[i]);
      unbounded := unbounded || now;
      i := i + 1;
    }
    st.SpentIsBounded();
  }

  /** and that condition cannot be dropped: once it fails, nothing clears the pressure, and the turn
      is compacted as often as the compactor rewrites it. */
  method LimitRemovedUnderPressure(st: OverflowState, limits: Limits, histories: seq<seq<Message>>)
    requires st.Valid() && st.Unbounded(limits)
    requires forall h | h in histories :: ResultsHaveCalls(h)
    modifies st
    ensures st.Valid() && st.Unbounded(limits) && st.spent == old(st.spent) + |histories|
  {
    var i := 0;
    while i < |histories|
      invariant i <= |histories| && st.Valid() && st.Unbounded(limits) && st.spent == old(st.spent) + i
    {
      var r := st.CompactIfNeeded(limits, 0, Rewritten(histories[i]));
      i := i + 1;
    }
  }

  /** The point is reached from the start: one compaction for pressure, and the limit taken away. */
  method AnyNumberOfCompactions(n: nat) returns (st: OverflowState)
    ensures fresh(st) && st.spent == n + 1
  {
    st := new OverflowState();
    var r := st.CompactIfNeeded(Limits(1, true, true, false), 2, Rewritten([]));
    LimitRemovedUnderPressure(st, Limits(0, true, true, false), seq(n, i => []));
  }

  /** The rule checked on a compacted history, as a loop over the messages: the calls seen so far. */
  method CheckToolPairing(msgs: seq<Message>) returns (ok: bool)
    ensures ok <==> ResultsHaveCalls(msgs)
  {
    var calls: set<CallId> := {};
    var i := 0;
    while i < |msgs|
      invariant i <= |msgs|
      invariant forall id :: id in calls <==> CalledBefore(msgs, i, id)
      invariant forall j, id | 0 <= j < i && msgs[j].Results? && id in msgs[j].answers :: CalledBefore(msgs, j, id)
    {
      var m := msgs[i];
      ghost var before := calls;
      if m.Assistant? {
        calls := calls + (set c | c in m.calls :: c.id);
        forall id
          ensures id in calls <==> CalledBefore(msgs, i + 1, id)
        {
          CalledInTurn(m.calls, id);
          assert id in before <==> CalledBefore(msgs, i, id);
        }
      } else {
        if m.Results? && exists k :: 0 <= k < |m.answers| && m.answers[k] !in calls {
          var k :| 0 <= k < |m.answers| && m.answers[k] !in calls;
          assert m.answers[k] in m.answers && !CalledBefore(msgs, i, m.answers[k]);
          return false;
        }
        forall id
          ensures CalledBefore(msgs, i + 1, id) <==> CalledBefore(msgs, i, id)
        {
        }
      }
      i := i + 1;
    }
    return true;
  }

  lemma CalledInTurn(calls: seq<Call>, id: CallId)
    ensures id in Ids(calls) <==> id in (set c | c in calls :: c.id)
  {
    if id in Ids(calls) {
      var i :| 0 <= i < |calls| && Ids(calls)[i] == id;
      assert calls[i] in calls;
    }
    if id in (set c | c in calls :: c.id) {
      var c :| c in calls && c.id == id;
      var i :| 0 <= i < |calls| && calls[i] == c;
      assert Ids(calls)[i] == id;
    }
  }
}
