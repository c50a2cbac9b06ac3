/** One run of the agent loop (agent/agent.go, agent/forcing.go, agent/stop.go): what it appends
    to its branch, how it ends, and how long it can go on. Everything outside the loop, that is
    the provider, tools, hooks, guardrails, budget, stop requests, panics and failing appends, is
    a script of turns and a fault function given to the run, over which all results quantify. */
module AgentRun {
  import opened Transcript
  import opened Overflow

  // ---- the outside world ----

  /** Places where caller-supplied code runs or a stop request can be noticed. */
  datatype Point = Prepare | AtMove | BeforeCall | DuringCall | AfterCall | AfterUsage | DuringSchemaCall | BeforeCommit
    | DuringTools | AfterTools | AtFinish | AtLimit | DuringFinalCall | AfterFinalCall

  /** `Trips` is a guardrail that records its block on the branch before it ends the run. */
  datatype Event = Quiet | StopArrives | Fails | Trips | Panics

  datatype Mode = Steer | Interrupt | Queue

  /** A model turn: its tool calls, and whether it has text or any other part. */
  datatype Draft = Draft(calls: seq<Call>, text: bool, media: bool)

  datatype Option<T> = None | Some(value: T)

  datatype Reply =
    | Done(draft: Option<Draft>, truncated: bool, prompt: nat)
    | Interrupted(partial: Option<Draft>)
    | ProviderError(contextLength: bool)

  datatype ToolOutcome = Succeeded | Failed | Refused

  /** One wait for background children at the end of the run. */
  datatype Round = Round(subs: nat, children: nat)

  /** `limits` is the compaction configuration in force, which a message can change, and `approvals`
      says whether there is an approval state to carry over a compaction. `stopTool` says which of the
      turn's calls are to tools that end the run. */
  datatype Turn = Turn(
    limits: Limits,
    approvals: bool,
    canceled: bool,
    batch: seq<Mode>,
    children: nat,
    size: nat,
    compaction: Attempt,
    recovery: Attempt,
    reply: Reply,
    schemaReply: Option<Reply>,
    finalReply: Reply,
    repair: bool,
    outcomes: nat -> ToolOutcome,
    suspends: bool,
    runError: bool,
    stopTool: nat -> bool,
    handoff: bool,
    rounds: seq<Round>,
    queued: nat,
    events: Point -> Event)

  datatype Settings = Settings(
    maxIter: int, wrapUpAt: int, autoContinue: nat, prefill: bool, maxRepeats: nat, maxErrors: int,
    forceFinal: bool, handoffs: bool)

  function Min(a: nat, b: nat): nat {
    if a <= b then a else b
  }

  predicate IsArrival(m: Message) {
    m.Note? && (m.kind.Submission? || m.kind.ChildResult?)
  }

  /** `n` messages of one kind, each a message of its own. */
  function Notes(kind: NoteKind, n: nat): seq<Message> {
    seq(n, i => Note(kind))
  }

  /** Nothing arrives where the turn would end the run. */
  predicate Idle(t: Turn) {
    t.queued == 0 && NothingBefore(t.rounds, |t.rounds|)
  }

  predicate NothingBefore(rounds: seq<Round>, i: nat)
    requires i <= |rounds|
  {
    forall j | 0 <= j < i :: rounds[j].subs == 0 && rounds[j].children == 0
  }

  /** A wait brings something, and all of it joins the branch, submissions first. */
  ghost predicate Brought(r: Round, left: nat, before: seq<Message>, after: seq<Message>) {
    var a := Min(r.subs, left);
    var b := Min(r.children, left - a);
    a + b > 0 && after == before + Notes(Submission, a) + Notes(ChildResult, b)
  }

  /** What joins the branch at a natural end: what the first wait brings, or else what is queued. */
  ghost predicate TakenAtFinish(t: Turn, left: nat, before: seq<Message>, after: seq<Message>) {
    || (exists i: nat :: i < |t.rounds| && NothingBefore(t.rounds, i) && Brought(t.rounds[i], left, before, after))
    || (NothingBefore(t.rounds, |t.rounds|) && Min(t.queued, left) > 0 && after == before + Notes(Submission, Min(t.queued, left)))
  }

  /** Nothing happens at a point but, at most, a stop request. */
  predicate GoesOn(t: Turn, p: Point) {
    t.events(p).Quiet? || t.events(p).StopArrives?
  }

  predicate HasCalls(draft: Option<Draft>) {
    draft.Some? && draft.value.calls != []
  }

  /** What is kept of a turn that was cut: that it said something, and no calls. */
  function KeptPart(draft: Option<Draft>): seq<Message> {
    if draft.Some? && (draft.value.text || draft.value.media) then [Assistant([], true)] else []
  }

  /** Nothing arrives for the turn, and nothing happens to it before its call. */
  predicate Undisturbed(t: Turn) {
    !t.canceled && t.batch == [] && t.children == 0 && t.events(Prepare).Quiet? && t.events(AtMove).Quiet?
  }

  /** Nothing but the model acts in the turn: its call completes, and nothing arrives or interferes. */
  ghost predicate Alone(t: Turn) {
    && (forall p: Point :: t.events(p).Quiet?) && Undisturbed(t) && Idle(t) && t.limits.maxInput <= 0 && !t.limits.compactor
    && t.reply.Done? && !t.reply.truncated && t.reply.draft.Some? && t.schemaReply.None? && !t.repair
  }

  ghost predicate Answers(t: Turn) {
    Alone(t) && t.reply.draft.value.calls == []
  }

  ghost predicate UsesTools(t: Turn) {
    Alone(t) && t.reply.draft.value.calls != [] && !t.suspends && !t.runError && !t.handoff && forall i: nat | i < |t.reply.draft.value.calls| :: !t.stopTool(i)
  }

  ghost function AnswerOf(t: Turn): Message
    requires Answers(t)
  {
    Assistant([], t.reply.draft.value.text || t.reply.draft.value.media)
  }

  /** A turn of calls and their results, as the branch shows it. */
  ghost function ExchangeOf(t: Turn): seq<Message>
    requires UsesTools(t)
  {
    var d := t.reply.draft.value;
    [Assistant(d.calls, d.text || d.media), Results(Ids(d.calls))]
  }

  ghost function OutcomesOf(t: Turn): seq<ToolOutcome>
    requires UsesTools(t)
  {
    seq(|t.reply.draft.value.calls|, i requires 0 <= i => t.outcomes(i))
  }

  /** The messages of some turns of calls, and the turns in a row without a success at their end. */
  ghost function Exchanges(script: seq<Turn>): seq<Message>
    requires forall t | t in script :: UsesTools(t)
  {
    if script == [] then [] else Exchanges(script[..|script| - 1]) + ExchangeOf(script[|script| - 1])
  }

  ghost function Streak(script: seq<Turn>): nat
    requires forall t | t in script :: UsesTools(t)
  {
    if script == [] then 0 else NextStreak(Streak(script[..|script| - 1]), OutcomesOf(script[|script| - 1]))
  }

  /** The limit reached after some turns of calls. */
  ghost function LimitAfter(cfg: Settings, turns: seq<Turn>): Limit
    requires forall t | t in turns :: UsesTools(t)
  {
    if 0 < cfg.maxIter <= |turns| then MaxIterations else if TooMany(Streak(turns), cfg.maxErrors) then ToolErrors else NoLimit
  }

  ghost predicate IsOrdinary(script: seq<Turn>) {
    forall t | t in script :: Answers(t) || UsesTools(t)
  }

  /** No limit acts but those on steps and on failing tools, and no last answer is forced. */
  predicate Strict(cfg: Settings) {
    cfg.maxRepeats == 0 && !cfg.forceFinal && cfg.wrapUpAt <= 0
  }

  /** A run whose turns only answer or use tools: it goes on while turns use tools and no limit is reached,
      it ends with the first answer, and its branch shows every turn. */
  ghost predicate OrdinaryRun(cfg: Settings, script: seq<Turn>, exit: Exit, steps: nat, before: seq<Message>, after: seq<Message>) {
    var n := if exit.OutOfScript? then steps else steps - 1;
    && 0 <= n <= steps <= |script| && (exit.OutOfScript? ==> steps == |script|)
    && (forall t | t in script[..n] :: UsesTools(t))
    && (forall i | 0 <= i < n :: LimitAfter(cfg, script[..i]) == NoLimit)
    && match exit
       case OutOfScript => after == before + Exchanges(script)
       case Finished => LimitAfter(cfg, script[..n]) == NoLimit && Answers(script[n]) && after == before + Exchanges(script[..n]) + [AnswerOf(script[n])]
       case AtLimitError(limit) => limit == LimitAfter(cfg, script[..n]) != NoLimit && after == before + Exchanges(script[..n])
       case _ => false
  }

  lemma StartsQuietly(t: Turn)
    ensures StopsInTools(t) || CanMove(t) || Alone(t) ==> Undisturbed(t)
    ensures StopsInTools(t) ==> t.limits.maxInput <= 0 && !t.limits.compactor
    ensures Answers(t) || UsesTools(t) ==> Alone(t)
  {}

  /** A turn that calls tools and is not compacted, and a stop request that arrives while they run. */
  predicate StopsInTools(t: Turn) {
    && Undisturbed(t) && t.limits.maxInput <= 0 && !t.limits.compactor
    && t.reply.Done? && !t.reply.truncated && t.reply.draft.Some? && t.reply.draft.value.calls != []
    && t.events(BeforeCall).Quiet? && t.events(DuringCall).Quiet? && t.events(AfterCall).Quiet? && t.events(AfterUsage).Quiet?
    && t.events(DuringTools).StopArrives?
  }

  /** A turn whose compaction, when one is due, succeeds. */
  ghost predicate CanMove(t: Turn) {
    Undisturbed(t) && !t.approvals && t.compaction.Rewritten? && ResultsHaveCalls(t.compaction.history)
  }

  /** No turn with a token limit is followed by one without, on which a compactor acts. */
  predicate NeverLifted(script: seq<Turn>) {
    forall i, j | 0 <= i < j < |script| && script[i].limits.maxInput > 0 :: script[j].limits.maxInput > 0 || !script[j].limits.compactor
  }

  /** The limit is exceeded in the first turn, and taken away after it. */
  ghost predicate Lifted(script: seq<Turn>) {
    && (forall i | 0 <= i < |script| :: CanMove(script[i]))
    && (script != [] ==> 0 < script[0].limits.maxInput < script[0].size)
    && (forall i | 1 <= i < |script| :: script[i].limits.maxInput <= 0 && script[i].limits.compactor)
  }

  lemma NextIsLifted(script: seq<Turn>, i: nat)
    requires Lifted(script) && i < |script|
    ensures CanMove(script[i]) && (if i == 0 then 0 < script[i].limits.maxInput < script[i].size else script[i].limits.maxInput <= 0 && script[i].limits.compactor)
  {}

  const MAX_OUTPUT_REPAIRS: nat := 2
  const DEFAULT_MAX_ERRORS: nat := 2

  // ---- how a run ends ----

  datatype Limit = NoLimit | MaxIterations | ToolErrors | RepeatedCalls

  /** The limits the loop guards know. */
  type GuardLimit = l: Limit | l != MaxIterations witness NoLimit

  datatype Exit =
    | OutOfScript
    | Finished
    | StoppedAtTool
    | Forced(cause: Limit)
    | CutAnswer
    | AtLimitError(cause: Limit)
    | Truncated
    | Canceled
    | Errored
    | AppendFailed
    | Suspended
    | StopWork
    | Panicked
    | Stopped

  /** What a part of the loop body says about the rest: go on, start the next iteration, or leave. */
  datatype Step = Next | Again | Leave(exit: Exit)

  // ---- loop guards ----

  class LoopGuards {
    var failedTurns: nat
    var repeats: nat
    var lastCalls: seq<string>
    var tripped: GuardLimit

    constructor ()
      ensures tripped == NoLimit && failedTurns == 0 && repeats == 0 && lastCalls == []
    {
      failedTurns, repeats, lastCalls, tripped := 0, 0, [], NoLimit;
    }

    method Reset()
      modifies this
      ensures tripped == NoLimit && failedTurns == 0 && repeats == 0 && lastCalls == []
    {
      failedTurns, repeats, lastCalls, tripped := 0, 0, [], NoLimit;
    }

    /** Counts how often in a row a turn asked for exactly the same calls. */
    method Repeated(calls: seq<Call>, limit: nat) returns (exceeded: bool)
      modifies this
      ensures lastCalls == Requests(calls)
      ensures repeats == if Requests(calls) == old(lastCalls) then old(repeats) + 1 else 1
      ensures exceeded <==> limit > 0 && repeats > limit
      ensures tripped == if exceeded then RepeatedCalls else old(tripped)
      ensures failedTurns == old(failedTurns)
    {
      var sig := Requests(calls);
      if sig == lastCalls {
        repeats := repeats + 1;
      } else {
        lastCalls, repeats := sig, 1;
      }
      exceeded := limit > 0 && repeats > limit;
      if exceeded {
        tripped := RepeatedCalls;
      }
    }

    /** Counts turns in a row in which every call failed. Refused calls neither fail nor succeed. */
    method RecordResults(results: seq<ToolResult>, limit: int)
      modifies this
      ensures failedTurns == NextStreak(old(failedTurns), Outcomes(results))
      ensures tripped == if failedTurns > old(failedTurns) && TooMany(failedTurns, limit) then ToolErrors else old(tripped)
      ensures unchanged(`repeats) && unchanged(`lastCalls)
      ensures (exists i :: 0 <= i < |results| && results[i].outcome.Succeeded?) ==> failedTurns == 0 && tripped == old(tripped)
      ensures (forall i | 0 <= i < |results| :: results[i].outcome.Refused?) ==> failedTurns == old(failedTurns) && tripped == old(tripped)
      ensures (exists i :: 0 <= i < |results| && results[i].outcome.Failed?) && (forall i | 0 <= i < |results| :: !results[i].outcome.Succeeded?) ==>
        && failedTurns == old(failedTurns) + 1
        && tripped == if (limit == 0 && failedTurns >= 2) || 0 < limit <= failedTurns then ToolErrors else old(tripped)
    {
      var most := if limit == 0 then DEFAULT_MAX_ERRORS else limit;
      var failed, refused, i := 0, 0, 0;
      while i < |results|
        invariant i <= |results| && 0 <= failed && 0 <= refused && failed + refused <= i
        invariant refused == i <==> forall j | 0 <= j < i :: results[j].outcome.Refused?
        invariant failed + refused == i <==> forall j | 0 <= j < i :: !results[j].outcome.Succeeded?
      {
        if results[i].outcome.Refused? {
          refused := refused + 1;
        } else if results[i].outcome.Failed? {
          failed := failed + 1;
        }
        i := i + 1;
      }
      if refused == |results| {
        return;
      }
      if failed + refused < |results| {
        failedTurns := 0;
        return;
      }
      failedTurns := failedTurns + 1;
      if most > 0 && failedTurns >= most {
        tripped := ToolErrors;
      }
    }
  }

  function Outcomes(results: seq<ToolResult>): (outcomes: seq<ToolOutcome>)
    ensures |outcomes| == |results| && forall i | 0 <= i < |results| :: outcomes[i] == results[i].outcome
  {
    seq(|results|, i requires 0 <= i < |results| => results[i].outcome)
  }

  /** Turns in a row without a successful call, after one with these outcomes. A turn whose calls were all
      refused does not count. */
  ghost function NextStreak(streak: nat, outcomes: seq<ToolOutcome>): nat {
    if Succeeded in outcomes then 0 else if Failed in outcomes then streak + 1 else streak
  }

  ghost predicate TooMany(streak: nat, limit: int) {
    limit >= 0 && streak >= (if limit == 0 then 2 else limit)
  }

  function Requests(calls: seq<Call>): seq<string> {
    seq(|calls|, i requires 0 <= i < |calls| => calls[i].request)
  }

  // ---- results ----

  datatype ToolResult = ToolResult(id: CallId, outcome: ToolOutcome)

  function ResultIds(results: seq<ToolResult>): (ids: seq<CallId>)
    ensures |ids| == |results| && forall i | 0 <= i < |results| :: ids[i] == results[i].id
  {
    seq(|results|, i requires 0 <= i < |results| => results[i].id)
  }

  /** Runs every call; each gets one result under its own ID, whatever becomes of it. */
  method ExecuteTools(calls: seq<Call>, outcomes: nat -> ToolOutcome) returns (results: seq<ToolResult>)
    ensures ResultIds(results) == Ids(calls)
    ensures forall i | 0 <= i < |results| :: results[i].outcome == outcomes(i)
  {
    results := [];
    var i := 0;
    while i < |calls|
      invariant i <= |calls| && |results| == i
      invariant forall j | 0 <= j < i :: results[j] == ToolResult(calls[j].id, outcomes(j))
    {
      results := results + [ToolResult(calls[i].id, outcomes(i))];
      i := i + 1;
    }
  }

  method SkipToolCalls(calls: seq<Call>) returns (results: seq<ToolResult>)
    ensures ResultIds(results) == Ids(calls)
    ensures forall i | 0 <= i < |results| :: results[i].outcome == Failed
  {
    results := ExecuteTools(calls, i => Failed);
  }

  // ---- the bound on the loop ----

  /** The loop bodies one user turn can take. */
  function TurnCost(maxIter: nat): nat {
    (MAX_COMPACTIONS + 1) * maxIter + 2
  }

  /** `n` times `cost`, as a sum. */
  function Total(n: nat, cost: nat): nat {
    if n == 0 then 0 else cost + Total(n - 1, cost)
  }

  lemma {:induction false} TotalDrops(n: nat, m: nat, cost: nat)
    requires m < n
    ensures Total(m, cost) + cost <= Total(n, cost)
    decreases n
  {
    if m < n - 1 {
      TotalDrops(n - 1, m, cost);
    }
  }

  lemma {:induction false} TotalIsProduct(n: nat, cost: nat)
    ensures Total(n, cost) == n * cost
  {
    if n > 0 {
      TotalIsProduct(n - 1, cost);
      assert n * cost == (n - 1) * cost + cost;
    }
  }

  /** The loop bodies still to come: a cost for every arrival still out, the model calls left of
      this user turn, each with the compactions it can follow, those left before the next call,
      and the wrap-up note. */
  ghost function FuelOf(maxIter: nat, left: nat, used: int, spent: int, wrapped: bool): int {
    Total(left, TurnCost(maxIter)) + (MAX_COMPACTIONS + 1) * (maxIter - used) + (MAX_COMPACTIONS - spent) + (if wrapped then 0 else 1)
  }

  /** A new user turn costs less than the arrival that starts it. */
  lemma ArrivalPays(maxIter: nat, left: nat, left': nat, used: nat, spent: int, wrapped: bool, wrapped': bool)
    requires left' < left && used <= maxIter
    ensures FuelOf(maxIter, left', 0, spent, wrapped') < FuelOf(maxIter, left, used, spent, wrapped)
  {
    TotalDrops(left, left', TurnCost(maxIter));
  }

  lemma FewerArrivals(maxIter: nat, left: nat, left': nat, used: int, spent: int, wrapped: bool)
    requires left' <= left
    ensures FuelOf(maxIter, left', used, spent, wrapped) <= FuelOf(maxIter, left, used, spent, wrapped)
  {
    if left' < left {
      TotalDrops(left, left', TurnCost(maxIter));
    }
  }

  /** The loop bodies a run can take: a cost for the first user turn and for every submission and
      child result that can start another. */
  function Bound(maxIter: nat, arrivals: nat): nat {
    (arrivals + 1) * TurnCost(maxIter) + MAX_COMPACTIONS
  }

  // ---- the run ----

  class Run {
    const cfg: Settings
    /** The append with this number fails. */
    const fault: nat -> bool
    const overflow: OverflowState
    const guards: LoopGuards

    var log: seq<Message>
    /** The part of the branch before this index is a compacted history. */
    ghost var base: nat
    var appends: nat
    ghost var failures: nat
    /** The submissions and child results of the run, those still to come, and those on its branch. */
    ghost const arrivals: nat
    var left: nat
    ghost var joined: nat
    var stopping: bool
    /** Compactions made under pressure when the token limit was gone. */
    ghost var loosened: nat

    var iterCount: nat
    var turnStart: nat
    var pendingWork: bool
    var wrapped: bool
    var autoContinues: nat
    var outputRepairs: nat

    ghost predicate Good()
      reads this`log, this`base
    {
      Settled(log, base)
    }

    ghost predicate Open()
      reads this`log, this`base
    {
      OpenAtTip(log, base)
    }

    /** What arrives is still out or has been appended, unless an append failed. */
    ghost predicate Accounted()
      reads this`left, this`joined, this`failures
    {
      joined + left <= arrivals && (failures == 0 ==> joined + left == arrivals)
    }

    predicate Counts()
      reads this`iterCount, this`turnStart
    {
      turnStart <= iterCount && (cfg.maxIter > 0 ==> iterCount - turnStart <= cfg.maxIter)
    }

    ghost predicate Valid()
      reads this, overflow
    {
      Counts() && overflow.Valid()
    }

    /** An upper bound on the loop bodies still to come, under a positive cap. */
    ghost function Fuel(): int
      reads this, overflow
    {
      if cfg.maxIter > 0 then FuelOf(cfg.maxIter, left, iterCount - turnStart, overflow.spent - overflow.loose, wrapped) else 0
    }

    /** The next call is due: no limit is reached, and no work is pending. */
    predicate Early()
      reads this, guards
    {
      !pendingWork && guards.tripped == NoLimit && (cfg.maxIter > 0 ==> iterCount - turnStart < cfg.maxIter)
    }

    /** A run starts on any settled branch, so on any that a run has left settled. */
    constructor (cfg: Settings, fault: nat -> bool, history: seq<Message>, ghost base: nat, arrivals: nat)
      requires Settled(history, base)
      ensures Good() && Valid() && fresh(overflow) && fresh(guards)
      ensures this.cfg == cfg && this.fault == fault && log == history && this.base == base && left == arrivals
      ensures Accounted() && this.arrivals == arrivals && joined == 0
      ensures appends == 0 && failures == 0 && loosened == 0 && !stopping && iterCount == 0 && turnStart == 0 && !pendingWork && !wrapped
      ensures guards.tripped == NoLimit && guards.lastCalls == [] && guards.failedTurns == 0 && guards.repeats == 0 && overflow.spent == 0 && overflow.loose == 0
      ensures !overflow.pressure && !overflow.compacted
    {
      this.cfg, this.fault := cfg, fault;
      overflow := new OverflowState();
      guards := new LoopGuards();
      log, this.base, appends, failures, left, stopping, loosened := history, base, 0, 0, arrivals, false, 0;
      this.arrivals, joined := arrivals, 0;
      iterCount, turnStart, pendingWork, wrapped, autoContinues, outputRepairs := 0, 0, false, false, 0, 0;
    }

    // ---- appending ----

    method Append(m: Message) returns (ok: bool)
      modifies this`log, this`appends, this`failures, this`joined
      ensures appends == old(appends) + 1 && ok == !fault(old(appends))
      ensures log == if ok then old(log) + [m] else old(log)
      ensures failures == if ok then old(failures) else old(failures) + 1
      ensures joined == if ok && IsArrival(m) then old(joined) + 1 else old(joined)
    {
      ok := !fault(appends);
      appends := appends + 1;
      if ok {
        log := log + [m];
        joined := if IsArrival(m) then joined + 1 else joined;
      } else {
        failures := failures + 1;
      }
    }

    method AppendNote(kind: NoteKind) returns (ok: bool)
      requires Good()
      modifies this`log, this`appends, this`failures, this`joined
      ensures Good() && failures == old(failures) + (if ok then 0 else 1)
      ensures appends == old(appends) + 1 && ok == !fault(old(appends))
      ensures ok ==> log == old(log) + [Note(kind)]
      ensures !ok ==> log == old(log)
      ensures joined == if ok && IsArrival(Note(kind)) then old(joined) + 1 else old(joined)
    {
      AppendPlain(log, base, Note(kind));
      ok := Append(Note(kind));
    }

    /** Commits the part of a cut turn that is kept: its text, never its calls. */
    method CommitText() returns (ok: bool)
      requires Good()
      requires Accounted()
      modifies this`log, this`appends, this`failures, this`joined
      ensures Accounted()
      ensures Good() && failures == old(failures) + (if ok then 0 else 1)
      ensures ok ==> log == old(log) + [Assistant([], true)]
      ensures !ok ==> log == old(log)
    {
      AppendPlain(log, base, Assistant([], true));
      ok := Append(Assistant([], true));
    }

    method PersistToolResults(results: seq<ToolResult>) returns (ok: bool)
      requires Open() && ResultIds(results) == Ids(log[|log| - 1].calls)
      requires Accounted()
      modifies this`log, this`appends, this`failures, this`joined
      ensures Accounted()
      ensures ok == !fault(old(appends)) && appends == old(appends) + 1
      ensures if ok then Good() && failures == old(failures) else Open() && failures == old(failures) + 1
      ensures log == if ok then old(log) + [Results(ResultIds(results))] else old(log)
    {
      AppendAnswers(log, base);
      ok := Append(Results(ResultIds(results)));
    }

    /** Answers the calls of the last message when it is a turn without results. Best effort. */
    method AnswerOpenToolCalls()
      requires Good() || Open()
      requires Accounted()
      modifies this`log, this`appends, this`failures, this`joined
      ensures Accounted()
      ensures old(Good()) ==> Good() && unchanged(`log) && unchanged(`appends) && unchanged(`failures)
      ensures old(Open()) ==> appends == old(appends) + 1
      ensures old(Open()) && !fault(old(appends)) ==> Good() && failures == old(failures)
      ensures old(Open()) && fault(old(appends)) ==> Open() && !Good() && log == old(log) && failures == old(failures) + 1
    {
      if |log| == 0 || !IsOpenTurn(log[|log| - 1]) {
        return;
      }
      var results := SkipToolCalls(log[|log| - 1].calls);
      var _ := PersistToolResults(results);
    }

    /** Nothing interferes with the turn, and no append fails. */
    ghost predicate Ordinary(t: Turn)
      reads this`stopping
    {
      !stopping && Strict(cfg) && (Answers(t) || UsesTools(t)) && forall k | 0 <= k :: !fault(k)
    }

    /** The limit in force before the next call. */
    ghost function LimitNow(): Limit
      reads this`iterCount, this`turnStart, guards
    {
      if 0 < cfg.maxIter <= iterCount - turnStart then MaxIterations else guards.tripped
    }

    /** A turn of calls has run: the branch shows it, and the guards have counted its results. */
    ghost predicate Exchanged(s: Step, t: Turn, shown: seq<Message>, streak: nat, tripped: Limit)
      requires UsesTools(t)
      reads this`stopping, this`pendingWork, this`log, guards
    {
      && s == Again && !stopping && pendingWork && log == shown
      && guards.failedTurns == NextStreak(streak, OutcomesOf(t))
      && guards.tripped == if guards.failedTurns > streak && TooMany(guards.failedTurns, cfg.maxErrors) then ToolErrors else tripped
    }

    /** What comes of an ordinary turn once its call is made. */
    ghost predicate Concluded(s: Step, t: Turn, log0: seq<Message>, streak: nat, tripped: Limit)
      reads this`stopping, this`pendingWork, this`log, guards
    {
      if Answers(t) then s == Leave(Finished) && !stopping && log == log0 + [AnswerOf(t)]
      else UsesTools(t) && Exchanged(s, t, log0 + ExchangeOf(t), streak, tripped)
    }

    /** What happens at a point of the turn: nothing, a stop request, an error, a guardrail or a panic. */
    method Meet(t: Turn, p: Point) returns (s: Step)
      requires Good()
      requires Accounted()
      modifies this`stopping, this`log, this`appends, this`failures, this`joined
      ensures Accounted()
      ensures Good() && stopping == (old(stopping) || t.events(p).StopArrives?)
      ensures AddsNoCalls(old(log), log)
      ensures s.Next? || s == Leave(Errored) || s == Leave(Panicked)
      ensures s.Next? <==> t.events(p).Quiet? || t.events(p).StopArrives?
      ensures !s.Next? ==> log == old(log) || log == old(log) + [Note(Guardrail)]
      ensures s.Next? ==> log == old(log) && failures == old(failures) && appends == old(appends) && joined == old(joined)
      ensures old(failures) <= failures <= old(failures) + 1
    {
      hide Settled, OpenAtTip;
      match t.events(p)
      case Quiet => s := Next;
      case StopArrives => stopping, s := true, Next;
      case Fails => s := Leave(Errored);
      case Panics => s := Leave(Panicked);
      case Trips =>
        var _ := AppendNote(Guardrail);
        s := Leave(Errored);
    }

    /** The limits of a user turn that has just begun. */
    predicate StartsTurn()
      reads this`turnStart, this`iterCount, this`pendingWork, this`wrapped, guards
    {
      turnStart == iterCount && !pendingWork && !wrapped && guards.tripped == NoLimit && guards.failedTurns == 0 && guards.repeats == 0
    }

    /** Starts a new user turn with fresh step limits. */
    method NewUserTurn()
      modifies this`turnStart, this`pendingWork, this`wrapped, guards
      ensures StartsTurn()
    {
      turnStart, pendingWork, wrapped := iterCount, false, false;
      guards.Reset();
    }

    /** Appends up to `n` notes of what has arrived, counting them off. */
    method Deliver(kind: NoteKind, n: nat) returns (taken: nat, ok: bool)
      requires Good() && Accounted() && IsArrival(Note(kind))
      modifies this`log, this`appends, this`failures, this`joined, this`left
      ensures Good() && Accounted() && taken == Min(n, old(left)) && left == old(left) - taken
      ensures AddsNoCalls(old(log), log)
      ensures failures == old(failures) + (if ok then 0 else 1)
      ensures ok ==> log == old(log) + Notes(kind, taken) && joined == old(joined) + taken
      ensures !ok ==> exists k: nat :: k < taken && log == old(log) + Notes(kind, k) && joined == old(joined) + k
      ensures taken == 0 ==> ok && log == old(log) && appends == old(appends)
    {
      taken := if n <= left then n else left;
      left := left - taken;
      var i := 0;
      while i < taken
        invariant i <= taken && Good() && failures == old(failures) && left == old(left) - taken
        invariant i == 0 ==> appends == old(appends)
        invariant log == old(log) + Notes(kind, i) && joined == old(joined) + i
        invariant AddsNoCalls(old(log), log)
      {
        ok := AppendNote(kind);
        if !ok {
          return;
        }
        i := i + 1;
      }
      ok := true;
    }

    /** The safe point at the top of the loop: steering and interrupting messages, then the results
        of finished children. An interrupting message starts a new user turn. */
    method InjectAtSafePoint(t: Turn) returns (s: Step)
      requires Good() && Counts() && Accounted()
      modifies this`log, this`appends, this`failures, this`joined, this`left, this`turnStart, this`pendingWork, this`wrapped, guards
      ensures Good() && Counts() && Accounted() && !s.Again? && left <= old(left)
      ensures s == Leave(AppendFailed) || s == Next
      ensures s.Leave? ==> failures == old(failures) + 1
      ensures s.Next? ==> failures == old(failures)
      ensures (turnStart == old(turnStart) && wrapped == old(wrapped)) || (left < old(left) && turnStart == iterCount)
      ensures s.Next? ==> var a := Min(|t.batch|, old(left)); var b := Min(t.children, old(left) - a);
        left == old(left) - a - b && log == old(log) + Notes(Submission, a) + Notes(ChildResult, b)
      ensures s.Next? ==> if exists i :: 0 <= i < Min(|t.batch|, old(left)) && t.batch[i].Interrupt? then StartsTurn()
                          else turnStart == old(turnStart) && pendingWork == old(pendingWork) && wrapped == old(wrapped) && unchanged(guards)
      ensures t.batch == [] && t.children == 0 ==> s.Next? && unchanged(this) && unchanged(guards)
    {
      hide Settled, OpenAtTip;
      var taken, ok := Deliver(Submission, |t.batch|);
      if !ok {
        return Leave(AppendFailed);
      }
      var n;
      n, ok := Deliver(ChildResult, t.children);
      if !ok {
        return Leave(AppendFailed);
      }
      if exists i :: 0 <= i < taken && t.batch[i].Interrupt? {
        NewUserTurn();
      }
      return Next;
    }

    /** What one wait at the end brings: submissions first, then child results. */
    method DeliverRound(r: Round) returns (n: nat, ok: bool)
      requires Good() && Accounted()
      modifies this`log, this`appends, this`failures, this`joined, this`left
      ensures Good() && Accounted() && left <= old(left) && AddsNoCalls(old(log), log)
      ensures failures == old(failures) + (if ok then 0 else 1)
      ensures ok ==> left == old(left) - n && |log| == |old(log)| + n
      ensures ok && n > 0 ==> Brought(r, old(left), old(log), log)
      ensures ok && n == 0 ==> log == old(log)
      ensures old(left) == 0 || (r.subs == 0 && r.children == 0) <==> ok && n == 0
    {
      hide Settled, OpenAtTip;
      n, ok := Deliver(Submission, r.subs);
      if ok {
        var more;
        more, ok := Deliver(ChildResult, r.children);
        n := n + more;
      }
    }

    /** Children still out are waited for, then pending submissions taken. It reports whether anything
        was delivered, which resumes the run. */
    method ResumeAtFinish(t: Turn) returns (resumed: bool, ok: bool)
      requires Good() && Accounted()
      modifies this`log, this`appends, this`failures, this`joined, this`left
      ensures Good() && Accounted() && left <= old(left) && AddsNoCalls(old(log), log)
      ensures failures == old(failures) + (if ok then 0 else 1)
      ensures ok && resumed ==> TakenAtFinish(t, old(left), old(log), log) && left == old(left) - (|log| - |old(log)|) < old(left)
      ensures ok && !resumed ==> log == old(log) && left == old(left)
      ensures old(left) == 0 || Idle(t) <==> ok && !resumed
    {
      hide Settled, OpenAtTip, Accounted, Brought, AddsNoCalls;
      NoCallsYet();
      var i := 0;
      while i < |t.rounds|
        invariant i <= |t.rounds| && Good() && Accounted() && failures == old(failures)
        invariant left == old(left) && log == old(log)
        invariant left > 0 ==> NothingBefore(t.rounds, i)
      {
        var n;
        n, ok := DeliverRound(t.rounds[i]);
        if !ok || n > 0 {
          return ok, ok;
        }
        i := i + 1;
      }
      var n;
      n, ok := Deliver(Submission, t.queued);
      resumed := n > 0;
    }

    lemma NoCallsYet()
      ensures AddsNoCalls(log, log)
    {}

    /** Where the run would end naturally. Anything delivered starts a new user turn. */
    method Finish(t: Turn) returns (s: Step)
      requires Good() && Counts() && Accounted()
      modifies this`log, this`appends, this`failures, this`joined, this`left, this`stopping, this`turnStart, this`pendingWork, this`wrapped, this`outputRepairs, guards
      ensures Good() && Counts() && Accounted() && left <= old(left)
      ensures AddsNoCalls(old(log), log)
      ensures s.Again? || s.Leave?
      ensures s.Leave? ==> s.exit in {Finished, AppendFailed, Errored, Panicked}
      ensures s.Again? ==> left < old(left) && turnStart == iterCount && !wrapped
      ensures s.Again? ==> StartsTurn() && outputRepairs == 0 && TakenAtFinish(t, old(left), old(log), log) && left == old(left) - (|log| - |old(log)|)
      ensures s == Leave(Finished) <==> (t.events(AtFinish).Quiet? || t.events(AtFinish).StopArrives?) && (old(left) == 0 || Idle(t))
      ensures s == Leave(Finished) ==> log == old(log) && left == old(left) && turnStart == old(turnStart)
      ensures stopping == (old(stopping) || t.events(AtFinish).StopArrives?)
      ensures old(failures) <= failures <= old(failures) + 1
      ensures s.Again? || s == Leave(Finished) ==> failures == old(failures)
      ensures s == Leave(AppendFailed) ==> failures == old(failures) + 1
    {
      hide Settled, OpenAtTip, TakenAtFinish, Idle;
      s := Meet(t, AtFinish);
      if s.Leave? {
        return;
      }
      var resumed, ok := ResumeAtFinish(t);
      if !ok {
        return Leave(AppendFailed);
      }
      if !resumed {
        return Leave(Finished);
      }
      NewUserTurn();
      outputRepairs := 0;
      return Again;
    }

    // ---- turns that are cut short ----

    /** Records the turn a stop request cut: text a guardrail lets through, and no calls. */
    method CommitStopped(t: Turn, draft: Option<Draft>) returns (s: Step)
      requires Good()
      requires Accounted()
      modifies this`log, this`appends, this`failures, this`joined
      ensures Accounted()
      ensures Good() && s in {Leave(StopWork), Leave(AppendFailed)}
      ensures AddsNoCalls(old(log), log)
      ensures s == Leave(AppendFailed) <==> failures == old(failures) + 1
      ensures s == Leave(StopWork) <==> failures == old(failures)
      ensures s == Leave(StopWork) ==>
        log == old(log) + (if draft.Some? && draft.value.text && t.events(BeforeCommit).Quiet? then [Assistant([], true)] else [])
      ensures s == Leave(AppendFailed) ==> log == old(log)
    {
      hide Settled, OpenAtTip;
      if draft.Some? && draft.value.text && t.events(BeforeCommit).Quiet? {
        var ok := CommitText();
        if !ok {
          return Leave(AppendFailed);
        }
      }
      return Leave(StopWork);
    }

    /** Keeps what a cut turn said besides calls. */
    method CommitPartial(draft: Option<Draft>) returns (ok: bool)
      requires Good()
      requires Accounted()
      modifies this`log, this`appends, this`failures, this`joined
      ensures Accounted()
      ensures Good() && failures == old(failures) + (if ok then 0 else 1)
      ensures AddsNoCalls(old(log), log)
      ensures log == old(log) + (if ok then KeptPart(draft) else [])
    {
      ok := true;
      if draft.Some? && (draft.value.text || draft.value.media) {
        ok := CommitText();
      }
    }

    /** A turn the output limit cut: its calls never run, so one with calls ends the run. A text
        turn is continued while continuations are left, and ends the user turn otherwise. */
    method HandleTruncation(t: Turn, draft: Option<Draft>) returns (s: Step)
      requires Good() && Counts()
      requires Accounted()
      modifies this`log, this`appends, this`failures, this`joined, this`left, this`stopping, this`turnStart, this`pendingWork, this`wrapped, this`outputRepairs, this`autoContinues, guards
      ensures Accounted()
      ensures Good() && Counts() && left <= old(left) && !s.Next?
      ensures s.Leave? ==> s.exit in {Finished, AppendFailed, Errored, Panicked, Truncated}
      ensures AddsNoCalls(old(log), log)
      ensures s == Leave(Truncated) ==> HasCalls(draft) && log == old(log) + KeptPart(draft)
      ensures HasCalls(draft) ==> s in {Leave(Truncated), Leave(AppendFailed)}
      ensures failures == old(failures) ==> Cut(s, t, draft, old(autoContinues), old(left))
      ensures !HasCalls(draft) && old(autoContinues) < cfg.autoContinue ==> s in {Again, Leave(AppendFailed)}
      ensures !HasCalls(draft) && old(autoContinues) < cfg.autoContinue && s.Again? ==>
        && pendingWork && autoContinues == old(autoContinues) + 1 && turnStart == old(turnStart)
        && log == old(log) + KeptPart(draft) + (if cfg.prefill then [] else [Note(Continue)])
      ensures !HasCalls(draft) && old(autoContinues) >= cfg.autoContinue && failures == old(failures) ==>
        (s == Leave(Finished) <==> GoesOn(t, AtFinish) && (old(left) == 0 || Idle(t)))
      ensures s == Leave(Finished) ==> log == old(log) + KeptPart(draft)
      ensures s.Again? ==> (turnStart == old(turnStart) && wrapped == old(wrapped)) || (left < old(left) && turnStart == iterCount)
      ensures s.Again? || s == Leave(Finished) ==> failures == old(failures)
      ensures s == Leave(AppendFailed) ==> failures == old(failures) + 1
      ensures old(failures) <= failures <= old(failures) + 1
    {
      hide Settled, OpenAtTip;
      var ok := CommitPartial(draft);
      if !ok {
        return Leave(AppendFailed);
      }
      if draft.Some? && draft.value.calls != [] {
        return Leave(Truncated);
      }
      if autoContinues < cfg.autoContinue {
        autoContinues, pendingWork := autoContinues + 1, true;
        if !cfg.prefill {
          ok := AppendNote(Continue);
          if !ok {
            return Leave(AppendFailed);
          }
        }
        return Again;
      }
      s := Finish(t);
    }

    // ---- limits ----

    predicate WrapUpDue(used: nat) {
      cfg.wrapUpAt > 0 && cfg.maxIter > 0 && cfg.wrapUpAt < cfg.maxIter && used >= cfg.wrapUpAt && used < cfg.maxIter
    }

    /** A last answer is asked for, and nothing happens before it but a stop request. */
    predicate FinalCallRuns(t: Turn) {
      cfg.forceFinal && GoesOn(t, AtLimit) && GoesOn(t, DuringFinalCall)
    }

    /** Ends a run at a limit, with the limit's error or one last answer without calls. */
    method FinishAtLimit(t: Turn, limit: Limit) returns (s: Step)
      requires Good() && limit != NoLimit
      requires Accounted()
      modifies this`log, this`appends, this`failures, this`joined, this`stopping
      ensures Accounted()
      ensures Good() && s.Leave? && !s.exit.Finished? && !s.exit.OutOfScript? && !s.exit.Suspended? && !s.exit.Stopped?
      ensures AddsNoCalls(old(log), log)
      ensures old(failures) <= failures <= old(failures) + 1
      ensures s.exit.AtLimitError? ==> s.exit.cause == limit && failures == old(failures) && log == old(log)
      ensures s.exit.Forced? ==> s.exit.cause == limit && cfg.forceFinal && log == old(log) + [Assistant([], true)]
      ensures s.exit.AppendFailed? ==> failures == old(failures) + 1
      ensures FinalCallRuns(t) && (old(stopping) || t.events(AtLimit).StopArrives? || t.events(DuringFinalCall).StopArrives?) ==>
        s.exit.StopWork? || s.exit.AppendFailed?
      ensures FinalCallRuns(t) && !stopping && !t.finalReply.Done? ==> s.exit.Errored? && log == old(log)
      ensures FinalCallRuns(t) && t.finalReply.Done? && !GoesOn(t, AfterFinalCall) ==> s.exit in {StopWork, AppendFailed, Errored, Panicked}
      ensures FinalCallRuns(t) && !stopping && t.finalReply.Done? && t.events(AfterFinalCall).Quiet? ==>
        var draft := t.finalReply.draft;
        if t.finalReply.truncated then
          s.exit.AppendFailed? || (s.exit == (if HasCalls(draft) then Truncated else CutAnswer) && log == old(log) + KeptPart(draft))
        else if KeptPart(draft) == [] then s.exit == AtLimitError(limit)
        else s.exit.AppendFailed? || s.exit == Forced(limit)
      ensures !cfg.forceFinal ==> s.exit.AtLimitError? && stopping == old(stopping)
    {
      hide Settled, OpenAtTip;
      if !cfg.forceFinal {
        return Leave(AtLimitError(limit));
      }
      s := Meet(t, AtLimit);
      if s.Leave? {
        return;
      }
      s := Meet(t, DuringFinalCall);
      if s.Leave? {
        return;
      }
      var draft := DraftOf(t.finalReply);
      if stopping {
        s := CommitStopped(t, draft);
        return;
      }
      if !t.finalReply.Done? {
        return Leave(Errored);
      }
      s := Meet(t, AfterFinalCall);
      if s.Leave? {
        return;
      }
      if t.finalReply.truncated {
        var ok := CommitPartial(draft);
        return Leave(if !ok then AppendFailed else if draft.Some? && draft.value.calls != [] then Truncated else CutAnswer);
      }
      if draft.None? || !(draft.value.text || draft.value.media) {
        return Leave(AtLimitError(limit));
      }
      var ok := CommitText();
      return Leave(if ok then Forced(limit) else AppendFailed);
    }

    /** The model is to be told to wrap up: the number of steps set for that is used, the limit is not
        reached, and it has not been told in this user turn. */
    ghost predicate NoteDue()
      reads this`wrapped, this`pendingWork, this`iterCount, this`turnStart, guards
    {
      !wrapped && pendingWork && guards.tripped == NoLimit && 0 < cfg.wrapUpAt <= iterCount - turnStart < cfg.maxIter
    }

    /** The wrap-up note, once per user turn, and the step limits. */
    method CheckLimits(t: Turn) returns (s: Step)
      requires Good() && Counts()
      requires Accounted()
      modifies this`log, this`appends, this`failures, this`joined, this`left, this`stopping, this`turnStart, this`pendingWork, this`wrapped, this`outputRepairs, guards
      ensures Accounted()
      ensures Good() && Counts() && left <= old(left)
      ensures s.Next? ==> unchanged(this) && unchanged(guards)
      ensures old(Early()) ==> s.Next?
      ensures s.Next? && cfg.maxIter > 0 ==> iterCount - turnStart < cfg.maxIter
      ensures s.Again? ==> (left < old(left) && turnStart == iterCount) || (left == old(left) && turnStart == old(turnStart) && wrapped && !old(wrapped))
      ensures s.Again? ==> failures == old(failures)
      ensures s.Leave? ==> !s.exit.OutOfScript? && !s.exit.Suspended? && !s.exit.Stopped?
      ensures s.Leave? && s.exit == AtLimitError(MaxIterations) ==> pendingWork && 0 < cfg.maxIter <= iterCount - turnStart
      ensures s.Leave? && s.exit.Forced? ==> cfg.forceFinal && |log| > 0 && log[|log| - 1] == Assistant([], true)
      ensures s == Leave(Finished) ==> failures == old(failures)
      ensures old(failures) <= failures <= old(failures) + 1
      ensures Strict(cfg) && old(pendingWork || LimitNow() != MaxIterations) && old(LimitNow()) == NoLimit ==> s.Next?
      ensures old(NoteDue()) ==> s in {Again, Leave(AppendFailed)}
      ensures old(NoteDue()) && s.Again? ==> wrapped && log == old(log) + [Note(NoteKind.WrapUp)] && turnStart == old(turnStart) && pendingWork == old(pendingWork)
      ensures !old(NoteDue()) && old(LimitNow()) == NoLimit ==> s.Next?
      ensures old(!pendingWork && LimitNow() == MaxIterations) ==> (s == Leave(Finished) <==> GoesOn(t, AtFinish) && (old(left) == 0 || Idle(t)))
      ensures s == Leave(Finished) ==> old(!pendingWork && LimitNow() == MaxIterations) && log == old(log)
      ensures old(pendingWork || LimitNow() != MaxIterations) && old(LimitNow()) != NoLimit && !cfg.forceFinal ==>
        s == Leave(AtLimitError(old(LimitNow()))) && log == old(log) && stopping == old(stopping)
    {
      hide Settled, OpenAtTip;
      var limit: Limit := guards.tripped;
      var used := iterCount - turnStart;
      if !wrapped && pendingWork && limit == NoLimit && WrapUpDue(used) {
        wrapped := true;
        var ok := AppendNote(NoteKind.WrapUp);
        return if ok then Again else Leave(AppendFailed);
      }
      if cfg.maxIter > 0 && used >= cfg.maxIter {
        if !pendingWork {
          s := Finish(t);
          return;
        }
        limit := MaxIterations;
      }
      if limit != NoLimit {
        s := FinishAtLimit(t, limit);
        return;
      }
      return Next;
    }

    // ---- compaction ----

    /** Moves the run to the branch a compaction created, with its record and the approval state,
        when there is any. */
    method MoveTo(t: Turn, history: seq<Message>) returns (s: Step)
      requires Good() && ResultsHaveCalls(history)
      requires Accounted()
      modifies this`log, this`base, this`appends, this`failures, this`joined
      ensures Accounted()
      ensures Good() && (s.Again? || s in {Leave(Errored), Leave(AppendFailed)})
      ensures failures == old(failures) + (if s == Leave(AppendFailed) then 1 else 0)
      ensures s.Again? ==> base == |history| && log == history + [Note(Compaction)] + (if t.approvals then [Note(Approvals)] else [])
      ensures s.Again? <==> t.events(AtMove).Quiet? && (t.approvals ==> !fault(old(appends)))
    {
      if !t.events(AtMove).Quiet? {
        return Leave(Errored);
      }
      CalledBeforeGrows(history, [Note(Compaction)]);
      log, base := history + [Note(Compaction)], |history|;
      if !t.approvals {
        return Again;
      }
      AppendPlain(log, base, Note(Approvals));
      var ok := Append(Note(Approvals));
      return if ok then Again else Leave(AppendFailed);
    }

    /** Whether the turn is due to be compacted, for pressure or without any limit. */
    ghost predicate Due(t: Turn)
      reads overflow
    {
      overflow.Unbounded(t.limits) || (!overflow.compacted && 0 < t.limits.maxInput < t.size)
    }

    method Compact(t: Turn) returns (s: Step)
      requires Good() && Valid()
      requires Accounted()
      modifies this`log, this`base, this`appends, this`failures, this`joined, this`loosened, overflow
      ensures Accounted()
      ensures Good() && Valid()
      ensures s.Next? ==> unchanged(`log) && unchanged(`base) && unchanged(`appends) && unchanged(`failures) && loosened == old(loosened)
      ensures s.Next? ==> overflow.spent == old(overflow.spent) && overflow.loose == old(overflow.loose)
      ensures s.Again? ==> failures == old(failures)
      ensures s.Again? ==> overflow.spent - overflow.loose + loosened == old(overflow.spent - overflow.loose + loosened) + 1
      ensures loosened == old(loosened) || (loosened == old(loosened) + 1 && old(overflow.Unbounded(t.limits)))
      ensures overflow.pressure ==> old(overflow.pressure) || t.limits.maxInput > 0
      ensures t.limits.maxInput <= 0 && !t.limits.compactor ==> s.Next?
      ensures CanMove(t) && old(Due(t)) ==> s.Again? && overflow.pressure
      ensures s.Leave? ==> s.exit in {Errored, AppendFailed}
      ensures failures == old(failures) + (if s == Leave(AppendFailed) then 1 else 0)
    {
      hide Settled, OpenAtTip;
      if overflow.CanCompact() {
        ghost var before := overflow.loose;
        var r := overflow.CompactIfNeeded(t.limits, t.size, t.compaction);
        loosened := loosened + (overflow.loose - before);
        match r
        case Abort => return Leave(Errored);
        case Moved(history) => s := MoveTo(t, history); return;
        case NoChange =>
      }
      return Next;
    }

    // ---- the provider call ----

    static function DraftOf(r: Reply): Option<Draft> {
      match r
      case Done(d, _, _) => d
      case Interrupted(p) => p
      case ProviderError(_) => None
    }

    /** What happens before, during and after the call. */
    method MeetCall(t: Turn) returns (s: Step)
      requires Good()
      requires Accounted()
      modifies this`stopping, this`log, this`appends, this`failures, this`joined
      ensures Accounted()
      ensures Good() && AddsNoCalls(old(log), log)
      ensures s.Next? || s == Leave(Errored) || s == Leave(Panicked)
      ensures s.Next? ==> log == old(log) && failures == old(failures) && appends == old(appends)
      ensures StopsInTools(t) || Alone(t) ==> s.Next? && stopping == old(stopping)
      ensures s.Next? <==> CallRuns(t)
      ensures s.Next? ==> stopping == (old(stopping) || t.events(BeforeCall).StopArrives? || t.events(DuringCall).StopArrives? || t.events(AfterCall).StopArrives?)
      ensures old(failures) <= failures <= old(failures) + 1
    {
      hide Settled, OpenAtTip;
      s := Meet(t, BeforeCall);
      if s.Leave? {
        return;
      }
      s := Meet(t, DuringCall);
      if s.Leave? {
        return;
      }
      s := Meet(t, AfterCall);
    }

    /** Compacts and tries again after a context-length error, or ends the run with it. */
    method Recover(t: Turn, contextLength: bool) returns (s: Step)
      requires Good() && overflow.Valid()
      requires Accounted()
      modifies this`log, this`base, this`appends, this`failures, this`joined, overflow
      ensures Accounted()
      ensures Good() && overflow.Valid() && overflow.loose == old(overflow.loose) && overflow.pressure == old(overflow.pressure)
      ensures s.Again? || s in {Leave(Errored), Leave(AppendFailed)}
      ensures s.Again? ==> contextLength && overflow.spent == old(overflow.spent) + 1
      ensures s.Again? <==> (
        && contextLength && !cfg.handoffs && t.limits.enabled && old(overflow.retries) < 3 && Used(t.recovery)
        && t.events(AtMove).Quiet? && (t.approvals ==> !fault(old(appends))))
      ensures s.Again? ==> log == t.recovery.history + [Note(Compaction)] + (if t.approvals then [Note(Approvals)] else [])
      ensures failures == old(failures) + (if s == Leave(AppendFailed) then 1 else 0)
    {
      hide Settled, OpenAtTip;
      var r := overflow.RecoverOverflow(t.limits, contextLength && !cfg.handoffs, t.recovery);
      if r.Moved? {
        s := MoveTo(t, r.history);
        return;
      }
      return Leave(Errored);
    }

    /** Nothing happens around the call but a stop request. */
    predicate CallRuns(t: Turn) {
      GoesOn(t, BeforeCall) && GoesOn(t, DuringCall) && GoesOn(t, AfterCall)
    }

    /** The call of this iteration. `Next` means that it completed; `Again` that it was interrupted,
        which counts as a turn, or is retried on a compacted branch, which does not. */
    method Call(t: Turn) returns (s: Step)
      requires Good() && Valid() && (cfg.maxIter > 0 ==> iterCount - turnStart < cfg.maxIter)
      requires Accounted()
      modifies this`log, this`base, this`appends, this`failures, this`joined, this`stopping, this`iterCount, overflow
      ensures Accounted()
      ensures Good() && Valid()
      ensures s.Next? ==> t.reply.Done? && iterCount == old(iterCount) + 1 && !stopping && failures == old(failures)
      ensures s.Next? ==> unchanged(`log) && unchanged(`base) && unchanged(`appends) && overflow.spent == 0 && overflow.loose == 0
      ensures s.Again? ==> failures == old(failures) && overflow.loose == old(overflow.loose)
      ensures s.Again? && iterCount == old(iterCount) ==> overflow.spent == old(overflow.spent) + 1
      ensures s.Again? && iterCount != old(iterCount) ==> iterCount == old(iterCount) + 1 && overflow.spent == old(overflow.spent)
      ensures overflow.pressure ==> old(overflow.pressure)
      ensures (StopsInTools(t) || Alone(t)) && !old(stopping) ==> s.Next?
      ensures t.reply.Interrupted? || s == Leave(StopWork) ==> AddsNoCalls(old(log), log)
      ensures CallRuns(t) && stopping && (old(stopping) || !t.events(AfterUsage).StopArrives?) ==> s in {Leave(StopWork), Leave(AppendFailed)} && iterCount == old(iterCount) + 1
      ensures CallRuns(t) && !stopping ==>
        match t.reply
        case Done(_, _, _) => s == Next
        case Interrupted(partial) =>
          && (!GoesOn(t, AfterUsage) ==> s in {Leave(Errored), Leave(Panicked)})
          && (t.events(AfterUsage).Quiet? ==> (s == Leave(AppendFailed) || (s == Again && log == old(log) + KeptPart(partial))) && iterCount == old(iterCount) + 1)
        case ProviderError(contextLength) =>
          && (s == Again ==> contextLength && iterCount == old(iterCount))
          && (contextLength && !cfg.handoffs && t.limits.enabled && old(overflow.retries) < 3 && Used(t.recovery) && t.events(AtMove).Quiet? && !t.approvals ==> s == Again)
      ensures s.Leave? ==> s.exit in {Errored, Panicked, AppendFailed, StopWork}
      ensures old(failures) <= failures <= old(failures) + 1
    {
      hide Settled, OpenAtTip, Used, KeptPart, Accounted;
      s := MeetCall(t);
      if s.Leave? {
        return;
      }
      if stopping {
        iterCount := iterCount + 1;
        s := CommitStopped(t, DraftOf(t.reply));
        return;
      }
      match t.reply
      case Interrupted(partial) =>
        iterCount := iterCount + 1;
        s := Meet(t, AfterUsage);
        if s.Leave? {
          return;
        }
        var ok := CommitPartial(partial);
        return if ok then Again else Leave(AppendFailed);
      case ProviderError(contextLength) =>
        s := Recover(t, contextLength);
      case Done(_, _, prompt) =>
        overflow.TurnSucceeded(prompt);
        iterCount := iterCount + 1;
        return Next;
    }

    // ---- the turn ----

    /** Records the results of a turn's calls, unless the run is suspended. `Next` means that it
        goes on; the results of a stopped or failed run are recorded before it ends. */
    method RecordTools(t: Turn, results: seq<ToolResult>) returns (s: Step)
      requires Open() && ResultIds(results) == Ids(log[|log| - 1].calls)
      requires Accounted()
      modifies this`log, this`appends, this`failures, this`joined, this`pendingWork
      ensures Accounted()
      ensures old(failures) <= failures <= old(failures) + 1
      ensures Good() || (Open() && (failures == old(failures) + 1 || s == Leave(Suspended)))
      ensures s.Next? ==> Good() && failures == old(failures) && pendingWork
      ensures s.Next? || s in {Leave(StopWork), Leave(Suspended), Leave(Errored), Leave(AppendFailed)}
      ensures s == Leave(Suspended) ==> t.suspends && !stopping
      ensures !stopping && !t.suspends && !t.runError ==> (s.Next? <==> !fault(old(appends)))
      ensures s.Next? ==> log == old(log) + [Results(ResultIds(results))] && appends == old(appends) + 1
      ensures !stopping && t.suspends ==> s == Leave(Suspended) && log == old(log)
      ensures !stopping && !t.suspends && t.runError ==> s == Leave(Errored) && (!fault(old(appends)) ==> log == old(log) + [Results(ResultIds(results))])
      ensures stopping ==> appends == old(appends) + 1 && s == Leave(if fault(old(appends)) then AppendFailed else StopWork)
      ensures stopping ==> if fault(old(appends)) then Open() else Good()
    {
      hide Settled, OpenAtTip;
      if stopping {
        var ok := PersistToolResults(results);
        return Leave(if ok then StopWork else AppendFailed);
      }
      if t.suspends {
        return Leave(Suspended);
      }
      if t.runError {
        var _ := PersistToolResults(results);
        return Leave(Errored);
      }
      pendingWork := true;
      var ok := PersistToolResults(results);
      return if ok then Next else Leave(AppendFailed);
    }

    /** A call that ends the run has succeeded. */
    predicate StopsAtTool(t: Turn, results: seq<ToolResult>) {
      exists i :: 0 <= i < |results| && t.stopTool(i) && results[i].outcome.Succeeded?
    }

    /** What follows once the results are on the branch. */
    method AfterResults(t: Turn, results: seq<ToolResult>) returns (s: Step)
      requires Good()
      requires Accounted()
      modifies this`log, this`appends, this`failures, this`joined, this`stopping, guards
      ensures Accounted()
      ensures Good() && old(failures) <= failures <= old(failures) + 1
      ensures s.Again? ==> failures == old(failures)
      ensures s.Again? || s in {Leave(Errored), Leave(Panicked), Leave(StoppedAtTool), Leave(AppendFailed)}
      ensures s == Leave(StoppedAtTool) <==> GoesOn(t, AfterTools) && StopsAtTool(t, results)
      ensures s.Again? ==> guards.failedTurns == NextStreak(old(guards.failedTurns), Outcomes(results))
      ensures s.Again? && guards.failedTurns > old(guards.failedTurns) && TooMany(guards.failedTurns, cfg.maxErrors) ==> guards.tripped == ToolErrors
      ensures s.Again? && !(guards.failedTurns > old(guards.failedTurns) && TooMany(guards.failedTurns, cfg.maxErrors)) ==> guards.tripped == old(guards.tripped)
      ensures s.Again? ==> log == old(log) + (if t.handoff then [Note(Handoff)] else [])
      ensures UsesTools(t) && |results| == |t.reply.draft.value.calls| ==> s.Again? && stopping == old(stopping)
    {
      hide Settled, OpenAtTip;
      s := Meet(t, AfterTools);
      if s.Leave? {
        return;
      }
      if StopsAtTool(t, results) {
        return Leave(StoppedAtTool);
      }
      guards.RecordResults(results, cfg.maxErrors);
      if t.handoff {
        var ok := AppendNote(Handoff);
        if !ok {
          return Leave(AppendFailed);
        }
      }
      return Again;
    }

    /** A stop came while the tools ran: it is known, and their results were appended, or could not
        be, with append number `a`. */
    ghost predicate StoppedInTools(s: Step, a: nat)
      reads this`log, this`base, this`stopping, this`appends
    {
      stopping && appends == a + 1 && (if fault(a) then s == Leave(AppendFailed) && Open() else s == Leave(StopWork) && Good())
    }

    /** The same from the append of the turn on. */
    ghost predicate StoppedInTurn(s: Step, a: nat)
      reads this`log, this`base, this`stopping, this`appends
    {
      if fault(a) then s == Leave(AppendFailed) && Good() && !stopping else StoppedInTools(s, a + 1)
    }

    /** Answers calls that were repeated too often without running them. */
    method SkipRepeated(calls: seq<Call>) returns (s: Step)
      requires Open() && calls != [] && |log| > 0 && log[|log| - 1].Assistant? && log[|log| - 1].calls == calls && Accounted()
      modifies this`log, this`appends, this`failures, this`joined, this`pendingWork
      ensures Accounted() && pendingWork && appends == old(appends) + 1
      ensures s == if fault(old(appends)) then Leave(AppendFailed) else Again
      ensures if s.Again? then Good() && failures == old(failures) && log == old(log) + [Results(Ids(calls))] else Open() && failures == old(failures) + 1
    {
      hide Settled, OpenAtTip;
      var skipped := SkipToolCalls(calls);
      pendingWork := true;
      var ok := PersistToolResults(skipped);
      return if ok then Again else Leave(AppendFailed);
    }

    /** Runs the calls of the turn just appended and answers every one of them before anything
        else is appended, except when the run is suspended, panics, or the append fails. */
    method RunTools(t: Turn, calls: seq<Call>) returns (s: Step)
      requires Open() && calls != [] && |log| > 0 && log[|log| - 1].Assistant? && log[|log| - 1].calls == calls
      requires Accounted()
      modifies this`log, this`appends, this`failures, this`joined, this`stopping, this`pendingWork, guards
      ensures Accounted()
      ensures Good() || (Open() && (failures == old(failures) + 1 || s == Leave(Suspended) || s == Leave(Panicked)))
      ensures old(failures) <= failures <= old(failures) + 1
      ensures s.Again? ==> Good() && failures == old(failures) && pendingWork
      ensures s.Again? || (s.Leave? && s.exit in {StopWork, Suspended, Errored, Panicked, AppendFailed, StoppedAtTool})
      ensures s == Leave(Suspended) ==> t.suspends && !stopping
      ensures 0 < cfg.maxRepeats <= old(guards.repeats) && old(guards.lastCalls) == Requests(calls) ==> s in {Again, Leave(AppendFailed)}
      ensures 0 < cfg.maxRepeats <= old(guards.repeats) && old(guards.lastCalls) == Requests(calls) && s.Again? ==>
        log == old(log) + [Results(Ids(calls))] && guards.tripped == RepeatedCalls
      ensures t.events(DuringTools).Panics? && cfg.maxRepeats == 0 ==> s == Leave(Panicked) && log == old(log)
      ensures t.events(DuringTools).StopArrives? && old(guards.lastCalls) == [] ==> StoppedInTools(s, old(appends))
      ensures UsesTools(t) && old(Ordinary(t)) && calls == t.reply.draft.value.calls ==>
        Exchanged(s, t, old(log) + [Results(Ids(calls))], old(guards.failedTurns), old(guards.tripped))
    {
      hide Settled, OpenAtTip, Accounted, NextStreak, TooMany, Notes;
      var exceeded := guards.Repeated(calls, cfg.maxRepeats);
      if exceeded {
        s := SkipRepeated(calls);
        return;
      }
      if t.events(DuringTools).Panics? {
        return Leave(Panicked);
      }
      stopping := stopping || t.events(DuringTools).StopArrives?;
      var results := ExecuteTools(calls, t.outcomes);
      assert UsesTools(t) && calls == t.reply.draft.value.calls ==> Outcomes(results) == OutcomesOf(t);
      s := RecordTools(t, results);
      if s.Next? {
        s := AfterResults(t, results);
      }
    }

    /** What every step of the turn after its call leaves behind. */
    ghost predicate Left(s: Step, t: Turn, failed: bool)
      reads this`log, this`base, this`stopping
    {
      Good() || (Open() && s.Leave? && ((s.exit.Suspended? && t.suspends && !stopping) || s.exit.Panicked? || failed))
    }

    /** Sends an answer back that does not match the schema, a limited number of times. */
    method RepairOutput() returns (s: Step)
      requires Good()
      requires Accounted()
      modifies this`log, this`appends, this`failures, this`joined, this`pendingWork, this`outputRepairs
      ensures Accounted()
      ensures Good() && (s.Again? || s in {Leave(Errored), Leave(AppendFailed)})
      ensures s == Leave(Errored) <==> old(outputRepairs) >= MAX_OUTPUT_REPAIRS
      ensures s == Leave(Errored) ==> log == old(log)
      ensures s.Again? ==> pendingWork && outputRepairs == old(outputRepairs) + 1 && log == old(log) + [Note(Repair)]
      ensures failures == old(failures) + (if s == Leave(AppendFailed) then 1 else 0)
    {
      if outputRepairs >= MAX_OUTPUT_REPAIRS {
        return Leave(Errored);
      }
      outputRepairs, pendingWork := outputRepairs + 1, true;
      var ok := AppendNote(Repair);
      return if ok then Again else Leave(AppendFailed);
    }

    /** Appends a model turn, with calls or without. */
    method AppendAssistant(m: Message) returns (ok: bool)
      requires Good() && Accounted() && m.Assistant?
      modifies this`log, this`appends, this`failures, this`joined
      ensures Accounted() && (if ok && m.calls != [] then Open() else Good())
      ensures ok == !fault(old(appends)) && appends == old(appends) + 1
      ensures log == if ok then old(log) + [m] else old(log)
      ensures failures == if ok then old(failures) else old(failures) + 1
    {
      if m.calls == [] {
        AppendPlain(log, base, m);
      } else {
        AppendTurn(log, base, m);
      }
      ok := Append(m);
    }

    /** What follows a text answer: another try at the schema, or the end. */
    method AfterAnswer(t: Turn) returns (s: Step)
      requires Good() && Counts() && Accounted()
      modifies this`log, this`appends, this`failures, this`joined, this`left, this`stopping, this`turnStart, this`pendingWork, this`wrapped, this`outputRepairs, guards
      ensures Good() && Counts() && Accounted() && left <= old(left) && (s.Again? || s.Leave?)
      ensures s.Again? ==> (turnStart == old(turnStart) && wrapped == old(wrapped)) || (left < old(left) && turnStart == iterCount)
      ensures s.Leave? ==> s.exit in {Finished, AppendFailed, Errored, Panicked}
      ensures old(failures) <= failures <= old(failures) + 1 && (s.Again? || s == Leave(Finished) ==> failures == old(failures))
      ensures t.repair && failures == old(failures) ==>
        s == (if old(outputRepairs) < 2 then Again else Leave(Errored)) && log == old(log) + (if s.Again? then [Note(Repair)] else [])
      ensures !t.repair && GoesOn(t, AfterTools) ==> (s == Leave(Finished) <==> GoesOn(t, AtFinish) && (old(left) == 0 || Idle(t)))
      ensures s == Leave(Finished) ==> log == old(log) && !t.repair && turnStart == old(turnStart)
      ensures stopping ==> old(stopping) || t.events(AfterTools).StopArrives? || t.events(AtFinish).StopArrives?
    {
      hide Settled, OpenAtTip, Idle, TakenAtFinish;
      if t.repair {
        s := RepairOutput();
        return;
      }
      s := Meet(t, AfterTools);
      if s.Leave? {
        return;
      }
      s := Finish(t);
    }

    /** Commits a complete model turn and does what it asks for. */
    method CommitTurn(t: Turn, d: Draft) returns (s: Step)
      requires Good() && Counts()
      requires Accounted()
      modifies this`log, this`appends, this`failures, this`joined, this`left, this`stopping, this`turnStart, this`pendingWork, this`wrapped, this`outputRepairs, guards
      ensures Accounted()
      ensures Left(s, t, failures == old(failures) + 1) && Counts() && left <= old(left) && !s.Next?
      ensures s.Again? ==> (turnStart == old(turnStart) && wrapped == old(wrapped)) || (left < old(left) && turnStart == iterCount)
      ensures s.Again? || s == Leave(Finished) ==> failures == old(failures)
      ensures s == Leave(Finished) ==> log == old(log) + [Assistant([], d.text || d.media)] && d.calls == [] && !t.repair
      ensures d.calls == [] && !t.repair && GoesOn(t, BeforeCommit) && GoesOn(t, AfterTools) && failures == old(failures) ==>
        (s == Leave(Finished) <==> GoesOn(t, AtFinish) && (old(left) == 0 || Idle(t)))
      ensures d.calls == [] && !t.repair && !GoesOn(t, BeforeCommit) ==> s in {Leave(Errored), Leave(Panicked)} && (log == old(log) || log == old(log) + [Note(Guardrail)])
      ensures d.calls == [] && t.repair && failures == old(failures) ==>
        && s == (if old(outputRepairs) < 2 then Again else Leave(Errored))
        && log == old(log) + [Assistant([], d.text || d.media)] + (if s.Again? then [Note(Repair)] else [])
      ensures old(failures) <= failures <= old(failures) + 1
      ensures s.Leave? ==> s.exit in {StopWork, Suspended, Errored, Panicked, AppendFailed, StoppedAtTool, Finished}
      ensures StopsInTools(t) && !old(stopping) && old(guards.lastCalls) == [] && d.calls != [] ==> s.Leave? && StoppedInTurn(s, old(appends))
      ensures old(Ordinary(t)) && t.reply.draft == Some(d) ==>
        Concluded(s, t, old(log), old(guards.failedTurns), old(guards.tripped)) && turnStart == old(turnStart)
    {
      hide Settled, OpenAtTip, Accounted;
      if d.calls == [] && !t.repair {
        s := Meet(t, BeforeCommit);
        if s.Leave? {
          return;
        }
      }
      var ok := AppendAssistant(Assistant(d.calls, d.text || d.media));
      if !ok {
        return Leave(AppendFailed);
      }
      if d.calls != [] {
        assert UsesTools(t) && t.reply.draft == Some(d) ==> old(log) + ExchangeOf(t) == log + [Results(Ids(d.calls))];
        s := RunTools(t, d.calls);
        return;
      }
      s := AfterAnswer(t);
    }

    /** What comes of a turn the output limit cut, when no append fails. */
    predicate Cut(s: Step, t: Turn, draft: Option<Draft>, continued: nat, left0: nat) {
      if HasCalls(draft) then s == Leave(Truncated)
      else if continued < cfg.autoContinue then s == Again
      else s == Leave(Finished) <==> GoesOn(t, AtFinish) && (left0 == 0 || Idle(t))
    }

    /** A text answer is asked for once more, in the form the schema wants. */
    predicate AsksAgain(t: Turn, draft: Option<Draft>) {
      t.schemaReply.Some? && draft.Some? && draft.value.calls == []
    }

    /** The schema-constrained follow-up: `Next` when its reply takes the place of the answer. */
    method AskAgain(t: Turn, r: Reply) returns (s: Step)
      requires Good() && Counts() && Accounted()
      modifies this`log, this`appends, this`failures, this`joined, this`left, this`stopping, this`turnStart, this`pendingWork, this`wrapped, this`outputRepairs, this`autoContinues, guards
      ensures Good() && Counts() && Accounted() && left <= old(left)
      ensures s.Again? ==> (turnStart == old(turnStart) && wrapped == old(wrapped)) || (left < old(left) && turnStart == iterCount)
      ensures s.Leave? ==> s.exit in {Finished, AppendFailed, Errored, Panicked, Truncated, StopWork}
      ensures s == Leave(Finished) || s.Again? ==> r.Done? && r.truncated
      ensures !s.Leave? || s == Leave(Finished) ==> failures == old(failures)
      ensures old(failures) <= failures <= old(failures) + 1
      ensures s.Next? ==> log == old(log) && turnStart == old(turnStart) && wrapped == old(wrapped) && left == old(left) && r.Done? && !r.truncated && !stopping
      ensures GoesOn(t, DuringSchemaCall) && (old(stopping) || t.events(DuringSchemaCall).StopArrives?) ==> s in {Leave(StopWork), Leave(AppendFailed)}
      ensures t.events(DuringSchemaCall).Quiet? && !old(stopping) && failures == old(failures) ==>
        if !r.Done? then s == Leave(Errored) && log == old(log)
        else if r.truncated then Cut(s, t, r.draft, old(autoContinues), old(left))
        else s == Next
    {
      hide Settled, OpenAtTip, Idle, Cut, KeptPart;
      s := Meet(t, DuringSchemaCall);
      if s.Leave? {
        return;
      }
      if stopping {
        s := CommitStopped(t, DraftOf(r));
        return;
      }
      if !r.Done? {
        return Leave(Errored);
      }
      if r.truncated {
        s := HandleTruncation(t, DraftOf(r));
        return;
      }
      return Next;
    }

    /** Everything after a completed call: truncation, the schema-constrained follow-up, an empty
        response, and the turn itself. */
    method HandleReply(t: Turn, draft: Option<Draft>, truncated: bool) returns (s: Step)
      requires Good() && Counts()
      requires Accounted()
      modifies this`log, this`appends, this`failures, this`joined, this`left, this`stopping, this`turnStart, this`pendingWork, this`wrapped, this`outputRepairs, this`autoContinues, guards
      ensures Accounted()
      ensures Left(s, t, failures == old(failures) + 1) && Counts() && left <= old(left) && !s.Next?
      ensures s.Again? ==> (turnStart == old(turnStart) && wrapped == old(wrapped)) || (left < old(left) && turnStart == iterCount)
      ensures s.Again? || s == Leave(Finished) ==> failures == old(failures)
      ensures t.events(AfterUsage).Quiet? && truncated && failures == old(failures) ==> Cut(s, t, draft, old(autoContinues), old(left))
      ensures t.events(AfterUsage).Quiet? && !truncated && draft.None? ==>
        if t.canceled || old(stopping) then s == Leave(Canceled) else s == Leave(Finished) <==> GoesOn(t, AtFinish) && (old(left) == 0 || Idle(t))
      ensures t.events(AfterUsage).Quiet? && AsksAgain(t, draft) && !truncated && t.events(DuringSchemaCall).Quiet? && !old(stopping) && failures == old(failures) ==>
        && (!t.schemaReply.value.Done? ==> s == Leave(Errored) && log == old(log))
        && (t.schemaReply.value.Done? && t.schemaReply.value.truncated ==> Cut(s, t, t.schemaReply.value.draft, old(autoContinues), old(left)))
      ensures AsksAgain(t, draft) && !truncated && s == Leave(Finished) && t.schemaReply.value.Done? && !t.schemaReply.value.truncated && t.schemaReply.value.draft.Some? ==>
        log == old(log) + [Assistant([], t.schemaReply.value.draft.value.text || t.schemaReply.value.draft.value.media)]
      ensures old(failures) <= failures <= old(failures) + 1
      ensures s.Leave? ==> s.exit in {StopWork, Suspended, Errored, Panicked, AppendFailed, StoppedAtTool, Finished, Truncated, Canceled}
      ensures StopsInTools(t) && !old(stopping) && old(guards.lastCalls) == [] && draft == t.reply.draft && !truncated ==> s.Leave? && StoppedInTurn(s, old(appends))
      ensures old(Ordinary(t)) && draft == t.reply.draft && !truncated ==>
        Concluded(s, t, old(log), old(guards.failedTurns), old(guards.tripped)) && turnStart == old(turnStart)
    {
      hide Settled, OpenAtTip, Accounted, StoppedInTurn, Concluded, Cut, Idle, KeptPart;
      s := Meet(t, AfterUsage);
      if s.Leave? {
        return;
      }
      if truncated {
        s := HandleTruncation(t, draft);
        return;
      }
      var msg := draft;
      if t.schemaReply.Some? && draft.Some? && draft.value.calls == [] {
        s := AskAgain(t, t.schemaReply.value);
        if !s.Next? {
          return;
        }
        msg := DraftOf(t.schemaReply.value);
      }
      if msg.None? {
        if t.canceled || stopping {
          return Leave(Canceled);
        }
        s := Finish(t);
        return;
      }
      s := CommitTurn(t, msg.value);
    }

    // ---- the loop ----

    /** One iteration of the loop. It keeps the branch settled wherever the loop goes on, and
        under a positive cap it uses up fuel. */
    method Iterate(t: Turn) returns (s: Step)
      requires Good() && Valid()
      requires Accounted()
      modifies this, overflow, guards
      ensures Accounted()
      ensures Left(s, t, failures == old(failures) + 1) && !s.Next? && Valid()
      ensures s.Again? ==> failures == old(failures) && (cfg.maxIter > 0 ==> Fuel() - loosened < old(Fuel() - loosened))
      ensures loosened == old(loosened) || (loosened == old(loosened) + 1 && old(overflow.Unbounded(t.limits)))
      ensures overflow.pressure ==> old(overflow.pressure) || t.limits.maxInput > 0
      ensures StopsInTools(t) && !old(stopping) && old(Early()) && old(guards.lastCalls) == [] ==> s.Leave? && StoppedInTurn(s, old(appends))
      ensures CanMove(t) && !old(stopping) && old(Early()) && old(Due(t)) ==> s.Again? && !stopping && Early() && overflow.pressure
      ensures s.Again? || s == Leave(Finished) ==> failures == old(failures)
      ensures old(failures) <= failures <= old(failures) + 1
      ensures s.Leave? ==> !s.exit.OutOfScript? && !s.exit.Stopped?
      ensures s == Leave(AtLimitError(MaxIterations)) ==> pendingWork && 0 < cfg.maxIter <= iterCount - turnStart
      ensures s.Leave? && s.exit.Forced? ==> cfg.forceFinal && |log| > 0 && log[|log| - 1] == Assistant([], true)
      ensures old(Ordinary(t) && (pendingWork || LimitNow() != MaxIterations)) ==>
        if old(LimitNow()) == NoLimit then
          && Concluded(s, t, old(log), old(guards.failedTurns), NoLimit)
          && iterCount - turnStart == old(iterCount - turnStart) + 1
        else s == Leave(AtLimitError(old(LimitNow()))) && log == old(log) && !stopping
    {
      hide Settled, OpenAtTip, FuelOf, StoppedInTurn, StoppedInTools, ResultsHaveCalls, Accounted, Concluded;
      StartsQuietly(t);
      hide StopsInTools, CanMove, Answers, UsesTools, Alone, Undisturbed;
      s := Begin(t);
      if !s.Next? {
        return;
      }
      s := PrepareCall(t);
      if !s.Next? {
        return;
      }
      s := CallAndReply(t);
    }

    /** The start of an iteration, up to the limits. */
    method Begin(t: Turn) returns (s: Step)
      requires Good() && Valid() && Accounted()
      modifies this`log, this`appends, this`failures, this`joined, this`left, this`stopping, this`turnStart, this`pendingWork, this`wrapped, guards
      ensures Good() && Valid() && Accounted()
      ensures s.Next? || s in {Leave(Canceled), Leave(AppendFailed), Leave(Errored), Leave(Panicked)}
      ensures old(failures) <= failures <= old(failures) + 1 && (s.Next? ==> failures == old(failures))
      ensures cfg.maxIter > 0 ==> Fuel() <= old(Fuel())
      ensures s.Next? ==> GoesOn(t, Prepare)
      ensures s == Leave(Canceled) <==> t.canceled || old(stopping)
      ensures !old(stopping) && Undisturbed(t) ==> s.Next? && unchanged(this) && unchanged(guards)
    {
      hide Settled, OpenAtTip, FuelOf, Accounted, Notes;
      if t.canceled || stopping {
        return Leave(Canceled);
      }
      s := InjectAtSafePoint(t);
      StartPays(old(left), old(iterCount - turnStart), old(wrapped));
      if s.Leave? {
        return;
      }
      s := Meet(t, Prepare);
    }

    /** After a delivery that may have started a new user turn, no fuel was gained. */
    lemma StartPays(left0: nat, used0: int, wrapped0: bool)
      requires Valid() && left <= left0 && (cfg.maxIter > 0 ==> 0 <= used0 <= cfg.maxIter)
      requires (iterCount - turnStart == used0 && wrapped == wrapped0) || (left < left0 && turnStart == iterCount)
      ensures cfg.maxIter > 0 ==> Fuel() <= FuelOf(cfg.maxIter, left0, used0, overflow.spent - overflow.loose, wrapped0)
      ensures cfg.maxIter > 0 && left < left0 && turnStart == iterCount ==> Fuel() < FuelOf(cfg.maxIter, left0, used0, overflow.spent - overflow.loose, wrapped0)
    {
      if cfg.maxIter > 0 {
        if left < left0 && turnStart == iterCount {
          ArrivalPays(cfg.maxIter, left0, left, used0, overflow.spent - overflow.loose, wrapped0, wrapped);
        } else {
          FewerArrivals(cfg.maxIter, left0, left, used0, overflow.spent - overflow.loose, wrapped0);
        }
      }
    }

    /** Limits and compaction, before the call. */
    method PrepareCall(t: Turn) returns (s: Step)
      requires Good() && Valid()
      requires Accounted()
      modifies this, overflow, guards
      ensures Accounted()
      ensures Good() && Valid()
      ensures s.Next? ==> failures == old(failures) && Fuel() == old(Fuel()) && (cfg.maxIter > 0 ==> iterCount - turnStart < cfg.maxIter)
      ensures s.Next? ==> unchanged(guards) && appends == old(appends) && stopping == old(stopping) && loosened == old(loosened)
      ensures s.Again? ==> failures == old(failures) && (cfg.maxIter > 0 ==> Fuel() - loosened < old(Fuel() - loosened))
      ensures loosened == old(loosened) || (loosened == old(loosened) + 1 && old(overflow.Unbounded(t.limits)))
      ensures overflow.pressure ==> old(overflow.pressure) || t.limits.maxInput > 0
      ensures old(Early()) && t.limits.maxInput <= 0 && !t.limits.compactor ==> s.Next?
      ensures old(Early()) && CanMove(t) && old(Due(t)) ==> s.Again? && stopping == old(stopping) && Early() && overflow.pressure
      ensures s == Leave(Finished) ==> failures == old(failures)
      ensures old(failures) <= failures <= old(failures) + 1
      ensures s.Leave? ==> !s.exit.OutOfScript? && !s.exit.Stopped? && !s.exit.Suspended?
      ensures s == Leave(AtLimitError(MaxIterations)) ==> pendingWork && 0 < cfg.maxIter <= iterCount - turnStart
      ensures s.Leave? && s.exit.Forced? ==> cfg.forceFinal && |log| > 0 && log[|log| - 1] == Assistant([], true)
      ensures Strict(cfg) && old(pendingWork || LimitNow() != MaxIterations) && Alone(t) ==>
        if old(LimitNow()) == NoLimit then s.Next? && log == old(log) && iterCount == old(iterCount) && turnStart == old(turnStart)
        else s == Leave(AtLimitError(old(LimitNow()))) && log == old(log) && stopping == old(stopping)
    {
      hide Settled, OpenAtTip, CanMove, Accounted;
      s := CheckLimits(t);
      if s.Again? && left < old(left) {
        StartPays(old(left), old(iterCount - turnStart), old(wrapped));
      }
      if !s.Next? {
        return;
      }
      s := Compact(t);
    }

    /** The call and what follows from it. */
    method CallAndReply(t: Turn) returns (s: Step)
      requires Good() && Valid() && (cfg.maxIter > 0 ==> iterCount - turnStart < cfg.maxIter)
      requires Accounted()
      modifies this, overflow, guards
      ensures Accounted()
      ensures Left(s, t, failures == old(failures) + 1) && !s.Next? && Valid()
      ensures s.Again? ==> failures == old(failures) && (cfg.maxIter > 0 ==> Fuel() < old(Fuel()))
      ensures loosened == old(loosened) && (overflow.pressure ==> old(overflow.pressure))
      ensures StopsInTools(t) && !old(stopping) && old(guards.lastCalls) == [] ==> s.Leave? && StoppedInTurn(s, old(appends))
      ensures old(Ordinary(t)) ==>
        Concluded(s, t, old(log), old(guards.failedTurns), old(guards.tripped)) && turnStart == old(turnStart) && iterCount == old(iterCount) + 1
      ensures s == Leave(Finished) ==> failures == old(failures)
      ensures old(failures) <= failures <= old(failures) + 1
      ensures s.Leave? ==> s.exit in {StopWork, Suspended, Errored, Panicked, AppendFailed, StoppedAtTool, Finished, Truncated, Canceled}
    {
      hide Settled, OpenAtTip, StoppedInTools, Accounted, Concluded;
      overflow.SpentIsBounded();
      s := Call(t);
      if !s.Next? {
        return;
      }
      assert cfg.maxIter > 0 ==> Fuel() < old(Fuel());
      ghost var left1, used1, wrapped1 := left, iterCount - turnStart, wrapped;
      s := HandleReply(t, DraftOf(t.reply), t.reply.truncated);
      if s.Again? {
        StartPays(left1, used1, wrapped1);
      }
    }

    /** The fuel left is never negative. */
    lemma FuelIsNatural()
      requires Valid()
      ensures Fuel() >= 0
    {
      overflow.SpentIsBounded();
    }

    /** The input of the run, appended before the loop. */
    method AppendInput(inputs: nat) returns (ok: bool)
      requires Good()
      requires Accounted()
      modifies this`log, this`appends, this`failures, this`joined
      ensures Accounted()
      ensures Good() && failures == old(failures) + (if ok then 0 else 1)
      ensures ok <==> forall k | old(appends) <= k < old(appends) + inputs :: !fault(k)
      ensures ok ==> appends == old(appends) + inputs && log == old(log) + Notes(Input, inputs)
      ensures failures == 0 ==> ok
    {
      hide Settled, OpenAtTip;
      ok := true;
      var i := 0;
      while i < inputs && ok
        invariant i <= inputs && Good() && Accounted() && failures == old(failures) + (if ok then 0 else 1)
        invariant appends == old(appends) + i && (ok <==> forall k | old(appends) <= k < old(appends) + i :: !fault(k))
        invariant ok ==> log == old(log) + Notes(Input, i)
        decreases inputs - i
      {
        ok := AppendNote(Input);
        i := i + 1;
      }
    }

    /** The loop over the script: every exit leaves the branch settled, but for a panic, a suspended
        run and a failed append, which can leave the last turn open. */
    method Loop(script: seq<Turn>) returns (exit: Exit, steps: nat)
      requires Good() && Valid() && failures == 0
      requires Accounted()
      modifies this, overflow, guards
      ensures Accounted()
      ensures Good() || (Open() && (failures == 1 || exit.Panicked? || (exit.Suspended? && !stopping)))
      ensures failures <= 1
      ensures exit in {OutOfScript, Finished} ==> failures == 0 && Good()
      ensures !exit.Stopped?
      ensures exit == AtLimitError(MaxIterations) ==> pendingWork && 0 < cfg.maxIter <= iterCount - turnStart
      ensures exit.Forced? ==> cfg.forceFinal && |log| > 0 && log[|log| - 1] == Assistant([], true)
      ensures steps <= |script| && (exit.OutOfScript? ==> steps == |script|)
      ensures cfg.maxIter > 0 ==> steps <= old(Fuel()) + 1 + (loosened - old(loosened))
      ensures NeverLifted(script) && !old(overflow.pressure) ==> loosened == old(loosened)
      ensures script != [] && StopsInTools(script[0]) && !old(stopping) && old(Early()) && old(guards.lastCalls) == [] ==>
        StoppedInTurn(Leave(exit), old(appends))
      ensures Lifted(script) && !old(stopping) && old(Early()) && !old(overflow.compacted) ==> exit.OutOfScript?
      ensures OrdinaryScript(script) && old(StartsTurn()) && !old(stopping) ==>
        OrdinaryRun(cfg, script, exit, steps, old(log), log) && !stopping
    {
      hide Settled, OpenAtTip, Fuel, FuelOf, StopsInTools, CanMove, Early, Accounted, LimitAfter, Exchanges;
      hide InOrder, SoFar, OrdinaryRun, OrdinaryScript, Concluded, Ordinary, Lifted, StartsTurn, LimitNow, StoppedInTurn, UsesTools, Answers, Alone, TooMany;
      exit, steps := OutOfScript, 0;
      FuelIsNatural();
      ghost var stops := script != [] && StopsInTools(script[0]) && !stopping && Early() && guards.lastCalls == [];
      ghost var lifted := Lifted(script) && !stopping && Early() && !overflow.compacted;
      ghost var ordinary := OrdinaryScript(script) && StartsTurn() && !stopping;
      ghost var calm := NeverLifted(script) && !overflow.pressure;
      if ordinary {
        NothingSoFar(script);
      }
      while steps < |script|
        invariant steps <= |script| && Valid() && Good() && Accounted() && failures == 0
        invariant cfg.maxIter > 0 ==> steps + Fuel() - loosened <= old(Fuel() - loosened)
        invariant calm && overflow.pressure ==> exists i :: 0 <= i < steps && script[i].limits.maxInput > 0
        invariant calm ==> loosened == old(loosened)
        invariant steps == 0 ==> unchanged(this) && unchanged(overflow) && unchanged(guards)
        invariant stops ==> steps == 0
        invariant lifted ==> !stopping && Early() && (steps > 0 ==> overflow.pressure)
        invariant ordinary ==> InOrder(script, steps, old(log))
      {
        FuelIsNatural();
        ghost var log1, streak1 := log, guards.failedTurns;
        if ordinary {
          NextIsOrdinary(script, steps, old(log));
        }
        if lifted {
          NextIsLifted(script, steps);
        }
        var s := Iterate(script[steps]);
        if ordinary {
          OneMoreTurn(script, steps, old(log), log1, streak1, s);
        }
        steps := steps + 1;
        if s.Leave? {
          return s.exit, steps;
        }
      }
      FuelIsNatural();
      if ordinary {
        AllInOrder(script, old(log));
      }
    }

    ghost predicate OrdinaryScript(script: seq<Turn>) {
      IsOrdinary(script) && Strict(cfg) && forall k | 0 <= k :: !fault(k)
    }

    /** Where an ordinary run stands after some turns, all of which called tools. */
    ghost predicate InOrder(script: seq<Turn>, n: nat, log0: seq<Message>)
      reads this, guards
    {
      && SoFar(script, n, log0, log, guards.failedTurns) && !stopping && iterCount - turnStart == n && (pendingWork <==> n > 0)
      && guards.tripped == if TooMany(guards.failedTurns, cfg.maxErrors) then ToolErrors else NoLimit
    }

    ghost predicate SoFar(script: seq<Turn>, n: nat, log0: seq<Message>, log1: seq<Message>, streak: nat) {
      && n <= |script| && (forall t | t in script[..n] :: UsesTools(t))
      && log1 == log0 + Exchanges(script[..n]) && streak == Streak(script[..n])
      && forall i | 0 <= i < n :: LimitAfter(cfg, script[..i]) == NoLimit
    }

    lemma NothingSoFar(script: seq<Turn>)
      requires StartsTurn() && !stopping
      ensures InOrder(script, 0, log)
    {
      assert log + [] == log;
    }

    lemma NextIsOrdinary(script: seq<Turn>, n: nat, log0: seq<Message>)
      requires InOrder(script, n, log0) && OrdinaryScript(script) && n < |script|
      ensures Ordinary(script[n]) && (pendingWork || LimitNow() != MaxIterations)
      ensures SoFar(script, n, log0, log, guards.failedTurns) && LimitNow() == LimitAfter(cfg, script[..n]) && iterCount - turnStart == n
    {
      assert script[n] in script;
    }

    lemma OneMoreTurn(script: seq<Turn>, n: nat, log0: seq<Message>, log1: seq<Message>, streak: nat, s: Step)
      requires SoFar(script, n, log0, log1, streak) && n < |script|
      requires var limit := LimitAfter(cfg, script[..n]);
        if limit != NoLimit then s == Leave(AtLimitError(limit)) && log == log1 && !stopping
        else Concluded(s, script[n], log1, streak, NoLimit) && iterCount - turnStart == n + 1
      ensures s.Again? ==> InOrder(script, n + 1, log0)
      ensures s.Leave? ==> OrdinaryRun(cfg, script, s.exit, n + 1, log0, log) && !stopping
    {
      var more := script[..n + 1];
      assert more[..n] == script[..n] && more == script[..n] + [script[n]];
      if s.Again? {
        assert log0 + Exchanges(more) == log1 + ExchangeOf(script[n]);
      }
    }

    lemma AllInOrder(script: seq<Turn>, log0: seq<Message>)
      requires InOrder(script, |script|, log0)
      ensures OrdinaryRun(cfg, script, OutOfScript, |script|, log0, log) && !stopping
    {
      assert script[..|script|] == script;
    }

    predicate IsError(exit: Exit) {
      !(exit in {OutOfScript, Finished, StoppedAtTool, CutAnswer} || exit.Forced?)
    }

    /** The one way a run breaks its branch: stopped with a turn open, it cannot record that turn's
        results, and then records the stop. */
    ghost predicate StopBreaksBranch(exit: Exit)
      reads this`log, this`base, this`stopping, this`appends
    {
      IsError(exit) && !exit.Panicked? && stopping && Open() && fault(appends) && !fault(appends + 1)
    }

    /** The end of the run: a panic's open calls are answered, and an error that a stop request
        caused becomes a stop record. */
    method WrapUp(exit: Exit) returns (end: Exit)
      requires (Good() || Open()) && !exit.Stopped?
      requires Accounted()
      modifies this`log, this`appends, this`failures, this`joined
      ensures Accounted()
      ensures (Good() || Open()) <==> !old(StopBreaksBranch(exit))
      ensures failures == old(failures) && (exit.Panicked? || end.Stopped?) ==> Good()
      ensures old(Good()) ==> Good()
      ensures old(StopBreaksBranch(exit)) ==> end == Stopped && failures == old(failures) + 1
      ensures end.Stopped? ==> stopping && |log| > 0 && log[|log| - 1] == Note(StopRecord)
      ensures stopping && IsError(exit) && !exit.Panicked? ==> end == Stopped || (end == AppendFailed && failures > old(failures))
      ensures !(stopping && IsError(exit) && !exit.Panicked?) ==> end == exit
      ensures !IsError(exit) || (!stopping && !exit.Panicked?) ==> log == old(log) && failures == old(failures)
      ensures old(failures) <= failures <= old(failures) + 2
    {
      hide Settled;
      end := exit;
      if exit.Panicked? {
        AnswerOpenToolCalls();
        return;
      }
      if !IsError(exit) || !stopping {
        return;
      }
      AnswerOpenToolCalls();
      if Good() {
        AppendPlain(log, base, Note(StopRecord));
      } else {
        RecordOnOpenTurn(log, base, Note(StopRecord));
      }
      var ok := Append(Note(StopRecord));
      end := if ok then Stopped else AppendFailed;
    }

    lemma OrdinaryExit(script: seq<Turn>, exit: Exit, steps: nat, before: seq<Message>)
      requires OrdinaryRun(cfg, script, exit, steps, before, log)
      ensures exit.OutOfScript? || exit.Finished? || exit.AtLimitError?
    {}

    /** A whole run over a script: its input, the loop, and the end. `steps` counts loop bodies. */
    method Execute(inputs: nat, script: seq<Turn>) returns (exit: Exit, steps: nat)
      requires Good() && Valid() && failures == 0
      requires Accounted()
      modifies this, overflow, guards
      ensures Accounted()
      ensures failures == 0 && !exit.Suspended? ==> Good()
      ensures failures <= 1 ==> Good() || Open()
      ensures !(Good() || Open()) ==> exit.Stopped? && failures == 2
      ensures exit in {OutOfScript, Finished} ==> Good()
      ensures exit.Stopped? ==> stopping && |log| > 0 && log[|log| - 1] == Note(StopRecord)
      ensures exit == AtLimitError(MaxIterations) ==> pendingWork && 0 < cfg.maxIter <= iterCount - turnStart
      ensures exit.Forced? ==> cfg.forceFinal && |log| > 0 && log[|log| - 1] == Assistant([], true)
      ensures steps <= |script| && (exit.OutOfScript? ==> steps == |script|)
      ensures cfg.maxIter > 0 ==> steps <= old(Fuel()) + 1 + (loosened - old(loosened))
      ensures NeverLifted(script) && !old(overflow.pressure) ==> loosened == old(loosened)
      ensures var a := old(appends) + inputs;
              script != [] && StopsInTools(script[0]) && !old(stopping) && old(Early()) && old(guards.lastCalls) == [] &&
              (forall k | old(appends) <= k < a :: !fault(k)) ==>
                (!(Good() || Open()) <==> !fault(a) && fault(a + 1) && fault(a + 2) && !fault(a + 3))
      ensures Lifted(script) && !old(stopping) && old(Early()) && !old(overflow.compacted) && (forall k | old(appends) <= k < old(appends) + inputs :: !fault(k)) ==>
                exit.OutOfScript?
      ensures OrdinaryScript(script) && old(StartsTurn()) && !old(stopping) ==> OrdinaryRun(cfg, script, exit, steps, old(log) + Notes(Input, inputs), log)
    {
      hide Settled, OpenAtTip, FuelOf, StopsInTools, Lifted, NeverLifted, Accounted, StartsTurn, OrdinaryRun, Notes, UsesTools, Answers, Alone, TooMany;
      FuelIsNatural();
      var ok := AppendInput(inputs);
      if !ok {
        exit, steps := AppendFailed, 0;
      } else {
        exit, steps := Loop(script);
      }
      if OrdinaryScript(script) && old(StartsTurn()) && !old(stopping) {
        OrdinaryExit(script, exit, steps, old(log) + Notes(Input, inputs));
      }
      exit := WrapUp(exit);
    }
  }

  /** Anything but results after an open turn leaves its calls unanswered for good. */
  lemma RecordOnOpenTurn(log: seq<Message>, base: nat, m: Message)
    requires OpenAtTip(log, base) && !m.Results? && !IsOpenTurn(m)
    ensures !Settled(log + [m], base) && !OpenAtTip(log + [m], base)
  {
    var n := |log| - 1;
    assert (log + [m])[n] == log[n] && (log + [m])[n + 1] == m;
  }

  /** A run on a settled branch. Without a failed append or a suspension it leaves its branch settled,
      so the next run can start there. How often its loop body runs has a bound: a cost for the first
      user turn and for every submission and child result that can start another, whatever the
      provider, the tools, the compactor and the clients do, and one more for each compaction made
      under pressure after the token limit was taken away. */
  method RunFresh(cfg: Settings, fault: nat -> bool, history: seq<Message>, ghost base: nat, arrivals: nat, inputs: nat, script: seq<Turn>)
    returns (run: Run, exit: Exit, steps: nat)
    requires Settled(history, base)
    ensures fresh(run)
    ensures run.failures == 0 && !exit.Suspended? ==> Settled(run.log, run.base)
    ensures run.joined + run.left <= arrivals && (run.failures == 0 ==> run.joined == arrivals - run.left)
    ensures cfg.maxIter > 0 ==> steps <= Bound(cfg.maxIter, arrivals) + run.loosened
    ensures NeverLifted(script) ==> run.loosened == 0
    ensures cfg.maxIter > 0 && NeverLifted(script) && |script| > Bound(cfg.maxIter, arrivals) ==> !exit.OutOfScript?
    ensures IsOrdinary(script) && Strict(cfg) && (forall k | 0 <= k :: !fault(k)) ==>
      OrdinaryRun(cfg, script, exit, steps, history + Notes(Input, inputs), run.log)
  {
    hide Settled, OpenAtTip, NeverLifted, OrdinaryRun, IsOrdinary, Notes;
    run := new Run(cfg, fault, history, base, arrivals);
    if cfg.maxIter > 0 {
      TotalIsProduct(arrivals, TurnCost(cfg.maxIter));
    }
    exit, steps := run.Execute(inputs, script);
  }

  /** Taking the limit away has to be excluded: under any positive cap there is a run of any length
      that makes no call, and so no bound. */
  method LiftedLimitRunsOn(cfg: Settings, history: seq<Message>, ghost base: nat, quiet: Turn, n: nat) returns (run: Run, exit: Exit, steps: nat)
    requires Settled(history, base) && cfg.maxIter > 0 && CanMove(quiet)
    ensures exit.OutOfScript? && steps == n + 1
  {
    hide Settled, OpenAtTip, CanMove;
    var pressed := quiet.(limits := Limits(1, true, true, false), size := 2);
    var lifted := quiet.(limits := Limits(0, true, true, false));
    StillCanMove(quiet, pressed, lifted);
    run := new Run(cfg, k => false, history, base, 0);
    exit, steps := run.Execute(0, [pressed] + seq(n, i => lifted));
  }

  lemma StillCanMove(quiet: Turn, pressed: Turn, lifted: Turn)
    requires CanMove(quiet) && pressed == quiet.(limits := pressed.limits, size := pressed.size) && lifted == quiet.(limits := lifted.limits)
    ensures CanMove(pressed) && CanMove(lifted)
  {}

  /** The one way a run breaks its branch, as a run: a stop request that comes while the first turn's
      tools run breaks it exactly when the turn was appended, its results could not be, twice, and the
      record of the stop could. */
  method StopInTools(cfg: Settings, fault: nat -> bool, history: seq<Message>, ghost base: nat, arrivals: nat, inputs: nat, turn: Turn)
    returns (run: Run, exit: Exit)
    requires Settled(history, base) && StopsInTools(turn) && forall k | 0 <= k < inputs :: !fault(k)
    ensures !(Settled(run.log, run.base) || OpenAtTip(run.log, run.base)) <==>
      !fault(inputs) && fault(inputs + 1) && fault(inputs + 2) && !fault(inputs + 3)
    ensures !(Settled(run.log, run.base) || OpenAtTip(run.log, run.base)) ==> exit.Stopped? && run.failures == 2
  {
    hide Settled, OpenAtTip, StopsInTools;
    run := new Run(cfg, fault, history, base, arrivals);
    var steps;
    exit, steps := run.Execute(inputs, [turn]);
  }

  function TurnWithStop(): (t: Turn)
    ensures StopsInTools(t)
  {
    var reply := Done(Some(Draft([Call("call", "tool")], false, false)), false, 0);
    Turn(Limits(0, false, false, false), false, false, [], 0, 0, Kept, Kept, reply, None, reply, false, i => Succeeded, false, false, i => false, false, [], 0,
      p => if p == DuringTools then StopArrives else Quiet)
  }

  /** Such a run: a turn with one call on an empty branch, with two failing appends. */
  method BrokenBranch() returns (run: Run, exit: Exit)
    ensures !(Settled(run.log, run.base) || OpenAtTip(run.log, run.base)) && exit.Stopped? && run.failures == 2
  {
    PairedIsSettled([]);
    hide Settled, OpenAtTip, StopsInTools, TurnWithStop;
    var cfg := Settings(1, 0, 0, false, 0, 0, false, false);
    run, exit := StopInTools(cfg, k => k == 1 || k == 2, [], 0, 0, 0, TurnWithStop());
  }
}
