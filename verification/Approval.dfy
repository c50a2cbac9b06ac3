/** Standing approvals of a conversation (agent/approval_policy.go, agent/types/grant.go). Decisions
    change a live state in the order they are made, and are written to the branch in the order their
    calls were requested; a later run rebuilds the state from the branch. */
module Approval {

  type Tool = string

  /** One condition on the arguments of a call. A call carries the set of those it satisfies. */
  type Matcher = nat

  datatype Option<T> = None | Some(value: T)

  datatype Capability = Read | Write | Destructive | Unknown

  datatype Call = Call(id: string, tool: Tool, capability: Capability, satisfies: set<Matcher>)

  datatype Scope = ForTool | ForArgs | ForSession

  datatype Grant = Grant(id: string, scope: Scope, tool: Tool, match_: seq<Matcher>, expiresAt: Option<int>) {
    predicate Covers(call: Call, now: int) {
      && (expiresAt.None? || now < expiresAt.value)
      && match scope
         case ForSession => true
         case ForTool => tool == call.tool
         case ForArgs => tool == call.tool && match_ != [] && forall m | m in match_ :: m in call.satisfies
    }
  }

  type Counts = map<Tool, nat>

  function Count(m: Counts, t: Tool): nat {
    if t in m then m[t] else 0
  }

  function OneMore(m: Counts, t: Tool): Counts {
    m[t := Count(m, t) + 1]
  }

  datatype State = State(grants: seq<Grant>, approvals: Counts, denials: Counts) {
    predicate Empty() {
      |grants| == 0 && |approvals| == 0 && |denials| == 0
    }
  }

  const NOTHING := State([], map[], map[])

  /** What the loop writes to a branch about approvals. */
  datatype Record =
    | Approved(tool: Tool)
    | Granted(tool: Tool, grant: Option<Grant>)
    | Denied(tool: Tool)
    | AutoApproved(tool: Tool)
    | AutoDenied(tool: Tool)
    | Snapshot(state: State)

  function Applied(s: State, r: Record): State {
    match r
    case Approved(t) => s.(approvals := OneMore(s.approvals, t))
    case Granted(t, g) => State(if g.Some? then s.grants + [g.value] else s.grants, OneMore(s.approvals, t), s.denials)
    case Denied(t) => s.(denials := OneMore(s.denials, t))
    case AutoApproved(_) => s
    case AutoDenied(_) => s
    case Snapshot(state) => state
  }

  /** The state after a sequence of records. */
  function Fold(s: State, records: seq<Record>): State {
    if records == [] then s else
      var n := |records| - 1;
      Applied(Fold(s, records[..n]), records[n])
  }

  /** Equal but for the order of the grants. */
  ghost predicate Similar(a: State, b: State) {
    multiset(a.grants) == multiset(b.grants) && a.approvals == b.approvals && a.denials == b.denials
  }

  // ---- the order of records does not matter ----

  lemma {:induction false} FoldJoined(s: State, a: seq<Record>, b: seq<Record>)
    ensures Fold(s, a + b) == Fold(Fold(s, a), b)
    decreases |b|
  {
    if b == [] {
      assert a + b == a;
    } else {
      var n := |b| - 1;
      assert (a + b)[..|a + b| - 1] == a + b[..n];
      FoldJoined(s, a, b[..n]);
    }
  }

  lemma AppliedSimilar(a: State, b: State, r: Record)
    requires Similar(a, b)
    ensures Similar(Applied(a, r), Applied(b, r))
  {}

  lemma {:induction false} FoldSimilar(a: State, b: State, records: seq<Record>)
    requires Similar(a, b)
    ensures Similar(Fold(a, records), Fold(b, records))
  {
    if records != [] {
      var n := |records| - 1;
      FoldSimilar(a, b, records[..n]);
      AppliedSimilar(Fold(a, records[..n]), Fold(b, records[..n]), records[n]);
    }
  }

  predicate NoSnapshots(records: seq<Record>) {
    forall r | r in records :: !r.Snapshot?
  }

  function GrantsIn(r: Record): seq<Grant> {
    if r.Granted? && r.grant.Some? then [r.grant.value] else []
  }

  /** The three parts of the state change independently. */
  lemma AppliedParts(s: State, r: Record)
    requires !r.Snapshot?
    ensures Applied(s, r).grants == s.grants + GrantsIn(r)
    ensures Applied(s, r).approvals == if r.Approved? || r.Granted? then OneMore(s.approvals, r.tool) else s.approvals
    ensures Applied(s, r).denials == if r.Denied? then OneMore(s.denials, r.tool) else s.denials
  {}

  lemma Commute(s: State, q: Record, r: Record)
    requires !q.Snapshot? && !r.Snapshot?
    ensures Similar(Applied(Applied(s, q), r), Applied(Applied(s, r), q))
  {
    hide Applied, OneMore, GrantsIn;
    AppliedParts(s, q);
    AppliedParts(s, r);
    AppliedParts(Applied(s, q), r);
    AppliedParts(Applied(s, r), q);
    CountsCommute(s.approvals, q.tool, r.tool);
    CountsCommute(s.denials, q.tool, r.tool);
    assert multiset(s.grants + GrantsIn(q) + GrantsIn(r)) == multiset(s.grants + GrantsIn(r) + GrantsIn(q));
  }

  lemma CountsCommute(m: Counts, t: Tool, u: Tool)
    ensures OneMore(OneMore(m, t), u) == OneMore(OneMore(m, u), t)
  {
    if t != u {
      assert m[t := Count(m, t) + 1][u := Count(m, u) + 1] == m[u := Count(m, u) + 1][t := Count(m, t) + 1];
    }
  }

  lemma SimilarTrans(a: State, b: State, c: State)
    requires Similar(a, b) && Similar(b, c)
    ensures Similar(a, c)
  {}

  /** A record can be moved behind the records after it. */
  lemma {:induction false} MoveBack(s: State, r: Record, after: seq<Record>)
    requires !r.Snapshot? && NoSnapshots(after)
    ensures Similar(Fold(Applied(s, r), after), Applied(Fold(s, after), r))
  {
    hide Similar;
    if after == [] {
      SimilarSelf(Applied(s, r));
    } else {
      var n := |after| - 1;
      var rest, q := after[..n], after[n];
      MoveBack(s, r, rest);
      AppliedSimilar(Fold(Applied(s, r), rest), Applied(Fold(s, rest), r), q);
      Commute(Fold(s, rest), r, q);
      SimilarTrans(Fold(Applied(s, r), after), Applied(Applied(Fold(s, rest), r), q), Applied(Fold(s, after), r));
    }
  }

  lemma SimilarSelf(s: State)
    ensures Similar(s, s)
  {}

  lemma WithoutOne(rest: seq<Record>, r: Record, b: seq<Record>) returns (front: seq<Record>, back: seq<Record>)
    requires multiset(rest + [r]) == multiset(b)
    ensures b == front + [r] + back && multiset(rest) == multiset(front + back)
    ensures forall x | x in back :: x in rest + [r]
  {
    assert multiset(rest + [r]) == multiset(rest) + multiset{r};
    assert r in multiset(b);
    var i :| 0 <= i < |b| && b[i] == r;
    front, back := b[..i], b[i + 1..];
    assert b == front + [r] + back;
    assert multiset(front + back) + multiset{r} == multiset(rest) + multiset{r};
    assert multiset(front + back) == (multiset(front + back) + multiset{r}) - multiset{r};
    assert multiset(rest) == (multiset(rest) + multiset{r}) - multiset{r};
    forall x | x in back
      ensures x in rest + [r]
    {
      assert x in multiset(b);
    }
  }

  /** Records applied in any order give the same state, up to the order of the grants. */
  lemma {:induction false} AnyOrder(s: State, a: seq<Record>, b: seq<Record>)
    requires multiset(a) == multiset(b) && NoSnapshots(a)
    ensures Similar(Fold(s, a), Fold(s, b))
    decreases |a|
  {
    hide Similar;
    if a == [] {
      assert |multiset(b)| == 0;
      SimilarSelf(s);
    } else {
      var n := |a| - 1;
      var r, rest := a[n], a[..n];
      assert a == rest + [r];
      var front, back := WithoutOne(rest, r, b);
      AnyOrder(s, rest, front + back);
      MoveOneBack(s, front, r, back);
      AppliedSimilar(Fold(s, rest), Fold(s, front + back), r);
      SimilarTrans(Fold(s, a), Applied(Fold(s, front + back), r), Fold(s, b));
    }
  }

  lemma MoveOneBack(s: State, front: seq<Record>, r: Record, back: seq<Record>)
    requires !r.Snapshot? && NoSnapshots(back)
    ensures Similar(Applied(Fold(s, front + back), r), Fold(s, front + [r] + back))
  {
    FoldJoined(s, front, back);
    FoldJoined(s, front + [r], back);
    assert (front + [r])[..|front|] == front;
    MoveBack(Fold(s, front), r, back);
  }

  lemma SimilarSym(a: State, b: State)
    requires Similar(a, b)
    ensures Similar(b, a)
  {}

  // ---- deciding a call ----

  /** The limits of a policy; zero or less switches one off. */
  datatype Policy = Policy(denyAfter: int, rampAfter: int)

  datatype Verdict = Deny | Approve(grant: Option<string>) | Ask

  predicate AtDenialLimit(s: State, tool: Tool, limit: int) {
    limit > 0 && Count(s.denials, tool) >= limit
  }

  ghost predicate Covered(s: State, call: Call, now: int) {
    exists g :: g in s.grants && g.Covers(call, now)
  }

  predicate Ramped(s: State, p: Policy, call: Call) {
    p.rampAfter > 0 && call.capability.Write? && Count(s.approvals, call.tool) >= p.rampAfter
  }

  /** What the state says of a call, apart from which grant covers it. */
  ghost predicate Fits(v: Verdict, s: State, p: Policy, call: Call, now: int) {
    && (v.Deny? <==> AtDenialLimit(s, call.tool, p.denyAfter))
    && (v.Approve? <==> !v.Deny? && !call.capability.Destructive? && (Covered(s, call, now) || Ramped(s, p, call)))
  }

  /** States that differ in the order of their grants decide every call alike. */
  lemma SimilarDecideAlike(a: State, b: State, p: Policy, call: Call, now: int, v: Verdict, w: Verdict)
    requires Similar(a, b) && Fits(v, a, p, call, now) && Fits(w, b, p, call, now)
    ensures v.Deny? <==> w.Deny?
    ensures v.Approve? <==> w.Approve?
    ensures v.Ask? <==> w.Ask?
  {
    assert forall g :: g in a.grants <==> g in multiset(a.grants);
    assert forall g :: g in b.grants <==> g in multiset(b.grants);
    assert Covered(a, call, now) <==> Covered(b, call, now);
  }

  /** The scope a person attaches to an approval. */
  datatype AskedScope = Once | Lasting(scope: Scope) | UnknownScope

  datatype GrantRequest = GrantRequest(scope: AskedScope, match_: seq<Matcher>, wellFormed: bool, expiresAt: Option<int>)

  predicate IsValidRequest(g: GrantRequest) {
    match g.scope
    case UnknownScope => false
    case Lasting(ForArgs) => g.match_ != [] && g.wellFormed
    case _ => g.match_ == []
  }

  /** The calls a request for a lasting grant asks to cover, when it is attached to a call of `tool`. */
  ghost predicate Reaches(request: GrantRequest, tool: Tool, other: Call)
    requires request.scope.Lasting?
  {
    match request.scope.scope
    case ForSession => true
    case ForTool => other.tool == tool
    case ForArgs => other.tool == tool && forall m | m in request.match_ :: m in other.satisfies
  }

  ghost predicate InTime(request: GrantRequest, now: int) {
    request.expiresAt == None || now < request.expiresAt.value
  }

  /** The grant an approval creates: none for a destructive tool or a request with the wrong matchers,
      and else one that covers exactly the calls that were asked for, until the time that was asked for. */
  function GrantFrom(request: Option<GrantRequest>, call: Call): (g: Option<Grant>)
    ensures g.Some? <==> (
      && request.Some? && request.value.scope.Lasting? && !call.capability.Destructive?
      && if request.value.scope.scope.ForArgs? then request.value.match_ != [] && request.value.wellFormed else request.value.match_ == [])
    ensures g.Some? ==> g.value.id == call.id && request.Some? && request.value.scope.Lasting?
    ensures g.Some? ==> forall other: Call, now: int :: g.value.Covers(other, now) <==> InTime(request.value, now) && Reaches(request.value, call.tool, other)
  {
    if request.None? || call.capability.Destructive? || !IsValidRequest(request.value) || request.value.scope.Once? then None
    else
      var scope := request.value.scope.scope;
      Some(Grant(call.id, scope, if scope.ForSession? then "" else call.tool, request.value.match_, request.value.expiresAt))
  }

  /** What a person answers; `denied` distinguishes a refusal from a wait that just ended. */
  datatype Answer = Answer(ok: bool, denied: bool, request: Option<GrantRequest>)

  class ApprovalState {
    var state: State

    /** Rebuilds the state from the records on a branch. */
    constructor (records: seq<Record>)
      ensures state == Fold(NOTHING, records)
    {
      new;
      state := NOTHING;
      var i := 0;
      while i < |records|
        invariant i <= |records| && state == Fold(NOTHING, records[..i])
      {
        assert records[..i + 1][..i] == records[..i];
        state := Applied(state, records[i]);
        i := i + 1;
      }
      assert records[..i] == records;
    }

    /** Decides a call before anyone is asked: the denial limit comes first, a destructive call always
        asks, and of the grants the newest that covers it is named. */
    method Decide(p: Policy, call: Call, now: int) returns (v: Verdict)
      ensures Fits(v, state, p, call, now)
      ensures v.Approve? && Covered(state, call, now) ==> exists i :: 0 <= i < |state.grants| && IsNewestCovering(state.grants, i, call, now) && v.grant == Some(state.grants[i].id)
      ensures v.Approve? && !Covered(state, call, now) ==> v.grant.None?
    {
      if AtDenialLimit(state, call.tool, p.denyAfter) {
        return Deny;
      }
      if call.capability.Destructive? {
        return Ask;
      }
      var i := |state.grants|;
      while i > 0
        invariant 0 <= i <= |state.grants| && forall j | i <= j < |state.grants| :: !state.grants[j].Covers(call, now)
      {
        i := i - 1;
        if state.grants[i].Covers(call, now) {
          assert state.grants[i] in state.grants && IsNewestCovering(state.grants, i, call, now);
          return Approve(Some(state.grants[i].id));
        }
      }
      return if Ramped(state, p, call) then Approve(None) else Ask;
    }

    /** Records what came of a call under its verdict and, where it asked, the person's answer. */
    method Settle(v: Verdict, call: Call, answer: Answer) returns (approved: bool, records: seq<Record>)
      modifies this
      ensures state == Fold(old(state), records) && NoSnapshots(records)
      ensures v.Deny? ==> records == [AutoDenied(call.tool)]
      ensures v.Approve? ==> records == [AutoApproved(call.tool)]
      ensures v.Ask? && answer.ok ==> var g := GrantFrom(answer.request, call); records == [if g.Some? then Granted(call.tool, g) else Approved(call.tool)]
      ensures v.Ask? && !answer.ok ==> records == if answer.denied then [Denied(call.tool)] else []
      ensures approved <==> v.Approve? || (v.Ask? && answer.ok)
      ensures !v.Ask? ==> state == old(state)
      ensures v.Ask? && !answer.ok ==> state == old(state).(denials := if answer.denied then OneMore(old(state).denials, call.tool) else old(state).denials)
      ensures v.Ask? && answer.ok ==> state.denials == old(state).denials && state.approvals == OneMore(old(state).approvals, call.tool)
      ensures v.Ask? && answer.ok ==> var g := GrantFrom(answer.request, call); state.grants == old(state).grants + (if g.Some? then [g.value] else [])
      ensures old(state).grants <= state.grants && Count(state.denials, call.tool) >= Count(old(state).denials, call.tool)
    {
      records := match v
        case Deny => [AutoDenied(call.tool)]
        case Approve(_) => [AutoApproved(call.tool)]
        case Ask =>
          if answer.ok then
            [if GrantFrom(answer.request, call).Some? then Granted(call.tool, GrantFrom(answer.request, call)) else Approved(call.tool)]
          else if answer.denied then [Denied(call.tool)]
          else [];
      approved := v.Approve? || (v.Ask? && answer.ok);
      assert records != [] ==> records[..|records| - 1] == [];
      if records != [] {
        state := Applied(state, records[0]);
      }
    }
  }

  predicate IsNewestCovering(grants: seq<Grant>, i: nat, call: Call, now: int) {
    i < |grants| && grants[i].Covers(call, now) && forall j | i < j < |grants| :: !grants[j].Covers(call, now)
  }

  // ---- from the first decision on ----

  /** How many of some records are approvals by a person of a tool. */
  function ApprovalsIn(records: seq<Record>, t: Tool): nat {
    if records == [] then 0 else
      var r := records[|records| - 1];
      ApprovalsIn(records[..|records| - 1], t) + (if (r.Approved? || r.Granted?) && r.tool == t then 1 else 0)
  }

  /** The counts of a state are those of its records. */
  lemma {:induction false} CountsAreRecords(s: State, records: seq<Record>, t: Tool)
    requires NoSnapshots(records)
    ensures Count(Fold(s, records).denials, t) == Count(s.denials, t) + multiset(records)[Denied(t)]
    ensures Count(Fold(s, records).approvals, t) == Count(s.approvals, t) + ApprovalsIn(records, t)
  {
    if records != [] {
      var n := |records| - 1;
      var front, r := records[..n], records[n];
      assert records == front + [r];
      CountsAreRecords(s, front, t);
      assert multiset(records) == multiset(front) + multiset{r};
    }
  }

  /** A tool is at its denial limit exactly when people denied it that often. */
  lemma LimitIsDenials(records: seq<Record>, t: Tool, limit: int)
    requires NoSnapshots(records)
    ensures AtDenialLimit(Fold(NOTHING, records), t, limit) <==> 0 < limit <= multiset(records)[Denied(t)]
  {
    CountsAreRecords(NOTHING, records, t);
  }

  /** A tool that is refused every time is asked for as often as the denial limit says, and then no more. */
  method RefuseAlways(p: Policy, call: Call, now: int, n: nat) returns (asked: nat)
    ensures asked == if 0 < p.denyAfter < n then p.denyAfter else n
  {
    var approvals := new ApprovalState([]);
    asked := 0;
    var i := 0;
    while i < n
      invariant i <= n && asked == (if 0 < p.denyAfter < i then p.denyAfter else i)
      invariant approvals.state.grants == [] && Count(approvals.state.denials, call.tool) == asked && Count(approvals.state.approvals, call.tool) == 0
    {
      var v := approvals.Decide(p, call, now);
      assert !Covered(approvals.state, call, now);
      var ok, _ := approvals.Settle(v, call, Answer(false, true, None));
      assert !ok;
      if v.Ask? {
        asked := asked + 1;
      }
      i := i + 1;
    }
  }

  /** A writing tool that is approved every time is asked for as often as the ramp says, and then runs;
      any other tool is asked for every time. */
  method ApproveAlways(p: Policy, call: Call, now: int, n: nat) returns (asked: nat)
    ensures asked == if call.capability.Write? && 0 < p.rampAfter < n then p.rampAfter else n
  {
    var approvals := new ApprovalState([]);
    asked := 0;
    var i := 0;
    while i < n
      invariant i <= n && asked == (if call.capability.Write? && 0 < p.rampAfter < i then p.rampAfter else i)
      invariant approvals.state.grants == [] && Count(approvals.state.approvals, call.tool) == asked && Count(approvals.state.denials, call.tool) == 0
    {
      var v := approvals.Decide(p, call, now);
      assert !Covered(approvals.state, call, now);
      var ok, _ := approvals.Settle(v, call, Answer(true, false, None));
      assert ok;
      if v.Ask? {
        asked := asked + 1;
      }
      i := i + 1;
    }
  }

  /** A grant lasts as long as was asked for: a call it reaches is approved under it before its time is
      over, and afterwards only under an older grant or by the ramp. */
  method GrantLasts(approvals: ApprovalState, p: Policy, call: Call, request: GrantRequest, next: Call, now: int, later: int)
    returns (first: Verdict, second: Verdict)
    requires GrantFrom(Some(request), call).Some? && request.scope.Lasting? && Reaches(request, call.tool, next) && !next.capability.Destructive?
    requires !AtDenialLimit(approvals.state, next.tool, p.denyAfter)
    modifies approvals
    ensures first.Ask? && InTime(request, later) ==> second == Approve(Some(call.id))
    ensures first.Ask? && !InTime(request, later) ==>
      (second.Approve? <==>
        || old(Covered(approvals.state, next, later))
        || (next.capability.Write? && 0 < p.rampAfter <= Count(old(approvals.state).approvals, next.tool) + (if next.tool == call.tool then 1 else 0)))
  {
    first := approvals.Decide(p, call, now);
    var _, _ := approvals.Settle(first, call, Answer(true, false, Some(request)));
    second := approvals.Decide(p, next, later);
    if first.Ask? {
      var g := GrantFrom(Some(request), call).value;
      assert approvals.state.grants == old(approvals.state).grants + [g];
      assert g in approvals.state.grants;
      assert forall h :: h in approvals.state.grants <==> h in old(approvals.state).grants || h == g;
      assert g.Covers(next, later) <==> InTime(request, later);
      if InTime(request, later) {
        var grants := approvals.state.grants;
        var i :| 0 <= i < |grants| && IsNewestCovering(grants, i, next, later) && second.grant == Some(grants[i].id);
        assert grants[|grants| - 1] == g;
      }
    }
  }

  // ---- a conversation ----

  function Flatten(results: seq<seq<Record>>): seq<Record> {
    if results == [] then [] else results[0] + Flatten(results[1..])
  }

  lemma {:induction false} FlattenAdds(results: seq<seq<Record>>, i: nat, more: seq<Record>)
    requires i < |results|
    ensures multiset(Flatten(results[i := results[i] + more])) == multiset(Flatten(results)) + multiset(more)
  {
    var results' := results[i := results[i] + more];
    if i == 0 {
      assert results'[1..] == results[1..];
    } else {
      assert results'[1..] == results[1..][i - 1 := results[1..][i - 1] + more];
      FlattenAdds(results[1..], i - 1, more);
    }
  }

  lemma {:induction false} FlattenNothing(results: seq<seq<Record>>)
    requires forall i | 0 <= i < |results| :: results[i] == []
    ensures Flatten(results) == []
  {
    if results != [] {
      FlattenNothing(results[1..]);
    }
  }

  /** Nothing is carried when there is nothing, so a branch never holds an empty snapshot. */
  predicate CarriesSomething(records: seq<Record>) {
    forall r | r in records && r.Snapshot? :: !r.state.Empty()
  }

  predicate IsInert(r: Record) {
    r.AutoApproved? || r.AutoDenied?
  }

  lemma SomethingStays(s: State, r: Record)
    requires r.Snapshot? ==> !r.state.Empty()
    ensures IsInert(r) || !Applied(s, r).Empty()
  {
    if r.Approved? || r.Granted? {
      assert r.tool in Applied(s, r).approvals;
    } else if r.Denied? {
      assert r.tool in Applied(s, r).denials;
    }
  }

  /** A branch whose state is empty has only records that never change it. */
  lemma {:induction false} EmptyMeansInert(records: seq<Record>)
    requires CarriesSomething(records) && Fold(NOTHING, records).Empty()
    ensures forall r | r in records :: IsInert(r)
  {
    if records != [] {
      var n := |records| - 1;
      var s, r := Fold(NOTHING, records[..n]), records[n];
      assert records == records[..n] + [r];
      SomethingStays(s, r);
      EmptyMeansInert(records[..n]);
    }
  }

  lemma {:induction false} InertIsNothing(records: seq<Record>)
    requires forall r | r in records :: IsInert(r)
    ensures Fold(NOTHING, records) == NOTHING
  {
    if records != [] {
      assert IsInert(records[|records| - 1]);
      InertIsNothing(records[..|records| - 1]);
    }
  }

  /** One step of a turn whose calls are decided concurrently: call `i` gets its verdict, or its
      outcome is recorded. */
  datatype Event = Decides(i: nat, now: int) | Settles(i: nat, answer: Answer)

  /** The calls that wait for their outcome after some events. */
  ghost function Undecided(events: seq<Event>, n: nat): set<nat> {
    if events == [] then {} else
      var before, e := Undecided(events[..|events| - 1], n), events[|events| - 1];
      if e.i >= n then before else if e.Decides? then before + {e.i} else before - {e.i}
  }

  /** How many outcomes are recorded over some events: one for a call each time it was decided. */
  ghost function Settled(events: seq<Event>, n: nat): nat {
    if events == [] then 0 else
      var front, e := events[..|events| - 1], events[|events| - 1];
      Settled(front, n) + (if e.Settles? && e.i in Undecided(front, n) then 1 else 0)
  }

  /** Every person who is asked approves or refuses. */
  predicate AllAnswer(events: seq<Event>) {
    forall e | e in events && e.Settles? :: e.answer.ok || e.answer.denied
  }

  class Conversation {
    const policy: Policy
    const approvals: ApprovalState
    var branch: seq<Record>

    /** The live state is what the branch gives, up to the order of the grants. */
    ghost predicate Valid()
      reads this, approvals
    {
      Similar(Fold(NOTHING, branch), approvals.state) && CarriesSomething(branch)
    }

    /** A run rebuilds the state of its branch. */
    constructor (policy: Policy, branch: seq<Record>)
      requires CarriesSomething(branch)
      ensures Valid() && this.branch == branch && fresh(approvals)
    {
      this.policy, this.branch := policy, branch;
      approvals := new ApprovalState(branch);
    }

    /** The calls of a turn, decided and settled in any interleaving: their records by call, and in the
        order they were applied. */
    method RunCalls(calls: seq<Call>, events: seq<Event>) returns (results: seq<seq<Record>>, ghost applied: seq<Record>)
      modifies approvals
      ensures approvals.state == Fold(old(approvals.state), applied)
      ensures multiset(applied) == multiset(Flatten(results)) && NoSnapshots(applied)
      ensures forall t, limit | AtDenialLimit(old(approvals.state), t, limit) :: AtDenialLimit(approvals.state, t, limit)
      ensures |applied| <= Settled(events, |calls|) && (AllAnswer(events) ==> |applied| == Settled(events, |calls|))
    {
      hide Applied, Fold, Fits, Undecided, Settled, Flatten, GrantFrom;
      var verdicts: seq<Option<Verdict>> := seq(|calls|, i => None);
      results, applied := seq(|calls|, i => []), [];
      FlattenNothing(results);
      FoldNothing(approvals.state);
      NoEvents(events, |calls|);
      var i := 0;
      while i < |events|
        invariant i <= |events| && |verdicts| == |results| == |calls|
        invariant approvals.state == Fold(old(approvals.state), applied)
        invariant multiset(applied) == multiset(Flatten(results)) && NoSnapshots(applied)
        invariant forall t, limit | AtDenialLimit(old(approvals.state), t, limit) :: AtDenialLimit(approvals.state, t, limit)
        invariant forall k: nat :: k in Undecided(events[..i], |calls|) <==> k < |calls| && verdicts[k].Some?
        invariant |applied| <= Settled(events[..i], |calls|) && (AllAnswer(events) ==> |applied| == Settled(events[..i], |calls|))
      {
        var e := events[i];
        assert e in events;
        OneMoreEvent(events, i, |calls|);
        i := i + 1;
        if e.i >= |calls| {
          continue;
        }
        if e.Decides? {
          var v := approvals.Decide(policy, calls[e.i], e.now);
          verdicts := verdicts[e.i := Some(v)];
        } else if verdicts[e.i].Some? {
          var _, more := approvals.Settle(verdicts[e.i].value, calls[e.i], e.answer);
          verdicts := verdicts[e.i := None];
          FoldJoined(old(approvals.state), applied, more);
          FlattenAdds(results, e.i, more);
          applied := applied + more;
          results := results[e.i := results[e.i] + more];
        }
      }
      assert events[..i] == events;
    }

    /** A turn: its calls are decided and settled in any interleaving, and their records are written
        in the order the calls were requested. A failed write ends the run. */
    method RunTurn(calls: seq<Call>, events: seq<Event>, writes: bool) returns (records: seq<Record>)
      requires Valid()
      modifies this`branch, approvals
      ensures writes ==> Valid() && branch == old(branch) + records
      ensures !writes ==> branch == old(branch)
      ensures forall t, limit | AtDenialLimit(old(approvals.state), t, limit) :: AtDenialLimit(approvals.state, t, limit)
      ensures NoSnapshots(records) && Similar(Fold(old(approvals.state), records), approvals.state)
      ensures |records| <= Settled(events, |calls|) && (AllAnswer(events) ==> |records| == Settled(events, |calls|))
    {
      hide Similar, Applied, Fold, Fits, Settled, AllAnswer, Flatten;
      var results;
      ghost var applied;
      results, applied := RunCalls(calls, events);
      records := Flatten(results);
      assert |applied| == |multiset(applied)| && |records| == |multiset(records)|;
      assert forall r | r in records :: r in multiset(applied);
      AnyOrder(old(approvals.state), applied, records);
      SimilarSym(approvals.state, Fold(old(approvals.state), records));
      if writes {
        ghost var base := Fold(NOTHING, branch);
        FoldJoined(NOTHING, branch, records);
        FoldSimilar(base, old(approvals.state), records);
        SimilarTrans(Fold(base, records), Fold(old(approvals.state), records), approvals.state);
        branch := branch + records;
      }
    }

    lemma NoEvents(events: seq<Event>, n: nat)
      ensures Undecided(events[..0], n) == {} && Settled(events[..0], n) == 0
    {}

    lemma OneMoreEvent(events: seq<Event>, i: nat, n: nat)
      requires i < |events|
      ensures var before, e := Undecided(events[..i], n), events[i];
        && Undecided(events[..i + 1], n) == (if e.i >= n then before else if e.Decides? then before + {e.i} else before - {e.i})
        && Settled(events[..i + 1], n) == Settled(events[..i], n) + (if e.Settles? && e.i in before then 1 else 0)
    {
      assert events[..i + 1][..i] == events[..i];
    }

    lemma FoldNothing(s: State)
      ensures Fold(s, []) == s
    {}

    /** A compaction moves the run to a new branch, which may hold some of the old records, and writes
        the live state behind them, when there is any. Nothing is lost or counted twice, whatever was
        copied, unless a state was there, could not be written, and is not what the copied records give. */
    method Compact(copied: seq<Record>, writes: bool)
      requires Valid() && forall r | r in copied :: r in branch
      modifies this`branch
      ensures Valid() <==> writes || approvals.state.Empty() || Similar(Fold(NOTHING, copied), approvals.state)
      ensures branch == if writes && !approvals.state.Empty() then copied + [Snapshot(approvals.state)] else copied
    {
      if approvals.state.Empty() {
        EmptyMeansInert(branch);
        InertIsNothing(copied);
        branch := copied;
        return;
      }
      branch := copied;
      if writes {
        assert (copied + [Snapshot(approvals.state)])[..|copied|] == copied;
        branch := copied + [Snapshot(approvals.state)];
      }
    }
  }

  /** How a state is lost: any record that changes something, and a compaction that copies nothing and
      cannot write its snapshot. */
  method SnapshotLost(policy: Policy, r: Record) returns (c: Conversation)
    requires !IsInert(r) && !r.Snapshot?
    ensures fresh(c) && c.branch == [] && !c.approvals.state.Empty() && !c.Valid()
  {
    c := new Conversation(policy, [r]);
    assert [r][..0] == [];
    SomethingStays(NOTHING, r);
    c.Compact([], false);
  }
}
