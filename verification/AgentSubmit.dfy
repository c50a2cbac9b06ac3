/** Submitting a message to a branch (agent/submit.go): it starts a run when nobody holds the branch,
    and joins the run that does otherwise, however runs start and end meanwhile. */
module AgentSubmit {
  import opened RunGuard

  type Msg = nat

  /** What other goroutines do between two steps: start a run with a message, move a run to a further
      branch, close a run's inbox, end it, hold or free a tree, or post to a run. */
  datatype Event =
    | Starts(tree: Tree, branch: Branch, inline: bool, msg: Msg)
    | Extends(claim: nat, branch: Branch)
    | ClosesInbox(stream: StreamId)
    | Ends(claim: nat)
    | HoldsTree(tree: Tree)
    | FreesTree(claim: nat)
    | Posts(stream: StreamId, msg: Msg)

  datatype SubmitError = RunActive | Canceled | OtherError

  /** `Waiting` means that the script ended while the submission waits for a run to be released. */
  datatype Outcome = Handed(stream: StreamId) | Refused(error: SubmitError) | Waiting

  /** One round of the retry loop, with what happens before each of its steps. */
  datatype Round = Round(startFails: bool, beforeLookup: seq<Event>, beforePost: seq<Event>, beforeWait: seq<Event>, canceled: bool)

  /** What a submission can see: the messages of each run, the closed inboxes, and the claims. */
  datatype State = State(inputs: map<StreamId, seq<Msg>>, closed: set<StreamId>, claims: seq<Claim>, held: Held, trees: set<Tree>, owners: Owners, released: set<StreamId>) {
    /** Neither the tree nor the branch is taken. */
    predicate Free(t: Tree, b: Branch) {
      t !in trees && !IsHeld(held, t, b)
    }

    /** Taken, by a run with inbox `s`, or without one. */
    predicate Taken(t: Tree, b: Branch, s: Option<StreamId>) {
      if t in trees then s == None else (t, b) in owners && owners[(t, b)] < |claims| && claims[owners[(t, b)]].stream == s
    }

    predicate Open(s: StreamId) {
      s in inputs && s !in closed
    }
  }

  /** Nothing happens between the steps of a round. */
  predicate Undisturbed(r: Round) {
    r.beforeLookup == r.beforePost == r.beforeWait == []
  }

  /** What a round decides. A free branch gets a run of its own. When nothing else happens meanwhile,
      the run that holds the branch gets the message if it takes messages, a branch held otherwise is
      refused, and only a run that is released just then sends the submission into another round. */
  ghost predicate Decides(now: State, t: Tree, b: Branch, round: Round, r: Option<Outcome>) {
    && (round.startFails ==> r == Some(Refused(OtherError)))
    && (!round.startFails && now.Free(t, b) ==> r.Some? && r.value.Handed? && r.value.stream !in now.inputs)
    && (!round.startFails && Undisturbed(round) && !now.Free(t, b) ==>
      && (now.Taken(t, b, None) ==> r == Some(Refused(SubmitError.RunActive)))
      && (forall s | now.Taken(t, b, Some(s)) ::
        r == if now.Open(s) then Some(Handed(s)) else if s in now.released then None else if round.canceled then Some(Refused(Canceled)) else Some(Waiting)))
  }

  predicate Silent(events: seq<Event>, m: Msg) {
    forall e | e in events :: (e.Starts? || e.Posts?) ==> e.msg != m
  }

  predicate AllSilent(rounds: seq<Round>, m: Msg) {
    forall r | r in rounds :: Silent(r.beforeLookup, m) && Silent(r.beforePost, m) && Silent(r.beforeWait, m)
  }

  /** Every run has its own stream, whose inbox closes before the run's claim is released. */
  ghost predicate ClaimsFit(claims: seq<Claim>, closed: set<StreamId>, next: nat) {
    && (forall c | 0 <= c < |claims| && claims[c].stream.Some? :: claims[c].stream.value < next)
    && (forall c, d | 0 <= c < d < |claims| && claims[c].stream.Some? :: claims[c].stream != claims[d].stream)
    && (forall c | 0 <= c < |claims| && claims[c].done && claims[c].stream.Some? :: claims[c].stream.value in closed)
  }

  lemma FitNew(claims: seq<Claim>, closed: set<StreamId>, next: nat, claim: Claim)
    requires ClaimsFit(claims, closed, next) && !claim.done && (claim.stream.Some? ==> claim.stream.value == next)
    ensures ClaimsFit(claims, closed, next + 1) && ClaimsFit(claims + [claim], closed, next + 1)
  {}

  lemma FitChanged(claims: seq<Claim>, closed: set<StreamId>, next: nat, c: nat, claim: Claim)
    requires ClaimsFit(claims, closed, next) && c < |claims| && claim.stream == claims[c].stream
    requires claim.done && claim.stream.Some? ==> claim.stream.value in closed
    ensures ClaimsFit(claims[c := claim], closed, next)
  {}

  lemma FitClosed(claims: seq<Claim>, closed: set<StreamId>, next: nat, s: StreamId)
    requires ClaimsFit(claims, closed, next)
    ensures ClaimsFit(claims, closed + {s}, next)
  {}

  class Host {
    const guard: Guard
    /** The messages of each run: its input, then those its inbox accepted. */
    var inputs: map<StreamId, seq<Msg>>
    var closed: set<StreamId>
    var nextStream: nat

    ghost predicate Valid()
      reads this, guard
    {
      && guard.Valid()
      && ClaimsFit(guard.claims, closed, nextStream)
      && (forall s | s in inputs :: s < nextStream)
    }

    /** Nobody has the message. */
    ghost predicate Nowhere(m: Msg)
      reads this
    {
      forall s | s in inputs :: m !in inputs[s]
    }

    /** Run `s` has the message, once, and nobody else has it. */
    ghost predicate OnlyAt(m: Msg, s: StreamId)
      reads this
    {
      s in inputs && multiset(inputs[s])[m] == 1 && forall s' | s' in inputs && s' != s :: m !in inputs[s']
    }

    /** A live run holds the branch, and it is run `s`, or one that just started without an inbox. */
    ghost predicate HoldsNow(t: Tree, b: Branch, s: StreamId, inline: bool)
      reads this, guard
    {
      exists c :: 0 <= c < |guard.claims| && !guard.claims[c].done && guard.claims[c].tree == t && b in guard.claims[c].branches
        && (guard.claims[c].stream == Some(s) || (!inline && guard.claims[c].stream.None?))
    }

    constructor ()
      ensures Valid() && fresh(guard) && inputs == map[]
    {
      guard := new Guard();
      inputs, closed, nextStream := map[], {}, 0;
    }

    /** Starts a run on a branch with `msg` as its input. Only an inline run takes messages. */
    method Start(t: Tree, b: Branch, inline: bool, msg: Msg) returns (s: Option<StreamId>)
      requires Valid()
      modifies this, guard
      ensures Valid() && closed == old(closed)
      ensures s.Some? <==> t !in old(guard.trees) && !IsHeld(old(guard.held), t, b)
      ensures s.Some? ==> s.value !in old(inputs) && inputs == old(inputs)[s.value := [msg]]
      ensures guard.claims == if s.Some? then old(guard.claims) + [Claim(t, if inline then s else None, [b], false)] else old(guard.claims)
      ensures s.None? ==> inputs == old(inputs) && Now() == old(Now())
    {
      hide ClaimsFit, Guard.Valid, WithBranch;
      var id := nextStream;
      FitNew(guard.claims, closed, id, Claim(t, if inline then Some(id) else None, [b], false));
      nextStream := nextStream + 1;
      var r := guard.NewClaim(t, b, if inline then Some(id) else None);
      if r.RunActive? {
        return None;
      }
      inputs := inputs[id := [msg]];
      s := Some(id);
    }

    /** Posts to the inbox of a run, which refuses it once closed. */
    method Post(s: StreamId, msg: Msg) returns (ok: bool)
      requires Valid()
      modifies this`inputs
      ensures Valid() && ok == (s in old(inputs) && s !in closed)
      ensures inputs == if ok then old(inputs)[s := old(inputs)[s] + [msg]] else old(inputs)
    {
      ok := s in inputs && s !in closed;
      if ok {
        inputs := inputs[s := inputs[s] + [msg]];
      }
    }

    /** What another goroutine does; a step that its order of work excludes is skipped. */
    method Step(e: Event)
      requires Valid()
      modifies this, guard
      ensures Valid()
      ensures forall m | old(Nowhere(m)) && Silent([e], m) :: Nowhere(m)
      ensures old(inputs).Keys <= inputs.Keys && old(closed) <= closed
      ensures forall c | 0 <= c < |old(guard.claims)| :: StillThere(old(guard.claims)[c], guard.claims, c)
      ensures e.Starts? && e.tree !in old(guard.trees) && !IsHeld(old(guard.held), e.tree, e.branch) ==> |guard.claims| == |old(guard.claims)| + 1
      ensures e.Extends? && e.claim < |old(guard.claims)| && !old(guard.claims)[e.claim].done && !IsHeld(old(guard.held), old(guard.claims)[e.claim].tree, e.branch) ==>
        e.claim < |guard.claims| && e.branch in guard.claims[e.claim].branches
      ensures e.ClosesInbox? ==> e.stream in closed
      ensures e.Ends? && e.claim < |old(guard.claims)| && (old(guard.claims)[e.claim].stream.None? || old(guard.claims)[e.claim].stream.value in closed) ==>
        guard.claims == old(guard.claims)[e.claim := old(guard.claims)[e.claim].(done := true)]
      ensures e.Posts? && e.stream in old(inputs) && e.stream !in closed ==> inputs == old(inputs)[e.stream := old(inputs)[e.stream] + [e.msg]]
      ensures e.HoldsTree? && e.tree !in old(guard.trees) && e.tree !in old(guard.held) ==> guard.trees == old(guard.trees) + {e.tree}
      ensures e.FreesTree? && e.claim < |old(guard.treeClaims)| ==> guard.treeClaims == old(guard.treeClaims)[e.claim := old(guard.treeClaims)[e.claim].(done := true)]
    {
      hide ClaimsFit, Guard.Valid, WithBranch, Freed, Elements;
      match e
      case Starts(t, b, inline, msg) =>
        var _ := Start(t, b, inline, msg);
      case Extends(c, b) =>
        if c < |guard.claims| && !guard.claims[c].done {
          FitChanged(guard.claims, closed, nextStream, c, guard.claims[c].(branches := guard.claims[c].branches + [b]));
          var _ := guard.Add(c, b);
        }
      case ClosesInbox(s) =>
        FitClosed(guard.claims, closed, nextStream, s);
        closed := closed + {s};
      case Ends(c) =>
        if c < |guard.claims| && (guard.claims[c].stream.None? || guard.claims[c].stream.value in closed) {
          FitChanged(guard.claims, closed, nextStream, c, guard.claims[c].(done := true));
          guard.Release(c);
        }
      case HoldsTree(t) =>
        var _ := guard.ClaimTree(t);
      case FreesTree(k) =>
        if k < |guard.treeClaims| {
          guard.ReleaseTree(k);
        }
      case Posts(s, msg) =>
        var _ := Post(s, msg);
    }

    /** A run with an open inbox still has its claim. */
    lemma OpenIsLive(c: nat)
      requires Valid() && c < |guard.claims| && guard.claims[c].stream.Some? && guard.claims[c].stream.value !in closed
      ensures !guard.claims[c].done
    {}

    /** The state a round starts with. */
    ghost function Now(): State
      reads this, guard
    {
      State(inputs, closed, guard.claims, guard.held, guard.trees, guard.owners, guard.released)
    }

    /** What other goroutines do between two steps of a submission. */
    method Interfere(events: seq<Event>)
      requires Valid()
      modifies this, guard
      ensures Valid() && (events == [] ==> Now() == old(Now()))
      ensures forall e | e in events && e.ClosesInbox? :: e.stream in closed
      ensures forall m | old(Nowhere(m)) && Silent(events, m) :: Nowhere(m)
      ensures old(inputs).Keys <= inputs.Keys && old(closed) <= closed
      ensures forall c | 0 <= c < |old(guard.claims)| :: StillThere(old(guard.claims)[c], guard.claims, c)
    {
      hide ClaimsFit, Guard.Valid;
      var i := 0;
      while i < |events|
        invariant i <= |events| && Valid() && (i == 0 ==> Now() == old(Now()))
        invariant forall j | 0 <= j < i && events[j].ClosesInbox? :: events[j].stream in closed
        invariant forall m | old(Nowhere(m)) && Silent(events, m) :: Nowhere(m)
        invariant old(inputs).Keys <= inputs.Keys && old(closed) <= closed
        invariant forall c | 0 <= c < |old(guard.claims)| :: StillThere(old(guard.claims)[c], guard.claims, c)
      {
        assert events[i] in events;
        ghost var before := guard.claims;
        Step(events[i]);
        i := i + 1;
      }
    }

    /** One round of the retry loop: an outcome, or another round. */
    method TryOnce(t: Tree, b: Branch, m: Msg, inline: bool, round: Round) returns (r: Option<Outcome>)
      requires Valid() && Nowhere(m)
      requires Silent(round.beforeLookup, m) && Silent(round.beforePost, m) && Silent(round.beforeWait, m)
      modifies this, guard
      ensures Valid() && Decides(old(Now()), t, b, round, r)
      ensures r.Some? && r.value.Handed? && r.value.stream in old(inputs) ==> ClosesInbox(r.value.stream) !in round.beforeLookup + round.beforePost
      ensures if r.Some? && r.value.Handed? then OnlyAt(m, r.value.stream) && HoldsNow(t, b, r.value.stream, inline) else Nowhere(m)
      ensures r == Some(Refused(OtherError)) ==> round.startFails
      ensures r == Some(Refused(Canceled)) ==> round.canceled
      ensures r == Some(Refused(SubmitError.RunActive)) ==> Now().Taken(t, b, None)
    {
      hide ClaimsFit, Guard.Valid, WithBranch;
      if round.startFails {
        return Some(Refused(OtherError));
      }
      var started := Start(t, b, inline, m);
      if started.Some? {
        assert guard.claims[|guard.claims| - 1] == Claim(t, if inline then started else None, [b], false);
        return Some(Handed(started.value));
      }
      Interfere(round.beforeLookup);
      var active, isHeld := guard.Holder(t, b);
      if !isHeld {
        return None;
      }
      if active.None? {
        return Some(Refused(SubmitError.RunActive));
      }
      r := PassOn(t, b, m, inline, active.value, round);
    }

    /** Hands the message to the run found to hold the branch, unless its inbox has closed. */
    method PassOn(t: Tree, b: Branch, m: Msg, inline: bool, s: StreamId, round: Round) returns (r: Option<Outcome>)
      requires Valid() && Nowhere(m) && Now().Taken(t, b, Some(s))
      requires t !in guard.trees && b in guard.claims[guard.owners[(t, b)]].branches && guard.claims[guard.owners[(t, b)]].tree == t
      requires Silent(round.beforePost, m) && Silent(round.beforeWait, m)
      modifies this, guard
      ensures Valid() && (r.Some? ==> r.value in {Handed(s), Refused(Canceled), Waiting})
      ensures r == Some(Handed(s)) ==> OnlyAt(m, s) && HoldsNow(t, b, s, inline) && s !in old(closed) && ClosesInbox(s) !in round.beforePost
      ensures r != Some(Handed(s)) ==> Nowhere(m)
      ensures r == Some(Refused(Canceled)) ==> round.canceled
      ensures round.beforePost == [] && old(Now()).Open(s) ==> r == Some(Handed(s))
      ensures round.beforePost == round.beforeWait == [] && !old(Now()).Open(s) ==>
        r == if s in old(guard.released) then None else if round.canceled then Some(Refused(Canceled)) else Some(Waiting)
    {
      hide ClaimsFit, Guard.Valid, WithBranch;
      ghost var c := guard.owners[(t, b)];
      ghost var claim := guard.claims[c];
      Interfere(round.beforePost);
      var ok := Post(s, m);
      if ok {
        OpenIsLive(c);
        assert b in claim.branches && StillThere(claim, guard.claims, c);
        return Some(Handed(s));
      }
      Interfere(round.beforeWait);
      if s in guard.released {
        return None;
      }
      r := Some(if round.canceled then Refused(Canceled) else Waiting);
    }

    /** Hands a message to the run that holds the branch, or starts one. Every round sees the runs as
        other goroutines leave them. */
    method Submit(t: Tree, b: Branch, m: Msg, inline: bool, rounds: seq<Round>) returns (r: Outcome)
      requires Valid() && Nowhere(m) && AllSilent(rounds, m)
      modifies this, guard
      ensures Valid()
      ensures r.Handed? ==> OnlyAt(m, r.stream)
      ensures !r.Handed? ==> Nowhere(m)
      ensures r.Handed? ==> HoldsNow(t, b, r.stream, inline)
      ensures rounds != [] ==> Decides(old(Now()), t, b, rounds[0], Some(r)) || Decides(old(Now()), t, b, rounds[0], None)
      ensures r == Refused(OtherError) ==> exists round :: round in rounds && round.startFails
      ensures r == Refused(Canceled) ==> exists round :: round in rounds && round.canceled
      ensures r == Refused(SubmitError.RunActive) ==> Now().Taken(t, b, None)
    {
      hide Decides, Host.Valid;
      var i := 0;
      while i < |rounds|
        invariant i <= |rounds| && Valid() && Nowhere(m)
        invariant if i == 0 then Now() == old(Now()) else Decides(old(Now()), t, b, rounds[0], None)
      {
        assert rounds[i] in rounds;
        var answer := TryOnce(t, b, m, inline, rounds[i]);
        if answer.Some? {
          return answer.value;
        }
        i := i + 1;
      }
      r := Waiting;
    }
  }

  /** A claim keeps its tree, stream and branches, and may get more. */
  predicate StillThere(claim: Claim, claims: seq<Claim>, c: nat) {
    c < |claims| && claims[c].tree == claim.tree && claims[c].stream == claim.stream && claim.branches <= claims[c].branches
  }
}
