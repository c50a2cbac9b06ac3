/** The stop request of one run (agent/stop.go). Clients request a stop from any goroutine, and the run
    arms, seals and answers it, each step under one lock. */
module Stop {

  datatype Option<T> = None | Some(value: T)

  datatype Request = Request(reason: string, by_: string)

  datatype StopResult = Accepted | Unsupported | RunFinished

  const DEFAULT_REASON: string := "Stopped on request"

  /** White space as Unicode has it. */
  predicate IsSpace(c: char) {
    var x := c as int;
    9 <= x <= 13 || x == 32 || x == 0x85 || x == 0xA0 || x == 0x1680 || 0x2000 <= x <= 0x200A || x == 0x2028 || x == 0x2029 || x == 0x202F || x == 0x205F || x == 0x3000
  }

  function TrimLeft(s: string): string {
    if s != "" && IsSpace(s[0]) then TrimLeft(s[1..]) else s
  }

  function TrimRight(s: string): string {
    if s != "" && IsSpace(s[|s| - 1]) then TrimRight(s[..|s| - 1]) else s
  }

  /** A request's reason is trimmed, and a request without one gets the default. */
  function WithReason(req: Request): Request {
    var reason := TrimRight(TrimLeft(req.reason));
    req.(reason := if reason == "" then DEFAULT_REASON else reason)
  }

  predicate Blank(s: string) {
    forall c | c in s :: IsSpace(c)
  }

  /** `t` is `s` without the white space around it. */
  ghost predicate Trims(s: string, t: string) {
    && (t != "" ==> !IsSpace(t[0]) && !IsSpace(t[|t| - 1]))
    && exists i: nat, j: nat :: i <= j <= |s| && Blank(s[..i]) && s[i..j] == t && Blank(s[j..])
  }

  lemma {:induction false} TrimLeftSkips(s: string)
    ensures var t := TrimLeft(s); t != "" ==> !IsSpace(t[0])
    ensures var t := TrimLeft(s); |t| <= |s| && s[|s| - |t|..] == t && Blank(s[..|s| - |t|])
  {
    if s != "" && IsSpace(s[0]) {
      TrimLeftSkips(s[1..]);
      var t := TrimLeft(s[1..]);
      assert s[..|s| - |t|] == [s[0]] + s[1..][..|s| - 1 - |t|];
    }
  }

  lemma {:induction false} TrimRightSkips(s: string)
    ensures var t := TrimRight(s); t != "" ==> !IsSpace(t[|t| - 1])
    ensures var t := TrimRight(s); t <= s && Blank(s[|t|..])
  {
    if s != "" && IsSpace(s[|s| - 1]) {
      TrimRightSkips(s[..|s| - 1]);
      var t := TrimRight(s[..|s| - 1]);
      assert s[|t|..] == s[..|s| - 1][|t|..] + [s[|s| - 1]];
    }
  }

  lemma TrimBoth(s: string)
    ensures Trims(s, TrimRight(TrimLeft(s)))
  {
    hide IsSpace;
    TrimLeftSkips(s);
    var left := TrimLeft(s);
    TrimRightSkips(left);
    var t := TrimRight(left);
    var i := |s| - |left|;
    var j := i + |t|;
    assert s[i..j] == t && s[j..] == left[|t|..];
  }

  /** What is kept of a request: who asked, and the reason without white space around it, or the
      default reason when it has no other text. */
  ghost predicate Keeps(request: Request, kept: Request) {
    && kept.by_ == request.by_
    && if Blank(request.reason) then kept.reason == "Stopped on request" else kept.reason != "" && Trims(request.reason, kept.reason)
  }

  lemma ReasonIsKept(request: Request)
    ensures Keeps(request, WithReason(request))
  {
    var s := request.reason;
    TrimBoth(s);
    hide TrimLeft, TrimRight, IsSpace;
    var t := TrimRight(TrimLeft(s));
    var i: nat, j: nat :| i <= j <= |s| && Blank(s[..i]) && s[i..j] == t && Blank(s[j..]);
    assert s == s[..i] + t + s[j..];
    assert t != "" ==> s[i] == t[0];
  }

  class StopState {
    const supported: bool
    var req: Option<Request>
    var armed: bool
    var sealed: bool
    var stopped: bool
    /** How often the run's work was cancelled for a stop. */
    var cancels: nat
    /** The requests that were accepted, in order. */
    ghost var accepted: seq<Request>

    /** The work is cancelled once, as soon as there is a request and the run's input is on the branch;
        the first accepted request is the one kept. */
    ghost predicate Valid()
      reads this
    {
      && cancels == (if req.Some? && armed then 1 else 0)
      && req == (if accepted == [] then None else Some(WithReason(accepted[0])))
      && (!supported ==> req.None? && !armed)
      && (stopped ==> req.Some? && armed)
    }

    constructor (supported: bool)
      ensures Valid() && this.supported == supported && accepted == [] && !armed && !sealed && !stopped
    {
      this.supported, req, armed, sealed, stopped, cancels, accepted := supported, None, false, false, false, 0, [];
    }

    /** Asks for a stop. The first request wins, a later one changes nothing, and a run that has ended
        without one refuses. */
    method RequestStop(request: Request) returns (r: StopResult)
      requires Valid()
      modifies this`req, this`cancels, this`accepted
      ensures Valid()
      ensures r == if !supported then Unsupported else if old(accepted) == [] && sealed then RunFinished else Accepted
      ensures accepted == if r.Accepted? then old(accepted) + [request] else old(accepted)
      ensures cancels == old(cancels) + (if r.Accepted? && old(accepted) == [] && armed then 1 else 0)
    {
      if !supported {
        return Unsupported;
      }
      if req.Some? {
        accepted := accepted + [request];
        return Accepted;
      }
      if sealed {
        return RunFinished;
      }
      req, accepted := Some(WithReason(request)), accepted + [request];
      if armed {
        cancels := cancels + 1;
      }
      return Accepted;
    }

    /** Lets a request take effect from now on; one made before acts at once. */
    method Arm()
      requires Valid()
      modifies this`armed, this`cancels
      ensures Valid() && armed == supported && cancels == old(cancels) + (if supported && !old(armed) && accepted != [] then 1 else 0)
    {
      if !supported || armed {
        return;
      }
      armed := true;
      if req.Some? {
        cancels := cancels + 1;
      }
    }

    method Seal()
      requires Valid()
      modifies this`sealed
      ensures Valid() && sealed
    {
      sealed := true;
    }

    /** The request the run is being stopped for, once it has taken effect. */
    method Stopping() returns (request: Option<Request>)
      requires Valid()
      ensures request.Some? <==> cancels == 1
      ensures request.Some? ==> accepted != [] && request.value == WithReason(accepted[0]) && Keeps(accepted[0], request.value)
    {
      if accepted != [] {
        ReasonIsKept(accepted[0]);
      }
      request := if req.None? || !armed then None else req;
    }

    /** The run ended by wrapping up for the request it was stopped for. */
    method MarkStopped(request: Request)
      requires Valid() && armed && req == Some(request)
      modifies this`req, this`stopped
      ensures Valid() && stopped
    {
      req, stopped := Some(request), true;
    }

    /** What a client is told: a request is reported only when the run was cancelled for it, once, and
        then it is the first one that was accepted. */
    method Stopped() returns (request: Option<Request>)
      requires Valid()
      ensures request.Some? <==> stopped
      ensures request.Some? ==> cancels == 1 && accepted != [] && request.value == WithReason(accepted[0]) && Keeps(accepted[0], request.value)
    {
      if accepted != [] {
        ReasonIsKept(accepted[0]);
      }
      request := if !stopped || req.None? then None else req;
    }
  }

  datatype Event = Requests(request: Request) | Arms | Seals | WrapsUp

  /** Some request came before the run was sealed. */
  ghost predicate Heard(events: seq<Event>) {
    exists i :: 0 <= i < |events| && events[i].Requests? && Seals !in events[..i]
  }

  lemma HeardMore(events: seq<Event>, e: Event)
    ensures Heard(events + [e]) <==> Heard(events) || (e.Requests? && Seals !in events)
  {
    var more := events + [e];
    forall i | 0 <= i <= |events|
      ensures more[..i] == events[..i]
    {
    }
    assert events[..|events|] == events;
    if Heard(events) {
      var i :| 0 <= i < |events| && events[i].Requests? && Seals !in events[..i];
      assert more[i].Requests? && Seals !in more[..i];
    }
    if e.Requests? && Seals !in events {
      assert more[|events|].Requests? && Seals !in more[..|events|];
    }
  }

  /** The run wrapped up for a request it had heard and was armed for. */
  ghost predicate Wrapped(events: seq<Event>) {
    exists i :: 0 <= i < |events| && events[i].WrapsUp? && Arms in events[..i] && Heard(events[..i])
  }

  lemma WrappedMore(events: seq<Event>, e: Event)
    ensures Wrapped(events + [e]) <==> Wrapped(events) || (e.WrapsUp? && Arms in events && Heard(events))
  {
    hide Heard;
    var more := events + [e];
    forall i | 0 <= i <= |events|
      ensures more[..i] == events[..i]
    {
    }
    assert events[..|events|] == events;
    if Wrapped(events) {
      var i :| 0 <= i < |events| && events[i].WrapsUp? && Arms in events[..i] && Heard(events[..i]);
      assert more[i].WrapsUp? && Arms in more[..i] && Heard(more[..i]);
    }
    if e.WrapsUp? && Arms in events && Heard(events) {
      assert more[|events|].WrapsUp? && Arms in more[..|events|] && Heard(more[..|events|]);
    }
  }

  method Step(st: StopState, e: Event)
    requires st.Valid()
    modifies st
    ensures st.Valid()
    ensures st.armed <==> old(st.armed) || (e.Arms? && st.supported)
    ensures st.sealed <==> old(st.sealed) || e.Seals?
    ensures st.stopped <==> old(st.stopped) || (e.WrapsUp? && old(st.armed) && old(st.accepted) != [])
    ensures st.accepted == if e.Requests? && st.supported && (old(st.accepted) != [] || !old(st.sealed)) then old(st.accepted) + [e.request] else old(st.accepted)
  {
    hide WithReason, Keeps;
    match e {
      case Requests(request) =>
        var _ := st.RequestStop(request);
      case Arms => st.Arm();
      case Seals => st.Seal();
      case WrapsUp =>
        var req := st.Stopping();
        if req.Some? {
          st.MarkStopped(req.value);
        }
    }
  }

  /** Over every interleaving of clients and run: requests are accepted exactly when the first came
      before the run was sealed; the work is cancelled once, exactly when one was accepted and the run
      armed; and a stop is reported exactly when the run wrapped up for it, for the first request. */
  method Replay(supported: bool, events: seq<Event>) returns (st: StopState, reported: Option<Request>)
    ensures fresh(st) && st.Valid() && st.cancels <= 1
    ensures st.accepted != [] <==> supported && Heard(events)
    ensures st.cancels == 1 <==> supported && Heard(events) && Arms in events
    ensures reported.Some? <==> supported && Wrapped(events)
    ensures reported.Some? ==> st.cancels == 1 && st.accepted != [] && Keeps(st.accepted[0], reported.value)
  {
    hide WithReason, Keeps, Heard, Wrapped;
    st := new StopState(supported);
    var i := 0;
    NothingYet();
    while i < |events|
      invariant i <= |events| && fresh(st) && st.Valid() && st.supported == supported
      invariant st.armed <==> supported && Arms in events[..i]
      invariant st.sealed <==> Seals in events[..i]
      invariant st.accepted != [] <==> supported && Heard(events[..i])
      invariant st.stopped <==> supported && Wrapped(events[..i])
    {
      HeardMore(events[..i], events[i]);
      WrappedMore(events[..i], events[i]);
      assert events[..i + 1] == events[..i] + [events[i]];
      Step(st, events[i]);
      i := i + 1;
    }
    assert events[..i] == events;
    reported := st.Stopped();
  }

  lemma NothingYet()
    ensures !Heard([]) && !Wrapped([])
  {}
}
