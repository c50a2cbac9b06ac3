/** The inbox of one run (agent/submit.go): clients submit messages from any goroutine while the
    run takes them at safe points, appends them to the branch and acknowledges them. Every method
    is one step under the inbox's lock or of the run's own goroutine, so a sequence of method
    calls is an interleaving. */
module Inbox {

  datatype Mode = Queue | Steer | InterruptReplace | Side

  datatype Part = Text | Media | ToolResult

  type SubId = nat

  datatype Submission = Submission(id: SubId, mode: Mode)

  datatype Delta = Queued(id: SubId) | Injected(id: SubId)

  datatype Option<T> = None | Some(value: T)

  datatype SubmitError = InvalidSubmission | Unsupported | RunFinished

  datatype Result = Ok(id: SubId) | Err(error: SubmitError)

  /** Where the run is between two safe points: `Taken` holds a batch, `Flushing` sends the
      acknowledgements it found waiting, `Injecting` appends the batch. */
  datatype Phase = Idle | Taken | Flushing | Injecting

  function Ids(subs: seq<Submission>): (ids: seq<SubId>)
    ensures |ids| == |subs| && forall i | 0 <= i < |subs| :: ids[i] == subs[i].id
  {
    seq(|subs|, i requires 0 <= i < |subs| => subs[i].id)
  }

  function QueuedIds(deltas: seq<Delta>): seq<SubId> {
    if deltas == [] then [] else
      var n := |deltas| - 1;
      QueuedIds(deltas[..n]) + (if deltas[n].Queued? then [deltas[n].id] else [])
  }

  function InjectedIds(deltas: seq<Delta>): seq<SubId> {
    if deltas == [] then [] else
      var n := |deltas| - 1;
      InjectedIds(deltas[..n]) + (if deltas[n].Injected? then [deltas[n].id] else [])
  }

  lemma OneMore(deltas: seq<Delta>, d: Delta)
    ensures QueuedIds(deltas + [d]) == if d.Queued? then QueuedIds(deltas) + [d.id] else QueuedIds(deltas)
    ensures InjectedIds(deltas + [d]) == if d.Injected? then InjectedIds(deltas) + [d.id] else InjectedIds(deltas)
  {
    assert (deltas + [d])[..|deltas|] == deltas;
  }

  lemma {:induction false} QueuedIsSent(deltas: seq<Delta>, id: SubId)
    ensures id in QueuedIds(deltas) <==> Queued(id) in deltas
  {
    if deltas != [] {
      var n := |deltas| - 1;
      QueuedIsSent(deltas[..n], id);
      assert deltas == deltas[..n] + [deltas[n]];
    }
  }

  /** Submissions that may be out of submission order: a queued one waits for the run to finish,
      and those that steer or interrupt pass it. */
  ghost predicate InLine(line: seq<Submission>) {
    forall i, j | 0 <= i < j < |line| :: line[i].id < line[j].id || (line[j].mode == Queue && line[i].mode != Queue)
  }

  /** The acknowledgement of a submission comes before the report that it was appended. */
  ghost predicate AcknowledgedFirst(deltas: seq<Delta>) {
    forall j | 0 <= j < |deltas| && deltas[j].Injected? :: Queued(deltas[j].id) in deltas[..j]
  }

  // ---- a safe point takes steering and interrupting messages ----

  function Waiting(pending: seq<Submission>): (kept: seq<Submission>)
    ensures |kept| <= |pending| && forall s :: s in kept <==> s in pending && s.mode == Queue
  {
    if pending == [] then [] else
      var n := |pending| - 1;
      Waiting(pending[..n]) + (if pending[n].mode == Queue then [pending[n]] else [])
  }

  function Joining(pending: seq<Submission>): (taken: seq<Submission>)
    ensures |taken| <= |pending| && forall s :: s in taken <==> s in pending && s.mode != Queue
  {
    if pending == [] then [] else
      var n := |pending| - 1;
      Joining(pending[..n]) + (if pending[n].mode != Queue then [pending[n]] else [])
  }

  lemma {:induction false} SplitLosesNone(pending: seq<Submission>)
    ensures multiset(Joining(pending)) + multiset(Waiting(pending)) == multiset(pending)
  {
    if pending != [] {
      var n := |pending| - 1;
      assert pending == pending[..n] + [pending[n]];
      SplitLosesNone(pending[..n]);
    }
  }

  lemma Regroup<T>(a: seq<T>, b: seq<T>, w: seq<T>, s: T)
    ensures a + (b + [s]) + w == (a + b) + [s] + w
    ensures a + b + (w + [s]) == (a + b + w) + [s] + [] && (a + b + w) + [] == a + b + w
    ensures a + (b + [s]) == (a + b) + [s]
  {}

  lemma SplitMembers(before: seq<Submission>, pending: seq<Submission>)
    ensures forall x | x in before + Joining(pending) + Waiting(pending) :: x in before + pending
    ensures forall x | x in before + Joining(pending) :: x in before + pending
  {}

  /** Moving the messages that join now in front of those that wait keeps the line in order. */
  lemma {:induction false} SplitStep(before: seq<Submission>, rest: seq<Submission>, s: Submission)
    requires InLine(before + (rest + [s]))
    ensures InLine(before + Joining(rest + [s]) + Waiting(rest + [s]))
  {
    hide InLine;
    var pending := rest + [s];
    assert pending[..|rest|] == rest;
    Regroup(before, rest, [], s);
    LastInLine(before + rest, s);
    if rest == [] {
      assert before + Joining(rest) + Waiting(rest) == before + rest;
    } else {
      var n := |rest| - 1;
      assert rest == rest[..n] + [rest[n]];
      SplitStep(before, rest[..n], rest[n]);
    }
    var j, w := Joining(rest), Waiting(rest);
    SplitMembers(before, rest);
    Regroup(before, j, w, s);
    if s.mode == Queue {
      assert Joining(pending) == j && Waiting(pending) == w + [s];
      InsertInLine(before + j + w, s, []);
    } else {
      assert Joining(pending) == j + [s] && Waiting(pending) == w;
      InsertInLine(before + j, s, w);
    }
  }

  lemma LastInLine(front: seq<Submission>, s: Submission)
    requires InLine(front + [s])
    ensures InLine(front)
    ensures forall x | x in front :: x.id < s.id || (s.mode == Queue && x.mode != Queue)
  {
    PrefixInLine(front, [s]);
    forall x | x in front
      ensures x.id < s.id || (s.mode == Queue && x.mode != Queue)
    {
      var k :| 0 <= k < |front| && front[k] == x;
      assert (front + [s])[k] == x && (front + [s])[|front|] == s;
    }
  }

  lemma PrefixInLine(a: seq<Submission>, b: seq<Submission>)
    requires InLine(a + b)
    ensures InLine(a)
  {
    assert forall i | 0 <= i < |a| :: (a + b)[i] == a[i];
  }

  /** A message can be put anywhere behind those it may not pass. */
  lemma InsertInLine(a: seq<Submission>, s: Submission, w: seq<Submission>)
    requires InLine(a + w)
    requires forall x | x in a :: x.id < s.id || (s.mode == Queue && x.mode != Queue)
    requires forall x | x in w :: x.mode == Queue && s.mode != Queue
    ensures InLine(a + [s] + w)
  {
    var whole, shorter := a + [s] + w, a + w;
    forall i, j | 0 <= i < j < |whole|
      ensures whole[i].id < whole[j].id || (whole[j].mode == Queue && whole[i].mode != Queue)
    {
      if i == |a| {
        assert whole[j] in w;
      } else if j == |a| {
        assert whole[i] in a;
      } else {
        assert shorter[if i > |a| then i - 1 else i] == whole[i];
        assert shorter[if j > |a| then j - 1 else j] == whole[j];
      }
    }
  }

  // ---- where submissions are ----

  ghost predicate Numbered(accepted: seq<Submission>) {
    forall i | 0 <= i < |accepted| :: accepted[i].id == i && accepted[i].mode != Side
  }

  /** Every accepted submission is in exactly one place, and the line is in order. */
  ghost predicate Places(accepted: seq<Submission>, branch: seq<Submission>, batch: seq<Submission>, pending: seq<Submission>, lost: seq<Submission>) {
    && multiset(accepted) == multiset(branch) + multiset(batch) + multiset(pending) + multiset(lost)
    && InLine(branch + batch + pending)
  }

  lemma PlacedIsAccepted(accepted: seq<Submission>, branch: seq<Submission>, batch: seq<Submission>, pending: seq<Submission>, lost: seq<Submission>)
    requires Numbered(accepted) && Places(accepted, branch, batch, pending, lost)
    ensures forall s | s in branch + batch + pending :: s in accepted && s.id < |accepted|
  {
    hide InLine;
    forall s | s in branch + batch + pending
      ensures s in accepted && s.id < |accepted|
    {
      assert s in multiset(accepted);
    }
  }

  lemma PlaceNewcomer(accepted: seq<Submission>, branch: seq<Submission>, batch: seq<Submission>, pending: seq<Submission>, lost: seq<Submission>, s: Submission)
    requires Numbered(accepted) && Places(accepted, branch, batch, pending, lost)
    requires s.id == |accepted| && s.mode != Side
    ensures Numbered(accepted + [s]) && Places(accepted + [s], branch, batch, pending + [s], lost)
  {
    hide InLine;
    PlacedIsAccepted(accepted, branch, batch, pending, lost);
    var line := branch + batch + pending;
    assert line + [] == line;
    InsertInLine(line, s, []);
    assert branch + batch + (pending + [s]) == line + [s] + [];
  }

  lemma SplitInLine(before: seq<Submission>, pending: seq<Submission>)
    requires InLine(before + pending)
    ensures InLine(before + Joining(pending) + Waiting(pending))
  {
    hide InLine;
    if pending == [] {
      assert before + Joining(pending) + Waiting(pending) == before + pending;
    } else {
      var n := |pending| - 1;
      assert pending == pending[..n] + [pending[n]];
      SplitStep(before, pending[..n], pending[n]);
    }
  }

  lemma PlaceSome(accepted: seq<Submission>, branch: seq<Submission>, pending: seq<Submission>, lost: seq<Submission>)
    requires Places(accepted, branch, [], pending, lost)
    ensures Places(accepted, branch, Joining(pending), Waiting(pending), lost)
  {
    hide InLine, Joining, Waiting;
    SplitLosesNone(pending);
    assert branch + [] == branch;
    SplitInLine(branch, pending);
  }

  lemma PlaceAll(accepted: seq<Submission>, branch: seq<Submission>, pending: seq<Submission>, lost: seq<Submission>)
    requires Places(accepted, branch, [], pending, lost)
    ensures Places(accepted, branch, pending, [], lost)
  {
    assert branch + pending + [] == branch + [] + pending;
  }

  lemma PlaceAppended(accepted: seq<Submission>, branch: seq<Submission>, batch: seq<Submission>, pending: seq<Submission>, lost: seq<Submission>)
    requires Places(accepted, branch, batch, pending, lost) && batch != []
    ensures Places(accepted, branch + [batch[0]], batch[1..], pending, lost)
  {
    hide InLine;
    assert batch == [batch[0]] + batch[1..];
    assert branch + batch + pending == (branch + [batch[0]]) + batch[1..] + pending;
  }

  lemma PlaceCut(accepted: seq<Submission>, branch: seq<Submission>, batch: seq<Submission>, pending: seq<Submission>, lost: seq<Submission>)
    requires Places(accepted, branch, batch, pending, lost)
    ensures Places(accepted, branch, [], pending, lost + batch)
  {
    var line, shorter := branch + batch + pending, branch + [] + pending;
    assert forall i | 0 <= i < |shorter| :: shorter[i] == line[if i < |branch| then i else i + |batch|];
  }

  // ---- where acknowledgements are ----

  /** Every acknowledgement owed is sent, waiting in the inbox or with the run, or dropped, once. */
  ghost predicate Owed(sent: seq<SubId>, acks: seq<SubId>, outbox: seq<SubId>, dropped: seq<SubId>, owed: seq<SubId>) {
    multiset(sent) + multiset(acks) + multiset(outbox) + multiset(dropped) == multiset(owed)
  }

  lemma OweOneMore(sent: seq<SubId>, acks: seq<SubId>, outbox: seq<SubId>, dropped: seq<SubId>, owed: seq<SubId>, id: SubId)
    requires Owed(sent, acks, outbox, dropped, owed)
    ensures Owed(sent + [id], acks, outbox, dropped, owed + [id])
    ensures Owed(sent, acks + [id], outbox, dropped, owed + [id])
  {}

  lemma GrabAcks(sent: seq<SubId>, acks: seq<SubId>, dropped: seq<SubId>, owed: seq<SubId>)
    requires Owed(sent, acks, [], dropped, owed)
    ensures Owed(sent, [], acks, dropped, owed)
  {}

  lemma SettleAck(sent: seq<SubId>, acks: seq<SubId>, outbox: seq<SubId>, dropped: seq<SubId>, owed: seq<SubId>)
    requires Owed(sent, acks, outbox, dropped, owed) && outbox != []
    ensures Owed(sent + [outbox[0]], acks, outbox[1..], dropped, owed)
    ensures Owed(sent, acks, outbox[1..], dropped + [outbox[0]], owed)
  {
    assert outbox == [outbox[0]] + outbox[1..];
  }

  // ---- the inbox and the run that empties it ----

  class Stream {
    /** False for replayed streams and durable runs, which have no inbox. */
    const supported: bool

    // Under the inbox's lock.
    var pending: seq<Submission>
    var closed: bool
    /** A provider call is in flight and can be cancelled. */
    var inCall: bool
    var callCanceled: bool
    var interruptedBy: Option<SubId>
    var acks: seq<SubId>

    // The delta channel; deltas can be dropped once the stream's context is done.
    var deltas: seq<Delta>
    var live: bool
    ghost var dropped: seq<SubId>
    /** How many deltas were sent while the context was live. */
    ghost var horizon: nat

    // The run's goroutine.
    var phase: Phase
    var batch: seq<Submission>
    var outbox: seq<SubId>
    var branch: seq<Submission>

    // History.
    ghost var accepted: seq<Submission>
    /** Submissions of a batch that was cut by a failed admission or append. */
    ghost var lost: seq<Submission>
    ghost var cuts: nat
    ghost var finished: bool
    var nextId: nat

    ghost predicate Conserved()
      reads this`accepted, this`nextId, this`branch, this`batch, this`pending, this`lost, this`cuts, this`phase
    {
      && |accepted| == nextId && Numbered(accepted)
      && Places(accepted, branch, batch, pending, lost)
      && (lost == [] <==> cuts == 0)
      && (batch != [] ==> phase != Idle)
    }

    /** Of the submissions `owed` an acknowledgement, every one is sent, waiting, or dropped after the
        context was done, once. */
    ghost predicate Acknowledged(owed: seq<SubId>)
      reads this`deltas, this`acks, this`outbox, this`dropped, this`live, this`horizon, this`branch, this`phase, this`batch
    {
      && Owed(QueuedIds(deltas), acks, outbox, dropped, owed)
      && (live ==> dropped == [] && horizon == |deltas| && InjectedIds(deltas) == Ids(branch))
      && horizon <= |deltas| && AcknowledgedFirst(deltas[..horizon])
      && (outbox != [] ==> phase == Flushing)
      && (phase in {Flushing, Injecting} ==> forall s | s in batch :: s.id !in acks)
      && (phase == Injecting && live ==> forall s | s in batch :: s.id in QueuedIds(deltas))
    }

    /** While a call is in flight it is cancelled exactly when an interrupting message is pending,
        for the first such message. */
    ghost predicate Interruptible()
      reads this`inCall, this`callCanceled, this`phase, this`interruptedBy, this`pending
    {
      && (inCall ==> phase == Idle)
      && (!inCall ==> interruptedBy.None?)
      && (inCall ==> (callCanceled <==> interruptedBy.Some?) && interruptedBy == FirstInterrupt(pending))
    }

    /** A run that finished naturally left nothing behind, and nothing joins it. */
    ghost predicate Finished()
      reads this`finished, this`closed, this`pending, this`batch
    {
      finished ==> closed && pending == [] && batch == []
    }

    ghost predicate Valid()
      reads this
    {
      Conserved() && Acknowledged(Ids(accepted)) && Interruptible() && Finished()
    }

    constructor (supported: bool)
      ensures Valid() && this.supported == supported && live && !closed && accepted == [] && branch == [] && phase == Idle && !inCall
      ensures pending == [] && lost == [] && cuts == 0 && acks == [] && deltas == [] && nextId == 0 && !callCanceled && !finished
    {
      this.supported := supported;
      pending, closed, inCall, callCanceled, interruptedBy, acks := [], false, false, false, None, [];
      deltas, live, dropped, horizon := [], true, [], 0;
      phase, batch, outbox, branch := Idle, [], [], [];
      accepted, lost, cuts, finished, nextId := [], [], 0, false, 0;
    }

    lemma NextIsNew()
      requires Conserved()
      ensures forall s | s in batch :: s.id != nextId
    {
      hide Places;
      PlacedIsAccepted(accepted, branch, batch, pending, lost);
    }

    /** The channel takes a delta. */
    method Report(d: Delta)
      requires live ==> horizon == |deltas|
      requires horizon <= |deltas| && AcknowledgedFirst(deltas[..horizon])
      requires live && d.Injected? ==> Queued(d.id) in deltas
      modifies this`deltas, this`horizon
      ensures deltas == old(deltas) + [d]
      ensures horizon == if live then |deltas| else old(horizon)
      ensures AcknowledgedFirst(deltas[..horizon])
      ensures QueuedIds(deltas) == if d.Queued? then old(QueuedIds(deltas)) + [d.id] else old(QueuedIds(deltas))
      ensures InjectedIds(deltas) == if d.Injected? then old(InjectedIds(deltas)) + [d.id] else old(InjectedIds(deltas))
    {
      hide AcknowledgedFirst;
      OneMore(deltas, d);
      assert deltas[..|deltas|] == deltas;
      assert (deltas + [d])[..|deltas| + 1] == deltas + [d];
      assert (deltas + [d])[..horizon] == deltas[..horizon];
      if live {
        ReportedInOrder(deltas, d);
        horizon := horizon + 1;
      }
      deltas := deltas + [d];
    }

    // ---- clients ----

    /** Accepts a message for the run, or says why not. An interrupting message cancels the call in
        flight unless an earlier one already has. `room` says whether the delta channel has room. */
    method Submit(parts: seq<Part>, mode: Mode, room: bool) returns (r: Result)
      requires Valid()
      modifies this`pending, this`interruptedBy, this`callCanceled, this`acks, this`deltas, this`horizon, this`accepted, this`nextId
      ensures Valid()
      ensures r == if parts == [] || ToolResult in parts then Err(InvalidSubmission) else if mode == Side || !supported then Err(Unsupported)
                   else if closed then Err(RunFinished) else Ok(old(nextId))
      ensures r.Ok? ==> accepted == old(accepted) + [Submission(r.id, mode)] && pending == old(pending) + [Submission(r.id, mode)]
      ensures r.Ok? ==> deltas == (if room && old(acks) == [] then old(deltas) + [Queued(r.id)] else old(deltas))
      ensures r.Ok? ==> acks == (if room && old(acks) == [] then [] else old(acks) + [r.id])
      ensures r.Err? ==> accepted == old(accepted) && pending == old(pending) && deltas == old(deltas) && acks == old(acks)
    {
      hide Conserved, Acknowledged, Interruptible;
      if parts == [] || ToolResult in parts {
        return Err(InvalidSubmission);
      }
      if mode == Side || !supported {
        return Err(Unsupported);
      }
      if closed {
        return Err(RunFinished);
      }
      var id := nextId;
      NextIsNew();
      Accept(mode);
      Acknowledge(Ids(old(accepted)), id, room);
      return Ok(id);
    }

    method Accept(mode: Mode)
      requires Valid() && !closed && mode != Side
      modifies this`pending, this`interruptedBy, this`callCanceled, this`accepted, this`nextId
      ensures Conserved() && Interruptible() && Finished() && Acknowledged(Ids(old(accepted)))
      ensures accepted == old(accepted) + [Submission(old(nextId), mode)] && pending == old(pending) + [Submission(old(nextId), mode)]
      ensures Ids(accepted) == Ids(old(accepted)) + [old(nextId)]
      ensures nextId == old(nextId) + 1
    {
      hide Places, AcknowledgedFirst, QueuedIds, InjectedIds;
      var sub := Submission(nextId, mode);
      PlaceNewcomer(accepted, branch, batch, pending, lost, sub);
      FirstInterruptGrows(pending, sub);
      pending, accepted, nextId := pending + [sub], accepted + [sub], nextId + 1;
      if mode == InterruptReplace && inCall && interruptedBy.None? {
        interruptedBy, callCanceled := Some(sub.id), true;
      }
    }

    /** Offers an acknowledgement to the channel, or leaves it to the run. */
    method Acknowledge(ghost owed: seq<SubId>, id: SubId, room: bool)
      requires Acknowledged(owed) && forall s | s in batch :: s.id != id
      modifies this`acks, this`deltas, this`horizon
      ensures Acknowledged(owed + [id])
      ensures deltas == (if room && old(acks) == [] then old(deltas) + [Queued(id)] else old(deltas))
      ensures acks == (if room && old(acks) == [] then [] else old(acks) + [id])
    {
      hide AcknowledgedFirst, QueuedIds, InjectedIds, Ids, Owed;
      OweOneMore(QueuedIds(deltas), acks, outbox, dropped, owed, id);
      if |acks| > 0 || !room {
        acks := acks + [id];
      } else {
        Report(Queued(id));
      }
    }

    // ---- the run ----

    /** A provider call starts: an interrupting message that came after the last safe point cancels
        it at once. */
    method BeginTurn()
      requires Valid() && phase == Idle && !inCall
      modifies this`inCall, this`callCanceled, this`interruptedBy
      ensures Valid() && inCall
    {
      hide Conserved, Acknowledged;
      inCall, callCanceled, interruptedBy := true, false, None;
      var i := 0;
      while i < |pending|
        invariant i <= |pending| && !callCanceled && interruptedBy == None
        invariant FirstInterrupt(pending) == FirstInterrupt(pending[i..])
      {
        if pending[i].mode == InterruptReplace {
          interruptedBy, callCanceled := Some(pending[i].id), true;
          return;
        }
        assert pending[i..][1..] == pending[i + 1..];
        i := i + 1;
      }
    }

    /** The call ended; `first` is the message that cancelled it, which is still pending. */
    method EndTurn() returns (first: Option<SubId>)
      requires Valid() && inCall
      modifies this`inCall, this`interruptedBy
      ensures Valid() && !inCall
      ensures first == FirstInterrupt(pending) && (first.Some? <==> callCanceled)
    {
      hide Conserved, Acknowledged;
      inCall, first, interruptedBy := false, interruptedBy, None;
    }

    /** A safe point takes the messages it may append: where the run would finish all of them, and
        anywhere else those that do not wait for that. A finishing run that finds none closes. */
    method Take(finishing: bool) returns (taken: seq<Submission>)
      requires Valid() && phase == Idle && !inCall
      modifies this`pending, this`closed, this`phase, this`batch, this`finished
      ensures Valid() && phase == Taken && batch == taken
      ensures finishing ==> taken == old(pending) && pending == []
      ensures !finishing ==> taken == Joining(old(pending)) && pending == Waiting(old(pending))
      ensures closed == (old(closed) || (finishing && taken == []))
      ensures finished == (old(finished) || (finishing && taken == []))
    {
      hide Places, Owed, QueuedIds, InjectedIds, AcknowledgedFirst, Joining, Waiting, Ids;
      if finishing {
        PlaceAll(accepted, branch, pending, lost);
        taken, pending := pending, [];
        if |taken| == 0 {
          closed, finished := true, true;
        }
      } else {
        PlaceSome(accepted, branch, pending, lost);
        var kept;
        taken, kept := Split(pending);
        pending := kept;
      }
      batch, phase := taken, Taken;
    }

    /** Takes every pending message without closing the inbox. */
    method TakeOpen() returns (taken: seq<Submission>)
      requires Valid() && phase == Idle && !inCall
      modifies this`pending, this`phase, this`batch
      ensures Valid() && phase == Taken && batch == taken == old(pending) && pending == []
    {
      hide Places, Owed, QueuedIds, InjectedIds, AcknowledgedFirst, Ids;
      PlaceAll(accepted, branch, pending, lost);
      taken, pending := pending, [];
      batch, phase := taken, Taken;
    }

    /** The run is past its last safe point. */
    method Close()
      requires Valid() && phase == Idle && !inCall
      modifies this`closed, this`phase
      ensures Valid() && closed && phase == Taken
    {
      hide Places, Owed, QueuedIds, InjectedIds, AcknowledgedFirst, Ids;
      closed, phase := true, Taken;
    }

    /** Grabs the acknowledgements that wait; the run sends them before it appends its batch. */
    method BeginFlush()
      requires Valid() && phase == Taken
      modifies this`phase, this`outbox, this`acks
      ensures Valid() && phase == Flushing && outbox == old(acks) && acks == []
    {
      hide Places, Owed, QueuedIds, InjectedIds, AcknowledgedFirst, Ids;
      GrabAcks(QueuedIds(deltas), acks, dropped, Ids(accepted));
      outbox, acks, phase := acks, [], Flushing;
    }

    method SendAck(through: bool)
      requires Valid() && phase == Flushing && outbox != []
      modifies this`outbox, this`deltas, this`horizon, this`dropped
      ensures Valid() && outbox == old(outbox)[1..]
      ensures deltas == if live || through then old(deltas) + [Queued(old(outbox)[0])] else old(deltas)
    {
      hide Conserved, Owed, QueuedIds, InjectedIds, AcknowledgedFirst, Ids;
      var id := outbox[0];
      SettleAck(QueuedIds(deltas), acks, outbox, dropped, Ids(accepted));
      outbox := outbox[1..];
      if live || through {
        Report(Queued(id));
      } else {
        dropped := dropped + [id];
      }
    }

    /** With nothing left to acknowledge, the batch is appended next. */
    method EndFlush()
      requires Valid() && phase == Flushing && outbox == []
      modifies this`phase
      ensures Valid() && phase == (if batch == [] then Idle else Injecting)
    {
      hide QueuedIds, InjectedIds, AcknowledgedFirst;
      if live {
        forall s | s in batch
          ensures s.id in QueuedIds(deltas)
        {
          PlacedIsAccepted(accepted, branch, batch, pending, lost);
          assert s in branch + batch + pending;
          assert Ids(accepted)[s.id] == s.id;
          assert s.id in multiset(Ids(accepted));
        }
      }
      phase := if batch == [] then Idle else Injecting;
    }

    /** Appends the next message of the batch and reports it, or fails to, which ends the run and
        leaves the rest of the batch behind. */
    method Inject(ok: bool, through: bool)
      requires Valid() && phase == Injecting && batch != []
      modifies this`phase, this`batch, this`branch, this`lost, this`cuts, this`deltas, this`horizon
      ensures Valid() && pending == old(pending) && phase == (if batch == [] then Idle else Injecting)
      ensures deltas == if ok && (live || through) then old(deltas) + [Injected(old(batch)[0].id)] else old(deltas)
      ensures ok ==> branch == old(branch) + [old(batch)[0]] && batch == old(batch)[1..] && lost == old(lost)
      ensures !ok ==> branch == old(branch) && batch == [] && lost == old(lost) + old(batch) && cuts == old(cuts) + 1
    {
      hide Places, Owed, QueuedIds, InjectedIds, AcknowledgedFirst;
      if !ok {
        PlaceCut(accepted, branch, batch, pending, lost);
        lost, batch, cuts, phase := lost + batch, [], cuts + 1, Idle;
        return;
      }
      var sub := batch[0];
      PlaceAppended(accepted, branch, batch, pending, lost);
      QueuedIsSent(deltas, sub.id);
      branch, batch := branch + [sub], batch[1..];
      assert Ids(branch) == Ids(old(branch)) + [sub.id];
      if live || through {
        Report(Injected(sub.id));
      }
      if batch == [] {
        phase := Idle;
      }
    }

    /** The stream's context is done; deltas may be dropped from here on. */
    method Cancel()
      requires Valid()
      modifies this`live
      ensures Valid() && !live
    {
      hide Owed, QueuedIds, InjectedIds, AcknowledgedFirst, Ids;
      live := false;
    }

    /** What the host can resubmit once the run is over, and nothing before. It is every accepted
        message that was not appended exactly when no batch was cut by a failed admission or append. */
    method Undelivered(done: bool) returns (subs: seq<Submission>)
      requires Valid() && (done ==> phase == Idle)
      ensures subs == if done then pending else []
      ensures done ==> (multiset(subs) == multiset(accepted) - multiset(branch) <==> cuts == 0)
      ensures done && finished && cuts == 0 ==> multiset(branch) == multiset(accepted)
    {
      if !done {
        return [];
      }
      subs := pending;
      if multiset(pending) == multiset(accepted) - multiset(branch) {
        assert multiset(accepted) - multiset(branch) == multiset(pending) + multiset(lost);
        assert |multiset(lost)| == 0;
      }
    }

    /** No accepted message is in two places, or in one twice. */
    lemma ExactlyOnce(s: Submission)
      requires Valid() && s in accepted
      ensures multiset(branch)[s] + multiset(batch)[s] + multiset(pending)[s] + multiset(lost)[s] == 1
    {
      hide Acknowledged, InLine;
      OccursOnce(accepted, s);
    }
  }

  lemma {:induction false} OccursOnce(accepted: seq<Submission>, s: Submission)
    requires Numbered(accepted)
    ensures multiset(accepted)[s] == if s in accepted then 1 else 0
  {
    if accepted != [] {
      var n := |accepted| - 1;
      assert accepted == accepted[..n] + [accepted[n]];
      OccursOnce(accepted[..n], s);
    }
  }

  /** The loop of a safe point that is not the end of the run. */
  method Split(pending: seq<Submission>) returns (taken: seq<Submission>, kept: seq<Submission>)
    ensures taken == Joining(pending) && kept == Waiting(pending)
  {
    taken, kept := [], [];
    var i := 0;
    while i < |pending|
      invariant i <= |pending| && taken == Joining(pending[..i]) && kept == Waiting(pending[..i])
    {
      assert pending[..i + 1][..i] == pending[..i];
      if pending[i].mode == Queue {
        kept := kept + [pending[i]];
      } else {
        taken := taken + [pending[i]];
      }
      i := i + 1;
    }
    assert pending[..i] == pending;
  }

  function FirstInterrupt(pending: seq<Submission>): (first: Option<SubId>)
    ensures first.Some? <==> exists s :: s in pending && s.mode == InterruptReplace
    ensures first.Some? ==> Submission(first.value, InterruptReplace) in pending
  {
    if pending == [] then None
    else if pending[0].mode == InterruptReplace then Some(pending[0].id)
    else FirstInterrupt(pending[1..])
  }

  lemma {:induction false} FirstInterruptGrows(pending: seq<Submission>, s: Submission)
    ensures FirstInterrupt(pending + [s]) ==
      if FirstInterrupt(pending).Some? then FirstInterrupt(pending) else if s.mode == InterruptReplace then Some(s.id) else None
  {
    if pending != [] && pending[0].mode != InterruptReplace {
      FirstInterruptGrows(pending[1..], s);
      assert (pending + [s])[1..] == pending[1..] + [s];
    }
  }

  /** Reporting a delta keeps acknowledgements first when it is one, or has been acknowledged. */
  lemma ReportedInOrder(deltas: seq<Delta>, d: Delta)
    requires AcknowledgedFirst(deltas) && (d.Injected? ==> Queued(d.id) in deltas)
    ensures AcknowledgedFirst(deltas + [d])
  {
    var whole := deltas + [d];
    forall j | 0 <= j < |whole| && whole[j].Injected?
      ensures Queued(whole[j].id) in whole[..j]
    {
      assert whole[..j] == deltas[..j];
    }
  }

  // ---- every interleaving ----

  datatype Event =
    | Submits(parts: seq<Part>, mode: Mode, room: bool)
    | Cancels
    | Begins
    | Ends
    | Takes(finishing: bool)
    | TakesOpen
    | Closes
    | Grabs
    | Sends(through: bool)
    | Flushes
    | Injects(ok: bool, through: bool)

  /** Takes one step if the run is where it can take it. */
  method Step(stream: Stream, e: Event)
    requires stream.Valid()
    modifies stream
    ensures stream.Valid()
    ensures old(stream.finished) ==> stream.finished
    ensures old(stream.accepted) <= stream.accepted && old(stream.branch) <= stream.branch && old(stream.deltas) <= stream.deltas
    ensures stream.live == (old(stream.live) && !e.Cancels?)
    ensures e.Submits? && e.parts != [] && ToolResult !in e.parts && e.mode != Side && stream.supported && !old(stream.closed) ==>
      stream.accepted == old(stream.accepted) + [Submission(old(stream.nextId), e.mode)] && stream.pending == old(stream.pending) + [Submission(old(stream.nextId), e.mode)]
    ensures old(stream.phase) == Idle && !old(stream.inCall) ==>
      && (e.Begins? ==> stream.inCall)
      && (e.Takes? || e.TakesOpen? || e.Closes? ==> stream.phase == Taken)
      && (e.Takes? && !e.finishing ==> stream.batch == Joining(old(stream.pending)) && stream.pending == Waiting(old(stream.pending)))
      && ((e.Takes? && e.finishing) || e.TakesOpen? ==> stream.batch == old(stream.pending) && stream.pending == [])
      && (e.Closes? || (e.Takes? && e.finishing && old(stream.pending) == []) ==> stream.closed)
    ensures e.Ends? ==> !stream.inCall
    ensures e.Grabs? && old(stream.phase) == Taken ==> stream.phase == Flushing && stream.outbox == old(stream.acks)
    ensures old(stream.phase) == Flushing ==>
      && (e.Sends? && old(stream.outbox) != [] ==> stream.outbox == old(stream.outbox)[1..])
      && (e.Flushes? && old(stream.outbox) == [] ==> stream.phase == if stream.batch == [] then Idle else Injecting)
    ensures e.Injects? && old(stream.phase) == Injecting && old(stream.batch) != [] ==>
      if e.ok then stream.branch == old(stream.branch) + [old(stream.batch)[0]] && stream.batch == old(stream.batch)[1..]
      else stream.lost == old(stream.lost) + old(stream.batch) && stream.batch == []
  {
    hide Stream.Valid, Joining, Waiting;
    match e
    case Submits(parts, mode, room) =>
      var _ := stream.Submit(parts, mode, room);
    case Cancels =>
      stream.Cancel();
    case Begins =>
      if stream.phase == Idle && !stream.inCall {
        stream.BeginTurn();
      }
    case Ends =>
      if stream.inCall {
        var _ := stream.EndTurn();
      }
    case Takes(finishing) =>
      if stream.phase == Idle && !stream.inCall {
        var _ := stream.Take(finishing);
      }
    case TakesOpen =>
      if stream.phase == Idle && !stream.inCall {
        var _ := stream.TakeOpen();
      }
    case Closes =>
      if stream.phase == Idle && !stream.inCall {
        stream.Close();
      }
    case Grabs =>
      if stream.phase == Taken {
        stream.BeginFlush();
      }
    case Sends(through) =>
      if stream.phase == Flushing && stream.outbox != [] {
        stream.SendAck(through);
      }
    case Flushes =>
      if stream.phase == Flushing && stream.outbox == [] {
        stream.EndFlush();
      }
    case Injects(ok, through) =>
      if stream.phase == Injecting && stream.batch != [] {
        stream.Inject(ok, through);
      }
  }

  /** Every interleaving of clients and run keeps each accepted message in exactly one place and
      reports it in order, and a run that finishes naturally leaves nothing pending. */
  method Replay(supported: bool, events: seq<Event>) returns (stream: Stream)
    ensures fresh(stream) && stream.Valid() && (stream.live <==> Cancels !in events)
    ensures forall s | s in stream.accepted ::
      multiset(stream.branch)[s] + multiset(stream.batch)[s] + multiset(stream.pending)[s] + multiset(stream.lost)[s] == 1
    ensures AcknowledgedFirst(stream.deltas[..stream.horizon])
    ensures InLine(stream.branch)
    ensures stream.finished ==> stream.closed && stream.pending == []
  {
    hide AcknowledgedFirst, Owed, QueuedIds, InjectedIds, InLine;
    stream := new Stream(supported);
    var i := 0;
    while i < |events|
      invariant i <= |events| && fresh(stream) && stream.Valid() && (stream.live <==> Cancels !in events[..i])
    {
      assert events[..i + 1] == events[..i] + [events[i]];
      Step(stream, events[i]);
      i := i + 1;
    }
    assert events[..i] == events;
    forall s | s in stream.accepted
      ensures multiset(stream.branch)[s] + multiset(stream.batch)[s] + multiset(stream.pending)[s] + multiset(stream.lost)[s] == 1
    {
      stream.ExactlyOnce(s);
    }
    assert stream.branch + stream.batch + stream.pending == stream.branch + (stream.batch + stream.pending);
    PrefixInLine(stream.branch, stream.batch + stream.pending);
  }

  /** A safe point whose first append fails: what it took is neither appended nor pending. */
  method CutAtSafePoint(stream: Stream, through: bool)
    requires stream.Valid() && stream.phase == Idle && !stream.inCall && stream.acks == [] && Joining(stream.pending) != []
    modifies stream
    ensures stream.Valid() && stream.phase == Idle && stream.cuts == old(stream.cuts) + 1
    ensures stream.pending == Waiting(old(stream.pending)) && stream.lost == old(stream.lost) + Joining(old(stream.pending))
    ensures stream.accepted == old(stream.accepted) && stream.branch == old(stream.branch) && stream.deltas == old(stream.deltas)
  {
    hide Stream.Valid, Joining, Waiting, AcknowledgedFirst, QueuedIds, InjectedIds;
    var taken := stream.Take(false);
    stream.BeginFlush();
    stream.EndFlush();
    stream.Inject(false, through);
  }

  /** How a message is lost: one that does not wait for the end is accepted, acknowledged and taken, and
      then not appended. It is not on the branch, and not among what is reported undelivered. */
  method CutBatch(parts: seq<Part>, mode: Mode, through: bool) returns (stream: Stream, id: SubId, subs: seq<Submission>)
    requires parts != [] && ToolResult !in parts && mode in {Steer, InterruptReplace}
    ensures fresh(stream) && stream.Valid() && stream.cuts == 1
    ensures Submission(id, mode) in stream.accepted && Submission(id, mode) !in stream.branch && Queued(id) in stream.deltas
    ensures subs == [] && multiset(subs) != multiset(stream.accepted) - multiset(stream.branch)
  {
    hide Stream.Valid, Joining, Waiting, AcknowledgedFirst, QueuedIds, InjectedIds;
    stream := new Stream(true);
    var r := stream.Submit(parts, mode, true);
    id := r.id;
    assert stream.pending == [Submission(id, mode)] && stream.accepted == stream.pending && stream.deltas == [Queued(id)];
    JoinsAlone(Submission(id, mode));
    CutAtSafePoint(stream, through);
    subs := stream.Undelivered(true);
  }

  lemma JoinsAlone(s: Submission)
    requires s.mode != Queue
    ensures Joining([s]) == [s] && Waiting([s]) == []
  {
    assert [s][..0] == [];
  }
}
