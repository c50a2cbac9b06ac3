/** The background children of one run (agent/spawn.go, agent/subagent_tools.go). A child that
    finishes, the tools that await or cancel one, and the run that injects results work on the same
    handles from different goroutines; every method here is one critical section, so a sequence of
    calls is an interleaving. Handles are named by their place in start order. */
module Spawn {

  datatype ChildError = NoError | CanceledError | OtherError

  datatype Status = Running | Completed | Failed | Canceled

  function StatusOf(err: ChildError): Status {
    match err
    case NoError => Completed
    case CanceledError => Canceled
    case OtherError => Failed
  }

  /** `recorded` is set once the registry knows that the child finished, `done` once its channel is
      closed, and `delivered` once the parent has its result. */
  datatype Handle = Handle(id: string, status: Status, recorded: bool, done: bool, delivered: bool)

  /** Who delivered a result first: the run, which appends it; an await, which returned it; a cancel,
      which gave it up; or the delegation it belonged to. */
  datatype Owner = Nobody | TheRun | AnAwait | ACancel | ADelegation

  /** Where a result is: not there yet, in the registry's list, in the run's copy of it, marked for
      appending, on the branch, lost with a batch an append failed in, or passed over because the
      parent had it. */
  datatype Place = Unfinished | Listed | Held | Marked | Appended | Lost | Aside

  datatype Option<T> = None | Some(value: T)

  /** What a handle, its owner and its place can be together. */
  ghost predicate Fits(h: Handle, owner: Owner, place: Place) {
    && (h.delivered <==> owner != Nobody)
    && (h.done ==> h.recorded)
    && (h.recorded <==> place != Unfinished)
    && (h.recorded ==> h.status != Running)
    && (place in {Marked, Appended, Lost} <==> owner == TheRun)
    && (place == Aside ==> owner != Nobody)
    && (owner == ADelegation ==> place == Aside)
  }

  /** `list` holds exactly the handles at `place`. */
  ghost predicate Holds(list: seq<nat>, places: seq<Place>, place: Place) {
    && (forall h | h in list :: h < |places| && places[h] == place)
    && (forall h: nat | h < |places| && places[h] == place :: h in list)
  }

  /** The handles of a line finished in its order, so none is in it twice. */
  ghost predicate InCompletionOrder(line: seq<nat>, ranks: seq<nat>, next: nat) {
    && (forall i | 0 <= i < |line| :: line[i] < |ranks| && ranks[line[i]] < next)
    && (forall i, j | 0 <= i < j < |line| :: ranks[line[i]] < ranks[line[j]])
  }

  lemma NewRank(line: seq<nat>, ranks: seq<nat>, next: nat)
    requires InCompletionOrder(line, ranks, next)
    ensures InCompletionOrder(line, ranks + [0], next)
  {}

  /** A result that is recorded last goes to the end of the line. */
  lemma LastInOrder(line: seq<nat>, ranks: seq<nat>, next: nat, h: nat)
    requires InCompletionOrder(line, ranks, next) && h < |ranks| && h !in line
    ensures InCompletionOrder(line + [h], ranks[h := next], next + 1)
  {
    forall i | 0 <= i < |line|
      ensures line[i] != h
    {
      assert line[i] in line;
    }
  }

  lemma KeepInOrder(a: seq<nat>, b: seq<nat>, c: seq<nat>, ranks: seq<nat>, next: nat)
    requires InCompletionOrder(a + b + c, ranks, next)
    ensures InCompletionOrder(a + c, ranks, next)
  {
    var line, shorter := a + b + c, a + c;
    forall i | 0 <= i < |shorter|
      ensures shorter[i] == line[if i < |a| then i else i + |b|]
    {
    }
  }

  lemma NoneTwice(line: seq<nat>, ranks: seq<nat>, next: nat)
    requires InCompletionOrder(line, ranks, next)
    ensures forall i, j | 0 <= i < j < |line| :: line[i] != line[j]
  {}

  /** The four lists hold exactly the handles at their places. */
  ghost predicate AllHold(finished: seq<nat>, taking: seq<nat>, batch: seq<nat>, branch: seq<nat>, places: seq<Place>) {
    Holds(finished, places, Listed) && Holds(taking, places, Held) && Holds(batch, places, Marked) && Holds(branch, places, Appended)
  }

  lemma AllHoldGrown(finished: seq<nat>, taking: seq<nat>, batch: seq<nat>, branch: seq<nat>, places: seq<Place>, p: Place)
    requires AllHold(finished, taking, batch, branch, places) && p in {Unfinished, Aside}
    ensures AllHold(finished, taking, batch, branch, places + [p])
  {}

  /** Some listed result has not been delivered. */
  ghost predicate HasResult(handles: seq<Handle>, finished: seq<nat>) {
    exists h :: h in finished && h < |handles| && !handles[h].delivered
  }

  lemma NoNewResult(handles: seq<Handle>, h: Handle, finished: seq<nat>, taking: seq<nat>, batch: seq<nat>, branch: seq<nat>, owners: seq<Owner>, places: seq<Place>)
    requires AllHold(finished, taking, batch, branch, places) && AllFit(handles, owners, places)
    ensures HasResult(handles + [h], finished) <==> HasResult(handles, finished)
  {
    forall k | k in finished && k < |handles|
      ensures (handles + [h])[k] == handles[k]
    {
    }
  }

  lemma AllHoldListed(finished: seq<nat>, taking: seq<nat>, batch: seq<nat>, branch: seq<nat>, places: seq<Place>, h: nat)
    requires AllHold(finished, taking, batch, branch, places) && h < |places| && places[h] == Unfinished
    ensures AllHold(finished + [h], taking, batch, branch, places[h := Listed])
    ensures h !in Line(branch, batch, taking, finished)
  {}

  function Replaced(places: seq<Place>, p: Place, q: Place): (r: seq<Place>)
    ensures |r| == |places| && forall h | 0 <= h < |r| :: r[h] == if places[h] == p then q else places[h]
  {
    seq(|places|, h requires 0 <= h < |places| => if places[h] == p then q else places[h])
  }

  lemma AllHoldTaken(finished: seq<nat>, batch: seq<nat>, branch: seq<nat>, places: seq<Place>)
    requires AllHold(finished, [], batch, branch, places)
    ensures AllHold([], finished, batch, branch, Replaced(places, Listed, Held))
  {}

  lemma FrontLeaves(from: seq<nat>, places: seq<Place>, p: Place, q: Place)
    requires Holds(from, places, p) && from != [] && p != q
    requires forall i | 1 <= i < |from| :: from[i] != from[0]
    ensures from[0] in from && Holds(from[1..], places[from[0] := q], p)
  {
    var first := from[0];
    assert first in from;
    var moved := places[first := q];
    forall h | h in from[1..]
      ensures h < |moved| && moved[h] == p
    {
      var i :| 0 <= i < |from| - 1 && from[1..][i] == h;
      assert from[i + 1] == h && h in from;
    }
    forall h: nat | h < |moved| && moved[h] == p
      ensures h in from[1..]
    {
      assert h in from && from == [first] + from[1..];
    }
  }

  lemma LastArrives(to: seq<nat>, places: seq<Place>, h: nat, q: Place)
    requires Holds(to, places, q) && h < |places|
    ensures Holds(to + [h], places[h := q], q)
  {
    assert (to + [h])[|to|] == h;
  }

  /** The first of the held handles is marked for appending, or passed over. */
  lemma AllHoldMarked(finished: seq<nat>, taking: seq<nat>, batch: seq<nat>, branch: seq<nat>, places: seq<Place>)
    requires AllHold(finished, taking, batch, branch, places) && taking != []
    requires forall i | 1 <= i < |taking| :: taking[i] != taking[0]
    ensures taking[0] < |places| && places[taking[0]] == Held
    ensures AllHold(finished, taking[1..], batch + [taking[0]], branch, places[taking[0] := Marked])
    ensures AllHold(finished, taking[1..], batch, branch, places[taking[0] := Aside])
  {
    FrontLeaves(taking, places, Held, Marked);
    FrontLeaves(taking, places, Held, Aside);
    LastArrives(batch, places, taking[0], Marked);
  }

  lemma AllHoldAppended(finished: seq<nat>, taking: seq<nat>, batch: seq<nat>, branch: seq<nat>, places: seq<Place>)
    requires AllHold(finished, taking, batch, branch, places) && batch != []
    requires forall i | 1 <= i < |batch| :: batch[i] != batch[0]
    ensures batch[0] < |places| && places[batch[0]] == Marked
    ensures AllHold(finished, taking, batch[1..], branch + [batch[0]], places[batch[0] := Appended])
  {
    FrontLeaves(batch, places, Marked, Appended);
    LastArrives(branch, places, batch[0], Appended);
  }

  lemma AllHoldCut(finished: seq<nat>, taking: seq<nat>, batch: seq<nat>, branch: seq<nat>, places: seq<Place>)
    requires AllHold(finished, taking, batch, branch, places)
    ensures AllHold(finished, taking, [], branch, Replaced(places, Marked, Lost))
  {}

  lemma AllNamedGrown(byId: map<string, nat>, handles: seq<Handle>, h: Handle)
    requires AllNamed(byId, handles)
    ensures AllNamed(byId[h.id := |handles|], handles + [h])
  {}

  /** The children that still run, or whose end the registry does not know. */
  ghost predicate AreActive(active: set<nat>, handles: seq<Handle>) {
    forall h: nat :: h in active <==> h < |handles| && !handles[h].recorded
  }

  lemma ActiveGrown(active: set<nat>, handles: seq<Handle>, h: Handle)
    requires AreActive(active, handles)
    ensures |handles| !in active
    ensures AreActive(if h.recorded then active else active + {|handles|}, handles + [h])
  {}

  /** All results that may reach the branch, those appended first. */
  function Line(branch: seq<nat>, batch: seq<nat>, taking: seq<nat>, finished: seq<nat>): seq<nat> {
    branch + (batch + (taking + finished))
  }

  lemma LineListed(branch: seq<nat>, batch: seq<nat>, taking: seq<nat>, finished: seq<nat>, h: nat)
    ensures Line(branch, batch, taking, finished + [h]) == Line(branch, batch, taking, finished) + [h]
  {}

  lemma LineTaken(branch: seq<nat>, batch: seq<nat>, finished: seq<nat>)
    ensures Line(branch, batch, finished, []) == Line(branch, batch, [], finished)
  {
    assert finished + [] == [] + finished;
  }

  lemma LineMarked(branch: seq<nat>, batch: seq<nat>, taking: seq<nat>, finished: seq<nat>, ranks: seq<nat>, next: nat)
    requires InCompletionOrder(Line(branch, batch, taking, finished), ranks, next) && taking != []
    ensures Line(branch, batch + [taking[0]], taking[1..], finished) == Line(branch, batch, taking, finished)
    ensures InCompletionOrder(Line(branch, batch, taking[1..], finished), ranks, next)
    ensures forall i | 1 <= i < |taking| :: taking[i] != taking[0]
  {
    var t := taking[0];
    assert taking == [t] + taking[1..];
    assert Line(branch, batch, taking, finished) == (branch + batch) + [t] + (taking[1..] + finished);
    KeepInOrder(branch + batch, [t], taking[1..] + finished, ranks, next);
    assert Line(branch, batch, taking[1..], finished) == (branch + batch) + (taking[1..] + finished);
    assert forall i | 0 <= i < |taking| :: Line(branch, batch, taking, finished)[|branch| + |batch| + i] == taking[i];
  }

  lemma LineAppended(branch: seq<nat>, batch: seq<nat>, taking: seq<nat>, finished: seq<nat>, ranks: seq<nat>, next: nat)
    requires InCompletionOrder(Line(branch, batch, taking, finished), ranks, next) && batch != []
    ensures Line(branch + [batch[0]], batch[1..], taking, finished) == Line(branch, batch, taking, finished)
    ensures forall i | 1 <= i < |batch| :: batch[i] != batch[0]
  {
    assert batch == [batch[0]] + batch[1..];
    assert forall i | 0 <= i < |batch| :: Line(branch, batch, taking, finished)[|branch| + i] == batch[i];
  }

  lemma LineCut(branch: seq<nat>, batch: seq<nat>, taking: seq<nat>, finished: seq<nat>, ranks: seq<nat>, next: nat)
    requires InCompletionOrder(Line(branch, batch, taking, finished), ranks, next)
    ensures InCompletionOrder(Line(branch, [], taking, finished), ranks, next)
  {
    assert Line(branch, batch, taking, finished) == branch + batch + (taking + finished);
    assert Line(branch, [], taking, finished) == branch + (taking + finished);
    KeepInOrder(branch, batch, taking + finished, ranks, next);
  }

  ghost predicate AllFit(handles: seq<Handle>, owners: seq<Owner>, places: seq<Place>) {
    |owners| == |places| == |handles| && forall h | 0 <= h < |handles| :: Fits(handles[h], owners[h], places[h])
  }

  lemma AllFitGrown(handles: seq<Handle>, owners: seq<Owner>, places: seq<Place>, h: Handle, owner: Owner, place: Place)
    requires AllFit(handles, owners, places) && Fits(h, owner, place)
    ensures AllFit(handles + [h], owners + [owner], places + [place])
  {}

  ghost predicate AllNamed(byId: map<string, nat>, handles: seq<Handle>) {
    forall id | id in byId :: byId[id] < |handles| && handles[byId[id]].id == id
  }

  lemma EmptyIsValid()
    ensures AllHold([], [], [], [], []) && InCompletionOrder(Line([], [], [], []), [], 0)
    ensures AllFit([], [], []) && AllNamed(map[], [])
  {
    assert Line([], [], [], []) == [];
  }

  /** What the proof keeps about the handles, by start order: who delivered each, where it is, the
      order of those that finished, the next rank, and the children the registry counts as running. */
  datatype Book = Book(owners: seq<Owner>, places: seq<Place>, ranks: seq<nat>, next: nat, active: set<nat>)

  class Registry {
    var handles: seq<Handle>
    var byId: map<string, nat>
    /** Finished children the run has not looked at, in completion order. */
    var finished: seq<nat>
    var running: nat
    /** The channel waiters block on: number `changed` is open and all before it are closed. */
    var changed: nat

    // The run's goroutine.
    var taking: seq<nat>
    var batch: seq<nat>
    var waiting: Option<nat>
    /** The results appended to the branch. */
    var branch: seq<nat>

    ghost var book: Book
    /** Whether an append of a result failed, which ends the run. */
    ghost var failed: bool

    ghost predicate Handles()
      reads this`handles, this`book, this`byId, this`failed
    {
      && AllFit(handles, book.owners, book.places) && AllNamed(byId, handles)
      && (!failed ==> Lost !in book.places)
    }

    ghost predicate Counted()
      reads this`handles, this`book, this`running
    {
      running == |book.active| && AreActive(book.active, handles)
    }

    ghost predicate Placed()
      reads this`book, this`finished, this`taking, this`batch, this`branch
    {
      AllHold(finished, taking, batch, branch, book.places)
    }

    ghost predicate InOrder()
      reads this`finished, this`taking, this`batch, this`branch, this`book
    {
      |book.ranks| == |book.places| && InCompletionOrder(Line(branch, batch, taking, finished), book.ranks, book.next)
    }

    /** Whether the run has something to take, or nothing to wait for. */
    ghost predicate Ready()
      reads this`handles, this`finished, this`running
    {
      running == 0 || HasResult(handles, finished)
    }

    /** A waiter whose channel is still open has nothing to wake up for. */
    ghost predicate NoMissedWakeUp()
      reads this`handles, this`finished, this`running, this`waiting, this`changed, this`taking, this`batch
    {
      && (waiting.Some? ==> waiting.value <= changed && taking == [] && batch == [])
      && (waiting == Some(changed) ==> !Ready())
    }

    ghost predicate Valid()
      reads this
    {
      Handles() && Counted() && Placed() && InOrder() && NoMissedWakeUp()
    }

    constructor ()
      ensures Valid() && handles == [] && book.owners == [] && branch == [] && !failed && waiting.None? && taking == [] && batch == []
    {
      hide AllHold, AllFit, AllNamed, InCompletionOrder, Line;
      handles, byId, finished, running, changed := [], map[], [], 0, 0;
      taking, batch, waiting, branch := [], [], None, [];
      book, failed := Book([], [], [], 0, {}), false;
      EmptyIsValid();
    }

    // ---- children ----

    /** Registers a running child. */
    method Add(id: string) returns (h: nat)
      requires Valid()
      modifies this`handles, this`byId, this`running, this`book
      ensures Valid() && h == |old(handles)| && handles == old(handles) + [Handle(id, Running, false, false, false)]
      ensures byId == old(byId)[id := h] && running == old(running) + 1 && book.owners == old(book).owners + [Nobody]
    {
      hide InCompletionOrder, Line, AllHold, AllFit, AllNamed, AreActive, HasResult;
      var handle := Handle(id, Running, false, false, false);
      h := |handles|;
      NoNewResult(handles, handle, finished, taking, batch, branch, book.owners, book.places);
      AllHoldGrown(finished, taking, batch, branch, book.places, Unfinished);
      AllFitGrown(handles, book.owners, book.places, handle, Nobody, Unfinished);
      AllNamedGrown(byId, handles, handle);
      ActiveGrown(book.active, handles, handle);
      NewRank(Line(branch, batch, taking, finished), book.ranks, book.next);
      handles, byId := handles + [handle], byId[id := h];
      running := running + 1;
      book := book.(owners := book.owners + [Nobody], places := book.places + [Unfinished], ranks := book.ranks + [0], active := book.active + {h});
    }

    /** Keeps a finished delegation, whose result its parent has; a known ID is left alone. */
    method RecordDelegation(id: string, err: ChildError)
      requires Valid()
      modifies this`handles, this`byId, this`book
      ensures Valid()
      ensures book.owners == if id in old(byId) then old(book).owners else old(book).owners + [ADelegation]
      ensures id in old(byId) ==> handles == old(handles) && byId == old(byId)
      ensures id !in old(byId) ==> handles == old(handles) + [Handle(id, StatusOf(err), true, true, true)] && byId == old(byId)[id := |old(handles)|]
    {
      hide InCompletionOrder, Line, AllHold, AllFit, AllNamed, AreActive;
      if id in byId {
        return;
      }
      var handle := Handle(id, StatusOf(err), true, true, true);
      AllHoldGrown(finished, taking, batch, branch, book.places, Aside);
      AllFitGrown(handles, book.owners, book.places, handle, ADelegation, Aside);
      AllNamedGrown(byId, handles, handle);
      ActiveGrown(book.active, handles, handle);
      byId := byId[id := |handles|];
      NewRank(Line(branch, batch, taking, finished), book.ranks, book.next);
      handles := handles + [handle];
      book := book.(owners := book.owners + [ADelegation], places := book.places + [Aside], ranks := book.ranks + [0]);
    }

    /** First step of a child's end: its result and status. */
    method SetResult(h: nat, err: ChildError)
      requires Valid() && h < |handles| && handles[h].status == Running
      modifies this`handles
      ensures Valid() && handles == old(handles)[h := old(handles)[h].(status := StatusOf(err))]
    {
      hide InCompletionOrder, Line, AllHold;
      handles := handles[h := handles[h].(status := StatusOf(err))];
    }

    /** Second step: the registry lists the child and wakes whoever waits. */
    method Record(h: nat)
      requires Valid() && h < |handles| && handles[h].status != Running && !handles[h].recorded
      modifies this`handles, this`finished, this`running, this`changed, this`book
      ensures Valid() && handles == old(handles)[h := old(handles)[h].(recorded := true)]
      ensures book.owners == old(book).owners && finished == old(finished) + [h] && running == old(running) - 1 && changed == old(changed) + 1
    {
      hide InCompletionOrder, Line, AllHold;
      AllHoldListed(finished, taking, batch, branch, book.places, h);
      LastInOrder(Line(branch, batch, taking, finished), book.ranks, book.next, h);
      LineListed(branch, batch, taking, finished, h);
      handles, finished := handles[h := handles[h].(recorded := true)], finished + [h];
      running, changed := running - 1, changed + 1;
      book := book.(places := book.places[h := Listed], ranks := book.ranks[h := book.next], next := book.next + 1, active := book.active - {h});
    }

    /** Third step: the child's own channel is closed. */
    method CloseDone(h: nat)
      requires Valid() && h < |handles| && handles[h].recorded
      modifies this`handles
      ensures Valid() && handles == old(handles)[h := old(handles)[h].(done := true)]
    {
      hide InCompletionOrder, Line, AllHold;
      handles := handles[h := handles[h].(done := true)];
    }

    // ---- tools ----

    method Get(id: string) returns (h: Option<nat>)
      requires Valid()
      ensures h.Some? <==> id in byId
      ensures h.Some? ==> h.value < |handles| && handles[h.value].id == id
    {
      h := if id in byId then Some(byId[id]) else None;
    }

    /** An await returns once the child is done, with the result unless its own call was cancelled
        meanwhile, and then marks it delivered. */
    method Await(h: nat, callCanceled: bool) returns (result: Option<Status>)
      requires Valid() && h < |handles| && (handles[h].done || callCanceled)
      modifies this`handles, this`book
      ensures Valid() && result == if callCanceled then None else Some(old(handles)[h].status)
      ensures handles == if callCanceled then old(handles) else old(handles)[h := old(handles)[h].(delivered := true)]
      ensures book.owners == if callCanceled || old(book).owners[h] != Nobody then old(book).owners else old(book).owners[h := AnAwait]
    {
      hide AllHold, InCompletionOrder, Line;
      if callCanceled {
        return None;
      }
      result := Some(handles[h].status);
      if !handles[h].delivered {
        book := book.(owners := book.owners[h := AnAwait]);
      }
      handles := handles[h := handles[h].(delivered := true)];
    }

    /** A cancel gives up the result of a child that still runs; one that has finished keeps its
        result for the run to append. */
    method Cancel(h: nat) returns (stopped: bool)
      requires Valid() && h < |handles|
      modifies this`handles, this`book
      ensures Valid() && stopped == old(handles)[h].status.Running?
      ensures handles == if stopped then old(handles)[h := old(handles)[h].(delivered := true)] else old(handles)
      ensures book.owners == if stopped && old(book).owners[h] == Nobody then old(book).owners[h := ACancel] else old(book).owners
    {
      hide AllHold, InCompletionOrder, Line;
      stopped := handles[h].status == Running;
      if stopped {
        if !handles[h].delivered {
          book := book.(owners := book.owners[h := ACancel]);
        }
        handles := handles[h := handles[h].(delivered := true)];
      }
    }

    // ---- the run ----

    /** The run copies and clears the registry's list. */
    method Take()
      requires Valid() && taking == [] && batch == [] && waiting.None?
      modifies this`finished, this`taking, this`book
      ensures Valid() && taking == old(finished) && finished == [] && book.owners == old(book).owners
    {
      hide InCompletionOrder, AllHold, Line;
      AllHoldTaken(finished, batch, branch, book.places);
      LineTaken(branch, batch, finished);
      taking, finished := finished, [];
      book := book.(places := Replaced(book.places, Listed, Held));
    }

    /** The run marks the next child of its copy delivered; it appends the result only if nobody
        had it before. */
    method MarkNext() returns (first: bool)
      requires Valid() && taking != []
      modifies this`handles, this`book, this`taking, this`batch
      ensures Valid() && taking == old(taking)[1..] && old(taking)[0] < |old(book).owners| == |old(handles)|
      ensures first == (old(book).owners[old(taking)[0]] == Nobody)
      ensures batch == if first then old(batch) + [old(taking)[0]] else old(batch)
      ensures book.owners == if first then old(book).owners[old(taking)[0] := TheRun] else old(book).owners
      ensures handles == old(handles)[old(taking)[0] := old(handles)[old(taking)[0]].(delivered := true)]
    {
      hide InCompletionOrder, AllHold, Line;
      LineMarked(branch, batch, taking, finished, book.ranks, book.next);
      AllHoldMarked(finished, taking, batch, branch, book.places);
      var h := taking[0];
      first := !handles[h].delivered;
      handles, taking := handles[h := handles[h].(delivered := true)], taking[1..];
      if first {
        batch, book := batch + [h], book.(owners := book.owners[h := TheRun], places := book.places[h := Marked]);
      } else {
        book := book.(places := book.places[h := Aside]);
      }
    }

    /** Appends the next result; a failed append ends the run and leaves the rest. */
    method Inject(ok: bool)
      requires Valid() && taking == [] && batch != []
      modifies this`batch, this`branch, this`book, this`failed
      ensures Valid() && failed == (old(failed) || !ok) && book.owners == old(book).owners
      ensures branch == if ok then old(branch) + [old(batch)[0]] else old(branch)
      ensures batch == if ok then old(batch)[1..] else []
    {
      hide InCompletionOrder, AllHold, Line;
      if !ok {
        AllHoldCut(finished, taking, batch, branch, book.places);
        LineCut(branch, batch, taking, finished, book.ranks, book.next);
        book := book.(places := Replaced(book.places, Marked, Lost));
        batch, failed := [], true;
        return;
      }
      LineAppended(branch, batch, taking, finished, book.ranks, book.next);
      AllHoldAppended(finished, taking, batch, branch, book.places);
      book := book.(places := book.places[batch[0] := Appended]);
      branch, batch := branch + [batch[0]], batch[1..];
    }

    /** Whether the run still has a child to wait for or a result to take. */
    method Outstanding() returns (yes: bool)
      requires Valid()
      ensures yes <==> running > 0 || exists h :: h in finished && h < |handles| && !handles[h].delivered
      ensures !yes && taking == [] && batch == [] && !failed ==>
        forall h | 0 <= h < |handles| :: handles[h].recorded && handles[h].delivered && (h in branch <==> book.owners[h] == TheRun)
    {
      hide InCompletionOrder, Line;
      if running > 0 {
        return true;
      }
      var i := 0;
      while i < |finished|
        invariant i <= |finished| && forall j | 0 <= j < i :: finished[j] < |handles| && handles[finished[j]].delivered
      {
        assert finished[i] in finished;
        if !handles[finished[i]].delivered {
          return true;
        }
        i := i + 1;
      }
      yes := false;
      if taking == [] && batch == [] && !failed {
        NothingOutstanding();
      }
    }

    /** One round of the wait for children: the run goes on when there is something to take or
        nothing to wait for, and otherwise blocks on the open channel. */
    method CheckAndWait() returns (ready: bool)
      requires Valid() && taking == [] && batch == []
      requires waiting.None? || waiting.value < changed
      modifies this`waiting
      ensures Valid() && ready == Ready() && waiting == if ready then None else Some(changed)
    {
      hide InCompletionOrder, Line;
      ready := running == 0;
      var i := 0;
      while i < |finished|
        invariant i <= |finished|
        invariant ready <==> running == 0 || exists j :: 0 <= j < i && finished[j] < |handles| && !handles[finished[j]].delivered
      {
        assert finished[i] in finished;
        if !handles[finished[i]].delivered {
          ready := true;
        }
        i := i + 1;
      }
      waiting := if ready then None else Some(changed);
    }

    /** The run's context is done while it waits. */
    method GiveUp()
      requires Valid() && waiting.Some?
      modifies this`waiting
      ensures Valid() && waiting.None?
    {
      waiting := None;
    }

    /** A blocked run that has something to do has been woken: its channel is closed. */
    lemma WokenWhenReady()
      requires Valid() && waiting.Some? && Ready()
      ensures waiting.value < changed
    {}

    /** A run that finds nothing outstanding, between safe points, can end: every child has finished,
        and its result is on the branch exactly when the run was the first to take it. */
    lemma NothingOutstanding()
      requires Valid() && taking == [] && batch == [] && !failed
      requires running == 0 && forall h | h in finished && h < |handles| :: handles[h].delivered
      ensures forall h | 0 <= h < |handles| :: handles[h].recorded && handles[h].delivered && (h in branch <==> book.owners[h] == TheRun)
    {
      hide InCompletionOrder, Line;
      forall h | 0 <= h < |handles|
        ensures handles[h].recorded && handles[h].delivered && (h in branch <==> book.owners[h] == TheRun)
      {
        assert book.active == {};
        assert Fits(handles[h], book.owners[h], book.places[h]);
      }
    }

    /** A result is on the branch at most once, and only when the run had it first. */
    lemma AppendedOnce()
      requires Valid()
      ensures forall i, j | 0 <= i < j < |branch| :: branch[i] != branch[j]
      ensures forall h | h in branch :: h < |book.owners| && book.owners[h] == TheRun
    {
      var line := Line(branch, batch, taking, finished);
      forall i | 0 <= i < |branch|
        ensures line[i] == branch[i]
      {
      }
      forall i, j | 0 <= i < j < |branch|
        ensures branch[i] != branch[j]
      {
        assert line[i] == branch[i] && line[j] == branch[j];
      }
      forall h | h in branch
        ensures h < |book.owners| && book.owners[h] == TheRun
      {
        assert Fits(handles[h], book.owners[h], book.places[h]);
      }
    }
  }

  // ---- every interleaving ----

  datatype Event =
    | Spawns(id: string)
    | Delegates(id: string, err: ChildError)
    | Ends(h: nat, err: ChildError)
    | IsRecorded(h: nat)
    | Closes(h: nat)
    | Awaits(h: nat, callCanceled: bool)
    | Cancels(h: nat)
    | Takes
    | Marks
    | Injects(ok: bool)
    | Waits
    | GivesUp

  /** The first to deliver a result stays the one who delivered it. */
  ghost predicate OwnersKept(before: seq<Owner>, after: seq<Owner>) {
    |before| <= |after| && forall h | 0 <= h < |before| && before[h] != Nobody :: after[h] == before[h]
  }

  /** Completed after no error, canceled after a cancellation and failed after any other error. */
  ghost predicate Shows(status: Status, err: ChildError) {
    && (status == Completed <==> err == NoError)
    && (status == Canceled <==> err == CanceledError)
    && (status == Failed <==> err != NoError && err != CanceledError)
  }

  /** The child that a step ends, and how. */
  ghost function EndedBy(e: Event, handles: seq<Handle>, after: nat): map<nat, ChildError> {
    match e
    case Ends(h, err) => if h < |handles| && handles[h].status == Running then map[h := err] else map[]
    case Delegates(_, err) => if after > |handles| then map[|handles| := err] else map[]
    case _ => map[]
  }

  /** A child has ended exactly if it is in `ended`, and its status shows how. */
  ghost predicate StatusesShow(handles: seq<Handle>, ended: map<nat, ChildError>) {
    forall h: nat | h < |handles| :: if h in ended then Shows(handles[h].status, ended[h]) else handles[h].status == Running
  }

  /** A child's status changes only at its end, and a delegation starts out ended. */
  ghost predicate StatusesFollow(e: Event, handles: seq<Handle>, after: seq<Handle>) {
    && |handles| <= |after|
    && (forall h: nat | h < |handles| :: after[h].status == handles[h].status || (e.Ends? && e.h == h && handles[h].status == Running))
    && (forall h: nat | |handles| <= h < |after| :: h == |handles| && if e.Delegates? then Shows(after[h].status, e.err) else after[h].status == Running)
    && (e.Ends? && e.h < |handles| && handles[e.h].status == Running ==> Shows(after[e.h].status, e.err))
  }

  lemma StatusesStillShow(e: Event, handles: seq<Handle>, after: seq<Handle>, ended: map<nat, ChildError>)
    requires StatusesFollow(e, handles, after) && StatusesShow(handles, ended) && forall h | h in ended :: h < |handles|
    ensures StatusesShow(after, ended + EndedBy(e, handles, |after|)) && forall h | h in ended + EndedBy(e, handles, |after|) :: h < |after|
  {}

  /** Some event ends the child with this error. */
  ghost predicate EndsSo(events: seq<Event>, h: nat, err: ChildError) {
    exists e :: e in events && (e == Ends(h, err) || (e.Delegates? && e.err == err))
  }

  ghost predicate IsRunEvent(e: Event) {
    e.Takes? || e.Marks? || e.Injects? || e.Waits? || e.GivesUp?
  }

  /** Takes one step of the run, if it is where it can take it. */
  method RunStep(r: Registry, e: Event)
    requires r.Valid() && IsRunEvent(e)
    modifies r
    ensures r.Valid() && old(r.branch) <= r.branch && r.byId == old(r.byId)
    ensures OwnersKept(old(r.book).owners, r.book.owners)
    ensures StatusesFollow(e, old(r.handles), r.handles)
    ensures e.Takes? && old(r.taking) == old(r.batch) == [] && old(r.waiting).None? ==> r.taking == old(r.finished) && r.finished == []
    ensures e.Marks? && old(r.taking) != [] ==> r.taking == old(r.taking)[1..]
    ensures e.Injects? && old(r.taking) == [] && old(r.batch) != [] ==>
      if e.ok then r.branch == old(r.branch) + [old(r.batch)[0]] && r.batch == old(r.batch)[1..] else r.batch == [] && r.failed
    ensures e.Waits? && old(r.taking) == old(r.batch) == [] && old(r.waiting).None? ==> r.waiting == if old(r.Ready()) then None else Some(r.changed)
    ensures e.GivesUp? ==> r.waiting.None?
  {
    hide AllHold, AllNamed, InCompletionOrder, Line, AreActive, Fits, HasResult, Registry.Counted, Registry.Placed, Registry.InOrder, Registry.NoMissedWakeUp, Registry.Ready;
    match e
    case Takes =>
      if r.taking == [] && r.batch == [] && r.waiting.None? {
        r.Take();
      }
    case Marks =>
      if r.taking != [] {
        var _ := r.MarkNext();
      }
    case Injects(ok) =>
      if r.taking == [] && r.batch != [] {
        r.Inject(ok);
      }
    case Waits =>
      if r.taking == [] && r.batch == [] && (r.waiting.None? || r.waiting.value < r.changed) {
        var _ := r.CheckAndWait();
      }
    case GivesUp =>
      if r.waiting.Some? {
        r.GiveUp();
      }
  }

  /** Takes one step if the child, tool or run is where it can take it. */
  method Step(r: Registry, e: Event)
    requires r.Valid()
    modifies r
    ensures r.Valid() && old(r.branch) <= r.branch
    ensures OwnersKept(old(r.book).owners, r.book.owners)
    ensures StatusesFollow(e, old(r.handles), r.handles)
    ensures r.byId.Keys == old(r.byId).Keys + (if e.Spawns? || e.Delegates? then {e.id} else {})
    ensures e.Spawns? ==> r.handles == old(r.handles) + [Handle(e.id, Running, false, false, false)]
    ensures e.IsRecorded? && e.h < |old(r.handles)| && old(r.handles)[e.h].status != Running && !old(r.handles)[e.h].recorded ==> r.finished == old(r.finished) + [e.h]
    ensures e.Closes? && e.h < |old(r.handles)| && old(r.handles)[e.h].recorded ==> r.handles == old(r.handles)[e.h := old(r.handles)[e.h].(done := true)]
    ensures e.Awaits? && e.h < |old(r.handles)| && old(r.handles)[e.h].done && !e.callCanceled ==> r.handles == old(r.handles)[e.h := old(r.handles)[e.h].(delivered := true)]
    ensures e.Cancels? && e.h < |old(r.handles)| && old(r.handles)[e.h].status == Running ==> r.handles == old(r.handles)[e.h := old(r.handles)[e.h].(delivered := true)]
  {
    hide AllHold, AllNamed, InCompletionOrder, Line, AreActive, Fits, HasResult, Registry.Counted, Registry.Placed, Registry.InOrder, Registry.NoMissedWakeUp, Registry.Ready;
    match e
    case Spawns(id) =>
      var _ := r.Add(id);
    case Delegates(id, err) =>
      r.RecordDelegation(id, err);
    case Ends(h, err) =>
      if h < |r.handles| && r.handles[h].status == Running {
        r.SetResult(h, err);
      }
    case IsRecorded(h) =>
      if h < |r.handles| && r.handles[h].status != Running && !r.handles[h].recorded {
        r.Record(h);
      }
    case Closes(h) =>
      if h < |r.handles| && r.handles[h].recorded {
        r.CloseDone(h);
      }
    case Awaits(h, callCanceled) =>
      if h < |r.handles| && (r.handles[h].done || callCanceled) {
        var _ := r.Await(h, callCanceled);
      }
    case Cancels(h) =>
      if h < |r.handles| {
        var _ := r.Cancel(h);
      }
    case _ =>
      RunStep(r, e);
  }

  /** Over every interleaving: `ended` are the children that ended, each with its first and only end,
      which its status shows from then on. `kept` are the results an await returned or a cancel gave up before
      the run took them, and none of them reaches the branch, at any time; those that do are there
      once. */
  method Replay(events: seq<Event>) returns (r: Registry, ghost kept: set<nat>, ghost ended: map<nat, ChildError>)
    ensures fresh(r) && r.Valid()
    ensures StatusesShow(r.handles, ended) && forall h | h in ended :: h < |r.handles| && EndsSo(events, h, ended[h])
    ensures forall e | e in events && (e.Spawns? || e.Delegates?) :: e.id in r.byId
    ensures forall h | h in kept :: h !in r.branch
    ensures forall h | 0 <= h < |r.book.owners| && r.book.owners[h] in {AnAwait, ACancel} :: h in kept
    ensures forall i, j | 0 <= i < j < |r.branch| :: r.branch[i] != r.branch[j]
  {
    hide Registry.Valid;
    r := new Registry();
    kept, ended := {}, map[];
    var i := 0;
    while i < |events|
      invariant i <= |events| && fresh(r) && r.Valid()
      invariant StatusesShow(r.handles, ended) && forall h | h in ended :: h < |r.handles| && EndsSo(events, h, ended[h])
      invariant forall j | 0 <= j < i && (events[j].Spawns? || events[j].Delegates?) :: events[j].id in r.byId
      invariant forall h | h in kept :: h < |r.book.owners| && r.book.owners[h] in {AnAwait, ACancel}
      invariant forall h | 0 <= h < |r.book.owners| && r.book.owners[h] in {AnAwait, ACancel} :: h in kept
    {
      ghost var before := r.handles;
      Step(r, events[i]);
      StatusesStillShow(events[i], before, r.handles, ended);
      ended := ended + EndedBy(events[i], before, |r.handles|);
      ghost var owners := r.book.owners;
      kept := kept + set h: nat | h < |owners| && owners[h] in {AnAwait, ACancel};
      i := i + 1;
    }
    r.AppendedOnce();
  }
}
