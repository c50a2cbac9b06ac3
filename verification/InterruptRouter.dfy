/** The in-process router of approvals and questions (agent/interrupt_router.go), and the wait of a
    tool call for its decision (agent/interrupt.go). Posts, replies, withdrawals and timers come from
    any goroutine under one lock, so every method is one step. A posting is named by the order it
    came in, which stands for the pointer identity the timers compare. */
module InterruptRouter {

  type Id = string

  datatype Option<T> = None | Some(value: T)

  datatype OnExpire = Deny | Fail | Escalate

  datatype Interrupt = Interrupt(id: Id, path: seq<string>, expiresAt: Option<int>, onExpire: OnExpire) {
    predicate Expired(now: int) {
      expiresAt.Some? && now >= expiresAt.value
    }
  }

  /** There is still time to answer. */
  ghost predicate Live(what: Interrupt, now: int) {
    what.expiresAt == None || now < what.expiresAt.value
  }

  datatype Reply = Reply(id: Id, key: string, approved: bool, answer: string, message: string)

  /** `sent` is what the reply channel got, and `closed` whether it was closed. */
  datatype Posting = Posting(what: Interrupt, sent: seq<Reply>, closed: bool, answered: bool, key: string)

  datatype PostResult = Posted(k: nat) | NoId | AlreadyExpired | AlreadyPending

  /** `Delivered` and `Repeated` are both success; a repeated reply changes nothing. */
  datatype Outcome = Delivered | Repeated | Resolved | TooLate | NotFound

  const MAX_REMEMBERED: nat := 1024

  /** A channel gets one reply, or is closed, or neither. */
  ghost predicate Sound(p: Posting) {
    && |p.sent| <= 1 && (p.answered <==> |p.sent| == 1) && (p.closed ==> !p.answered)
    && (p.answered ==> p.sent[0].key == p.key && p.sent[0].id == p.what.id)
  }

  ghost predicate AllSound(postings: seq<Posting>) {
    forall k | 0 <= k < |postings| :: Sound(postings[k])
  }

  /** `latest` is the last posting under an ID. */
  ghost predicate Indexed(postings: seq<Posting>, latest: map<Id, nat>) {
    && (forall k | 0 <= k < |postings| :: IsUnder(postings[k].what.id, k, latest))
    && (forall id | id in latest :: latest[id] < |postings| && postings[latest[id]].what.id == id)
  }

  ghost predicate IsUnder(id: Id, k: nat, latest: map<Id, nat>) {
    id in latest && k <= latest[id]
  }

  /** The table of pending postings speaks about the last one under each ID, which is not closed. */
  ghost predicate PendingFits(pending: map<Id, nat>, postings: seq<Posting>, latest: map<Id, nat>) {
    forall id | id in pending :: id in latest && pending[id] == latest[id] && latest[id] < |postings| && !postings[latest[id]].closed
  }

  /** The last posting of an ID that is remembered as expired was closed. */
  ghost predicate ExpiredFits(pending: map<Id, nat>, expired: set<Id>, answered: map<Id, string>, postings: seq<Posting>, latest: map<Id, nat>) {
    && (forall id | id in expired :: id in latest && id !in pending && id !in answered)
    && (forall id | id in expired && id in latest :: latest[id] < |postings| && postings[latest[id]].closed)
    && |expired| <= MAX_REMEMBERED
  }

  /** The last posting of an ID that is remembered as answered was answered under that key. */
  ghost predicate AnsweredFits(pending: map<Id, nat>, answered: map<Id, string>, postings: seq<Posting>, latest: map<Id, nat>) {
    && (forall id | id in answered :: id in latest && id !in pending)
    && (forall id | id in answered && id in latest ::
         latest[id] < |postings| && postings[latest[id]].answered && postings[latest[id]].key == answered[id])
    && |answered| <= MAX_REMEMBERED
  }

  ghost predicate Consistent(pending: map<Id, nat>, expired: set<Id>, answered: map<Id, string>, postings: seq<Posting>, latest: map<Id, nat>) {
    && AllSound(postings) && Indexed(postings, latest) && PendingFits(pending, postings, latest)
    && ExpiredFits(pending, expired, answered, postings, latest) && AnsweredFits(pending, answered, postings, latest)
  }

  // ---- what each step keeps, table by table ----

  lemma PostIndexed(postings: seq<Posting>, latest: map<Id, nat>, p: Posting)
    requires Indexed(postings, latest)
    ensures Indexed(postings + [p], latest[p.what.id := |postings|])
  {}

  lemma PostPending(pending: map<Id, nat>, postings: seq<Posting>, latest: map<Id, nat>, p: Posting)
    requires PendingFits(pending, postings, latest) && !p.closed
    ensures PendingFits(pending[p.what.id := |postings|], postings + [p], latest[p.what.id := |postings|])
  {}

  lemma PostExpired(pending: map<Id, nat>, expired: set<Id>, answered: map<Id, string>, postings: seq<Posting>, latest: map<Id, nat>, p: Posting)
    requires ExpiredFits(pending, expired, answered, postings, latest)
    ensures var id := p.what.id;
      ExpiredFits(pending[id := |postings|], expired - {id}, answered - {id}, postings + [p], latest[id := |postings|])
  {
    assert |expired - {p.what.id}| <= |expired|;
  }

  lemma PostAnswered(pending: map<Id, nat>, answered: map<Id, string>, postings: seq<Posting>, latest: map<Id, nat>, p: Posting)
    requires AnsweredFits(pending, answered, postings, latest)
    ensures var id := p.what.id; AnsweredFits(pending[id := |postings|], answered - {id}, postings + [p], latest[id := |postings|])
  {
    var id := p.what.id;
    assert (answered - {id}).Keys == answered.Keys - {id} && |answered.Keys - {id}| <= |answered.Keys|;
  }

  lemma PostKeeps(pending: map<Id, nat>, expired: set<Id>, answered: map<Id, string>, postings: seq<Posting>, latest: map<Id, nat>, p: Posting)
    requires Consistent(pending, expired, answered, postings, latest) && !p.closed && Sound(p)
    ensures var id := p.what.id;
      Consistent(pending[id := |postings|], expired - {id}, answered - {id}, postings + [p], latest[id := |postings|])
  {
    hide Indexed, PendingFits, ExpiredFits, AnsweredFits;
    PostIndexed(postings, latest, p);
    PostPending(pending, postings, latest, p);
    PostExpired(pending, expired, answered, postings, latest, p);
    PostAnswered(pending, answered, postings, latest, p);
  }

  /** One posting changes, and stays what its tables say. */
  lemma ChangeIndexed(postings: seq<Posting>, latest: map<Id, nat>, k: nat, p: Posting)
    requires Indexed(postings, latest) && k < |postings| && p.what == postings[k].what
    ensures Indexed(postings[k := p], latest)
  {}

  lemma ExpirePending(pending: map<Id, nat>, postings: seq<Posting>, latest: map<Id, nat>, id: Id, p: Posting)
    requires PendingFits(pending, postings, latest) && Indexed(postings, latest) && id in pending && p.what == postings[pending[id]].what
    ensures PendingFits(pending - {id}, postings[pending[id] := p], latest)
  {}

  lemma ExpireExpired(pending: map<Id, nat>, expired: set<Id>, answered: map<Id, string>, postings: seq<Posting>, latest: map<Id, nat>, id: Id, p: Posting, kept: set<Id>)
    requires ExpiredFits(pending, expired, answered, postings, latest) && PendingFits(pending, postings, latest)
    requires id in pending && id !in answered && p.closed && kept <= expired && |kept| < MAX_REMEMBERED
    ensures ExpiredFits(pending - {id}, kept + {id}, answered, postings[pending[id] := p], latest)
  {}

  /** Taking a pending ID off the table and changing its posting leaves the answered ones alone. */
  lemma ExpireAnswered(pending: map<Id, nat>, answered: map<Id, string>, postings: seq<Posting>, latest: map<Id, nat>, id: Id, p: Posting)
    requires AnsweredFits(pending, answered, postings, latest) && Indexed(postings, latest) && PendingFits(pending, postings, latest)
    requires id in pending
    ensures id !in answered
    ensures AnsweredFits(pending - {id}, answered, postings[pending[id] := p], latest)
  {
    assert id !in answered;
    forall other | other in answered
      ensures latest[other] != pending[id]
    {
      assert postings[latest[other]].what.id == other && postings[latest[id]].what.id == id;
    }
  }

  lemma ExpireKeeps(pending: map<Id, nat>, expired: set<Id>, answered: map<Id, string>, postings: seq<Posting>, latest: map<Id, nat>, id: Id, kept: set<Id>)
    requires Consistent(pending, expired, answered, postings, latest) && id in pending && !postings[pending[id]].answered
    requires kept <= expired && |kept| < MAX_REMEMBERED
    ensures Consistent(pending - {id}, kept + {id}, answered, postings[pending[id] := postings[pending[id]].(closed := true)], latest)
  {
    hide ExpiredFits, AnsweredFits;
    var p := postings[pending[id]].(closed := true);
    ChangeIndexed(postings, latest, pending[id], p);
    ExpirePending(pending, postings, latest, id, p);
    ExpireAnswered(pending, answered, postings, latest, id, p);
    ExpireExpired(pending, expired, answered, postings, latest, id, p, kept);
    hide Indexed, PendingFits;
  }

  lemma AnswerKeeps(pending: map<Id, nat>, expired: set<Id>, answered: map<Id, string>, postings: seq<Posting>, latest: map<Id, nat>, reply: Reply)
    requires Consistent(pending, expired, answered, postings, latest) && reply.id in pending && !postings[pending[reply.id]].answered
    ensures var k := pending[reply.id];
      Consistent(pending, expired, answered, postings[k := postings[k].(answered := true, key := reply.key, sent := postings[k].sent + [reply])], latest)
  {}

  lemma WithdrawExpired(pending: map<Id, nat>, expired: set<Id>, answered: map<Id, string>, postings: seq<Posting>, latest: map<Id, nat>, id: Id, answered': map<Id, string>)
    requires ExpiredFits(pending, expired, answered, postings, latest) && id in pending && answered'.Keys <= answered.Keys + {id}
    ensures ExpiredFits(pending - {id}, expired, answered', postings, latest)
  {}

  lemma WithdrawAnswered(pending: map<Id, nat>, answered: map<Id, string>, postings: seq<Posting>, latest: map<Id, nat>, id: Id, kept: map<Id, string>)
    requires AnsweredFits(pending, answered, postings, latest) && PendingFits(pending, postings, latest) && id in pending
    requires postings[pending[id]].answered && (kept == answered || kept == map[]) && |kept| < MAX_REMEMBERED
    ensures AnsweredFits(pending - {id}, kept[id := postings[pending[id]].key], postings, latest)
  {
    assert kept[id := postings[pending[id]].key].Keys == kept.Keys + {id};
  }

  lemma WithdrawKeeps(pending: map<Id, nat>, expired: set<Id>, answered: map<Id, string>, postings: seq<Posting>, latest: map<Id, nat>, id: Id, kept: map<Id, string>)
    requires Consistent(pending, expired, answered, postings, latest) && id in pending
    requires kept == answered || kept == map[]
    ensures Consistent(pending - {id}, expired, answered, postings, latest)
    ensures postings[pending[id]].answered && |kept| < MAX_REMEMBERED ==>
      Consistent(pending - {id}, expired, kept[id := postings[pending[id]].key], postings, latest)
  {
    hide ExpiredFits, Indexed, AllSound;
    WithdrawExpired(pending, expired, answered, postings, latest, id, answered);
    WithdrawExpired(pending, expired, answered, postings, latest, id, kept[id := postings[pending[id]].key]);
    if postings[pending[id]].answered && |kept| < MAX_REMEMBERED {
      WithdrawAnswered(pending, answered, postings, latest, id, kept);
    }
  }

  /** Postings are never undone: a channel keeps its reply, and stays closed. */
  ghost predicate Grown(before: seq<Posting>, after: seq<Posting>) {
    && |before| <= |after|
    && forall k | 0 <= k < |before| :: before[k].what == after[k].what && before[k].sent <= after[k].sent && (before[k].closed ==> after[k].closed)
  }

  /** A reply was delivered under this ID and key, and is still known. */
  predicate Known(pending: map<Id, nat>, answered: map<Id, string>, postings: seq<Posting>, id: Id, key: string) {
    if id in pending then pending[id] < |postings| && postings[pending[id]].answered && postings[pending[id]].key == key
    else id in answered && answered[id] == key
  }

  /** What is known stays so, but for one ID. */
  ghost predicate KeepsKeys(pending: map<Id, nat>, answered: map<Id, string>, postings: seq<Posting>, pending': map<Id, nat>, answered': map<Id, string>, postings': seq<Posting>, but: Option<Id>) {
    forall id, key | Known(pending, answered, postings, id, key) && but != Some(id) :: Known(pending', answered', postings', id, key)
  }

  lemma NothingForgotten(pending: map<Id, nat>, answered: map<Id, string>, postings: seq<Posting>)
    ensures KeepsKeys(pending, answered, postings, pending, answered, postings, None)
  {}

  /** A posting nobody has answered is not known, so it may change, and leave the table. */
  lemma UnansweredChanges(pending: map<Id, nat>, answered: map<Id, string>, postings: seq<Posting>, id: Id, p: Posting)
    requires id in pending && pending[id] < |postings| && !postings[pending[id]].answered
    ensures KeepsKeys(pending, answered, postings, pending, answered, postings[pending[id] := p], None)
    ensures id !in answered ==> KeepsKeys(pending, answered, postings, pending - {id}, answered, postings[pending[id] := p], None)
  {}

  class Router {
    var pending: map<Id, nat>
    var expired: set<Id>
    /** The keys of the replies to answered interrupts that were withdrawn. */
    var answered: map<Id, string>
    var postings: seq<Posting>
    ghost var latest: map<Id, nat>

    ghost predicate Valid()
      reads this
    {
      Consistent(pending, expired, answered, postings, latest)
    }

    constructor ()
      ensures Valid() && postings == [] && latest == map[] && pending == map[] && expired == {} && answered == map[]
    {
      pending, expired, answered, postings, latest := map[], {}, map[], [], map[];
    }

    /** Posts an interrupt under an ID that is not pending; what was remembered about an earlier one
        under the same ID is forgotten. */
    method Post(what: Interrupt, now: int) returns (r: PostResult)
      requires Valid()
      modifies this
      ensures Valid()
      ensures r.Posted? <==> what.id != "" && Live(what, now) && what.id !in old(pending)
      ensures r.Posted? ==> r.k == |old(postings)|
      ensures r.NoId? <==> what.id == ""
      ensures r.AlreadyExpired? <==> what.id != "" && !Live(what, now)
      ensures r.Posted? ==> postings == old(postings) + [Posting(what, [], false, false, "")] && latest == old(latest)[what.id := r.k]
      ensures r.Posted? ==> pending == old(pending)[what.id := r.k] && expired == old(expired) - {what.id} && answered == old(answered) - {what.id}
      ensures !r.Posted? ==> unchanged(this)
      ensures KeepsKeys(old(pending), old(answered), old(postings), pending, answered, postings, Some(what.id))
    {
      hide Consistent;
      if what.id == "" {
        return NoId;
      }
      if what.Expired(now) {
        return AlreadyExpired;
      }
      if what.id in pending {
        return AlreadyPending;
      }
      r := Posted(|postings|);
      PostKeeps(pending, expired, answered, postings, latest, Posting(what, [], false, false, ""));
      expired, answered := expired - {what.id}, answered - {what.id};
      pending, latest := pending[what.id := |postings|], latest[what.id := |postings|];
      postings := postings + [Posting(what, [], false, false, "")];
    }

    /** Takes an unanswered posting off the table as expired, and closes its channel. */
    method ExpirePosting(id: Id)
      requires Valid() && id in pending && pending[id] < |postings| && !postings[pending[id]].answered
      modifies this`pending, this`expired, this`postings
      ensures Valid() && pending == old(pending) - {id}
      ensures expired == (if |old(expired)| >= 1024 then {} else old(expired)) + {id}
      ensures postings == old(postings)[old(pending)[id] := old(postings)[old(pending)[id]].(closed := true)]
      ensures KeepsKeys(old(pending), answered, old(postings), pending, answered, postings, None)
    {
      hide Consistent, KeepsKeys;
      AnsweredIsPending(id);
      UnansweredChanges(pending, answered, postings, id, postings[pending[id]].(closed := true));
      var kept := if |expired| >= MAX_REMEMBERED then {} else expired;
      ExpireKeeps(pending, expired, answered, postings, latest, id, kept);
      postings := postings[pending[id] := postings[pending[id]].(closed := true)];
      pending, expired := pending - {id}, kept + {id};
    }

    /** The timer of posting `k` fires, perhaps long after it was stopped. It touches that posting
        only, and only while it is pending and unanswered. */
    method Fire(k: nat)
      requires Valid() && k < |postings|
      modifies this`pending, this`expired, this`postings
      ensures Valid()
      ensures var id := old(postings)[k].what.id;
              var due := id in old(pending) && old(pending)[id] == k && !old(postings)[k].answered;
              && (!due ==> unchanged(this))
              && (due ==> postings == old(postings)[k := old(postings)[k].(closed := true)] && pending == old(pending) - {id})
              && (due ==> expired == (if |old(expired)| >= 1024 then {} else old(expired)) + {id})
      ensures KeepsKeys(old(pending), old(answered), old(postings), pending, answered, postings, None)
    {
      hide Consistent, KeepsKeys;
      NothingForgotten(pending, answered, postings);
      var id := postings[k].what.id;
      if id !in pending || pending[id] != k || postings[k].answered {
        return;
      }
      ExpirePosting(id);
    }

    /** What a reply to `id` meets: the posting that is pending under it, or what is remembered. */
    predicate AnsweredUnder(id: Id, key: string)
      requires Valid()
      reads this
    {
      Known(pending, answered, postings, id, key)
    }

    /** Delivers a decision to the posting that is pending and unanswered under its ID. */
    method Answer(reply: Reply, now: int) returns (r: Outcome)
      requires Valid()
      modifies this`pending, this`expired, this`postings
      ensures Valid()
      ensures r.Delivered? <==> reply.id in old(pending) && !old(postings)[old(pending)[reply.id]].answered && Live(old(postings)[old(pending)[reply.id]].what, now)
      ensures r.Delivered? ==> pending == old(pending) && pending[reply.id] < |old(postings)| && old(postings)[pending[reply.id]].sent == []
      ensures r.Delivered? ==> var k := pending[reply.id]; postings == old(postings)[k := old(postings)[k].(answered := true, key := reply.key, sent := [reply])]
      ensures r.Repeated? <==> reply.key != "" && old(AnsweredUnder(reply.id, reply.key))
      ensures r.Repeated? || r.Resolved? <==> reply.id in old(answered) || (reply.id in old(pending) && old(postings)[old(pending)[reply.id]].answered)
      ensures r.NotFound? <==> reply.id !in old(pending) && reply.id !in old(answered) && reply.id !in old(expired)
      ensures r.TooLate? ==> reply.id in expired && reply.id !in pending
      ensures r.Delivered? ==> expired == old(expired)
      ensures r in {Repeated, Resolved, NotFound} ==> unchanged(this)
      ensures r.TooLate? && reply.id !in old(pending) ==> unchanged(this)
      ensures r.TooLate? && reply.id in old(pending) ==> old(pending)[reply.id] < |old(postings)| && pending == old(pending) - {reply.id}
      ensures r.TooLate? && reply.id in old(pending) ==> var k := old(pending)[reply.id]; postings == old(postings)[k := old(postings)[k].(closed := true)]
      ensures KeepsKeys(old(pending), old(answered), old(postings), pending, answered, postings, None)
    {
      hide ExpiredFits, AnsweredFits, KeepsKeys;
      NothingForgotten(pending, answered, postings);
      var id := reply.id;
      if id !in pending {
        if id in answered {
          return if reply.key != "" && reply.key == answered[id] then Repeated else Resolved;
        }
        return if id in expired then TooLate else NotFound;
      }
      var k := pending[id];
      AnsweredIsPending(id);
      if postings[k].answered {
        return if reply.key != "" && reply.key == postings[k].key then Repeated else Resolved;
      }
      assert postings[k].sent + [reply] == [reply];
      if postings[k].what.Expired(now) {
        ExpirePosting(id);
        return TooLate;
      }
      AnswerKeeps(pending, expired, answered, postings, latest, reply);
      UnansweredChanges(pending, answered, postings, id, postings[k].(answered := true, key := reply.key, sent := postings[k].sent + [reply]));
      postings := postings[k := postings[k].(answered := true, key := reply.key, sent := postings[k].sent + [reply])];
      r := Delivered;
    }

    lemma AnsweredIsPending(id: Id)
      requires Valid() && id in pending
      ensures id !in answered && id !in expired && Sound(postings[pending[id]])
    {}

    /** The waiter stops waiting; it reports whether its interrupt had been answered. */
    method Withdraw(id: Id) returns (wasAnswered: bool)
      requires Valid()
      modifies this`pending, this`answered
      ensures Valid() && pending == old(pending) - {id}
      ensures wasAnswered == if id in old(pending) then old(postings)[old(pending)[id]].answered else id in old(answered)
      ensures wasAnswered && id in old(pending) ==>
        answered == (if |old(answered)| >= 1024 then map[] else old(answered))[id := postings[old(pending)[id]].key]
      ensures !(wasAnswered && id in old(pending)) ==> answered == old(answered)
      ensures |old(answered)| < 1024 ==> KeepsKeys(old(pending), old(answered), old(postings), pending, answered, postings, None)
      ensures |answered| <= |old(answered)| + 1
    {
      hide Consistent;
      if id !in pending {
        assert pending - {id} == pending;
        return id in answered;
      }
      PendingInRange(id);
      var k := pending[id];
      var kept := if |answered| >= MAX_REMEMBERED then map[] else answered;
      WithdrawKeeps(pending, expired, answered, postings, latest, id, kept);
      pending := pending - {id};
      if postings[k].answered {
        answered := kept[id := postings[k].key];
      }
      wasAnswered := postings[k].answered;
    }

    lemma PendingInRange(id: Id)
      requires Valid() && id in pending
      ensures pending[id] < |postings|
    {}
  }

  // ---- every history ----

  datatype Event =
    | Posts(what: Interrupt, now: int)
    | Replies(reply: Reply, now: int)
    | Fires(k: nat)
    | Withdraws(id: Id)

  predicate PostsUnder(e: Event, id: Id) {
    e.Posts? && e.what.id == id
  }

  /** What a posting got on its channel came from a reply under its ID. */
  ghost predicate FromReplies(before: seq<Posting>, after: seq<Posting>, replies: set<Reply>) {
    forall k | 0 <= k < |after| && (k >= |before| || after[k].sent != before[k].sent) :: forall r | r in after[k].sent :: r in replies
  }

  function RepliesOf(events: seq<Event>): set<Reply> {
    set e | e in events && e.Replies? :: e.reply
  }

  /** What becomes of a posting while it is watched: the first event that concerns it decides. */
  datatype Fate = Undecided | Replied(reply: Reply) | Lapsed | Withdrawn

  ghost function FateBy(what: Interrupt, k: nat, e: Event): Fate {
    match e
    case Posts(_, _) => Undecided
    case Replies(r, now) => if r.id != what.id then Undecided else if Live(what, now) then Replied(r) else Lapsed
    case Fires(j) => if j == k then Lapsed else Undecided
    case Withdraws(id) => if id == what.id then Withdrawn else Undecided
  }

  ghost function FateOf(what: Interrupt, k: nat, events: seq<Event>): Fate {
    if events == [] then Undecided else
      var n := |events| - 1;
      var before := FateOf(what, k, events[..n]);
      if before.Undecided? then FateBy(what, k, events[n]) else before
  }

  /** The first event that decides, decides. */
  lemma {:induction false} FirstDecides(what: Interrupt, k: nat, events: seq<Event>, i: nat)
    requires i < |events| && forall j | 0 <= j < i :: FateBy(what, k, events[j]).Undecided?
    requires !FateBy(what, k, events[i]).Undecided?
    ensures FateOf(what, k, events) == FateBy(what, k, events[i])
    decreases |events|
  {
    hide FateBy;
    var n := |events| - 1;
    if i < n {
      FirstDecides(what, k, events[..n], i);
    } else {
      NoneDecides(what, k, events[..n]);
    }
  }

  lemma {:induction false} NoneDecides(what: Interrupt, k: nat, events: seq<Event>)
    requires forall j | 0 <= j < |events| :: FateBy(what, k, events[j]).Undecided?
    ensures FateOf(what, k, events).Undecided?
  {
    if events != [] {
      NoneDecides(what, k, events[..|events| - 1]);
    }
  }

  /** The channel of a posting shows its fate. */
  ghost predicate Shows(p: Posting, fate: Fate) {
    match fate
    case Replied(r) => p.sent == [r] && !p.closed
    case Lapsed => p.sent == [] && p.closed
    case _ => p.sent == [] && !p.closed
  }

  /** Posting `k` has its fate, and waits under its ID exactly while nothing has decided. */
  ghost predicate Tracks(pending: map<Id, nat>, postings: seq<Posting>, k: nat, fate: Fate) {
    && k < |postings| && Shows(postings[k], fate)
    && var id := postings[k].what.id;
      && (fate.Undecided? ==> id in pending && pending[id] == k && !postings[k].answered)
      && (fate.Lapsed? || fate.Withdrawn? ==> id !in pending || pending[id] != k)
  }

  lemma PendingNames(router: Router, id: Id)
    requires router.Valid() && id in router.pending
    ensures id !in router.answered
    ensures router.pending[id] < |router.postings| && router.postings[router.pending[id]].what.id == id
    ensures Sound(router.postings[router.pending[id]]) && !router.postings[router.pending[id]].closed
  {}

  lemma GrownFurther(a: seq<Posting>, b: seq<Posting>, c: seq<Posting>, all: set<Reply>, more: set<Reply>)
    requires Grown(a, b) && Grown(b, c) && FromReplies(a, b, all) && FromReplies(b, c, more) && more <= all
    ensures Grown(a, c) && FromReplies(a, c, all)
  {
    forall k, r | 0 <= k < |c| && (k >= |a| || c[k].sent != a[k].sent) && r in c[k].sent
      ensures r in all
    {
      if k < |b| && c[k].sent == b[k].sent {
        assert r in b[k].sent;
      }
    }
  }

  /** The fate of every posting goes on with what a step makes of it. */
  ghost predicate FatesFollow(e: Event, pending: map<Id, nat>, postings: seq<Posting>, pending': map<Id, nat>, postings': seq<Posting>) {
    forall k, fate | 0 <= k < |postings| && Tracks(pending, postings, k, fate) ::
      Tracks(pending', postings', k, if fate.Undecided? then FateBy(postings[k].what, k, e) else fate)
  }

  method ReplyStep(router: Router, reply: Reply, now: int)
    requires router.Valid()
    modifies router
    ensures router.Valid() && Grown(old(router.postings), router.postings) && router.latest == old(router.latest) && router.answered == old(router.answered)
    ensures FromReplies(old(router.postings), router.postings, {reply}) && router.pending.Keys <= old(router.pending).Keys
    ensures FatesFollow(Replies(reply, now), old(router.pending), old(router.postings), router.pending, router.postings)
    ensures KeepsKeys(old(router.pending), old(router.answered), old(router.postings), router.pending, router.answered, router.postings, None)
  {
    hide Consistent, KeepsKeys, Known;
    if reply.id in router.pending {
      PendingNames(router, reply.id);
    }
    ghost var pending, postings := router.pending, router.postings;
    var r := router.Answer(reply, now);
    forall k, fate | 0 <= k < |postings| && Tracks(pending, postings, k, fate)
      ensures Tracks(router.pending, router.postings, k, if fate.Undecided? then FateBy(postings[k].what, k, Replies(reply, now)) else fate)
    {
      assert reply.id in pending && pending[reply.id] != k ==> router.postings[k] == postings[k];
    }
  }

  method Step(router: Router, e: Event)
    requires router.Valid()
    modifies router
    ensures router.Valid() && Grown(old(router.postings), router.postings)
    ensures FromReplies(old(router.postings), router.postings, RepliesOf([e]))
    ensures forall id | id in old(router.latest) && !PostsUnder(e, id) :: id in router.latest && router.latest[id] == old(router.latest)[id]
    ensures forall id | id in router.pending && !PostsUnder(e, id) :: id in old(router.pending)
    ensures FatesFollow(e, old(router.pending), old(router.postings), router.pending, router.postings)
    ensures e.Withdraws? ==> e.id !in router.pending
    ensures |router.answered| <= |old(router.answered)| + (if e.Withdraws? then 1 else 0)
    ensures |old(router.answered)| + (if e.Withdraws? then 1 else 0) <= 1024 ==>
      KeepsKeys(old(router.pending), old(router.answered), old(router.postings), router.pending, router.answered, router.postings, if e.Posts? then Some(e.what.id) else None)
  {
    hide Consistent, KeepsKeys, Known;
    NothingForgotten(router.pending, router.answered, router.postings);
    assert e in [e];
    match e
    case Posts(what, now) =>
      var _ := router.Post(what, now);
    case Replies(reply, now) =>
      assert RepliesOf([e]) == {reply};
      ReplyStep(router, reply, now);
    case Fires(k) =>
      if k < |router.postings| {
        if router.postings[k].what.id in router.pending {
          PendingNames(router, router.postings[k].what.id);
        }
        router.Fire(k);
      }
    case Withdraws(id) =>
      var _ := router.Withdraw(id);
  }

  /** How many waits end over some events. */
  function WithdrawalsIn(events: seq<Event>): nat {
    if events == [] then 0 else WithdrawalsIn(events[..|events| - 1]) + (if events[|events| - 1].Withdraws? then 1 else 0)
  }

  /** Over every history, each channel gets at most one reply, from a reply under its ID, or is
      closed, never both, and nothing of that is undone. */
  method Run(router: Router, events: seq<Event>)
    requires router.Valid()
    modifies router
    ensures router.Valid() && AllSound(router.postings) && Grown(old(router.postings), router.postings)
    ensures FromReplies(old(router.postings), router.postings, RepliesOf(events))
    ensures forall id | id in old(router.latest) && (forall e | e in events :: !PostsUnder(e, id)) ::
      id in router.latest && router.latest[id] == old(router.latest)[id]
    ensures |router.expired| <= MAX_REMEMBERED && |router.answered| <= MAX_REMEMBERED
    ensures forall id | id in router.pending && (forall e | e in events :: !PostsUnder(e, id)) :: id in old(router.pending)
    ensures forall k | 0 <= k < |old(router.postings)| && Tracks(old(router.pending), old(router.postings), k, Undecided) ::
      Tracks(router.pending, router.postings, k, FateOf(old(router.postings)[k].what, k, events))
    ensures forall id | Withdraws(id) in events && (forall e | e in events :: !PostsUnder(e, id)) :: id !in router.pending
    ensures |old(router.answered)| + WithdrawalsIn(events) <= 1024 ==>
      forall id, key | Known(old(router.pending), old(router.answered), old(router.postings), id, key) && (forall e | e in events :: !PostsUnder(e, id)) ::
        Known(router.pending, router.answered, router.postings, id, key)
  {
    hide Grown, FromReplies, Consistent, Tracks, FateBy, Known;
    GrownAtFirst(router.postings, RepliesOf(events));
    var i := 0;
    while i < |events|
      invariant i <= |events| && router.Valid()
      invariant Grown(old(router.postings), router.postings) && FromReplies(old(router.postings), router.postings, RepliesOf(events))
      invariant forall id | id in old(router.latest) && (forall e | e in events :: !PostsUnder(e, id)) ::
        id in router.latest && router.latest[id] == old(router.latest)[id]
      invariant forall id | id in router.pending && (forall e | e in events :: !PostsUnder(e, id)) :: id in old(router.pending)
      invariant |old(router.postings)| <= |router.postings| && forall k | 0 <= k < |old(router.postings)| :: router.postings[k].what == old(router.postings)[k].what
      invariant forall k | 0 <= k < |old(router.postings)| && Tracks(old(router.pending), old(router.postings), k, Undecided) ::
        Tracks(router.pending, router.postings, k, FateOf(old(router.postings)[k].what, k, events[..i]))
      invariant forall id | Withdraws(id) in events[..i] && (forall e | e in events :: !PostsUnder(e, id)) :: id !in router.pending
      invariant |router.answered| <= |old(router.answered)| + WithdrawalsIn(events[..i]) && WithdrawalsIn(events[..i]) <= WithdrawalsIn(events)
      invariant |old(router.answered)| + WithdrawalsIn(events) <= 1024 ==>
        forall id, key | Known(old(router.pending), old(router.answered), old(router.postings), id, key) && (forall e | e in events :: !PostsUnder(e, id)) ::
          Known(router.pending, router.answered, router.postings, id, key)
    {
      MoreWithdrawals(events, i);
      ghost var before := router.postings;
      var e := events[i];
      assert e in events;
      Step(router, e);
      SameWhat(before, router.postings);
      assert events[..i + 1][..i] == events[..i];
      GrownFurther(old(router.postings), before, router.postings, RepliesOf(events), RepliesOf([e]));
      i := i + 1;
    }
    assert events[..i] == events;
    ConsistentIsSound(router.pending, router.expired, router.answered, router.postings, router.latest);
  }

  lemma {:induction false} MoreWithdrawals(events: seq<Event>, i: nat)
    requires i < |events|
    ensures WithdrawalsIn(events[..i + 1]) == WithdrawalsIn(events[..i]) + (if events[i].Withdraws? then 1 else 0) <= WithdrawalsIn(events)
    decreases |events| - i
  {
    assert events[..i + 1][..i] == events[..i];
    if i + 1 == |events| {
      assert events[..i + 1] == events;
    } else {
      MoreWithdrawals(events, i + 1);
    }
  }

  lemma SameWhat(before: seq<Posting>, after: seq<Posting>)
    requires Grown(before, after)
    ensures |before| <= |after| && forall k | 0 <= k < |before| :: after[k].what == before[k].what
  {}

  lemma GrownAtFirst(postings: seq<Posting>, replies: set<Reply>)
    ensures Grown(postings, postings) && FromReplies(postings, postings, replies)
  {}

  lemma ConsistentIsSound(pending: map<Id, nat>, expired: set<Id>, answered: map<Id, string>, postings: seq<Posting>, latest: map<Id, nat>)
    requires Consistent(pending, expired, answered, postings, latest)
    ensures AllSound(postings) && |expired| <= MAX_REMEMBERED && |answered| <= MAX_REMEMBERED
    ensures expired !! answered.Keys !! pending.Keys
  {}

  // ---- a reply sent twice ----

  /** A delivered reply that is sent again under its own ID and key, after anything but another post
      under that ID, changes nothing. It succeeds exactly while its key is remembered, and that is as
      long as at most 1024 answers have been remembered with it. */
  method SendTwice(router: Router, reply: Reply, again: Reply, now: int, events: seq<Event>, later: int) returns (first: Outcome, second: Outcome)
    requires router.Valid() && again.id == reply.id && again.key == reply.key
    requires forall e | e in events :: !PostsUnder(e, reply.id)
    modifies router
    ensures router.Valid()
    ensures first.Delivered? ==> second in {Repeated, Resolved, NotFound}
    ensures first.Delivered? && second.Repeated? ==> reply.key != ""
    ensures first.Delivered? && reply.key != "" ==> (second.Repeated? <==> reply.id in router.pending || reply.id in router.answered)
    ensures first.Delivered? && reply.key != "" && |old(router.answered)| + WithdrawalsIn(events) <= 1024 ==> second.Repeated?
    ensures first.Delivered? && Withdraws(reply.id) in events ==> reply.id !in router.pending
    ensures first.Delivered? ==> reply.id in router.latest && router.latest[reply.id] < |router.postings| && router.postings[router.latest[reply.id]].sent == [reply]
  {
    hide FromReplies, Sound;
    first := router.Answer(reply, now);
    second := NotFound;
    if first.Delivered? {
      ghost var k := router.pending[reply.id];
      Run(router, events);
      LatestStaysAnswered(router, k, reply);
      second := router.Answer(again, later);
    }
  }

  lemma LatestStaysAnswered(router: Router, k: nat, reply: Reply)
    requires router.Valid() && k < |router.postings| && reply.id in router.latest && router.latest[reply.id] == k
    requires [reply] <= router.postings[k].sent
    ensures router.postings[k].sent == [reply] && router.postings[k].answered && router.postings[k].key == reply.key
    ensures reply.id !in router.expired
    ensures reply.id in router.pending ==> router.pending[reply.id] == k
    ensures reply.id in router.answered ==> router.answered[reply.id] == reply.key
  {
    assert Sound(router.postings[k]);
    assert router.postings[k].sent == [reply];
  }

  /** An ID of its own for every number. */
  function Name(i: nat): Id {
    seq(i + 1, j => 'x')
  }

  /** One interrupt is posted, answered and withdrawn while no other is pending. */
  method PassBy(router: Router, reply: Reply) returns (delivered: Outcome)
    requires router.Valid() && router.pending == map[] && router.expired == {} && reply.id != "" && reply.id !in router.answered
    modifies router
    ensures router.Valid() && router.pending == map[] && router.expired == {} && delivered.Delivered?
    ensures router.answered == (if |old(router.answered)| >= 1024 then map[] else old(router.answered))[reply.id := reply.key]
  {
    hide Consistent;
    assert router.answered - {reply.id} == router.answered;
    var _ := router.Post(Interrupt(reply.id, [], None, Deny), 0);
    delivered := router.Answer(reply, 0);
    var _ := router.Withdraw(reply.id);
  }

  /** A repeat under the same key does not always succeed: 1025 interrupts are posted, answered and
      withdrawn, and then the first reply is sent again and is not known. */
  method Forgets(reply: Reply) returns (router: Router, first: Outcome, second: Outcome)
    requires reply.id == Name(0)
    ensures fresh(router) && router.Valid() && first.Delivered? && second.NotFound?
  {
    hide Router.Valid, Consistent;
    router := new Router();
    first := NotFound;
    var i := 0;
    while i <= 1024
      invariant i <= 1025 && fresh(router) && router.Valid() && router.pending == map[] && router.expired == {}
      invariant i <= 1024 ==> |router.answered| == i && forall id | id in router.answered :: |id| <= i
      invariant i == 1025 ==> router.answered.Keys == {Name(1024)}
      invariant i > 0 ==> first.Delivered?
    {
      var delivered := PassBy(router, reply.(id := Name(i)));
      first := if i == 0 then delivered else first;
      i := i + 1;
    }
    assert |Name(0)| == 1 && |Name(1024)| == 1025;
    second := router.Answer(reply, 0);
  }

  // ---- waiting for a decision ----

  datatype Reason = NotPosted | ByReply | WaitCanceled | ExpiredFailing | ExpiredDenied | StillWaiting

  /** The decision of a wait. `ByReply` is a rejection somebody sent. */
  datatype Verdict = Approved(message: string) | Rejected(reason: Reason)

  /** What happens while one posting waits: the steps of others, and whether the call is cancelled. */
  datatype Round = Round(now: int, events: seq<Event>, canceled: bool, lateClock: int)

  /** An answer counts as an approval, so that a question can be answered with it alone. */
  function ReplyDecision(r: Reply): (v: Verdict)
    ensures v.Approved? <==> r.approved || r.answer != ""
    ensures v.Rejected? ==> v.reason == ByReply
  {
    if !r.approved && r.answer == "" then Rejected(ByReply)
    else Approved(if r.answer == "" then r.message else r.answer)
  }

  /** An expired interrupt goes one level up under its own ID, with a fresh deadline, and denies when
      that passes too. */
  function Escalated(what: Interrupt, id: Id, now: int, ttl: nat): Interrupt
    requires what.path != []
  {
    Interrupt(id, what.path[..|what.path| - 1], if ttl > 0 then Some(now + ttl) else None, Deny)
  }

  /** The verdict a fate leads to: a cancelled wait ends as such, a reply is obeyed, and an interrupt
      that lapsed is refused. */
  ghost predicate Follows(v: Verdict, canceled: bool, fate: Fate, onExpire: OnExpire) {
    if canceled then v == Rejected(WaitCanceled)
    else match fate
      case Replied(r) =>
        && (v.Approved? <==> r.approved || r.answer != "")
        && (v.Approved? ==> v.message == if r.answer != "" then r.answer else r.message)
        && (v.Rejected? ==> v.reason.ByReply?)
      case Lapsed => v == Rejected(if onExpire.Fail? then ExpiredFailing else ExpiredDenied)
      case _ => v == Rejected(StillWaiting)
  }

  ghost predicate GoesUp(what: Interrupt, round: Round, fate: Fate) {
    !round.canceled && fate.Lapsed? && what.onExpire.Escalate? && what.path != []
  }

  /** The interrupt one level up: the same path but for its last step, and the whole time again. */
  ghost predicate IsOneUp(up: Interrupt, what: Interrupt, newId: Id, now: int, ttl: nat) {
    && up.id == newId && up.onExpire.Deny?
    && (exists last :: up.path + [last] == what.path)
    && forall t :: Live(up, t) <==> ttl == 0 || t < now + ttl
  }

  lemma EscalatedIsOneUp(what: Interrupt, newId: Id, now: int, ttl: nat)
    requires what.path != []
    ensures IsOneUp(Escalated(what, newId, now, ttl), what, newId, now, ttl)
  {
    assert Escalated(what, newId, now, ttl).path + [what.path[|what.path| - 1]] == what.path;
  }

  /** The wait for posting `k`; unless it goes on waiting, it is withdrawn. */
  method WaitFor(router: Router, k: nat, round: Round) returns (p: Posting)
    requires router.Valid() && Tracks(router.pending, router.postings, k, Undecided)
    modifies router
    ensures router.Valid() && AllSound(router.postings) && Grown(old(router.postings), router.postings)
    ensures FromReplies(old(router.postings), router.postings, RepliesOf(round.events))
    ensures k < |router.postings| && p == router.postings[k] && p.what == old(router.postings)[k].what
    ensures Shows(p, FateOf(p.what, k, round.events))
    ensures p.sent != [] || p.closed || round.canceled ==> p.what.id !in router.pending
    ensures forall id | id in router.pending && (forall e | e in round.events :: !PostsUnder(e, id)) :: id in old(router.pending)
  {
    hide Consistent, RepliesOf, FateOf, Known, FromReplies, AllSound, Grown;
    ghost var before := router.postings;
    Run(router, round.events);
    SameWhat(before, router.postings);
    p := router.postings[k];
    assert Tracks(router.pending, router.postings, k, FateOf(p.what, k, round.events));
    if p.sent != [] || p.closed || round.canceled {
      var _ := router.Withdraw(p.what.id);
    }
  }

  /** One posting and the wait for it. */
  method Watch(router: Router, what: Interrupt, round: Round) returns (r: PostResult, p: Posting)
    requires router.Valid()
    modifies router
    ensures router.Valid() && AllSound(router.postings) && Grown(old(router.postings), router.postings)
    ensures r.Posted? <==> what.id != "" && Live(what, round.now) && what.id !in old(router.pending)
    ensures !r.Posted? ==> unchanged(router)
    ensures r.Posted? ==> r.k == |old(router.postings)| < |router.postings| && p == router.postings[r.k] && p.what == what
    ensures r.Posted? ==> Shows(p, FateOf(what, r.k, round.events))
    ensures r.Posted? && (p.sent != [] || p.closed || round.canceled) ==> what.id !in router.pending
    ensures forall id | id in router.pending && (forall e | e in round.events :: !PostsUnder(e, id)) :: id in old(router.pending) || id == what.id
  {
    hide Consistent, RepliesOf, FateOf, Live, Shows;
    p := Posting(what, [], false, false, "");
    r := router.Post(what, round.now);
    ConsistentIsSound(router.pending, router.expired, router.answered, router.postings, router.latest);
    GrownAtFirst(old(router.postings), {});
    if !r.Posted? {
      return;
    }
    NotYetDecided(router.pending, router.postings, r.k);
    ghost var before := router.postings;
    p := WaitFor(router, r.k, round);
    GrownFurther(before[..r.k], before, router.postings, RepliesOf(round.events) + {}, RepliesOf(round.events));
  }

  lemma NotYetDecided(pending: map<Id, nat>, postings: seq<Posting>, k: nat)
    requires k < |postings| && postings[k] == Posting(postings[k].what, [], false, false, "")
    requires postings[k].what.id in pending && pending[postings[k].what.id] == k
    ensures Tracks(pending, postings, k, Undecided)
  {}

  /** Posts an interrupt and waits for its reply. The first event that concerns the posting decides: a
      reply in time is obeyed, whichever it is, and nothing else approves. An interrupt that lapsed is
      posted once more, one level up, when it says so and there is such a level. `newId` names that one. */
  method WaitInterrupt(router: Router, what: Interrupt, newId: Id, ttl: nat, rounds: (Round, Round)) returns (v: Verdict, posted: seq<nat>)
    requires router.Valid()
    modifies router
    ensures router.Valid() && |posted| <= 2 && forall k | k in posted :: k < |router.postings|
    ensures posted != [] <==> what.id != "" && Live(what, rounds.0.now) && what.id !in old(router.pending)
    ensures posted == [] ==> v == Rejected(NotPosted)
    ensures posted != [] ==> posted[0] == |old(router.postings)| && IsFate(router.postings, posted[0], what, rounds.0.events)
    ensures posted != [] ==> var fate := FateOf(what, posted[0], rounds.0.events);
      if !GoesUp(what, rounds.0, fate) then |posted| == 1 && Follows(v, rounds.0.canceled, fate, what.onExpire)
      else (|posted| == 1 ==> v == Rejected(NotPosted)) && (CanGoUp(what, newId, ttl, rounds, old(router.pending).Keys) ==> |posted| == 2)
    ensures |posted| == 2 ==> posted[1] < |router.postings| && var up := router.postings[posted[1]].what;
      && IsOneUp(up, what, newId, rounds.0.lateClock, ttl) && IsFate(router.postings, posted[1], up, rounds.1.events)
      && Follows(v, rounds.1.canceled, FateOf(up, posted[1], rounds.1.events), Deny)
    ensures posted != [] && v != Rejected(StillWaiting) && v != Rejected(NotPosted) ==> (if |posted| == 1 then what.id else newId) !in router.pending
  {
    hide Consistent, RepliesOf, FateOf, Grown, AllSound;
    posted := [];
    var current, escalated := what, false;
    while true
      invariant router.Valid() && |posted| == (if escalated then 1 else 0)
      invariant !escalated ==> current == what && unchanged(router)
      invariant escalated ==> what.path != [] && current == Escalated(what, newId, rounds.0.lateClock, ttl)
      invariant escalated ==> what.id != "" && Live(what, rounds.0.now) && what.id !in old(router.pending) && posted == [|old(router.postings)|]
      invariant escalated ==> IsFate(router.postings, posted[0], what, rounds.0.events)
      invariant escalated ==> FateOf(what, posted[0], rounds.0.events).Lapsed? && GoesUp(what, rounds.0, Lapsed)
      invariant escalated && CanGoUp(what, newId, ttl, rounds, old(router.pending).Keys) ==> newId !in router.pending
      decreases !escalated
    {
      var round := if escalated then rounds.1 else rounds.0;
      ghost var before := router.postings;
      var r, p := Watch(router, current, round);
      if escalated {
        EscalatedIsOneUp(what, newId, rounds.0.lateClock, ttl);
        LapsedStays(before, router.postings, posted[0]);
      }
      if !r.Posted? {
        return Rejected(NotPosted), posted;
      }
      posted := posted + [r.k];
      if p.sent == [] && !p.closed && !round.canceled {
        return Rejected(StillWaiting), posted;
      }
      if round.canceled {
        return Rejected(WaitCanceled), posted;
      }
      if p.sent != [] {
        return ReplyDecision(p.sent[0]), posted;
      }
      if current.onExpire == Fail {
        return Rejected(ExpiredFailing), posted;
      }
      if current.onExpire != Escalate || escalated || current.path == [] {
        return Rejected(ExpiredDenied), posted;
      }
      escalated, current := true, Escalated(current, newId, round.lateClock, ttl);
    }
  }

  /** The channel of posting `k` shows what the events made of it. */
  ghost predicate IsFate(postings: seq<Posting>, k: nat, what: Interrupt, events: seq<Event>) {
    k < |postings| && postings[k].what == what && Shows(postings[k], FateOf(what, k, events))
  }

  /** The ID one level up is free, and its time has not passed when it is posted. */
  ghost predicate CanGoUp(what: Interrupt, newId: Id, ttl: nat, rounds: (Round, Round), taken: set<Id>) {
    && newId != "" && newId != what.id && newId !in taken
    && (forall e | e in rounds.0.events :: !PostsUnder(e, newId))
    && (ttl == 0 || rounds.1.now < rounds.0.lateClock + ttl)
  }

  /** A channel that was closed stays as it is. */
  lemma LapsedStays(before: seq<Posting>, after: seq<Posting>, k: nat)
    requires Grown(before, after) && AllSound(after) && k < |before| && Shows(before[k], Lapsed)
    ensures k < |after| && after[k].what == before[k].what && Shows(after[k], Lapsed)
  {
    assert Sound(after[k]);
  }

  /** In particular the decision of a person who replies in time, under the interrupt's ID and before
      anything else concerns it, is the decision of the wait. */
  method ReplyInTime(router: Router, what: Interrupt, newId: Id, ttl: nat, rounds: (Round, Round), reply: Reply, at: int) returns (v: Verdict, posted: seq<nat>)
    requires router.Valid() && what.id != "" && Live(what, rounds.0.now) && what.id !in router.pending
    requires !rounds.0.canceled && reply.id == what.id && Live(what, at) && rounds.0.events != [] && rounds.0.events[0] == Replies(reply, at)
    modifies router
    ensures v.Approved? <==> reply.approved || reply.answer != ""
    ensures |posted| == 1 && posted[0] < |router.postings| && router.postings[posted[0]].sent == [reply] && router.postings[posted[0]].what == what
  {
    FirstDecides(what, |router.postings|, rounds.0.events, 0);
    v, posted := WaitInterrupt(router, what, newId, ttl, rounds);
  }
}
