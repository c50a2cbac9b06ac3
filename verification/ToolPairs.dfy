/** The history a sub-agent may start with (agent/subagent_context.go, agent/agent.go): the check that
    every tool call in it is answered and every result has its call, and the two histories the agent
    builds itself. */
module ToolPairs {

  type CallId = string

  datatype Part = Text(text: string) | ToolCall(id: CallId) | ToolResult(callId: CallId) | Thinking | Config | Handoff | Metadata | File

  datatype Message = User(parts: seq<Part>) | Assistant(parts: seq<Part>) | System(parts: seq<Part>)

  datatype Option<T> = None | Some(value: T)

  datatype PairError = NoResult(id: CallId) | NoCall(id: CallId)

  function CallIds(parts: seq<Part>): seq<CallId> {
    if parts == [] then [] else
      var n := |parts| - 1;
      CallIds(parts[..n]) + (if parts[n].ToolCall? then [parts[n].id] else [])
  }

  function ResultIds(parts: seq<Part>): seq<CallId> {
    if parts == [] then [] else
      var n := |parts| - 1;
      ResultIds(parts[..n]) + (if parts[n].ToolResult? then [parts[n].callId] else [])
  }

  /** The calls a message makes; only assistant turns make any. */
  function Calls(m: Message): seq<CallId> {
    if m.Assistant? then CallIds(m.parts) else []
  }

  /** The results a message carries; those of an assistant turn are not looked at. */
  function Results(m: Message): seq<CallId> {
    if m.Assistant? then [] else ResultIds(m.parts)
  }

  // ---- what a legal history is ----

  ghost predicate Distinct(ids: seq<CallId>) {
    forall i, j | 0 <= i < j < |ids| :: ids[i] != ids[j]
  }

  /** The results up to the next assistant turn or the end. */
  function ResultsAhead(msgs: seq<Message>): seq<CallId> {
    if msgs == [] || msgs[0].Assistant? then [] else Results(msgs[0]) + ResultsAhead(msgs[1..])
  }

  /** Each of the calls is answered once, and nothing else is. */
  ghost predicate AnswersExactly(results: seq<CallId>, calls: set<CallId>) {
    Distinct(results) && forall id :: id in results <==> id in calls
  }

  ghost predicate EachTurnAnswered(msgs: seq<Message>) {
    forall i | 0 <= i < |msgs| && msgs[i].Assistant? :: AnswersExactly(ResultsAhead(msgs[i + 1..]), Elements(Calls(msgs[i])))
  }

  /** The histories providers accept: every turn's calls are answered, each once, before the next turn
      or the end, and no other result stands anywhere. */
  ghost predicate Legal(msgs: seq<Message>) {
    ResultsAhead(msgs) == [] && EachTurnAnswered(msgs)
  }

  function Elements<T>(s: seq<T>): set<T> {
    set x | x in s
  }

  // ---- the check ----

  /** Whether results can be taken off the open calls one by one. */
  predicate CanAnswer(open: set<CallId>, results: seq<CallId>) {
    results == [] || (results[0] in open && CanAnswer(open - {results[0]}, results[1..]))
  }

  lemma DistinctJoined(a: seq<CallId>, b: seq<CallId>)
    ensures Distinct(a + b) <==> Distinct(a) && Distinct(b) && Elements(a) !! Elements(b)
  {
    var both := a + b;
    assert forall i | 0 <= i < |a| :: both[i] == a[i];
    assert forall i | 0 <= i < |b| :: both[|a| + i] == b[i];
    if Distinct(a) && Distinct(b) && Elements(a) !! Elements(b) {
      forall i, j | 0 <= i < j < |both|
        ensures both[i] != both[j]
      {
        assert i < |a| ==> both[i] in Elements(a);
        assert j >= |a| ==> both[j] in Elements(b);
      }
    }
  }

  lemma {:induction false} AnswerAll(open: set<CallId>, results: seq<CallId>)
    ensures CanAnswer(open, results) <==> Distinct(results) && Elements(results) <= open
  {
    if results != [] {
      var r, rest := results[0], results[1..];
      AnswerAll(open - {r}, rest);
      assert results == [r] + rest;
      DistinctJoined([r], rest);
      assert Elements(results) == {r} + Elements(rest) && Elements([r]) == {r};
    }
  }

  /** The state of the check over a history: the calls still open. */
  ghost predicate Passes(open: set<CallId>, msgs: seq<Message>)
    decreases |msgs|
  {
    if msgs == [] then open == {}
    else if msgs[0].Assistant? then open == {} && Passes(Elements(Calls(msgs[0])), msgs[1..])
    else CanAnswer(open, Results(msgs[0])) && Passes(open - Elements(Results(msgs[0])), msgs[1..])
  }

  /** The open calls are exactly the results ahead, and the rest of the history is answered. */
  lemma {:induction false} PassesIsLegal(open: set<CallId>, msgs: seq<Message>)
    ensures Passes(open, msgs) <==> AnswersExactly(ResultsAhead(msgs), open) && EachTurnAnswered(msgs)
    decreases |msgs|
  {
    hide AnswersExactly, EachTurnAnswered, CanAnswer;
    AnswersSet([], open);
    if msgs == [] {
      assert EachTurnAnswered(msgs) by {
        NoTurns(msgs);
      }
    } else {
      var m, rest := msgs[0], msgs[1..];
      EachTurnStep(msgs);
      if m.Assistant? {
        PassesIsLegal(Elements(Calls(m)), rest);
      } else {
        PassesIsLegal(open - Elements(Results(m)), rest);
        AnswerAll(open, Results(m));
        AnswersSplit(Results(m), ResultsAhead(rest), open);
      }
    }
  }

  lemma NoTurns(msgs: seq<Message>)
    requires msgs == []
    ensures EachTurnAnswered(msgs)
  {}

  lemma EachTurnStep(msgs: seq<Message>)
    requires msgs != []
    ensures EachTurnAnswered(msgs) <==>
      (msgs[0].Assistant? ==> AnswersExactly(ResultsAhead(msgs[1..]), Elements(Calls(msgs[0])))) && EachTurnAnswered(msgs[1..])
  {
    hide AnswersExactly, ResultsAhead, Calls;
    var rest := msgs[1..];
    assert forall i | 0 <= i < |rest| :: rest[i] == msgs[i + 1] && rest[i + 1..] == msgs[i + 1 + 1..];
    if EachTurnAnswered(msgs) {
      assert forall i | 0 <= i < |rest| && rest[i].Assistant? :: msgs[i + 1].Assistant?;
    }
    if EachTurnAnswered(rest) {
      forall i | 1 <= i < |msgs| && msgs[i].Assistant?
        ensures AnswersExactly(ResultsAhead(msgs[i + 1..]), Elements(Calls(msgs[i])))
      {
        assert rest[i - 1] == msgs[i];
      }
    }
  }

  lemma AnswersSplit(a: seq<CallId>, b: seq<CallId>, open: set<CallId>)
    ensures AnswersExactly(a + b, open) <==> Distinct(a) && Elements(a) <= open && AnswersExactly(b, open - Elements(a))
  {
    DistinctJoined(a, b);
    AnswersSet(a + b, open);
    AnswersSet(b, open - Elements(a));
    assert Elements(a + b) == Elements(a) + Elements(b);
  }

  lemma AnswersSet(results: seq<CallId>, calls: set<CallId>)
    ensures AnswersExactly(results, calls) <==> Distinct(results) && Elements(results) == calls
  {
    assert forall id :: id in results <==> id in Elements(results);
  }

  /** Accepts exactly the legal histories. The error names a call that has no result, or a result that
      answers no open call. */
  method CheckToolPairs(msgs: seq<Message>) returns (err: Option<PairError>)
    ensures err.None? <==> Legal(msgs)
    ensures err.Some? && err.value.NoResult? ==> exists m :: m in msgs && err.value.id in Calls(m)
    ensures err.Some? && err.value.NoCall? ==> exists m :: m in msgs && err.value.id in Results(m)
  {
    hide Legal, Calls, Results;
    PassesIsLegal({}, msgs);
    EmptyAnswers(msgs);
    var open: set<CallId>, order: seq<CallId> := {}, [];
    var i := 0;
    while i < |msgs|
      invariant i <= |msgs| && open <= Elements(order)
      invariant Passes(open, msgs[i..]) <==> Passes({}, msgs)
      invariant forall id | id in order :: exists m :: m in msgs && id in Calls(m)
    {
      var m := msgs[i];
      assert msgs[i..][0] == m && msgs[i..][1..] == msgs[i + 1..];
      if m.Assistant? {
        err := Unanswered(open, order);
        if err.Some? {
          return;
        }
        order := CollectCalls(m);
        open := Elements(order);
      } else {
        err, open := AnswerResults(open, m);
        if err.Some? {
          return;
        }
      }
      i := i + 1;
    }
    err := Unanswered(open, order);
  }

  lemma EmptyAnswers(msgs: seq<Message>)
    ensures Legal(msgs) <==> AnswersExactly(ResultsAhead(msgs), {}) && EachTurnAnswered(msgs)
  {
    AnswersSet(ResultsAhead(msgs), {});
    if ResultsAhead(msgs) != [] {
      assert ResultsAhead(msgs)[0] in Elements(ResultsAhead(msgs));
    }
  }

  /** The first call in call order that is still open. */
  method Unanswered(open: set<CallId>, order: seq<CallId>) returns (err: Option<PairError>)
    requires open <= Elements(order)
    ensures err.None? <==> open == {}
    ensures err.Some? ==> err.value.NoResult? && err.value.id in open && err.value.id in order
  {
    var i := 0;
    while i < |order|
      invariant i <= |order| && forall j | 0 <= j < i :: order[j] !in open
    {
      if order[i] in open {
        return Some(NoResult(order[i]));
      }
      i := i + 1;
    }
    assert open == {} by {
      assert forall id | id in Elements(order) :: id in order;
    }
    err := None;
  }

  method CollectCalls(m: Message) returns (order: seq<CallId>)
    requires m.Assistant?
    ensures order == Calls(m)
  {
    order := [];
    var i := 0;
    while i < |m.parts|
      invariant i <= |m.parts| && order == CallIds(m.parts[..i])
    {
      assert m.parts[..i + 1][..i] == m.parts[..i];
      if m.parts[i].ToolCall? {
        order := order + [m.parts[i].id];
      }
      i := i + 1;
    }
    assert m.parts[..i] == m.parts;
  }

  /** Takes the results of a message off the open calls, until one is not open. */
  method AnswerResults(open: set<CallId>, m: Message) returns (err: Option<PairError>, left: set<CallId>)
    requires !m.Assistant?
    ensures err.None? <==> CanAnswer(open, Results(m))
    ensures err.None? ==> left == open - Elements(Results(m))
    ensures err.Some? ==> err.value.NoCall? && err.value.id in Results(m)
  {
    left := open;
    var parts := m.parts;
    var i := 0;
    assert ResultIds([]) == [];
    hide CanAnswer, Distinct;
    while i < |parts|
      invariant i <= |parts|
      invariant CanAnswer(open, ResultIds(parts[..i]))
      invariant left == open - Elements(ResultIds(parts[..i]))
    {
      ghost var before := ResultIds(parts[..i]);
      assert parts[..i + 1][..i] == parts[..i] && before + [] == before;
      if parts[i].ToolResult? {
        var id := parts[i].callId;
        if id !in left {
          BlockedAt(open, parts, i);
          return Some(NoCall(id)), left;
        }
        AnswerOneMore(open, before, id);
        left := left - {id};
      }
      i := i + 1;
    }
    assert parts[..i] == parts;
    err := None;
  }

  lemma AnswerOneMore(open: set<CallId>, before: seq<CallId>, id: CallId)
    requires CanAnswer(open, before) && id in open - Elements(before)
    ensures CanAnswer(open, before + [id]) && Elements(before + [id]) == Elements(before) + {id}
  {
    AnswerAll(open, before);
    AnswerAll(open, before + [id]);
    DistinctJoined(before, [id]);
  }

  /** A result whose call is not open any more cannot be answered, whatever follows. */
  lemma BlockedAt(open: set<CallId>, parts: seq<Part>, i: nat)
    requires i < |parts| && parts[i].ToolResult? && parts[i].callId !in open - Elements(ResultIds(parts[..i]))
    ensures !CanAnswer(open, ResultIds(parts)) && parts[i].callId in ResultIds(parts)
  {
    var before, id, after := ResultIds(parts[..i]), parts[i].callId, ResultIds(parts[i + 1..]);
    assert parts[..i + 1][..i] == parts[..i] && parts == parts[..i + 1] + parts[i + 1..];
    ResultsSplit(parts[..i + 1], parts[i + 1..]);
    AnswerAll(open, ResultIds(parts));
    DistinctJoined(before + [id], after);
    DistinctJoined(before, [id]);
    assert id in Elements([id]) && id in Elements(ResultIds(parts));
  }

  lemma {:induction false} ResultsSplit(a: seq<Part>, b: seq<Part>)
    ensures ResultIds(a + b) == ResultIds(a) + ResultIds(b)
    decreases |b|
  {
    if b == [] {
      assert a + b == a;
    } else {
      var n := |b| - 1;
      assert (a + b)[..|a| + n] == a + b[..n];
      ResultsSplit(a, b[..n]);
    }
  }

  // ---- a paired branch ----

  /** Every turn with calls is followed at once by a message with exactly their results, in order, and
      results stand nowhere else. */
  ghost predicate Paired(msgs: seq<Message>) {
    && (forall i | 0 <= i < |msgs| && Calls(msgs[i]) != [] :: i + 1 < |msgs| && Results(msgs[i + 1]) == Calls(msgs[i]))
    && (forall i | 0 <= i < |msgs| && Results(msgs[i]) != [] :: i > 0 && Calls(msgs[i - 1]) == Results(msgs[i]))
  }

  /** The same, turn by turn from the front. */
  ghost predicate PairedAhead(msgs: seq<Message>) {
    if msgs == [] then true
    else if Calls(msgs[0]) != [] then |msgs| > 1 && Results(msgs[1]) == Calls(msgs[0]) && PairedAhead(msgs[2..])
    else Results(msgs[0]) == [] && PairedAhead(msgs[1..])
  }

  lemma {:induction false} PairedFromFront(msgs: seq<Message>)
    requires Paired(msgs)
    ensures PairedAhead(msgs)
    decreases |msgs|
  {
    hide Calls, Results;
    if msgs != [] {
      NeitherBoth(msgs[0]);
      var k := if Calls(msgs[0]) != [] then 2 else 1;
      if k == 2 {
        NeitherBoth(msgs[1]);
      }
      var rest := msgs[k..];
      assert forall i | 0 <= i < |rest| :: rest[i] == msgs[i + k];
      forall i | 0 <= i < |rest| && Calls(rest[i]) != []
        ensures i + 1 < |rest| && Results(rest[i + 1]) == Calls(rest[i])
      {
        assert Calls(msgs[i + k]) != [];
        assert Results(msgs[i + k + 1]) == Calls(msgs[i + k]);
      }
      forall i | 0 <= i < |rest| && Results(rest[i]) != []
        ensures i > 0 && Calls(rest[i - 1]) == Results(rest[i])
      {
        assert Calls(msgs[i + k - 1]) == Results(msgs[i + k]);
      }
      PairedFromFront(rest);
    }
  }

  lemma NeitherBoth(m: Message)
    ensures Calls(m) == [] || (Results(m) == [] && m.Assistant?)
    ensures Results(m) == [] || (Calls(m) == [] && !m.Assistant?)
  {}

  ghost predicate TurnsDistinct(msgs: seq<Message>) {
    forall m | m in msgs :: Distinct(Calls(m))
  }

  /** A paired history is legal exactly when no turn uses a call ID twice: the second result under one
      ID has no open call left. */
  lemma {:induction false} PairedIsLegal(msgs: seq<Message>)
    requires PairedAhead(msgs)
    ensures Passes({}, msgs) <==> TurnsDistinct(msgs)
    decreases |msgs|
  {
    hide Calls, Results, CanAnswer;
    if msgs != [] {
      var m := msgs[0];
      NeitherBoth(m);
      if Calls(m) != [] {
        var a, rest := msgs[1], msgs[2..];
        NeitherBoth(a);
        assert msgs == [m, a] + rest;
        PairedIsLegal(rest);
        AnswerAll(Elements(Calls(m)), Results(a));
        assert Passes({}, msgs) <==> CanAnswer(Elements(Calls(m)), Results(a)) && Passes({}, rest) by {
          assert msgs[1..][0] == a && msgs[1..][1..] == rest;
          assert Elements(Calls(m)) - Elements(Results(a)) == {};
        }
      } else {
        assert msgs == [m] + msgs[1..];
        PairedIsLegal(msgs[1..]);
        AnswerAll({}, []);
        assert Elements(Calls(m)) == {} && {} - Elements(Results(m)) == {};
      }
    }
  }

  // ---- what the agent strips ----

  predicate IsStripped(p: Part) {
    p.Config? || p.Handoff? || p.Metadata?
  }

  /** The parts of a message a predicate keeps. */
  function Kept(parts: seq<Part>, drop: Part -> bool): seq<Part> {
    if parts == [] then [] else
      var n := |parts| - 1;
      Kept(parts[..n], drop) + (if drop(parts[n]) then [] else [parts[n]])
  }

  lemma {:induction false} KeptCalls(parts: seq<Part>, drop: Part -> bool)
    requires forall p | p in parts && (p.ToolCall? || p.ToolResult?) :: !drop(p)
    ensures CallIds(Kept(parts, drop)) == CallIds(parts) && ResultIds(Kept(parts, drop)) == ResultIds(parts)
  {
    if parts != [] {
      var n := |parts| - 1;
      var front := Kept(parts[..n], drop);
      KeptCalls(parts[..n], drop);
      assert (front + [parts[n]])[..|front|] == front && front + [] == front;
    }
  }

  function WithParts(m: Message, parts: seq<Part>): Message {
    match m
    case User(_) => User(parts)
    case Assistant(_) => Assistant(parts)
    case System(_) => System(parts)
  }

  /** A message without the parts to drop, or nothing when none are left. */
  function Stripped(m: Message, drop: Part -> bool): seq<Message> {
    var parts := Kept(m.parts, drop);
    if parts == [] then [] else [WithParts(m, parts)]
  }

  function WithoutMetadata(m: Message): seq<Message> {
    Stripped(m, IsStripped)
  }

  function WithoutThinking(m: Message): seq<Message> {
    if m.Assistant? then Stripped(m, (p: Part) => p.Thinking?) else [m]
  }

  function Mapped(msgs: seq<Message>, f: Message -> seq<Message>): seq<Message> {
    if msgs == [] then [] else Mapped(msgs[..|msgs| - 1], f) + f(msgs[|msgs| - 1])
  }

  /** `f` drops only messages without calls and results, and keeps those of the others. */
  ghost predicate Spares(f: Message -> seq<Message>) {
    forall m :: SparesOne(m, f(m))
  }

  ghost predicate SparesOne(m: Message, left: seq<Message>) {
    && |left| <= 1
    && (left == [] ==> Calls(m) == [] && Results(m) == [])
    && (left != [] ==> Calls(left[0]) == Calls(m) && Results(left[0]) == Results(m))
  }

  lemma StrippingSpares()
    ensures Spares(WithoutMetadata) && Spares(WithoutThinking)
  {
    forall m
      ensures SparesOne(m, WithoutMetadata(m)) && SparesOne(m, WithoutThinking(m))
    {
      KeptCalls(m.parts, IsStripped);
      KeptCalls(m.parts, (p: Part) => p.Thinking?);
    }
  }

  lemma MappedLast(front: seq<Message>, m: Message, f: Message -> seq<Message>)
    ensures Mapped(front + [m], f) == Mapped(front, f) + f(m)
  {
    assert (front + [m])[..|front|] == front;
  }

  lemma {:induction false} MappedJoined(a: seq<Message>, b: seq<Message>, f: Message -> seq<Message>)
    ensures Mapped(a + b, f) == Mapped(a, f) + Mapped(b, f)
    decreases |b|
  {
    if b == [] {
      assert a + b == a;
    } else {
      var front, m := b[..|b| - 1], b[|b| - 1];
      assert b == front + [m] && a + b == (a + front) + [m];
      MappedJoined(a, front, f);
      MappedLast(a + front, m, f);
      MappedLast(front, m, f);
      hide Mapped;
    }
  }

  lemma MappedOne(m: Message, f: Message -> seq<Message>)
    ensures Mapped([m], f) == f(m)
  {
    assert [m][..0] == [];
    assert Mapped([m][..0], f) == [];
  }

  lemma TurnsJoined(a: seq<Message>, b: seq<Message>)
    ensures TurnsDistinct(a + b) <==> TurnsDistinct(a) && TurnsDistinct(b)
  {
    hide Calls, Distinct;
    assert forall m :: m in a + b <==> m in a || m in b;
  }

  lemma SparedTurns(m: Message, left: seq<Message>)
    requires SparesOne(m, left)
    ensures TurnsDistinct(left) <==> TurnsDistinct([m])
  {
    hide Calls, Results;
    assert Distinct([]);
    assert left == [] || left == [left[0]];
    assert m in [m];
  }

  /** Such a function keeps a history paired, with the same calls. */
  lemma {:induction false} MappedStaysPaired(msgs: seq<Message>, f: Message -> seq<Message>)
    requires PairedAhead(msgs) && Spares(f)
    ensures PairedAhead(Mapped(msgs, f)) && (TurnsDistinct(Mapped(msgs, f)) <==> TurnsDistinct(msgs))
    decreases |msgs|
  {
    hide Calls, Results, TurnsDistinct, Mapped;
    if msgs == [] {
      assert Mapped(msgs, f) == [] by {
        MappedNone(f);
      }
    } else {
      var m, rest := msgs[0], msgs[1..];
      NeitherBoth(m);
      assert msgs == [m] + rest && SparesOne(m, f(m));
      MappedFirst(m, rest, f);
      TurnsJoined([m], rest);
      TurnsJoined(f(m), Mapped(rest, f));
      SparedTurns(m, f(m));
      if Calls(m) == [] {
        MappedStaysPaired(rest, f);
        PrependPaired(f(m), Mapped(rest, f));
      } else {
        var a, after := rest[0], rest[1..];
        NeitherBoth(a);
        assert rest == [a] + after && msgs[2..] == after && SparesOne(a, f(a));
        MappedFirst(a, after, f);
        TurnsJoined([a], after);
        TurnsJoined(f(a), Mapped(after, f));
        SparedTurns(a, f(a));
        MappedStaysPaired(after, f);
        PrependPair(f(m)[0], f(a)[0], Mapped(after, f));
        assert f(m) == [f(m)[0]] && f(a) == [f(a)[0]];
        assert f(m) + (f(a) + Mapped(after, f)) == [f(m)[0], f(a)[0]] + Mapped(after, f);
      }
    }
  }

  lemma MappedNone(f: Message -> seq<Message>)
    ensures Mapped([], f) == []
  {}

  lemma MappedFirst(m: Message, rest: seq<Message>, f: Message -> seq<Message>)
    ensures Mapped([m] + rest, f) == f(m) + Mapped(rest, f)
  {
    MappedJoined([m], rest, f);
    MappedOne(m, f);
  }

  lemma PrependPaired(front: seq<Message>, rest: seq<Message>)
    requires PairedAhead(rest) && |front| <= 1
    requires forall m | m in front :: Calls(m) == [] && Results(m) == []
    ensures PairedAhead(front + rest)
  {
    if front == [] {
      assert front + rest == rest;
    } else {
      assert (front + rest)[1..] == rest && (front + rest)[0] == front[0];
    }
  }

  lemma PrependPair(turn: Message, answer: Message, rest: seq<Message>)
    requires PairedAhead(rest) && Calls(turn) != [] && Results(answer) == Calls(turn)
    ensures PairedAhead([turn, answer] + rest)
  {
    assert ([turn, answer] + rest)[2..] == rest;
  }

  // ---- the parent's history ----

  function WithoutRoot(msgs: seq<Message>): seq<Message> {
    if msgs != [] && msgs[0].System? then msgs[1..] else msgs
  }

  function WithoutOpenTurn(msgs: seq<Message>): seq<Message> {
    if msgs != [] && Calls(msgs[|msgs| - 1]) != [] then msgs[..|msgs| - 1] else msgs
  }

  function ParentHistoryOf(msgs: seq<Message>): seq<Message> {
    Mapped(WithoutOpenTurn(WithoutRoot(Mapped(msgs, WithoutMetadata))), WithoutThinking)
  }

  method MapMessages(msgs: seq<Message>, f: Message -> seq<Message>) returns (out: seq<Message>)
    ensures out == Mapped(msgs, f)
  {
    out := [];
    var i := 0;
    while i < |msgs|
      invariant i <= |msgs| && out == Mapped(msgs[..i], f)
    {
      assert msgs[..i + 1][..i] == msgs[..i];
      out := out + f(msgs[i]);
      i := i + 1;
    }
    assert msgs[..i] == msgs;
  }

  /** The branch of a parent as a child may receive it: without the root prompt, metadata, thinking,
      and the turn that is delegating. */
  method ParentHistory(msgs: seq<Message>) returns (out: seq<Message>)
    ensures out == ParentHistoryOf(msgs)
  {
    var messages := MapMessages(msgs, WithoutMetadata);
    if |messages| > 0 && messages[0].System? {
      messages := messages[1..];
    }
    var n := |messages|;
    if n > 0 && messages[n - 1].Assistant? && |Calls(messages[n - 1])| > 0 {
      messages := messages[..n - 1];
    }
    out := MapMessages(messages, WithoutThinking);
  }

  /** The delegating turn and the root prompt are what the history leaves out of the branch. */
  lemma ParentHistoryParts(front: seq<Message>, turn: Message)
    requires Calls(turn) != [] && |WithoutMetadata(turn)| == 1 && Calls(WithoutMetadata(turn)[0]) == Calls(turn)
    ensures ParentHistoryOf(front + [turn]) == Mapped(WithoutRoot(Mapped(front, WithoutMetadata)), WithoutThinking)
  {
    hide Calls, Results, WithoutMetadata, WithoutThinking, Mapped;
    MappedJoined(front, [turn], WithoutMetadata);
    MappedOne(turn, WithoutMetadata);
    var prepared, turn' := Mapped(front, WithoutMetadata), WithoutMetadata(turn)[0];
    assert WithoutMetadata(turn) == [turn'];
    NeitherBoth(turn');
    assert WithoutRoot(prepared + [turn']) == WithoutRoot(prepared) + [turn'];
    assert WithoutOpenTurn(WithoutRoot(prepared) + [turn']) == WithoutRoot(prepared);
  }

  lemma TurnSurvives(turn: Message)
    requires Calls(turn) != []
    ensures |WithoutMetadata(turn)| == 1 && Calls(WithoutMetadata(turn)[0]) == Calls(turn)
  {
    StrippingSpares();
    hide Calls, Results, WithoutMetadata, WithoutThinking;
    assert SparesOne(turn, WithoutMetadata(turn));
  }

  /** Of a paired branch that ends in the delegating turn, what a child receives is legal exactly when
      no answered turn on it uses a call ID twice. */
  lemma ParentHistoryIsLegal(front: seq<Message>, turn: Message)
    requires Paired(front) && Calls(turn) != []
    ensures Legal(ParentHistoryOf(front + [turn])) <==> TurnsDistinct(front)
  {
    hide Calls, Legal, Paired, PairedAhead, TurnsDistinct, Spares, Passes, Mapped, WithoutRoot, ParentHistoryOf;
    TurnSurvives(turn);
    ParentHistoryParts(front, turn);
    StrippingSpares();
    PairedFromFront(front);
    MappedStaysPaired(front, WithoutMetadata);
    var prepared := Mapped(front, WithoutMetadata);
    WithoutRootStaysPaired(prepared);
    MappedStaysPaired(WithoutRoot(prepared), WithoutThinking);
    var out := Mapped(WithoutRoot(prepared), WithoutThinking);
    PairedIsLegal(out);
    PassesIsLegal({}, out);
    EmptyAnswers(out);
  }

  lemma RepeatedIds(id: CallId)
    ensures CallIds([ToolCall(id), ToolCall(id)]) == [id, id] && ResultIds([ToolResult(id), ToolResult(id)]) == [id, id]
    ensures Distinct([id, id]) ==> false
  {
    var calls, results := [ToolCall(id), ToolCall(id)], [ToolResult(id), ToolResult(id)];
    var call, result := [ToolCall(id)], [ToolResult(id)];
    assert call[..0] == [] && result[..0] == [] && calls[..1] == call && results[..1] == result;
    assert CallIds(call) == [id] && ResultIds(result) == [id];
    assert [id, id][0] == [id, id][1];
  }

  /** A turn that uses one ID for two calls, answered in order as the loop does, is refused. */
  lemma RepeatedIdIsRefused(id: CallId, turn: Message)
    requires Calls(turn) != []
    ensures var front := [Assistant([ToolCall(id), ToolCall(id)]), System([ToolResult(id), ToolResult(id)])];
            Paired(front) && !Legal(ParentHistoryOf(front + [turn]))
  {
    hide CallIds, ResultIds, Legal, ParentHistoryOf, Distinct;
    RepeatedIds(id);
    var front := [Assistant([ToolCall(id), ToolCall(id)]), System([ToolResult(id), ToolResult(id)])];
    assert Calls(front[0]) == Results(front[1]) == [id, id] && Calls(front[1]) == Results(front[0]) == [];
    assert front[0] in front && !Distinct(Calls(front[0]));
    ParentHistoryIsLegal(front, turn);
  }

  lemma WithoutRootStaysPaired(msgs: seq<Message>)
    requires PairedAhead(msgs)
    ensures PairedAhead(WithoutRoot(msgs)) && (TurnsDistinct(WithoutRoot(msgs)) <==> TurnsDistinct(msgs))
  {
    if msgs != [] && msgs[0].System? {
      assert msgs == [msgs[0]] + msgs[1..];
      assert Calls(msgs[0]) == [];
    }
  }

  // ---- text only ----

  function TextOnly(m: Message): seq<Message> {
    if m.System? then [] else Stripped(m, (p: Part) => !p.Text?)
  }

  /** The selection that keeps what was said: the text of user and assistant messages. */
  method TextMessagesOnly(history: seq<Message>) returns (out: seq<Message>)
    ensures out == Mapped(history, TextOnly)
  {
    out := MapMessages(history, TextOnly);
  }

  lemma {:induction false} KeptHoldsKept(parts: seq<Part>, drop: Part -> bool)
    ensures forall p :: p in Kept(parts, drop) <==> p in parts && !drop(p)
  {
    if parts != [] {
      var n := |parts| - 1;
      KeptHoldsKept(parts[..n], drop);
      assert parts == parts[..n] + [parts[n]];
    }
  }

  lemma {:induction false} NoCallsNoResults(parts: seq<Part>)
    requires forall p | p in parts :: p.Text?
    ensures CallIds(parts) == [] && ResultIds(parts) == []
  {
    if parts != [] {
      assert parts[|parts| - 1] in parts;
      NoCallsNoResults(parts[..|parts| - 1]);
    }
  }

  /** It keeps the text and nothing else, and every selection it makes is legal. */
  lemma TextOnlyIsLegal(history: seq<Message>)
    ensures Legal(Mapped(history, TextOnly))
    ensures forall m | m in Mapped(history, TextOnly) :: !m.System? && m.parts != [] && forall p | p in m.parts :: p.Text?
  {
    var out := Mapped(history, TextOnly);
    TextOnlyParts(history);
    forall m | m in out
      ensures Calls(m) == [] && Results(m) == []
    {
      NoCallsNoResults(m.parts);
    }
    assert Paired(out);
    PairedFromFront(out);
    assert Distinct([]);
    PairedIsLegal(out);
    PassesIsLegal({}, out);
    EmptyAnswers(out);
  }

  lemma {:induction false} TextOnlyParts(history: seq<Message>)
    ensures forall m | m in Mapped(history, TextOnly) :: !m.System? && m.parts != [] && forall p | p in m.parts :: p.Text?
  {
    if history != [] {
      var n := |history| - 1;
      TextOnlyParts(history[..n]);
      KeptHoldsKept(history[n].parts, (p: Part) => !p.Text?);
    }
  }

  // ---- what is left of what was said ----

  datatype Role = ByUser | ByAssistant | BySystem

  /** One part and who said it. */
  datatype Said = Said(role: Role, part: Part)

  function RoleOf(m: Message): Role {
    match m
    case User(_) => ByUser
    case Assistant(_) => ByAssistant
    case System(_) => BySystem
  }

  function Parts(role: Role, parts: seq<Part>): seq<Said> {
    seq(|parts|, i requires 0 <= i < |parts| => Said(role, parts[i]))
  }

  /** Everything said in some messages, in order. */
  function Spoken(msgs: seq<Message>): seq<Said> {
    if msgs == [] then [] else
      var n := |msgs| - 1;
      Spoken(msgs[..n]) + Parts(RoleOf(msgs[n]), msgs[n].parts)
  }

  function Filtered(said: seq<Said>, keep: Said -> bool): seq<Said> {
    if said == [] then [] else
      var n := |said| - 1;
      Filtered(said[..n], keep) + (if keep(said[n]) then [said[n]] else [])
  }

  lemma {:induction false} FilteredJoined(a: seq<Said>, b: seq<Said>, keep: Said -> bool)
    ensures Filtered(a + b, keep) == Filtered(a, keep) + Filtered(b, keep)
    decreases |b|
  {
    if b == [] {
      assert a + b == a;
    } else {
      var n := |b| - 1;
      assert (a + b)[..|a| + n] == a + b[..n];
      FilteredJoined(a, b[..n], keep);
    }
  }

  lemma {:induction false} FilteredTwice(said: seq<Said>, keep: Said -> bool, also: Said -> bool, both: Said -> bool)
    requires forall x :: both(x) <==> keep(x) && also(x)
    ensures Filtered(Filtered(said, keep), also) == Filtered(said, both)
  {
    if said != [] {
      var n := |said| - 1;
      FilteredTwice(said[..n], keep, also, both);
      var front := Filtered(said[..n], keep);
      assert (front + [said[n]])[..|front|] == front && front + [] == front;
      assert Filtered(front, also) + [] == Filtered(front, also);
    }
  }

  /** The parts a message keeps are those it said that are not dropped. */
  lemma {:induction false} KeptIsFiltered(role: Role, parts: seq<Part>, drop: Part -> bool, keep: Said -> bool)
    requires forall p | p in parts :: keep(Said(role, p)) <==> !drop(p)
    ensures Parts(role, Kept(parts, drop)) == Filtered(Parts(role, parts), keep)
  {
    if parts != [] {
      var n := |parts| - 1;
      KeptIsFiltered(role, parts[..n], drop, keep);
      assert Parts(role, parts)[..n] == Parts(role, parts[..n]);
      var front := Kept(parts[..n], drop);
      assert parts[n] in parts;
      assert Parts(role, front + [parts[n]]) == Parts(role, front) + [Said(role, parts[n])];
      assert front + [] == front && Parts(role, front) + [] == Parts(role, front);
    }
  }

  lemma SpokenOfOne(m: Message)
    ensures Spoken([m]) == Parts(RoleOf(m), m.parts)
  {
    assert [m][..0] == [];
    assert Spoken([m][..0]) == [];
  }

  lemma {:induction false} SpokenJoined(a: seq<Message>, b: seq<Message>)
    ensures Spoken(a + b) == Spoken(a) + Spoken(b)
    decreases |b|
  {
    if b == [] {
      assert a + b == a;
    } else {
      var n := |b| - 1;
      assert (a + b)[..|a| + n] == a + b[..n];
      SpokenJoined(a, b[..n]);
    }
  }

  /** `f` keeps of each message what `keep` lets through, in one message at most. */
  ghost predicate LetsThrough(f: Message -> seq<Message>, keep: Said -> bool) {
    forall m :: Spoken(f(m)) == Filtered(Parts(RoleOf(m), m.parts), keep) && |f(m)| <= 1
  }

  lemma {:induction false} MappedSays(msgs: seq<Message>, f: Message -> seq<Message>, keep: Said -> bool)
    requires LetsThrough(f, keep)
    ensures Spoken(Mapped(msgs, f)) == Filtered(Spoken(msgs), keep)
  {
    hide Parts;
    if msgs != [] {
      var n := |msgs| - 1;
      MappedSays(msgs[..n], f, keep);
      SpokenJoined(Mapped(msgs[..n], f), f(msgs[n]));
      FilteredJoined(Spoken(msgs[..n]), Parts(RoleOf(msgs[n]), msgs[n].parts), keep);
      hide Filtered;
    }
  }

  lemma StrippedSays(m: Message, drop: Part -> bool, keep: Said -> bool)
    requires forall p :: keep(Said(RoleOf(m), p)) <==> !drop(p)
    ensures Spoken(Stripped(m, drop)) == Filtered(Parts(RoleOf(m), m.parts), keep)
  {
    KeptIsFiltered(RoleOf(m), m.parts, drop, keep);
    var parts := Kept(m.parts, drop);
    if parts != [] {
      SpokenOfOne(WithParts(m, parts));
    }
    hide Kept, Filtered;
  }

  lemma {:induction false} NoneSaid(said: seq<Said>, keep: Said -> bool)
    requires forall x | x in said :: !keep(x)
    ensures Filtered(said, keep) == []
  {
    if said != [] {
      NoneSaid(said[..|said| - 1], keep);
      assert said[|said| - 1] in said;
    }
  }

  lemma {:induction false} AllSaid(said: seq<Said>, keep: Said -> bool)
    requires forall x | x in said :: keep(x)
    ensures Filtered(said, keep) == said
  {
    if said != [] {
      AllSaid(said[..|said| - 1], keep);
      assert said[|said| - 1] in said;
    }
  }

  lemma MetadataSays(keep: Said -> bool)
    requires forall x: Said :: keep(x) <==> !(x.part.Config? || x.part.Handoff? || x.part.Metadata?)
    ensures LetsThrough(WithoutMetadata, keep)
  {
    forall m
      ensures Spoken(WithoutMetadata(m)) == Filtered(Parts(RoleOf(m), m.parts), keep)
    {
      StrippedSays(m, IsStripped, keep);
    }
  }

  lemma ThinkingSays(keep: Said -> bool)
    requires forall x: Said :: keep(x) <==> !(x.role == ByAssistant && x.part.Thinking?)
    ensures LetsThrough(WithoutThinking, keep)
  {
    forall m
      ensures Spoken(WithoutThinking(m)) == Filtered(Parts(RoleOf(m), m.parts), keep)
    {
      if m.Assistant? {
        StrippedSays(m, (p: Part) => p.Thinking?, keep);
      } else {
        SpokenOfOne(m);
        AllSaid(Parts(RoleOf(m), m.parts), keep);
      }
    }
  }

  lemma TextSays(keep: Said -> bool)
    requires forall x: Said :: keep(x) <==> x.role != BySystem && x.part.Text?
    ensures LetsThrough(TextOnly, keep)
  {
    forall m
      ensures Spoken(TextOnly(m)) == Filtered(Parts(RoleOf(m), m.parts), keep)
    {
      if m.System? {
        NoneSaid(Parts(RoleOf(m), m.parts), keep);
      } else {
        StrippedSays(m, (p: Part) => !p.Text?, keep);
      }
    }
  }

  /** The text-only selection is everything users and assistants said in text, in order. */
  lemma TextOnlySays(history: seq<Message>, keep: Said -> bool)
    requires forall x: Said :: keep(x) <==> x.role != BySystem && x.part.Text?
    ensures Spoken(Mapped(history, TextOnly)) == Filtered(Spoken(history), keep)
  {
    TextSays(keep);
    MappedSays(history, TextOnly, keep);
  }

  /** Nothing but metadata. */
  predicate Vanishes(m: Message) {
    forall p | p in m.parts :: p.Config? || p.Handoff? || p.Metadata?
  }

  /** How many messages go with the root prompt: it is the first message that has anything to say, if
      that is a system message. */
  function RootEnd(msgs: seq<Message>): (n: nat)
    ensures n <= |msgs|
  {
    if msgs == [] then 0 else if Vanishes(msgs[0]) then 1 + RootEnd(msgs[1..]) else if msgs[0].System? then 1 else 0
  }

  lemma StrippedAway(m: Message)
    ensures WithoutMetadata(m) == [] <==> Vanishes(m)
    ensures WithoutMetadata(m) != [] ==> WithoutMetadata(m)[0].System? == m.System? && |WithoutMetadata(m)| == 1
  {
    KeptHoldsKept(m.parts, IsStripped);
    var kept := Kept(m.parts, IsStripped);
    assert kept != [] ==> kept[0] in kept;
  }

  lemma {:induction false} RootGoes(front: seq<Message>)
    ensures WithoutRoot(Mapped(front, WithoutMetadata)) == Mapped(front[RootEnd(front)..], WithoutMetadata)
  {
    hide Mapped, WithoutMetadata, Vanishes;
    if front == [] {
      MappedNone(WithoutMetadata);
      assert front[RootEnd(front)..] == [];
    } else {
      var m, rest := front[0], front[1..];
      assert front == [m] + rest;
      MappedFirst(m, rest, WithoutMetadata);
      StrippedAway(m);
      if Vanishes(m) {
        RootGoes(rest);
        assert [] + Mapped(rest, WithoutMetadata) == Mapped(rest, WithoutMetadata);
        assert front[RootEnd(front)..] == rest[RootEnd(rest)..];
      } else if m.System? {
        assert WithoutMetadata(m) == [WithoutMetadata(m)[0]];
      } else {
        assert front[0..] == front;
      }
    }
  }

  /** What a child receives is what was said on the branch before the delegating turn and after the
      root prompt, but for metadata and for what assistants thought. */
  lemma ParentHistorySays(front: seq<Message>, turn: Message, keep: Said -> bool)
    requires Calls(turn) != []
    requires forall x: Said :: keep(x) <==> !(x.part.Config? || x.part.Handoff? || x.part.Metadata?) && !(x.role == ByAssistant && x.part.Thinking?)
    ensures Spoken(ParentHistoryOf(front + [turn])) == Filtered(Spoken(front[RootEnd(front)..]), keep)
  {
    hide Calls, Mapped, WithoutRoot, RootEnd, Spoken, Filtered, ParentHistoryOf;
    TurnSurvives(turn);
    ParentHistoryParts(front, turn);
    RootGoes(front);
    var behind := front[RootEnd(front)..];
    var shown := (x: Said) => !(x.part.Config? || x.part.Handoff? || x.part.Metadata?);
    var spoken := (x: Said) => !(x.role == ByAssistant && x.part.Thinking?);
    MetadataSays(shown);
    ThinkingSays(spoken);
    MappedSays(behind, WithoutMetadata, shown);
    MappedSays(Mapped(behind, WithoutMetadata), WithoutThinking, spoken);
    FilteredTwice(Spoken(behind), shown, spoken, keep);
  }
}
