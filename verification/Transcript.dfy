/** The messages of a branch as far as tool calls and their results go, and the two pairing
    rules a branch keeps. */
module Transcript {

  type CallId = string

  /** A tool call: its ID, and what it asks for, tool name and arguments together. */
  datatype Call = Call(id: CallId, request: string)

  /** What the loop appends besides turns and results. */
  datatype NoteKind = Input | Submission | ChildResult | WrapUp | Compaction | Approvals | Guardrail | Repair | Continue | Handoff | StopRecord

  datatype Message =
    | Assistant(calls: seq<Call>, text: bool)
    | Results(answers: seq<CallId>)
    | Note(kind: NoteKind)

  function Ids(calls: seq<Call>): (ids: seq<CallId>)
    ensures |ids| == |calls| && forall i | 0 <= i < |calls| :: ids[i] == calls[i].id
  {
    seq(|calls|, i requires 0 <= i < |calls| => calls[i].id)
  }

  predicate IsOpenTurn(m: Message) {
    m.Assistant? && m.calls != []
  }

  /** From `base` on, a turn with calls is followed at once by one message that answers exactly
      its calls in order, and results stand nowhere else. */
  ghost predicate PairedFrom(log: seq<Message>, base: nat) {
    && (forall i | base <= i < |log| && IsOpenTurn(log[i]) :: i + 1 < |log| && log[i + 1] == Results(Ids(log[i].calls)))
    && (forall i | base <= i < |log| && log[i].Results? :: i > base && IsOpenTurn(log[i - 1]) && log[i].answers == Ids(log[i - 1].calls))
  }

  ghost predicate CalledBefore(log: seq<Message>, j: nat, id: CallId) {
    exists i :: 0 <= i < j && i < |log| && log[i].Assistant? && id in Ids(log[i].calls)
  }

  /** The rule a compacted history is checked against: every result has an earlier call. */
  ghost predicate ResultsHaveCalls(log: seq<Message>) {
    forall j, id | 0 <= j < |log| && log[j].Results? && id in log[j].answers :: CalledBefore(log, j, id)
  }

  /** A branch whose part after `base`, the end of a compacted history, is strictly paired. */
  ghost predicate Settled(log: seq<Message>, base: nat) {
    && (base == 0 || base < |log|)
    && ResultsHaveCalls(log)
    && PairedFrom(log, base)
  }

  /** Settled, but for a last turn whose calls have no results yet. */
  ghost predicate OpenAtTip(log: seq<Message>, base: nat) {
    && |log| > 0 && IsOpenTurn(log[|log| - 1])
    && Settled(log[..|log| - 1], base)
  }

  /** `after` extends `before` without a turn that makes calls. */
  ghost predicate AddsNoCalls(before: seq<Message>, after: seq<Message>) {
    before <= after && forall i | |before| <= i < |after| :: !IsOpenTurn(after[i])
  }

  lemma CalledBeforeGrows(log: seq<Message>, more: seq<Message>)
    requires ResultsHaveCalls(log)
    ensures forall j, id | 0 <= j < |log| && log[j].Results? && id in log[j].answers :: CalledBefore(log + more, j, id)
  {
    forall j, id | 0 <= j < |log| && log[j].Results? && id in log[j].answers
      ensures CalledBefore(log + more, j, id)
    {
      assert CalledBefore(log, j, id);
      var i :| 0 <= i < j && i < |log| && log[i].Assistant? && id in Ids(log[i].calls);
      assert (log + more)[i] == log[i];
    }
  }

  /** Anything but a turn with calls or results keeps a branch settled. */
  lemma AppendPlain(log: seq<Message>, base: nat, m: Message)
    requires Settled(log, base) && !IsOpenTurn(m) && !m.Results?
    ensures Settled(log + [m], base)
  {
    CalledBeforeGrows(log, [m]);
  }

  lemma AppendTurn(log: seq<Message>, base: nat, m: Message)
    requires Settled(log, base) && IsOpenTurn(m)
    ensures OpenAtTip(log + [m], base)
  {
    assert (log + [m])[..|log|] == log;
  }

  /** Answering the open turn settles the branch. */
  lemma AppendAnswers(log: seq<Message>, base: nat)
    requires OpenAtTip(log, base)
    ensures Settled(log + [Results(Ids(log[|log| - 1].calls))], base)
  {
    var n := |log| - 1;
    var before, answer := log[..n], Results(Ids(log[n].calls));
    var whole := log + [answer];
    assert whole == before + [log[n], answer];
    CalledBeforeGrows(before, [log[n], answer]);
    assert whole[n] == log[n] && whole[n + 1] == answer;
    forall j, id | 0 <= j < |whole| && whole[j].Results? && id in whole[j].answers
      ensures CalledBefore(whole, j, id)
    {
    }
  }

  /** A branch that is strictly paired from its start is settled. */
  lemma PairedIsSettled(log: seq<Message>)
    requires PairedFrom(log, 0)
    ensures Settled(log, 0)
  {
    forall j, id | 0 <= j < |log| && log[j].Results? && id in log[j].answers
      ensures CalledBefore(log, j, id)
    {
      assert log[j - 1].Assistant?;
    }
  }
}
