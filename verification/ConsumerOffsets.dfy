/** What a committed offset of the ledger's consumer means. A message whose handling fails is not
    committed, but the loop goes on to the next one, and committing that one moves the committed offset
    past both. */
module ConsumerOffsets {
  import opened GoText
  import opened LedgerProtocol
  import opened LedgerTheorems
  import opened Runs
  import opened Sums

  datatype Body = Malformed | Decoded(event: PaymentEvent)

  datatype Message = Message(signed: bool, body: Body)

  /** The messages that reach the ledger service; all others are skipped. */
  predicate Reaches(m: Message) {
    m.signed && m.body.Decoded? && Chars(m.body.event.eventType) == "payment.succeeded"
  }

  /** The messages the ledger has to apply: signed, readable, of the right type and valid. */
  predicate Relevant(m: Message) {
    Reaches(m) && Validate(m.body.event) == Passed
  }

  // ---------- rounds of the loop ----------

  datatype Round = FetchFailed | Handled(failed: bool, commits: bool)

  /** The next offset to fetch, the committed offset, and the offsets whose handling failed. */
  datatype Bookkeeping = Bookkeeping(position: nat, committed: nat, failures: set<nat>)

  function After(b: Bookkeeping, r: Round): Bookkeeping {
    match r
    case FetchFailed => b
    case Handled(failed, commits) =>
      Bookkeeping(b.position + 1, if !failed && commits then b.position + 1 else b.committed,
                  if failed then b.failures + {b.position} else b.failures)
  }

  function Offsets(start: nat, committed: nat, rounds: seq<Round>): Bookkeeping {
    if rounds == [] then Bookkeeping(start, committed, {})
    else After(Offsets(start, committed, rounds[..|rounds| - 1]), rounds[|rounds| - 1])
  }

  predicate Fails(r: Round) { r.Handled? && r.failed }

  predicate Commits(r: Round) { r.Handled? && !r.failed && r.commits }

  /** The offset that round i fetches. */
  function OffsetOf(start: nat, rounds: seq<Round>, i: nat): nat
    requires i <= |rounds|
  {
    Offsets(start, start, rounds[..i]).position
  }

  lemma {:induction false} PositionOnly(start: nat, committed: nat, rounds: seq<Round>)
    ensures Offsets(start, committed, rounds).position == OffsetOf(start, rounds, |rounds|) >= start
    decreases |rounds|
  {
    assert rounds[..|rounds|] == rounds;
    if rounds != [] {
      PositionOnly(start, committed, rounds[..|rounds| - 1]);
      PositionOnly(start, start, rounds[..|rounds| - 1]);
    }
  }

  lemma OffsetAfter(start: nat, rounds: seq<Round>, i: nat)
    requires i < |rounds|
    ensures OffsetOf(start, rounds, i + 1) == OffsetOf(start, rounds, i) + (if rounds[i].Handled? then 1 else 0)
  {
    assert rounds[..i + 1][..i] == rounds[..i];
  }

  lemma {:induction false} OffsetsGrow(start: nat, rounds: seq<Round>, i: nat, j: nat)
    requires i <= j <= |rounds|
    ensures OffsetOf(start, rounds, i) <= OffsetOf(start, rounds, j)
    ensures i < j && rounds[i].Handled? ==> OffsetOf(start, rounds, i) < OffsetOf(start, rounds, j)
    decreases j
  {
    if i < j {
      OffsetsGrow(start, rounds, i, j - 1);
      OffsetAfter(start, rounds, j - 1);
    }
  }

  /** Every offset passed was fetched in some round. */
  lemma {:induction false} RoundOf(start: nat, rounds: seq<Round>, n: nat, o: nat) returns (i: nat)
    requires n <= |rounds| && start <= o < OffsetOf(start, rounds, n)
    ensures i < n && rounds[i].Handled? && OffsetOf(start, rounds, i) == o
    decreases n
  {
    assert n > 0 by { assert rounds[..0] == []; }
    OffsetAfter(start, rounds, n - 1);
    if o < OffsetOf(start, rounds, n - 1) {
      i := RoundOf(start, rounds, n - 1, o);
    } else {
      i := n - 1;
    }
  }

  function CommittedOf(start: nat, committed: nat, rounds: seq<Round>, n: nat): nat
    requires n <= |rounds|
  {
    Offsets(start, committed, rounds[..n]).committed
  }

  /** Round n-1 moves the committed offset behind its own, or not at all. */
  lemma CommittedAfter(start: nat, committed: nat, rounds: seq<Round>, n: nat)
    requires n < |rounds|
    ensures CommittedOf(start, committed, rounds, n + 1)
            == if Commits(rounds[n]) then OffsetOf(start, rounds, n) + 1 else CommittedOf(start, committed, rounds, n)
  {
    assert rounds[..n + 1][..n] == rounds[..n];
    PositionOnly(start, committed, rounds[..n]);
    assert rounds[..n][..n] == rounds[..n];
  }

  /** The committed offset is behind the last round that commits. */
  lemma {:induction false} LastCommit(start: nat, committed: nat, rounds: seq<Round>, n: nat) returns (j: nat)
    requires n <= |rounds| && committed <= start < CommittedOf(start, committed, rounds, n)
    ensures j < n && Commits(rounds[j]) && CommittedOf(start, committed, rounds, n) == OffsetOf(start, rounds, j) + 1
    decreases n
  {
    assert n > 0 by { assert rounds[..0] == []; }
    CommittedAfter(start, committed, rounds, n - 1);
    if Commits(rounds[n - 1]) {
      j := n - 1;
    } else {
      j := LastCommit(start, committed, rounds, n - 1);
    }
  }

  lemma {:induction false} CommitsCover(start: nat, committed: nat, rounds: seq<Round>, n: nat, j: nat)
    requires j < n <= |rounds| && Commits(rounds[j])
    ensures OffsetOf(start, rounds, j) < CommittedOf(start, committed, rounds, n)
    decreases n
  {
    CommittedAfter(start, committed, rounds, n - 1);
    if j < n - 1 {
      CommitsCover(start, committed, rounds, n - 1, j);
      OffsetsGrow(start, rounds, j, n - 1);
    }
  }

  // ---------- rounds and the ledger's run ----------

  /** The number under which a message was handled, and how long the ledger's run was before. */
  datatype Mark = Mark(handler: nat, before: nat)

  /** Between two states of the ledger a new handler has dealt with the message, and failed or not; or
      the message was skipped. */
  ghost predicate Dealt(m: Message, failed: bool, h: nat, s: State, s': State) {
    if Reaches(m) then
      && h !in s.handlers && h in s'.handlers && s'.handlers[h].event == m.body.event && s'.handlers[h].pc.Done?
      && failed == (s'.handlers[h].pc.result == Failed)
      && (s'.handlers[h].pc.result.Rejected? <==> Validate(m.body.event) != Passed)
    else !failed
  }

  /** Where the ledger's run is when round i is over. */
  function EndOf(marks: seq<Mark>, trace: seq<Action>, i: nat): nat
    requires i < |marks|
  {
    if i + 1 < |marks| then marks[i + 1].before else |trace|
  }

  ghost predicate RoundIsReal(log: seq<Message>, start: nat, rounds: seq<Round>, marks: seq<Mark>, trace: seq<Action>, i: nat)
    requires i < |rounds| == |marks|
  {
    && marks[i].before <= EndOf(marks, trace, i) <= |trace|
    && (rounds[i].Handled? ==>
          && OffsetOf(start, rounds, i) < |log|
          && Dealt(log[OffsetOf(start, rounds, i)], rounds[i].failed, marks[i].handler,
                   Reach(trace[..marks[i].before]), Reach(trace[..EndOf(marks, trace, i)])))
  }

  /** The rounds are what the consumer did while the ledger, other consumers included, went through
      this run: each message fetched was dealt with in its round, and the rounds follow one another. */
  ghost predicate Real(log: seq<Message>, start: nat, rounds: seq<Round>, marks: seq<Mark>, trace: seq<Action>) {
    |marks| == |rounds| && forall i :: 0 <= i < |rounds| ==> RoundIsReal(log, start, rounds, marks, trace, i)
  }

  /** One more round. */
  lemma RealSnoc(
    log: seq<Message>, start: nat, rounds: seq<Round>, marks: seq<Mark>, trace: seq<Action>, round: Round, h: nat,
    after: seq<Action>)
    requires Real(log, start, rounds, marks, trace) && trace <= after
    requires round.Handled? ==>
               && OffsetOf(start, rounds, |rounds|) < |log|
               && Dealt(log[OffsetOf(start, rounds, |rounds|)], round.failed, h, Reach(trace), Reach(after))
    ensures Real(log, start, rounds + [round], marks + [Mark(h, |trace|)], after)
  {
    var rounds', marks' := rounds + [round], marks + [Mark(h, |trace|)];
    forall i | 0 <= i < |rounds'| ensures RoundIsReal(log, start, rounds', marks', after, i) {
      assert rounds'[..i] == rounds[..i];
      if i < |rounds| {
        assert RoundIsReal(log, start, rounds, marks, trace, i);
        assert EndOf(marks', after, i) == EndOf(marks, trace, i);
        assert after[..marks[i].before] == trace[..marks[i].before];
        assert after[..EndOf(marks, trace, i)] == trace[..EndOf(marks, trace, i)];
      } else {
        assert after[..|trace|] == trace && after[..|after|] == after;
      }
    }
  }

  // ---------- exactly when a committed offset covers an event that is not in the books ----------

  ghost predicate Missing(log: seq<Message>, trace: seq<Action>, o: nat) {
    o < |log| && Relevant(log[o]) && log[o].body.event.id !in Reach(trace).books.processed
  }

  /** Round i failed, and no handler's commit of its event took effect: not its own, before it failed,
      nor that of another delivery. */
  ghost predicate Dropped(log: seq<Message>, start: nat, rounds: seq<Round>, trace: seq<Action>, i: nat) {
    && i < |rounds| && Fails(rounds[i]) && OffsetOf(start, rounds, i) < |log|
    && log[OffsetOf(start, rounds, i)].body.Decoded?
    && !EverCommitted(trace, log[OffsetOf(start, rounds, i)].body.event.id)
  }

  /** A message that did not fail in its round is in the books from then on. */
  lemma HandledIsProcessed(m: Message, h: nat, s: State, before: seq<Action>, trace: seq<Action>)
    requires Relevant(m) && before <= trace && Dealt(m, false, h, s, Reach(before))
    ensures m.body.event.id in Reach(trace).books.processed
  {
    assert before + trace[|before|..] == trace;
    assert Reported(Reach(before).handlers[h]);
    SuccessMeansProcessed(before, trace[|before|..], h);
  }

  /** The failed round is that of a message the ledger should have applied. */
  lemma FailedIsRelevant(m: Message, h: nat, s: State, s': State)
    requires Dealt(m, true, h, s, s')
    ensures Relevant(m)
  {
  }

  lemma MissingWasDropped(
    log: seq<Message>, start: nat, rounds: seq<Round>, marks: seq<Mark>, trace: seq<Action>, i: nat)
    requires Real(log, start, rounds, marks, trace) && i < |rounds| && rounds[i].Handled?
    ensures Missing(log, trace, OffsetOf(start, rounds, i)) <==> Dropped(log, start, rounds, trace, i)
  {
    assert RoundIsReal(log, start, rounds, marks, trace, i);
    var m, end := log[OffsetOf(start, rounds, i)], trace[..EndOf(marks, trace, i)];
    if rounds[i].failed {
      FailedIsRelevant(m, marks[i].handler, Reach(trace[..marks[i].before]), Reach(end));
      ProcessedIffCommitted(trace, m.body.event.id);
    } else if Relevant(m) {
      HandledIsProcessed(m, marks[i].handler, Reach(trace[..marks[i].before]), end, trace);
    }
  }

  /** The broker would resume behind a message that the ledger should have applied and has not, exactly
      when some round failed with no commit of its event taking effect, and a later round committed. */
  lemma CommitCoversMissingIff(
    log: seq<Message>, start: nat, committed: nat, rounds: seq<Round>, marks: seq<Mark>, trace: seq<Action>)
    requires committed <= start && Real(log, start, rounds, marks, trace)
    ensures (exists o :: start <= o < Offsets(start, committed, rounds).committed && Missing(log, trace, o))
            <==> exists i, j :: 0 <= i < j < |rounds| && Dropped(log, start, rounds, trace, i) && Commits(rounds[j])
  {
    var n := |rounds|;
    assert rounds[..n] == rounds;
    if o :| start <= o < CommittedOf(start, committed, rounds, n) && Missing(log, trace, o) {
      var j := LastCommit(start, committed, rounds, n);
      OffsetsGrow(start, rounds, j + 1, n);
      OffsetAfter(start, rounds, j);
      var i := RoundOf(start, rounds, n, o);
      MissingWasDropped(log, start, rounds, marks, trace, i);
      if j <= i { OffsetsGrow(start, rounds, j, i); }
      assert i < j && Dropped(log, start, rounds, trace, i) && Commits(rounds[j]);
    }
    if i, j :| 0 <= i < j < |rounds| && Dropped(log, start, rounds, trace, i) && Commits(rounds[j]) {
      MissingWasDropped(log, start, rounds, marks, trace, i);
      PositionOnly(start, start, rounds[..i]);
      OffsetsGrow(start, rounds, i, j);
      CommitsCover(start, committed, rounds, n, j);
      assert Missing(log, trace, OffsetOf(start, rounds, i));
    }
  }

  // ---------- it happens ----------

  /** A handler whose first call fails leaves everything else as it was. */
  lemma FirstCallFails(before: seq<Action>, h: nat, e: PaymentEvent)
    requires h !in Reach(before).handlers && Validate(e) == Passed
    ensures Reach(before + [Deliver(h, e)] + [Call(h, FailsBefore)])
            == Reach(before).(handlers := Reach(before).handlers[h := Handler(e, Done(Failed))])
  {
    ReachableIsGood(before);
    RunSnoc(Step, Init(Validate), before, Deliver(h, e));
    RunSnoc(Step, Init(Validate), before + [Deliver(h, e)], Call(h, FailsBefore));
    DeliveredInVain(Reach(before), h, e);
  }

  lemma DeliveredInVain(s: State, h: nat, e: PaymentEvent)
    requires h !in s.handlers && s.validate(e) == Passed
    ensures Step(Step(s, Deliver(h, e)), Call(h, FailsBefore)) == s.(handlers := s.handlers[h := Handler(e, Done(Failed))])
  {
    assert s.handlers[h := Handler(e, CheckProcessed)][h := Handler(e, Done(Failed))]
           == s.handlers[h := Handler(e, Done(Failed))];
  }

  /** For every log in which a relevant message is followed by one that is skipped, and every run of the
      ledger that has not seen its event, there is a continuation in which the consumer commits both
      offsets and the event is not in the books. */
  lemma CommitCanCoverMissing(log: seq<Message>, start: nat, before: seq<Action>)
    returns (rounds: seq<Round>, marks: seq<Mark>, trace: seq<Action>)
    requires start + 1 < |log| && Missing(log, before, start) && !Reaches(log[start + 1])
    ensures before <= trace && Real(log, start, rounds, marks, trace)
    ensures Offsets(start, start, rounds).committed == start + 2 && Missing(log, trace, start)
  {
    var h := AboveAll(Reach(before).handlers.Keys);
    var e := log[start].body.event;
    trace := before + [Deliver(h, e)] + [Call(h, FailsBefore)];
    FirstCallFails(before, h, e);
    OffsetsOfTwo(start);
    marks := [] + [Mark(h, |before|)] + [Mark(h, |trace|)];
    rounds := [] + [Handled(true, false)] + [Handled(false, true)];
    RealSnoc(log, start, [], [], before, Handled(true, false), h, trace);
    RealSnoc(log, start, [] + [Handled(true, false)], [] + [Mark(h, |before|)], trace, Handled(false, true), h, trace);
  }

  lemma OffsetsOfTwo(start: nat)
    ensures OffsetOf(start, [], 0) == start && OffsetOf(start, [] + [Handled(true, false)], 1) == start + 1
    ensures Offsets(start, start, [] + [Handled(true, false)] + [Handled(false, true)]).committed == start + 2
  {
    var one, two := [Handled(true, false)], [Handled(true, false), Handled(false, true)];
    assert [] + one == one && [] + one + [Handled(false, true)] == two;
    assert one[..0] == [] && one[..1] == one && two[..1] == one;
    assert Offsets(start, start, one) == Bookkeeping(start + 1, start, {start});
  }
}
