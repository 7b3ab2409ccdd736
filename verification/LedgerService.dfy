/** The ledger service as it is written: the check outside the transaction, the transaction with its
    four writes, and the two balance reads. Other handlers act between any two calls. Every method is proved to be a part of a run of the ledger protocol. */
module LedgerService {
  import opened GoText
  import opened LedgerProtocol
  import opened Runs
  import LT = LedgerTheorems

  datatype Actor = Nobody | HandlerNo(h: nat)

  predicate Moves(a: Action, actor: Actor) {
    actor.HandlerNo? && a.h == actor.h
  }

  ghost predicate SamePosition(actor: Actor, s: State, s': State) {
    actor.HandlerNo? ==> actor.h in s.handlers && actor.h in s'.handlers && s'.handlers[actor.h] == s.handlers[actor.h]
  }

  lemma {:induction false} OthersKeepPosition(actor: Actor, s: State, actions: seq<Action>)
    requires SamePosition(actor, s, s)
    requires forall a :: a in actions ==> !Moves(a, actor)
    ensures SamePosition(actor, s, Run(Step, s, actions))
    decreases |actions|
  {
    if actions != [] {
      var n := |actions| - 1;
      OthersKeepPosition(actor, s, actions[..n]);
      var mid := Run(Step, s, actions[..n]);
      assert actions[n] in actions;
      assert SamePosition(actor, mid, Step(mid, actions[n]));
    }
  }

  /** A run that others make leads to a state in which this actor stands where it stood. */
  lemma OthersRun(actor: Actor, before: seq<Action>, more: seq<Action>)
    requires SamePosition(actor, Reach(before), Reach(before))
    requires forall a :: a in more ==> !Moves(a, actor)
    ensures var s, s' := Reach(before), Run(Step, Reach(before), more);
            s' == Reach(before + more) && SamePosition(actor, s, s') && s'.validate == Validate
  {
    RunConcat(Step, Init(Validate), before, more);
    OthersKeepPosition(actor, Reach(before), more);
    LT.ReachableIsGood(before);
    LT.RunsAreGood(Reach(before), more);
  }

  /** What a commit leaves in the tables, and what it reports. */
  predicate AllOrNothing(b: Books, b': Books, event: PaymentEvent, tx: Tx, o: Outcome, ok: bool) {
    var pending := BalanceOf(b.balances, event.merchantId).pending + tx.increment;
    if o != FailsBefore && event.id !in b.processed && pending <= MAX_INT64
    then && b'.processed == b.processed[event.id := ProcessedRow(event.merchantId, event.eventType)]
         && b'.journal == b.journal + tx.entries
         && b'.balances == b.balances[event.merchantId := Balance(BalanceOf(b.balances, event.merchantId).available, pending)]
         && ok == (o == Succeeds)
    else b' == b && !ok
  }

  lemma CommitStep(s: State, h: nat, tx: Tx, o: Outcome)
    requires h in s.handlers && s.handlers[h].pc == Commit(tx) && tx.marked
    ensures var event := s.handlers[h].event;
            AllOrNothing(s.books, Step(s, Call(h, o)).books, event, tx, o, o == Succeeds && Committable(s.books, event, tx))
  {
  }

  class LedgerService {
    var processed: map<Symbol, ProcessedRow>
    var journal: seq<JournalEntry>
    var balances: map<Symbol, Balance>
    var applied: seq<PaymentEvent>
    // Where each handler stands, and the run all of them make up.
    var handlers: map<nat, Handler>
    ghost var trace: seq<Action>

    constructor ()
      ensures Valid() && trace == [] && World() == Init(Validate)
    {
      processed, journal, balances, applied, handlers, trace := map[], [], map[], [], map[], [];
    }

    function World(): State
      reads this
    {
      State(Validate, Books(processed, journal, balances, applied), handlers)
    }

    ghost predicate Valid()
      reads this
    {
      World() == Reach(trace)
    }

    ghost predicate At(h: nat, event: PaymentEvent, pc: HandlerPc)
      reads this
    {
      h in handlers && handlers[h] == Handler(event, pc)
    }

    /** Other handlers make any number of steps. */
    method Others(actor: Actor)
      requires Valid() && SamePosition(actor, World(), World())
      modifies this
      ensures Valid() && old(trace) <= trace && SamePosition(actor, old(World()), World())
    {
      var more: seq<Action> := *;
      if forall a | a in more :: !Moves(a, actor) {
        var s := Run(Step, World(), more);
        OthersRun(actor, trace, more);
        processed, journal, balances, applied := s.books.processed, s.books.journal, s.books.balances, s.books.applied;
        handlers := s.handlers;
        assert World() == s;
        trace := trace + more;
      }
    }

    /** Handler h made a call in state s and now stands at pc; then others go on. */
    method Yield(h: nat, pc: HandlerPc, ghost s: State, ghost o: Outcome)
      requires s == Reach(trace) && h in s.handlers && h in handlers
      requires AtPc(World(), h, pc) == Advance(s, h, o)
      modifies this
      ensures Valid() && old(trace) + [Call(h, o)] <= trace && At(h, s.handlers[h].event, pc)
    {
      handlers := handlers[h := handlers[h].(pc := pc)];
      ghost var one := [Call(h, o)];
      assert (trace + one)[..|trace|] == trace;
      trace := trace + one;
      Others(HandlerNo(h));
    }

    /** A call of handler h failed, since the run was this long. */
    ghost predicate CallFailed(h: nat, from: nat)
      reads this
    {
      exists i :: from <= i < |trace| && LT.CallFails(Reach(trace[..i]), trace[i], h)
    }

    /** A call of handler h failed or was refused: the event's key was taken, or the sum was no BIGINT. */
    ghost predicate FailedFor(h: nat, from: nat)
      reads this
    {
      LT.HasReason(trace, h, from, false)
    }

    lemma ThisCallFailed(before: seq<Action>, h: nat, o: Outcome)
      requires before + [Call(h, o)] <= trace && o != Succeeds && h in Reach(before).handlers
      ensures CallFailed(h, |before|)
    {
      assert trace[..|before|] == before && trace[|before|] == Call(h, o);
    }

    lemma CallFailedIsReason(h: nat, from: nat)
      requires CallFailed(h, from)
      ensures FailedFor(h, from)
    {
      var i :| from <= i < |trace| && LT.CallFails(Reach(trace[..i]), trace[i], h);
      assert LT.IsReason(trace, h, i, false);
    }

    lemma StillFailed(h: nat, from: nat, earlier: nat)
      requires FailedFor(h, from) && earlier <= from
      ensures FailedFor(h, earlier)
    {
      LT.ReasonStays(trace, trace, h, from, earlier, false);
    }

    lemma StaysProcessed(before: seq<Action>, id: Symbol)
      requires Valid() && before <= trace && id in Reach(before).books.processed
      ensures id in processed
    {
      assert before + trace[|before|..] == trace;
      LT.ProcessedForever(before, trace[|before|..], id);
    }

    lemma ReportedIsProcessed(h: nat, event: PaymentEvent, r: Result)
      requires Valid() && At(h, event, Done(r)) && r in {Processed, AlreadyProcessed}
      ensures event.id in processed
    {
      LT.ReachableIsGood(trace);
      assert LT.Reported(World().handlers[h]);
    }

    /** IsEventProcessed, asked outside any transaction. */
    method IsEventProcessed(h: nat, event: PaymentEvent) returns (pc: HandlerPc)
      requires Valid() && At(h, event, CheckProcessed)
      modifies this
      ensures Valid() && old(trace) <= trace && At(h, event, pc)
      ensures pc in {Done(Failed), Done(AlreadyProcessed), InsertDebit}
      ensures pc == Done(Failed) ==> CallFailed(h, |old(trace)|)
      ensures pc != Done(Failed) ==> (pc == Done(AlreadyProcessed) <==> event.id in old(processed))
    {
      ghost var s, before := World(), trace;
      var o: Outcome := *;
      pc := if o != Succeeds then Done(Failed) else if event.id in processed then Done(AlreadyProcessed) else InsertDebit;
      Yield(h, pc, s, o);
      if pc == Done(Failed) { ThisCallFailed(before, h, o); }
    }

    /** A write inside the open transaction. It goes to the transaction, not to the tables. */
    method WriteInTx(h: nat, event: PaymentEvent, before: HandlerPc, after: HandlerPc) returns (ok: bool)
      requires Valid() && At(h, event, before)
      requires match before
               case InsertDebit => after == InsertCredit(EMPTY_TX.(entries := [EntryFor(Debit, event)]))
               case InsertCredit(tx) => after == IncrementPending(tx.(entries := tx.entries + [EntryFor(Credit, event)]))
               case IncrementPending(tx) => after == MarkProcessed(tx.(increment := event.amount))
               case _ => false
      modifies this
      ensures Valid() && old(trace) <= trace && At(h, event, if ok then after else Done(Failed))
      ensures !ok ==> FailedFor(h, |old(trace)|)
    {
      ghost var s, before := World(), trace;
      var o: Outcome := *;
      ok := o == Succeeds;
      Yield(h, if ok then after else Done(Failed), s, o);
      if !ok { LT.ThisIsReason(before, Call(h, o), trace, h, false); }
    }

    method MarkEventProcessed(h: nat, event: PaymentEvent, tx: Tx) returns (ok: bool)
      requires Valid() && At(h, event, MarkProcessed(tx))
      modifies this
      ensures Valid() && old(trace) <= trace
      ensures At(h, event, if ok then Commit(tx.(marked := true)) else Done(Failed))
      ensures !ok ==> FailedFor(h, |old(trace)|)
    {
      ghost var s, before := World(), trace;
      var o: Outcome := *;
      ok := o == Succeeds && event.id !in processed;
      Yield(h, if ok then Commit(tx.(marked := true)) else Done(Failed), s, o);
      if !ok { LT.ThisIsReason(before, Call(h, o), trace, h, false); }
    }

    /** The commit: all of the transaction's writes reach the tables, or none. They do unless the call
        fails first, the event is there already, or the sum is no BIGINT; and success is only reported
        if they did. */
    method CommitTx(h: nat, event: PaymentEvent, tx: Tx) returns (ok: bool, ghost o: Outcome)
      requires Valid() && At(h, event, Commit(tx)) && tx.marked
      modifies this
      ensures Valid() && old(trace) + [Call(h, o)] <= trace && At(h, event, Done(if ok then Processed else Failed))
      ensures !ok && tx.increment == event.amount ==> FailedFor(h, |old(trace)|)
      ensures AllOrNothing(old(World()).books, Reach(old(trace) + [Call(h, o)]).books, event, tx, o, ok)
    {
      ghost var s, before := World(), trace;
      var outcome: Outcome := *;
      o := outcome;
      var pending := BalanceOf(balances, event.merchantId).pending + tx.increment;
      var accepted := event.id !in processed && pending <= MAX_INT64;
      if accepted && outcome != FailsBefore {
        journal := journal + tx.entries;
        balances := balances[event.merchantId := Balance(BalanceOf(balances, event.merchantId).available, pending)];
        processed := processed[event.id := ProcessedRow(event.merchantId, event.eventType)];
        applied := applied + [event];
      }
      ok := accepted && outcome == Succeeds;
      CommitStep(s, h, tx, o);
      RunSnoc(Step, Init(Validate), before, Call(h, o));
      Yield(h, Done(if ok then Processed else Failed), s, o);
      if !ok && tx.increment == event.amount { LT.ThisIsReason(before, Call(h, o), trace, h, false); }
    }

    /** The transaction of HandlePaymentSucceeded. */
    method ApplyInTx(h: nat, event: PaymentEvent) returns (ok: bool)
      requires Valid() && At(h, event, InsertDebit)
      modifies this
      ensures Valid() && old(trace) <= trace && At(h, event, Done(if ok then Processed else Failed))
      ensures !ok ==> FailedFor(h, |old(trace)|)
    {
      var debit, credit := EntryFor(Debit, event), EntryFor(Credit, event);
      ok := WriteInTx(h, event, InsertDebit, InsertCredit(Tx([debit], 0, false)));
      if !ok {
        return;
      }
      ghost var first := trace;
      ok := WriteInTx(h, event, InsertCredit(Tx([debit], 0, false)), IncrementPending(Tx([debit] + [credit], 0, false)));
      if !ok {
        StillFailed(h, |first|, |old(trace)|);
        return;
      }
      ok := FinishTx(h, event, [debit] + [credit]);
      if !ok {
        StillFailed(h, |first|, |old(trace)|);
      }
    }

    /** The part of the transaction from the balance on. */
    method FinishTx(h: nat, event: PaymentEvent, entries: seq<JournalEntry>) returns (ok: bool)
      requires Valid() && At(h, event, IncrementPending(Tx(entries, 0, false)))
      modifies this
      ensures Valid() && old(trace) <= trace && At(h, event, Done(if ok then Processed else Failed))
      ensures !ok ==> FailedFor(h, |old(trace)|)
    {
      ok := WriteInTx(h, event, IncrementPending(Tx(entries, 0, false)), MarkProcessed(Tx(entries, event.amount, false)));
      if !ok {
        return;
      }
      ghost var written := trace;
      ok := MarkEventProcessed(h, event, Tx(entries, event.amount, false));
      if ok {
        ghost var marked, o := trace, Succeeds;
        ok, o := CommitTx(h, event, Tx(entries, event.amount, true));
        if !ok {
          StillFailed(h, |marked|, |written|);
        }
      }
      if !ok {
        StillFailed(h, |written|, |old(trace)|);
      }
    }

    method Receive(h: nat, event: PaymentEvent) returns (verdict: Validation)
      requires Valid() && h !in handlers
      modifies this
      ensures Valid() && old(trace) <= trace && verdict == Validate(event)
      ensures At(h, event, if verdict == Passed then CheckProcessed else Done(Rejected(verdict.reason)))
    {
      verdict := Validate(event);
      handlers := handlers[h := Handler(event, if verdict == Passed then CheckProcessed else Done(Rejected(verdict.reason)))];
      ghost var one := [Deliver(h, event)];
      assert (trace + one)[..|trace|] == trace;
      trace := trace + one;
      Others(HandlerNo(h));
    }

    /** HandlePaymentSucceeded. Success means that the event is in the books; an event that was there
        before is acknowledged, unless the check itself fails; and Failed means that a call of this
        handler failed, or that the event's key was taken meanwhile, or that the sum is no BIGINT. */
    method HandlePaymentSucceeded(h: nat, event: PaymentEvent) returns (r: Result)
      requires Valid() && h !in handlers
      modifies this
      ensures Valid() && old(trace) <= trace && At(h, event, Done(r))
      ensures r.Rejected? <==> Validate(event) != Passed
      ensures r == Processed || r == AlreadyProcessed ==> event.id in processed
      ensures event.id in old(processed) && Validate(event) == Passed ==> r == AlreadyProcessed || CallFailed(h, |old(trace)|)
      ensures r == Processed ==> event.id !in old(processed)
      ensures r == Failed ==> FailedFor(h, |old(trace)|)
    {
      var verdict := Receive(h, event);
      if verdict != Passed {
        return Rejected(verdict.reason);
      }
      r := CheckAndApply(h, event, old(trace));
    }

    method CheckAndApply(h: nat, event: PaymentEvent, ghost start: seq<Action>) returns (r: Result)
      requires Valid() && At(h, event, CheckProcessed) && start <= trace
      modifies this
      ensures Valid() && old(trace) <= trace && At(h, event, Done(r)) && !r.Rejected?
      ensures r == Processed || r == AlreadyProcessed ==> event.id in processed
      ensures event.id in Reach(start).books.processed ==> r == AlreadyProcessed || CallFailed(h, |start|)
      ensures r == Processed ==> event.id !in Reach(start).books.processed
      ensures r == Failed ==> FailedFor(h, |start|)
    {
      if event.id in Reach(start).books.processed { StaysProcessed(start, event.id); }
      var pc := IsEventProcessed(h, event);
      ghost var checked := trace;
      if pc.Done? {
        r := pc.result;
        if r == Failed { CallFailedIsReason(h, |old(trace)|); StillFailed(h, |old(trace)|, |start|); }
      } else {
        var ok := ApplyInTx(h, event);
        r := if ok then Processed else Failed;
        if !ok { StillFailed(h, |checked|, |start|); }
      }
      if r != Failed { ReportedIsProcessed(h, event, r); }
    }

    /** GetBalance: a merchant without a row has a zero balance. */
    method GetBalance(merchantId: Symbol) returns (balance: Balance)
      requires Valid()
      ensures balance == Balance(0, LT.Total(applied, merchantId))
    {
      balance := if merchantId in balances then balances[merchantId] else Balance(0, 0);
      LT.ReachableIsGood(trace);
      assert balance == BalanceOf(balances, merchantId);
    }

    /** VerifyBalance: two reads with anything in between; `first` and `second` are how they end. When
        both succeed the answer is true. */
    method VerifyBalance(merchantId: Symbol, first: Outcome, second: Outcome) returns (ok: bool, verified: bool)
      requires Valid()
      modifies this
      ensures Valid() && old(trace) <= trace
      ensures ok == verified == (first == Succeeds && second == Succeeds)
    {
      if first != Succeeds {
        return false, false;
      }
      var materialized := GetBalance(merchantId);
      Others(Nobody);
      if second != Succeeds {
        return false, false;
      }
      var computed := JournalBalance(journal, merchantId);
      LT.DoubleEntry(trace, merchantId, 0);
      return true, materialized.available == computed;
    }
  }
}
