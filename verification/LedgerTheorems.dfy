/** Exactly-once application and double entry, over every run of the ledger and for any caller. */
module LedgerTheorems {
  import opened GoText
  import opened LedgerProtocol
  import opened Runs

  // ---------- what the committed transactions add up to ----------

  function EntriesOf(applied: seq<PaymentEvent>): seq<JournalEntry> {
    if applied == [] then []
    else EntriesOf(applied[..|applied| - 1])
         + [EntryFor(Debit, applied[|applied| - 1]), EntryFor(Credit, applied[|applied| - 1])]
  }

  function Total(applied: seq<PaymentEvent>, merchantId: Symbol): int {
    if applied == [] then 0
    else Total(applied[..|applied| - 1], merchantId)
         + (if applied[|applied| - 1].merchantId == merchantId then applied[|applied| - 1].amount else 0)
  }

  ghost predicate DistinctIds(applied: seq<PaymentEvent>) {
    forall i, j :: 0 <= i < j < |applied| ==> applied[i].id != applied[j].id
  }

  // ---------- the invariant ----------

  ghost predicate Mentions(applied: seq<PaymentEvent>, id: Symbol) {
    exists i :: 0 <= i < |applied| && applied[i].id == id
  }

  ghost predicate ProcessedOk(b: Books) {
    && DistinctIds(b.applied)
    && (forall id :: id in b.processed <==> Mentions(b.applied, id))
    && (forall i :: 0 <= i < |b.applied| ==>
          && b.applied[i].id in b.processed
          && b.processed[b.applied[i].id] == ProcessedRow(b.applied[i].merchantId, b.applied[i].eventType))
  }

  ghost predicate TotalsOk(b: Books) {
    forall m :: BalanceOf(b.balances, m) == Balance(0, Total(b.applied, m)) && Total(b.applied, m) <= MAX_INT64
  }

  /** The books are exactly the committed events, each counted once. */
  ghost predicate BooksOk(b: Books) {
    ProcessedOk(b) && TotalsOk(b) && b.journal == EntriesOf(b.applied)
  }

  /** What an open transaction has written, up to the write its handler makes next. */
  predicate TxOk(e: PaymentEvent, pc: HandlerPc) {
    match pc
    case CheckProcessed => true
    case InsertDebit => true
    case InsertCredit(tx) => tx == Tx([EntryFor(Debit, e)], 0, false)
    case IncrementPending(tx) => tx == Tx([EntryFor(Debit, e), EntryFor(Credit, e)], 0, false)
    case MarkProcessed(tx) => tx == Tx([EntryFor(Debit, e), EntryFor(Credit, e)], e.amount, false)
    case Commit(tx) => tx == Tx([EntryFor(Debit, e), EntryFor(Credit, e)], e.amount, true)
    case Done(_) => true
  }

  predicate HandlerOk(validate: PaymentEvent -> Validation, h: Handler) {
    TxOk(h.event, h.pc) && (h.pc.Done? || validate(h.event) == Passed)
  }

  ghost predicate Inv(s: State) {
    && BooksOk(s.books)
    && (forall i :: 0 <= i < |s.books.applied| ==> s.validate(s.books.applied[i]) == Passed)
    && (forall h :: h in s.handlers ==> HandlerOk(s.validate, s.handlers[h]))
    && (forall h :: h in s.handlers && Reported(s.handlers[h]) ==> s.handlers[h].event.id in s.books.processed)
  }

  /** The handler told its caller that the event is dealt with. */
  predicate Reported(h: Handler) {
    h.pc == Done(Processed) || h.pc == Done(AlreadyProcessed)
  }

  lemma CommitKeepsProcessed(b: Books, e: PaymentEvent, tx: Tx)
    requires ProcessedOk(b) && Committable(b, e, tx) && tx.marked
    ensures ProcessedOk(Committed(b, e, tx))
  {
    var b' := Committed(b, e, tx);
    var n := |b.applied|;
    assert b'.applied[n] == e;
    forall id ensures id in b'.processed <==> Mentions(b'.applied, id) {
      if Mentions(b.applied, id) {
        var i :| 0 <= i < n && b.applied[i].id == id;
        assert b'.applied[i].id == id;
      }
    }
    forall i | 0 <= i < n ensures b.applied[i].id != e.id { assert Mentions(b.applied, b.applied[i].id); }
  }

  lemma CommitKeepsTotals(b: Books, e: PaymentEvent, tx: Tx)
    requires TotalsOk(b) && Committable(b, e, tx) && tx.increment == e.amount
    ensures TotalsOk(Committed(b, e, tx))
  {
    var b' := Committed(b, e, tx);
    assert b'.applied[..|b.applied|] == b.applied;
    forall m ensures BalanceOf(b'.balances, m) == Balance(0, Total(b'.applied, m)) && Total(b'.applied, m) <= MAX_INT64 {
      assert BalanceOf(b.balances, m) == Balance(0, Total(b.applied, m)) && Total(b.applied, m) <= MAX_INT64;
    }
  }

  lemma CommitKeepsBooks(b: Books, e: PaymentEvent, tx: Tx)
    requires BooksOk(b) && Committable(b, e, tx) && TxOk(e, Commit(tx))
    ensures BooksOk(Committed(b, e, tx))
  {
    CommitKeepsProcessed(b, e, tx);
    CommitKeepsTotals(b, e, tx);
    assert (b.applied + [e])[..|b.applied|] == b.applied;
  }

  /** A committed event is never taken back. */
  ghost predicate Grows(s: State, s': State) {
    s'.validate == s.validate && s.books.applied <= s'.books.applied
  }

  /** A handler moves on without writing. */
  lemma MoveKeepsInvariant(s: State, h: nat, pc: HandlerPc)
    requires Inv(s) && h in s.handlers && !s.handlers[h].pc.Done? && TxOk(s.handlers[h].event, pc)
    requires Reported(Handler(s.handlers[h].event, pc)) ==> s.handlers[h].event.id in s.books.processed
    ensures Inv(AtPc(s, h, pc))
  {
    assert HandlerOk(s.validate, s.handlers[h]);
  }

  lemma CommitKeepsInvariant(s: State, h: nat, pc: HandlerPc)
    requires Inv(s) && h in s.handlers && s.handlers[h].pc.Commit? && pc.Done?
    requires Committable(s.books, s.handlers[h].event, s.handlers[h].pc.tx)
    ensures var s' := AtPc(s.(books := Committed(s.books, s.handlers[h].event, s.handlers[h].pc.tx)), h, pc);
            Inv(s') && Grows(s, s')
  {
    assert HandlerOk(s.validate, s.handlers[h]);
    CommitKeepsBooks(s.books, s.handlers[h].event, s.handlers[h].pc.tx);
  }

  lemma AdvanceKeepsInvariant(s: State, h: nat, o: Outcome)
    requires Inv(s) && h in s.handlers
    ensures Inv(Advance(s, h, o)) && Grows(s, Advance(s, h, o))
  {
    var hd := s.handlers[h];
    assert HandlerOk(s.validate, hd);
    if hd.pc.Commit? && o != FailsBefore && Committable(s.books, hd.event, hd.pc.tx) {
      CommitKeepsInvariant(s, h, if o == Succeeds then Done(Processed) else Done(Failed));
    } else if !hd.pc.Done? {
      MoveKeepsInvariant(s, h, Advance(s, h, o).handlers[h].pc);
    }
  }

  lemma StepKeepsInvariant(s: State, a: Action)
    requires Inv(s)
    ensures Inv(Step(s, a)) && Grows(s, Step(s, a))
  {
    match a
    case Deliver(_, _) =>
    case Call(h, o) => if h in s.handlers { AdvanceKeepsInvariant(s, h, o); }
    case Crash(h) => if h in s.handlers && !s.handlers[h].pc.Done? { MoveKeepsInvariant(s, h, Done(Failed)); }
  }

  lemma RunsAreGood(s: State, actions: seq<Action>)
    requires Inv(s)
    ensures Inv(Run(Step, s, actions)) && Grows(s, Run(Step, s, actions))
  {
    forall x: State, a: Action | Inv(x) ensures Inv(Step(x, a)) && Grows(x, Step(x, a)) {
      StepKeepsInvariant(x, a);
    }
    RelationOfRun(Step, Inv, Grows, s, actions);
  }

  lemma ReachableIsGood(actions: seq<Action>)
    ensures Inv(Reach(actions)) && Reach(actions).validate == Validate
  {
    RunsAreGood(Init(Validate), actions);
  }

  // ---------- validation ----------

  /** What the ledger asks of an event before it touches its tables. */
  predicate WellFormed(e: PaymentEvent) {
    && !Blank(e.id) && !Blank(e.paymentId) && !Blank(e.merchantId)
    && Chars(e.eventType) == "payment.succeeded" && Chars(e.source) == "payment-service"
    && Chars(e.currency) == "NGN" && Chars(e.status) == "completed" && e.amount > 0
  }

  /** What is wrong with an event that is rejected for this reason. */
  predicate Violates(e: PaymentEvent, r: Reason) {
    match r
    case EventIdRequired => Blank(e.id)
    case UnexpectedType => Chars(e.eventType) != "payment.succeeded"
    case UnexpectedSource => Chars(e.source) != "payment-service"
    case PaymentIdRequired => Blank(e.paymentId)
    case MerchantIdRequired => Blank(e.merchantId)
    case AmountNotPositive => e.amount <= 0
    case UnsupportedCurrency => Chars(e.currency) != "NGN"
    case UnexpectedStatus => Chars(e.status) != "completed"
  }

  /** Validation accepts the well-formed events, rejects any other for something that is wrong with it,
      and everything that is ever applied is well-formed. */
  lemma OnlyWellFormedIsApplied(actions: seq<Action>, e: PaymentEvent)
    ensures Validate(e) == Passed <==> WellFormed(e)
    ensures Validate(e).Invalid? ==> Violates(e, Validate(e).reason)
    ensures forall i :: 0 <= i < |Reach(actions).books.applied| ==> WellFormed(Reach(actions).books.applied[i])
  {
    ReachableIsGood(actions);
    var applied := Reach(actions).books.applied;
    forall i | 0 <= i < |applied| ensures WellFormed(applied[i]) {
      assert Validate(applied[i]) == Passed;
    }
  }

  // ---------- exactly once ----------

  /** In every reachable state the tables are those of a list of distinct, valid events: each
      processed event has left one debit, one credit, one pending increment and one row, and
      nothing else is in the tables. */
  lemma ExactlyOnce(actions: seq<Action>)
    ensures var b := Reach(actions).books;
            && DistinctIds(b.applied)
            && (forall i :: 0 <= i < |b.applied| ==> Validate(b.applied[i]) == Passed)
            && (forall id :: id in b.processed <==> Mentions(b.applied, id))
            && b.journal == EntriesOf(b.applied)
            && (forall m :: BalanceOf(b.balances, m) == Balance(0, Total(b.applied, m)))
  {
    ReachableIsGood(actions);
  }

  /** A step writes to the tables only if it is the commit of an event that was not processed, and
      then it writes all four of them. */
  lemma StepAppliesAllOrNothing(s: State, a: Action)
    requires Inv(s)
    ensures var b, b' := s.books, Step(s, a).books;
            b' == b || (exists e: PaymentEvent :: e.id !in b.processed && s.validate(e) == Passed && AppliedOnce(b, b', e))
  {
    if a.Call? && a.h in s.handlers {
      assert HandlerOk(s.validate, s.handlers[a.h]);
      var e := s.handlers[a.h].event;
      assert Step(s, a).books == s.books || AppliedOnce(s.books, Step(s, a).books, e);
    }
  }

  /** A debit and a credit over the amount, the amount on the pending balance, and the processed row. */
  predicate AppliedOnce(b: Books, b': Books, e: PaymentEvent) {
    && b'.journal == b.journal + [JournalEntry(Debit, e.merchantId, e.paymentId, e.amount, e.currency),
                                  JournalEntry(Credit, e.merchantId, e.paymentId, e.amount, e.currency)]
    && e.merchantId in b'.balances && b'.balances == b.balances[e.merchantId := b'.balances[e.merchantId]]
    && (if e.merchantId in b.balances
        then b'.balances[e.merchantId] == Balance(b.balances[e.merchantId].available, b.balances[e.merchantId].pending + e.amount)
        else b'.balances[e.merchantId] == Balance(0, e.amount))
    && b'.processed == b.processed[e.id := ProcessedRow(e.merchantId, e.eventType)]
  }

  /** A processed event stays processed. */
  lemma ProcessedForever(actions: seq<Action>, later: seq<Action>, id: Symbol)
    requires id in Reach(actions).books.processed
    ensures id in Reach(actions + later).books.processed
  {
    ReachableIsGood(actions);
    var b, b' := Reach(actions).books, Reach(actions + later).books;
    RunConcat(Step, Init(Validate), actions, later);
    RunsAreGood(Reach(actions), later);
    var i :| 0 <= i < |b.applied| && b.applied[i].id == id;
    assert b'.applied[i] == b.applied[i];
  }

  /** A handler that reports success has the event processed, then and for ever after. */
  lemma SuccessMeansProcessed(actions: seq<Action>, later: seq<Action>, h: nat)
    requires h in Reach(actions).handlers && Reported(Reach(actions).handlers[h])
    ensures Reach(actions).handlers[h].event.id in Reach(actions + later).books.processed
  {
    ReachableIsGood(actions);
    ProcessedForever(actions, later, Reach(actions).handlers[h].event.id);
  }

  /** The step is a commit of the event that took effect, whatever its caller was told. */
  predicate CommitsEvent(s: State, a: Action, id: Symbol) {
    && a.Call? && a.h in s.handlers && s.handlers[a.h].event.id == id && s.handlers[a.h].pc.Commit?
    && a.outcome != FailsBefore && Committable(s.books, s.handlers[a.h].event, s.handlers[a.h].pc.tx)
  }

  ghost predicate CommitsAt(actions: seq<Action>, k: int, id: Symbol) {
    0 <= k < |actions| && CommitsEvent(Reach(actions[..k]), actions[k], id)
  }

  ghost predicate EverCommitted(actions: seq<Action>, id: Symbol) {
    exists k :: CommitsAt(actions, k, id)
  }

  lemma EverCommittedOfLast(actions: seq<Action>, id: Symbol)
    requires actions != []
    ensures EverCommitted(actions, id)
            <==> EverCommitted(actions[..|actions| - 1], id) || CommitsAt(actions, |actions| - 1, id)
  {
    var n := |actions| - 1;
    forall k | 0 <= k < n ensures CommitsAt(actions, k, id) <==> CommitsAt(actions[..n], k, id) {
      assert actions[..n][..k] == actions[..k];
    }
    if k :| CommitsAt(actions[..n], k, id) { assert CommitsAt(actions, k, id); }
  }

  lemma StepProcesses(s: State, a: Action, id: Symbol)
    requires Inv(s)
    ensures id in Step(s, a).books.processed <==> id in s.books.processed || CommitsEvent(s, a, id)
  {
    if a.Call? && a.h in s.handlers { assert HandlerOk(s.validate, s.handlers[a.h]); }
  }

  /** An event is processed exactly if some handler's commit of it took effect. */
  lemma {:induction false} ProcessedIffCommitted(actions: seq<Action>, id: Symbol)
    ensures id in Reach(actions).books.processed <==> EverCommitted(actions, id)
    decreases |actions|
  {
    if actions != [] {
      var n := |actions| - 1;
      var before := actions[..n];
      ReachableIsGood(before);
      ProcessedIffCommitted(before, id);
      StepProcesses(Reach(before), actions[n], id);
      EverCommittedOfLast(actions, id);
    }
  }

  // ---------- what a handler answers ----------

  /** The call was made and failed. */
  predicate CallFails(s: State, a: Action, h: nat) {
    a.Call? && a.h == h && a.outcome != Succeeds && h in s.handlers
  }

  /** The database answered and refused: the event's key is taken, or the sum is no BIGINT. */
  predicate Refused(s: State, a: Action, h: nat) {
    && a.Call? && a.h == h && h in s.handlers
    && var e := s.handlers[h].event;
       || ((s.handlers[h].pc.MarkProcessed? || s.handlers[h].pc.Commit?) && e.id in s.books.processed)
       || (s.handlers[h].pc.Commit? && BalanceOf(s.books.balances, e.merchantId).pending + e.amount > MAX_INT64)
  }

  ghost predicate HasReason(actions: seq<Action>, h: nat, from: nat, crashes: bool) {
    exists i :: from <= i < |actions| && IsReason(actions, h, i, crashes)
  }

  ghost predicate IsReason(actions: seq<Action>, h: nat, i: nat, crashes: bool)
    requires i < |actions|
  {
    var s := Reach(actions[..i]);
    CallFails(s, actions[i], h) || Refused(s, actions[i], h) || (crashes && actions[i] == Crash(h) && h in s.handlers)
  }

  lemma ReasonStays(actions: seq<Action>, longer: seq<Action>, h: nat, from: nat, earlier: nat, crashes: bool)
    requires HasReason(actions, h, from, crashes) && actions <= longer && earlier <= from
    ensures HasReason(longer, h, earlier, crashes)
  {
    var i :| from <= i < |actions| && IsReason(actions, h, i, crashes);
    assert longer[..i] == actions[..i];
    assert IsReason(longer, h, i, crashes);
  }

  /** The last step of a run is the reason. */
  lemma ThisIsReason(before: seq<Action>, a: Action, longer: seq<Action>, h: nat, crashes: bool)
    requires before + [a] <= longer
    requires CallFails(Reach(before), a, h) || Refused(Reach(before), a, h) || (crashes && a == Crash(h) && h in Reach(before).handlers)
    ensures HasReason(longer, h, |before|, crashes)
  {
    assert longer[..|before|] == before && longer[|before|] == a;
    assert IsReason(longer, h, |before|, crashes);
  }

  predicate HasFailed(s: State, h: nat) {
    h in s.handlers && s.handlers[h].pc == Done(Failed)
  }

  /** A step that ends a handler as failed is a reason for it. */
  lemma FailingStep(s: State, a: Action, h: nat)
    requires Inv(s) && !HasFailed(s, h) && HasFailed(Step(s, a), h)
    ensures CallFails(s, a, h) || Refused(s, a, h) || (a == Crash(h) && h in s.handlers)
  {
    if h in s.handlers { assert HandlerOk(s.validate, s.handlers[h]); }
  }

  /** And each of these does end a handler that is at work as failed. */
  lemma ReasonFails(s: State, a: Action, h: nat)
    requires Inv(s) && h in s.handlers && !s.handlers[h].pc.Done?
    requires CallFails(s, a, h) || Refused(s, a, h) || a == Crash(h)
    ensures HasFailed(Step(s, a), h)
  {
    assert HandlerOk(s.validate, s.handlers[h]);
  }

  /** Over every run a handler that answered Failed had a call of its own fail, or found the event's key
      taken by another one, or the sum beyond a BIGINT, or was stopped. */
  lemma {:induction false} FailedHasReason(actions: seq<Action>, h: nat)
    requires HasFailed(Reach(actions), h)
    ensures HasReason(actions, h, 0, true)
    decreases |actions|
  {
    assert actions != [];
    var n := |actions| - 1;
    var before := actions[..n];
    if HasFailed(Reach(before), h) {
      FailedHasReason(before, h);
      ReasonStays(before, actions, h, 0, 0, true);
    } else {
      NewlyFailed(before, actions[n], h);
      assert before + [actions[n]] == actions;
    }
  }

  lemma NewlyFailed(before: seq<Action>, a: Action, h: nat)
    requires !HasFailed(Reach(before), h) && HasFailed(Step(Reach(before), a), h)
    ensures HasReason(before + [a], h, 0, true)
  {
    ReachableIsGood(before);
    FailingStep(Reach(before), a, h);
    ThisIsReason(before, a, before + [a], h, true);
    ReasonStays(before + [a], before + [a], h, |before|, 0, true);
  }

  /** An event that is in the books is never applied again: a handler that gets it and whose check does
      not fail answers AlreadyProcessed, in its first call and whatever happens before, and writes
      nothing. */
  lemma RedeliveryIsAcknowledged(actions: seq<Action>, between: seq<Action>, h: nat, e: PaymentEvent)
    requires e.id in Reach(actions).books.processed && Validate(e) == Passed && h !in Reach(actions).handlers
    requires forall i :: 0 <= i < |between| ==> between[i].h != h
    ensures var s := Reach(actions + [Deliver(h, e)] + between);
            var s' := Reach(actions + [Deliver(h, e)] + between + [Call(h, Succeeds)]);
            && h in s'.handlers && s'.handlers[h] == Handler(e, Done(AlreadyProcessed))
            && s'.books == s.books
  {
    var waiting := actions + [Deliver(h, e)] + between;
    StillToCheck(actions, between, h, e);
    RunSnoc(Step, Init(Validate), waiting, Call(h, Succeeds));
    CheckFindsProcessed(Reach(waiting), h, e);
  }

  lemma CheckFindsProcessed(s: State, h: nat, e: PaymentEvent)
    requires h in s.handlers && s.handlers[h] == Handler(e, CheckProcessed) && e.id in s.books.processed
    ensures Step(s, Call(h, Succeeds)) == s.(handlers := s.handlers[h := Handler(e, Done(AlreadyProcessed))])
  {
  }

  lemma StillToCheck(actions: seq<Action>, between: seq<Action>, h: nat, e: PaymentEvent)
    requires e.id in Reach(actions).books.processed && Validate(e) == Passed && h !in Reach(actions).handlers
    requires forall i :: 0 <= i < |between| ==> between[i].h != h
    ensures var s := Reach(actions + [Deliver(h, e)] + between);
            h in s.handlers && s.handlers[h] == Handler(e, CheckProcessed) && e.id in s.books.processed
  {
    var delivered := actions + [Deliver(h, e)];
    ReachableIsGood(actions);
    RunSnoc(Step, Init(Validate), actions, Deliver(h, e));
    RunConcat(Step, Init(Validate), delivered, between);
    OthersLeaveHandler(Reach(delivered), between, h);
    ProcessedForever(actions, [Deliver(h, e)], e.id);
    ProcessedForever(delivered, between, e.id);
  }

  lemma {:induction false} OthersLeaveHandler(s: State, actions: seq<Action>, h: nat)
    requires h in s.handlers && forall i :: 0 <= i < |actions| ==> actions[i].h != h
    ensures h in Run(Step, s, actions).handlers && Run(Step, s, actions).handlers[h] == s.handlers[h]
    decreases |actions|
  {
    if actions != [] {
      OthersLeaveHandler(s, actions[..|actions| - 1], h);
    }
  }

  // ---------- double entry ----------

  /** What the entries of one kind for one payment add up to. */
  function Side(journal: seq<JournalEntry>, kind: EntryType, paymentId: Symbol): int {
    if journal == [] then 0
    else
      var e := journal[|journal| - 1];
      Side(journal[..|journal| - 1], kind, paymentId)
      + (if e.entryType == kind && e.paymentId == paymentId then e.amount else 0)
  }

  /** What the entries of one kind for one merchant add up to. */
  function MerchantSide(journal: seq<JournalEntry>, kind: EntryType, merchantId: Symbol): int {
    if journal == [] then 0
    else
      var e := journal[|journal| - 1];
      MerchantSide(journal[..|journal| - 1], kind, merchantId)
      + (if e.entryType == kind && e.merchantId == merchantId then e.amount else 0)
  }

  /** The balance computed from a journal, whatever is in it, is the merchant's credits less its debits. */
  lemma {:induction false} JournalBalanceIsDifference(journal: seq<JournalEntry>, merchantId: Symbol)
    ensures JournalBalance(journal, merchantId)
            == MerchantSide(journal, Credit, merchantId) - MerchantSide(journal, Debit, merchantId)
  {
    if journal != [] {
      JournalBalanceIsDifference(journal[..|journal| - 1], merchantId);
    }
  }

  lemma {:induction false} EntriesBalance(applied: seq<PaymentEvent>, merchantId: Symbol, paymentId: Symbol)
    ensures JournalBalance(EntriesOf(applied), merchantId) == 0
    ensures Side(EntriesOf(applied), Debit, paymentId) == Side(EntriesOf(applied), Credit, paymentId)
  {
    if applied != [] {
      var rest, e := EntriesOf(applied[..|applied| - 1]), applied[|applied| - 1];
      EntriesBalance(applied[..|applied| - 1], merchantId, paymentId);
      var debit := rest + [EntryFor(Debit, e)];
      var both := debit + [EntryFor(Credit, e)];
      assert EntriesOf(applied) == both && both[..|both| - 1] == debit && debit[..|debit| - 1] == rest;
    }
  }

  /** Debits equal credits for every payment and every merchant, and nothing is ever available. */
  lemma DoubleEntry(actions: seq<Action>, merchantId: Symbol, paymentId: Symbol)
    ensures var b := Reach(actions).books;
            && Side(b.journal, Debit, paymentId) == Side(b.journal, Credit, paymentId)
            && JournalBalance(b.journal, merchantId) == 0
            && BalanceOf(b.balances, merchantId).available == 0
  {
    ReachableIsGood(actions);
    EntriesBalance(Reach(actions).books.applied, merchantId, paymentId);
  }

  /** VerifyBalance reads the stored balance in one state and the journal in a later one. Whatever
      commits in between, the two agree. */
  lemma VerifyBalanceAgrees(first: seq<Action>, between: seq<Action>, merchantId: Symbol)
    ensures BalanceOf(Reach(first).books.balances, merchantId).available
            == JournalBalance(Reach(first + between).books.journal, merchantId)
  {
    DoubleEntry(first, merchantId, 0);
    DoubleEntry(first + between, merchantId, 0);
  }
}
