/** The loop that fetches messages, hands them to the ledger service and commits offsets. */
module LedgerConsumer {
  import opened GoText
  import opened LedgerProtocol
  import opened LedgerService
  import opened ConsumerOffsets
  import LT = LedgerTheorems

  /** How a round of the loop goes: whether a message arrives, under which number it is handled, and
      whether the broker takes the commit. */
  datatype Fetch = Fetch(arrives: bool, handler: nat, commits: bool)

  class KafkaConsumer {
    const svc: LedgerService
    // The partition, the next offset to fetch, and the offset the broker would resume from.
    const log: seq<Message>
    var position: nat
    var committed: nat

    constructor (svc: LedgerService, log: seq<Message>, start: nat)
      requires start <= |log|
      ensures this.svc == svc && this.log == log && position == committed == start
    {
      this.svc, this.log, position, committed := svc, log, start, start;
    }

    ghost predicate Valid()
      reads this, svc
    {
      svc.Valid() && committed <= position <= |log|
    }

    /** handleMessage. It fails only for a message the ledger should have applied, and when it does
        not fail for such a message, the event is in the books. It fails only if a call of its handler
        failed or was refused, and for an event that was in the books before only if the check itself
        failed. Unreadable messages alone count as not processed without being failures. */
    method HandleMessage(h: nat, m: Message) returns (processed: bool, failed: bool)
      requires svc.Valid() && h !in svc.handlers
      modifies svc
      ensures svc.Valid() && old(svc.trace) <= svc.trace
      ensures Dealt(m, failed, h, old(svc.World()), svc.World())
      ensures failed ==> Relevant(m) && svc.FailedFor(h, |old(svc.trace)|)
      ensures failed && m.body.event.id in old(svc.processed) ==> svc.CallFailed(h, |old(svc.trace)|)
      ensures processed <==> !failed && !(m.signed && m.body.Malformed?)
      ensures !failed && Relevant(m) ==> m.body.event.id in svc.processed
    {
      if !m.signed {
        return true, false;
      }
      match m.body {
        case Malformed => return false, false;
        case Decoded(event) =>
          if Chars(event.eventType) != "payment.succeeded" {
            return true, false;
          }
          var r := svc.HandlePaymentSucceeded(h, event);
          return r != Failed, r == Failed;
      }
    }

    /** What has become of the messages from `start` up to n. */
    ghost predicate Covered(start: nat, n: nat, failures: set<nat>)
      requires n <= |log|
      reads svc
    {
      forall i :: start <= i < n && Relevant(log[i]) && i !in failures ==> log[i].body.event.id in svc.processed
    }

    lemma StillCovered(start: nat, n: nat, failures: set<nat>, before: seq<Action>)
      requires n <= |log| && svc.Valid() && before <= svc.trace
      requires forall i :: start <= i < n && Relevant(log[i]) && i !in failures ==>
                 log[i].body.event.id in Reach(before).books.processed
      ensures Covered(start, n, failures)
    {
      assert before + svc.trace[|before|..] == svc.trace;
      forall i | start <= i < n && Relevant(log[i]) && i !in failures
        ensures log[i].body.event.id in svc.processed
      {
        LT.ProcessedForever(before, svc.trace[|before|..], log[i].body.event.id);
      }
    }

    lemma OneMoreCovered(start: nat, n: nat, earlier: set<nat>, failed: set<nat>)
      requires n < |log| && Covered(start, n, earlier)
      requires Relevant(log[n]) && n !in failed ==> log[n].body.event.id in svc.processed
      ensures Covered(start, n + 1, earlier + failed)
    {
      forall i | start <= i < n + 1 && Relevant(log[i]) && i !in earlier + failed
        ensures log[i].body.event.id in svc.processed
      {
      }
    }

    /** One round of the loop: fetch a message, hand it over, and commit its offset unless that failed. */
    method FetchAndHandle(answer: Fetch, ghost start: nat, ghost earlier: set<nat>, ghost rounds: seq<Round>, ghost marks: seq<Mark>)
      returns (failed: set<nat>, ghost round: Round)
      requires Valid() && start <= position && Covered(start, position, earlier)
      requires Real(log, start, rounds, marks, svc.trace) && OffsetOf(start, rounds, |rounds|) == position
      modifies this, svc
      ensures Valid() && old(svc.trace) <= svc.trace
      ensures Covered(start, position, earlier + failed)
      ensures Real(log, start, rounds + [round], marks + [Mark(answer.handler, |old(svc.trace)|)], svc.trace)
      ensures Bookkeeping(position, committed, earlier + failed)
              == After(Bookkeeping(old(position), old(committed), earlier), round)
      ensures round == FetchFailed <==> !answer.arrives || old(position) == |log| || answer.handler in old(svc.handlers)
      ensures round.Handled? ==> round.commits == answer.commits
      ensures forall i :: i in failed ==> i == old(position) < position && Relevant(log[i])
    {
      failed, round := {}, FetchFailed;
      assert earlier + {} == earlier;
      ghost var before := svc.trace;
      if !answer.arrives || position == |log| || answer.handler in svc.handlers {
        RealSnoc(log, start, rounds, marks, before, round, answer.handler, before);
        return;
      }
      var _, failing := HandleMessage(answer.handler, log[position]);
      StillCovered(start, position, earlier, before);
      if failing {
        failed := {position};
      }
      OneMoreCovered(start, position, earlier, failed);
      round := Handled(failing, answer.commits);
      RealSnoc(log, start, rounds, marks, before, round, answer.handler, svc.trace);
      position := position + 1;
      if !failing && answer.commits {
        committed := position;
      }
    }

    /** The first rounds of consume. Every message fetched so far that the ledger should apply is in
        the books, unless its own handling failed. What is committed is what the bookkeeping of the
        rounds says, and the rounds are those of the ledger's run, so CommitCoversMissingIff tells when
        a committed offset means that everything before it is in the books. */
    method Consume(answers: seq<Fetch>) returns (failures: set<nat>, ghost rounds: seq<Round>, ghost marks: seq<Mark>)
      requires Valid()
      modifies this, svc
      ensures Valid() && old(svc.trace) <= svc.trace && old(position) <= position
      ensures |rounds| == |answers| && forall i :: 0 <= i < |rounds| && rounds[i].Handled? ==> rounds[i].commits == answers[i].commits
      ensures Covered(old(position), position, failures)
      ensures Real(log, old(position), rounds, marks, svc.trace)
      ensures Bookkeeping(position, committed, failures) == Offsets(old(position), old(committed), rounds)
      ensures forall i :: i in failures ==> old(position) <= i < position && Relevant(log[i])
      ensures (exists o :: old(position) <= o < committed && Missing(log, svc.trace, o))
              <==> exists i, j :: 0 <= i < j < |rounds| && Dropped(log, old(position), rounds, svc.trace, i) && Commits(rounds[j])
    {
      failures, rounds, marks := {}, [], [];
      ghost var start, startCommitted := position, committed;
      var i := 0;
      while i < |answers|
        invariant Valid() && old(svc.trace) <= svc.trace && start <= position && i == |rounds| <= |answers|
        invariant forall k :: 0 <= k < |rounds| && rounds[k].Handled? ==> rounds[k].commits == answers[k].commits
        invariant Covered(start, position, failures) && Real(log, start, rounds, marks, svc.trace)
        invariant Bookkeeping(position, committed, failures) == Offsets(start, startCommitted, rounds)
        invariant forall i :: i in failures ==> start <= i < position && Relevant(log[i])
      {
        ghost var round, mark := FetchFailed, Mark(answers[i].handler, |svc.trace|);
        var failed;
        PositionOnly(start, startCommitted, rounds);
        failed, round := FetchAndHandle(answers[i], start, failures, rounds, marks);
        failures := failures + failed;
        assert (rounds + [round])[..|rounds|] == rounds;
        rounds, marks := rounds + [round], marks + [mark];
        i := i + 1;
      }
      CommitCoversMissingIff(log, start, startCommitted, rounds, marks, svc.trace);
    }
  }
}
