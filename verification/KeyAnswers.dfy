/** Why a validation or a revocation is answered as it is: over every run each answer has its own reason, a
    call made in the state in which it was made. A live key is accepted. */
module KeyAnswers {
  import opened GoText
  import opened KeyCacheProtocol
  import opened KeyCacheTheorems
  import opened Runs

  // ---------- validations ----------

  predicate HasRow(s: State, hash: Symbol) {
    hash in s.byHash && s.byHash[hash] in s.keys
  }

  /** The call by which validation v ends with this result. */
  predicate Reason(s: State, a: Action, v: nat, r: Result) {
    && a.Call? && a.v == v && v in s.validations
    && var hash, pc, ok := s.validations[v].hash, s.validations[v].pc, a.outcome == Succeeds;
       match r
       // A cache entry that is not past its deadline, or the row read before.
       case Accepted(merchantId, scope) =>
         || (&& pc.ReadCache? && ok && hash in s.cache && s.now < s.cache[hash].deadline && s.cache[hash].merchantId != 0
             && merchantId == s.cache[hash].merchantId
             && scope == if s.cache[hash].scope == 0 then Intern("full") else s.cache[hash].scope)
         || (pc.SetCache? && merchantId == pc.key.merchantId && scope == pc.key.scope)
       // No row, an inactive one, or an expired one.
       case InvalidKey =>
         || (pc.LoadKey? && ok && (!HasRow(s, hash) || !s.keys[s.byHash[hash]].isActive))
         || (pc.CheckExpiry? && pc.key.expiresAt.At? && pc.key.expiresAt.t <= s.now)
       case RevokedKey => pc.CheckRevoked? && ok && hash in s.revoked
       case Errored => !ok && (pc.CheckRevoked? || pc.LoadKey?)
  }

  predicate HasAnswer(s: State, v: nat, r: Result) {
    v in s.validations && s.validations[v].pc == Done(r)
  }

  lemma AnsweringStep(s: State, a: Action, v: nat, r: Result)
    requires !HasAnswer(s, v, r) && HasAnswer(Step(s, a), v, r)
    ensures Reason(s, a, v, r)
  {
  }

  /** And whenever there is such a call, the validation does end with that result. */
  lemma ReasonAnswers(s: State, a: Action, v: nat, r: Result)
    requires Reason(s, a, v, r)
    ensures HasAnswer(Step(s, a), v, r)
  {
  }

  ghost predicate ReasonAt(normalize: Symbol -> Symbol, start: int, actions: seq<Action>, v: nat, r: Result, i: int) {
    0 <= i < |actions| && Reason(Reach(normalize, start, actions[..i]), actions[i], v, r)
  }

  /** Every answer has its reason in the run. */
  lemma {:induction false} AnswerHasReason(normalize: Symbol -> Symbol, start: int, actions: seq<Action>, v: nat, r: Result)
    returns (i: nat)
    requires HasAnswer(Reach(normalize, start, actions), v, r)
    ensures ReasonAt(normalize, start, actions, v, r, i)
    decreases |actions|
  {
    var n := |actions| - 1;
    var before := actions[..n];
    if HasAnswer(Reach(normalize, start, before), v, r) {
      i := AnswerHasReason(normalize, start, before, v, r);
      assert before[..i] == actions[..i];
    } else {
      i := n;
      AnsweringStep(Reach(normalize, start, before), actions[n], v, r);
    }
  }

  /** A row that is active and not expired now was so whenever it was there, and was never revoked. */
  lemma LiveNow(s: State, s': State, hash: Symbol)
    requires Inv(s) && Inv(s') && Grows(s, s') && HasRow(s, hash) && HasRow(s', hash) && s'.keys[s'.byHash[hash]].isActive
    ensures s.keys[s.byHash[hash]].isActive && hash !in s.revoked
    ensures s.keys[s.byHash[hash]].expiresAt == s'.keys[s'.byHash[hash]].expiresAt
  {
    assert hash in s.revoked ==> RevokedRow(s, hash);
    OriginFields(s.keys[s.byHash[hash]], s'.keys[s'.byHash[hash]]);
  }

  /** A reason to turn a key down is not there for a live one. */
  lemma LiveIsNotRejected(s: State, s': State, a: Action, v: nat, r: Result, hash: Symbol)
    requires Inv(s) && Inv(s') && Grows(s, s') && v in s.validations && s.validations[v].hash == hash && HasRow(s, hash)
    requires HasRow(s', hash) && s'.keys[s'.byHash[hash]].isActive && !s'.keys[s'.byHash[hash]].expiresAt.Passed(s'.now)
    requires Reason(s, a, v, r) && a.outcome == Succeeds
    ensures r.Accepted?
  {
    LiveNow(s, s', hash);
    assert ValidationOk(s, s.validations[v]);
    if s.validations[v].pc.CheckExpiry? {
      OriginFields(s.keys[s.byHash[hash]], s.validations[v].pc.key);
    }
  }

  ghost predicate Live(s: State, hash: Symbol) {
    HasRow(s, hash) && s.keys[s.byHash[hash]].isActive && !s.keys[s.byHash[hash]].expiresAt.Passed(s.now)
  }

  /** The validation is of this hash and has not turned it down. */
  predicate NotRejected(s: State, v: nat, hash: Symbol) {
    && v in s.validations && s.validations[v].hash == hash
    && (s.validations[v].pc.Done? ==> s.validations[v].pc.result.Accepted?)
  }

  /** A validation keeps its hash, and only its own calls end it. */
  lemma KeepsValidation(s: State, a: Action, v: nat)
    requires v in s.validations
    ensures v in Step(s, a).validations && Step(s, a).validations[v].hash == s.validations[v].hash
    ensures !(a.Call? && a.v == v) ==> Step(s, a).validations[v] == s.validations[v]
  {
  }

  lemma StepDoesNotReject(s: State, s': State, a: Action, v: nat, hash: Symbol)
    requires Inv(s) && Inv(s') && Grows(s, s') && HasRow(s, hash) && Live(s', hash) && NotRejected(s, v, hash)
    requires a.Call? && a.v == v ==> a.outcome == Succeeds
    ensures NotRejected(Step(s, a), v, hash)
  {
    KeepsValidation(s, a, v);
    var pc := Step(s, a).validations[v].pc;
    if pc.Done? && pc != s.validations[v].pc {
      AnsweringStep(s, a, v, pc.result);
      LiveIsNotRejected(s, s', a, v, pc.result, hash);
    }
  }

  lemma {:induction false} StaysNotRejected(s: State, after: seq<Action>, s': State, v: nat, hash: Symbol)
    requires Inv(s) && Inv(s') && Grows(Run(Step, s, after), s') && HasRow(s, hash) && Live(s', hash) && NotRejected(s, v, hash)
    requires forall i :: 0 <= i < |after| && after[i].Call? && after[i].v == v ==> after[i].outcome == Succeeds
    ensures NotRejected(Run(Step, s, after), v, hash)
    decreases |after|
  {
    if after != [] {
      var n := |after| - 1;
      var mid := Run(Step, s, after[..n]);
      RunsAreGood(s, after[..n]);
      StepKeepsInvariant(mid, after[n]);
      GrowsTransitive(mid, Run(Step, s, after), s');
      StaysNotRejected(s, after[..n], s', v, hash);
      StepDoesNotReject(mid, s', after[n], v, hash);
    }
  }

  /** A validation that began when its key was there, and whose calls do not fail, accepts the key under
      its own merchant and scope, if the key is active and not expired when the validation has ended. */
  lemma LiveKeyIsAccepted(normalize: Symbol -> Symbol, start: int, before: seq<Action>, after: seq<Action>, v: nat)
    requires var s := Reach(normalize, start, before);
             v in s.validations && !s.validations[v].pc.Done? && HasRow(s, s.validations[v].hash)
    requires forall i :: 0 <= i < |after| && after[i].Call? && after[i].v == v ==> after[i].outcome == Succeeds
    requires Live(Reach(normalize, start, before + after), Reach(normalize, start, before).validations[v].hash)
    ensures var hash, s' := Reach(normalize, start, before).validations[v].hash, Reach(normalize, start, before + after);
            && v in s'.validations && s'.validations[v].hash == hash
            && (s'.validations[v].pc.Done? ==> s'.validations[v].pc.result.Accepted? && Names(s', hash, s'.validations[v].pc.result))
  {
    var s, s' := Reach(normalize, start, before), Reach(normalize, start, before + after);
    Later(normalize, start, before, before + after);
    RunConcat(Step, Init(normalize, start), before, after);
    StaysNotRejected(s, after, s', v, s.validations[v].hash);
    assert ValidationOk(s', s'.validations[v]);
  }

  // ---------- revocations ----------

  predicate IsOver(s: State, r: nat, found: bool, ok: bool) {
    r in s.revocations && s.revocations[r].pc == Over(found, ok)
  }

  /** The call by which revocation r ends like this. */
  predicate RevocationReason(s: State, a: Action, r: nat, found: bool, ok: bool) {
    && a.RevokeCall? && a.r == r && r in s.revocations
    && var id, pc := s.revocations[r].id, s.revocations[r].pc;
       if ok then found && pc.Delete?
       else if found then
         || (a.outcome != Succeeds && (pc.Find? || pc.Commit?))
         || (pc.Commit? && pc.hash in s.revoked)
       else pc.Find? && a.outcome == Succeeds && id !in s.keys
  }

  lemma RevokingStep(s: State, a: Action, r: nat, found: bool, ok: bool)
    requires !IsOver(s, r, found, ok) && IsOver(Step(s, a), r, found, ok)
    ensures RevocationReason(s, a, r, found, ok)
  {
  }

  lemma ReasonEndsRevocation(s: State, a: Action, r: nat, found: bool, ok: bool)
    requires RevocationReason(s, a, r, found, ok)
    ensures IsOver(Step(s, a), r, found, ok)
  {
  }

  ghost predicate RevocationReasonAt(
    normalize: Symbol -> Symbol, start: int, actions: seq<Action>, r: nat, found: bool, ok: bool, i: int)
  {
    0 <= i < |actions| && RevocationReason(Reach(normalize, start, actions[..i]), actions[i], r, found, ok)
  }

  /** A revocation that is told "not found" found no such key; one that failed had a call fail, or its
      hash was on the list already. */
  lemma {:induction false} RevocationHasReason(
    normalize: Symbol -> Symbol, start: int, actions: seq<Action>, r: nat, found: bool, ok: bool) returns (i: nat)
    requires IsOver(Reach(normalize, start, actions), r, found, ok)
    ensures RevocationReasonAt(normalize, start, actions, r, found, ok, i)
    decreases |actions|
  {
    var n := |actions| - 1;
    var before := actions[..n];
    if IsOver(Reach(normalize, start, before), r, found, ok) {
      i := RevocationHasReason(normalize, start, before, r, found, ok);
      assert before[..i] == actions[..i];
    } else {
      i := n;
      RevokingStep(Reach(normalize, start, before), actions[n], r, found, ok);
    }
  }
}
