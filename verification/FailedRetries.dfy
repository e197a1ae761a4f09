/** What a failed retry leaves of the row it retried, when retries of that row do not overlap. */
module FailedRetries {
  import opened Storage
  import opened Auth
  import opened Engine
  import opened Delivery
  import opened Quota
  import opened DeadLetters
  import opened EnqueuedRows

  /** The retry has requeued the row and not yet resolved it or given up. */
  predicate AtWork(r: Retry, id: int) {
    r.dlqID == id && (r.stage.Requeued? || r.stage.HasMerchant? || r.stage.Launched? || r.stage.Running?)
  }

  ghost predicate RowRequeued(s: State, id: int) {
    forall d :: d in s.db.dlq && d.id == id ==> d.status == DLQRequeued
  }

  /** While retry `i` is at work on the row, the row is REQUEUED. */
  ghost predicate RequeuedWhileAtWork(s: State, i: nat, id: int) {
    i < |s.retries| && AtWork(s.retries[i], id) ==> RowRequeued(s, id)
  }

  /** While retry `i` is active on the row, no other retry is. */
  ghost predicate Undisturbed(s: State, i: nat, id: int) {
    i < |s.retries| && ActiveOn(id)(s.retries[i]) ==>
      forall j :: 0 <= j < |s.retries| && j != i ==> !ActiveOn(id)(s.retries[j])
  }

  /** A retry writes to the row it was called for and to no other; giving up, it writes nothing. */
  lemma OwnRowOnly(s: State, i: nat, now: int, fault: bool)
    requires i < |s.retries|
    ensures var s', st := RetryStep(s, i, now, fault), s.retries[i].stage;
            && |s'.retries| == |s.retries| && s'.retries == s.retries[i := s'.retries[i]]
            && s'.retries[i].dlqID == s.retries[i].dlqID
            && |s'.db.dlq| == |s.db.dlq|
            && (forall k :: 0 <= k < |s.db.dlq| && s'.db.dlq[k] != s.db.dlq[k] ==>
                  (st.HasRow? || st.Running?) && s'.db.dlq[k].id == s.db.dlq[k].id == st.d.id)
            && (st.HasRow? && s'.retries[i].stage.Requeued? ==>
                  forall k :: 0 <= k < |s.db.dlq| && s'.db.dlq[k].id == st.d.id ==> s'.db.dlq[k].status == DLQRequeued)
            && (!st.HasRow? && !s'.retries[i].stage.Resolving? ==> s'.db.dlq == s.db.dlq)
            && (s'.retries[i].stage.Rejected? || (st.Running? && !s'.retries[i].stage.Resolving?) ==>
                  s'.db.dlq == s.db.dlq)
  {
  }

  /** Retry `i` itself moves. */
  lemma OwnStep(env: Env, s: State, i: nat, now: int, fault: bool, id: int)
    requires DInv(env, s) && i < |s.retries| && s.retries[i].dlqID == id && RequeuedWhileAtWork(s, i, id)
    ensures RequeuedWhileAtWork(RetryStep(s, i, now, fault), i, id)
  {
    var s' := RetryStep(s, i, now, fault);
    assert RetryOk(s.db, s.notifiers, s.retries[i], i, s.clock);
    OwnRowOnly(s, i, now, fault);
    assert AtWork(s'.retries[i], id) ==> s.retries[i].stage.HasRow? || AtWork(s.retries[i], id);
  }

  /** Retry `j` moves while retry `i` is at work, and so is not active on the row. */
  lemma OtherStep(env: Env, s: State, i: nat, j: nat, now: int, fault: bool, id: int)
    requires DInv(env, s) && i < |s.retries| && j < |s.retries| && i != j
    requires AtWork(s.retries[i], id) && Undisturbed(s, i, id) && RowRequeued(s, id)
    ensures RowRequeued(RetryStep(s, j, now, fault), id)
  {
    var s' := RetryStep(s, j, now, fault);
    assert RetryOk(s.db, s.notifiers, s.retries[j], j, s.clock);
    OwnRowOnly(s, j, now, fault);
    assert !ActiveOn(id)(s.retries[j]);
    forall d | d in s'.db.dlq && d.id == id
      ensures d.status == DLQRequeued
    {
      var k :| 0 <= k < |s'.db.dlq| && s'.db.dlq[k] == d;
      assert s.db.dlq[k] in s.db.dlq;
    }
  }

  lemma RetryStaysRequeued(env: Env, s: State, i: nat, j: nat, now: int, fault: bool, id: int)
    requires DInv(env, s) && Undisturbed(s, i, id) && RequeuedWhileAtWork(s, i, id) && j < |s.retries|
    ensures RequeuedWhileAtWork(RetryStep(s, j, now, fault), i, id)
  {
    RetryMoves(s, j, now, fault, id);
    if i < |s.retries| && j != i {
      if AtWork(s.retries[i], id) {
        OtherStep(env, s, i, j, now, fault, id);
      }
    } else if i < |s.retries| && s.retries[i].dlqID == id {
      OwnStep(env, s, i, now, fault, id);
    }
  }

  /** Rows appended later have ids of their own. */
  lemma OldRows(env: Env, s: State, a: Action, id: int)
    requires DInv(env, s) && id < s.db.nextDLQ && !a.Redeliver?
    ensures forall d :: d in Step(env, s, a).db.dlq && d.id == id ==> d in s.db.dlq
  {
  }

  lemma OthersStayRequeued(env: Env, s: State, a: Action, i: nat, id: int)
    requires DInv(env, s) && RequeuedWhileAtWork(s, i, id) && !a.Redeliver?
    ensures RequeuedWhileAtWork(Step(env, s, a), i, id)
  {
    if i < |s.retries| && AtWork(s.retries[i], id) {
      assert RetryOk(s.db, s.notifiers, s.retries[i], i, s.clock);
      OldRows(env, s, a, id);
    }
  }

  lemma StepStaysRequeued(env: Env, s: State, a: Action, i: nat, id: int)
    requires DInv(env, s) && Undisturbed(s, i, id) && RequeuedWhileAtWork(s, i, id)
    ensures RequeuedWhileAtWork(Step(env, s, a), i, id)
  {
    if a.Redeliver? && a.r < |s.retries| {
      RetryStaysRequeued(env, s, i, a.r, a.now, a.fault, id);
      assert Step(env, s, a) == RetryStep(s, a.r, a.now, a.fault).(clock := s.clock + 1);
    } else if a.Redeliver? {
      assert Step(env, s, a) == s.(clock := s.clock + 1);
    } else {
      OthersStayRequeued(env, s, a, i, id);
    }
  }

  lemma {:induction false} RunStaysRequeued(
    env: Env, db: Tables, acts: seq<Action>, i: nat, id: int, xs: seq<State>)
    requires db.Sound() && xs == States(env, Boot(db), acts)
    requires forall k :: 0 <= k < |xs| ==> Undisturbed(xs[k], i, id)
    ensures RequeuedWhileAtWork(xs[|acts|], i, id)
  {
    if acts != [] {
      var before := acts[..|acts| - 1];
      var xs0 := States(env, Boot(db), before);
      assert xs == xs0 + [Run(env, Boot(db), acts)];
      forall k | 0 <= k < |xs0|
        ensures Undisturbed(xs0[k], i, id)
      {
        assert Undisturbed(xs[k], i, id);
      }
      RunStaysRequeued(env, db, before, i, id, xs0);
      RunKeepsDelivery(env, Boot(db), before);
      StepStaysRequeued(env, xs0[|before|], acts[|acts| - 1], i, id);
    }
  }

  /** `n` is the one notifier of retry `i`, and its payment is `row`'s. */
  ghost predicate NotifierOf(s: State, i: nat, n: nat, row: DeliveryDLQ) {
    && n < |s.notifiers| && s.notifiers[n].tx.id == row.transactionID
    && s.notifiers[n].merchant.id == row.merchantID
    && forall j :: 0 <= j < |s.notifiers| ==> (s.notifiers[j].origin == FromRetry(i) <==> j == n)
  }

  /**
   `n` added exactly one row: appended, FAILED, by its own step after state `k`, for the payment and owner of
   the retried `row`; still the only row of its id; and no other notifier's.
   */
  ghost predicate AddedOneRow(env: Env, xs: seq<State>, k: nat, ns: seq<Notifier>, n: nat, row: DeliveryDLQ)
    requires n < |ns| && ns[n].handed != [] && ns[n].queued.Some?
  {
    var d := QueuedRow(ns[n]);
    && TracedTo(env, xs, k, n, ns[n])
    && d.status == DLQFailed && d.resolvedAt.None? && d.attemptCount == MAX_ATTEMPTS
    && d.transactionID == row.transactionID && d.merchantID == row.merchantID && d.id != row.id
    && forall j :: 0 <= j < |ns| && j != n ==> ns[j].queued != ns[n].queued
  }

  /**
   A failed retry, at the step in which it gives up. If no other retry was active on the row while it
   was, its row is REQUEUED in the table. It started exactly one notifier, and that notifier, where it had
   a webhook to call and EnqueueDLQ met no error, added exactly one row, FAILED.
   */
  lemma FailedRetryLeavesRequeued(
    env: Env, db: Tables, acts: seq<Action>, i: nat, now: int, fault: bool, xs: seq<State>)
    returns (row: DeliveryDLQ, n: nat, k: nat)
    requires db.Sound() && xs == States(env, Boot(db), acts) && i < |xs[|acts|].retries|
    requires forall k :: 0 <= k < |xs| ==> Undisturbed(xs[k], i, xs[|acts|].retries[i].dlqID)
    requires xs[|acts|].retries[i].stage.Running?
    requires RetryStep(xs[|acts|], i, now, fault).retries[i].stage.Finished?
    ensures var s, s' := xs[|acts|], RetryStep(xs[|acts|], i, now, fault);
            && s'.db.dlq == s.db.dlq && s'.notifiers == s.notifiers
            && row in s.db.dlq && row.id == s.retries[i].dlqID && row.merchantID == s.retries[i].merchantID
            && row.status == DLQRequeued && row.resolvedAt.None?
            && NotifierOf(s, i, n, row) && s.notifiers[n].stage == Ended(false)
            && (s.notifiers[n].queued.Some? <==>
                  s.notifiers[n].merchant.webhookURL != "" && !s.notifiers[n].enqueueFault)
            && (s.notifiers[n].queued.Some? ==>
                  s.notifiers[n].handed != [] && AddedOneRow(env, xs, k, s.notifiers, n, row))
  {
    var s := xs[|acts|];
    RunStaysRequeued(env, db, acts, i, s.retries[i].dlqID, xs);
    RunKeepsDelivery(env, Boot(db), acts);
    RunLaunchesOnce(env, db, acts);
    row := GaveUpOn(env, s, i, now, fault);
    n := s.retries[i].stage.notifier;
    RunTraced(env, db, acts, xs);
    RunAddsLater(env, db, acts);
    assert s.notifiers[n] in s.notifiers && AddedLater(s, s.notifiers[n]);
    k := Addition(env, xs, i, n, row);
  }

  lemma GaveUpOn(env: Env, s: State, i: nat, now: int, fault: bool) returns (row: DeliveryDLQ)
    requires DInv(env, s) && LaunchedOnce(s) && i < |s.retries|
    requires RequeuedWhileAtWork(s, i, s.retries[i].dlqID)
    requires s.retries[i].stage.Running? && RetryStep(s, i, now, fault).retries[i].stage.Finished?
    ensures var s', n := RetryStep(s, i, now, fault), s.retries[i].stage.notifier;
            && s'.db.dlq == s.db.dlq && s'.notifiers == s.notifiers
            && row in s.db.dlq && row.id == s.retries[i].dlqID && row.merchantID == s.retries[i].merchantID
            && row.status == DLQRequeued && row.resolvedAt.None?
            && NotifierOf(s, i, n, row) && s.notifiers[n].stage == Ended(false)
  {
    var r := s.retries[i];
    assert r in s.retries && AtWork(r, r.dlqID);
    assert RetryOk(s.db, s.notifiers, r, i, s.clock);
    row :| row in s.db.dlq && row.SameEntry(r.stage.d);
    var n := s.notifiers[r.stage.notifier];
    assert n in s.notifiers && NotifierOk(s.db, n, s.clock);
  }

  lemma Addition(env: Env, xs: seq<State>, i: nat, n: nat, row: DeliveryDLQ) returns (k: nat)
    requires AllTraced(env, xs) && DInv(env, xs[|xs| - 1]) && row in xs[|xs| - 1].db.dlq
    requires n < |xs[|xs| - 1].notifiers| && NotifierOf(xs[|xs| - 1], i, n, row)
    requires var m := xs[|xs| - 1].notifiers[n]; m.queued.Some? ==> row.id < m.queued.value
    requires xs[|xs| - 1].notifiers[n].stage == Ended(false)
    ensures var ns := xs[|xs| - 1].notifiers;
            && (ns[n].queued.Some? <==> ns[n].merchant.webhookURL != "" && !ns[n].enqueueFault)
            && (ns[n].queued.Some? ==> ns[n].handed != [] && AddedOneRow(env, xs, k, ns, n, row))
  {
    var s := xs[|xs| - 1];
    var m := s.notifiers[n];
    assert m in s.notifiers && NotifierOk(s.db, m, s.clock) && Traced(env, xs, n, m);
    k := 0;
    if m.queued.Some? {
      k :| TracedTo(env, xs, k, n, m);
    }
  }
}
