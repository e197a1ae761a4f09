/** What holds of the dead-letter queue over whole runs. */
module DeadLetters {
  import opened Prelude
  import opened Storage
  import opened Auth
  import opened Engine
  import opened Delivery
  import opened Quota

  /**
   Ownership and lifecycle, in every interleaving: each dead-letter row belongs to the merchant of a
   successful payment; RESOLVED and resolved_at go together; between any two points of a run no row is
   deleted, re-owned or otherwise rewritten, and none enters PENDING.
   */
  lemma DLQOwnershipAndLifecycle(env: Env, db: Tables, acts: seq<Action>, later: seq<Action>)
    requires db.Sound()
    ensures var s := Run(env, Boot(db), acts);
            && (forall d :: d in s.db.dlq ==> s.db.Owned(d) && (d.status == DLQResolved <==> d.resolvedAt.Some?))
            && DLQGrows(s.db, Run(env, s, later).db)
  {
    RunKeepsDelivery(env, Boot(db), acts);
    RunKeepsDelivery(env, Run(env, Boot(db), acts), later);
  }

  /** Every notifier run that has returned has the promised trace, whatever ran beside it. */
  lemma EveryNotifierTrace(env: Env, db: Tables, acts: seq<Action>, n: Notifier)
    requires db.Sound() && n in Run(env, Boot(db), acts).notifiers && n.stage.Ended?
    ensures Completed(n.merchant, n.tx, n.handed, n.responses, MAX_ATTEMPTS, n.stage.ok)
  {
    RunKeepsDelivery(env, Boot(db), acts);
  }

  /** No delivery record is ever stored: each names merchant 0, which the foreign key refuses. */
  lemma DeliveryLogsNeverStored(env: Env, db: Tables, acts: seq<Action>)
    requires db.Sound()
    ensures Run(env, Boot(db), acts).db.logs == db.logs
  {
    RunKeepsDelivery(env, Boot(db), acts);
  }

  // ---------------------------------------------------------------- conservation

  function RowFor(tx: int): DeliveryDLQ -> bool {
    (d: DeliveryDLQ) => d.transactionID == tx
  }

  /** A retry of `tx` used up every attempt, and its EnqueueDLQ met no database error. */
  function GaveUp(tx: int): Notifier -> bool {
    (n: Notifier) => n.origin.FromRetry? && n.tx.id == tx && n.stage == Ended(false)
                     && |n.responses| == MAX_ATTEMPTS && !n.enqueueFault
  }

  function Undelivered(s: State, tx: int): int {
    Count(s.db.dlq, RowFor(tx)) - Count(s.notifiers, GaveUp(tx))
  }

  lemma NotifierConserves(db: Tables, n: Notifier, ctr: Counters, clock: nat, r: Response, fault: bool, tx: int)
    requires db.Sound() && NotifierOk(db, n, clock)
    ensures var (db', n', _) := NotifierStep(db, n, ctr, clock, r, fault);
            Count(db'.dlq, RowFor(tx)) - Bit(GaveUp(tx)(n')) == Count(db.dlq, RowFor(tx)) - Bit(GaveUp(tx)(n))
  {
  }

  lemma StatusUpdateConserves(rows: seq<DeliveryDLQ>, id: int, status: DLQStatus, at: Option<int>, tx: int)
    ensures Count(UpdateDLQ(rows, id, status, at), RowFor(tx)) == Count(rows, RowFor(tx))
  {
    CountPointwise(UpdateDLQ(rows, id, status, at), RowFor(tx), rows, RowFor(tx));
  }

  lemma RetryConserves(s: State, i: nat, now: int, fault: bool, tx: int)
    requires i < |s.retries|
    ensures Undelivered(RetryStep(s, i, now, fault), tx) == Undelivered(s, tx)
  {
    match s.retries[i].stage {
      case HasRow(d) => StatusUpdateConserves(s.db.dlq, d.id, DLQRequeued, None, tx);
      case Running(d, m, n) => StatusUpdateConserves(s.db.dlq, d.id, DLQResolved, Some(now), tx);
      case Launched(d, m, t) => CountAppend(s.notifiers, StartNotifier(FromRetry(i), m, t, s.clock), GaveUp(tx));
      case _ =>
    }
  }

  lemma HandleConserves(env: Env, s: State, i: nat, now: int, fault: bool, tx: int)
    requires i < |s.handlers| && (s.handlers[i].stage.Admitted? ==> s.handlers[i].merchant.Some?)
    ensures Undelivered(HandleStep(env, s, i, now, fault), tx) == Undelivered(s, tx)
  {
    var h := s.handlers[i];
    HandlerLeavesDLQ(env, s.db, h, now, fault);
    if h.stage.Counted? && h.merchant.Some? {
      CountAppend(s.notifiers, StartNotifier(FromWebhookHandler(i), h.merchant.value, h.stage.tx, s.clock), GaveUp(tx));
    }
  }

  lemma DeliverConserves(s: State, i: nat, r: Response, fault: bool, tx: int)
    requires s.db.Sound() && i < |s.notifiers| && NotifierOk(s.db, s.notifiers[i], s.clock)
    ensures Undelivered(DeliverStep(s, i, r, fault), tx) == Undelivered(s, tx)
  {
    NotifierConserves(s.db, s.notifiers[i], s.ctr, s.clock, r, fault, tx);
    CountUpdate(s.notifiers, i, NotifierStep(s.db, s.notifiers[i], s.ctr, s.clock, r, fault).1, GaveUp(tx));
  }

  lemma StepConserves(env: Env, s: State, a: Action, tx: int)
    requires DInv(env, s)
    ensures Undelivered(Step(env, s, a), tx) == Undelivered(s, tx)
  {
    match a {
      case Handle(i, now, fault) =>
        if i < |s.handlers| {
          assert s.handlers[i] in s.handlers;
          HandleConserves(env, s, i, now, fault, tx);
        }
      case Deliver(i, r, fault) =>
        if i < |s.notifiers| {
          assert s.notifiers[i] in s.notifiers;
          DeliverConserves(s, i, r, fault, tx);
        }
      case Redeliver(i, now, fault) =>
        if i < |s.retries| {
          RetryConserves(s, i, now, fault, tx);
        }
      case _ =>
    }
  }

  lemma {:induction false} RunConserves(env: Env, s: State, acts: seq<Action>, tx: int)
    requires DInv(env, s)
    ensures Undelivered(Run(env, s, acts), tx) == Undelivered(s, tx)
  {
    if acts != [] {
      var before := acts[..|acts| - 1];
      RunConserves(env, s, before, tx);
      RunKeepsDelivery(env, s, before);
      StepConserves(env, Run(env, s, before), acts[|acts| - 1], tx);
    }
  }

  /**
   Dead-letter conservation: the rows added for a transaction are its *retries* that used up every
   attempt and met no database error. A notifier started by a webhook never adds one.
   */
  lemma DLQConservation(env: Env, db: Tables, acts: seq<Action>, tx: int)
    requires db.Sound()
    ensures var s := Run(env, Boot(db), acts);
            Count(s.db.dlq, RowFor(tx)) == Count(db.dlq, RowFor(tx)) + Count(s.notifiers, GaveUp(tx))
  {
    RunConserves(env, Boot(db), acts, tx);
  }

  ghost predicate NothingQueued(s: State) {
    && s.db.dlq == []
    && (forall n :: n in s.notifiers ==> n.origin.FromWebhookHandler?)
    && (forall r :: r in s.retries ==> r.stage.Called? || r.stage.Rejected?)
  }

  lemma DeliverQueuesNothing(env: Env, s: State, i: nat, r: Response, fault: bool)
    requires DInv(env, s) && NothingQueued(s) && i < |s.notifiers|
    ensures NothingQueued(DeliverStep(s, i, r, fault))
  {
    var n := s.notifiers[i];
    assert n in s.notifiers && NotifierOk(s.db, n, s.clock);
    if n.stage.Enqueueing? {
      EnqueueKeeps(s.db, n, n.stage.log, fault);
    } else {
      LogRefused(s.db, n, fault);
      assert DeliverStep(s, i, r, fault).db == s.db;
    }
  }

  lemma StepQueuesNothing(env: Env, s: State, a: Action)
    requires DInv(env, s) && NothingQueued(s)
    ensures NothingQueued(Step(env, s, a))
  {
    if a.Handle? && a.h < |s.handlers| {
      assert s.handlers[a.h] in s.handlers;
      HandlerLeavesDLQ(env, s.db, s.handlers[a.h], a.now, a.fault);
    } else if a.Deliver? && a.n < |s.notifiers| {
      DeliverQueuesNothing(env, s, a.n, a.response, a.fault);
    } else if a.Redeliver? && a.r < |s.retries| {
      assert s.retries[a.r] in s.retries;
    }
  }

  /**
   A dead-letter queue that starts empty stays empty, although deliveries fail for good: the promise that
   a delivery out of attempts is queued fails for every delivery a webhook starts.
   */
  lemma {:induction false} EmptyQueueStaysEmpty(env: Env, db: Tables, acts: seq<Action>)
    requires db.Sound() && db.dlq == []
    ensures NothingQueued(Run(env, Boot(db), acts))
  {
    if acts != [] {
      var before := acts[..|acts| - 1];
      EmptyQueueStaysEmpty(env, db, before);
      RunKeepsDelivery(env, Boot(db), before);
      StepQueuesNothing(env, Run(env, Boot(db), before), acts[|acts| - 1]);
    }
  }

  // ---------------------------------------------------------------- RESOLVED

  /** A retry takes a row up exactly when the row has that id, is the caller's, and is not RESOLVED. */
  lemma RetryTakesUpExactlyWhen(
    env: Env, db: Tables, acts: seq<Action>, merchantID: int, id: int, now: int, fault: bool, d: DeliveryDLQ)
    requires db.Sound()
    ensures var s := Step(env, Run(env, Boot(db), acts), CallRetry(merchantID, id));
            && s.retries != []
            && (RetryStep(s, |s.retries| - 1, now, fault).retries[|s.retries| - 1].stage == HasRow(d) <==>
                  !fault && d in s.db.dlq && d.id == id && d.merchantID == merchantID && d.status != DLQResolved)
  {
    RunKeepsDelivery(env, Boot(db), acts);
    CalledTakesUp(env, Run(env, Boot(db), acts), merchantID, id, now, fault, d);
  }

  lemma CalledTakesUp(env: Env, s0: State, merchantID: int, id: int, now: int, fault: bool, d: DeliveryDLQ)
    requires s0.db.DLQOk()
    ensures var s := Step(env, s0, CallRetry(merchantID, id));
            && s.retries != []
            && (RetryStep(s, |s.retries| - 1, now, fault).retries[|s.retries| - 1].stage == HasRow(d) <==>
                  !fault && d in s.db.dlq && d.id == id && d.merchantID == merchantID && d.status != DLQResolved)
  {
    GetDLQExactlyWhen(s0.db, id, merchantID, d);
    TakesUp(s0, Step(env, s0, CallRetry(merchantID, id)), merchantID, id, now, fault, d);
  }

  lemma TakesUp(s0: State, s: State, merchantID: int, id: int, now: int, fault: bool, d: DeliveryDLQ)
    requires s.retries == s0.retries + [Retry(merchantID, id, Called, 0)] && s.db == s0.db
    ensures RetryStep(s, |s.retries| - 1, now, fault).retries[|s.retries| - 1].stage == HasRow(d) <==>
              !fault && s.db.GetDLQ(id, merchantID, false) == Ok(d) && d.status != DLQResolved
  {
  }

  ghost predicate RowResolved(s: State, id: int) {
    exists d :: d in s.db.dlq && d.id == id && d.status == DLQResolved
  }

  /** Notifier `n` delivered `tx` for retry `r`: its last response was a 2xx, received after `r` read its row. */
  ghost predicate DeliveredFor(s: State, r: nat, n: nat, tx: int) {
    && r < |s.retries| && n < |s.notifiers|
    && s.notifiers[n].origin == FromRetry(r) && s.notifiers[n].tx.id == tx
    && s.notifiers[n].responses != []
    && var last := s.notifiers[n].responses[|s.notifiers[n].responses| - 1];
    && last.Http? && last.code / 100 == 2
    && s.retries[r].readAt < s.notifiers[n].deliveredAt
  }

  /**
   RESOLVED is sound: whenever a step writes a RESOLVED row, new or over another RESOLVED one, it is the
   ResolveDLQ of a retry of that very row, whose own notifier got a 2xx for the row's transaction after
   the retry had read the row.
   */
  lemma ResolvedIsSound(env: Env, db: Tables, acts: seq<Action>, a: Action, row: DeliveryDLQ) returns (r: nat, n: nat)
    requires db.Sound()
    ensures var s := Run(env, Boot(db), acts);
            row in Step(env, s, a).db.dlq && row.status == DLQResolved && row !in s.db.dlq ==>
              && a.Redeliver? && a.r == r && DeliveredFor(s, r, n, row.transactionID)
              && s.retries[r].dlqID == row.id && s.retries[r].merchantID == row.merchantID
  {
    RunKeepsDelivery(env, Boot(db), acts);
    r, n := WriterOf(env, Run(env, Boot(db), acts), a, row);
  }

  lemma WriterOf(env: Env, s: State, a: Action, row: DeliveryDLQ) returns (r: nat, n: nat)
    requires DInv(env, s)
    ensures row in Step(env, s, a).db.dlq && row.status == DLQResolved && row !in s.db.dlq ==>
              && a.Redeliver? && a.r == r && DeliveredFor(s, r, n, row.transactionID)
              && s.retries[r].dlqID == row.id && s.retries[r].merchantID == row.merchantID
  {
    r, n := 0, 0;
    if row in Step(env, s, a).db.dlq && row.status == DLQResolved && row !in s.db.dlq {
      OnlyResolveResolves(env, s, a, row);
      r := a.r;
      n := s.retries[r].stage.notifier;
      ResolverDelivered(env, s, r, row, a.now);
    }
  }

  /** The same of every retry that moves on to ResolveDLQ, whatever the row's status and the statement's fate. */
  lemma EveryResolveIsSound(env: Env, db: Tables, acts: seq<Action>, r: nat, now: int, fault: bool)
    returns (row: DeliveryDLQ, n: nat)
    requires db.Sound() && r < |Run(env, Boot(db), acts).retries|
    requires var s := Run(env, Boot(db), acts);
             s.retries[r].stage.Running? && RetryStep(s, r, now, fault).retries[r].stage.Resolving?
    ensures var s := Run(env, Boot(db), acts);
            && row in s.db.dlq && row.id == s.retries[r].dlqID && row.merchantID == s.retries[r].merchantID
            && DeliveredFor(s, r, n, row.transactionID)
            && var db' := RetryStep(s, r, now, fault).db;
            && (fault ==> db' == s.db)
            && (!fault ==> row.(status := DLQResolved, resolvedAt := Some(now)) in db'.dlq)
  {
    RunKeepsDelivery(env, Boot(db), acts);
    var s := Run(env, Boot(db), acts);
    n := s.retries[r].stage.notifier;
    row := RunningDelivered(env, s, r);
    RowIsResolved(s, r, now, row);
  }

  lemma RowIsResolved(s: State, r: nat, now: int, row: DeliveryDLQ)
    requires r < |s.retries| && s.retries[r].stage.Running?
    requires RetryStep(s, r, now, false).retries[r].stage.Resolving?
    requires row in s.db.dlq && row.SameEntry(s.retries[r].stage.d)
    ensures row.(status := DLQResolved, resolvedAt := Some(now)) in RetryStep(s, r, now, false).db.dlq
  {
    var k :| 0 <= k < |s.db.dlq| && s.db.dlq[k] == row;
    assert RetryStep(s, r, now, false).db.dlq[k] == row.(status := DLQResolved, resolvedAt := Some(now));
  }

  lemma RunningDelivered(env: Env, s: State, r: nat) returns (row: DeliveryDLQ)
    requires DInv(env, s) && r < |s.retries| && s.retries[r].stage.Running?
    requires var n := s.retries[r].stage.notifier; n < |s.notifiers| && s.notifiers[n].stage == Ended(true)
    ensures row in s.db.dlq && row.id == s.retries[r].dlqID && row.merchantID == s.retries[r].merchantID
    ensures row.SameEntry(s.retries[r].stage.d)
    ensures DeliveredFor(s, r, s.retries[r].stage.notifier, row.transactionID)
  {
    var d, n := s.retries[r].stage.d, s.notifiers[s.retries[r].stage.notifier];
    assert n in s.notifiers && NotifierOk(s.db, n, s.clock);
    assert RetryOk(s.db, s.notifiers, s.retries[r], r, s.clock) && Holds(s.db, s.retries[r], d);
    row :| row in s.db.dlq && row.SameEntry(d);
  }

  lemma OnlyResolveResolves(env: Env, s: State, a: Action, row: DeliveryDLQ)
    requires DInv(env, s) && row in Step(env, s, a).db.dlq && row.status == DLQResolved && row !in s.db.dlq
    ensures a.Redeliver? && a.r < |s.retries| && s.retries[a.r].stage.Running?
    ensures var st := s.retries[a.r].stage;
            && st.notifier < |s.notifiers| && s.notifiers[st.notifier].stage == Ended(true)
            && row in UpdateDLQ(s.db.dlq, st.d.id, DLQResolved, Some(a.now))
  {
    if a.Handle? && a.h < |s.handlers| {
      assert s.handlers[a.h] in s.handlers;
      HandlerLeavesDLQ(env, s.db, s.handlers[a.h], a.now, a.fault);
    } else if a.Redeliver? && a.r < |s.retries| {
      OnlyWaitingResolves(s, a.r, a.now, a.fault, row);
    }
  }

  lemma OnlyWaitingResolves(s: State, i: nat, now: int, fault: bool, row: DeliveryDLQ)
    requires i < |s.retries| && row.status == DLQResolved
    requires row in RetryStep(s, i, now, fault).db.dlq && row !in s.db.dlq
    ensures s.retries[i].stage.Running?
    ensures var st := s.retries[i].stage;
            && st.notifier < |s.notifiers| && s.notifiers[st.notifier].stage == Ended(true)
            && row in UpdateDLQ(s.db.dlq, st.d.id, DLQResolved, Some(now))
  {
  }

  lemma ResolverDelivered(env: Env, s: State, r: nat, row: DeliveryDLQ, now: int)
    requires DInv(env, s) && r < |s.retries| && s.retries[r].stage.Running? && row !in s.db.dlq
    requires s.retries[r].stage.notifier < |s.notifiers|
    requires s.notifiers[s.retries[r].stage.notifier].stage == Ended(true)
    requires row in UpdateDLQ(s.db.dlq, s.retries[r].stage.d.id, DLQResolved, Some(now))
    ensures DeliveredFor(s, r, s.retries[r].stage.notifier, row.transactionID)
    ensures s.retries[r].dlqID == row.id && s.retries[r].merchantID == row.merchantID
  {
    var held := RunningDelivered(env, s, r);
    var rows := UpdateDLQ(s.db.dlq, s.retries[r].stage.d.id, DLQResolved, Some(now));
    var j :| 0 <= j < |rows| && rows[j] == row;
    assert s.db.dlq[j] in s.db.dlq;
    var k :| 0 <= k < |s.db.dlq| && s.db.dlq[k] == held;
    assert k == j;
  }

  /** The retry is past reading its row and not yet done with it. */
  function ActiveOn(id: int): Retry -> bool {
    (r: Retry) => r.dlqID == id && !r.stage.Called? && !r.stage.Rejected? && !r.stage.Finished?
  }

  /** Retries of the row do not overlap. */
  ghost predicate NoOverlap(s: State, id: int) {
    forall i, j :: 0 <= i < j < |s.retries| ==> !(ActiveOn(id)(s.retries[i]) && ActiveOn(id)(s.retries[j]))
  }

  /** No retry that may still write to the row is under way once it is RESOLVED. */
  ghost predicate Settled(s: State, id: int) {
    RowResolved(s, id) ==> forall r :: r in s.retries && ActiveOn(id)(r) ==> r.stage.Resolving?
  }

  /** A RESOLVED row leaves that status exactly when a retry that had read it before requeues it. */
  lemma LeavesResolvedExactlyWhen(env: Env, db: Tables, acts: seq<Action>, a: Action, id: int)
    requires db.Sound() && RowResolved(Run(env, Boot(db), acts), id)
    ensures var s := Run(env, Boot(db), acts);
            !RowResolved(Step(env, s, a), id) <==>
              && a.Redeliver? && a.r < |s.retries| && !a.fault
              && s.retries[a.r].stage.HasRow? && s.retries[a.r].dlqID == id
  {
    RunKeepsDelivery(env, Boot(db), acts);
    LeavesResolved(env, Run(env, Boot(db), acts), a, id);
  }

  lemma LeavesResolved(env: Env, s: State, a: Action, id: int)
    requires DInv(env, s) && RowResolved(s, id)
    ensures !RowResolved(Step(env, s, a), id) <==>
              && a.Redeliver? && a.r < |s.retries| && !a.fault
              && s.retries[a.r].stage.HasRow? && s.retries[a.r].dlqID == id
  {
    var d :| d in s.db.dlq && d.id == id && d.status == DLQResolved;
    var k :| 0 <= k < |s.db.dlq| && s.db.dlq[k] == d;
    var s' := Step(env, s, a);
    if a.Redeliver? && a.r < |s.retries| {
      RetryLeavesResolved(env, s, a.r, a.now, a.fault, id, k);
    } else {
      OthersKeepRow(env, s, a, k);
      assert d in s'.db.dlq;
    }
  }

  lemma OthersKeepRow(env: Env, s: State, a: Action, k: nat)
    requires DInv(env, s) && k < |s.db.dlq| && (a.Redeliver? ==> a.r >= |s.retries|)
    ensures var s' := Step(env, s, a); k < |s'.db.dlq| && s'.db.dlq[k] == s.db.dlq[k]
  {
    if a.Handle? && a.h < |s.handlers| {
      assert s.handlers[a.h] in s.handlers;
      HandlerLeavesDLQ(env, s.db, s.handlers[a.h], a.now, a.fault);
    }
  }

  lemma RetryLeavesResolved(env: Env, s: State, i: nat, now: int, fault: bool, id: int, k: nat)
    requires DInv(env, s) && i < |s.retries|
    requires k < |s.db.dlq| && s.db.dlq[k].id == id && s.db.dlq[k].status == DLQResolved
    ensures !RowResolved(RetryStep(s, i, now, fault), id) <==>
              !fault && s.retries[i].stage.HasRow? && s.retries[i].dlqID == id
  {
  }

  lemma StaysSettled(env: Env, s: State, a: Action, id: int)
    requires DInv(env, s) && NoOverlap(s, id) && Settled(s, id)
    ensures Settled(Step(env, s, a), id)
    ensures RowResolved(s, id) ==> RowResolved(Step(env, s, a), id)
  {
    if RowResolved(s, id) {
      LeavesResolved(env, s, a, id);
      assert a.Redeliver? && a.r < |s.retries| ==> s.retries[a.r] in s.retries;
      NobodyReenters(env, s, a, id);
    } else if RowResolved(Step(env, s, a), id) {
      BecomesSettled(env, s, a, id);
    }
  }

  lemma NobodyReenters(env: Env, s: State, a: Action, id: int)
    requires DInv(env, s) && RowResolved(s, id) && Settled(s, id)
    ensures forall r :: r in Step(env, s, a).retries && ActiveOn(id)(r) ==> r.stage.Resolving?
  {
    if a.Redeliver? && a.r < |s.retries| {
      assert s.retries[a.r] in s.retries;
      DoesNotReenter(env, s, a.r, a.now, a.fault, id);
      var r' := RetryStep(s, a.r, a.now, a.fault).retries[a.r];
      assert Step(env, s, a).retries == s.retries[a.r := r'];
    }
  }

  /** Only reading the row makes a retry active on it. */
  lemma RetryMoves(s: State, i: nat, now: int, fault: bool, id: int)
    requires i < |s.retries|
    ensures var s', r := RetryStep(s, i, now, fault), s.retries[i];
            && |s'.retries| == |s.retries| && s'.retries == s.retries[i := s'.retries[i]]
            && s'.retries[i].dlqID == r.dlqID
            && (s'.retries[i].stage.HasRow? ==> r.stage.Called?)
            && (ActiveOn(id)(s'.retries[i]) ==> (r.stage.Called? && r.dlqID == id) || ActiveOn(id)(r))
            && (r.stage.Resolving? ==> s'.retries[i].stage.Finished?)
  {
  }

  lemma DoesNotReenter(env: Env, s: State, i: nat, now: int, fault: bool, id: int)
    requires DInv(env, s) && RowResolved(s, id) && i < |s.retries|
    requires ActiveOn(id)(s.retries[i]) ==> s.retries[i].stage.Resolving?
    ensures var s' := RetryStep(s, i, now, fault);
            && s'.retries == s.retries[i := s'.retries[i]]
            && (ActiveOn(id)(s'.retries[i]) ==> s'.retries[i].stage.Resolving?)
  {
    RetryMoves(s, i, now, fault, id);
    if s.retries[i].dlqID == id {
      ReadSeesResolved(env, s, i, now, fault, id);
    }
  }

  lemma BecomesSettled(env: Env, s: State, a: Action, id: int)
    requires DInv(env, s) && NoOverlap(s, id) && !RowResolved(s, id) && RowResolved(Step(env, s, a), id)
    ensures Settled(Step(env, s, a), id)
  {
    var row :| row in Step(env, s, a).db.dlq && row.id == id && row.status == DLQResolved;
    OnlyResolveResolves(env, s, a, row);
    ResolverDelivered(env, s, a.r, row, a.now);
    assert ActiveOn(id)(s.retries[a.r]);
    var r' := RetryStep(s, a.r, a.now, a.fault).retries[a.r];
    assert Step(env, s, a).retries == s.retries[a.r := r'];
  }

  lemma ReadSeesResolved(env: Env, s: State, i: nat, now: int, fault: bool, id: int)
    requires DInv(env, s) && RowResolved(s, id) && i < |s.retries| && s.retries[i].dlqID == id
    ensures s.retries[i].stage.Called? ==> RetryStep(s, i, now, fault).retries[i].stage.Rejected?
  {
  }

  /**
   RESOLVED is absorbing as long as retries of the row never overlap: `xs` are the states of a run in
   which they do not.
   */
  lemma {:induction false} ResolvedIsAbsorbing(env: Env, db: Tables, acts: seq<Action>, id: int, xs: seq<State>)
    requires db.Sound() && xs == States(env, Boot(db), acts)
    requires forall i :: 0 <= i < |xs| ==> NoOverlap(xs[i], id)
    ensures Settled(xs[|acts|], id)
    ensures forall i :: 0 <= i < |xs| ==> RowResolved(xs[i], id) ==> RowResolved(xs[|acts|], id)
  {
    if acts != [] {
      var before := acts[..|acts| - 1];
      var xs0 := States(env, Boot(db), before);
      assert xs == xs0 + [Run(env, Boot(db), acts)];
      forall i | 0 <= i < |xs0|
        ensures NoOverlap(xs0[i], id)
      {
        assert NoOverlap(xs[i], id);
      }
      ResolvedIsAbsorbing(env, db, before, id, xs0);
      RunKeepsDelivery(env, Boot(db), before);
      StaysSettled(env, xs0[|before|], acts[|acts| - 1], id);
      forall i | 0 <= i < |xs| && RowResolved(xs[i], id)
        ensures RowResolved(xs[|acts|], id)
      {
        if i < |xs0| {
          assert RowResolved(xs0[i], id);
        }
      }
    }
  }

  /** Some retry has read the row and is about to requeue it. */
  ghost predicate AboutToRequeue(s: State, id: int) {
    exists i :: 0 <= i < |s.retries| && s.retries[i].stage.HasRow? && s.retries[i].dlqID == id
  }

  lemma DoesNotRead(env: Env, s: State, i: nat, now: int, fault: bool, id: int)
    requires DInv(env, s) && RowResolved(s, id) && i < |s.retries|
    ensures !AboutToRequeue(s, id) ==> !AboutToRequeue(RetryStep(s, i, now, fault), id)
  {
    RetryMoves(s, i, now, fault, id);
    if s.retries[i].dlqID == id {
      ReadSeesResolved(env, s, i, now, fault, id);
    }
  }

  lemma NobodyReads(env: Env, s: State, a: Action, id: int)
    requires DInv(env, s) && RowResolved(s, id)
    ensures !AboutToRequeue(s, id) ==> !AboutToRequeue(Step(env, s, a), id)
  {
    if a.Redeliver? && a.r < |s.retries| {
      DoesNotRead(env, s, a.r, a.now, a.fault, id);
    }
  }

  lemma {:induction false} StaysResolved(env: Env, s: State, later: seq<Action>, id: int)
    requires DInv(env, s) && RowResolved(s, id) && !AboutToRequeue(s, id)
    ensures RowResolved(Run(env, s, later), id) && !AboutToRequeue(Run(env, s, later), id)
  {
    if later != [] {
      var before := later[..|later| - 1];
      StaysResolved(env, s, before, id);
      RunKeepsDelivery(env, s, before);
      LeavesResolved(env, Run(env, s, before), later[|later| - 1], id);
      NobodyReads(env, Run(env, s, before), later[|later| - 1], id);
    }
  }

  lemma CanReopen(env: Env, s: State, id: int) returns (later: seq<Action>)
    requires DInv(env, s) && RowResolved(s, id) && AboutToRequeue(s, id)
    ensures !RowResolved(Run(env, s, later), id)
  {
    var i: nat :| i < |s.retries| && s.retries[i].stage.HasRow? && s.retries[i].dlqID == id;
    var a := Redeliver(i, 0, false);
    LeavesResolved(env, s, a, id);
    RunSnoc(env, s, [], a);
    later := [] + [a];
  }

  /**
   RESOLVED is final in every continuation of a run exactly when no retry that read the row before it was
   resolved is still about to requeue it, however retries overlapped until then and will overlap later.
   */
  lemma ResolvedForGoodExactlyWhen(env: Env, db: Tables, acts: seq<Action>, id: int)
    requires db.Sound() && RowResolved(Run(env, Boot(db), acts), id)
    ensures var s := Run(env, Boot(db), acts);
            (forall later :: RowResolved(Run(env, s, later), id)) <==> !AboutToRequeue(s, id)
  {
    RunKeepsDelivery(env, Boot(db), acts);
    var s := Run(env, Boot(db), acts);
    if AboutToRequeue(s, id) {
      var later := CanReopen(env, s, id);
    } else {
      forall later
        ensures RowResolved(Run(env, s, later), id)
      {
        StaysResolved(env, s, later, id);
      }
    }
  }

  // ---------------------------------------------------------------- overlapping retries

  function Payment(): Transaction {
    Transaction(1, 1, "x", "o", "1", "RWF", SUCCESSFUL, "", [], 0)
  }

  function OneDeadLetter(): Tables {
    Tables(map[1 := Merchant(1, "u", true, 1, 0)], [Payment()], [],
           [DeliveryDLQ(1, 1, 1, "u", 3, 0, DLQFailed, None)], 2, 2)
  }

  function Row(): DeliveryDLQ {
    OneDeadLetter().dlq[0]
  }

  /** Two retries have read the row. */
  ghost predicate BothRead(s: State) {
    && s.db == OneDeadLetter() && s.notifiers == []
    && s.retries == [Retry(1, 1, HasRow(Row()), 2), Retry(1, 1, HasRow(Row()), 3)]
  }

  /** The first is delivering. */
  ghost predicate FirstDelivers(s: State) {
    && |s.retries| == 2 && s.retries[1].stage == HasRow(Row())
    && s.retries[0].stage.Running? && s.retries[0].stage.d == Row() && s.retries[0].stage.notifier == 0
    && |s.notifiers| == 1 && s.notifiers[0].stage == Posting(0) && |s.db.dlq| == 1 && s.db.dlq[0].id == 1
  }

  /** The first has resolved the row. */
  ghost predicate FirstResolved(s: State) {
    && |s.db.dlq| == 1 && s.db.dlq[0].id == 1 && s.db.dlq[0].status == DLQResolved
    && |s.retries| == 2 && s.retries[1].stage == HasRow(Row())
  }

  lemma OverlapReads(env: Env, s: State)
    requires s == Boot(OneDeadLetter())
    ensures var s2 := Step(env, Step(env, s, CallRetry(1, 1)), CallRetry(1, 1));
            BothRead(Step(env, Step(env, s2, Redeliver(0, 0, false)), Redeliver(1, 0, false)))
  {
  }

  lemma OverlapLaunches(env: Env, s: State)
    requires BothRead(s)
    ensures var a := Redeliver(0, 0, false);
            FirstDelivers(Step(env, Step(env, Step(env, Step(env, s, a), a), a), a))
  {
  }

  lemma OverlapResolves(env: Env, s: State)
    requires FirstDelivers(s)
    ensures var b := Deliver(0, Http(200), false);
            FirstResolved(Step(env, Step(env, Step(env, s, b), b), Redeliver(0, 0, false)))
  {
  }

  lemma SecondReopens(env: Env, s: State)
    requires FirstResolved(s)
    ensures RowResolved(s, 1) && !RowResolved(Step(env, s, Redeliver(1, 0, false)), 1)
    ensures var s' := Step(env, s, Redeliver(1, 0, false)); |s'.db.dlq| == 1 && s'.db.dlq[0].status == DLQRequeued
  {
  }

  lemma ReachBothRead(env: Env) returns (acts: seq<Action>)
    ensures BothRead(Run(env, Boot(OneDeadLetter()), acts))
  {
    var s, call := Boot(OneDeadLetter()), CallRetry(1, 1);
    OverlapReads(env, s);
    RunThree(env, s, [], call, call, Redeliver(0, 0, false));
    acts := [] + [call] + [call] + [Redeliver(0, 0, false)];
    RunSnoc(env, s, acts, Redeliver(1, 0, false));
    acts := acts + [Redeliver(1, 0, false)];
  }

  lemma ReachFirstDelivers(env: Env) returns (acts: seq<Action>)
    ensures FirstDelivers(Run(env, Boot(OneDeadLetter()), acts))
  {
    var s, a := Boot(OneDeadLetter()), Redeliver(0, 0, false);
    acts := ReachBothRead(env);
    OverlapLaunches(env, Run(env, s, acts));
    RunThree(env, s, acts, a, a, a);
    acts := acts + [a] + [a] + [a];
    RunSnoc(env, s, acts, a);
    acts := acts + [a];
  }

  /** With overlapping retries RESOLVED is not absorbing: the second retry puts the row back to REQUEUED. */
  lemma OverlapReopens(env: Env) returns (acts: seq<Action>, a: Action)
    ensures OneDeadLetter().Sound()
    ensures var s := Run(env, Boot(OneDeadLetter()), acts);
            && RowResolved(s, 1) && !RowResolved(Step(env, s, a), 1)
            && |Step(env, s, a).db.dlq| == 1 && Step(env, s, a).db.dlq[0].status == DLQRequeued
  {
    assert OneDeadLetter().Owned(Row()) by {
      assert Payment() in OneDeadLetter().transactions;
    }
    var s, b := Boot(OneDeadLetter()), Deliver(0, Http(200), false);
    acts := ReachFirstDelivers(env);
    OverlapResolves(env, Run(env, s, acts));
    RunThree(env, s, acts, b, b, Redeliver(0, 0, false));
    acts := acts + [b] + [b] + [Redeliver(0, 0, false)];
    a := Redeliver(1, 0, false);
    SecondReopens(env, Run(env, s, acts));
  }
}
