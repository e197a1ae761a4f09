/**
 Which dead-letter row is whose: every notifier that gave up on a retry has appended one row, FAILED when
 it was appended, which is still in the table and which no other notifier has appended.
 */
module EnqueuedRows {
  import opened Prelude
  import opened Storage
  import opened Auth
  import opened Engine
  import opened Delivery
  import opened Quota
  import opened DeadLetters

  /** The row the notifier handed to EnqueueDLQ, under the id it got. */
  function QueuedRow(n: Notifier): DeliveryDLQ
    requires n.handed != [] && n.queued.Some?
  {
    DeadLetter(n.merchant, n.tx, n.handed[|n.handed| - 1]).(id := n.queued.value)
  }

  /** Notifier `i` made the step from `x` to `y`, and no fault struck. */
  ghost predicate StepOf(env: Env, x: State, y: State, i: nat) {
    exists r :: y == Step(env, x, Deliver(i, r, false))
  }

  /** The step after state `k` was one of notifier `i`, and appended `row`, and nothing else, to the table. */
  ghost predicate AppendedBy(env: Env, xs: seq<State>, k: nat, i: nat, row: DeliveryDLQ) {
    && k + 1 < |xs| && i < |xs[k].notifiers| && xs[k].notifiers[i].stage.Enqueueing?
    && StepOf(env, xs[k], xs[k + 1], i)
    && xs[k + 1].db.dlq == xs[k].db.dlq + [row]
  }

  /** Row `p` of the table is a version of `d`, and the only row with that id. */
  ghost predicate OnlyRow(rows: seq<DeliveryDLQ>, p: nat, d: DeliveryDLQ) {
    && p < |rows| && d.SameEntry(rows[p])
    && forall j :: 0 <= j < |rows| ==> (rows[j].id == d.id <==> j == p)
  }

  /** Notifier `i`, now `n`, appended its row after state `k`, and it is still there at the end. */
  ghost predicate TracedTo(env: Env, xs: seq<State>, k: nat, i: nat, n: Notifier)
    requires n.handed != [] && n.queued.Some?
  {
    && AppendedBy(env, xs, k, i, QueuedRow(n))
    && OnlyRow(xs[|xs| - 1].db.dlq, |xs[k].db.dlq|, QueuedRow(n))
  }

  /** The notifier has a row exactly when a retry started it, it used up every attempt, and no fault struck. */
  ghost predicate QueuedWhen(n: Notifier) {
    n.queued.Some? <==>
      n.stage == Ended(false) && n.origin.FromRetry? && |n.responses| == MAX_ATTEMPTS && !n.enqueueFault
  }

  ghost predicate Traced(env: Env, xs: seq<State>, i: nat, n: Notifier) {
    QueuedWhen(n) && (n.queued.Some? ==> n.handed != [] && exists k: nat :: TracedTo(env, xs, k, i, n))
  }

  ghost predicate IdsApart(ns: seq<Notifier>) {
    forall i, j :: 0 <= i < j < |ns| && ns[i].queued.Some? ==> ns[i].queued != ns[j].queued
  }

  ghost predicate EachTraced(env: Env, xs: seq<State>, ns: seq<Notifier>) {
    forall i :: 0 <= i < |ns| ==> Traced(env, xs, i, ns[i])
  }

  ghost predicate AllTraced(env: Env, xs: seq<State>) {
    && xs != []
    && EachTraced(env, xs, xs[|xs| - 1].notifiers)
    && IdsApart(xs[|xs| - 1].notifiers)
  }

  /** A row traced so far stays traced. */
  lemma StaysTraced(env: Env, xs: seq<State>, s': State, i: nat, n: Notifier)
    requires xs != [] && Traced(env, xs, i, n) && s'.db.DLQOk() && DLQGrows(xs[|xs| - 1].db, s'.db)
    ensures Traced(env, xs + [s'], i, n)
  {
    if n.queued.Some? {
      var k: nat :| TracedTo(env, xs, k, i, n);
      assert AppendedBy(env, xs + [s'], k, i, QueuedRow(n));
      StillOnlyRow(xs[|xs| - 1].db, s'.db, |xs[k].db.dlq|, QueuedRow(n));
      assert TracedTo(env, xs + [s'], k, i, n);
    }
  }

  lemma StillOnlyRow(db: Tables, db': Tables, p: nat, d: DeliveryDLQ)
    requires OnlyRow(db.dlq, p, d) && db'.DLQOk() && DLQGrows(db, db')
    ensures OnlyRow(db'.dlq, p, d)
  {
    assert d.SameEntry(db'.dlq[p]);
  }

  /** The one step that appends a row. */
  lemma EnqueueAppends(db: Tables, n: Notifier, ctr: Counters, clock: nat, r: Response, fault: bool)
    requires db.Sound() && NotifierOk(db, n, clock) && QueuedWhen(n) && n.stage.Enqueueing?
    ensures var (db', n', _) := NotifierStep(db, n, ctr, clock, r, fault);
            && QueuedWhen(n') && n'.handed != []
            && (n'.queued.None? ==> db' == db)
            && (n'.queued.Some? ==>
                  n'.queued.value == db.nextDLQ && db'.dlq == db.dlq + [QueuedRow(n')] && db'.DLQOk())
  {
    EnqueueKeeps(db, n, n.stage.log, fault);
  }

  lemma EnqueueTraces(env: Env, xs: seq<State>, i: nat, r: Response, fault: bool)
    requires xs != []
    requires var s := xs[|xs| - 1]; DInv(env, s) && i < |s.notifiers| && s.notifiers[i].stage.Enqueueing?
    requires QueuedWhen(xs[|xs| - 1].notifiers[i])
    ensures var s' := Step(env, xs[|xs| - 1], Deliver(i, r, fault));
            && Traced(env, xs + [s'], i, s'.notifiers[i])
            && (s'.notifiers[i].queued.Some? ==> s'.notifiers[i].queued.value == xs[|xs| - 1].db.nextDLQ)
  {
    var s := xs[|xs| - 1];
    var s' := Step(env, s, Deliver(i, r, fault));
    var n' := s'.notifiers[i];
    assert s.notifiers[i] in s.notifiers;
    EnqueueAppends(s.db, s.notifiers[i], s.ctr, s.clock, r, fault);
    if n'.queued.Some? {
      assert !fault && StepOf(env, s, s', i);
      assert AppendedBy(env, xs + [s'], |xs| - 1, i, QueuedRow(n'));
      assert OnlyRow(s'.db.dlq, |s.db.dlq|, QueuedRow(n'));
      assert TracedTo(env, xs + [s'], |xs| - 1, i, n');
    }
  }

  /** Whatever else a notifier does, it gets no row. */
  lemma OthersAppendNothing(db: Tables, n: Notifier, ctr: Counters, clock: nat, r: Response, fault: bool)
    requires QueuedWhen(n) && !n.stage.Enqueueing?
    ensures var n' := NotifierStep(db, n, ctr, clock, r, fault).1;
            QueuedWhen(n') && n'.queued == n.queued && (n.queued.Some? ==> n' == n)
  {
  }

  /** Every notifier of `s'` is one of `s`, or has just been started. */
  ghost predicate SameOrNew(s: State, s': State) {
    && |s.notifiers| <= |s'.notifiers|
    && (forall j :: 0 <= j < |s.notifiers| ==> s'.notifiers[j] == s.notifiers[j])
    && (forall j :: |s.notifiers| <= j < |s'.notifiers| ==>
          s'.notifiers[j].queued.None? && s'.notifiers[j].responses == [])
  }

  lemma OthersSameOrNew(env: Env, s: State, a: Action)
    requires !a.Deliver?
    ensures SameOrNew(s, Step(env, s, a))
  {
    if a.Redeliver? && a.r < |s.retries| {
      RetrySameOrNew(s, a.r, a.now, a.fault);
    }
  }

  lemma RetrySameOrNew(s: State, i: nat, now: int, fault: bool)
    requires i < |s.retries|
    ensures SameOrNew(s, RetryStep(s, i, now, fault))
  {
  }

  lemma SameOrNewTraced(env: Env, xs: seq<State>, s': State)
    requires AllTraced(env, xs) && s'.db.DLQOk() && DLQGrows(xs[|xs| - 1].db, s'.db) && SameOrNew(xs[|xs| - 1], s')
    ensures AllTraced(env, xs + [s'])
  {
    forall j | 0 <= j < |s'.notifiers|
      ensures Traced(env, xs + [s'], j, s'.notifiers[j])
    {
      if j < |xs[|xs| - 1].notifiers| {
        StaysTraced(env, xs, s', j, s'.notifiers[j]);
      }
    }
  }

  lemma DeliverTraced(env: Env, xs: seq<State>, i: nat, r: Response, fault: bool)
    requires AllTraced(env, xs) && DInv(env, xs[|xs| - 1]) && i < |xs[|xs| - 1].notifiers|
    requires var s' := Step(env, xs[|xs| - 1], Deliver(i, r, fault));
             s'.db.DLQOk() && DLQGrows(xs[|xs| - 1].db, s'.db)
    ensures AllTraced(env, xs + [Step(env, xs[|xs| - 1], Deliver(i, r, fault))])
  {
    var s := xs[|xs| - 1];
    var s' := Step(env, s, Deliver(i, r, fault));
    var n := s.notifiers[i];
    assert s'.notifiers == s.notifiers[i := s'.notifiers[i]];
    assert Traced(env, xs, i, n);
    if n.stage.Enqueueing? {
      EnqueueTraces(env, xs, i, r, fault);
    } else {
      OthersAppendNothing(s.db, n, s.ctr, s.clock, r, fault);
      if n.queued.Some? {
        StaysTraced(env, xs, s', i, n);
      }
    }
    forall j | 0 <= j < |s'.notifiers|
      ensures Traced(env, xs + [s'], j, s'.notifiers[j])
    {
      if j != i {
        StaysTraced(env, xs, s', j, s'.notifiers[j]);
      }
    }
    DeliverApart(env, xs, s', i);
  }

  /** A new id is past every id in the table. */
  lemma DeliverApart(env: Env, xs: seq<State>, s': State, i: nat)
    requires AllTraced(env, xs) && xs[|xs| - 1].db.DLQOk() && i < |xs[|xs| - 1].notifiers|
    requires var s := xs[|xs| - 1];
             && i < |s'.notifiers| && s'.notifiers == s.notifiers[i := s'.notifiers[i]]
             && (s'.notifiers[i].queued == s.notifiers[i].queued
                 || s'.notifiers[i].queued == Some(s.db.nextDLQ)
                 || s'.notifiers[i].queued.None?)
    ensures IdsApart(s'.notifiers)
  {
    var s := xs[|xs| - 1];
    forall j | 0 <= j < |s.notifiers| && s.notifiers[j].queued.Some?
      ensures s.notifiers[j].queued.value < s.db.nextDLQ
    {
      assert Traced(env, xs, j, s.notifiers[j]);
      var k: nat :| TracedTo(env, xs, k, j, s.notifiers[j]);
      assert s.db.dlq[|xs[k].db.dlq|] in s.db.dlq;
    }
  }

  lemma {:induction false} RunTraced(env: Env, db: Tables, acts: seq<Action>, xs: seq<State>)
    requires db.Sound() && xs == States(env, Boot(db), acts)
    ensures AllTraced(env, xs)
  {
    if acts != [] {
      var before, a := acts[..|acts| - 1], acts[|acts| - 1];
      var xs0 := States(env, Boot(db), before);
      RunTraced(env, db, before, xs0);
      RunKeepsDelivery(env, Boot(db), before);
      StepTraced(env, xs0, a);
      assert xs == xs0 + [Step(env, xs0[|before|], a)];
    }
  }

  lemma StepTraced(env: Env, xs: seq<State>, a: Action)
    requires AllTraced(env, xs) && DInv(env, xs[|xs| - 1])
    ensures AllTraced(env, xs + [Step(env, xs[|xs| - 1], a)])
  {
    var s := xs[|xs| - 1];
    StepKeepsDelivery(env, s, a);
    if a.Deliver? && a.n < |s.notifiers| {
      DeliverTraced(env, xs, a.n, a.response, a.fault);
    } else {
      if !a.Deliver? {
        OthersSameOrNew(env, s, a);
      }
      SameOrNewTraced(env, xs, Step(env, s, a));
    }
  }

  // ---------------------------------------------------------------- one notifier for each retry

  /** A retry has started notifier `j` at most if it is past launching, and while it waits, waits for `j`. */
  ghost predicate LaunchedOnce(s: State) {
    forall j :: 0 <= j < |s.notifiers| && s.notifiers[j].origin.FromRetry? ==>
      && s.notifiers[j].origin.retry < |s.retries|
      && var st := s.retries[s.notifiers[j].origin.retry].stage;
      && Waits(st)
      && (st.Running? ==> st.notifier == j)
  }

  /** Launching starts one notifier and waits for it; no other step starts one, or waits for another. */
  lemma RetryProgress(s: State, i: nat, now: int, fault: bool)
    requires i < |s.retries|
    ensures var s', st := RetryStep(s, i, now, fault), s.retries[i].stage;
            && |s'.retries| == |s.retries| && s'.retries == s.retries[i := s'.retries[i]]
            && s'.notifiers == (if st.Launched? then s.notifiers + [StartNotifier(FromRetry(i), st.m, st.tx, s.clock)]
                                else s.notifiers)
            && (st.Launched? ==> s'.retries[i].stage == Running(st.d, st.m, |s.notifiers|))
            && (Waits(st) ==>
                  Waits(s'.retries[i].stage) && (s'.retries[i].stage.Running? ==> s'.retries[i].stage == st))
  {
  }

  predicate Waits(st: RetryStage) {
    st.Running? || st.Resolving? || st.Finished?
  }

  lemma RetryLaunchesOnce(s: State, i: nat, now: int, fault: bool)
    requires LaunchedOnce(s) && i < |s.retries|
    ensures LaunchedOnce(RetryStep(s, i, now, fault))
  {
    RetryProgress(s, i, now, fault);
  }

  lemma StepLaunchesOnce(env: Env, s: State, a: Action)
    requires LaunchedOnce(s)
    ensures LaunchedOnce(Step(env, s, a))
  {
    if a.Redeliver? && a.r < |s.retries| {
      RetryLaunchesOnce(s, a.r, a.now, a.fault);
    }
  }

  lemma {:induction false} RunLaunchesOnce(env: Env, db: Tables, acts: seq<Action>)
    ensures LaunchedOnce(Run(env, Boot(db), acts))
  {
    if acts != [] {
      RunLaunchesOnce(env, db, acts[..|acts| - 1]);
      StepLaunchesOnce(env, Run(env, Boot(db), acts[..|acts| - 1]), acts[|acts| - 1]);
    }
  }

  // ---------------------------------------------------------------- the added row is not the retried one

  ghost predicate AddedLater(s: State, n: Notifier) {
    n.queued.Some? ==>
      && n.origin.FromRetry? && n.origin.retry < |s.retries|
      && s.retries[n.origin.retry].dlqID < n.queued.value
  }

  ghost predicate AllAddedLater(s: State) {
    forall n :: n in s.notifiers ==> AddedLater(s, n)
  }

  ghost predicate SameRetries(s: State, s': State) {
    && |s.retries| <= |s'.retries|
    && forall i :: 0 <= i < |s.retries| ==> s'.retries[i].dlqID == s.retries[i].dlqID
  }

  /** The row a retry holds has an older id than any row still to come. */
  lemma EnqueuesLater(env: Env, s: State, i: nat, r: Response, fault: bool)
    requires DInv(env, s) && LaunchedOnce(s) && i < |s.notifiers| && AddedLater(s, s.notifiers[i])
    requires QueuedWhen(s.notifiers[i])
    ensures AddedLater(s, DeliverStep(s, i, r, fault).notifiers[i])
  {
    var n := s.notifiers[i];
    assert n in s.notifiers && NotifierOk(s.db, n, s.clock);
    if n.stage.Enqueueing? {
      EnqueueAppends(s.db, n, s.ctr, s.clock, r, fault);
      if n.origin.FromRetry? {
        HeldIsOld(env, s, n.origin.retry);
      } else {
        EnqueueKeeps(s.db, n, n.stage.log, fault);
      }
    } else {
      OthersAppendNothing(s.db, n, s.ctr, s.clock, r, fault);
    }
  }

  lemma HeldIsOld(env: Env, s: State, i: nat)
    requires DInv(env, s) && i < |s.retries|
    requires Waits(s.retries[i].stage)
    ensures s.retries[i].dlqID < s.db.nextDLQ
  {
    assert RetryOk(s.db, s.notifiers, s.retries[i], i, s.clock);
    assert Holds(s.db, s.retries[i], s.retries[i].stage.d);
  }

  lemma RetriesKeepRows(env: Env, s: State, a: Action)
    ensures SameRetries(s, Step(env, s, a))
  {
    if a.Redeliver? && a.r < |s.retries| {
      RetryMoves(s, a.r, a.now, a.fault, 0);
    }
  }

  lemma StepAddsLater(env: Env, s: State, a: Action)
    requires DInv(env, s) && LaunchedOnce(s) && AllAddedLater(s)
    requires forall n :: n in s.notifiers ==> QueuedWhen(n)
    ensures AllAddedLater(Step(env, s, a))
  {
    var s' := Step(env, s, a);
    RetriesKeepRows(env, s, a);
    if a.Deliver? && a.n < |s.notifiers| {
      assert s.notifiers[a.n] in s.notifiers;
      EnqueuesLater(env, s, a.n, a.response, a.fault);
      assert s'.notifiers == s.notifiers[a.n := s'.notifiers[a.n]];
    } else if !a.Deliver? {
      OthersSameOrNew(env, s, a);
    }
    forall n | n in s'.notifiers
      ensures AddedLater(s', n)
    {
      assert n in s.notifiers ==> AddedLater(s, n);
    }
  }

  lemma {:induction false} RunAddsLater(env: Env, db: Tables, acts: seq<Action>)
    requires db.Sound()
    ensures AllAddedLater(Run(env, Boot(db), acts))
  {
    if acts != [] {
      var before := acts[..|acts| - 1];
      var s := Run(env, Boot(db), before);
      RunAddsLater(env, db, before);
      RunKeepsDelivery(env, Boot(db), before);
      RunLaunchesOnce(env, db, before);
      RunTraced(env, db, before, States(env, Boot(db), before));
      AreQueuedWhen(env, States(env, Boot(db), before));
      StepAddsLater(env, s, acts[|acts| - 1]);
    }
  }

  lemma AreQueuedWhen(env: Env, xs: seq<State>)
    requires AllTraced(env, xs)
    ensures forall n :: n in xs[|xs| - 1].notifiers ==> QueuedWhen(n)
  {
    forall n | n in xs[|xs| - 1].notifiers
      ensures QueuedWhen(n)
    {
      var i :| 0 <= i < |xs[|xs| - 1].notifiers| && xs[|xs| - 1].notifiers[i] == n;
      assert Traced(env, xs, i, n);
    }
  }
}
