/**
 What every interleaving of webhook handlers, notifiers and dead-letter retries keeps about deliveries:
 the shape of a notifier run, and whose rows the dead-letter queue holds.
 */
module Delivery {
  import opened Prelude
  import opened Storage
  import opened Auth
  import opened Engine
  import opened Ingestion

  /** Every step leaves the identity, owner and contents of dead-letter rows alone, and enters no PENDING. */
  ghost predicate DLQGrows(db: Tables, db': Tables) {
    && |db.dlq| <= |db'.dlq| && db.nextDLQ <= db'.nextDLQ
    && (forall j :: 0 <= j < |db.dlq| ==> db.dlq[j].SameEntry(db'.dlq[j]))
    && (forall j :: 0 <= j < |db'.dlq| && db'.dlq[j].status == DLQPending ==>
          j < |db.dlq| && db.dlq[j].status == DLQPending)
  }

  ghost predicate AllGrows(db: Tables, db': Tables) {
    Grows(db, db') && DLQGrows(db, db') && db'.logs == db.logs
  }

  /** What a delivery needs: a webhook to call, and a payment that went through. */
  predicate Deliverable(m: Merchant, tx: Transaction) {
    m.webhookURL != "" && tx.status == "SUCCESSFUL"
  }

  /** The merchant answered with a status code from 200 to 299. */
  predicate Delivered(r: Response) {
    r.Http? && r.code / 100 == 2
  }

  /** The record of one attempt, in terms of the response alone. */
  function RecordOf(m: Merchant, tx: Transaction, attempt: nat, r: Response, limit: nat): DeliveryLog {
    DeliveryLog(tx.id, 0, m.webhookURL, attempt,
                if Delivered(r) then Success else if attempt + 1 == limit then Failed else Retrying,
                if r.Http? then r.code else 0)
  }

  /** `handed` records the responses in order: attempts 0, 1, 2, ..., each with its status and code. */
  ghost predicate Records(
    m: Merchant, tx: Transaction, handed: seq<DeliveryLog>, responses: seq<Response>, limit: nat)
  {
    && |handed| <= |responses|
    && forall j :: 0 <= j < |handed| ==> handed[j] == RecordOf(m, tx, j, responses[j], limit)
  }

  ghost predicate AllFailed(responses: seq<Response>, n: nat) {
    n <= |responses| && forall j :: 0 <= j < n ==> !Delivered(responses[j])
  }

  /** NotifyMerchant has returned `ok` after these responses and these records, given `limit` attempts. */
  ghost predicate Completed(
    m: Merchant, tx: Transaction, handed: seq<DeliveryLog>, responses: seq<Response>, limit: nat, ok: bool)
  {
    && |handed| == |responses| && Records(m, tx, handed, responses, limit)
    && if !Deliverable(m, tx) then responses == [] && !ok
       else
         && 1 <= |responses| <= limit
         && AllFailed(responses, |responses| - 1)
         && ok == Delivered(responses[|responses| - 1])
         && (!ok ==> |responses| == limit)
  }

  ghost predicate TraceOk(n: Notifier) {
    && Records(n.merchant, n.tx, n.handed, n.responses, MAX_ATTEMPTS)
    && match n.stage
       case Posting(k) =>
         && Deliverable(n.merchant, n.tx) && k < MAX_ATTEMPTS
         && k == |n.responses| == |n.handed| && AllFailed(n.responses, k)
       case Logging(log) =>
         && Deliverable(n.merchant, n.tx)
         && var k := |n.handed|;
         && k < MAX_ATTEMPTS && |n.responses| == k + 1 && AllFailed(n.responses, k)
         && log == RecordOf(n.merchant, n.tx, k, n.responses[k], MAX_ATTEMPTS)
       case Enqueueing(log) =>
         && Deliverable(n.merchant, n.tx)
         && |n.responses| == |n.handed| == MAX_ATTEMPTS && AllFailed(n.responses, MAX_ATTEMPTS)
         && log == n.handed[MAX_ATTEMPTS - 1]
       case Ended(ok) => Completed(n.merchant, n.tx, n.handed, n.responses, MAX_ATTEMPTS, ok)
  }

  /** A webhook hands over a transaction without its row id; a retry hands over its own merchant's row. */
  ghost predicate NotifierOk(db: Tables, n: Notifier, clock: nat) {
    && TraceOk(n)
    && n.startedAt < clock
    && (n.responses != [] ==> n.startedAt < n.deliveredAt < clock)
    && n.merchant.id in db.merchants
    && match n.origin
       case FromWebhookHandler(_) => n.tx.id == 0
       case FromRetry(_) => n.tx in db.transactions && n.tx.merchantID == n.merchant.id
  }

  /** The row a retry has read is still there, whatever has become of its status. */
  ghost predicate Holds(db: Tables, r: Retry, d: DeliveryDLQ) {
    && d.id == r.dlqID && d.merchantID == r.merchantID
    && db.Owned(d)
    && exists row :: row in db.dlq && row.SameEntry(d)
  }

  ghost predicate RetryOk(db: Tables, ns: seq<Notifier>, r: Retry, i: nat, clock: nat) {
    match r.stage
    case Called => true
    case HasRow(d) => Holds(db, r, d) && r.readAt < clock
    case Requeued(d) => Holds(db, r, d) && r.readAt < clock
    case HasMerchant(d, m) => Holds(db, r, d) && r.readAt < clock && m.id == r.merchantID && m.id in db.merchants
    case Launched(d, m, tx) =>
      && Holds(db, r, d) && r.readAt < clock && m.id == r.merchantID && m.id in db.merchants
      && tx in db.transactions && tx.id == d.transactionID && tx.merchantID == m.id
    case Running(d, m, n) =>
      && Holds(db, r, d) && m.id == r.merchantID
      && n < |ns| && ns[n].origin == FromRetry(i) && ns[n].tx.id == d.transactionID && r.readAt < ns[n].startedAt
      && ns[n].merchant == m
    case Resolving(d, m) => Holds(db, r, d)
    case Finished(d) => Holds(db, r, d)
    case Rejected(_) => true
  }

  ghost predicate DInv(env: Env, s: State) {
    && Inv(env, s) && s.db.Sound()
    && (forall n :: n in s.notifiers ==> NotifierOk(s.db, n, s.clock))
    && (forall i :: 0 <= i < |s.retries| ==> RetryOk(s.db, s.notifiers, s.retries[i], i, s.clock))
  }

  // ---------------------------------------------------------------- notifiers

  lemma TraceKeeps(db: Tables, n: Notifier, ctr: Counters, clock: nat, r: Response, fault: bool)
    requires TraceOk(n)
    ensures var n' := NotifierStep(db, n, ctr, clock, r, fault).1;
            && TraceOk(n')
            && n'.origin == n.origin && n'.tx == n.tx && n'.merchant == n.merchant && n'.startedAt == n.startedAt
  {
  }

  lemma NotifierKeeps(db: Tables, n: Notifier, ctr: Counters, clock: nat, r: Response, fault: bool)
    requires db.Sound() && NotifierOk(db, n, clock)
    ensures var (db', n', _) := NotifierStep(db, n, ctr, clock, r, fault);
            && db'.Sound() && AllGrows(db, db') && NotifierOk(db', n', clock + 1)
            && n'.origin == n.origin && n'.tx == n.tx && n'.merchant == n.merchant && n'.startedAt == n.startedAt
  {
    TraceKeeps(db, n, ctr, clock, r, fault);
    if n.stage.Enqueueing? {
      EnqueueKeeps(db, n, n.stage.log, fault);
    } else {
      LogRefused(db, n, fault);
      assert NotifierStep(db, n, ctr, clock, r, fault).0 == db;
    }
  }

  /** The record's merchant id is zero, which no merchant has. */
  lemma LogRefused(db: Tables, n: Notifier, fault: bool)
    requires db.TxOk() && TraceOk(n)
    ensures n.stage.Logging? ==> db.InsertDeliveryLog(n.stage.log, fault).Err?
  {
  }

  lemma EnqueueKeeps(db: Tables, n: Notifier, log: DeliveryLog, fault: bool)
    requires db.Sound() && n.merchant.id in db.merchants && Deliverable(n.merchant, n.tx)
    requires match n.origin
             case FromWebhookHandler(_) => n.tx.id == 0
             case FromRetry(_) => n.tx in db.transactions && n.tx.merchantID == n.merchant.id
    ensures var r := db.EnqueueDLQ(DeadLetter(n.merchant, n.tx, log), fault);
            && (r.Ok? <==> !fault && n.origin.FromRetry?)
            && (r.Ok? ==> r.value.Sound() && AllGrows(db, r.value))
  {
  }

  // ---------------------------------------------------------------- statements on rows

  lemma UpdateKeeps(db: Tables, id: int, status: DLQStatus, at: Option<int>)
    requires db.Sound() && status != DLQPending && (status == DLQResolved <==> at.Some?)
    ensures var db' := db.(dlq := UpdateDLQ(db.dlq, id, status, at));
            db'.Sound() && AllGrows(db, db')
  {
    var db' := db.(dlq := UpdateDLQ(db.dlq, id, status, at));
    forall d | d in db'.dlq
      ensures db'.Owned(d) && (d.status == DLQResolved <==> d.resolvedAt.Some?) && 0 < d.id < db'.nextDLQ
    {
      var j :| 0 <= j < |db'.dlq| && db'.dlq[j] == d;
      assert db.dlq[j] in db.dlq && db.Owned(db.dlq[j]);
      assert d.transactionID == db.dlq[j].transactionID && d.merchantID == db.dlq[j].merchantID;
    }
  }

  lemma HoldsGrows(db: Tables, db': Tables, r: Retry, d: DeliveryDLQ)
    requires Holds(db, r, d) && AllGrows(db, db')
    ensures Holds(db', r, d)
  {
    var row :| row in db.dlq && row.SameEntry(d);
    var j :| 0 <= j < |db.dlq| && db.dlq[j] == row;
    assert db'.dlq[j] in db'.dlq && db'.dlq[j].SameEntry(d);
    assert forall t :: t in db.transactions ==> t in db'.transactions;
  }

  lemma RetryOkGrows(db: Tables, db': Tables, ns: seq<Notifier>, ns': seq<Notifier>, r: Retry, i: nat, clock: nat)
    requires RetryOk(db, ns, r, i, clock) && AllGrows(db, db') && NotifiersGrow(ns, ns')
    ensures RetryOk(db', ns', r, i, clock + 1)
  {
    assert forall t :: t in db.transactions ==> t in db'.transactions;
    match r.stage {
      case Called =>
      case HasRow(d) => HoldsGrows(db, db', r, d);
      case Requeued(d) => HoldsGrows(db, db', r, d);
      case HasMerchant(d, m) => HoldsGrows(db, db', r, d);
      case Launched(d, m, tx) => HoldsGrows(db, db', r, d);
      case Running(d, m, n) => HoldsGrows(db, db', r, d);
      case Resolving(d, m) => HoldsGrows(db, db', r, d);
      case Finished(d) => HoldsGrows(db, db', r, d);
      case Rejected(_) =>
    }
  }

  lemma NotifierOkGrows(db: Tables, db': Tables, n: Notifier, clock: nat)
    requires NotifierOk(db, n, clock) && AllGrows(db, db')
    ensures NotifierOk(db', n, clock + 1)
  {
  }

  /** Notifiers are never dropped, and keep what they were started with. */
  ghost predicate NotifiersGrow(ns: seq<Notifier>, ns': seq<Notifier>) {
    && |ns| <= |ns'|
    && forall j :: 0 <= j < |ns| ==>
         && ns'[j].origin == ns[j].origin && ns'[j].tx == ns[j].tx && ns'[j].merchant == ns[j].merchant
         && ns'[j].startedAt == ns[j].startedAt
  }

  // ---------------------------------------------------------------- steps

  /** All but one process is left to the lemmas above. */
  ghost predicate Others(s: State, s': State, notifier: nat, retry: nat) {
    && NotifiersGrow(s.notifiers, s'.notifiers)
    && (forall j :: 0 <= j < |s.notifiers| && j != notifier ==> s'.notifiers[j] == s.notifiers[j])
    && |s.retries| <= |s'.retries|
    && (forall j :: 0 <= j < |s.retries| && j != retry ==> s'.retries[j] == s.retries[j])
    && (forall j :: |s.retries| <= j < |s'.retries| ==> s'.retries[j].stage.Called?)
  }

  lemma OthersKept(env: Env, s: State, s': State, notifier: nat, retry: nat)
    requires DInv(env, s) && AllGrows(s.db, s'.db) && Others(s, s', notifier, retry)
    ensures forall j :: 0 <= j < |s.notifiers| && j != notifier ==> NotifierOk(s'.db, s'.notifiers[j], s.clock + 1)
    ensures forall j :: 0 <= j < |s'.retries| && j != retry ==>
              RetryOk(s'.db, s'.notifiers, s'.retries[j], j, s.clock + 1)
  {
    forall j | 0 <= j < |s.notifiers| && j != notifier
      ensures NotifierOk(s'.db, s'.notifiers[j], s.clock + 1)
    {
      assert s.notifiers[j] in s.notifiers;
      NotifierOkGrows(s.db, s'.db, s.notifiers[j], s.clock);
    }
    forall j | 0 <= j < |s'.retries| && j != retry
      ensures RetryOk(s'.db, s'.notifiers, s'.retries[j], j, s.clock + 1)
    {
      if j < |s.retries| {
        RetryOkGrows(s.db, s'.db, s.notifiers, s'.notifiers, s.retries[j], j, s.clock);
      }
    }
  }

  lemma DeliverKeeps(env: Env, s: State, i: nat, r: Response, fault: bool)
    requires DInv(env, s) && i < |s.notifiers|
    ensures var s' := Step(env, s, Deliver(i, r, fault));
            DInv(env, s') && AllGrows(s.db, s'.db) && NotifiersGrow(s.notifiers, s'.notifiers)
  {
    var s' := Step(env, s, Deliver(i, r, fault));
    StepKeeps(env, s, Deliver(i, r, fault));
    assert s.notifiers[i] in s.notifiers;
    NotifierKeeps(s.db, s.notifiers[i], s.ctr, s.clock, r, fault);
    OthersKept(env, s, s', i, |s'.retries|);
  }

  lemma SameDLQ(db: Tables, db': Tables)
    requires db.Sound() && db'.TxOk() && Grows(db, db')
    requires db'.dlq == db.dlq && db'.nextDLQ == db.nextDLQ && db'.logs == db.logs
    ensures db'.Sound() && AllGrows(db, db')
  {
  }

  lemma HandlerLeavesDLQ(env: Env, db: Tables, h: Handler, now: int, fault: bool)
    requires h.stage.Admitted? ==> h.merchant.Some?
    ensures var db' := HandlerStep(env, db, h, now, fault).0;
            db'.dlq == db.dlq && db'.nextDLQ == db.nextDLQ && db'.logs == db.logs
  {
  }

  lemma HandleKeepsDelivery(env: Env, s: State, i: nat, now: int, fault: bool)
    requires DInv(env, s) && i < |s.handlers|
    ensures var s' := Step(env, s, Handle(i, now, fault));
            DInv(env, s') && AllGrows(s.db, s'.db) && NotifiersGrow(s.notifiers, s'.notifiers)
  {
    var s' := Step(env, s, Handle(i, now, fault));
    var h := s.handlers[i];
    assert h in s.handlers;
    StepKeeps(env, s, Handle(i, now, fault));
    HandlerLeavesDLQ(env, s.db, h, now, fault);
    SameDLQ(s.db, s'.db);
    if h.stage.Counted? {
      var n := StartNotifier(FromWebhookHandler(i), h.merchant.value, h.stage.tx, s.clock);
      assert s'.notifiers == s.notifiers + [n];
      assert NotifierOk(s'.db, n, s'.clock);
    } else {
      assert s'.notifiers == s.notifiers;
    }
    OthersKept(env, s, s', |s'.notifiers|, |s'.retries|);
  }

  /** A retry step keeps everything once it keeps the tables and its own row. */
  lemma RetryFrame(env: Env, s: State, i: nat, now: int, fault: bool)
    requires DInv(env, s) && i < |s.retries|
    requires var s1 := RetryStep(s, i, now, fault);
             && s1.db.Sound() && AllGrows(s.db, s1.db) && Others(s, s1, |s1.notifiers|, i)
             && RetryOk(s1.db, s1.notifiers, s1.retries[i], i, s.clock + 1)
             && forall j :: |s.notifiers| <= j < |s1.notifiers| ==> NotifierOk(s1.db, s1.notifiers[j], s.clock + 1)
    ensures var s' := Step(env, s, Redeliver(i, now, fault));
            DInv(env, s') && AllGrows(s.db, s'.db) && NotifiersGrow(s.notifiers, s'.notifiers)
  {
    StepKeeps(env, s, Redeliver(i, now, fault));
    OthersKept(env, s, RetryStep(s, i, now, fault), |RetryStep(s, i, now, fault).notifiers|, i);
  }

  lemma ReadKeeps(env: Env, s: State, i: nat, now: int, fault: bool)
    requires DInv(env, s) && i < |s.retries| && s.retries[i].stage.Called?
    ensures var s' := Step(env, s, Redeliver(i, now, fault));
            DInv(env, s') && AllGrows(s.db, s'.db) && NotifiersGrow(s.notifiers, s'.notifiers)
  {
    var r := s.retries[i];
    var found := s.db.GetDLQ(r.dlqID, r.merchantID, fault);
    if found.Ok? {
      assert found.value in s.db.dlq && found.value.SameEntry(found.value);
      assert Holds(s.db, r, found.value);
    }
    RetryFrame(env, s, i, now, fault);
  }

  lemma RequeueKeeps(env: Env, s: State, i: nat, now: int, fault: bool)
    requires DInv(env, s) && i < |s.retries| && s.retries[i].stage.HasRow?
    ensures var s' := Step(env, s, Redeliver(i, now, fault));
            DInv(env, s') && AllGrows(s.db, s'.db) && NotifiersGrow(s.notifiers, s'.notifiers)
  {
    var r := s.retries[i];
    var d := r.stage.d;
    UpdateKeeps(s.db, d.id, DLQRequeued, None);
    HoldsGrows(s.db, s.db.(dlq := UpdateDLQ(s.db.dlq, d.id, DLQRequeued, None)), r, d);
    RetryFrame(env, s, i, now, fault);
  }

  lemma LoadMerchantKeeps(env: Env, s: State, i: nat, now: int, fault: bool)
    requires DInv(env, s) && i < |s.retries| && s.retries[i].stage.Requeued?
    ensures var s' := Step(env, s, Redeliver(i, now, fault));
            DInv(env, s') && AllGrows(s.db, s'.db) && NotifiersGrow(s.notifiers, s'.notifiers)
  {
    RetryFrame(env, s, i, now, fault);
  }

  lemma LoadTransactionKeeps(env: Env, s: State, i: nat, now: int, fault: bool)
    requires DInv(env, s) && i < |s.retries| && s.retries[i].stage.HasMerchant?
    ensures var s' := Step(env, s, Redeliver(i, now, fault));
            DInv(env, s') && AllGrows(s.db, s'.db) && NotifiersGrow(s.notifiers, s'.notifiers)
  {
    var d := s.retries[i].stage.d;
    var found := s.db.GetTransactionInternal(d.transactionID, fault);
    if found.Ok? {
      var t :|
        && t in s.db.transactions && t.id == d.transactionID
        && t.merchantID == d.merchantID && t.status == SUCCESSFUL;
      assert t == found.value;
    }
    RetryFrame(env, s, i, now, fault);
  }

  lemma LaunchKeeps(env: Env, s: State, i: nat, now: int, fault: bool)
    requires DInv(env, s) && i < |s.retries| && s.retries[i].stage.Launched?
    ensures var s' := Step(env, s, Redeliver(i, now, fault));
            DInv(env, s') && AllGrows(s.db, s'.db) && NotifiersGrow(s.notifiers, s'.notifiers)
  {
    var r := s.retries[i];
    var n := StartNotifier(FromRetry(i), r.stage.m, r.stage.tx, s.clock);
    assert NotifierOk(s.db, n, s.clock + 1);
    RetryFrame(env, s, i, now, fault);
  }

  lemma AwaitKeeps(env: Env, s: State, i: nat, now: int, fault: bool)
    requires DInv(env, s) && i < |s.retries| && s.retries[i].stage.Running?
    ensures var s' := Step(env, s, Redeliver(i, now, fault));
            DInv(env, s') && AllGrows(s.db, s'.db) && NotifiersGrow(s.notifiers, s'.notifiers)
  {
    var r := s.retries[i];
    var d := r.stage.d;
    var db := s.db.(dlq := UpdateDLQ(s.db.dlq, d.id, DLQResolved, Some(now)));
    UpdateKeeps(s.db, d.id, DLQResolved, Some(now));
    HoldsGrows(s.db, db, r, d);
    AwaitStep(s, i, now, fault);
    RetryFrame(env, s, i, now, fault);
  }

  /** Waiting for the notifier changes no notifier, and at most resolves the row. */
  lemma AwaitStep(s: State, i: nat, now: int, fault: bool)
    requires i < |s.retries| && s.retries[i].stage.Running?
    ensures var s1, st := RetryStep(s, i, now, fault), s.retries[i].stage;
            && s1.notifiers == s.notifiers
            && s1.retries == s.retries[i := s1.retries[i]]
            && s1.retries[i] == s.retries[i].(stage := s1.retries[i].stage)
            && (s1.db == s.db || s1.db == s.db.(dlq := UpdateDLQ(s.db.dlq, st.d.id, DLQResolved, Some(now))))
            && (|| s1.retries[i].stage == st
                || s1.retries[i].stage == Resolving(st.d, st.m)
                || s1.retries[i].stage == Finished(st.d))
  {
  }

  lemma EndKeeps(env: Env, s: State, i: nat, now: int, fault: bool)
    requires DInv(env, s) && i < |s.retries|
    requires var st := s.retries[i].stage; st.Resolving? || st.Finished? || st.Rejected?
    ensures var s' := Step(env, s, Redeliver(i, now, fault));
            DInv(env, s') && AllGrows(s.db, s'.db) && NotifiersGrow(s.notifiers, s'.notifiers)
  {
    RetryFrame(env, s, i, now, fault);
  }

  /** Arrivals, calls, and the operators' updates. */
  lemma QuietKeeps(env: Env, s: State, a: Action)
    requires DInv(env, s)
    requires a.Handle? ==> a.h >= |s.handlers|
    requires a.Deliver? ==> a.n >= |s.notifiers|
    requires a.Redeliver? ==> a.r >= |s.retries|
    ensures var s' := Step(env, s, a);
            DInv(env, s') && AllGrows(s.db, s'.db) && NotifiersGrow(s.notifiers, s'.notifiers)
  {
    var s' := Step(env, s, a);
    StepKeeps(env, s, a);
    SameDLQ(s.db, s'.db);
    OthersKept(env, s, s', |s'.notifiers|, |s'.retries|);
  }

  lemma StepKeepsDelivery(env: Env, s: State, a: Action)
    requires DInv(env, s)
    ensures var s' := Step(env, s, a);
            DInv(env, s') && AllGrows(s.db, s'.db) && NotifiersGrow(s.notifiers, s'.notifiers)
  {
    if a.Handle? && a.h < |s.handlers| {
      HandleKeepsDelivery(env, s, a.h, a.now, a.fault);
    } else if a.Deliver? && a.n < |s.notifiers| {
      DeliverKeeps(env, s, a.n, a.response, a.fault);
    } else if a.Redeliver? && a.r < |s.retries| {
      match s.retries[a.r].stage {
        case Called => ReadKeeps(env, s, a.r, a.now, a.fault);
        case HasRow(_) => RequeueKeeps(env, s, a.r, a.now, a.fault);
        case Requeued(_) => LoadMerchantKeeps(env, s, a.r, a.now, a.fault);
        case HasMerchant(_, _) => LoadTransactionKeeps(env, s, a.r, a.now, a.fault);
        case Launched(_, _, _) => LaunchKeeps(env, s, a.r, a.now, a.fault);
        case Running(_, _, _) => AwaitKeeps(env, s, a.r, a.now, a.fault);
        case _ => EndKeeps(env, s, a.r, a.now, a.fault);
      }
    } else {
      QuietKeeps(env, s, a);
    }
  }

  lemma AllGrowsTransitive(a: Tables, b: Tables, c: Tables)
    requires AllGrows(a, b) && AllGrows(b, c)
    ensures AllGrows(a, c)
  {
  }

  lemma {:induction false} RunKeepsDelivery(env: Env, s: State, acts: seq<Action>)
    requires DInv(env, s)
    ensures DInv(env, Run(env, s, acts)) && AllGrows(s.db, Run(env, s, acts).db)
  {
    if acts != [] {
      var before := acts[..|acts| - 1];
      RunKeepsDelivery(env, s, before);
      StepKeepsDelivery(env, Run(env, s, before), acts[|acts| - 1]);
      AllGrowsTransitive(s.db, Run(env, s, before).db, Run(env, s, acts).db);
    }
  }
}
