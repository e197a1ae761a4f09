/**
 NotifyMerchant and RetryDLQ as they are written, each run by one goroutine with nothing beside it.
 The merchant's responses and the faults of the statements are functions of the attempt.
 */
module Notify {
  import opened Prelude
  import opened Storage
  import opened Engine
  import opened Delivery

  /** The registered Prometheus counters. */
  class Metrics {
    var counters: Counters

    constructor ()
      ensures counters == Counters(map[], map[], map[], map[], map[])
    {
      counters := Counters(map[], map[], map[], map[], map[]);
    }

    method IncDelivery(m: int, status: DeliveryStatus)
      modifies this
      ensures counters == old(counters).(deliveries := Bump(old(counters).deliveries, (m, status)))
    {
      counters := counters.(deliveries := Bump(counters.deliveries, (m, status)));
    }

    method IncEnqueue(m: int)
      modifies this
      ensures counters == old(counters).(enqueues := Bump(old(counters).enqueues, m))
    {
      counters := counters.(enqueues := Bump(counters.enqueues, m));
    }
  }

  function DeliveriesAfter(c: map<(int, DeliveryStatus), nat>, m: int, handed: seq<DeliveryLog>)
    : map<(int, DeliveryStatus), nat>
  {
    if handed == [] then c
    else Bump(DeliveriesAfter(c, m, handed[..|handed| - 1]), (m, handed[|handed| - 1].status))
  }

  /** The counters after a run of NotifyMerchant for merchant `m`. */
  function CountersAfter(c: Counters, m: int, handed: seq<DeliveryLog>, enqueued: bool): Counters {
    var c' := c.(deliveries := DeliveriesAfter(c.deliveries, m, handed));
    if enqueued then c'.(enqueues := Bump(c'.enqueues, m)) else c'
  }

  /** The responses to the first `n` attempts. */
  function Heard(responses: nat -> Response, n: nat): (r: seq<Response>)
    ensures |r| == n && forall j :: 0 <= j < n ==> r[j] == responses(j)
  {
    seq(n, j requires 0 <= j < n => responses(j))
  }

  /** The tables after EnqueueDLQ, whose error is dropped. */
  function AfterEnqueue(db: Tables, m: Merchant, tx: Transaction, log: DeliveryLog, fault: bool): Tables {
    match db.EnqueueDLQ(DeadLetter(m, tx, log), fault) case Err => db case Ok(db') => db'
  }

  /** Every attempt so far has failed, and has been recorded. */
  ghost predicate Tried(
    m: Merchant, tx: Transaction, handed: seq<DeliveryLog>, responses: nat -> Response, limit: nat)
  {
    var heard := Heard(responses, |handed|);
    Records(m, tx, handed, heard, limit) && AllFailed(heard, |handed|)
  }

  /** One more record: the trace is complete, or every attempt so far has failed again. */
  lemma TraceExtends(m: Merchant, tx: Transaction, handed: seq<DeliveryLog>, responses: nat -> Response, limit: nat)
    requires Deliverable(m, tx) && |handed| < limit && Tried(m, tx, handed, responses, limit)
    ensures var n := |handed|;
            var handed' := handed + [RecordOf(m, tx, n, responses(n), limit)];
            if Delivered(responses(n)) then Completed(m, tx, handed', Heard(responses, n + 1), limit, true)
            else
              && Tried(m, tx, handed', responses, limit)
              && (n == limit - 1 ==> Completed(m, tx, handed', Heard(responses, n + 1), limit, false))
  {
  }

  /** One more attempt counted, and its enqueue if there was one. */
  function CountAttempt(c: Counters, m: int, status: DeliveryStatus, enqueued: bool): Counters {
    var c' := c.(deliveries := Bump(c.deliveries, (m, status)));
    if enqueued then c'.(enqueues := Bump(c'.enqueues, m)) else c'
  }

  lemma CountersExtend(c: Counters, m: int, handed: seq<DeliveryLog>, log: DeliveryLog, enqueued: bool)
    ensures CountersAfter(c, m, handed + [log], enqueued)
            == CountAttempt(CountersAfter(c, m, handed, false), m, log.status, enqueued)
  {
    assert (handed + [log])[..|handed|] == handed;
  }

  /** InsertDeliveryLog, its error dropped: a record that names no merchant leaves no row. */
  method HandOver(store: Store, log: DeliveryLog, fault: bool)
    requires log.merchantID !in store.merchants
    modifies store
    ensures store.View() == old(store.View())
  {
    var _ := store.InsertDeliveryLog(log, fault);
  }

  /** After the last attempt: queue the dead letter, drop the error, count the enqueue. */
  method GiveUp(store: Store, metrics: Metrics, m: Merchant, tx: Transaction, log: DeliveryLog, fault: bool)
    modifies store, metrics
    ensures store.View() == AfterEnqueue(old(store.View()), m, tx, log, fault)
    ensures var c := old(metrics.counters); metrics.counters == c.(enqueues := Bump(c.enqueues, m.id))
  {
    var dlq := DeliveryDLQ(0, tx.id, m.id, m.webhookURL, log.attempt + 1, log.responseCode, DLQFailed, None);
    var _ := store.EnqueueDLQ(dlq, fault);
    metrics.IncEnqueue(m.id);
  }

  /** postWebhook: a status code, 0 if there was no response, and whether it is a success. */
  method PostWebhook(response: Response) returns (code: int, ok: bool)
    ensures ok <==> response.Http? && response.code / 100 == 2
    ensures code == if response.Http? then response.code else 0
  {
    match response {
      case NetworkError => return 0, false;
      case Http(c) =>
        if c < 200 || c > 299 {
          return c, false;
        }
        return c, true;
    }
  }

  /** One attempt: post, count, hand over the record, and give up if it was the last. */
  method Attempt(
    store: Store, metrics: Metrics, m: Merchant, tx: Transaction, attempt: nat, limit: nat, response: Response,
    logFault: bool, enqueueFault: bool)
    returns (log: DeliveryLog, ok: bool)
    requires 0 !in store.merchants
    modifies store, metrics
    ensures log == RecordOf(m, tx, attempt, response, limit) && ok == Delivered(response)
    ensures var failed := !ok && attempt == limit - 1;
            && metrics.counters == CountAttempt(old(metrics.counters), m.id, log.status, failed)
            && store.View() == if failed then AfterEnqueue(old(store.View()), m, tx, log, enqueueFault)
                               else old(store.View())
  {
    log := DeliveryLog(tx.id, 0, m.webhookURL, attempt, Retrying, 0);
    var code;
    code, ok := PostWebhook(response);
    if ok {
      metrics.IncDelivery(m.id, Success);
    } else {
      var statusLabel := if attempt == limit - 1 then Failed else Retrying;
      metrics.IncDelivery(m.id, statusLabel);
    }
    log := log.(responseCode := code);
    if ok {
      log := log.(status := Success);
      HandOver(store, log, logFault);
      return log, true;
    }
    log := log.(status := if attempt == limit - 1 then Failed else Retrying);
    HandOver(store, log, logFault);
    if attempt == limit - 1 {
      GiveUp(store, metrics, m, tx, log, enqueueFault);
    }
  }

  /** Every attempt so far has failed, with these counters and tables; the last, if it is over, has been queued. */
  ghost predicate UnderWay(
    c0: Counters, db0: Tables, c: Counters, db: Tables, m: Merchant, tx: Transaction, handed: seq<DeliveryLog>,
    responses: nat -> Response, limit: nat, enqueueFault: bool)
  {
    && |handed| <= limit && Tried(m, tx, handed, responses, limit)
    && c == CountersAfter(c0, m.id, handed, |handed| == limit)
    && if |handed| < limit || limit == 0 then db == db0
       else
         && Completed(m, tx, handed, Heard(responses, limit), limit, false)
         && db == AfterEnqueue(db0, m, tx, handed[limit - 1], enqueueFault)
  }

  /** One more attempt: the delivery is complete, or still under way. */
  lemma GoesOn(
    c0: Counters, db0: Tables, c: Counters, db: Tables, m: Merchant, tx: Transaction, handed: seq<DeliveryLog>,
    responses: nat -> Response, limit: nat, enqueueFault: bool)
    requires Deliverable(m, tx) && |handed| < limit
    requires UnderWay(c0, db0, c, db, m, tx, handed, responses, limit, enqueueFault)
    ensures var n := |handed|;
            var log := RecordOf(m, tx, n, responses(n), limit);
            var last := !Delivered(responses(n)) && n == limit - 1;
            var c' := CountAttempt(c, m.id, log.status, last);
            if Delivered(responses(n)) then
              && Completed(m, tx, handed + [log], Heard(responses, n + 1), limit, true)
              && c' == CountersAfter(c0, m.id, handed + [log], false) && db == db0
            else UnderWay(c0, db0, c', if last then AfterEnqueue(db, m, tx, log, enqueueFault) else db,
                          m, tx, handed + [log], responses, limit, enqueueFault)
  {
    var log := RecordOf(m, tx, |handed|, responses(|handed|), limit);
    TraceExtends(m, tx, handed, responses, limit);
    CountersExtend(c0, m.id, handed, log, !Delivered(responses(|handed|)) && |handed| == limit - 1);
  }

  /**
   The delivery loop with `limit` attempts: `handed` are the records given to InsertDeliveryLog. They and
   the result are the completed trace of the responses; the tables gain at most the one dead letter that
   is enqueued exactly when an eligible delivery used up every attempt.
   */
  method NotifyMerchant(
    store: Store, metrics: Metrics, m: Merchant, tx: Transaction, limit: nat,
    responses: nat -> Response, logFault: nat -> bool, enqueueFault: bool)
    returns (ok: bool, handed: seq<DeliveryLog>)
    requires limit >= 1 && store.View().TxOk()
    modifies store, metrics
    ensures Completed(m, tx, handed, Heard(responses, |handed|), limit, ok)
    ensures var failed := Deliverable(m, tx) && !ok;
            && metrics.counters == CountersAfter(old(metrics.counters), m.id, handed, failed)
            && store.View() == if failed then AfterEnqueue(old(store.View()), m, tx, handed[limit - 1], enqueueFault)
                               else old(store.View())
  {
    handed := [];
    if m.webhookURL == "" {
      return false, [];
    }
    if tx.status != SUCCESSFUL {
      return false, [];
    }
    ghost var c0, db0 := metrics.counters, store.View();
    for attempt := 0 to limit
      invariant |handed| == attempt
      invariant UnderWay(c0, db0, metrics.counters, store.View(), m, tx, handed, responses, limit, enqueueFault)
    {
      ghost var c, db := metrics.counters, store.View();
      var log;
      log, ok := Attempt(store, metrics, m, tx, attempt, limit, responses(attempt), logFault(attempt), enqueueFault);
      GoesOn(c0, db0, c, db, m, tx, handed, responses, limit, enqueueFault);
      handed := handed + [log];
      if ok {
        return true, handed;
      }
    }
    return false, handed;
  }

  /**
   The trace in words, for every limit: RETRYING repeated and then one SUCCESS, or RETRYING for all but
   the last attempt and then FAILED; attempts are numbered 0, 1, 2, ... and the dead letter counts them all.
   */
  lemma TraceShape(
    m: Merchant, tx: Transaction, handed: seq<DeliveryLog>, responses: seq<Response>, limit: nat, ok: bool)
    requires limit >= 1 && Completed(m, tx, handed, responses, limit, ok)
    ensures |handed| == |responses| <= limit
    ensures handed == [] <==> m.webhookURL == "" || tx.status != "SUCCESSFUL"
    ensures ok <==> handed != [] && var r := responses[|handed| - 1]; r.Http? && r.code / 100 == 2
    ensures forall j :: 0 <= j < |handed| - 1 ==> !(responses[j].Http? && responses[j].code / 100 == 2)
    ensures forall j :: 0 <= j < |handed| ==>
              && handed[j].attempt == j
              && handed[j].responseCode == (if responses[j].Http? then responses[j].code else 0)
              && handed[j].status == (if j < |handed| - 1 then Retrying else if ok then Success else Failed)
              && handed[j].transactionID == tx.id && handed[j].webhookURL == m.webhookURL
    ensures handed != [] && !ok ==>
              |handed| == limit && DeadLetter(m, tx, handed[limit - 1]).attemptCount == limit
  {
    assert forall j :: 0 <= j < |handed| ==> handed[j] == RecordOf(m, tx, j, responses[j], limit);
  }

  function WithStatus(status: DeliveryStatus): DeliveryLog -> bool {
    (log: DeliveryLog) => log.status == status
  }

  lemma {:induction false} DeliveriesAfterExact(
    c: map<(int, DeliveryStatus), nat>, m: int, handed: seq<DeliveryLog>, id: int, status: DeliveryStatus)
    ensures Read(DeliveriesAfter(c, m, handed), (id, status))
            == Read(c, (id, status)) + (if id == m then Count(handed, WithStatus(status)) else 0)
  {
    if handed != [] {
      DeliveriesAfterExact(c, m, handed[..|handed| - 1], id, status);
    }
  }

  /** Each label of the deliveries counter grows by the records of that status, and nothing else changes. */
  lemma CountersAfterExact(
    c: Counters, m: int, handed: seq<DeliveryLog>, enqueued: bool, id: int, status: DeliveryStatus)
    ensures var c' := CountersAfter(c, m, handed, enqueued);
            && Read(c'.deliveries, (id, status))
               == Read(c.deliveries, (id, status)) + (if id == m then Count(handed, WithStatus(status)) else 0)
            && Read(c'.enqueues, id) == Read(c.enqueues, id) + (if id == m && enqueued then 1 else 0)
            && c'.retries == c.retries && c'.failures == c.failures && c'.resolved == c.resolved
  {
    DeliveriesAfterExact(c.deliveries, m, handed, id, status);
  }

  /** The transaction of a sound row is the owner's, and successful. */
  lemma OwnTransaction(db: Tables, d: DeliveryDLQ, tx: Transaction)
    requires db.Sound() && d in db.dlq && tx in db.transactions && tx.id == d.transactionID
    ensures tx.merchantID == d.merchantID && tx.status == SUCCESSFUL && d.merchantID in db.merchants
  {
  }

  /** Row `d` of the tables `db` has been requeued and nothing else has changed since. */
  function Requeue(db: Tables, d: DeliveryDLQ): Tables {
    db.(dlq := UpdateDLQ(db.dlq, d.id, DLQRequeued, None))
  }

  /**
   The goroutine of RetryDLQ, for a row that has just been requeued: the row RESOLVED if the payment was
   delivered; REQUEUED if not, with exactly one new row, FAILED and for the same payment, if the attempts
   were used up. Nothing else changes.
   */
  ghost predicate Redelivered(
    db: Tables, db': Tables, d: DeliveryDLQ, m: Merchant, ok: bool, now: int, resolveFault: bool, enqueueFault: bool,
    last: Response)
  {
    && db' == db.(dlq := db'.dlq, nextDLQ := db'.nextDLQ)
    && if ok then db'.dlq == if resolveFault then db.dlq else UpdateDLQ(db.dlq, d.id, DLQResolved, Some(now))
       else if enqueueFault || m.webhookURL == "" then db'.dlq == db.dlq
       else
         && |db'.dlq| == |db.dlq| + 1 && db'.dlq[..|db.dlq|] == db.dlq
         && var row := db'.dlq[|db.dlq|];
         && row.id == db.nextDLQ && row.status == DLQFailed && row.resolvedAt.None?
         && row.transactionID == d.transactionID && row.merchantID == d.merchantID
         && row.attemptCount == 3 && row.webhookURL == m.webhookURL
         && row.lastResponseCode == if last.Http? then last.code else 0
  }

  /** Any retry that is launched counts as a "success"; its outcome is counted besides. */
  ghost predicate RetryCounted(c: Counters, c': Counters, m: Merchant, ok: bool) {
    && c'.retries == Bump(c.retries, m.id)
    && c'.resolved == (if ok then Bump(c.resolved, m.id) else c.resolved)
    && c'.failures == (if ok then c.failures else Bump(c.failures, m.id))
    && c'.enqueues == (if ok || m.webhookURL == "" then c.enqueues else Bump(c.enqueues, m.id))
  }

  method Redeliver(
    store: Store, metrics: Metrics, d: DeliveryDLQ, m: Merchant, tx: Transaction, now: int,
    responses: nat -> Response, logFault: nat -> bool, resolveFault: bool, enqueueFault: bool)
    returns (ok: bool)
    requires store.View().TxOk() && m.id == d.merchantID == tx.merchantID && m.id in store.View().merchants
    requires tx in store.View().transactions && tx.id == d.transactionID && tx.status == SUCCESSFUL
    modifies store, metrics
    ensures Redelivered(old(store.View()), store.View(), d, m, ok, now, resolveFault, enqueueFault, responses(2))
    ensures RetryCounted(old(metrics.counters), metrics.counters, m, ok)
    ensures ok <==> m.webhookURL != "" && exists k :: 0 <= k < 3 && responses(k).Http? && responses(k).code / 100 == 2
  {
    metrics.counters := metrics.counters.(retries := Bump(metrics.counters.retries, m.id));
    var handed;
    ok, handed := NotifyMerchant(store, metrics, m, tx, MAX_ATTEMPTS, responses, logFault, enqueueFault);
    ghost var heard := Heard(responses, |handed|);
    if ok {
      assert Delivered(heard[|handed| - 1]) && heard[|handed| - 1] == responses(|handed| - 1);
      var _ := store.ResolveDLQ(d.id, now, resolveFault);
      metrics.counters := metrics.counters.(resolved := Bump(metrics.counters.resolved, m.id));
    } else {
      if Deliverable(m, tx) {
        assert forall k :: 0 <= k < MAX_ATTEMPTS ==> !Delivered(heard[k]) && heard[k] == responses(k);
        assert handed[MAX_ATTEMPTS - 1].attempt == MAX_ATTEMPTS - 1;
      }
      metrics.counters := metrics.counters.(failures := Bump(metrics.counters.failures, m.id));
    }
  }

  /**
   RetryDLQ up to its goroutine: which answer it gives or what it launches, and the tables `db'` it leaves.
   `faults` are those of GetDLQ, MarkDLQRequeued, GetMerchantByID and GetTransactionInternal.
   */
  ghost predicate Prepared(
    db: Tables, db': Tables, merchantID: int, dlqID: int, faults: nat -> bool, stage: RetryStage)
  {
    match db.GetDLQ(dlqID, merchantID, faults(0))
    case Err => stage == Rejected(404) && db' == db
    case Ok(d) =>
      if d.status == DLQResolved then stage == Rejected(200) && db' == db
      else if faults(1) then stage == Rejected(500) && db' == db
      else
        && db' == Requeue(db, d)
        && match db.GetMerchantByID(merchantID, faults(2))
           case Err => stage == Rejected(500)
           case Ok(m) =>
             if faults(3) then stage == Rejected(404)
             else
               && stage.Launched? && stage.d == d && stage.m == m
               && db.GetTransactionInternal(d.transactionID, false) == Ok(stage.tx)
  }

  /** The first two steps of a retry in the transition system: read the row, requeue it. */
  lemma MachineRequeues(db: Tables, merchantID: int, dlqID: int, now: int, f0: bool, f1: bool)
    ensures var s0 := Boot(db).(retries := [Retry(merchantID, dlqID, Called, 0)]);
            var s2 := RetryStep(RetryStep(s0, 0, now, f0), 0, now, f1);
            |s2.retries| == 1 && s2.retries[0].merchantID == merchantID
            && match db.GetDLQ(dlqID, merchantID, f0)
               case Err => s2.retries[0].stage == Rejected(404) && s2.db == db
               case Ok(d) =>
                 if d.status == DLQResolved then s2.retries[0].stage == Rejected(200) && s2.db == db
                 else if f1 then s2.retries[0].stage == Rejected(500) && s2.db == db
                 else s2.retries[0].stage == Requeued(d) && s2.db == Requeue(db, d)
  {
    var s0 := Boot(db).(retries := [Retry(merchantID, dlqID, Called, 0)]);
    var s1 := RetryStep(s0, 0, now, f0);
    assert |s1.retries| == 1 && s1.db == db && s1.retries[0].merchantID == merchantID;
  }

  /** The next two: load the merchant and the transaction. */
  lemma MachineLoads(s: State, d: DeliveryDLQ, now: int, f2: bool, f3: bool)
    requires |s.retries| == 1 && s.retries[0].stage == Requeued(d)
    ensures var s4 := RetryStep(RetryStep(s, 0, now, f2), 0, now, f3);
            s4.db == s.db && |s4.retries| == 1
            && match s.db.GetMerchantByID(s.retries[0].merchantID, f2)
               case Err => s4.retries[0].stage == Rejected(500)
               case Ok(m) =>
                 match s.db.GetTransactionInternal(d.transactionID, f3)
                 case Err => s4.retries[0].stage == Rejected(404)
                 case Ok(tx) => s4.retries[0].stage == Launched(d, m, tx)
  {
  }

  lemma MachineStaysRejected(s: State, code: nat, now: int, f2: bool, f3: bool)
    requires |s.retries| == 1 && s.retries[0].stage == Rejected(code)
    ensures RetryStep(RetryStep(s, 0, now, f2), 0, now, f3) == s
  {
  }

  /** The same steps in the transition system, with nothing between them. */
  lemma MachinePrepares(db: Tables, merchantID: int, dlqID: int, now: int, faults: nat -> bool)
    requires db.Sound()
    ensures var s0 := Boot(db).(retries := [Retry(merchantID, dlqID, Called, 0)]);
            var s2 := RetryStep(RetryStep(s0, 0, now, faults(0)), 0, now, faults(1));
            var s4 := RetryStep(RetryStep(s2, 0, now, faults(2)), 0, now, faults(3));
            Prepared(db, s4.db, merchantID, dlqID, faults, s4.retries[0].stage)
  {
    var s0 := Boot(db).(retries := [Retry(merchantID, dlqID, Called, 0)]);
    var s2 := RetryStep(RetryStep(s0, 0, now, faults(0)), 0, now, faults(1));
    MachineRequeues(db, merchantID, dlqID, now, faults(0), faults(1));
    match s2.retries[0].stage {
      case Requeued(d) =>
        MachineLoads(s2, d, now, faults(2), faults(3));
        HasTransaction(db, d);
      case Rejected(code) =>
        MachineStaysRejected(s2, code, now, faults(2), faults(3));
    }
  }

  /** RetryDLQ up to its goroutine; it launches only what belongs together. */
  method PrepareRetry(store: Store, merchantID: int, dlqID: int, faults: nat -> bool) returns (stage: RetryStage)
    requires store.View().Sound()
    modifies store
    ensures Prepared(old(store.View()), store.View(), merchantID, dlqID, faults, stage)
    ensures stage.Rejected? || stage.Launched?
    ensures stage.Launched? ==>
              && store.View() == Requeue(old(store.View()), stage.d)
              && stage.m.id == stage.d.merchantID == stage.tx.merchantID && stage.m.id in store.merchants
              && stage.tx in store.transactions && stage.tx.id == stage.d.transactionID
              && stage.tx.status == SUCCESSFUL
  {
    ghost var db := store.View();
    var found := store.GetDLQ(dlqID, merchantID, faults(0));
    if found.Err? {
      return Rejected(404);
    }
    var d := found.value;
    if d.status == DLQResolved {
      return Rejected(200);
    }
    var failed := store.MarkDLQRequeued(d.id, faults(1));
    if failed {
      return Rejected(500);
    }
    var m := store.GetMerchantByID(merchantID, faults(2));
    if m.Err? {
      return Rejected(500);
    }
    var tx := store.GetTransactionInternal(d.transactionID, faults(3));
    HasTransaction(db, d);
    if tx.Err? {
      return Rejected(404);
    }
    OwnTransaction(db, d, tx.value);
    return Launched(d, m.value, tx.value);
  }

  /**
   RetryDLQ, with nothing beside it: `stage` is where the request ended, or what it launched. The fifth
   and sixth of `faults` are those of ResolveDLQ and EnqueueDLQ.
   */
  method RetryDLQ(
    store: Store, metrics: Metrics, merchantID: int, dlqID: int, now: int,
    responses: nat -> Response, logFault: nat -> bool, faults: nat -> bool)
    returns (code: nat, delivered: Option<bool>, ghost stage: RetryStage)
    requires store.View().Sound()
    modifies store, metrics
    ensures var db := old(store.View());
            Prepared(db, if stage.Launched? then Requeue(db, stage.d) else store.View(),
                     merchantID, dlqID, faults, stage)
    ensures delivered.None? ==> stage == Rejected(code) && metrics.counters == old(metrics.counters)
    ensures delivered.Some? ==>
              && stage.Launched? && code == 200
              && Redelivered(Requeue(old(store.View()), stage.d), store.View(), stage.d, stage.m, delivered.value, now,
                             faults(4), faults(5), responses(2))
              && RetryCounted(old(metrics.counters), metrics.counters, stage.m, delivered.value)
              && (delivered.value <==>
                    && stage.m.webhookURL != ""
                    && exists k :: 0 <= k < 3 && responses(k).Http? && responses(k).code / 100 == 2)
  {
    var job := PrepareRetry(store, merchantID, dlqID, faults);
    if job.Rejected? {
      return job.code, None, job;
    }
    var ok := Redeliver(store, metrics, job.d, job.m, job.tx, now, responses, logFault, faults(4), faults(5));
    return 200, Some(ok), job;
  }

  lemma HasTransaction(db: Tables, d: DeliveryDLQ)
    requires db.Sound() && d in db.dlq
    ensures db.GetTransactionInternal(d.transactionID, false).Ok?
  {
  }
}
