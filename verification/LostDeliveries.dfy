/**
 When a delivery that has used up its attempts reaches the dead-letter queue. The documentation promises
 it always does; a webhook's notifier carries a transaction without its row id, and the foreign key then
 refuses the row.
 */
module LostDeliveries {
  import opened Prelude
  import opened Storage
  import opened Auth
  import opened Engine
  import opened Ingestion
  import opened Delivery
  import opened Overshoot

  /** `code` is the status code of the last response, 0 if there was none. */
  ghost predicate LastCode(responses: seq<Response>, code: int) {
    && responses != []
    && var last := responses[|responses| - 1];
    && (last.Http? ==> code == last.code) && (last.NetworkError? ==> code == 0)
  }

  /**
   In every reachable state, a notifier out of attempts gets its dead letter into the queue exactly when a
   retry started it and the database does not fail; whatever happens, it has then ended and is counted as
   an enqueue.
   */
  lemma QueuedExactlyWhen(env: Env, db: Tables, acts: seq<Action>, i: nat, r: Response, fault: bool)
    requires db.Sound() && i < |Run(env, Boot(db), acts).notifiers|
    requires Run(env, Boot(db), acts).notifiers[i].stage.Enqueueing?
    ensures var s := Run(env, Boot(db), acts);
            var s', n := Step(env, s, Deliver(i, r, fault)), s.notifiers[i];
            && |n.responses| == MAX_ATTEMPTS && AllFailed(n.responses, MAX_ATTEMPTS)
            && s'.notifiers[i].stage == Ended(false)
            && Read(s'.ctr.enqueues, n.merchant.id) == Read(s.ctr.enqueues, n.merchant.id) + 1
            && (s'.db.dlq != s.db.dlq <==> n.origin.FromRetry? && !fault)
            && (s'.db.dlq != s.db.dlq ==>
                  && |s'.db.dlq| == |s.db.dlq| + 1 && s.db.dlq < s'.db.dlq
                  && var d := s'.db.dlq[|s.db.dlq|];
                  && d.transactionID == n.tx.id && d.merchantID == n.merchant.id
                  && d.webhookURL == n.merchant.webhookURL
                  && d.attemptCount == MAX_ATTEMPTS && LastCode(n.responses, d.lastResponseCode)
                  && d.status == DLQFailed && d.resolvedAt.None?)
  {
    RunKeepsDelivery(env, Boot(db), acts);
    var s := Run(env, Boot(db), acts);
    var n := s.notifiers[i];
    assert n in s.notifiers && NotifierOk(s.db, n, s.clock);
    EnqueueKeeps(s.db, n, n.stage.log, fault);
  }

  // ---------------------------------------------------------------- a lost delivery

  /** A merchant with a webhook, below its limit, and one body about a successful new payment. */
  ghost predicate Payable(w: Setup) {
    && Ready(w) && w.db.Sound() && |w.bodies| == 1
    && w.db.merchants[w.m].webhookURL != "" && PaymentOf(w, w.bodies[0]).status == SUCCESSFUL
  }

  /** The request for that body is the only one so far, and stands at `stage`. */
  ghost predicate FirstAt(w: Setup, s: State, stage: Stage)
    requires w.m in w.db.merchants && |w.bodies| == 1
  {
    && |s.handlers| == 1 && s.handlers[0].req == RequestOf(w, w.bodies[0])
    && s.handlers[0].merchant == Some(w.db.merchants[w.m]) && s.handlers[0].stage == stage
    && s.notifiers == [] && w.m in s.db.merchants && s.db.dlq == w.db.dlq
  }

  /** Its notifier is the only one, stands at `stage`, and has heard `heard`. */
  ghost predicate OnlyNotifier(w: Setup, s: State, stage: NotifierStage, heard: seq<Response>)
    requires Payable(w)
  {
    && |s.notifiers| == 1 && s.notifiers[0].origin == FromWebhookHandler(0) && s.notifiers[0].stage == stage
    && s.notifiers[0].merchant == w.db.merchants[w.m] && s.notifiers[0].tx == PaymentOf(w, w.bodies[0])
    && s.notifiers[0].responses == heard && s.db.dlq == w.db.dlq
  }

  lemma FirstEnters(w: Setup, s: State)
    requires Payable(w) && s == Boot(w.db)
    ensures var s' := Step(w.env, Step(w.env, s, Arrive(RequestOf(w, w.bodies[0]))), Handle(0, w.now, false));
            FirstAt(w, s', Admitted) && s'.db == w.db
  {
    var s1 := Step(w.env, s, Arrive(RequestOf(w, w.bodies[0])));
    assert s1.handlers == [NewHandler(RequestOf(w, w.bodies[0]))] && s1.db == w.db;
  }

  lemma FirstIsAdmitted(w: Setup, s: State) returns (acts: seq<Action>)
    requires Payable(w) && s == Boot(w.db)
    ensures FirstAt(w, Run(w.env, s, acts), Admitted) && Run(w.env, s, acts).db == w.db
  {
    var a, b := Arrive(RequestOf(w, w.bodies[0])), Handle(0, w.now, false);
    FirstEnters(w, s);
    RunSnoc(w.env, s, [], a);
    RunSnoc(w.env, s, [] + [a], b);
    acts := [] + [a] + [b];
  }

  lemma FirstIsServed(w: Setup, s: State)
    requires Payable(w) && FirstAt(w, s, Admitted) && s.db == w.db
    ensures var a := Handle(0, w.now, false);
            FirstAt(w, Step(w.env, Step(w.env, Step(w.env, s, a), a), a), Counted(PaymentOf(w, w.bodies[0])))
  {
    var a, tx := Handle(0, w.now, false), PaymentOf(w, w.bodies[0]);
    CheckPasses(w, w.db, w.bodies[0], w.db.merchants[w.m]);
    var s1 := Step(w.env, s, a);
    assert FirstAt(w, s1, Parsed(tx)) && s1.db == w.db;
    var s2 := Step(w.env, s1, a);
    assert FirstAt(w, s2, Inserted(tx));
  }

  lemma FirstNotifies(w: Setup) returns (acts: seq<Action>)
    requires Payable(w)
    ensures OnlyNotifier(w, Run(w.env, Boot(w.db), acts), Posting(0), [])
  {
    var s, a := Boot(w.db), Handle(0, w.now, false);
    acts := FirstIsAdmitted(w, s);
    FirstIsServed(w, Run(w.env, s, acts));
    RunThree(w.env, s, acts, a, a, a);
    acts := acts + [a] + [a] + [a];
    RunSnoc(w.env, s, acts, a);
    acts := acts + [a];
  }

  function FailedLog(w: Setup, attempt: nat, r: Response): DeliveryLog
    requires Payable(w)
  {
    RecordOf(w.db.merchants[w.m], PaymentOf(w, w.bodies[0]), attempt, r, MAX_ATTEMPTS)
  }

  lemma AttemptFails(w: Setup, acts: seq<Action>, k: nat, heard: seq<Response>, r: Response)
    returns (more: seq<Action>)
    requires Payable(w) && k < MAX_ATTEMPTS && !Delivered(r)
    requires OnlyNotifier(w, Run(w.env, Boot(w.db), acts), Posting(k), heard)
    ensures OnlyNotifier(w, Run(w.env, Boot(w.db), more),
                         if k == MAX_ATTEMPTS - 1 then Enqueueing(FailedLog(w, k, r)) else Posting(k + 1), heard + [r])
  {
    var s, a := Boot(w.db), Deliver(0, r, false);
    var s1 := Step(w.env, Run(w.env, s, acts), a);
    assert OnlyNotifier(w, s1, Logging(FailedLog(w, k, r)), heard + [r]);
    RunSnoc(w.env, s, acts, a);
    RunSnoc(w.env, s, acts + [a], a);
    more := acts + [a] + [a];
  }

  /**
   Whatever the tables, the merchant and the payment, and whichever way all its attempts fail: there is a
   run in which the database never fails, the payment is stored, its delivery is given up, and the
   dead-letter queue is what it was.
   */
  lemma WebhookDeliveryIsLost(w: Setup, r0: Response, r1: Response, r2: Response) returns (acts: seq<Action>)
    requires Payable(w) && !Delivered(r0) && !Delivered(r1) && !Delivered(r2)
    ensures var s := Run(w.env, Boot(w.db), acts);
            && |s.notifiers| == 1
            && var n := s.notifiers[0];
            && n.origin.FromWebhookHandler? && n.merchant == w.db.merchants[w.m] && n.tx == PaymentOf(w, w.bodies[0])
            && n.stage == Ended(false) && !n.enqueueFault && n.responses == [r0, r1, r2]
            && s.db.Exists(n.tx.providerTxID) && s.db.dlq == w.db.dlq
  {
    acts := FirstNotifies(w);
    acts := AttemptFails(w, acts, 0, [], r0);
    acts := AttemptFails(w, acts, 1, [] + [r0], r1);
    acts := AttemptFails(w, acts, 2, [] + [r0] + [r1], r2);
    assert [] + [r0] + [r1] + [r2] == [r0, r1, r2];
    LastPostIsLost(w, acts, r2, [r0, r1, r2]);
    RunSnoc(w.env, Boot(w.db), acts, Deliver(0, r2, false));
    acts := acts + [Deliver(0, r2, false)];
    ExactlyOnce(w.env, w.db, acts);
  }

  lemma LastPostIsLost(w: Setup, acts: seq<Action>, r: Response, heard: seq<Response>)
    requires Payable(w) && OnlyNotifier(w, Run(w.env, Boot(w.db), acts), Enqueueing(FailedLog(w, 2, r)), heard)
    ensures var s' := Step(w.env, Run(w.env, Boot(w.db), acts), Deliver(0, r, false));
            && OnlyNotifier(w, s', Ended(false), heard) && !s'.notifiers[0].enqueueFault
  {
    QueuedExactlyWhen(w.env, w.db, acts, 0, r, false);
  }

  /** There are such setups. */
  lemma SomeSetupIsPayable() returns (w: Setup)
    ensures Payable(w) && w.env.heedReplay && w.db.dlq == []
  {
    w := SomeSetupIsReady(1, 1);
  }
}
