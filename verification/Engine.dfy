/**
 PayKit's delivery engine as one transition system.

 Any number of webhook handlers (internal/auth/quota.go, internal/webhook/handler.go), notifiers
 (internal/payments/notifier.go) and dead-letter retries (internal/webhook/dlq_admin.go) interleave over
 one set of tables. Every step runs one process up to and including its next access to shared state,
 because the program wraps no two of them in a transaction. An action carries everything the program
 does not decide: which process moves, the clock, the merchant's response, and whether the statement
 fails. An action that names no process changes nothing but the clock, so every sequence of actions is
 a run.
 */
module Engine {
  import opened Prelude
  import opened Storage
  import opened Auth

  // ---------------------------------------------------------------- webhook handlers

  /** POST /webhook/momo/:merchant_id; None where the path or the body cannot be read. */
  datatype Request = Request(merchantID: Option<int>, body: Option<bytes>, signature: string)

  datatype Stage =
    | Arrived
    | Admitted                    // past TierEnforcement
    | Parsed(tx: Transaction)     // past the checks and FromWebhook
    | Inserted(tx: Transaction)   // row stored, call not yet counted
    | Counted(tx: Transaction)    // call counted, or the count failed
    | Answered(code: nat)

  /**
   `merchant` is the snapshot TierEnforcement put in the context. The last three fields record history:
   the clock the request was checked against, the row it stored, and whether its increment failed.
   */
  datatype Handler = Handler(
    req: Request, stage: Stage, merchant: Option<Merchant>, checkedAt: int,
    stored: Option<Transaction>, uncounted: bool)

  function NewHandler(req: Request): Handler {
    Handler(req, Arrived, None, 0, None, false)
  }

  function EnforceTier(db: Tables, h: Handler, fault: bool): Handler {
    if h.req.merchantID.None? then h.(stage := Answered(400))
    else match db.GetMerchantByID(h.req.merchantID.value, fault)
      case Err => h.(stage := Answered(404))
      case Ok(m) =>
        if m.currentMonthCalls >= m.maxMonthlyCalls then h.(stage := Answered(429))
        else h.(stage := Admitted, merchant := Some(m))
  }

  /** Body, JSON, timestamp, signature, replay and parser, in the order of HandleMoMoWebhook. */
  function CheckRequest(env: Env, db: Tables, req: Request, m: Merchant, now: int, fault: bool): Stage {
    if req.body.None? then Answered(400)
    else match env.decode(req.body.value)
      case None => Answered(400)
      case Some(raw) =>
        if !TimestampOk(env, raw.timestamp, now) then Answered(401)
        else match VerifySpec(env, db, req.body.value, req.signature, raw.transactionID, fault)
          case MissingSignature => Answered(401)
          case InvalidSignature => Answered(401)
          case Replay => Answered(200)
          case MissingProviderTxID => Answered(500)
          case ReplayFailure => Answered(500)
          case Pass =>
            match FromWebhook(env, raw, req.body.value)
            case Err => Answered(422)
            case Ok(tx) => Parsed(tx.(merchantID := m.id))
  }

  /** The INSERT, which also fails for an amount that is no NUMERIC. */
  function Save(env: Env, db: Tables, tx: Transaction, fault: bool): Result<Tables> {
    db.Insert(tx, fault || !env.numeric(tx.amount))
  }

  function HandlerStep(env: Env, db: Tables, h: Handler, now: int, fault: bool): (Tables, Handler)
    requires h.stage.Admitted? ==> h.merchant.Some?
  {
    match h.stage
    case Arrived => (db, EnforceTier(db, h, fault))
    case Admitted =>
      (db, h.(stage := CheckRequest(env, db, h.req, h.merchant.value, now, fault), checkedAt := now))
    case Parsed(tx) =>
      (match Save(env, db, tx, fault)
       case Err => (db, h.(stage := Answered(500)))
       case Ok(db') => (db', h.(stage := Inserted(tx), stored := Some(tx.(id := db.nextTx)))))
    case Inserted(tx) =>
      (match db.IncrementMerchantCallCount(tx.merchantID, fault)
       case Err => (db, h.(stage := Counted(tx), uncounted := true))
       case Ok(db') => (db', h.(stage := Counted(tx))))
    case Counted(tx) => (db, h.(stage := Answered(200)))
    case Answered(_) => (db, h)
  }

  /** A handler's next steps with nothing else running, one for each fault. */
  function Uninterrupted(env: Env, db: Tables, h: Handler, now: int, faults: seq<bool>): (Tables, Handler)
    decreases faults
  {
    if faults == [] || (h.stage.Admitted? && h.merchant.None?) then (db, h)
    else
      var (db', h') := HandlerStep(env, db, h, now, faults[0]);
      Uninterrupted(env, db', h', now, faults[1..])
  }

  function AdmittedHandler(req: Request, m: Merchant): Handler {
    NewHandler(req).(stage := Admitted, merchant := Some(m))
  }

  lemma OneStep(env: Env, db: Tables, h: Handler, now: int, f: bool, faults: seq<bool>)
    requires h.stage.Admitted? ==> h.merchant.Some?
    ensures var (db', h') := HandlerStep(env, db, h, now, f);
            && (!h'.stage.Admitted? || h.stage.Arrived?)
            && Uninterrupted(env, db, h, now, [f] + faults) == Uninterrupted(env, db', h', now, faults)
  {
  }

  lemma FourSteps(env: Env, db: Tables, h: Handler, now: int, f1: bool, f2: bool, f3: bool, f4: bool)
    requires h.stage.Admitted? && h.merchant.Some?
    ensures var (db1, h1) := HandlerStep(env, db, h, now, f1);
            var (db2, h2) := HandlerStep(env, db1, h1, now, f2);
            var (db3, h3) := HandlerStep(env, db2, h2, now, f3);
            Uninterrupted(env, db, h, now, [f1, f2, f3, f4]) == HandlerStep(env, db3, h3, now, f4)
  {
    var (db1, h1) := HandlerStep(env, db, h, now, f1);
    OneStep(env, db, h, now, f1, [f2, f3, f4]);
    assert [f1] + [f2, f3, f4] == [f1, f2, f3, f4];
    var (db2, h2) := HandlerStep(env, db1, h1, now, f2);
    OneStep(env, db1, h1, now, f2, [f3, f4]);
    assert [f2] + [f3, f4] == [f2, f3, f4];
    var (db3, h3) := HandlerStep(env, db2, h2, now, f3);
    OneStep(env, db2, h2, now, f3, [f4]);
    assert [f3] + [f4] == [f3, f4];
    OneStep(env, db3, h3, now, f4, []);
    assert [f4] + [] == [f4];
  }

  // ---------------------------------------------------------------- notifiers

  const MAX_ATTEMPTS: nat := 3

  /** What postWebhook sees: no HTTP response at all, or a status code. */
  datatype Response = NetworkError | Http(code: int)

  predicate Is2xx(r: Response) {
    r.Http? && 200 <= r.code <= 299
  }

  function CodeOf(r: Response): int {
    match r case NetworkError => 0 case Http(code) => code
  }

  datatype Origin = FromWebhookHandler(handler: nat) | FromRetry(retry: nat)

  datatype NotifierStage =
    | Posting(attempt: nat)
    | Logging(log: DeliveryLog)
    | Enqueueing(log: DeliveryLog)
    | Ended(ok: bool)

  /**
   One run of NotifyMerchant. `responses` and `handed` record the responses received and the records
   handed to InsertDeliveryLog; `deliveredAt` is the clock at the last response; `enqueueFault` says that
   the EnqueueDLQ statement failed, and `queued` is the id of the row it stored.
   */
  datatype Notifier = Notifier(
    origin: Origin, merchant: Merchant, tx: Transaction, startedAt: nat, stage: NotifierStage,
    responses: seq<Response>, handed: seq<DeliveryLog>, deliveredAt: nat, enqueueFault: bool,
    queued: Option<int>)

  predicate Eligible(m: Merchant, tx: Transaction) {
    m.webhookURL != "" && tx.status == SUCCESSFUL
  }

  function StartNotifier(origin: Origin, m: Merchant, tx: Transaction, clock: nat): Notifier {
    Notifier(origin, m, tx, clock, if Eligible(m, tx) then Posting(0) else Ended(false), [], [], clock, false, None)
  }

  function StatusOf(attempt: int, ok: bool, limit: nat): DeliveryStatus {
    if ok then Success else if attempt == limit - 1 then Failed else Retrying
  }

  /** The record of one attempt; its merchant id is never filled in. */
  function LogOf(m: Merchant, tx: Transaction, attempt: nat, r: Response, limit: nat): DeliveryLog {
    DeliveryLog(tx.id, 0, m.webhookURL, attempt, StatusOf(attempt, Is2xx(r), limit), CodeOf(r))
  }

  /** The row NotifyMerchant hands to EnqueueDLQ after its last attempt. */
  function DeadLetter(m: Merchant, tx: Transaction, log: DeliveryLog): DeliveryDLQ {
    DeliveryDLQ(0, tx.id, m.id, m.webhookURL, log.attempt + 1, log.responseCode, DLQFailed, None)
  }

  datatype Counters = Counters(
    deliveries: map<(int, DeliveryStatus), nat>, enqueues: map<int, nat>,
    retries: map<int, nat>, failures: map<int, nat>, resolved: map<int, nat>)

  function Read<K>(c: map<K, nat>, k: K): nat {
    if k in c then c[k] else 0
  }

  function Bump<K>(c: map<K, nat>, k: K): map<K, nat> {
    c[k := Read(c, k) + 1]
  }

  function NotifierStep(db: Tables, n: Notifier, ctr: Counters, clock: nat, r: Response, fault: bool)
    : (Tables, Notifier, Counters)
  {
    match n.stage
    case Posting(k) =>
      var log := LogOf(n.merchant, n.tx, k, r, MAX_ATTEMPTS);
      (db,
       n.(stage := Logging(log), responses := n.responses + [r], deliveredAt := clock),
       ctr.(deliveries := Bump(ctr.deliveries, (n.merchant.id, log.status))))
    case Logging(log) =>
      var db' := match db.InsertDeliveryLog(log, fault) case Err => db case Ok(d) => d;
      var next := match log.status
                  case Success => Ended(true)
                  case Failed => Enqueueing(log)
                  case Retrying => Posting(log.attempt + 1);
      (db', n.(stage := next, handed := n.handed + [log]), ctr)
    case Enqueueing(log) =>
      var row := DeadLetter(n.merchant, n.tx, log);
      var ctr' := ctr.(enqueues := Bump(ctr.enqueues, n.merchant.id));
      var ended := n.(stage := Ended(false), enqueueFault := fault);
      (match db.EnqueueDLQ(row, fault)
       case Err => (db, ended, ctr')
       case Ok(db') => (db', ended.(queued := Some(db.nextDLQ)), ctr'))
    case Ended(_) => (db, n, ctr)
  }

  // ---------------------------------------------------------------- dead-letter retries

  datatype RetryStage =
    | Called
    | HasRow(d: DeliveryDLQ)
    | Requeued(d: DeliveryDLQ)
    | HasMerchant(d: DeliveryDLQ, m: Merchant)
    | Launched(d: DeliveryDLQ, m: Merchant, tx: Transaction)   // answered 200, goroutine not yet started
    | Running(d: DeliveryDLQ, m: Merchant, notifier: nat)
    | Resolving(d: DeliveryDLQ, m: Merchant)                   // ResolveDLQ done, counter not yet bumped
    | Finished(d: DeliveryDLQ)
    | Rejected(code: nat)

  /** POST /dlq/:id/retry by an authenticated merchant; `readAt` is the clock at GetDLQ. */
  datatype Retry = Retry(merchantID: int, dlqID: int, stage: RetryStage, readAt: nat)

  // ---------------------------------------------------------------- the system

  datatype State = State(
    db: Tables, handlers: seq<Handler>, notifiers: seq<Notifier>, retries: seq<Retry>,
    ctr: Counters, clock: nat)

  datatype Action =
    | Arrive(req: Request)
    | Handle(h: nat, now: int, fault: bool)
    | Deliver(n: nat, response: Response, fault: bool)
    | CallRetry(merchantID: int, dlqID: int)
    | Redeliver(r: nat, now: int, fault: bool)
    | SetQuota(id: int, maxCalls: int)
    | SetActive(id: int, active: bool)
    | SetWebhookURL(id: int, url: string)

  function HandleStep(env: Env, s: State, i: nat, now: int, fault: bool): State
    requires i < |s.handlers|
    requires s.handlers[i].stage.Admitted? ==> s.handlers[i].merchant.Some?
  {
    var h := s.handlers[i];
    var (db, h') := HandlerStep(env, s.db, h, now, fault);
    var s' := s.(db := db, handlers := s.handlers[i := h']);
    if h.stage.Counted? && h.merchant.Some? then
      s'.(notifiers := s.notifiers + [StartNotifier(FromWebhookHandler(i), h.merchant.value, h.stage.tx, s.clock)])
    else s'
  }

  function DeliverStep(s: State, i: nat, r: Response, fault: bool): State
    requires i < |s.notifiers|
  {
    var (db, n, ctr) := NotifierStep(s.db, s.notifiers[i], s.ctr, s.clock, r, fault);
    s.(db := db, notifiers := s.notifiers[i := n], ctr := ctr)
  }

  function SetStage(s: State, i: nat, st: RetryStage): State
    requires i < |s.retries|
  {
    s.(retries := s.retries[i := s.retries[i].(stage := st)])
  }

  function RetryStep(s: State, i: nat, now: int, fault: bool): State
    requires i < |s.retries|
  {
    var r := s.retries[i];
    match r.stage
    case Called =>
      (match s.db.GetDLQ(r.dlqID, r.merchantID, fault)
       case Err => SetStage(s, i, Rejected(404))
       case Ok(d) =>
         if d.status == DLQResolved then SetStage(s, i, Rejected(200))
         else s.(retries := s.retries[i := r.(stage := HasRow(d), readAt := s.clock)]))
    case HasRow(d) =>
      (match s.db.MarkDLQRequeued(d.id, fault)
       case Err => SetStage(s, i, Rejected(500))
       case Ok(db) => SetStage(s, i, Requeued(d)).(db := db))
    case Requeued(d) =>
      (match s.db.GetMerchantByID(r.merchantID, fault)
       case Err => SetStage(s, i, Rejected(500))
       case Ok(m) => SetStage(s, i, HasMerchant(d, m)))
    case HasMerchant(d, m) =>
      (match s.db.GetTransactionInternal(d.transactionID, fault)
       case Err => SetStage(s, i, Rejected(404))
       case Ok(tx) => SetStage(s, i, Launched(d, m, tx)))
    case Launched(d, m, tx) =>
      SetStage(s, i, Running(d, m, |s.notifiers|)).(
        notifiers := s.notifiers + [StartNotifier(FromRetry(i), m, tx, s.clock)],
        ctr := s.ctr.(retries := Bump(s.ctr.retries, m.id)))
    case Running(d, m, n) =>
      if n < |s.notifiers| && s.notifiers[n].stage == Ended(true) then
        (match s.db.ResolveDLQ(d.id, now, fault)
         case Err => SetStage(s, i, Resolving(d, m))
         case Ok(db) => SetStage(s, i, Resolving(d, m)).(db := db))
      else if n < |s.notifiers| && s.notifiers[n].stage == Ended(false) then
        SetStage(s, i, Finished(d)).(ctr := s.ctr.(failures := Bump(s.ctr.failures, m.id)))
      else s
    case Resolving(d, m) =>
      SetStage(s, i, Finished(d)).(ctr := s.ctr.(resolved := Bump(s.ctr.resolved, m.id)))
    case Finished(_) => s
    case Rejected(_) => s
  }

  function Act(env: Env, s: State, a: Action): State {
    match a
    case Arrive(req) => s.(handlers := s.handlers + [NewHandler(req)])
    case Handle(i, now, fault) =>
      if i < |s.handlers| && (s.handlers[i].stage.Admitted? ==> s.handlers[i].merchant.Some?)
      then HandleStep(env, s, i, now, fault) else s
    case Deliver(i, r, fault) => if i < |s.notifiers| then DeliverStep(s, i, r, fault) else s
    case CallRetry(m, id) => s.(retries := s.retries + [Retry(m, id, Called, 0)])
    case Redeliver(i, now, fault) => if i < |s.retries| then RetryStep(s, i, now, fault) else s
    case SetQuota(id, max) => s.(db := s.db.UpdateMerchantQuota(id, max))
    case SetActive(id, b) => s.(db := s.db.SetMerchantActive(id, b))
    case SetWebhookURL(id, url) => s.(db := s.db.UpdateMerchantWebhookURL(id, url))
  }

  function Step(env: Env, s: State, a: Action): State {
    Act(env, s, a).(clock := s.clock + 1)
  }

  function Run(env: Env, s: State, acts: seq<Action>): State {
    if acts == [] then s else Step(env, Run(env, s, acts[..|acts| - 1]), acts[|acts| - 1])
  }

  lemma RunSnoc(env: Env, s: State, acts: seq<Action>, a: Action)
    ensures Run(env, s, acts + [a]) == Step(env, Run(env, s, acts), a)
  {
  }

  lemma RunThree(env: Env, s: State, acts: seq<Action>, a: Action, b: Action, c: Action)
    ensures Run(env, s, acts + [a] + [b] + [c]) == Step(env, Step(env, Step(env, Run(env, s, acts), a), b), c)
  {
    RunSnoc(env, s, acts, a);
    RunSnoc(env, s, acts + [a], b);
    RunSnoc(env, s, acts + [a] + [b], c);
  }

  function Boot(db: Tables): State {
    State(db, [], [], [], Counters(map[], map[], map[], map[], map[]), 0)
  }
}
